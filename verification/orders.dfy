/** The order and rider documents of the delivery service: `orders` and
    `riders` are collections of the document store, every mutator is a step
    on them, and `now` stands for the store's `Timestamp.now()`.

    The service keeps no status transition graph: `UpdateOrderStatus` writes
    whatever status it is given over whatever status the order had, and
    `AssignRider` forces `dispatched` from any status (see
    `AnyStatusCanBeWritten`). */
module Orders {
  import opened Wrappers
  import opened Documents

  /** The fields `createOrder` writes after the caller's data. */
  const OrderStamps: set<string> :=
    {"status", "createdAt", "updatedAt", "riderId", "riderLocation", "estimatedDeliveryTime"}

  // ------------------------------------------------------------ document updates

  /** The document `createOrder` stores: the caller's data with the fixed
      fields spread after it, so they win over anything the caller put there. */
  function Placed(orderData: Fields, now: int): (r: Fields)
    ensures r.Keys == orderData.Keys + OrderStamps
    ensures r["status"] == Str("placed")
    ensures r["riderId"] == Null && r["riderLocation"] == Null && r["estimatedDeliveryTime"] == Null
    ensures r["createdAt"] == Stamp(now) && r["updatedAt"] == Stamp(now)
    ensures forall f :: f in orderData && f !in OrderStamps ==> r[f] == orderData[f]
  {
    Merge(orderData, map[
      "status" := Str("placed"),
      "createdAt" := Stamp(now),
      "updatedAt" := Stamp(now),
      "riderId" := Null,
      "riderLocation" := Null,
      "estimatedDeliveryTime" := Null])
  }

  /** An order after `updateOrderStatus`: `status` and `updatedAt` are written
      first and `additionalData` after them, so the caller's data wins a clash,
      even over the status itself. */
  function StatusUpdated(doc: Fields, status: string, now: int, additionalData: Fields): (r: Fields)
    ensures r.Keys == doc.Keys + {"status", "updatedAt"} + additionalData.Keys
    ensures forall f :: f in additionalData ==> r[f] == additionalData[f]
    ensures "status" !in additionalData ==> r["status"] == Str(status)
    ensures "updatedAt" !in additionalData ==> r["updatedAt"] == Stamp(now)
    ensures forall f :: f in doc && f !in additionalData && f != "status" && f != "updatedAt" ==> r[f] == doc[f]
  {
    Merge(doc, Merge(map["status" := Str(status), "updatedAt" := Stamp(now)], additionalData))
  }

  /** An order after `assignRider`: the rider is set and the status is
      `dispatched` whatever it was; nothing else but `updatedAt` moves. */
  function RiderAssigned(doc: Fields, riderId: string, now: int): (r: Fields)
    ensures r.Keys == doc.Keys + {"riderId", "status", "updatedAt"}
    ensures r["riderId"] == Str(riderId) && r["status"] == Str("dispatched") && r["updatedAt"] == Stamp(now)
    ensures forall f :: f in doc && f != "riderId" && f != "status" && f != "updatedAt" ==> r[f] == doc[f]
  {
    Merge(doc, map["riderId" := Str(riderId), "status" := Str("dispatched"), "updatedAt" := Stamp(now)])
  }

  /** An order after `updateOrderRiderLocation`: only `riderLocation` and
      `updatedAt` change; in particular the status stays as it was. */
  function OrderLocated(doc: Fields, riderLocation: Value, now: int): (r: Fields)
    ensures r.Keys == doc.Keys + {"riderLocation", "updatedAt"}
    ensures r["riderLocation"] == riderLocation && r["updatedAt"] == Stamp(now)
    ensures forall f :: f in doc && f != "riderLocation" && f != "updatedAt" ==> r[f] == doc[f]
    ensures ("status" in r <==> "status" in doc) && ("status" in doc ==> r["status"] == doc["status"])
  {
    Merge(doc, map["riderLocation" := riderLocation, "updatedAt" := Stamp(now)])
  }

  /** A rider after `updateRiderLocation`: only `location` and `lastUpdate` change. */
  function RiderLocated(doc: Fields, location: Value, now: int): (r: Fields)
    ensures r.Keys == doc.Keys + {"location", "lastUpdate"}
    ensures r["location"] == location && r["lastUpdate"] == Stamp(now)
    ensures forall f :: f in doc && f != "location" && f != "lastUpdate" ==> r[f] == doc[f]
  {
    Merge(doc, map["location" := location, "lastUpdate" := Stamp(now)])
  }

  /** An existing rider after `createOrUpdateRider`: the caller's data merged
      in, then `lastUpdate`, which wins over a `lastUpdate` in the data. */
  function RiderRefreshed(doc: Fields, riderData: Fields, now: int): (r: Fields)
    ensures r.Keys == doc.Keys + riderData.Keys + {"lastUpdate"}
    ensures r["lastUpdate"] == Stamp(now)
    ensures forall f :: f in riderData && f != "lastUpdate" ==> r[f] == riderData[f]
    ensures forall f :: f in doc && f !in riderData && f != "lastUpdate" ==> r[f] == doc[f]
  {
    Merge(doc, Merge(riderData, map["lastUpdate" := Stamp(now)]))
  }

  /** The document `createOrUpdateRider` adds for an unknown rider:
      `{ id: riderId, ...riderData, createdAt, lastUpdate }`. The rider id is
      a field of the new document, not its key; the data can override it. */
  function NewRider(riderId: string, riderData: Fields, now: int): (r: Fields)
    ensures r.Keys == riderData.Keys + {"id", "createdAt", "lastUpdate"}
    ensures r["createdAt"] == Stamp(now) && r["lastUpdate"] == Stamp(now)
    ensures "id" !in riderData ==> r["id"] == Str(riderId)
    ensures forall f :: f in riderData && f != "createdAt" && f != "lastUpdate" ==> r[f] == riderData[f]
  {
    Merge(Merge(map["id" := Str(riderId)], riderData), map["createdAt" := Stamp(now), "lastUpdate" := Stamp(now)])
  }

  /** The riders collection after `createOrUpdateRider(riderId, riderData)`,
      where `newKey` is the key the store would give an added document. The
      lookup is by key `riderId`, but an insert goes under `newKey`, so the
      key `riderId` never comes into being and the next call inserts again. */
  function Upserted(riders: Collection, riderId: string, riderData: Fields, now: int, newKey: string): (r: Collection)
    ensures riderId in riders ==> r == riders[riderId := RiderRefreshed(riders[riderId], riderData, now)]
    ensures riderId !in riders ==> r == riders[newKey := NewRider(riderId, riderData, now)]
    ensures riderId in riders ==> r.Keys == riders.Keys
    ensures riderId !in riders ==> r.Keys == riders.Keys + {newKey}
    ensures riderId !in riders && newKey != riderId ==> riderId !in r
  {
    if riderId in riders then
      riders[riderId := RiderRefreshed(riders[riderId], riderData, now)]
    else
      riders[newKey := NewRider(riderId, riderData, now)]
  }

  /** One call of `createOrUpdateRider`, with the key the store hands out. */
  datatype RiderPush = RiderPush(riderData: Fields, now: int, newKey: string)

  /** The riders collection after the given calls for one rider id, in order. */
  function UpsertAll(riders: Collection, riderId: string, pushes: seq<RiderPush>): Collection
    decreases |pushes|
  {
    if pushes == [] then riders
    else
      UpsertAll(Upserted(riders, riderId, pushes[0].riderData, pushes[0].now, pushes[0].newKey),
                riderId, pushes[1..])
  }

  /** Keys the store hands out: all distinct, none already used, none equal
      to the rider id being upserted. */
  ghost predicate FreshKeys(riders: Collection, riderId: string, pushes: seq<RiderPush>) {
    && (forall i :: 0 <= i < |pushes| ==> pushes[i].newKey !in riders && pushes[i].newKey != riderId)
    && (forall i, j :: 0 <= i < j < |pushes| ==> pushes[i].newKey != pushes[j].newKey)
  }

  /** Upserting a rider whose id is not a key inserts a new document on every
      call: after n calls the key is still absent and there are n new
      documents. */
  lemma {:induction false} UpsertsKeepInserting(riders: Collection, riderId: string, pushes: seq<RiderPush>)
    requires riderId !in riders
    requires FreshKeys(riders, riderId, pushes)
    ensures riderId !in UpsertAll(riders, riderId, pushes)
    ensures |UpsertAll(riders, riderId, pushes)| == |riders| + |pushes|
    decreases |pushes|
  {
    if pushes != [] {
      var p := pushes[0];
      var next := Upserted(riders, riderId, p.riderData, p.now, p.newKey);
      assert FreshKeys(next, riderId, pushes[1..]) by {
        forall i | 0 <= i < |pushes[1..]|
          ensures pushes[1..][i].newKey !in next && pushes[1..][i].newKey != riderId
        {
          assert pushes[1..][i] == pushes[i + 1];
        }
      }
      UpsertsKeepInserting(next, riderId, pushes[1..]);
      InsertGrows(riders, p.newKey, NewRider(riderId, p.riderData, p.now));
    }
  }

  lemma InsertGrows(coll: Collection, key: string, doc: Fields)
    requires key !in coll
    ensures |coll[key := doc]| == |coll| + 1
  {
    assert coll[key := doc].Keys == coll.Keys + {key};
  }

  /** Nothing in the service guards the status: from any status of an
      existing order, any other status can be written, and `assignRider`
      reaches `dispatched` from any status, terminal ones included. */
  lemma AnyStatusCanBeWritten(doc: Fields, status: string, riderId: string, now: int)
    ensures StatusUpdated(doc, status, now, map[])["status"] == Str(status)
    ensures RiderAssigned(doc, riderId, now)["status"] == Str("dispatched")
  {
  }

  // ------------------------------------------------------------ reads

  /** `getOrder(id)` on the orders collection, and `getRider(id)` on the
      riders collection: no document when the store is not configured or
      the key is absent, otherwise the stored fields with the key as `id`. */
  function Lookup(configured: bool, coll: Collection, key: string): (r: Option<Fields>)
    ensures r.Some? <==> configured && key in coll
    ensures r.Some? ==> r.value.Keys == coll[key].Keys + {"id"}
    ensures r.Some? ==> forall f :: f in coll[key] ==> r.value[f] == coll[key][f]
    ensures r.Some? && "id" !in coll[key] ==> r.value["id"] == Str(key)
  {
    if configured && key in coll then Some(WithId(key, coll[key])) else None
  }

  /** What `subscribeToRiderLocation(riderId, cb)` hands to `cb` for the
      current riders collection: `None` when the store is not configured (the
      callback never fires), otherwise `data.location || null`, that is the
      stored location when it is truthy and `null` in every other case. */
  function LocationUpdate(configured: bool, riders: Collection, riderId: string): (r: Option<Value>)
    ensures r.None? <==> !configured
    ensures r.Some? ==> r.value == Null || Truthy(r.value)
    ensures r.Some? && r.value != Null ==>
      riderId in riders && "location" in riders[riderId] && r.value == riders[riderId]["location"]
    ensures configured && riderId in riders && "location" in riders[riderId] && Truthy(riders[riderId]["location"]) ==>
      r == Some(riders[riderId]["location"])
  {
    if !configured then None
    else if riderId in riders && "location" in riders[riderId] && Truthy(riders[riderId]["location"]) then
      Some(riders[riderId]["location"])
    else Some(Null)
  }

  /** What an `updateDoc` on `key` does first: reject when the store is not
      configured or holds no document under the key. */
  function UpdateOutcome(configured: bool, coll: Collection, key: string): (r: Outcome<StoreError>)
    ensures r.Pass? <==> configured && key in coll
    ensures !configured ==> r == Fail(NotConfigured)
  {
    if !configured then Fail(NotConfigured)
    else if key !in coll then Fail(NoDocument)
    else Pass
  }

  // ------------------------------------------------------------ the store

  /** The two collections and the configuration flag the service reads. */
  class OrderStore {
    var configured: bool
    var orders: Collection
    var riders: Collection

    constructor (configured: bool, orders: Collection, riders: Collection)
      ensures this.configured == configured && this.orders == orders && this.riders == riders
    {
      this.configured := configured;
      this.orders := orders;
      this.riders := riders;
    }

    /** `createOrder(orderData)`: adds `Placed(orderData, now)` under the key
        the store generates and returns it with that key as `id`. */
    method CreateOrder(orderData: Fields, now: int, newKey: string) returns (r: Result<Fields, StoreError>)
      requires newKey !in orders
      modifies this`orders
      ensures !configured ==> r == Err(NotConfigured) && orders == old(orders)
      ensures configured ==> r == Ok(WithId(newKey, Placed(orderData, now)))
      ensures configured ==> orders == old(orders)[newKey := Placed(orderData, now)]
    {
      if !configured {
        return Err(NotConfigured);
      }
      var order := Placed(orderData, now);
      orders := orders[newKey := order];
      r := Ok(WithId(newKey, order));
    }

    /** `updateOrderStatus(orderId, status, additionalData)`. */
    method UpdateOrderStatus(orderId: string, status: string, additionalData: Fields, now: int)
      returns (r: Outcome<StoreError>)
      modifies this`orders
      ensures r == UpdateOutcome(configured, old(orders), orderId)
      ensures r.Pass? ==> orders == old(orders)[orderId := StatusUpdated(old(orders)[orderId], status, now, additionalData)]
      ensures r.Fail? ==> orders == old(orders)
    {
      if !configured {
        return Fail(NotConfigured);
      }
      if orderId !in orders {
        return Fail(NoDocument);
      }
      orders := orders[orderId := StatusUpdated(orders[orderId], status, now, additionalData)];
      r := Pass;
    }

    /** `assignRider(orderId, riderId)`. */
    method AssignRider(orderId: string, riderId: string, now: int) returns (r: Outcome<StoreError>)
      modifies this`orders
      ensures r == UpdateOutcome(configured, old(orders), orderId)
      ensures r.Pass? ==> orders == old(orders)[orderId := RiderAssigned(old(orders)[orderId], riderId, now)]
      ensures r.Fail? ==> orders == old(orders)
    {
      if !configured {
        return Fail(NotConfigured);
      }
      if orderId !in orders {
        return Fail(NoDocument);
      }
      orders := orders[orderId := RiderAssigned(orders[orderId], riderId, now)];
      r := Pass;
    }

    /** `updateRiderLocation(riderId, location)`. */
    method UpdateRiderLocation(riderId: string, location: Value, now: int) returns (r: Outcome<StoreError>)
      modifies this`riders
      ensures r == UpdateOutcome(configured, old(riders), riderId)
      ensures r.Pass? ==> riders == old(riders)[riderId := RiderLocated(old(riders)[riderId], location, now)]
      ensures r.Fail? ==> riders == old(riders)
    {
      if !configured {
        return Fail(NotConfigured);
      }
      if riderId !in riders {
        return Fail(NoDocument);
      }
      riders := riders[riderId := RiderLocated(riders[riderId], location, now)];
      r := Pass;
    }

    /** `updateOrderRiderLocation(orderId, riderLocation)`. */
    method UpdateOrderRiderLocation(orderId: string, riderLocation: Value, now: int) returns (r: Outcome<StoreError>)
      modifies this`orders
      ensures r == UpdateOutcome(configured, old(orders), orderId)
      ensures r.Pass? ==> orders == old(orders)[orderId := OrderLocated(old(orders)[orderId], riderLocation, now)]
      ensures r.Fail? ==> orders == old(orders)
    {
      if !configured {
        return Fail(NotConfigured);
      }
      if orderId !in orders {
        return Fail(NoDocument);
      }
      orders := orders[orderId := OrderLocated(orders[orderId], riderLocation, now)];
      r := Pass;
    }

    /** `createOrUpdateRider(riderId, riderData)`: read the key `riderId`;
        merge into it when it exists, otherwise add a new document under the
        key the store generates. */
    method CreateOrUpdateRider(riderId: string, riderData: Fields, now: int, newKey: string)
      returns (r: Outcome<StoreError>)
      requires newKey !in riders
      modifies this`riders
      ensures r == (if configured then Pass else Fail(NotConfigured))
      ensures r.Pass? ==> riders == Upserted(old(riders), riderId, riderData, now, newKey)
      ensures r.Fail? ==> riders == old(riders)
    {
      if !configured {
        return Fail(NotConfigured);
      }
      var existing := Lookup(configured, riders, riderId);
      if existing.Some? {
        riders := riders[riderId := RiderRefreshed(riders[riderId], riderData, now)];
      } else {
        riders := riders[newKey := NewRider(riderId, riderData, now)];
      }
      r := Pass;
    }
  }
}
