/** The order queries that sort on the client: a customer's order history,
    gathered by phone and by email, and a rider's orders. The store's answer
    to each equality query is an input, either the matching documents or a
    rejection; `Answers` says when a list of documents is the right answer. */
module OrderQueries {
  import opened Wrappers
  import opened Documents
  import Orders

  /** A document as a query returns it. */
  datatype DocSnap = DocSnap(key: string, data: Fields)

  /** What `getDocs` produced for one query. */
  datatype QueryResult = Rejected | Docs(snaps: seq<DocSnap>)

  /** `snaps` is the answer of `where(field, '==', value)` on `coll`: exactly
      the matching documents, each once. */
  ghost predicate Answers(coll: Collection, field: string, value: Value, snaps: seq<DocSnap>) {
    && (forall i :: 0 <= i < |snaps| ==>
          snaps[i].key in coll && snaps[i].data == coll[snaps[i].key]
          && field in snaps[i].data && snaps[i].data[field] == value)
    && (forall k :: k in coll && field in coll[k] && coll[k][field] == value ==>
          exists i :: 0 <= i < |snaps| && snaps[i].key == k)
    && (forall i, j :: 0 <= i < j < |snaps| ==> snaps[i].key != snaps[j].key)
  }

  /** `snapshot.docs.map(doc => ({ id: doc.id, ...doc.data() }))`. */
  function Records(snaps: seq<DocSnap>): (r: seq<Fields>)
    ensures |r| == |snaps|
    ensures forall i :: 0 <= i < |snaps| ==> r[i] == WithId(snaps[i].key, snaps[i].data)
  {
    seq(|snaps|, i requires 0 <= i < |snaps| => WithId(snaps[i].key, snaps[i].data))
  }

  /** The records a query contributes: none when it was rejected (the
      rejection is caught and logged). */
  function Found(q: QueryResult): seq<Fields> {
    if q.Docs? then Records(q.snaps) else []
  }

  // ------------------------------------------------------------ ordering

  /** The sort key `a.createdAt?.toMillis?.() || a.createdAt || 0`: a
      Timestamp's milliseconds, a raw number as it is (`true` counts as 1),
      and 0 for a missing or null value. */
  function CreatedMillis(record: Fields): (r: int)
    ensures "createdAt" !in record || !Truthy(record["createdAt"]) ==> r == 0
    ensures "createdAt" in record && record["createdAt"].Stamp? ==> r == record["createdAt"].millis
    ensures "createdAt" in record && record["createdAt"].Num? ==> r == record["createdAt"].n
  {
    if "createdAt" !in record then 0
    else match record["createdAt"]
      case Stamp(m) => m
      case Num(n) => n
      case Bool(b) => if b then 1 else 0
      case _ => 0
  }

  /** Newest first: the sort key never increases along the list. */
  predicate NewestFirst(xs: seq<Fields>) {
    forall i, j :: 0 <= i < j < |xs| ==> CreatedMillis(xs[i]) >= CreatedMillis(xs[j])
  }

  function IdOf(record: Fields): Option<Value> {
    if "id" in record then Some(record["id"]) else None
  }

  /** `xs.find(o => o.id === id)` finds something. */
  predicate HasId(xs: seq<Fields>, id: Option<Value>) {
    exists i :: 0 <= i < |xs| && IdOf(xs[i]) == id
  }

  /** No id occurs twice. */
  predicate DistinctIds(xs: seq<Fields>) {
    forall i, j :: 0 <= i < j < |xs| ==> IdOf(xs[i]) != IdOf(xs[j])
  }

  /** Inserts `x` before the first element that is not newer than it. */
  function InsertByDate(x: Fields, xs: seq<Fields>): (r: seq<Fields>)
    requires NewestFirst(xs)
    ensures NewestFirst(r)
    ensures multiset(r) == multiset(xs) + multiset{x}
  {
    if xs == [] then [x]
    else if CreatedMillis(x) >= CreatedMillis(xs[0]) then [x] + xs
    else
      var rest := InsertByDate(x, xs[1..]);
      assert xs == [xs[0]] + xs[1..];
      BoundedByHead(x, xs, rest);
      ConsNewestFirst(xs[0], rest);
      [xs[0]] + rest
  }

  /** What is inserted behind the head of a newest-first list is no newer
      than that head. */
  lemma BoundedByHead(x: Fields, xs: seq<Fields>, rest: seq<Fields>)
    requires xs != [] && NewestFirst(xs) && CreatedMillis(x) < CreatedMillis(xs[0])
    requires multiset(rest) == multiset(xs[1..]) + multiset{x}
    ensures forall k :: 0 <= k < |rest| ==> CreatedMillis(rest[k]) <= CreatedMillis(xs[0])
  {
    forall k | 0 <= k < |rest| ensures CreatedMillis(rest[k]) <= CreatedMillis(xs[0]) {
      assert rest[k] in multiset(rest);
      if rest[k] != x {
        assert rest[k] in multiset(xs[1..]);
        var m :| 0 <= m < |xs[1..]| && xs[1..][m] == rest[k];
        assert xs[m + 1] == rest[k];
      }
    }
  }

  /** A record no older than every record of a newest-first list may go in
      front of it. */
  lemma ConsNewestFirst(y: Fields, ys: seq<Fields>)
    requires NewestFirst(ys)
    requires forall k :: 0 <= k < |ys| ==> CreatedMillis(ys[k]) <= CreatedMillis(y)
    ensures NewestFirst([y] + ys)
  {
    var r := [y] + ys;
    forall i, j | 0 <= i < j < |r| ensures CreatedMillis(r[i]) >= CreatedMillis(r[j]) {
      assert r[j] == ys[j - 1];
      if i > 0 {
        assert r[i] == ys[i - 1];
      }
    }
  }

  /** The client-side `sort((a, b) => bTime - aTime)`: newest first and the
      same records, each as often as before. */
  function SortNewestFirst(xs: seq<Fields>): (r: seq<Fields>)
    ensures NewestFirst(r)
    ensures multiset(r) == multiset(xs)
  {
    if xs == [] then []
    else
      assert xs == [xs[0]] + xs[1..];
      InsertByDate(xs[0], SortNewestFirst(xs[1..]))
  }

  /** Two lists with the same records hold the same records at some index. */
  lemma SameElements(xs: seq<Fields>, ys: seq<Fields>)
    requires multiset(xs) == multiset(ys)
    ensures forall y :: y in xs <==> y in ys
  {
    forall y ensures y in xs <==> y in ys {
      assert y in xs <==> y in multiset(xs);
      assert y in ys <==> y in multiset(ys);
    }
  }

  /** Reordering keeps ids distinct: each id still belongs to one record. */
  lemma {:induction false} PermutationKeepsDistinctIds(xs: seq<Fields>, ys: seq<Fields>)
    requires multiset(xs) == multiset(ys)
    requires DistinctIds(xs)
    ensures DistinctIds(ys)
  {
    forall i, j | 0 <= i < j < |ys| ensures IdOf(ys[i]) != IdOf(ys[j]) {
      if IdOf(ys[i]) == IdOf(ys[j]) {
        SameElements(xs, ys);
        assert ys[i] in xs && ys[j] in xs;
        var a :| 0 <= a < |xs| && xs[a] == ys[i];
        var b :| 0 <= b < |xs| && xs[b] == ys[j];
        assert a == b;
        assert ys[i] == ys[j];
        TwoCopies(ys, i, j);
        assert multiset(xs)[xs[a]] >= 2;
        SingleCopy(xs, a);
        assert false;
      }
    }
  }

  /** An element at two indexes occurs at least twice. */
  lemma {:induction false} TwoCopies(xs: seq<Fields>, i: nat, j: nat)
    requires i < j < |xs| && xs[i] == xs[j]
    ensures multiset(xs)[xs[i]] >= 2
  {
    assert xs == xs[..j] + [xs[j]] + xs[j + 1..];
    assert xs[..j] == xs[..i] + [xs[i]] + xs[i + 1..j];
  }

  /** With distinct ids every record occurs once. */
  lemma {:induction false} SingleCopy(xs: seq<Fields>, a: nat)
    requires DistinctIds(xs) && a < |xs|
    ensures multiset(xs)[xs[a]] == 1
  {
    assert xs == xs[..a] + [xs[a]] + xs[a + 1..];
    assert xs[a] !in xs[..a] by {
      forall k | 0 <= k < a ensures xs[..a][k] != xs[a] {
        assert IdOf(xs[k]) != IdOf(xs[a]);
      }
    }
    assert xs[a] !in xs[a + 1..] by {
      forall k | a + 1 <= k < |xs| ensures xs[k] != xs[a] {
        assert IdOf(xs[k]) != IdOf(xs[a]);
      }
    }
  }

  /** A sort keeps which ids are present. */
  lemma SortKeepsIds(xs: seq<Fields>, id: Option<Value>)
    ensures HasId(SortNewestFirst(xs), id) <==> HasId(xs, id)
  {
    var r := SortNewestFirst(xs);
    SameElements(xs, r);
    if HasId(xs, id) {
      var i :| 0 <= i < |xs| && IdOf(xs[i]) == id;
      assert xs[i] in r;
    }
    if HasId(r, id) {
      var i :| 0 <= i < |r| && IdOf(r[i]) == id;
      assert r[i] in xs;
    }
  }

  // ------------------------------------------------------------ the customer query

  /** The email pass of `getCustomerOrders`, starting from the list `acc`:
      each record of `xs` is pushed unless a record with its id is already
      there. */
  function AddMissing(acc: seq<Fields>, xs: seq<Fields>): (r: seq<Fields>)
    ensures |r| <= |acc| + |xs|
    decreases |xs|
  {
    if xs == [] then acc
    else AddMissing(if HasId(acc, IdOf(xs[0])) then acc else acc + [xs[0]], xs[1..])
  }

  /** The records of `acc` stay in front, untouched. */
  lemma {:induction false} AddMissingKeepsPrefix(acc: seq<Fields>, xs: seq<Fields>)
    ensures |acc| <= |AddMissing(acc, xs)| && AddMissing(acc, xs)[..|acc|] == acc
    decreases |xs|
  {
    if xs != [] {
      var next := if HasId(acc, IdOf(xs[0])) then acc else acc + [xs[0]];
      var r := AddMissing(next, xs[1..]);
      AddMissingKeepsPrefix(next, xs[1..]);
      assert acc == next[..|acc|];
      assert r[..|acc|] == r[..|next|][..|acc|];
    }
  }

  /** Every id of `xs` ends up present. */
  lemma {:induction false} AddMissingCoversIds(acc: seq<Fields>, xs: seq<Fields>)
    ensures forall i :: 0 <= i < |xs| ==> HasId(AddMissing(acc, xs), IdOf(xs[i]))
    decreases |xs|
  {
    if xs != [] {
      var next := if HasId(acc, IdOf(xs[0])) then acc else acc + [xs[0]];
      var r := AddMissing(next, xs[1..]);
      AddMissingCoversIds(next, xs[1..]);
      AddMissingKeepsPrefix(next, xs[1..]);
      assert HasId(next, IdOf(xs[0])) by {
        if !HasId(acc, IdOf(xs[0])) {
          assert IdOf(next[|acc|]) == IdOf(xs[0]);
        }
      }
      assert HasId(r, IdOf(xs[0])) by {
        var k :| 0 <= k < |next| && IdOf(next[k]) == IdOf(xs[0]);
        assert r[k] == r[..|next|][k];
      }
      forall i | 1 <= i < |xs| ensures HasId(r, IdOf(xs[i])) {
        assert xs[1..][i - 1] == xs[i];
      }
    }
  }

  /** Nothing but the records of `acc` and `xs` comes in. */
  lemma {:induction false} AddMissingAddsNothingElse(acc: seq<Fields>, xs: seq<Fields>)
    ensures forall y :: y in AddMissing(acc, xs) ==> y in acc || y in xs
    decreases |xs|
  {
    if xs != [] {
      var next := if HasId(acc, IdOf(xs[0])) then acc else acc + [xs[0]];
      AddMissingAddsNothingElse(next, xs[1..]);
      forall y | y in AddMissing(next, xs[1..]) ensures y in acc || y in xs {
        if y !in acc && y in next {
          assert y == xs[0];
        }
        if y in xs[1..] {
          var m :| 0 <= m < |xs[1..]| && xs[1..][m] == y;
          assert xs[m + 1] == y;
        }
      }
    }
  }

  /** Distinct ids stay distinct: a record is pushed only when its id is new. */
  lemma {:induction false} AddMissingKeepsIdsDistinct(acc: seq<Fields>, xs: seq<Fields>)
    requires DistinctIds(acc)
    ensures DistinctIds(AddMissing(acc, xs))
    decreases |xs|
  {
    if xs != [] {
      var next := if HasId(acc, IdOf(xs[0])) then acc else acc + [xs[0]];
      if !HasId(acc, IdOf(xs[0])) {
        forall i, j | 0 <= i < j < |next| ensures IdOf(next[i]) != IdOf(next[j]) {
          if j == |acc| {
            assert next[j] == xs[0];
          }
        }
      }
      AddMissingKeepsIdsDistinct(next, xs[1..]);
    }
  }

  /** Every record pushed after `acc` has an id that `acc` does not hold. */
  lemma {:induction false} AddMissingAddsOnlyNewIds(acc: seq<Fields>, xs: seq<Fields>)
    ensures forall k :: |acc| <= k < |AddMissing(acc, xs)| ==> !HasId(acc, IdOf(AddMissing(acc, xs)[k]))
    decreases |xs|
  {
    if xs != [] {
      var next := if HasId(acc, IdOf(xs[0])) then acc else acc + [xs[0]];
      var r := AddMissing(next, xs[1..]);
      AddMissingAddsOnlyNewIds(next, xs[1..]);
      AddMissingKeepsPrefix(next, xs[1..]);
      forall id | HasId(acc, id) ensures HasId(next, id) {
        var m :| 0 <= m < |acc| && IdOf(acc[m]) == id;
        assert next[m] == acc[m];
      }
      forall k | |acc| <= k < |next| ensures !HasId(acc, IdOf(r[k])) {
        assert r[k] == r[..|next|][k] == next[k] == xs[0];
      }
    }
  }

  /** `getCustomerOrders(customerId)`: nothing when the store is not
      configured or the identifier is empty; otherwise the phone matches, then
      each email match whose id is not yet present, newest first. */
  function CustomerOrders(configured: bool, customerId: string, byPhone: QueryResult, byEmail: QueryResult): (r: seq<Fields>)
    ensures !configured || customerId == "" ==> r == []
    ensures NewestFirst(r)
    ensures forall y :: y in r ==> y in Found(byPhone) || y in Found(byEmail)
    ensures configured && customerId != "" ==> forall y :: y in Found(byPhone) ==> y in r
    ensures configured && customerId != "" ==>
      forall i :: 0 <= i < |Found(byEmail)| ==> HasId(r, IdOf(Found(byEmail)[i]))
    ensures DistinctIds(Found(byPhone)) ==> DistinctIds(r)
  {
    if !configured || customerId == "" then []
    else
      var merged := AddMissing(Found(byPhone), Found(byEmail));
      AddMissingKeepsPrefix(Found(byPhone), Found(byEmail));
      AddMissingCoversIds(Found(byPhone), Found(byEmail));
      AddMissingAddsNothingElse(Found(byPhone), Found(byEmail));
      var r := SortNewestFirst(merged);
      SameElements(merged, r);
      assert forall y :: y in Found(byPhone) ==> y in merged by {
        forall y | y in Found(byPhone) ensures y in merged {
          var k :| 0 <= k < |Found(byPhone)| && Found(byPhone)[k] == y;
          assert merged[k] == merged[..|Found(byPhone)|][k];
        }
      }
      assert forall i :: 0 <= i < |Found(byEmail)| ==> HasId(r, IdOf(Found(byEmail)[i])) by {
        forall i | 0 <= i < |Found(byEmail)| ensures HasId(r, IdOf(Found(byEmail)[i])) {
          SortKeepsIds(merged, IdOf(Found(byEmail)[i]));
        }
      }
      assert DistinctIds(Found(byPhone)) ==> DistinctIds(r) by {
        if DistinctIds(Found(byPhone)) {
          AddMissingKeepsIdsDistinct(Found(byPhone), Found(byEmail));
          PermutationKeepsDistinctIds(merged, r);
        }
      }
      r
  }

  /** The implementation: an accumulating list, one push of the phone
      matches, a loop over the email matches that pushes those not yet
      found, then the sort. */
  method GetCustomerOrders(configured: bool, customerId: string, byPhone: QueryResult, byEmail: QueryResult)
    returns (orders: seq<Fields>)
    ensures orders == CustomerOrders(configured, customerId, byPhone, byEmail)
  {
    if !configured || customerId == "" {
      return [];
    }
    var all: seq<Fields> := [];
    if byPhone.Docs? {
      all := all + Records(byPhone.snaps);
    }
    assert all == Found(byPhone);
    if byEmail.Docs? {
      var emailOrders := Records(byEmail.snaps);
      var i := 0;
      assert emailOrders[i..] == emailOrders;
      while i < |emailOrders|
        invariant 0 <= i <= |emailOrders|
        invariant AddMissing(all, emailOrders[i..]) == AddMissing(Found(byPhone), Found(byEmail))
      {
        var order := emailOrders[i];
        assert emailOrders[i..][0] == order;
        assert emailOrders[i..][1..] == emailOrders[i + 1..];
        if !HasId(all, IdOf(order)) {
          all := all + [order];
        }
        i := i + 1;
      }
      assert emailOrders[i..] == [];
    } else {
      assert all == AddMissing(Found(byPhone), Found(byEmail));
    }
    orders := SortNewestFirst(all);
    CustomerOrdersFound(configured, customerId, byPhone, byEmail);
  }

  /** Past the guard, the customer's orders are the merged records sorted. */
  lemma CustomerOrdersFound(configured: bool, customerId: string, byPhone: QueryResult, byEmail: QueryResult)
    requires configured && customerId != ""
    ensures CustomerOrders(configured, customerId, byPhone, byEmail)
      == SortNewestFirst(AddMissing(Found(byPhone), Found(byEmail)))
  {
  }

  /** The email query never contributes a record whose id the phone query
      already returned: every such record in the history is a phone record. */
  lemma EmailCopiesAreDropped(customerId: string, byPhone: QueryResult, byEmail: QueryResult)
    ensures forall y :: y in CustomerOrders(true, customerId, byPhone, byEmail) && HasId(Found(byPhone), IdOf(y)) ==>
      y in Found(byPhone)
  {
    if customerId != "" {
      var acc := Found(byPhone);
      var merged := AddMissing(acc, Found(byEmail));
      var r := CustomerOrders(true, customerId, byPhone, byEmail);
      CustomerOrdersFound(true, customerId, byPhone, byEmail);
      SameElements(merged, r);
      AddMissingKeepsPrefix(acc, Found(byEmail));
      AddMissingAddsOnlyNewIds(acc, Found(byEmail));
      forall y | y in r && HasId(acc, IdOf(y)) ensures y in acc {
        var k :| 0 <= k < |merged| && merged[k] == y;
        assert k < |acc|;
        assert merged[..|acc|][k] == y;
      }
    }
  }

  /** On an id that both queries return, only the phone query's record is
      kept, provided the phone records' ids are distinct. */
  lemma PhoneVersionWins(customerId: string, byPhone: QueryResult, byEmail: QueryResult, i: nat, j: nat)
    requires customerId != "" && byPhone.Docs? && byEmail.Docs?
    requires DistinctIds(Found(byPhone))
    requires i < |Found(byPhone)| && j < |Found(byEmail)|
    requires IdOf(Found(byPhone)[i]) == IdOf(Found(byEmail)[j])
    ensures Found(byPhone)[i] in CustomerOrders(true, customerId, byPhone, byEmail)
    ensures forall y :: y in CustomerOrders(true, customerId, byPhone, byEmail) && IdOf(y) == IdOf(Found(byEmail)[j]) ==>
      y == Found(byPhone)[i]
  {
    var r := CustomerOrders(true, customerId, byPhone, byEmail);
    var p := Found(byPhone)[i];
    assert p in Found(byPhone);
    forall y | y in r && IdOf(y) == IdOf(Found(byEmail)[j]) ensures y == p {
      var a :| 0 <= a < |r| && r[a] == y;
      var b :| 0 <= b < |r| && r[b] == p;
      assert !(a < b) && !(b < a);
    }
  }

  /** End to end: when the phone query answered correctly, every stored order
      whose `customerPhone` is the identifier is in the history. */
  lemma PhoneMatchesAreReturned(orders: Collection, customerId: string, snaps: seq<DocSnap>, byEmail: QueryResult, key: string)
    requires customerId != ""
    requires Answers(orders, "customerPhone", Str(customerId), snaps)
    requires key in orders && "customerPhone" in orders[key] && orders[key]["customerPhone"] == Str(customerId)
    ensures WithId(key, orders[key]) in CustomerOrders(true, customerId, Docs(snaps), byEmail)
  {
    var i :| 0 <= i < |snaps| && snaps[i].key == key;
    assert Found(Docs(snaps))[i] == WithId(key, orders[key]);
  }

  // ------------------------------------------------------------ the rider query

  /** `getRiderOrders(riderId)`: nothing when the store is not configured; a
      rejected query rejects the call (there is no catch); otherwise the
      matching orders, newest first. */
  function RiderOrders(configured: bool, q: QueryResult): (r: Result<seq<Fields>, StoreError>)
    ensures !configured ==> r == Ok([])
    ensures configured && q.Rejected? ==> r == Err(QueryFailed)
    ensures r.Ok? ==> NewestFirst(r.value)
    ensures configured && q.Docs? ==> r.Ok? && multiset(r.value) == multiset(Records(q.snaps))
  {
    if !configured then Ok([])
    else if q.Rejected? then Err(QueryFailed)
    else Ok(SortNewestFirst(Records(q.snaps)))
  }

  /** End to end: once an order is assigned to a rider, a correct answer to
      the rider query lists it, with status `dispatched`. */
  lemma AssignedOrderIsListed(orders: Collection, orderId: string, riderId: string, now: int, snaps: seq<DocSnap>)
    requires orderId in orders
    requires Answers(orders[orderId := Orders.RiderAssigned(orders[orderId], riderId, now)], "riderId", Str(riderId), snaps)
    ensures RiderOrders(true, Docs(snaps)).Ok?
    ensures WithId(orderId, Orders.RiderAssigned(orders[orderId], riderId, now)) in RiderOrders(true, Docs(snaps)).value
    ensures WithId(orderId, Orders.RiderAssigned(orders[orderId], riderId, now))["status"] == Str("dispatched")
  {
    var doc := Orders.RiderAssigned(orders[orderId], riderId, now);
    var after := orders[orderId := doc];
    assert orderId in after && "riderId" in after[orderId] && after[orderId]["riderId"] == Str(riderId);
    var i :| 0 <= i < |snaps| && snaps[i].key == orderId;
    var recs := Records(snaps);
    assert recs[i] == WithId(orderId, doc);
    assert recs[i] in multiset(recs);
  }
}
