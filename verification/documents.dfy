/** The document store the services talk to (Cloud Firestore), reduced to
    what the services observe: a collection maps document keys to documents,
    a document maps field names to values, a merge-update overwrites the
    fields it names and keeps the rest, and reading a document yields its
    fields with the key spread in front of them as `id`. */
module Documents {

  /** A field value as the services see it. `Stamp` is a store Timestamp
      (its `toMillis()` value); `Geo` a `{lat, lng}` location; `Other` any
      value the services only copy (item lists, nested objects). */
  datatype Value =
    | Null
    | Bool(b: bool)
    | Num(n: int)
    | Str(s: string)
    | Stamp(millis: int)
    | Geo(lat: int, lng: int)
    | Other(tag: string)

  type Fields = map<string, Value>

  type Collection = map<string, Fields>

  /** JavaScript truthiness of a stored value: the falsy ones are exactly
      `null`, `false`, `0` and the empty string. */
  function Truthy(v: Value): (r: bool)
    ensures r <==> v !in {Null, Bool(false), Num(0), Str("")}
  {
    match v
    case Null => false
    case Bool(b) => b
    case Num(n) => n != 0
    case Str(s) => s != ""
    case _ => true
  }

  /** `{ ...doc, ...patch }`, which is also what `updateDoc` does to an
      existing document: the patch's fields win, every other field stays. */
  function Merge(doc: Fields, patch: Fields): (r: Fields)
    ensures r.Keys == doc.Keys + patch.Keys
    ensures forall f :: f in patch ==> r[f] == patch[f]
    ensures forall f :: f in doc && f !in patch ==> r[f] == doc[f]
  {
    doc + patch
  }

  /** `{ id: key, ...data }`: the record a read hands back. Because the data
      is spread after the key, a stored field named `id` hides the key. */
  function WithId(key: string, data: Fields): (r: Fields)
    ensures r.Keys == data.Keys + {"id"}
    ensures forall f :: f in data ==> r[f] == data[f]
    ensures "id" !in data ==> r["id"] == Str(key)
  {
    Merge(map["id" := Str(key)], data)
  }

  /** Why a store call rejects. */
  datatype StoreError =
    | NotConfigured   // `isFirebaseConfigured` is false or there is no `db`
    | NoDocument      // `updateDoc` on a key that holds no document
    | QueryFailed     // `getDocs` rejected
}
