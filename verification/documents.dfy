/** Untyped documents: the Python dictionaries that pydantic dumps, that
    MongoDB stores, that Redis caches as JSON and that the broker carries.
    Typed models are validated from these and dumped back into them. */
module Documents {
  import opened Common
  import opened Enums

  /** One Python value inside a document. Enum members keep their own
      constructors; after a JSON round trip they arrive as plain strings. */
  datatype Value =
    | VNone
    | VInt(i: int)
    | VStr(s: string)
    | VUuid(u: Uuid)
    | VTime(t: Time)
    | VStatus(status: Status)
    | VPayStatus(payStatus: PayStatus)
    | VProduct(product: Product)
    | VList(elems: seq<Value>)
    | VDict(fields: map<string, Value>)

  type Doc = map<string, Value>

  /** Python truthiness: `None`, zero, the empty string and empty containers
      are false; UUIDs, datetimes and enum members (non-empty strings) are true. */
  predicate Truthy(v: Value) {
    match v
    case VNone => false
    case VInt(i) => i != 0
    case VStr(s) => s != ""
    case VList(xs) => |xs| > 0
    case VDict(d) => |d| > 0
    case _ => true
  }

  /** The values `str()` is applied to in the source. */
  predicate IsScalar(v: Value) {
    v.VNone? || v.VStr? || v.VUuid? || v.VTime?
  }

  /** Python's `str()` of a scalar. */
  function Str(v: Value): string
    requires IsScalar(v)
  {
    match v
    case VNone => "None"
    case VStr(s) => s
    case VUuid(u) => UuidStr(u)
    case VTime(t) => TimeStr(t)
  }

  /** `to_mongo`: when the dump has an `id` but no `_id`, the id moves to
      `_id` as a string; every other field is kept as it is. */
  function ToMongo(parsed: Doc): (r: Doc)
    requires "id" in parsed ==> IsScalar(parsed["id"])
    ensures "_id" in parsed || "id" !in parsed ==> r == parsed
    ensures "_id" !in parsed && "id" in parsed ==>
      && r.Keys == parsed.Keys - {"id"} + {"_id"}
      && r["_id"] == VStr(Str(parsed["id"]))
      && forall k :: k in parsed && k != "id" ==> r[k] == parsed[k]
  {
    if "_id" !in parsed && "id" in parsed then
      (parsed - {"id"})["_id" := VStr(Str(parsed["id"]))]
    else
      parsed
  }

  /** What `from_mongo` hands on: falsy input (no document, or an empty one)
      comes back unchanged, anything else as the fields a model is built from. */
  datatype Converted = Falsy(data: Option<Doc>) | Fields(fields: Doc)

  /** `from_mongo`: `_id` is popped and re-inserted as `id` (`None` when the
      document has none), overriding any `id` field already present. */
  function FromMongo(data: Option<Doc>): (r: Converted)
    ensures r.Falsy? <==> data.None? || |data.value| == 0
    ensures r.Falsy? ==> r.data == data
    ensures r.Fields? ==>
      && "_id" !in r.fields
      && r.fields.Keys == data.value.Keys - {"_id"} + {"id"}
      && r.fields["id"] == (if "_id" in data.value then data.value["_id"] else VNone)
      && forall k :: k in data.value && k != "_id" && k != "id" ==> r.fields[k] == data.value[k]
  {
    if data.None? || |data.value| == 0 then Falsy(data)
    else
      var d := data.value;
      Fields((d - {"_id"})["id" := if "_id" in d then d["_id"] else VNone])
  }

  /** Storing a dump and reading it back gives the dump again, except that
      the id comes back in its string form. */
  lemma FromToMongo(parsed: Doc)
    requires "id" in parsed && "_id" !in parsed && IsScalar(parsed["id"])
    ensures FromMongo(Some(ToMongo(parsed))) == Fields(parsed["id" := VStr(Str(parsed["id"]))])
  {
    var rest, id := parsed - {"id"}, VStr(Str(parsed["id"]));
    assert ToMongo(parsed) == rest["_id" := id];
    assert "_id" !in rest;
    RemoveAdded(rest, "_id", id);
    RestoreKey(parsed, "id", id);
  }

  lemma RemoveAdded<K, V>(m: map<K, V>, k: K, v: V)
    requires k !in m
    ensures m[k := v] - {k} == m
  {
  }

  lemma RestoreKey<K, V>(m: map<K, V>, k: K, v: V)
    ensures (m - {k})[k := v] == m[k := v]
  {
  }

  /** A collection, `_id` to document, in which every document's `_id` field
      is the key it is stored under, as MongoDB guarantees for the primary
      key. */
  predicate Keyed(store: map<string, Doc>) {
    forall k | k in store :: "_id" in store[k] && store[k]["_id"] == VStr(k)
  }

  lemma UpdateKeepsKeyed(store: map<string, Doc>, k: string, d: Doc)
    requires Keyed(store) && "_id" in d && d["_id"] == VStr(k)
    ensures Keyed(store[k := d])
  {
  }

  lemma RemoveKeepsKeyed(store: map<string, Doc>, k: string)
    requires Keyed(store)
    ensures Keyed(store - {k})
  {
  }

  /** The write concern's answer to an `insert_one`. */
  datatype InsertReply = Acknowledged | Unacknowledged

  /** An insert's outcome: `acknowledged`, or the duplicate-key error an
      acknowledged insert of an existing `_id` raises. */
  datatype CreateResult = Inserted(acknowledged: bool) | DuplicateKey

  // Field validation, pydantic's lax mode on the value kinds the services exchange.

  /** A `UUID` field: a UUID instance, or a string `UUID()` accepts. */
  function AsUuid(v: Value): (r: Option<Uuid>)
    ensures v.VUuid? ==> r == Some(v.u)
    ensures v.VStr? ==> r == ParseUuidField(v.s)
    ensures !v.VUuid? && !v.VStr? ==> r.None?
  {
    match v
    case VUuid(u) => Some(u)
    case VStr(s) => ParseUuidField(s)
    case _ => None
  }

  /** An `Optional[UUID]` field: `None` is a valid value of its own. */
  function AsOptUuid(v: Value): (r: Option<Option<Uuid>>)
    ensures v.VNone? ==> r == Some(None)
    ensures !v.VNone? ==> (r.Some? <==> AsUuid(v).Some?)
    ensures !v.VNone? && r.Some? ==> r.value == Some(AsUuid(v).value)
  {
    if v.VNone? then Some(None)
    else match AsUuid(v)
      case None => None
      case Some(u) => Some(Some(u))
  }

  /** A `datetime` field: a datetime, or the string `str(datetime)` produced. */
  function AsTime(v: Value): (r: Option<Time>)
    ensures v.VTime? ==> r == Some(v.t)
    ensures v.VStr? ==> r == ParseTime(v.s)
    ensures !v.VTime? && !v.VStr? ==> r.None?
  {
    match v
    case VTime(t) => Some(t)
    case VStr(s) => ParseTime(s)
    case _ => None
  }

  /** A `str` field; enum members are `str` subclasses and pass as their value. */
  function AsStr(v: Value): (r: Option<string>)
    ensures v.VStr? ==> r == Some(v.s)
    ensures v.VNone? || v.VInt? || v.VUuid? || v.VTime? || v.VList? || v.VDict? ==> r.None?
  {
    match v
    case VStr(s) => Some(s)
    case VStatus(s) => Some(StatusWire(s))
    case VPayStatus(p) => Some(PayStatusWire(p))
    case VProduct(p) => Some(ProductWire(p))
    case _ => None
  }

  function AsStatus(v: Value): (r: Option<Status>)
    ensures v.VStatus? ==> r == Some(v.status)
    ensures v.VStr? ==> r == ParseStatus(v.s)
    ensures r.Some? ==> v.VStatus? || v.VStr?
  {
    match v
    case VStatus(s) => Some(s)
    case VStr(w) => ParseStatus(w)
    case _ => None
  }

  function AsPayStatus(v: Value): (r: Option<PayStatus>)
    ensures v.VPayStatus? ==> r == Some(v.payStatus)
    ensures v.VStr? ==> r == ParsePayStatus(v.s)
    ensures r.Some? ==> v.VPayStatus? || v.VStr?
  {
    match v
    case VPayStatus(p) => Some(p)
    case VStr(w) => ParsePayStatus(w)
    case _ => None
  }

  function AsProduct(v: Value): (r: Option<Product>)
    ensures v.VProduct? ==> r == Some(v.product)
    ensures v.VStr? ==> r == ParseProduct(v.s)
    ensures r.Some? ==> v.VProduct? || v.VStr?
  {
    match v
    case VProduct(p) => Some(p)
    case VStr(w) => ParseProduct(w)
    case _ => None
  }
}
