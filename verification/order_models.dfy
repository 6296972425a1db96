/** The Order aggregate of OrderService: its typed model, how it is
    validated from a document (with the field defaults), and the three
    document forms it is turned into: the model dump, the MongoDB document
    and the JSON-ready dictionary the cache and the business layer use. */
module OrderModels {
  import opened Common
  import opened Enums
  import opened Documents

  /** `PositiveInt`. */
  type Quantity = q: int | q >= 1 witness 1

  datatype OrderItem = OrderItem(product: Product, quantity: Quantity)

  /** `conlist(OrderItem, min_length=1)`: an order has at least one item. */
  type Items = s: seq<OrderItem> | |s| >= 1 witness [OrderItem(Lasagna, 1)]

  /** One entry of the status history. */
  datatype StateUpdate = StateUpdate(status: Status, when: Time)

  datatype OrderModel = OrderModel(
    id: Uuid,
    items: Items,
    customerId: Uuid,
    kitchenId: Option<Uuid>,
    deliveryId: Option<Uuid>,
    status: Status,
    updated: seq<StateUpdate>,
    created: Time)

  // ----- Items -----

  function ItemDump(it: OrderItem): Value {
    VDict(map["product" := VProduct(it.product), "quantity" := VInt(it.quantity)])
  }

  function ItemsDump(items: seq<OrderItem>): Value {
    VList(seq(|items|, i requires 0 <= i < |items| => ItemDump(items[i])))
  }

  /** `OrderItem` validated from a dictionary: the product must be one of the
      catalogue's, and the quantity a positive integer, 1 when absent. */
  function ValidateItem(v: Value): (r: Option<OrderItem>)
    ensures r.Some? <==>
      && v.VDict? && "product" in v.fields && AsProduct(v.fields["product"]).Some?
      && ("quantity" in v.fields ==> v.fields["quantity"].VInt? && v.fields["quantity"].i >= 1)
    ensures r.Some? ==> r.value.product == AsProduct(v.fields["product"]).value
    ensures r.Some? ==> r.value.quantity == if "quantity" in v.fields then v.fields["quantity"].i else 1
  {
    match v
    case VDict(d) =>
      if "product" !in d || AsProduct(d["product"]).None? then None
      else if "quantity" !in d then Some(OrderItem(AsProduct(d["product"]).value, 1))
      else (
        match d["quantity"]
        case VInt(q) => if q >= 1 then Some(OrderItem(AsProduct(d["product"]).value, q)) else None
        case _ => None)
    case _ => None
  }

  /** A list validates when every element does, element by element. */
  function ValidateItemList(xs: seq<Value>): (r: Option<seq<OrderItem>>)
    ensures r.Some? <==> forall i :: 0 <= i < |xs| ==> ValidateItem(xs[i]).Some?
    ensures r.Some? ==> |r.value| == |xs| && forall i :: 0 <= i < |xs| ==> ValidateItem(xs[i]) == Some(r.value[i])
  {
    if |xs| == 0 then Some([])
    else
      var head := ValidateItem(xs[0]);
      var rest := ValidateItemList(xs[1..]);
      assert forall i :: 1 <= i < |xs| ==> xs[i] == xs[1..][i - 1];
      if head.Some? && rest.Some? then Some([head.value] + rest.value) else None
  }

  /** The `items` field: a non-empty list of valid items. */
  function ValidateItems(v: Value): (r: Option<Items>)
    ensures r.Some? <==> v.VList? && |v.elems| >= 1 && ValidateItemList(v.elems).Some?
    ensures r.Some? ==> r.value == ValidateItemList(v.elems).value
  {
    if v.VList? && |v.elems| >= 1 && ValidateItemList(v.elems).Some? then
      Some(ValidateItemList(v.elems).value)
    else None
  }

  /** Dumped items validate back to the same items. */
  lemma ItemsRoundTrip(items: seq<OrderItem>)
    ensures ValidateItemList(ItemsDump(items).elems) == Some(items)
  {
    var xs := ItemsDump(items).elems;
    assert forall i :: 0 <= i < |items| ==> ValidateItem(xs[i]) == Some(items[i]);
    assert ValidateItemList(xs).value == items;
  }

  // ----- Status history -----

  function UpdateEntryDump(u: StateUpdate): Value {
    VDict(map["status" := VStatus(u.status), "when" := VTime(u.when)])
  }

  function HistoryDump(us: seq<StateUpdate>): Value {
    VList(seq(|us|, i requires 0 <= i < |us| => UpdateEntryDump(us[i])))
  }

  /** `StateUpdateSchema` validated from a dictionary: a valid status and a timestamp. */
  function ValidateUpdate(v: Value): (r: Option<StateUpdate>)
    ensures r.Some? <==> v.VDict? && "status" in v.fields && "when" in v.fields
                         && AsStatus(v.fields["status"]).Some? && AsTime(v.fields["when"]).Some?
    ensures r.Some? ==> r.value == StateUpdate(AsStatus(v.fields["status"]).value, AsTime(v.fields["when"]).value)
  {
    match v
    case VDict(d) =>
      if "status" in d && "when" in d && AsStatus(d["status"]).Some? && AsTime(d["when"]).Some? then
        Some(StateUpdate(AsStatus(d["status"]).value, AsTime(d["when"]).value))
      else None
    case _ => None
  }

  function ValidateUpdateList(xs: seq<Value>): (r: Option<seq<StateUpdate>>)
    ensures r.Some? <==> forall i :: 0 <= i < |xs| ==> ValidateUpdate(xs[i]).Some?
    ensures r.Some? ==> |r.value| == |xs| && forall i :: 0 <= i < |xs| ==> ValidateUpdate(xs[i]) == Some(r.value[i])
  {
    if |xs| == 0 then Some([])
    else
      var head := ValidateUpdate(xs[0]);
      var rest := ValidateUpdateList(xs[1..]);
      assert forall i :: 1 <= i < |xs| ==> xs[i] == xs[1..][i - 1];
      if head.Some? && rest.Some? then Some([head.value] + rest.value) else None
  }

  /** The `updated` field: a list of history entries. */
  function ValidateHistory(v: Value): (r: Option<seq<StateUpdate>>)
    ensures r.Some? <==> v.VList? && ValidateUpdateList(v.elems).Some?
    ensures r.Some? ==> r.value == ValidateUpdateList(v.elems).value
  {
    if v.VList? then ValidateUpdateList(v.elems) else None
  }

  lemma HistoryRoundTrip(us: seq<StateUpdate>)
    ensures ValidateUpdateList(HistoryDump(us).elems) == Some(us)
  {
    var xs := HistoryDump(us).elems;
    forall i | 0 <= i < |us|
      ensures ValidateUpdate(xs[i]) == Some(us[i])
    {
      assert xs[i] == UpdateEntryDump(us[i]);
    }
    assert ValidateUpdateList(xs).value == us;
  }

  // ----- The order -----

  function OptUuidValue(x: Option<Uuid>): Value {
    if x.Some? then VUuid(x.value) else VNone
  }

  /** `OrderUpdateModel.model_dump()`: every field but the id. */
  function UpdateDump(o: OrderModel): Doc {
    map[
      "items" := ItemsDump(o.items),
      "customer_id" := VUuid(o.customerId),
      "kitchen_id" := OptUuidValue(o.kitchenId),
      "delivery_id" := OptUuidValue(o.deliveryId),
      "status" := VStatus(o.status),
      "updated" := HistoryDump(o.updated),
      "created" := VTime(o.created)]
  }

  /** `OrderModel.model_dump()`. */
  function ModelDump(o: OrderModel): Doc {
    UpdateDump(o)["id" := VUuid(o.id)]
  }

  /** `OrderModel` validated from keyword arguments once every default
      factory has run: `items`, `customer_id`, `created` and `id` are
      required; `status` defaults to `created`, `kitchen_id` and
      `delivery_id` to `None`, `updated` to the empty history. Keys the
      model does not declare are ignored. */
  function Validate(d: Doc): (r: Option<OrderModel>)
    ensures r.Some? ==> "id" in d && "items" in d && "customer_id" in d && "created" in d
    ensures r.Some? ==> Some(r.value.id) == AsUuid(d["id"]) && Some(r.value.items) == ValidateItems(d["items"])
    ensures r.Some? ==> Some(r.value.customerId) == AsUuid(d["customer_id"]) && Some(r.value.created) == AsTime(d["created"])
    ensures r.Some? && "status" !in d ==> r.value.status == CREA
    ensures r.Some? && "kitchen_id" !in d ==> r.value.kitchenId.None?
    ensures r.Some? && "delivery_id" !in d ==> r.value.deliveryId.None?
    ensures r.Some? && "updated" !in d ==> r.value.updated == []
  {
    if "id" !in d || "items" !in d || "customer_id" !in d || "created" !in d then None
    else
      var id := AsUuid(d["id"]);
      var items := ValidateItems(d["items"]);
      var customer := AsUuid(d["customer_id"]);
      var kitchen := if "kitchen_id" in d then AsOptUuid(d["kitchen_id"]) else Some(None);
      var delivery := if "delivery_id" in d then AsOptUuid(d["delivery_id"]) else Some(None);
      var status := if "status" in d then AsStatus(d["status"]) else Some(CREA);
      var updated := if "updated" in d then ValidateHistory(d["updated"]) else Some([]);
      var created := AsTime(d["created"]);
      if id.Some? && items.Some? && customer.Some? && kitchen.Some? && delivery.Some?
         && status.Some? && updated.Some? && created.Some? then
        Some(OrderModel(id.value, items.value, customer.value, kitchen.value, delivery.value,
                        status.value, updated.value, created.value))
      else None
  }

  /** The default factories: a fresh uuid7 for a missing `id`, the current
      time for a missing `created`. */
  function WithFactoryDefaults(d: Doc, newId: Uuid, now: Time): (r: Doc)
    ensures r.Keys == d.Keys + {"id", "created"}
    ensures forall k :: k in d ==> r[k] == d[k]
    ensures "id" !in d ==> r["id"] == VUuid(newId)
    ensures "created" !in d ==> r["created"] == VTime(now)
  {
    var withId := if "id" in d then d else d["id" := VUuid(newId)];
    if "created" in withId then withId else withId["created" := VTime(now)]
  }

  /** `OrderModel(**d)`. */
  function Build(d: Doc, newId: Uuid, now: Time): Option<OrderModel> {
    Validate(WithFactoryDefaults(d, newId, now))
  }

  /** A document whose eight fields each validate to the matching field of
      `o` validates to `o`; any other key is ignored. */
  lemma ValidateFields(d: Doc, o: OrderModel)
    requires "id" in d && AsUuid(d["id"]) == Some(o.id)
    requires "items" in d && ValidateItems(d["items"]) == Some(o.items)
    requires "customer_id" in d && AsUuid(d["customer_id"]) == Some(o.customerId)
    requires "kitchen_id" in d && AsOptUuid(d["kitchen_id"]) == Some(o.kitchenId)
    requires "delivery_id" in d && AsOptUuid(d["delivery_id"]) == Some(o.deliveryId)
    requires "status" in d && AsStatus(d["status"]) == Some(o.status)
    requires "updated" in d && ValidateHistory(d["updated"]) == Some(o.updated)
    requires "created" in d && AsTime(d["created"]) == Some(o.created)
    ensures Validate(d) == Some(o)
  {
  }

  lemma OptUuidRoundTrip(x: Option<Uuid>)
    ensures AsOptUuid(OptUuidValue(x)) == Some(x)
  {
  }

  /** Every field of a dumped update validates to the order's own value. */
  lemma UpdateDumpFields(o: OrderModel)
    ensures ValidateItems(UpdateDump(o)["items"]) == Some(o.items)
    ensures ValidateHistory(UpdateDump(o)["updated"]) == Some(o.updated)
    ensures AsOptUuid(UpdateDump(o)["kitchen_id"]) == Some(o.kitchenId)
    ensures AsOptUuid(UpdateDump(o)["delivery_id"]) == Some(o.deliveryId)
  {
    ItemsRoundTrip(o.items);
    HistoryRoundTrip(o.updated);
    OptUuidRoundTrip(o.kitchenId);
    OptUuidRoundTrip(o.deliveryId);
  }

  /** `OrderModel(**o.model_dump())` is `o` again. */
  lemma {:induction false} ValidateModelDump(o: OrderModel)
    ensures Validate(ModelDump(o)) == Some(o)
  {
    UpdateDumpFields(o);
    ValidateFields(ModelDump(o), o);
  }

  /** The id does not matter to how a document validates as long as it reads
      as the same UUID, so the UUID and its string form are interchangeable. */
  lemma {:induction false} ValidateWithStringId(o: OrderModel)
    ensures Validate(UpdateDump(o)["id" := VStr(UuidStr(o.id))]) == Some(o)
  {
    var d := UpdateDump(o)["id" := VStr(UuidStr(o.id))];
    UpdateDumpHolds(o);
    assert HoldsUpdate(d, o);
    ValidateUpdated(d, o);
  }

  /** `d` holds the seven updatable fields of `o` as `model_dump` writes
      them. */
  predicate HoldsUpdate(d: Doc, o: OrderModel) {
    && "items" in d && d["items"] == ItemsDump(o.items)
    && "customer_id" in d && d["customer_id"] == VUuid(o.customerId)
    && "kitchen_id" in d && d["kitchen_id"] == OptUuidValue(o.kitchenId)
    && "delivery_id" in d && d["delivery_id"] == OptUuidValue(o.deliveryId)
    && "status" in d && d["status"] == VStatus(o.status)
    && "updated" in d && d["updated"] == HistoryDump(o.updated)
    && "created" in d && d["created"] == VTime(o.created)
  }

  lemma UpdateDumpHolds(o: OrderModel)
    ensures HoldsUpdate(UpdateDump(o), o)
  {
  }

  /** A document holding an order's updatable fields as dumped and its id
      as a string validates to the order, whatever else it holds. */
  lemma {:induction false} ValidateUpdated(d: Doc, o: OrderModel)
    requires "id" in d && d["id"] == VStr(UuidStr(o.id))
    requires HoldsUpdate(d, o)
    ensures Validate(d) == Some(o)
  {
    ParseUuidStr(o.id);
    ItemsRoundTrip(o.items);
    HistoryRoundTrip(o.updated);
    OptUuidRoundTrip(o.kitchenId);
    OptUuidRoundTrip(o.deliveryId);
    ValidateFields(d, o);
  }

  /** A new order from the create payload: `OrderModel(**payload.dict())`
      gets a newId id, the current time, status `created`, no kitchen or
      delivery id and an empty history. */
  datatype OrderPayload = OrderPayload(items: Items, customerId: Uuid)

  function PayloadDump(p: OrderPayload): Doc {
    map["items" := ItemsDump(p.items), "customer_id" := VUuid(p.customerId)]
  }

  function NewOrder(p: OrderPayload, newId: Uuid, now: Time): (r: Option<OrderModel>)
    ensures r == Some(OrderModel(newId, p.items, p.customerId, None, None, CREA, [], now))
  {
    PayloadBuilds(p, newId, now);
    Build(PayloadDump(p), newId, now)
  }

  lemma PayloadBuilds(p: OrderPayload, newId: Uuid, now: Time)
    ensures Build(PayloadDump(p), newId, now) == Some(OrderModel(newId, p.items, p.customerId, None, None, CREA, [], now))
  {
    var w := WithFactoryDefaults(PayloadDump(p), newId, now);
    assert w["id"] == VUuid(newId) && w["created"] == VTime(now);
    assert w["items"] == ItemsDump(p.items) && w["customer_id"] == VUuid(p.customerId);
    assert "status" !in w && "kitchen_id" !in w && "delivery_id" !in w && "updated" !in w;
    ItemsRoundTrip(p.items);
  }

  // ----- The JSON-ready dictionary -----

  /** `{'status': e['status'], 'when': str(e['when'])}` on one history
      entry of the dump. Only the shape a dump has is given a meaning; any
      other value is kept as it is. */
  function HistoryEntryOf(e: Value): Value {
    if e.VDict? && "status" in e.fields && "when" in e.fields && IsScalar(e.fields["when"]) then
      VDict(map["status" := e.fields["status"], "when" := VStr(Str(e.fields["when"]))])
    else e
  }

  /** How `dict_of` treats the value under one key of the dump: the history
      entry by entry, `items` and `status` as they are, and any other value
      as its `str()` when it is truthy and `None` when it is not. */
  function DictOfValue(key: string, v: Value): Value {
    if key == "updated" then
      if v.VList? then VList(seq(|v.elems|, i requires 0 <= i < |v.elems| => HistoryEntryOf(v.elems[i]))) else v
    else if key == "items" || key == "status" then v
    else if !Truthy(v) then VNone
    else if IsScalar(v) then VStr(Str(v))
    else v
  }

  function OptUuidStr(x: Option<Uuid>): Value {
    if x.Some? then VStr(UuidStr(x.value)) else VNone
  }

  /** One history entry as `dict_of` and `OrderApiLogic.dict()` write it. */
  function HistoryDictEntry(u: StateUpdate): Value {
    VDict(map["status" := VStatus(u.status), "when" := VStr(TimeStr(u.when))])
  }

  function HistoryDict(us: seq<StateUpdate>): Value {
    VList(seq(|us|, i requires 0 <= i < |us| => HistoryDictEntry(us[i])))
  }

  /** `dict_of(o)`, the dictionary `json.dumps` accepts, field by field. */
  function DictOf(o: OrderModel): Doc {
    map[
      "id" := VStr(UuidStr(o.id)),
      "items" := ItemsDump(o.items),
      "customer_id" := VStr(UuidStr(o.customerId)),
      "kitchen_id" := OptUuidStr(o.kitchenId),
      "delivery_id" := OptUuidStr(o.deliveryId),
      "status" := VStatus(o.status),
      "updated" := HistoryDict(o.updated),
      "created" := VStr(TimeStr(o.created))]
  }

  /** The keys of the model dump and the value under each. */
  lemma ModelDumpShape(o: OrderModel)
    ensures ModelDump(o).Keys == {"id", "items", "customer_id", "kitchen_id", "delivery_id", "status", "updated", "created"}
    ensures ModelDump(o)["id"] == VUuid(o.id) && ModelDump(o)["customer_id"] == VUuid(o.customerId)
    ensures ModelDump(o)["kitchen_id"] == OptUuidValue(o.kitchenId) && ModelDump(o)["delivery_id"] == OptUuidValue(o.deliveryId)
    ensures ModelDump(o)["items"] == ItemsDump(o.items) && ModelDump(o)["status"] == VStatus(o.status)
    ensures ModelDump(o)["updated"] == HistoryDump(o.updated) && ModelDump(o)["created"] == VTime(o.created)
  {
  }

  /** `DictOf` is `dict_of`'s comprehension over the model dump: the same
      keys, and under each key the value the per-key rule makes of the
      dump's value. */
  lemma {:induction false} DictOfRule(o: OrderModel)
    ensures DictOf(o).Keys == ModelDump(o).Keys
    ensures forall k | k in DictOf(o) :: DictOf(o)[k] == DictOfValue(k, ModelDump(o)[k])
  {
    ModelDumpShape(o);
    var d, dump := DictOf(o), ModelDump(o);
    forall k | k in d
      ensures d[k] == DictOfValue(k, dump[k])
    {
      if k == "updated" {
        DictOfHistoryRule(o.updated);
      } else if k == "kitchen_id" {
        OptUuidRule(k, o.kitchenId);
      } else if k == "delivery_id" {
        OptUuidRule(k, o.deliveryId);
      } else if k == "id" {
        ScalarRule(k, VUuid(o.id));
      } else if k == "customer_id" {
        ScalarRule(k, VUuid(o.customerId));
      } else if k == "created" {
        ScalarRule(k, VTime(o.created));
      }
    }
  }

  lemma ScalarRule(key: string, v: Value)
    requires key != "updated" && key != "items" && key != "status"
    requires (v.VUuid? || v.VTime?)
    ensures DictOfValue(key, v) == VStr(Str(v))
  {
  }

  lemma OptUuidRule(key: string, x: Option<Uuid>)
    requires key != "updated" && key != "items" && key != "status"
    ensures OptUuidStr(x) == DictOfValue(key, OptUuidValue(x))
  {
  }

  lemma DictOfHistoryRule(us: seq<StateUpdate>)
    ensures HistoryDict(us) == DictOfValue("updated", HistoryDump(us))
  {
    assert HistoryDict(us).elems == DictOfValue("updated", HistoryDump(us)).elems;
  }

  lemma DictOfScalars(o: OrderModel)
    ensures AsUuid(DictOf(o)["id"]) == Some(o.id)
    ensures AsUuid(DictOf(o)["customer_id"]) == Some(o.customerId)
    ensures AsTime(DictOf(o)["created"]) == Some(o.created)
  {
    ParseUuidStr(o.id);
    ParseUuidStr(o.customerId);
    ParseTimeStr(o.created);
  }

  lemma DictOfOptionals(o: OrderModel)
    ensures AsOptUuid(DictOf(o)["kitchen_id"]) == Some(o.kitchenId)
    ensures AsOptUuid(DictOf(o)["delivery_id"]) == Some(o.deliveryId)
  {
    if o.kitchenId.Some? { ParseUuidStr(o.kitchenId.value); }
    if o.deliveryId.Some? { ParseUuidStr(o.deliveryId.value); }
  }

  lemma DictOfHistory(o: OrderModel)
    ensures ValidateHistory(DictOf(o)["updated"]) == Some(o.updated)
  {
    var hs := DictOf(o)["updated"].elems;
    forall i | 0 <= i < |o.updated|
      ensures ValidateUpdate(hs[i]) == Some(o.updated[i])
    {
      assert hs[i] == HistoryDictEntry(o.updated[i]);
      ParseTimeStr(o.updated[i].when);
    }
    assert ValidateUpdateList(hs).value == o.updated;
  }

  /** The cache's round trip: an order rebuilt from `dict_of(o)` is `o`. */
  lemma {:induction false} CacheRoundTrip(o: OrderModel)
    ensures Validate(DictOf(o)) == Some(o)
  {
    ItemsRoundTrip(o.items);
    assert ValidateItems(DictOf(o)["items"]) == Some(o.items);
    assert AsStatus(DictOf(o)["status"]) == Some(o.status);
    DictOfScalars(o);
    DictOfOptionals(o);
    DictOfHistory(o);
    ValidateFields(DictOf(o), o);
  }

  // ----- The response model -----

  /** `OrderResponse`: the order as the API shows it, without its history. */
  datatype OrderResponse = OrderResponse(
    id: Uuid,
    items: Items,
    status: Status,
    created: Time,
    customerId: Uuid,
    kitchenId: Option<Uuid>,
    deliveryId: Option<Uuid>)

  /** `OrderResponse` validated from a dictionary; `kitchen_id` and
      `delivery_id` default to `None`, every other field is required. */
  function ValidateResponse(d: Doc): Option<OrderResponse> {
    if "id" !in d || "items" !in d || "status" !in d || "created" !in d || "customer_id" !in d then None
    else
      var id := AsUuid(d["id"]);
      var items := ValidateItems(d["items"]);
      var status := AsStatus(d["status"]);
      var created := AsTime(d["created"]);
      var customer := AsUuid(d["customer_id"]);
      var kitchen := if "kitchen_id" in d then AsOptUuid(d["kitchen_id"]) else Some(None);
      var delivery := if "delivery_id" in d then AsOptUuid(d["delivery_id"]) else Some(None);
      if id.Some? && items.Some? && status.Some? && created.Some? && customer.Some?
         && kitchen.Some? && delivery.Some? then
        Some(OrderResponse(id.value, items.value, status.value, created.value, customer.value,
                           kitchen.value, delivery.value))
      else None
  }

  /** `OrderResponse(**o.model_dump())`: the order's fields, its history dropped. */
  function ResponseOf(o: OrderModel): (r: OrderResponse)
    ensures ValidateResponse(ModelDump(o)) == Some(r)
    ensures r.id == o.id && r.items == o.items && r.status == o.status && r.created == o.created
    ensures r.customerId == o.customerId && r.kitchenId == o.kitchenId && r.deliveryId == o.deliveryId
  {
    UpdateDumpFields(o);
    OrderResponse(o.id, o.items, o.status, o.created, o.customerId, o.kitchenId, o.deliveryId)
  }

  /** `OrderResponse.dict()`. */
  function ResponseDump(r: OrderResponse): Doc {
    map[
      "id" := VUuid(r.id),
      "items" := ItemsDump(r.items),
      "status" := VStatus(r.status),
      "created" := VTime(r.created),
      "customer_id" := VUuid(r.customerId),
      "kitchen_id" := OptUuidValue(r.kitchenId),
      "delivery_id" := OptUuidValue(r.deliveryId)]
  }

  /** An order rebuilt from its response, `OrderModel(**response.dict())`,
      is the order with an empty history: the response carries none. */
  lemma {:induction false} OrderFromResponse(o: OrderModel, newId: Uuid, now: Time)
    ensures Build(ResponseDump(ResponseOf(o)), newId, now) == Some(o.(updated := []))
  {
    var d := ResponseDump(ResponseOf(o));
    ResponseDumpShape(o);
    DefaultsKept(d, newId, now);
    ItemsRoundTrip(o.items);
    OptUuidRoundTrip(o.kitchenId);
    OptUuidRoundTrip(o.deliveryId);
    ValidateWithoutHistory(d, o);
  }

  /** The response dump of an order, key by key; it has no history. */
  lemma ResponseDumpShape(o: OrderModel)
    ensures var d := ResponseDump(ResponseOf(o));
      && "id" in d && d["id"] == VUuid(o.id)
      && "items" in d && d["items"] == ItemsDump(o.items)
      && "customer_id" in d && d["customer_id"] == VUuid(o.customerId)
      && "kitchen_id" in d && d["kitchen_id"] == OptUuidValue(o.kitchenId)
      && "delivery_id" in d && d["delivery_id"] == OptUuidValue(o.deliveryId)
      && "status" in d && d["status"] == VStatus(o.status)
      && "created" in d && d["created"] == VTime(o.created)
      && "updated" !in d
  {
  }

  /** The factories run only for a missing `id` or `created`. */
  lemma DefaultsKept(d: Doc, newId: Uuid, now: Time)
    requires "id" in d && "created" in d
    ensures WithFactoryDefaults(d, newId, now) == d
  {
  }

  /** A document with every field but the history validates to the order
      with an empty history. */
  lemma ValidateWithoutHistory(d: Doc, o: OrderModel)
    requires "id" in d && AsUuid(d["id"]) == Some(o.id)
    requires "items" in d && ValidateItems(d["items"]) == Some(o.items)
    requires "customer_id" in d && AsUuid(d["customer_id"]) == Some(o.customerId)
    requires "kitchen_id" in d && AsOptUuid(d["kitchen_id"]) == Some(o.kitchenId)
    requires "delivery_id" in d && AsOptUuid(d["delivery_id"]) == Some(o.deliveryId)
    requires "status" in d && AsStatus(d["status"]) == Some(o.status)
    requires "updated" !in d
    requires "created" in d && AsTime(d["created"]) == Some(o.created)
    ensures Validate(d) == Some(o.(updated := []))
  {
  }
}
