/** `OrdersServiceApi`, the adapter between the web routes and the order
    logic: it looks an order up (404 when there is none) before cancelling
    or deleting it, and builds new orders from the create payload.

    The adapter as written constructs `OrderApiLogic` without the
    `repository` argument its initialiser requires, so `create_order`,
    `cancel_order` and `delete_order` raise `TypeError` (answered 500) as
    soon as they get that far; those versions are kept below as
    `...AsWritten`. The operations the rest of the model uses pass the
    repository, as the initialiser expects, and cancel the stored order
    itself rather than an order rebuilt from its response. */
module OrderApi {
  import opened Common
  import opened Enums
  import opened Documents
  import opened OrderModels
  import opened OrderRepository
  import opened OrderWorld
  import opened Http
  import opened OrderRequests

  /** `repo.read(order_id)` with the 404 gate of `get_order`: no stored
      order is 404; a document that does not validate raises, answered
      500. */
  function Find(w: World, id: Uuid, now: Time): (s: Step<OrderModel>)
    ensures s.world == w.(repo := Read(w.repo, id, now).repo)
    ensures Read(w.repo, id, now).result == Missing <==> s.answer == Fail(404)
    ensures Read(w.repo, id, now).result == Invalid <==> s.answer == Fail(500)
    ensures s.answer.Done? <==> Read(w.repo, id, now).result.Found?
    ensures s.answer.Done? ==> s.answer.value == Read(w.repo, id, now).result.order
  {
    var read := Read(w.repo, id, now);
    var w' := w.(repo := read.repo);
    match read.result
    case Found(o) => Step(w', Done(o))
    case Missing => Step(w', Fail(404))
    case Invalid => Step(w', Fail(500))
  }

  /** `get_order`: 404 exactly when no order is stored under the id, and
      otherwise the stored order's response. */
  function GetOrder(w: World, id: Uuid, now: Time): (s: Step<OrderResponse>)
    requires Valid(w.repo)
    ensures s.answer == Fail(404) <==> Stored(w.repo.store, UuidStr(id)) == Missing
    ensures s.answer.Done? <==> Stored(w.repo.store, UuidStr(id)).Found?
    ensures s.answer.Done? ==> s.answer.value == ResponseOf(Stored(w.repo.store, UuidStr(id)).order)
    ensures s.world.repo.store == w.repo.store && s.world.sent == w.sent
  {
    ReadTransparent(w.repo, id, now);
    var found := Find(w, id, now);
    match found.answer
    case Done(o) => Step(found.world, Done(ResponseOf(o)))
    case Fail(code) => Step(found.world, Fail(code))
  }

  /** `create_order` with the repository passed on: a new order with a
      fresh id, status `created` and no history, created through
      `OrderApiLogic.create`. */
  function CreateOrder(cfg: Config, w: World, p: OrderPayload, newId: Uuid, payReply: HttpReply,
                       insert: InsertReply, now: Time): (s: Step<OrderResponse>)
    ensures var o := OrderModel(newId, p.items, p.customerId, None, None, CREA, [], now);
      s == OrderRequests.Create(cfg, w, o, payReply, insert, now)
  {
    var o := NewOrder(p, newId, now).value;
    OrderRequests.Create(cfg, w, o, payReply, insert, now)
  }

  /** `cancel_order` with the repository passed on and the stored order
      itself handed to `OrderApiLogic.cancel`: an unknown id is 404 before
      any reimbursement is requested. */
  function CancelOrder(cfg: Config, w: World, id: Uuid, reply: HttpReply, now: Time): (s: Step<OrderResponse>)
    ensures Find(w, id, now).answer.Fail? ==> s == Step(Find(w, id, now).world, Fail(Find(w, id, now).answer.code))
    ensures Find(w, id, now).answer.Done? ==>
      s == Cancel(cfg, Find(w, id, now).world, Find(w, id, now).answer.value, reply, now)
  {
    var found := Find(w, id, now);
    match found.answer
    case Fail(code) => Step(found.world, Fail(code))
    case Done(o) => Cancel(cfg, found.world, o, reply, now)
  }

  /** `delete_order` with the repository passed on: 404 before any delete
      when the order is unknown, the delete otherwise. */
  function DeleteOrder(w: World, id: Uuid, now: Time): (s: Step<()>)
    ensures Find(w, id, now).answer.Fail? ==> s == Step(Find(w, id, now).world, Fail(Find(w, id, now).answer.code))
    ensures Find(w, id, now).answer.Done? ==> s == OrderRequests.Delete(Find(w, id, now).world, id)
  {
    var found := Find(w, id, now);
    match found.answer
    case Fail(code) => Step(found.world, Fail(code))
    case Done(_) => OrderRequests.Delete(found.world, id)
  }

  /** `list_orders`: `read_all` as it is; a stored document that does not
      validate raises, answered 500. */
  method ListOrders(w: World) returns (s: Step<seq<OrderModel>>)
    ensures s.world == w
    ensures s.answer.Done? <==> forall k | k in w.repo.store :: Stored(w.repo.store, k).Found?
    ensures s.answer.Fail? ==> s.answer.code == 500
    ensures s.answer.Done? ==> NewestFirst(s.answer.value) && |s.answer.value| == |w.repo.store|
    ensures s.answer.Done? ==> forall k | k in w.repo.store :: Stored(w.repo.store, k).order in s.answer.value
  {
    var all := ReadAll(w.repo);
    match all
    case None => s := Step(w, Fail(500));
    case Some(os) => s := Step(w, Done(os));
  }

  // ----- Properties of the adapter -----

  /** An unknown order is 404 for cancel and delete alike, and then nothing
      is sent and nothing is stored or deleted. */
  lemma {:induction false} UnknownOrderIsNotFound(cfg: Config, w: World, id: Uuid, reply: HttpReply, now: Time)
    requires Valid(w.repo)
    requires Stored(w.repo.store, UuidStr(id)) == Missing
    ensures CancelOrder(cfg, w, id, reply, now) == Step(w, Fail(404))
    ensures DeleteOrder(w, id, now) == Step(w, Fail(404))
  {
    ReadTransparent(w.repo, id, now);
  }

  /** Cancelling through the API keeps the stored order's history and adds
      exactly one `orderCancelled` entry. */
  lemma {:induction false} CancelKeepsHistory(cfg: Config, w: World, id: Uuid, reply: HttpReply, now: Time)
    requires Valid(w.repo)
    ensures var s := CancelOrder(cfg, w, id, reply, now);
      s.answer.Done? ==>
        var o := Stored(w.repo.store, UuidStr(id)).order;
        && Stored(s.world.repo.store, UuidStr(id)) == Found(Cancelled(o, now))
        && Stored(s.world.repo.store, UuidStr(id)).order.updated == o.updated + [StateUpdate(ORCA, now)]
  {
    ReadTransparent(w.repo, id, now);
    ReadKeepsValid(w.repo, id, now);
    var found := Find(w, id, now);
    if found.answer.Done? {
      var o := found.answer.value;
      assert o.id == id by {
        StoredId(w.repo, id);
      }
      CancelOutcome(cfg, found.world, o, reply, now);
    }
  }

  // ----- The adapter as written -----

  /** `create_order` as written: `OrderApiLogic(**db_order.dict())` lacks the
      `repository` argument and raises before anything is sent or stored. */
  function CreateOrderAsWritten(w: World, p: OrderPayload, newId: Uuid, now: Time): (s: Step<OrderResponse>)
    ensures s.world == w && s.answer == Fail(500)
  {
    Step(w, Fail(500))
  }

  /** `cancel_order` and `delete_order` as written: the lookup runs, then
      the logic object cannot be built, because `OrderApiLogic(**response.dict())`
      lacks `repository` (and, for delete, `updated`). */
  function FailAfterLookupAsWritten<T>(w: World, id: Uuid, now: Time): (s: Step<T>)
    ensures s.world == Find(w, id, now).world
    ensures s.answer == Fail(if Find(w, id, now).answer.Fail? then Find(w, id, now).answer.code else 500)
  {
    var found := Find(w, id, now);
    match found.answer
    case Fail(code) => Step(found.world, Fail(code))
    case Done(_) => Step(found.world, Fail(500))
  }

  /** As written, no order can be created, cancelled or deleted through the
      adapter: whatever the replies, nothing is sent and the collection is
      never written. */
  lemma {:induction false} AdapterAsWrittenNeverActs(w: World, p: OrderPayload, newId: Uuid, id: Uuid, now: Time)
    ensures CreateOrderAsWritten(w, p, newId, now).answer == Fail(500)
    ensures CreateOrderAsWritten(w, p, newId, now).world.sent == w.sent
    ensures FailAfterLookupAsWritten<OrderResponse>(w, id, now).answer.Fail?
    ensures FailAfterLookupAsWritten<OrderResponse>(w, id, now).world.repo.store == w.repo.store
    ensures FailAfterLookupAsWritten<OrderResponse>(w, id, now).world.sent == w.sent
  {
  }

  /** Every id of a response is a version-4 UUID, as the adapter's own
      `OrderResponse` schema, whose id fields are all `UUID4`, demands. */
  predicate Version4Ids(r: OrderResponse) {
    && IsVersion4(r.id) && IsVersion4(r.customerId)
    && (r.kitchenId.Some? ==> IsVersion4(r.kitchenId.value))
    && (r.deliveryId.Some? ==> IsVersion4(r.deliveryId.value))
  }

  /** `get_order` as written: the found order is returned as the adapter's
      `OrderResponse`, whose ids are typed `UUID4`; a stored order with any
      id of another version fails that validation, answered 500. */
  function GetOrderAsWritten(w: World, id: Uuid, now: Time): (s: Step<OrderResponse>)
    requires Valid(w.repo)
    ensures s.answer == Fail(404) <==> Stored(w.repo.store, UuidStr(id)) == Missing
    ensures s.answer.Done? <==>
      Stored(w.repo.store, UuidStr(id)).Found? && Version4Ids(ResponseOf(Stored(w.repo.store, UuidStr(id)).order))
    ensures s.answer.Done? ==> s.answer.value == ResponseOf(Stored(w.repo.store, UuidStr(id)).order)
    ensures s.world.repo.store == w.repo.store && s.world.sent == w.sent
  {
    ReadTransparent(w.repo, id, now);
    var found := Find(w, id, now);
    match found.answer
    case Done(o) =>
      if Version4Ids(ResponseOf(o)) then Step(found.world, Done(ResponseOf(o)))
      else Step(found.world, Fail(500))
    case Fail(code) => Step(found.world, Fail(code))
  }

  /** Orders get uuid7 ids, so as written every order created by the
      service is unreadable through `get_order`: the stored order is found,
      yet the answer is 500, where the corrected `GetOrder` returns it. */
  lemma {:induction false} GetOrderAsWrittenRejectsUuid7(w: World, id: Uuid, now: Time)
    requires Valid(w.repo)
    requires Stored(w.repo.store, UuidStr(id)).Found?
    requires id[12] == 7
    ensures GetOrderAsWritten(w, id, now).answer == Fail(500)
    ensures GetOrder(w, id, now).answer == Done(ResponseOf(Stored(w.repo.store, UuidStr(id)).order))
  {
    StoredId(w.repo, id);
  }

  /** `cancel_order` with the repository passed but otherwise as written:
      the order handed to `cancel` is `OrderModel(**response.dict())`, rebuilt
      from the response, which carries no history. The factories are not
      called: the response has an id and a creation time. */
  function CancelOrderFromResponse(cfg: Config, w: World, id: Uuid, reply: HttpReply, now: Time): (s: Step<OrderResponse>)
    ensures Find(w, id, now).answer.Done? ==>
      var o := Find(w, id, now).answer.value;
      s == Cancel(cfg, Find(w, id, now).world, o.(updated := []), reply, now)
  {
    var found := Find(w, id, now);
    match found.answer
    case Fail(code) => Step(found.world, Fail(code))
    case Done(o) =>
      OrderFromResponse(o, o.id, now);
      var rebuilt := Build(ResponseDump(ResponseOf(o)), o.id, now).value;
      Cancel(cfg, found.world, rebuilt, reply, now)
  }

  /** Rebuilding from the response erases the history: a successful cancel
      leaves the stored order with the single `orderCancelled` entry, so
      an order that had any history loses it. */
  lemma {:induction false} CancelFromResponseLosesHistory(cfg: Config, w: World, id: Uuid, reply: HttpReply, now: Time)
    requires Valid(w.repo)
    requires Stored(w.repo.store, UuidStr(id)).Found? && Stored(w.repo.store, UuidStr(id)).order.updated != []
    ensures var s := CancelOrderFromResponse(cfg, w, id, reply, now);
      var o := Stored(w.repo.store, UuidStr(id)).order;
      s.answer.Done? ==>
        && Stored(s.world.repo.store, UuidStr(id)) == Found(o.(status := ORCA, updated := [StateUpdate(ORCA, now)]))
        && Stored(s.world.repo.store, UuidStr(id)) != Found(Cancelled(o, now))
  {
    ReadTransparent(w.repo, id, now);
    ReadKeepsValid(w.repo, id, now);
    var found := Find(w, id, now);
    var o := found.answer.value;
    assert o.id == id by {
      StoredId(w.repo, id);
    }
    CancelOutcome(cfg, found.world, o.(updated := []), reply, now);
    assert |Cancelled(o.(updated := []), now).updated| < |Cancelled(o, now).updated|;
  }
}
