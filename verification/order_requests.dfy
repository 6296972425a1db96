/** `OrderApiLogic`: the web-facing operations on one order. `create` has
    the customer charged before the order is stored, `cancel` has the
    payment reimbursed before it checks that the order may still be
    cancelled, and `delete` removes the order. */
module OrderRequests {
  import opened Common
  import opened Enums
  import opened Documents
  import opened Envelope
  import opened OrderModels
  import opened OrderRepository
  import opened OrderWorld
  import opened Http

  /** The order-service settings the handlers read: the service's own queue
      name, sent as the callback receiver. */
  datatype Config = Config(serviceName: string)

  datatype Step<T> = Step(world: World, answer: Answer<T>)

  // ----- dict() -----

  /** `OrderApiLogic.dict()` of a logic object built from `o.model_dump()`:
      the ids and the creation time as strings, an absent kitchen or
      delivery id as `None`, `items` and `status` as they are, and every
      history entry with its time as a string, in order. */
  function LogicDict(o: OrderModel): Doc {
    map[
      "id" := VStr(UuidStr(o.id)),
      "items" := ItemsDump(o.items),
      "customer_id" := VStr(UuidStr(o.customerId)),
      "kitchen_id" := if o.kitchenId.Some? then VStr(UuidStr(o.kitchenId.value)) else VNone,
      "delivery_id" := if o.deliveryId.Some? then VStr(UuidStr(o.deliveryId.value)) else VNone,
      "status" := VStatus(o.status),
      "updated" := LogicHistory(o.updated),
      "created" := VStr(TimeStr(o.created))]
  }

  /** The history as `dict()` writes it: each dumped entry mapped through
      `{'status': e['status'], 'when': str(e['when'])}`. */
  function LogicHistory(us: seq<StateUpdate>): Value {
    VList(seq(|us|, i requires 0 <= i < |us| => HistoryEntryOf(UpdateEntryDump(us[i]))))
  }

  lemma LogicHistoryIsHistoryDict(us: seq<StateUpdate>)
    ensures LogicHistory(us) == HistoryDict(us)
  {
    assert LogicHistory(us).elems == HistoryDict(us).elems;
  }

  /** `dict()` writes the same dictionary as `dict_of`, so an order rebuilt
      from it, `OrderModel(**self.dict())`, is the order again. */
  lemma {:induction false} LogicDictIsDictOf(o: OrderModel)
    ensures LogicDict(o) == DictOf(o)
    ensures Validate(LogicDict(o)) == Some(o)
  {
    LogicHistoryIsHistoryDict(o.updated);
    assert OptUuidStr(o.kitchenId) == if o.kitchenId.Some? then VStr(UuidStr(o.kitchenId.value)) else VNone;
    assert OptUuidStr(o.deliveryId) == if o.deliveryId.Some? then VStr(UuidStr(o.deliveryId.value)) else VNone;
    assert LogicDict(o) == DictOf(o);
    CacheRoundTrip(o);
  }

  // ----- _pay and _reimburse -----

  /** `PaymentPayload(metadata=meta, **self.dict()).model_dump()`. */
  function PaymentRequestBody(cfg: Config, o: OrderModel): (r: Value)
    ensures r.VDict? && r.fields.Keys == {"items", "metadata"}
    ensures r.fields["items"] == ItemsDump(o.items)
    ensures ValidateMetadata(r.fields["metadata"]) == Some(MetadataFor(cfg.serviceName, o.id, o.customerId))
  {
    var meta := MetadataFor(cfg.serviceName, o.id, o.customerId);
    ValidateMetadataDump(meta);
    VDict(map["items" := ItemsDump(o.items), "metadata" := MetadataDump(meta)])
  }

  /** How `_pay` and `_reimburse` read the PaymentService reply: only 202 is
      success; a refusal is 400 when it carries a `detail` and 500 when
      reading it raises; a connect timeout is turned into 500, and every
      other transport error escapes as 500. */
  function PaymentAnswer(reply: HttpReply): (r: Answer<()>)
    ensures r.Done? <==> reply.Reply? && reply.code == 202
    ensures r.Fail? ==> r.code == 400 || r.code == 500
    ensures r == Fail(400) <==> reply.Reply? && reply.code != 202 && HasDetail(reply.body)
  {
    match reply
    case Reply(code, body) => if code == 202 then Done(()) else Fail(RefusalCode(body))
    case _ => Fail(500)
  }

  /** `_pay` (path `/v1/payments`) and `_reimburse` (path
      `/v1/payments/reimburse`): the PaymentService URL is looked up, and
      when that does not raise, one POST carrying the order's items and
      metadata is sent. The repository is never touched. */
  function CallPaymentService(cfg: Config, w: World, o: OrderModel, path: string, reply: HttpReply, now: Time): (s: Step<()>)
    ensures s.world.repo == w.repo && s.world.registry == w.registry
    ensures Resolve(w, "PaymentService", now).root.None? ==> s == Step(w, Fail(500))
    ensures Resolve(w, "PaymentService", now).root.Some? ==>
      var root := Resolve(w, "PaymentService", now).root.value;
      && s.world.sent == w.sent + [Call(Post, root + path, PaymentRequestBody(cfg, o))]
      && s.answer == PaymentAnswer(reply)
  {
    var r := Resolve(w, "PaymentService", now);
    match r.root
    case None => Step(r.world, Fail(500))
    case Some(root) =>
      Step(Send(r.world, Call(Post, root + path, PaymentRequestBody(cfg, o))), PaymentAnswer(reply))
  }

  // ----- create, cancel, delete -----

  /** `OrderApiLogic.create`: the customer is charged first; only when the
      PaymentService accepted is `OrderModel(**self.dict())` inserted, unchanged
      (same status, same history). An unacknowledged insert is 400 and a
      duplicate id escapes as 500; otherwise the answer is the stored
      order's response. */
  function Create(cfg: Config, w: World, o: OrderModel, payReply: HttpReply, insert: InsertReply, now: Time): (s: Step<OrderResponse>)
    ensures var paid := CallPaymentService(cfg, w, o, "/v1/payments", payReply, now);
      && s.world.sent == paid.world.sent && s.world.urls == paid.world.urls
      && (paid.answer.Fail? ==> s == Step(paid.world, Fail(paid.answer.code)))
      && (paid.answer.Done? ==> s.world.repo == OrderRepository.Create(w.repo, o, insert).repo)
      && (paid.answer.Done? && OrderRepository.Create(w.repo, o, insert).result == Inserted(false) ==>
            s.answer == Fail(400))
      && (paid.answer.Done? && OrderRepository.Create(w.repo, o, insert).result == DuplicateKey ==>
            s.answer == Fail(500))
    ensures s.answer.Done? <==>
      CallPaymentService(cfg, w, o, "/v1/payments", payReply, now).answer.Done?
      && OrderRepository.Create(w.repo, o, insert).result == Inserted(true)
    ensures s.answer.Done? ==> s.answer.value == ResponseOf(o)
  {
    var paid := CallPaymentService(cfg, w, o, "/v1/payments", payReply, now);
    if paid.answer.Fail? then Step(paid.world, Fail(paid.answer.code))
    else
      LogicDictIsDictOf(o);
      var order := Validate(LogicDict(o)).value;
      var created := OrderRepository.Create(paid.world.repo, order, insert);
      var w' := paid.world.(repo := created.repo);
      match created.result
      case Inserted(true) => Step(w', Done(ResponseOf(order)))
      case Inserted(false) => Step(w', Fail(400))
      case DuplicateKey => Step(w', Fail(500))
  }

  /** The order `cancel` writes: status `orderCancelled` and exactly one
      history entry more, with that status; every other field is kept. */
  function Cancelled(o: OrderModel, now: Time): (r: OrderModel)
    ensures r.status == ORCA
    ensures |r.updated| == |o.updated| + 1 && r.updated[..|o.updated|] == o.updated
    ensures r.updated[|o.updated|] == StateUpdate(ORCA, now)
    ensures r.id == o.id && r.items == o.items && r.customerId == o.customerId && r.created == o.created
    ensures r.kitchenId == o.kitchenId && r.deliveryId == o.deliveryId
  {
    o.(status := ORCA, updated := o.updated + [StateUpdate(ORCA, now)])
  }

  /** `OrderApiLogic.cancel`: the reimbursement request goes out first, so
      it is sent even when the cancel is then refused. Only an order in
      `deliveryScheduled` may be cancelled (400 otherwise); it is written
      back cancelled, and a write that finds no order is 400. */
  function Cancel(cfg: Config, w: World, o: OrderModel, reply: HttpReply, now: Time): (s: Step<OrderResponse>)
    ensures var sent := CallPaymentService(cfg, w, o, "/v1/payments/reimburse", reply, now);
      && s.world.sent == sent.world.sent && s.world.urls == sent.world.urls
      && (sent.answer.Fail? ==> s == Step(sent.world, Fail(sent.answer.code)))
      && (sent.answer.Done? && o.status != DESC ==> s == Step(sent.world, Fail(400)))
      && (sent.answer.Done? && o.status == DESC ==>
            s.world.repo == Update(w.repo, Cancelled(o, now), now).repo
            && s.answer == if Update(w.repo, Cancelled(o, now), now).ok then Done(ResponseOf(Cancelled(o, now))) else Fail(400))
  {
    var sent := CallPaymentService(cfg, w, o, "/v1/payments/reimburse", reply, now);
    if sent.answer.Fail? then Step(sent.world, Fail(sent.answer.code))
    else if o.status != DESC then Step(sent.world, Fail(400))
    else
      LogicDictIsDictOf(o);
      var order := Cancelled(Validate(LogicDict(o)).value, now);
      var updated := Update(sent.world.repo, order, now);
      if updated.ok then Step(sent.world.(repo := updated.repo), Done(ResponseOf(order)))
      else Step(sent.world, Fail(400))
  }

  /** `OrderApiLogic.delete`: 404 exactly when no stored order was deleted. */
  function Delete(w: World, id: Uuid): (s: Step<()>)
    ensures s.world == w.(repo := OrderRepository.Delete(w.repo, id).repo)
    ensures s.answer == Fail(404) <==> UuidStr(id) !in w.repo.store
    ensures s.answer.Done? <==> UuidStr(id) in w.repo.store
  {
    var deleted := OrderRepository.Delete(w.repo, id);
    Step(w.(repo := deleted.repo), if deleted.ok then Done(()) else Fail(404))
  }

  // ----- Properties across calls -----

  /** Nothing is stored unless the PaymentService accepted the charge with
      202, and a successful create stores exactly the given order, which
      reads back as itself. */
  lemma {:induction false} CreateStoresOnlyPaid(cfg: Config, w: World, o: OrderModel, payReply: HttpReply,
                                                insert: InsertReply, now: Time)
    requires Valid(w.repo)
    ensures var s := Create(cfg, w, o, payReply, insert, now);
      s.world.repo != w.repo ==> payReply.Reply? && payReply.code == 202
    ensures var s := Create(cfg, w, o, payReply, insert, now);
      s.answer.Done? ==> Stored(s.world.repo.store, UuidStr(o.id)) == Found(o) && Valid(s.world.repo)
  {
    var s := Create(cfg, w, o, payReply, insert, now);
    CreateKeepsValid(w.repo, o, insert);
  }

  /** A cancel that succeeds leaves the stored order cancelled with its old
      history and one `orderCancelled` entry; one that is refused for the
      order's status has still sent the reimbursement and written nothing. */
  lemma {:induction false} CancelOutcome(cfg: Config, w: World, o: OrderModel, reply: HttpReply, now: Time)
    requires Valid(w.repo)
    ensures var s := Cancel(cfg, w, o, reply, now);
      s.answer.Done? ==> Stored(s.world.repo.store, UuidStr(o.id)) == Found(Cancelled(o, now)) && Valid(s.world.repo)
    ensures var s := Cancel(cfg, w, o, reply, now);
      o.status != DESC && Resolve(w, "PaymentService", now).root.Some? ==>
        s.answer.Fail? && s.world.repo == w.repo && |s.world.sent| == |w.sent| + 1
  {
    var s := Cancel(cfg, w, o, reply, now);
    UpdateKeepsValid(w.repo, Cancelled(o, now), now);
  }
}
