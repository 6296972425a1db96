/** `OrderResponseLogic` and the message gate in front of it: how
    OrderService reacts to the status messages the other services send it.
    Every message that passes the gate is recorded on its order (one more
    history entry, stored) before anything else happens; `paymentPaid`
    then asks DeliveryService for a driver and `driverAvailable` asks
    KitchenService to cook, each recording the status they answer with.
    Failures are logged, never raised. */
module OrderEvents {
  import opened Common
  import opened Enums
  import opened Documents
  import opened Envelope
  import opened OrderModels
  import opened OrderRepository
  import opened OrderWorld
  import opened Http

  /** What a processed message ends in, by the `except` clause that logs it:
      a `RuntimeError` (unknown order, failed update, refused request), a
      `ConnectionError` (connect timeout), or anything else. */
  datatype Outcome =
    | Processed
    | UnknownOrder
    | UpdateFailed
    | Refused(service: string)
    | NoConnection(service: string)
    | Crashed

  /** The replies the three downstream requests would get. */
  datatype Replies = Replies(address: HttpReply, delivery: HttpReply, kitchen: HttpReply)

  datatype EventStep = EventStep(world: World, outcome: Outcome)

  /** An order with a new status and the history entry that records it. */
  function Recorded(o: OrderModel, status: Status, now: Time): (r: OrderModel)
    ensures r.status == status
    ensures |r.updated| == |o.updated| + 1 && r.updated[..|o.updated|] == o.updated
    ensures r.updated[|o.updated|] == StateUpdate(status, now)
    ensures r.id == o.id && r.items == o.items && r.customerId == o.customerId && r.created == o.created
    ensures r.kitchenId == o.kitchenId && r.deliveryId == o.deliveryId
  {
    o.(status := status, updated := o.updated + [StateUpdate(status, now)])
  }

  /** `_update_order_in_db`: the update, or `RuntimeError` when no order was
      updated. */
  function UpdateOrderInDb(w: World, o: OrderModel, now: Time): (s: EventStep)
    ensures s.outcome == UpdateFailed <==> UuidStr(o.id) !in w.repo.store
    ensures s.outcome == UpdateFailed ==> s.world == w
    ensures s.outcome != UpdateFailed ==> s == EventStep(w.(repo := Update(w.repo, o, now).repo), Processed)
  {
    var updated := Update(w.repo, o, now);
    if updated.ok then EventStep(w.(repo := updated.repo), Processed) else EventStep(w, UpdateFailed)
  }

  /** How a downstream reply that is not the expected success code is
      logged: a connect timeout as `ConnectionError`, a refusal with a
      `detail` as `RuntimeError`, anything else as a crash. */
  function Failure(service: string, reply: HttpReply): (r: Outcome)
    ensures r == NoConnection(service) <==> reply.ConnectTimeout?
    ensures r == Refused(service) <==> reply.Reply? && HasDetail(reply.body)
    ensures r.NoConnection? || r.Refused? || r.Crashed?
  {
    match reply
    case ConnectTimeout => NoConnection(service)
    case Reply(_, body) => if HasDetail(body) then Refused(service) else Crashed
    case _ => Crashed
  }

  /** The status and the id a downstream service answers with on 202,
      `data['status']` and `data[idKey]`, when both validate. */
  function Assigned(body: Value, idKey: string): (r: Option<(Status, Option<Uuid>)>)
    ensures r.Some? <==>
      body.VDict? && "status" in body.fields && idKey in body.fields
      && AsStatus(body.fields["status"]).Some? && AsOptUuid(body.fields[idKey]).Some?
    ensures r.Some? ==> r.value == (AsStatus(body.fields["status"]).value, AsOptUuid(body.fields[idKey]).value)
  {
    if body.VDict? && "status" in body.fields && idKey in body.fields then
      match (AsStatus(body.fields["status"]), AsOptUuid(body.fields[idKey]))
      case (Some(s), Some(id)) => Some((s, id))
      case _ => None
    else None
  }

  // ----- Downstream payloads -----

  datatype Address = Address(name: string, city: string, street: string, zipcode: string)

  /** `CustomerAddressSchema` validated from the address reply. */
  function ValidateAddress(v: Value): (r: Option<Address>)
    ensures r.Some? <==>
      v.VDict? && "name" in v.fields && "city" in v.fields && "street" in v.fields && "zipcode" in v.fields
      && AsStr(v.fields["name"]).Some? && AsStr(v.fields["city"]).Some?
      && AsStr(v.fields["street"]).Some? && AsStr(v.fields["zipcode"]).Some?
  {
    if v.VDict? && "name" in v.fields && "city" in v.fields && "street" in v.fields && "zipcode" in v.fields then
      match (AsStr(v.fields["name"]), AsStr(v.fields["city"]), AsStr(v.fields["street"]), AsStr(v.fields["zipcode"]))
      case (Some(n), Some(c), Some(s), Some(z)) => Some(Address(n, c, s, z))
      case _ => None
    else None
  }

  function AddressDump(a: Address): Value {
    VDict(map["name" := VStr(a.name), "city" := VStr(a.city), "street" := VStr(a.street), "zipcode" := VStr(a.zipcode)])
  }

  /** `KitchenPayload(metadata=..., **order.model_dump()).model_dump()`. */
  function KitchenBody(meta: Metadata, o: OrderModel): Value {
    VDict(map["items" := ItemsDump(o.items), "metadata" := MetadataDump(meta)])
  }

  /** `DeliveryPayload(metadata=..., address=..., **order.model_dump()).model_dump()`. */
  function DeliveryBody(meta: Metadata, address: Address, o: OrderModel): Value {
    VDict(map["items" := ItemsDump(o.items), "metadata" := MetadataDump(meta), "address" := AddressDump(address)])
  }

  function MessageMetadata(message: Doc): Option<Metadata> {
    if "metadata" in message then ValidateMetadata(message["metadata"]) else None
  }

  // ----- The two follow-up branches -----

  /** `_handle_delivery_ready`: the kitchen payload is built from the
      message's metadata, the KitchenService URL looked up, the cooking
      request sent; on 202 the status and kitchen id it answers with are
      recorded and stored. */
  function DeliveryReady(w: World, message: Doc, o: OrderModel, reply: HttpReply, now: Time): (s: EventStep)
    ensures MessageMetadata(message).None? ==> s == EventStep(w, Crashed)
    ensures MessageMetadata(message).Some? && Resolve(w, "KitchenService", now).root.None? ==>
      s == EventStep(w, Crashed)
    ensures MessageMetadata(message).Some? && Resolve(w, "KitchenService", now).root.Some? ==>
      var r := Resolve(w, "KitchenService", now);
      && s.world.sent == w.sent + [Call(Post, r.root.value + "/v1/kitchen", KitchenBody(MessageMetadata(message).value, o))]
      && s.world.urls == r.world.urls
      && (!(reply.Reply? && reply.code == 202) ==> s.outcome == Failure("KitchenService", reply) && s.world.repo == w.repo)
      && (reply.Reply? && reply.code == 202 && Assigned(reply.body, "kitchen_id").None? ==>
            s.outcome == Crashed && s.world.repo == w.repo)
      && (reply.Reply? && reply.code == 202 && Assigned(reply.body, "kitchen_id").Some? ==>
            var (status, kitchen) := Assigned(reply.body, "kitchen_id").value;
            && s.world.repo == Update(w.repo, Recorded(o.(kitchenId := kitchen), status, now), now).repo
            && (s.outcome == Processed <==> UuidStr(o.id) in w.repo.store))
    ensures w.sent <= s.world.sent && |s.world.sent| <= |w.sent| + 1
    ensures s.outcome == Processed ==>
      && reply.Reply? && reply.code == 202 && Assigned(reply.body, "kitchen_id").Some?
      && var (status, kitchen) := Assigned(reply.body, "kitchen_id").value;
         s.world.repo == Update(w.repo, Recorded(o.(kitchenId := kitchen), status, now), now).repo
    ensures s.outcome != Processed && s.outcome != UpdateFailed ==> s.world.repo == w.repo
  {
    match MessageMetadata(message)
    case None => EventStep(w, Crashed)
    case Some(meta) =>
      var r := Resolve(w, "KitchenService", now);
      match r.root
      case None => EventStep(r.world, Crashed)
      case Some(root) =>
        var w' := Send(r.world, Call(Post, root + "/v1/kitchen", KitchenBody(meta, o)));
        if !(reply.Reply? && reply.code == 202) then EventStep(w', Failure("KitchenService", reply))
        else
          match Assigned(reply.body, "kitchen_id")
          case None => EventStep(w', Crashed)
          case Some((status, kitchen)) =>
            UpdateOrderInDb(w', Recorded(o.(kitchenId := kitchen), status, now), now)
  }

  /** `_handle_successful_payment`: the customer's address is fetched from
      CustomerService (200 expected), the delivery request built from it and
      sent to DeliveryService; on 202 the status and delivery id it answers
      with are recorded and stored. */
  function SuccessfulPayment(w: World, message: Doc, o: OrderModel, replies: Replies, now: Time): (s: EventStep)
    ensures Resolve(w, "CustomerService", now).root.None? ==> s == EventStep(w, Crashed)
    ensures Resolve(w, "CustomerService", now).root.Some? ==>
      var r := Resolve(w, "CustomerService", now);
      var w1 := Send(r.world, Call(Get, r.root.value + "/v1/customers/" + UuidStr(o.customerId) + "/address", VNone));
      && (!(replies.address.Reply? && replies.address.code == 200) ==>
            s == EventStep(w1, Failure("CustomerService", replies.address)))
      && (replies.address.Reply? && replies.address.code == 200
          && (MessageMetadata(message).None? || ValidateAddress(replies.address.body).None?) ==>
            s == EventStep(w1, Crashed))
      && (replies.address.Reply? && replies.address.code == 200
          && MessageMetadata(message).Some? && ValidateAddress(replies.address.body).Some? ==>
            s == RequestDelivery(w1, DeliveryBody(MessageMetadata(message).value, ValidateAddress(replies.address.body).value, o),
                                 o, replies.delivery, now))
    ensures w.sent <= s.world.sent && |s.world.sent| <= |w.sent| + 2
    ensures !(replies.address.Reply? && replies.address.code == 200) ==>
      |s.world.sent| <= |w.sent| + 1 && s.world.repo == w.repo
    ensures s.outcome == Processed ==>
      && replies.address.Reply? && replies.address.code == 200
      && replies.delivery.Reply? && replies.delivery.code == 202 && Assigned(replies.delivery.body, "delivery_id").Some?
      && var (status, delivery) := Assigned(replies.delivery.body, "delivery_id").value;
         s.world.repo == Update(w.repo, Recorded(o.(deliveryId := delivery), status, now), now).repo
    ensures s.outcome != Processed && s.outcome != UpdateFailed ==> s.world.repo == w.repo
  {
    var r := Resolve(w, "CustomerService", now);
    match r.root
    case None => EventStep(r.world, Crashed)
    case Some(root) =>
      var w1 := Send(r.world, Call(Get, root + "/v1/customers/" + UuidStr(o.customerId) + "/address", VNone));
      var address := replies.address;
      if !(address.Reply? && address.code == 200) then EventStep(w1, Failure("CustomerService", address))
      else
        var meta := MessageMetadata(message);
        var addr := ValidateAddress(address.body);
        if meta.None? || addr.None? then EventStep(w1, Crashed)
        else RequestDelivery(w1, DeliveryBody(meta.value, addr.value, o), o, replies.delivery, now)
  }

  /** The DeliveryService half of `_handle_successful_payment`: the URL is
      looked up, the delivery request sent, and on 202 the status and
      delivery id it answers with are recorded and stored. */
  function RequestDelivery(w: World, body: Value, o: OrderModel, reply: HttpReply, now: Time): (s: EventStep)
    ensures Resolve(w, "DeliveryService", now).root.None? ==> s == EventStep(w, Crashed)
    ensures Resolve(w, "DeliveryService", now).root.Some? ==>
      var r := Resolve(w, "DeliveryService", now);
      && s.world.sent == w.sent + [Call(Post, r.root.value + "/v1/deliveries", body)]
      && s.world.urls == r.world.urls
      && (!(reply.Reply? && reply.code == 202) ==> s.outcome == Failure("DeliveryService", reply) && s.world.repo == w.repo)
      && (reply.Reply? && reply.code == 202 && Assigned(reply.body, "delivery_id").None? ==>
            s.outcome == Crashed && s.world.repo == w.repo)
      && (reply.Reply? && reply.code == 202 && Assigned(reply.body, "delivery_id").Some? ==>
            var (status, delivery) := Assigned(reply.body, "delivery_id").value;
            && s.world.repo == Update(w.repo, Recorded(o.(deliveryId := delivery), status, now), now).repo
            && (s.outcome == Processed <==> UuidStr(o.id) in w.repo.store))
    ensures w.sent <= s.world.sent && |s.world.sent| <= |w.sent| + 1
    ensures s.outcome == Processed ==>
      && reply.Reply? && reply.code == 202 && Assigned(reply.body, "delivery_id").Some?
      && var (status, delivery) := Assigned(reply.body, "delivery_id").value;
         s.world.repo == Update(w.repo, Recorded(o.(deliveryId := delivery), status, now), now).repo
    ensures s.outcome != Processed && s.outcome != UpdateFailed ==> s.world.repo == w.repo
  {
    var r := Resolve(w, "DeliveryService", now);
    match r.root
    case None => EventStep(r.world, Crashed)
    case Some(root) =>
      var w' := Send(r.world, Call(Post, root + "/v1/deliveries", body));
      if !(reply.Reply? && reply.code == 202) then EventStep(w', Failure("DeliveryService", reply))
      else
        match Assigned(reply.body, "delivery_id")
        case None => EventStep(w', Crashed)
        case Some((status, id)) => UpdateOrderInDb(w', Recorded(o.(deliveryId := id), status, now), now)
  }

  // ----- process_response -----

  /** `process_response` from the read on: an unknown order is only
      logged; a known one is recorded with the message status and stored
      first, and only then does `paymentPaid` or `driverAvailable` lead to
      the follow-up requests. */
  function ProcessResponse(w: World, message: Doc, status: Status, orderId: Uuid, replies: Replies, now: Time): (s: EventStep)
    ensures Read(w.repo, orderId, now).result == Missing ==>
      s == EventStep(w.(repo := Read(w.repo, orderId, now).repo), UnknownOrder)
    ensures Read(w.repo, orderId, now).result == Invalid ==>
      s == EventStep(w.(repo := Read(w.repo, orderId, now).repo), Crashed)
    ensures !Read(w.repo, orderId, now).result.Found? ==> s.world.sent == w.sent
    ensures Read(w.repo, orderId, now).result.Found? ==>
      var read := Read(w.repo, orderId, now);
      var recorded := Recorded(read.result.order, status, now);
      var first := UpdateOrderInDb(w.(repo := read.repo), recorded, now);
      && (first.outcome == UpdateFailed ==> s == first)
      && (first.outcome == Processed && status == PAID ==> s == SuccessfulPayment(first.world, message, recorded, replies, now))
      && (first.outcome == Processed && status == DRAV ==> s == DeliveryReady(first.world, message, recorded, replies.kitchen, now))
      && (first.outcome == Processed && status != PAID && status != DRAV ==> s == first)
  {
    var read := Read(w.repo, orderId, now);
    var w1 := w.(repo := read.repo);
    match read.result
    case Missing => EventStep(w1, UnknownOrder)
    case Invalid => EventStep(w1, Crashed)
    case Found(o) =>
      var recorded := Recorded(o, status, now);
      var first := UpdateOrderInDb(w1, recorded, now);
      if first.outcome != Processed then first
      else if status == PAID then SuccessfulPayment(first.world, message, recorded, replies, now)
      else if status == DRAV then DeliveryReady(first.world, message, recorded, replies.kitchen, now)
      else first
  }

  // ----- process_response_message, the gate -----

  datatype GateResult = Discarded | Handled(outcome: Outcome) | Escaped

  datatype GateStep = GateStep(world: World, result: GateResult)

  /** `ValidStatus(status=message.get('status'))`. */
  function MessageStatus(message: Doc): (r: Option<Status>)
    ensures r.Some? <==> "status" in message && AsStatus(message["status"]).Some?
    ensures r.Some? ==> r == AsStatus(message["status"])
  {
    if "status" in message then AsStatus(message["status"]) else None
  }

  /** `UUID(message['metadata']['order_id'])`. */
  function MessageOrderId(message: Doc): (r: Option<Uuid>)
    ensures r.Some? ==>
      && "metadata" in message && message["metadata"].VDict?
      && "order_id" in message["metadata"].fields && message["metadata"].fields["order_id"].VStr?
      && ParseUuid(message["metadata"].fields["order_id"].s) == r
    ensures ("metadata" in message && message["metadata"].VDict?
             && "order_id" in message["metadata"].fields && message["metadata"].fields["order_id"].VStr?) ==>
      r == ParseUuid(message["metadata"].fields["order_id"].s)
  {
    if "metadata" in message && message["metadata"].VDict? && "order_id" in message["metadata"].fields then
      match message["metadata"].fields["order_id"]
      case VStr(s) => ParseUuid(s)
      case _ => None
    else None
  }

  /** `process_response_message` with the order id read inside the handler's
      `try`, as its docstring intends: a message without `metadata` or
      without a valid status is discarded untouched; every other message is
      handed to the handler exactly once, whose failures are all logged. */
  function ProcessResponseMessage(w: World, message: Doc, replies: Replies, now: Time): (s: GateStep)
    ensures "metadata" !in message || MessageStatus(message).None? <==> s == GateStep(w, Discarded)
    ensures s.result != Escaped
    ensures s.result.Handled? && MessageOrderId(message).None? ==> s == GateStep(w, Handled(Crashed))
    ensures s.result.Handled? && MessageOrderId(message).Some? ==>
      var handled := ProcessResponse(w, message, MessageStatus(message).value, MessageOrderId(message).value, replies, now);
      s == GateStep(handled.world, Handled(handled.outcome))
  {
    if "metadata" !in message then GateStep(w, Discarded)
    else
      match MessageStatus(message)
      case None => GateStep(w, Discarded)
      case Some(status) =>
        match MessageOrderId(message)
        case None => GateStep(w, Handled(Crashed))
        case Some(id) =>
          var handled := ProcessResponse(w, message, status, id, replies, now);
          GateStep(handled.world, Handled(handled.outcome))
  }

  /** `process_response_message` as written: `process_response` reads the
      order id before its `try`, so a `ValueError` from a malformed id
      string reaches the gate's `except ValueError` and the message is
      discarded, while the `KeyError`, `TypeError` or `AttributeError` of a
      missing or non-string id escapes the gate. */
  function ProcessResponseMessageAsWritten(w: World, message: Doc, replies: Replies, now: Time): (s: GateStep)
    ensures s.result == Escaped <==>
      "metadata" in message && MessageStatus(message).Some?
      && !(message["metadata"].VDict? && "order_id" in message["metadata"].fields
           && message["metadata"].fields["order_id"].VStr?)
    ensures s.result == Escaped ==> s.world == w
  {
    if "metadata" !in message then GateStep(w, Discarded)
    else
      match MessageStatus(message)
      case None => GateStep(w, Discarded)
      case Some(status) =>
        var meta := message["metadata"];
        if !(meta.VDict? && "order_id" in meta.fields && meta.fields["order_id"].VStr?) then GateStep(w, Escaped)
        else
          match ParseUuid(meta.fields["order_id"].s)
          case None => GateStep(w, Discarded)
          case Some(id) =>
            var handled := ProcessResponse(w, message, status, id, replies, now);
            GateStep(handled.world, Handled(handled.outcome))
  }

  // ----- Properties -----

  /** A message about an order that is not stored is only logged: nothing is
      written and nothing is sent. */
  lemma {:induction false} UnknownOrderIsOnlyLogged(w: World, message: Doc, status: Status, orderId: Uuid,
                                                    replies: Replies, now: Time)
    requires Valid(w.repo)
    requires Stored(w.repo.store, UuidStr(orderId)) == Missing
    ensures ProcessResponse(w, message, status, orderId, replies, now) == EventStep(w, UnknownOrder)
  {
    ReadTransparent(w.repo, orderId, now);
  }

  /** A status with no follow-up is recorded as exactly one more history
      entry on the stored order, and nothing is sent. */
  lemma {:induction false} PlainStatusIsRecordedOnce(w: World, message: Doc, status: Status, orderId: Uuid,
                                                     replies: Replies, now: Time)
    requires Valid(w.repo)
    requires Stored(w.repo.store, UuidStr(orderId)).Found?
    requires status != PAID && status != DRAV
    ensures var s := ProcessResponse(w, message, status, orderId, replies, now);
      var o := Stored(w.repo.store, UuidStr(orderId)).order;
      && s.outcome == Processed
      && s.world.sent == w.sent
      && Stored(s.world.repo.store, UuidStr(orderId)) == Found(Recorded(o, status, now))
      && Valid(s.world.repo)
  {
    ReadTransparent(w.repo, orderId, now);
    ReadKeepsValid(w.repo, orderId, now);
    StoredId(w.repo, orderId);
    var read := Read(w.repo, orderId, now);
    var o := read.result.order;
    UpdateKeepsValid(read.repo, Recorded(o, status, now), now);
  }

  /** Messages are not deduplicated: the same message processed twice adds
      two history entries, both with its status. */
  lemma {:induction false} ReplayRecordsTwice(w: World, message: Doc, status: Status, orderId: Uuid,
                                              replies: Replies, now: Time, later: Time)
    requires Valid(w.repo)
    requires Stored(w.repo.store, UuidStr(orderId)).Found?
    requires status != PAID && status != DRAV
    ensures var once := ProcessResponse(w, message, status, orderId, replies, now);
      var twice := ProcessResponse(once.world, message, status, orderId, replies, later);
      var o := Stored(w.repo.store, UuidStr(orderId)).order;
      Stored(twice.world.repo.store, UuidStr(orderId)).Found?
      && Stored(twice.world.repo.store, UuidStr(orderId)).order.updated
         == o.updated + [StateUpdate(status, now), StateUpdate(status, later)]
  {
    var once := ProcessResponse(w, message, status, orderId, replies, now);
    var twice := ProcessResponse(once.world, message, status, orderId, replies, later);
    var o := Stored(w.repo.store, UuidStr(orderId)).order;
    assert Valid(once.world.repo) && Stored(once.world.repo.store, UuidStr(orderId)) == Found(Recorded(o, status, now)) by {
      PlainStatusIsRecordedOnce(w, message, status, orderId, replies, now);
    }
    assert Stored(twice.world.repo.store, UuidStr(orderId)) == Found(Recorded(Recorded(o, status, now), status, later)) by {
      PlainStatusIsRecordedOnce(once.world, message, status, orderId, replies, later);
    }
    RecordedTwice(o, status, now, later);
  }

  lemma RecordedTwice(o: OrderModel, status: Status, now: Time, later: Time)
    ensures Recorded(Recorded(o, status, now), status, later).updated
         == o.updated + [StateUpdate(status, now), StateUpdate(status, later)]
  {
  }

  /** A `paymentPaid` message is processed to the end only when
      DeliveryService accepted the order, and then leaves two more history
      entries: `paymentPaid` first, then the status DeliveryService
      answered, with its delivery id recorded. */
  lemma {:induction false} PaidProcessedOnlyWhenDelivered(w: World, message: Doc, orderId: Uuid, replies: Replies, now: Time)
    requires Valid(w.repo)
    requires Stored(w.repo.store, UuidStr(orderId)).Found?
    ensures var s := ProcessResponse(w, message, PAID, orderId, replies, now);
      var o := Stored(w.repo.store, UuidStr(orderId)).order;
      s.outcome == Processed ==>
        && Assigned(replies.delivery.body, "delivery_id").Some?
        && var (status, delivery) := Assigned(replies.delivery.body, "delivery_id").value;
           && Stored(s.world.repo.store, UuidStr(orderId))
              == Found(Recorded(Recorded(o, PAID, now).(deliveryId := delivery), status, now))
           && Valid(s.world.repo)
  {
    var s := ProcessResponse(w, message, PAID, orderId, replies, now);
    var o := Stored(w.repo.store, UuidStr(orderId)).order;
    PlainStatusFirst(w, message, PAID, orderId, replies, now);
    var read := Read(w.repo, orderId, now);
    var first := UpdateOrderInDb(w.(repo := read.repo), Recorded(o, PAID, now), now);
    if s.outcome == Processed {
      var (status, delivery) := Assigned(replies.delivery.body, "delivery_id").value;
      var o2 := Recorded(Recorded(o, PAID, now).(deliveryId := delivery), status, now);
      assert s.world.repo == Update(first.world.repo, o2, now).repo;
      UpdateKeepsValid(first.world.repo, o2, now);
    }
  }

  /** A `paymentPaid` message for a stored order, with both services
      reachable, a valid address from CustomerService and a valid 202 from
      DeliveryService, is processed: the address request and the delivery
      request are sent, and the stored order carries `paymentPaid` and then
      DeliveryService's status, with its delivery id. */
  lemma {:induction false} PaidRecordsDelivery(w: World, message: Doc, orderId: Uuid, replies: Replies, now: Time)
    requires Valid(w.repo)
    requires Stored(w.repo.store, UuidStr(orderId)).Found?
    requires MessageMetadata(message).Some?
    requires Resolve(w, "CustomerService", now).root.Some? && Resolve(w, "DeliveryService", now).root.Some?
    requires replies.address.Reply? && replies.address.code == 200 && ValidateAddress(replies.address.body).Some?
    requires replies.delivery.Reply? && replies.delivery.code == 202
    requires Assigned(replies.delivery.body, "delivery_id").Some?
    ensures var s := ProcessResponse(w, message, PAID, orderId, replies, now);
      var o := Stored(w.repo.store, UuidStr(orderId)).order;
      var (status, delivery) := Assigned(replies.delivery.body, "delivery_id").value;
      && s.outcome == Processed
      && |s.world.sent| == |w.sent| + 2
      && Stored(s.world.repo.store, UuidStr(orderId))
         == Found(Recorded(Recorded(o, PAID, now).(deliveryId := delivery), status, now))
      && Valid(s.world.repo)
  {
    var o := Stored(w.repo.store, UuidStr(orderId)).order;
    PlainStatusFirst(w, message, PAID, orderId, replies, now);
    var read := Read(w.repo, orderId, now);
    var recorded := Recorded(o, PAID, now);
    var first := UpdateOrderInDb(w.(repo := read.repo), recorded, now);
    var r := Resolve(first.world, "CustomerService", now);
    var w1 := Send(r.world, Call(Get, r.root.value + "/v1/customers/" + UuidStr(recorded.customerId) + "/address", VNone));
    ResolveOther(first.world, "CustomerService", "DeliveryService", now);
    var (status, delivery) := Assigned(replies.delivery.body, "delivery_id").value;
    var o2 := Recorded(recorded.(deliveryId := delivery), status, now);
    UpdateKeepsValid(first.world.repo, o2, now);
  }

  /** A `driverAvailable` message for a stored order, with KitchenService
      reachable and answering a valid 202, is processed: the cooking request
      is sent, and the stored order carries `driverAvailable` and then
      KitchenService's status, with its kitchen id. */
  lemma {:induction false} DriverAvailableRecordsKitchen(w: World, message: Doc, orderId: Uuid, replies: Replies, now: Time)
    requires Valid(w.repo)
    requires Stored(w.repo.store, UuidStr(orderId)).Found?
    requires MessageMetadata(message).Some?
    requires Resolve(w, "KitchenService", now).root.Some?
    requires replies.kitchen.Reply? && replies.kitchen.code == 202
    requires Assigned(replies.kitchen.body, "kitchen_id").Some?
    ensures var s := ProcessResponse(w, message, DRAV, orderId, replies, now);
      var o := Stored(w.repo.store, UuidStr(orderId)).order;
      var (status, kitchen) := Assigned(replies.kitchen.body, "kitchen_id").value;
      && s.outcome == Processed
      && |s.world.sent| == |w.sent| + 1
      && Stored(s.world.repo.store, UuidStr(orderId))
         == Found(Recorded(Recorded(o, DRAV, now).(kitchenId := kitchen), status, now))
      && Valid(s.world.repo)
  {
    var o := Stored(w.repo.store, UuidStr(orderId)).order;
    PlainStatusFirst(w, message, DRAV, orderId, replies, now);
    var read := Read(w.repo, orderId, now);
    var recorded := Recorded(o, DRAV, now);
    var first := UpdateOrderInDb(w.(repo := read.repo), recorded, now);
    var (status, kitchen) := Assigned(replies.kitchen.body, "kitchen_id").value;
    var o2 := Recorded(recorded.(kitchenId := kitchen), status, now);
    UpdateKeepsValid(first.world.repo, o2, now);
  }

  /** The first write of a known order, before any follow-up. */
  lemma {:induction false} PlainStatusFirst(w: World, message: Doc, status: Status, orderId: Uuid,
                                            replies: Replies, now: Time)
    requires Valid(w.repo)
    requires Stored(w.repo.store, UuidStr(orderId)).Found?
    ensures var o := Stored(w.repo.store, UuidStr(orderId)).order;
      var read := Read(w.repo, orderId, now);
      var first := UpdateOrderInDb(w.(repo := read.repo), Recorded(o, status, now), now);
      && read.result == Found(o) && o.id == orderId
      && first.outcome == Processed
      && Valid(first.world.repo)
      && UuidStr(orderId) in first.world.repo.store
  {
    ReadTransparent(w.repo, orderId, now);
    ReadKeepsValid(w.repo, orderId, now);
    StoredId(w.repo, orderId);
    var read := Read(w.repo, orderId, now);
    var o := read.result.order;
    UpdateKeepsValid(read.repo, Recorded(o, status, now), now);
  }

  /** A payment callback as PaymentService relays it, once through JSON
      (the status as its wire string), gets past the gate exactly when its
      status is not `pending`, which OrderService's status set lacks. */
  lemma {:induction false} PaymentCallbackPassesGate(w: World, status: PayStatus, meta: Metadata, replies: Replies, now: Time)
    ensures var message := map["metadata" := MetadataDump(meta), "status" := VStr(PayStatusWire(status))];
      ProcessResponseMessage(w, message, replies, now) == GateStep(w, Discarded) <==> status == Pending
  {
    PayStatusAsOrderStatus(status);
  }

  /** A message whose order id is missing or not a string gets past the
      gate as written; with the id read inside the handler's `try` it is
      logged instead. */
  lemma MissingOrderIdEscapes(w: World, replies: Replies, now: Time)
    ensures var message := map["status" := VStr("paymentPaid"), "metadata" := VDict(map[])];
      && ProcessResponseMessageAsWritten(w, message, replies, now).result == Escaped
      && ProcessResponseMessage(w, message, replies, now) == GateStep(w, Handled(Crashed))
  {
    var message := map["status" := VStr("paymentPaid"), "metadata" := VDict(map[])];
    assert MessageStatus(message) == Some(PAID);
  }
}
