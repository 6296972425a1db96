/** `PaymentLogic`: PaymentService's handlers. A payment request fetches the
    customer's billing data from CustomerService, has the card company
    charge it and stores a `pending` payment; a reimbursement request does
    the same without storing anything; a card-company callback overwrites
    the payment's status and relays it to the queue that asked. */
module PaymentProcessor {
  import opened Common
  import opened Enums
  import opened Documents
  import opened Envelope
  import opened OrderModels
  import opened PaymentModels
  import opened PaymentRepository
  import opened Http

  const PaymentsCallbackUrl: string := "http://fictitious.com/v1/payments/callback"
  const BillingsUrl: string := "http://fakeCreditCardCompany.com/billings"
  const ReimburseUrl: string := "http://fakeCreditCardCompany.com/billings/reimburse"

  /** `PaymentPayload`: the order's items and its metadata. */
  datatype PaymentPayload = PaymentPayload(items: Items, metadata: Metadata)

  /** `BillingCallback`: the card company's verdict on a charge. */
  datatype BillingCallback = BillingCallback(status: PayStatus, callerId: Uuid, transactionId: Uuid)

  /** One message handed to the broker: its queue and body. */
  datatype Published = Published(queue: string, message: Value)

  /** What a PaymentService handler reads or changes: the `payments`
      collection, the requests sent so far and the messages published. */
  datatype PayWorld = PayWorld(store: Store, sent: seq<Call>, published: seq<Published>)

  datatype PayStep<T> = PayStep(world: PayWorld, answer: Answer<T>)

  function Post(w: PayWorld, url: string, body: Value): (r: PayWorld)
    ensures r.sent == w.sent + [Call(Http.Post, url, body)] && r == w.(sent := r.sent)
  {
    w.(sent := w.sent + [Call(Http.Post, url, body)])
  }

  // ----- The billing payload -----

  /** `CreditCardSchema`: nine string fields. */
  datatype CreditCard = CreditCard(
    cvv: string, bank: string, name: string, expiry: string, address: string,
    country: string, moneyRange: string, cardNumber: string, issuingNetwork: string)

  const CardKeys: set<string> :=
    {"CVV", "Bank", "Name", "Expiry", "Address", "Country", "MoneyRange", "CardNumber", "IssuingNetwork"}

  function CardField(d: Doc, k: string): Option<string> {
    if k in d then AsStr(d[k]) else None
  }

  function ValidateCard(v: Value): (r: Option<CreditCard>)
    ensures r.Some? <==> v.VDict? && forall k | k in CardKeys :: CardField(v.fields, k).Some?
    ensures r.Some? ==> r.value.cardNumber == CardField(v.fields, "CardNumber").value
  {
    if !v.VDict? then None
    else
      var d := v.fields;
      match (CardField(d, "CVV"), CardField(d, "Bank"), CardField(d, "Name"), CardField(d, "Expiry"),
             CardField(d, "Address"), CardField(d, "Country"), CardField(d, "MoneyRange"),
             CardField(d, "CardNumber"), CardField(d, "IssuingNetwork"))
      case (Some(cvv), Some(bank), Some(name), Some(expiry), Some(address), Some(country),
            Some(range), Some(number), Some(network)) =>
        Some(CreditCard(cvv, bank, name, expiry, address, country, range, number, network))
      case _ => None
  }

  function CardDump(c: CreditCard): Value {
    VDict(map[
      "CVV" := VStr(c.cvv), "Bank" := VStr(c.bank), "Name" := VStr(c.name), "Expiry" := VStr(c.expiry),
      "Address" := VStr(c.address), "Country" := VStr(c.country), "MoneyRange" := VStr(c.moneyRange),
      "CardNumber" := VStr(c.cardNumber), "IssuingNetwork" := VStr(c.issuingNetwork)])
  }

  /** A dumped card validates back to itself. */
  lemma CardRoundTrip(c: CreditCard)
    ensures ValidateCard(CardDump(c)) == Some(c)
  {
  }

  /** `BillingPayload`: where to call back, the card, a positive amount and
      the order id as caller id. */
  datatype Billing = Billing(callbackUrl: string, card: CreditCard, amount: int, callerId: string)

  /** `BillingPayload(callback_url=..., caller_id=..., **resp.json())`: the
      reply must be a dictionary that does not itself name `callback_url` or
      `caller_id` (a repeated keyword argument raises `TypeError`), with a
      valid card under `billing_info` and a positive `amount`. */
  function BillingFrom(body: Value, callerId: string): (r: Option<Billing>)
    ensures r.Some? <==>
      && body.VDict? && "callback_url" !in body.fields && "caller_id" !in body.fields
      && "billing_info" in body.fields && ValidateCard(body.fields["billing_info"]).Some?
      && "amount" in body.fields && body.fields["amount"].VInt? && body.fields["amount"].i > 0
    ensures r.Some? ==> r.value.callbackUrl == PaymentsCallbackUrl && r.value.callerId == callerId
  {
    if !body.VDict? || "callback_url" in body.fields || "caller_id" in body.fields then None
    else if "billing_info" !in body.fields || "amount" !in body.fields then None
    else
      match (ValidateCard(body.fields["billing_info"]), body.fields["amount"])
      case (Some(card), VInt(amount)) =>
        if amount > 0 then Some(Billing(PaymentsCallbackUrl, card, amount, callerId)) else None
      case _ => None
  }

  function BillingDump(b: Billing): Value {
    VDict(map[
      "callback_url" := VStr(b.callbackUrl), "billing_info" := CardDump(b.card),
      "amount" := VInt(b.amount), "caller_id" := VStr(b.callerId)])
  }

  // ----- The two outbound requests -----

  /** How the CustomerService billing reply is read: only 201 goes on, with
      its body; a refusal is 400 when its `detail` can be read and 500
      otherwise; a connect timeout and every other transport error are 500. */
  function BillingAnswer(reply: HttpReply): (r: Answer<Value>)
    ensures r.Done? <==> reply.Reply? && reply.code == 201
    ensures r.Done? ==> r.value == reply.body
    ensures r == Fail(400) <==> reply.Reply? && reply.code != 201 && HasDetail(reply.body)
    ensures r.Fail? ==> r.code == 400 || r.code == 500
  {
    match reply
    case Reply(code, body) => if code == 201 then Done(body) else Fail(RefusalCode(body))
    case _ => Fail(500)
  }

  /** `_charge_credit_card` and `_reimburse_credit_card` as their callers see
      them: 202 succeeds; a `ConnectError` is suppressed and also succeeds;
      any other status raises `RuntimeError`, answered 400; a connect
      timeout or any other failure is 500. A charge that succeeds yields
      the fresh transaction id. */
  function CardAnswer(reply: HttpReply, newTrans: Uuid): (r: Answer<Uuid>)
    ensures r.Done? <==> reply.ConnectError? || (reply.Reply? && reply.code == 202)
    ensures r.Done? ==> r.value == newTrans
    ensures r == Fail(400) <==> reply.Reply? && reply.code != 202
    ensures r.Fail? ==> r.code == 400 || r.code == 500
  {
    match reply
    case ConnectError => Done(newTrans)
    case Reply(code, _) => if code == 202 then Done(newTrans) else Fail(400)
    case _ => Fail(500)
  }

  function BillingUrl(root: string, meta: Metadata): string {
    root + "/v1/customers/" + meta.customerId + "/billing"
  }

  /** The part both requests share: the CustomerService URL (`None` when its
      lookup raises), the billing request, the billing payload built from
      its reply and the card-company request. The answer is the card
      company's, and the collection is not touched. */
  function BillAndCall(w: PayWorld, payload: PaymentPayload, root: Option<string>, billingReply: HttpReply,
                       cardUrl: string, cardReply: HttpReply, newTrans: Uuid): (s: PayStep<Uuid>)
    ensures s.world.store == w.store && s.world.published == w.published
    ensures root.None? ==> s == PayStep(w, Fail(500))
    ensures root.Some? ==>
      && |s.world.sent| > |w.sent|
      && s.world.sent[|w.sent|] == Call(Http.Post, BillingUrl(root.value, payload.metadata), ItemsDump(payload.items))
    ensures root.Some? && BillingAnswer(billingReply).Fail? ==>
      s == PayStep(Post(w, BillingUrl(root.value, payload.metadata), ItemsDump(payload.items)), Fail(BillingAnswer(billingReply).code))
    ensures s.answer.Done? <==>
      && root.Some? && BillingAnswer(billingReply).Done?
      && BillingFrom(billingReply.body, payload.metadata.orderId).Some?
      && CardAnswer(cardReply, newTrans).Done?
    ensures s.answer.Done? ==>
      && s.answer.value == newTrans && |s.world.sent| == |w.sent| + 2
      && s.world.sent[|w.sent| + 1] == Call(Http.Post, cardUrl, BillingDump(BillingFrom(billingReply.body, payload.metadata.orderId).value))
  {
    match root
    case None => PayStep(w, Fail(500))
    case Some(r) =>
      var w1 := Post(w, BillingUrl(r, payload.metadata), ItemsDump(payload.items));
      match BillingAnswer(billingReply)
      case Fail(code) => PayStep(w1, Fail(code))
      case Done(body) =>
        match BillingFrom(body, payload.metadata.orderId)
        case None => PayStep(w1, Fail(500))
        case Some(billing) =>
          var w2 := Post(w1, cardUrl, BillingDump(billing));
          PayStep(w2, CardAnswer(cardReply, newTrans))
  }

  // ----- The handlers -----

  /** `process_payment_request`: once billing and charge succeed, a
      `pending` payment with the order id as its id, the request's metadata
      and the charge's transaction id is inserted. An order id that is not
      a UUID, or a duplicate insert, is 500; an unacknowledged insert is not
      checked. */
  function ProcessPaymentRequest(w: PayWorld, payload: PaymentPayload, root: Option<string>, billingReply: HttpReply,
                                 cardReply: HttpReply, newTrans: Uuid, insert: InsertReply, now: Time): (s: PayStep<()>)
    ensures var billed := BillAndCall(w, payload, root, billingReply, BillingsUrl, cardReply, newTrans);
      && s.world.sent == billed.world.sent && s.world.published == w.published
      && (billed.answer.Fail? ==> s == PayStep(billed.world, Fail(billed.answer.code)))
    ensures s.world.store != w.store ==>
      && s.answer.Done?
      && NewPayment(payload.metadata, newTrans, now).Some?
      && s.world.store == Create(w.store, NewPayment(payload.metadata, newTrans, now).value, insert).store
    ensures s.answer.Done? <==>
      && BillAndCall(w, payload, root, billingReply, BillingsUrl, cardReply, newTrans).answer.Done?
      && NewPayment(payload.metadata, newTrans, now).Some?
      && Create(w.store, NewPayment(payload.metadata, newTrans, now).value, insert).result.Inserted?
  {
    var billed := BillAndCall(w, payload, root, billingReply, BillingsUrl, cardReply, newTrans);
    match billed.answer
    case Fail(code) => PayStep(billed.world, Fail(code))
    case Done(trans) =>
      match NewPayment(payload.metadata, trans, now)
      case None => PayStep(billed.world, Fail(500))
      case Some(p) =>
        var created := Create(billed.world.store, p, insert);
        if created.result.DuplicateKey? then PayStep(billed.world, Fail(500))
        else PayStep(billed.world.(store := created.store), Done(()))
  }

  /** `process_reimbursement_request`: billing and the card company's
      reimbursement, and nothing stored. */
  function ProcessReimbursementRequest(w: PayWorld, payload: PaymentPayload, root: Option<string>,
                                       billingReply: HttpReply, cardReply: HttpReply, newTrans: Uuid): (s: PayStep<()>)
    ensures s.world.store == w.store && s.world.published == w.published
    ensures var billed := BillAndCall(w, payload, root, billingReply, ReimburseUrl, cardReply, newTrans);
      && s.world == billed.world
      && s.answer == (if billed.answer.Done? then Done(()) else Fail(billed.answer.code))
  {
    var billed := BillAndCall(w, payload, root, billingReply, ReimburseUrl, cardReply, newTrans);
    match billed.answer
    case Fail(code) => PayStep(billed.world, Fail(code))
    case Done(_) => PayStep(billed.world, Done(()))
  }

  /** `PaymentResponse(status=..., metadata=...).model_dump()`. */
  function ResponseDump(status: PayStatus, meta: Metadata): Value {
    VDict(map["metadata" := MetadataDump(meta), "status" := VPayStatus(status)])
  }

  /** `process_response`: an unknown caller id is 404 with nothing written
      or published; a document that does not validate raises (500).
      Otherwise the callback's status overwrites the stored one, whatever
      it was, the update's result is not checked, the status and the stored
      metadata are published to the metadata's receiver, and the callback
      is answered as it came. */
  function ProcessResponse(w: PayWorld, cb: BillingCallback, now: Time): (s: PayStep<BillingCallback>)
    ensures Read(w.store, cb.callerId, now) == Missing <==> s == PayStep(w, Fail(404))
    ensures Read(w.store, cb.callerId, now) == Invalid <==> s == PayStep(w, Fail(500))
    ensures s.world.sent == w.sent
    ensures Read(w.store, cb.callerId, now).Found? ==>
      var p := Read(w.store, cb.callerId, now).payment;
      s == PayStep(PayWorld(Update(w.store, p.(status := cb.status)).store, w.sent,
                            w.published + [Published(p.metadata.receiver, ResponseDump(cb.status, p.metadata))]),
                   Done(cb))
  {
    match Read(w.store, cb.callerId, now)
    case Missing => PayStep(w, Fail(404))
    case Invalid => PayStep(w, Fail(500))
    case Found(p) =>
      var response := ResponseDump(cb.status, p.metadata);
      var updated := Update(w.store, p.(status := cb.status));
      PayStep(w.(store := updated.store, published := w.published + [Published(p.metadata.receiver, response)]), Done(cb))
  }

  // ----- Properties -----

  /** A stored payment's id is the key it was read under. */
  lemma ReadId(store: Store, key: Uuid, now: Time)
    requires Keyed(store) && Read(store, key, now).Found?
    ensures Read(store, key, now).payment.id == key
  {
    var f := FromMongo(Some(store[UuidStr(key)])).fields;
    assert f["id"] == VStr(UuidStr(key));
    ParseUuidStr(key);
  }

  /** The callback status replaces the stored one whatever it was: there is
      no transition guard, so a `paymentPaid` payment can become `pending`
      again. The stored payment reads back with only its status changed. */
  lemma {:induction false} CallbackOverwritesStatus(w: PayWorld, cb: BillingCallback, now: Time)
    requires Keyed(w.store) && Read(w.store, cb.callerId, now).Found?
    ensures var s := ProcessResponse(w, cb, now);
      var p := Read(w.store, cb.callerId, now).payment;
      && s.answer == Done(cb)
      && Read(s.world.store, cb.callerId, now) == Found(p.(status := cb.status))
      && Keyed(s.world.store)
      && s.world.published == w.published + [Published(p.metadata.receiver, ResponseDump(cb.status, p.metadata))]
  {
    var p := Read(w.store, cb.callerId, now).payment;
    ReadId(w.store, cb.callerId, now);
    ReadAfterUpdate(w.store, p.(status := cb.status), now);
    UpdateKeepsKeyedStore(w.store, p.(status := cb.status));
  }

  /** A successful payment request for an order with no payment yet leaves
      a `pending` payment for it, with the request's metadata and the
      charge's transaction id, and it needed a 201 from CustomerService. */
  lemma {:induction false} PaymentStoredPending(w: PayWorld, payload: PaymentPayload, root: Option<string>,
                                                billingReply: HttpReply, cardReply: HttpReply, newTrans: Uuid,
                                                insert: InsertReply, now: Time, later: Time)
    requires ParseUuidField(payload.metadata.orderId).Some?
    requires UuidStr(ParseUuidField(payload.metadata.orderId).value) !in w.store
    ensures var s := ProcessPaymentRequest(w, payload, root, billingReply, cardReply, newTrans, insert, now);
      var id := ParseUuidField(payload.metadata.orderId).value;
      s.answer.Done? ==>
        && billingReply.Reply? && billingReply.code == 201
        && Read(s.world.store, id, later) == Found(Payment(id, payload.metadata, newTrans, Pending, now))
  {
    var s := ProcessPaymentRequest(w, payload, root, billingReply, cardReply, newTrans, insert, now);
    if s.answer.Done? {
      var p := NewPayment(payload.metadata, newTrans, now).value;
      ReadAfterCreate(w.store, p, insert, later);
    }
  }

  /** A billing refusal stops a payment request after that one request:
      nothing is charged and nothing stored. */
  lemma {:induction false} RefusedBillingStoresNothing(w: PayWorld, payload: PaymentPayload, root: string,
                                                       billingReply: HttpReply, cardReply: HttpReply, newTrans: Uuid,
                                                       insert: InsertReply, now: Time)
    requires !(billingReply.Reply? && billingReply.code == 201)
    ensures var s := ProcessPaymentRequest(w, payload, Some(root), billingReply, cardReply, newTrans, insert, now);
      && s.world.store == w.store
      && s.world.sent == w.sent + [Call(Http.Post, BillingUrl(root, payload.metadata), ItemsDump(payload.items))]
      && s.answer == Fail(if billingReply.Reply? then RefusalCode(billingReply.body) else 500)
  {
  }
}
