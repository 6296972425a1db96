/** PaymentService's stored model: one payment per order, keyed by the
    order id, with the metadata of the request that created it, the card
    company's transaction id, its status (`pending` until the callback
    arrives) and its creation time. */
module PaymentModels {
  import opened Common
  import opened Enums
  import opened Documents
  import opened Envelope

  datatype Payment = Payment(
    id: Uuid,
    metadata: Metadata,
    transactionId: Uuid,
    status: PayStatus,
    created: Time)

  /** `PaymentUpdateModel.model_dump()`: every field but the id. */
  function UpdateDump(p: Payment): (r: Doc)
    ensures r.Keys == {"metadata", "transaction_id", "status", "created"}
    ensures "id" !in r && "_id" !in r
  {
    map[
      "metadata" := MetadataDump(p.metadata),
      "transaction_id" := VUuid(p.transactionId),
      "status" := VPayStatus(p.status),
      "created" := VTime(p.created)]
  }

  /** `PaymentModel.model_dump()`. */
  function ModelDump(p: Payment): (r: Doc)
    ensures r.Keys == UpdateDump(p).Keys + {"id"}
    ensures r["id"] == VUuid(p.id)
    ensures forall k | k in UpdateDump(p) :: r[k] == UpdateDump(p)[k]
  {
    UpdateDump(p)["id" := VUuid(p.id)]
  }

  /** `PaymentModel(**d)` with the default factories run: `metadata`,
      `transaction_id` and `id` are required, `status` defaults to
      `pending` and `created` to the current time; other keys are ignored. */
  function Validate(d: Doc, now: Time): (r: Option<Payment>)
    ensures r.Some? <==>
      && "id" in d && AsUuid(d["id"]).Some?
      && "metadata" in d && ValidateMetadata(d["metadata"]).Some?
      && "transaction_id" in d && AsUuid(d["transaction_id"]).Some?
      && ("status" in d ==> AsPayStatus(d["status"]).Some?)
      && ("created" in d ==> AsTime(d["created"]).Some?)
    ensures r.Some? ==>
      && r.value.id == AsUuid(d["id"]).value
      && r.value.metadata == ValidateMetadata(d["metadata"]).value
      && r.value.transactionId == AsUuid(d["transaction_id"]).value
      && r.value.status == (if "status" in d then AsPayStatus(d["status"]).value else Pending)
      && r.value.created == (if "created" in d then AsTime(d["created"]).value else now)
  {
    if "id" !in d || "metadata" !in d || "transaction_id" !in d then None
    else
      var id := AsUuid(d["id"]);
      var meta := ValidateMetadata(d["metadata"]);
      var trans := AsUuid(d["transaction_id"]);
      var status := if "status" in d then AsPayStatus(d["status"]) else Some(Pending);
      var created := if "created" in d then AsTime(d["created"]) else Some(now);
      if id.Some? && meta.Some? && trans.Some? && status.Some? && created.Some? then
        Some(Payment(id.value, meta.value, trans.value, status.value, created.value))
      else None
  }

  /** `PaymentModel(metadata=meta, id=meta.order_id, transaction_id=trans)`:
      a `pending` payment created now, or `None` when the order id in the
      metadata is not a UUID. */
  function NewPayment(meta: Metadata, transactionId: Uuid, now: Time): (r: Option<Payment>)
    ensures r.Some? <==> ParseUuidField(meta.orderId).Some?
    ensures r.Some? ==> r.value == Payment(ParseUuidField(meta.orderId).value, meta, transactionId, Pending, now)
  {
    ValidateMetadataDump(meta);
    var d := map["metadata" := MetadataDump(meta), "id" := VStr(meta.orderId), "transaction_id" := VUuid(transactionId)];
    Validate(d, now)
  }

  /** A payment's dump validates back to the payment, whatever the clock. */
  lemma {:induction false} DumpRoundTrip(p: Payment, now: Time)
    ensures Validate(ModelDump(p), now) == Some(p)
  {
    ValidateMetadataDump(p.metadata);
  }

  /** `from_mongo(to_mongo())`: the stored document gives the fields back
      with the id as a string, which validates to the same payment. */
  lemma {:induction false} MongoRoundTrip(p: Payment, now: Time)
    ensures "_id" in ToMongo(ModelDump(p)) && ToMongo(ModelDump(p))["_id"] == VStr(UuidStr(p.id))
    ensures FromMongo(Some(ToMongo(ModelDump(p)))) == Fields(ModelDump(p)["id" := VStr(UuidStr(p.id))])
    ensures Validate(ModelDump(p)["id" := VStr(UuidStr(p.id))], now) == Some(p)
  {
    FromToMongo(ModelDump(p));
    ValidateWithStringId(p, now);
  }

  lemma ValidateWithStringId(p: Payment, now: Time)
    ensures Validate(ModelDump(p)["id" := VStr(UuidStr(p.id))], now) == Some(p)
  {
    var d := ModelDump(p)["id" := VStr(UuidStr(p.id))];
    ValidateMetadataDump(p.metadata);
    ParseUuidStr(p.id);
    assert AsUuid(d["id"]) == Some(p.id);
  }
}
