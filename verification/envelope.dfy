/** The metadata that rides along with every inter-service request and
    callback: who to answer (`receiver`), and which order and customer the
    message is about. Both services declare the same schema. */
module Envelope {
  import opened Common
  import opened Documents

  datatype Metadata = Metadata(receiver: string, orderId: string, customerId: string)

  /** `decode_values`, run on every field before validation: a UUID becomes
      its string form and any other value is passed on untouched. */
  function DecodeValue(v: Value): (r: Value)
    ensures v.VUuid? ==> r == VStr(UuidStr(v.u))
    ensures !v.VUuid? ==> r == v
  {
    if v.VUuid? then VStr(UuidStr(v.u)) else v
  }

  function Field(d: map<string, Value>, k: string): Option<string> {
    if k in d then AsStr(DecodeValue(d[k])) else None
  }

  /** Validating `MetadataSchema` from a dictionary: all three fields are
      required and must be strings once UUIDs are decoded. */
  function ValidateMetadata(v: Value): (r: Option<Metadata>)
    ensures r.Some? <==>
      v.VDict? && Field(v.fields, "receiver").Some? && Field(v.fields, "order_id").Some?
      && Field(v.fields, "customer_id").Some?
    ensures r.Some? ==>
      && r.value.receiver == Field(v.fields, "receiver").value
      && r.value.orderId == Field(v.fields, "order_id").value
      && r.value.customerId == Field(v.fields, "customer_id").value
  {
    match v
    case VDict(d) =>
      if Field(d, "receiver").Some? && Field(d, "order_id").Some? && Field(d, "customer_id").Some? then
        Some(Metadata(Field(d, "receiver").value, Field(d, "order_id").value, Field(d, "customer_id").value))
      else None
    case _ => None
  }

  /** `model_dump()` of the metadata. */
  function MetadataDump(m: Metadata): (r: Value)
    ensures r.VDict? && r.fields.Keys == {"receiver", "order_id", "customer_id"}
  {
    VDict(map["receiver" := VStr(m.receiver), "order_id" := VStr(m.orderId), "customer_id" := VStr(m.customerId)])
  }

  /** Dumped metadata validates back to itself. */
  lemma ValidateMetadataDump(m: Metadata)
    ensures ValidateMetadata(MetadataDump(m)) == Some(m)
  {
  }

  /** The metadata a service builds for one of its orders: `MetadataSchema`
      given the receiver name and the order's and customer's UUIDs. The ids
      travel as strings that read back as the same UUIDs. */
  function MetadataFor(receiver: string, orderId: Uuid, customerId: Uuid): (r: Metadata)
    ensures ValidateMetadata(VDict(map["receiver" := VStr(receiver), "order_id" := VUuid(orderId),
                                       "customer_id" := VUuid(customerId)])) == Some(r)
    ensures ParseUuid(r.orderId) == Some(orderId) && ParseUuid(r.customerId) == Some(customerId)
    ensures ParseUuidField(r.orderId) == Some(orderId) && ParseUuidField(r.customerId) == Some(customerId)
    ensures r.receiver == receiver
  {
    ParseUuidStr(orderId);
    ParseUuidStr(customerId);
    Metadata(receiver, UuidStr(orderId), UuidStr(customerId))
  }
}
