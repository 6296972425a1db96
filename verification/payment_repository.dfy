/** `MongoRepository` of PaymentService: the `payments` collection, keyed by
    the payment id's string form, with no cache in front. */
module PaymentRepository {
  import opened Common
  import opened Documents
  import opened PaymentModels

  type Store = map<string, Doc>

  /** What `read` hands back: a payment, `None` for an absent key, or a
      document that does not validate (the source raises there). */
  datatype ReadResult = Found(payment: Payment) | Missing | Invalid

  /** `read`: `find_one({"_id": str(key)})`, then `PaymentModel.from_mongo`,
      which hands a missing document back as `None`. */
  function Read(store: Store, key: Uuid, now: Time): (r: ReadResult)
    ensures UuidStr(key) !in store ==> r == Missing
    ensures r.Found? ==>
      && UuidStr(key) in store
      && FromMongo(Some(store[UuidStr(key)])).Fields?
      && Validate(FromMongo(Some(store[UuidStr(key)])).fields, now) == Some(r.payment)
  {
    var k := UuidStr(key);
    if k !in store then Missing
    else
      match FromMongo(Some(store[k]))
      case Falsy(_) => Missing
      case Fields(f) =>
        match Validate(f, now)
        case Some(p) => Found(p)
        case None => Invalid
  }

  datatype CreateStep = CreateStep(store: Store, result: CreateResult)

  /** `create`: `insert_one(payload.to_mongo())`; an existing id is never
      overwritten. */
  function Create(store: Store, p: Payment, reply: InsertReply): (s: CreateStep)
    ensures UuidStr(p.id) in store ==> s.store == store
    ensures UuidStr(p.id) in store && reply == Acknowledged ==> s.result == DuplicateKey
    ensures UuidStr(p.id) !in store ==>
      s == CreateStep(store[UuidStr(p.id) := ToMongo(ModelDump(p))], Inserted(reply == Acknowledged))
    ensures s.result.Inserted? ==> s.result.acknowledged == (reply == Acknowledged)
  {
    var k := UuidStr(p.id);
    if k in store then
      if reply == Acknowledged then CreateStep(store, DuplicateKey) else CreateStep(store, Inserted(false))
    else CreateStep(store[k := ToMongo(ModelDump(p))], Inserted(reply == Acknowledged))
  }

  datatype UpdateStep = UpdateStep(store: Store, updatedExisting: bool)

  /** `update`: `$set` of `PaymentUpdateModel(**payload.model_dump()).to_mongo()`
      on the document with the payment's id. The update model has no id, so
      the id is never written; only an existing document is changed. */
  function Update(store: Store, p: Payment): (s: UpdateStep)
    ensures s.updatedExisting <==> UuidStr(p.id) in store
    ensures !s.updatedExisting ==> s.store == store
    ensures s.updatedExisting ==>
      && UuidStr(p.id) in s.store
      && s.store == store[UuidStr(p.id) := s.store[UuidStr(p.id)]]
      && s.store[UuidStr(p.id)].Keys == store[UuidStr(p.id)].Keys + UpdateDump(p).Keys
      && (forall f | f in UpdateDump(p) :: s.store[UuidStr(p.id)][f] == UpdateDump(p)[f])
      && (forall f | f in store[UuidStr(p.id)] && f !in UpdateDump(p) ::
            s.store[UuidStr(p.id)][f] == store[UuidStr(p.id)][f])
  {
    var k := UuidStr(p.id);
    var base := ToMongo(UpdateDump(p));
    if k in store then UpdateStep(store[k := store[k] + base], true) else UpdateStep(store, false)
  }

  // ----- Read-back -----

  /** A created payment reads back as itself, and every other key reads as
      before. */
  lemma {:induction false} ReadAfterCreate(store: Store, p: Payment, reply: InsertReply, now: Time)
    requires UuidStr(p.id) !in store
    ensures Read(Create(store, p, reply).store, p.id, now) == Found(p)
    ensures forall key: Uuid | key != p.id :: Read(Create(store, p, reply).store, key, now) == Read(store, key, now)
  {
    var s := Create(store, p, reply).store;
    assert s == store[UuidStr(p.id) := ToMongo(ModelDump(p))];
    ReadInserted(store, p, now);
    ReadOthers(store, p, now);
  }

  lemma {:induction false} ReadInserted(store: Store, p: Payment, now: Time)
    ensures Read(store[UuidStr(p.id) := ToMongo(ModelDump(p))], p.id, now) == Found(p)
  {
    MongoRoundTrip(p, now);
    ReadValidated(store[UuidStr(p.id) := ToMongo(ModelDump(p))], p.id, now, p);
  }

  lemma {:induction false} ReadOthers(store: Store, p: Payment, now: Time)
    ensures forall key: Uuid | key != p.id ::
      Read(store[UuidStr(p.id) := ToMongo(ModelDump(p))], key, now) == Read(store, key, now)
  {
    var s := store[UuidStr(p.id) := ToMongo(ModelDump(p))];
    forall key: Uuid | key != p.id
      ensures Read(s, key, now) == Read(store, key, now)
    {
      if UuidStr(key) == UuidStr(p.id) {
        UuidStrInjective(key, p.id);
      }
      ReadSame(store, s, key, now);
    }
  }

  lemma ReadValidated(store: Store, key: Uuid, now: Time, p: Payment)
    requires UuidStr(key) in store && FromMongo(Some(store[UuidStr(key)])).Fields?
    requires Validate(FromMongo(Some(store[UuidStr(key)])).fields, now) == Some(p)
    ensures Read(store, key, now) == Found(p)
  {
  }

  /** `read` of a key looks at that key's document only. */
  lemma ReadSame(store: Store, store': Store, key: Uuid, now: Time)
    requires UuidStr(key) in store <==> UuidStr(key) in store'
    requires UuidStr(key) in store ==> store[UuidStr(key)] == store'[UuidStr(key)]
    ensures Read(store, key, now) == Read(store', key, now)
  {
  }

  /** An updated payment reads back as itself, whatever the document held
      before, as long as the document is stored under its own `_id`. */
  lemma {:induction false} ReadAfterUpdate(store: Store, p: Payment, now: Time)
    requires Keyed(store) && UuidStr(p.id) in store
    ensures Read(Update(store, p).store, p.id, now) == Found(p)
  {
    var k := UuidStr(p.id);
    var s := Update(store, p).store;
    var d := s[k];
    assert "_id" in d && d["_id"] == VStr(k);
    UpdatedFields(d, p);
    ValidateExtra(p, FromMongo(Some(d)).fields, now);
    ReadValidated(s, p.id, now, p);
  }

  /** What `from_mongo` makes of a document holding a payment's update
      fields under that payment's `_id`. */
  lemma {:induction false} UpdatedFields(d: Doc, p: Payment)
    requires "_id" in d && d["_id"] == VStr(UuidStr(p.id))
    requires forall f | f in UpdateDump(p) :: f in d && d[f] == UpdateDump(p)[f]
    ensures FromMongo(Some(d)).Fields?
    ensures var fields := FromMongo(Some(d)).fields;
      forall f | f in ModelDump(p)["id" := VStr(UuidStr(p.id))] :: f in fields && fields[f] == ModelDump(p)["id" := VStr(UuidStr(p.id))][f]
  {
  }

  /** Keys the payment model does not declare do not change how a
      document validates. */
  lemma {:induction false} ValidateExtra(p: Payment, f: Doc, now: Time)
    requires forall k | k in ModelDump(p)["id" := VStr(UuidStr(p.id))] :: k in f && f[k] == ModelDump(p)["id" := VStr(UuidStr(p.id))][k]
    ensures Validate(f, now) == Some(p)
  {
    var d := ModelDump(p)["id" := VStr(UuidStr(p.id))];
    ValidateWithStringId(p, now);
    assert f["id"] == d["id"] && f["metadata"] == d["metadata"];
    assert f["transaction_id"] == d["transaction_id"] && f["status"] == d["status"] && f["created"] == d["created"];
  }

  lemma CreateKeepsKeyed(store: Store, p: Payment, reply: InsertReply)
    requires Keyed(store)
    ensures Keyed(Create(store, p, reply).store)
  {
    if UuidStr(p.id) !in store {
      MongoRoundTrip(p, p.created);
      UpdateKeepsKeyed(store, UuidStr(p.id), ToMongo(ModelDump(p)));
    }
  }

  lemma UpdateKeepsKeyedStore(store: Store, p: Payment)
    requires Keyed(store)
    ensures Keyed(Update(store, p).store)
  {
    var k := UuidStr(p.id);
    if k in store {
      UpdateKeepsKeyed(store, k, Update(store, p).store[k]);
    }
  }
}
