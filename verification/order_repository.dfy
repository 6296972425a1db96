/** `MongoRepository` of OrderService: the `orders` collection, keyed by the
    order id's string form, in front of which Redis caches each order read
    or updated for 30 minutes. */
module OrderRepository {
  import opened Common
  import opened Documents
  import opened OrderModels
  import KvCache

  /** Cached orders expire after 30 minutes. */
  const EXPIRE: nat := 60 * 30

  /** The `orders` collection, `_id` to document, and the order cache. */
  datatype Repo = Repo(store: map<string, Doc>, cache: KvCache.Cache<Doc>)

  /** What a read hands back: an order, nothing, or a document that does not
      validate as an order (the source raises a `ValidationError` there). */
  datatype ReadResult = Found(order: OrderModel) | Missing | Invalid

  /** `OrderModel(**d)` on a document that validates or not. */
  function Decode(d: Doc): ReadResult {
    match Validate(d)
    case Some(o) => Found(o)
    case None => Invalid
  }

  /** `_read` on a key string: `find_one`, then `from_mongo` when the
      document is truthy. */
  function Stored(store: map<string, Doc>, k: string): ReadResult {
    if k !in store then Missing
    else
      match FromMongo(Some(store[k]))
      case Falsy(_) => Missing
      case Fields(f) => Decode(f)
  }

  /** Every cache entry, live or expired, holds an order equal to the one
      stored under the same key. */
  predicate Coherent(r: Repo) {
    forall k | k in r.cache :: Stored(r.store, k).Found? && Decode(r.cache[k].value) == Stored(r.store, k)
  }

  predicate Valid(r: Repo) {
    Keyed(r.store) && Coherent(r)
  }

  datatype ReadStep = ReadStep(repo: Repo, result: ReadResult)

  /** `read`: a live cache entry is decoded as it is; on a miss the stored
      order, if there is one, is cached as `dict_of` for `EXPIRE` seconds
      and the cached form is decoded. The collection is never written. */
  function Read(r: Repo, key: Uuid, now: Time): (s: ReadStep)
    ensures s.repo.store == r.store
    ensures KvCache.Get(r.cache, UuidStr(key), now).Some? ==>
      s == ReadStep(r, Decode(KvCache.Get(r.cache, UuidStr(key), now).value))
    ensures KvCache.Get(r.cache, UuidStr(key), now).None? ==> s.result == Stored(r.store, UuidStr(key))
    ensures KvCache.Get(r.cache, UuidStr(key), now).None? && s.result.Found? ==>
      s.repo.cache == KvCache.Set(r.cache, UuidStr(key), DictOf(s.result.order), EXPIRE, now)
    ensures !s.result.Found? ==> s.repo == r
  {
    var k := UuidStr(key);
    match KvCache.Get(r.cache, k, now)
    case Some(value) => ReadStep(r, Decode(value))
    case None =>
      match Stored(r.store, k)
      case Found(payload) =>
        var value := DictOf(payload);
        CacheRoundTrip(payload);
        ReadStep(r.(cache := KvCache.Set(r.cache, k, value, EXPIRE, now)), Decode(value))
      case other => ReadStep(r, other)
  }

  datatype WriteStep = WriteStep(repo: Repo, ok: bool)

  /** `update`: the order's fields but its id are `$set` on the document
      with its id; only when one existed is the cache refreshed with
      `dict_of` for `EXPIRE` seconds. The result is `updatedExisting`. */
  function Update(r: Repo, o: OrderModel, now: Time): (s: WriteStep)
    ensures s.ok <==> UuidStr(o.id) in r.store
    ensures !s.ok ==> s.repo == r
    ensures s.ok ==> s.repo.store.Keys == r.store.Keys
    ensures s.ok ==> s.repo.cache == KvCache.Set(r.cache, UuidStr(o.id), DictOf(o), EXPIRE, now)
    ensures forall k | k in r.store && k != UuidStr(o.id) :: s.repo.store[k] == r.store[k]
  {
    var k := UuidStr(o.id);
    var base := ToMongo(UpdateDump(o));
    if k !in r.store then WriteStep(r, false)
    else WriteStep(Repo(r.store[k := r.store[k] + base], KvCache.Set(r.cache, k, DictOf(o), EXPIRE, now)), true)
  }

  datatype CreateStep = CreateStep(repo: Repo, result: CreateResult)

  /** `create`: `insert_one(to_mongo())`; an existing id is never
      overwritten, and the cache is not touched. */
  function Create(r: Repo, o: OrderModel, reply: InsertReply): (s: CreateStep)
    ensures s.repo.cache == r.cache
    ensures UuidStr(o.id) in r.store ==> s.repo == r
    ensures UuidStr(o.id) in r.store && reply == Acknowledged ==> s.result == DuplicateKey
    ensures UuidStr(o.id) !in r.store ==> s.repo.store == r.store[UuidStr(o.id) := ToMongo(ModelDump(o))]
    ensures s.result.Inserted? ==> s.result.acknowledged == (reply == Acknowledged)
  {
    var k := UuidStr(o.id);
    var doc := ToMongo(ModelDump(o));
    if k in r.store then
      if reply == Acknowledged then CreateStep(r, DuplicateKey) else CreateStep(r, Inserted(false))
    else CreateStep(r.(store := r.store[k := doc]), Inserted(reply == Acknowledged))
  }

  /** `delete`: `delete_one`, evicting the cache entry only when a document
      was deleted; the result is whether one was. */
  function Delete(r: Repo, key: Uuid): (s: WriteStep)
    ensures s.ok <==> UuidStr(key) in r.store
    ensures s.repo.store == r.store - {UuidStr(key)}
    ensures s.ok ==> s.repo.cache == KvCache.Delete(r.cache, UuidStr(key))
    ensures !s.ok ==> s.repo == r
  {
    var k := UuidStr(key);
    if k in r.store then WriteStep(Repo(r.store - {k}, KvCache.Delete(r.cache, k)), true)
    else WriteStep(r, false)
  }

  // ----- What a stored order decodes to -----

  /** `_read` of a present, non-empty document is the decoding of what
      `from_mongo` makes of it. */
  lemma StoredIs(store: map<string, Doc>, k: string, f: Doc)
    requires k in store && FromMongo(Some(store[k])) == Fields(f)
    ensures Stored(store, k) == Decode(f)
  {
  }

  lemma Overwrite<K, V>(m: map<K, V>, k: K, a: V, b: V)
    ensures m[k := a][k := b] == m[k := b]
  {
  }

  /** What `from_mongo` makes of an inserted order's document. */
  lemma {:induction false} CreatedFields(o: OrderModel)
    ensures FromMongo(Some(ToMongo(ModelDump(o)))) == Fields(UpdateDump(o)["id" := VStr(UuidStr(o.id))])
  {
    var dump := ModelDump(o);
    UpdateBase(o);
    FromToMongo(dump);
    Overwrite(UpdateDump(o), "id", VUuid(o.id), VStr(UuidStr(o.id)));
  }

  /** An inserted order reads back as itself. */
  lemma {:induction false} StoredAfterCreate(o: OrderModel)
    ensures Stored(map[UuidStr(o.id) := ToMongo(ModelDump(o))], UuidStr(o.id)) == Found(o)
  {
    var f := UpdateDump(o)["id" := VStr(UuidStr(o.id))];
    CreatedFields(o);
    ValidateWithStringId(o);
    StoredIs(map[UuidStr(o.id) := ToMongo(ModelDump(o))], UuidStr(o.id), f);
  }

  /** The fields `$set` writes. */
  lemma UpdateBase(o: OrderModel)
    ensures ToMongo(UpdateDump(o)) == UpdateDump(o)
    ensures UpdateDump(o).Keys == {"items", "customer_id", "kitchen_id", "delivery_id", "status", "updated", "created"}
  {
  }

  /** `$set` of an order's fields on the document stored under its id makes
      that document read back as the order, whatever it held before. */
  lemma {:induction false} StoredAfterMerge(prior: Doc, o: OrderModel)
    requires "_id" in prior && prior["_id"] == VStr(UuidStr(o.id))
    ensures Stored(map[UuidStr(o.id) := prior + UpdateDump(o)], UuidStr(o.id)) == Found(o)
  {
    var k := UuidStr(o.id);
    var merged := prior + UpdateDump(o);
    MergedFields(prior, o);
    var f := FromMongo(Some(merged)).fields;
    ValidateUpdated(f, o);
    StoredIs(map[k := merged], k, f);
  }

  /** What `from_mongo` makes of a document after the `$set`: the id from
      `_id`, and every field the update wrote. */
  lemma {:induction false} MergedFields(prior: Doc, o: OrderModel)
    requires "_id" in prior && prior["_id"] == VStr(UuidStr(o.id))
    ensures FromMongo(Some(prior + UpdateDump(o))).Fields?
    ensures var f := FromMongo(Some(prior + UpdateDump(o))).fields;
      && f["id"] == VStr(UuidStr(o.id))
      && HoldsUpdate(f, o)
  {
    var merged := prior + UpdateDump(o);
    UpdateDumpHolds(o);
    assert HoldsUpdate(merged, o);
    assert merged["_id"] == VStr(UuidStr(o.id));
  }

  // ----- The repository invariant -----

  /** `_read` of a key looks at that key's document only. */
  lemma StoredSame(store: map<string, Doc>, store': map<string, Doc>, k: string)
    requires k in store <==> k in store'
    requires k in store ==> store[k] == store'[k]
    ensures Stored(store, k) == Stored(store', k)
  {
  }

  /** A write to one key that leaves that key's cache entry, if any,
      coherent keeps the whole cache coherent. */
  lemma {:induction false} CoherentAfterWrite(r: Repo, r': Repo, k: string)
    requires Coherent(r)
    requires forall j | j != k :: (j in r'.store <==> j in r.store) && (j in r.store ==> r'.store[j] == r.store[j])
    requires forall j | j != k :: (j in r'.cache <==> j in r.cache) && (j in r.cache ==> r'.cache[j] == r.cache[j])
    requires k in r'.cache ==> Stored(r'.store, k).Found? && Decode(r'.cache[k].value) == Stored(r'.store, k)
    ensures Coherent(r')
  {
    forall j | j in r'.cache
      ensures Stored(r'.store, j).Found? && Decode(r'.cache[j].value) == Stored(r'.store, j)
    {
      if j != k {
        StoredSame(r.store, r'.store, j);
      }
    }
  }

  /** While the repository is valid, a read returns exactly the stored order,
      whether it is served from the cache or not. */
  lemma {:induction false} ReadTransparent(r: Repo, key: Uuid, now: Time)
    requires Valid(r)
    ensures Read(r, key, now).result == Stored(r.store, UuidStr(key))
  {
    var k := UuidStr(key);
    if KvCache.Get(r.cache, k, now).Some? {
      assert k in r.cache;
    }
  }

  lemma {:induction false} ReadKeepsValid(r: Repo, key: Uuid, now: Time)
    requires Valid(r)
    ensures Valid(Read(r, key, now).repo)
  {
    var s := Read(r, key, now);
    var k := UuidStr(key);
    if KvCache.Get(r.cache, k, now).None? && s.result.Found? {
      var o := s.result.order;
      assert Decode(DictOf(o)) == Found(o) by {
        CacheRoundTrip(o);
      }
      CoherentAfterWrite(r, s.repo, k);
    }
  }

  lemma {:induction false} UpdateKeepsValid(r: Repo, o: OrderModel, now: Time)
    requires Valid(r)
    ensures Valid(Update(r, o, now).repo)
    ensures Update(r, o, now).ok ==> Stored(Update(r, o, now).repo.store, UuidStr(o.id)) == Found(o)
  {
    var s := Update(r, o, now);
    var k := UuidStr(o.id);
    if s.ok {
      var merged := r.store[k] + UpdateDump(o);
      assert s.repo.store == r.store[k := merged];
      assert Stored(s.repo.store, k) == Found(o) by {
        StoredAfterMerge(r.store[k], o);
        StoredSame(s.repo.store, map[k := merged], k);
      }
      assert Decode(DictOf(o)) == Found(o) by {
        CacheRoundTrip(o);
      }
      assert Keyed(s.repo.store) by {
        UpdateBase(o);
        UpdateKeepsKeyed(r.store, k, merged);
      }
      CoherentAfterWrite(r, s.repo, k);
    }
  }

  lemma {:induction false} CreateKeepsValid(r: Repo, o: OrderModel, reply: InsertReply)
    requires Valid(r)
    ensures Valid(Create(r, o, reply).repo)
    ensures Create(r, o, reply).result == Inserted(true) ==>
      Stored(Create(r, o, reply).repo.store, UuidStr(o.id)) == Found(o)
  {
    var s := Create(r, o, reply);
    var k := UuidStr(o.id);
    if k !in r.store {
      var doc := ToMongo(ModelDump(o));
      assert s.repo.store == r.store[k := doc];
      assert Stored(s.repo.store, k) == Found(o) by {
        StoredAfterCreate(o);
        StoredSame(s.repo.store, map[k := doc], k);
      }
      assert Keyed(s.repo.store) by {
        CreatedKey(o);
        UpdateKeepsKeyed(r.store, k, doc);
      }
      CoherentAfterWrite(r, s.repo, k);
    }
  }

  /** An inserted order's document carries its id string as `_id`. */
  lemma {:induction false} CreatedKey(o: OrderModel)
    ensures "_id" in ToMongo(ModelDump(o)) && ToMongo(ModelDump(o))["_id"] == VStr(UuidStr(o.id))
  {
    UpdateBase(o);
    assert ModelDump(o)["id"] == VUuid(o.id);
  }

  lemma {:induction false} DeleteKeepsValid(r: Repo, key: Uuid)
    requires Valid(r)
    ensures Valid(Delete(r, key).repo)
    ensures Stored(Delete(r, key).repo.store, UuidStr(key)) == Missing
  {
    var s := Delete(r, key);
    var k := UuidStr(key);
    assert k !in s.repo.store;
    if s.ok {
      assert Keyed(s.repo.store) by {
        RemoveKeepsKeyed(r.store, k);
      }
      assert k !in s.repo.cache;
      CoherentAfterWrite(r, s.repo, k);
    }
  }

  /** A stored order's id is the one it is stored under. */
  lemma StoredId(r: Repo, id: Uuid)
    requires Keyed(r.store) && Stored(r.store, UuidStr(id)).Found?
    ensures Stored(r.store, UuidStr(id)).order.id == id
  {
    var k := UuidStr(id);
    var f := FromMongo(Some(r.store[k])).fields;
    assert f["id"] == VStr(k);
    ParseUuidStr(id);
  }

  // ----- read_all -----

  predicate NewestFirst(os: seq<OrderModel>) {
    forall i, j :: 0 <= i < j < |os| ==> os[i].created >= os[j].created
  }

  /** Inserting an order into a newest-first list keeps it newest first. */
  function Insert(o: OrderModel, os: seq<OrderModel>): (r: seq<OrderModel>)
    requires NewestFirst(os)
    ensures NewestFirst(r)
    ensures multiset(r) == multiset(os) + multiset{o}
  {
    if |os| == 0 || o.created >= os[0].created then
      InsertFront(o, os);
      [o] + os
    else
      var rest := Insert(o, os[1..]);
      InsertBehind(o, os, rest);
      [os[0]] + rest
  }

  lemma InsertFront(o: OrderModel, os: seq<OrderModel>)
    requires NewestFirst(os)
    requires |os| == 0 || o.created >= os[0].created
    ensures NewestFirst([o] + os)
  {
  }

  lemma {:induction false} InsertBehind(o: OrderModel, os: seq<OrderModel>, rest: seq<OrderModel>)
    requires NewestFirst(os) && |os| > 0 && o.created < os[0].created
    requires NewestFirst(rest) && multiset(rest) == multiset(os[1..]) + multiset{o}
    ensures NewestFirst([os[0]] + rest)
    ensures multiset([os[0]] + rest) == multiset(os) + multiset{o}
  {
    assert os == [os[0]] + os[1..];
    forall j | 0 <= j < |rest|
      ensures rest[j].created <= os[0].created
    {
      assert rest[j] in multiset(rest);
      if rest[j] != o {
        assert rest[j] in multiset(os[1..]);
        var i :| 0 <= i < |os[1..]| && os[1..][i] == rest[j];
        assert os[i + 1] == rest[j];
      }
    }
  }

  /** Sequences with the same multiset have the same length and members. */
  lemma SameElements<T>(a: seq<T>, b: seq<T>)
    requires multiset(a) == multiset(b)
    ensures |a| == |b|
    ensures forall x :: x in a <==> x in b
  {
    assert |a| == |multiset(a)|;
    forall x
      ensures x in a <==> x in b
    {
      assert x in a <==> x in multiset(a);
      assert x in b <==> x in multiset(b);
    }
  }

  /** `.sort('created', DESCENDING)`: the same orders, newest first. */
  function SortNewestFirst(os: seq<OrderModel>): (r: seq<OrderModel>)
    ensures NewestFirst(r)
    ensures multiset(r) == multiset(os)
  {
    if |os| == 0 then []
    else
      assert os == [os[0]] + os[1..];
      Insert(os[0], SortNewestFirst(os[1..]))
  }

  /** The orders the keys read as, in no particular order, or `None` when
      some key does not read as an order. */
  method Collect<K>(keys: set<K>, read: K -> ReadResult) returns (res: Option<seq<OrderModel>>)
    ensures res.Some? <==> forall k | k in keys :: read(k).Found?
    ensures res.Some? ==> |res.value| == |keys|
    ensures res.Some? ==> forall k | k in keys :: read(k).order in res.value
    ensures res.Some? ==> forall o | o in res.value :: exists k | k in keys :: read(k) == Found(o)
  {
    var todo := keys;
    var acc: seq<OrderModel> := [];
    ghost var done: set<K> := {};
    while todo != {}
      invariant todo + done == keys && todo !! done
      invariant |acc| == |done|
      invariant forall k | k in done :: read(k).Found? && read(k).order in acc
      invariant forall o | o in acc :: exists k | k in done :: read(k) == Found(o)
      decreases |todo|
    {
      var k :| k in todo;
      var found := read(k);
      if !found.Found? {
        return None;
      }
      acc := acc + [found.order];
      todo := todo - {k};
      done := done + {k};
    }
    res := Some(acc);
  }

  /** `read_all`: every stored order, newest first, or `None` when some
      document does not validate (the source raises there). */
  method ReadAll(r: Repo) returns (res: Option<seq<OrderModel>>)
    ensures res.Some? <==> forall k | k in r.store :: Stored(r.store, k).Found?
    ensures res.Some? ==> NewestFirst(res.value)
    ensures res.Some? ==> |res.value| == |r.store|
    ensures res.Some? ==> forall k | k in r.store :: Stored(r.store, k).order in res.value
    ensures res.Some? ==> forall o | o in res.value :: exists k | k in r.store :: Stored(r.store, k) == Found(o)
  {
    var all := Collect(r.store.Keys, k => Stored(r.store, k));
    if all.None? {
      return None;
    }
    var sorted := SortNewestFirst(all.value);
    SameElements(sorted, all.value);
    res := Some(sorted);
  }
}
