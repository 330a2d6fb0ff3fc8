/** The building manifest: the upsert rule, its invariant, and revisions as cache keys (guardian.cpp). */
module Buildings {
  import opened Ints
  import opened Chunks
  import opened Wire
  import opened Records

  /** SHA-256 truncated to 16 bytes; nothing is assumed about it. */
  type Sha = bytes -> Hash16

  type Store = map<u64, Record>

  datatype Manifest = Manifest(records: Store, revision: u64, hash: Hash16)

  // ---------------------------------------------------------------- id order

  predicate IsMin(s: set<u64>, m: u64) { m in s && forall k :: k in s ==> m <= k }

  lemma MinExists(s: set<u64>)
    requires s != {}
    ensures exists m :: m in s && IsMin(s, m)
  {
    var x :| x in s;
    assert forall k :: k in s ==> k == x || k in s - {x};
    if s - {x} == {} {
      assert IsMin(s, x);
    } else {
      MinExists(s - {x});
      var m :| m in s - {x} && IsMin(s - {x}, m);
      assert IsMin(s, if m <= x then m else x);
    }
  }

  function MinKey(s: set<u64>): (m: u64)
    requires s != {}
    ensures IsMin(s, m)
  {
    MinExists(s);
    var m :| m in s && IsMin(s, m);
    m
  }

  predicate Ascending(keys: seq<u64>) { forall i, j :: 0 <= i < j < |keys| ==> keys[i] < keys[j] }

  /** The iteration order of std::map. */
  function SortedKeys(s: set<u64>): (keys: seq<u64>)
    ensures |keys| == |s|
    ensures forall k :: k in keys <==> k in s
  {
    if s == {} then []
    else
      var m := MinKey(s);
      assert s == (s - {m}) + {m};
      [m] + SortedKeys(s - {m})
  }

  lemma {:induction false} SortedKeysAscend(s: set<u64>)
    ensures Ascending(SortedKeys(s))
  {
    if s != {} {
      var m := MinKey(s);
      var rest := SortedKeys(s - {m});
      SortedKeysAscend(s - {m});
      forall j | 0 <= j < |rest|
        ensures m < rest[j]
      {
        assert rest[j] in rest;
      }
    }
  }

  function RecordsAt(store: Store, keys: seq<u64>): (rs: seq<Record>)
    requires forall k :: k in keys ==> k in store
    ensures |rs| == |keys| && forall i :: 0 <= i < |keys| ==> rs[i] == store[keys[i]]
  {
    seq(|keys|, i requires 0 <= i < |keys| => store[keys[i]])
  }

  function Ordered(store: Store): seq<Record> { RecordsAt(store, SortedKeys(store.Keys)) }

  function DigestOf(sha: Sha, store: Store): Hash16 { sha(WriteAll(WriteRecord, Ordered(store))) }

  // ---------------------------------------------------------------- upsert

  function NextRevision(revision: u64): u64 { if revision == U64_MAX then 1 else revision + 1 }

  function Stored(sha: Sha, m: Manifest, store: Store): Manifest {
    Manifest(store, NextRevision(m.revision), DigestOf(sha, store))
  }

  ghost predicate Clear(store: Store, r: Record) {
    forall k :: k in store && k != r.id ==> !Overlap(store[k], r)
  }

  /** When a record is accepted: a removal or a change must be newer, a new building needs room and free ground. */
  ghost predicate Accepts(cfg: Config, m: Manifest, r: Record) {
    && r.id != 0 && (r.flags == 0 || r.flags == 1)
    && (r.id in m.records ==> Newer(r, m.records[r.id]))
    && (r.flags == 0 ==> r.id in m.records)
    && (r.flags == 1 ==>
          && ValidRecord(cfg, r) && Clear(m.records, r)
          && (r.id !in m.records ==> |m.records| < cfg.maxBuildings))
  }

  ghost function Upsert(cfg: Config, sha: Sha, m: Manifest, r: Record): Manifest {
    if !Accepts(cfg, m, r) then m
    else if r.flags == 0 then Stored(sha, m, m.records - {r.id})
    else Stored(sha, m, m.records[r.id := r])
  }

  // ---------------------------------------------------------------- the invariant

  ghost predicate SharesBlock(a: Record, b: Record) {
    exists x: int, z: int :: Covers(a, x, z) && Covers(b, x, z)
  }

  ghost predicate StoreOk(cfg: Config, store: Store) {
    && (forall k :: k in store ==> store[k].id == k && ValidRecord(cfg, store[k]))
    && Disjoint(store)
    && |store| <= cfg.maxBuildings
  }

  ghost predicate Disjoint(store: Store) {
    forall j, k :: j in store && k in store && j != k ==> !Overlap(store[j], store[k])
  }

  ghost predicate ManifestOk(cfg: Config, sha: Sha, m: Manifest) {
    StoreOk(cfg, m.records) && m.hash == DigestOf(sha, m.records)
  }

  lemma OverlapSymmetric(a: Record, b: Record)
    ensures Overlap(a, b) <==> Overlap(b, a)
  {
  }

  lemma RemoveKeeps(cfg: Config, store: Store, id: u64)
    requires StoreOk(cfg, store)
    ensures StoreOk(cfg, store - {id})
  {
    SubsetSize((store - {id}).Keys, store.Keys);
  }

  lemma PutDisjoint(store: Store, r: Record)
    requires Disjoint(store) && Clear(store, r)
    ensures Disjoint(store[r.id := r])
  {
    var store' := store[r.id := r];
    forall j, k | j in store' && k in store' && j != k
      ensures !Overlap(store'[j], store'[k])
    {
      OverlapSymmetric(store'[j], store'[k]);
    }
  }

  lemma PutKeeps(cfg: Config, store: Store, r: Record)
    requires StoreOk(cfg, store) && ValidRecord(cfg, r) && Clear(store, r)
    requires r.id !in store ==> |store| < cfg.maxBuildings
    ensures StoreOk(cfg, store[r.id := r])
  {
    PutDisjoint(store, r);
    PutSize(store, r.id, r);
    var store' := store[r.id := r];
    forall k | k in store'
      ensures store'[k].id == k && ValidRecord(cfg, store'[k])
    {
      if k != r.id {
        assert store'[k] == store[k];
      }
    }
  }

  lemma PutSize<K, V>(m: map<K, V>, k: K, v: V)
    ensures |m[k := v]| == if k in m then |m| else |m| + 1
  {
    assert m[k := v].Keys == m.Keys + {k};
  }

  lemma UpsertKeeps(cfg: Config, sha: Sha, m: Manifest, r: Record)
    requires ManifestOk(cfg, sha, m)
    ensures ManifestOk(cfg, sha, Upsert(cfg, sha, m, r))
  {
    if Accepts(cfg, m, r) {
      if r.flags == 0 {
        RemoveKeeps(cfg, m.records, r.id);
      } else {
        PutKeeps(cfg, m.records, r);
      }
    }
  }

  ghost function Upserts(cfg: Config, sha: Sha, m: Manifest, rs: seq<Record>): Manifest {
    if rs == [] then m else Upsert(cfg, sha, Upserts(cfg, sha, m, rs[..|rs| - 1]), rs[|rs| - 1])
  }

  /** In every manifest that upserts can reach, no two buildings share a block and every record is in place. */
  lemma {:induction false} Reachable(cfg: Config, sha: Sha, m: Manifest, rs: seq<Record>)
    requires ManifestOk(cfg, sha, m)
    ensures var m' := Upserts(cfg, sha, m, rs);
      && ManifestOk(cfg, sha, m')
      && (forall j, k :: j in m'.records && k in m'.records && j != k ==> !SharesBlock(m'.records[j], m'.records[k]))
  {
    if rs != [] {
      Reachable(cfg, sha, m, rs[..|rs| - 1]);
      UpsertKeeps(cfg, sha, Upserts(cfg, sha, m, rs[..|rs| - 1]), rs[|rs| - 1]);
    }
    var m' := Upserts(cfg, sha, m, rs);
    forall j, k | j in m'.records && k in m'.records && j != k
      ensures !SharesBlock(m'.records[j], m'.records[k])
    {
      OverlapIsSharedBlock(m'.records[j], m'.records[k]);
    }
  }

  // ---------------------------------------------------------------- revisions

  /** How many of the upserts were accepted. */
  ghost function Successes(cfg: Config, sha: Sha, m: Manifest, rs: seq<Record>): (n: nat)
    ensures n <= |rs|
  {
    if rs == [] then 0
    else
      Successes(cfg, sha, m, rs[..|rs| - 1])
      + if Accepts(cfg, Upserts(cfg, sha, m, rs[..|rs| - 1]), rs[|rs| - 1]) then 1 else 0
  }

  /** The revision n successes later: after the first, 1, 2, ..., 2^64 - 1 in a cycle. */
  function RevisionAfter(revision: u64, n: nat): u64 {
    if n == 0 then revision
    else if revision == 0 then (n - 1) % 0xFFFF_FFFF_FFFF_FFFF + 1
    else (revision - 1 + n) % 0xFFFF_FFFF_FFFF_FFFF + 1
  }

  function Advance(revision: u64, n: nat): u64 {
    if n == 0 then revision else NextRevision(Advance(revision, n - 1))
  }

  lemma Turn(k: nat)
    ensures NextRevision(k % 0xFFFF_FFFF_FFFF_FFFF + 1) == (k + 1) % 0xFFFF_FFFF_FFFF_FFFF + 1
  {
  }

  lemma {:induction false} AdvanceCycles(revision: u64, n: nat)
    ensures Advance(revision, n) == RevisionAfter(revision, n)
  {
    if n > 0 {
      AdvanceCycles(revision, n - 1);
      if n > 1 || revision > 0 {
        Turn(if revision == 0 then n - 2 else revision + n - 2);
      }
    }
  }

  /** A refused record changes nothing; an accepted one advances the revision once. */
  lemma UpsertRevision(cfg: Config, sha: Sha, m: Manifest, r: Record, revision: u64, n: nat)
    requires m.revision == Advance(revision, n)
    ensures !Accepts(cfg, m, r) ==> Upsert(cfg, sha, m, r) == m
    ensures Upsert(cfg, sha, m, r).revision == Advance(revision, if Accepts(cfg, m, r) then n + 1 else n)
  {
  }

  lemma UpsertsStep(cfg: Config, sha: Sha, m: Manifest, rs: seq<Record>, r: Record)
    ensures Upserts(cfg, sha, m, rs + [r]) == Upsert(cfg, sha, Upserts(cfg, sha, m, rs), r)
    ensures Successes(cfg, sha, m, rs + [r])
         == Successes(cfg, sha, m, rs) + if Accepts(cfg, Upserts(cfg, sha, m, rs), r) then 1 else 0
  {
    assert (rs + [r])[..|rs + [r]| - 1] == rs;
  }

  ghost predicate Counted(cfg: Config, sha: Sha, m: Manifest, rs: seq<Record>) {
    && Upserts(cfg, sha, m, rs).revision == Advance(m.revision, Successes(cfg, sha, m, rs))
    && (Successes(cfg, sha, m, rs) == 0 ==> Upserts(cfg, sha, m, rs) == m)
  }

  lemma CountedStep(cfg: Config, sha: Sha, m: Manifest, rs: seq<Record>, r: Record)
    requires Counted(cfg, sha, m, rs)
    ensures Counted(cfg, sha, m, rs + [r])
  {
    hide Upserts, Successes, Accepts, Upsert, Advance;
    UpsertRevision(cfg, sha, Upserts(cfg, sha, m, rs), r, m.revision, Successes(cfg, sha, m, rs));
    UpsertsStep(cfg, sha, m, rs, r);
  }

  lemma {:induction false} RevisionCounts(cfg: Config, sha: Sha, m: Manifest, rs: seq<Record>)
    ensures Counted(cfg, sha, m, rs)
  {
    if rs == [] {
      assert Successes(cfg, sha, m, rs) == 0;
    } else {
      RevisionCounts(cfg, sha, m, rs[..|rs| - 1]);
      CountedStep(cfg, sha, m, rs[..|rs| - 1], rs[|rs| - 1]);
      assert rs == rs[..|rs| - 1] + [rs[|rs| - 1]];
    }
  }

  lemma RevisionDistinct(revision: u64, n: nat)
    requires 0 < n < 0xFFFF_FFFF_FFFF_FFFF
    ensures Advance(revision, n) != revision
  {
    AdvanceCycles(revision, n);
  }

  /** A client whose known revision equals the current one holds the current records: the short reply is right. */
  lemma RevisionIsCacheKey(cfg: Config, sha: Sha, known: Manifest, rs: seq<Record>)
    requires |rs| < 0xFFFF_FFFF_FFFF_FFFF
    ensures Upserts(cfg, sha, known, rs).revision == known.revision <==> Successes(cfg, sha, known, rs) == 0
    ensures Upserts(cfg, sha, known, rs).revision == known.revision ==> Upserts(cfg, sha, known, rs) == known
  {
    RevisionCounts(cfg, sha, known, rs);
    var n := Successes(cfg, sha, known, rs);
    if n > 0 {
      RevisionDistinct(known.revision, n);
    }
  }

  lemma UpsertRises(cfg: Config, sha: Sha, m: Manifest, r: Record, id: u64)
    requires id in m.records && id in Upsert(cfg, sha, m, r).records
    ensures var last := Upsert(cfg, sha, m, r).records[id]; last == m.records[id] || Newer(last, m.records[id])
  {
  }

  /** The id is present after each of the first i upserts, for every i. */
  ghost predicate Stays(cfg: Config, sha: Sha, m: Manifest, rs: seq<Record>, id: u64) {
    forall i :: 0 <= i <= |rs| ==> id in Upserts(cfg, sha, m, rs[..i]).records
  }

  /** While a building stays, its record changes only to a newer one, and its slot never falls. */
  lemma {:induction false} RecordsRise(cfg: Config, sha: Sha, m: Manifest, rs: seq<Record>, id: u64)
    requires Stays(cfg, sha, m, rs, id)
    ensures id in m.records && id in Upserts(cfg, sha, m, rs).records
    ensures var last := Upserts(cfg, sha, m, rs).records[id]; last == m.records[id] || Newer(last, m.records[id])
    ensures Upserts(cfg, sha, m, rs).records[id].slot >= m.records[id].slot
  {
    assert rs[..0] == [] && rs[..|rs|] == rs;
    if rs != [] {
      var before := rs[..|rs| - 1];
      forall i | 0 <= i <= |before|
        ensures id in Upserts(cfg, sha, m, before[..i]).records
      {
        assert before[..i] == rs[..i];
      }
      RecordsRise(cfg, sha, m, before, id);
      UpsertRises(cfg, sha, Upserts(cfg, sha, m, before), rs[|rs| - 1], id);
      var m1, r := Upserts(cfg, sha, m, before), rs[|rs| - 1];
      NewerIsStrictWeakOrder(Upsert(cfg, sha, m1, r).records[id], m1.records[id], m.records[id]);
    }
  }
}
