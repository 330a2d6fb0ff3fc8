/** The manifest on disk and on the wire: file format, loading and migration, pages. */
module ManifestFile {
  import opened Ints
  import opened Chunks
  import opened Wire
  import opened Records
  import opened Buildings

  // ---------------------------------------------------------------- file format

  /** "NCKBRG0" and the version digit. */
  function Magic(version: nat): bytes
    requires 1 <= version <= 3
  {
    [0x4E, 0x43, 0x4B, 0x42, 0x52, 0x47, 0x30, 0x30 + version]
  }

  function RecordSize(version: nat): nat { if version == 1 then 48 else 56 }

  /** The 48-byte file header. */
  function Header(cfg: Config, version: nat, revision: u64, count: u32, hash: Hash16): (b: bytes)
    requires 1 <= version <= 3
    ensures |b| == 48
  {
    Magic(version) + W16(version) + W16(RecordSize(version)) + WI32(RegionX(cfg)) + WI32(RegionZ(cfg))
    + (W64(revision) + W32(count) + hash)
  }

  function WriteAs(version: nat, r: Record): (b: bytes)
    ensures |b| == RecordSize(version)
  {
    if version == 1 then WriteRecord(r)[..48] else WriteRecord(r)
  }

  function Writer(version: nat): Record -> bytes { (r: Record) => WriteAs(version, r) }

  /** A manifest written in the given format version; the server itself writes version 3. */
  function FileOf(cfg: Config, version: nat, m: Manifest): bytes
    requires 1 <= version <= 3
  {
    Header(cfg, version, m.revision, WrapU32(|m.records|), m.hash)
    + WriteAll(Writer(version), Ordered(m.records))
  }

  /** The version that the magic announces. */
  function VersionOf(b: bytes): Option<nat> {
    if |b| < 48 then None
    else if b[..8] == Magic(1) then Some(1)
    else if b[..8] == Magic(2) then Some(2)
    else if b[..8] == Magic(3) then Some(3)
    else None
  }

  function CountIn(b: bytes): u32 requires |b| >= 48 { R32(b[28..32]) }

  predicate HeaderFits(cfg: Config, b: bytes) {
    && VersionOf(b).Some?
    && R16(b[8..10]) == VersionOf(b).value
    && R16(b[10..12]) == RecordSize(VersionOf(b).value)
    && RI32(b[12..16]) == RegionX(cfg)
    && RI32(b[16..20]) == RegionZ(cfg)
    && CountIn(b) <= cfg.maxBuildings
    && Sized(b, 48, CountIn(b), RecordSize(VersionOf(b).value))
  }

  const BLANK: Record := Record(0, 0, 0, 0, 0, 0, 0, 0, [0, 0, 0, 0, 0, 0, 0, 0, 0, 0, 0, 0, 0, 0, 0, 0], 0)

  function ReadOr(b: bytes): Record { if ReadRecord(b).Some? then ReadRecord(b).value else BLANK }

  function RecordsIn(b: bytes): (rs: seq<Record>)
    requires VersionOf(b).Some? && Sized(b, 48, CountIn(b), RecordSize(VersionOf(b).value))
    ensures |rs| == CountIn(b)
  {
    ReadAll(ReadOr, b[48..], RecordSize(VersionOf(b).value), CountIn(b))
  }

  /** All records are valid, under distinct ids, and pairwise disjoint. */
  ghost predicate AllGood(cfg: Config, rs: seq<Record>) {
    && (forall i :: 0 <= i < |rs| ==> ValidRecord(cfg, rs[i]))
    && (forall i, j :: 0 <= i < j < |rs| ==> rs[i].id != rs[j].id && !Overlap(rs[i], rs[j]))
  }

  ghost predicate Loadable(cfg: Config, b: bytes) { HeaderFits(cfg, b) && AllGood(cfg, RecordsIn(b)) }

  function IndexBy(rs: seq<Record>): Store {
    if rs == [] then map[] else IndexBy(rs[..|rs| - 1])[rs[|rs| - 1].id := rs[|rs| - 1]]
  }

  function Fresh(sha: Sha): Manifest { Manifest(map[], 0, DigestOf(sha, map[])) }

  function Installed(sha: Sha, b: bytes): Manifest
    requires VersionOf(b).Some? && Sized(b, 48, CountIn(b), RecordSize(VersionOf(b).value))
  {
    var store := IndexBy(RecordsIn(b));
    var revision := R64(b[20..28]);
    Manifest(store, if VersionOf(b) == Some(3) then revision else NextRevision(revision), DigestOf(sha, store))
  }

  /** A file is taken whole or not at all. */
  ghost function Loaded(cfg: Config, sha: Sha, b: bytes): Manifest {
    if Loadable(cfg, b) then Installed(sha, b) else Fresh(sha)
  }

  // ---------------------------------------------------------------- what loading gives

  lemma IndexByMore(rs: seq<Record>, last: Record)
    ensures IndexBy(rs + [last]) == IndexBy(rs)[last.id := last]
  {
    assert (rs + [last])[..|rs|] == rs;
  }

  lemma {:induction false} IndexLists(rs: seq<Record>)
    ensures forall k :: k in IndexBy(rs) ==> IndexBy(rs)[k].id == k && IndexBy(rs)[k] in rs
    ensures forall r :: r in rs ==> r.id in IndexBy(rs)
    ensures |IndexBy(rs)| <= |rs|
  {
    if rs != [] {
      var before, last := rs[..|rs| - 1], rs[|rs| - 1];
      IndexLists(before);
      assert rs == before + [last];
      PutSize(IndexBy(before), last.id, last);
    }
  }

  lemma {:induction false} DistinctIndex(rs: seq<Record>)
    requires forall i, j :: 0 <= i < j < |rs| ==> rs[i].id != rs[j].id
    ensures |IndexBy(rs)| == |rs|
    ensures forall r :: r in rs ==> r.id in IndexBy(rs) && IndexBy(rs)[r.id] == r
  {
    if rs != [] {
      hide IndexBy;
      var before, last := rs[..|rs| - 1], rs[|rs| - 1];
      DistinctIndex(before);
      IndexLists(before);
      IndexByMore(before, last);
      assert rs == before + [last];
      assert last.id !in IndexBy(before);
      PutSize(IndexBy(before), last.id, last);
    }
  }

  lemma GoodIndexOk(cfg: Config, rs: seq<Record>)
    requires AllGood(cfg, rs) && |rs| <= cfg.maxBuildings
    ensures StoreOk(cfg, IndexBy(rs))
  {
    IndexLists(rs);
    var store := IndexBy(rs);
    forall k | k in store
      ensures ValidRecord(cfg, store[k])
    {
      var i :| 0 <= i < |rs| && rs[i] == store[k];
    }
    GoodDisjoint(cfg, rs);
  }

  lemma GoodDisjoint(cfg: Config, rs: seq<Record>)
    requires AllGood(cfg, rs)
    ensures Disjoint(IndexBy(rs))
  {
    IndexLists(rs);
    var store := IndexBy(rs);
    forall j, k | j in store && k in store && j != k
      ensures !Overlap(store[j], store[k])
    {
      var x :| 0 <= x < |rs| && rs[x] == store[j];
      var y :| 0 <= y < |rs| && rs[y] == store[k];
      OverlapSymmetric(rs[x], rs[y]);
    }
  }

  /** Whatever the bytes, the server starts with a manifest in which everything is in order. */
  lemma LoadedOk(cfg: Config, sha: Sha, b: bytes)
    ensures ManifestOk(cfg, sha, Loaded(cfg, sha, b))
  {
    if Loadable(cfg, b) {
      GoodIndexOk(cfg, RecordsIn(b));
    }
  }

  // ---------------------------------------------------------------- round trip and migration

  lemma HeaderReads(cfg: Config, version: nat, revision: u64, count: u32, hash: Hash16, body: bytes)
    requires 1 <= version <= 3
    ensures var b := Header(cfg, version, revision, count, hash) + body;
      && VersionOf(b) == Some(version)
      && R16(b[8..10]) == version && R16(b[10..12]) == RecordSize(version)
      && RI32(b[12..16]) == RegionX(cfg) && RI32(b[16..20]) == RegionZ(cfg)
      && R64(b[20..28]) == revision && CountIn(b) == count && b[48..] == body
  {
    hide W16, W32, W64, WI32, R16, RI32, R64;
    var head := Magic(version) + W16(version) + W16(RecordSize(version)) + WI32(RegionX(cfg)) + WI32(RegionZ(cfg));
    var tail := W64(revision) + W32(count) + hash;
    var h := Header(cfg, version, revision, count, hash);
    var b := h + body;
    assert h == head + tail && |head| == 20;
    assert head[..8] == Magic(version) && head[8..10] == W16(version) && head[10..12] == W16(RecordSize(version));
    assert head[12..16] == WI32(RegionX(cfg)) && head[16..20] == WI32(RegionZ(cfg));
    assert tail[0..8] == W64(revision) && tail[8..12] == W32(count);
    assert b[..8] == head[..8] && b[8..10] == head[8..10] && b[10..12] == head[10..12];
    assert b[12..16] == head[12..16] && b[16..20] == head[16..20];
    assert b[20..28] == tail[0..8] && b[28..32] == tail[8..12];
    Inverse16(version, 0);
    Inverse16(RecordSize(version), 0);
    Inverse32(count, RegionX(cfg));
    Inverse32(count, RegionZ(cfg));
    Inverse64(revision);
    assert Magic(version)[7] == 0x30 + version;
  }

  /** What a format version keeps of a record. */
  function Kept(version: nat, r: Record): Record { if version == 1 then r.(slot := 0) else r }

  function KeptStore(version: nat, store: Store): Store { map k | k in store :: Kept(version, store[k]) }

  lemma BodyReads(version: nat, rs: seq<Record>)
    ensures var b := WriteAll(Writer(version), rs);
      && |b| == |rs| * RecordSize(version)
      && ReadAll(ReadOr, b, RecordSize(version), |rs|) == seq(|rs|, i requires 0 <= i < |rs| => Kept(version, rs[i]))
  {
    hide ReadAll, WriteAll;
    var kept := seq(|rs|, i requires 0 <= i < |rs| => Kept(version, rs[i]));
    var write := Writer(version);
    forall r | r in kept
      ensures |write(r)| == RecordSize(version) && ReadOr(write(r)) == r
    {
      RecordRoundTrip(r);
    }
    ReadAllOfWriteAll(write, ReadOr, kept, RecordSize(version));
    KeptWrites(version, rs, kept);
  }

  lemma {:induction false} KeptWrites(version: nat, rs: seq<Record>, kept: seq<Record>)
    requires |kept| == |rs| && forall i :: 0 <= i < |rs| ==> kept[i] == Kept(version, rs[i])
    ensures WriteAll(Writer(version), kept) == WriteAll(Writer(version), rs)
  {
    if rs != [] {
      KeptWrites(version, rs[1..], kept[1..]);
      assert WriteAs(version, kept[0]) == WriteAs(version, rs[0]) by {
        assert WriteRecord(rs[0].(slot := 0))[..48] == WriteRecord(rs[0])[..48];
      }
    }
  }

  lemma RecordsAtMore(store: Store, keys: seq<u64>, last: u64)
    requires last in store && forall k :: k in keys ==> k in store
    ensures RecordsAt(store, keys + [last]) == RecordsAt(store, keys) + [store[last]]
  {
  }

  lemma {:induction false} IndexOfKeys(store: Store, keys: seq<u64>)
    requires forall k :: k in keys ==> k in store && store[k].id == k
    ensures IndexBy(RecordsAt(store, keys)) == map k | k in store && k in keys :: store[k]
  {
    if keys != [] {
      hide IndexBy, RecordsAt;
      var before, last := keys[..|keys| - 1], keys[|keys| - 1];
      assert keys == before + [last] && last in keys;
      assert forall k :: k in before ==> k in keys;
      IndexOfKeys(store, before);
      IndexByMore(RecordsAt(store, before), store[last]);
      RecordsAtMore(store, before, last);
    }
  }

  lemma IndexOfOrdered(store: Store)
    requires forall k :: k in store ==> store[k].id == k
    ensures IndexBy(Ordered(store)) == store
  {
    IndexOfKeys(store, SortedKeys(store.Keys));
  }

  lemma KeptOrdered(version: nat, store: Store)
    ensures Ordered(KeptStore(version, store))
         == seq(|Ordered(store)|, i requires 0 <= i < |Ordered(store)| => Kept(version, Ordered(store)[i]))
  {
    assert KeptStore(version, store).Keys == store.Keys;
  }

  lemma OrderedGood(cfg: Config, store: Store)
    requires StoreOk(cfg, store)
    ensures AllGood(cfg, Ordered(store)) && |Ordered(store)| == |store| <= cfg.maxBuildings
  {
    var keys, rs := SortedKeys(store.Keys), Ordered(store);
    SortedKeysAscend(store.Keys);
    assert |store| == |store.Keys|;
    forall i | 0 <= i < |rs|
      ensures rs[i] == store[keys[i]] && keys[i] in store && ValidRecord(cfg, rs[i])
    {
      assert keys[i] in keys;
    }
  }

  lemma KeptStoreOk(cfg: Config, version: nat, store: Store)
    requires StoreOk(cfg, store)
    ensures StoreOk(cfg, KeptStore(version, store))
  {
    var kept := KeptStore(version, store);
    assert kept.Keys == store.Keys;
    assert |kept| == |kept.Keys| && |store| == |store.Keys|;
    forall k | k in kept
      ensures kept[k].id == k && ValidRecord(cfg, kept[k])
    {
      assert kept[k] == Kept(version, store[k]);
    }
  }

  lemma WrapU32Id(n: u32)
    ensures WrapU32(n) == n
  {
  }

  lemma HeaderFitsBody(cfg: Config, version: nat, revision: u64, count: u32, hash: Hash16, body: bytes, b: bytes)
    requires 1 <= version <= 3 && count <= cfg.maxBuildings && |body| == count * RecordSize(version)
    requires b == Header(cfg, version, revision, count, hash) + body
    ensures HeaderFits(cfg, b) && VersionOf(b) == Some(version) && R64(b[20..28]) == revision
    ensures RecordsIn(b) == ReadAll(ReadOr, body, RecordSize(version), count)
  {
    HeaderReads(cfg, version, revision, count, hash, body);
    assert Sized(b, 48, CountIn(b), RecordSize(version));
  }

  lemma FileShape(cfg: Config, version: nat, m: Manifest)
    requires 1 <= version <= 3 && |m.records| <= cfg.maxBuildings
    ensures FileOf(cfg, version, m)
         == Header(cfg, version, m.revision, |m.records|, m.hash) + WriteAll(Writer(version), Ordered(m.records))
  {
    WrapU32Id(|m.records|);
  }

  lemma BodyOf(version: nat, store: Store)
    ensures var body := WriteAll(Writer(version), Ordered(store));
      && |body| == |store| * RecordSize(version)
      && ReadAll(ReadOr, body, RecordSize(version), |store|) == Ordered(KeptStore(version, store))
  {
    assert |Ordered(store)| == |store.Keys| == |store|;
    BodyReads(version, Ordered(store));
    KeptOrdered(version, store);
  }

  lemma FileReads(cfg: Config, version: nat, m: Manifest, b: bytes)
    requires 1 <= version <= 3 && |m.records| <= cfg.maxBuildings && b == FileOf(cfg, version, m)
    ensures HeaderFits(cfg, b) && VersionOf(b) == Some(version) && R64(b[20..28]) == m.revision
    ensures RecordsIn(b) == Ordered(KeptStore(version, m.records))
  {
    FileShape(cfg, version, m);
    BodyOf(version, m.records);
    HeaderFitsBody(cfg, version, m.revision, |m.records|, m.hash, WriteAll(Writer(version), Ordered(m.records)), b);
  }

  lemma LoadedFrom(cfg: Config, sha: Sha, b: bytes, store: Store)
    requires HeaderFits(cfg, b) && RecordsIn(b) == Ordered(store) && StoreOk(cfg, store)
    ensures Loadable(cfg, b) && IndexBy(RecordsIn(b)) == store
  {
    OrderedGood(cfg, store);
    IndexOfOrdered(store);
  }

  function Migrated(sha: Sha, version: nat, m: Manifest): Manifest {
    if version == 3 then m
    else var store := KeptStore(version, m.records); Manifest(store, NextRevision(m.revision), DigestOf(sha, store))
  }

  lemma KeptSame(version: nat, store: Store)
    requires version != 1
    ensures KeptStore(version, store) == store
  {
  }

  /** A manifest that is in order is restored from its file, whatever the version: version 3 exactly, version 2 with
      the revision advanced, version 1 with the slots lost as well. */
  lemma FileRoundTrip(cfg: Config, sha: Sha, version: nat, m: Manifest)
    requires 1 <= version <= 3 && ManifestOk(cfg, sha, m)
    ensures Loaded(cfg, sha, FileOf(cfg, version, m)) == Migrated(sha, version, m)
  {
    var b := FileOf(cfg, version, m);
    FileReads(cfg, version, m, b);
    KeptStoreOk(cfg, version, m.records);
    LoadedFrom(cfg, sha, b, KeptStore(version, m.records));
    if version == 3 {
      KeptSame(version, m.records);
    }
    assert Loaded(cfg, sha, b) == Installed(sha, b);
  }

  /** Migration happens once: the re-saved file of a migrated manifest loads as it is. */
  lemma MigrationSettles(cfg: Config, sha: Sha, b: bytes)
    ensures var m := Loaded(cfg, sha, b); Loaded(cfg, sha, FileOf(cfg, 3, m)) == m
    ensures Loadable(cfg, b) && VersionOf(b) != Some(3) ==> Loaded(cfg, sha, b).revision == NextRevision(R64(b[20..28]))
  {
    LoadedOk(cfg, sha, b);
    FileRoundTrip(cfg, sha, 3, Loaded(cfg, sha, b));
  }

  /** From any file, through any upserts: every record is in place and no two buildings share a block. */
  lemma EveryManifest(cfg: Config, sha: Sha, b: bytes, rs: seq<Record>)
    ensures var m := Upserts(cfg, sha, Loaded(cfg, sha, b), rs);
      && ManifestOk(cfg, sha, m)
      && (forall j, k :: j in m.records && k in m.records && j != k ==> !SharesBlock(m.records[j], m.records[k]))
      && Loaded(cfg, sha, FileOf(cfg, 3, m)) == m
  {
    hide Loaded, FileOf, ManifestOk, Upserts;
    LoadedOk(cfg, sha, b);
    Reachable(cfg, sha, Loaded(cfg, sha, b), rs);
    FileRoundTrip(cfg, sha, 3, Upserts(cfg, sha, Loaded(cfg, sha, b), rs));
  }
}
