/** The server's manifest object: upsert, save, load, serialise and page, as the source does them with loops. */
module ManifestStore {
  import opened Ints
  import opened Chunks
  import opened Wire
  import opened Records
  import opened Buildings
  import opened ManifestFile
  import opened UpsertRule

  const PAGE_RECORDS: nat := 128

  // ---------------------------------------------------------------- pages

  function PageCount(n: nat): u16 {
    var pages := (n + PAGE_RECORDS - 1) / PAGE_RECORDS;
    Min(if pages >= 1 then pages else 1, 65535)
  }

  function PageHeader(cfg: Config, m: Manifest, page: u16, pageCount: u16, count: nat): (b: bytes)
    ensures |b| == 44
  {
    ([MSG_BUILDING_MANIFEST_PAGE, 3] + W16(page) + W16(pageCount) + W16(WrapU16(count)) + W32(WrapU32(|m.records|)))
    + (WI32(RegionX(cfg)) + WI32(RegionZ(cfg)) + W64(m.revision) + m.hash)
  }

  /** The records of one page: 128 of them, or what is left. */
  function PageSlice(rs: seq<Record>, page: nat): seq<Record> {
    var start := page * PAGE_RECORDS;
    if start < |rs| then rs[start..start + Min(PAGE_RECORDS, |rs| - start)] else []
  }

  function PageAt(cfg: Config, m: Manifest, rs: seq<Record>, page: u16): bytes {
    var slice := PageSlice(rs, page);
    PageHeader(cfg, m, page, PageCount(|rs|), |slice|) + WriteAll(WriteRecord, slice)
  }

  function PageOf(cfg: Config, m: Manifest, page: u16): bytes { PageAt(cfg, m, Ordered(m.records), page) }

  /** The first n pages. */
  function PagesUpTo(cfg: Config, m: Manifest, n: nat): (pages: seq<bytes>)
    requires n <= 65535
    ensures |pages| == n
  {
    seq(n, page requires 0 <= page < n => PageOf(cfg, m, page))
  }

  /** The record bytes of the pages, one after another. */
  function Bodies(pages: seq<bytes>): bytes {
    if pages == [] then []
    else
      var last := pages[|pages| - 1];
      Bodies(pages[..|pages| - 1]) + if |last| >= 44 then last[44..] else []
  }

  function FirstPages(rs: seq<Record>, n: nat): seq<Record> { rs[..Min(n * PAGE_RECORDS, |rs|)] }

  lemma SliceExtends(rs: seq<Record>, page: nat)
    ensures FirstPages(rs, page) + PageSlice(rs, page) == FirstPages(rs, page + 1)
  {
  }

  lemma {:induction false} BodiesAre(pages: seq<bytes>, rs: seq<Record>)
    requires forall p :: 0 <= p < |pages| ==>
      |pages[p]| >= 44 && pages[p][44..] == WriteAll(WriteRecord, PageSlice(rs, p))
    ensures Bodies(pages) == WriteAll(WriteRecord, FirstPages(rs, |pages|))
  {
    if pages == [] {
      assert FirstPages(rs, 0) == [];
    } else {
      var n := |pages| - 1;
      BodiesAre(pages[..n], rs);
      RecordsStep(rs, n);
    }
  }

  lemma PageBody(cfg: Config, m: Manifest, page: u16, b: bytes)
    requires b == PageOf(cfg, m, page)
    ensures |b| >= 44 && b[44..] == WriteAll(WriteRecord, PageSlice(Ordered(m.records), page))
  {
  }

  lemma RecordsStep(rs: seq<Record>, page: nat)
    ensures WriteAll(WriteRecord, FirstPages(rs, page + 1))
         == WriteAll(WriteRecord, FirstPages(rs, page)) + WriteAll(WriteRecord, PageSlice(rs, page))
  {
    WriteAllConcat(WriteRecord, FirstPages(rs, page), PageSlice(rs, page));
    SliceExtends(rs, page);
  }

  /** With at most a million records the page count is never clamped and the pages have room for all. */
  lemma PageCountExact(n: nat)
    requires n <= 1_000_000
    ensures 1 <= PageCount(n) < 65535
    ensures n <= PageCount(n) * 128
    ensures forall p: nat :: p + 1 < PageCount(n) ==> p * 128 + 128 <= n
  {
  }

  /** Only the last page can be short, and it is empty only when there is nothing to send. */
  lemma PagesFull(rs: seq<Record>, page: nat)
    requires |rs| <= 1_000_000 && page < PageCount(|rs|)
    ensures page + 1 < PageCount(|rs|) ==> |PageSlice(rs, page)| == 128
    ensures PageSlice(rs, page) == [] ==> rs == []
  {
    PageCountExact(|rs|);
  }

  lemma FirstPagesAll(rs: seq<Record>, pages: nat)
    requires |rs| <= pages * PAGE_RECORDS
    ensures FirstPages(rs, pages) == rs
  {
  }

  lemma BodiesOfPages(cfg: Config, m: Manifest, n: nat)
    requires n <= 65535
    ensures Bodies(PagesUpTo(cfg, m, n)) == WriteAll(WriteRecord, FirstPages(Ordered(m.records), n))
  {
    var pages := PagesUpTo(cfg, m, n);
    forall p | 0 <= p < n
      ensures |pages[p]| >= 44 && pages[p][44..] == WriteAll(WriteRecord, PageSlice(Ordered(m.records), p))
    {
      PageBody(cfg, m, p, pages[p]);
    }
    BodiesAre(pages, Ordered(m.records));
  }

  /** The pages, header by header removed and concatenated, are the body of the file. */
  lemma PagesAreTheFile(cfg: Config, m: Manifest)
    requires |m.records| <= 1_000_000
    ensures Bodies(PagesUpTo(cfg, m, PageCount(|m.records|))) == FileOf(cfg, 3, m)[48..]
  {
    assert |Ordered(m.records)| == |m.records.Keys| == |m.records|;
    PageCountExact(|m.records|);
    BodiesOfPages(cfg, m, PageCount(|m.records|));
    FirstPagesAll(Ordered(m.records), PageCount(|m.records|));
    FileBody(cfg, m);
  }

  lemma FileBody(cfg: Config, m: Manifest)
    ensures FileOf(cfg, 3, m)[48..] == WriteAll(WriteRecord, Ordered(m.records))
  {
    WriterThree(Ordered(m.records));
  }

  lemma {:induction false} WriterThree(rs: seq<Record>)
    ensures WriteAll(Writer(3), rs) == WriteAll(WriteRecord, rs)
  {
    if rs != [] {
      WriterThree(rs[1..]);
    }
  }

  // ---------------------------------------------------------------- the object

  /** Writes the records behind the given bytes. */
  method Append(before: bytes, rs: seq<Record>) returns (out: bytes)
    ensures out == before + WriteAll(WriteRecord, rs)
  {
    out := before;
    var i := 0;
    while i < |rs|
      invariant 0 <= i <= |rs|
      invariant out == before + WriteAll(WriteRecord, rs[..i])
    {
      WriteAllConcat(WriteRecord, rs[..i], [rs[i]]);
      assert rs[..i] + [rs[i]] == rs[..i + 1];
      WriteAllOne(rs[i]);
      Associates(before, WriteAll(WriteRecord, rs[..i]), WriteRecord(rs[i]));
      out := out + WriteRecord(rs[i]);
      i := i + 1;
    }
    assert rs[..i] == rs;
  }

  lemma WriteAllOne(r: Record)
    ensures WriteAll(WriteRecord, [r]) == WriteRecord(r)
  {
  }

  method EncodePage(cfg: Config, m: Manifest, rs: seq<Record>, page: u16) returns (b: bytes)
    ensures b == PageAt(cfg, m, rs, page)
  {
    var slice := PageSlice(rs, page);
    b := Append(PageHeader(cfg, m, page, PageCount(|rs|), |slice|), slice);
  }

  method EncodePages(cfg: Config, m: Manifest, rs: seq<Record>) returns (pages: seq<bytes>)
    ensures |pages| == PageCount(|rs|) && forall p :: 0 <= p < |pages| ==> pages[p] == PageAt(cfg, m, rs, p)
  {
    hide PageAt, PageCount;
    pages := [];
    var page := 0;
    while page < PageCount(|rs|)
      invariant 0 <= page <= PageCount(|rs|)
      invariant |pages| == page && forall p :: 0 <= p < page ==> pages[p] == PageAt(cfg, m, rs, p)
    {
      var b := EncodePage(cfg, m, rs, page);
      pages := pages + [b];
      page := page + 1;
    }
  }

  class BuildingManifest {
    const cfg: Config
    const sha: Sha
    const persistent: bool
    var records: Store
    var revision: u64
    var hash: Hash16
    var file: Option<bytes>

    function State(): Manifest
      reads this
    {
      Manifest(records, revision, hash)
    }

    /** What a successful save leaves on disk. */
    ghost function Saved(before: Option<bytes>): Option<bytes>
      reads this
    {
      if persistent then Some(FileOf(cfg, 3, State())) else before
    }

    /** The manifest is in order, and a server started again from the disk would have the same one. */
    ghost predicate Restartable()
      reads this
    {
      && ManifestOk(cfg, sha, State())
      && (persistent ==> State() == if file.Some? then Loaded(cfg, sha, file.value) else Fresh(sha))
    }

    constructor (cfg: Config, sha: Sha, persistent: bool, file: Option<bytes>)
      ensures Restartable()
      ensures this.cfg == cfg && this.sha == sha && this.persistent == persistent
      ensures State() == if persistent && file.Some? then Loaded(cfg, sha, file.value) else Fresh(sha)
      ensures this.file == if persistent && file.Some? && Loadable(cfg, file.value) && VersionOf(file.value) != Some(3)
                           then Some(FileOf(cfg, 3, State())) else file
    {
      hide Loaded, Loadable, FileOf, ManifestOk, DigestOf;
      this.cfg, this.sha, this.persistent, this.file := cfg, sha, persistent, file;
      records, revision, hash := map[], 0, BLANK.contentHash;
      new;
      if !persistent || file.None? {
        RecomputeHash();
      } else {
        Load(file.value);
        MigrationSettles(cfg, sha, file.value);
      }
      StartsOk(cfg, sha, persistent && file.Some?, if file.Some? then file.value else []);
    }

    method RecomputeHash()
      modifies this`hash
      ensures hash == DigestOf(sha, records)
    {
      var packed := Append([], RecordsAt(records, SortedKeys(records.Keys)));
      assert packed == WriteAll(WriteRecord, Ordered(records));
      hash := sha(packed);
    }

    method Binary() returns (out: bytes)
      ensures out == FileOf(cfg, 3, State())
    {
      out := Append(Header(cfg, 3, revision, WrapU32(|records|), hash), RecordsAt(records, SortedKeys(records.Keys)));
      WriterThree(Ordered(records));
    }

    method Save()
      modifies this`file
      ensures file == Saved(old(file))
    {
      if persistent {
        var b := Binary();
        file := Some(b);
      }
    }

    /** Is any stored rectangle, except the one under the given id, in the way? */
    method FindOverlap(r: Record) returns (found: bool)
      ensures found <==> !Clear(records, r)
    {
      var keys := SortedKeys(records.Keys);
      var i := 0;
      while i < |keys|
        invariant 0 <= i <= |keys|
        invariant forall j :: 0 <= j < i && keys[j] != r.id ==> !Overlap(records[keys[j]], r)
      {
        assert keys[i] in keys;
        if keys[i] != r.id && Overlap(records[keys[i]], r) {
          return true;
        }
        i := i + 1;
      }
      forall k | k in records && k != r.id
        ensures !Overlap(records[k], r)
      {
        assert k in keys;
      }
      return false;
    }

    method Upsert(r: Record) returns (ok: bool)
      modifies this
      ensures ok <==> Accepts(cfg, old(State()), r)
      ensures State() == Buildings.Upsert(cfg, sha, old(State()), r)
      ensures file == if ok then Saved(old(file)) else old(file)
      ensures old(Restartable()) ==> Restartable() && (ok <==> Takes(cfg, old(State()), r))
    {
      hide DigestOf, FileOf, ValidRecord, Clear, Newer, Loaded, StoreOk, Takes;
      UpsertSettles(cfg, sha, State(), r);
      if r.id == 0 || (r.flags != 0 && r.flags != 1) {
        return false;
      }
      if r.flags == 0 {
        if r.id !in records || !Newer(r, records[r.id]) {
          return false;
        }
        records := records - {r.id};
      } else {
        if !ValidRecord(cfg, r) {
          return false;
        }
        if r.id in records {
          if !Newer(r, records[r.id]) {
            return false;
          }
        } else if |records| >= cfg.maxBuildings {
          return false;
        }
        var blocked := FindOverlap(r);
        if blocked {
          return false;
        }
        records := records[r.id := r];
      }
      revision := if revision == U64_MAX then 1 else revision + 1;
      RecomputeHash();
      Save();
      return true;
    }

    /** Reads the records into a fresh index; an invalid or overlapping one empties it and stops. */
    method ReadIndex(b: bytes, size: nat, count: nat) returns (loaded: Store)
      requires (size == 48 || size == 56) && Sized(b, 48, count, size)
      ensures |loaded| == count <==> AllGood(cfg, ReadAll(ReadOr, b[48..], size, count))
      ensures |loaded| == count ==> loaded == IndexBy(ReadAll(ReadOr, b[48..], size, count))
    {
      ghost var rs := ReadAll(ReadOr, b[48..], size, count);
      var index := 0;
      var stopped := false;
      loaded := map[];
      while index < count && !stopped
        invariant 0 <= index <= count && |rs| == count
        invariant stopped ==> index < count && loaded == map[] && !AllGood(cfg, rs)
        invariant !stopped ==> GoodSoFar(cfg, rs, index, loaded)
        decreases count - index, !stopped
      {
        var record := RecordAt(b, size, index, count);
        stopped, loaded := TryAdd(cfg, rs, index, loaded, record);
        if !stopped {
          index := index + 1;
        }
      }
      if !stopped {
        AllRead(cfg, rs, loaded);
      }
    }

    method Load(b: bytes)
      requires records == map[] && revision == 0
      modifies this
      ensures State() == Loaded(cfg, sha, b)
      ensures file == if Loadable(cfg, b) && VersionOf(b) != Some(3) then Saved(old(file)) else old(file)
    {
      hide DigestOf, FileOf, AllGood, IndexBy, ReadAll, ReadOr;
      if !HeaderFits(cfg, b) {
        RecomputeHash();
        return;
      }
      assert VersionOf(b).Some? && Sized(b, 48, CountIn(b), RecordSize(VersionOf(b).value));
      var version := VersionOf(b).value;
      var loaded := ReadIndex(b, RecordSize(version), CountIn(b));
      if |loaded| != CountIn(b) {
        RecomputeHash();
        return;
      }
      records := loaded;
      var saved := R64(b[20..28]);
      revision := if version == 3 then saved else if saved == U64_MAX then 1 else saved + 1;
      RecomputeHash();
      InstalledIs(cfg, sha, b, State());
      if version != 3 {
        Save();
      }
    }

    method Pages() returns (pages: seq<bytes>)
      ensures pages == PagesUpTo(cfg, State(), PageCount(|records|))
    {
      hide PageAt, PageCount, SortedKeys;
      pages := EncodePages(cfg, State(), RecordsAt(records, SortedKeys(records.Keys)));
      assert |Ordered(records)| == |records.Keys| == |records|;
    }
  }

  // ---------------------------------------------------------------- starting again

  lemma StartsOk(cfg: Config, sha: Sha, found: bool, b: bytes)
    ensures ManifestOk(cfg, sha, if found then Loaded(cfg, sha, b) else Fresh(sha))
    ensures !Loadable(cfg, b) ==> Loaded(cfg, sha, b) == Fresh(sha)
  {
    LoadedOk(cfg, sha, b);
  }

  lemma UpsertSettles(cfg: Config, sha: Sha, m: Manifest, r: Record)
    ensures ManifestOk(cfg, sha, m) ==>
      var m' := Buildings.Upsert(cfg, sha, m, r);
      && (Takes(cfg, m, r) <==> Accepts(cfg, m, r))
      && ManifestOk(cfg, sha, m') && Loaded(cfg, sha, FileOf(cfg, 3, m')) == m'
  {
    hide StoreOk, Takes, Accepts, Loaded, FileOf;
    if ManifestOk(cfg, sha, m) {
      TakesIsAccepts(cfg, m, r);
      UpsertKeeps(cfg, sha, m, r);
      FileRoundTrip(cfg, sha, 3, Buildings.Upsert(cfg, sha, m, r));
    }
  }

  // ---------------------------------------------------------------- the loading loop

  lemma InstalledIs(cfg: Config, sha: Sha, b: bytes, m: Manifest)
    requires HeaderFits(cfg, b) && AllGood(cfg, RecordsIn(b)) && m.records == IndexBy(RecordsIn(b))
    requires m.revision == if VersionOf(b) == Some(3) then R64(b[20..28]) else NextRevision(R64(b[20..28]))
    requires m.hash == DigestOf(sha, m.records)
    ensures Loadable(cfg, b) && m == Loaded(cfg, sha, b)
  {
  }

  method RecordAt(b: bytes, size: nat, index: nat, count: nat) returns (r: Record)
    requires index < count && Sized(b, 48, count, size)
    ensures r == ReadAll(ReadOr, b[48..], size, count)[index]
  {
    hide ReadAll, ReadOr;
    var at := index * size;
    ItemSlice(b, size, index, count, at);
    r := ReadOr(b[48 + at..48 + at + size]);
  }

  lemma ItemSlice(b: bytes, size: nat, index: nat, count: nat, at: nat)
    requires index < count && Sized(b, 48, count, size) && at == index * size
    ensures 48 + at + size <= |b|
    ensures ReadOr(b[48 + at..48 + at + size]) == ReadAll(ReadOr, b[48..], size, count)[index]
  {
    hide ReadAll, ReadOr;
    ReadAllAt(ReadOr, b[48..], size, count, index, at);
    SliceShift(b, 48, at, at + size);
  }

  /** One turn of the loop: the record is refused, which empties the index, or it is indexed. */
  method TryAdd(cfg: Config, ghost rs: seq<Record>, index: nat, loaded: Store, record: Record)
    returns (stopped: bool, next: Store)
    requires index < |rs| && record == rs[index] && GoodSoFar(cfg, rs, index, loaded)
    ensures if stopped then next == map[] && !AllGood(cfg, rs) else GoodSoFar(cfg, rs, index + 1, next)
  {
    var blocked := BlockedIn(loaded, record);
    if !ValidRecord(cfg, record) || blocked {
      BadPrefix(cfg, rs, index, loaded);
      return true, map[];
    }
    ExtendPrefix(cfg, rs, index, loaded);
    return false, loaded[record.id := record];
  }

  /** After i records: they are all good and indexed, or one is not and the index is short. */
  ghost predicate GoodSoFar(cfg: Config, rs: seq<Record>, i: nat, loaded: Store)
    requires i <= |rs|
  {
    || (loaded == IndexBy(rs[..i]) && AllGood(cfg, rs[..i]))
    || (!AllGood(cfg, rs[..i]) && |loaded| < i)
  }

  lemma AllRead(cfg: Config, rs: seq<Record>, loaded: Store)
    requires GoodSoFar(cfg, rs, |rs|, loaded)
    ensures |loaded| == |rs| <==> AllGood(cfg, rs)
    ensures AllGood(cfg, rs) ==> loaded == IndexBy(rs)
  {
    assert rs[..|rs|] == rs;
    if AllGood(cfg, rs) {
      DistinctIndex(rs);
    }
  }

  method BlockedIn(loaded: Store, r: Record) returns (blocked: bool)
    ensures blocked <==> exists k :: k in loaded && Overlap(loaded[k], r)
  {
    var keys := SortedKeys(loaded.Keys);
    var i := 0;
    while i < |keys|
      invariant 0 <= i <= |keys|
      invariant forall j :: 0 <= j < i ==> !Overlap(loaded[keys[j]], r)
    {
      assert keys[i] in keys;
      if Overlap(loaded[keys[i]], r) {
        return true;
      }
      i := i + 1;
    }
    forall k | k in loaded
      ensures !Overlap(loaded[k], r)
    {
      assert k in keys;
    }
    return false;
  }

  lemma PrefixGood(cfg: Config, rs: seq<Record>, i: nat)
    requires i <= |rs| && AllGood(cfg, rs)
    ensures AllGood(cfg, rs[..i])
  {
  }

  lemma PrefixBad(cfg: Config, rs: seq<Record>, i: nat)
    requires i <= |rs| && !AllGood(cfg, rs[..i])
    ensures !AllGood(cfg, rs)
  {
    if AllGood(cfg, rs) {
      PrefixGood(cfg, rs, i);
    }
  }

  /** A record that is refused, or an index that has already lost one, spoils the file. */
  lemma BadPrefix(cfg: Config, rs: seq<Record>, i: nat, loaded: Store)
    requires i < |rs| && GoodSoFar(cfg, rs, i, loaded)
    requires !ValidRecord(cfg, rs[i]) || exists k :: k in loaded && Overlap(loaded[k], rs[i])
    ensures !AllGood(cfg, rs)
  {
    if !AllGood(cfg, rs[..i]) {
      PrefixBad(cfg, rs, i);
    } else if k :| k in loaded && Overlap(loaded[k], rs[i]) {
      IndexLists(rs[..i]);
      var j :| 0 <= j < i && rs[..i][j] == loaded[k];
      assert Overlap(rs[j], rs[i]);
    }
  }

  /** A record that passes keeps a good index good, unless its id was there; then the index is one short for ever. */
  lemma ExtendPrefix(cfg: Config, rs: seq<Record>, i: nat, loaded: Store)
    requires i < |rs| && ValidRecord(cfg, rs[i]) && !exists k :: k in loaded && Overlap(loaded[k], rs[i])
    requires GoodSoFar(cfg, rs, i, loaded)
    ensures GoodSoFar(cfg, rs, i + 1, loaded[rs[i].id := rs[i]])
  {
    assert rs[..i + 1][..i] == rs[..i];
    PutSize(loaded, rs[i].id, rs[i]);
    if !AllGood(cfg, rs[..i]) {
      PrefixBad(cfg, rs[..i + 1], i);
    } else if rs[i].id in loaded {
      DistinctIndex(rs[..i]);
      IndexLists(rs[..i]);
      var j :| 0 <= j < i && rs[..i][j] == loaded[rs[i].id];
      assert rs[..i + 1][j].id == rs[..i + 1][i].id;
    } else {
      GoodExtended(cfg, rs, i);
    }
  }

  lemma GoodExtended(cfg: Config, rs: seq<Record>, i: nat)
    requires i < |rs| && ValidRecord(cfg, rs[i]) && AllGood(cfg, rs[..i])
    requires rs[i].id !in IndexBy(rs[..i]) && !exists k :: k in IndexBy(rs[..i]) && Overlap(IndexBy(rs[..i])[k], rs[i])
    ensures AllGood(cfg, rs[..i + 1])
  {
    DistinctIndex(rs[..i]);
    forall j | 0 <= j < i
      ensures rs[j].id != rs[i].id && !Overlap(rs[j], rs[i])
    {
      assert rs[..i][j] == rs[j] && rs[j] in rs[..i];
      assert rs[j].id in IndexBy(rs[..i]);
    }
    forall j, k | 0 <= j < k < i + 1
      ensures rs[j].id != rs[k].id && !Overlap(rs[j], rs[k])
    {
      if k < i {
        assert rs[..i][j] == rs[j] && rs[..i][k] == rs[k];
      }
    }
    forall j | 0 <= j < i
      ensures ValidRecord(cfg, rs[j])
    {
      assert rs[..i][j] == rs[j];
    }
  }
}
