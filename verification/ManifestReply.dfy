/** The answer to a manifest request, and what a client that keeps a copy learns from it. */
module ManifestReply {
  import opened Ints
  import opened Chunks
  import opened Wire
  import opened Records
  import opened Buildings
  import opened ManifestFile
  import opened ManifestStore

  const MSG_BUILDING_REGION_DIGEST: u8 := 0x50

  // ---------------------------------------------------------------- the reply

  function DigestBytes(cfg: Config, m: Manifest): (b: bytes)
    ensures |b| == 38
  {
    [MSG_BUILDING_REGION_DIGEST, 3] + WI32(RegionX(cfg)) + WI32(RegionZ(cfg))
    + (W64(m.revision) + W32(WrapU32(|m.records|)) + m.hash)
  }

  /** A client that already has the current revision is sent the digest only; any other one is sent every page. */
  datatype Reply = Digest(digest: bytes) | Pages(pages: seq<bytes>)

  function ReplyTo(cfg: Config, m: Manifest, knownRevision: u64): Reply
    requires Validated(cfg)
  {
    if knownRevision == m.revision then Digest(DigestBytes(cfg, m))
    else Pages(PagesUpTo(cfg, m, PageCount(|m.records|)))
  }

  // ---------------------------------------------------------------- what a client reads

  /** What a digest and the head of a page say of the manifest. */
  datatype Summary = Summary(regionX: i32, regionZ: i32, revision: u64, total: u32, hash: Hash16)

  datatype Page = Page(index: u16, pageCount: u16, summary: Summary, records: seq<Record>)

  function ParseDigest(b: bytes): Option<Summary> {
    if |b| != 38 || b[0] != MSG_BUILDING_REGION_DIGEST || b[1] != 3 then None
    else Some(Summary(RI32(b[2..6]), RI32(b[6..10]), R64(b[10..18]), R32(b[18..22]), b[22..38]))
  }

  function ParsePage(b: bytes): Option<Page> {
    if |b| < 44 || b[0] != MSG_BUILDING_MANIFEST_PAGE || b[1] != 3 || !Sized(b, 44, R16(b[6..8]), 56) then None
    else
      Some(Page(R16(b[2..4]), R16(b[4..6]),
                Summary(RI32(b[12..16]), RI32(b[16..20]), R64(b[20..28]), R32(b[8..12]), b[28..44]),
                ReadAll(ReadOr, b[44..], 56, R16(b[6..8]))))
  }

  /** The manifest in short: the region of the centre by floor division, and the rest as it is. */
  predicate Sums(cfg: Config, m: Manifest, s: Summary) {
    && s.regionX == cfg.center.x / 100 && s.regionZ == cfg.center.z / 100
    && s.revision == m.revision && s.total == |m.records| && s.hash == m.hash
  }

  lemma DigestParses(cfg: Config, m: Manifest)
    requires |m.records| <= 1_000_000
    ensures var d := ParseDigest(DigestBytes(cfg, m)); d.Some? && Sums(cfg, m, d.value)
  {
    hide W64, W32, WI32, R64, R32, RI32;
    var b, head := DigestBytes(cfg, m), WI32(RegionX(cfg)) + WI32(RegionZ(cfg));
    var tail := W64(m.revision) + W32(WrapU32(|m.records|)) + m.hash;
    assert b[2..10] == head && b[10..38] == tail;
    assert b[2..6] == head[0..4] == WI32(RegionX(cfg)) && b[6..10] == head[4..8] == WI32(RegionZ(cfg));
    assert b[10..18] == tail[0..8] == W64(m.revision) && b[18..22] == tail[8..12] == W32(WrapU32(|m.records|));
    assert b[22..38] == tail[12..28] == m.hash;
    Inverse64(m.revision);
    Inverse32(WrapU32(|m.records|), RegionX(cfg));
    Inverse32(0, RegionZ(cfg));
    FloorDivIsFloor(cfg.center.x);
    FloorDivIsFloor(cfg.center.z);
  }

  lemma RecordsRead(rs: seq<Record>)
    ensures |WriteAll(WriteRecord, rs)| == |rs| * 56
    ensures ReadAll(ReadOr, WriteAll(WriteRecord, rs), 56, |rs|) == rs
  {
    forall r: Record
      ensures |WriteRecord(r)| == 56 && ReadOr(WriteRecord(r)) == r
    {
      RecordRoundTrip(r);
    }
    ReadAllOfWriteAll(WriteRecord, ReadOr, rs, 56);
  }

  lemma HeaderParses(cfg: Config, m: Manifest, page: u16, pageCount: u16, count: nat, body: bytes)
    requires |m.records| <= 1_000_000 && count <= PAGE_RECORDS
    ensures var b := PageHeader(cfg, m, page, pageCount, count) + body;
      && b[0] == MSG_BUILDING_MANIFEST_PAGE && b[1] == 3 && b[44..] == body
      && R16(b[2..4]) == page && R16(b[4..6]) == pageCount && R16(b[6..8]) == count
      && Sums(cfg, m, Summary(RI32(b[12..16]), RI32(b[16..20]), R64(b[20..28]), R32(b[8..12]), b[28..44]))
  {
    hide W16, W64, W32, WI32, R16, R64, R32, RI32;
    var n := WrapU32(|m.records|);
    var head := [MSG_BUILDING_MANIFEST_PAGE, 3] + W16(page) + W16(pageCount) + W16(WrapU16(count)) + W32(n);
    var tail := WI32(RegionX(cfg)) + WI32(RegionZ(cfg)) + W64(m.revision) + m.hash;
    var b := PageHeader(cfg, m, page, pageCount, count) + body;
    assert b == head + (tail + body) && |head| == 12 && |tail| == 32;
    assert b[2..4] == head[2..4] == W16(page) && b[4..6] == head[4..6] == W16(pageCount);
    assert b[6..8] == head[6..8] == W16(WrapU16(count)) && b[8..12] == head[8..12] == W32(n);
    assert b[12..16] == tail[0..4] == WI32(RegionX(cfg)) && b[16..20] == tail[4..8] == WI32(RegionZ(cfg));
    assert b[20..28] == tail[8..16] == W64(m.revision) && b[28..44] == tail[16..32] == m.hash;
    Inverse16(page, 0);
    Inverse16(pageCount, 0);
    Inverse16(WrapU16(count), 0);
    Inverse64(m.revision);
    Inverse32(n, RegionX(cfg));
    Inverse32(0, RegionZ(cfg));
    FloorDivIsFloor(cfg.center.x);
    FloorDivIsFloor(cfg.center.z);
  }

  /** Each page says where it stands among how many, sums up the manifest, and holds its slice of the records. */
  lemma PageParses(cfg: Config, m: Manifest, page: u16)
    requires |m.records| <= 1_000_000
    ensures var parsed := ParsePage(PageOf(cfg, m, page));
      && parsed.Some? && parsed.value.index == page && parsed.value.pageCount == PageCount(|m.records|)
      && Sums(cfg, m, parsed.value.summary) && parsed.value.records == PageSlice(Ordered(m.records), page)
  {
    hide ReadAll, WriteAll, ReadOr, PageHeader, PageCount;
    var rs := Ordered(m.records);
    assert |rs| == |m.records.Keys| == |m.records|;
    var slice := PageSlice(rs, page);
    RecordsRead(slice);
    HeaderParses(cfg, m, page, PageCount(|rs|), |slice|, WriteAll(WriteRecord, slice));
  }

  // ---------------------------------------------------------------- a client that keeps a copy

  /** What a client keeps: the records it has read, and the revision and hash that came with them. */
  datatype Copy = Copy(records: seq<Record>, revision: u64, hash: Hash16)

  predicate AllParse(pages: seq<bytes>) { forall i :: 0 <= i < |pages| ==> ParsePage(pages[i]).Some? }

  function RecordsOf(pages: seq<bytes>): seq<Record>
    requires AllParse(pages)
  {
    if pages == [] then [] else RecordsOf(pages[..|pages| - 1]) + ParsePage(pages[|pages| - 1]).value.records
  }

  /** A digest says that the records are current; pages replace them. */
  function Learned(copy: Copy, reply: Reply): Copy {
    match reply
    case Digest(b) =>
      (match ParseDigest(b) case None => copy case Some(d) => copy.(revision := d.revision, hash := d.hash))
    case Pages(pages) =>
      if pages == [] || !AllParse(pages) then copy
      else
        var s := ParsePage(pages[0]).value.summary;
        Copy(RecordsOf(pages), s.revision, s.hash)
  }

  /** The copy is the manifest: its records in the order of ids, its revision, its hash. */
  ghost predicate InStep(copy: Copy, m: Manifest) {
    copy.records == Ordered(m.records) && copy.revision == m.revision && copy.hash == m.hash
  }

  lemma RecordsMore(pages: seq<bytes>, last: bytes)
    requires AllParse(pages) && ParsePage(last).Some?
    ensures AllParse(pages + [last])
    ensures RecordsOf(pages + [last]) == RecordsOf(pages) + ParsePage(last).value.records
  {
    hide ParsePage;
    assert (pages + [last])[..|pages|] == pages;
  }

  lemma OnePageMore(cfg: Config, m: Manifest, n: nat)
    requires n < 65535
    ensures PagesUpTo(cfg, m, n + 1) == PagesUpTo(cfg, m, n) + [PageOf(cfg, m, n)]
  {
    hide PageOf;
  }

  lemma {:induction false} RecordsOfPages(cfg: Config, m: Manifest, n: nat)
    requires |m.records| <= 1_000_000 && n <= 65535
    ensures AllParse(PagesUpTo(cfg, m, n))
    ensures RecordsOf(PagesUpTo(cfg, m, n)) == FirstPages(Ordered(m.records), n)
  {
    hide ParsePage, PageSlice, PageOf, FirstPages, RecordsOf, PagesUpTo, AllParse, Ordered;
    if n == 0 {
      NoPages(cfg, m);
    } else {
      RecordsOfPages(cfg, m, n - 1);
      OnePageMore(cfg, m, n - 1);
      PageParses(cfg, m, n - 1);
      RecordsMore(PagesUpTo(cfg, m, n - 1), PageOf(cfg, m, n - 1));
      SliceExtends(Ordered(m.records), n - 1);
    }
  }

  lemma NoPages(cfg: Config, m: Manifest)
    ensures var none := PagesUpTo(cfg, m, 0); AllParse(none) && RecordsOf(none) == FirstPages(Ordered(m.records), 0)
  {
    hide PageOf, Ordered, ParsePage;
    assert PagesUpTo(cfg, m, 0) == [];
  }

  /** All pages together bring the copy in step, whatever it was. */
  lemma PagesLearned(cfg: Config, m: Manifest, copy: Copy)
    requires |m.records| <= 1_000_000
    ensures InStep(Learned(copy, Pages(PagesUpTo(cfg, m, PageCount(|m.records|)))), m)
  {
    hide ParsePage, PageOf, RecordsOf, FirstPages;
    var n := PageCount(|m.records|);
    assert |Ordered(m.records)| == |m.records.Keys| == |m.records|;
    PageCountExact(|m.records|);
    RecordsOfPages(cfg, m, n);
    FirstPagesAll(Ordered(m.records), n);
    PageParses(cfg, m, 0);
    assert PagesUpTo(cfg, m, n)[0] == PageOf(cfg, m, 0);
  }

  /** A request from a copy that was in step some upserts ago brings it in step again. */
  lemma CopyCatchesUp(cfg: Config, sha: Sha, known: Manifest, copy: Copy, rs: seq<Record>)
    requires Validated(cfg) && ManifestOk(cfg, sha, known) && InStep(copy, known) && |rs| < 0xFFFF_FFFF_FFFF_FFFF
    ensures var m := Upserts(cfg, sha, known, rs);
      ManifestOk(cfg, sha, m) && InStep(Learned(copy, ReplyTo(cfg, m, copy.revision)), m)
  {
    hide ParseDigest, DigestBytes, PagesUpTo, PageCount, Ordered;
    var m := Upserts(cfg, sha, known, rs);
    RevisionIsCacheKey(cfg, sha, known, rs);
    Reachable(cfg, sha, known, rs);
    Counted(cfg, sha, m);
    DigestParses(cfg, m);
    PagesLearned(cfg, m, copy);
  }

  lemma Counted(cfg: Config, sha: Sha, m: Manifest)
    requires Validated(cfg) && ManifestOk(cfg, sha, m)
    ensures |m.records| <= 1_000_000
  {
  }

  /** A client's first request, with no records and revision 0, brings it in step exactly if the server is not itself at
      revision 0 with records, which only a file can bring about. */
  lemma FirstRequest(cfg: Config, m: Manifest, none: Copy)
    requires Validated(cfg) && |m.records| <= 1_000_000 && none.records == [] && none.revision == 0
    ensures InStep(Learned(none, ReplyTo(cfg, m, 0)), m) <==> m.revision != 0 || m.records == map[]
  {
    hide ParseDigest, DigestBytes, PagesUpTo, PageCount;
    DigestParses(cfg, m);
    PagesLearned(cfg, m, none);
    assert |Ordered(m.records)| == |m.records.Keys| == |m.records|;
  }

  // ---------------------------------------------------------------- requests between upserts

  /** Each round: some upserts, then a request with the revision that the client has last read. */
  ghost function AfterRounds(cfg: Config, sha: Sha, m: Manifest, copy: Copy, rounds: seq<seq<Record>>)
    : (Manifest, Copy)
    requires Validated(cfg)
  {
    if rounds == [] then (m, copy)
    else
      var (m0, c0) := AfterRounds(cfg, sha, m, copy, rounds[..|rounds| - 1]);
      var m1 := Upserts(cfg, sha, m0, rounds[|rounds| - 1]);
      (m1, Learned(c0, ReplyTo(cfg, m1, c0.revision)))
  }

  /** However the upserts fall between its requests, a client in step is in step after each of them, and the hash it has
      read is the digest of the records it has. */
  lemma {:induction false} CopyFollows(cfg: Config, sha: Sha, m: Manifest, copy: Copy, rounds: seq<seq<Record>>)
    requires Validated(cfg) && ManifestOk(cfg, sha, m) && InStep(copy, m)
    requires forall rs :: rs in rounds ==> |rs| < 0xFFFF_FFFF_FFFF_FFFF
    ensures var (m', copy') := AfterRounds(cfg, sha, m, copy, rounds);
      && ManifestOk(cfg, sha, m') && copy'.records == Ordered(m'.records) && copy'.revision == m'.revision
      && copy'.hash == sha(WriteAll(WriteRecord, copy'.records))
  {
    hide ReplyTo, Learned, Upserts, Ordered, WriteAll;
    Follows(cfg, sha, m, copy, rounds);
    var (m', copy') := AfterRounds(cfg, sha, m, copy, rounds);
    HashOf(cfg, sha, m');
  }

  lemma {:induction false} Follows(cfg: Config, sha: Sha, m: Manifest, copy: Copy, rounds: seq<seq<Record>>)
    requires Validated(cfg) && ManifestOk(cfg, sha, m) && InStep(copy, m)
    requires forall rs :: rs in rounds ==> |rs| < 0xFFFF_FFFF_FFFF_FFFF
    ensures var (m', copy') := AfterRounds(cfg, sha, m, copy, rounds); ManifestOk(cfg, sha, m') && InStep(copy', m')
  {
    hide ReplyTo, Learned, Upserts, ManifestOk, InStep;
    if rounds != [] {
      var before, last := rounds[..|rounds| - 1], rounds[|rounds| - 1];
      assert rounds == before + [last] && last in rounds;
      assert forall rs :: rs in before ==> rs in rounds;
      Follows(cfg, sha, m, copy, before);
      var (m0, c0) := AfterRounds(cfg, sha, m, copy, before);
      CopyCatchesUp(cfg, sha, m0, c0, last);
    }
  }

  lemma HashOf(cfg: Config, sha: Sha, m: Manifest)
    requires ManifestOk(cfg, sha, m)
    ensures m.hash == sha(WriteAll(WriteRecord, Ordered(m.records)))
  {
  }

  /** The handler's choice of the reply. */
  method Answer(b: BuildingManifest, knownRevision: u64) returns (reply: Reply)
    requires Validated(b.cfg)
    ensures reply == ReplyTo(b.cfg, b.State(), knownRevision)
  {
    if knownRevision == b.revision {
      reply := Digest(DigestBytes(b.cfg, b.State()));
    } else {
      var pages := b.Pages();
      reply := Pages(pages);
    }
  }
}
