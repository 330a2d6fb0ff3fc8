/** Which bytes are a manifest file, and what loading them gives. */
module FileRule {
  import opened Ints
  import opened Chunks
  import opened Wire
  import opened Records
  import opened Buildings
  import opened ManifestFile
  import opened UpsertRule

  // ---------------------------------------------------------------- the reference

  /** Sound buildings with distinct ids, no two of which share a block. */
  ghost predicate FitTogether(cfg: Config, rs: seq<Record>) {
    && (forall i :: 0 <= i < |rs| ==> Sound(cfg, rs[i]))
    && (forall i, j :: 0 <= i < j < |rs| ==> rs[i].id != rs[j].id)
    && (forall i, j, x: int, z: int ::
          0 <= i < j < |rs| && Occupies(rs[i], x, z) ==> !Occupies(rs[j], x, z))
  }

  /** The bytes are a header of this server's region, in one of the three versions, and then the records, in any order;
      a record of version 1 has no slot. Nothing is asked of the hash. */
  ghost predicate IsFile(cfg: Config, b: bytes, version: nat, revision: u64, hash: Hash16, rs: seq<Record>) {
    && 1 <= version <= 3 && |rs| <= cfg.maxBuildings
    && b == Header(cfg, version, revision, |rs|, hash) + WriteAll(Writer(version), rs)
    && (version == 1 ==> forall i :: 0 <= i < |rs| ==> rs[i].slot == 0)
    && FitTogether(cfg, rs)
  }

  // ---------------------------------------------------------------- records that fit together

  lemma FitIsGood(cfg: Config, rs: seq<Record>)
    ensures FitTogether(cfg, rs) <==> AllGood(cfg, rs)
  {
    forall i | 0 <= i < |rs|
      ensures Sound(cfg, rs[i]) <==> ValidRecord(cfg, rs[i])
    {
      SoundIsValid(cfg, rs[i]);
    }
    if forall i :: 0 <= i < |rs| ==> ValidRecord(cfg, rs[i]) {
      NoBlockShared(rs);
    }
    hide Sound, ValidRecord, Overlap, Occupies;
  }

  lemma NoBlockShared(rs: seq<Record>)
    requires forall i :: 0 <= i < |rs| ==> rs[i].width >= 2 && rs[i].depth >= 2
    ensures (forall i, j, x: int, z: int :: 0 <= i < j < |rs| && Occupies(rs[i], x, z) ==> !Occupies(rs[j], x, z))
       <==> forall i, j :: 0 <= i < j < |rs| ==> !Overlap(rs[i], rs[j])
  {
    hide Overlap, Occupies;
    forall i, j | 0 <= i < j < |rs|
      ensures Overlap(rs[i], rs[j]) <==> exists x: int, z: int :: Occupies(rs[i], x, z) && Occupies(rs[j], x, z)
    {
      OccupiesIsCovers(rs[i], rs[j]);
    }
  }

  // ---------------------------------------------------------------- a file is read

  lemma KeptAsIs(version: nat, rs: seq<Record>)
    requires version == 1 ==> forall i :: 0 <= i < |rs| ==> rs[i].slot == 0
    ensures seq(|rs|, i requires 0 <= i < |rs| => Kept(version, rs[i])) == rs
  {
  }

  lemma FileIsRead(cfg: Config, b: bytes, version: nat, revision: u64, hash: Hash16, rs: seq<Record>)
    requires IsFile(cfg, b, version, revision, hash, rs)
    ensures HeaderFits(cfg, b) && VersionOf(b) == Some(version) && R64(b[20..28]) == revision && RecordsIn(b) == rs
    ensures Loadable(cfg, b)
  {
    hide FitTogether, WriteAll, ReadAll, Header, HeaderFits, AllGood;
    BodyReads(version, rs);
    KeptAsIs(version, rs);
    HeaderFitsBody(cfg, version, revision, |rs|, hash, WriteAll(Writer(version), rs), b);
    FitIsGood(cfg, rs);
  }

  // ---------------------------------------------------------------- what is read is a file

  lemma HeaderRewrites(cfg: Config, b: bytes)
    requires HeaderFits(cfg, b)
    ensures b[..48] == Header(cfg, VersionOf(b).value, R64(b[20..28]), CountIn(b), b[32..48])
  {
    hide W16, W32, W64, WI32, R16, R32, R64, RI32, Sized;
    var version := VersionOf(b).value;
    Rewrite16(b[8..10]);
    Rewrite16(b[10..12]);
    Rewrite32(b[12..16]);
    Rewrite32(b[16..20]);
    Rewrite64(b[20..28]);
    Rewrite32(b[28..32]);
    assert b[..8] == Magic(version);
    HeaderParts(b);
  }

  lemma HeaderParts(b: bytes)
    requires |b| >= 48
    ensures b[..48] == b[..8] + b[8..10] + b[10..12] + b[12..16] + b[16..20] + (b[20..28] + b[28..32] + b[32..48])
  {
    assert b[..8] + b[8..10] == b[..10];
    assert b[..10] + b[10..12] == b[..12];
    assert b[..12] + b[12..16] == b[..16];
    assert b[..16] + b[16..20] == b[..20];
    assert b[20..28] + b[28..32] == b[20..32];
    assert b[20..32] + b[32..48] == b[20..48];
    assert b[..20] + b[20..48] == b[..48];
  }

  lemma ShortCanonical(c: bytes)
    requires |c| == 48
    ensures WriteAs(1, ReadOr(c)) == c
  {
    HeadCanonical(c);
    SizesCanonical(c);
    assert c == c[0..20] + c[20..32] + c[32..48];
  }

  lemma ItemCanonical(version: nat, c: bytes)
    requires |c| == RecordSize(version)
    ensures Writer(version)(ReadOr(c)) == c
  {
    if version == 1 {
      ShortCanonical(c);
    } else {
      RecordCanonical(c);
    }
  }

  lemma BodyRewrites(version: nat, body: bytes, n: nat)
    requires |body| == n * RecordSize(version)
    ensures WriteAll(Writer(version), ReadAll(ReadOr, body, RecordSize(version), n)) == body
  {
    forall c: bytes | |c| == RecordSize(version)
      ensures Writer(version)(ReadOr(c)) == c
    {
      ItemCanonical(version, c);
    }
    WriteAllOfReadAll(Writer(version), ReadOr, body, RecordSize(version), n);
  }

  lemma ShortHasNoSlot(body: bytes, n: nat, i: nat)
    requires i < n && |body| == n * 48
    ensures ReadAll(ReadOr, body, 48, n)[i].slot == 0
  {
    hide ReadAll;
    ReadAllAt(ReadOr, body, 48, n, i, i * 48);
  }

  lemma ReadIsFile(cfg: Config, b: bytes)
    requires Loadable(cfg, b)
    ensures IsFile(cfg, b, VersionOf(b).value, R64(b[20..28]), b[32..48], RecordsIn(b))
  {
    hide FitTogether, WriteAll, ReadAll, AllGood, ReadOr, Header;
    var version, n := VersionOf(b).value, CountIn(b);
    HeaderRewrites(cfg, b);
    BodyRewrites(version, b[48..], n);
    FitIsGood(cfg, RecordsIn(b));
    assert b == b[..48] + b[48..];
    if version == 1 {
      forall i | 0 <= i < n
        ensures RecordsIn(b)[i].slot == 0
      {
        ShortHasNoSlot(b[48..], n, i);
      }
    }
  }

  // ---------------------------------------------------------------- what loading gives

  /** A file is taken as it is, but with the revision advanced if its version is old; the hash is worked out anew. */
  lemma FileLoads(cfg: Config, sha: Sha, b: bytes, version: nat, revision: u64, hash: Hash16, rs: seq<Record>)
    requires IsFile(cfg, b, version, revision, hash, rs)
    ensures var m := Loaded(cfg, sha, b);
      && |m.records| == |rs| && (forall r :: r in rs ==> r.id in m.records && m.records[r.id] == r)
      && m.revision == (if version == 3 then revision
                        else if revision == 0xFFFF_FFFF_FFFF_FFFF then 1 else revision + 1)
      && m.hash == sha(WriteAll(WriteRecord, Ordered(m.records)))
  {
    hide Loadable, IsFile, RecordsIn, WriteAll, Ordered, Sized;
    FileIsRead(cfg, b, version, revision, hash, rs);
    DistinctOfFile(cfg, b, version, revision, hash, rs);
    DistinctIndex(rs);
  }

  lemma DistinctOfFile(cfg: Config, b: bytes, version: nat, revision: u64, hash: Hash16, rs: seq<Record>)
    requires IsFile(cfg, b, version, revision, hash, rs)
    ensures forall i, j :: 0 <= i < j < |rs| ==> rs[i].id != rs[j].id
  {
  }

  /** Any other bytes are refused, and the server starts with no buildings, at revision 0. */
  lemma OtherRefused(cfg: Config, sha: Sha, b: bytes)
    requires forall version: nat, revision: u64, hash: Hash16, rs: seq<Record> ::
      !IsFile(cfg, b, version, revision, hash, rs)
    ensures Loaded(cfg, sha, b) == Manifest(map[], 0, sha([]))
  {
    hide IsFile;
    if Loadable(cfg, b) {
      ReadIsFile(cfg, b);
      assert false;
    }
    EmptyDigest(sha);
  }

  lemma EmptyDigest(sha: Sha)
    ensures DigestOf(sha, map[]) == sha([])
  {
    assert Ordered(map[]) == [];
  }
}
