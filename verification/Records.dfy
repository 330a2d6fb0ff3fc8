/** Building records: rectangles, the "newer" order, validity, and the 56-byte record format. */
module Records {
  import opened Ints
  import opened Chunks
  import opened Wire

  datatype Record = Record(
    id: u64, minX: i32, minZ: i32, surfaceY: i16, flags: u16, width: u32, depth: u32,
    activeRevision: u32, contentHash: Hash16, slot: u64)

  // ---------------------------------------------------------------- rectangles

  /** building_rectangles_overlap: the interval test, in 64-bit arithmetic. */
  predicate Overlap(a: Record, b: Record) {
    && a.minX <= b.minX + b.width - 1 && a.minX + a.width - 1 >= b.minX
    && a.minZ <= b.minZ + b.depth - 1 && a.minZ + a.depth - 1 >= b.minZ
  }

  predicate Covers(r: Record, x: int, z: int) {
    r.minX <= x < r.minX + r.width && r.minZ <= z < r.minZ + r.depth
  }

  /** The interval test finds exactly the pairs that share a block. */
  lemma OverlapIsSharedBlock(a: Record, b: Record)
    requires a.width >= 1 && a.depth >= 1 && b.width >= 1 && b.depth >= 1
    ensures Overlap(a, b) <==> exists x: int, z: int :: Covers(a, x, z) && Covers(b, x, z)
  {
    if Overlap(a, b) {
      var x: int := if a.minX >= b.minX then a.minX else b.minX;
      var z: int := if a.minZ >= b.minZ then a.minZ else b.minZ;
      assert Covers(a, x, z) && Covers(b, x, z);
    }
  }

  // ---------------------------------------------------------------- newer

  predicate Newer(next: Record, previous: Record) {
    if next.slot != 0 || previous.slot != 0 then next.slot > previous.slot
    else next.activeRevision > previous.activeRevision
  }

  predicate Tied(a: Record, b: Record) { !Newer(a, b) && !Newer(b, a) }

  /** "Newer" is a strict weak order: irreflexive, transitive, and being tied is an equivalence. It goes upwards: by
      slot, and without slots by revision. */
  lemma NewerIsStrictWeakOrder(a: Record, b: Record, c: Record)
    ensures a.slot > b.slot ==> Newer(a, b)
    ensures Newer(a, b) ==> a.slot >= b.slot && (a.slot == 0 ==> a.activeRevision > b.activeRevision)
    ensures !Newer(a, a)
    ensures Newer(a, b) ==> !Newer(b, a)
    ensures Newer(a, b) && Newer(b, c) ==> Newer(a, c)
    ensures Tied(a, b) && Tied(b, c) ==> Tied(a, c)
    ensures Newer(a, b) && Tied(b, c) ==> Newer(a, c)
  {
  }

  // ---------------------------------------------------------------- the region and validity

  /** floor_div: truncating division corrected for a negative remainder. */
  function FloorDiv(value: i32, divisor: int): int
    requires divisor > 0
  {
    var q := TruncDiv(value, divisor);
    if TruncMod(value, divisor) < 0 then q - 1 else q
  }

  /** The correction turns truncation into the floor. */
  lemma FloorDivIsFloor(value: i32)
    ensures FloorDiv(value, 100) == value / 100
    ensures FloorDiv(value, 100) * 100 <= value < FloorDiv(value, 100) * 100 + 100
  {
  }

  function RegionX(cfg: Config): i32 { FloorDivIsFloor(cfg.center.x); FloorDiv(cfg.center.x, 100) }

  function RegionZ(cfg: Config): i32 { FloorDivIsFloor(cfg.center.z); FloorDiv(cfg.center.z, 100) }

  predicate ZeroHash(h: Hash16) { forall i :: 0 <= i < 16 ==> h[i] == 0 }

  predicate ValidRecord(cfg: Config, r: Record) {
    && r.id != 0 && r.flags == 1 && r.width >= 2 && r.depth >= 2
    && (r.activeRevision == 0 <==> ZeroHash(r.contentHash))
    && r.minX + r.width - 1 <= 0x7FFF_FFFF && r.minZ + r.depth - 1 <= 0x7FFF_FFFF
    && r.minX <= (RegionX(cfg) * 100 + 100) * cfg.chunkSize - 1
    && r.minX + r.width - 1 >= RegionX(cfg) * 100 * cfg.chunkSize
    && r.minZ <= (RegionZ(cfg) * 100 + 100) * cfg.chunkSize - 1
    && r.minZ + r.depth - 1 >= RegionZ(cfg) * 100 * cfg.chunkSize
  }

  // ---------------------------------------------------------------- bytes

  function WriteHead(r: Record): (b: bytes)
    ensures |b| == 20
  {
    W64(r.id) + WI32(r.minX) + WI32(r.minZ) + WI16(r.surfaceY) + W16(r.flags)
  }

  function WriteSizes(r: Record): (b: bytes)
    ensures |b| == 12
  {
    W32(r.width) + W32(r.depth) + W32(r.activeRevision)
  }

  /** append_building_record. */
  function WriteRecord(r: Record): (b: bytes)
    ensures |b| == 56
  {
    WriteHead(r) + WriteSizes(r) + r.contentHash + W64(r.slot)
  }

  /** The 48 bytes that all format versions share. */
  function ReadCore(b: bytes): Record
    requires |b| == 48
  {
    Record(R64(b[0..8]), RI32(b[8..12]), RI32(b[12..16]), RI16(b[16..18]), R16(b[18..20]), R32(b[20..24]),
           R32(b[24..28]), R32(b[28..32]), b[32..48], 0)
  }

  /** decode_building_record: a version 1 record has no slot. */
  function ReadRecord(b: bytes): Option<Record> {
    if |b| == 56 then Some(ReadCore(b[..48]).(slot := R64(b[48..56])))
    else if |b| == 48 then Some(ReadCore(b))
    else None
  }

  lemma RecordCore(r: Record)
    ensures ReadCore(WriteRecord(r)[..48]) == r.(slot := 0)
  {
    var head, sizes, b := WriteHead(r), WriteSizes(r), WriteRecord(r)[..48];
    assert b[0..20] == head && b[20..32] == sizes && b[32..48] == r.contentHash;
    assert b[0..8] == head[0..8] == W64(r.id) && b[8..12] == head[8..12] == WI32(r.minX);
    assert b[12..16] == head[12..16] == WI32(r.minZ) && b[16..18] == head[16..18] == WI16(r.surfaceY);
    assert b[18..20] == head[18..20] == W16(r.flags) && b[20..24] == sizes[0..4] == W32(r.width);
    assert b[24..28] == sizes[4..8] == W32(r.depth) && b[28..32] == sizes[8..12] == W32(r.activeRevision);
    Inverse64(r.id);
    Inverse32(r.width, r.minX);
    Inverse32(r.depth, r.minZ);
    Inverse32(r.activeRevision, 0);
    Inverse16(r.flags, r.surfaceY);
  }

  /** A record survives the current format, and loses only its slot in the first one. */
  lemma RecordRoundTrip(r: Record)
    ensures ReadRecord(WriteRecord(r)) == Some(r)
    ensures ReadRecord(WriteRecord(r)[..48]) == Some(r.(slot := 0))
  {
    RecordCore(r);
    var b := WriteRecord(r);
    assert b[48..56] == W64(r.slot);
    Inverse64(r.slot);
  }

  lemma HeadCanonical(c: bytes)
    requires |c| == 48
    ensures WriteHead(ReadCore(c)) == c[0..20]
  {
    Rewrite64(c[0..8]);
    Rewrite32(c[8..12]);
    Rewrite32(c[12..16]);
    Rewrite16(c[16..18]);
    Rewrite16(c[18..20]);
    assert c[0..8] + c[8..12] + c[12..16] + c[16..18] + c[18..20] == c[0..20];
  }

  lemma SizesCanonical(c: bytes)
    requires |c| == 48
    ensures WriteSizes(ReadCore(c)) == c[20..32]
  {
    Rewrite32(c[20..24]);
    Rewrite32(c[24..28]);
    Rewrite32(c[28..32]);
    assert c[20..24] + c[24..28] + c[28..32] == c[20..32];
  }

  lemma RecordCanonical(b: bytes)
    requires |b| == 56
    ensures WriteRecord(ReadRecord(b).value) == b
  {
    var c := b[..48];
    HeadCanonical(c);
    SizesCanonical(c);
    Rewrite64(b[48..56]);
    assert b == c[0..20] + c[20..32] + c[32..48] + b[48..56];
  }

  // ---------------------------------------------------------------- BUILDING_ANNOUNCE

  function EncodeAnnounce(r: Record): bytes { [MSG_BUILDING_ANNOUNCE] + WriteRecord(r) }

  function DecodeAnnounce(b: bytes): Option<Record> {
    if (|b| == 57 || |b| == 49) && b[0] == MSG_BUILDING_ANNOUNCE then ReadRecord(b[1..]) else None
  }

  lemma AnnounceRoundTrip(r: Record)
    ensures DecodeAnnounce(EncodeAnnounce(r)) == Some(r)
  {
    assert EncodeAnnounce(r)[1..] == WriteRecord(r);
    RecordRoundTrip(r);
  }

  /** Full-size announcements have one encoding; the old 49-byte form is read and never written. */
  lemma AnnounceCanonical(b: bytes)
    requires DecodeAnnounce(b).Some?
    ensures EncodeAnnounce(DecodeAnnounce(b).value) == b <==> |b| == 57
  {
    if |b| == 57 {
      RecordCanonical(b[1..]);
      assert b == [b[0]] + b[1..];
    }
  }
}
