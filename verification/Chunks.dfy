/** Chunk coordinates, the service square and the area-of-interest offsets (chunk.cpp, aoi.cpp). */
module Chunks {
  import opened Ints

  datatype Chunk = Chunk(x: i32, z: i32)

  /** The configuration, with the two wallet digests as functions the model knows nothing about. */
  datatype Config = Config(
    center: Chunk,
    serviceRadius: u16,
    aoiRadius: u8,
    chunkSize: u16,
    maxPlayers: u32,
    maxBuildings: u32,
    moveLimit: u16,
    digLimit: u16,
    echoSelf: bool,
    ownerHash: Wallet -> u32,
    fingerprint: Wallet -> u64)

  /** What validate_config checks. */
  predicate Validated(cfg: Config) {
    && cfg.serviceRadius <= 127
    && 1 <= cfg.maxPlayers <= 65535
    && 1 <= cfg.maxBuildings <= 1_000_000
  }

  /** What the code needs besides: offsets fit int8_t, and the widened service square fits int32_t. */
  predicate Deployable(cfg: Config) {
    && Validated(cfg)
    && cfg.aoiRadius <= 127
    && -0x8000_0000 <= cfg.center.x - cfg.serviceRadius - cfg.aoiRadius
    && cfg.center.x + cfg.serviceRadius + cfg.aoiRadius < 0x8000_0000
    && -0x8000_0000 <= cfg.center.z - cfg.serviceRadius - cfg.aoiRadius
    && cfg.center.z + cfg.serviceRadius + cfg.aoiRadius < 0x8000_0000
  }

  function Diameter(cfg: Config): nat { cfg.serviceRadius * 2 + 1 }

  predicate Contains(cfg: Config, c: Chunk) {
    && cfg.center.x - cfg.serviceRadius <= c.x <= cfg.center.x + cfg.serviceRadius
    && cfg.center.z - cfg.serviceRadius <= c.z <= cfg.center.z + cfg.serviceRadius
  }

  /** The 64-bit room key: x in the high half, z in the low half. */
  function ChunkKey(c: Chunk): u64 {
    WrapU32(c.x) * 0x1_0000_0000 + WrapU32(c.z)
  }

  lemma WrapU32Apart(i: i32, j: i32)
    ensures WrapU32(i) == WrapU32(j) <==> i == j
  {
  }

  lemma ChunkKeyInjective(a: Chunk, b: Chunk)
    ensures ChunkKey(a) == ChunkKey(b) <==> a == b
  {
    hide WrapU32;
    WrapU32Apart(a.x, b.x);
    WrapU32Apart(a.z, b.z);
  }

  function ToLocalX(cfg: Config, x: i32): u8 { WrapU8(x - (cfg.center.x - cfg.serviceRadius)) }

  function ToLocalZ(cfg: Config, z: i32): u8 { WrapU8(z - (cfg.center.z - cfg.serviceRadius)) }

  function FromLocal(cfg: Config, lx: u8, lz: u8): Chunk {
    Chunk(WrapI32(cfg.center.x - cfg.serviceRadius + lx), WrapI32(cfg.center.z - cfg.serviceRadius + lz))
  }

  function LocalToGlobal(cfg: Config, lx: u8, lz: u8): Option<Chunk> {
    var c := FromLocal(cfg, lx, lz);
    if Contains(cfg, c) then Some(c) else None
  }

  /** Two bytes name a chunk exactly when they are the local coordinates of a served chunk. */
  lemma LocalToGlobalInverts(cfg: Config, lx: u8, lz: u8, c: Chunk)
    requires Deployable(cfg)
    ensures LocalToGlobal(cfg, lx, lz) == Some(c)
       <==> Contains(cfg, c) && lx == ToLocalX(cfg, c.x) && lz == ToLocalZ(cfg, c.z)
  {
    AxisInverts(cfg.center.x, cfg.serviceRadius, lx, c.x);
    AxisInverts(cfg.center.z, cfg.serviceRadius, lz, c.z);
  }

  lemma AxisInverts(center: i32, radius: nat, l: u8, v: i32)
    requires radius <= 127 && -0x8000_0000 <= center - radius && center + radius < 0x8000_0000
    ensures (v == WrapI32(center - radius + l) && center - radius <= v <= center + radius)
       <==> (l == WrapU8(v - (center - radius)) && center - radius <= v <= center + radius)
  {
  }

  /** Row-major index of a chunk: the number of its topic. */
  function LocalIndex(cfg: Config, c: Chunk): nat {
    ToLocalZ(cfg, c.z) * Diameter(cfg) + ToLocalX(cfg, c.x)
  }

  /** Local coordinates count from the low corner of the service square, and nothing wraps around; topics are numbered
      row by row from that corner, a row being the chunks of one z. */
  lemma LocalIsOffset(cfg: Config, c: Chunk)
    requires Deployable(cfg) && Contains(cfg, c)
    ensures ToLocalX(cfg, c.x) == c.x - (cfg.center.x - cfg.serviceRadius)
    ensures ToLocalZ(cfg, c.z) == c.z - (cfg.center.z - cfg.serviceRadius)
    ensures LocalIndex(cfg, c)
         == (c.z - (cfg.center.z - cfg.serviceRadius)) * (cfg.serviceRadius * 2 + 1)
            + (c.x - (cfg.center.x - cfg.serviceRadius))
  {
  }

  function ChunkOfIndex(cfg: Config, i: nat): Chunk {
    Chunk(WrapI32(cfg.center.x - cfg.serviceRadius + i % Diameter(cfg)),
          WrapI32(cfg.center.z - cfg.serviceRadius + i / Diameter(cfg)))
  }

  lemma ProductGap(a: nat, b: nat, width: nat)
    requires a < b
    ensures a * width + width <= b * width
    decreases b - a
  {
    assert a * width + width == (a + 1) * width;
    if a + 1 < b {
      ProductGap(a + 1, b, width);
    }
  }

  /** Row and column are determined by the row-major number. */
  lemma RowMajorUnique(a: nat, x: nat, b: nat, y: nat, width: nat)
    requires x < width && y < width && a * width + x == b * width + y
    ensures a == b && x == y
  {
    if a < b {
      ProductGap(a, b, width);
    } else if b < a {
      ProductGap(b, a, width);
    }
  }

  lemma RowMajorSplit(i: nat, width: nat) returns (row: nat, col: nat)
    requires i < width * width
    ensures width > 0 && row == i / width && col == i % width
    ensures row < width && col < width && i == row * width + col
  {
    RowMajorBounds(i, width);
    row, col := i / width, i % width;
    DivMod(i, width);
  }

  lemma RowMajorInverse(row: nat, col: nat, width: nat)
    requires row < width && col < width
    ensures row * width + col < width * width
    ensures (row * width + col) / width == row && (row * width + col) % width == col
  {
    var i := row * width + col;
    ProductGap(row, width, width);
    DivMod(i, width);
    RowMajorUnique(row, col, i / width, i % width, width);
  }

  lemma LocalCoordinates(cfg: Config, c: Chunk)
    requires Deployable(cfg) && Contains(cfg, c)
    ensures ToLocalX(cfg, c.x) == c.x - (cfg.center.x - cfg.serviceRadius) < Diameter(cfg)
    ensures ToLocalZ(cfg, c.z) == c.z - (cfg.center.z - cfg.serviceRadius) < Diameter(cfg)
  {
  }

  lemma DivMod(i: nat, width: nat)
    requires width > 0
    ensures i == (i / width) * width + i % width && i % width < width
  {
  }

  lemma RowMajorBounds(i: nat, width: nat)
    requires i < width * width
    ensures 0 < width && i / width < width
  {
    if width == 0 {
      assert false;
    } else {
      DivMod(i, width);
      if width < i / width {
        ProductGap(width, i / width, width);
      }
    }
  }

  /** Served chunks and topic numbers below diameter squared correspond one to one. */
  lemma LocalIndexBijection(cfg: Config, c: Chunk)
    requires Deployable(cfg) && Contains(cfg, c)
    ensures LocalIndex(cfg, c) < Diameter(cfg) * Diameter(cfg)
    ensures ChunkOfIndex(cfg, LocalIndex(cfg, c)) == c
  {
    LocalCoordinates(cfg, c);
    RowMajorInverse(ToLocalZ(cfg, c.z), ToLocalX(cfg, c.x), Diameter(cfg));
  }

  lemma LocalIndexOnto(cfg: Config, i: nat)
    requires Deployable(cfg) && i < Diameter(cfg) * Diameter(cfg)
    ensures Contains(cfg, ChunkOfIndex(cfg, i)) && LocalIndex(cfg, ChunkOfIndex(cfg, i)) == i
  {
    var d := Diameter(cfg);
    var row, col := RowMajorSplit(i, d);
    LocalIndexAt(cfg, ChunkOfIndex(cfg, i), row, col);
  }

  lemma LocalIndexAt(cfg: Config, c: Chunk, row: nat, col: nat)
    requires Deployable(cfg) && row < Diameter(cfg) && col < Diameter(cfg)
    requires c == Chunk(cfg.center.x - cfg.serviceRadius + col, cfg.center.z - cfg.serviceRadius + row)
    ensures Contains(cfg, c) && LocalIndex(cfg, c) == row * Diameter(cfg) + col
  {
    LocalCoordinates(cfg, c);
  }

  // ---------------------------------------------------------------- area of interest

  datatype Offset = Offset(dx: i8, dz: i8)

  predicate NoDup<T(==)>(s: seq<T>) { forall i, j :: 0 <= i < j < |s| ==> s[i] != s[j] }

  function Side(r: u8): nat { 2 * r + 1 }

  /** The first n offsets of one row, each coordinate stored as int8_t. */
  function Row(r: u8, dz: int, n: nat): seq<Offset> {
    seq(n, (k: nat) => Offset(WrapI8(k - r), WrapI8(dz)))
  }

  /** The first m rows of the square of radius r. */
  function Rows(r: u8, m: nat): seq<Offset> {
    if m == 0 then [] else Rows(r, m - 1) + Row(r, m - 1 - r, Side(r))
  }

  function AoiOffsets(r: u8): seq<Offset> { Rows(r, Side(r)) }

  method BuildAoiOffsets(radius: u8) returns (offsets: seq<Offset>)
    ensures offsets == AoiOffsets(radius)
  {
    offsets := [];
    var dz: int := 0 - radius;
    while dz <= radius
      invariant 0 <= dz + radius <= Side(radius)
      invariant offsets == Rows(radius, dz + radius)
    {
      ghost var above := offsets;
      var dx: int := 0 - radius;
      while dx <= radius
        invariant 0 <= dx + radius <= Side(radius)
        invariant offsets == above + Row(radius, dz, dx + radius)
      {
        assert Row(radius, dz, dx + radius + 1) == Row(radius, dz, dx + radius) + [Offset(WrapI8(dx), WrapI8(dz))];
        offsets := offsets + [Offset(WrapI8(dx), WrapI8(dz))];
        dx := dx + 1;
      }
      dz := dz + 1;
    }
  }

  predicate InSquare(r: u8, dx: int, dz: int) { 0 - r <= dx <= r && 0 - r <= dz <= r }

  /** The table lists each offset of the square of radius r once, and nothing else. */
  ghost predicate ListsSquare(r: u8, offsets: seq<Offset>) {
    && NoDup(offsets)
    && (forall dx: int, dz: int :: InSquare(r, dx, dz) <==> Listed(offsets, dx, dz))
  }

  ghost predicate Listed(offsets: seq<Offset>, dx: int, dz: int) {
    exists o :: o in offsets && o.dx == dx && o.dz == dz
  }

  lemma WrapI8Id(x: i8)
    ensures WrapI8(x) == x
  {
  }

  lemma RowLists(r: u8, dz: i8)
    requires r <= 127
    ensures NoDup(Row(r, dz, Side(r)))
    ensures forall o: Offset :: o in Row(r, dz, Side(r)) <==> InSquare(r, o.dx, 0) && o.dz == dz
  {
    var row := Row(r, dz, Side(r));
    forall k: nat | k < |row|
      ensures row[k] == Offset(k - r, dz)
    {
      WrapI8Id(k - r);
      WrapI8Id(dz);
    }
    forall o: Offset | InSquare(r, o.dx, 0) && o.dz == dz
      ensures o in row
    {
      assert row[o.dx + r] == o;
    }
  }

  lemma {:induction false} RowsList(r: u8, m: nat)
    requires r <= 127 && m <= Side(r)
    ensures NoDup(Rows(r, m))
    ensures forall o: Offset :: o in Rows(r, m) <==> InSquare(r, o.dx, 0) && 0 - r <= o.dz < m - r
  {
    if m > 0 {
      RowsList(r, m - 1);
      RowLists(r, m - 1 - r);
    }
  }

  /** int8_t storage keeps the table right exactly up to radius 127; accepted configurations reach 255. */
  lemma AoiOffsetsExact(r: u8)
    ensures ListsSquare(r, AoiOffsets(r)) <==> r <= 127
  {
    var offsets := AoiOffsets(r);
    if r <= 127 {
      RowsList(r, Side(r));
      forall dx: int, dz: int
        ensures InSquare(r, dx, dz) <==> Listed(offsets, dx, dz)
      {
        if InSquare(r, dx, dz) {
          assert Offset(dx, dz) in offsets;
        }
      }
    } else {
      assert InSquare(r, r, 0) && !Listed(offsets, r, 0);
    }
  }

  predicate Near(cfg: Config, a: Chunk, b: Chunk) { InSquare(cfg.aoiRadius, b.x - a.x, b.z - a.z) }

  function Shift(c: Chunk, o: Offset): Chunk { Chunk(WrapI32(c.x + o.dx), WrapI32(c.z + o.dz)) }

  lemma ShiftInRange(cfg: Config, c: Chunk, o: Offset)
    requires Deployable(cfg) && Contains(cfg, c) && InSquare(cfg.aoiRadius, o.dx, o.dz)
    ensures Shift(c, o).x == c.x + o.dx && Shift(c, o).z == c.z + o.dz
  {
  }

  /** Topic numbers the fan-out loop visits around c, in order: offsets outside the service square are skipped. */
  function TopicsOf(cfg: Config, c: Chunk, offsets: seq<Offset>): seq<nat> {
    if offsets == [] then []
    else
      var last := Shift(c, offsets[|offsets| - 1]);
      var before := TopicsOf(cfg, c, offsets[..|offsets| - 1]);
      if Contains(cfg, last) then before + [LocalIndex(cfg, last)] else before
  }

  /** The topics of the area of interest of c, clipped to the service square. */
  function AoiTopics(cfg: Config, c: Chunk): seq<nat> { TopicsOf(cfg, c, AoiOffsets(cfg.aoiRadius)) }

  lemma TopicsMore(cfg: Config, c: Chunk, offsets: seq<Offset>, o: Offset)
    ensures TopicsOf(cfg, c, offsets + [o])
         == TopicsOf(cfg, c, offsets)
            + if Contains(cfg, Shift(c, o)) then [LocalIndex(cfg, Shift(c, o))] else []
  {
    assert (offsets + [o])[..|offsets|] == offsets;
  }

  lemma ListedMore(offsets: seq<Offset>, o: Offset, dx: int, dz: int)
    requires o !in offsets
    ensures Listed(offsets + [o], dx, dz) <==> Listed(offsets, dx, dz) || (o.dx == dx && o.dz == dz)
    ensures o.dx == dx && o.dz == dz ==> !Listed(offsets, dx, dz)
  {
  }

  lemma {:induction false} TopicsOfList(cfg: Config, c: Chunk, offsets: seq<Offset>)
    requires Deployable(cfg) && Contains(cfg, c) && NoDup(offsets)
    requires forall o :: o in offsets ==> InSquare(cfg.aoiRadius, o.dx, o.dz)
    ensures NoDup(TopicsOf(cfg, c, offsets))
    ensures forall d: Chunk :: Contains(cfg, d) ==>
      (LocalIndex(cfg, d) in TopicsOf(cfg, c, offsets) <==> Listed(offsets, d.x - c.x, d.z - c.z))
    ensures forall t :: t in TopicsOf(cfg, c, offsets) ==>
      exists d: Chunk :: Contains(cfg, d) && t == LocalIndex(cfg, d)
  {
    if offsets != [] {
      hide TopicsOf, LocalIndex, ChunkOfIndex, Shift, Validated;
      var prefix, o := offsets[..|offsets| - 1], offsets[|offsets| - 1];
      TopicsOfList(cfg, c, prefix);
      assert offsets == prefix + [o] && o !in prefix;
      TopicsMore(cfg, c, prefix, o);
      var last := Shift(c, o);
      ShiftInRange(cfg, c, o);
      forall d: Chunk | Contains(cfg, d)
        ensures Contains(cfg, last) ==> (LocalIndex(cfg, d) == LocalIndex(cfg, last) <==> d == last)
        ensures Listed(offsets, d.x - c.x, d.z - c.z) <==> Listed(prefix, d.x - c.x, d.z - c.z) || d == last
        ensures d == last ==> !Listed(prefix, d.x - c.x, d.z - c.z)
      {
        LocalIndexBijection(cfg, d);
        if Contains(cfg, last) {
          LocalIndexBijection(cfg, last);
        }
        ListedMore(prefix, o, d.x - c.x, d.z - c.z);
      }
    }
  }

  /** A fan-out from c reaches the topic of a served chunk d, once, exactly when d is in the area of interest. */
  lemma AoiTopicsExact(cfg: Config, c: Chunk)
    requires Deployable(cfg) && Contains(cfg, c)
    ensures NoDup(AoiTopics(cfg, c))
    ensures forall d: Chunk :: Contains(cfg, d) ==> (LocalIndex(cfg, d) in AoiTopics(cfg, c) <==> Near(cfg, c, d))
    ensures forall t :: t in AoiTopics(cfg, c) ==> exists d: Chunk :: Contains(cfg, d) && t == LocalIndex(cfg, d)
  {
    var r := cfg.aoiRadius;
    RowsList(r, Side(r));
    AoiOffsetsExact(r);
    TopicsOfList(cfg, c, AoiOffsets(r));
  }
}
