/** Where each field stands in each message, byte by byte. */
module Layout {
  import opened Ints
  import opened Chunks
  import opened Wire
  import opened Records
  import opened Buildings
  import opened ManifestFile
  import opened ManifestStore
  import opened ManifestReply
  import opened ManifestHandler

  // ---------------------------------------------------------------- numbers: least significant byte first

  predicate Holds16(b: bytes, i: nat, v: u16) { i + 2 <= |b| && b[i] == v % 256 && b[i + 1] == v / 256 }

  predicate Holds32(b: bytes, i: nat, v: u32) {
    && i + 4 <= |b| && b[i] == v % 256 && b[i + 1] == v / 256 % 256 && b[i + 2] == v / 65536 % 256
    && b[i + 3] == v / 16777216
  }

  predicate Holds64(b: bytes, i: nat, v: u64) {
    Holds32(b, i, v % 0x1_0000_0000) && Holds32(b, i + 4, v / 0x1_0000_0000)
  }

  /** Two's complement. */
  predicate HoldsI16(b: bytes, i: nat, v: i16) { Holds16(b, i, if v < 0 then v + 0x1_0000 else v) }

  predicate HoldsI32(b: bytes, i: nat, v: i32) { Holds32(b, i, if v < 0 then v + 0x1_0000_0000 else v) }

  predicate HoldsBytes(b: bytes, i: nat, s: bytes) { i + |s| <= |b| && b[i..i + |s|] == s }

  predicate HoldsPose(b: bytes, i: nat, p: Pose) {
    && i + 8 <= |b| && Holds16(b, i, p.x) && Holds16(b, i + 2, p.y) && Holds16(b, i + 4, p.z)
    && b[i + 6] == p.yaw && b[i + 7] == if p.pitch < 0 then p.pitch + 256 else p.pitch
  }

  lemma LEMore(v: nat, n: nat)
    requires n > 0
    ensures LE(v, n) == [v % 256] + LE(v / 256, n - 1)
  {
  }

  lemma Digits16(v: u16)
    ensures W16(v) == [v % 256, v / 256]
  {
    LEMore(v, 2);
    LEMore(v / 256, 1);
    assert LE(v / 256 / 256, 0) == [];
  }

  lemma Digits32(v: u32)
    ensures W32(v) == [v % 256, v / 256 % 256, v / 65536 % 256, v / 16777216]
  {
    LEMore(v, 4);
    LEMore(v / 256, 3);
    LEMore(v / 256 / 256, 2);
    LEMore(v / 256 / 256 / 256, 1);
    assert LE(v / 256 / 256 / 256 / 256, 0) == [];
    assert v / 256 / 256 == v / 65536 && v / 256 / 256 / 256 == v / 16777216;
  }

  lemma Divide256(q: nat, low: nat)
    ensures (q * 0x1_0000_0000 + low) / 256 == q * 16777216 + low / 256
  {
  }

  lemma Divide65536(q: nat, low: nat)
    ensures (q * 0x1_0000_0000 + low) / 65536 == q * 65536 + low / 65536
  {
  }

  lemma Divide16777216(q: nat, low: nat)
    ensures (q * 0x1_0000_0000 + low) / 16777216 == q * 256 + low / 16777216
  {
  }

  lemma LowDigits(v: u64)
    ensures var low := v % 0x1_0000_0000;
      && low % 256 == v % 256 && low / 256 % 256 == v / 256 % 256 && low / 65536 % 256 == v / 65536 % 256
      && low / 16777216 == v / 16777216 % 256
  {
    var q, low := v / 0x1_0000_0000, v % 0x1_0000_0000;
    Divide256(q, low);
    Divide65536(q, low);
    Divide16777216(q, low);
    SameLowDigit(q * 16777216, low);
    SameLowDigit(q * 65536, low / 256);
    SameLowDigit(q * 256, low / 65536);
    SameLowDigit(q, low / 16777216);
  }

  lemma SameLowDigit(q: nat, low: nat)
    ensures (q * 256 + low) % 256 == low % 256
  {
  }

  lemma Digits64(v: u64)
    ensures W64(v) == W32(v % 0x1_0000_0000) + W32(v / 0x1_0000_0000)
  {
    hide W32;
    LEMore(v, 8);
    LEMore(v / 256, 7);
    LEMore(v / 256 / 256, 6);
    LEMore(v / 256 / 256 / 256, 5);
    assert v / 256 / 256 == v / 65536 && v / 256 / 256 / 256 == v / 16777216;
    assert v / 256 / 256 / 256 / 256 == v / 0x1_0000_0000;
    LowDigits(v);
    Digits32(v % 0x1_0000_0000);
    FourBytes(v / 0x1_0000_0000);
  }

  lemma FourBytes(v: u32)
    ensures W32(v) == LE(v, 4)
  {
  }

  // ---------------------------------------------------------------- a number at a place

  lemma SubSlice(b: bytes, i: nat, n: nat, lo: nat, hi: nat)
    requires lo <= hi <= n && i + n <= |b|
    ensures b[i..i + n][lo..hi] == b[i + lo..i + hi]
  {
    var c := b[i..i + n];
    assert forall k | lo <= k < hi :: c[k] == b[i + k];
    assert c[lo..hi] == b[i + lo..i + hi];
  }

  lemma At16(b: bytes, i: nat, v: u16)
    requires i + 2 <= |b| && b[i..i + 2] == W16(v)
    ensures Holds16(b, i, v)
  {
    Digits16(v);
    assert b[i..i + 2][0] == b[i] && b[i..i + 2][1] == b[i + 1];
  }

  lemma At32(b: bytes, i: nat, v: u32)
    requires i + 4 <= |b| && b[i..i + 4] == W32(v)
    ensures Holds32(b, i, v)
  {
    Digits32(v);
    var c := b[i..i + 4];
    assert c[0] == b[i] && c[1] == b[i + 1] && c[2] == b[i + 2] && c[3] == b[i + 3];
  }

  lemma At64(b: bytes, i: nat, v: u64)
    requires i + 8 <= |b| && b[i..i + 8] == W64(v)
    ensures Holds64(b, i, v)
  {
    hide W32, W64, Holds32;
    Digits64(v);
    assert b[i..i + 4] == b[i..i + 8][..4] == W32(v % 0x1_0000_0000);
    assert b[i + 4..i + 8] == b[i..i + 8][4..] == W32(v / 0x1_0000_0000);
    At32(b, i, v % 0x1_0000_0000);
    At32(b, i + 4, v / 0x1_0000_0000);
  }

  lemma AtI16(b: bytes, i: nat, v: i16)
    requires i + 2 <= |b| && b[i..i + 2] == WI16(v)
    ensures HoldsI16(b, i, v)
  {
    hide Holds16;
    assert WrapU16(v) == if v < 0 then v + 0x1_0000 else v;
    At16(b, i, WrapU16(v));
  }

  lemma AtI32(b: bytes, i: nat, v: i32)
    requires i + 4 <= |b| && b[i..i + 4] == WI32(v)
    ensures HoldsI32(b, i, v)
  {
    hide Holds32;
    assert WrapU32(v) == if v < 0 then v + 0x1_0000_0000 else v;
    At32(b, i, WrapU32(v));
  }

  lemma PoseFields(p: Pose)
    ensures var c := WritePose(p);
      && c[0..2] == W16(p.x) && c[2..4] == W16(p.y) && c[4..6] == W16(p.z) && c[6] == p.yaw && c[7] == WrapU8(p.pitch)
  {
    hide W16;
    var c, head := WritePose(p), W16(p.x) + W16(p.y);
    assert c == head + (W16(p.z) + [p.yaw, WrapU8(p.pitch)]) && |head| == 4;
    assert c[0..2] == head[0..2] == W16(p.x) && c[2..4] == head[2..4] == W16(p.y) && c[4..6] == W16(p.z);
  }

  lemma AtPose(b: bytes, i: nat, p: Pose)
    requires i + 8 <= |b| && b[i..i + 8] == WritePose(p)
    ensures HoldsPose(b, i, p)
  {
    hide W16, Holds16, WritePose;
    PoseFields(p);
    SubSlice(b, i, 8, 0, 2);
    SubSlice(b, i, 8, 2, 4);
    SubSlice(b, i, 8, 4, 6);
    assert b[i + 6] == b[i..i + 8][6] && b[i + 7] == b[i..i + 8][7];
    At16(b, i, p.x);
    At16(b, i + 2, p.y);
    At16(b, i + 4, p.z);
  }

  // ---------------------------------------------------------------- messages of a client

  lemma HelloLayout(h: Hello)
    ensures var b := EncodeHello(h);
      && |b| == 52 && b[0] == 0x01 && b[1] == h.version && Holds16(b, 2, h.flags) && HoldsBytes(b, 4, h.wallet)
      && HoldsI32(b, 36, h.startX) && HoldsI32(b, 40, h.startZ) && Holds64(b, 44, h.nonce)
  {
    hide W16, WI32, W64, Holds16, HoldsI32, Holds64;
    var b := EncodeHello(h);
    var head, tail := [MSG_HELLO, h.version] + W16(h.flags) + h.wallet, WI32(h.startX) + WI32(h.startZ) + W64(h.nonce);
    assert b == head + tail && |head| == 36;
    assert b[2..4] == head[2..4] == W16(h.flags) && b[4..36] == head[4..36] == h.wallet;
    assert b[36..40] == tail[0..4] == WI32(h.startX) && b[40..44] == tail[4..8] == WI32(h.startZ);
    assert b[44..52] == tail[8..16] == W64(h.nonce);
    At16(b, 2, h.flags);
    AtI32(b, 36, h.startX);
    AtI32(b, 40, h.startZ);
    At64(b, 44, h.nonce);
  }

  lemma MoveLayout(m: Move)
    ensures var b := EncodeMove(m);
      && |b| == 13 && b[0] == 0x10 && b[1] == m.lx && b[2] == m.lz && HoldsPose(b, 3, m.pose) && Holds16(b, 11, m.tick)
  {
    hide W16, WritePose, Holds16, HoldsPose;
    var b := EncodeMove(m);
    assert b[3..11] == WritePose(m.pose) && b[11..13] == W16(m.tick);
    AtPose(b, 3, m.pose);
    At16(b, 11, m.tick);
  }

  /** The ten bytes of a dig, from place i on. */
  predicate HoldsDig(b: bytes, i: nat, d: Dig) {
    && i + 10 <= |b| && Holds16(b, i, d.seqNo) && b[i + 2] == d.lx && b[i + 3] == d.lz && b[i + 4] == d.blockX
    && Holds16(b, i + 5, d.blockY) && b[i + 7] == d.blockZ && b[i + 8] == d.action && b[i + 9] == d.tool
  }

  lemma DigFields(d: Dig)
    ensures var c := WriteDigItem(d);
      && c[0..2] == W16(d.seqNo) && c[2] == d.lx && c[3] == d.lz && c[4] == d.blockX && c[5..7] == W16(d.blockY)
      && c[7] == d.blockZ && c[8] == d.action && c[9] == d.tool
  {
    hide W16;
    var c, head := WriteDigItem(d), W16(d.seqNo) + [d.lx, d.lz, d.blockX];
    assert c == head + (W16(d.blockY) + [d.blockZ, d.action, d.tool]) && |head| == 5;
    assert c[0..2] == head[0..2] == W16(d.seqNo) && c[5..7] == W16(d.blockY);
  }

  lemma AtDig(b: bytes, i: nat, d: Dig)
    requires i + 10 <= |b| && b[i..i + 10] == WriteDigItem(d)
    ensures HoldsDig(b, i, d)
  {
    hide W16, Holds16, WriteDigItem;
    DigFields(d);
    var c := b[i..i + 10];
    SubSlice(b, i, 10, 0, 2);
    SubSlice(b, i, 10, 5, 7);
    assert c[2] == b[i + 2] && c[3] == b[i + 3] && c[4] == b[i + 4] && c[7] == b[i + 7] && c[8] == b[i + 8];
    assert c[9] == b[i + 9];
    At16(b, i, d.seqNo);
    At16(b, i + 5, d.blockY);
  }

  lemma DigLayout(d: Dig)
    ensures var b := EncodeDig(d); |b| == 11 && b[0] == 0x20 && HoldsDig(b, 1, d)
  {
    hide WriteDigItem, HoldsDig;
    assert EncodeDig(d)[1..11] == WriteDigItem(d);
    AtDig(EncodeDig(d), 1, d);
  }

  // ---------------------------------------------------------------- items of equal size

  lemma ItemPlace(size: nat, n: nat, k: nat)
    requires k < n
    ensures k * size + size <= n * size && (n - 1) * size == n * size - size && (k + 1) * size == k * size + size
  {
    ItemFits(size, n, k);
  }

  lemma {:induction false} ItemAt<T>(write: T -> bytes, items: seq<T>, size: nat, k: nat, at: nat)
    requires (forall x :: x in items ==> |write(x)| == size) && k < |items| && at == k * size
    ensures at + size <= |WriteAll(write, items)| && WriteAll(write, items)[at..at + size] == write(items[k])
  {
    ItemPlace(size, |items|, k);
    WriteAllSize(write, items, size);
    var b, rest := WriteAll(write, items), WriteAll(write, items[1..]);
    assert b == write(items[0]) + rest;
    if k == 0 {
      assert b[0..size] == write(items[0]);
    } else {
      ItemPlace(size, |items|, k - 1);
      ItemAt(write, items[1..], size, k - 1, at - size);
      assert b[at..at + size] == rest[at - size..at];
    }
  }

  lemma DigBatchLayout(digs: seq<Dig>, k: nat)
    requires k < |digs| <= 255
    ensures var b := DigBatchBytes(digs);
      |b| == 2 + |digs| * 10 && b[0] == 0x22 && b[1] == |digs| && HoldsDig(b, 2 + k * 10, digs[k])
  {
    hide WriteDigItem, HoldsDig, WriteAll;
    var b, body := DigBatchBytes(digs), WriteAll(WriteDigItem, digs);
    WriteAllSize(WriteDigItem, digs, 10);
    ItemAt(WriteDigItem, digs, 10, k, k * 10);
    assert b[2..] == body;
    SliceShift(b, 2, k * 10, k * 10 + 10);
    AtDig(b, 2 + k * 10, digs[k]);
  }

  // ---------------------------------------------------------------- frames of the server

  lemma AckLayout(a: HelloAck)
    ensures var b := EncodeFrame(Ack(a));
      && |b| == 20 && b[0] == 0x02 && b[1] == a.version && Holds16(b, 2, a.id) && Holds16(b, 4, a.flags)
      && HoldsI32(b, 6, a.centerX) && HoldsI32(b, 10, a.centerZ) && Holds16(b, 14, a.serviceRadius)
      && b[16] == a.aoiRadius && b[17] == a.indexMode && Holds16(b, 18, a.tick)
  {
    hide W16, WI32, Holds16, HoldsI32;
    var b := EncodeFrame(Ack(a));
    var head := [MSG_HELLO_ACK, a.version] + W16(a.id) + W16(a.flags) + WI32(a.centerX);
    var tail := WI32(a.centerZ) + W16(a.serviceRadius) + [a.aoiRadius, a.indexMode] + W16(a.tick);
    assert b == head + tail && |head| == 10;
    assert b[2..4] == head[2..4] == W16(a.id) && b[4..6] == head[4..6] == W16(a.flags);
    assert b[6..10] == head[6..10] == WI32(a.centerX) && b[10..14] == tail[0..4] == WI32(a.centerZ);
    assert b[14..16] == tail[4..6] == W16(a.serviceRadius) && b[18..20] == tail[8..10] == W16(a.tick);
    At16(b, 2, a.id);
    At16(b, 4, a.flags);
    AtI32(b, 6, a.centerX);
    AtI32(b, 10, a.centerZ);
    At16(b, 14, a.serviceRadius);
    At16(b, 18, a.tick);
  }

  lemma JoinLayout(j: PlayerJoin)
    ensures var b := EncodeFrame(Join(j));
      && |b| == 57 && b[0] == 0x30 && Holds16(b, 1, j.id) && Holds32(b, 3, j.ownerHash)
      && Holds64(b, 7, j.fingerprint) && HoldsBytes(b, 15, j.wallet) && b[47] == j.lx && b[48] == j.lz
      && HoldsPose(b, 49, j.pose)
  {
    hide W16, W32, W64, WritePose, Holds16, Holds32, Holds64, HoldsPose;
    var b := EncodeFrame(Join(j));
    var head := [MSG_PLAYER_JOIN] + W16(j.id) + W32(j.ownerHash) + W64(j.fingerprint);
    assert b == head + (j.wallet + [j.lx, j.lz] + WritePose(j.pose)) && |head| == 15;
    assert b[1..3] == head[1..3] == W16(j.id) && b[3..7] == head[3..7] == W32(j.ownerHash);
    assert b[7..15] == head[7..15] == W64(j.fingerprint);
    assert b[15..47] == j.wallet && b[49..57] == WritePose(j.pose);
    At16(b, 1, j.id);
    At32(b, 3, j.ownerHash);
    At64(b, 7, j.fingerprint);
    AtPose(b, 49, j.pose);
  }

  lemma LeaveLayout(l: PlayerLeave)
    ensures var b := EncodeFrame(Leave(l));
      && |b| == 48 && b[0] == 0x31 && Holds16(b, 1, l.id) && b[3] == l.reason && Holds32(b, 4, l.ownerHash)
      && Holds64(b, 8, l.fingerprint) && HoldsBytes(b, 16, l.wallet)
  {
    hide W16, W32, W64, Holds16, Holds32, Holds64;
    var b := EncodeFrame(Leave(l));
    var head := [MSG_PLAYER_LEAVE] + W16(l.id) + [l.reason] + W32(l.ownerHash) + W64(l.fingerprint);
    assert b == head + l.wallet && |head| == 16;
    assert b[1..3] == head[1..3] == W16(l.id) && b[4..8] == head[4..8] == W32(l.ownerHash);
    assert b[8..16] == head[8..16] == W64(l.fingerprint) && b[16..48] == l.wallet;
    At16(b, 1, l.id);
    At32(b, 4, l.ownerHash);
    At64(b, 8, l.fingerprint);
  }

  lemma ErrorLayout(code: u16)
    ensures var b := EncodeFrame(Error(code)); |b| == 3 && b[0] == 0x03 && Holds16(b, 1, code)
  {
    hide W16, Holds16;
    assert EncodeFrame(Error(code))[1..3] == W16(code);
    At16(EncodeFrame(Error(code)), 1, code);
  }

  predicate HoldsItem(b: bytes, i: nat, m: MoveItem) {
    i + 12 <= |b| && Holds16(b, i, m.id) && b[i + 2] == m.lx && b[i + 3] == m.lz && HoldsPose(b, i + 4, m.pose)
  }

  lemma AtItem(b: bytes, i: nat, m: MoveItem)
    requires i + 12 <= |b| && b[i..i + 12] == WriteMoveItem(m)
    ensures HoldsItem(b, i, m)
  {
    hide W16, WritePose, Holds16, HoldsPose;
    var c := b[i..i + 12];
    assert b[i..i + 2] == c[0..2] == W16(m.id) && b[i + 4..i + 12] == c[4..12] == WritePose(m.pose);
    assert c[2] == b[i + 2] && c[3] == b[i + 3];
    At16(b, i, m.id);
    AtPose(b, i + 4, m.pose);
  }

  lemma MoveBatchLayout(tick: u16, items: FewItems, k: nat)
    requires k < |items|
    ensures var b := EncodeFrame(MoveBatch(tick, items));
      && |b| == 4 + |items| * 12 && b[0] == 0x11 && Holds16(b, 1, tick) && b[3] == |items|
      && HoldsItem(b, 4 + k * 12, items[k])
  {
    hide W16, WriteMoveItem, WriteAll, HoldsItem, Holds16;
    var b := EncodeFrame(MoveBatch(tick, items));
    WriteAllSize(WriteMoveItem, items, 12);
    ItemAt(WriteMoveItem, items, 12, k, k * 12);
    assert b[1..3] == W16(tick) && b[4..] == WriteAll(WriteMoveItem, items);
    At16(b, 1, tick);
    SliceShift(b, 4, k * 12, k * 12 + 12);
    AtItem(b, 4 + k * 12, items[k]);
  }

  /** The part of a dig event that a batch repeats, from place i on. */
  predicate HoldsEvent(b: bytes, i: nat, e: DigEvent) {
    && i + 9 <= |b| && Holds16(b, i, e.seqNo) && b[i + 2] == e.lx && b[i + 3] == e.lz && b[i + 4] == e.blockX
    && Holds16(b, i + 5, e.blockY) && b[i + 7] == e.blockZ && b[i + 8] == e.action
  }

  lemma DigEventLayout(e: DigEvent)
    ensures var b := EncodeDigEvent(e);
      |b| == 14 && b[0] == 0x21 && Holds16(b, 1, e.id) && HoldsEvent(b, 3, e) && Holds16(b, 12, e.tick)
  {
    hide W16, Holds16;
    var b := EncodeDigEvent(e);
    assert b[1..3] == W16(e.id) && b[3..5] == W16(e.seqNo) && b[8..10] == W16(e.blockY) && b[12..14] == W16(e.tick);
    At16(b, 1, e.id);
    At16(b, 3, e.seqNo);
    At16(b, 8, e.blockY);
    At16(b, 12, e.tick);
  }

  lemma EventFields(e: DigEvent)
    ensures var c := WriteDigEventItem(e);
      && c[0..2] == W16(e.seqNo) && c[2] == e.lx && c[3] == e.lz && c[4] == e.blockX && c[5..7] == W16(e.blockY)
      && c[7] == e.blockZ && c[8] == e.action
  {
    hide W16;
    var c, head := WriteDigEventItem(e), W16(e.seqNo) + [e.lx, e.lz, e.blockX];
    assert c == head + (W16(e.blockY) + [e.blockZ, e.action]) && |head| == 5;
    assert c[0..2] == head[0..2] == W16(e.seqNo) && c[5..7] == W16(e.blockY);
  }

  lemma AtEvent(b: bytes, i: nat, e: DigEvent)
    requires i + 9 <= |b| && b[i..i + 9] == WriteDigEventItem(e)
    ensures HoldsEvent(b, i, e)
  {
    hide W16, Holds16, WriteDigEventItem;
    EventFields(e);
    var c := b[i..i + 9];
    SubSlice(b, i, 9, 0, 2);
    SubSlice(b, i, 9, 5, 7);
    assert c[2] == b[i + 2] && c[3] == b[i + 3] && c[4] == b[i + 4] && c[7] == b[i + 7] && c[8] == b[i + 8];
    At16(b, i, e.seqNo);
    At16(b, i + 5, e.blockY);
  }

  lemma DigEventBatchLayout(id: u16, tick: u16, events: seq<DigEvent>, k: nat)
    requires k < |events| <= 255
    ensures var b := DigEventBatchBytes(id, tick, events);
      && |b| == 6 + |events| * 9 && b[0] == 0x23 && Holds16(b, 1, id) && Holds16(b, 3, tick) && b[5] == |events|
      && HoldsEvent(b, 6 + k * 9, events[k])
  {
    hide W16, WriteDigEventItem, WriteAll, HoldsEvent, Holds16;
    var b := DigEventBatchBytes(id, tick, events);
    WriteAllSize(WriteDigEventItem, events, 9);
    ItemAt(WriteDigEventItem, events, 9, k, k * 9);
    assert b[1..3] == W16(id) && b[3..5] == W16(tick) && b[6..] == WriteAll(WriteDigEventItem, events);
    At16(b, 1, id);
    At16(b, 3, tick);
    SliceShift(b, 6, k * 9, k * 9 + 9);
    AtEvent(b, 6 + k * 9, events[k]);
  }

  // ---------------------------------------------------------------- buildings

  /** The 56 bytes of a record, from place i on. */
  predicate HoldsRecord(b: bytes, i: nat, r: Record) {
    && i + 56 <= |b| && Holds64(b, i, r.id) && HoldsI32(b, i + 8, r.minX) && HoldsI32(b, i + 12, r.minZ)
    && HoldsI16(b, i + 16, r.surfaceY) && Holds16(b, i + 18, r.flags) && Holds32(b, i + 20, r.width)
    && Holds32(b, i + 24, r.depth) && Holds32(b, i + 28, r.activeRevision) && HoldsBytes(b, i + 32, r.contentHash)
    && Holds64(b, i + 48, r.slot)
  }

  lemma RecordFields(r: Record)
    ensures var c := WriteRecord(r);
      && c[0..8] == W64(r.id) && c[8..12] == WI32(r.minX) && c[12..16] == WI32(r.minZ) && c[16..18] == WI16(r.surfaceY)
      && c[18..20] == W16(r.flags) && c[20..24] == W32(r.width) && c[24..28] == W32(r.depth)
      && c[28..32] == W32(r.activeRevision) && c[32..48] == r.contentHash && c[48..56] == W64(r.slot)
  {
    hide W16, W32, W64, WI16, WI32;
    var c, head, sizes := WriteRecord(r), WriteHead(r), WriteSizes(r);
    assert c[0..20] == head && c[20..32] == sizes;
    assert c[0..8] == head[0..8] == W64(r.id) && c[8..12] == head[8..12] == WI32(r.minX);
    assert c[12..16] == head[12..16] == WI32(r.minZ) && c[16..18] == head[16..18] == WI16(r.surfaceY);
    assert c[18..20] == head[18..20] == W16(r.flags) && c[20..24] == sizes[0..4] == W32(r.width);
    assert c[24..28] == sizes[4..8] == W32(r.depth) && c[28..32] == sizes[8..12] == W32(r.activeRevision);
    assert c[32..48] == r.contentHash && c[48..56] == W64(r.slot);
  }

  lemma AtRecord(b: bytes, i: nat, r: Record)
    requires i + 56 <= |b| && b[i..i + 56] == WriteRecord(r)
    ensures HoldsRecord(b, i, r)
  {
    hide W16, W32, W64, WI16, WI32, WriteRecord, Holds16, Holds32, Holds64, HoldsI16, HoldsI32;
    RecordFields(r);
    SubSlice(b, i, 56, 0, 8);
    SubSlice(b, i, 56, 8, 12);
    SubSlice(b, i, 56, 12, 16);
    SubSlice(b, i, 56, 16, 18);
    SubSlice(b, i, 56, 18, 20);
    SubSlice(b, i, 56, 20, 24);
    SubSlice(b, i, 56, 24, 28);
    SubSlice(b, i, 56, 28, 32);
    SubSlice(b, i, 56, 32, 48);
    SubSlice(b, i, 56, 48, 56);
    At64(b, i, r.id);
    AtI32(b, i + 8, r.minX);
    AtI32(b, i + 12, r.minZ);
    AtI16(b, i + 16, r.surfaceY);
    At16(b, i + 18, r.flags);
    At32(b, i + 20, r.width);
    At32(b, i + 24, r.depth);
    At32(b, i + 28, r.activeRevision);
    At64(b, i + 48, r.slot);
  }

  /** The bytes that the hash of a manifest is taken of: all records, each whole, by ascending id. */
  lemma HashedLayout(sha: Sha, store: Store, keys: seq<u64>, i: nat)
    requires keys == SortedKeys(store.Keys) && i < |keys|
    ensures var b := WriteAll(WriteRecord, Ordered(store));
      && DigestOf(sha, store) == sha(b) && |b| == |keys| * 56
      && keys[i] in store && HoldsRecord(b, i * 56, store[keys[i]])
    ensures |keys| == |store| && Ascending(keys) && forall k :: k in keys <==> k in store
  {
    hide WriteRecord, HoldsRecord, WriteAll, SortedKeys;
    SortedKeysAscend(store.Keys);
    assert |store| == |store.Keys| && keys[i] in keys;
    WriteAllSize(WriteRecord, Ordered(store), 56);
    ItemAt(WriteRecord, Ordered(store), 56, i, i * 56);
    AtRecord(WriteAll(WriteRecord, Ordered(store)), i * 56, store[keys[i]]);
  }

  lemma AnnounceLayout(r: Record)
    ensures var b := EncodeAnnounce(r); |b| == 57 && b[0] == 0x53 && HoldsRecord(b, 1, r)
  {
    hide WriteRecord, HoldsRecord;
    assert EncodeAnnounce(r)[1..57] == WriteRecord(r);
    AtRecord(EncodeAnnounce(r), 1, r);
  }

  lemma RequestLayout(knownRevision: u64)
    ensures var b := EncodeRequest(knownRevision); |b| == 9 && b[0] == 0x51 && Holds64(b, 1, knownRevision)
  {
    hide W64, Holds64;
    assert EncodeRequest(knownRevision)[1..9] == W64(knownRevision);
    At64(EncodeRequest(knownRevision), 1, knownRevision);
  }

  lemma DigestLayout(cfg: Config, m: Manifest)
    requires |m.records| <= 1_000_000
    ensures var b := DigestBytes(cfg, m);
      && |b| == 38 && b[0] == 0x50 && b[1] == 3 && HoldsI32(b, 2, cfg.center.x / 100)
      && HoldsI32(b, 6, cfg.center.z / 100) && Holds64(b, 10, m.revision) && Holds32(b, 18, |m.records|)
      && HoldsBytes(b, 22, m.hash)
  {
    FloorDivIsFloor(cfg.center.x);
    FloorDivIsFloor(cfg.center.z);
    hide W32, W64, WI32, Holds32, Holds64, HoldsI32;
    var b, head := DigestBytes(cfg, m), WI32(RegionX(cfg)) + WI32(RegionZ(cfg));
    var tail := W64(m.revision) + W32(WrapU32(|m.records|)) + m.hash;
    assert b[2..10] == head && b[10..38] == tail;
    assert b[2..6] == head[0..4] == WI32(RegionX(cfg)) && b[6..10] == head[4..8] == WI32(RegionZ(cfg));
    assert b[10..18] == tail[0..8] == W64(m.revision) && b[18..22] == tail[8..12] == W32(WrapU32(|m.records|));
    assert b[22..38] == tail[12..28] == m.hash;
    AtI32(b, 2, RegionX(cfg));
    AtI32(b, 6, RegionZ(cfg));
    At64(b, 10, m.revision);
    At32(b, 18, |m.records|);
  }

  lemma PageHeaderLayout(cfg: Config, m: Manifest, page: u16, pageCount: u16, count: nat)
    requires |m.records| <= 1_000_000 && count <= 128
    ensures var b := PageHeader(cfg, m, page, pageCount, count);
      && |b| == 44 && b[0] == 0x52 && b[1] == 3 && Holds16(b, 2, page) && Holds16(b, 4, pageCount)
      && Holds16(b, 6, count) && Holds32(b, 8, |m.records|) && HoldsI32(b, 12, cfg.center.x / 100)
      && HoldsI32(b, 16, cfg.center.z / 100) && Holds64(b, 20, m.revision) && HoldsBytes(b, 28, m.hash)
  {
    FloorDivIsFloor(cfg.center.x);
    FloorDivIsFloor(cfg.center.z);
    hide W16, W32, W64, WI32, Holds16, Holds32, Holds64, HoldsI32;
    var b, n := PageHeader(cfg, m, page, pageCount, count), WrapU32(|m.records|);
    var head := [MSG_BUILDING_MANIFEST_PAGE, 3] + W16(page) + W16(pageCount) + W16(WrapU16(count)) + W32(n);
    var tail := WI32(RegionX(cfg)) + WI32(RegionZ(cfg)) + W64(m.revision) + m.hash;
    assert b == head + tail && |head| == 12;
    assert b[2..4] == head[2..4] == W16(page) && b[4..6] == head[4..6] == W16(pageCount);
    assert b[6..8] == head[6..8] == W16(WrapU16(count)) && b[8..12] == head[8..12] == W32(n);
    assert b[12..16] == tail[0..4] == WI32(RegionX(cfg)) && b[16..20] == tail[4..8] == WI32(RegionZ(cfg));
    assert b[20..28] == tail[8..16] == W64(m.revision) && b[28..44] == tail[16..32] == m.hash;
    At16(b, 2, page);
    At16(b, 4, pageCount);
    At16(b, 6, count);
    At32(b, 8, |m.records|);
    AtI32(b, 12, RegionX(cfg));
    AtI32(b, 16, RegionZ(cfg));
    At64(b, 20, m.revision);
  }

  /** "NCKBRG0" and the digit of the version, in ASCII. */
  lemma FileHeaderLayout(cfg: Config, version: nat, revision: u64, count: u32, hash: Hash16)
    requires 1 <= version <= 3
    ensures var b := Header(cfg, version, revision, count, hash);
      && |b| == 48 && b[..7] == [78, 67, 75, 66, 82, 71, 48] && b[7] == 48 + version && Holds16(b, 8, version)
      && Holds16(b, 10, if version == 1 then 48 else 56) && HoldsI32(b, 12, cfg.center.x / 100)
      && HoldsI32(b, 16, cfg.center.z / 100) && Holds64(b, 20, revision) && Holds32(b, 28, count)
      && HoldsBytes(b, 32, hash)
  {
    FloorDivIsFloor(cfg.center.x);
    FloorDivIsFloor(cfg.center.z);
    hide W16, W32, W64, WI32, Holds16, Holds32, Holds64, HoldsI32;
    var b := Header(cfg, version, revision, count, hash);
    var head := Magic(version) + W16(version) + W16(RecordSize(version)) + WI32(RegionX(cfg)) + WI32(RegionZ(cfg));
    var tail := W64(revision) + W32(count) + hash;
    assert b == head + tail && |head| == 20;
    assert b[..7] == head[..7] && b[7] == head[7] && b[8..10] == head[8..10] == W16(version);
    assert b[10..12] == head[10..12] == W16(RecordSize(version));
    assert b[12..16] == head[12..16] == WI32(RegionX(cfg)) && b[16..20] == head[16..20] == WI32(RegionZ(cfg));
    assert b[20..28] == tail[0..8] == W64(revision) && b[28..32] == tail[8..12] == W32(count);
    assert b[32..48] == tail[12..28] == hash;
    At16(b, 8, version);
    At16(b, 10, RecordSize(version));
    AtI32(b, 12, RegionX(cfg));
    AtI32(b, 16, RegionZ(cfg));
    At64(b, 20, revision);
    At32(b, 28, count);
  }
}
