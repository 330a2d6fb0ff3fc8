/** Binary frames of the protocol (protocol.h, protocol.cpp). */
module Wire {
  import opened Ints

  const PROTOCOL_VERSION: u8 := 1
  const MSG_HELLO: u8 := 0x01
  const MSG_HELLO_ACK: u8 := 0x02
  const MSG_ERROR: u8 := 0x03
  const MSG_MOVE: u8 := 0x10
  const MSG_MOVE_BATCH: u8 := 0x11
  const MSG_DIG: u8 := 0x20
  const MSG_DIG_EVENT: u8 := 0x21
  const MSG_DIG_BATCH: u8 := 0x22
  const MSG_DIG_EVENT_BATCH: u8 := 0x23
  const MSG_PLAYER_JOIN: u8 := 0x30
  const MSG_PLAYER_LEAVE: u8 := 0x31
  const MSG_BUILDING_MANIFEST_PAGE: u8 := 0x52
  const MSG_BUILDING_ANNOUNCE: u8 := 0x53

  const ERROR_BAD_PROTOCOL: u16 := 1
  const ERROR_NOT_HELLO: u16 := 2
  const ERROR_OUT_OF_RANGE: u16 := 3
  const ERROR_BAD_PAYLOAD_LENGTH: u16 := 4
  const ERROR_RATE_LIMIT: u16 := 5
  const ERROR_SERVER_FULL: u16 := 7
  const ERROR_BAD_DIG_SEQ: u16 := 9

  datatype Pose = Pose(x: u16, y: u16, z: u16, yaw: u8, pitch: i8)

  datatype Hello = Hello(version: u8, flags: u16, wallet: Wallet, startX: i32, startZ: i32, nonce: u64)

  datatype Move = Move(lx: u8, lz: u8, pose: Pose, tick: u16)

  datatype MoveItem = MoveItem(id: u16, lx: u8, lz: u8, pose: Pose)

  datatype Dig = Dig(seqNo: u16, lx: u8, lz: u8, blockX: u8, blockY: u16, blockZ: u8, action: u8, tool: u8)

  datatype DigEvent = DigEvent(
    id: u16, seqNo: u16, lx: u8, lz: u8, blockX: u8, blockY: u16, blockZ: u8, action: u8, tick: u16)

  datatype PlayerJoin = PlayerJoin(
    id: u16, ownerHash: u32, fingerprint: u64, wallet: Wallet, lx: u8, lz: u8, pose: Pose)

  datatype PlayerLeave = PlayerLeave(id: u16, reason: u8, ownerHash: u32, fingerprint: u64, wallet: Wallet)

  datatype HelloAck = HelloAck(
    version: u8, id: u16, flags: u16, centerX: i32, centerZ: i32, serviceRadius: u16, aoiRadius: u8,
    indexMode: u8, tick: u16)

  type FewItems = s: seq<MoveItem> | |s| <= 255

  predicate OtherType(t: u8) { t !in [MSG_HELLO_ACK, MSG_ERROR, MSG_MOVE_BATCH, MSG_PLAYER_JOIN, MSG_PLAYER_LEAVE] }

  /** The bytes of a frame of any other type. */
  type OtherBytes = b: bytes | b != [] && OtherType(b[0]) witness [MSG_DIG_EVENT]

  /** The server-to-client frames: those that concern a client's picture of the other players, and the rest. */
  datatype Frame =
    | Ack(ack: HelloAck)
    | Join(join: PlayerJoin)
    | Leave(leave: PlayerLeave)
    | MoveBatch(tick: u16, items: FewItems)
    | Error(code: u16)
    | Other(payload: OtherBytes)

  // ---------------------------------------------------------------- fixed-size item lists

  /** A header followed by count items of equal size. */
  predicate Sized(b: bytes, header: nat, count: nat, size: nat) { |b| == header + count * size }

  /** Items written one after another. */
  function WriteAll<T>(write: T -> bytes, items: seq<T>): bytes {
    if items == [] then [] else write(items[0]) + WriteAll(write, items[1..])
  }

  /** n items of size bytes each, read one after another. */
  function ReadAll<T>(read: bytes -> T, b: bytes, size: nat, n: nat): (items: seq<T>)
    requires |b| == n * size
    ensures |items| == n
  {
    if n == 0 then []
    else
      assert (n - 1) * size == n * size - size;
      [read(b[..size])] + ReadAll(read, b[size..], size, n - 1)
  }

  lemma {:induction false} WriteAllSize<T>(write: T -> bytes, items: seq<T>, size: nat)
    requires forall x :: x in items ==> |write(x)| == size
    ensures |WriteAll(write, items)| == |items| * size
  {
    if items != [] {
      WriteAllSize(write, items[1..], size);
      assert (|items| - 1) * size == |items| * size - size;
    }
  }

  lemma {:induction false} ReadAllOfWriteAll<T>(write: T -> bytes, read: bytes -> T, items: seq<T>, size: nat)
    requires forall x :: x in items ==> |write(x)| == size && read(write(x)) == x
    ensures |WriteAll(write, items)| == |items| * size
    ensures ReadAll(read, WriteAll(write, items), size, |items|) == items
  {
    WriteAllSize(write, items, size);
    if items != [] {
      ReadAllOfWriteAll(write, read, items[1..], size);
      var b := WriteAll(write, items);
      assert b[..size] == write(items[0]) && b[size..] == WriteAll(write, items[1..]);
    }
  }

  lemma WriteAllMore<T>(write: T -> bytes, first: T, rest: seq<T>)
    ensures WriteAll(write, [first] + rest) == write(first) + WriteAll(write, rest)
  {
    assert ([first] + rest)[1..] == rest;
  }

  lemma {:induction false} WriteAllOfReadAll<T>(write: T -> bytes, read: bytes -> T, b: bytes, size: nat, n: nat)
    requires |b| == n * size
    requires forall s: bytes :: |s| == size ==> write(read(s)) == s
    ensures WriteAll(write, ReadAll(read, b, size, n)) == b
  {
    if n > 0 {
      assert (n - 1) * size == n * size - size;
      var head, tail := b[..size], b[size..];
      assert ReadAll(read, b, size, n) == [read(head)] + ReadAll(read, tail, size, n - 1);
      hide ReadAll, WriteAll;
      WriteAllOfReadAll(write, read, tail, size, n - 1);
      WriteAllMore(write, read(head), ReadAll(read, tail, size, n - 1));
      assert b == head + tail;
    }
  }

  lemma ItemFits(size: nat, n: nat, i: nat)
    requires i < n
    ensures i * size + size <= n * size
    ensures (n - 1) * size == n * size - size && (i + 1) * size == i * size + size
  {
    assert (n - 1 - i) * size >= 0;
  }

  lemma SliceShift(b: bytes, k: nat, lo: nat, hi: nat)
    requires lo <= hi && k + hi <= |b|
    ensures b[k..][lo..hi] == b[k + lo..k + hi]
  {
  }

  lemma ReadAllStep<T>(read: bytes -> T, b: bytes, size: nat, n: nat, i: nat)
    requires |b| == n * size && size <= |b| && |b[size..]| == (n - 1) * size && i < n
    ensures ReadAll(read, b, size, n)[i]
         == if i == 0 then read(b[..size]) else ReadAll(read, b[size..], size, n - 1)[i - 1]
  {
  }

  /** The i-th item stands i * size bytes in. */
  lemma {:induction false} ReadAllAt<T>(read: bytes -> T, b: bytes, size: nat, n: nat, i: nat, at: nat)
    requires |b| == n * size && i < n && at == i * size
    ensures at + size <= |b| && ReadAll(read, b, size, n)[i] == read(b[at..at + size])
  {
    ItemFits(size, n, i);
    ReadAllStep(read, b, size, n, i);
    if i > 0 {
      ItemFits(size, n, i - 1);
      ReadAllAt(read, b[size..], size, n - 1, i - 1, at - size);
      SliceShift(b, size, at - size, at);
    }
  }

  lemma {:induction false} WriteAllConcat<T>(write: T -> bytes, a: seq<T>, b: seq<T>)
    ensures WriteAll(write, a + b) == WriteAll(write, a) + WriteAll(write, b)
  {
    if a == [] {
      assert a + b == b;
    } else {
      WriteAllConcat(write, a[1..], b);
      WriteAllCons(write, a[0], a[1..] + b);
      WriteAllCons(write, a[0], a[1..]);
      assert a + b == [a[0]] + (a[1..] + b) && a == [a[0]] + a[1..];
      Associates(write(a[0]), WriteAll(write, a[1..]), WriteAll(write, b));
    }
  }

  lemma Associates<T>(a: seq<T>, b: seq<T>, c: seq<T>)
    ensures (a + b) + c == a + (b + c)
  {
  }

  lemma WriteAllCons<T>(write: T -> bytes, x: T, items: seq<T>)
    ensures WriteAll(write, [x] + items) == write(x) + WriteAll(write, items)
  {
    assert ([x] + items)[1..] == items;
  }

  // ---------------------------------------------------------------- HELLO

  function EncodeHello(h: Hello): (b: bytes)
    ensures |b| == 52
  {
    ([MSG_HELLO, h.version] + W16(h.flags) + h.wallet) + (WI32(h.startX) + WI32(h.startZ) + W64(h.nonce))
  }

  function DecodeHello(b: bytes): Option<Hello> {
    if |b| != 52 || b[0] != MSG_HELLO then None
    else
      var h := Hello(b[1], R16(b[2..4]), b[4..36], RI32(b[36..40]), RI32(b[40..44]), R64(b[44..52]));
      if h.version == PROTOCOL_VERSION then Some(h) else None
  }

  lemma HelloFields(h: Hello)
    ensures var b := EncodeHello(h);
      && b[0] == MSG_HELLO && b[1] == h.version && b[2..4] == W16(h.flags) && b[4..36] == h.wallet
      && b[36..40] == WI32(h.startX) && b[40..44] == WI32(h.startZ) && b[44..52] == W64(h.nonce)
  {
    var head := [MSG_HELLO, h.version] + W16(h.flags) + h.wallet;
    var tail := WI32(h.startX) + WI32(h.startZ) + W64(h.nonce);
    var b := EncodeHello(h);
    assert b == head + tail && |head| == 36;
    assert head[2..4] == W16(h.flags) && head[4..36] == h.wallet;
    assert tail[0..4] == WI32(h.startX) && tail[4..8] == WI32(h.startZ) && tail[8..16] == W64(h.nonce);
    assert b[2..4] == head[2..4] && b[4..36] == head[4..36];
    assert b[36..40] == tail[0..4] && b[40..44] == tail[4..8] && b[44..52] == tail[8..16];
  }

  lemma HelloRoundTrip(h: Hello)
    ensures DecodeHello(EncodeHello(h)) == if h.version == PROTOCOL_VERSION then Some(h) else None
  {
    hide EncodeHello, W16, W64, WI32, R16, RI32, R64;
    HelloFields(h);
    Inverse16(h.flags, 0);
    Inverse32(0, h.startX);
    Inverse32(0, h.startZ);
    Inverse64(h.nonce);
  }

  lemma HelloCanonical(b: bytes)
    requires DecodeHello(b).Some?
    ensures EncodeHello(DecodeHello(b).value) == b
  {
    hide W16, W32, W64, WI32, R16, R32, R64, RI32;
    Rewrite16(b[2..4]);
    Rewrite32(b[36..40]);
    Rewrite32(b[40..44]);
    Rewrite64(b[44..52]);
    assert b == ([b[0], b[1]] + b[2..4] + b[4..36]) + (b[36..40] + b[40..44] + b[44..52]);
  }

  // ---------------------------------------------------------------- poses, MOVE, MOVE_BATCH

  function WritePose(p: Pose): (b: bytes)
    ensures |b| == 8
  {
    W16(p.x) + W16(p.y) + W16(p.z) + [p.yaw, WrapU8(p.pitch)]
  }

  function ReadPose(b: bytes): Pose
    requires |b| == 8
  {
    Pose(R16(b[0..2]), R16(b[2..4]), R16(b[4..6]), b[6], WrapI8(b[7]))
  }

  lemma PoseInverse(p: Pose)
    ensures ReadPose(WritePose(p)) == p
  {
    var b := WritePose(p);
    assert b[0..2] == W16(p.x) && b[2..4] == W16(p.y) && b[4..6] == W16(p.z);
    Inverse16(p.x, 0);
    Inverse16(p.y, 0);
    Inverse16(p.z, 0);
  }

  lemma SignByte(n: u8)
    ensures WrapU8(WrapI8(n)) == n
  {
  }

  lemma PoseRewrite(b: bytes)
    requires |b| == 8
    ensures WritePose(ReadPose(b)) == b
  {
    Rewrite16(b[0..2]);
    Rewrite16(b[2..4]);
    Rewrite16(b[4..6]);
    SignByte(b[7]);
    assert b == b[0..2] + b[2..4] + b[4..6] + [b[6], b[7]];
  }

  function EncodeMove(m: Move): (b: bytes)
    ensures |b| == 13
  {
    [MSG_MOVE, m.lx, m.lz] + WritePose(m.pose) + W16(m.tick)
  }

  function DecodeMove(b: bytes): Option<Move> {
    if |b| != 13 || b[0] != MSG_MOVE then None
    else Some(Move(b[1], b[2], ReadPose(b[3..11]), R16(b[11..13])))
  }

  lemma MoveRoundTrip(m: Move)
    ensures DecodeMove(EncodeMove(m)) == Some(m)
  {
    var b := EncodeMove(m);
    assert b[3..11] == WritePose(m.pose) && b[11..13] == W16(m.tick);
    PoseInverse(m.pose);
    Inverse16(m.tick, 0);
  }

  lemma MoveCanonical(b: bytes)
    requires DecodeMove(b).Some?
    ensures EncodeMove(DecodeMove(b).value) == b
  {
    PoseRewrite(b[3..11]);
    Rewrite16(b[11..13]);
    assert b == [b[0], b[1], b[2]] + b[3..11] + b[11..13];
  }

  function WriteMoveItem(m: MoveItem): (b: bytes)
    ensures |b| == 12
  {
    W16(m.id) + [m.lx, m.lz] + WritePose(m.pose)
  }

  function ReadMoveItem(b: bytes): MoveItem {
    if |b| != 12 then MoveItem(0, 0, 0, Pose(0, 0, 0, 0, 0))
    else MoveItem(R16(b[0..2]), b[2], b[3], ReadPose(b[4..12]))
  }

  lemma MoveItemInverse(m: MoveItem)
    ensures ReadMoveItem(WriteMoveItem(m)) == m
  {
    var b := WriteMoveItem(m);
    assert b[0..2] == W16(m.id) && b[4..12] == WritePose(m.pose);
    Inverse16(m.id, 0);
    PoseInverse(m.pose);
  }

  function MoveBatchBytes(tick: u16, items: seq<MoveItem>): bytes {
    [MSG_MOVE_BATCH] + W16(tick) + [WrapU8(|items|)] + WriteAll(WriteMoveItem, items)
  }

  method EncodeMoveBatch(tick: u16, items: seq<MoveItem>) returns (out: bytes)
    ensures out == MoveBatchBytes(tick, if |items| > 255 then items[..255] else items)
  {
    var count := if |items| > 255 then 255 else |items|;
    ghost var sent := items[..count];
    out := [MSG_MOVE_BATCH] + W16(tick) + [WrapU8(count)];
    ghost var header := out;
    var i := 0;
    while i < count
      invariant 0 <= i <= count
      invariant out + WriteAll(WriteMoveItem, sent[i..]) == header + WriteAll(WriteMoveItem, sent)
    {
      assert sent[i..][0] == items[i] && sent[i..][1..] == sent[i + 1..];
      ghost var rest := WriteAll(WriteMoveItem, sent[i + 1..]);
      assert (out + WriteMoveItem(items[i])) + rest == out + (WriteMoveItem(items[i]) + rest);
      out := out + WriteMoveItem(items[i]);
      i := i + 1;
    }
    assert |items| <= 255 ==> sent == items;
  }

  // ---------------------------------------------------------------- DIG, DIG_BATCH, DIG_EVENT_BATCH

  function WriteDigItem(d: Dig): (b: bytes)
    ensures |b| == 10
  {
    W16(d.seqNo) + [d.lx, d.lz, d.blockX] + W16(d.blockY) + [d.blockZ, d.action, d.tool]
  }

  function ReadDigItem(b: bytes): Dig {
    if |b| != 10 then Dig(0, 0, 0, 0, 0, 0, 0, 0)
    else Dig(R16(b[0..2]), b[2], b[3], b[4], R16(b[5..7]), b[7], b[8], b[9])
  }

  lemma DigItemInverse(d: Dig)
    ensures ReadDigItem(WriteDigItem(d)) == d
  {
    var b := WriteDigItem(d);
    assert b[0..2] == W16(d.seqNo) && b[5..7] == W16(d.blockY);
    Inverse16(d.seqNo, 0);
    Inverse16(d.blockY, 0);
  }

  lemma DigItemRewrite(b: bytes)
    requires |b| == 10
    ensures WriteDigItem(ReadDigItem(b)) == b
  {
    Rewrite16(b[0..2]);
    Rewrite16(b[5..7]);
    assert b == b[0..2] + [b[2], b[3], b[4]] + b[5..7] + [b[7], b[8], b[9]];
  }

  function EncodeDig(d: Dig): bytes { [MSG_DIG] + WriteDigItem(d) }

  function DecodeDig(b: bytes): Option<Dig> {
    if |b| != 11 || b[0] != MSG_DIG then None else Some(ReadDigItem(b[1..11]))
  }

  lemma DigRoundTrip(d: Dig)
    ensures DecodeDig(EncodeDig(d)) == Some(d)
  {
    assert EncodeDig(d)[1..11] == WriteDigItem(d);
    DigItemInverse(d);
  }

  lemma DigCanonical(b: bytes)
    requires DecodeDig(b).Some?
    ensures EncodeDig(DecodeDig(b).value) == b
  {
    DigItemRewrite(b[1..11]);
    assert b == [b[0]] + b[1..11];
  }

  /** What encode_dig_batch writes for at most 255 items. */
  function DigBatchBytes(digs: seq<Dig>): bytes {
    [MSG_DIG_BATCH, WrapU8(|digs|)] + WriteAll(WriteDigItem, digs)
  }

  predicate IsDigBatch(b: bytes) {
    |b| >= 2 && b[0] == MSG_DIG_BATCH && b[1] != 0 && Sized(b, 2, b[1], 10)
  }

  function DigsOf(b: bytes): seq<Dig>
    requires IsDigBatch(b)
  {
    ReadAll(ReadDigItem, b[2..], 10, b[1])
  }

  method DecodeDigBatch(b: bytes) returns (ok: bool, digs: seq<Dig>)
    ensures ok == IsDigBatch(b)
    ensures ok ==> digs == DigsOf(b)
    ensures !ok ==> digs == []
  {
    digs := [];
    if |b| < 2 || b[0] != MSG_DIG_BATCH {
      return false, [];
    }
    var count := b[1];
    if count == 0 || !Sized(b, 2, count, 10) {
      return false, [];
    }
    ok := true;
    var offset: nat := 2;
    var i: nat := 0;
    while i < count
      invariant 0 <= i <= count && offset == 2 + i * 10
      invariant digs == DigsOf(b)[..i]
    {
      ReadAllAt(ReadDigItem, b[2..], 10, count, i, i * 10);
      SliceShift(b, 2, i * 10, i * 10 + 10);
      digs := digs + [ReadDigItem(b[offset..offset + 10])];
      offset := offset + 10;
      i := i + 1;
    }
  }

  /** Every non-empty list of at most 255 digs survives the wire, and only those do. */
  lemma DigBatchRoundTrip(digs: seq<Dig>)
    requires |digs| <= 255
    ensures IsDigBatch(DigBatchBytes(digs)) <==> digs != []
    ensures digs != [] ==> DigsOf(DigBatchBytes(digs)) == digs
  {
    forall d: Dig
      ensures ReadDigItem(WriteDigItem(d)) == d
    {
      DigItemInverse(d);
    }
    ReadAllOfWriteAll(WriteDigItem, ReadDigItem, digs, 10);
    var b := DigBatchBytes(digs);
    assert b[2..] == WriteAll(WriteDigItem, digs);
  }

  lemma DigBatchCanonical(b: bytes)
    requires IsDigBatch(b)
    ensures DigBatchBytes(DigsOf(b)) == b
  {
    hide ReadAll, WriteAll;
    DigsRewrite(b[2..], b[1]);
    assert b == [b[0], b[1]] + b[2..];
  }

  lemma DigsRewrite(body: bytes, n: nat)
    requires |body| == n * 10
    ensures WriteAll(WriteDigItem, ReadAll(ReadDigItem, body, 10, n)) == body
  {
    hide WriteDigItem, ReadDigItem;
    forall s: bytes | |s| == 10
      ensures WriteDigItem(ReadDigItem(s)) == s
    {
      DigItemRewrite(s);
    }
    WriteAllOfReadAll(WriteDigItem, ReadDigItem, body, 10, n);
  }

  function EncodeDigEvent(e: DigEvent): (b: OtherBytes)
    ensures |b| == 14
  {
    [MSG_DIG_EVENT] + W16(e.id) + W16(e.seqNo) + [e.lx, e.lz, e.blockX] + W16(e.blockY) + [e.blockZ, e.action]
    + W16(e.tick)
  }

  function ParseDigEvent(b: bytes): Option<DigEvent> {
    if |b| != 14 || b[0] != MSG_DIG_EVENT then None
    else Some(DigEvent(R16(b[1..3]), R16(b[3..5]), b[5], b[6], b[7], R16(b[8..10]), b[10], b[11], R16(b[12..14])))
  }

  lemma DigEventParses(e: DigEvent)
    ensures ParseDigEvent(EncodeDigEvent(e)) == Some(e)
  {
    var b := EncodeDigEvent(e);
    assert b[1..3] == W16(e.id) && b[3..5] == W16(e.seqNo) && b[8..10] == W16(e.blockY) && b[12..14] == W16(e.tick);
    Inverse16(e.id, 0);
    Inverse16(e.seqNo, 0);
    Inverse16(e.blockY, 0);
    Inverse16(e.tick, 0);
  }

  function WriteDigEventItem(e: DigEvent): (b: bytes)
    ensures |b| == 9
  {
    W16(e.seqNo) + [e.lx, e.lz, e.blockX] + W16(e.blockY) + [e.blockZ, e.action]
  }

  /** What a client recovers from one item: the player and the tick stand in the frame header. */
  function ReadDigEventItem(id: u16, tick: u16, b: bytes): DigEvent {
    if |b| != 9 then DigEvent(0, 0, 0, 0, 0, 0, 0, 0, 0)
    else DigEvent(id, R16(b[0..2]), b[2], b[3], b[4], R16(b[5..7]), b[7], b[8], tick)
  }

  function DigEventBatchBytes(id: u16, tick: u16, events: seq<DigEvent>): OtherBytes {
    [MSG_DIG_EVENT_BATCH] + W16(id) + W16(tick) + [WrapU8(|events|)] + WriteAll(WriteDigEventItem, events)
  }

  function ParseDigEventBatch(b: bytes): Option<seq<DigEvent>> {
    if |b| < 6 || b[0] != MSG_DIG_EVENT_BATCH || !Sized(b, 6, b[5], 9) then None
    else
      var id, tick := R16(b[1..3]), R16(b[3..5]);
      Some(ReadAll(s => ReadDigEventItem(id, tick, s), b[6..], 9, b[5]))
  }

  lemma DigEventItemReads(e: DigEvent)
    ensures ReadDigEventItem(e.id, e.tick, WriteDigEventItem(e)) == e
  {
    hide W16, R16;
    var s := WriteDigEventItem(e);
    assert s[0..2] == W16(e.seqNo) && s[5..7] == W16(e.blockY);
    Inverse16(e.seqNo, 0);
    Inverse16(e.blockY, 0);
  }

  lemma DigEventBatchParses(id: u16, tick: u16, events: seq<DigEvent>)
    requires |events| <= 255
    requires forall e :: e in events ==> e.id == id && e.tick == tick
    ensures ParseDigEventBatch(DigEventBatchBytes(id, tick, events)) == Some(events)
  {
    hide W16, R16, WriteAll, ReadAll, ReadDigEventItem;
    var b := DigEventBatchBytes(id, tick, events);
    assert b[1..3] == W16(id) && b[3..5] == W16(tick) && b[6..] == WriteAll(WriteDigEventItem, events);
    Inverse16(id, 0);
    Inverse16(tick, 0);
    var read := s => ReadDigEventItem(id, tick, s);
    forall e | e in events
      ensures read(WriteDigEventItem(e)) == e
    {
      DigEventItemReads(e);
    }
    ReadAllOfWriteAll(WriteDigEventItem, read, events, 9);
    assert ParseDigEventBatch(b) == Some(ReadAll(read, b[6..], 9, |events|));
  }

  // ---------------------------------------------------------------- server-to-client frames

  function EncodeAck(a: HelloAck): bytes {
    ([MSG_HELLO_ACK, a.version] + W16(a.id) + W16(a.flags) + WI32(a.centerX))
    + (WI32(a.centerZ) + W16(a.serviceRadius) + [a.aoiRadius, a.indexMode] + W16(a.tick))
  }

  function EncodeJoin(j: PlayerJoin): bytes {
    [MSG_PLAYER_JOIN] + W16(j.id) + W32(j.ownerHash) + W64(j.fingerprint) + j.wallet + [j.lx, j.lz] + WritePose(j.pose)
  }

  function EncodeLeave(l: PlayerLeave): bytes {
    [MSG_PLAYER_LEAVE] + W16(l.id) + [l.reason] + W32(l.ownerHash) + W64(l.fingerprint) + l.wallet
  }

  function EncodeFrame(f: Frame): bytes {
    match f
    case Ack(a) => EncodeAck(a)
    case Join(j) => EncodeJoin(j)
    case Leave(l) => EncodeLeave(l)
    case MoveBatch(tick, items) => MoveBatchBytes(tick, items)
    case Error(code) => [MSG_ERROR] + W16(code)
    case Other(payload) => payload
  }

  /** The client's reading of a frame, by its type byte and its size. */
  function ParseFrame(b: bytes): Option<Frame> {
    if |b| == 20 && b[0] == MSG_HELLO_ACK then
      Some(Ack(HelloAck(b[1], R16(b[2..4]), R16(b[4..6]), RI32(b[6..10]), RI32(b[10..14]), R16(b[14..16]),
                        b[16], b[17], R16(b[18..20]))))
    else if |b| == 57 && b[0] == MSG_PLAYER_JOIN then
      Some(Join(PlayerJoin(R16(b[1..3]), R32(b[3..7]), R64(b[7..15]), b[15..47], b[47], b[48], ReadPose(b[49..57]))))
    else if |b| == 48 && b[0] == MSG_PLAYER_LEAVE then
      Some(Leave(PlayerLeave(R16(b[1..3]), b[3], R32(b[4..8]), R64(b[8..16]), b[16..48])))
    else if |b| >= 4 && b[0] == MSG_MOVE_BATCH && Sized(b, 4, b[3], 12) then
      Some(MoveBatch(R16(b[1..3]), ReadAll(ReadMoveItem, b[4..], 12, b[3])))
    else if |b| == 3 && b[0] == MSG_ERROR then
      Some(Error(R16(b[1..3])))
    else if b != [] && OtherType(b[0]) then Some(Other(b))
    else None
  }

  lemma AckParses(a: HelloAck)
    ensures ParseFrame(EncodeAck(a)) == Some(Ack(a))
  {
    var head := [MSG_HELLO_ACK, a.version] + W16(a.id) + W16(a.flags) + WI32(a.centerX);
    var tail := WI32(a.centerZ) + W16(a.serviceRadius) + [a.aoiRadius, a.indexMode] + W16(a.tick);
    var b := EncodeAck(a);
    assert b == head + tail && |head| == 10;
    assert head[2..4] == W16(a.id) && head[4..6] == W16(a.flags) && head[6..10] == WI32(a.centerX);
    assert tail[0..4] == WI32(a.centerZ) && tail[4..6] == W16(a.serviceRadius) && tail[8..10] == W16(a.tick);
    assert b[2..4] == head[2..4] && b[4..6] == head[4..6] && b[6..10] == head[6..10];
    assert b[10..14] == tail[0..4] && b[14..16] == tail[4..6] && b[18..20] == tail[8..10];
    Inverse16(a.id, 0);
    Inverse16(a.flags, 0);
    Inverse32(0, a.centerX);
    Inverse32(0, a.centerZ);
    Inverse16(a.serviceRadius, 0);
    Inverse16(a.tick, 0);
  }

  lemma JoinParses(j: PlayerJoin)
    ensures ParseFrame(EncodeJoin(j)) == Some(Join(j))
  {
    var b := EncodeJoin(j);
    assert b[1..3] == W16(j.id) && b[3..7] == W32(j.ownerHash) && b[7..15] == W64(j.fingerprint);
    assert b[15..47] == j.wallet && b[49..57] == WritePose(j.pose);
    Inverse16(j.id, 0);
    Inverse32(j.ownerHash, 0);
    Inverse64(j.fingerprint);
    PoseInverse(j.pose);
  }

  lemma LeaveParses(l: PlayerLeave)
    ensures ParseFrame(EncodeLeave(l)) == Some(Leave(l))
  {
    var b := EncodeLeave(l);
    assert b[1..3] == W16(l.id) && b[4..8] == W32(l.ownerHash) && b[8..16] == W64(l.fingerprint);
    assert b[16..48] == l.wallet;
    Inverse16(l.id, 0);
    Inverse32(l.ownerHash, 0);
    Inverse64(l.fingerprint);
  }

  lemma MoveItemsRead(items: seq<MoveItem>)
    ensures |WriteAll(WriteMoveItem, items)| == |items| * 12
    ensures ReadAll(ReadMoveItem, WriteAll(WriteMoveItem, items), 12, |items|) == items
  {
    forall m | m in items
      ensures ReadMoveItem(WriteMoveItem(m)) == m
    {
      MoveItemInverse(m);
    }
    ReadAllOfWriteAll(WriteMoveItem, ReadMoveItem, items, 12);
  }

  lemma MoveBatchParses(tick: u16, items: FewItems)
    ensures ParseFrame(MoveBatchBytes(tick, items)) == Some(MoveBatch(tick, items))
  {
    hide W16, R16, WriteAll, ReadAll, WriteMoveItem, ReadMoveItem, OtherType;
    var b := MoveBatchBytes(tick, items);
    MoveItemsRead(items);
    assert b[1..3] == W16(tick) && b[4..] == WriteAll(WriteMoveItem, items);
    Inverse16(tick, 0);
  }

  /** Every frame the server sends about players is recovered from its bytes. */
  lemma FrameParses(f: Frame)
    ensures ParseFrame(EncodeFrame(f)) == Some(f)
  {
    match f
    case Ack(a) => AckParses(a);
    case Join(j) => JoinParses(j);
    case Leave(l) => LeaveParses(l);
    case MoveBatch(tick, items) => MoveBatchParses(tick, items);
    case Error(code) =>
      assert EncodeFrame(f)[1..3] == W16(code);
      Inverse16(code, 0);
    case Other(_) =>
  }
}
