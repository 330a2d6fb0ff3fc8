/** The DIG_BATCH handler: all digs are checked, then each topic gets one frame (app.cpp). */
module DigBatch {
  import opened Ints
  import opened Chunks
  import opened Wire
  import opened RateLimit
  import opened Players
  import opened Batching
  import opened Guardian
  import opened Digs
  import opened DigWords

  type Events = Batches<DigEvent>

  function SeqOf(p: Player): SeqState
    reads p`hasDigSeq, p`lastDigSeq
  {
    SeqState(p.hasDigSeq, p.lastDigSeq)
  }

  function DiggerOf(p: Player, tick: u16): Digger
    reads p`chunk
  {
    Digger(p.id, p.chunk, tick)
  }

  function SenderOf(p: Player): Sender
    reads p`hasDigSeq, p`lastDigSeq, p`digWindow
  {
    Sender(SeqOf(p), p.digWindow)
  }

  method AcceptDigSeq(p: Player, d: Dig) returns (ok: bool)
    modifies p`hasDigSeq, p`lastDigSeq
    ensures ok == NewSeq(old(SeqOf(p)), d) && SeqOf(p) == SeqAfter(old(SeqOf(p)), d)
  {
    if p.hasDigSeq && p.lastDigSeq == d.seqNo {
      return false;
    }
    p.lastDigSeq := d.seqNo;
    p.hasDigSeq := true;
    return true;
  }

  lemma JudgeMore(cfg: Config, p: Digger, st: SeqState, digs: seq<Dig>, i: nat)
    requires i < |digs|
    ensures JudgeAll(cfg, p, st, digs[..i + 1]) == JudgeNext(cfg, p, JudgeAll(cfg, p, st, digs[..i]), digs[i])
  {
    assert digs[..i + 1][..i] == digs[..i];
  }

  lemma {:induction false} RefusedStays(cfg: Config, p: Digger, st: SeqState, digs: seq<Dig>, i: nat)
    requires i <= |digs| && JudgeAll(cfg, p, st, digs[..i]).refused.Some?
    ensures JudgeAll(cfg, p, st, digs) == JudgeAll(cfg, p, st, digs[..i])
    decreases |digs| - i
  {
    if i == |digs| {
      assert digs[..i] == digs;
    } else {
      JudgeMore(cfg, p, st, digs, i);
      RefusedStays(cfg, p, st, digs, i + 1);
    }
  }

  /** The checks, in order; the first refusal stops them. */
  method CheckDigs(cfg: Config, p: Player, tick: u16, digs: seq<Dig>)
    returns (refused: Option<u16>, targets: seq<Target>)
    requires Deployable(cfg) && Contains(cfg, p.chunk)
    modifies p`hasDigSeq, p`lastDigSeq
    ensures Outcome(SeqOf(p), refused, targets) == JudgeAll(cfg, DiggerOf(p, tick), old(SeqOf(p)), digs)
  {
    ghost var st := SeqOf(p);
    var digger := DiggerOf(p, tick);
    targets := [];
    assert digs[..0] == [];
    var i := 0;
    while i < |digs|
      invariant 0 <= i <= |digs|
      invariant JudgeAll(cfg, digger, st, digs[..i]) == Outcome(SeqOf(p), None, targets)
    {
      var d := digs[i];
      JudgeMore(cfg, digger, st, digs, i);
      refused := CheckDig(cfg, p, d);
      if refused.Some? {
        RefusedStays(cfg, digger, st, digs, i + 1);
        return;
      }
      targets := targets + [Target(LocalToGlobal(cfg, d.lx, d.lz).value, EventOf(digger, d))];
      i := i + 1;
    }
    assert digs[..i] == digs;
    refused := None;
  }

  method CheckDig(cfg: Config, p: Player, d: Dig) returns (refused: Option<u16>)
    modifies p`hasDigSeq, p`lastDigSeq
    ensures SeqOf(p) == SeqAfter(old(SeqOf(p)), d)
    ensures forall digger: Digger :: digger.chunk == p.chunk ==>
      match Judge(cfg, digger, old(SeqOf(p)), d)
      case Refused(code) => refused == Some(code)
      case Passed(t) =>
        refused == None && LocalToGlobal(cfg, d.lx, d.lz).Some?
        && t == Target(LocalToGlobal(cfg, d.lx, d.lz).value, EventOf(digger, d))
  {
    var isNew := AcceptDigSeq(p, d);
    if !isNew {
      return Some(ERROR_BAD_DIG_SEQ);
    }
    var c := LocalToGlobal(cfg, d.lx, d.lz);
    if c.None? {
      return Some(ERROR_OUT_OF_RANGE);
    }
    var dx, dz := c.value.x - p.chunk.x, c.value.z - p.chunk.z;
    if dx < -2 || dx > 2 || dz < -2 || dz > 2 {
      return Some(ERROR_OUT_OF_RANGE);
    }
    return None;
  }

  // ---------------------------------------------------------------- the fan-out loops

  /** The offsets visited after some rows and part of the next. */
  function Visited(r: u8, m: nat, n: nat): seq<Offset> { Rows(r, m) + Row(r, m - r, n) }

  lemma VisitedMore(r: u8, m: nat, n: nat)
    requires r <= 127 && m < Side(r) && n < Side(r)
    ensures Visited(r, m, n + 1) == Visited(r, m, n) + [Offset(n - r, m - r)]
  {
    WrapI8Id(n - r);
    WrapI8Id(m - r);
    assert Row(r, m - r, n + 1) == Row(r, m - r, n) + [Offset(n - r, m - r)];
  }

  lemma VisitedRow(r: u8, m: nat)
    ensures Visited(r, m, 0) == Rows(r, m)
    ensures Visited(r, m, Side(r)) == Rows(r, m + 1)
  {
  }

  lemma {:induction false} RowsPrefix(r: u8, m: nat, k: nat)
    requires m <= k
    ensures Rows(r, m) <= Rows(r, k)
    decreases k
  {
    if m < k {
      RowsPrefix(r, m, k - 1);
    }
  }

  lemma VisitedPrefix(r: u8, m: nat, n: nat)
    requires m < Side(r) && n <= Side(r)
    ensures Visited(r, m, n) <= AoiOffsets(r)
  {
    assert Row(r, m - r, n) == Row(r, m - r, Side(r))[..n];
    VisitedRow(r, m);
    RowsPrefix(r, m + 1, Side(r));
  }

  /** One offset of the double loop. */
  method AddAt(cfg: Config, c: Chunk, dx: i8, dz: i8, event: DigEvent, ghost before: Events, ghost offsets: seq<Offset>,
               sofar: Events)
    returns (batches: Events)
    requires Deployable(cfg) && Contains(cfg, c) && offsets + [Offset(dx, dz)] <= AoiOffsets(cfg.aoiRadius)
    requires InSquare(cfg.aoiRadius, dx, dz)
    requires AddedTo(before, sofar, event, TopicsOf(cfg, c, offsets)) && (NoneEmpty(before) ==> NoneEmpty(sofar))
    ensures AddedTo(before, batches, event, TopicsOf(cfg, c, offsets + [Offset(dx, dz)]))
    ensures NoneEmpty(before) ==> NoneEmpty(batches)
  {
    hide AddedTo, NoneEmpty, TopicsOf, LocalIndex, AoiOffsets;
    ShiftInRange(cfg, c, Offset(dx, dz));
    TopicsOne(cfg, c, offsets, Offset(dx, dz));
    var d := Chunk(c.x + dx, c.z + dz);
    batches := sofar;
    if Contains(cfg, d) {
      TopicFresh(cfg, c, offsets, Offset(dx, dz));
      AddStep(before, batches, event, TopicsOf(cfg, c, offsets), LocalIndex(cfg, d));
      batches := batches[LocalIndex(cfg, d) := Got(batches, LocalIndex(cfg, d)) + [event]];
    }
  }

  /** Unlike publish_to_aoi, this handler walks the square itself, without the stored offsets. */
  method BatchAround(cfg: Config, c: Chunk, event: DigEvent, before: Events) returns (batches: Events)
    requires Deployable(cfg) && Contains(cfg, c)
    ensures AddedTo(before, batches, event, AoiTopics(cfg, c))
    ensures NoneEmpty(before) ==> NoneEmpty(batches)
  {
    hide AddedTo, NoneEmpty, TopicsOf, Rows, Row, Visited, Contains;
    var r := cfg.aoiRadius;
    batches := before;
    NothingAdded(cfg, c, before, event);
    RowsNone(r);
    var dz: int := -1 * (r as int);
    while dz <= r
      invariant 0 <= dz + r <= Side(r)
      invariant AddedTo(before, batches, event, TopicsOf(cfg, c, Rows(r, dz + r)))
      invariant NoneEmpty(before) ==> NoneEmpty(batches)
    {
      VisitedRow(r, dz + r);
      var dx: int := -1 * (r as int);
      while dx <= r
        invariant 0 <= dx + r <= Side(r)
        invariant AddedTo(before, batches, event, TopicsOf(cfg, c, Visited(r, dz + r, dx + r)))
        invariant NoneEmpty(before) ==> NoneEmpty(batches)
      {
        VisitedMore(r, dz + r, dx + r);
        VisitedPrefix(r, dz + r, dx + r + 1);
        batches := AddAt(cfg, c, dx, dz, event, before, Visited(r, dz + r, dx + r), batches);
        dx := dx + 1;
      }
      dz := dz + 1;
    }
  }

  lemma RowsNone(r: u8)
    ensures Rows(r, 0) == []
  {
  }

  ghost predicate Collected(cfg: Config, targets: seq<Target>, batches: Events) {
    NoneEmpty(batches) && forall t: nat :: Got(batches, t) == TopicEvents(cfg, targets, t)
  }

  lemma CollectedMore(cfg: Config, targets: seq<Target>, target: Target, before: Events, batches: Events)
    requires Collected(cfg, targets, before) && AddedTo(before, batches, target.event, AoiTopics(cfg, target.chunk))
    requires NoneEmpty(batches)
    ensures Collected(cfg, targets + [target], batches)
  {
    hide AoiTopics;
    assert (targets + [target])[..|targets|] == targets;
    forall t: nat
      ensures Got(batches, t) == TopicEvents(cfg, targets + [target], t)
    {
      assert Got(before, t) == TopicEvents(cfg, targets, t);
    }
  }

  method CollectDigs(cfg: Config, targets: seq<Target>) returns (batches: Events)
    requires Deployable(cfg) && forall x :: x in targets ==> Contains(cfg, x.chunk)
    ensures Collected(cfg, targets, batches)
  {
    hide AddedTo, AoiTopics, Contains;
    batches := map[];
    assert targets[..0] == [];
    var i := 0;
    while i < |targets|
      invariant 0 <= i <= |targets| && Collected(cfg, targets[..i], batches)
    {
      ghost var before := batches;
      batches := BatchAround(cfg, targets[i].chunk, targets[i].event, batches);
      CollectedMore(cfg, targets[..i], targets[i], before, batches);
      assert targets[..i] + [targets[i]] == targets[..i + 1];
      i := i + 1;
    }
    assert targets[..i] == targets;
  }

  // ---------------------------------------------------------------- publication

  /** One frame for each topic in range of a dig, and none elsewhere; it parses to the events of that topic. */
  ghost predicate Delivers(cfg: Config, targets: seq<Target>, sent: seq<Packet>) {
    && (forall i, j :: 0 <= i < j < |sent| ==> sent[i].topic != sent[j].topic)
    && (forall t: nat :: TopicEvents(cfg, targets, t) != [] <==> HasTopic(sent, t))
    && (forall i :: 0 <= i < |sent| ==>
          ParseDigEventBatch(sent[i].payload) == Some(TopicEvents(cfg, targets, sent[i].topic)))
  }

  method PublishTopic(g: GuardianState, id: u16, t: nat, events: seq<DigEvent>) returns (sent: seq<Packet>)
    requires 1 <= |events| <= 255
    modifies g`messagesOut
    ensures g.messagesOut == old(g.messagesOut) + 1 && sent == [Packet(t, DigEventBatchBytes(id, g.tick, events))]
  {
    sent := [];
    var offset := 0;
    while offset < |events|
      invariant g.messagesOut == old(g.messagesOut) + |sent|
      invariant || (offset == 0 && sent == [])
                || (offset == |events| && sent == [Packet(t, DigEventBatchBytes(id, g.tick, events))])
    {
      var count := if |events| - offset < 255 then |events| - offset else 255;
      assert events[offset..offset + count] == events;
      g.messagesOut := g.messagesOut + 1;
      sent := sent + [Packet(t, DigEventBatchBytes(id, g.tick, events[offset..offset + count]))];
      offset := offset + count;
    }
  }

  lemma {:induction false} EventsSmall(cfg: Config, targets: seq<Target>, t: nat, id: u16, tick: u16)
    requires forall x :: x in targets ==> x.event.id == id && x.event.tick == tick
    ensures |TopicEvents(cfg, targets, t)| <= |targets|
    ensures forall e :: e in TopicEvents(cfg, targets, t) ==> e.id == id && e.tick == tick
  {
    hide AoiTopics;
    if targets != [] {
      var before, last := targets[..|targets| - 1], targets[|targets| - 1];
      assert targets == before + [last] && last in targets;
      assert forall x :: x in before ==> x in targets;
      EventsSmall(cfg, before, t, id, tick);
    }
  }

  /** The topics that are done have their frames. */
  ghost predicate SentFor(cfg: Config, targets: seq<Target>, done: set<nat>, sent: seq<Packet>) {
    && (forall i, j :: 0 <= i < j < |sent| ==> sent[i].topic != sent[j].topic)
    && (forall t: nat :: t in done <==> HasTopic(sent, t))
    && (forall i :: 0 <= i < |sent| ==>
          ParseDigEventBatch(sent[i].payload) == Some(TopicEvents(cfg, targets, sent[i].topic)))
  }

  lemma OneMoreSent(cfg: Config, targets: seq<Target>, done: set<nat>, sent: seq<Packet>, packet: Packet)
    requires SentFor(cfg, targets, done, sent) && packet.topic !in done
    requires ParseDigEventBatch(packet.payload) == Some(TopicEvents(cfg, targets, packet.topic))
    ensures SentFor(cfg, targets, done + {packet.topic}, sent + [packet])
  {
    hide TopicEvents, ParseDigEventBatch;
    var more := sent + [packet];
    forall t: nat
      ensures HasTopic(more, t) <==> HasTopic(sent, t) || t == packet.topic
    {
      if HasTopic(sent, t) {
        var i :| 0 <= i < |sent| && sent[i].topic == t;
        assert more[i].topic == t;
      } else if t == packet.topic {
        assert more[|sent|].topic == t;
      }
    }
    forall i | 0 <= i < |sent|
      ensures sent[i].topic != packet.topic
    {
      assert HasTopic(sent, sent[i].topic);
    }
  }

  lemma NothingSentYet(cfg: Config, targets: seq<Target>)
    ensures SentFor(cfg, targets, {}, [])
  {
  }

  /** The events of one topic fit one frame, and the frame parses to them. */
  lemma TopicParses(cfg: Config, id: u16, tick: u16, targets: seq<Target>, batches: Events, t: nat)
    requires Collected(cfg, targets, batches) && t in batches && |targets| <= 255
    requires forall x :: x in targets ==> x.event.id == id && x.event.tick == tick
    ensures 1 <= |batches[t]| <= 255
    ensures ParseDigEventBatch(DigEventBatchBytes(id, tick, batches[t])) == Some(TopicEvents(cfg, targets, t))
  {
    hide TopicEvents, DigEventBatchBytes, ParseDigEventBatch;
    assert Got(batches, t) == TopicEvents(cfg, targets, t);
    EventsSmall(cfg, targets, t, id, tick);
    DigEventBatchParses(id, tick, batches[t]);
  }

  lemma AllTopicsSent(cfg: Config, targets: seq<Target>, batches: Events, sent: seq<Packet>)
    requires Collected(cfg, targets, batches) && SentFor(cfg, targets, batches.Keys, sent)
    ensures Delivers(cfg, targets, sent)
  {
    hide TopicEvents, ParseDigEventBatch;
    forall t: nat
      ensures TopicEvents(cfg, targets, t) != [] <==> HasTopic(sent, t)
    {
      assert Got(batches, t) == TopicEvents(cfg, targets, t);
    }
  }

  method PublishDigs(g: GuardianState, id: u16, ghost targets: seq<Target>, batches: Events) returns (sent: seq<Packet>)
    requires Collected(g.cfg, targets, batches) && |targets| <= 255
    requires forall x :: x in targets ==> x.event.id == id && x.event.tick == g.tick
    modifies g`messagesOut
    ensures Delivers(g.cfg, targets, sent) && g.messagesOut == old(g.messagesOut) + |sent|
  {
    hide TopicEvents, DigEventBatchBytes, ParseDigEventBatch, SentFor, Delivers, Collected;
    sent := [];
    NothingSentYet(g.cfg, targets);
    var todo := batches.Keys;
    assert batches.Keys - todo == {};
    while todo != {}
      invariant todo <= batches.Keys && SentFor(g.cfg, targets, batches.Keys - todo, sent)
      invariant g.messagesOut == old(g.messagesOut) + |sent|
      decreases |todo|
    {
      var t :| t in todo;
      TopicParses(g.cfg, id, g.tick, targets, batches, t);
      var more := PublishTopic(g, id, t, batches[t]);
      OneMoreSent(g.cfg, targets, batches.Keys - todo, sent, more[0]);
      sent := sent + more;
      assert batches.Keys - (todo - {t}) == batches.Keys - todo + {t};
      todo := todo - {t};
    }
    assert batches.Keys - todo == batches.Keys;
    AllTopicsSent(g.cfg, targets, batches, sent);
  }

  // ---------------------------------------------------------------- the handler of a batch

  /** What a DIG_BATCH does to the digger's limiter and numbers, and what is refused. A refusal leaves the numbers it
      has read used up. */
  function BatchEffect(cfg: Config, p: Digger, s: Sender, msg: bytes, now: u64): (Sender, Option<u16>) {
    if !IsDigBatch(msg) then (s, Some(ERROR_BAD_PAYLOAD_LENGTH))
    else
      var window := Next(now, s.window, cfg.digLimit);
      if !Allows(now, s.window, cfg.digLimit) then (s.(window := window), Some(ERROR_RATE_LIMIT))
      else
        var o := JudgeAll(cfg, p, s.st, DigsOf(msg));
        (Sender(o.st, window), o.refused)
  }

  /** Nothing is published unless every dig of the batch passes; then each topic in range hears all that concern it. */
  ghost predicate BatchDone(g: GuardianState, p: Player, before: Sender, msg: bytes, now: u64, reply: Option<u16>,
                            sent: seq<Packet>)
    reads g`players, g`tick, p
  {
    var digger := DiggerOf(p, g.tick);
    && (!g.Speaks(p) ==> reply == Some(ERROR_NOT_HELLO) && SenderOf(p) == before)
    && (g.Speaks(p) ==> (SenderOf(p), reply) == BatchEffect(g.cfg, digger, before, msg, now))
    && (reply.Some? ==> sent == [])
    && (reply.None? ==>
          IsDigBatch(msg) && Delivers(g.cfg, JudgeAll(g.cfg, digger, before.st, DigsOf(msg)).targets, sent))
  }

  method HandleDigBatch(g: GuardianState, p: Player, msg: bytes, now: u64)
    returns (reply: Option<u16>, sent: seq<Packet>)
    requires g.Valid() && g.Known(p)
    modifies g`digIn, g`messagesOut, p`digWindow, p`hasDigSeq, p`lastDigSeq
    ensures BatchDone(g, p, old(SenderOf(p)), msg, now, reply, sent)
    ensures BatchSays(g.cfg, DiggerOf(p, g.tick), g.Speaks(p), old(SenderOf(p)), SenderOf(p), msg, now, reply, sent)
    ensures g.messagesOut == old(g.messagesOut) + |sent|
    ensures reply.Some? ==> g.digIn == old(g.digIn)
    ensures reply.None? ==> IsDigBatch(msg) && g.digIn == old(g.digIn) + |DigsOf(msg)|
  {
    hide GuardianState.Valid, Allows, Next, JudgeAll, Delivers, Contains, Collected, BatchSays;
    ServedNow(g);
    reply, sent := Some(ERROR_NOT_HELLO), [];
    if g.Speaks(p) {
      g.ActiveChunk(p);
      var ok, digs := DecodeDigBatch(msg);
      if ok {
        reply, sent := LimitedBatch(g, p, digs, now);
      } else {
        reply := Some(ERROR_BAD_PAYLOAD_LENGTH);
      }
    }
    BatchInWords(g, p, old(SenderOf(p)), msg, now, reply, sent);
  }

  lemma ServedNow(g: GuardianState)
    requires g.Valid()
    ensures Deployable(g.cfg)
  {
  }

  /** The topics of served chunks are told what BatchTold says. */
  lemma BatchIsTold(cfg: Config, p: Digger, st: SeqState, digs: seq<Dig>, sent: seq<Packet>)
    requires Deployable(cfg) && JudgeAll(cfg, p, st, digs).refused.None?
    requires Delivers(cfg, JudgeAll(cfg, p, st, digs).targets, sent)
    ensures BatchTold(cfg, p.id, p.tick, digs, sent)
  {
    hide JudgeAll, TopicEvents, Concerning, ParseDigEventBatch, LocalIndex, Contains, Deployable, Repeats, Spot;
    var targets := JudgeAll(cfg, p, st, digs).targets;
    TargetsRepeat(cfg, p, st, digs);
    forall x: Chunk | Contains(cfg, x)
      ensures AllRepeat(TopicEvents(cfg, targets, LocalIndex(cfg, x)), Concerning(cfg, digs, x), p.id, p.tick)
    {
      EventsRepeat(cfg, targets, digs, p.id, p.tick, x);
    }
  }

  lemma BatchInWords(g: GuardianState, p: Player, before: Sender, msg: bytes, now: u64, reply: Option<u16>,
                     sent: seq<Packet>)
    requires Deployable(g.cfg) && BatchDone(g, p, before, msg, now, reply, sent)
    ensures BatchSays(g.cfg, DiggerOf(p, g.tick), g.Speaks(p), before, SenderOf(p), msg, now, reply, sent)
  {
    hide Deployable, Allows, Next, JudgeAll, Delivers, IsDigBatch, DigsOf, BatchDigs, BadBatch, RefusedFor,
      FirstRefused, BatchTold, UsedBefore;
    DigsFromBytes(msg);
    if g.Speaks(p) && !BadBatch(msg) {
      BatchRefusal(g.cfg, DiggerOf(p, g.tick), before.st, DigsOf(msg));
      if reply.None? {
        BatchIsTold(g.cfg, DiggerOf(p, g.tick), before.st, DigsOf(msg), sent);
      }
    }
  }

  /** From the limiter on. */
  method LimitedBatch(g: GuardianState, p: Player, digs: seq<Dig>, now: u64)
    returns (reply: Option<u16>, sent: seq<Packet>)
    requires Deployable(g.cfg) && Contains(g.cfg, p.chunk) && |digs| <= 255
    modifies g`digIn, g`messagesOut, p`digWindow, p`hasDigSeq, p`lastDigSeq
    ensures var before := old(SenderOf(p));
      var o := JudgeAll(g.cfg, DiggerOf(p, g.tick), before.st, digs);
      && p.digWindow == Next(now, before.window, g.cfg.digLimit)
      && (if Allows(now, before.window, g.cfg.digLimit) then reply == o.refused && SeqOf(p) == o.st
          else reply == Some(ERROR_RATE_LIMIT) && SeqOf(p) == before.st)
      && (reply.Some? ==> sent == [] && g.digIn == old(g.digIn))
      && (reply.None? ==> Delivers(g.cfg, o.targets, sent) && g.digIn == old(g.digIn) + |digs|)
      && g.messagesOut == old(g.messagesOut) + |sent|
  {
    hide Deployable, Allows, Next, JudgeAll, Delivers, Contains;
    var allowed;
    allowed, p.digWindow := Allow(now, p.digWindow, g.cfg.digLimit);
    if !allowed {
      return Some(ERROR_RATE_LIMIT), [];
    }
    reply, sent := PublishAll(g, p, digs);
  }

  method PublishAll(g: GuardianState, p: Player, digs: seq<Dig>) returns (reply: Option<u16>, sent: seq<Packet>)
    requires Deployable(g.cfg) && Contains(g.cfg, p.chunk) && |digs| <= 255
    modifies g`digIn, g`messagesOut, p`hasDigSeq, p`lastDigSeq
    ensures var o := JudgeAll(g.cfg, DiggerOf(p, g.tick), old(SeqOf(p)), digs);
      && reply == o.refused && SeqOf(p) == o.st
      && (reply.Some? ==> sent == [] && g.digIn == old(g.digIn))
      && (reply.None? ==> Delivers(g.cfg, o.targets, sent) && g.digIn == old(g.digIn) + |digs|)
      && g.messagesOut == old(g.messagesOut) + |sent|
  {
    hide JudgeAll, Delivers, Contains, Collected;
    sent := [];
    var digger := DiggerOf(p, g.tick);
    TargetsServed(g.cfg, digger, SeqOf(p), digs);
    var targets: seq<Target>;
    reply, targets := CheckDigs(g.cfg, p, g.tick, digs);
    if reply.Some? {
      return;
    }
    var batches := CollectDigs(g.cfg, targets);
    sent := PublishDigs(g, p.id, targets, batches);
    g.digIn := g.digIn + |digs|;
  }

  // ---------------------------------------------------------------- the handler of a single dig

  function DigRefusal(cfg: Config, p: Digger, s: Sender, m: Timed): Option<u16> {
    if !Admits(cfg.digLimit, s, m) then Some(ERROR_RATE_LIMIT)
    else match Judge(cfg, p, s.st, m.dig) case Refused(code) => Some(code) case Passed(_) => None
  }

  function DigEffect(cfg: Config, p: Digger, s: Sender, msg: bytes, now: u64): (Sender, Option<u16>) {
    if DecodeDig(msg).None? then (s, Some(ERROR_BAD_PAYLOAD_LENGTH))
    else
      var m := Timed(now, DecodeDig(msg).value);
      (After(cfg.digLimit, s, m), DigRefusal(cfg, p, s, m))
  }

  /** An accepted dig goes once to each topic around its chunk, as a DIG_EVENT frame. */
  ghost predicate DigDone(g: GuardianState, p: Player, before: Sender, msg: bytes, now: u64, reply: Option<u16>,
                          sent: seq<Packet>)
    reads g`players, g`tick, p
  {
    var digger, limit := DiggerOf(p, g.tick), g.cfg.digLimit;
    && (!g.Speaks(p) ==> reply == Some(ERROR_NOT_HELLO) && SenderOf(p) == before)
    && (g.Speaks(p) ==> (SenderOf(p), reply) == DigEffect(g.cfg, digger, before, msg, now))
    && (reply.Some? ==> sent == [])
    && (reply.None? ==>
          && DecodeDig(msg).Some?
          && sent == Packets(Said(g.cfg, digger, limit, before, Timed(now, DecodeDig(msg).value))))
  }

  method HandleDig(g: GuardianState, p: Player, msg: bytes, now: u64) returns (reply: Option<u16>, sent: seq<Packet>)
    requires g.Valid() && g.Known(p)
    modifies g`digIn, g`messagesOut, p`digWindow, p`hasDigSeq, p`lastDigSeq
    ensures DigDone(g, p, old(SenderOf(p)), msg, now, reply, sent)
    ensures DigSays(g.cfg, DiggerOf(p, g.tick), g.Speaks(p), old(SenderOf(p)), SenderOf(p), msg, now, reply, sent)
    ensures g.messagesOut == old(g.messagesOut) + |sent|
    ensures g.digIn == old(g.digIn) + if reply.None? then 1 else 0
  {
    hide GuardianState.Valid, Allows, Next, Contains, Judge, AoiTopics, FanOut, DigSays;
    ServedNow(g);
    reply, sent := Some(ERROR_NOT_HELLO), [];
    if g.Speaks(p) {
      g.ActiveChunk(p);
      var dig := DecodeDig(msg);
      if dig.Some? {
        reply, sent := LimitedDig(g, p, dig.value, now);
      } else {
        reply := Some(ERROR_BAD_PAYLOAD_LENGTH);
      }
    }
    DigInWords(g, p, old(SenderOf(p)), msg, now, reply, sent);
  }

  lemma DigInWords(g: GuardianState, p: Player, before: Sender, msg: bytes, now: u64, reply: Option<u16>,
                   sent: seq<Packet>)
    requires Deployable(g.cfg) && DigDone(g, p, before, msg, now, reply, sent)
    ensures DigSays(g.cfg, DiggerOf(p, g.tick), g.Speaks(p), before, SenderOf(p), msg, now, reply, sent)
  {
    hide Deployable, Allows, Next, Judge, DigTold, RefusedFor, ReadDigItem, SeqAfter, Packets, Said;
    if g.Speaks(p) && DecodeDig(msg).Some? && Allows(now, before.window, g.cfg.digLimit) {
      SingleSays(g.cfg, DiggerOf(p, g.tick), before, DecodeDig(msg).value, now, reply);
    }
  }

  /** From the limiter on. */
  method LimitedDig(g: GuardianState, p: Player, d: Dig, now: u64) returns (reply: Option<u16>, sent: seq<Packet>)
    requires g.Configured()
    modifies g`digIn, g`messagesOut, p`digWindow, p`hasDigSeq, p`lastDigSeq
    ensures var before, m := old(SenderOf(p)), Timed(now, d);
      && SenderOf(p) == After(g.cfg.digLimit, before, m)
      && reply == DigRefusal(g.cfg, DiggerOf(p, g.tick), before, m)
      && sent == Packets(Said(g.cfg, DiggerOf(p, g.tick), g.cfg.digLimit, before, m))
      && (reply.Some? ==> sent == []) && g.messagesOut == old(g.messagesOut) + |sent|
      && g.digIn == old(g.digIn) + if reply.None? then 1 else 0
  {
    hide GuardianState.Configured, Allows, Next, Judge, AoiTopics, FanOut, Packets;
    var allowed;
    allowed, p.digWindow := Allow(now, p.digWindow, g.cfg.digLimit);
    NoPackets();
    if !allowed {
      return Some(ERROR_RATE_LIMIT), [];
    }
    reply, sent := PublishOne(g, p, d);
  }

  lemma NoPackets()
    ensures Packets([]) == []
  {
  }

  method PublishOne(g: GuardianState, p: Player, d: Dig) returns (reply: Option<u16>, sent: seq<Packet>)
    requires g.Configured()
    modifies g`digIn, g`messagesOut, p`hasDigSeq, p`lastDigSeq
    ensures match Judge(g.cfg, DiggerOf(p, g.tick), old(SeqOf(p)), d)
      case Refused(code) => reply == Some(code) && sent == [] && g.digIn == old(g.digIn)
      case Passed(t) =>
        reply == None && g.digIn == old(g.digIn) + 1 && sent == Packets(FanOut(AoiTopics(g.cfg, t.chunk), t.event))
    ensures SeqOf(p) == SeqAfter(old(SeqOf(p)), d) && g.messagesOut == old(g.messagesOut) + |sent|
  {
    hide GuardianState.Configured, AoiTopics, FanOut, Packets;
    sent := [];
    reply := CheckDig(g.cfg, p, d);
    if reply.Some? {
      return;
    }
    assert Judge(g.cfg, DiggerOf(p, g.tick), old(SeqOf(p)), d).Passed?;
    sent := FanOutLoop(g, LocalToGlobal(g.cfg, d.lx, d.lz).value, EventOf(DiggerOf(p, g.tick), d));
    g.digIn := g.digIn + 1;
  }

  method FanOutLoop(g: GuardianState, c: Chunk, event: DigEvent) returns (sent: seq<Packet>)
    requires g.Configured()
    modifies g`messagesOut
    ensures sent == Packets(FanOut(AoiTopics(g.cfg, c), event)) && g.messagesOut == old(g.messagesOut) + |sent|
  {
    hide Contains, Shift, LocalIndex, AoiOffsets, EncodeDigEvent, TopicsOf;
    sent := [];
    var i := 0;
    assert g.offsets[..0] == [];
    NothingFanned(g.cfg, c, event);
    while i < |g.offsets|
      invariant 0 <= i <= |g.offsets| && g.messagesOut == old(g.messagesOut) + |sent|
      invariant sent == Packets(FanOut(TopicsOf(g.cfg, c, g.offsets[..i]), event))
    {
      TopicsGrow(g.cfg, c, g.offsets, i);
      var d := Shift(c, g.offsets[i]);
      if Contains(g.cfg, d) {
        FanOutGrows(TopicsOf(g.cfg, c, g.offsets[..i]), LocalIndex(g.cfg, d), event);
        sent := sent + [Packet(LocalIndex(g.cfg, d), EncodeDigEvent(event))];
        g.messagesOut := g.messagesOut + 1;
      }
      i := i + 1;
    }
    assert g.offsets[..i] == g.offsets;
  }

  lemma NothingFanned(cfg: Config, c: Chunk, event: DigEvent)
    ensures Packets(FanOut(TopicsOf(cfg, c, []), event)) == []
  {
  }

  lemma FanOutGrows(topics: seq<nat>, t: nat, event: DigEvent)
    ensures Packets(FanOut(topics + [t], event)) == Packets(FanOut(topics, event)) + [PacketOf(Heard(t, event))]
  {
    assert (topics + [t])[..|topics|] == topics;
  }
}
