/** Digs in the words of their messages: what those in range are told is what the digger said. */
module DigWords {
  import opened Ints
  import opened Chunks
  import opened Wire
  import opened RateLimit
  import opened Digs
  import opened Messages

  // ---------------------------------------------------------------- the reference

  /** The event repeats the dig, under the player's id and the server's tick. */
  predicate Repeats(e: DigEvent, d: Dig, id: u16, tick: u16) {
    && e.id == id && e.tick == tick && e.seqNo == d.seqNo && e.lx == d.lx && e.lz == d.lz
    && e.blockX == d.blockX && e.blockY == d.blockY && e.blockZ == d.blockZ && e.action == d.action
  }

  /** The chunk that a dig names. */
  function Spot(cfg: Config, d: Dig): Option<Chunk> { LocalToGlobal(cfg, d.lx, d.lz) }

  predicate Concerns(cfg: Config, d: Dig, x: Chunk) { Spot(cfg, d).Some? && InRange(cfg, Spot(cfg, d).value, x) }

  predicate OneEach(sent: seq<Packet>) { forall i, j :: 0 <= i < j < |sent| ==> sent[i].topic != sent[j].topic }

  /** The frames for one dig: one for each served chunk in range of it, each of which parses to the dig repeated. */
  ghost predicate DigTold(cfg: Config, id: u16, tick: u16, d: Dig, sent: seq<Packet>) {
    && Spot(cfg, d).Some? && OneEach(sent)
    && (forall i :: 0 <= i < |sent| ==>
          var e := ParseDigEvent(sent[i].payload); e.Some? && Repeats(e.value, d, id, tick))
    && (forall x: Chunk :: Contains(cfg, x) ==> (HasTopic(sent, LocalIndex(cfg, x)) <==> Concerns(cfg, d, x)))
  }

  /** The digs of a batch that concern chunk x, in order. */
  function Concerning(cfg: Config, digs: seq<Dig>, x: Chunk): seq<Dig> {
    if digs == [] then []
    else
      var before, last := Concerning(cfg, digs[..|digs| - 1], x), digs[|digs| - 1];
      if Concerns(cfg, last, x) then before + [last] else before
  }

  predicate AllRepeat(events: seq<DigEvent>, digs: seq<Dig>, id: u16, tick: u16) {
    |events| == |digs| && forall k :: 0 <= k < |events| ==> Repeats(events[k], digs[k], id, tick)
  }

  /** The frames for a batch: one for each served chunk that any of its digs concerns, which parses to those digs
      repeated, in order. */
  ghost predicate BatchTold(cfg: Config, id: u16, tick: u16, digs: seq<Dig>, sent: seq<Packet>) {
    && OneEach(sent)
    && forall x: Chunk :: Contains(cfg, x) ==>
         && (HasTopic(sent, LocalIndex(cfg, x)) <==> Concerning(cfg, digs, x) != [])
         && forall i :: 0 <= i < |sent| && sent[i].topic == LocalIndex(cfg, x) ==>
              var events := ParseDigEventBatch(sent[i].payload);
              events.Some? && AllRepeat(events.value, Concerning(cfg, digs, x), id, tick)
  }

  /** Why a dig is refused: 9 for a number that was the last one, 3 for a chunk that is not served or is more than two
      chunks away from the digger on an axis. */
  ghost predicate RefusedFor(cfg: Config, here: Chunk, st: SeqState, d: Dig, code: u16) {
    if st.has && st.last == d.seqNo then code == 9
    else
      && code == 3
      && (Spot(cfg, d).None? || Spot(cfg, d).value.x - here.x > 2 || here.x - Spot(cfg, d).value.x > 2
          || Spot(cfg, d).value.z - here.z > 2 || here.z - Spot(cfg, d).value.z > 2)
  }

  /** The numbers that have been used up when dig i of a batch is looked at. */
  function UsedBefore(st: SeqState, digs: seq<Dig>, i: nat): SeqState
    requires i <= |digs|
  {
    if i == 0 then st else SeqState(true, digs[i - 1].seqNo)
  }

  /** Dig i is the first of the batch that is refused, for the given reason. */
  ghost predicate FirstRefused(cfg: Config, here: Chunk, st: SeqState, digs: seq<Dig>, i: nat, code: u16) {
    && i < |digs| && RefusedFor(cfg, here, UsedBefore(st, digs, i), digs[i], code)
    && forall j: nat, c: u16 :: j < i ==> !RefusedFor(cfg, here, UsedBefore(st, digs, j), digs[j], c)
  }

  /** What a DIG does and says, from its bytes: the refusal, the limiter window and the number left behind, the
      frames. */
  ghost predicate DigSays(cfg: Config, p: Digger, speaks: bool, before: Sender, after: Sender, msg: bytes, now: u64,
                          reply: Option<u16>, sent: seq<Packet>) {
    && (reply.Some? ==> sent == [])
    && if !speaks then reply == Some(2) && after == before
       else if |msg| != 11 || msg[0] != 0x20 then reply == Some(4) && after == before
       else
         var d := ReadDigItem(msg[1..11]);
         && after.window == Next(now, before.window, cfg.digLimit)
         && if !Allows(now, before.window, cfg.digLimit) then reply == Some(5) && after.st == before.st
            else
              && after.st == SeqState(true, d.seqNo)
              && match reply
                 case None =>
                   DigTold(cfg, p.id, p.tick, d, sent) && forall c: u16 :: !RefusedFor(cfg, p.chunk, before.st, d, c)
                 case Some(code) => RefusedFor(cfg, p.chunk, before.st, d, code)
  }

  /** The bytes are not a batch: type, count, size. */
  predicate BadBatch(msg: bytes) { |msg| < 2 || msg[0] != 0x22 || msg[1] == 0 || |msg| != 2 + msg[1] as int * 10 }

  /** The digs of a batch, ten bytes each. */
  function BatchDigs(msg: bytes): seq<Dig>
    requires !BadBatch(msg)
  {
    seq(msg[1], (k: nat) requires k < msg[1] => ReadDigItem(msg[2 + k * 10..12 + k * 10]))
  }

  /** The same for a DIG_BATCH. */
  ghost predicate BatchSays(cfg: Config, p: Digger, speaks: bool, before: Sender, after: Sender, msg: bytes, now: u64,
                            reply: Option<u16>, sent: seq<Packet>) {
    && (reply.Some? ==> sent == [])
    && if !speaks then reply == Some(2) && after == before
       else if BadBatch(msg) then reply == Some(4) && after == before
       else
         var digs := BatchDigs(msg);
         && after.window == Next(now, before.window, cfg.digLimit)
         && if !Allows(now, before.window, cfg.digLimit) then reply == Some(5) && after.st == before.st
            else
              match reply
              case None =>
                && BatchTold(cfg, p.id, p.tick, digs, sent) && after.st == UsedBefore(before.st, digs, |digs|)
                && forall j: nat, c: u16 :: j < |digs| ==>
                     !RefusedFor(cfg, p.chunk, UsedBefore(before.st, digs, j), digs[j], c)
              case Some(code) =>
                exists i: nat ::
                  FirstRefused(cfg, p.chunk, before.st, digs, i, code) && after.st == SeqState(true, digs[i].seqNo)
  }

  // ---------------------------------------------------------------- one dig

  lemma JudgedFor(cfg: Config, p: Digger, st: SeqState, d: Dig)
    ensures match Judge(cfg, p, st, d)
      case Refused(code) =>
        && RefusedFor(cfg, p.chunk, st, d, code)
        && forall c: u16 :: RefusedFor(cfg, p.chunk, st, d, c) ==> c == code
      case Passed(t) =>
        && (forall c: u16 :: !RefusedFor(cfg, p.chunk, st, d, c))
        && Spot(cfg, d) == Some(t.chunk) && Contains(cfg, t.chunk) && Repeats(t.event, d, p.id, p.tick)
  {
    assert RefusedFor(cfg, p.chunk, st, d, 9) || RefusedFor(cfg, p.chunk, st, d, 3) || Judge(cfg, p, st, d).Passed?;
  }

  lemma {:induction false} FanOutPackets(topics: seq<nat>, e: DigEvent)
    ensures |FanOut(topics, e)| == |topics|
    ensures forall i :: 0 <= i < |topics| ==> FanOut(topics, e)[i] == Heard(topics[i], e)
  {
    if topics != [] {
      FanOutPackets(topics[..|topics| - 1], e);
    }
  }

  lemma DigIsTold(cfg: Config, p: Digger, st: SeqState, d: Dig)
    requires Deployable(cfg) && Judge(cfg, p, st, d).Passed?
    ensures var t := Judge(cfg, p, st, d).target;
      DigTold(cfg, p.id, p.tick, d, Packets(FanOut(AoiTopics(cfg, t.chunk), t.event)))
  {
    hide Judge, AoiTopics, Deployable, Contains, LocalIndex, EncodeDigEvent, ParseDigEvent, InRange, LocalToGlobal;
    var t := Judge(cfg, p, st, d).target;
    JudgedFor(cfg, p, st, d);
    var topics := AoiTopics(cfg, t.chunk);
    var sent := Packets(FanOut(topics, t.event));
    FanOutPackets(topics, t.event);
    DigEventParses(t.event);
    AoiTopicsExact(cfg, t.chunk);
    forall x: Chunk | Contains(cfg, x)
      ensures HasTopic(sent, LocalIndex(cfg, x)) <==> Concerns(cfg, d, x)
    {
      InRangeIsNear(cfg, t.chunk, x);
      assert LocalIndex(cfg, x) in topics ==> exists i :: 0 <= i < |topics| && topics[i] == LocalIndex(cfg, x);
      assert forall i :: 0 <= i < |sent| ==> sent[i].topic == topics[i];
    }
  }

  // ---------------------------------------------------------------- a batch

  lemma {:induction false} TargetsRepeat(cfg: Config, p: Digger, st: SeqState, digs: seq<Dig>)
    requires JudgeAll(cfg, p, st, digs).refused.None?
    ensures var targets := JudgeAll(cfg, p, st, digs).targets;
      && |targets| == |digs|
      && forall k :: 0 <= k < |digs| ==>
           && Spot(cfg, digs[k]) == Some(targets[k].chunk) && Contains(cfg, targets[k].chunk)
           && Repeats(targets[k].event, digs[k], p.id, p.tick)
  {
    if digs != [] {
      var n := |digs| - 1;
      AcceptedPrefix(cfg, p, st, digs);
      TargetsRepeat(cfg, p, st, digs[..n]);
      JudgedFor(cfg, p, JudgeAll(cfg, p, st, digs[..n]).st, digs[n]);
      hide JudgeAll, Judge;
      var before, targets := JudgeAll(cfg, p, st, digs[..n]).targets, JudgeAll(cfg, p, st, digs).targets;
      forall k | 0 <= k < |digs|
        ensures Spot(cfg, digs[k]) == Some(targets[k].chunk) && Contains(cfg, targets[k].chunk)
        ensures Repeats(targets[k].event, digs[k], p.id, p.tick)
      {
        assert k < n ==> targets[k] == before[k] && digs[..n][k] == digs[k];
      }
    }
  }

  lemma ConcerningMore(cfg: Config, digs: seq<Dig>, last: Dig, x: Chunk)
    ensures Concerning(cfg, digs + [last], x)
         == Concerning(cfg, digs, x) + if Concerns(cfg, last, x) then [last] else []
  {
    assert (digs + [last])[..|digs|] == digs;
  }

  lemma TopicEventsMore(cfg: Config, targets: seq<Target>, last: Target, t: nat)
    ensures TopicEvents(cfg, targets + [last], t)
         == TopicEvents(cfg, targets, t) + if t in AoiTopics(cfg, last.chunk) then [last.event] else []
  {
    assert (targets + [last])[..|targets|] == targets;
  }

  /** The events on the topic of chunk x repeat the digs that concern x. */
  lemma {:induction false} EventsRepeat(cfg: Config, targets: seq<Target>, digs: seq<Dig>, id: u16, tick: u16, x: Chunk)
    requires Deployable(cfg) && Contains(cfg, x) && |targets| == |digs|
    requires forall k :: 0 <= k < |digs| ==>
      && Spot(cfg, digs[k]) == Some(targets[k].chunk) && Contains(cfg, targets[k].chunk)
      && Repeats(targets[k].event, digs[k], id, tick)
    ensures AllRepeat(TopicEvents(cfg, targets, LocalIndex(cfg, x)), Concerning(cfg, digs, x), id, tick)
  {
    if digs != [] {
      hide TopicEvents, Concerning, Repeats, LocalIndex, Spot, Contains, AoiTopics, Near, InRange, Deployable;
      var n := |digs| - 1;
      EventsRepeat(cfg, targets[..n], digs[..n], id, tick, x);
      assert targets == targets[..n] + [targets[n]] && digs == digs[..n] + [digs[n]];
      TopicEventsMore(cfg, targets[..n], targets[n], LocalIndex(cfg, x));
      ConcerningMore(cfg, digs[..n], digs[n], x);
      AoiTopicsExact(cfg, targets[n].chunk);
      InRangeIsNear(cfg, targets[n].chunk, x);
    }
  }

  /** A batch is refused for the reason of its first refused dig, whose number is then the last one used; and if no
      dig is refused it is accepted. */
  lemma {:induction false} BatchRefusal(cfg: Config, p: Digger, st: SeqState, digs: seq<Dig>)
    ensures var o := JudgeAll(cfg, p, st, digs);
      match o.refused
      case None =>
        && o.st == UsedBefore(st, digs, |digs|)
        && forall j: nat, c: u16 :: j < |digs| ==> !RefusedFor(cfg, p.chunk, UsedBefore(st, digs, j), digs[j], c)
      case Some(code) =>
        exists i: nat :: FirstRefused(cfg, p.chunk, st, digs, i, code) && o.st == SeqState(true, digs[i].seqNo)
  {
    if digs != [] {
      var n := |digs| - 1;
      var before, o := JudgeAll(cfg, p, st, digs[..n]), JudgeAll(cfg, p, st, digs);
      BatchRefusal(cfg, p, st, digs[..n]);
      JudgedFor(cfg, p, before.st, digs[n]);
      hide JudgeAll, RefusedFor;
      assert forall j: nat :: j <= n ==> UsedBefore(st, digs, j) == UsedBefore(st, digs[..n], j);
      JudgeAllStep(cfg, p, st, digs);
      if before.refused.Some? {
        var i: nat :| FirstRefused(cfg, p.chunk, st, digs[..n], i, before.refused.value)
                      && before.st == SeqState(true, digs[..n][i].seqNo);
        assert FirstRefused(cfg, p.chunk, st, digs, i, o.refused.value) && o.st == SeqState(true, digs[i].seqNo);
      } else if o.refused.Some? {
        UsedUp(cfg, before.st, digs[n]);
        assert FirstRefused(cfg, p.chunk, st, digs, n, o.refused.value) && o.st == SeqState(true, digs[n].seqNo);
      } else {
        UsedUp(cfg, before.st, digs[n]);
      }
    }
  }

  lemma JudgeAllStep(cfg: Config, p: Digger, st: SeqState, digs: seq<Dig>)
    requires digs != []
    ensures var before, d := JudgeAll(cfg, p, st, digs[..|digs| - 1]), digs[|digs| - 1];
      var o := JudgeAll(cfg, p, st, digs);
      if before.refused.Some? then o == before
      else
        && o.st == SeqAfter(before.st, d)
        && match Judge(cfg, p, before.st, d)
           case Refused(code) => o.refused == Some(code)
           case Passed(_) => o.refused == None
  {
  }

  lemma UsedUp(cfg: Config, st: SeqState, d: Dig)
    ensures SeqAfter(st, d) == SeqState(true, d.seqNo)
  {
  }

  // ---------------------------------------------------------------- the handlers

  /** The bytes of a batch give its digs. */
  lemma DigsFromBytes(msg: bytes)
    ensures BadBatch(msg) <==> !IsDigBatch(msg)
    ensures !BadBatch(msg) ==> DigsOf(msg) == BatchDigs(msg)
  {
    if !BadBatch(msg) {
      hide ReadDigItem, ReadAll;
      forall k | 0 <= k < msg[1]
        ensures DigsOf(msg)[k] == ReadDigItem(msg[2 + k * 10..12 + k * 10])
      {
        ReadAllAt(ReadDigItem, msg[2..], 10, msg[1], k, k * 10);
        SliceShift(msg, 2, k * 10, k * 10 + 10);
      }
    }
  }

  lemma SingleSays(cfg: Config, p: Digger, before: Sender, d: Dig, now: u64, reply: Option<u16>)
    requires Deployable(cfg) && Allows(now, before.window, cfg.digLimit)
    requires reply == match Judge(cfg, p, before.st, d) case Refused(code) => Some(code) case Passed(_) => None
    ensures SeqAfter(before.st, d) == SeqState(true, d.seqNo)
    ensures match reply
      case None =>
        && DigTold(cfg, p.id, p.tick, d, Packets(Said(cfg, p, cfg.digLimit, before, Timed(now, d))))
        && forall c: u16 :: !RefusedFor(cfg, p.chunk, before.st, d, c)
      case Some(code) => RefusedFor(cfg, p.chunk, before.st, d, code)
  {
    UsedUp(cfg, before.st, d);
    JudgedFor(cfg, p, before.st, d);
    if Judge(cfg, p, before.st, d).Passed? {
      DigIsTold(cfg, p, before.st, d);
    }
  }
}
