/** Digs: which are accepted, who hears of them, and that a batch says what single digs would have said (app.cpp). */
module Digs {
  import opened Ints
  import opened Chunks
  import opened Wire
  import opened RateLimit

  /** The last accepted sequence number of a player. */
  datatype SeqState = SeqState(has: bool, last: u16)

  /** An accepted dig: where it is announced, and the event. */
  datatype Target = Target(chunk: Chunk, event: DigEvent)

  datatype Verdict = Refused(code: u16) | Passed(target: Target)

  /** The digger: id, chunk and the server tick stamped on its events. */
  datatype Digger = Digger(id: u16, chunk: Chunk, tick: u16)

  predicate NewSeq(st: SeqState, d: Dig) { !(st.has && st.last == d.seqNo) }

  /** The number is recorded before the range checks, so a refused dig can use it up. */
  function SeqAfter(st: SeqState, d: Dig): SeqState { if NewSeq(st, d) then SeqState(true, d.seqNo) else st }

  predicate Within2(a: Chunk, b: Chunk) { -2 <= b.x - a.x <= 2 && -2 <= b.z - a.z <= 2 }

  function EventOf(p: Digger, d: Dig): DigEvent {
    DigEvent(p.id, d.seqNo, d.lx, d.lz, d.blockX, d.blockY, d.blockZ, d.action, p.tick)
  }

  function Judge(cfg: Config, p: Digger, st: SeqState, d: Dig): Verdict {
    if !NewSeq(st, d) then Refused(ERROR_BAD_DIG_SEQ)
    else
      match LocalToGlobal(cfg, d.lx, d.lz)
      case None => Refused(ERROR_OUT_OF_RANGE)
      case Some(c) => if Within2(p.chunk, c) then Passed(Target(c, EventOf(p, d))) else Refused(ERROR_OUT_OF_RANGE)
  }

  // ---------------------------------------------------------------- digs sent one at a time

  datatype Heard = Heard(topic: nat, event: DigEvent)

  /** One published frame. */
  datatype Packet = Packet(topic: nat, payload: OtherBytes)

  ghost predicate HasTopic(sent: seq<Packet>, t: nat) { exists i :: 0 <= i < |sent| && sent[i].topic == t }

  function PacketOf(h: Heard): Packet { Packet(h.topic, EncodeDigEvent(h.event)) }

  /** The DIG_EVENT frames that carry single events. */
  function Packets(heard: seq<Heard>): seq<Packet> {
    seq(|heard|, i requires 0 <= i < |heard| => PacketOf(heard[i]))
  }

  function FanOut(topics: seq<nat>, e: DigEvent): seq<Heard> {
    if topics == [] then [] else FanOut(topics[..|topics| - 1], e) + [Heard(topics[|topics| - 1], e)]
  }

  /** What single DIG messages publish: each accepted one goes once to every topic around its block. */
  function Singles(cfg: Config, p: Digger, st: SeqState, digs: seq<Dig>): seq<Heard> {
    if digs == [] then []
    else
      var before := digs[..|digs| - 1];
      Singles(cfg, p, st, before)
      + match Judge(cfg, p, SeqAfterAll(st, before), digs[|digs| - 1])
        case Refused(_) => []
        case Passed(t) => FanOut(AoiTopics(cfg, t.chunk), t.event)
  }

  function SeqAfterAll(st: SeqState, digs: seq<Dig>): SeqState {
    if digs == [] then st else SeqAfter(SeqAfterAll(st, digs[..|digs| - 1]), digs[|digs| - 1])
  }

  function EventsOn(heard: seq<Heard>, t: nat): seq<DigEvent> {
    if heard == [] then []
    else
      var last := heard[|heard| - 1];
      EventsOn(heard[..|heard| - 1], t) + if last.topic == t then [last.event] else []
  }

  // ---------------------------------------------------------------- a batch

  /** A batch is checked dig by dig; the first refusal ends it. */
  datatype Outcome = Outcome(st: SeqState, refused: Option<u16>, targets: seq<Target>)

  function JudgeNext(cfg: Config, p: Digger, o: Outcome, d: Dig): Outcome {
    if o.refused.Some? then o
    else
      match Judge(cfg, p, o.st, d)
      case Refused(code) => Outcome(SeqAfter(o.st, d), Some(code), o.targets)
      case Passed(t) => Outcome(SeqAfter(o.st, d), None, o.targets + [t])
  }

  function JudgeAll(cfg: Config, p: Digger, st: SeqState, digs: seq<Dig>): Outcome {
    if digs == [] then Outcome(st, None, [])
    else JudgeNext(cfg, p, JudgeAll(cfg, p, st, digs[..|digs| - 1]), digs[|digs| - 1])
  }

  /** The events of an accepted batch that concern topic t, in the order of the batch. */
  function TopicEvents(cfg: Config, targets: seq<Target>, t: nat): seq<DigEvent> {
    if targets == [] then []
    else
      var last := targets[|targets| - 1];
      TopicEvents(cfg, targets[..|targets| - 1], t) + if t in AoiTopics(cfg, last.chunk) then [last.event] else []
  }

  // ---------------------------------------------------------------- the batch refines the single digs

  lemma {:induction false} EventsConcat(a: seq<Heard>, b: seq<Heard>, t: nat)
    ensures EventsOn(a + b, t) == EventsOn(a, t) + EventsOn(b, t)
  {
    if b == [] {
      assert a + b == a;
    } else {
      EventsConcat(a, b[..|b| - 1], t);
      assert (a + b)[..|a + b| - 1] == a + b[..|b| - 1];
    }
  }

  lemma {:induction false} FanOutOn(topics: seq<nat>, e: DigEvent, t: nat)
    requires NoDup(topics)
    ensures EventsOn(FanOut(topics, e), t) == if t in topics then [e] else []
  {
    if topics != [] {
      var before, last := topics[..|topics| - 1], topics[|topics| - 1];
      FanOutOn(before, e, t);
      assert topics == before + [last] && last !in before;
      var heard := FanOut(topics, e);
      assert heard[..|heard| - 1] == FanOut(before, e);
    }
  }

  lemma {:induction false} TargetsServed(cfg: Config, p: Digger, st: SeqState, digs: seq<Dig>)
    ensures var o := JudgeAll(cfg, p, st, digs);
      && |o.targets| <= |digs|
      && forall x :: x in o.targets ==> Contains(cfg, x.chunk) && x.event.id == p.id && x.event.tick == p.tick
  {
    if digs != [] {
      TargetsServed(cfg, p, st, digs[..|digs| - 1]);
    }
  }

  lemma AcceptedPrefix(cfg: Config, p: Digger, st: SeqState, digs: seq<Dig>)
    requires digs != [] && JudgeAll(cfg, p, st, digs).refused.None?
    ensures var o := JudgeAll(cfg, p, st, digs[..|digs| - 1]);
      && o.refused.None?
      && Judge(cfg, p, o.st, digs[|digs| - 1]).Passed?
      && JudgeAll(cfg, p, st, digs).targets == o.targets + [Judge(cfg, p, o.st, digs[|digs| - 1]).target]
      && JudgeAll(cfg, p, st, digs).st == SeqAfter(o.st, digs[|digs| - 1])
  {
  }

  lemma {:induction false} SameSeqState(cfg: Config, p: Digger, st: SeqState, digs: seq<Dig>)
    requires JudgeAll(cfg, p, st, digs).refused.None?
    ensures JudgeAll(cfg, p, st, digs).st == SeqAfterAll(st, digs)
  {
    if digs != [] {
      AcceptedPrefix(cfg, p, st, digs);
      SameSeqState(cfg, p, st, digs[..|digs| - 1]);
    }
  }

  /** On every topic, an accepted batch carries exactly the events, in order, of the same digs sent one at a time. */
  lemma {:induction false} BatchRefinesSingles(cfg: Config, p: Digger, st: SeqState, digs: seq<Dig>, t: nat)
    requires Deployable(cfg) && JudgeAll(cfg, p, st, digs).refused.None?
    ensures TopicEvents(cfg, JudgeAll(cfg, p, st, digs).targets, t) == EventsOn(Singles(cfg, p, st, digs), t)
  {
    if digs != [] {
      var before, d := digs[..|digs| - 1], digs[|digs| - 1];
      AcceptedPrefix(cfg, p, st, digs);
      BatchRefinesSingles(cfg, p, st, before, t);
      SameSeqState(cfg, p, st, before);
      var o := JudgeAll(cfg, p, st, before);
      var target := Judge(cfg, p, o.st, d).target;
      AoiTopicsExact(cfg, target.chunk);
      FanOutOn(AoiTopics(cfg, target.chunk), target.event, t);
      EventsConcat(Singles(cfg, p, st, before), FanOut(AoiTopics(cfg, target.chunk), target.event), t);
      assert (o.targets + [target])[..|o.targets|] == o.targets;
    }
  }

  // ---------------------------------------------------------------- when a batch is accepted

  /** Every dig is new after the one before it, served, and within two chunks. */
  ghost predicate AllInOrder(cfg: Config, p: Digger, st: SeqState, digs: seq<Dig>) {
    && (digs != [] ==> NewSeq(st, digs[0]))
    && (forall i :: 0 <= i < |digs| - 1 ==> digs[i].seqNo != digs[i + 1].seqNo)
    && (forall i :: 0 <= i < |digs| ==> InReach(cfg, p, digs[i]))
  }

  predicate InReach(cfg: Config, p: Digger, d: Dig) {
    var c := LocalToGlobal(cfg, d.lx, d.lz);
    c.Some? && Within2(p.chunk, c.value)
  }

  lemma AllInOrderMore(cfg: Config, p: Digger, st: SeqState, digs: seq<Dig>)
    requires digs != []
    ensures var n := |digs| - 1;
      AllInOrder(cfg, p, st, digs)
      <==> && AllInOrder(cfg, p, st, digs[..n]) && InReach(cfg, p, digs[n])
           && NewSeq(if n == 0 then st else SeqState(true, digs[n - 1].seqNo), digs[n])
  {
    var before := digs[..|digs| - 1];
    assert digs == before + [digs[|digs| - 1]];
  }

  /** A batch is accepted exactly when no two neighbours share a number, the first is new, and all are in reach. */
  lemma {:induction false} AcceptedIff(cfg: Config, p: Digger, st: SeqState, digs: seq<Dig>)
    ensures JudgeAll(cfg, p, st, digs).refused.None? <==> AllInOrder(cfg, p, st, digs)
    ensures JudgeAll(cfg, p, st, digs).refused.None? ==>
      JudgeAll(cfg, p, st, digs).st == if digs == [] then st else SeqState(true, digs[|digs| - 1].seqNo)
  {
    if digs != [] {
      AcceptedIff(cfg, p, st, digs[..|digs| - 1]);
      AllInOrderMore(cfg, p, st, digs);
    }
  }

  // ---------------------------------------------------------------- single digs and the limiter

  /** What the server remembers of a digger between messages. */
  datatype Sender = Sender(st: SeqState, window: Window)

  datatype Timed = Timed(now: u64, dig: Dig)

  predicate Admits(limit: u16, s: Sender, m: Timed) { Allows(m.now, s.window, limit) }

  function After(limit: u16, s: Sender, m: Timed): Sender {
    Sender(if Admits(limit, s, m) then SeqAfter(s.st, m.dig) else s.st, Next(m.now, s.window, limit))
  }

  function AfterAll(limit: u16, s: Sender, ms: seq<Timed>): Sender {
    if ms == [] then s else After(limit, AfterAll(limit, s, ms[..|ms| - 1]), ms[|ms| - 1])
  }

  /** What one DIG message publishes. */
  function Said(cfg: Config, p: Digger, limit: u16, s: Sender, m: Timed): seq<Heard> {
    if !Admits(limit, s, m) then []
    else
      match Judge(cfg, p, s.st, m.dig)
      case Refused(_) => []
      case Passed(t) => FanOut(AoiTopics(cfg, t.chunk), t.event)
  }

  /** What DIG messages publish, the limiter included. */
  function LimitedSingles(cfg: Config, p: Digger, limit: u16, s: Sender, ms: seq<Timed>): seq<Heard> {
    if ms == [] then []
    else
      var before := ms[..|ms| - 1];
      LimitedSingles(cfg, p, limit, s, before) + Said(cfg, p, limit, AfterAll(limit, s, before), ms[|ms| - 1])
  }

  predicate AllAdmitted(limit: u16, s: Sender, ms: seq<Timed>) {
    if ms == [] then true
    else
      var before := ms[..|ms| - 1];
      AllAdmitted(limit, s, before) && Admits(limit, AfterAll(limit, s, before), ms[|ms| - 1])
  }

  function DigsIn(ms: seq<Timed>): seq<Dig> { seq(|ms|, i requires 0 <= i < |ms| => ms[i].dig) }

  lemma DigsInPrefix(ms: seq<Timed>)
    requires ms != []
    ensures DigsIn(ms)[..|ms| - 1] == DigsIn(ms[..|ms| - 1]) && DigsIn(ms)[|ms| - 1] == ms[|ms| - 1].dig
  {
  }

  /** While the limiter admits all, it makes no difference. */
  lemma {:induction false} AdmittedSay(cfg: Config, p: Digger, limit: u16, s: Sender, ms: seq<Timed>)
    requires AllAdmitted(limit, s, ms)
    ensures LimitedSingles(cfg, p, limit, s, ms) == Singles(cfg, p, s.st, DigsIn(ms))
    ensures AfterAll(limit, s, ms).st == SeqAfterAll(s.st, DigsIn(ms))
  {
    hide AoiTopics, Judge;
    if ms != [] {
      DigsInPrefix(ms);
      AdmittedSay(cfg, p, limit, s, ms[..|ms| - 1]);
    }
  }

  /** Messages that the limiter turns away although their dig concerns topic t. */
  function Missed(cfg: Config, limit: u16, s: Sender, ms: seq<Timed>, targets: seq<Target>, t: nat): nat
    requires |targets| == |ms|
  {
    if ms == [] then 0
    else
      var n := |ms| - 1;
      Missed(cfg, limit, s, ms[..n], targets[..n], t)
      + if !Admits(limit, AfterAll(limit, s, ms[..n]), ms[n]) && t in AoiTopics(cfg, targets[n].chunk) then 1 else 0
  }

  lemma TopicsOnce(cfg: Config, c: Chunk)
    requires Deployable(cfg) && Contains(cfg, c)
    ensures NoDup(AoiTopics(cfg, c))
  {
    AoiTopicsExact(cfg, c);
  }

  lemma SaidOn(cfg: Config, p: Digger, limit: u16, s: Sender, m: Timed, target: Target, t: nat)
    requires Deployable(cfg) && Contains(cfg, target.chunk)
    requires Judge(cfg, p, s.st, m.dig).Passed? ==> Judge(cfg, p, s.st, m.dig).target == target
    ensures |EventsOn(Said(cfg, p, limit, s, m), t)|
         <= if t in AoiTopics(cfg, target.chunk) && Admits(limit, s, m) then 1 else 0
  {
    hide Judge, Contains, AoiTopics, Near, FanOut, Admits;
    TopicsOnce(cfg, target.chunk);
    FanOutOn(AoiTopics(cfg, target.chunk), target.event, t);
  }

  lemma {:induction false} LimitedAtMost(cfg: Config, p: Digger, limit: u16, s: Sender, ms: seq<Timed>, t: nat)
    requires Deployable(cfg) && JudgeAll(cfg, p, s.st, DigsIn(ms)).refused.None?
    requires |JudgeAll(cfg, p, s.st, DigsIn(ms)).targets| == |ms|
    ensures var targets := JudgeAll(cfg, p, s.st, DigsIn(ms)).targets;
      |EventsOn(LimitedSingles(cfg, p, limit, s, ms), t)| + Missed(cfg, limit, s, ms, targets, t)
      <= |TopicEvents(cfg, targets, t)|
  {
    hide AoiTopics, Judge, Admits, Said, Deployable, Contains;
    if ms != [] {
      var n := |ms| - 1;
      var before, m := ms[..n], ms[n];
      DigsInPrefix(ms);
      AcceptedPrefix(cfg, p, s.st, DigsIn(ms));
      LimitedAtMost(cfg, p, limit, s, before, t);
      var o := JudgeAll(cfg, p, s.st, DigsIn(before));
      var target := Judge(cfg, p, o.st, m.dig).target;
      JudgedOnce(cfg, p, o.st, m.dig, AfterAll(limit, s, before).st);
      SaidOn(cfg, p, limit, AfterAll(limit, s, before), m, target, t);
      EventsConcat(LimitedSingles(cfg, p, limit, s, before), Said(cfg, p, limit, AfterAll(limit, s, before), m), t);
      assert (o.targets + [target])[..n] == o.targets;
    }
  }

  /** The sequence number decides whether a dig passes, not what it says. */
  lemma JudgedOnce(cfg: Config, p: Digger, st: SeqState, d: Dig, other: SeqState)
    requires Judge(cfg, p, st, d).Passed?
    ensures Contains(cfg, Judge(cfg, p, st, d).target.chunk)
    ensures Judge(cfg, p, other, d).Passed? ==> Judge(cfg, p, other, d).target == Judge(cfg, p, st, d).target
  {
  }

  /** A message that was turned away is missed on the topic of its own chunk. */
  lemma {:induction false} SomeMissed(cfg: Config, limit: u16, s: Sender, ms: seq<Timed>, targets: seq<Target>)
    returns (t: nat)
    requires Deployable(cfg) && |targets| == |ms| && !AllAdmitted(limit, s, ms)
    requires forall x :: x in targets ==> Contains(cfg, x.chunk)
    ensures Missed(cfg, limit, s, ms, targets, t) > 0
  {
    hide Deployable, Contains, AoiTopics, Admits;
    var n := |ms| - 1;
    assert targets[n] in targets;
    if Admits(limit, AfterAll(limit, s, ms[..n]), ms[n]) {
      assert forall x :: x in targets[..n] ==> x in targets;
      t := SomeMissed(cfg, limit, s, ms[..n], targets[..n]);
    } else {
      t := LocalIndex(cfg, targets[n].chunk);
      OwnTopic(cfg, targets[n].chunk);
    }
  }

  lemma OwnTopic(cfg: Config, c: Chunk)
    requires Deployable(cfg) && Contains(cfg, c)
    ensures LocalIndex(cfg, c) in AoiTopics(cfg, c)
  {
    AoiTopicsExact(cfg, c);
    assert Near(cfg, c, c);
  }

  lemma {:induction false} TargetCount(cfg: Config, p: Digger, st: SeqState, digs: seq<Dig>)
    requires JudgeAll(cfg, p, st, digs).refused.None?
    ensures |JudgeAll(cfg, p, st, digs).targets| == |digs|
  {
    if digs != [] {
      AcceptedPrefix(cfg, p, st, digs);
      TargetCount(cfg, p, st, digs[..|digs| - 1]);
    }
  }

  ghost predicate SaysTheSame(cfg: Config, p: Digger, limit: u16, s: Sender, ms: seq<Timed>) {
    forall t: nat :: TopicEvents(cfg, JudgeAll(cfg, p, s.st, DigsIn(ms)).targets, t)
                  == EventsOn(LimitedSingles(cfg, p, limit, s, ms), t)
  }

  /** A batch costs one call of the limiter and single digs one each: an accepted batch says what the same digs would
      have said one at a time exactly if the limiter would have admitted them all. */
  lemma BatchIsLimitedSingles(cfg: Config, p: Digger, limit: u16, s: Sender, ms: seq<Timed>)
    requires Deployable(cfg) && JudgeAll(cfg, p, s.st, DigsIn(ms)).refused.None?
    ensures SaysTheSame(cfg, p, limit, s, ms) <==> AllAdmitted(limit, s, ms)
  {
    hide Deployable, JudgeAll, TopicEvents, EventsOn, LimitedSingles, Missed, AllAdmitted, Contains;
    var targets := JudgeAll(cfg, p, s.st, DigsIn(ms)).targets;
    if AllAdmitted(limit, s, ms) {
      AdmittedSay(cfg, p, limit, s, ms);
      forall t: nat
        ensures TopicEvents(cfg, targets, t) == EventsOn(LimitedSingles(cfg, p, limit, s, ms), t)
      {
        BatchRefinesSingles(cfg, p, s.st, DigsIn(ms), t);
      }
    } else {
      TargetCount(cfg, p, s.st, DigsIn(ms));
      TargetsServed(cfg, p, s.st, DigsIn(ms));
      var t := SomeMissed(cfg, limit, s, ms, targets);
      LimitedAtMost(cfg, p, limit, s, ms, t);
      assert TopicEvents(cfg, targets, t) != EventsOn(LimitedSingles(cfg, p, limit, s, ms), t);
    }
  }

  predicate AllAt(ms: seq<Timed>, now: u64) { forall m :: m in ms ==> m.now == now }

  lemma {:induction false} CountAfter(limit: u16, s: Sender, ms: seq<Timed>, now: u64)
    requires AllAt(ms, now) && AllAdmitted(limit, s, ms)
    ensures ms != [] ==>
      var open := Opened(now, s.window);
      open.count + |ms| <= limit && AfterAll(limit, s, ms).window == open.(count := open.count + |ms|)
  {
    if ms != [] {
      var before := ms[..|ms| - 1];
      assert forall m :: m in before ==> m in ms;
      assert ms[|ms| - 1] in ms;
      CountAfter(limit, s, before, now);
      assert before == [] ==> AfterAll(limit, s, before) == s;
    }
  }

  /** Digs sent at one instant are all admitted exactly if the open window has room for them. */
  lemma {:induction false} RoomForAll(limit: u16, s: Sender, ms: seq<Timed>, now: u64)
    requires AllAt(ms, now) && ms != []
    ensures AllAdmitted(limit, s, ms) <==> Opened(now, s.window).count + |ms| <= limit
  {
    var before := ms[..|ms| - 1];
    assert forall m :: m in before ==> m in ms;
    assert ms[|ms| - 1] in ms;
    if before != [] {
      RoomForAll(limit, s, before, now);
    } else {
      assert AfterAll(limit, s, before) == s && AllAdmitted(limit, s, before);
    }
    if AllAdmitted(limit, s, before) {
      CountAfter(limit, s, before, now);
    }
  }

  // ---------------------------------------------------------------- a batch that is not its single digs

  /** A dig in the digger's own chunk. */
  function DigHere(cfg: Config, p: Digger, seqNo: u16): Dig {
    Dig(seqNo, ToLocalX(cfg, p.chunk.x), ToLocalZ(cfg, p.chunk.z), 0, 0, 0, 0, 0)
  }

  /** n such digs at one instant, under two numbers in turn, the first of them new. */
  function Alternating(cfg: Config, p: Digger, st: SeqState, now: u64, n: nat): seq<Timed> {
    seq(n, i => Timed(now, DigHere(cfg, p, if i % 2 == 0 then WrapU16(st.last + 1) else st.last)))
  }

  lemma AlternatingPasses(cfg: Config, p: Digger, st: SeqState, now: u64, n: nat)
    requires Deployable(cfg) && Contains(cfg, p.chunk)
    ensures JudgeAll(cfg, p, st, DigsIn(Alternating(cfg, p, st, now, n))).refused.None?
  {
    hide JudgeAll, LocalToGlobal;
    var digs := DigsIn(Alternating(cfg, p, st, now, n));
    var here := DigHere(cfg, p, 0);
    LocalToGlobalInverts(cfg, here.lx, here.lz, p.chunk);
    AcceptedIff(cfg, p, st, digs);
  }

  /** Whatever the limit and the open window, if the limiter admits a message now, then any number of digs up to 255
      that does not fit the window makes a batch that passes and does not say what the same digs would one at a time. */
  lemma BatchSaysOther(cfg: Config, p: Digger, limit: u16, s: Sender, now: u64, n: nat)
    requires Deployable(cfg) && Contains(cfg, p.chunk) && Allows(now, s.window, limit)
    requires n <= 255 && Opened(now, s.window).count + n > limit
    ensures exists ms: seq<Timed> ::
      && |ms| == n && AllAt(ms, now) && JudgeAll(cfg, p, s.st, DigsIn(ms)).refused.None?
      && !SaysTheSame(cfg, p, limit, s, ms)
  {
    assert n > 0;
    hide JudgeAll, SaysTheSame, AllAdmitted, Allows, Opened;
    var ms := Alternating(cfg, p, s.st, now, n);
    AlternatingPasses(cfg, p, s.st, now, n);
    BatchIsLimitedSingles(cfg, p, limit, s, ms);
    RoomForAll(limit, s, ms, now);
  }
}
