/** The numbers the server keeps over a run: ids, ticks and what became of the moves. */
module Counters {
  import opened Ints
  import opened Chunks
  import opened Wire
  import opened RateLimit
  import opened Session
  import opened Tables
  import opened Runs
  import opened Theorems
  import opened FlushExact
  import opened Admissions

  // ---------------------------------------------------------------- the queue, counted

  /** The queued players that are still connected. */
  ghost function Present(g: State, queue: seq<Ref>): set<Ref> { set r | r in queue && At(g, r).connected }

  /** The queued players that are not. */
  ghost function Absent(g: State, queue: seq<Ref>): set<Ref> { set r | r in queue && !At(g, r).connected }

  lemma PresentMore(g: State, before: seq<Ref>, last: Ref)
    requires last !in before
    ensures |Present(g, before + [last])| == |Present(g, before)| + if At(g, last).connected then 1 else 0
    ensures |Absent(g, before + [last])| == |Absent(g, before)| + if At(g, last).connected then 0 else 1
  {
    var queue := before + [last];
    if At(g, last).connected {
      assert Present(g, queue) == Present(g, before) + {last} && Absent(g, queue) == Absent(g, before);
    } else {
      assert Absent(g, queue) == Absent(g, before) + {last} && Present(g, queue) == Present(g, before);
    }
  }

  lemma QueuedHasMove(cfg: Config, g: State, r: Ref)
    requires QueueOk(cfg, g) && r in g.queue
    ensures Flushable(At(g, r)) <==> At(g, r).connected
  {
    if At(g, r).connected {
      assert FlagsOk(cfg, g, r);
    }
  }

  lemma {:induction false} CountsAreSizes(cfg: Config, g: State, queue: seq<Ref>)
    requires QueueOk(cfg, g) && NoDup(queue) && forall r :: r in queue ==> r in g.queue
    ensures CountFlushable(g, queue) == |Present(g, queue)| && CountGone(g, queue) == |Absent(g, queue)|
  {
    hide QueueOk, Present, Absent;
    if queue == [] {
      NobodyQueued(g);
    } else {
      var before, last := queue[..|queue| - 1], queue[|queue| - 1];
      assert queue == before + [last] && last in queue && last !in before;
      assert forall r :: r in before ==> r in queue;
      CountsAreSizes(cfg, g, before);
      PresentMore(g, before, last);
      QueuedHasMove(cfg, g, last);
    }
  }

  lemma NobodyQueued(g: State)
    ensures |Present(g, [])| == 0 && |Absent(g, [])| == 0
  {
    assert Present(g, []) == {} && Absent(g, []) == {};
  }

  // ---------------------------------------------------------------- one step

  /** The number after id; 0 is never given out. */
  function Following(id: u16): u16 { if id == 65535 then 1 else id + 1 }

  predicate SameCounts(g: State, g': State) {
    && g'.tick == g.tick && g'.dropped == g.dropped && g'.flushed == g.flushed && g'.skipped == g.skipped
    && g'.queue == g.queue
  }

  /** No player is new, or one is, and it has the next free number. */
  ghost predicate Numbered(g: State, g': State) {
    if |g'.objs| == |g.objs| then g'.nextId == g.nextId
    else
      && |g'.objs| == |g.objs| + 1
      && var id := g'.objs[|g.objs|].id;
      LowestFrom(g'.active.Keys - {id}, g.nextId, id) && g'.nextId == Following(id)
  }

  lemma RetireLedger(cfg: Config, w: World, wallet: Wallet)
    ensures var g' := RetireStep(cfg, w, wallet).g;
      SameCounts(w.g, g') && g'.nextId == w.g.nextId && |g'.objs| == |w.g.objs|
  {
    hide Deliver, AoiPubs;
  }

  lemma CreateLedger(cfg: Config, g: State, h: Hello, now: u64)
    requires TableOk(g) && Create(cfg, g, h, now).Some?
    ensures SameCounts(g, Create(cfg, g, h, now).value) && Numbered(g, Create(cfg, g, h, now).value)
  {
    var g' := Create(cfg, g, h, now).value;
    IdsGoUp(cfg, g, h, now);
    assert g'.active.Keys - {g'.objs[|g.objs|].id} == g.active.Keys;
  }

  lemma AdmitLedger(cfg: Config, w: World, s: Sid, h: Hello, now: u64, order: seq<Ref>)
    requires TableOk(w.g)
    ensures var g' := AdmitStep(cfg, w, s, h, now, order).g; SameCounts(w.g, g') && Numbered(w.g, g')
  {
    hide Create, Send, Subscribe, Joins, TableOk, LowestFrom;
    if CanAccept(cfg, w.g) && Create(cfg, w.g, h, now).Some? {
      CreateLedger(cfg, w.g, h, now);
    }
  }

  lemma HelloLedger(cfg: Config, w: World, s: Sid, msg: bytes, now: u64, order: seq<Ref>)
    requires Deployable(cfg) && Inv(cfg, w)
    ensures var g' := HelloStep(cfg, w, s, msg, now, order).g; SameCounts(w.g, g') && Numbered(w.g, g')
  {
    hide Inv, DecodeHello, RetireStep, AdmitStep, Send, LowestFrom, TableOk;
    if s in w.users && !HelloRefused(w, s, msg) {
      var h := DecodeHello(msg).value;
      RetireLedger(cfg, w, h.wallet);
      RetireKeeps(cfg, w, h.wallet);
      TableOfInv(cfg, RetireStep(cfg, w, h.wallet));
      AdmitLedger(cfg, RetireStep(cfg, w, h.wallet), s, h, now, order);
    }
  }

  lemma TableOfInv(cfg: Config, w: World)
    requires Inv(cfg, w)
    ensures TableOk(w.g) && QueueOk(cfg, w.g)
  {
  }

  lemma QueuedIs(cfg: Config, g: State, r: Ref)
    requires TableOk(g) && QueueOk(cfg, g) && IsActive(g, r)
    ensures At(g, r).queued <==> r in g.queue
  {
    ActiveIsConnected(g, r);
    assert FlagsOk(cfg, g, r);
  }

  /** A move that is taken waits in the queue once. If the player already stands there, its earlier move is dropped. */
  lemma MoveLedger(cfg: Config, w: World, s: Sid, msg: bytes, now: u64)
    requires TableOk(w.g) && QueueOk(cfg, w.g)
    ensures var g, g', e := w.g, MoveStep(cfg, w, s, msg, now).g, MoveMsg(s, msg, now);
      if Takes(cfg, w, e) then
        var again := w.users[s].value in g.queue;
        && g'.tick == g.tick && g'.flushed == g.flushed && g'.skipped == g.skipped
        && g'.dropped == g.dropped + (if again then 1 else 0)
        && g'.queue == g.queue + (if again then [] else [w.users[s].value])
      else SameCounts(g, g')
    ensures var g' := MoveStep(cfg, w, s, msg, now).g; |g'.objs| == |w.g.objs| && g'.nextId == w.g.nextId
  {
    hide DecodeMove, LocalToGlobal, Allows, Next, Resubscribed, Deliver, Send, LeftPubs, JoinedPubs, ItemOf,
      StillSettled, TableOk, QueueOk;
    if Takes(cfg, w, MoveMsg(s, msg, now)) {
      QueuedIs(cfg, w.g, w.users[s].value);
    }
  }

  /** Every step: the tick counts flushes; a flush sends the moves of all queued players that are connected, skips the
      others and empties the queue; a move that is taken joins the queue, or replaces the one that waits there. */
  lemma StepLedger(cfg: Config, w: World, e: Event)
    requires Deployable(cfg) && Inv(cfg, w)
    ensures var g, g' := w.g, Step(cfg, w, e).g;
      && g'.tick == (if e.Flush? then (g.tick + 1) % 65536 else g.tick)
      && g'.flushed == g.flushed + (if e.Flush? then |Present(g, g.queue)| else 0)
      && g'.skipped == g.skipped + (if e.Flush? then |Absent(g, g.queue)| else 0)
      && g'.dropped == g.dropped + (if Takes(cfg, w, e) && w.users[e.s].value in g.queue then 1 else 0)
      && g'.queue == if e.Flush? then []
                     else if Takes(cfg, w, e) && w.users[e.s].value !in g.queue then g.queue + [w.users[e.s].value]
                     else g.queue
    ensures Numbered(w.g, Step(cfg, w, e).g)
  {
    hide Inv, HelloStep, MoveStep, FlushStep, Deliver, Accepted, LowestFrom, Present, Absent;
    match e
    case HelloMsg(s, msg, now, snapshot) => HelloLedger(cfg, w, s, msg, now, snapshot);
    case MoveMsg(s, msg, now) =>
      TableOfInv(cfg, w);
      MoveLedger(cfg, w, s, msg, now);
    case Flush(order) =>
      TableOfInv(cfg, w);
      FlushLedger(cfg, w, order);
    case _ =>
  }

  lemma FlushLedger(cfg: Config, w: World, order: seq<nat>)
    requires QueueOk(cfg, w.g)
    ensures var g, g' := w.g, FlushStep(cfg, w, order).g;
      && g'.tick == (g.tick + 1) % 65536 && g'.dropped == g.dropped && g'.queue == [] && g'.nextId == g.nextId
      && g'.flushed == g.flushed + |Present(g, g.queue)| && g'.skipped == g.skipped + |Absent(g, g.queue)|
      && |g'.objs| == |g.objs|
  {
    QueueOnce(cfg, w.g);
    CountsAreSizes(cfg, w.g, w.g.queue);
    hide QueueOk, CountFlushable, CountGone, Present, Absent, Deliver;
  }

  // ---------------------------------------------------------------- every run

  function Flushes(events: seq<Event>): nat {
    if events == [] then 0 else (if events[0].Flush? then 1 else 0) + Flushes(events[1..])
  }

  /** The number that the next player is tried with follows the last one given out; the first is 1. */
  predicate Follows(g: State) { g.nextId == if g.objs == [] then 1 else Following(g.objs[|g.objs| - 1].id) }

  lemma StepFollows(cfg: Config, w: World, e: Event)
    requires Deployable(cfg) && Inv(cfg, w) && Follows(w.g)
    ensures Follows(Step(cfg, w, e).g)
  {
    hide Inv, Step;
    StepLedger(cfg, w, e);
    StepLater(cfg, w, e);
  }

  lemma {:induction false} NumbersFrom(cfg: Config, w0: World, events: seq<Event>, w: World)
    requires Deployable(cfg) && Inv(cfg, w0) && Follows(w0.g) && Run(cfg, w0, events, w)
    ensures w.g.tick == (w0.g.tick + Flushes(events)) % 65536 && Follows(w.g)
    decreases |events|
  {
    hide Inv, Step, Possible, Follows, Numbered, Present, Absent, Takes;
    if events != [] {
      StepLedger(cfg, w0, events[0]);
      StepFollows(cfg, w0, events[0]);
      StepKeeps(cfg, w0, events[0]);
      NumbersFrom(cfg, Step(cfg, w0, events[0]), events[1..], w);
      TicksAdd(w0.g.tick, if events[0].Flush? then 1 else 0, Flushes(events[1..]));
    }
  }

  lemma TicksAdd(tick: u16, first: nat, rest: nat)
    ensures ((tick + first) % 65536 + rest) % 65536 == (tick + (first + rest)) % 65536
  {
  }

  /** In every run the tick is the number of flushes, modulo 2^16, and a HELLO that is accepted gives out the first
      number in use by nobody else among those that follow the last one given out, 1 after 65535, beginning with 1. */
  lemma NumbersOfRun(cfg: Config, events: seq<Event>, w: World, e: Event)
    requires Deployable(cfg) && Run(cfg, START, events, w) && Possible(cfg, w, e)
    ensures w.g.tick == Flushes(events) % 65536
    ensures var g' := Step(cfg, w, e).g;
      |g'.objs| > |w.g.objs| ==>
        var id := g'.objs[|w.g.objs|].id;
        LowestFrom(g'.active.Keys - {id}, if w.g.objs == [] then 1 else Following(w.g.objs[|w.g.objs| - 1].id), id)
  {
    hide Inv, Step, Possible, Run, LowestFrom;
    StartInv(cfg);
    EveryRun(cfg, events, w);
    NumbersFrom(cfg, START, events, w);
    StepLedger(cfg, w, e);
  }
}
