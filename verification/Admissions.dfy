/** The move limiter over whole runs: how many MOVEs of one player a server accepts. */
module Admissions {
  import opened Ints
  import opened Chunks
  import opened Wire
  import opened RateLimit
  import opened Session
  import opened Runs

  // ---------------------------------------------------------------- what a run shows of one limiter

  /** The event asks the limiter of player r. */
  ghost predicate Asks(w: World, e: Event, r: Ref) {
    e.MoveMsg? && HasPlayer(w.users, e.s, r) && IsActive(w.g, r) && DecodeMove(e.msg).Some?
  }

  /** The event is a MOVE of player r that the handler takes. */
  ghost predicate Accepted(cfg: Config, w: World, e: Event, r: Ref) {
    && Asks(w, e, r) && Allows(e.now, At(w.g, r).moveWindow, cfg.moveLimit)
    && LocalToGlobal(cfg, DecodeMove(e.msg).value.lx, DecodeMove(e.msg).value.lz).Some?
  }

  /** The accepted MOVEs of player r among the events from w on, at times in [a, b). */
  ghost function AcceptedMoves(cfg: Config, w: World, events: seq<Event>, r: Ref, a: int, b: int): nat
    decreases |events|
  {
    if events == [] then 0
    else
      (if Accepted(cfg, w, events[0], r) && a <= events[0].now < b then 1 else 0)
      + AcceptedMoves(cfg, Step(cfg, w, events[0]), events[1..], r, a, b)
  }

  predicate Dated(e: Event) { e.HelloMsg? || e.MoveMsg? }

  /** The clock that HELLO and MOVE read does not run backwards. */
  predicate ClockForward(events: seq<Event>, from: u64)
    decreases |events|
  {
    events == []
    || ((Dated(events[0]) ==> from <= events[0].now)
        && ClockForward(events[1..], if Dated(events[0]) then events[0].now else from))
  }

  // ---------------------------------------------------------------- one step

  /** From g to g', no limiter has changed. */
  ghost predicate SameWindows(g: State, g': State) {
    |g.objs| <= |g'.objs| && forall r: Ref :: r < |g.objs| ==> At(g', r).moveWindow == At(g, r).moveWindow
  }

  lemma RetireWindows(cfg: Config, w: World, wallet: Wallet)
    ensures var g' := RetireStep(cfg, w, wallet).g; |g'.objs| == |w.g.objs| && SameWindows(w.g, g')
  {
    hide Deliver, AoiPubs;
  }

  lemma AdmitWindows(cfg: Config, w: World, s: Sid, h: Hello, now: u64, order: seq<Ref>)
    ensures var g' := AdmitStep(cfg, w, s, h, now, order).g;
      && |g'.objs| <= |w.g.objs| + 1 && SameWindows(w.g, g')
      && (|g'.objs| > |w.g.objs| ==> At(g', |w.g.objs|).moveWindow == Window(now, 0))
  {
    hide FirstFree, Send, Subscribe, Joins;
  }

  lemma HelloWindows(cfg: Config, w: World, s: Sid, msg: bytes, now: u64, order: seq<Ref>)
    ensures var g' := HelloStep(cfg, w, s, msg, now, order).g;
      && |g'.objs| <= |w.g.objs| + 1 && SameWindows(w.g, g')
      && (|g'.objs| > |w.g.objs| ==> At(g', |w.g.objs|).moveWindow == Window(now, 0))
  {
    hide DecodeHello, RetireStep, AdmitStep, Send;
    if s in w.users && !HelloRefused(w, s, msg) {
      var h := DecodeHello(msg).value;
      RetireWindows(cfg, w, h.wallet);
      AdmitWindows(cfg, RetireStep(cfg, w, h.wallet), s, h, now, order);
    }
  }

  lemma MoveWindows(cfg: Config, w: World, s: Sid, msg: bytes, now: u64, r: Ref)
    ensures var g' := MoveStep(cfg, w, s, msg, now).g;
      && |g'.objs| == |w.g.objs|
      && (r < |w.g.objs| ==>
            At(g', r).moveWindow == if Asks(w, MoveMsg(s, msg, now), r)
                                    then Next(now, At(w.g, r).moveWindow, cfg.moveLimit) else At(w.g, r).moveWindow)
  {
    hide DecodeMove, LocalToGlobal, Allows, Next, Resubscribed, Deliver, Send, LeftPubs, JoinedPubs, ItemOf,
      StillSettled;
  }

  /** Only a MOVE of r touches the limiter of r. */
  lemma StepWindow(cfg: Config, w: World, e: Event, r: Ref)
    requires r < |w.g.objs|
    ensures var w' := Step(cfg, w, e);
      && r < |w'.g.objs|
      && At(w'.g, r).moveWindow
         == if Asks(w, e, r) then Next(e.now, At(w.g, r).moveWindow, cfg.moveLimit) else At(w.g, r).moveWindow
  {
    hide HelloStep, MoveStep, Deliver, Next;
    match e
    case HelloMsg(s, msg, now, snapshot) => HelloWindows(cfg, w, s, msg, now, snapshot);
    case MoveMsg(s, msg, now) => MoveWindows(cfg, w, s, msg, now, r);
    case _ =>
  }

  /** A player starts with a fresh window, opened at its HELLO. */
  lemma NewWindow(cfg: Config, w: World, e: Event, r: Ref)
    requires |w.g.objs| <= r < |Step(cfg, w, e).g.objs|
    ensures e.HelloMsg? && At(Step(cfg, w, e).g, r).moveWindow == Window(e.now, 0)
  {
    hide HelloStep, MoveStep, Deliver;
    match e
    case HelloMsg(s, msg, now, snapshot) => HelloWindows(cfg, w, s, msg, now, snapshot);
    case MoveMsg(s, msg, now) => MoveWindows(cfg, w, s, msg, now, r);
    case _ =>
  }

  // ---------------------------------------------------------------- from a window on

  lemma {:induction false} NoneAfter(cfg: Config, w: World, events: seq<Event>, r: Ref, a: int, b: int, from: u64)
    requires ClockForward(events, from) && b <= from
    ensures AcceptedMoves(cfg, w, events, r, a, b) == 0
    decreases |events|
  {
    hide Step;
    if events != [] {
      NoneAfter(cfg, Step(cfg, w, events[0]), events[1..], r, a, b,
                if Dated(events[0]) then events[0].now else from);
    }
  }

  lemma {:induction false} MovesWithin(cfg: Config, w: World, events: seq<Event>, r: Ref, a: int, b: int, now: u64)
    requires r < |w.g.objs| && ClockForward(events, now) && a < b
    requires At(w.g, r).moveWindow.start <= now && At(w.g, r).moveWindow.count <= cfg.moveLimit
    ensures AcceptedMoves(cfg, w, events, r, a, b) <= Budget(At(w.g, r).moveWindow, cfg.moveLimit, a, b)
    decreases |events|
  {
    hide Step, Budget, DecodeMove, LocalToGlobal, IsActive;
    BudgetNat(At(w.g, r).moveWindow, cfg.moveLimit, a, b);
    if events != [] {
      var e, w' := events[0], Step(cfg, w, events[0]);
      var t := if Dated(e) then e.now else now;
      StepWindow(cfg, w, e, r);
      if b <= t {
        NoneAfter(cfg, w', events[1..], r, a, b, t);
      } else {
        MovesWithin(cfg, w', events[1..], r, a, b, t);
        BudgetStep(At(w.g, r).moveWindow, t, cfg.moveLimit, a, b);
      }
    }
  }

  lemma {:induction false} MovesFromStart(cfg: Config, w: World, events: seq<Event>, r: Ref, a: int, len: nat,
                                          from: u64)
    requires |w.g.objs| <= r && ClockForward(events, from) && len > 0
    ensures AcceptedMoves(cfg, w, events, r, a, a + len) <= cfg.moveLimit * (len / 1000 + 2)
    ensures len <= 1000 ==> AcceptedMoves(cfg, w, events, r, a, a + len) <= 2 * cfg.moveLimit
    decreases |events|
  {
    hide Step, Budget;
    if events != [] {
      var e, w' := events[0], Step(cfg, w, events[0]);
      if r < |w'.g.objs| {
        NewWindow(cfg, w, e, r);
        MovesWithin(cfg, w', events[1..], r, a, a + len, e.now);
        BudgetFresh(e.now, cfg.moveLimit, a, len);
      } else {
        MovesFromStart(cfg, w', events[1..], r, a, len, if Dated(e) then e.now else from);
      }
    }
  }

  /** Whatever the sockets do, no player has more than so many MOVEs accepted in an interval of len milliseconds. */
  lemma MovesPerPlayer(cfg: Config, events: seq<Event>, r: Ref, a: int, len: nat)
    requires ClockForward(events, 0) && len > 0
    ensures AcceptedMoves(cfg, START, events, r, a, a + len) <= cfg.moveLimit * (len / 1000 + 2)
    ensures len <= 1000 ==> AcceptedMoves(cfg, START, events, r, a, a + len) <= 2 * cfg.moveLimit
  {
    MovesFromStart(cfg, START, events, r, a, len, 0);
  }

  // ---------------------------------------------------------------- which moves are admitted

  /** When the MOVEs of player r asked its limiter, among the events from w on. */
  ghost function CallTimes(cfg: Config, w: World, events: seq<Event>, r: Ref): seq<u64>
    decreases |events|
  {
    if events == [] then []
    else
      (if Asks(w, events[0], r) then [events[0].now] else [])
      + CallTimes(cfg, Step(cfg, w, events[0]), events[1..], r)
  }

  /** When player r said HELLO. */
  ghost function HelloTime(cfg: Config, w: World, events: seq<Event>, r: Ref): u64
    decreases |events|
  {
    if events == [] then 0
    else if |w.g.objs| <= r < |Step(cfg, w, events[0]).g.objs| then
      if events[0].HelloMsg? then events[0].now else 0
    else HelloTime(cfg, Step(cfg, w, events[0]), events[1..], r)
  }

  lemma {:induction false} WindowKept(cfg: Config, w0: World, events: seq<Event>, w: World, r: Ref, times: seq<u64>,
                                      t0: u64)
    requires Run(cfg, w0, events, w) && r < |w0.g.objs|
    requires At(w0.g, r).moveWindow == WindowAfter(times, Window(t0, 0), cfg.moveLimit)
    ensures r < |w.g.objs|
    ensures At(w.g, r).moveWindow == WindowAfter(times + CallTimes(cfg, w0, events, r), Window(t0, 0), cfg.moveLimit)
    decreases |events|
  {
    hide Step, Asks, Possible, WindowAfter, Next;
    if events == [] {
      assert times + [] == times;
    } else {
      var e, w1 := events[0], Step(cfg, w0, events[0]);
      StepWindow(cfg, w0, e, r);
      if Asks(w0, e, r) {
        AsksAtTime(w0, e, r);
        WindowMore(times, e.now, Window(t0, 0), cfg.moveLimit);
        WindowKept(cfg, w1, events[1..], w, r, times + [e.now], t0);
        assert times + [e.now] + CallTimes(cfg, w1, events[1..], r) == times + CallTimes(cfg, w0, events, r);
      } else {
        WindowKept(cfg, w1, events[1..], w, r, times, t0);
        assert CallTimes(cfg, w0, events, r) == CallTimes(cfg, w1, events[1..], r);
      }
    }
  }

  lemma AsksAtTime(w: World, e: Event, r: Ref)
    requires Asks(w, e, r)
    ensures e.MoveMsg? && r < |w.g.objs|
  {
  }

  lemma {:induction false} WindowFrom(cfg: Config, w0: World, events: seq<Event>, w: World, r: Ref)
    requires Run(cfg, w0, events, w) && |w0.g.objs| <= r < |w.g.objs|
    ensures At(w.g, r).moveWindow
         == WindowAfter(CallTimes(cfg, w0, events, r), Window(HelloTime(cfg, w0, events, r), 0), cfg.moveLimit)
    decreases |events|
  {
    hide Step, Asks, Possible, WindowAfter, Next;
    if events != [] {
      var e, w1 := events[0], Step(cfg, w0, events[0]);
      if Asks(w0, e, r) {
        AsksAtTime(w0, e, r);
        assert false;
      }
      assert CallTimes(cfg, w0, events, r) == CallTimes(cfg, w1, events[1..], r);
      if r < |w1.g.objs| {
        NewWindow(cfg, w0, e, r);
        NoCalls(Window(e.now, 0), cfg.moveLimit);
        WindowKept(cfg, w1, events[1..], w, r, [], e.now);
        assert [] + CallTimes(cfg, w1, events[1..], r) == CallTimes(cfg, w1, events[1..], r);
      } else {
        WindowFrom(cfg, w1, events[1..], w, r);
      }
    }
  }

  lemma NoCalls(w: Window, limit: u16)
    ensures WindowAfter([], w, limit) == w
  {
  }

  /** In every run a MOVE of a player is taken exactly when it names a served chunk and is one of the first moveLimit
      MOVEs since its window was opened; the first window is opened by the HELLO. */
  lemma AcceptedExactly(cfg: Config, events: seq<Event>, w: World, e: Event, r: Ref)
    requires Run(cfg, START, events, w) && Asks(w, e, r)
    ensures var calls, m := CallTimes(cfg, START, events, r) + [e.now], DecodeMove(e.msg).value;
      Accepted(cfg, w, e, r)
      <==> && PlaceInWindow(calls, HelloTime(cfg, START, events, r)) <= cfg.moveLimit
           && LocalToGlobal(cfg, m.lx, m.lz).Some?
  {
    hide Run, PlaceInWindow, Allows, WindowAfter;
    WindowFrom(cfg, START, events, w, r);
    NthCall(CallTimes(cfg, START, events, r), e.now, HelloTime(cfg, START, events, r), cfg.moveLimit);
  }

  // ---------------------------------------------------------------- the counter of accepted moves

  ghost predicate Takes(cfg: Config, w: World, e: Event) {
    e.MoveMsg? && e.s in w.users && w.users[e.s].Some? && Accepted(cfg, w, e, w.users[e.s].value)
  }

  ghost function AcceptedInAll(cfg: Config, w: World, events: seq<Event>): nat
    decreases |events|
  {
    if events == [] then 0
    else (if Takes(cfg, w, events[0]) then 1 else 0) + AcceptedInAll(cfg, Step(cfg, w, events[0]), events[1..])
  }

  lemma AdmitCounts(cfg: Config, w: World, s: Sid, h: Hello, now: u64, order: seq<Ref>)
    ensures AdmitStep(cfg, w, s, h, now, order).g.moveIn == w.g.moveIn
  {
    hide FirstFree, Send, Subscribe, Joins;
  }

  lemma RetireCounts(cfg: Config, w: World, wallet: Wallet)
    ensures RetireStep(cfg, w, wallet).g.moveIn == w.g.moveIn
  {
    hide Deliver, AoiPubs;
  }

  lemma HelloCounts(cfg: Config, w: World, s: Sid, msg: bytes, now: u64, order: seq<Ref>)
    ensures HelloStep(cfg, w, s, msg, now, order).g.moveIn == w.g.moveIn
  {
    hide DecodeHello, RetireStep, AdmitStep, Send;
    if s in w.users && !HelloRefused(w, s, msg) {
      var h := DecodeHello(msg).value;
      RetireCounts(cfg, w, h.wallet);
      AdmitCounts(cfg, RetireStep(cfg, w, h.wallet), s, h, now, order);
    }
  }

  lemma MoveCounts(cfg: Config, w: World, s: Sid, msg: bytes, now: u64)
    ensures MoveStep(cfg, w, s, msg, now).g.moveIn
         == w.g.moveIn + if Takes(cfg, w, MoveMsg(s, msg, now)) then 1 else 0
  {
    hide DecodeMove, LocalToGlobal, Allows, Next, Resubscribed, Deliver, Send, LeftPubs, JoinedPubs, ItemOf,
      StillSettled;
  }

  lemma StepCounts(cfg: Config, w: World, e: Event)
    ensures Step(cfg, w, e).g.moveIn == w.g.moveIn + if Takes(cfg, w, e) then 1 else 0
  {
    hide HelloStep, MoveStep, Deliver, Accepted;
    match e
    case HelloMsg(s, msg, now, snapshot) => HelloCounts(cfg, w, s, msg, now, snapshot);
    case MoveMsg(s, msg, now) => MoveCounts(cfg, w, s, msg, now);
    case _ =>
  }

  /** The counter that the conservation law speaks of is the number of MOVEs that the handler took. */
  lemma {:induction false} MovesCounted(cfg: Config, w0: World, events: seq<Event>, w: World)
    requires Run(cfg, w0, events, w)
    ensures w.g.moveIn == w0.g.moveIn + AcceptedInAll(cfg, w0, events)
    decreases |events|
  {
    hide Step, Possible;
    if events != [] {
      StepCounts(cfg, w0, events[0]);
      MovesCounted(cfg, Step(cfg, w0, events[0]), events[1..], w);
    }
  }
}
