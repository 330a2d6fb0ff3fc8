/** Which clients the view theorems speak of: those whose surroundings every change of chunk has kept. */
module Settled {
  import opened Ints
  import opened Chunks
  import opened Wire
  import opened RateLimit
  import opened Session
  import opened Runs
  import opened Theorems
  import opened Admissions
  import opened Messages
  import opened Hearing
  import opened Acknowledged

  /** Player r finds the same other posed players within reach of both chunks. */
  ghost predicate SameAround(cfg: Config, g: State, r: Ref, from: Chunk, to: Chunk) {
    forall q: Ref :: q != r && q < |g.objs| && g.objs[q].connected && g.objs[q].hasPose ==>
      (InRange(cfg, from, g.objs[q].chunk) <==> InRange(cfg, to, g.objs[q].chunk))
  }

  lemma SameAroundIs(cfg: Config, g: State, r: Ref, from: Chunk, to: Chunk)
    ensures SameAround(cfg, g, r, from, to) <==> SameSurroundings(cfg, g, r, from, to)
  {
    hide Near, InRange;
    forall q: Ref | q < |g.objs|
      ensures InRange(cfg, from, g.objs[q].chunk) <==> Near(cfg, from, g.objs[q].chunk)
      ensures InRange(cfg, to, g.objs[q].chunk) <==> Near(cfg, to, g.objs[q].chunk)
    {
      InRangeIsNear(cfg, from, g.objs[q].chunk);
      InRangeIsNear(cfg, to, g.objs[q].chunk);
    }
  }

  /** If the event is a MOVE of r that is taken, r finds the same others where it goes. */
  ghost predicate Keeps(cfg: Config, w: World, e: Event, r: Ref) {
    Accepted(cfg, w, e, r) ==>
      var m := DecodeMove(e.msg).value;
      SameAround(cfg, w.g, r, At(w.g, r).chunk, LocalToGlobal(cfg, m.lx, m.lz).value)
  }

  /** So it is for all the events from w on. */
  ghost predicate KeepsAll(cfg: Config, w: World, events: seq<Event>, r: Ref)
    decreases |events|
  {
    events == [] || (Keeps(cfg, w, events[0], r) && KeepsAll(cfg, Step(cfg, w, events[0]), events[1..], r))
  }

  // ---------------------------------------------------------------- one step

  lemma HelloSettles(cfg: Config, w: World, s: Sid, msg: bytes, now: u64, order: seq<Ref>, q: Sid)
    requires q != s || (s in w.users && w.users[s].Some?)
    ensures q in HelloStep(cfg, w, s, msg, now, order).settled <==> q in w.settled
  {
    hide Create, Deliver, AoiPubs, Joins, DecodeHello, WalletEmpty;
  }

  lemma MoveSettles(cfg: Config, w: World, s: Sid, msg: bytes, now: u64, q: Sid, r: Ref)
    requires HasPlayer(w.users, q, r)
    requires q == s || !Asks(w, MoveMsg(s, msg, now), r)
    ensures q in MoveStep(cfg, w, s, msg, now).settled <==> q in w.settled && Keeps(cfg, w, MoveMsg(s, msg, now), r)
  {
    hide DecodeMove, LocalToGlobal, Allows, Next, Moved, Resubscribed, Deliver, Send, LeftPubs, JoinedPubs,
      SameSurroundings, SameAround;
    var e := MoveMsg(s, msg, now);
    if q == s && Accepted(cfg, w, e, r) {
      var p, m := At(w.g, r), DecodeMove(msg).value;
      var c := LocalToGlobal(cfg, m.lx, m.lz).value;
      SameAroundIs(cfg, w.g, r, p.chunk, c);
      WindowAside(cfg, w.g, r, Next(now, p.moveWindow, cfg.moveLimit), p.chunk, c);
    }
  }

  /** The limiter has no part in it. */
  lemma WindowAside(cfg: Config, g: State, r: Ref, window: Window, from: Chunk, to: Chunk)
    requires r < |g.objs|
    ensures SameSurroundings(cfg, Put(g, r, At(g, r).(moveWindow := window)), r, from, to)
       <==> SameSurroundings(cfg, g, r, from, to)
    ensures At(Put(g, r, At(g, r).(moveWindow := window)), r).chunk == At(g, r).chunk
  {
    WindowSurroundings(cfg, g, r, window, from, to);
  }

  lemma OneHolder(cfg: Config, w: World, q: Sid, s: Sid, r: Ref)
    requires Inv(cfg, w) && HasPlayer(w.users, q, r) && HasPlayer(w.users, s, r)
    ensures q == s
  {
  }

  /** A client with a player stays settled exactly as long as its player's moves keep its surroundings. */
  lemma StepSettles(cfg: Config, w: World, e: Event, q: Sid, r: Ref)
    requires Inv(cfg, w) && HasPlayer(w.users, q, r) && (e.Close? ==> e.s != q)
    ensures q in Step(cfg, w, e).settled <==> q in w.settled && Keeps(cfg, w, e, r)
  {
    hide Inv, HelloStep, MoveStep, SameAround, Accepted, Deliver;
    if !e.MoveMsg? {
      NotMoving(cfg, w, e, r);
    }
    match e
    case HelloMsg(s, msg, now, snapshot) => HelloSettles(cfg, w, s, msg, now, snapshot, q);
    case MoveMsg(s, msg, now) =>
      if q != s && Asks(w, e, r) {
        OneHolder(cfg, w, q, s, r);
      }
      MoveSettles(cfg, w, s, msg, now, q, r);
    case _ =>
  }

  lemma NotMoving(cfg: Config, w: World, e: Event, r: Ref)
    requires !e.MoveMsg?
    ensures Keeps(cfg, w, e, r)
  {
  }

  /** Whoever has player r after a step, and r is not new, had it before. */
  lemma ActiveBefore(cfg: Config, w: World, e: Event, s: Sid, r: Ref)
    requires Deployable(cfg) && Inv(cfg, w) && Active(Step(cfg, w, e), s, r) && r < |w.g.objs|
    ensures Active(w, s, r) && (e.Close? ==> e.s != s)
  {
    hide Inv, Step, HelloAnswer;
    StepLater(cfg, w, e);
    CloseEnds(cfg, w, e, s);
    if s !in w.users {
      OnlyOpen(cfg, w, e, s);
      OpenTells(cfg, w, s);
    } else if e.HelloMsg? && e.s == s && w.users[s].None? {
      StepOfHello(cfg, w, e);
      HelloAnswers(cfg, w, s, e.msg, e.now, e.snapshot);
    } else {
      StepUsers(cfg, w, e, s);
    }
  }

  lemma StepOfHello(cfg: Config, w: World, e: Event)
    requires e.HelloMsg?
    ensures Step(cfg, w, e) == HelloStep(cfg, w, e.s, e.msg, e.now, e.snapshot)
  {
  }

  lemma WelcomeSettles(cfg: Config, w: World, s: Sid, h: Hello, now: u64, order: seq<Ref>)
    requires s in w.users && w.users[s].None?
    ensures var w' := AdmitStep(cfg, w, s, h, now, order); s in w'.users && (w'.users[s].Some? ==> s in w'.settled)
  {
    hide Create, Joins;
  }

  lemma RetireUsers(cfg: Config, w: World, wallet: Wallet)
    ensures RetireStep(cfg, w, wallet).users == w.users
  {
  }

  /** A player that a step creates starts settled. */
  lemma NewSettled(cfg: Config, w: World, e: Event, s: Sid, r: Ref)
    requires Deployable(cfg) && Inv(cfg, w) && Active(Step(cfg, w, e), s, r) && |w.g.objs| <= r
    ensures s in Step(cfg, w, e).settled
  {
    hide Inv, Step, AdmitStep, RetireStep, DecodeHello, HelloRefused;
    NewIsHello(cfg, w, e, s, r);
    StepOfHello(cfg, w, e);
    if !HelloRefused(w, s, e.msg) {
      var h := DecodeHello(e.msg).value;
      RetireUsers(cfg, w, h.wallet);
      WelcomeSettles(cfg, RetireStep(cfg, w, h.wallet), s, h, e.now, e.snapshot);
    }
  }

  lemma NewIsHello(cfg: Config, w: World, e: Event, s: Sid, r: Ref)
    requires Deployable(cfg) && Inv(cfg, w) && Active(Step(cfg, w, e), s, r) && |w.g.objs| <= r
    ensures e.HelloMsg? && e.s == s && s in w.users && w.users[s].None? && DecodeHello(e.msg).Some?
  {
    hide Inv, Step, DecodeHello;
    CloseEnds(cfg, w, e, s);
    if s !in w.users {
      OnlyOpen(cfg, w, e, s);
      OpenTells(cfg, w, s);
    } else if !(e.HelloMsg? && e.s == s && w.users[s].None?) {
      StepUsers(cfg, w, e, s);
      HeldLive(cfg, w, s, r);
    }
    NewWindow(cfg, w, e, r);
    HelloDecodes(cfg, w, e, r);
  }

  lemma HelloDecodes(cfg: Config, w: World, e: Event, r: Ref)
    requires |w.g.objs| <= r < |Step(cfg, w, e).g.objs|
    ensures e.HelloMsg? && DecodeHello(e.msg).Some?
  {
    hide Step, AsTold, DecodeHello;
    NewWords(cfg, w, e, r);
  }

  // ---------------------------------------------------------------- every run

  lemma {:induction false} SettledOn(cfg: Config, w0: World, events: seq<Event>, w: World, s: Sid, r: Ref)
    requires Deployable(cfg) && Inv(cfg, w0) && Run(cfg, w0, events, w) && Active(w, s, r) && r < |w0.g.objs|
    ensures Active(w0, s, r)
    ensures s in w.settled <==> s in w0.settled && KeepsAll(cfg, w0, events, r)
    decreases |events|
  {
    hide Inv, Step, Possible, Keeps;
    if events != [] {
      var e, w1 := events[0], Step(cfg, w0, events[0]);
      StepKeeps(cfg, w0, e);
      StepLater(cfg, w0, e);
      SettledOn(cfg, w1, events[1..], w, s, r);
      ActiveBefore(cfg, w0, e, s, r);
      StepSettles(cfg, w0, e, s, r);
    }
  }

  lemma {:induction false} SettledFrom(cfg: Config, w0: World, events: seq<Event>, w: World, s: Sid, r: Ref)
    requires Deployable(cfg) && Inv(cfg, w0) && Run(cfg, w0, events, w) && Active(w, s, r) && |w0.g.objs| <= r
    ensures s in w.settled <==> KeepsAll(cfg, w0, events, r)
    decreases |events|
  {
    hide Inv, Step, Possible, Accepted, SameAround;
    if events != [] {
      var e, w1 := events[0], Step(cfg, w0, events[0]);
      StepKeeps(cfg, w0, e);
      NotYet(cfg, w0, e, r);
      if r < |w1.g.objs| {
        SettledOn(cfg, w1, events[1..], w, s, r);
        NewSettled(cfg, w0, e, s, r);
      } else {
        SettledFrom(cfg, w1, events[1..], w, s, r);
      }
    }
  }

  /** In every run, the view theorems speak of a client exactly if each accepted MOVE of its player has led to a chunk
      that has the same other posed players around it as the chunk before; of all that have not changed chunk in
      particular. */
  lemma SettledExactly(cfg: Config, events: seq<Event>, w: World, s: Sid, r: Ref)
    requires Deployable(cfg) && Run(cfg, START, events, w) && Active(w, s, r)
    ensures s in w.settled <==> KeepsAll(cfg, START, events, r)
  {
    hide Inv, KeepsAll, Run;
    StartInv(cfg);
    SettledFrom(cfg, START, events, w, s, r);
  }
}
