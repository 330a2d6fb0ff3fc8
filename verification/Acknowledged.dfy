/** Over whole runs: the acknowledgement of a HELLO, and what it lets a client work out. */
module Acknowledged {
  import opened Ints
  import opened Chunks
  import opened Wire
  import opened RateLimit
  import opened Session
  import opened Tables
  import opened Delivery
  import opened View
  import opened Runs
  import opened Theorems
  import opened FlushExact
  import opened Messages
  import opened Hearing

  // ---------------------------------------------------------------- frames about players, without the others

  predicate NoAck(frames: seq<Frame>) { forall f :: f in frames ==> !f.Ack? }

  lemma {:induction false} AboutConcat(a: seq<Frame>, b: seq<Frame>)
    ensures AboutPlayers(a + b) == AboutPlayers(a) + AboutPlayers(b)
  {
    if b == [] {
      assert a + b == a;
    } else {
      AboutConcat(a, b[..|b| - 1]);
      assert (a + b)[..|a + b| - 1] == a + b[..|b| - 1];
    }
  }

  lemma {:induction false} AboutKept(frames: seq<Frame>)
    ensures forall f :: f in AboutPlayers(frames) ==> f in frames && !f.Other? && !f.Error?
  {
    if frames != [] {
      AboutKept(frames[..|frames| - 1]);
      assert frames == frames[..|frames| - 1] + [frames[|frames| - 1]];
    }
  }

  lemma {:induction false} AllAbout(frames: seq<Frame>)
    requires forall f :: f in frames ==> !f.Other? && !f.Error?
    ensures AboutPlayers(frames) == frames
  {
    if frames != [] {
      AllAbout(frames[..|frames| - 1]);
      assert frames == frames[..|frames| - 1] + [frames[|frames| - 1]];
    }
  }

  // ---------------------------------------------------------------- the invariant

  /** Before HELLO a socket has heard nothing about players; then comes the acknowledgement, and never another. */
  ghost predicate AckFirst(cfg: Config, w: World, q: Sid) {
    q in w.hub.inbox
    && var told := AboutPlayers(w.hub.inbox[q]);
    match Place(w, q)
    case None => told == []
    case Some(_) => told != [] && told[0] == Welcoming(cfg, At(w.g, w.users[q].value).id) && NoAck(told[1..])
  }

  /** What a step tells a socket that keeps its player holds no acknowledgement. */
  lemma ToldNoAck(cfg: Config, w: World, e: Event, q: Sid, after: State)
    requires Possible(cfg, w, e) && Place(w, q).Some?
    ensures NoAck(Told(cfg, w, e, after, q))
  {
    hide Cut, Allows, HolderOf, InRange, Possible, BadHello, BadMove, LocalToGlobal, WrapU16, CurrentMoves, QueuedNear;
    match e
    case Flush(_) => CutExact(WrapU16(w.g.tick + 1),
                              CurrentMoves(cfg, w.g, QueuedNear(cfg, w.g, w.g.queue, Place(w, q).value)));
    case Relay(extra) => ExtraAside(cfg, w, extra);
    case _ =>
  }

  lemma ExtraAside(cfg: Config, w: World, extra: Extra)
    requires Possible(cfg, w, Relay(extra))
    ensures forall q :: q in extra ==> Aside(extra[q])
  {
  }

  /** A socket without a player is told nothing about players, unless it gets one. */
  lemma ToldNothing(cfg: Config, w: World, e: Event, q: Sid, after: State)
    requires Possible(cfg, w, e) && q in w.users && w.users[q].None?
    ensures var told := Told(cfg, w, e, after, q);
      || Aside(told)
      || (e.HelloMsg? && e.s == q
          && told == [Welcoming(cfg, At(after, |w.g.objs|).id)] + AllHere(cfg, after, e.snapshot))
  {
    hide Allows, HolderOf, InRange, Possible, BadHello, BadMove, LocalToGlobal, AllHere;
    match e
    case Relay(extra) => ExtraAside(cfg, w, extra);
    case _ =>
  }

  // ---------------------------------------------------------------- one step

  lemma HelloUsers(cfg: Config, w: World, s: Sid, msg: bytes, now: u64, order: seq<Ref>, q: Sid)
    requires q in w.users && (q != s || w.users[q].Some?)
    ensures var w' := HelloStep(cfg, w, s, msg, now, order); q in w'.users && w'.users[q] == w.users[q]
  {
    hide Create, Deliver, AoiPubs, Joins, DecodeHello, WalletEmpty;
  }

  /** Only its own HELLO gives a socket a player, and only its close takes it away. */
  lemma StepUsers(cfg: Config, w: World, e: Event, q: Sid)
    requires q in w.users && (e.Close? ==> e.s != q) && (e.HelloMsg? && e.s == q ==> w.users[q].Some?)
    ensures q in Step(cfg, w, e).users && Step(cfg, w, e).users[q] == w.users[q]
  {
    hide HelloStep, Deliver, DecodeMove, LocalToGlobal, Allows, Next, Moved, Resubscribed, LeftPubs, JoinedPubs,
      StillSettled, Send;
    match e
    case HelloMsg(s, msg, now, snapshot) => HelloUsers(cfg, w, s, msg, now, snapshot, q);
    case _ =>
  }

  /** A retired player's socket does not start to listen again. */
  lemma StepListening(cfg: Config, w: World, e: Event, q: Sid)
    requires Deployable(cfg) && Inv(cfg, w) && Possible(cfg, w, e) && q in w.users && Listening(Step(cfg, w, e), q)
    ensures Listening(w, q) && (e.Close? ==> e.s != q)
  {
    hide Inv, Step, Possible;
    CloseEnds(cfg, w, e, q);
    if w.users[q].Some? {
      var r := w.users[q].value;
      StepUsers(cfg, w, e, q);
      StepLater(cfg, w, e);
      StepKeeps(cfg, w, e);
      TableHere(cfg, w);
      TableHere(cfg, Step(cfg, w, e));
      HeldLive(cfg, w, q, r);
      ActiveIsConnected(w.g, r);
      ActiveIsConnected(Step(cfg, w, e).g, r);
    }
  }

  lemma CloseEnds(cfg: Config, w: World, e: Event, q: Sid)
    requires q in Step(cfg, w, e).users
    ensures e.Close? ==> e.s != q
  {
  }

  lemma HeldLive(cfg: Config, w: World, q: Sid, r: Ref)
    requires Inv(cfg, w) && HasPlayer(w.users, q, r)
    ensures r < |w.g.objs|
  {
    assert Live(w.g, r);
  }

  lemma AckArrives(cfg: Config, w: World, e: Event, q: Sid)
    requires Deployable(cfg) && Inv(cfg, w) && Possible(cfg, w, e) && q in w.users && w.users[q].None?
    requires AckFirst(cfg, w, q) && (e.Close? ==> e.s != q)
    ensures AckFirst(cfg, Step(cfg, w, e), q)
  {
    hide Inv, Possible, Told, Welcoming, AllHere, HelloStep, Step;
    var w' := Step(cfg, w, e);
    StepTells(cfg, w, e, q);
    ToldNothing(cfg, w, e, q, w'.g);
    AboutConcat(w.hub.inbox[q], Told(cfg, w, e, w'.g, q));
    if e.HelloMsg? && e.s == q {
      GreetedAck(cfg, w, e, q);
    } else {
      StepUsers(cfg, w, e, q);
      NothingAboutPlayers(Told(cfg, w, e, w'.g, q));
    }
  }

  lemma GreetedAck(cfg: Config, w: World, e: Event, q: Sid)
    requires Deployable(cfg) && Inv(cfg, w) && Possible(cfg, w, e) && q in w.users && w.users[q].None?
    requires e.HelloMsg? && e.s == q
    ensures var w', told := Step(cfg, w, e), AboutPlayers(Told(cfg, w, e, Step(cfg, w, e).g, q));
      match Place(w', q)
      case None => told == []
      case Some(_) => told != [] && told[0] == Welcoming(cfg, At(w'.g, w'.users[q].value).id) && NoAck(told[1..])
  {
    hide Inv, Possible, HelloStep, HelloAnswer;
    var w' := Step(cfg, w, e);
    var answer := HelloAnswer(cfg, w, q, e.msg, e.snapshot, w'.g);
    HelloAnswers(cfg, w, q, e.msg, e.now, e.snapshot);
    AnswerShape(cfg, w, q, e.msg, e.snapshot, w'.g);
    if answer[0].Error? {
      NothingAboutPlayers(answer);
    } else {
      AllAbout(answer);
    }
  }

  lemma AnswerShape(cfg: Config, w: World, s: Sid, msg: bytes, order: seq<Ref>, after: State)
    ensures var answer := HelloAnswer(cfg, w, s, msg, order, after);
      if answer[0].Error? then Aside(answer)
      else
        && answer == [Welcoming(cfg, At(after, |w.g.objs|).id)] + AllHere(cfg, after, order)
        && NoAck(answer[1..]) && (forall f :: f in answer ==> !f.Other? && !f.Error?)
  {
    hide BadHello, HolderOf, Contains;
    var answer := HelloAnswer(cfg, w, s, msg, order, after);
    assert !answer[0].Error? ==> answer[1..] == AllHere(cfg, after, order);
  }

  lemma AckStays(cfg: Config, w: World, e: Event, q: Sid)
    requires Deployable(cfg) && Inv(cfg, w) && Possible(cfg, w, e) && Place(w, q).Some?
    requires Place(Step(cfg, w, e), q).Some? && AckFirst(cfg, w, q) && (e.Close? ==> e.s != q)
    ensures AckFirst(cfg, Step(cfg, w, e), q)
  {
    hide Inv, Possible, Told, Welcoming, Step;
    var w' := Step(cfg, w, e);
    StepTells(cfg, w, e, q);
    ToldNoAck(cfg, w, e, q, w'.g);
    AboutConcat(w.hub.inbox[q], Told(cfg, w, e, w'.g, q));
    AboutKept(Told(cfg, w, e, w'.g, q));
    StepUsers(cfg, w, e, q);
    StepLater(cfg, w, e);
    AckTail(AboutPlayers(w.hub.inbox[q]), AboutPlayers(Told(cfg, w, e, w'.g, q)));
  }

  lemma AckTail(a: seq<Frame>, b: seq<Frame>)
    requires a != [] && NoAck(a[1..]) && NoAck(b)
    ensures (a + b)[0] == a[0] && NoAck((a + b)[1..])
  {
    assert (a + b)[1..] == a[1..] + b;
  }

  lemma StepAck(cfg: Config, w: World, e: Event, q: Sid)
    requires Deployable(cfg) && Inv(cfg, w) && Possible(cfg, w, e) && Listening(Step(cfg, w, e), q)
    requires Listening(w, q) ==> AckFirst(cfg, w, q)
    ensures AckFirst(cfg, Step(cfg, w, e), q)
  {
    hide Inv, Possible, AckFirst, Step;
    if q in w.users {
      StepListening(cfg, w, e, q);
      if w.users[q].None? {
        AckArrives(cfg, w, e, q);
      } else {
        StepUsers(cfg, w, e, q);
        AckStays(cfg, w, e, q);
      }
    } else {
      Opens(cfg, w, e, q);
    }
  }

  lemma Opens(cfg: Config, w: World, e: Event, q: Sid)
    requires Inv(cfg, w) && q !in w.users && q in Step(cfg, w, e).users
    ensures AckFirst(cfg, Step(cfg, w, e), q)
  {
    OnlyOpen(cfg, w, e, q);
    hide Inv, Step;
    OpenTells(cfg, w, q);
  }

  lemma OnlyOpen(cfg: Config, w: World, e: Event, q: Sid)
    requires q !in w.users && q in Step(cfg, w, e).users
    ensures e == Open(q)
  {
    hide Create, Deliver, AoiPubs, Joins, DecodeHello, WalletEmpty, DecodeMove, LocalToGlobal, Allows, Next, Moved,
      Resubscribed, LeftPubs, JoinedPubs, StillSettled;
  }

  // ---------------------------------------------------------------- every run

  lemma {:induction false} AckOfRun(cfg: Config, w0: World, events: seq<Event>, w: World, q: Sid)
    requires Deployable(cfg) && Inv(cfg, w0) && Run(cfg, w0, events, w) && Listening(w, q)
    requires forall s :: Listening(w0, s) ==> AckFirst(cfg, w0, s)
    ensures AckFirst(cfg, w, q)
    decreases |events|
  {
    hide Inv, Possible, AckFirst, Step, Listening;
    if events != [] {
      var w1 := Step(cfg, w0, events[0]);
      StepKeeps(cfg, w0, events[0]);
      forall s | Listening(w1, s)
        ensures AckFirst(cfg, w1, s)
      {
        StepAck(cfg, w0, events[0], s);
      }
      AckOfRun(cfg, w1, events[1..], w, q);
    }
  }

  /** In every run, an active player's socket has heard, of frames about players, first the acknowledgement that names
      the player's own id and the server's square, and after it only JOIN, LEAVE and MOVE_BATCH. */
  lemma Acknowledges(cfg: Config, events: seq<Event>, w: World, s: Sid, r: Ref)
    requires Deployable(cfg) && Run(cfg, START, events, w) && Active(w, s, r)
    ensures s in w.hub.inbox
    ensures var told, id := AboutPlayers(w.hub.inbox[s]), w.g.objs[r].id;
      && id in w.g.active && w.g.active[id] == r
      && told != [] && told[0].Ack? && told[0].ack.version == 1 && told[0].ack.id == id && told[0].ack.flags == 7
      && told[0].ack.centerX == cfg.center.x && told[0].ack.centerZ == cfg.center.z
      && told[0].ack.serviceRadius == cfg.serviceRadius && told[0].ack.aoiRadius == cfg.aoiRadius
      && told[0].ack.indexMode == 1 && told[0].ack.tick == 0
      && (forall i :: 1 <= i < |told| ==> told[i].Join? || told[i].Leave? || told[i].MoveBatch?)
  {
    hide Inv, Run, AckFirst, AboutPlayers, Listening;
    StartInv(cfg);
    EveryRun(cfg, events, w);
    TableHere(cfg, w);
    ActiveIsListening(w, s, r);
    NobodyAtStart(cfg);
    AckOfRun(cfg, START, events, w, s);
    AckSpelled(cfg, w, s, r);
  }

  lemma ActiveIsListening(w: World, s: Sid, r: Ref)
    requires TableOk(w.g) && Active(w, s, r)
    ensures Listening(w, s) && Place(w, s).Some? && w.users[s] == Some(r) && IsActive(w.g, r)
  {
    ActiveIsConnected(w.g, r);
  }

  lemma NobodyAtStart(cfg: Config)
    ensures forall s :: Listening(START, s) ==> AckFirst(cfg, START, s)
  {
  }

  lemma AckSpelled(cfg: Config, w: World, s: Sid, r: Ref)
    requires AckFirst(cfg, w, s) && Place(w, s).Some? && w.users[s] == Some(r)
    ensures s in w.hub.inbox
    ensures var told := AboutPlayers(w.hub.inbox[s]);
      && told != [] && told[0] == Welcoming(cfg, At(w.g, r).id)
      && (forall i :: 1 <= i < |told| ==> told[i].Join? || told[i].Leave? || told[i].MoveBatch?)
  {
    hide AboutPlayers, Welcoming;
    AboutKept(w.hub.inbox[s]);
    var told := AboutPlayers(w.hub.inbox[s]);
    forall i | 1 <= i < |told|
      ensures !told[i].Ack?
    {
      assert told[1..][i - 1] == told[i];
    }
  }

  /** With the acknowledgement a client works out the chunk of each player that it shows. */
  lemma LocatesOthers(cfg: Config, events: seq<Event>, w: World, s: Sid, r: Ref, q: Ref)
    requires Deployable(cfg) && Run(cfg, START, events, w) && Active(w, s, r) && s in w.settled
    requires IsActive(w.g, q) && q != r && w.g.objs[q].id in PictureOf(w, s)
    ensures s in w.hub.inbox && AboutPlayers(w.hub.inbox[s]) != [] && AboutPlayers(w.hub.inbox[s])[0].Ack?
    ensures var ack, seen, c := AboutPlayers(w.hub.inbox[s])[0].ack, PictureOf(w, s)[w.g.objs[q].id], w.g.objs[q].chunk;
      && ack.centerX - ack.serviceRadius + seen.lx == c.x && ack.centerZ - ack.serviceRadius + seen.lz == c.z
  {
    hide Inv, Exact, Run, Fold;
    Acknowledges(cfg, events, w, s, r);
    TablesOfRun(cfg, events, w, s, r);
    EveryRun(cfg, events, w);
    ServedHere(cfg, w, q);
    LocalIsOffset(cfg, w.g.objs[q].chunk);
    SeenHere(cfg, w.g, r, q, PictureOf(w, s));
  }

  lemma ServedHere(cfg: Config, w: World, q: Ref)
    requires Inv(cfg, w) && q < |w.g.objs|
    ensures Contains(cfg, w.g.objs[q].chunk)
  {
  }

  lemma SeenHere(cfg: Config, g: State, r: Ref, q: Ref, v: Picture)
    requires TableOk(g) && Exact(cfg, g, r, v) && IsActive(g, q) && g.objs[q].id in v
    ensures var seen, p := v[g.objs[q].id], g.objs[q];
      seen.lx == ToLocalX(cfg, p.chunk.x) && seen.lz == ToLocalZ(cfg, p.chunk.z)
  {
    assert Visible(cfg, g, r, g.active[g.objs[q].id]);
    assert Shows(cfg, g, v, q);
  }
}
