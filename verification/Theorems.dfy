/** What holds of every run of the session machine. */
module Theorems {
  import opened Ints
  import opened Chunks
  import opened Wire
  import opened RateLimit
  import opened Session
  import opened Tables
  import opened Delivery
  import opened View
  import opened Runs

  lemma EveryRun(cfg: Config, events: seq<Event>, w: World)
    requires Deployable(cfg) && Run(cfg, START, events, w)
    ensures Inv(cfg, w)
  {
    StartInv(cfg);
    RunKeeps(cfg, START, events, w);
  }

  // ---------------------------------------------------------------- the replicated view

  /** Folding the frames of a client that has kept its surroundings gives exactly the players it should show, each in
      its current chunk, and with its current pose unless a move is still queued. */
  lemma ViewConsistency(cfg: Config, events: seq<Event>, w: World, s: Sid, r: Ref)
    requires Deployable(cfg) && Run(cfg, START, events, w) && Active(w, s, r) && s in w.settled
    ensures Exact(cfg, w.g, r, PictureOf(w, s))
  {
    EveryRun(cfg, events, w);
  }

  /** q is shown where it is. */
  ghost predicate Current(cfg: Config, g: State, v: Picture, q: Ref)
    requires q < |g.objs|
  {
    g.objs[q].id in v && v[g.objs[q].id] == SeenOf(cfg, g.objs[q])
  }

  lemma AllCurrent(cfg: Config, g: State, r: Ref, v: Picture)
    requires Exact(cfg, g, r, v)
    requires forall q: Ref :: q < |g.objs| && g.objs[q].connected ==> !g.objs[q].hasPending
    ensures forall q: Ref :: Visible(cfg, g, r, q) ==> Current(cfg, g, v, q)
  {
    forall q: Ref | Visible(cfg, g, r, q)
      ensures Current(cfg, g, v, q)
    {
      assert Shows(cfg, g, v, q);
    }
  }

  /** Right after a flush the picture is exact and every player in it is shown where it is. */
  lemma FlushConverges(cfg: Config, events: seq<Event>, w0: World, order: seq<nat>, s: Sid, r: Ref, w: World)
    requires Deployable(cfg) && Run(cfg, START, events, w0) && IsTopicOrder(cfg, w0.g, order)
    requires w == Step(cfg, w0, Flush(order)) && Active(w, s, r) && s in w.settled
    ensures Exact(cfg, w.g, r, PictureOf(w, s))
    ensures forall q: Ref :: Visible(cfg, w.g, r, q) ==> Current(cfg, w.g, PictureOf(w, s), q)
  {
    RunAppend(cfg, START, events, w0, Flush(order));
    ViewConsistency(cfg, events + [Flush(order)], w, s, r);
    QueueOfRun(cfg, events, w0);
    AfterFlush(cfg, w0, order, w);
    AllCurrent(cfg, w.g, r, PictureOf(w, s));
  }

  lemma {:induction false} RunAppend(cfg: Config, w0: World, events: seq<Event>, w: World, e: Event)
    requires Run(cfg, w0, events, w) && Possible(cfg, w, e)
    ensures Run(cfg, w0, events + [e], Step(cfg, w, e))
    decreases |events|
  {
    if events == [] {
      assert events + [e] == [e] && [e][1..] == [];
    } else {
      RunAppend(cfg, Step(cfg, w0, events[0]), events[1..], w, e);
      assert (events + [e])[1..] == events[1..] + [e];
    }
  }

  lemma QueueOfRun(cfg: Config, events: seq<Event>, w: World)
    requires Deployable(cfg) && Run(cfg, START, events, w)
    ensures QueueOk(cfg, w.g)
  {
    EveryRun(cfg, events, w);
  }

  lemma AfterFlush(cfg: Config, w0: World, order: seq<nat>, w: World)
    requires QueueOk(cfg, w0.g) && w == Step(cfg, w0, Flush(order))
    ensures forall q: Ref :: q < |w.g.objs| && w.g.objs[q].connected ==> !w.g.objs[q].hasPending
  {
    NothingPending(cfg, w0.g, w.g);
  }

  lemma NothingPending(cfg: Config, g: State, g': State)
    requires QueueOk(cfg, g) && g' == Flushed(g)
    ensures forall q: Ref :: q < |g'.objs| && g'.objs[q].connected ==> !g'.objs[q].hasPending
  {
    FlushedQueue(cfg, g);
  }

  function Payloads(frames: seq<Frame>): seq<bytes> {
    if frames == [] then [] else [EncodeFrame(frames[0])] + Payloads(frames[1..])
  }

  /** A client that skips frames it cannot read. */
  function Parsed(payloads: seq<bytes>): seq<Frame> {
    if payloads == [] then []
    else (match ParseFrame(payloads[0]) case Some(f) => [f] case None => []) + Parsed(payloads[1..])
  }

  /** Nothing in the above depends on frames being values: the client reads the same frames off the bytes. */
  lemma {:induction false} WireFaithful(frames: seq<Frame>)
    ensures Parsed(Payloads(frames)) == frames
  {
    if frames != [] {
      FrameParses(frames[0]);
      WireFaithful(frames[1..]);
      assert Payloads(frames)[1..] == Payloads(frames[1..]);
    }
  }

  // ---------------------------------------------------------------- viewers that change chunk

  /** A viewer that changes chunk is told nothing about its new surroundings, so its picture stays right exactly
      when the two areas of interest hold the same players. */
  lemma ChunkChangeExact(cfg: Config, g: State, r: Ref, c: Chunk, pose: Pose, v: Picture)
    requires TableOk(g) && IsActive(g, r) && Exact(cfg, g, r, v)
    ensures Exact(cfg, Moved(cfg, g, r, c, pose), r, v) <==> SameSurroundings(cfg, g, r, At(g, r).chunk, c)
  {
    var g' := Moved(cfg, g, r, c, pose);
    if SameSurroundings(cfg, g, r, At(g, r).chunk, c) {
      ExactAfterOwnMove(cfg, g, r, c, pose, v);
    } else {
      var q: Ref :| q != r && q < |g.objs| && g.objs[q].connected && g.objs[q].hasPose
        && (Near(cfg, At(g, r).chunk, g.objs[q].chunk) <==> !Near(cfg, c, g.objs[q].chunk));
      assert g.active[g.objs[q].id] == q;
      if Visible(cfg, g, r, q) {
        assert Shows(cfg, g, v, q) && !Visible(cfg, g', r, q);
      } else {
        assert Visible(cfg, g', r, q) && !Shows(cfg, g', v, q);
      }
    }
  }

  lemma AcceptedUntold(cfg: Config, w: World, s: Sid, r: Ref, c: Chunk, pose: Pose)
    requires Inv(cfg, w) && Active(w, s, r) && s in w.settled
    ensures Exact(cfg, AcceptMove(cfg, w, s, r, c, pose).g, r, PictureOf(AcceptMove(cfg, w, s, r, c, pose), s))
       <==> SameSurroundings(cfg, w.g, r, w.g.objs[r].chunk, c)
  {
    ActiveIsConnected(w.g, r);
    MoverHearsNothing(cfg, w, s, r, c, pose);
    ChunkChangeExact(cfg, w.g, r, c, pose, PictureOf(w, s));
  }

  /** The MOVE handler takes the message of s, whose player is r, to chunk c. */
  predicate Taken(cfg: Config, w: World, s: Sid, r: Ref, msg: bytes, now: u64, c: Chunk) {
    && Active(w, s, r) && DecodeMove(msg).Some? && Allows(now, w.g.objs[r].moveWindow, cfg.moveLimit)
    && LocalToGlobal(cfg, DecodeMove(msg).value.lx, DecodeMove(msg).value.lz) == Some(c)
  }

  /** The limiter first, then the move itself. */
  lemma TakenIsAccepted(cfg: Config, w: World, s: Sid, r: Ref, msg: bytes, now: u64, c: Chunk)
    requires Inv(cfg, w) && Taken(cfg, w, s, r, msg, now, c)
    ensures var p := w.g.objs[r];
      var w1 := w.(g := Put(w.g, r, p.(moveWindow := Next(now, p.moveWindow, cfg.moveLimit))));
      && Inv(cfg, w1) && Active(w1, s, r)
      && MoveStep(cfg, w, s, msg, now) == AcceptMove(cfg, w1, s, r, c, DecodeMove(msg).value.pose)
  {
    ActiveIsConnected(w.g, r);
    WindowInv(cfg, w, s, r, Next(now, w.g.objs[r].moveWindow, cfg.moveLimit));
  }

  lemma WindowSurroundings(cfg: Config, g: State, r: Ref, window: Window, from: Chunk, to: Chunk)
    requires r < |g.objs|
    ensures SameSurroundings(cfg, Put(g, r, g.objs[r].(moveWindow := window)), r, from, to)
       <==> SameSurroundings(cfg, g, r, from, to)
  {
    assert forall q: Ref :: q != r && q < |g.objs| ==> Put(g, r, g.objs[r].(moveWindow := window)).objs[q] == g.objs[q];
  }

  /** The MOVE step of a viewer leaves its picture as it was, right or wrong. */
  lemma ChunkChangeUntold(cfg: Config, w: World, s: Sid, r: Ref, msg: bytes, now: u64, c: Chunk)
    requires Inv(cfg, w) && s in w.settled && Taken(cfg, w, s, r, msg, now, c)
    ensures var w' := MoveStep(cfg, w, s, msg, now);
      Exact(cfg, w'.g, r, PictureOf(w', s)) <==> SameSurroundings(cfg, w.g, r, w.g.objs[r].chunk, c)
  {
    hide Inv, Exact, SameSurroundings, MoveStep, AcceptMove, DecodeMove, LocalToGlobal, Allows, Next, Near;
    var p := w.g.objs[r];
    var window := Next(now, p.moveWindow, cfg.moveLimit);
    TakenIsAccepted(cfg, w, s, r, msg, now, c);
    AcceptedUntold(cfg, w.(g := Put(w.g, r, p.(moveWindow := window))), s, r, c, DecodeMove(msg).value.pose);
    WindowSurroundings(cfg, w.g, r, window, p.chunk, c);
  }

  // ---------------------------------------------------------------- sessions

  lemma NobodyLive(users: Users, g: State)
    requires Paired(users, g) && users == map[] && TableOk(g) && RetiredOk(g)
    ensures g.active == map[] && g.retired == []
  {
    assert forall r: Ref :: !Live(g, r);
    assert forall id :: id in g.active ==> Live(g, g.active[id]);
    if g.retired != [] {
      assert g.retired[0] in g.retired;
      assert Live(g, g.retired[0]);
    }
  }

  lemma NothingLost(cfg: Config, g: State)
    requires QueueOk(cfg, g) && TableOk(g)
    ensures forall r: Ref :: IsActive(g, r) ==> (g.objs[r].hasPending <==> r in g.queue)
  {
    forall r: Ref | IsActive(g, r)
      ensures g.objs[r].hasPending <==> r in g.queue
    {
      assert FlagsOk(cfg, g, r);
    }
  }

  /** Open sockets that hold a player pair off with active and retired players; wallets are unique among the active.
      An accepted move has been superseded by a later one, sent, skipped because its player was gone, or it still waits;
      of those that wait, the next flush sends all but the ones of players that are gone. */
  lemma SessionConservation(cfg: Config, events: seq<Event>, w: World)
    requires Deployable(cfg) && Run(cfg, START, events, w)
    ensures forall s: Sid, r: Ref :: HasPlayer(w.users, s, r) ==> IsActive(w.g, r) != (r in w.g.retired)
    ensures forall r: Ref :: IsActive(w.g, r) || r in w.g.retired ==> exists s :: HasPlayer(w.users, s, r)
    ensures forall s1: Sid, s2: Sid, r: Ref :: HasPlayer(w.users, s1, r) && HasPlayer(w.users, s2, r) ==> s1 == s2
    ensures forall q: Ref, r: Ref :: IsActive(w.g, q) && IsActive(w.g, r) && At(w.g, q).wallet == At(w.g, r).wallet ==>
      q == r
    ensures w.users == map[] ==> w.g.active == map[] && w.g.retired == []
    ensures w.g.moveIn == w.g.dropped + w.g.flushed + w.g.skipped + |w.g.queue|
    ensures CountFlushable(w.g, w.g.queue) + CountGone(w.g, w.g.queue) == |w.g.queue|
    ensures forall r: Ref :: IsActive(w.g, r) ==> (w.g.objs[r].hasPending <==> r in w.g.queue)
  {
    EveryRun(cfg, events, w);
    CountsPartition(cfg, w.g, w.g.queue);
    NothingLost(cfg, w.g);
    forall r: Ref
      ensures IsActive(w.g, r) <==> r < |w.g.objs| && w.g.objs[r].connected
      ensures IsActive(w.g, r) || r in w.g.retired <==> Live(w.g, r)
    {
      ActiveIsConnected(w.g, r);
    }
    if w.users == map[] {
      NobodyLive(w.users, w.g);
    }
  }

  // ---------------------------------------------------------------- players that are gone

  /** The later state knows every earlier player, unchanged in identity, and none has come back. */
  ghost predicate Later(g: State, g': State) {
    && |g.objs| <= |g'.objs|
    && forall r: Ref :: r < |g.objs| ==>
         && g'.objs[r].id == g.objs[r].id && g'.objs[r].wallet == g.objs[r].wallet
         && (g'.objs[r].connected ==> g.objs[r].connected)
  }

  lemma RetireLater(cfg: Config, w: World, wallet: Wallet)
    ensures Later(w.g, RetireStep(cfg, w, wallet).g)
  {
  }

  lemma AdmitLater(cfg: Config, w: World, s: Sid, h: Hello, now: u64, order: seq<Ref>)
    ensures Later(w.g, AdmitStep(cfg, w, s, h, now, order).g)
  {
  }

  lemma MoveLater(cfg: Config, w: World, s: Sid, msg: bytes, now: u64)
    ensures Later(w.g, MoveStep(cfg, w, s, msg, now).g)
  {
    hide DecodeMove, LocalToGlobal, Allows, Next, Resubscribed, Deliver, Send, LeftPubs, JoinedPubs, ItemOf;
  }

  lemma StepLater(cfg: Config, w: World, e: Event)
    ensures Later(w.g, Step(cfg, w, e).g)
  {
    match e
    case Open(s) =>
    case HelloMsg(s, msg, now, snapshot) =>
      if s in w.users && !HelloRefused(w, s, msg) {
        var h := DecodeHello(msg).value;
        RetireLater(cfg, w, h.wallet);
        AdmitLater(cfg, RetireStep(cfg, w, h.wallet), s, h, now, snapshot);
      }
    case MoveMsg(s, msg, now) => MoveLater(cfg, w, s, msg, now);
    case Close(s) =>
    case Flush(order) =>
    case Relay(extra) =>
  }

  lemma {:induction false} RunLater(cfg: Config, w0: World, events: seq<Event>, w: World)
    requires Run(cfg, w0, events, w)
    ensures Later(w0.g, w.g)
    decreases |events|
  {
    if events != [] {
      StepLater(cfg, w0, events[0]);
      RunLater(cfg, Step(cfg, w0, events[0]), events[1..], w);
    }
  }

  /** A player that was retired or removed is never active again, even when its id is. */
  lemma NeverBack(cfg: Config, before: seq<Event>, w0: World, after: seq<Event>, w: World, r: Ref)
    requires Deployable(cfg) && Run(cfg, START, before, w0) && Run(cfg, w0, after, w)
    requires r < |w0.g.objs| && !IsActive(w0.g, r)
    ensures !IsActive(w.g, r)
  {
    EveryRun(cfg, before, w0);
    RunKeeps(cfg, w0, after, w);
    RunLater(cfg, w0, after, w);
    ActiveIsConnected(w0.g, r);
    ActiveIsConnected(w.g, r);
  }
}
