/** Entries of the move queue that outlive their players: which step leaves one behind. */
module Dangling {
  import opened Ints
  import opened Chunks
  import opened Wire
  import opened RateLimit
  import opened Session
  import opened Tables
  import opened Runs

  /** The queue names a player object that the server no longer owns. */
  ghost predicate Dangles(g: State, r: Ref) { r in g.queue && !IsActive(g, r) && r !in g.retired }

  lemma DisconnectActive(g: State, r: Ref, q: Ref)
    requires TableOk(g) && IsActive(g, r)
    ensures IsActive(Disconnect(g, r), q) <==> IsActive(g, q) && q != r
    ensures IsActive(Retire(g, r), q) <==> IsActive(g, q) && q != r
  {
  }

  lemma DisconnectDangles(cfg: Config, g: State, r: Ref)
    requires Good(cfg, g) && IsActive(g, r)
    ensures forall q :: Dangles(Disconnect(g, r), q) <==> Dangles(g, q) || (q == r && r in g.queue)
    ensures forall q :: Dangles(Retire(g, r), q) <==> Dangles(g, q)
    ensures r in g.queue <==> g.objs[r].queued
  {
    hide WalletsOk, ChunksOk;
    ActiveIsConnected(g, r);
    assert FlagsOk(cfg, g, r);
    hide TableOk, QueueOk;
    forall q: Ref
      ensures IsActive(Disconnect(g, r), q) <==> IsActive(g, q) && q != r
      ensures IsActive(Retire(g, r), q) <==> IsActive(g, q) && q != r
    {
      DisconnectActive(g, r, q);
    }
    hide IsActive;
  }

  lemma ReleaseDangles(g: State, r: Ref)
    requires NoDup(g.retired) && !IsActive(g, r) && r in g.retired
    ensures forall q :: Dangles(Release(g, r), q) <==> Dangles(g, q) || (q == r && r in g.queue)
  {
    WithoutList(g.retired, r);
    assert forall q :: IsActive(Release(g, r), q) <==> IsActive(g, q);
  }

  lemma LiveParts(cfg: Config, w: World, s: Sid, r: Ref)
    requires Inv(cfg, w) && HasPlayer(w.users, s, r)
    ensures Good(cfg, w.g) && NoDup(w.g.retired) && (IsActive(w.g, r) || r in w.g.retired)
  {
    assert Live(w.g, r);
    ActiveIsConnected(w.g, r);
  }

  /** When the socket of player r closes, the queue is left with the name of a player that is gone exactly if r was
      still in it; for an active player, exactly if a move of its was queued. The next flush clears all such names. */
  lemma CloseDangles(cfg: Config, w: World, s: Sid, r: Ref)
    requires Inv(cfg, w) && HasPlayer(w.users, s, r)
    ensures forall q :: Dangles(CloseStep(cfg, w, s).g, q) <==> Dangles(w.g, q) || (q == r && r in w.g.queue)
    ensures IsActive(w.g, r) ==> (r in w.g.queue <==> w.g.objs[r].queued)
    ensures forall q, order :: !Dangles(FlushStep(cfg, w, order).g, q)
  {
    hide Inv, Good, Dangles, Deliver, AoiPubs, Disconnect, Release;
    LiveParts(cfg, w, s, r);
    if IsActive(w.g, r) {
      DisconnectDangles(cfg, w.g, r);
    } else {
      ReleaseDangles(w.g, r);
    }
    FlushNames(w.g);
  }

  lemma FlushNames(g: State)
    ensures forall q :: !Dangles(Flushed(g), q)
  {
  }

  // ---------------------------------------------------------------- the other steps

  lemma CreateDangles(cfg: Config, g: State, h: Hello, now: u64)
    requires TableOk(g) && QueueOk(cfg, g) && Create(cfg, g, h, now).Some?
    ensures forall q :: Dangles(Create(cfg, g, h, now).value, q) <==> Dangles(g, q)
  {
    var g' := Create(cfg, g, h, now).value;
    forall q: Ref | q < |g.objs|
      ensures IsActive(g', q) <==> IsActive(g, q)
    {
      assert g'.objs[q] == g.objs[q];
    }
  }

  lemma AdmitDangles(cfg: Config, w: World, s: Sid, h: Hello, now: u64, order: seq<Ref>)
    requires Good(cfg, w.g)
    ensures forall q :: Dangles(AdmitStep(cfg, w, s, h, now, order).g, q) <==> Dangles(w.g, q)
  {
    hide Create, Dangles, Send, Subscribe, Joins;
    if CanAccept(cfg, w.g) && Create(cfg, w.g, h, now).Some? {
      CreateDangles(cfg, w.g, h, now);
    }
  }

  /** A retired player's entry stays meaningful, because the retired list still owns the player. */
  lemma RetireDangles(cfg: Config, w: World, wallet: Wallet)
    requires Good(cfg, w.g)
    ensures forall q :: Dangles(RetireStep(cfg, w, wallet).g, q) <==> Dangles(w.g, q)
  {
    hide Good, Dangles, Deliver, AoiPubs, Retire;
    if HolderOf(w.g, wallet).Some? {
      DisconnectDangles(cfg, w.g, HolderOf(w.g, wallet).value);
    }
  }

  lemma HelloDangles(cfg: Config, w: World, s: Sid, msg: bytes, now: u64, order: seq<Ref>)
    requires Deployable(cfg) && Inv(cfg, w)
    ensures forall q :: Dangles(HelloStep(cfg, w, s, msg, now, order).g, q) <==> Dangles(w.g, q)
  {
    hide Good, Dangles, RetireStep, AdmitStep, DecodeHello, Send;
    if s in w.users && !HelloRefused(w, s, msg) {
      var h := DecodeHello(msg).value;
      RetireDangles(cfg, w, h.wallet);
      RetireKeeps(cfg, w, h.wallet);
      AdmitDangles(cfg, RetireStep(cfg, w, h.wallet), s, h, now, order);
    }
  }

  /** A move adds an entry of an active player only. */
  lemma MoveDangles(cfg: Config, w: World, s: Sid, msg: bytes, now: u64)
    ensures forall q :: Dangles(MoveStep(cfg, w, s, msg, now).g, q) <==> Dangles(w.g, q)
  {
    hide DecodeMove, LocalToGlobal, Allows, Next, Resubscribed, Deliver, Send, LeftPubs, JoinedPubs, ItemOf,
      StillSettled;
  }

  /** A step leaves the name of a player that is gone in the queue exactly if it was there before, or the step is the
      close of that player's socket while its move waits; and a flush leaves none. */
  lemma StepDangles(cfg: Config, w: World, e: Event, q: Ref)
    requires Deployable(cfg) && Inv(cfg, w)
    ensures Dangles(Step(cfg, w, e).g, q)
       <==> !e.Flush? && (Dangles(w.g, q) || (e.Close? && HasPlayer(w.users, e.s, q) && q in w.g.queue))
  {
    hide Inv, Dangles, HelloStep, MoveStep;
    match e
    case Open(_) =>
    case HelloMsg(s, msg, now, snapshot) => HelloDangles(cfg, w, s, msg, now, snapshot);
    case MoveMsg(s, msg, now) => MoveDangles(cfg, w, s, msg, now);
    case Close(s) =>
      if s in w.users && w.users[s].Some? {
        CloseDangles(cfg, w, s, w.users[s].value);
      }
    case Flush(order) => FlushNames(w.g);
    case Relay(_) =>
  }
}
