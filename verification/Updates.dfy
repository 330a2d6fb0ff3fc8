/** The abstract handlers, cut into the steps in which the server's fields change. */
module Updates {
  import opened Ints
  import opened Chunks
  import opened Wire
  import opened RateLimit
  import opened Session
  import opened Tables

  function NewRec(h: Hello, id: u16, now: u64): PlayerRec {
    NOWHERE.(id := id, wallet := h.wallet, chunk := Chunk(h.startX, h.startZ), moveWindow := Window(now, 0),
             connected := true)
  }

  function Enrolled(g: State, h: Hello, id: u16, now: u64): State {
    g.(objs := g.objs + [NewRec(h, id, now)], active := g.active[id := |g.objs|])
  }

  function Unlisted(g: State, r: Ref): State { g.(active := g.active - {At(g, r).id}) }

  lemma UnlistedIs(g: State, r: Ref, id: u16)
    requires r < |g.objs| && g.objs[r].id == id
    ensures var g' := Unlisted(g, r);
      && g'.objs == g.objs && g'.active == g.active - {id} && g'.retired == g.retired && g'.queue == g.queue
      && g'.nextId == g.nextId && g'.tick == g.tick && g'.moveIn == g.moveIn && g'.dropped == g.dropped
  {
  }

  function Unplugged(g: State, r: Ref): State { Put(g, r, At(g, r).(connected := false)) }

  lemma ReleaseIs(g: State, r: Ref)
    ensures Release(g, r) == g.(retired := Release(g, r).retired)
  {
  }

  lemma RetireIs(g: State, r: Ref)
    ensures Session.Retire(g, r) == Unlisted(Unplugged(g, r), r).(retired := g.retired + [r])
    ensures Disconnect(g, r) == Unlisted(Unplugged(g, r), r)
  {
  }

  lemma HolderUnique(g: State, wallet: Wallet, r: Ref)
    requires TableOk(g) && WalletsOk(g) && Holds(g, wallet, r)
    ensures HolderOf(g, wallet) == Some(r)
    ensures forall q: Ref :: Holds(g, wallet, q) ==> q == r
  {
    forall q: Ref | Holds(g, wallet, q)
      ensures q == r
    {
      ActiveIsConnected(g, q);
      ActiveIsConnected(g, r);
    }
  }

  function Rechunked(g: State, r: Ref, chunk: Chunk): State { Put(g, r, At(g, r).(chunk := chunk)) }

  function Limited(cfg: Config, g: State, r: Ref, now: u64): State {
    Put(g, r, At(g, r).(moveWindow := Next(now, At(g, r).moveWindow, cfg.moveLimit)))
  }

  function MovedRec(cfg: Config, p: PlayerRec, pose: Pose): PlayerRec {
    var p' := p.(hasPose := true, pose := pose);
    p'.(pending := ItemOf(cfg, p'), hasPending := true, queued := true)
  }

  function Updated(cfg: Config, g: State, r: Ref, pose: Pose): State {
    var again := At(g, r).queued;
    Put(g, r, MovedRec(cfg, At(g, r), pose)).(
      queue := if again then g.queue else g.queue + [r],
      dropped := if again then g.dropped + 1 else g.dropped)
  }

  lemma UpdatedIs(cfg: Config, g: State, r: Ref, pose: Pose)
    ensures var g' := Put(g, r, MovedRec(cfg, At(g, r), pose));
      Updated(cfg, g, r, pose)
      == if At(g, r).queued then g'.(dropped := g'.dropped + 1) else g'.(queue := g'.queue + [r])
  {
  }

  /** The two updates of a MOVE and the count of accepted ones are the abstract move. */
  lemma MovedInSteps(cfg: Config, g: State, r: Ref, chunk: Chunk, pose: Pose)
    requires r < |g.objs|
    ensures Moved(cfg, g, r, chunk, pose)
         == Updated(cfg, Rechunked(g, r, chunk), r, pose).(moveIn := g.moveIn + 1)
    ensures var p := Moved(cfg, g, r, chunk, pose).objs[r]; p.hasPose && p.pose == pose && p.chunk == chunk
  {
    var g' := Rechunked(g, r, chunk);
    assert g'.objs[r := MovedRec(cfg, g'.objs[r], pose)] == g.objs[r := MovedRec(cfg, g'.objs[r], pose)];
  }

  /** What creation gives, in terms of the scan for an id. */
  lemma Creates(cfg: Config, g: State, h: Hello, now: u64)
    ensures |g.active| >= cfg.maxPlayers || !Contains(cfg, Chunk(h.startX, h.startZ)) ==> Create(cfg, g, h, now).None?
    ensures |g.active| < cfg.maxPlayers && Contains(cfg, Chunk(h.startX, h.startZ)) && g.nextId != 0 ==>
      match FirstFree(g.active.Keys, g.nextId)
      case None => Create(cfg, g, h, now).None?
      case Some(k) =>
        Create(cfg, g, h, now) == Some(Enrolled(g.(nextId := Cyc(g.nextId, k + 1)), h, Cyc(g.nextId, k), now))
  {
  }

  lemma CycStart(start: u16)
    requires start != 0
    ensures Cyc(start, 0) == start == Cyc(start, 65535)
  {
  }

  lemma CycNext(start: u16, i: nat)
    requires start != 0
    ensures Cyc(start, i + 1) == var next := WrapU16(Cyc(start, i) + 1); if next == 0 then 1 else next
  {
  }

  lemma FoundFirst(used: set<u16>, start: u16, k: nat)
    requires start != 0 && IsFirstFree(used, start, k)
    ensures FirstFree(used, start) == Some(k)
  {
  }
}
