/** The replicated view: what each client's frames amount to, over every run. */
module View {
  import opened Ints
  import opened Chunks
  import opened Wire
  import opened Session
  import opened Tables
  import opened Delivery

  // ---------------------------------------------------------------- one viewer

  /** q appears in the picture under its owner, in its current chunk, and with its current pose unless a move of q is
      still queued. */
  ghost predicate Shows(cfg: Config, g: State, v: Picture, q: Ref)
    requires q < |g.objs|
  {
    var p := g.objs[q];
    p.id in v
    && var seen, now := v[p.id], SeenOf(cfg, p);
    seen.owner == now.owner && seen.lx == now.lx && seen.lz == now.lz && (!p.hasPending ==> seen == now)
  }

  /** The picture holds exactly the players visible to r. */
  ghost predicate Exact(cfg: Config, g: State, r: Ref, v: Picture) {
    && (forall id :: id in v ==> id in g.active && Visible(cfg, g, r, g.active[id]))
    && (forall q: Ref :: Visible(cfg, g, r, q) ==> Shows(cfg, g, v, q))
  }

  lemma ExactAfterWindow(cfg: Config, g: State, g': State, r: Ref, v: Picture)
    requires Exact(cfg, g, r, v) && r < |g.objs|
    requires |g'.objs| == |g.objs| && g'.active == g.active
    requires forall q: Ref :: q < |g.objs| ==> g'.objs[q] == g.objs[q].(moveWindow := g'.objs[q].moveWindow)
    ensures Exact(cfg, g', r, v)
  {
    forall q: Ref | Visible(cfg, g', r, q)
      ensures Shows(cfg, g', v, q)
    {
      assert Visible(cfg, g, r, q);
      assert Shows(cfg, g, v, q);
    }
    forall id | id in v
      ensures id in g'.active && Visible(cfg, g', r, g'.active[id])
    {
      assert Visible(cfg, g, r, g.active[id]);
    }
  }

  /** The picture after the LEAVE of p, if it is delivered. */
  function AfterLeave(cfg: Config, g: State, r: Ref, p: Ref, v: Picture): Picture {
    if Near(cfg, At(g, r).chunk, At(g, p).chunk) then v - {At(g, p).id} else v
  }

  lemma ExactAfterDisconnect(cfg: Config, g: State, g': State, r: Ref, p: Ref, v: Picture)
    requires TableOk(g) && IsActive(g, p) && IsActive(g, r) && p != r && Exact(cfg, g, r, v)
    requires g'.objs == Disconnect(g, p).objs && g'.active == Disconnect(g, p).active
    ensures Exact(cfg, g', r, AfterLeave(cfg, g, r, p, v))
  {
    var v' := AfterLeave(cfg, g, r, p, v);
    forall id | id in v'
      ensures id in g'.active && Visible(cfg, g', r, g'.active[id])
    {
      assert Visible(cfg, g, r, g.active[id]);
    }
    forall q: Ref | Visible(cfg, g', r, q)
      ensures Shows(cfg, g', v', q)
    {
      assert Visible(cfg, g, r, q) && Shows(cfg, g, v, q);
      assert g.active[g.objs[q].id] == q && q != p;
    }
  }

  lemma ExactAfterCreate(cfg: Config, g: State, h: Hello, now: u64, r: Ref, v: Picture)
    requires TableOk(g) && Create(cfg, g, h, now).Some? && r < |g.objs| && Exact(cfg, g, r, v)
    ensures Exact(cfg, Create(cfg, g, h, now).value, r, v)
  {
    var g' := Create(cfg, g, h, now).value;
    forall id | id in v
      ensures id in g'.active && Visible(cfg, g', r, g'.active[id])
    {
      assert Visible(cfg, g, r, g.active[id]);
    }
    forall q: Ref | Visible(cfg, g', r, q)
      ensures Shows(cfg, g', v, q)
    {
      assert Visible(cfg, g, r, q) && Shows(cfg, g, v, q);
    }
  }

  /** The picture lists exactly the players in order, as they are. */
  ghost predicate Lists(cfg: Config, g: State, v: Picture, order: seq<Ref>) {
    && (forall id :: id in v ==> id in g.active && g.active[id] in order)
    && (forall q :: q in order ==> q < |g.objs| && g.objs[q].id in v && v[g.objs[q].id] == SeenOf(cfg, g.objs[q]))
  }

  lemma ListsOneMore(cfg: Config, g: State, v: Picture, before: seq<Ref>, last: Ref)
    requires TableOk(g) && Lists(cfg, g, v, before)
    requires last < |g.objs| && g.objs[last].connected
    ensures Lists(cfg, g, v[g.objs[last].id := SeenOf(cfg, g.objs[last])], before + [last])
  {
    var v' := v[g.objs[last].id := SeenOf(cfg, g.objs[last])];
    forall q | q in before + [last]
      ensures q < |g.objs| && g.objs[q].id in v' && v'[g.objs[q].id] == SeenOf(cfg, g.objs[q])
    {
      if g.objs[q].id == g.objs[last].id && q in before {
        assert v[g.objs[q].id] == SeenOf(cfg, g.objs[q]);
        assert g.active[g.objs[last].id] == last;
        assert g.objs[q].id in v && g.active[g.objs[q].id] in before;
        assert v[g.objs[last].id] == SeenOf(cfg, g.objs[last]);
      }
    }
  }

  lemma {:induction false} FoldJoins(cfg: Config, g: State, order: seq<Ref>)
    requires TableOk(g)
    requires forall q :: q in order ==> q < |g.objs| && g.objs[q].connected
    ensures Lists(cfg, g, Fold(map[], Joins(cfg, g, order)), order)
  {
    if order != [] {
      var before, last := order[..|order| - 1], order[|order| - 1];
      assert order == before + [last] && last in order;
      assert forall q :: q in before ==> q in order;
      FoldJoins(cfg, g, before);
      var frames := Joins(cfg, g, order);
      assert frames[..|frames| - 1] == Joins(cfg, g, before);
      ListsOneMore(cfg, g, Fold(map[], Joins(cfg, g, before)), before, last);
    }
  }

  /** A snapshot read from scratch gives the exact picture. */
  lemma SnapshotExact(cfg: Config, g: State, r: Ref, order: seq<Ref>)
    requires TableOk(g) && IsSnapshot(cfg, g, r, order)
    ensures Exact(cfg, g, r, Fold(map[], Joins(cfg, g, order)))
  {
    forall q | q in order
      ensures q < |g.objs| && g.objs[q].connected
    {
      assert Visible(cfg, g, r, q);
    }
    FoldJoins(cfg, g, order);
  }

  /** The picture of r after an accepted move of p: LEAVE around the old chunk, JOIN around the new one. */
  function AfterMove(cfg: Config, g: State, r: Ref, p: Ref, c: Chunk, pose: Pose, v: Picture): Picture {
    var before, moved := At(g, p), At(Moved(cfg, g, p, c, pose), p);
    var v1 := if c != before.chunk && before.hasPose then AfterLeave(cfg, g, r, p, v) else v;
    if (c != before.chunk || !before.hasPose) && Near(cfg, At(g, r).chunk, c)
    then v1[moved.id := SeenOf(cfg, moved)] else v1
  }

  lemma ExactAfterMove(cfg: Config, g: State, r: Ref, p: Ref, c: Chunk, pose: Pose, v: Picture)
    requires TableOk(g) && IsActive(g, p) && IsActive(g, r) && p != r && Exact(cfg, g, r, v)
    ensures Exact(cfg, Moved(cfg, g, p, c, pose), r, AfterMove(cfg, g, r, p, c, pose, v))
  {
    var g' := Moved(cfg, g, p, c, pose);
    var v' := AfterMove(cfg, g, r, p, c, pose, v);
    forall id | id in v'
      ensures id in g'.active && Visible(cfg, g', r, g'.active[id])
    {
      if id != g.objs[p].id {
        assert Visible(cfg, g, r, g.active[id]);
      } else if id in v {
        assert Visible(cfg, g, r, p);
      }
    }
    forall q: Ref | Visible(cfg, g', r, q)
      ensures Shows(cfg, g', v', q)
    {
      assert g.active[g.objs[q].id] == q;
      if Visible(cfg, g, r, q) {
        assert Shows(cfg, g, v, q);
      }
    }
  }

  /** A viewer that moves without changing its surroundings receives nothing and misses nothing. */
  lemma ExactAfterOwnMove(cfg: Config, g: State, r: Ref, c: Chunk, pose: Pose, v: Picture)
    requires TableOk(g) && IsActive(g, r) && Exact(cfg, g, r, v) && SameSurroundings(cfg, g, r, At(g, r).chunk, c)
    ensures Exact(cfg, Moved(cfg, g, r, c, pose), r, v)
  {
    var g' := Moved(cfg, g, r, c, pose);
    forall q: Ref
      ensures Visible(cfg, g', r, q) <==> Visible(cfg, g, r, q)
      ensures Visible(cfg, g, r, q) ==> Shows(cfg, g', v, q)
    {
      if Visible(cfg, g, r, q) {
        assert Shows(cfg, g, v, q);
      }
    }
  }

  /** From v to v', the queued moves near r have been taken in and nothing else has changed. */
  ghost predicate TakenIn(cfg: Config, g: State, queue: seq<Ref>, r: Ref, v: Picture, v': Picture)
    requires r < |g.objs|
  {
    && v'.Keys == v.Keys
    && forall q: Ref :: q < |g.objs| && g.objs[q].connected && g.objs[q].id in v ==>
         v'[g.objs[q].id] == if q in queue && g.objs[q].hasPending && Near(cfg, g.objs[r].chunk, g.objs[q].chunk)
                             then Placed(v[g.objs[q].id], ItemOf(cfg, g.objs[q])) else v[g.objs[q].id]
  }

  lemma TakenInOneMore(cfg: Config, g: State, before: seq<Ref>, last: Ref, r: Ref, v: Picture, v': Picture)
    requires Deployable(cfg) && TableOk(g) && r < |g.objs| && last < |g.objs| && last !in before
    requires Contains(cfg, g.objs[r].chunk) && Contains(cfg, g.objs[last].chunk)
    requires g.objs[last].connected && g.objs[last].hasPending ==> g.objs[last].pending == ItemOf(cfg, g.objs[last])
    requires TakenIn(cfg, g, before, r, v, v')
    ensures var p := g.objs[last];
      TakenIn(cfg, g, before + [last], r, v,
              if Flushable(p) && LocalIndex(cfg, g.objs[r].chunk) in AoiTopics(cfg, p.chunk)
              then ApplyItems(v', [p.pending]) else v')
  {
    var p := g.objs[last];
    AoiTopicsExact(cfg, p.chunk);
    NearSymmetric(cfg, p.chunk, g.objs[r].chunk);
    ApplyOne(v', p.pending);
    if p.connected {
      assert g.active[p.id] == last;
    }
  }

  lemma {:induction false} FoldItems(cfg: Config, g: State, queue: seq<Ref>, r: Ref, v: Picture)
    requires Deployable(cfg) && TableOk(g) && ChunksOk(cfg, g) && r < |g.objs| && NoDup(queue)
    requires forall q: Ref :: q < |g.objs| && g.objs[q].connected ==> FlagsOk(cfg, g, q)
    requires forall q :: q in queue ==> q < |g.objs|
    ensures TakenIn(cfg, g, queue, r, v, ApplyItems(v, TopicItems(cfg, g, queue, LocalIndex(cfg, g.objs[r].chunk))))
  {
    if queue != [] {
      var before, last, t := queue[..|queue| - 1], queue[|queue| - 1], LocalIndex(cfg, g.objs[r].chunk);
      assert queue == before + [last] && last in queue;
      assert forall q :: q in before ==> q in queue;
      FoldItems(cfg, g, before, r, v);
      var p, items := g.objs[last], TopicItems(cfg, g, before, t);
      if p.connected {
        assert FlagsOk(cfg, g, last);
      }
      TakenInOneMore(cfg, g, before, last, r, v, ApplyItems(v, items));
      ApplyItemsConcat(v, items, [p.pending]);
      assert items + [] == items;
    }
  }

  lemma ApplyOne(v: Picture, m: MoveItem)
    ensures ApplyItems(v, [m]) == if m.id in v then v[m.id := Placed(v[m.id], m)] else v
  {
    assert [m][..0] == [];
    assert ApplyItems(v, []) == v;
  }

  lemma FlushKeepsVisible(cfg: Config, g: State, r: Ref, q: Ref)
    requires r < |g.objs|
    ensures Visible(cfg, Flushed(g), r, q) <==> Visible(cfg, g, r, q)
    ensures q < |g.objs| ==> SeenOf(cfg, Flushed(g).objs[q]) == SeenOf(cfg, g.objs[q])
    ensures q < |g.objs| ==> Flushed(g).objs[q].id == g.objs[q].id
  {
  }

  lemma ExactAfterFlush(cfg: Config, g: State, r: Ref, v: Picture)
    requires Deployable(cfg) && Good(cfg, g) && r < |g.objs| && Exact(cfg, g, r, v)
    ensures Exact(cfg, Flushed(g), r, ApplyItems(v, TopicItems(cfg, g, g.queue, LocalIndex(cfg, g.objs[r].chunk))))
  {
    FoldItems(cfg, g, g.queue, r, v);
    var g' := Flushed(g);
    var v' := ApplyItems(v, TopicItems(cfg, g, g.queue, LocalIndex(cfg, g.objs[r].chunk)));
    assert v'.Keys == v.Keys;
    forall id | id in v'
      ensures id in g'.active && Visible(cfg, g', r, g'.active[id])
    {
      assert Visible(cfg, g, r, g.active[id]);
      FlushKeepsVisible(cfg, g, r, g.active[id]);
    }
    forall q: Ref | Visible(cfg, g', r, q)
      ensures Shows(cfg, g', v', q)
    {
      FlushKeepsVisible(cfg, g, r, q);
      assert Shows(cfg, g, v, q) && FlagsOk(cfg, g, q);
    }
  }
}
