/** The invariant of the player tables, the retired list and the move queue, and that every step keeps it. */
module Tables {
  import opened Ints
  import opened Chunks
  import opened Wire
  import opened RateLimit
  import opened Session

  /** The id table holds exactly the connected players, under their own non-zero ids. */
  ghost predicate TableOk(g: State) {
    && (forall id :: id in g.active ==>
          id != 0 && g.active[id] < |g.objs| && g.objs[g.active[id]].id == id && g.objs[g.active[id]].connected)
    && (forall r: Ref :: r < |g.objs| && g.objs[r].connected ==>
          g.objs[r].id in g.active && g.active[g.objs[r].id] == r)
    && g.nextId != 0
  }

  ghost predicate WalletsOk(g: State) {
    forall q: Ref, r: Ref ::
      q < r < |g.objs| && g.objs[q].connected && g.objs[r].connected ==> g.objs[q].wallet != g.objs[r].wallet
  }

  ghost predicate ChunksOk(cfg: Config, g: State) {
    forall r: Ref :: r < |g.objs| ==> Contains(cfg, g.objs[r].chunk)
  }

  ghost predicate RetiredOk(g: State) {
    NoDup(g.retired) && forall r :: r in g.retired ==> r < |g.objs| && !g.objs[r].connected
  }

  /** What the two flags of a connected player mean, and what waits for it. */
  ghost predicate FlagsOk(cfg: Config, g: State, r: Ref)
    requires r < |g.objs|
  {
    var p := g.objs[r];
    && (p.queued <==> r in g.queue)
    && (p.hasPending <==> p.queued)
    && (p.hasPending ==> p.hasPose && p.pending == ItemOf(cfg, p))
  }

  ghost predicate QueueOk(cfg: Config, g: State) {
    && NoDup(g.queue)
    && (forall r :: r in g.queue ==> r < |g.objs|)
    && (forall r: Ref :: r < |g.objs| && g.objs[r].connected ==> FlagsOk(cfg, g, r))
    && g.moveIn == g.dropped + g.flushed + g.skipped + |g.queue|
  }

  ghost predicate Good(cfg: Config, g: State) {
    TableOk(g) && WalletsOk(g) && ChunksOk(cfg, g) && RetiredOk(g) && QueueOk(cfg, g) && |g.active| <= cfg.maxPlayers
  }

  lemma ActiveIsConnected(g: State, r: Ref)
    requires TableOk(g)
    ensures IsActive(g, r) <==> r < |g.objs| && g.objs[r].connected
  {
  }

  // ---------------------------------------------------------------- id allocation

  lemma CycCovers(next: u16, id: u16)
    requires next != 0 && id != 0
    ensures exists k: nat :: k < 65535 && Cyc(next, k) == id
  {
    var k: nat := if id >= next then id - next else id - next + 65535;
    assert Cyc(next, k) == id;
  }

  /** The ids 1, ..., n. */
  function Ids(n: nat): (ids: set<u16>)
    requires n < 65536
    ensures forall id :: id in ids ==> 1 <= id <= n
  {
    if n == 0 then {} else Ids(n - 1) + {n}
  }

  lemma {:induction false} IdsSize(n: nat)
    requires n < 65536
    ensures |Ids(n)| == n
  {
    if n > 0 {
      IdsSize(n - 1);
      assert n !in Ids(n - 1);
    }
  }

  lemma LeastFree(used: set<u16>, next: u16, k: nat)
    requires next != 0 && k < 65535 && Cyc(next, k) !in used
    ensures exists i :: IsFirstFree(used, next, i)
    decreases k
  {
    if j: nat :| j < k && Cyc(next, j) !in used {
      LeastFree(used, next, j);
    } else {
      assert IsFirstFree(used, next, k);
    }
  }

  /** Pigeonhole: with fewer than 65535 ids in use the scan finds one. */
  lemma FirstFreeExists(used: set<u16>, next: u16)
    requires next != 0 && |used| < 65535
    ensures FirstFree(used, next).Some?
  {
    var all := 65535;
    IdsSize(all);
    if Ids(all) <= used {
      SubsetSize(Ids(all), used);
      assert false;
    }
    var id :| id in Ids(all) && id !in used;
    CycCovers(next, id);
    var k: nat :| k < 65535 && Cyc(next, k) == id;
    LeastFree(used, next, k);
  }

  /** The allocated id is fresh, non-zero, and the first free one in cyclic order. */
  lemma AllocationTotal(cfg: Config, g: State, h: Hello, now: u64)
    requires Validated(cfg) && TableOk(g) && CanAccept(cfg, g)
    ensures Create(cfg, g, h, now).None? <==> !Contains(cfg, Chunk(h.startX, h.startZ))
    ensures Create(cfg, g, h, now).Some? ==>
      var g' := Create(cfg, g, h, now).value;
      var id := g'.objs[|g.objs|].id;
      && id != 0 && id !in g.active && g'.active == g.active[id := |g.objs|]
      && exists k :: IsFirstFree(g.active.Keys, g.nextId, k) && id == Cyc(g.nextId, k)
  {
    assert |g.active| == |g.active.Keys|;
    FirstFreeExists(g.active.Keys, g.nextId);
  }

  /** In plain numbers: id is free and none is free from next on below it, or, if none is free from next on at all, it
      is the lowest free one. */
  ghost predicate LowestFrom(used: set<u16>, next: u16, id: u16) {
    && 1 <= id <= 65535 && id !in used
    && if id >= next then forall j: u16 :: next <= j < id ==> j in used
       else (forall j: u16 :: next <= j ==> j in used) && forall j: u16 :: 1 <= j < id ==> j in used
  }

  lemma CycIs(next: u16, k: nat)
    requires next != 0 && k <= 65535
    ensures Cyc(next, k) == if next + k <= 65535 then next + k else next + k - 65535
  {
  }

  lemma FirstFreeIsLowest(used: set<u16>, next: u16, k: nat)
    requires next != 0 && IsFirstFree(used, next, k)
    ensures LowestFrom(used, next, Cyc(next, k))
    ensures Cyc(next, k + 1) == if Cyc(next, k) == 65535 then 1 else Cyc(next, k) + 1
  {
    var id := Cyc(next, k);
    CycIs(next, k);
    CycIs(next, k + 1);
    forall j: u16 | (if id >= next then next <= j < id else next <= j || 1 <= j < id)
      ensures j in used
    {
      var i: nat := if j >= next then j - next else j - next + 65535;
      CycIs(next, i);
      assert Cyc(next, i) == j && i < k;
    }
  }

  /** The player that a HELLO creates gets the next free number after the one given out before, starting again at 1
      after 65535. */
  lemma IdsGoUp(cfg: Config, g: State, h: Hello, now: u64)
    requires TableOk(g) && Create(cfg, g, h, now).Some?
    ensures var g' := Create(cfg, g, h, now).value;
      var id := g'.objs[|g.objs|].id;
      && LowestFrom(g.active.Keys, g.nextId, id) && g'.nextId == if id == 65535 then 1 else id + 1
  {
    FirstFreeIsLowest(g.active.Keys, g.nextId, FirstFree(g.active.Keys, g.nextId).value);
  }

  // ---------------------------------------------------------------- every step keeps the tables

  /** The same players, active and retired; only chunks, poses, limiter and flags may differ. */
  ghost predicate SamePlayers(g: State, g': State) {
    && |g'.objs| == |g.objs| && g'.active == g.active && g'.retired == g.retired && g'.nextId == g.nextId
    && (forall r: Ref :: r < |g.objs| ==> SameOwner(g.objs[r], g'.objs[r]))
  }

  predicate SameOwner(p: PlayerRec, p': PlayerRec) {
    p'.id == p.id && p'.wallet == p.wallet && p'.connected == p.connected
  }

  lemma SamePlayersKeep(g: State, g': State)
    requires SamePlayers(g, g') && TableOk(g) && WalletsOk(g) && RetiredOk(g)
    ensures TableOk(g') && WalletsOk(g') && RetiredOk(g')
  {
    assert TableOk(g') by {
      forall id | id in g'.active
        ensures g'.objs[g'.active[id]].id == id && g'.objs[g'.active[id]].connected
      {
        assert SameOwner(g.objs[g.active[id]], g'.objs[g.active[id]]);
      }
    }
  }

  lemma CreateTable(cfg: Config, g: State, h: Hello, now: u64)
    requires TableOk(g) && RetiredOk(g) && Create(cfg, g, h, now).Some?
    ensures TableOk(Create(cfg, g, h, now).value) && RetiredOk(Create(cfg, g, h, now).value)
  {
  }

  lemma CreateWallets(cfg: Config, g: State, h: Hello, now: u64)
    requires TableOk(g) && WalletsOk(g) && HolderOf(g, h.wallet).None? && Create(cfg, g, h, now).Some?
    ensures WalletsOk(Create(cfg, g, h, now).value)
  {
    forall r: Ref | r < |g.objs| && g.objs[r].connected
      ensures g.objs[r].wallet != h.wallet
    {
      assert !Holds(g, h.wallet, r);
    }
  }

  lemma CreateQueue(cfg: Config, g: State, h: Hello, now: u64)
    requires QueueOk(cfg, g) && Create(cfg, g, h, now).Some?
    ensures QueueOk(cfg, Create(cfg, g, h, now).value)
  {
    var g' := Create(cfg, g, h, now).value;
    forall r: Ref | r < |g'.objs| && g'.objs[r].connected
      ensures FlagsOk(cfg, g', r)
    {
      if r < |g.objs| {
        assert FlagsOk(cfg, g, r);
      }
    }
  }

  lemma CreateKeeps(cfg: Config, g: State, h: Hello, now: u64)
    requires Good(cfg, g) && HolderOf(g, h.wallet).None? && Create(cfg, g, h, now).Some?
    ensures Good(cfg, Create(cfg, g, h, now).value)
  {
    CreateTable(cfg, g, h, now);
    CreateWallets(cfg, g, h, now);
    CreateQueue(cfg, g, h, now);
  }

  lemma DisconnectTable(g: State, r: Ref)
    requires TableOk(g) && IsActive(g, r)
    ensures TableOk(Disconnect(g, r)) && TableOk(Retire(g, r))
  {
  }

  lemma DisconnectWallets(g: State, r: Ref)
    requires WalletsOk(g) && r < |g.objs|
    ensures WalletsOk(Disconnect(g, r)) && WalletsOk(Retire(g, r))
  {
  }

  lemma DisconnectRetired(g: State, r: Ref)
    requires RetiredOk(g) && r < |g.objs| && g.objs[r].connected
    ensures RetiredOk(Disconnect(g, r)) && RetiredOk(Retire(g, r))
  {
    assert r !in g.retired;
  }

  lemma DisconnectQueue(cfg: Config, g: State, r: Ref)
    requires QueueOk(cfg, g) && IsActive(g, r)
    ensures QueueOk(cfg, Disconnect(g, r)) && QueueOk(cfg, Retire(g, r))
  {
    var g' := Disconnect(g, r);
    forall q: Ref | q < |g'.objs| && g'.objs[q].connected
      ensures FlagsOk(cfg, g', q) && FlagsOk(cfg, Retire(g, r), q)
    {
      assert FlagsOk(cfg, g, q);
    }
  }

  lemma DisconnectRest(cfg: Config, g: State, r: Ref)
    requires TableOk(g) && ChunksOk(cfg, g) && IsActive(g, r)
    ensures ChunksOk(cfg, Disconnect(g, r)) && ChunksOk(cfg, Retire(g, r))
    ensures Retire(g, r).active == Disconnect(g, r).active && |Disconnect(g, r).active| == |g.active| - 1
  {
    assert g.active.Keys == Disconnect(g, r).active.Keys + {g.objs[r].id};
  }

  lemma DisconnectKeeps(cfg: Config, g: State, r: Ref)
    requires Good(cfg, g) && IsActive(g, r)
    ensures Good(cfg, Disconnect(g, r)) && Good(cfg, Retire(g, r))
    ensures |Disconnect(g, r).active| == |g.active| - 1
  {
    ActiveIsConnected(g, r);
    DisconnectTable(g, r);
    DisconnectWallets(g, r);
    DisconnectRetired(g, r);
    DisconnectQueue(cfg, g, r);
    DisconnectRest(cfg, g, r);
    hide TableOk, WalletsOk, ChunksOk, RetiredOk, QueueOk;
  }

  lemma {:induction false} WithoutList(s: seq<Ref>, r: Ref)
    requires NoDup(s)
    ensures NoDup(Without(s, r))
    ensures forall q :: q in Without(s, r) <==> q in s && q != r
  {
    if s != [] {
      WithoutList(s[1..], r);
      assert s[0] !in s[1..];
      assert s == [s[0]] + s[1..];
    }
  }

  lemma ReleaseKeeps(cfg: Config, g: State, r: Ref)
    requires Good(cfg, g)
    ensures Good(cfg, Release(g, r))
  {
    WithoutList(g.retired, r);
    forall q: Ref | q < |g.objs| && g.objs[q].connected
      ensures FlagsOk(cfg, Release(g, r), q)
    {
      assert FlagsOk(cfg, g, q);
    }
  }

  lemma WindowQueue(cfg: Config, g: State, r: Ref, window: Window)
    requires QueueOk(cfg, g) && r < |g.objs|
    ensures QueueOk(cfg, Put(g, r, At(g, r).(moveWindow := window)))
  {
    forall q: Ref | q < |g.objs| && g.objs[q].connected
      ensures FlagsOk(cfg, Put(g, r, At(g, r).(moveWindow := window)), q)
    {
      assert FlagsOk(cfg, g, q);
    }
  }

  lemma WindowKeeps(cfg: Config, g: State, r: Ref, window: Window)
    requires Good(cfg, g) && IsActive(g, r)
    ensures Good(cfg, Put(g, r, At(g, r).(moveWindow := window)))
  {
    hide TableOk, WalletsOk, RetiredOk, QueueOk;
    SamePlayersKeep(g, Put(g, r, At(g, r).(moveWindow := window)));
    WindowQueue(cfg, g, r, window);
  }

  lemma MovedQueue(cfg: Config, g: State, r: Ref, c: Chunk, pose: Pose)
    requires QueueOk(cfg, g) && r < |g.objs| && g.objs[r].connected
    ensures QueueOk(cfg, Moved(cfg, g, r, c, pose))
  {
    var g' := Moved(cfg, g, r, c, pose);
    assert FlagsOk(cfg, g, r);
    forall q: Ref | q < |g.objs| && g.objs[q].connected
      ensures FlagsOk(cfg, g', q)
    {
      assert FlagsOk(cfg, g, q);
    }
  }

  lemma MovedKeeps(cfg: Config, g: State, r: Ref, c: Chunk, pose: Pose)
    requires Good(cfg, g) && IsActive(g, r) && Contains(cfg, c)
    ensures Good(cfg, Moved(cfg, g, r, c, pose))
  {
    hide TableOk, WalletsOk, RetiredOk, QueueOk;
    SamePlayersKeep(g, Moved(cfg, g, r, c, pose));
    ActiveIsConnected(g, r);
    MovedQueue(cfg, g, r, c, pose);
  }

  /** What waits is sent or was disconnected, nothing else: a connected player in the queue always has a move to
      send. */
  lemma {:induction false} CountsPartition(cfg: Config, g: State, queue: seq<Ref>)
    requires QueueOk(cfg, g) && forall r :: r in queue ==> r in g.queue
    ensures CountFlushable(g, queue) + CountGone(g, queue) == |queue|
  {
    if queue != [] {
      var before, last := queue[..|queue| - 1], queue[|queue| - 1];
      assert queue == before + [last] && last in queue;
      assert forall r :: r in before ==> r in queue;
      CountsPartition(cfg, g, before);
      if g.objs[last].connected {
        assert FlagsOk(cfg, g, last);
      }
    }
  }

  lemma FlushedQueue(cfg: Config, g: State)
    requires QueueOk(cfg, g)
    ensures QueueOk(cfg, Flushed(g))
    ensures forall r: Ref :: r < |g.objs| && g.objs[r].connected ==> !Flushed(g).objs[r].hasPending
  {
    CountsPartition(cfg, g, g.queue);
    var g' := Flushed(g);
    forall q: Ref | q < |g.objs| && g.objs[q].connected
      ensures FlagsOk(cfg, g', q) && !g'.objs[q].hasPending
    {
      assert FlagsOk(cfg, g, q);
    }
  }

  lemma FlushedKeeps(cfg: Config, g: State)
    requires Good(cfg, g)
    ensures Good(cfg, Flushed(g))
  {
    assert SamePlayers(g, Flushed(g));
    SamePlayersKeep(g, Flushed(g));
    FlushedQueue(cfg, g);
  }
}
