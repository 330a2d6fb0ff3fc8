/** Records and messages: what the server keeps of a player is what the player has said. */
module Messages {
  import opened Ints
  import opened Chunks
  import opened Wire
  import opened RateLimit
  import opened Session
  import opened Tables
  import opened Delivery
  import opened View
  import opened Runs
  import opened Theorems
  import opened Admissions

  // ---------------------------------------------------------------- what a player has said

  /** The last MOVE of player r that the handler took, among the events from w on. */
  ghost function LastMove(cfg: Config, w: World, events: seq<Event>, r: Ref): Option<Move>
    decreases |events|
  {
    if events == [] then None
    else
      var later := LastMove(cfg, Step(cfg, w, events[0]), events[1..], r);
      if later.Some? then later
      else if Accepted(cfg, w, events[0], r) then DecodeMove(events[0].msg) else None
  }

  /** The HELLO with which player r was admitted, among the events from w on. */
  ghost function Greeting(cfg: Config, w: World, events: seq<Event>, r: Ref): Option<Hello>
    decreases |events|
  {
    if events == [] then None
    else if |w.g.objs| <= r < |Step(cfg, w, events[0]).g.objs| then
      if events[0].HelloMsg? then DecodeHello(events[0].msg) else None
    else Greeting(cfg, Step(cfg, w, events[0]), events[1..], r)
  }

  /** The record says what the HELLO and the last accepted MOVE said. */
  ghost predicate AsTold(cfg: Config, p: PlayerRec, h: Hello, last: Option<Move>) {
    && p.wallet == h.wallet
    && match last
       case None => !p.hasPose && p.chunk == Chunk(h.startX, h.startZ)
       case Some(m) => p.hasPose && p.pose == m.pose && LocalToGlobal(cfg, m.lx, m.lz) == Some(p.chunk)
  }

  // ---------------------------------------------------------------- one step

  /** Nothing that a player has said is forgotten or changed. */
  predicate SameWords(p: PlayerRec, p': PlayerRec) {
    p'.id == p.id && p'.wallet == p.wallet && p'.hasPose == p.hasPose && p'.pose == p.pose && p'.chunk == p.chunk
  }

  ghost predicate AllSameWords(g: State, g': State) {
    |g.objs| <= |g'.objs| && forall r: Ref :: r < |g.objs| ==> SameWords(g.objs[r], g'.objs[r])
  }

  lemma RetireWords(cfg: Config, w: World, wallet: Wallet)
    ensures AllSameWords(w.g, RetireStep(cfg, w, wallet).g)
    ensures |RetireStep(cfg, w, wallet).g.objs| == |w.g.objs|
  {
    hide Deliver, AoiPubs;
  }

  lemma AdmitWords(cfg: Config, w: World, s: Sid, h: Hello, now: u64, order: seq<Ref>)
    ensures var g' := AdmitStep(cfg, w, s, h, now, order).g;
      && AllSameWords(w.g, g') && |g'.objs| <= |w.g.objs| + 1
      && (|g'.objs| > |w.g.objs| ==> AsTold(cfg, g'.objs[|w.g.objs|], h, None))
  {
    hide FirstFree, Send, Subscribe, Joins;
  }

  lemma HelloWords(cfg: Config, w: World, s: Sid, msg: bytes, now: u64, order: seq<Ref>)
    ensures var g' := HelloStep(cfg, w, s, msg, now, order).g;
      && AllSameWords(w.g, g') && |g'.objs| <= |w.g.objs| + 1
      && (|g'.objs| > |w.g.objs| ==>
            DecodeHello(msg).Some? && AsTold(cfg, g'.objs[|w.g.objs|], DecodeHello(msg).value, None))
  {
    hide DecodeHello, RetireStep, AdmitStep, Send, AsTold;
    if s in w.users && !HelloRefused(w, s, msg) {
      var h := DecodeHello(msg).value;
      RetireWords(cfg, w, h.wallet);
      AdmitWords(cfg, RetireStep(cfg, w, h.wallet), s, h, now, order);
    }
  }

  /** A MOVE changes the record of its sender to what it says, if it is accepted, and no other record. */
  lemma MoveWords(cfg: Config, w: World, s: Sid, msg: bytes, now: u64, r: Ref, h: Hello)
    requires r < |w.g.objs|
    ensures var g', e := MoveStep(cfg, w, s, msg, now).g, MoveMsg(s, msg, now);
      && |g'.objs| == |w.g.objs|
      && g'.objs[r].id == w.g.objs[r].id && g'.objs[r].wallet == w.g.objs[r].wallet
      && (Accepted(cfg, w, e, r) && w.g.objs[r].wallet == h.wallet ==>
            AsTold(cfg, g'.objs[r], h, Some(DecodeMove(msg).value)))
      && (!Accepted(cfg, w, e, r) ==> SameWords(w.g.objs[r], g'.objs[r]))
  {
    hide DecodeMove, LocalToGlobal, Allows, Next, Resubscribed, Deliver, Send, LeftPubs, JoinedPubs, ItemOf,
      StillSettled;
  }

  lemma MoveCount(cfg: Config, w: World, s: Sid, msg: bytes, now: u64)
    ensures |MoveStep(cfg, w, s, msg, now).g.objs| == |w.g.objs|
  {
    MoveWindows(cfg, w, s, msg, now, 0);
  }

  lemma QuietWords(cfg: Config, w: World, e: Event)
    requires !e.HelloMsg? && !e.MoveMsg?
    ensures AllSameWords(w.g, Step(cfg, w, e).g) && |Step(cfg, w, e).g.objs| == |w.g.objs|
  {
    hide Deliver;
  }

  /** What a step makes of a player that it finds. */
  lemma StepWords(cfg: Config, w: World, e: Event, r: Ref, h: Hello, last: Option<Move>)
    requires r < |w.g.objs| && AsTold(cfg, w.g.objs[r], h, last)
    ensures var g' := Step(cfg, w, e).g;
      && r < |g'.objs| && g'.objs[r].id == w.g.objs[r].id
      && AsTold(cfg, g'.objs[r], h, if Accepted(cfg, w, e, r) then DecodeMove(e.msg) else last)
  {
    hide HelloStep, MoveStep, Deliver, LocalToGlobal, DecodeMove, Allows, IsActive;
    match e
    case HelloMsg(s, msg, now, snapshot) => HelloWords(cfg, w, s, msg, now, snapshot);
    case MoveMsg(s, msg, now) => MoveWords(cfg, w, s, msg, now, r, h);
    case _ => QuietWords(cfg, w, e);
  }

  /** A player that a step creates has said its HELLO and nothing else. */
  lemma NewWords(cfg: Config, w: World, e: Event, r: Ref)
    requires |w.g.objs| <= r < |Step(cfg, w, e).g.objs|
    ensures e.HelloMsg? && DecodeHello(e.msg).Some?
    ensures AsTold(cfg, Step(cfg, w, e).g.objs[r], DecodeHello(e.msg).value, None)
  {
    hide HelloStep, MoveStep, Deliver, DecodeHello, AsTold;
    match e
    case HelloMsg(s, msg, now, snapshot) => HelloWords(cfg, w, s, msg, now, snapshot);
    case MoveMsg(s, msg, now) => MoveCount(cfg, w, s, msg, now);
    case _ => QuietWords(cfg, w, e);
  }

  // ---------------------------------------------------------------- whole runs

  lemma {:induction false} WordsKept(cfg: Config, w0: World, events: seq<Event>, w: World, r: Ref, h: Hello,
                                     last: Option<Move>)
    requires Run(cfg, w0, events, w) && r < |w0.g.objs| && AsTold(cfg, w0.g.objs[r], h, last)
    ensures r < |w.g.objs|
    ensures var later := LastMove(cfg, w0, events, r); AsTold(cfg, w.g.objs[r], h, if later.Some? then later else last)
    decreases |events|
  {
    hide Step, AsTold, Accepted, Possible, DecodeMove;
    if events != [] {
      var e := events[0];
      StepWords(cfg, w0, e, r, h, last);
      if Accepted(cfg, w0, e, r) {
        AcceptedDecodes(cfg, w0, e, r);
      }
      var now := if Accepted(cfg, w0, e, r) then DecodeMove(e.msg) else last;
      WordsKept(cfg, Step(cfg, w0, e), events[1..], w, r, h, now);
    }
  }

  lemma AcceptedDecodes(cfg: Config, w: World, e: Event, r: Ref)
    requires Accepted(cfg, w, e, r)
    ensures e.MoveMsg? && DecodeMove(e.msg).Some?
  {
  }

  lemma NotYet(cfg: Config, w: World, e: Event, r: Ref)
    requires |w.g.objs| <= r
    ensures !Accepted(cfg, w, e, r)
  {
  }

  lemma {:induction false} WordsFrom(cfg: Config, w0: World, events: seq<Event>, w: World, r: Ref)
    requires Run(cfg, w0, events, w) && |w0.g.objs| <= r < |w.g.objs|
    ensures Greeting(cfg, w0, events, r).Some?
    ensures AsTold(cfg, w.g.objs[r], Greeting(cfg, w0, events, r).value, LastMove(cfg, w0, events, r))
    decreases |events|
  {
    hide Step, AsTold, Accepted, Possible, DecodeHello, DecodeMove;
    if events != [] {
      var e, w1 := events[0], Step(cfg, w0, events[0]);
      NotYet(cfg, w0, e, r);
      if r < |w1.g.objs| {
        NewWords(cfg, w0, e, r);
        WordsKept(cfg, w1, events[1..], w, r, DecodeHello(e.msg).value, None);
      } else {
        WordsFrom(cfg, w1, events[1..], w, r);
      }
    }
  }

  /** In every run, what the server has on record of each player it ever admitted is what the player said: the wallet of
      its HELLO, and the chunk and pose of its last accepted MOVE, or the chunk of its HELLO and no pose. */
  lemma RecordsAreTold(cfg: Config, events: seq<Event>, w: World, r: Ref)
    requires Run(cfg, START, events, w) && r < |w.g.objs|
    ensures var p, hello, last := w.g.objs[r], Greeting(cfg, START, events, r), LastMove(cfg, START, events, r);
      && hello.Some? && p.wallet == hello.value.wallet
      && (p.hasPose <==> last.Some?)
      && (last.None? ==> p.chunk == Chunk(hello.value.startX, hello.value.startZ))
      && (last.Some? ==> p.pose == last.value.pose && LocalToGlobal(cfg, last.value.lx, last.value.lz) == Some(p.chunk))
  {
    WordsFrom(cfg, START, events, w, r);
  }

  // ---------------------------------------------------------------- what a client shows

  /** Where a player has said it is. */
  ghost function PlaceTold(cfg: Config, h: Hello, last: Option<Move>): Chunk {
    match last
    case None => Chunk(h.startX, h.startZ)
    case Some(m) => if LocalToGlobal(cfg, m.lx, m.lz).Some? then LocalToGlobal(cfg, m.lx, m.lz).value else Chunk(0, 0)
  }

  /** At most aoiRadius chunks apart on each axis. */
  predicate InRange(cfg: Config, a: Chunk, b: Chunk) {
    && a.x - b.x <= cfg.aoiRadius && b.x - a.x <= cfg.aoiRadius
    && a.z - b.z <= cfg.aoiRadius && b.z - a.z <= cfg.aoiRadius
  }

  lemma InRangeIsNear(cfg: Config, a: Chunk, b: Chunk)
    ensures InRange(cfg, a, b) <==> Near(cfg, a, b)
  {
  }

  /** What picture v says of the player under an id, against what that player has said. */
  ghost predicate SaysAsTold(cfg: Config, v: Picture, id: u16, here: Chunk, h: Hello, last: Option<Move>, sent: bool) {
    && (id in v <==> last.Some? && InRange(cfg, here, PlaceTold(cfg, h, last)))
    && (id in v ==>
          && v[id].owner == Owner(cfg.ownerHash(h.wallet), cfg.fingerprint(h.wallet), h.wallet)
          && v[id].lx == last.value.lx && v[id].lz == last.value.lz
          && (sent ==> v[id].pose == last.value.pose))
  }

  lemma PlaceIs(cfg: Config, g: State, r: Ref, h: Hello, last: Option<Move>)
    requires r < |g.objs| && AsTold(cfg, g.objs[r], h, last)
    ensures PlaceTold(cfg, h, last) == g.objs[r].chunk
  {
  }

  lemma ShownIs(cfg: Config, g: State, r: Ref, q: Ref, v: Picture, h: Hello, last: Option<Move>)
    requires Deployable(cfg) && TableOk(g) && Exact(cfg, g, r, v)
    requires r < |g.objs| && IsActive(g, q) && q != r && AsTold(cfg, g.objs[q], h, last)
    ensures SaysAsTold(cfg, v, g.objs[q].id, g.objs[r].chunk, h, last, !g.objs[q].hasPending)
  {
    hide Deployable;
    var p := g.objs[q];
    ActiveIsConnected(g, q);
    PlaceIs(cfg, g, q, h, last);
    InRangeIsNear(cfg, g.objs[r].chunk, p.chunk);
    if last.Some? {
      LocalToGlobalInverts(cfg, last.value.lx, last.value.lz, p.chunk);
    }
    assert p.id in v ==> Visible(cfg, g, r, g.active[p.id]);
    assert Visible(cfg, g, r, q) ==> Shows(cfg, g, v, q);
  }

  lemma OnlyActive(cfg: Config, g: State, r: Ref, v: Picture)
    requires Exact(cfg, g, r, v)
    ensures forall id :: id in v ==> id in g.active
  {
  }

  lemma TablesOfRun(cfg: Config, events: seq<Event>, w: World, s: Sid, r: Ref)
    requires Deployable(cfg) && Run(cfg, START, events, w) && Active(w, s, r) && s in w.settled
    ensures TableOk(w.g) && Exact(cfg, w.g, r, PictureOf(w, s)) && IsActive(w.g, r)
  {
    hide Exact;
    EveryRun(cfg, events, w);
    ActiveIsConnected(w.g, r);
  }

  /** In every run, a client that has kept its surroundings shows, of the other active players, exactly those that have
      had a MOVE accepted and are in range by what the two have said, and shows each as it said: its wallet, the local
      coordinates of its last accepted MOVE, and the pose of that MOVE unless it is still queued. */
  lemma ShownAsTold(cfg: Config, events: seq<Event>, w: World, s: Sid, r: Ref, q: Ref)
    requires Deployable(cfg) && Run(cfg, START, events, w) && Active(w, s, r) && s in w.settled
    requires IsActive(w.g, q) && q != r
    ensures var mine, hello := Greeting(cfg, START, events, r), Greeting(cfg, START, events, q);
      && mine.Some? && hello.Some?
      && var here := PlaceTold(cfg, mine.value, LastMove(cfg, START, events, r));
      SaysAsTold(cfg, PictureOf(w, s), w.g.objs[q].id, here, hello.value, LastMove(cfg, START, events, q),
                 !w.g.objs[q].hasPending)
    ensures forall id :: id in PictureOf(w, s) ==> id in w.g.active
  {
    hide Run, Exact, PlaceTold, Deployable, TableOk, AsTold, SaysAsTold, Fold;
    TablesOfRun(cfg, events, w, s, r);
    WordsFrom(cfg, START, events, w, q);
    WordsFrom(cfg, START, events, w, r);
    PlaceIs(cfg, w.g, r, Greeting(cfg, START, events, r).value, LastMove(cfg, START, events, r));
    ShownIs(cfg, w.g, r, q, PictureOf(w, s), Greeting(cfg, START, events, q).value, LastMove(cfg, START, events, q));
    OnlyActive(cfg, w.g, r, PictureOf(w, s));
  }

  /** Right after a flush the pose is that of the last accepted MOVE as well. */
  lemma FlushShowsTold(cfg: Config, events: seq<Event>, w0: World, order: seq<nat>, w: World, s: Sid, r: Ref, q: Ref)
    requires Deployable(cfg) && Run(cfg, START, events, w0) && IsTopicOrder(cfg, w0.g, order)
    requires w == Step(cfg, w0, Flush(order)) && Active(w, s, r) && s in w.settled && IsActive(w.g, q) && q != r
    ensures var run := events + [Flush(order)];
      var mine, hello := Greeting(cfg, START, run, r), Greeting(cfg, START, run, q);
      && mine.Some? && hello.Some?
      && var here := PlaceTold(cfg, mine.value, LastMove(cfg, START, run, r));
      SaysAsTold(cfg, PictureOf(w, s), w.g.objs[q].id, here, hello.value, LastMove(cfg, START, run, q), true)
  {
    hide Run, Exact, PlaceTold, Deployable, SaysAsTold, Fold, IsTopicOrder, Flushed, Deliver;
    RunAppend(cfg, START, events, w0, Flush(order));
    ShownAsTold(cfg, events + [Flush(order)], w, s, r, q);
    TablesOfRun(cfg, events + [Flush(order)], w, s, r);
    ActiveIsConnected(w.g, q);
    QueueOfRun(cfg, events, w0);
    AfterFlush(cfg, w0, order, w);
  }
}
