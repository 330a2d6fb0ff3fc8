/** A run, from the first connection on, after which a viewer's picture is wrong. */
module Walk {
  import opened Ints
  import opened Chunks
  import opened Wire
  import opened RateLimit
  import opened Session
  import opened Tables
  import opened View
  import opened Runs
  import opened Theorems
  import opened Dangling
  import opened Digs
  import opened Updates

  const SMALL: Config :=
    Config(Chunk(0, 0), 5, 1, 16, 10, 10, 30, 10, true, (w: Wallet) => 0, (w: Wallet) => 0)

  const ALICE: Wallet := NO_WALLET[0 := 1]
  const BOB: Wallet := NO_WALLET[0 := 2]
  const STANDING: Wire.Pose := Wire.Pose(0, 0, 0, 0, 0)

  function HelloOf(wallet: Wallet, x: i32): Hello { Hello(PROTOCOL_VERSION, 0, wallet, x, 0, 0) }

  /** A pose in the chunk with the given local column, in the middle row. */
  function MoveOf(lx: u8): Move { Move(lx, 5, STANDING, 0) }

  const OPEN_ALICE: Event := Open(0)
  const HELLO_ALICE: Event := HelloMsg(0, EncodeHello(HelloOf(ALICE, 0)), 0, [])
  const OPEN_BOB: Event := Open(1)
  const HELLO_BOB: Event := HelloMsg(1, EncodeHello(HelloOf(BOB, 2)), 0, [])
  const BOB_POSES: Event := MoveMsg(1, EncodeMove(MoveOf(7)), 0)
  const BOB_LEAVES: Event := Event.Close(1)
  const ALICE_WALKS: Event := MoveMsg(0, EncodeMove(MoveOf(6)), 0)

  // ---------------------------------------------------------------- one step each

  lemma Welcomed(w: World, s: Sid, h: Hello, g: State)
    requires s in w.users && w.users[s].None? && h.version == PROTOCOL_VERSION && !WalletEmpty(h.wallet)
    requires HolderOf(w.g, h.wallet).None? && CanAccept(SMALL, w.g) && Create(SMALL, w.g, h, 0) == Some(g)
    requires IsSnapshot(SMALL, g, |w.g.objs|, [])
    ensures var e := HelloMsg(s, EncodeHello(h), 0, []);
      var w' := Step(SMALL, w, e);
      && Possible(SMALL, w, e)
      && w'.g == g && w'.users == w.users[s := Some(|w.g.objs|)] && w'.settled == w.settled + {s}
  {
    hide EncodeHello, DecodeHello, Create, IsSnapshot, WalletEmpty, CanAccept;
    HelloRoundTrip(h);
  }

  /** With n players under the ids 1 to n, the next one gets n + 1. */
  lemma CreatedNext(g: State, h: Hello, n: u16)
    requires n < 10 && g.nextId == n + 1 && |g.active| == n && n + 1 !in g.active
    requires Contains(SMALL, Chunk(h.startX, h.startZ))
    ensures CanAccept(SMALL, g) && Create(SMALL, g, h, 0) == Some(Enrolled(g.(nextId := n + 2), h, n + 1, 0))
  {
    hide Contains, Create;
    assert Cyc(n + 1, 0) == n + 1 && Cyc(n + 1, 1) == n + 2;
    FoundFirst(g.active.Keys, n + 1, 0);
    Creates(SMALL, g, h, 0);
  }

  lemma NobodyPosed(g: State, r: Ref)
    requires forall q: Ref :: q < |g.objs| ==> !g.objs[q].hasPose
    ensures IsSnapshot(SMALL, g, r, [])
  {
    assert forall q :: !Visible(SMALL, g, r, q);
  }

  /** The state after the first HELLO, and after the second. */
  function Alone(): State { Enrolled(EMPTY.(nextId := 2), HelloOf(ALICE, 0), 1, 0) }

  function Both(): State { Enrolled(Alone().(nextId := 3), HelloOf(BOB, 2), 2, 0) }

  lemma AloneIs()
    ensures var g := Alone();
      && |g.objs| == 1 && g.active == map[1 := 0] && g.nextId == 2
      && g.objs[0].wallet == ALICE && g.objs[0].chunk == Chunk(0, 0) && g.objs[0].moveWindow == Window(0, 0)
      && !g.objs[0].hasPose
  {
  }

  lemma BothIs()
    ensures var g := Both();
      && |g.objs| == 2 && g.objs[0] == Alone().objs[0] && !g.objs[1].hasPose
      && g.objs[1].chunk == Chunk(2, 0) && g.objs[1].moveWindow == Window(0, 0)
  {
  }

  lemma AliceArrives(w: World)
    requires w.g == EMPTY && w.users == map[0 := None] && w.settled == {}
    ensures Possible(SMALL, w, HELLO_ALICE)
    ensures var w' := Step(SMALL, w, HELLO_ALICE);
      w'.g == Alone() && w'.users == map[0 := Some(0)] && w'.settled == {0}
  {
    hide Create, Step, Possible, IsSnapshot, Enrolled;
    var h := HelloOf(ALICE, 0);
    assert h.wallet[0] == 1;
    assert forall q :: !Holds(EMPTY, ALICE, q);
    CreatedNext(EMPTY, h, 0);
    AloneIs();
    NobodyPosed(Alone(), 0);
    Welcomed(w, 0, h, Alone());
  }

  lemma BobArrives(w: World)
    requires w.g == Alone() && w.users == map[0 := Some(0), 1 := None] && w.settled == {0}
    ensures Possible(SMALL, w, HELLO_BOB)
    ensures var w' := Step(SMALL, w, HELLO_BOB);
      w'.g == Both() && w'.users == map[0 := Some(0), 1 := Some(1)] && w'.settled == {0, 1}
  {
    hide Create, Step, Possible, IsSnapshot, Enrolled, Alone;
    var h := HelloOf(BOB, 2);
    AloneIs();
    BothIs();
    BobIsNew();
    CreatedNext(Alone(), h, 1);
    NobodyPosed(Both(), 1);
    Welcomed(w, 1, h, Both());
  }

  lemma BobIsNew()
    ensures !WalletEmpty(BOB) && HolderOf(Alone(), BOB).None?
  {
    hide Alone;
    AloneIs();
    assert BOB[0] == 2 && ALICE[0] == 1;
    assert forall q :: !Holds(Alone(), BOB, q);
  }

  /** What an accepted MOVE does to the tables. */
  lemma Moves(w: World, s: Sid, r: Ref, lx: u8, c: Chunk)
    requires Inv(SMALL, w) && Active(w, s, r) && w.g.objs[r].moveWindow == Window(0, 0)
    requires Contains(SMALL, c) && lx == ToLocalX(SMALL, c.x) && c.z == 0
    ensures Taken(SMALL, w, s, r, EncodeMove(MoveOf(lx)), 0, c)
    ensures var w' := MoveStep(SMALL, w, s, EncodeMove(MoveOf(lx)), 0);
      && w'.users == w.users && |w'.g.objs| == |w.g.objs|
      && (forall q: Ref :: q < |w.g.objs| && q != r ==> w'.g.objs[q] == w.g.objs[q])
      && Active(w', s, r) && w'.g.objs[r].hasPose && w'.g.objs[r].queued && w'.g.objs[r].chunk == c
      && w'.settled == StillSettled(SMALL, w, s, r, c)
  {
    hide Inv, EncodeMove, DecodeMove, Deliver, Resubscribed, JoinedPubs, LeftPubs, LocalToGlobal, MoveStep;
    MoveRoundTrip(MoveOf(lx));
    LocalToGlobalInverts(SMALL, lx, 5, c);
    TakenIsAccepted(SMALL, w, s, r, EncodeMove(MoveOf(lx)), 0, c);
  }

  /** Bob shows himself two chunks away from Alice. */
  lemma BobShows(w: World)
    requires Inv(SMALL, w) && w.g == Both() && w.users == map[0 := Some(0), 1 := Some(1)] && w.settled == {0, 1}
    ensures Met(Step(SMALL, w, BOB_POSES))
  {
    hide Inv, EncodeMove, MoveStep, Both, Alone;
    BothIs();
    AloneIs();
    BothConnected();
    Moves(w, 1, 1, 7, Chunk(2, 0));
  }

  lemma BothConnected()
    ensures |Both().objs| == 2 && Both().objs[0].connected && Both().objs[1].connected
  {
  }

  /** Alice has no pose yet; Bob has one, two chunks away, still to be sent; both stand where they arrived. */
  predicate Met(w: World) {
    && w.users == map[0 := Some(0), 1 := Some(1)] && w.settled == {0, 1} && |w.g.objs| == 2
    && w.g.objs[0].connected && w.g.objs[0].chunk == Chunk(0, 0) && w.g.objs[0].moveWindow == Window(0, 0)
    && w.g.objs[1].connected && w.g.objs[1].chunk == Chunk(2, 0) && w.g.objs[1].hasPose && w.g.objs[1].queued
  }

  /** Alice walks one chunk towards him, and is told nothing. */
  lemma AliceWalks(w: World)
    requires Inv(SMALL, w) && Met(w)
    ensures var w' := Step(SMALL, w, ALICE_WALKS);
      Active(w', 0, 0) && At(w'.g, 0).chunk == Chunk(1, 0) && !Exact(SMALL, w'.g, 0, PictureOf(w', 0))
  {
    hide Inv, EncodeMove, DecodeMove, Exact, MoveStep, AcceptMove, Taken;
    Moves(w, 0, 0, 6, Chunk(1, 0));
    assert !Near(SMALL, Chunk(0, 0), w.g.objs[1].chunk) && Near(SMALL, Chunk(1, 0), w.g.objs[1].chunk);
    assert !SameSurroundings(SMALL, w.g, 0, Chunk(0, 0), Chunk(1, 0));
    ChunkChangeUntold(SMALL, w, 0, 0, EncodeMove(MoveOf(6)), 0, Chunk(1, 0));
  }

  // ---------------------------------------------------------------- the run

  const MEETING: seq<Event> := [OPEN_ALICE, HELLO_ALICE, OPEN_BOB, HELLO_BOB, BOB_POSES]

  lemma OneMore(events: seq<Event>, w: World, e: Event)
    requires Run(SMALL, START, events, w) && Possible(SMALL, w, e)
    ensures Run(SMALL, START, events + [e], Step(SMALL, w, e)) && Inv(SMALL, Step(SMALL, w, e))
  {
    hide Run, Inv, Possible, Step;
    RunAppend(SMALL, START, events, w, e);
    EveryRun(SMALL, events + [e], Step(SMALL, w, e));
  }

  lemma Meet() returns (w: World)
    ensures Run(SMALL, START, MEETING, w) && Met(w)
  {
    hide Run, Inv, HelloStep, MoveStep, EncodeHello, EncodeMove, Both, Alone;
    NoRun();
    OneMore([], START, OPEN_ALICE);
    w := Step(SMALL, START, OPEN_ALICE);
    AliceArrives(w);
    OneMore([] + [OPEN_ALICE], w, HELLO_ALICE);
    w := Step(SMALL, w, HELLO_ALICE);
    OneMore([] + [OPEN_ALICE] + [HELLO_ALICE], w, OPEN_BOB);
    w := Step(SMALL, w, OPEN_BOB);
    BobArrives(w);
    OneMore([] + [OPEN_ALICE] + [HELLO_ALICE] + [OPEN_BOB], w, HELLO_BOB);
    w := Step(SMALL, w, HELLO_BOB);
    BobShows(w);
    OneMore([] + [OPEN_ALICE] + [HELLO_ALICE] + [OPEN_BOB] + [HELLO_BOB], w, BOB_POSES);
    w := Step(SMALL, w, BOB_POSES);
    assert MEETING == [] + [OPEN_ALICE] + [HELLO_ALICE] + [OPEN_BOB] + [HELLO_BOB] + [BOB_POSES];
  }

  lemma NoRun()
    ensures Run(SMALL, START, [], START)
  {
  }

  /** Six events on two sockets, and Alice, who stands next to Bob, has never heard of him. */
  lemma ChunkChangeMisses()
    ensures exists w: World ::
      Run(SMALL, START, MEETING + [ALICE_WALKS], w) && Active(w, 0, 0) && !Exact(SMALL, w.g, 0, PictureOf(w, 0))
  {
    hide Run, Inv, Exact, MoveStep;
    var w := Meet();
    EveryRun(SMALL, MEETING, w);
    AliceWalks(w);
    RunAppend(SMALL, START, MEETING, w, ALICE_WALKS);
    var w' := Step(SMALL, w, ALICE_WALKS);
    assert Run(SMALL, START, MEETING + [ALICE_WALKS], w');
  }

  lemma StillQueued(w: World, s: Sid, r: Ref)
    requires Inv(SMALL, w) && Active(w, s, r)
    ensures w.g.objs[r].queued <==> r in w.g.queue
  {
    assert FlagsOk(SMALL, w.g, r);
  }

  /** Six events, and the queue names Bob, whose socket has closed. */
  lemma EntryOutlives()
    ensures exists w: World :: Run(SMALL, START, MEETING + [BOB_LEAVES], w) && Dangles(w.g, 1)
  {
    hide Run, Inv, Dangles, CloseStep;
    var w := Meet();
    EveryRun(SMALL, MEETING, w);
    StillQueued(w, 1, 1);
    StepDangles(SMALL, w, BOB_LEAVES, 1);
    RunAppend(SMALL, START, MEETING, w, BOB_LEAVES);
    var w' := Step(SMALL, w, BOB_LEAVES);
    assert Run(SMALL, START, MEETING + [BOB_LEAVES], w');
  }

  /** At a limit of ten, a batch of eleven digs passes and does not say what the eleven digs would one at a time. */
  lemma ElevenDigs()
    ensures var digger, sender := Digger(1, Chunk(0, 0), 0), Sender(SeqState(false, 0), Window(0, 0));
      exists ms: seq<Timed> ::
        && |ms| == 11 && AllAt(ms, 0) && JudgeAll(SMALL, digger, sender.st, DigsIn(ms)).refused.None?
        && !SaysTheSame(SMALL, digger, SMALL.digLimit, sender, ms)
  {
    BatchSaysOther(SMALL, Digger(1, Chunk(0, 0), 0), SMALL.digLimit, Sender(SeqState(false, 0), Window(0, 0)), 0, 11);
  }
}
