/** What each step tells each socket, frame by frame. */
module Hearing {
  import opened Ints
  import opened Chunks
  import opened Wire
  import opened RateLimit
  import opened Session
  import opened Tables
  import opened Delivery
  import opened Runs
  import opened FlushExact
  import opened Messages

  // ---------------------------------------------------------------- the reference: who is told what

  /** The chunk of the active player of a socket. */
  function Place(w: World, q: Sid): Option<Chunk> {
    if q in w.users && w.users[q].Some? && IsActive(w.g, w.users[q].value) then
      Some(w.g.objs[w.users[q].value].chunk)
    else None
  }

  predicate Hears(cfg: Config, w: World, q: Sid, c: Chunk) {
    Place(w, q).Some? && InRange(cfg, Place(w, q).value, c)
  }

  /** A socket without a player, or with an active one; of the others nothing is claimed. */
  predicate Listening(w: World, q: Sid) { q in w.users && (w.users[q].None? || Place(w, q).Some?) }

  /** The player with the given record is gone. Reasons: 1 other chunk, 2 disconnected, 3 replaced. */
  function Gone(cfg: Config, p: PlayerRec, reason: u8): Frame {
    Leave(PlayerLeave(p.id, reason, cfg.ownerHash(p.wallet), cfg.fingerprint(p.wallet), p.wallet))
  }

  /** The player with the given record is where the message says. */
  function Here(cfg: Config, p: PlayerRec, lx: u8, lz: u8, pose: Pose): Frame {
    Join(PlayerJoin(p.id, cfg.ownerHash(p.wallet), cfg.fingerprint(p.wallet), p.wallet, lx, lz, pose))
  }

  /** HELLO bytes that are not acceptable: size, type, version, an empty wallet. */
  predicate BadHello(msg: bytes) {
    |msg| != 52 || msg[0] != 0x01 || msg[1] != 1 || forall i :: 4 <= i < 36 ==> msg[i] == 0
  }

  /** The HELLO is acted on. */
  ghost predicate Greets(w: World, s: Sid, msg: bytes) { s in w.users && w.users[s].None? && !BadHello(msg) }

  /** What a HELLO from s tells everybody else: if it replaces a player, that that one is gone. */
  ghost function HelloTells(cfg: Config, w: World, s: Sid, msg: bytes, q: Sid): seq<Frame> {
    if !Greets(w, s, msg) then []
    else
      match HolderOf(w.g, msg[4..36])
      case None => []
      case Some(p) => if Hears(cfg, w, q, At(w.g, p).chunk) then [Gone(cfg, At(w.g, p), 3)] else []
  }

  /** The acknowledgement for the player with the given id. */
  function Welcoming(cfg: Config, id: u16): Frame {
    Ack(HelloAck(1, id, 7, cfg.center.x, cfg.center.z, cfg.serviceRadius, cfg.aoiRadius, 1, 0))
  }

  function AllHere(cfg: Config, g: State, order: seq<Ref>): seq<Frame> {
    seq(|order|, i requires 0 <= i < |order| =>
      var p := At(g, order[i]);
      Here(cfg, p, ToLocalX(cfg, p.chunk.x), ToLocalZ(cfg, p.chunk.z), p.pose))
  }

  /** What it is answered: an error, or the acknowledgement and the snapshot, in the order in which the rooms were
      walked. after is the state after the step. */
  ghost function HelloAnswer(cfg: Config, w: World, s: Sid, msg: bytes, snapshot: seq<Ref>, after: State)
    : (frames: seq<Frame>)
    ensures frames != []
  {
    if !Greets(w, s, msg) then [Error(1)]
    else if |w.g.active| - (if HolderOf(w.g, msg[4..36]).Some? then 1 else 0) >= cfg.maxPlayers then [Error(7)]
    else if !Contains(cfg, Chunk(RI32(msg[36..40]), RI32(msg[40..44]))) then [Error(3)]
    else [Welcoming(cfg, At(after, |w.g.objs|).id)] + AllHere(cfg, after, snapshot)
  }

  predicate BadMove(msg: bytes) { |msg| != 13 || msg[0] != 0x10 }

  /** The chunk that a MOVE names. */
  function Goal(cfg: Config, msg: bytes): Option<Chunk> {
    if BadMove(msg) then None else LocalToGlobal(cfg, msg[1], msg[2])
  }

  /** What a MOVE from s tells everybody else: a player that leaves a chunk is gone from around it, and one that
      enters a chunk or had no pose is here. */
  ghost function MoveTells(cfg: Config, w: World, s: Sid, msg: bytes, now: u64, q: Sid): seq<Frame> {
    if MoveAnswer(cfg, w, s, msg, now) != [] then []
    else
      var p, c := At(w.g, w.users[s].value), Goal(cfg, msg).value;
      (if c != p.chunk && p.hasPose && Hears(cfg, w, q, p.chunk) then [Gone(cfg, p, 1)] else [])
      + if (c != p.chunk || !p.hasPose) && Hears(cfg, w, q, c)
        then [Here(cfg, p, msg[1], msg[2], ReadPose(msg[3..11]))] else []
  }

  /** What it is answered: an error, or nothing if it is accepted. */
  ghost function MoveAnswer(cfg: Config, w: World, s: Sid, msg: bytes, now: u64): (frames: seq<Frame>)
    ensures frames == [] ==> s in w.users && w.users[s].Some? && Goal(cfg, msg).Some?
  {
    if Place(w, s).None? then [Error(2)]
    else if BadMove(msg) then [Error(4)]
    else if !Allows(now, At(w.g, w.users[s].value).moveWindow, cfg.moveLimit) then [Error(5)]
    else if Goal(cfg, msg).None? then [Error(3)]
    else []
  }

  /** What the close of the socket s tells everybody else. */
  function CloseTells(cfg: Config, w: World, s: Sid, q: Sid): seq<Frame> {
    if Place(w, s).None? then []
    else
      var p := At(w.g, w.users[s].value);
      if Hears(cfg, w, q, p.chunk) then [Gone(cfg, p, 2)] else []
  }

  /** What a flush tells a socket: the moves that wait, of connected players in range, in frames of at most 255. */
  function FlushTells(cfg: Config, w: World, q: Sid): seq<Frame> {
    if Place(w, q).None? then []
    else Cut(WrapU16(w.g.tick + 1), CurrentMoves(cfg, w.g, QueuedNear(cfg, w.g, w.g.queue, Place(w, q).value)))
  }

  /** The frames that step e from w adds to the inbox of socket q. */
  ghost function Told(cfg: Config, w: World, e: Event, after: State, q: Sid): seq<Frame> {
    match e
    case Open(_) => []
    case HelloMsg(s, msg, now, snapshot) =>
      if q == s then HelloAnswer(cfg, w, s, msg, snapshot, after) else HelloTells(cfg, w, s, msg, q)
    case MoveMsg(s, msg, now) =>
      if q == s then MoveAnswer(cfg, w, s, msg, now) else MoveTells(cfg, w, s, msg, now, q)
    case Close(s) => CloseTells(cfg, w, s, q)
    case Flush(_) => FlushTells(cfg, w, q)
    case Relay(extra) => if q in extra then extra[q] else []
  }

  // ---------------------------------------------------------------- fan-outs

  /** Socket q is subscribed as its player's place demands. */
  ghost predicate Tuned(cfg: Config, h: Hub, q: Sid, place: Option<Chunk>) {
    && q in h.inbox && (place.Some? ==> Contains(cfg, place.value))
    && SubsOf(h, q) == match place case None => {} case Some(d) => {LocalIndex(cfg, d)}
  }

  lemma TunedOfInv(cfg: Config, w: World, q: Sid)
    requires Inv(cfg, w) && Listening(w, q)
    ensures Tuned(cfg, w.hub, q, Place(w, q))
  {
    if w.users[q].Some? {
      ActiveIsConnected(w.g, w.users[q].value);
      assert Active(w, q, w.users[q].value);
    }
  }

  lemma FanOutTells(cfg: Config, h: Hub, c: Chunk, f: Frame, except: Option<Sid>, q: Sid, place: Option<Chunk>)
    requires Deployable(cfg) && Contains(cfg, c) && Tuned(cfg, h, q, place)
    ensures Deliver(h, AoiPubs(cfg, c, f, except)).inbox[q]
         == h.inbox[q] + if place.Some? && InRange(cfg, place.value, c) && except != Some(q) then [f] else []
    ensures Tuned(cfg, Deliver(h, AoiPubs(cfg, c, f, except)), q, place)
  {
    hide AoiPubs, Received, LocalIndex, Deployable, Contains;
    if place.Some? {
      ReceivedAoi(cfg, c, place.value, q, f, except);
      InRangeIsNear(cfg, place.value, c);
    } else {
      ReceivedNothing(q, AoiPubs(cfg, c, f, except));
    }
  }

  // ---------------------------------------------------------------- HELLO

  lemma BadHelloIs(msg: bytes)
    ensures BadHello(msg) <==> DecodeHello(msg).None? || WalletEmpty(DecodeHello(msg).value.wallet)
    ensures !BadHello(msg) ==>
      var h := DecodeHello(msg).value;
      h.wallet == msg[4..36] && h.startX == RI32(msg[36..40]) && h.startZ == RI32(msg[40..44])
  {
    hide R16, R64, RI32;
    if DecodeHello(msg).Some? {
      var wallet := DecodeHello(msg).value.wallet;
      assert forall i :: 0 <= i < 32 ==> wallet[i] == msg[4 + i];
      assert WalletEmpty(wallet) ==> forall i :: 4 <= i < 36 ==> msg[i] == wallet[i - 4];
    }
  }

  lemma GreetsIs(w: World, s: Sid, msg: bytes)
    requires s in w.users
    ensures Greets(w, s, msg) <==> !HelloRefused(w, s, msg)
    ensures Greets(w, s, msg) ==> DecodeHello(msg).Some? && DecodeHello(msg).value.wallet == msg[4..36]
  {
    hide DecodeHello, BadHello;
    BadHelloIs(msg);
  }

  lemma RetireTells(cfg: Config, w: World, wallet: Wallet, q: Sid)
    requires Deployable(cfg) && Inv(cfg, w) && Listening(w, q)
    ensures var w' := RetireStep(cfg, w, wallet);
      && q in w'.hub.inbox && w'.users == w.users
      && w'.hub.inbox[q]
         == w.hub.inbox[q]
            + match HolderOf(w.g, wallet)
              case None => []
              case Some(p) => if Hears(cfg, w, q, At(w.g, p).chunk) then [Gone(cfg, At(w.g, p), 3)] else []
  {
    hide AoiPubs, Received, InRange, Deployable, Deliver;
    TunedOfInv(cfg, w, q);
    if HolderOf(w.g, wallet).Some? {
      var p := HolderOf(w.g, wallet).value;
      FanOutTells(cfg, w.hub, At(w.g, p).chunk, LeaveOf(cfg, At(w.g, p), 3), None, q, Place(w, q));
    }
  }

  lemma AdmitOthers(cfg: Config, w: World, s: Sid, h: Hello, now: u64, order: seq<Ref>, q: Sid)
    requires q in w.hub.inbox && q != s
    ensures var w' := AdmitStep(cfg, w, s, h, now, order); q in w'.hub.inbox && w'.hub.inbox[q] == w.hub.inbox[q]
  {
    hide Create, Joins;
  }

  lemma HelloTellsOthers(cfg: Config, w: World, s: Sid, msg: bytes, now: u64, order: seq<Ref>, q: Sid)
    requires Deployable(cfg) && Inv(cfg, w) && Listening(w, q) && q != s
    ensures var w' := HelloStep(cfg, w, s, msg, now, order);
      q in w'.hub.inbox && w'.hub.inbox[q] == w.hub.inbox[q] + HelloTells(cfg, w, s, msg, q)
  {
    hide Inv, DecodeHello, HelloRefused, Greets, RetireStep, AdmitStep, Deployable, Hears;
    SubscribedHere(cfg, w, q);
    if s in w.users {
      GreetsIs(w, s, msg);
      if Greets(w, s, msg) {
        var h := DecodeHello(msg).value;
        RetireTells(cfg, w, h.wallet, q);
        AdmitOthers(cfg, RetireStep(cfg, w, h.wallet), s, h, now, order, q);
      }
    } else {
      assert !Greets(w, s, msg) by {
        NoGreeting(w, s, msg);
      }
    }
  }

  lemma NoGreeting(w: World, s: Sid, msg: bytes)
    requires s !in w.users
    ensures !Greets(w, s, msg)
  {
  }

  lemma SubscribedHere(cfg: Config, w: World, q: Sid)
    requires Inv(cfg, w) && q in w.users
    ensures q in w.hub.inbox
  {
  }

  lemma {:induction false} JoinsAreHere(cfg: Config, g: State, order: seq<Ref>)
    ensures Joins(cfg, g, order) == AllHere(cfg, g, order)
  {
    if order != [] {
      JoinsAreHere(cfg, g, order[..|order| - 1]);
    }
  }

  /** Who is counted against the limit: the active players without the one that is replaced. */
  lemma RoomAfterRetire(cfg: Config, w: World, wallet: Wallet)
    requires Deployable(cfg) && Inv(cfg, w)
    ensures var g := RetireStep(cfg, w, wallet).g;
      && |g.active| == |w.g.active| - (if HolderOf(w.g, wallet).Some? then 1 else 0)
      && |g.objs| == |w.g.objs| && TableOk(g)
  {
    RetireKeeps(cfg, w, wallet);
    hide Inv, Deliver, AoiPubs;
    if HolderOf(w.g, wallet).Some? {
      GoodHere(cfg, w);
      DisconnectKeeps(cfg, w.g, HolderOf(w.g, wallet).value);
    }
    TableHere(cfg, RetireStep(cfg, w, wallet));
  }

  lemma GoodHere(cfg: Config, w: World)
    requires Inv(cfg, w)
    ensures Good(cfg, w.g)
  {
  }

  lemma TableHere(cfg: Config, w: World)
    requires Inv(cfg, w)
    ensures TableOk(w.g)
  {
  }

  lemma AdmitAnswers(cfg: Config, w: World, s: Sid, h: Hello, now: u64, order: seq<Ref>)
    requires Deployable(cfg) && TableOk(w.g) && s in w.hub.inbox
    ensures var w' := AdmitStep(cfg, w, s, h, now, order);
      s in w'.hub.inbox && w'.hub.inbox[s] == w.hub.inbox[s]
        + if |w.g.active| >= cfg.maxPlayers then [Error(7)]
          else if !Contains(cfg, Chunk(h.startX, h.startZ)) then [Error(3)]
          else [Welcoming(cfg, At(w'.g, |w.g.objs|).id)] + AllHere(cfg, w'.g, order)
    ensures var w', admitted := AdmitStep(cfg, w, s, h, now, order),
                                |w.g.active| < cfg.maxPlayers && Contains(cfg, Chunk(h.startX, h.startZ));
      && w'.users == (if admitted then w.users[s := Some(|w.g.objs|)] else w.users)
      && (admitted ==> IsActive(w'.g, |w.g.objs|))
  {
    hide Create, Joins, AllHere, TableOk, Contains, Subscribe;
    if CanAccept(cfg, w.g) {
      AllocationTotal(cfg, w.g, h, now);
      if Create(cfg, w.g, h, now).Some? {
        CreatedActive(cfg, w.g, h, now);
        JoinsAreHere(cfg, Create(cfg, w.g, h, now).value, order);
        SubscribeKeeps(w.hub, s, LocalIndex(cfg, At(Create(cfg, w.g, h, now).value, |w.g.objs|).chunk));
      }
    }
  }

  lemma CreatedActive(cfg: Config, g: State, h: Hello, now: u64)
    requires Create(cfg, g, h, now).Some?
    ensures IsActive(Create(cfg, g, h, now).value, |g.objs|)
  {
  }

  lemma SubscribeKeeps(h: Hub, s: Sid, t: nat)
    ensures Subscribe(h, s, t).inbox == h.inbox
  {
  }

  lemma HelloAnswers(cfg: Config, w: World, s: Sid, msg: bytes, now: u64, order: seq<Ref>)
    requires Deployable(cfg) && Inv(cfg, w) && s in w.users
    ensures var w' := HelloStep(cfg, w, s, msg, now, order);
      s in w'.hub.inbox && w'.hub.inbox[s] == w.hub.inbox[s] + HelloAnswer(cfg, w, s, msg, order, w'.g)
    ensures var w', admitted := HelloStep(cfg, w, s, msg, now, order),
                                !HelloAnswer(cfg, w, s, msg, order, HelloStep(cfg, w, s, msg, now, order).g)[0].Error?;
      && w'.users == (if admitted then w.users[s := Some(|w.g.objs|)] else w.users)
      && (admitted ==> IsActive(w'.g, |w.g.objs|))
  {
    hide Inv, DecodeHello, RetireStep, AdmitStep, Deployable, AllHere, Contains, BadHello, HelloRefused, IsActive;
    SubscribedHere(cfg, w, s);
    GreetsIs(w, s, msg);
    BadHelloIs(msg);
    if Greets(w, s, msg) {
      var h := DecodeHello(msg).value;
      RetireTells(cfg, w, h.wallet, s);
      RoomAfterRetire(cfg, w, h.wallet);
      AdmitAnswers(cfg, RetireStep(cfg, w, h.wallet), s, h, now, order);
    }
  }

  // ---------------------------------------------------------------- MOVE

  lemma BadMoveIs(msg: bytes)
    ensures BadMove(msg) <==> DecodeMove(msg).None?
    ensures !BadMove(msg) ==>
      var m := DecodeMove(msg).value; m.lx == msg[1] && m.lz == msg[2] && m.pose == ReadPose(msg[3..11])
  {
    hide R16, ReadPose;
  }

  lemma LeftTells(cfg: Config, h: Hub, s: Sid, p: PlayerRec, c: Chunk, q: Sid, place: Option<Chunk>)
    requires Deployable(cfg) && Contains(cfg, p.chunk) && Tuned(cfg, h, q, place) && q != s
    ensures var h' := Deliver(h, LeftPubs(cfg, s, p, c));
      && Tuned(cfg, h', q, place)
      && h'.inbox[q] == h.inbox[q] + if c != p.chunk && p.hasPose && place.Some? && InRange(cfg, place.value, p.chunk)
                                     then [Gone(cfg, p, 1)] else []
  {
    hide AoiPubs, Received, LocalIndex, Deployable, Contains, InRange;
    if c != p.chunk && p.hasPose {
      FanOutTells(cfg, h, p.chunk, LeaveOf(cfg, p, 1), Some(s), q, place);
    } else {
      NothingTells(cfg, h, q, place);
    }
  }

  lemma NothingTells(cfg: Config, h: Hub, q: Sid, place: Option<Chunk>)
    requires Tuned(cfg, h, q, place)
    ensures Tuned(cfg, Deliver(h, []), q, place) && Deliver(h, []).inbox[q] == h.inbox[q]
  {
    assert Received(SubsOf(h, q), q, []) == [];
  }

  lemma JoinedTells(cfg: Config, h: Hub, s: Sid, p: PlayerRec, moved: PlayerRec, q: Sid, place: Option<Chunk>)
    requires Deployable(cfg) && Contains(cfg, moved.chunk) && Tuned(cfg, h, q, place) && q != s
    ensures Deliver(h, JoinedPubs(cfg, s, p, moved)).inbox[q]
         == h.inbox[q]
            + if (moved.chunk != p.chunk || !p.hasPose) && place.Some? && InRange(cfg, place.value, moved.chunk)
              then [JoinOf(cfg, moved)] else []
  {
    hide AoiPubs, Received, LocalIndex, Deployable, Contains, InRange, JoinOf;
    if moved.chunk != p.chunk || !p.hasPose {
      FanOutTells(cfg, h, moved.chunk, JoinOf(cfg, moved), Some(s), q, place);
    } else {
      NothingTells(cfg, h, q, place);
    }
  }

  lemma ResubscribedOthers(cfg: Config, h: Hub, s: Sid, from: Chunk, to: Chunk, q: Sid, place: Option<Chunk>)
    requires Tuned(cfg, h, q, place) && q != s
    ensures var h' := Resubscribed(cfg, h, s, from, to); Tuned(cfg, h', q, place) && h'.inbox == h.inbox
  {
  }

  /** An accepted move, for a socket other than the mover's. */
  lemma AcceptTells(cfg: Config, w: World, s: Sid, r: Ref, c: Chunk, lx: u8, lz: u8, pose: Pose, q: Sid,
                    place: Option<Chunk>)
    requires Deployable(cfg) && r < |w.g.objs| && Contains(cfg, At(w.g, r).chunk) && Contains(cfg, c)
    requires LocalToGlobal(cfg, lx, lz) == Some(c) && Tuned(cfg, w.hub, q, place) && q != s
    ensures var h', p := AcceptMove(cfg, w, s, r, c, pose).hub, At(w.g, r);
      && q in h'.inbox
      && h'.inbox[q]
         == w.hub.inbox[q]
            + (if c != p.chunk && p.hasPose && place.Some? && InRange(cfg, place.value, p.chunk)
               then [Gone(cfg, p, 1)] else [])
            + (if (c != p.chunk || !p.hasPose) && place.Some? && InRange(cfg, place.value, c)
               then [Here(cfg, p, lx, lz, pose)] else [])
  {
    hide Deployable, Contains, InRange, Tuned, LeftPubs, JoinedPubs, Resubscribed, Deliver, Gone, StillSettled,
      LocalToGlobal;
    var p, moved := At(w.g, r), At(Moved(cfg, w.g, r, c, pose), r);
    LeftTells(cfg, w.hub, s, p, c, q, place);
    var h1 := Deliver(w.hub, LeftPubs(cfg, s, p, c));
    ResubscribedOthers(cfg, h1, s, p.chunk, c, q, place);
    var h2 := Resubscribed(cfg, h1, s, p.chunk, c);
    JoinedTells(cfg, h2, s, p, moved, q, place);
    LocalToGlobalInverts(cfg, lx, lz, c);
    TunedInbox(cfg, Deliver(h2, JoinedPubs(cfg, s, p, moved)), h2, s, p, moved, q, place);
  }

  lemma TunedInbox(cfg: Config, h': Hub, h: Hub, s: Sid, p: PlayerRec, moved: PlayerRec, q: Sid, place: Option<Chunk>)
    requires Tuned(cfg, h, q, place) && h' == Deliver(h, JoinedPubs(cfg, s, p, moved))
    ensures q in h'.inbox
  {
  }

  /** The mover itself is told nothing. */
  lemma AcceptAnswers(cfg: Config, w: World, s: Sid, r: Ref, c: Chunk, pose: Pose)
    requires s in w.hub.inbox
    ensures var h' := AcceptMove(cfg, w, s, r, c, pose).hub; s in h'.inbox && h'.inbox[s] == w.hub.inbox[s]
  {
    hide StillSettled, Received, AoiTopics;
    var p, moved := At(w.g, r), At(Moved(cfg, w.g, r, c, pose), r);
    LeftExcluded(cfg, w.hub, s, p, c);
    var h1 := Deliver(w.hub, LeftPubs(cfg, s, p, c));
    JoinedExcluded(cfg, Resubscribed(cfg, h1, s, p.chunk, c), s, p, moved);
  }

  lemma RepliedOthers(w: World, s: Sid, code: u16, q: Sid)
    requires q in w.hub.inbox && q != s
    ensures var h := Reply(w, s, code).hub; q in h.inbox && h.inbox[q] == w.hub.inbox[q]
  {
  }

  lemma PlaceIsActive(cfg: Config, w: World, s: Sid)
    requires Inv(cfg, w) && Place(w, s).Some?
    ensures s in w.users && w.users[s].Some?
    ensures var r := w.users[s].value; r < |w.g.objs| && IsActive(w.g, r) && Contains(cfg, w.g.objs[r].chunk)
  {
  }

  lemma MoveTellsOthers(cfg: Config, w: World, s: Sid, msg: bytes, now: u64, q: Sid)
    requires Deployable(cfg) && Inv(cfg, w) && Listening(w, q) && q != s
    ensures var w' := MoveStep(cfg, w, s, msg, now);
      q in w'.hub.inbox && w'.hub.inbox[q] == w.hub.inbox[q] + MoveTells(cfg, w, s, msg, now, q)
  {
    hide Inv, Tuned, DecodeMove, BadMove, Allows, Next, AcceptMove, LocalToGlobal, InRange, Gone, Here, ReadPose,
      Deployable, Contains;
    SubscribedHere(cfg, w, q);
    TunedOfInv(cfg, w, q);
    BadMoveIs(msg);
    if MoveAnswer(cfg, w, s, msg, now) == [] {
      PlaceIsActive(cfg, w, s);
      var r, m, p := w.users[s].value, DecodeMove(msg).value, At(w.g, w.users[s].value);
      var w1 := w.(g := Put(w.g, r, p.(moveWindow := Next(now, p.moveWindow, cfg.moveLimit))));
      GoalServed(cfg, msg);
      AcceptTells(cfg, w1, s, r, Goal(cfg, msg).value, m.lx, m.lz, m.pose, q, Place(w, q));
      SameFrames(cfg, p, At(w1.g, r));
    }
  }

  lemma GoalServed(cfg: Config, msg: bytes)
    requires Goal(cfg, msg).Some?
    ensures Contains(cfg, Goal(cfg, msg).value)
  {
  }

  /** The limiter window is not part of what is said about a player. */
  lemma SameFrames(cfg: Config, p: PlayerRec, p': PlayerRec)
    requires p'.id == p.id && p'.wallet == p.wallet
    ensures Gone(cfg, p, 1) == Gone(cfg, p', 1)
    ensures forall lx: u8, lz: u8, pose: Pose :: Here(cfg, p, lx, lz, pose) == Here(cfg, p', lx, lz, pose)
  {
  }

  lemma MoveAnswers(cfg: Config, w: World, s: Sid, msg: bytes, now: u64)
    requires Inv(cfg, w) && s in w.users
    ensures var w' := MoveStep(cfg, w, s, msg, now);
      s in w'.hub.inbox && w'.hub.inbox[s] == w.hub.inbox[s] + MoveAnswer(cfg, w, s, msg, now)
  {
    hide Inv, DecodeMove, BadMove, Allows, Next, AcceptMove, LocalToGlobal, ReadPose;
    SubscribedHere(cfg, w, s);
    BadMoveIs(msg);
    if MoveAnswer(cfg, w, s, msg, now) == [] {
      var r, m, p := w.users[s].value, DecodeMove(msg).value, At(w.g, w.users[s].value);
      var w1 := w.(g := Put(w.g, r, p.(moveWindow := Next(now, p.moveWindow, cfg.moveLimit))));
      AcceptAnswers(cfg, w1, s, r, Goal(cfg, msg).value, m.pose);
    }
  }

  // ---------------------------------------------------------------- close, flush

  lemma TunedElsewhere(cfg: Config, h: Hub, s: Sid, q: Sid, place: Option<Chunk>)
    requires Tuned(cfg, h, q, place) && q != s
    ensures Tuned(cfg, Disconnected(h, s), q, place) && Disconnected(h, s).inbox[q] == h.inbox[q]
  {
  }

  lemma CloseTellsOthers(cfg: Config, w: World, s: Sid, q: Sid)
    requires Deployable(cfg) && Inv(cfg, w) && Listening(w, q) && q != s
    ensures var w' := CloseStep(cfg, w, s);
      q in w'.hub.inbox && w'.hub.inbox[q] == w.hub.inbox[q] + CloseTells(cfg, w, s, q)
  {
    hide Inv, Tuned, InRange, AoiPubs, Received, Disconnected, Deployable, Contains, Disconnect, Release, Deliver;
    SubscribedHere(cfg, w, q);
    TunedOfInv(cfg, w, q);
    TunedElsewhere(cfg, w.hub, s, q, Place(w, q));
    TunedHere(cfg, Disconnected(w.hub, s), q, Place(w, q));
    if Place(w, s).Some? {
      PlaceIsActive(cfg, w, s);
      var p := At(w.g, w.users[s].value);
      FanOutTells(cfg, Disconnected(w.hub, s), p.chunk, LeaveOf(cfg, p, 2), None, q, Place(w, q));
      TunedHere(cfg, Deliver(Disconnected(w.hub, s), AoiPubs(cfg, p.chunk, LeaveOf(cfg, p, 2), None)), q, Place(w, q));
    }
  }

  lemma TunedHere(cfg: Config, h: Hub, q: Sid, place: Option<Chunk>)
    requires Tuned(cfg, h, q, place)
    ensures q in h.inbox
  {
  }

  lemma FlushTellsAll(cfg: Config, w: World, order: seq<nat>, q: Sid)
    requires Deployable(cfg) && Inv(cfg, w) && Listening(w, q) && IsTopicOrder(cfg, w.g, order)
    ensures var w' := FlushStep(cfg, w, order);
      q in w'.hub.inbox && w'.hub.inbox[q] == w.hub.inbox[q] + FlushTells(cfg, w, q)
  {
    hide Inv, IsTopicOrder, FlushPubs, TopicItems, Cut, CurrentMoves, QueuedNear, Deployable, Contains, LocalIndex,
      WrapU16, QueueOk, ChunksOk, Received, Flushed, Deliver;
    TunedOfInv(cfg, w, q);
    QueueHere(cfg, w);
    var tick := WrapU16(w.g.tick + 1);
    DeliverTells(w.hub, FlushPubs(cfg, w.g, tick, order), q);
    if Place(w, q).Some? {
      var d := Place(w, q).value;
      ReceivedFlush(cfg, w.g, tick, order, LocalIndex(cfg, d), q);
      ItemsAreMoves(cfg, w.g, w.g.queue, d);
    } else {
      ReceivedNothing(q, FlushPubs(cfg, w.g, tick, order));
    }
  }

  lemma DeliverTells(h: Hub, pubs: seq<Publication>, q: Sid)
    requires q in h.inbox
    ensures var h' := Deliver(h, pubs); q in h'.inbox && h'.inbox[q] == h.inbox[q] + Received(SubsOf(h, q), q, pubs)
  {
  }

  lemma QueueHere(cfg: Config, w: World)
    requires Inv(cfg, w)
    ensures QueueOk(cfg, w.g) && ChunksOk(cfg, w.g)
  {
  }

  // ---------------------------------------------------------------- every step

  /** What each step adds to the inbox of each socket that stays open, unless its player has been retired: all of it is
      spelled out by Told, from the bytes of the message, the records and the configuration. */
  lemma StepTells(cfg: Config, w: World, e: Event, q: Sid)
    requires Deployable(cfg) && Inv(cfg, w) && Possible(cfg, w, e) && Listening(w, q) && (e.Close? ==> e.s != q)
    ensures var w' := Step(cfg, w, e);
      && q in w.hub.inbox && q in w'.hub.inbox
      && w'.hub.inbox[q] == w.hub.inbox[q] + Told(cfg, w, e, w'.g, q)
  {
    hide Inv, HelloStep, MoveStep, FlushStep, HelloAnswer, HelloTells, MoveAnswer, MoveTells, CloseTells, FlushTells,
      Deployable, IsTopicOrder, CloseStep, Listening;
    ListeningOpen(w, q);
    SubscribedHere(cfg, w, q);
    match e
    case Open(s) =>
    case HelloMsg(s, msg, now, snapshot) =>
      if q == s {
        HelloAnswers(cfg, w, s, msg, now, snapshot);
      } else {
        HelloTellsOthers(cfg, w, s, msg, now, snapshot, q);
      }
    case MoveMsg(s, msg, now) =>
      if q == s {
        MoveAnswers(cfg, w, s, msg, now);
      } else {
        MoveTellsOthers(cfg, w, s, msg, now, q);
      }
    case Close(s) => CloseTellsOthers(cfg, w, s, q);
    case Flush(order) => FlushTellsAll(cfg, w, order, q);
    case Relay(extra) =>
  }

  lemma ListeningOpen(w: World, q: Sid)
    requires Listening(w, q)
    ensures q in w.users
  {
  }

  /** A socket that is opened starts with an empty inbox and on no topic. */
  lemma OpenTells(cfg: Config, w: World, s: Sid)
    requires Inv(cfg, w) && s !in w.users
    ensures var w' := Step(cfg, w, Open(s));
      w'.hub.inbox == w.hub.inbox[s := []] && w'.hub.topics == w.hub.topics[s := {}] && w'.users == w.users[s := None]
  {
  }
}
