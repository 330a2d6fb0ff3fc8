/** The event handlers over sockets, subscriptions and the server state (app.cpp). */
module App {
  import opened Ints
  import opened Chunks
  import opened Wire
  import opened RateLimit
  import opened Session
  import opened Tables
  import opened Runs
  import opened Theorems
  import opened Admissions
  import opened View
  import opened Players
  import opened Updates
  import opened Batching
  import opened Guardian
  import opened Digs
  import opened DigWords
  import opened DigBatch

  lemma DeliverNone(h: Hub)
    ensures Deliver(h, []) == h
  {
    assert forall s :: s in h.inbox ==> h.inbox[s] + Received(SubsOf(h, s), s, []) == h.inbox[s];
  }

  /** Frames of other types, published by socket s to everybody else on their topics. */
  function Asides(sent: seq<Packet>, s: Sid): seq<Publication> {
    seq(|sent|, i requires 0 <= i < |sent| => Publication(sent[i].topic, Other(sent[i].payload), Some(s)))
  }

  lemma {:induction false} ReceivedAside(subs: set<nat>, q: Sid, pubs: seq<Publication>)
    requires forall p :: p in pubs ==> p.frame.Other?
    ensures Aside(Received(subs, q, pubs))
  {
    if pubs != [] {
      var before, last := pubs[..|pubs| - 1], pubs[|pubs| - 1];
      assert pubs == before + [last] && last in pubs;
      assert forall p :: p in before ==> p in pubs;
      ReceivedAside(subs, q, before);
    }
  }

  function ExtraOf(h: Hub, pubs: seq<Publication>): Extra { map q | q in h.inbox :: Received(SubsOf(h, q), q, pubs) }

  /** After a dig: refused to its sender, or heard by everybody else in range. */
  function Answered(h: Hub, s: Sid, reply: Option<u16>, sent: seq<Packet>): Hub {
    match reply
    case Some(code) => Send(h, s, [Error(code)])
    case None => Deliver(h, Asides(sent, s))
  }

  /** A delivery of such frames is one of the events that the runs allow. */
  lemma DeliveryIsRelay(cfg: Config, w: World, sent: seq<Packet>, s: Sid)
    ensures var e := Relay(ExtraOf(w.hub, Asides(sent, s)));
      Possible(cfg, w, e) && Step(cfg, w, e) == w.(hub := Deliver(w.hub, Asides(sent, s)))
  {
    hide Received;
    var pubs := Asides(sent, s);
    forall q | q in w.hub.inbox
      ensures Aside(Received(SubsOf(w.hub, q), q, pubs))
    {
      ReceivedAside(SubsOf(w.hub, q), q, pubs);
    }
    assert Relayed(w.hub, ExtraOf(w.hub, pubs)).inbox == Deliver(w.hub, pubs).inbox;
  }

  lemma ReplyIsRelay(cfg: Config, w: World, s: Sid, code: u16)
    requires s in w.hub.inbox
    ensures var e := Relay(map[s := [Error(code)]]);
      Possible(cfg, w, e) && Step(cfg, w, e) == Session.Reply(w, s, code)
  {
    var extra: Extra := map[s := [Error(code)]];
    assert forall q :: q in w.hub.inbox && q != s ==> w.hub.inbox[q] + ExtraFor(extra, q) == w.hub.inbox[q];
    assert Relayed(w.hub, extra).inbox == Send(w.hub, s, [Error(code)]).inbox;
  }

  /** The hub after a list of retirements has been announced. */
  function Announced(cfg: Config, h: Hub, notices: seq<Notice>): Hub {
    if notices == [] then h
    else
      var last := notices[|notices| - 1];
      Deliver(Announced(cfg, h, notices[..|notices| - 1]), AoiPubs(cfg, last.chunk, last.leave, None))
  }

  /** How many frames that takes: one for each topic. */
  function NoticeTopics(cfg: Config, notices: seq<Notice>): nat {
    if notices == [] then 0
    else NoticeTopics(cfg, notices[..|notices| - 1]) + |AoiTopics(cfg, notices[|notices| - 1].chunk)|
  }

  lemma AnnouncedMore(cfg: Config, h: Hub, notices: seq<Notice>, i: nat)
    requires i < |notices|
    ensures Announced(cfg, h, notices[..i + 1])
         == Deliver(Announced(cfg, h, notices[..i]), AoiPubs(cfg, notices[i].chunk, notices[i].leave, None))
    ensures NoticeTopics(cfg, notices[..i + 1]) == NoticeTopics(cfg, notices[..i]) + |AoiTopics(cfg, notices[i].chunk)|
  {
    assert notices[..i + 1][..i] == notices[..i];
  }

  // ---------------------------------------------------------------- how many frames a step publishes

  /** If the wallet has a holder, one for each topic around it. */
  ghost function RetireTopics(cfg: Config, w: World, wallet: Wallet): nat {
    match HolderOf(w.g, wallet)
    case None => 0
    case Some(r) => |AoiTopics(cfg, At(w.g, r).chunk)|
  }

  /** LEAVE around the old chunk, JOIN around the new one. */
  function MoveTopics(cfg: Config, p: PlayerRec, c: Chunk): nat {
    (if c != p.chunk && p.hasPose then |AoiTopics(cfg, p.chunk)| else 0)
    + (if c != p.chunk || !p.hasPose then |AoiTopics(cfg, c)| else 0)
  }

  ghost function HelloTopics(cfg: Config, w: World, s: Sid, msg: bytes): nat {
    if s in w.users && !HelloRefused(w, s, msg) then RetireTopics(cfg, w, DecodeHello(msg).value.wallet) else 0
  }

  ghost function CloseTopics(cfg: Config, w: World, s: Sid): nat {
    if s in w.users && w.users[s].Some? && IsActive(w.g, w.users[s].value) then
      |AoiTopics(cfg, At(w.g, w.users[s].value).chunk)|
    else 0
  }

  ghost function TakenTopics(cfg: Config, w: World, s: Sid, msg: bytes, now: u64): nat {
    if Takes(cfg, w, MoveMsg(s, msg, now)) then
      var m := DecodeMove(msg).value;
      MoveTopics(cfg, At(w.g, w.users[s].value), LocalToGlobal(cfg, m.lx, m.lz).value)
    else 0
  }

  lemma AnnouncedRetire(cfg: Config, w: World, wallet: Wallet, notices: seq<Notice>)
    requires match HolderOf(w.g, wallet)
      case None => notices == []
      case Some(r) => notices == [Notice(At(w.g, r).chunk, LeaveOf(cfg, At(w.g, r), 3))]
    ensures RetireStep(cfg, w, wallet).hub == Announced(cfg, w.hub, notices)
    ensures NoticeTopics(cfg, notices) == RetireTopics(cfg, w, wallet)
    ensures RetireStep(cfg, w, wallet).users == w.users && RetireStep(cfg, w, wallet).settled == w.settled
    ensures RetireStep(cfg, w, wallet).g
         == match HolderOf(w.g, wallet) case None => w.g case Some(r) => Retire(w.g, r)
  {
    if notices != [] {
      assert notices[..0] == [];
    }
  }

  /** The welcome replaces the state. */
  lemma WelcomeAnew(cfg: Config, w: World, g0: State, s: Sid, g: State, r: Ref)
    ensures forall order ::
      Session.Welcome(cfg, w, s, g, r, order)
      == Session.Welcome(cfg, World(g0, w.users, w.hub, w.settled), s, g, r, order)
  {
  }

  lemma RetireKeepsSockets(cfg: Config, w: World, wallet: Wallet)
    ensures RetireStep(cfg, w, wallet).users == w.users
  {
  }

  lemma RechunkedAt(g: State, r: Ref, chunk: Chunk)
    requires r < |g.objs|
    ensures At(Rechunked(g, r, chunk), r).chunk == chunk
  {
  }

  lemma MoveKeepsGood(cfg: Config, g: State, r: Ref, chunk: Chunk, pose: Wire.Pose)
    requires Good(cfg, g) && IsActive(g, r) && Contains(cfg, chunk)
    ensures Good(cfg, Moved(cfg, g, r, chunk, pose))
  {
    MovedKeeps(cfg, g, r, chunk, pose);
  }

  /** An accepted move, in the order of the handler. */
  lemma MoveParts(cfg: Config, w: World, s: Sid, r: Ref, chunk: Chunk, pose: Wire.Pose)
    requires r < |w.g.objs|
    ensures var p := At(w.g, r);
      var g1 := if chunk != p.chunk then Rechunked(w.g, r, chunk) else w.g;
      var g2 := Updated(cfg, g1, r, pose);
      var left := Deliver(w.hub, LeftPubs(cfg, s, p, chunk));
      var h1 := if chunk != p.chunk then Resubscribed(cfg, left, s, p.chunk, chunk) else w.hub;
      var joined := AoiPubs(cfg, At(g2, r).chunk, JoinOf(cfg, At(g2, r)), Some(s));
      var h2 := if chunk == p.chunk && p.hasPose then h1 else Deliver(h1, joined);
      && g2.(moveIn := g2.moveIn + 1) == Moved(cfg, w.g, r, chunk, pose)
      && Session.AcceptMove(cfg, w, s, r, chunk, pose)
         == World(g2.(moveIn := g2.moveIn + 1), w.users, h2, StillSettled(cfg, w, s, r, chunk))
  {
    MovedInSteps(cfg, w.g, r, chunk, pose);
    if chunk == At(w.g, r).chunk {
      assert Rechunked(w.g, r, chunk) == w.g;
      DeliverNone(w.hub);
    }
  }

  /** A MOVE of an active player, from the limiter on. */
  ghost function LimitedStep(cfg: Config, w: World, s: Sid, r: Ref, m: Wire.Move, now: u64): World {
    var w1 := w.(g := Limited(cfg, w.g, r, now));
    if !Allows(now, At(w.g, r).moveWindow, cfg.moveLimit) then Session.Reply(w1, s, ERROR_RATE_LIMIT)
    else
      match LocalToGlobal(cfg, m.lx, m.lz)
      case None => Session.Reply(w1, s, ERROR_OUT_OF_RANGE)
      case Some(c) => Session.AcceptMove(cfg, w1, s, r, c, m.pose)
  }

  ghost function LimitedTopics(cfg: Config, w: World, r: Ref, m: Wire.Move, now: u64): nat {
    var c := LocalToGlobal(cfg, m.lx, m.lz);
    if Allows(now, At(w.g, r).moveWindow, cfg.moveLimit) && c.Some? then MoveTopics(cfg, At(w.g, r), c.value) else 0
  }

  lemma TakenIsLimited(cfg: Config, w: World, s: Sid, msg: bytes, now: u64)
    requires s in w.users
    ensures TakenTopics(cfg, w, s, msg, now)
         == if w.users[s].Some? && IsActive(w.g, w.users[s].value) && DecodeMove(msg).Some?
            then LimitedTopics(cfg, w, w.users[s].value, DecodeMove(msg).value, now) else 0
  {
    hide Allows, LocalToGlobal, DecodeMove, MoveTopics;
  }

  lemma MovePublishes(cfg: Config, g: State, r: Ref, chunk: Chunk, pose: Wire.Pose)
    requires r < |g.objs|
    ensures var p := At(g, r);
      var g2 := Updated(cfg, if chunk != p.chunk then Rechunked(g, r, chunk) else g, r, pose);
      At(g2, r).chunk == chunk
  {
  }

  lemma WindowTopics(cfg: Config, g: State, r: Ref, now: u64, c: Chunk)
    requires r < |g.objs|
    ensures MoveTopics(cfg, At(Limited(cfg, g, r, now), r), c) == MoveTopics(cfg, At(g, r), c)
  {
  }

  lemma WindowGood(cfg: Config, g: State, r: Ref, now: u64)
    requires Good(cfg, g) && IsActive(g, r)
    ensures Good(cfg, Limited(cfg, g, r, now))
  {
    WindowKeeps(cfg, g, r, Next(now, At(g, r).moveWindow, cfg.moveLimit));
  }

  lemma CreatedRec(cfg: Config, g: State, h: Hello, now: u64)
    requires Create(cfg, g, h, now).Some?
    ensures var g' := Create(cfg, g, h, now).value; |g'.objs| == |g.objs| + 1 && !At(g', |g.objs|).hasPose
    ensures IsActive(Create(cfg, g, h, now).value, |g.objs|)
  {
  }

  class Server {
    const cfg: Config
    const guardian: GuardianState

    /** The player pointer of each open socket. */
    var sockets: map<Sid, Player?>

    /** The pub/sub broker. */
    var hub: Hub
    ghost var users: Users
    ghost var settled: set<Sid>

    /** The events handled so far. */
    ghost var log: seq<Event>

    ghost function W(): World
      reads this`hub, this`users, this`settled, guardian`model
    {
      World(guardian.model, users, hub, settled)
    }

    /** What the pointers of the sockets stand for. */
    ghost predicate Attached()
      reads this`sockets, this`users, guardian`objs
    {
      && sockets.Keys == users.Keys
      && forall s :: s in sockets ==> Points(sockets[s], users[s])
    }

    ghost predicate Points(p: Player?, r: Option<Ref>)
      reads guardian`objs
    {
      if p == null then r.None? else r == Some(p.ref) && guardian.Known(p)
    }

    ghost predicate Up()
      reads this`sockets, this`users, guardian, guardian.objs, guardian.seated, guardian.rooms.Values
    {
      Deployable(cfg) && guardian.cfg == cfg && guardian.Valid() && Attached()
    }

    /** The state is the one that the abstract machine reaches by the events handled so far. */
    ghost predicate Valid()
      reads this, guardian, guardian.objs, guardian.seated, guardian.rooms.Values
    {
      Up() && Run(cfg, START, log, W())
    }

    constructor (cfg: Config)
      requires Deployable(cfg)
      ensures Valid() && W() == START && log == [] && this.cfg == cfg
      ensures guardian.digIn == 0 && guardian.messagesOut == 0 && guardian.moveBatches == 0 && guardian.moveItems == 0
    {
      hide GuardianState.Valid, Deployable;
      this.cfg := cfg;
      guardian := new GuardianState(cfg);
      sockets, users, settled, hub, log := map[], map[], {}, Hub(map[], map[]), [];
    }

    method Reply(s: Sid, code: u16)
      modifies this`hub
      ensures W() == Session.Reply(old(W()), s, code)
    {
      hub := Send(hub, s, [Error(code)]);
    }

    method Announce(notices: seq<Notice>)
      requires guardian.Configured() && guardian.cfg == cfg
      modifies this`hub, guardian`messagesOut
      ensures hub == Announced(cfg, old(hub), notices)
      ensures guardian.messagesOut == old(guardian.messagesOut) + NoticeTopics(cfg, notices)
    {
      hide GuardianState.Configured, AoiPubs, Deliver;
      ghost var h := hub;
      assert notices[..0] == [];
      var i := 0;
      while i < |notices|
        invariant 0 <= i <= |notices| && hub == Announced(cfg, h, notices[..i])
        invariant guardian.messagesOut == old(guardian.messagesOut) + NoticeTopics(cfg, notices[..i])
      {
        AnnouncedMore(cfg, h, notices, i);
        var pubs := guardian.PublishToAoi(notices[i].chunk, notices[i].leave, None);
        hub := Deliver(hub, pubs);
        i := i + 1;
      }
      assert notices[..i] == notices;
    }

    /** Retires the holder of the wallet, if any, and announces it. */
    method RetireAndAnnounce(wallet: Wallet)
      requires Up() && !WalletEmpty(wallet)
      modifies this`hub, guardian`messagesOut, guardian`players, guardian`playerCount, guardian`retired, guardian`model
      modifies guardian`rooms, guardian`activeChunks, guardian`seated, guardian.seated`connected, guardian.seated`room
      modifies guardian.seated`slot, guardian.rooms.Values`players
      ensures Up() && W() == RetireStep(cfg, old(W()), wallet)
      ensures guardian.messagesOut == old(guardian.messagesOut) + RetireTopics(cfg, old(W()), wallet)
      ensures forall key :: key in guardian.rooms ==>
        key in old(guardian.rooms) && guardian.rooms[key] == old(guardian.rooms[key])
    {
      hide GuardianState.Valid, AoiPubs, Deliver, Retire, Server.Attached, LeaveOf, At;
      ghost var w := W();
      var notices := guardian.RetirePlayersWithWallet(wallet);
      Ready();
      Announce(notices);
      AnnouncedRetire(cfg, w, wallet, notices);
    }

    /** A new player in the tables; the sockets are as they were. */
    method Enrol(h: Hello, now: u64) returns (p: Player?)
      requires Up() && HolderOf(guardian.model, h.wallet).None?
      modifies guardian`players, guardian`playerCount, guardian`model, guardian`objs, guardian`nextId
      modifies guardian`rooms, guardian`activeChunks, guardian`seated, guardian.rooms.Values`players
      ensures Up() && match Create(cfg, old(guardian.model), h, now)
        case None => p == null && guardian.model == old(guardian.model)
        case Some(g) =>
          && p != null && guardian.model == g && p.ref == |old(guardian.model).objs|
          && guardian.IsActivePlayer(p) && !At(g, p.ref).hasPose && p.Unused(now)
    {
      hide GuardianState.Linked, Good, Create, Server.Points, IsActive, At;
      ghost var g, objs := guardian.model, guardian.objs;
      guardian.NextIdOk();
      guardian.ObjsCount();
      p := guardian.CreatePlayer(h, now);
      if p != null {
        CreateKeeps(cfg, g, h, now);
        CreatedRec(cfg, g, h, now);
        guardian.NewestActive(p);
      }
      StillAttached(objs);
    }

    twostate lemma StillAttached(before: seq<Player>)
      requires before == old(guardian.objs) && old(Attached()) && sockets == old(sockets) && users == old(users)
      requires |before| <= |guardian.objs| && guardian.objs[..|before|] == before
      ensures Attached()
    {
      forall s | s in sockets
        ensures Points(sockets[s], users[s])
      {
        assert old(Points(sockets[s], users[s]));
        if sockets[s] != null {
          assert guardian.objs[sockets[s].ref] == before[sockets[s].ref];
        }
      }
    }

    /** The JOIN frames for a player that has no pose yet. */
    method Snapshot(p: Player) returns (frames: seq<Frame>, ghost order: seq<Ref>)
      requires guardian.cfg == cfg && guardian.Valid() && guardian.IsActivePlayer(p)
      requires !At(guardian.model, p.ref).hasPose
      ensures IsSnapshot(cfg, guardian.model, p.ref, order) && frames == Joins(cfg, guardian.model, order)
    {
      hide GuardianState.Valid, IsSnapshot, IsCollected, Joins, At;
      frames := guardian.CollectJoins(p);
      order :| IsCollected(cfg, guardian.model, p.ref, order) && frames == Joins(cfg, guardian.model, order);
      CollectedIsSnapshot(cfg, guardian.model, p.ref, order);
    }

    /** The ACK and the snapshot for a socket whose player was just created. */
    method Welcome(s: Sid, p: Player) returns (ghost order: seq<Ref>)
      requires Up() && s in sockets && guardian.IsActivePlayer(p) && !At(guardian.model, p.ref).hasPose
      modifies this`sockets, this`users, this`settled, this`hub
      ensures Up() && IsSnapshot(cfg, guardian.model, p.ref, order) && sockets == old(sockets)[s := p]
      ensures W() == Session.Welcome(cfg, old(W()), s, guardian.model, p.ref, order)
    {
      hide GuardianState.Linked, Good, IsSnapshot, Joins, Server.Attached, AckOf, Subscribe, Send;
      guardian.TopicOf(p);
      hide GuardianState.Valid;
      Attach(s, p);
      hub := Subscribe(hub, s, p.room.index);
      var frames: seq<Frame>;
      frames, order := Snapshot(p);
      hub := Send(hub, s, [AckOf(cfg, p.Rec())] + frames);
    }

    method Attach(s: Sid, p: Player)
      requires Attached() && guardian.Known(p)
      modifies this`sockets, this`users, this`settled
      ensures Attached() && users == old(users)[s := Some(p.ref)] && settled == old(settled) + {s}
      ensures sockets == old(sockets)[s := p]
    {
      sockets := sockets[s := p];
      users := users[s := Some(p.ref)];
      settled := settled + {s};
      forall q | q in sockets
        ensures Points(sockets[q], users[q])
      {
        assert q != s ==> old(Points(sockets[q], users[q]));
      }
    }

    // -------------------------------------------------------------- handlers

    method HandleOpen(s: Sid)
      requires Valid()
      modifies this`sockets, this`users, this`hub, this`log
      ensures Valid() && log == old(log) + [Open(s)] && W() == Step(cfg, old(W()), Open(s))
    {
      hide GuardianState.Valid, Run, Deployable, Server.Points;
      RunAppend(cfg, START, log, W(), Open(s));
      log := log + [Open(s)];
      if s !in sockets {
        Opened(s);
        hub := Hub(hub.topics[s := {}], hub.inbox[s := []]);
      }
    }

    method Opened(s: Sid)
      requires Attached()
      modifies this`sockets, this`users
      ensures Attached() && sockets == old(sockets)[s := null] && users == old(users)[s := None]
    {
      sockets := sockets[s := null];
      users := users[s := None];
      forall q | q in sockets
        ensures Points(sockets[q], users[q])
      {
        assert q != s ==> old(Points(sockets[q], users[q]));
      }
    }

    /** Capacity, then the service area, then the new player and its snapshot. */
    method Admit(s: Sid, h: Hello, now: u64) returns (ghost order: seq<Ref>)
      requires Up() && s in sockets && HolderOf(guardian.model, h.wallet).None?
      modifies this`sockets, this`users, this`settled, this`hub
      modifies guardian`players, guardian`playerCount, guardian`model, guardian`objs, guardian`nextId
      modifies guardian`rooms, guardian`activeChunks, guardian`seated, guardian.rooms.Values`players
      ensures Up() && W() == AdmitStep(cfg, old(W()), s, h, now, order)
      ensures sockets.Keys == old(sockets).Keys
      ensures sockets[s] != old(sockets[s]) ==> sockets[s] != null && sockets[s].Unused(now)
      ensures CanAccept(cfg, old(W()).g) && Create(cfg, old(W()).g, h, now).Some? ==>
        IsSnapshot(cfg, Create(cfg, old(W()).g, h, now).value, |old(W()).g.objs|, order)
    {
      hide GuardianState.Valid, Create, IsSnapshot, Server.Attached, Session.Reply, Session.Welcome, At;
      order := [];
      guardian.RoomLeft();
      if !guardian.CanAcceptPlayer() {
        Reply(s, ERROR_SERVER_FULL);
        return;
      }
      var p := Enrol(h, now);
      if p == null {
        Reply(s, ERROR_OUT_OF_RANGE);
        return;
      }
      WelcomeAnew(cfg, W(), old(W()).g, s, guardian.model, p.ref);
      order := Welcome(s, p);
    }

    lemma InvHolds()
      requires Deployable(cfg) && Run(cfg, START, log, W())
      ensures Inv(cfg, W())
    {
      EveryRun(cfg, log, W());
    }

    method Hello(s: Sid, msg: bytes, now: u64) returns (ghost order: seq<Ref>)
      requires Valid()
      modifies this`sockets, this`users, this`settled, this`hub
      modifies guardian`messagesOut, guardian`players, guardian`playerCount, guardian`retired, guardian`model
      modifies guardian`objs, guardian`nextId, guardian`rooms, guardian`activeChunks, guardian`seated
      modifies guardian.seated`connected, guardian.seated`room, guardian.seated`slot, guardian.rooms.Values`players
      ensures Up() && Possible(cfg, old(W()), HelloMsg(s, msg, now, order))
      ensures guardian.messagesOut == old(guardian.messagesOut) + HelloTopics(cfg, old(W()), s, msg)
      ensures sockets.Keys == old(sockets).Keys
      ensures s in sockets && sockets[s] != old(sockets[s]) ==> sockets[s] != null && sockets[s].Unused(now)
      ensures W() == HelloStep(cfg, old(W()), s, msg, now, order)
    {
      hide GuardianState.Valid, Inv, Run, Deployable, Create, IsSnapshot, CanAccept, Server.Attached, RetireStep,
        AdmitStep, DecodeHello, WalletEmpty;
      SameSockets();
      order := [];
      if s !in sockets {
        return;
      }
      if DecodeHello(msg).None? || sockets[s] != null || WalletEmpty(DecodeHello(msg).value.wallet) {
        Reply(s, ERROR_BAD_PROTOCOL);
        return;
      }
      var h := DecodeHello(msg).value;
      InvHolds();
      RetireKeeps(cfg, W(), h.wallet);
      RetireKeepsSockets(cfg, W(), h.wallet);
      RetireAndAnnounce(h.wallet);
      SameSockets();
      order := Admit(s, h, now);
    }

    method HandleHello(s: Sid, msg: bytes, now: u64) returns (ghost order: seq<Ref>)
      requires Valid()
      modifies this`sockets, this`users, this`settled, this`hub, this`log
      modifies guardian`messagesOut, guardian`players, guardian`playerCount, guardian`retired, guardian`model
      modifies guardian`objs, guardian`nextId, guardian`rooms, guardian`activeChunks, guardian`seated
      modifies guardian.seated`connected, guardian.seated`room, guardian.seated`slot, guardian.rooms.Values`players
      ensures Valid() && log == old(log) + [HelloMsg(s, msg, now, order)]
      ensures Possible(cfg, old(W()), HelloMsg(s, msg, now, order))
      ensures W() == Step(cfg, old(W()), HelloMsg(s, msg, now, order))
      ensures guardian.messagesOut == old(guardian.messagesOut) + HelloTopics(cfg, old(W()), s, msg)
      ensures sockets.Keys == old(sockets).Keys
      ensures s in sockets && sockets[s] != old(sockets[s]) ==> sockets[s] != null && sockets[s].Unused(now)
    {
      hide GuardianState.Valid, Run, Deployable, Server.Attached, HelloStep, Possible;
      ghost var w := W();
      order := Hello(s, msg, now);
      RunAppend(cfg, START, log, w, HelloMsg(s, msg, now, order));
      log := log + [HelloMsg(s, msg, now, order)];
    }

    lemma SameSockets()
      requires Attached()
      ensures sockets.Keys == users.Keys
      ensures forall s :: s in sockets ==> (sockets[s] == null <==> users[s].None?)
    {
      forall s | s in sockets
        ensures sockets[s] == null <==> users[s].None?
      {
        assert Points(sockets[s], users[s]);
      }
    }

    /** LEAVE around the old chunk, if the player was shown there. */
    method Farewell(s: Sid, p: Player, chunk: Chunk)
      requires guardian.cfg == cfg && guardian.Linked() && guardian.IsActivePlayer(p) && chunk != p.chunk
      modifies this`hub, guardian`messagesOut
      ensures guardian.Linked()
      ensures hub == Deliver(old(hub), LeftPubs(cfg, s, At(guardian.model, p.ref), chunk))
      ensures guardian.messagesOut == old(guardian.messagesOut) + if p.hasPose then |AoiTopics(cfg, p.chunk)| else 0
    {
      hide GuardianState.Linked, AoiPubs, Deliver, LeaveOf;
      guardian.ActiveParts(p);
      DeliverNone(hub);
      if p.hasPose {
        var pubs := guardian.PublishToAoi(p.chunk, LeaveOf(cfg, p.Rec(), 1), Some(s));
        hub := Deliver(hub, pubs);
      }
    }

    /** A player that changes chunk: farewell, then its room and its topic. */
    method Transfer(s: Sid, p: Player, chunk: Chunk)
      requires guardian.cfg == cfg && guardian.Linked() && guardian.IsActivePlayer(p) && Contains(cfg, chunk)
      requires chunk != p.chunk
      modifies this`hub, guardian`messagesOut, guardian`model, p`chunk, p`localX, p`localZ, p`slot
      modifies guardian`rooms, guardian`activeChunks, guardian`seated, p`room, guardian.seated`slot
      modifies guardian.rooms.Values`players
      ensures guardian.Linked() && guardian.IsActivePlayer(p)
      ensures guardian.model == Rechunked(old(guardian.model), p.ref, chunk)
      ensures var rec := At(old(guardian.model), p.ref);
        && hub == Resubscribed(cfg, Deliver(old(hub), LeftPubs(cfg, s, rec, chunk)), s, rec.chunk, chunk)
        && guardian.messagesOut == old(guardian.messagesOut) + if rec.hasPose then |AoiTopics(cfg, rec.chunk)| else 0
    {
      hide GuardianState.Linked, Deliver, LeftPubs, Subscribe, Unsubscribe, Contains, At, Rechunked, LocalIndex;
      guardian.ActiveParts(p);
      guardian.TopicOf(p);
      Farewell(s, p, chunk);
      hub := Unsubscribe(hub, s, p.room.index);
      var ok := guardian.MovePlayerChunk(p, chunk);
      RechunkedAt(old(guardian.model), p.ref, chunk);
      guardian.TopicOf(p);
      hub := Subscribe(hub, s, p.room.index);
    }

    /** JOIN around the chunk of the player, to everybody else. */
    method Greet(s: Sid, p: Player)
      requires guardian.cfg == cfg && guardian.Linked() && guardian.IsActivePlayer(p)
      modifies this`hub, guardian`messagesOut
      ensures guardian.Linked()
      ensures var rec := At(guardian.model, p.ref);
        && hub == Deliver(old(hub), AoiPubs(cfg, rec.chunk, JoinOf(cfg, rec), Some(s)))
        && guardian.messagesOut == old(guardian.messagesOut) + |AoiTopics(cfg, rec.chunk)|
    {
      hide GuardianState.Linked, AoiPubs, Deliver, JoinOf;
      guardian.ActiveParts(p);
      guardian.MadeJoin(p);
      var pubs := guardian.PublishToAoi(p.chunk, guardian.MakeJoin(p), Some(s));
      hub := Deliver(hub, pubs);
    }

    /** The new pose, and a JOIN if the player is new where it is. */
    method TakePose(s: Sid, p: Player, pose: Wire.Pose, shown: bool)
      requires guardian.cfg == cfg && guardian.Linked() && guardian.IsActivePlayer(p)
      modifies this`hub, guardian`messagesOut, guardian`pending, guardian`dropped, guardian`model, guardian`moveIn
      modifies p`hasPose, p`pose, p`pending, p`hasPending, p`queued
      ensures guardian.Linked()
      ensures var g := Updated(cfg, old(guardian.model), p.ref, pose);
        && guardian.model == g.(moveIn := g.moveIn + 1)
        && hub == (if shown then old(hub)
                   else Deliver(old(hub), AoiPubs(cfg, At(g, p.ref).chunk, JoinOf(cfg, At(g, p.ref)), Some(s))))
        && guardian.messagesOut
           == old(guardian.messagesOut) + if shown then 0 else |AoiTopics(cfg, At(g, p.ref).chunk)|
    {
      hide GuardianState.Linked, AoiPubs, Deliver, JoinOf, At, Updated;
      guardian.ActiveParts(p);
      guardian.UpdatePlayerMove(p, pose);
      if !shown {
        Greet(s, p);
      }
      guardian.CountMove();
    }

    /** The player goes where the move takes it. */
    method Follow(s: Sid, p: Player, chunk: Chunk)
      requires guardian.cfg == cfg && guardian.Linked() && guardian.IsActivePlayer(p) && Contains(cfg, chunk)
      modifies this`hub, guardian`messagesOut, guardian`model, p`chunk, p`localX, p`localZ, p`slot
      modifies guardian`rooms, guardian`activeChunks, guardian`seated, p`room, guardian.seated`slot
      modifies guardian.rooms.Values`players
      ensures guardian.Linked() && guardian.IsActivePlayer(p)
      ensures var g, rec := old(guardian.model), At(old(guardian.model), p.ref);
        if chunk == rec.chunk then
          guardian.model == g && hub == old(hub) && guardian.messagesOut == old(guardian.messagesOut)
        else
          && guardian.model == Rechunked(g, p.ref, chunk)
          && hub == Resubscribed(cfg, Deliver(old(hub), LeftPubs(cfg, s, rec, chunk)), s, rec.chunk, chunk)
          && guardian.messagesOut == old(guardian.messagesOut) + if rec.hasPose then |AoiTopics(cfg, rec.chunk)| else 0
    {
      hide GuardianState.Linked, Deliver, LeftPubs, Resubscribed, Contains, At, Rechunked;
      guardian.ActiveParts(p);
      if chunk != p.chunk {
        Transfer(s, p, chunk);
      }
    }

    method AcceptMove(s: Sid, p: Player, chunk: Chunk, pose: Wire.Pose)
      requires guardian.cfg == cfg && guardian.Valid() && Attached() && guardian.IsActivePlayer(p)
      requires Contains(cfg, chunk)
      modifies this`hub, this`settled, guardian`messagesOut, guardian`pending, guardian`dropped, guardian`model
      modifies guardian`moveIn, guardian`rooms, guardian`activeChunks, guardian`seated, guardian.seated`slot
      modifies guardian.rooms.Values`players
      modifies p`chunk, p`localX, p`localZ, p`room, p`slot, p`hasPose, p`pose, p`pending, p`hasPending, p`queued
      ensures guardian.Valid() && Attached()
      ensures W() == Session.AcceptMove(cfg, old(W()), s, p.ref, chunk, pose)
      ensures guardian.messagesOut == old(guardian.messagesOut) + MoveTopics(cfg, At(old(guardian.model), p.ref), chunk)
    {
      hide GuardianState.Linked, Server.Attached, Good, AoiPubs, Deliver, JoinOf, LeftPubs, Resubscribed, Contains,
        At, IsActive, Updated, Rechunked, Moved, Session.AcceptMove, StillSettled;
      guardian.ActiveParts(p);
      ghost var w := W();
      var shown := chunk == p.chunk && p.hasPose;
      MoveKeepsGood(cfg, w.g, p.ref, chunk, pose);
      MoveParts(cfg, w, s, p.ref, chunk, pose);
      MovePublishes(cfg, w.g, p.ref, chunk, pose);
      Follow(s, p, chunk);
      assert Attached();
      settled := StillSettled(cfg, w, s, p.ref, chunk);
      TakePose(s, p, pose, shown);
    }

    /** The player of a socket, if it is active; the abstract test agrees with the pointer test. */
    method ActivePlayer(s: Sid) returns (p: Player?)
      requires Up() && s in sockets
      ensures s in users
      ensures p == null <==> users[s].None? || !IsActive(guardian.model, users[s].value)
      ensures p != null ==> guardian.IsActivePlayer(p) && guardian.Known(p) && users[s] == Some(p.ref)
    {
      hide GuardianState.Linked, Good, IsActive;
      assert Points(sockets[s], users[s]);
      p := sockets[s];
      if p != null {
        guardian.PointerActive(p);
        if !p.connected || !guardian.IsActivePlayer(p) {
          p := null;
        }
      }
    }

    method Move(s: Sid, msg: bytes, now: u64)
      requires Up()
      modifies this`hub, this`settled, guardian`messagesOut, guardian`pending, guardian`dropped, guardian`model
      modifies guardian`moveIn, guardian`rooms, guardian`activeChunks, guardian`seated, guardian.seated`slot
      modifies guardian.rooms.Values`players
      modifies guardian.objs`window, guardian.objs`chunk, guardian.objs`localX, guardian.objs`localZ, guardian.objs`room
      modifies guardian.objs`slot, guardian.objs`hasPose, guardian.objs`pose, guardian.objs`pending
      modifies guardian.objs`hasPending, guardian.objs`queued
      ensures Up() && W() == MoveStep(cfg, old(W()), s, msg, now)
      ensures guardian.messagesOut == old(guardian.messagesOut) + TakenTopics(cfg, old(W()), s, msg, now)
    {
      hide GuardianState.Valid, Deployable, Server.Attached, DecodeMove, Allows, Next, LocalToGlobal, IsActive, At,
        Put, Session.Reply, Session.AcceptMove;
      SameSockets();
      if s !in sockets {
        return;
      }
      TakenIsLimited(cfg, W(), s, msg, now);
      var p := ActivePlayer(s);
      if p == null {
        Reply(s, ERROR_NOT_HELLO);
        return;
      }
      if DecodeMove(msg).None? {
        Reply(s, ERROR_BAD_PAYLOAD_LENGTH);
        return;
      }
      LimitedMove(s, p, DecodeMove(msg).value, now);
    }

    method LimitedMove(s: Sid, p: Player, m: Wire.Move, now: u64)
      requires Up() && guardian.IsActivePlayer(p) && guardian.Known(p)
      modifies this`hub, this`settled, guardian`messagesOut, guardian`pending, guardian`dropped, guardian`model
      modifies guardian`moveIn, guardian`rooms, guardian`activeChunks, guardian`seated, guardian.seated`slot
      modifies guardian.rooms.Values`players
      modifies p`window, p`chunk, p`localX, p`localZ, p`room, p`slot, p`hasPose, p`pose, p`pending, p`hasPending
      modifies p`queued
      ensures Up() && W() == LimitedStep(cfg, old(W()), s, p.ref, m, now)
      ensures guardian.messagesOut == old(guardian.messagesOut) + LimitedTopics(cfg, old(W()), p.ref, m, now)
    {
      hide GuardianState.Linked, Good, Deployable, Server.Attached, Allows, Next, IsActive, At, Contains,
        Session.Reply, Session.AcceptMove;
      guardian.ActiveParts(p);
      WindowGood(cfg, guardian.model, p.ref, now);
      var c := LocalToGlobal(cfg, m.lx, m.lz);
      WindowTopics(cfg, guardian.model, p.ref, now, if c.Some? then c.value else cfg.center);
      var allowed := guardian.AllowMove(p, now);
      if !allowed {
        Reply(s, ERROR_RATE_LIMIT);
        return;
      }
      if c.None? {
        Reply(s, ERROR_OUT_OF_RANGE);
        return;
      }
      AcceptMove(s, p, c.value, m.pose);
    }

    method HandleMove(s: Sid, msg: bytes, now: u64)
      requires Valid()
      modifies this`hub, this`settled, this`log, guardian`messagesOut, guardian`pending, guardian`dropped
      modifies guardian`model, guardian`moveIn, guardian`rooms, guardian`activeChunks, guardian`seated
      modifies guardian.seated`slot
      modifies guardian.rooms.Values`players
      modifies guardian.objs`window, guardian.objs`chunk, guardian.objs`localX, guardian.objs`localZ, guardian.objs`room
      modifies guardian.objs`slot, guardian.objs`hasPose, guardian.objs`pose, guardian.objs`pending
      modifies guardian.objs`hasPending, guardian.objs`queued
      ensures Valid() && log == old(log) + [MoveMsg(s, msg, now)] && W() == Step(cfg, old(W()), MoveMsg(s, msg, now))
      ensures guardian.messagesOut == old(guardian.messagesOut) + TakenTopics(cfg, old(W()), s, msg, now)
    {
      hide GuardianState.Valid, Run, Deployable, Server.Attached, MoveStep;
      ghost var w := W();
      Move(s, msg, now);
      RunAppend(cfg, START, log, w, MoveMsg(s, msg, now));
      log := log + [MoveMsg(s, msg, now)];
    }

    method Detach(s: Sid)
      requires Attached() && s in sockets
      modifies this`sockets, this`users, this`settled, this`hub
      ensures Attached()
      ensures W() == World(guardian.model, old(users) - {s}, Disconnected(old(hub), s), old(settled) - {s})
    {
      sockets := sockets - {s};
      users := users - {s};
      settled := settled - {s};
      hub := Disconnected(hub, s);
      forall q | q in sockets
        ensures Points(sockets[q], users[q])
      {
        assert old(Points(sockets[q], users[q]));
      }
    }

    /** LEAVE for whoever is in range, then out of the tables. */
    method CloseActive(p: Player)
      requires Up() && guardian.IsActivePlayer(p)
      modifies this`hub, guardian`messagesOut, guardian`players, guardian`playerCount, guardian`model, guardian`rooms
      modifies guardian`activeChunks, guardian`seated, guardian.seated`slot, guardian.rooms.Values`players
      modifies p`connected, p`room
      ensures var rec := At(old(W()).g, p.ref);
        && Up()
        && W() == World(Disconnect(old(W()).g, p.ref), users,
                        Deliver(old(hub), AoiPubs(cfg, rec.chunk, LeaveOf(cfg, rec, 2), None)), settled)
        && guardian.messagesOut == old(guardian.messagesOut) + |AoiTopics(cfg, rec.chunk)|
    {
      hide GuardianState.Linked, Good, Deployable, Server.Attached, AoiPubs, Deliver, LeaveOf, At, IsActive,
        Disconnect;
      guardian.ActiveParts(p);
      var pubs := guardian.PublishToAoi(p.chunk, LeaveOf(cfg, p.Rec(), 2), None);
      hub := Deliver(hub, pubs);
      guardian.Disconnect(p);
    }

    method CloseRetired(p: Player)
      requires Up() && guardian.Known(p)
      modifies guardian`retired, guardian`model
      ensures Up() && W() == old(W()).(g := Release(old(W()).g, p.ref))
    {
      hide GuardianState.Linked, Good, Deployable, Server.Attached, Release;
      ReleaseKeeps(cfg, guardian.model, p.ref);
      guardian.ReleaseRetiredPlayer(p);
    }

    method Close(s: Sid)
      requires Up()
      modifies this`sockets, this`users, this`settled, this`hub
      modifies guardian`messagesOut, guardian`players, guardian`playerCount, guardian`retired, guardian`model
      modifies guardian`rooms, guardian`activeChunks, guardian`seated, guardian.seated`slot
      modifies guardian.rooms.Values`players, guardian.objs`connected, guardian.objs`room
      ensures Up() && W() == CloseStep(cfg, old(W()), s)
      ensures guardian.messagesOut == old(guardian.messagesOut) + CloseTopics(cfg, old(W()), s)
    {
      hide GuardianState.Valid, Deployable, Server.Attached, AoiPubs, Deliver, LeaveOf, At, IsActive, Disconnect,
        Release, Disconnected;
      SameSockets();
      if s !in sockets {
        return;
      }
      var p := sockets[s];
      PointsAt(s);
      Detach(s);
      if p != null {
        guardian.PointerActive(p);
        if guardian.IsActivePlayer(p) {
          CloseActive(p);
        } else {
          CloseRetired(p);
        }
      }
    }

    lemma PointsAt(s: Sid)
      requires Attached() && s in sockets
      ensures s in users && Points(sockets[s], users[s])
    {
    }

    method HandleClose(s: Sid)
      requires Valid()
      modifies this`sockets, this`users, this`settled, this`hub, this`log
      modifies guardian`messagesOut, guardian`players, guardian`playerCount, guardian`retired, guardian`model
      modifies guardian`rooms, guardian`activeChunks, guardian`seated, guardian.seated`slot
      modifies guardian.rooms.Values`players, guardian.objs`connected, guardian.objs`room
      ensures Valid() && log == old(log) + [Event.Close(s)] && W() == Step(cfg, old(W()), Event.Close(s))
      ensures guardian.messagesOut == old(guardian.messagesOut) + CloseTopics(cfg, old(W()), s)
    {
      hide GuardianState.Valid, Run, Deployable, Server.Attached, CloseStep;
      ghost var w := W();
      Close(s);
      RunAppend(cfg, START, log, w, Event.Close(s));
      log := log + [Event.Close(s)];
    }

    /** The movement ticker. */
    method HandleFlush() returns (ghost order: seq<nat>)
      requires Valid()
      modifies this`hub, this`log, guardian`tick, guardian`pending, guardian`model, guardian`messagesOut
      modifies guardian`moveBatches, guardian`moveItems, guardian.objs`hasPending, guardian.objs`queued
      ensures Valid() && log == old(log) + [Flush(order)]
      ensures Possible(cfg, old(W()), Flush(order)) && W() == Step(cfg, old(W()), Flush(order))
      ensures var pubs := FlushPubs(cfg, old(W()).g, WrapU16(old(W()).g.tick + 1), order);
        && guardian.messagesOut == old(guardian.messagesOut) + |pubs|
        && guardian.moveBatches == old(guardian.moveBatches) + |pubs|
        && guardian.moveItems == old(guardian.moveItems) + ItemTotal(pubs)
    {
      hide GuardianState.Valid, Run, Deployable, Server.Attached, FlushPubs, Deliver, IsTopicOrder, Flushed;
      ghost var w := W();
      var pubs: seq<Publication>;
      pubs, order := guardian.FlushPendingMoves();
      hub := Deliver(hub, pubs);
      RunAppend(cfg, START, log, w, Flush(order));
      log := log + [Flush(order)];
    }

    // -------------------------------------------------------------- digs

    method Conclude(s: Sid, reply: Option<u16>, sent: seq<Packet>)
      requires Valid() && s in sockets
      modifies this`hub, this`log
      ensures Valid() && hub == Answered(old(hub), s, reply, sent)
    {
      hide GuardianState.Valid, Deployable, Run, Inv, Server.Attached, Deliver, Send, Asides, ExtraOf, Possible;
      ghost var w := W();
      InvHolds();
      InboxOpen(s);
      ghost var e;
      match reply {
        case Some(code) =>
          e := Relay(map[s := [Error(code)]]);
          ReplyIsRelay(cfg, w, s, code);
          hub := Send(hub, s, [Error(code)]);
        case None =>
          e := Relay(ExtraOf(w.hub, Asides(sent, s)));
          DeliveryIsRelay(cfg, w, sent, s);
          hub := Deliver(hub, Asides(sent, s));
      }
      RunAppend(cfg, START, log, w, e);
      log := log + [e];
    }

    lemma InboxOpen(s: Sid)
      requires Attached() && Inv(cfg, W()) && s in sockets
      ensures s in hub.inbox
    {
    }

    /** Nobody else's limiter window or sequence number has changed. */
    twostate predicate OthersAlone(new p: Player?)
      reads guardian`objs, guardian.objs`digWindow, guardian.objs`hasDigSeq, guardian.objs`lastDigSeq
    {
      && guardian.objs == old(guardian.objs)
      && forall q :: q in old(guardian.objs) && q != p ==> SenderOf(q) == old(SenderOf(q))
    }

    method HandleDig(s: Sid, msg: bytes, now: u64) returns (reply: Option<u16>, sent: seq<Packet>)
      requires Valid() && s in sockets
      modifies this`hub, this`log, guardian`digIn, guardian`messagesOut
      modifies guardian.objs`digWindow, guardian.objs`hasDigSeq, guardian.objs`lastDigSeq
      ensures Valid() && hub == Answered(old(hub), s, reply, sent)
      ensures sockets[s] == null ==> reply == Some(ERROR_NOT_HELLO)
      ensures sockets[s] != null ==>
        DigDone(guardian, sockets[s], old(SenderOf(sockets[s])), msg, now, reply, sent)
      ensures sockets[s] != null ==>
        var p := sockets[s];
        DigSays(cfg, DiggerOf(p, guardian.tick), guardian.Speaks(p), old(SenderOf(sockets[s])), SenderOf(p), msg, now,
                reply, sent)
      ensures guardian.digIn == old(guardian.digIn) + if reply.None? then 1 else 0
      ensures guardian.messagesOut == old(guardian.messagesOut) + |sent|
      ensures OthersAlone(sockets[s])
    {
      hide GuardianState.Valid, Deployable, Run, DigDone, DigSays, Answered;
      PointsAt(s);
      reply, sent := Some(ERROR_NOT_HELLO), [];
      if sockets[s] != null {
        reply, sent := DigBatch.HandleDig(guardian, sockets[s], msg, now);
      }
      Conclude(s, reply, sent);
    }

    method HandleDigBatch(s: Sid, msg: bytes, now: u64) returns (reply: Option<u16>, sent: seq<Packet>)
      requires Valid() && s in sockets
      modifies this`hub, this`log, guardian`digIn, guardian`messagesOut
      modifies guardian.objs`digWindow, guardian.objs`hasDigSeq, guardian.objs`lastDigSeq
      ensures Valid() && hub == Answered(old(hub), s, reply, sent)
      ensures sockets[s] == null ==> reply == Some(ERROR_NOT_HELLO)
      ensures sockets[s] != null ==>
        BatchDone(guardian, sockets[s], old(SenderOf(sockets[s])), msg, now, reply, sent)
      ensures sockets[s] != null ==>
        var p := sockets[s];
        BatchSays(cfg, DiggerOf(p, guardian.tick), guardian.Speaks(p), old(SenderOf(sockets[s])), SenderOf(p), msg, now,
                  reply, sent)
      ensures reply.Some? ==> guardian.digIn == old(guardian.digIn)
      ensures reply.None? ==> IsDigBatch(msg) && guardian.digIn == old(guardian.digIn) + |DigsOf(msg)|
      ensures guardian.messagesOut == old(guardian.messagesOut) + |sent|
      ensures OthersAlone(sockets[s])
    {
      hide GuardianState.Valid, Deployable, Run, BatchDone, BatchSays, Answered;
      PointsAt(s);
      reply, sent := Some(ERROR_NOT_HELLO), [];
      if sockets[s] != null {
        reply, sent := DigBatch.HandleDigBatch(guardian, sockets[s], msg, now);
      }
      Conclude(s, reply, sent);
    }

    // -------------------------------------------------------------- what every server state satisfies

    /** A client that has kept its surroundings since HELLO sees what the server's tables say it should. */
    lemma ShowsEveryone(s: Sid, r: Ref)
      requires Valid() && Active(W(), s, r) && s in settled
      ensures Exact(cfg, guardian.model, r, PictureOf(W(), s))
    {
      hide Exact, GuardianState.Valid;
      ViewConsistency(cfg, log, W(), s, r);
    }

    /** When every socket has closed, no player is left anywhere and no room either. */
    lemma EmptyWhenClosed()
      requires Valid() && sockets == map[]
      ensures guardian.players == map[] && guardian.retired == [] && guardian.rooms == map[]
    {
      hide GuardianState.Valid;
      SessionConservation(cfg, log, W());
      guardian.NobodyLeft();
    }

    lemma Ready()
      requires guardian.Valid()
      ensures guardian.Configured()
    {
    }
  }
}
