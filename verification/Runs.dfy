/** The invariant of whole worlds, kept by every handler, and what follows for every run. */
module Runs {
  import opened Ints
  import opened Chunks
  import opened Wire
  import opened RateLimit
  import opened Session
  import opened Tables
  import opened Delivery
  import opened View

  type Users = map<Sid, Option<Ref>>

  predicate HasPlayer(users: Users, s: Sid, r: Ref) { s in users && users[s] == Some(r) }

  predicate Live(g: State, r: Ref) { r < |g.objs| && (g.objs[r].connected || r in g.retired) }

  /** Sockets that hold a player and live players (active or retired) correspond one to one. */
  ghost predicate Paired(users: Users, g: State) {
    && (forall s: Sid, r: Ref :: HasPlayer(users, s, r) ==> Live(g, r))
    && (forall s1: Sid, s2: Sid, r: Ref :: HasPlayer(users, s1, r) && HasPlayer(users, s2, r) ==> s1 == s2)
    && (forall r: Ref :: Live(g, r) ==> exists s :: HasPlayer(users, s, r))
  }

  predicate Active(w: World, s: Sid, r: Ref) { HasPlayer(w.users, s, r) && r < |w.g.objs| && w.g.objs[r].connected }

  /** An active player's socket is subscribed to the topic of the player's chunk and to no other. */
  ghost predicate Subscribed(cfg: Config, w: World) {
    && w.hub.topics.Keys == w.users.Keys
    && w.hub.inbox.Keys == w.users.Keys
    && (forall s :: s in w.users && w.users[s].None? ==> w.hub.topics[s] == {})
    && (forall s: Sid, r: Ref :: Active(w, s, r) ==> w.hub.topics[s] == {LocalIndex(cfg, w.g.objs[r].chunk)})
  }

  function PictureOf(w: World, s: Sid): Picture { Fold(map[], InboxOf(w.hub, s)) }

  /** A client that has kept its surroundings since its HELLO sees exactly what it should. */
  ghost predicate Faithful(cfg: Config, w: World) {
    && (forall s :: s in w.users && w.users[s].None? ==> PictureOf(w, s) == map[])
    && (forall s: Sid, r: Ref :: Active(w, s, r) && s in w.settled ==> Exact(cfg, w.g, r, PictureOf(w, s)))
  }

  ghost predicate Inv(cfg: Config, w: World) {
    Good(cfg, w.g) && Paired(w.users, w.g) && Subscribed(cfg, w) && Faithful(cfg, w)
  }

  lemma PictureAfter(h: Hub, pubs: seq<Publication>, s: Sid)
    requires s in h.inbox
    ensures InboxOf(Deliver(h, pubs), s) == h.inbox[s] + Received(SubsOf(h, s), s, pubs)
    ensures Fold(map[], InboxOf(Deliver(h, pubs), s)) == Fold(Fold(map[], h.inbox[s]), Received(SubsOf(h, s), s, pubs))
  {
    FoldConcat(map[], h.inbox[s], Received(SubsOf(h, s), s, pubs));
  }

  // ---------------------------------------------------------------- open, error replies

  lemma StartInv(cfg: Config)
    requires Deployable(cfg)
    ensures Inv(cfg, START)
  {
  }

  lemma OpenKeeps(cfg: Config, w: World, s: Sid)
    requires Inv(cfg, w)
    ensures Inv(cfg, OpenStep(w, s))
  {
    if s !in w.users {
      var w' := OpenStep(w, s);
      OpenPaired(w.users, w.g, s);
      forall q: Sid, r: Ref | Active(w', q, r)
        ensures Active(w, q, r) && PictureOf(w', q) == PictureOf(w, q)
      {
      }
      forall q | q in w'.users && w'.users[q].None?
        ensures PictureOf(w', q) == map[]
      {
        if q != s {
          assert PictureOf(w', q) == PictureOf(w, q);
        }
      }
    }
  }

  lemma OpenPaired(users: Users, g: State, s: Sid)
    requires Paired(users, g) && s !in users
    ensures Paired(users[s := None], g)
  {
    var users' := users[s := None];
    forall q: Sid, r: Ref
      ensures HasPlayer(users', q, r) <==> HasPlayer(users, q, r)
    {
    }
  }

  lemma ReplyKeeps(cfg: Config, w: World, s: Sid, code: u16)
    requires Inv(cfg, w) && s in w.users
    ensures Inv(cfg, Reply(w, s, code))
  {
    hide Good, Paired, Fold, Exact;
    var w' := Reply(w, s, code);
    FoldConcat(map[], w.hub.inbox[s], [Error(code)]);
    FoldOne(PictureOf(w, s), Error(code));
    SamePictures(cfg, w, w');
  }

  // ---------------------------------------------------------------- a player leaves

  /** A fan-out around c, seen from a socket on the topic of chunk d. */
  lemma FanOutSeen(cfg: Config, h: Hub, c: Chunk, f: Frame, except: Option<Sid>, s: Sid, d: Chunk)
    requires Deployable(cfg) && Contains(cfg, c) && Contains(cfg, d)
    requires s in h.inbox && SubsOf(h, s) == {LocalIndex(cfg, d)}
    ensures Fold(map[], InboxOf(Deliver(h, AoiPubs(cfg, c, f, except)), s))
         == var v := Fold(map[], h.inbox[s]); if Near(cfg, d, c) && except != Some(s) then Apply(v, f) else v
  {
    PictureAfter(h, AoiPubs(cfg, c, f, except), s);
    ReceivedAoi(cfg, c, d, s, f, except);
    FoldOne(Fold(map[], h.inbox[s]), f);
  }

  lemma EmptySeen(h: Hub, pubs: seq<Publication>, s: Sid)
    requires s in h.inbox && SubsOf(h, s) == {}
    ensures InboxOf(Deliver(h, pubs), s) == h.inbox[s]
  {
    ReceivedNothing(s, pubs);
  }

  /** The departure of player p, seen from the socket of another active player r. */
  lemma LeaveSeen(cfg: Config, g: State, g': State, p: Ref, reason: u8, h: Hub, q: Sid, r: Ref)
    requires Deployable(cfg) && TableOk(g) && ChunksOk(cfg, g) && IsActive(g, p) && IsActive(g, r) && r != p
    requires q in h.inbox && SubsOf(h, q) == {LocalIndex(cfg, g.objs[r].chunk)}
    requires g'.objs == Disconnect(g, p).objs && g'.active == Disconnect(g, p).active
    requires Exact(cfg, g, r, Fold(map[], h.inbox[q]))
    ensures var leave := LeaveOf(cfg, At(g, p), reason);
      Exact(cfg, g', r, Fold(map[], InboxOf(Deliver(h, AoiPubs(cfg, At(g, p).chunk, leave, None)), q)))
  {
    hide Exact, Deliver, AoiPubs, Fold, TableOk, Near;
    FanOutSeen(cfg, h, At(g, p).chunk, LeaveOf(cfg, At(g, p), reason), None, q, At(g, r).chunk);
    ExactAfterDisconnect(cfg, g, g', r, p, Fold(map[], h.inbox[q]));
  }

  lemma RetireSubscribed(cfg: Config, w: World, p: Ref, w': World)
    requires Subscribed(cfg, w) && p < |w.g.objs|
    requires w'.users == w.users && w'.hub.topics == w.hub.topics && w'.hub.inbox.Keys == w.hub.inbox.Keys
    requires w'.g.objs == w.g.objs[p := w.g.objs[p].(connected := false)]
    ensures Subscribed(cfg, w')
    ensures forall s: Sid, r: Ref :: Active(w', s, r) <==> Active(w, s, r) && r != p
  {
  }

  lemma RetireFaithful(cfg: Config, w: World, p: Ref, w': World)
    requires Deployable(cfg) && Inv(cfg, w) && IsActive(w.g, p)
    requires forall s: Sid, r: Ref :: Active(w', s, r) <==> Active(w, s, r) && r != p
    requires w'.users == w.users && w'.settled == w.settled && w'.g == Retire(w.g, p)
    requires w'.hub == Deliver(w.hub, AoiPubs(cfg, At(w.g, p).chunk, LeaveOf(cfg, At(w.g, p), 3), None))
    ensures Faithful(cfg, w')
  {
    hide TableOk, WalletsOk, ChunksOk, RetiredOk, QueueOk, Paired, Exact, Fold, Deliver, AoiPubs, LeaveOf;
    forall s: Sid, r: Ref | Active(w', s, r) && s in w'.settled
      ensures Exact(cfg, w'.g, r, PictureOf(w', s))
    {
      ActiveIsConnected(w.g, r);
      LeaveSeen(cfg, w.g, w'.g, p, 3, w.hub, s, r);
    }
    forall s | s in w'.users && w'.users[s].None?
      ensures PictureOf(w', s) == map[]
    {
      EmptySeen(w.hub, AoiPubs(cfg, At(w.g, p).chunk, LeaveOf(cfg, At(w.g, p), 3), None), s);
      assert PictureOf(w, s) == map[];
    }
  }

  lemma RetireShape(cfg: Config, w: World, wallet: Wallet, p: Ref)
    requires HolderOf(w.g, wallet) == Some(p)
    ensures var w' := RetireStep(cfg, w, wallet);
      && w'.users == w.users && w'.settled == w.settled && w'.g == Retire(w.g, p)
      && w'.hub == Deliver(w.hub, AoiPubs(cfg, At(w.g, p).chunk, LeaveOf(cfg, At(w.g, p), 3), None))
      && w'.hub.topics == w.hub.topics && w'.hub.inbox.Keys == w.hub.inbox.Keys
      && w'.g.objs == w.g.objs[p := w.g.objs[p].(connected := false)]
  {
  }

  lemma RetireKeeps(cfg: Config, w: World, wallet: Wallet)
    requires Deployable(cfg) && Inv(cfg, w)
    ensures Inv(cfg, RetireStep(cfg, w, wallet))
    ensures HolderOf(RetireStep(cfg, w, wallet).g, wallet).None?
  {
    if HolderOf(w.g, wallet).Some? {
      var p := HolderOf(w.g, wallet).value;
      var w' := RetireStep(cfg, w, wallet);
      RetireShape(cfg, w, wallet, p);
      DisconnectKeeps(cfg, w.g, p);
      RetiredLive(w.g, p);
      SamePaired(w.users, w.g, Retire(w.g, p));
      hide Retire, RetireStep, Deliver, AoiPubs, LeaveOf, Paired, Subscribed, Faithful, Live, TableOk, WalletsOk,
        QueueOk, RetiredOk, ChunksOk;
      NoHolderLeft(w.g, wallet, p);
      RetireSubscribed(cfg, w, p, w');
      RetireFaithful(cfg, w, p, w');
    }
  }

  lemma NoHolderLeft(g: State, wallet: Wallet, p: Ref)
    requires TableOk(g) && WalletsOk(g) && TableOk(Retire(g, p)) && Holds(g, wallet, p)
    ensures HolderOf(Retire(g, p), wallet).None?
  {
    forall q
      ensures !Holds(Retire(g, p), wallet, q)
    {
      ActiveIsConnected(g, p);
      ActiveIsConnected(Retire(g, p), q);
    }
  }

  lemma SamePaired(users: Users, g: State, g': State)
    requires Paired(users, g) && forall r :: Live(g', r) <==> Live(g, r)
    ensures Paired(users, g')
  {
  }

  lemma RetiredLive(g: State, p: Ref)
    requires IsActive(g, p) && TableOk(g)
    ensures forall r :: Live(Retire(g, p), r) <==> Live(g, r)
  {
  }

  // ---------------------------------------------------------------- a player arrives

  lemma WelcomePaired(users: Users, g: State, g': State, s: Sid)
    requires Paired(users, g) && s in users && users[s].None?
    requires |g'.objs| == |g.objs| + 1 && g'.objs[..|g.objs|] == g.objs && g'.objs[|g.objs|].connected
    requires g'.retired == g.retired && forall r :: r in g.retired ==> r < |g.objs|
    ensures Paired(users[s := Some(|g.objs|)], g')
  {
    var users' := users[s := Some(|g.objs|)];
    forall q: Sid, r: Ref
      ensures HasPlayer(users', q, r) <==> (q == s && r == |g.objs|) || HasPlayer(users, q, r)
    {
      if HasPlayer(users, q, r) {
        assert Live(g, r);
      }
    }
    forall r: Ref
      ensures Live(g', r) <==> Live(g, r) || r == |g.objs|
    {
      if r < |g.objs| {
        assert g'.objs[r] == g.objs[r];
      }
    }
    assert HasPlayer(users', s, |g.objs|);
  }

  lemma WelcomeSubscribed(cfg: Config, w: World, s: Sid, g: State, order: seq<Ref>)
    requires Subscribed(cfg, w) && s in w.users && w.users[s].None?
    requires |g.objs| == |w.g.objs| + 1 && g.objs[..|w.g.objs|] == w.g.objs && g.objs[|w.g.objs|].connected
    requires forall q: Sid, r: Ref :: HasPlayer(w.users, q, r) ==> r < |w.g.objs|
    ensures Subscribed(cfg, Welcome(cfg, w, s, g, |w.g.objs|, order))
    ensures forall q: Sid, r: Ref :: Active(Welcome(cfg, w, s, g, |w.g.objs|, order), q, r) <==>
              Active(w, q, r) || (q == s && r == |w.g.objs|)
  {
    var w' := Welcome(cfg, w, s, g, |w.g.objs|, order);
    assert w.hub.topics[s] == {};
    forall q: Sid, r: Ref
      ensures Active(w', q, r) <==> Active(w, q, r) || (q == s && r == |w.g.objs|)
    {
      assert HasPlayer(w'.users, q, r) <==> HasPlayer(w.users, q, r) || (q == s && r == |w.g.objs|);
      if r < |w.g.objs| {
        assert g.objs[r] == w.g.objs[r];
      }
    }
  }

  /** The newcomer's first frames, read from scratch, give its exact picture. */
  lemma NewcomerExact(cfg: Config, w: World, s: Sid, g: State, order: seq<Ref>)
    requires TableOk(g) && s in w.hub.inbox && PictureOf(w, s) == map[] && IsSnapshot(cfg, g, |w.g.objs|, order)
    ensures Exact(cfg, g, |w.g.objs|, PictureOf(Welcome(cfg, w, s, g, |w.g.objs|, order), s))
  {
    var ack := AckOf(cfg, At(g, |w.g.objs|));
    var joins := Joins(cfg, g, order);
    FoldConcat(map[], w.hub.inbox[s], [ack] + joins);
    FoldConcat(map[], [ack], joins);
    FoldOne(map[], ack);
    SnapshotExact(cfg, g, |w.g.objs|, order);
  }

  lemma AdmitKeeps(cfg: Config, w: World, s: Sid, h: Hello, now: u64, order: seq<Ref>)
    requires Deployable(cfg) && Inv(cfg, w) && s in w.users && w.users[s].None? && HolderOf(w.g, h.wallet).None?
    requires CanAccept(cfg, w.g) && Create(cfg, w.g, h, now).Some? ==>
               IsSnapshot(cfg, Create(cfg, w.g, h, now).value, |w.g.objs|, order)
    ensures Inv(cfg, AdmitStep(cfg, w, s, h, now, order))
  {
    if !CanAccept(cfg, w.g) {
      ReplyKeeps(cfg, w, s, ERROR_SERVER_FULL);
    } else if Create(cfg, w.g, h, now).None? {
      ReplyKeeps(cfg, w, s, ERROR_OUT_OF_RANGE);
    } else {
      var g := Create(cfg, w.g, h, now).value;
      CreateKeeps(cfg, w.g, h, now);
      WelcomePaired(w.users, w.g, g, s);
      WelcomeSubscribed(cfg, w, s, g, order);
      AdmitFaithful(cfg, w, s, h, now, order);
    }
  }

  lemma AdmitFaithful(cfg: Config, w: World, s: Sid, h: Hello, now: u64, order: seq<Ref>)
    requires Inv(cfg, w) && s in w.users && w.users[s].None? && Create(cfg, w.g, h, now).Some?
    requires var g := Create(cfg, w.g, h, now).value; TableOk(g) && IsSnapshot(cfg, g, |w.g.objs|, order)
    requires forall q: Sid, r: Ref ::
      Active(Welcome(cfg, w, s, Create(cfg, w.g, h, now).value, |w.g.objs|, order), q, r) <==>
        Active(w, q, r) || (q == s && r == |w.g.objs|)
    ensures Faithful(cfg, Welcome(cfg, w, s, Create(cfg, w.g, h, now).value, |w.g.objs|, order))
  {
    hide WalletsOk, ChunksOk, RetiredOk, QueueOk, Paired, Exact, Fold, IsSnapshot;
    var g := Create(cfg, w.g, h, now).value;
    var w' := Welcome(cfg, w, s, g, |w.g.objs|, order);
    assert PictureOf(w, s) == map[];
    NewcomerExact(cfg, w, s, g, order);
    assert forall q :: q != s ==> PictureOf(w', q) == PictureOf(w, q);
    forall q: Sid, r: Ref | Active(w', q, r) && q in w'.settled
      ensures Exact(cfg, g, r, PictureOf(w', q))
    {
      if q != s {
        ExactAfterCreate(cfg, w.g, h, now, r, PictureOf(w, q));
      }
    }
  }

  lemma HelloKeeps(cfg: Config, w: World, s: Sid, msg: bytes, now: u64, order: seq<Ref>)
    requires Deployable(cfg) && Inv(cfg, w) && Possible(cfg, w, HelloMsg(s, msg, now, order))
    ensures Inv(cfg, HelloStep(cfg, w, s, msg, now, order))
  {
    if s in w.users {
      if HelloRefused(w, s, msg) {
        ReplyKeeps(cfg, w, s, ERROR_BAD_PROTOCOL);
      } else {
        var h := DecodeHello(msg).value;
        RetireKeeps(cfg, w, h.wallet);
        AdmitKeeps(cfg, RetireStep(cfg, w, h.wallet), s, h, now, order);
      }
    }
  }

  // ---------------------------------------------------------------- a player moves

  /** The LEAVE of a move, seen from the topic of chunk d. */
  lemma LeftSeen(cfg: Config, h: Hub, s: Sid, p: PlayerRec, c: Chunk, q: Sid, d: Chunk)
    requires Deployable(cfg) && Contains(cfg, p.chunk) && Contains(cfg, d) && q != s
    requires q in h.inbox && SubsOf(h, q) == {LocalIndex(cfg, d)}
    ensures Fold(map[], InboxOf(Deliver(h, LeftPubs(cfg, s, p, c)), q))
         == var v := Fold(map[], h.inbox[q]);
            if c != p.chunk && p.hasPose && Near(cfg, d, p.chunk) then v - {p.id} else v
  {
    FanOutSeen(cfg, h, p.chunk, LeaveOf(cfg, p, 1), Some(s), q, d);
    DeliverNothing(h, q);
  }

  /** The JOIN of a move, seen from the topic of chunk d. */
  lemma JoinedSeen(cfg: Config, h: Hub, s: Sid, p: PlayerRec, moved: PlayerRec, q: Sid, d: Chunk)
    requires Deployable(cfg) && Contains(cfg, moved.chunk) && Contains(cfg, d) && q != s
    requires q in h.inbox && SubsOf(h, q) == {LocalIndex(cfg, d)}
    ensures Fold(map[], InboxOf(Deliver(h, JoinedPubs(cfg, s, p, moved)), q))
         == var v := Fold(map[], h.inbox[q]);
            if (moved.chunk != p.chunk || !p.hasPose) && Near(cfg, d, moved.chunk)
            then v[moved.id := SeenOf(cfg, moved)] else v
  {
    FanOutSeen(cfg, h, moved.chunk, JoinOf(cfg, moved), Some(s), q, d);
    DeliverNothing(h, q);
  }

  /** The hub after a move, for a socket other than the mover's. */
  lemma MoveSeen(cfg: Config, w: World, s: Sid, p: Ref, c: Chunk, pose: Pose, q: Sid, r: Ref)
    requires Deployable(cfg) && ChunksOk(cfg, w.g) && Contains(cfg, c) && p < |w.g.objs| && r < |w.g.objs|
    requires q != s && q in w.hub.inbox && SubsOf(w.hub, q) == {LocalIndex(cfg, w.g.objs[r].chunk)}
    ensures PictureOf(AcceptMove(cfg, w, s, p, c, pose), q) == AfterMove(cfg, w.g, r, p, c, pose, PictureOf(w, q))
  {
    var d, moved := w.g.objs[r].chunk, At(Moved(cfg, w.g, p, c, pose), p);
    LeftSeen(cfg, w.hub, s, w.g.objs[p], c, q, d);
    var hub1 := Deliver(w.hub, LeftPubs(cfg, s, w.g.objs[p], c));
    var hub2 := Resubscribed(cfg, hub1, s, w.g.objs[p].chunk, c);
    assert hub2.inbox == hub1.inbox && SubsOf(hub2, q) == SubsOf(w.hub, q);
    JoinedSeen(cfg, hub2, s, w.g.objs[p], moved, q, d);
  }

  lemma DeliverNothing(h: Hub, s: Sid)
    requires s in h.inbox
    ensures InboxOf(Deliver(h, []), s) == h.inbox[s]
  {
    assert Received(SubsOf(h, s), s, []) == [];
  }

  /** A fan-out that excludes a socket leaves its inbox alone. */
  lemma {:induction false} ExcludedReceivesNothing(subs: set<nat>, s: Sid, topics: seq<nat>, f: Frame)
    ensures Received(subs, s, Everywhere(topics, f, Some(s))) == []
  {
    if topics != [] {
      ExcludedReceivesNothing(subs, s, topics[..|topics| - 1], f);
      var pubs := Everywhere(topics, f, Some(s));
      assert pubs[..|pubs| - 1] == Everywhere(topics[..|topics| - 1], f, Some(s));
    }
  }

  lemma LeftExcluded(cfg: Config, h: Hub, s: Sid, p: PlayerRec, c: Chunk)
    requires s in h.inbox
    ensures InboxOf(Deliver(h, LeftPubs(cfg, s, p, c)), s) == h.inbox[s]
  {
    ExcludedReceivesNothing(SubsOf(h, s), s, AoiTopics(cfg, p.chunk), LeaveOf(cfg, p, 1));
    DeliverNothing(h, s);
  }

  lemma JoinedExcluded(cfg: Config, h: Hub, s: Sid, p: PlayerRec, moved: PlayerRec)
    requires s in h.inbox
    ensures InboxOf(Deliver(h, JoinedPubs(cfg, s, p, moved)), s) == h.inbox[s]
  {
    ExcludedReceivesNothing(SubsOf(h, s), s, AoiTopics(cfg, moved.chunk), JoinOf(cfg, moved));
    DeliverNothing(h, s);
  }

  lemma MoverHearsNothing(cfg: Config, w: World, s: Sid, p: Ref, c: Chunk, pose: Pose)
    requires s in w.hub.inbox
    ensures PictureOf(AcceptMove(cfg, w, s, p, c, pose), s) == PictureOf(w, s)
  {
    var before, moved := At(w.g, p), At(Moved(cfg, w.g, p, c, pose), p);
    LeftExcluded(cfg, w.hub, s, before, c);
    var hub1 := Deliver(w.hub, LeftPubs(cfg, s, before, c));
    JoinedExcluded(cfg, Resubscribed(cfg, hub1, s, before.chunk, c), s, before, moved);
  }

  lemma ResubscribedTopics(cfg: Config, h: Hub, s: Sid, from: Chunk, to: Chunk)
    requires s in h.topics && h.topics[s] == {LocalIndex(cfg, from)}
    ensures Resubscribed(cfg, h, s, from, to).topics == h.topics[s := {LocalIndex(cfg, to)}]
    ensures Resubscribed(cfg, h, s, from, to).inbox == h.inbox
  {
    assert {LocalIndex(cfg, from)} - {LocalIndex(cfg, from)} + {LocalIndex(cfg, to)} == {LocalIndex(cfg, to)};
  }

  /** What an accepted move leaves alone, and the one subscription that it may change. */
  lemma MoveShape(cfg: Config, w: World, s: Sid, p: Ref, c: Chunk, pose: Pose)
    requires Subscribed(cfg, w) && Active(w, s, p)
    ensures var w' := AcceptMove(cfg, w, s, p, c, pose);
      && w'.users == w.users && w'.g == Moved(cfg, w.g, p, c, pose)
      && w'.hub.topics == w.hub.topics[s := {LocalIndex(cfg, c)}] && w'.hub.inbox.Keys == w.hub.inbox.Keys
  {
    hide Received, LeftPubs, JoinedPubs, LocalIndex, Moved;
    ResubscribedTopics(cfg, Deliver(w.hub, LeftPubs(cfg, s, w.g.objs[p], c)), s, w.g.objs[p].chunk, c);
  }

  lemma MoveSubscribed(cfg: Config, w: World, s: Sid, p: Ref, c: Chunk, pose: Pose)
    requires Subscribed(cfg, w) && Paired(w.users, w.g) && Active(w, s, p)
    ensures Subscribed(cfg, AcceptMove(cfg, w, s, p, c, pose))
    ensures forall q: Sid, r: Ref :: Active(AcceptMove(cfg, w, s, p, c, pose), q, r) <==> Active(w, q, r)
  {
    MoveShape(cfg, w, s, p, c, pose);
    hide AcceptMove, Paired, Subscribed, LocalIndex;
    TopicFollows(cfg, w, s, p, c, AcceptMove(cfg, w, s, p, c, pose));
  }

  lemma TopicFollows(cfg: Config, w: World, s: Sid, p: Ref, c: Chunk, w': World)
    requires Subscribed(cfg, w) && Paired(w.users, w.g) && Active(w, s, p) && w'.users == w.users
    requires w'.hub.topics == w.hub.topics[s := {LocalIndex(cfg, c)}] && w'.hub.inbox.Keys == w.hub.inbox.Keys
    requires |w'.g.objs| == |w.g.objs|
    requires forall r: Ref :: r < |w.g.objs| ==> w'.g.objs[r].connected == w.g.objs[r].connected
    requires forall r: Ref :: r < |w.g.objs| ==> w'.g.objs[r].chunk == if r == p then c else w.g.objs[r].chunk
    ensures Subscribed(cfg, w')
    ensures forall q: Sid, r: Ref :: Active(w', q, r) <==> Active(w, q, r)
  {
    forall q: Sid, r: Ref
      ensures Active(w', q, r) <==> Active(w, q, r)
      ensures Active(w, q, r) ==> (q == s <==> r == p)
    {
    }
  }

  lemma MoveFaithful(cfg: Config, w: World, s: Sid, p: Ref, c: Chunk, pose: Pose)
    requires Deployable(cfg) && Inv(cfg, w) && Active(w, s, p) && Contains(cfg, c)
    requires forall q: Sid, r: Ref :: Active(AcceptMove(cfg, w, s, p, c, pose), q, r) <==> Active(w, q, r)
    ensures Faithful(cfg, AcceptMove(cfg, w, s, p, c, pose))
  {
    var w' := AcceptMove(cfg, w, s, p, c, pose);
    ActiveIsConnected(w.g, p);
    MoverHearsNothing(cfg, w, s, p, c, pose);
    forall q: Sid, r: Ref | Active(w', q, r) && q in w'.settled
      ensures Exact(cfg, w'.g, r, PictureOf(w', q))
    {
      assert Active(w, q, r) && q in w.settled;
      ActiveIsConnected(w.g, r);
      if q == s {
        ExactAfterOwnMove(cfg, w.g, p, c, pose, PictureOf(w, s));
      } else {
        MoveSeen(cfg, w, s, p, c, pose, q, r);
        ExactAfterMove(cfg, w.g, r, p, c, pose, PictureOf(w, q));
      }
    }
    forall q | q in w'.users && w'.users[q].None?
      ensures PictureOf(w', q) == map[]
    {
      UnsubscribedHearsNothing(cfg, w, s, p, c, pose, q);
    }
  }

  lemma UnsubscribedHearsNothing(cfg: Config, w: World, s: Sid, p: Ref, c: Chunk, pose: Pose, q: Sid)
    requires q in w.hub.inbox && SubsOf(w.hub, q) == {} && q != s
    ensures PictureOf(AcceptMove(cfg, w, s, p, c, pose), q) == PictureOf(w, q)
  {
    var before, moved := At(w.g, p), At(Moved(cfg, w.g, p, c, pose), p);
    var hub1 := Deliver(w.hub, LeftPubs(cfg, s, before, c));
    EmptySeen(w.hub, LeftPubs(cfg, s, before, c), q);
    EmptySeen(Resubscribed(cfg, hub1, s, before.chunk, c), JoinedPubs(cfg, s, before, moved), q);
  }

  lemma AcceptMoveKeeps(cfg: Config, w: World, s: Sid, p: Ref, c: Chunk, pose: Pose)
    requires Deployable(cfg) && Inv(cfg, w) && Active(w, s, p) && Contains(cfg, c)
    ensures Inv(cfg, AcceptMove(cfg, w, s, p, c, pose))
  {
    hide Deliver, LeftPubs, JoinedPubs, Faithful, WalletsOk, ChunksOk, RetiredOk, QueueOk, Deployable, Subscribed;
    ActiveIsConnected(w.g, p);
    MovedKeeps(cfg, w.g, p, c, pose);
    MoveSubscribed(cfg, w, s, p, c, pose);
    MoveFaithful(cfg, w, s, p, c, pose);
    assert forall r :: Live(Moved(cfg, w.g, p, c, pose), r) <==> Live(w.g, r);
  }

  /** The limiter's window is nobody's business but the limiter's. */
  lemma WindowInv(cfg: Config, w: World, s: Sid, p: Ref, window: Window)
    requires Inv(cfg, w) && Active(w, s, p)
    ensures var w' := w.(g := Put(w.g, p, At(w.g, p).(moveWindow := window))); Inv(cfg, w') && Active(w', s, p)
  {
    hide Exact, Fold, TableOk, WalletsOk, ChunksOk, RetiredOk, QueueOk, Next;
    var g' := Put(w.g, p, At(w.g, p).(moveWindow := window));
    var w' := w.(g := g');
    ActiveIsConnected(w.g, p);
    WindowKeeps(cfg, w.g, p, window);
    forall r
      ensures Live(g', r) <==> Live(w.g, r)
    {
    }
    forall q: Sid, r: Ref
      ensures Active(w', q, r) <==> Active(w, q, r)
    {
    }
    forall q: Sid, r: Ref | Active(w', q, r) && q in w'.settled
      ensures Exact(cfg, g', r, PictureOf(w', q))
    {
      assert Active(w, q, r);
      ExactAfterWindow(cfg, w.g, g', r, PictureOf(w, q));
    }
    forall q | q in w'.users && w'.users[q].None?
      ensures PictureOf(w', q) == map[]
    {
      assert PictureOf(w, q) == map[];
    }
  }

  lemma MoveKeeps(cfg: Config, w: World, s: Sid, msg: bytes, now: u64)
    requires Deployable(cfg) && Inv(cfg, w)
    ensures Inv(cfg, MoveStep(cfg, w, s, msg, now))
  {
    if s in w.users {
      if w.users[s].None? || !IsActive(w.g, w.users[s].value) {
        ReplyKeeps(cfg, w, s, ERROR_NOT_HELLO);
      } else if DecodeMove(msg).None? {
        ReplyKeeps(cfg, w, s, ERROR_BAD_PAYLOAD_LENGTH);
      } else {
        var r, m := w.users[s].value, DecodeMove(msg).value;
        ActiveIsConnected(w.g, r);
        var w1 := w.(g := Put(w.g, r, At(w.g, r).(moveWindow := Next(now, At(w.g, r).moveWindow, cfg.moveLimit))));
        WindowInv(cfg, w, s, r, Next(now, At(w.g, r).moveWindow, cfg.moveLimit));
        if !Allows(now, At(w.g, r).moveWindow, cfg.moveLimit) {
          ReplyKeeps(cfg, w1, s, ERROR_RATE_LIMIT);
        } else if LocalToGlobal(cfg, m.lx, m.lz).None? {
          ReplyKeeps(cfg, w1, s, ERROR_OUT_OF_RANGE);
        } else {
          AcceptMoveKeeps(cfg, w1, s, r, LocalToGlobal(cfg, m.lx, m.lz).value, m.pose);
        }
      }
    }
  }

  // ---------------------------------------------------------------- a socket closes

  lemma ClosePaired(users: Users, g: State, g': State, s: Sid)
    requires Paired(users, g) && s in users
    requires forall r: Ref :: Live(g', r) <==> Live(g, r) && users[s] != Some(r)
    ensures Paired(users - {s}, g')
  {
    var users' := users - {s};
    forall q: Sid, r: Ref
      ensures HasPlayer(users', q, r) <==> HasPlayer(users, q, r) && q != s
    {
    }
    forall r: Ref | Live(g', r)
      ensures exists q :: HasPlayer(users', q, r)
    {
      var q :| HasPlayer(users, q, r);
      assert HasPlayer(users', q, r);
    }
    forall q: Sid, r: Ref | HasPlayer(users', q, r)
      ensures Live(g', r)
    {
      assert users[s] == Some(r) ==> HasPlayer(users, s, r);
    }
  }

  /** w' is w without the socket s, and possibly with the record of its player changed. */
  ghost predicate Closed(w: World, s: Sid, w': World) {
    && s in w.users && w'.users == w.users - {s}
    && w'.hub.topics == w.hub.topics - {s} && w'.hub.inbox.Keys == w.hub.inbox.Keys - {s}
    && |w'.g.objs| == |w.g.objs|
    && (forall r: Ref :: r < |w.g.objs| && w.users[s] != Some(r) ==> w'.g.objs[r] == w.g.objs[r])
  }

  lemma CloseActive(w: World, s: Sid, w': World, q: Sid, r: Ref)
    requires Paired(w.users, w.g) && Closed(w, s, w')
    ensures Active(w', q, r) <==> Active(w, q, r) && q != s
    ensures Active(w', q, r) ==> w'.g.objs[r] == w.g.objs[r]
  {
    assert HasPlayer(w'.users, q, r) <==> HasPlayer(w.users, q, r) && q != s;
    if w.users[s] == Some(r) {
      assert HasPlayer(w.users, s, r);
    }
  }

  lemma CloseSubscribed(cfg: Config, w: World, s: Sid, w': World)
    requires Subscribed(cfg, w) && Paired(w.users, w.g) && Closed(w, s, w')
    ensures Subscribed(cfg, w')
  {
    forall q: Sid, r: Ref | Active(w', q, r)
      ensures w'.hub.topics[q] == {LocalIndex(cfg, w'.g.objs[r].chunk)}
    {
      CloseActive(w, s, w', q, r);
    }
  }

  /** Closing a socket without an active player disturbs no picture. */
  lemma QuietClose(cfg: Config, w: World, s: Sid, g': State)
    requires Deployable(cfg) && Inv(cfg, w) && s in w.users && Good(cfg, g')
    requires g'.objs == w.g.objs && g'.active == w.g.active
    requires forall r: Ref :: Live(g', r) <==> Live(w.g, r) && w.users[s] != Some(r)
    ensures Inv(cfg, World(g', w.users - {s}, Disconnected(w.hub, s), w.settled - {s}))
  {
    hide Good, Exact, Paired, Subscribed, Fold, Deployable, Live;
    var w' := World(g', w.users - {s}, Disconnected(w.hub, s), w.settled - {s});
    ClosePaired(w.users, w.g, g', s);
    CloseSubscribed(cfg, w, s, w');
    assert forall q :: q in w'.users ==> PictureOf(w', q) == PictureOf(w, q);
    forall q: Sid, r: Ref | Active(w', q, r) && q in w'.settled
      ensures Exact(cfg, g', r, PictureOf(w', q))
    {
      CloseActive(w, s, w', q, r);
      assert Exact(cfg, w.g, r, PictureOf(w, q));
      SameExact(cfg, w.g, g', r, PictureOf(w, q));
    }
  }

  lemma SameExact(cfg: Config, g: State, g': State, r: Ref, v: Picture)
    requires Exact(cfg, g, r, v) && g'.objs == g.objs && g'.active == g.active
    ensures Exact(cfg, g', r, v)
  {
    forall q: Ref
      ensures Visible(cfg, g', r, q) <==> Visible(cfg, g, r, q)
      ensures q < |g.objs| ==> (Shows(cfg, g', v, q) <==> Shows(cfg, g, v, q))
    {
    }
  }

  /** What the closing of an active player's socket looks like from another active player's socket. */
  lemma CloseSeen(cfg: Config, w: World, s: Sid, p: Ref, q: Sid, r: Ref)
    requires Deployable(cfg) && TableOk(w.g) && ChunksOk(cfg, w.g) && IsActive(w.g, p) && IsActive(w.g, r) && r != p
    requires s in w.users && w.users[s] == Some(p) && q != s
    requires q in w.hub.inbox && SubsOf(w.hub, q) == {LocalIndex(cfg, w.g.objs[r].chunk)}
    requires Exact(cfg, w.g, r, PictureOf(w, q))
    ensures Exact(cfg, CloseStep(cfg, w, s).g, r, PictureOf(CloseStep(cfg, w, s), q))
  {
    hide Exact, Deliver, AoiPubs, LeaveOf, Fold, TableOk, ChunksOk;
    LeaveSeen(cfg, w.g, Disconnect(w.g, p), p, 2, Disconnected(w.hub, s), q, r);
  }

  lemma ActiveCloseFaithful(cfg: Config, w: World, s: Sid, p: Ref)
    requires Deployable(cfg) && Inv(cfg, w) && Active(w, s, p) && Closed(w, s, CloseStep(cfg, w, s))
    ensures Faithful(cfg, CloseStep(cfg, w, s))
  {
    var w' := CloseStep(cfg, w, s);
    ActiveIsConnected(w.g, p);
    forall q: Sid, r: Ref | Active(w', q, r) && q in w'.settled
      ensures Exact(cfg, w'.g, r, PictureOf(w', q))
    {
      CloseActive(w, s, w', q, r);
      ActiveIsConnected(w.g, r);
      CloseSeen(cfg, w, s, p, q, r);
    }
    forall q | q in w'.users && w'.users[q].None?
      ensures PictureOf(w', q) == map[]
    {
      EmptySeen(Disconnected(w.hub, s), AoiPubs(cfg, w.g.objs[p].chunk, LeaveOf(cfg, At(w.g, p), 2), None), q);
      assert PictureOf(w, q) == map[];
    }
  }

  lemma DisconnectLive(g: State, p: Ref, r: Ref)
    requires RetiredOk(g) && p < |g.objs| && g.objs[p].connected
    ensures Live(Disconnect(g, p), r) <==> Live(g, r) && r != p
  {
  }

  lemma ActiveCloseShape(cfg: Config, w: World, s: Sid, p: Ref)
    requires Subscribed(cfg, w) && Active(w, s, p) && IsActive(w.g, p)
    ensures var w' := CloseStep(cfg, w, s);
      w'.g == Disconnect(w.g, p) && w'.users == w.users - {s} && Closed(w, s, w')
  {
  }

  lemma ActiveClose(cfg: Config, w: World, s: Sid, p: Ref, w': World)
    requires Deployable(cfg) && Inv(cfg, w) && Active(w, s, p) && IsActive(w.g, p) && w' == CloseStep(cfg, w, s)
    ensures Inv(cfg, w')
  {
    DisconnectKeeps(cfg, w.g, p);
    ActiveCloseShape(cfg, w, s, p);
    ActiveClosePaired(w, s, p);
    CloseSubscribed(cfg, w, s, w');
    ActiveCloseFaithful(cfg, w, s, p);
  }

  lemma ActiveClosePaired(w: World, s: Sid, p: Ref)
    requires Paired(w.users, w.g) && RetiredOk(w.g) && Active(w, s, p)
    ensures Paired(w.users - {s}, Disconnect(w.g, p))
  {
    forall r: Ref
      ensures Live(Disconnect(w.g, p), r) <==> Live(w.g, r) && r != p
    {
      DisconnectLive(w.g, p, r);
    }
    ClosePaired(w.users, w.g, Disconnect(w.g, p), s);
  }

  lemma CloseKeeps(cfg: Config, w: World, s: Sid)
    requires Deployable(cfg) && Inv(cfg, w)
    ensures Inv(cfg, CloseStep(cfg, w, s))
  {
    if s in w.users {
      if w.users[s].None? {
        QuietClose(cfg, w, s, w.g);
      } else {
        var r := w.users[s].value;
        assert HasPlayer(w.users, s, r);
        ActiveIsConnected(w.g, r);
        if IsActive(w.g, r) {
          ActiveClose(cfg, w, s, r, CloseStep(cfg, w, s));
        } else {
          ReleaseKeeps(cfg, w.g, r);
          WithoutList(w.g.retired, r);
          QuietClose(cfg, w, s, Release(w.g, r));
        }
      }
    }
  }

  // ---------------------------------------------------------------- a flush

  lemma FlushShape(cfg: Config, w: World, order: seq<nat>)
    requires Subscribed(cfg, w)
    ensures var w' := FlushStep(cfg, w, order);
      && Subscribed(cfg, w')
      && (forall r: Ref :: Live(w'.g, r) <==> Live(w.g, r))
      && (forall q: Sid, r: Ref :: Active(w', q, r) <==> Active(w, q, r))
  {
    hide Received, FlushPubs, LocalIndex;
  }

  lemma FlushKeeps(cfg: Config, w: World, order: seq<nat>)
    requires Deployable(cfg) && Inv(cfg, w) && IsTopicOrder(cfg, w.g, order)
    ensures Inv(cfg, FlushStep(cfg, w, order))
  {
    FlushedKeeps(cfg, w.g);
    FlushShape(cfg, w, order);
    SamePaired(w.users, w.g, Flushed(w.g));
    FlushFaithful(cfg, w, order);
    hide Good, Paired, Subscribed, Faithful, FlushPubs, Deliver, Flushed;
  }

  lemma CutPicture(h: Hub, pubs: seq<Publication>, q: Sid, tick: u16, items: seq<MoveItem>)
    requires q in h.inbox && Received(SubsOf(h, q), q, pubs) == Cut(tick, items)
    ensures Fold(map[], InboxOf(Deliver(h, pubs), q)) == ApplyItems(Fold(map[], h.inbox[q]), items)
  {
    PictureAfter(h, pubs, q);
    FoldCut(Fold(map[], h.inbox[q]), tick, items);
  }

  lemma FlushPicture(cfg: Config, g: State, h: Hub, tick: u16, order: seq<nat>, q: Sid, t: nat)
    requires IsTopicOrder(cfg, g, order) && q in h.inbox && SubsOf(h, q) == {t}
    ensures Fold(map[], InboxOf(Deliver(h, FlushPubs(cfg, g, tick, order)), q))
         == ApplyItems(Fold(map[], h.inbox[q]), TopicItems(cfg, g, g.queue, t))
  {
    ReceivedFlush(cfg, g, tick, order, t, q);
    CutPicture(h, FlushPubs(cfg, g, tick, order), q, tick, TopicItems(cfg, g, g.queue, t));
  }

  lemma FlushStepPicture(cfg: Config, w: World, order: seq<nat>, q: Sid, t: nat)
    requires IsTopicOrder(cfg, w.g, order) && q in w.hub.inbox && SubsOf(w.hub, q) == {t}
    ensures PictureOf(FlushStep(cfg, w, order), q) == ApplyItems(PictureOf(w, q), TopicItems(cfg, w.g, w.g.queue, t))
  {
    FlushStepHub(cfg, w, order);
    FlushPicture(cfg, w.g, w.hub, WrapU16(w.g.tick + 1), order, q, t);
  }

  lemma FlushStepHub(cfg: Config, w: World, order: seq<nat>)
    ensures FlushStep(cfg, w, order).hub == Deliver(w.hub, FlushPubs(cfg, w.g, WrapU16(w.g.tick + 1), order))
  {
  }

  lemma FlushSeen(cfg: Config, w: World, order: seq<nat>, q: Sid, r: Ref)
    requires Deployable(cfg) && Good(cfg, w.g) && IsTopicOrder(cfg, w.g, order) && r < |w.g.objs|
    requires q in w.hub.inbox && SubsOf(w.hub, q) == {LocalIndex(cfg, w.g.objs[r].chunk)}
    requires Exact(cfg, w.g, r, PictureOf(w, q))
    ensures Exact(cfg, Flushed(w.g), r, PictureOf(FlushStep(cfg, w, order), q))
  {
    FlushStepPicture(cfg, w, order, q, LocalIndex(cfg, w.g.objs[r].chunk));
    ExactAfterFlush(cfg, w.g, r, PictureOf(w, q));
  }

  lemma FlushFaithful(cfg: Config, w: World, order: seq<nat>)
    requires Deployable(cfg) && Inv(cfg, w) && IsTopicOrder(cfg, w.g, order)
    requires forall q: Sid, r: Ref :: Active(FlushStep(cfg, w, order), q, r) <==> Active(w, q, r)
    ensures Faithful(cfg, FlushStep(cfg, w, order))
  {
    var w' := FlushStep(cfg, w, order);
    forall q: Sid, r: Ref | Active(w', q, r) && q in w'.settled
      ensures Exact(cfg, w'.g, r, PictureOf(w', q))
    {
      FlushSeen(cfg, w, order, q, r);
    }
    forall q | q in w'.users && w'.users[q].None?
      ensures PictureOf(w', q) == map[]
    {
      EmptySeen(w.hub, FlushPubs(cfg, w.g, WrapU16(w.g.tick + 1), order), q);
      assert PictureOf(w, q) == map[];
    }
  }

  // ---------------------------------------------------------------- other messages

  /** Frames that are not about players change no picture. */
  lemma RelayKeeps(cfg: Config, w: World, extra: Extra)
    requires Inv(cfg, w) && forall s :: s in extra ==> Aside(extra[s])
    ensures Inv(cfg, w.(hub := Relayed(w.hub, extra)))
  {
    var w' := w.(hub := Relayed(w.hub, extra));
    forall s | s in w.users
      ensures PictureOf(w', s) == PictureOf(w, s)
    {
      FoldConcat(map[], w.hub.inbox[s], ExtraFor(extra, s));
      AsideUnseen(PictureOf(w, s), ExtraFor(extra, s));
    }
    SamePictures(cfg, w, w');
  }

  lemma SamePictures(cfg: Config, w: World, w': World)
    requires Subscribed(cfg, w) && Faithful(cfg, w)
    requires w'.g == w.g && w'.users == w.users && w'.settled == w.settled
    requires w'.hub.topics == w.hub.topics && w'.hub.inbox.Keys == w.hub.inbox.Keys
    requires forall s :: s in w.users ==> PictureOf(w', s) == PictureOf(w, s)
    ensures Subscribed(cfg, w') && Faithful(cfg, w')
  {
    assert forall s: Sid, r: Ref :: Active(w', s, r) <==> Active(w, s, r);
  }

  // ---------------------------------------------------------------- every run

  lemma StepKeeps(cfg: Config, w: World, e: Event)
    requires Deployable(cfg) && Inv(cfg, w) && Possible(cfg, w, e)
    ensures Inv(cfg, Step(cfg, w, e))
  {
    match e
    case Open(s) => OpenKeeps(cfg, w, s);
    case HelloMsg(s, msg, now, snapshot) => HelloKeeps(cfg, w, s, msg, now, snapshot);
    case MoveMsg(s, msg, now) => MoveKeeps(cfg, w, s, msg, now);
    case Close(s) => CloseKeeps(cfg, w, s);
    case Flush(order) => FlushKeeps(cfg, w, order);
    case Relay(extra) => RelayKeeps(cfg, w, extra);
  }

  lemma {:induction false} RunKeeps(cfg: Config, w0: World, events: seq<Event>, w: World)
    requires Deployable(cfg) && Inv(cfg, w0) && Run(cfg, w0, events, w)
    ensures Inv(cfg, w)
    decreases |events|
  {
    if events != [] {
      StepKeeps(cfg, w0, events[0]);
      RunKeeps(cfg, Step(cfg, w0, events[0]), events[1..], w);
    }
  }
}
