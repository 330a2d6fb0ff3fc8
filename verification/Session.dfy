/** The session state machine: players, sockets and published frames, one handler per step (guardian.cpp, app.cpp). */
module Session {
  import opened Ints
  import opened Chunks
  import opened Wire
  import opened RateLimit

  /** A player object is named by its place in the order of creation; ids are reused, names are not. */
  type Ref = nat
  type Sid = nat

  datatype PlayerRec = PlayerRec(
    id: u16,
    wallet: Wallet,
    chunk: Chunk,
    hasPose: bool,
    pose: Pose,
    moveWindow: Window,
    hasPending: bool,
    queued: bool,
    pending: MoveItem,
    connected: bool)

  /** objs holds every player ever created. flushed counts the queue entries that a flush has sent, skipped those whose
      player was gone by then. */
  datatype State = State(
    objs: seq<PlayerRec>,
    active: map<u16, Ref>,
    retired: seq<Ref>,
    queue: seq<Ref>,
    nextId: u16,
    tick: u16,
    moveIn: nat,
    dropped: nat,
    flushed: nat,
    skipped: nat)

  const EMPTY: State := State([], map[], [], [], 1, 0, 0, 0, 0, 0)

  const NO_WALLET: Wallet :=
    [0, 0, 0, 0, 0, 0, 0, 0, 0, 0, 0, 0, 0, 0, 0, 0, 0, 0, 0, 0, 0, 0, 0, 0, 0, 0, 0, 0, 0, 0, 0, 0]

  const NOWHERE: PlayerRec :=
    PlayerRec(0, NO_WALLET, Chunk(0, 0), false, Pose(0, 0, 0, 0, 0), Window(0, 0), false, false,
              MoveItem(0, 0, 0, Pose(0, 0, 0, 0, 0)), false)

  function At(g: State, r: Ref): PlayerRec { if r < |g.objs| then g.objs[r] else NOWHERE }

  function Put(g: State, r: Ref, p: PlayerRec): State {
    if r < |g.objs| then g.(objs := g.objs[r := p]) else g
  }

  predicate IsActive(g: State, r: Ref) { r < |g.objs| && At(g, r).id in g.active && g.active[At(g, r).id] == r }

  predicate CanAccept(cfg: Config, g: State) { |g.active| < cfg.maxPlayers }

  // ---------------------------------------------------------------- frames about a player

  function JoinOf(cfg: Config, p: PlayerRec): Frame {
    Join(PlayerJoin(p.id, cfg.ownerHash(p.wallet), cfg.fingerprint(p.wallet), p.wallet,
                    ToLocalX(cfg, p.chunk.x), ToLocalZ(cfg, p.chunk.z), p.pose))
  }

  function LeaveOf(cfg: Config, p: PlayerRec, reason: u8): Frame {
    Leave(PlayerLeave(p.id, reason, cfg.ownerHash(p.wallet), cfg.fingerprint(p.wallet), p.wallet))
  }

  function ItemOf(cfg: Config, p: PlayerRec): MoveItem {
    MoveItem(p.id, ToLocalX(cfg, p.chunk.x), ToLocalZ(cfg, p.chunk.z), p.pose)
  }

  // ---------------------------------------------------------------- id allocation

  /** The id k steps after next in the cycle 1, 2, ..., 65535. */
  function Cyc(next: u16, k: nat): u16
    requires next != 0
  {
    (next - 1 + k) % 65535 + 1
  }

  ghost predicate IsFirstFree(used: set<u16>, next: u16, k: nat)
    requires next != 0
  {
    k < 65535 && Cyc(next, k) !in used && forall j: nat :: j < k ==> Cyc(next, j) in used
  }

  /** How far the wrapping scan goes before it meets a free id; nothing when all 65535 are taken. */
  ghost function FirstFree(used: set<u16>, next: u16): (r: Option<nat>)
    ensures r.Some? ==> next != 0 && IsFirstFree(used, next, r.value)
    ensures r.None? && next != 0 ==> forall k :: !IsFirstFree(used, next, k)
  {
    if next != 0 && exists k :: IsFirstFree(used, next, k) then
      var k :| IsFirstFree(used, next, k);
      Some(k)
    else None
  }

  // ---------------------------------------------------------------- players

  ghost function Create(cfg: Config, g: State, h: Hello, now: u64): Option<State> {
    var k := FirstFree(g.active.Keys, g.nextId);
    if !CanAccept(cfg, g) || !Contains(cfg, Chunk(h.startX, h.startZ)) || k.None? then None
    else
      var id := Cyc(g.nextId, k.value);
      var p := NOWHERE.(id := id, wallet := h.wallet, chunk := Chunk(h.startX, h.startZ),
                        moveWindow := Window(now, 0), connected := true);
      Some(g.(objs := g.objs + [p], active := g.active[id := |g.objs|], nextId := Cyc(g.nextId, k.value + 1)))
  }

  /** A player leaves the table of active players; its record stays. */
  function Disconnect(g: State, r: Ref): State {
    Put(g, r, At(g, r).(connected := false)).(active := g.active - {At(g, r).id})
  }

  function Without(s: seq<Ref>, r: Ref): seq<Ref> {
    if s == [] then [] else if s[0] == r then s[1..] else [s[0]] + Without(s[1..], r)
  }

  function Release(g: State, r: Ref): State { g.(retired := Without(g.retired, r)) }

  function Retire(g: State, r: Ref): State { Disconnect(g, r).(retired := g.retired + [r]) }

  ghost predicate Holds(g: State, wallet: Wallet, r: Ref) { IsActive(g, r) && At(g, r).wallet == wallet }

  /** The active player with this wallet, if any (no two share one, see Good). */
  ghost function HolderOf(g: State, wallet: Wallet): (r: Option<Ref>)
    ensures r.Some? ==> Holds(g, wallet, r.value)
    ensures r.None? ==> forall q :: !Holds(g, wallet, q)
  {
    if exists r :: Holds(g, wallet, r) then
      var r :| Holds(g, wallet, r);
      Some(r)
    else None
  }

  predicate WalletEmpty(w: Wallet) { forall i :: 0 <= i < 32 ==> w[i] == 0 }

  /** An accepted move: new chunk and pose, and the player's latest move waits in the queue. */
  function Moved(cfg: Config, g: State, r: Ref, c: Chunk, pose: Pose): State {
    var p := At(g, r).(chunk := c, hasPose := true, pose := pose);
    var again := p.queued;
    Put(g, r, p.(pending := ItemOf(cfg, p), hasPending := true, queued := true)).(
      queue := if again then g.queue else g.queue + [r],
      dropped := if again then g.dropped + 1 else g.dropped,
      moveIn := g.moveIn + 1)
  }

  // ---------------------------------------------------------------- flush

  predicate Flushable(p: PlayerRec) { p.connected && p.hasPending }

  function CountFlushable(g: State, queue: seq<Ref>): (n: nat)
    ensures n <= |queue|
  {
    if queue == [] then 0
    else CountFlushable(g, queue[..|queue| - 1]) + if Flushable(At(g, queue[|queue| - 1])) then 1 else 0
  }

  /** Queue entries of players that have been disconnected since they were queued. */
  function CountGone(g: State, queue: seq<Ref>): (n: nat)
    ensures n <= |queue|
  {
    if queue == [] then 0
    else CountGone(g, queue[..|queue| - 1]) + if At(g, queue[|queue| - 1]).connected then 0 else 1
  }

  function Cleared(p: PlayerRec): PlayerRec {
    if Flushable(p) then p.(hasPending := false, queued := false) else p
  }

  function Flushed(g: State): State {
    g.(objs := seq(|g.objs|, i requires 0 <= i < |g.objs| => if i in g.queue then Cleared(g.objs[i]) else g.objs[i]),
       queue := [],
       tick := WrapU16(g.tick + 1),
       flushed := g.flushed + CountFlushable(g, g.queue),
       skipped := g.skipped + CountGone(g, g.queue))
  }

  /** The items batched for topic t: the pending moves of queued players whose area of interest contains it. */
  function TopicItems(cfg: Config, g: State, queue: seq<Ref>, t: nat): seq<MoveItem> {
    if queue == [] then []
    else
      var p := At(g, queue[|queue| - 1]);
      TopicItems(cfg, g, queue[..|queue| - 1], t)
      + if Flushable(p) && t in AoiTopics(cfg, p.chunk) then [p.pending] else []
  }

  /** Frames of at most 255 items. */
  function Cut(tick: u16, items: seq<MoveItem>): seq<Frame> {
    if items == [] then []
    else if |items| <= 255 then [MoveBatch(tick, items)]
    else [MoveBatch(tick, items[..255])] + Cut(tick, items[255..])
  }

  // ---------------------------------------------------------------- publish and subscribe

  datatype Publication = Publication(topic: nat, frame: Frame, except: Option<Sid>)

  /** The pub/sub broker: subscriptions of each socket and the frames delivered to it. */
  datatype Hub = Hub(topics: map<Sid, set<nat>>, inbox: map<Sid, seq<Frame>>)

  /** The frames a socket gets from a series of publications, in order. */
  function Received(subs: set<nat>, s: Sid, pubs: seq<Publication>): seq<Frame> {
    if pubs == [] then []
    else
      var last := pubs[|pubs| - 1];
      Received(subs, s, pubs[..|pubs| - 1])
      + if last.topic in subs && last.except != Some(s) then [last.frame] else []
  }

  function SubsOf(h: Hub, s: Sid): set<nat> { if s in h.topics then h.topics[s] else {} }

  function InboxOf(h: Hub, s: Sid): seq<Frame> { if s in h.inbox then h.inbox[s] else [] }

  function Deliver(h: Hub, pubs: seq<Publication>): Hub {
    h.(inbox := map s | s in h.inbox :: h.inbox[s] + Received(SubsOf(h, s), s, pubs))
  }

  function Send(h: Hub, s: Sid, frames: seq<Frame>): Hub { h.(inbox := h.inbox[s := InboxOf(h, s) + frames]) }

  function Subscribe(h: Hub, s: Sid, t: nat): Hub { h.(topics := h.topics[s := SubsOf(h, s) + {t}]) }

  function Unsubscribe(h: Hub, s: Sid, t: nat): Hub { h.(topics := h.topics[s := SubsOf(h, s) - {t}]) }

  /** Frames that say nothing about where players are, for each socket that gets any. */
  type Extra = map<Sid, seq<Frame>>

  function ExtraFor(extra: Extra, s: Sid): seq<Frame> { if s in extra then extra[s] else [] }

  function Relayed(h: Hub, extra: Extra): Hub {
    h.(inbox := map s | s in h.inbox :: h.inbox[s] + ExtraFor(extra, s))
  }

  function Disconnected(h: Hub, s: Sid): Hub { Hub(h.topics - {s}, h.inbox - {s}) }

  function Everywhere(topics: seq<nat>, f: Frame, except: Option<Sid>): seq<Publication> {
    if topics == [] then []
    else Everywhere(topics[..|topics| - 1], f, except) + [Publication(topics[|topics| - 1], f, except)]
  }

  /** publish_to_aoi. */
  function AoiPubs(cfg: Config, c: Chunk, f: Frame, except: Option<Sid>): seq<Publication> {
    Everywhere(AoiTopics(cfg, c), f, except)
  }

  function OnTopic(t: nat, frames: seq<Frame>): seq<Publication> {
    if frames == [] then [] else OnTopic(t, frames[..|frames| - 1]) + [Publication(t, frames[|frames| - 1], None)]
  }

  /** The frames of each topic in turn. */
  function InOrder(frames: nat -> seq<Frame>, order: seq<nat>): seq<Publication> {
    if order == [] then []
    else
      var t := order[|order| - 1];
      InOrder(frames, order[..|order| - 1]) + OnTopic(t, frames(t))
  }

  function BatchFrames(cfg: Config, g: State, tick: u16): nat -> seq<Frame> {
    (t: nat) => Cut(tick, TopicItems(cfg, g, g.queue, t))
  }

  /** The frames of a flush, topic after topic in the iteration order of the batch table. */
  function FlushPubs(cfg: Config, g: State, tick: u16, order: seq<nat>): seq<Publication> {
    InOrder(BatchFrames(cfg, g, tick), order)
  }

  /** The batch table has an entry for each topic with at least one item. */
  ghost predicate IsTopicOrder(cfg: Config, g: State, order: seq<nat>) {
    NoDup(order) && forall t: nat :: t in order <==> TopicItems(cfg, g, g.queue, t) != []
  }

  // ---------------------------------------------------------------- visibility

  /** q is shown to r: another active player, with a pose, inside the area of interest of r. */
  predicate Visible(cfg: Config, g: State, r: Ref, q: Ref) {
    q != r && q < |g.objs| && g.objs[q].connected && g.objs[q].hasPose && Near(cfg, At(g, r).chunk, g.objs[q].chunk)
  }

  /** No other posed player stands in one of the two squares but not in the other. */
  ghost predicate SameSurroundings(cfg: Config, g: State, r: Ref, from: Chunk, to: Chunk) {
    forall q: Ref :: q != r && q < |g.objs| && g.objs[q].connected && g.objs[q].hasPose ==>
      (Near(cfg, from, g.objs[q].chunk) <==> Near(cfg, to, g.objs[q].chunk))
  }

  /** A HELLO snapshot lists each visible player once, in the order in which the rooms are walked. */
  ghost predicate IsSnapshot(cfg: Config, g: State, r: Ref, order: seq<Ref>) {
    NoDup(order) && forall q :: q in order <==> Visible(cfg, g, r, q)
  }

  function Joins(cfg: Config, g: State, order: seq<Ref>): seq<Frame> {
    if order == [] then [] else Joins(cfg, g, order[..|order| - 1]) + [JoinOf(cfg, At(g, order[|order| - 1]))]
  }

  // ---------------------------------------------------------------- handlers

  /** users: the player pointer of each open socket. settled: sockets whose player has kept its surroundings since
      HELLO, at every change of chunk. */
  datatype World = World(g: State, users: map<Sid, Option<Ref>>, hub: Hub, settled: set<Sid>)

  const START: World := World(EMPTY, map[], Hub(map[], map[]), {})

  function Reply(w: World, s: Sid, code: u16): World { w.(hub := Send(w.hub, s, [Error(code)])) }

  function OpenStep(w: World, s: Sid): World {
    if s in w.users then w
    else w.(users := w.users[s := None], hub := Hub(w.hub.topics[s := {}], w.hub.inbox[s := []]))
  }

  function AckOf(cfg: Config, p: PlayerRec): Frame {
    Ack(HelloAck(PROTOCOL_VERSION, p.id, 7, cfg.center.x, cfg.center.z, cfg.serviceRadius, cfg.aoiRadius, 1, 0))
  }

  /** Duplicates of the wallet are retired and announced before anything is checked about the newcomer. */
  ghost function RetireStep(cfg: Config, w: World, wallet: Wallet): World {
    match HolderOf(w.g, wallet)
    case None => w
    case Some(r) =>
      w.(g := Retire(w.g, r),
         hub := Deliver(w.hub, AoiPubs(cfg, At(w.g, r).chunk, LeaveOf(cfg, At(w.g, r), 3), None)))
  }

  function Welcome(cfg: Config, w: World, s: Sid, g: State, r: Ref, order: seq<Ref>): World {
    var p := At(g, r);
    var hub := Subscribe(w.hub, s, LocalIndex(cfg, p.chunk));
    World(g, w.users[s := Some(r)], Send(hub, s, [AckOf(cfg, p)] + Joins(cfg, g, order)), w.settled + {s})
  }

  ghost function AdmitStep(cfg: Config, w: World, s: Sid, h: Hello, now: u64, order: seq<Ref>): World {
    if !CanAccept(cfg, w.g) then Reply(w, s, ERROR_SERVER_FULL)
    else
      match Create(cfg, w.g, h, now)
      case None => Reply(w, s, ERROR_OUT_OF_RANGE)
      case Some(g) => Welcome(cfg, w, s, g, |w.g.objs|, order)
  }

  predicate HelloRefused(w: World, s: Sid, msg: bytes) {
    DecodeHello(msg).None? || (s in w.users && w.users[s].Some?) || WalletEmpty(DecodeHello(msg).value.wallet)
  }

  ghost function HelloStep(cfg: Config, w: World, s: Sid, msg: bytes, now: u64, order: seq<Ref>): World {
    if s !in w.users then w
    else if HelloRefused(w, s, msg) then Reply(w, s, ERROR_BAD_PROTOCOL)
    else
      var h := DecodeHello(msg).value;
      AdmitStep(cfg, RetireStep(cfg, w, h.wallet), s, h, now, order)
  }

  /** A posed player that changes chunk leaves the old area of interest. Its own socket is excluded. */
  function LeftPubs(cfg: Config, s: Sid, p: PlayerRec, c: Chunk): seq<Publication> {
    if c != p.chunk && p.hasPose then AoiPubs(cfg, p.chunk, LeaveOf(cfg, p, 1), Some(s)) else []
  }

  /** A player that changed chunk, or has its first pose, joins the area of interest of its chunk. */
  function JoinedPubs(cfg: Config, s: Sid, p: PlayerRec, moved: PlayerRec): seq<Publication> {
    if moved.chunk != p.chunk || !p.hasPose then AoiPubs(cfg, moved.chunk, JoinOf(cfg, moved), Some(s)) else []
  }

  function Resubscribed(cfg: Config, h: Hub, s: Sid, from: Chunk, to: Chunk): Hub {
    if to != from then Subscribe(Unsubscribe(h, s, LocalIndex(cfg, from)), s, LocalIndex(cfg, to)) else h
  }

  ghost function StillSettled(cfg: Config, w: World, s: Sid, r: Ref, c: Chunk): set<Sid> {
    if SameSurroundings(cfg, w.g, r, At(w.g, r).chunk, c) then w.settled else w.settled - {s}
  }

  ghost function AcceptMove(cfg: Config, w: World, s: Sid, r: Ref, c: Chunk, pose: Pose): World {
    var p := At(w.g, r);
    var g := Moved(cfg, w.g, r, c, pose);
    var hub := Resubscribed(cfg, Deliver(w.hub, LeftPubs(cfg, s, p, c)), s, p.chunk, c);
    World(g, w.users, Deliver(hub, JoinedPubs(cfg, s, p, At(g, r))), StillSettled(cfg, w, s, r, c))
  }

  ghost function MoveStep(cfg: Config, w: World, s: Sid, msg: bytes, now: u64): World {
    if s !in w.users then w
    else if w.users[s].None? || !IsActive(w.g, w.users[s].value) then Reply(w, s, ERROR_NOT_HELLO)
    else if DecodeMove(msg).None? then Reply(w, s, ERROR_BAD_PAYLOAD_LENGTH)
    else
      var r, m := w.users[s].value, DecodeMove(msg).value;
      var p := At(w.g, r);
      var w1 := w.(g := Put(w.g, r, p.(moveWindow := Next(now, p.moveWindow, cfg.moveLimit))));
      if !Allows(now, p.moveWindow, cfg.moveLimit) then Reply(w1, s, ERROR_RATE_LIMIT)
      else
        match LocalToGlobal(cfg, m.lx, m.lz)
        case None => Reply(w1, s, ERROR_OUT_OF_RANGE)
        case Some(c) => AcceptMove(cfg, w1, s, r, c, m.pose)
  }

  function CloseStep(cfg: Config, w: World, s: Sid): World {
    if s !in w.users then w
    else
      var gone := World(w.g, w.users - {s}, Disconnected(w.hub, s), w.settled - {s});
      match w.users[s]
      case None => gone
      case Some(r) =>
        if IsActive(w.g, r) then
          gone.(g := Disconnect(w.g, r),
                hub := Deliver(gone.hub, AoiPubs(cfg, At(w.g, r).chunk, LeaveOf(cfg, At(w.g, r), 2), None)))
        else gone.(g := Release(w.g, r))
  }

  function FlushStep(cfg: Config, w: World, order: seq<nat>): World {
    w.(g := Flushed(w.g), hub := Deliver(w.hub, FlushPubs(cfg, w.g, WrapU16(w.g.tick + 1), order)))
  }

  // ---------------------------------------------------------------- runs

  /** One atomic step of the event loop. The order of a snapshot or of a flush is the iteration order of a hash table,
      chosen by the environment. Relay stands for every other message and timer: it delivers what they send. */
  datatype Event =
    | Open(s: Sid)
    | HelloMsg(s: Sid, msg: bytes, now: u64, snapshot: seq<Ref>)
    | MoveMsg(s: Sid, msg: bytes, now: u64)
    | Close(s: Sid)
    | Flush(order: seq<nat>)
    | Relay(extra: Extra)

  /** Digs, chat, equipment, identities, buildings, digests, pings and errors. */
  ghost predicate Aside(frames: seq<Frame>) { forall f :: f in frames ==> f.Other? || f.Error? }

  /** The order an event carries is one the tables can have; it matters only where a table is walked. */
  ghost predicate Possible(cfg: Config, w: World, e: Event) {
    match e
    case HelloMsg(s, msg, now, snapshot) =>
      s in w.users && !HelloRefused(w, s, msg) ==>
        var h := DecodeHello(msg).value;
        var w1 := RetireStep(cfg, w, h.wallet);
        CanAccept(cfg, w1.g) && Create(cfg, w1.g, h, now).Some? ==>
          IsSnapshot(cfg, Create(cfg, w1.g, h, now).value, |w1.g.objs|, snapshot)
    case Flush(order) => IsTopicOrder(cfg, w.g, order)
    case Relay(extra) => forall s :: s in extra ==> Aside(extra[s])
    case _ => true
  }

  ghost function Step(cfg: Config, w: World, e: Event): World {
    match e
    case Open(s) => OpenStep(w, s)
    case HelloMsg(s, msg, now, snapshot) => HelloStep(cfg, w, s, msg, now, snapshot)
    case MoveMsg(s, msg, now) => MoveStep(cfg, w, s, msg, now)
    case Close(s) => CloseStep(cfg, w, s)
    case Flush(order) => FlushStep(cfg, w, order)
    case Relay(extra) => w.(hub := Relayed(w.hub, extra))
  }

  /** w is reached from w0 by the events, in any interleaving of sockets. */
  ghost predicate Run(cfg: Config, w0: World, events: seq<Event>, w: World)
    decreases |events|
  {
    if events == [] then w == w0
    else Possible(cfg, w0, events[0]) && Run(cfg, Step(cfg, w0, events[0]), events[1..], w)
  }
}
