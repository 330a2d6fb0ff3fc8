/** The server's player tables, chunk rooms and move queue, updated in place (guardian.cpp). */
module Guardian {
  import opened Ints
  import opened Chunks
  import opened Wire
  import opened RateLimit
  import opened Session
  import opened Tables
  import opened Players
  import opened Updates
  import opened Batching

  class GuardianState {
    const cfg: Config
    const offsets: seq<Offset>
    var players: map<u16, Player>
    var retired: seq<Player>
    var pending: seq<Player>
    var nextId: u16
    var tick: u16
    var rooms: map<u64, ChunkRoom>
    var playerCount: nat
    var activeChunks: nat
    var moveIn: nat
    var dropped: nat
    var digIn: nat
    var messagesOut: nat
    var moveBatches: nat
    var moveItems: nat

    /** The players that stand in a room. */
    ghost var seated: set<Player>

    /** Every player object ever created, in order, and the abstract state that the fields represent. */
    ghost var objs: seq<Player>
    ghost var model: State

    // -------------------------------------------------------------- rooms

    /** Every room stands under the key of its chunk, which is served, and knows its topic. */
    ghost predicate Keyed()
      reads this`rooms
    {
      forall key :: key in rooms ==>
        var room := rooms[key];
        && key == room.key == ChunkKey(room.chunk)
        && Contains(cfg, room.chunk) && room.index == LocalIndex(cfg, room.chunk)
    }

    /** The players of a room point back to it and to their slots. */
    ghost predicate RoomOk(room: ChunkRoom)
      reads this`seated, room, seated`room, seated`slot, seated`chunk
    {
      forall i :: 0 <= i < |room.players| ==>
        var p := room.players[i];
        p in seated && p.room == room && p.slot == i && p.chunk == room.chunk
    }

    /** A seated player stands in a room of the index, at its slot. */
    ghost predicate SeatOk(p: Player)
      reads this`rooms, rooms.Values, p`room, p`slot
    {
      && p.room != null && p.room.key in rooms && rooms[p.room.key] == p.room
      && p.slot < |rooms[p.room.key].players| && rooms[p.room.key].players[p.slot] == p
    }

    /** The room index between two operations; the room made last may be empty for the moment. */
    ghost predicate SeatsBut(made: ChunkRoom?)
      reads this`rooms, this`seated, this`activeChunks, rooms.Values, seated`room, seated`slot, seated`chunk
    {
      && Keyed()
      && (forall key :: key in rooms ==> rooms[key].key == key && RoomOk(rooms[key]))
      && (forall key :: key in rooms ==> rooms[key].players != [] || rooms[key] == made)
      && (forall p :: p in seated ==> SeatOk(p))
      && activeChunks == |rooms|
    }

    ghost predicate Seats()
      reads this`rooms, this`seated, this`activeChunks, rooms.Values, seated`room, seated`slot, seated`chunk
    {
      SeatsBut(null)
    }

    // -------------------------------------------------------------- making a room, taking a seat

    twostate lemma SeatsMade(new room: ChunkRoom)
      requires old(Seats()) && room.key !in old(rooms) && rooms == old(rooms)[room.key := room]
      requires room.key == ChunkKey(room.chunk) && room.players == []
      requires Contains(cfg, room.chunk) && room.index == LocalIndex(cfg, room.chunk)
      requires seated == old(seated) && activeChunks == |rooms|
      requires forall key :: key in old(rooms) ==> old(rooms)[key].players == old(rooms[key].players)
      requires forall q :: q in seated ==> q.room == old(q.room) && q.chunk == old(q.chunk) && q.slot == old(q.slot)
      ensures SeatsBut(room)
    {
      forall key | key in rooms
        ensures RoomOk(rooms[key])
      {
        assert key != room.key ==> old(RoomOk(rooms[key]));
      }
      forall q | q in seated
        ensures SeatOk(q)
      {
        assert old(SeatOk(q));
      }
    }

    method GetOrCreateRoom(chunk: Chunk) returns (room: ChunkRoom)
      requires Seats() && Contains(cfg, chunk)
      modifies this`rooms, this`activeChunks
      ensures SeatsBut(room) && room.chunk == chunk
      ensures room.key in rooms && rooms[room.key] == room
      ensures rooms == old(rooms) || (fresh(room) && rooms == old(rooms)[room.key := room])
    {
      var key := ChunkKey(chunk);
      if key in rooms {
        room := rooms[key];
        ChunkKeyInjective(room.chunk, chunk);
      } else {
        room := new ChunkRoom(chunk, LocalIndex(cfg, chunk));
        rooms := rooms[key := room];
        activeChunks := |rooms|;
        SeatsMade(room);
      }
    }

    twostate lemma SeatsAdded(new p: Player, new room: ChunkRoom)
      requires old(allocated(p)) && old(allocated(room)) && old(SeatsBut(room)) && p !in old(seated)
      requires room.key in rooms && rooms[room.key] == room && p.chunk == room.chunk
      requires p.room == room && p.slot == |old(room.players)| && room.players == old(room.players) + [p]
      requires seated == old(seated) + {p} && rooms == old(rooms) && activeChunks == old(activeChunks)
      requires forall key :: key in rooms && rooms[key] != room ==> rooms[key].players == old(rooms[key].players)
      requires forall q :: q in old(seated) ==>
        q.room == old(q.room) && q.chunk == old(q.chunk) && q.slot == old(q.slot)
      ensures Seats()
    {
      forall key | key in rooms
        ensures RoomOk(rooms[key])
      {
        assert old(RoomOk(rooms[key]));
      }
      forall q | q in seated
        ensures SeatOk(q)
      {
        assert q != p ==> old(SeatOk(q));
      }
    }

    method AddPlayerToRoom(p: Player, room: ChunkRoom)
      requires SeatsBut(room) && room.key in rooms && rooms[room.key] == room
      requires p.chunk == room.chunk && p !in seated
      modifies p`room, p`slot, room`players, this`seated
      ensures Seats() && seated == old(seated) + {p}
    {
      p.room := room;
      p.slot := |room.players|;
      room.players := room.players + [p];
      seated := seated + {p};
      SeatsAdded(p, room);
    }

    // -------------------------------------------------------------- leaving a room

    /** The room of p, with p gone and the last player moved to its slot. */
    twostate predicate Vacates(p: Player, room: ChunkRoom, i: nat)
      reads this, seated, room
    {
      && old(i < |room.players| && room.players[i] == p)
      && room.players == Vacated(old(room.players), i) && seated == old(seated) - {p}
      && (forall q :: q in seated ==> q.room == old(q.room) && q.chunk == old(q.chunk))
      && (forall q :: q in seated ==>
            q.slot == if q == old(room.players[|room.players| - 1]) then i else old(q.slot))
    }

    /** The last player of the room takes the slot of the one that leaves. */
    method TakeSlot(p: Player, last: Player, room: ChunkRoom)
      requires p.slot < |room.players| && room.players[p.slot] == p && room.players[|room.players| - 1] == last
      modifies this`seated, p`room, last`slot, room`players
      ensures p.room == null && seated == old(seated) - {p} && Vacates(p, room, old(p.slot))
    {
      room.players := room.players[p.slot := last];
      last.slot := p.slot;
      room.players := room.players[..|room.players| - 1];
      p.room := null;
      seated := seated - {p};
    }

    /** The same, and an empty room is dropped. */
    method Vacate(p: Player, last: Player, room: ChunkRoom)
      requires p.slot < |room.players| && room.players[p.slot] == p && room.players[|room.players| - 1] == last
      modifies this`rooms, this`activeChunks, this`seated, p`room, last`slot, room`players
      ensures p.room == null && seated == old(seated) - {p} && Vacates(p, room, old(p.slot))
      ensures room.players == [] ==> rooms == old(rooms) - {ChunkKey(room.chunk)} && activeChunks == |rooms|
      ensures room.players != [] ==> rooms == old(rooms) && activeChunks == old(activeChunks)
    {
      TakeSlot(p, last, room);
      if room.players == [] {
        rooms := rooms - {ChunkKey(room.chunk)};
        activeChunks := |rooms|;
      }
    }

    twostate lemma RoomVacated(new p: Player, new room: ChunkRoom, i: nat, new other: ChunkRoom)
      requires old(allocated(p)) && old(allocated(room)) && old(allocated(other))
      requires old(RoomOk(other)) && old(RoomOk(room)) && Vacates(p, room, i)
      requires other != room ==> other.players == old(other.players)
      ensures RoomOk(other)
    {
    }

    twostate lemma SeatVacated(new p: Player, new room: ChunkRoom, i: nat, new q: Player)
      requires old(allocated(p)) && old(allocated(room)) && old(allocated(q))
      requires old(SeatOk(q)) && old(RoomOk(room)) && Vacates(p, room, i) && q in seated
      requires room.players != [] ==> rooms == old(rooms)
      requires room.players == [] ==> rooms == old(rooms) - {room.key}
      requires q.room != null && q.room != room ==> q.room.key != room.key && q.room.players == old(q.room.players)
      ensures SeatOk(q)
    {
    }

    twostate lemma SeatsVacated(new p: Player, new room: ChunkRoom, i: nat)
      requires old(allocated(p)) && old(allocated(room))
      requires old(Seats()) && p in old(seated) && old(p.room) == room && Vacates(p, room, i)
      requires room.players != [] ==> rooms == old(rooms)
      requires room.players == [] ==> rooms == old(rooms) - {room.key}
      requires forall key :: key in old(rooms) && old(rooms)[key] != room ==>
        old(rooms)[key].players == old(rooms[key].players)
      requires activeChunks == |rooms|
      ensures Seats()
    {
      assert old(SeatOk(p)) && old(RoomOk(room));
      forall key | key in rooms
        ensures RoomOk(rooms[key]) && rooms[key].players != []
      {
        assert old(RoomOk(rooms[key]));
        RoomVacated(p, room, i, rooms[key]);
      }
      forall q | q in seated
        ensures SeatOk(q)
      {
        assert old(SeatOk(q));
        SeatVacated(p, room, i, q);
      }
    }

    lemma SeatIn(p: Player)
      requires Seats() && p in seated
      ensures p.room != null && p.room.key == ChunkKey(p.room.chunk) && p.room.key in rooms
      ensures rooms[p.room.key] == p.room
      ensures p.slot < |p.room.players| && p.room.players[p.slot] == p
      ensures forall j :: 0 <= j < |p.room.players| ==> p.room.players[j] in seated
      ensures activeChunks == |rooms|
    {
      assert SeatOk(p);
      assert RoomOk(p.room);
    }

    method RemovePlayerFromRoom(p: Player)
      requires Seats() && p in seated
      modifies this`rooms, this`activeChunks, this`seated, p`room, seated`slot, rooms.Values`players
      ensures Seats() && seated == old(seated) - {p} && p.room == null
      ensures forall key :: key in rooms ==> key in old(rooms) && rooms[key] == old(rooms[key])
    {
      SeatIn(p);
      hide GuardianState.Seats, GuardianState.Vacates, ChunkKey;
      var room: ChunkRoom := p.room;
      ghost var i := p.slot;
      assert room in rooms.Values && room.players[|room.players| - 1] in seated;
      Vacate(p, room.players[|room.players| - 1], room);
      SeatsVacated(p, room, i);
    }

    // -------------------------------------------------------------- the state that the fields represent

    ghost predicate Records(recs: seq<PlayerRec>)
      reads this`objs, objs`chunk, objs`localX, objs`localZ, objs`hasPose, objs`pose, objs`window, objs`hasPending
      reads objs`queued, objs`pending, objs`connected
    {
      && |objs| == |recs|
      && forall r: Ref :: r < |objs| ==> objs[r].Shows(cfg, r, recs[r])
    }

    predicate IsActivePlayer(p: Player)
      reads this`players
    {
      p.id in players && players[p.id] == p
    }

    /** What every handler but HELLO asks of the player of a socket. */
    predicate Speaks(p: Player)
      reads this`players, p`connected
    {
      p.connected && IsActivePlayer(p)
    }

    /** Exactly the players in the table stand in rooms. */
    ghost predicate Seating()
      reads this`players, this`seated, this`objs
    {
      && (forall r: Ref :: r < |objs| ==> objs[r].ref == r)
      && (forall r: Ref :: r < |objs| ==> (objs[r] in seated <==> IsActivePlayer(objs[r])))
      && (forall p :: p in seated ==> Known(p))
    }

    ghost predicate Known(p: Player)
      reads this`objs
    {
      p.ref < |objs| && objs[p.ref] == p
    }

    predicate Configured() { Deployable(cfg) && offsets == AoiOffsets(cfg.aoiRadius) }

    /** The tables, lists and counters, apart from the players' own fields. */
    ghost predicate Tabled(g: State)
      reads this`players, this`retired, this`pending, this`nextId, this`tick, this`playerCount, this`moveIn
      reads this`dropped
      reads this`objs
    {
      && Table(objs, players, g.active) && Names(objs, retired, g.retired) && Names(objs, pending, g.queue)
      && nextId == g.nextId && tick == g.tick && moveIn == g.moveIn && dropped == g.dropped
      && playerCount == |players|
    }

    ghost predicate Represents(g: State)
      reads this`players, this`retired, this`pending, this`nextId, this`tick, this`playerCount, this`moveIn
      reads this`dropped
      reads this`objs, objs`chunk, objs`localX, objs`localZ, objs`hasPose, objs`pose, objs`window, objs`hasPending
      reads objs`queued, objs`pending, objs`connected
    {
      Records(g.objs) && Tabled(g)
    }

    ghost predicate Linked()
      reads this`model, this`players, this`retired, this`pending, this`nextId, this`tick, this`playerCount, this`moveIn
      reads this`dropped, this`objs, this`rooms, this`seated, this`activeChunks
      reads objs`chunk, objs`localX, objs`localZ, objs`hasPose, objs`pose, objs`window, objs`hasPending
      reads objs`queued, objs`pending, objs`connected
      reads rooms.Values, seated`room, seated`slot, seated`chunk
    {
      Configured() && Represents(model) && Seating() && Seats()
    }

    /** Between two handlers the tables are in order as well. */
    ghost predicate Valid()
      reads this`model, this`players, this`retired, this`pending, this`nextId, this`tick, this`playerCount, this`moveIn
      reads this`dropped, this`objs, this`rooms, this`seated, this`activeChunks
      reads objs`chunk, objs`localX, objs`localZ, objs`hasPose, objs`pose, objs`window, objs`hasPending
      reads objs`queued, objs`pending, objs`connected
      reads rooms.Values, seated`room, seated`slot, seated`chunk
    {
      Linked() && Good(cfg, model)
    }

    constructor (cfg: Config)
      requires Deployable(cfg)
      ensures Valid() && this.cfg == cfg && model == EMPTY
      ensures digIn == 0 && messagesOut == 0 && moveBatches == 0 && moveItems == 0
    {
      this.cfg := cfg;
      var square := BuildAoiOffsets(cfg.aoiRadius);
      offsets := square;
      players, retired, pending, nextId, tick := map[], [], [], 1, 0;
      rooms, playerCount, activeChunks := map[], 0, 0;
      moveIn, dropped, digIn, messagesOut, moveBatches, moveItems := 0, 0, 0, 0, 0, 0;
      seated, objs, model := {}, [], EMPTY;
    }

    // -------------------------------------------------------------- players come and go

    method AllocatePlayerId() returns (id: u16)
      requires nextId != 0
      modifies this`nextId
      ensures match FirstFree(players.Keys, old(nextId))
        case None => id == 0 && nextId == old(nextId)
        case Some(k) => id != 0 && id == Cyc(old(nextId), k) && nextId == Cyc(old(nextId), k + 1)
    {
      hide Cyc, WrapU16;
      ghost var start := nextId;
      var i: nat := 0;
      CycStart(start);
      while i < 65535
        invariant i <= 65535 && nextId == Cyc(start, i) != 0
        invariant forall j: nat :: j < i ==> Cyc(start, j) in players
      {
        id := nextId;
        nextId := WrapU16(nextId + 1);
        if nextId == 0 {
          nextId := 1;
        }
        CycNext(start, i);
        if id !in players {
          FoundFirst(players.Keys, start, i);
          return;
        }
        i := i + 1;
      }
      return 0;
    }

    predicate CanAcceptPlayer()
      reads this`players
    {
      |players| < cfg.maxPlayers
    }

    method Append(p: Player, ghost recs: seq<PlayerRec>, ghost rec: PlayerRec)
      requires Records(recs) && p.Shows(cfg, |recs|, rec)
      modifies this`objs
      ensures objs == old(objs) + [p] && |objs| == |recs| + 1 && Records(recs + [rec])
    {
      objs := objs + [p];
      forall r: Ref | r < |recs|
        ensures objs[r].Shows(cfg, r, recs[r])
      {
        assert old(objs[r].Shows(cfg, r, recs[r]));
      }
    }

    /** The new player in the table, not yet in a room. */
    method Enlist(h: Hello, id: u16, now: u64) returns (p: Player)
      requires Represents(model) && id !in players
      modifies this`players, this`objs, this`model, this`playerCount
      ensures fresh(p) && p.room == null && p.chunk == Chunk(h.startX, h.startZ) && p.id == id && p.ref == |old(objs)|
      ensures p.Unused(now)
      ensures objs == old(objs) + [p] && players == old(players)[id := p]
      ensures model == Enrolled(old(model), h, id, now) && Represents(model)
    {
      hide GuardianState.Records, Table, Names;
      p := new Player(cfg, |model.objs|, id, h.wallet, Chunk(h.startX, h.startZ), now);
      Append(p, model.objs, NewRec(h, id, now));
      players := players[id := p];
      playerCount := |players|;
      TableExtended(old(objs), p, id, old(players), model.active);
      NamesExtended(old(objs), p, retired, model.retired);
      NamesExtended(old(objs), p, pending, model.queue);
      model := Enrolled(model, h, id, now);
    }

    method SeatNew(p: Player)
      requires Seats() && p !in seated && Contains(cfg, p.chunk)
      modifies p`room, p`slot, this`rooms, this`activeChunks, this`seated, rooms.Values`players
      ensures Seats() && seated == old(seated) + {p}
    {
      var room := GetOrCreateRoom(p.chunk);
      AddPlayerToRoom(p, room);
    }

    twostate lemma SeatingExtended(new p: Player)
      requires old(Seating()) && p.ref == |old(objs)| && p.id !in old(players)
      requires objs == old(objs) + [p] && players == old(players)[p.id := p] && seated == old(seated) + {p}
      ensures Seating()
    {
      forall r: Ref | r < |objs|
        ensures objs[r] in seated <==> IsActivePlayer(objs[r])
      {
        assert r < |old(objs)| ==> objs[r] == old(objs)[r];
      }
      forall q | q in seated
        ensures Known(q)
      {
        assert q != p ==> old(Known(q));
      }
    }

    /** Under a free id: the table first, then the seat in the room of the first chunk. */
    method Admit(h: Hello, id: u16, now: u64) returns (p: Player)
      requires Linked() && id !in players && Contains(cfg, Chunk(h.startX, h.startZ))
      modifies this`players, this`objs, this`model, this`playerCount
      modifies this`rooms, this`activeChunks, this`seated, rooms.Values`players
      ensures Linked() && model == Enrolled(old(model), h, id, now)
      ensures fresh(p) && objs == old(objs) + [p] && p.ref == |old(objs)| && p.Unused(now)
    {
      hide Contains, Enrolled, GuardianState.Configured, GuardianState.Represents, GuardianState.Seats,
        GuardianState.Seating;
      p := Enlist(h, id, now);
      assert Seats();
      SeatNew(p);
      assert Represents(model);
      SeatingExtended(p);
    }

    /** The id that the loop finds, in terms of the represented state. */
    method TakeId() returns (id: u16)
      requires Linked() && nextId != 0
      modifies this`nextId, this`model
      ensures Linked() && model == old(model).(nextId := nextId)
      ensures match FirstFree(old(model).active.Keys, old(model).nextId)
        case None => id == 0 && model == old(model)
        case Some(k) =>
          id != 0 && id !in players && id == Cyc(old(model).nextId, k) && nextId == Cyc(old(model).nextId, k + 1)
    {
      hide GuardianState.Configured, GuardianState.Seats, GuardianState.Seating, GuardianState.Records, Table, Names,
        Cyc;
      TableKeys(objs, players, model.active);
      id := AllocatePlayerId();
      assert Records(model.objs) && Seats() && Seating();
      model := model.(nextId := nextId);
    }

    method CreatePlayer(h: Hello, now: u64) returns (p: Player?)
      requires Linked() && nextId != 0
      modifies this`players, this`objs, this`model, this`nextId, this`playerCount
      modifies this`rooms, this`activeChunks, this`seated, rooms.Values`players
      ensures Linked()
      ensures match Create(cfg, old(model), h, now)
        case None => p == null && model == old(model) && objs == old(objs)
        case Some(g) =>
          && p != null && model == g && fresh(p) && objs == old(objs) + [p] && p.ref == |old(objs)|
          && p.Unused(now)
    {
      hide Create, Contains, CanAccept, GuardianState.Configured, GuardianState.Seats, GuardianState.Seating,
        GuardianState.Records, Table, Names, Cyc, Enrolled;
      TableSize(objs, players, model.active);
      Creates(cfg, model, h, now);
      if !CanAcceptPlayer() || !Contains(cfg, Chunk(h.startX, h.startZ)) {
        return null;
      }
      var id := TakeId();
      if id == 0 {
        return null;
      }
      p := Admit(h, id, now);
    }

    // -------------------------------------------------------------- one record changes

    /** All records but the one of p are as listed. */
    ghost predicate OtherRecords(p: Player, recs: seq<PlayerRec>)
      reads this`objs, objs`chunk, objs`localX, objs`localZ, objs`hasPose, objs`pose, objs`window, objs`hasPending
      reads objs`queued, objs`pending, objs`connected
    {
      |objs| == |recs| && forall r: Ref :: r < |objs| && r != p.ref ==> objs[r].Shows(cfg, r, recs[r])
    }

    lemma RecordPut(p: Player, recs: seq<PlayerRec>, rec: PlayerRec)
      requires Known(p) && OtherRecords(p, recs) && p.Shows(cfg, p.ref, rec)
      ensures Records(recs[p.ref := rec])
    {
    }

    lemma RepresentsPut(p: Player, g: State, rec: PlayerRec)
      requires Known(p) && OtherRecords(p, g.objs) && p.Shows(cfg, p.ref, rec) && Tabled(g)
      ensures Represents(Put(g, p.ref, rec))
    {
      RecordPut(p, g.objs, rec);
    }

    method Unplug(p: Player)
      requires Represents(model) && Known(p)
      modifies p`connected, this`model
      ensures Represents(model)
      ensures model == Unplugged(old(model), p.ref)
    {
      hide GuardianState.Tabled;
      ghost var rec := model.objs[p.ref].(connected := false);
      p.connected := false;
      assert OtherRecords(p, model.objs);
      RepresentsPut(p, model, rec);
      model := Put(model, p.ref, rec);
    }

    twostate lemma SeatingShrunk(new p: Player)
      requires old(allocated(p)) && old(Seating()) && p in old(seated)
      requires objs == old(objs) && players == old(players) - {p.id} && seated == old(seated) - {p}
      ensures Seating()
    {
      assert old(Known(p));
      forall r: Ref | r < |objs|
        ensures objs[r] in seated <==> IsActivePlayer(objs[r])
      {
        assert objs[r] in old(seated) <==> old(IsActivePlayer(objs[r]));
      }
      forall q | q in seated
        ensures Known(q)
      {
        assert old(Known(q));
      }
    }

    method UnlistTable(p: Player)
      requires Tabled(model) && Known(p) && p.ref < |model.objs| && model.objs[p.ref].id == p.id
      modifies this`players, this`playerCount, this`model
      ensures Tabled(model) && model == Unlisted(old(model), p.ref) && players == old(players) - {p.id}
    {
      hide Unlisted, Table, Names;
      UnlistedIs(model, p.ref, p.id);
      TableShrunk(objs, p.id, players, model.active);
      SetTable(players - {p.id});
      assert Table(objs, players, Unlisted(model, p.ref).active);
      model := Unlisted(model, p.ref);
    }

    method Unlist(p: Player)
      requires Represents(model) && Known(p)
      modifies this`players, this`playerCount, this`model
      ensures Represents(model) && model == Unlisted(old(model), p.ref) && players == old(players) - {p.id}
    {
      hide Unlisted, GuardianState.Tabled, GuardianState.Records;
      RecordId(p, model.objs);
      UnlistedIs(model, p.ref, p.id);
      UnlistTable(p);
    }

    method SetTable(players': map<u16, Player>)
      modifies this`players, this`playerCount
      ensures players == players' && playerCount == |players|
    {
      players := players';
      playerCount := |players|;
    }

    /** Out of the room, then out of the table. */
    method RemovePlayer(p: Player)
      requires Linked() && p in seated
      modifies this`players, this`playerCount, this`model
      modifies this`rooms, this`activeChunks, this`seated, p`room, seated`slot, rooms.Values`players
      ensures Linked() && seated == old(seated) - {p} && model == Unlisted(old(model), p.ref)
    {
      hide GuardianState.Configured, GuardianState.Represents, GuardianState.Seats, GuardianState.Seating;
      assert Known(p) by {
        SeatKnown(p);
      }
      RemovePlayerFromRoom(p);
      assert Represents(model);
      Unlist(p);
      assert Seats();
      SeatingShrunk(p);
    }

    lemma SeatKnown(p: Player)
      requires Seating() && p in seated
      ensures Known(p) && IsActivePlayer(p)
    {
    }

    /** What the close handler does to an active player: the flag, then the removal. */
    method Disconnect(p: Player)
      requires Valid() && p in seated
      modifies p`connected, this`players, this`playerCount, this`model
      modifies this`rooms, this`activeChunks, this`seated, p`room, seated`slot, rooms.Values`players
      ensures Valid() && model == Session.Disconnect(old(model), p.ref)
    {
      hide GuardianState.Configured, GuardianState.Represents, GuardianState.Seats, GuardianState.Seating, Good,
        IsActive, Session.Disconnect;
      SeatKnown(p);
      RecordOf(p);
      DisconnectKeeps(cfg, model, p.ref);
      RetireIs(model, p.ref);
      Unplug(p);
      RemovePlayer(p);
    }

    lemma RecordId(p: Player, recs: seq<PlayerRec>)
      requires Known(p) && Records(recs)
      ensures p.ref < |recs| && recs[p.ref].id == p.id
    {
    }

    method PushRetired(p: Player)
      requires Represents(model) && Known(p)
      modifies this`retired, this`model
      ensures Represents(model) && model == old(model).(retired := old(model).retired + [p.ref])
    {
      hide GuardianState.Records, Table, Names;
      NamesPushed(objs, p, retired, model.retired);
      retired := retired + [p];
      model := model.(retired := model.retired + [p.ref]);
    }

    /** A player leaves the table and its room but is kept until its socket closes. */
    method Retire(p: Player)
      requires Linked() && p in seated
      modifies this`players, this`playerCount, this`retired, this`model, p`connected
      modifies this`rooms, this`activeChunks, this`seated, p`room, seated`slot, rooms.Values`players
      ensures Linked() && model == Session.Retire(old(model), p.ref)
      ensures players == old(players) - {p.id} && seated == old(seated) - {p}
      ensures forall key :: key in rooms ==> key in old(rooms) && rooms[key] == old(rooms[key])
    {
      hide GuardianState.Configured, GuardianState.Represents, GuardianState.Seats, GuardianState.Seating,
        Session.Retire;
      SeatKnown(p);
      RemovePlayerFromRoom(p);
      assert Represents(model);
      Unplug(p);
      Unlist(p);
      PushRetired(p);
      assert Seats();
      SeatingShrunk(p);
      RetireIs(old(model), p.ref);
    }

    lemma RecordOf(p: Player)
      requires Linked() && IsActivePlayer(p)
      ensures p in seated && Known(p) && p.ref < |model.objs| && model.objs[p.ref] == p.Rec() && IsActive(model, p.ref)
    {
    }

    lemma PlayerIsActive(id: u16)
      requires Linked() && TableOk(model) && id in players
      ensures players[id].id == id && IsActivePlayer(players[id])
    {
      hide GuardianState.Seating, GuardianState.Seats;
      var r := model.active[id];
      assert objs[r].Shows(cfg, r, model.objs[r]);
    }

    lemma ActiveRef(r: Ref)
      requires Linked() && IsActive(model, r)
      ensures r < |objs| && IsActivePlayer(objs[r]) && objs[r].ref == r && objs[r].wallet == At(model, r).wallet
    {
      hide GuardianState.Seating, GuardianState.Seats;
      assert objs[r].Shows(cfg, r, model.objs[r]);
    }

    lemma NoHolder(wallet: Wallet)
      requires Linked() && Good(cfg, model)
      requires forall id :: id in players ==> players[id].wallet != wallet
      ensures HolderOf(model, wallet).None?
    {
      hide GuardianState.Linked;
      forall r: Ref
        ensures !Holds(model, wallet, r)
      {
        if Holds(model, wallet, r) {
          ActiveRef(r);
          assert false;
        }
      }
    }

    lemma OneHolder(wallet: Wallet, p: Player)
      requires Linked() && TableOk(model) && WalletsOk(model) && IsActivePlayer(p) && p.wallet == wallet
      ensures HolderOf(model, wallet) == Some(p.ref)
      ensures forall id :: id in players && id != p.id ==> players[id].wallet != wallet
    {
      hide GuardianState.Linked;
      RecordOf(p);
      assert Holds(model, wallet, p.ref);
      HolderUnique(model, wallet, p.ref);
      forall id | id in players && id != p.id
        ensures players[id].wallet != wallet
      {
        var q := players[id];
        PlayerIsActive(id);
        RecordOf(q);
        assert objs[q.ref] == q && q.ref != p.ref;
        assert !Holds(model, wallet, q.ref);
      }
    }

    /** Nobody with this wallet among the players visited so far, or the one holder retired and announced. */
    ghost predicate Searched(g: State, wallet: Wallet, todo: set<u16>, notices: seq<Notice>)
      reads this`players, players.Values, this`model
    {
      if notices == [] then
        model == g && forall id :: id in players && id !in todo ==> players[id].wallet != wallet
      else
        && HolderOf(g, wallet).Some?
        && var r := HolderOf(g, wallet).value;
        && model == Session.Retire(g, r) && notices == [Notice(At(g, r).chunk, LeaveOf(cfg, At(g, r), 3))]
        && forall id :: id in players ==> players[id].wallet != wallet
    }

    /** One turn of the loop over the table. */
    method Visit(ghost g: State, wallet: Wallet, ghost todo: set<u16>, id: u16, before: seq<Notice>)
      returns (notices: seq<Notice>)
      requires Linked() && Good(cfg, model) && id in todo && todo <= players.Keys && Searched(g, wallet, todo, before)
      modifies this`players, this`playerCount, this`retired, this`model, seated`connected
      modifies this`rooms, this`activeChunks, this`seated, seated`room, seated`slot, rooms.Values`players
      ensures Linked() && Good(cfg, model) && todo - {id} <= players.Keys && Searched(g, wallet, todo - {id}, notices)
      ensures seated <= old(seated) && forall key :: key in rooms ==> key in old(rooms) && rooms[key] == old(rooms[key])
    {
      hide GuardianState.Linked, Session.Retire, Good;
      var p := players[id];
      notices := before;
      if p.wallet == wallet {
        notices := notices + [Notice(p.chunk, LeaveOf(cfg, p.Rec(), 3))];
        Found(g, wallet, id);
        Retire(p);
      }
    }

    /** Retires whoever has this wallet; the notices say where and what to announce. */
    method RetirePlayersWithWallet(wallet: Wallet) returns (notices: seq<Notice>)
      requires Valid()
      modifies this`players, this`playerCount, this`retired, this`model, seated`connected
      modifies this`rooms, this`activeChunks, this`seated, seated`room, seated`slot, rooms.Values`players
      ensures Valid() && forall key :: key in rooms ==> key in old(rooms) && rooms[key] == old(rooms[key])
      ensures WalletEmpty(wallet) ==> notices == [] && model == old(model)
      ensures !WalletEmpty(wallet) ==>
        match HolderOf(old(model), wallet)
        case None => notices == [] && model == old(model)
        case Some(r) =>
          && notices == [Notice(At(old(model), r).chunk, LeaveOf(cfg, At(old(model), r), 3))]
          && model == Session.Retire(old(model), r)
    {
      hide GuardianState.Linked, Session.Retire, Good, LeaveOf, At, WalletEmpty;
      notices := [];
      if WalletEmpty(wallet) {
        return;
      }
      ghost var g := model;
      var todo := players.Keys;
      while todo != {}
        invariant Linked() && Good(cfg, model) && todo <= players.Keys && objs == old(objs)
        invariant seated <= old(seated) && forall key :: key in rooms ==>
          key in old(rooms) && rooms[key] == old(rooms[key])
        invariant Searched(g, wallet, todo, notices)
        decreases |todo|
      {
        var id :| id in todo;
        notices := Visit(g, wallet, todo, id, notices);
        todo := todo - {id};
      }
      if notices == [] {
        NoHolder(wallet);
      }
    }

    lemma Found(g: State, wallet: Wallet, id: u16)
      requires Linked() && Good(cfg, model) && model == g && id in players && players[id].wallet == wallet
      ensures var p := players[id];
        && p in seated && p.id == id && HolderOf(g, wallet) == Some(p.ref) && p.Rec() == At(g, p.ref)
        && Good(cfg, Session.Retire(g, p.ref))
        && forall id' :: id' in players && id' != id ==> players[id'].wallet != wallet
    {
      hide GuardianState.Linked;
      PlayerIsActive(id);
      RecordOf(players[id]);
      OneHolder(wallet, players[id]);
      DisconnectKeeps(cfg, g, players[id].ref);
    }

    lemma RefsAre()
      requires Seating()
      ensures forall r: Ref :: r < |objs| ==> objs[r].ref == r
    {
    }

    method ReleaseRetiredPlayer(p: Player)
      requires Linked() && Known(p)
      modifies this`retired, this`model
      ensures Linked() && model == Release(old(model), p.ref)
    {
      hide GuardianState.Configured, GuardianState.Records, Table, Names, GuardianState.Seats, GuardianState.Seating,
        Release;
      var i := 0;
      while i < |retired| && retired[i] != p
        invariant 0 <= i <= |retired| && p !in retired[..i]
      {
        i := i + 1;
      }
      RefsAre();
      Released(objs, p, retired, model, i);
      ReleaseIs(model, p.ref);
      if i < |retired| {
        retired := retired[..i] + retired[i + 1..];
      }
      model := Release(model, p.ref);
    }

    // -------------------------------------------------------------- moves

    twostate lemma SeatingSame()
      requires old(Seating()) && objs == old(objs) && players == old(players) && seated == old(seated)
      ensures Seating()
    {
      forall p | p in seated
        ensures Known(p)
      {
        assert old(Known(p));
      }
    }

    method SetChunk(p: Player, chunk: Chunk)
      requires Represents(model) && Known(p)
      modifies p`chunk, p`localX, p`localZ, this`model
      ensures Represents(model) && model == Rechunked(old(model), p.ref, chunk) && p.chunk == chunk
    {
      hide GuardianState.Tabled, ToLocalX, ToLocalZ;
      ghost var rec := model.objs[p.ref].(chunk := chunk);
      p.chunk := chunk;
      p.localX := ToLocalX(cfg, chunk.x);
      p.localZ := ToLocalZ(cfg, chunk.z);
      assert OtherRecords(p, model.objs);
      RepresentsPut(p, model, rec);
      model := Put(model, p.ref, rec);
    }

    /** Leaves the old room and takes a seat in the new one; a chunk that is not served is refused. */
    method MovePlayerChunk(p: Player, chunk: Chunk) returns (ok: bool)
      requires Linked() && p in seated
      modifies this`model, p`chunk, p`localX, p`localZ, p`slot
      modifies this`rooms, this`activeChunks, this`seated, p`room, seated`slot, rooms.Values`players
      ensures Linked() && seated == old(seated)
      ensures ok <==> Contains(cfg, chunk)
      ensures model == if ok then Rechunked(old(model), p.ref, chunk) else old(model)
    {
      hide GuardianState.Configured, GuardianState.Represents, GuardianState.Seats, GuardianState.Seating, Contains,
        Rechunked;
      if !Contains(cfg, chunk) {
        return false;
      }
      SeatKnown(p);
      if p.chunk == chunk {
        SameChunk(p, chunk);
        return true;
      }
      RemovePlayerFromRoom(p);
      Reseat(p, chunk);
      SeatingSame();
      return true;
    }

    method Reseat(p: Player, chunk: Chunk)
      requires Represents(model) && Known(p) && Seats() && p !in seated && Contains(cfg, chunk)
      modifies this`model, p`chunk, p`localX, p`localZ, p`room, p`slot
      modifies this`rooms, this`activeChunks, this`seated, rooms.Values`players
      ensures Represents(model) && Seats() && seated == old(seated) + {p}
      ensures model == Rechunked(old(model), p.ref, chunk)
    {
      hide GuardianState.Represents, GuardianState.Seats, Contains, Rechunked;
      SetChunk(p, chunk);
      SeatNew(p);
    }

    lemma SameChunk(p: Player, chunk: Chunk)
      requires Represents(model) && Known(p) && p.chunk == chunk
      ensures Rechunked(model, p.ref, chunk) == model
    {
    }

    method SetWindow(p: Player, window: Window)
      requires Represents(model) && Known(p)
      modifies p`window, this`model
      ensures Represents(model)
      ensures model == Put(old(model), p.ref, At(old(model), p.ref).(moveWindow := window))
    {
      hide GuardianState.Tabled, ToLocalX, ToLocalZ;
      ghost var rec := At(model, p.ref).(moveWindow := window);
      p.window := window;
      assert OtherRecords(p, model.objs);
      RepresentsPut(p, model, rec);
      model := Put(model, p.ref, rec);
    }

    /** The rate limiter of a player. */
    method AllowMove(p: Player, now: u64) returns (allowed: bool)
      requires Linked() && Known(p)
      modifies p`window, this`model
      ensures Linked() && allowed == Allows(now, At(old(model), p.ref).moveWindow, cfg.moveLimit)
      ensures model == Limited(cfg, old(model), p.ref, now)
    {
      hide GuardianState.Configured, GuardianState.Represents, GuardianState.Seats, GuardianState.Seating, Allows,
        Next, ToLocalX, ToLocalZ;
      RecordIs(p);
      var window;
      allowed, window := Allow(now, p.window, cfg.moveLimit);
      SetWindow(p, window);
    }

    method CountMove()
      requires Linked()
      modifies this`moveIn, this`model
      ensures Linked() && model == old(model).(moveIn := old(model).moveIn + 1)
    {
      hide GuardianState.Configured, GuardianState.Records, GuardianState.Seats, GuardianState.Seating, Table, Names;
      moveIn := moveIn + 1;
      model := model.(moveIn := model.moveIn + 1);
    }

    /** The fields of the player that a move sets. */
    method SetMove(p: Player, pose: Pose)
      requires Represents(model) && Known(p)
      modifies p`hasPose, p`pose, p`pending, p`hasPending, p`queued, this`model
      ensures Represents(model) && p.queued && p.hasPose && p.pose == pose && p.hasPending && p.pending.pose == pose
      ensures model == Put(old(model), p.ref, MovedRec(cfg, At(old(model), p.ref), pose))
    {
      hide GuardianState.Tabled, ToLocalX, ToLocalZ;
      ghost var rec := MovedRec(cfg, model.objs[p.ref], pose);
      p.pose := pose;
      p.hasPose := true;
      p.pending := MoveItem(p.id, p.localX, p.localZ, p.pose);
      p.hasPending := true;
      p.queued := true;
      assert OtherRecords(p, model.objs);
      RepresentsPut(p, model, rec);
      model := Put(model, p.ref, rec);
    }

    method PushPending(p: Player)
      requires Represents(model) && Known(p)
      modifies this`pending, this`model
      ensures Represents(model) && model == old(model).(queue := old(model).queue + [p.ref])
    {
      hide GuardianState.Records, Table, Names;
      NamesPushed(objs, p, pending, model.queue);
      pending := pending + [p];
      model := model.(queue := model.queue + [p.ref]);
    }

    /** The latest move waits in the queue; an earlier one that still waits is dropped. */
    method UpdatePlayerMove(p: Player, pose: Pose)
      requires Linked() && Known(p)
      modifies this`pending, this`dropped, this`model, p`hasPose, p`pose, p`pending, p`hasPending, p`queued
      ensures Linked() && model == Updated(cfg, old(model), p.ref, pose)
      ensures p.queued && p.hasPose && p.pose == pose && p.hasPending && p.pending.pose == pose
    {
      hide GuardianState.Configured, GuardianState.Represents, GuardianState.Seats, GuardianState.Seating, Updated;
      var again := p.queued;
      UpdatedIs(cfg, model, p.ref, pose);
      RecordIs(p);
      SetMove(p, pose);
      if again {
        CountDropped();
      } else {
        PushPending(p);
      }
    }

    method CountDropped()
      requires Represents(model)
      modifies this`dropped, this`model
      ensures Represents(model) && model == old(model).(dropped := old(model).dropped + 1)
    {
      hide GuardianState.Records, Table, Names;
      dropped := dropped + 1;
      model := model.(dropped := model.dropped + 1);
    }

    lemma RecordIs(p: Player)
      requires Represents(model) && Known(p)
      ensures p.Shows(cfg, p.ref, At(model, p.ref))
    {
    }

    // -------------------------------------------------------------- fan-out and flush

    method PublishToAoi(chunk: Chunk, frame: Frame, except: Option<Sid>) returns (pubs: seq<Publication>)
      requires Configured()
      modifies this`messagesOut
      ensures pubs == AoiPubs(cfg, chunk, frame, except) && messagesOut == old(messagesOut) + |AoiTopics(cfg, chunk)|
    {
      hide Contains, Shift, LocalIndex, AoiOffsets;
      pubs := [];
      var i := 0;
      while i < |offsets|
        invariant 0 <= i <= |offsets| && messagesOut == old(messagesOut) + |pubs|
        invariant pubs == Everywhere(TopicsOf(cfg, chunk, offsets[..i]), frame, except)
      {
        var c := Shift(chunk, offsets[i]);
        TopicsGrow(cfg, chunk, offsets, i);
        if Contains(cfg, c) {
          EverywhereGrows(TopicsOf(cfg, chunk, offsets[..i]), LocalIndex(cfg, c), frame, except);
          pubs := pubs + [Publication(LocalIndex(cfg, c), frame, except)];
          messagesOut := messagesOut + 1;
        }
        i := i + 1;
      }
      assert offsets[..i] == offsets;
      EverywhereSize(AoiTopics(cfg, chunk), frame, except);
    }

    /** A pending move joins the batch of every topic around its player. */
    method BatchFor(chunk: Chunk, item: MoveItem, before: Batches<MoveItem>) returns (batches: Batches<MoveItem>)
      requires Configured() && Contains(cfg, chunk)
      ensures AddedTo(before, batches, item, AoiTopics(cfg, chunk))
      ensures NoneEmpty(before) ==> NoneEmpty(batches)
    {
      hide Contains, Shift, LocalIndex, AoiOffsets, Deployable, Got, AddedTo, NoneEmpty, TopicsOf;
      assert offsets[..0] == [];
      NothingAdded(cfg, chunk, before, item);
      batches := before;
      var i := 0;
      while i < |offsets|
        invariant 0 <= i <= |offsets|
        invariant AddedTo(before, batches, item, TopicsOf(cfg, chunk, offsets[..i]))
        invariant NoneEmpty(before) ==> NoneEmpty(batches)
      {
        var c := Shift(chunk, offsets[i]);
        TopicsGrow(cfg, chunk, offsets, i);
        if Contains(cfg, c) {
          var t := LocalIndex(cfg, c);
          assert offsets[..i] + [offsets[i]] == offsets[..i + 1];
          TopicFresh(cfg, chunk, offsets[..i], offsets[i]);
          AddStep(before, batches, item, TopicsOf(cfg, chunk, offsets[..i]), t);
          batches := batches[t := Got(batches, t) + [item]];
        }
        i := i + 1;
      }
      assert offsets[..i] == offsets;
    }

    /** Between two turns of the drain: the records of the players visited are cleared, their moves batched. */
    ghost predicate Drained(g: State, done: seq<Ref>, batches: Batches<MoveItem>)
      reads this`objs, objs`chunk, objs`localX, objs`localZ, objs`hasPose, objs`pose, objs`window, objs`hasPending
      reads objs`queued, objs`pending, objs`connected
    {
      Records(ClearedAt(g.objs, done)) && Holding(cfg, g, done, batches)
    }

    method ClearMove(p: Player, ghost recs: seq<PlayerRec>)
      requires Records(recs) && Known(p)
      modifies p`hasPending, p`queued
      ensures Records(recs[p.ref := recs[p.ref].(hasPending := false, queued := false)])
    {
      hide ToLocalX, ToLocalZ;
      p.hasPending := false;
      p.queued := false;
      assert OtherRecords(p, recs);
    }

    lemma RecordShown(p: Player, recs: seq<PlayerRec>)
      requires Records(recs) && Known(p)
      ensures p.ref < |recs| && p.Rec() == recs[p.ref]
    {
    }

    /** One turn: a player that is connected and has a move gives it to its topics and is cleared. */
    method DrainOne(p: Player, ghost g: State, ghost done: seq<Ref>, before: Batches<MoveItem>)
      returns (batches: Batches<MoveItem>)
      requires Configured() && ChunksOk(cfg, g)
      requires Drained(g, done, before) && Known(p) && p.ref < |g.objs| && p.ref !in done
      modifies p`hasPending, p`queued
      ensures Drained(g, done + [p.ref], batches)
    {
      hide GuardianState.Configured, GuardianState.Records, AoiTopics, TopicItems, Holding, AddedTo, Contains,
        ClearedAt, At;
      ghost var recs, r := ClearedAt(g.objs, done), p.ref;
      ClearedMore(g.objs, done, r);
      RecordShown(p, recs);
      ServedAt(cfg, g, r);
      batches := before;
      if p.connected && p.hasPending {
        batches := BatchFor(p.chunk, p.pending, batches);
        ClearMove(p, recs);
      } else {
        assert recs[r := recs[r]] == recs;
      }
      HoldingMore(cfg, g, done, r, before, batches);
    }

    method DrainQueue() returns (batches: Batches<MoveItem>)
      requires Configured() && QueueOk(cfg, model) && ChunksOk(cfg, model)
      requires Records(model.objs) && Names(objs, pending, model.queue)
      modifies objs`hasPending, objs`queued
      ensures Drained(model, model.queue, batches)
    {
      hide GuardianState.Configured, GuardianState.Drained, GuardianState.Records, ChunksOk, QueueOk, Table;
      RecordsShown(model.objs);
      batches := map[];
      NothingDrained(model);
      assert model.queue[..0] == [];
      var i := 0;
      while i < |pending|
        invariant 0 <= i <= |pending| && Drained(model, model.queue[..i], batches)
      {
        assert model.queue[..i] + [model.queue[i]] == model.queue[..i + 1];
        QueuedAt(i);
        batches := DrainOne(pending[i], model, model.queue[..i], batches);
        i := i + 1;
      }
      assert model.queue[..i] == model.queue;
    }

    lemma RecordsShown(recs: seq<PlayerRec>)
      requires Records(recs)
      ensures |objs| == |recs| && forall r: Ref :: r < |objs| ==> objs[r].ref == r
    {
    }

    lemma NothingDrained(g: State)
      requires Records(g.objs)
      ensures Drained(g, [], map[])
    {
      assert ClearedAt(g.objs, []) == g.objs;
    }

    lemma QueuedAt(i: nat)
      requires QueueOk(cfg, model) && Names(objs, pending, model.queue) && i < |pending|
      requires |objs| == |model.objs| && forall r: Ref :: r < |objs| ==> objs[r].ref == r
      ensures Known(pending[i]) && pending[i].ref == model.queue[i] < |model.objs|
      ensures model.queue[i] !in model.queue[..i]
    {
    }

    method PublishBatch(t: nat, items: seq<MoveItem>) returns (pubs: seq<Publication>)
      modifies this`messagesOut, this`moveBatches, this`moveItems
      ensures pubs == OnTopic(t, Cut(tick, items))
      ensures messagesOut == old(messagesOut) + |pubs| && moveBatches == old(moveBatches) + |pubs|
      ensures moveItems == old(moveItems) + |items|
    {
      hide Cut, OnTopic;
      assert items[0..] == items;
      pubs := [];
      var offset := 0;
      while offset < |items|
        invariant 0 <= offset <= |items|
        invariant OnTopic(t, Cut(tick, items)) == pubs + OnTopic(t, Cut(tick, items[offset..]))
        invariant messagesOut == old(messagesOut) + |pubs| && moveBatches == old(moveBatches) + |pubs|
        invariant moveItems == old(moveItems) + offset
      {
        var count := if |items| - offset < 255 then |items| - offset else 255;
        var frame := MoveBatch(tick, items[offset..offset + count]);
        CutStep(tick, t, items[offset..], count);
        assert items[offset..][..count] == items[offset..offset + count];
        assert items[offset..][count..] == items[offset + count..];
        pubs := pubs + [Publication(t, frame, None)];
        messagesOut := messagesOut + 1;
        moveBatches := moveBatches + 1;
        moveItems := moveItems + count;
        offset := offset + count;
      }
      assert items[offset..] == [];
      CutNothing(tick, t);
    }

    /** The batches go out topic by topic, in some order. */
    method PublishBatches(ghost g: State, batches: Batches<MoveItem>)
      returns (pubs: seq<Publication>, ghost order: seq<nat>)
      requires Holding(cfg, g, g.queue, batches)
      modifies this`messagesOut, this`moveBatches, this`moveItems
      ensures IsTopicOrder(cfg, g, order) && pubs == FlushPubs(cfg, g, tick, order)
      ensures messagesOut == old(messagesOut) + |pubs| && moveBatches == old(moveBatches) + |pubs|
      ensures moveItems == old(moveItems) + ItemTotal(pubs)
    {
      hide TopicItems, Cut, OnTopic, ItemTotal, Holding, IsTopicOrder, InOrder;
      pubs, order := [], [];
      NothingSent(BatchFrames(cfg, g, tick));
      var todo := batches.Keys;
      while todo != {}
        invariant todo <= batches.Keys && Sent(batches, todo, order)
        invariant pubs == InOrder(BatchFrames(cfg, g, tick), order)
        invariant messagesOut == old(messagesOut) + |pubs| && moveBatches == old(moveBatches) + |pubs|
        invariant moveItems == old(moveItems) + ItemTotal(pubs)
        decreases |todo|
      {
        var t :| t in todo;
        var more := PublishBatch(t, batches[t]);
        SendMore(cfg, g, tick, batches, order, pubs, t);
        pubs := pubs + more;
        order := order + [t];
        todo := todo - {t};
      }
      AllSent(cfg, g, batches, order);
    }

    method DrainAndTick() returns (batches: Batches<MoveItem>)
      requires Configured() && Represents(model) && QueueOk(cfg, model) && ChunksOk(cfg, model)
      modifies this`tick, this`pending, this`model, objs`hasPending, objs`queued
      ensures Represents(model) && model == Flushed(old(model)) && Holding(cfg, old(model), old(model).queue, batches)
    {
      hide GuardianState.Configured, GuardianState.Records, Table, Flushed, ChunksOk, QueueOk, Holding, ClearedAt;
      FlushedIs(model);
      tick := WrapU16(tick + 1);
      assert Records(model.objs);
      batches := DrainQueue();
      pending := [];
      model := Flushed(model);
    }

    /** The queue is empty and the tick advanced; the collected batches are still to be sent. */
    method Drain() returns (batches: Batches<MoveItem>)
      requires Valid()
      modifies this`tick, this`pending, this`model, objs`hasPending, objs`queued
      ensures Valid() && model == Flushed(old(model)) && Holding(cfg, old(model), old(model).queue, batches)
    {
      hide GuardianState.Configured, GuardianState.Represents, GuardianState.Seats, GuardianState.Seating, Flushed,
        TableOk, WalletsOk, ChunksOk, RetiredOk, QueueOk, Holding;
      FlushedKeeps(cfg, model);
      batches := DrainAndTick();
    }

    /** Every pending move goes to every topic in range of its player, in frames of at most 255. */
    method FlushPendingMoves() returns (pubs: seq<Publication>, ghost order: seq<nat>)
      requires Valid()
      modifies this`tick, this`pending, this`model, this`messagesOut, this`moveBatches, this`moveItems
      modifies objs`hasPending, objs`queued
      ensures Valid() && model == Flushed(old(model))
      ensures IsTopicOrder(cfg, old(model), order)
      ensures pubs == FlushPubs(cfg, old(model), WrapU16(old(model).tick + 1), order)
      ensures messagesOut == old(messagesOut) + |pubs| && moveBatches == old(moveBatches) + |pubs|
      ensures moveItems == old(moveItems) + ItemTotal(pubs)
    {
      hide GuardianState.Linked, Good, FlushPubs, IsTopicOrder, Holding, ItemTotal;
      ghost var g := model;
      var batches := Drain();
      TickIs();
      pubs, order := PublishBatches(g, batches);
    }

    lemma TickIs()
      requires Linked()
      ensures tick == model.tick
    {
    }

    // -------------------------------------------------------------- snapshots

    /** A player that a snapshot for the viewer lists if it is in range. */
    ghost predicate Wanted(viewer: Player, kind: Kind, p: Player)
      reads this`seated, p`hasPose, p`hasEquipment, p`hasIdentity
    {
      p in seated && Passes(viewer, kind, p)
    }

    predicate Passes(viewer: Player, kind: Kind, p: Player)
      reads p`hasPose, p`hasEquipment, p`hasIdentity
    {
      && p.hasPose && (kind == Equipped ==> p.hasEquipment) && (kind == Identified ==> p.hasIdentity)
      && (cfg.echoSelf || p != viewer)
    }

    /** The players of a list that a snapshot takes. */
    function Passed(viewer: Player, kind: Kind, list: seq<Player>): (got: seq<Player>)
      reads list`hasPose, list`hasEquipment, list`hasIdentity
    {
      if list == [] then []
      else
        var last := list[|list| - 1];
        Passed(viewer, kind, list[..|list| - 1]) + if Passes(viewer, kind, last) then [last] else []
    }

    lemma {:induction false} PassedIs(viewer: Player, kind: Kind, list: seq<Player>)
      requires NoDup(list)
      ensures NoDup(Passed(viewer, kind, list))
      ensures forall i :: 0 <= i < |Passed(viewer, kind, list)| ==>
        Passed(viewer, kind, list)[i] in list && Passes(viewer, kind, Passed(viewer, kind, list)[i])
      ensures forall i :: 0 <= i < |list| && Passes(viewer, kind, list[i]) ==> list[i] in Passed(viewer, kind, list)
    {
      if list != [] {
        var before, last := list[..|list| - 1], list[|list| - 1];
        PassedIs(viewer, kind, before);
        assert list == before + [last] && last !in before;
      }
    }

    lemma PassedMore(viewer: Player, kind: Kind, list: seq<Player>, j: nat)
      requires j < |list|
      ensures Passed(viewer, kind, list[..j + 1])
           == var before := Passed(viewer, kind, list[..j]);
              if Passes(viewer, kind, list[j]) then before + [list[j]] else before
    {
      assert list[..j + 1][..j] == list[..j];
    }

    /** The seated players of a chunk are those of its room. */
    lemma RoomHoldsChunk(c: Chunk, p: Player)
      requires Seats() && p in seated
      ensures p.chunk == c <==> ChunkKey(c) in rooms && p in rooms[ChunkKey(c)].players
      ensures Contains(cfg, p.chunk)
    {
      assert SeatOk(p);
      assert RoomOk(rooms[p.room.key]);
      if ChunkKey(c) in rooms {
        assert RoomOk(rooms[ChunkKey(c)]);
      }
      ChunkKeyInjective(p.chunk, c);
    }

    lemma RoomDistinct(key: u64)
      requires Seats() && key in rooms
      ensures NoDup(rooms[key].players)
      ensures forall i :: 0 <= i < |rooms[key].players| ==> rooms[key].players[i] in seated
    {
      assert RoomOk(rooms[key]);
    }

    /** The list so far: each wanted player of the chunks visited, once. */
    ghost predicate Gathered(viewer: Player, kind: Kind, visited: seq<Offset>, order: seq<Player>)
      reads this`seated, viewer`chunk, seated`chunk, seated`hasPose, seated`hasEquipment, seated`hasIdentity
    {
      && NoDup(order)
      && (forall p :: p in order ==> p in seated && Wanted(viewer, kind, p) && InSight(viewer.chunk, p.chunk, visited))
      && (forall p :: p in seated && Wanted(viewer, kind, p) && InSight(viewer.chunk, p.chunk, visited) ==> p in order)
    }

    /** What the room at one offset holds. */
    ghost predicate AtOffset(viewer: Player, kind: Kind, o: Offset, got: seq<Player>)
      reads this`seated, viewer`chunk, seated`chunk, seated`hasPose, seated`hasEquipment, seated`hasIdentity
    {
      && NoDup(got)
      && (forall p :: p in got ==> p in seated && Wanted(viewer, kind, p) && Stands(viewer.chunk, p.chunk, o))
      && (forall p :: p in seated && Wanted(viewer, kind, p) && Stands(viewer.chunk, p.chunk, o) ==> p in got)
    }

    lemma GatheredMore(viewer: Player, kind: Kind, visited: seq<Offset>, o: Offset, order: seq<Player>,
                       got: seq<Player>)
      requires Gathered(viewer, kind, visited, order) && AtOffset(viewer, kind, o, got) && o !in visited
      ensures Gathered(viewer, kind, visited + [o], order + got)
    {
      forall p: Player
        ensures InSight(viewer.chunk, p.chunk, visited + [o])
           <==> InSight(viewer.chunk, p.chunk, visited) || Stands(viewer.chunk, p.chunk, o)
        ensures !(InSight(viewer.chunk, p.chunk, visited) && Stands(viewer.chunk, p.chunk, o))
      {
        SightMore(viewer.chunk, p.chunk, visited, o);
      }
      NoDupConcat(order, got);
    }

    /** The players that the room at offset o gives, if there is one. */
    function Around(viewer: Player, o: Offset): seq<Player>
      reads this`rooms, rooms.Values`players, viewer`chunk
    {
      var c := Shift(viewer.chunk, o);
      if Contains(cfg, c) && ChunkKey(c) in rooms then rooms[ChunkKey(c)].players else []
    }

    lemma AroundIs(viewer: Player, kind: Kind, o: Offset)
      requires Configured() && Seats() && Contains(cfg, viewer.chunk) && o in offsets
      ensures AtOffset(viewer, kind, o, Passed(viewer, kind, Around(viewer, o)))
    {
      hide GuardianState.Seats, ChunkKey, Contains, Shift, Stands, GuardianState.Passes;
      var c, list := Shift(viewer.chunk, o), Around(viewer, o);
      if Contains(cfg, c) && ChunkKey(c) in rooms {
        RoomDistinct(ChunkKey(c));
      }
      PassedIs(viewer, kind, list);
      assert forall i :: 0 <= i < |list| ==> list[i] in seated;
      forall p | p in seated
        ensures Stands(viewer.chunk, p.chunk, o) <==> p in list
      {
        RoomHoldsChunk(c, p);
        ShiftStands(cfg, offsets, viewer.chunk, p.chunk, o);
      }
    }

    method TakeRoom(viewer: Player, kind: Kind, room: ChunkRoom, before: seq<Player>) returns (order: seq<Player>)
      ensures order == before + Passed(viewer, kind, room.players)
    {
      hide GuardianState.Passes;
      order := before;
      var j := 0;
      while j < |room.players|
        invariant 0 <= j <= |room.players| && order == before + Passed(viewer, kind, room.players[..j])
      {
        PassedMore(viewer, kind, room.players, j);
        if Passes(viewer, kind, room.players[j]) {
          order := order + [room.players[j]];
        }
        j := j + 1;
      }
      assert room.players[..j] == room.players;
    }

    /** One turn of the loop over the offsets. */
    method CollectAt(viewer: Player, kind: Kind, ghost visited: seq<Offset>, o: Offset, before: seq<Player>)
      returns (order: seq<Player>)
      requires Configured() && Seats() && Contains(cfg, viewer.chunk) && o in offsets && o !in visited
      requires Gathered(viewer, kind, visited, before)
      ensures Gathered(viewer, kind, visited + [o], order)
    {
      hide GuardianState.Configured, GuardianState.Seats, GuardianState.Gathered, GuardianState.AtOffset,
        GuardianState.Wanted, Contains, Shift, ChunkKey;
      ghost var list := Around(viewer, o);
      AroundIs(viewer, kind, o);
      GatheredMore(viewer, kind, visited, o, before, Passed(viewer, kind, list));
      var c := Shift(viewer.chunk, o);
      if Contains(cfg, c) && ChunkKey(c) in rooms {
        order := TakeRoom(viewer, kind, rooms[ChunkKey(c)], before);
      } else {
        order := before;
        assert order == before + Passed(viewer, kind, []);
      }
    }

    method CollectAll(viewer: Player, kind: Kind) returns (order: seq<Player>)
      requires Configured() && Seats() && Contains(cfg, viewer.chunk)
      ensures Gathered(viewer, kind, offsets, order)
    {
      OffsetsAre();
      hide GuardianState.Configured, GuardianState.Seats, GuardianState.Gathered, GuardianState.Wanted, Contains,
        NoDup, ListsSquare;
      order := [];
      NothingGathered(viewer, kind);
      assert offsets[..0] == [];
      var i := 0;
      while i < |offsets|
        invariant 0 <= i <= |offsets| && Gathered(viewer, kind, offsets[..i], order)
      {
        VisitNext(offsets, i);
        order := CollectAt(viewer, kind, offsets[..i], offsets[i], order);
        i := i + 1;
      }
      assert offsets[..i] == offsets;
    }

    /** The players in range with a pose (and equipment, or an identity), each once, without the viewer unless it
        echoes. */
    method CollectSnapshot(viewer: Player, kind: Kind) returns (order: seq<Player>)
      requires Configured() && Seats() && Contains(cfg, viewer.chunk)
      ensures NoDup(order)
      ensures forall p :: p in order <==>
        && p in seated && p.hasPose && (kind == Equipped ==> p.hasEquipment) && (kind == Identified ==> p.hasIdentity)
        && (cfg.echoSelf || p != viewer) && Near(cfg, viewer.chunk, p.chunk)
    {
      hide GuardianState.Configured, GuardianState.Seats, GuardianState.Gathered, GuardianState.Wanted, Contains,
        Near, NoDup;
      order := CollectAll(viewer, kind);
      AllGathered(viewer, kind, order);
    }

    lemma NothingGathered(viewer: Player, kind: Kind)
      ensures Gathered(viewer, kind, [], [])
    {
    }

    lemma OffsetsAre()
      requires Configured()
      ensures NoDup(offsets) && ListsSquare(cfg.aoiRadius, offsets)
    {
      AoiOffsetsExact(cfg.aoiRadius);
    }

    lemma AllGathered(viewer: Player, kind: Kind, order: seq<Player>)
      requires Configured() && Gathered(viewer, kind, offsets, order)
      ensures NoDup(order)
      ensures forall p :: p in order <==>
        && p in seated && p.hasPose && (kind == Equipped ==> p.hasEquipment) && (kind == Identified ==> p.hasIdentity)
        && (cfg.echoSelf || p != viewer) && Near(cfg, viewer.chunk, p.chunk)
    {
      OffsetsAre();
      forall p: Player
        ensures InSight(viewer.chunk, p.chunk, offsets) <==> Near(cfg, viewer.chunk, p.chunk)
      {
      }
    }

    function MakeJoin(p: Player): Frame
      reads p`localX, p`localZ, p`pose
    {
      Join(PlayerJoin(p.id, cfg.ownerHash(p.wallet), cfg.fingerprint(p.wallet), p.wallet, p.localX, p.localZ, p.pose))
    }

    /** The players of a snapshot with their names. */
    method CollectOrder(viewer: Player) returns (order: seq<Player>)
      requires Valid() && IsActivePlayer(viewer)
      ensures IsCollected(cfg, model, viewer.ref, RefsOf(order))
      ensures forall i :: 0 <= i < |order| ==> order[i] in seated
    {
      hide GuardianState.Linked, Good, Contains, Near, NoDup, IsCollected;
      ActiveChunk(viewer);
      order := CollectSnapshot(viewer, Joining);
      CollectedRefs(viewer, order);
    }

    /** The JOIN frames of a snapshot. */
    method CollectJoins(viewer: Player) returns (frames: seq<Frame>)
      requires Valid() && IsActivePlayer(viewer)
      ensures exists refs :: IsCollected(cfg, model, viewer.ref, refs) && frames == Joins(cfg, model, refs)
    {
      hide GuardianState.Linked, Good, GuardianState.MakeJoin, Joins, JoinOf, IsCollected;
      var order := CollectOrder(viewer);
      ghost var refs := RefsOf(order);
      frames := [];
      JoinsNone(cfg, model);
      assert refs[..0] == [];
      var i := 0;
      while i < |order|
        invariant 0 <= i <= |order| && frames == Joins(cfg, model, refs[..i])
      {
        JoinsMore(cfg, model, refs, i);
        MadeJoin(order[i]);
        frames := frames + [MakeJoin(order[i])];
        i := i + 1;
      }
      assert refs[..i] == refs;
    }

    lemma ActiveChunk(p: Player)
      requires Valid() && IsActivePlayer(p)
      ensures Configured() && Seats() && p in seated && Contains(cfg, p.chunk)
    {
      RecordOf(p);
      RoomHoldsChunk(p.chunk, p);
    }

    lemma MadeJoin(p: Player)
      requires Linked() && p in seated
      ensures MakeJoin(p) == JoinOf(cfg, At(model, p.ref))
    {
      hide GuardianState.Seats, GuardianState.Tabled;
      SeatKnown(p);
      RecordIs(p);
    }

    lemma CollectedRefs(viewer: Player, order: seq<Player>)
      requires Valid() && IsActivePlayer(viewer) && NoDup(order)
      requires forall p :: p in order <==> p in seated && Wanted(viewer, Joining, p) && Near(cfg, viewer.chunk, p.chunk)
      ensures IsCollected(cfg, model, viewer.ref, RefsOf(order))
      ensures forall i :: 0 <= i < |order| ==> order[i] in seated
    {
      hide GuardianState.Linked, Near;
      var refs := RefsOf(order);
      RecordOf(viewer);
      forall i, j | 0 <= i < j < |order|
        ensures refs[i] != refs[j]
      {
        RefsApart(order[i], order[j]);
      }
      forall q: Ref
        ensures q in refs <==> Collects(cfg, model, viewer.ref, q)
      {
        if q in refs {
          var i :| 0 <= i < |refs| && refs[i] == q;
          CollectedOne(viewer, order[i]);
        } else if Collects(cfg, model, viewer.ref, q) {
          CollectedBack(viewer, q, order);
        }
      }
    }

    lemma RefsApart(p: Player, q: Player)
      requires Linked() && p in seated && q in seated && p != q
      ensures p.ref != q.ref
    {
      SeatKnown(p);
      SeatKnown(q);
    }

    lemma CollectedOne(viewer: Player, p: Player)
      requires Valid() && IsActivePlayer(viewer)
      requires p in seated && Wanted(viewer, Joining, p) && Near(cfg, viewer.chunk, p.chunk)
      ensures Collects(cfg, model, viewer.ref, p.ref)
    {
      hide Near;
      SeatKnown(p);
      RecordOf(p);
      RecordOf(viewer);
      ActiveIsConnected(model, p.ref);
    }

    lemma CollectedBack(viewer: Player, q: Ref, order: seq<Player>)
      requires Valid() && IsActivePlayer(viewer) && Collects(cfg, model, viewer.ref, q)
      requires forall p :: p in order <==> p in seated && Wanted(viewer, Joining, p) && Near(cfg, viewer.chunk, p.chunk)
      ensures q in RefsOf(order)
    {
      hide Near, TableOk, WalletsOk, ChunksOk, RetiredOk, QueueOk, GuardianState.Linked;
      ActiveIsConnected(model, q);
      ActiveRef(q);
      RecordOf(objs[q]);
      RecordOf(viewer);
      assert objs[q] in order;
      var i :| 0 <= i < |order| && order[i] == objs[q];
      assert RefsOf(order)[i] == q;
    }

    // -------------------------------------------------------------- facts for the handlers

    lemma NextIdOk()
      requires Valid()
      ensures nextId != 0
    {
    }

    lemma RoomLeft()
      requires Valid()
      ensures CanAcceptPlayer() <==> CanAccept(cfg, model)
    {
      TableSize(objs, players, model.active);
    }

    lemma ActiveParts(p: Player)
      requires Linked() && IsActivePlayer(p)
      ensures Configured() && p in seated && Known(p) && p.Rec() == At(model, p.ref) && p.ref < |model.objs|
      ensures IsActive(model, p.ref)
    {
      RecordOf(p);
    }

    lemma PointerActive(p: Player)
      requires Valid() && Known(p)
      ensures Speaks(p) <==> IsActive(model, p.ref)
      ensures IsActivePlayer(p) <==> IsActive(model, p.ref)
    {
      hide GuardianState.Seats, Good;
      RecordIs(p);
      GoodTable(cfg, model);
      ActiveIsConnected(model, p.ref);
      if IsActivePlayer(p) {
        RecordOf(p);
      } else if IsActive(model, p.ref) {
        ActiveRef(p.ref);
      }
    }

    lemma ObjsCount()
      requires Linked()
      ensures |objs| == |model.objs|
    {
    }

    lemma NewestActive(p: Player)
      requires Linked() && Known(p) && IsActive(model, p.ref)
      ensures IsActivePlayer(p)
    {
      ActiveRef(p.ref);
    }

    /** The topic of the room of an active player is the index of its chunk. */
    lemma TopicOf(p: Player)
      requires Linked() && IsActivePlayer(p)
      ensures p.room != null && p.room.index == LocalIndex(cfg, At(model, p.ref).chunk) && Known(p)
      ensures p.Rec() == At(model, p.ref)
    {
      RecordOf(p);
      SeatIn(p);
      assert RoomOk(p.room);
    }

    // -------------------------------------------------------------- sizes

    /** The players in the rooms under the given keys, counted room by room. */
    ghost function RoomSizes(keys: set<u64>): nat
      requires keys <= rooms.Keys
      reads this`rooms, rooms.Values`players
    {
      if keys == {} then 0 else var key :| key in keys; |rooms[key].players| + RoomSizes(keys - {key})
    }

    ghost function SeatedIn(keys: set<u64>): set<Player>
      reads this`seated, seated`chunk
    {
      set p | p in seated && ChunkKey(p.chunk) in keys
    }

    lemma OneRoom(key: u64)
      requires Seats() && key in rooms
      ensures |SeatedIn({key})| == |rooms[key].players|
    {
      hide ChunkKey;
      var list := rooms[key].players;
      assert RoomOk(rooms[key]);
      RoomDistinct(key);
      DistinctCount(list);
      forall p | p in seated
        ensures ChunkKey(p.chunk) == key <==> p in list
      {
        RoomHoldsChunk(rooms[key].chunk, p);
        ChunkKeyInjective(p.chunk, rooms[key].chunk);
      }
      assert SeatedIn({key}) == set p | p in list;
    }

    lemma {:induction false} SizesAddUp(keys: set<u64>)
      requires Seats() && keys <= rooms.Keys
      ensures RoomSizes(keys) == |SeatedIn(keys)|
    {
      hide ChunkKey, GuardianState.Seats;
      if keys == {} {
        assert SeatedIn(keys) == {};
      } else {
        var key :| key in keys && RoomSizes(keys) == |rooms[key].players| + RoomSizes(keys - {key});
        OneRoom(key);
        SizesAddUp(keys - {key});
        assert SeatedIn(keys) == SeatedIn({key}) + SeatedIn(keys - {key});
        assert SeatedIn({key}) !! SeatedIn(keys - {key});
      }
    }

    lemma AllSeatedIn()
      requires Seats()
      ensures SeatedIn(rooms.Keys) == seated
    {
      forall p | p in seated
        ensures ChunkKey(p.chunk) in rooms
      {
        RoomHoldsChunk(p.chunk, p);
      }
    }

    /** The table and the rooms hold the same players, so the sizes agree; no player, no room. */
    lemma RoomsHoldEveryone()
      requires Valid()
      ensures RoomSizes(rooms.Keys) == |players| == playerCount && activeChunks == |rooms|
      ensures players == map[] ==> rooms == map[]
    {
      hide Good;
      SizesAddUp(rooms.Keys);
      AllSeatedIn();
      SeatedCount();
      if key :| key in rooms {
        var p := rooms[key].players[0];
        assert RoomOk(rooms[key]);
        assert p in seated;
        SeatKnown(p);
      }
    }

    lemma NobodyLeft()
      requires Valid() && model.active == map[] && model.retired == []
      ensures players == map[] && retired == [] && rooms == map[]
    {
      hide GuardianState.Seating, GuardianState.Seats, GuardianState.Records, Good;
      RoomsHoldEveryone();
    }

    lemma SeatedCount()
      requires Valid()
      ensures |seated| == |players|
    {
      hide GuardianState.Seats, GuardianState.Represents, GuardianState.Linked;
      var ids := set p | p in seated :: p.id;
      forall id | id in players
        ensures players[id].id == id && players[id] in seated
      {
        PlayerIsActive(id);
        RecordOf(players[id]);
      }
      forall p | p in seated
        ensures p.id in players && players[p.id] == p
      {
        SeatedActive(p);
      }
      ImageCount(seated, players);
    }

    lemma SeatedActive(p: Player)
      requires Linked() && p in seated
      ensures IsActivePlayer(p)
    {
      SeatKnown(p);
    }
  }

  lemma NoDupConcat<T>(a: seq<T>, b: seq<T>)
    requires NoDup(a) && NoDup(b) && forall x :: x in a ==> x !in b
    ensures NoDup(a + b)
  {
    forall i, j | 0 <= i < j < |a + b|
      ensures (a + b)[i] != (a + b)[j]
    {
      if i < |a| <= j {
        assert a[i] in a && b[j - |a|] in b;
      }
    }
  }

  lemma VisitNext(offsets: seq<Offset>, i: nat)
    requires NoDup(offsets) && i < |offsets|
    ensures offsets[..i] + [offsets[i]] == offsets[..i + 1] && offsets[i] !in offsets[..i] && offsets[i] in offsets
  {
  }

  /** d lies at offset o from c. */
  predicate Stands(c: Chunk, d: Chunk, o: Offset) { d.x - c.x == o.dx && d.z - c.z == o.dz }

  ghost predicate InSight(c: Chunk, d: Chunk, visited: seq<Offset>) { Listed(visited, d.x - c.x, d.z - c.z) }

  lemma SightMore(c: Chunk, d: Chunk, visited: seq<Offset>, o: Offset)
    requires o !in visited
    ensures InSight(c, d, visited + [o]) <==> InSight(c, d, visited) || Stands(c, d, o)
    ensures !(InSight(c, d, visited) && Stands(c, d, o))
  {
  }

  lemma ShiftStands(cfg: Config, offsets: seq<Offset>, c: Chunk, d: Chunk, o: Offset)
    requires Deployable(cfg) && offsets == AoiOffsets(cfg.aoiRadius) && Contains(cfg, c) && o in offsets
    ensures Stands(c, d, o) <==> d == Shift(c, o)
  {
    RowsList(cfg.aoiRadius, Side(cfg.aoiRadius));
    ShiftInRange(cfg, c, o);
  }

  ghost function RefsOf(order: seq<Player>): (refs: seq<Ref>)
    ensures |refs| == |order| && forall i :: 0 <= i < |order| ==> refs[i] == order[i].ref
  {
    seq(|order|, i requires 0 <= i < |order| => order[i].ref)
  }

  /** The brute-force test for the snapshot of r: an active player with a pose, in range; r itself only with echo. */
  predicate Collects(cfg: Config, g: State, r: Ref, q: Ref) {
    && q < |g.objs| && g.objs[q].connected && g.objs[q].hasPose && Near(cfg, At(g, r).chunk, g.objs[q].chunk)
    && (cfg.echoSelf || q != r)
  }

  ghost predicate IsCollected(cfg: Config, g: State, r: Ref, order: seq<Ref>) {
    NoDup(order) && forall q :: q in order <==> Collects(cfg, g, r, q)
  }

  /** For a viewer that has no pose yet, that is the abstract snapshot, whatever the echo setting. */
  lemma CollectedIsSnapshot(cfg: Config, g: State, r: Ref, order: seq<Ref>)
    requires IsCollected(cfg, g, r, order) && (cfg.echoSelf ==> !At(g, r).hasPose)
    ensures IsSnapshot(cfg, g, r, order)
  {
  }

  lemma JoinsNone(cfg: Config, g: State)
    ensures Joins(cfg, g, []) == []
  {
  }

  lemma JoinsMore(cfg: Config, g: State, refs: seq<Ref>, i: nat)
    requires i < |refs|
    ensures Joins(cfg, g, refs[..i + 1]) == Joins(cfg, g, refs[..i]) + [JoinOf(cfg, At(g, refs[i]))]
  {
    assert refs[..i + 1][..i] == refs[..i];
  }

  lemma {:induction false} DistinctCount<T>(list: seq<T>)
    requires NoDup(list)
    ensures |set x | x in list| == |list|
  {
    if list != [] {
      var before, last := list[..|list| - 1], list[|list| - 1];
      DistinctCount(before);
      assert list == before + [last] && last !in before;
      assert (set x | x in list) == (set x | x in before) + {last};
    }
  }

  /** A set of players and a table that holds each of them under its own id have the same size. */
  lemma {:induction false} ImageCount(s: set<Player>, players: map<u16, Player>)
    requires forall p :: p in s ==> p.id in players && players[p.id] == p
    requires forall id :: id in players ==> players[id] in s && players[id].id == id
    ensures |s| == |players|
    decreases s
  {
    if s == {} {
      assert players == map[];
    } else {
      var p :| p in s;
      ImageCount(s - {p}, players - {p.id});
      assert players.Keys == (players - {p.id}).Keys + {p.id};
      assert |players| == |players.Keys| && |players - {p.id}| == |(players - {p.id}).Keys|;
    }
  }

  lemma GoodTable(cfg: Config, g: State)
    requires Good(cfg, g)
    ensures TableOk(g)
  {
  }

  /** The last element moves to place i. */
  function Vacated<T>(s: seq<T>, i: nat): seq<T>
    requires i < |s|
  {
    s[i := s[|s| - 1]][..|s| - 1]
  }
}
