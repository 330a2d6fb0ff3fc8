/** Player and room objects, and what lists and tables of pointers to them stand for (player.h, chunk.h). */
module Players {
  import opened Ints
  import opened Chunks
  import opened Wire
  import opened RateLimit
  import opened Session

  /** Where a retirement is announced, and the frame. */
  datatype Notice = Notice(chunk: Chunk, leave: Frame)

  class Player {
    ghost const ref: Ref
    const id: u16
    const wallet: Wallet
    var chunk: Chunk
    var localX: u8
    var localZ: u8
    var hasPose: bool
    var pose: Pose
    var window: Window
    var hasPending: bool
    var queued: bool
    var pending: MoveItem
    var connected: bool
    var digWindow: Window
    var hasDigSeq: bool
    var lastDigSeq: u16
    var hasEquipment: bool
    var hasIdentity: bool
    var room: ChunkRoom?
    var slot: nat

    constructor (cfg: Config, ghost ref: Ref, id: u16, wallet: Wallet, chunk: Chunk, now: u64)
      ensures this.ref == ref && this.id == id && this.wallet == wallet && room == null && slot == 0
      ensures localX == ToLocalX(cfg, chunk.x) && localZ == ToLocalZ(cfg, chunk.z)
      ensures Rec() == NOWHERE.(id := id, wallet := wallet, chunk := chunk, moveWindow := Window(now, 0),
                                connected := true)
      ensures Unused(now)
    {
      this.ref, this.id, this.wallet, this.chunk := ref, id, wallet, chunk;
      localX, localZ := ToLocalX(cfg, chunk.x), ToLocalZ(cfg, chunk.z);
      hasPose, pose, window := false, Pose(0, 0, 0, 0, 0), Window(now, 0);
      hasPending, queued, pending := false, false, MoveItem(0, 0, 0, Pose(0, 0, 0, 0, 0));
      connected, room, slot := true, null, 0;
      digWindow, hasDigSeq, lastDigSeq, hasEquipment, hasIdentity := Window(now, 0), false, 0, false, false;
    }

    function Rec(): PlayerRec
      reads this`chunk, this`hasPose, this`pose, this`window, this`hasPending, this`queued, this`pending, this`connected
    {
      PlayerRec(id, wallet, chunk, hasPose, pose, window, hasPending, queued, pending, connected)
    }

    /** The fields beside the record, as a new player has them: no dig yet, no equipment, no identity. */
    predicate Unused(now: u64)
      reads this`digWindow, this`hasDigSeq, this`lastDigSeq, this`hasEquipment, this`hasIdentity
    {
      digWindow == Window(now, 0) && !hasDigSeq && lastDigSeq == 0 && !hasEquipment && !hasIdentity
    }

    /** The object is the r-th ever created and its fields hold the given record. */
    ghost predicate Shows(cfg: Config, r: Ref, rec: PlayerRec)
      reads this`chunk, this`localX, this`localZ, this`hasPose, this`pose, this`window, this`hasPending, this`queued
      reads this`pending, this`connected
    {
      ref == r && Rec() == rec && localX == ToLocalX(cfg, chunk.x) && localZ == ToLocalZ(cfg, chunk.z)
    }
  }

  /** The three snapshots of a HELLO: poses, equipment, identities. */
  datatype Kind = Joining | Equipped | Identified

  class ChunkRoom {
    ghost const key: u64
    const chunk: Chunk
    const index: nat
    var players: seq<Player>

    constructor (chunk: Chunk, index: nat)
      ensures this.chunk == chunk && this.index == index && key == ChunkKey(chunk) && players == []
    {
      this.key, this.chunk, this.index, players := ChunkKey(chunk), chunk, index, [];
    }
  }

  /** A list of pointers and the list of the names they stand for. */
  ghost predicate Names(objs: seq<Player>, list: seq<Player>, refs: seq<Ref>) {
    |list| == |refs| && forall i :: 0 <= i < |refs| ==> refs[i] < |objs| && list[i] == objs[refs[i]]
  }

  lemma NamesExtended(objs: seq<Player>, p: Player, list: seq<Player>, refs: seq<Ref>)
    requires Names(objs, list, refs)
    ensures Names(objs + [p], list, refs)
  {
  }

  /** The table of pointers and the table of the names they stand for. */
  ghost predicate Table(objs: seq<Player>, players: map<u16, Player>, active: map<u16, Ref>) {
    && players.Keys == active.Keys
    && forall id :: id in active ==> active[id] < |objs| && players[id] == objs[active[id]]
  }

  lemma NamesPushed(objs: seq<Player>, p: Player, list: seq<Player>, refs: seq<Ref>)
    requires Names(objs, list, refs) && p.ref < |objs| && objs[p.ref] == p
    ensures Names(objs, list + [p], refs + [p.ref])
  {
  }

  lemma NamesCut(objs: seq<Player>, list: seq<Player>, refs: seq<Ref>, i: nat)
    requires Names(objs, list, refs) && i < |list|
    ensures Names(objs, list[..i] + list[i + 1..], refs[..i] + refs[i + 1..])
  {
  }

  lemma {:induction false} WithoutIs(refs: seq<Ref>, r: Ref, i: nat)
    requires i <= |refs| && r !in refs[..i] && (i < |refs| ==> refs[i] == r)
    ensures Without(refs, r) == if i < |refs| then refs[..i] + refs[i + 1..] else refs
  {
    if i > 0 {
      assert refs[1..][..i - 1] == refs[..i][1..];
      assert refs[0] == refs[..i][0];
      WithoutIs(refs[1..], r, i - 1);
      if i < |refs| {
        assert [refs[0]] + (refs[1..][..i - 1] + refs[1..][i..]) == refs[..i] + refs[i + 1..];
      }
    }
  }

  lemma Released(objs: seq<Player>, p: Player, list: seq<Player>, g: State, i: nat)
    requires Names(objs, list, g.retired) && p.ref < |objs| && objs[p.ref] == p
    requires i <= |list| && p !in list[..i] && (i < |list| ==> list[i] == p)
    requires forall r: Ref :: r < |objs| ==> objs[r].ref == r
    ensures Names(objs, if i < |list| then list[..i] + list[i + 1..] else list, Release(g, p.ref).retired)
  {
    forall j | 0 <= j < i
      ensures g.retired[j] != p.ref
    {
      assert list[j] in list[..i];
    }
    WithoutIs(g.retired, p.ref, i);
    if i < |list| {
      NamesCut(objs, list, g.retired, i);
    }
  }

  lemma TableSize(objs: seq<Player>, players: map<u16, Player>, active: map<u16, Ref>)
    requires Table(objs, players, active)
    ensures |players| == |active| && players.Keys == active.Keys
  {
    assert |players| == |players.Keys| && |active| == |active.Keys|;
  }

  lemma TableKeys(objs: seq<Player>, players: map<u16, Player>, active: map<u16, Ref>)
    requires Table(objs, players, active)
    ensures players.Keys == active.Keys
  {
  }

  lemma TableShrunk(objs: seq<Player>, id: u16, players: map<u16, Player>, active: map<u16, Ref>)
    requires Table(objs, players, active)
    ensures Table(objs, players - {id}, active - {id})
  {
  }

  lemma TableExtended(objs: seq<Player>, p: Player, id: u16, players: map<u16, Player>, active: map<u16, Ref>)
    requires Table(objs, players, active)
    ensures Table(objs + [p], players[id := p], active[id := |objs|])
  {
  }
}
