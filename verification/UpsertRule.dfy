/** The upsert rule in blocks, slots and revisions: what is taken, and what taking it does. */
module UpsertRule {
  import opened Ints
  import opened Chunks
  import opened Records
  import opened Buildings

  // ---------------------------------------------------------------- the reference

  predicate Occupies(r: Record, x: int, z: int) {
    r.minX <= x && x <= r.minX + r.width - 1 && r.minZ <= z && z <= r.minZ + r.depth - 1
  }

  /** A later slot wins; between two records without a slot, a later revision. */
  predicate Supersedes(next: Record, previous: Record) {
    || next.slot > previous.slot
    || (next.slot == 0 && previous.slot == 0 && next.activeRevision > previous.activeRevision)
  }

  /** The block lies in the square of 100 by 100 chunks that holds the server's centre. */
  predicate InRegion(cfg: Config, x: int, z: int)
    requires cfg.chunkSize > 0
  {
    x / cfg.chunkSize / 100 == cfg.center.x / 100 && z / cfg.chunkSize / 100 == cfg.center.z / 100
  }

  /** The building stands on some block of the region. With chunks of size zero, which configurations may have, the
      region has no block, and what counts is to stand across the coordinate zero. */
  ghost predicate Reaches(cfg: Config, r: Record) {
    if cfg.chunkSize == 0 then r.minX < 0 <= r.minX + r.width - 1 && r.minZ < 0 <= r.minZ + r.depth - 1
    else exists x: int, z: int :: Occupies(r, x, z) && InRegion(cfg, x, z)
  }

  /** A live building of at least two by two blocks that reaches into the region and not past the last 32-bit
      coordinate; it has a content hash exactly if it has a revision. */
  ghost predicate Sound(cfg: Config, r: Record) {
    && r.id != 0 && r.flags == 1 && r.width >= 2 && r.depth >= 2
    && (r.activeRevision == 0 <==> forall i :: 0 <= i < 16 ==> r.contentHash[i] == 0)
    && r.minX + r.width - 1 < 0x8000_0000 && r.minZ + r.depth - 1 < 0x8000_0000
    && Reaches(cfg, r)
  }

  /** No other building stands on a block of this one. */
  ghost predicate FreeFor(store: Store, r: Record) {
    forall k, x: int, z: int :: k in store && k != r.id && Occupies(store[k], x, z) ==> !Occupies(r, x, z)
  }

  ghost predicate Takes(cfg: Config, m: Manifest, r: Record) {
    && r.id != 0
    && if r.flags == 0 then r.id in m.records && Supersedes(r, m.records[r.id])
       else
         && Sound(cfg, r) && FreeFor(m.records, r)
         && if r.id in m.records then Supersedes(r, m.records[r.id]) else |m.records| < cfg.maxBuildings
  }

  // ---------------------------------------------------------------- blocks and regions

  lemma DivAtLeast(x: int, d: int, k: int)
    requires d > 0
    ensures k <= x / d <==> k * d <= x
  {
    var q := x / d;
    assert q * d <= x < q * d + d;
    if k <= q {
      MulMonotone(k, q, d);
    } else {
      MulMonotone(q + 1, k, d);
      assert (q + 1) * d == q * d + d;
    }
  }

  lemma MulMonotone(a: int, b: int, d: int)
    requires a <= b && d >= 0
    ensures a * d <= b * d
  {
  }

  /** One axis: the interval meets the region exactly if some coordinate of it lies in the region. */
  lemma AxisMeets(lo: int, size: int, chunk: int, region: int)
    requires size >= 1 && chunk > 0
    ensures lo <= (region * 100 + 100) * chunk - 1 && lo + size - 1 >= region * 100 * chunk
       <==> exists x: int :: lo <= x <= lo + size - 1 && x / chunk / 100 == region
  {
    forall x: int
      ensures x / chunk / 100 == region <==> region * 100 * chunk <= x < (region * 100 + 100) * chunk
    {
      DivAtLeast(x, chunk, region * 100);
      DivAtLeast(x, chunk, region * 100 + 100);
    }
    if lo <= (region * 100 + 100) * chunk - 1 && lo + size - 1 >= region * 100 * chunk {
      assert (region * 100 + 100) * chunk == region * 100 * chunk + 100 * chunk;
      var x := if lo >= region * 100 * chunk then lo else region * 100 * chunk;
      assert lo <= x <= lo + size - 1 && x / chunk / 100 == region;
    }
  }

  lemma SoundIsValid(cfg: Config, r: Record)
    ensures Sound(cfg, r) <==> ValidRecord(cfg, r)
  {
    FloorDivIsFloor(cfg.center.x);
    FloorDivIsFloor(cfg.center.z);
    if r.width >= 2 && r.depth >= 2 && cfg.chunkSize > 0 {
      AxisMeets(r.minX, r.width, cfg.chunkSize, RegionX(cfg));
      AxisMeets(r.minZ, r.depth, cfg.chunkSize, RegionZ(cfg));
      MeetsBoth(cfg, r);
    }
  }

  lemma MeetsBoth(cfg: Config, r: Record)
    requires cfg.chunkSize > 0
    ensures (exists x: int, z: int :: Occupies(r, x, z) && InRegion(cfg, x, z))
       <==> && (exists x: int :: r.minX <= x <= r.minX + r.width - 1 && x / cfg.chunkSize / 100 == cfg.center.x / 100)
            && (exists z: int :: r.minZ <= z <= r.minZ + r.depth - 1 && z / cfg.chunkSize / 100 == cfg.center.z / 100)
  {
    if (exists x: int :: r.minX <= x <= r.minX + r.width - 1 && x / cfg.chunkSize / 100 == cfg.center.x / 100)
       && (exists z: int :: r.minZ <= z <= r.minZ + r.depth - 1 && z / cfg.chunkSize / 100 == cfg.center.z / 100) {
      var x: int :| r.minX <= x <= r.minX + r.width - 1 && x / cfg.chunkSize / 100 == cfg.center.x / 100;
      var z: int :| r.minZ <= z <= r.minZ + r.depth - 1 && z / cfg.chunkSize / 100 == cfg.center.z / 100;
      assert Occupies(r, x, z) && InRegion(cfg, x, z);
    }
  }

  lemma OccupiesIsCovers(a: Record, b: Record)
    requires a.width >= 1 && a.depth >= 1 && b.width >= 1 && b.depth >= 1
    ensures Overlap(a, b) <==> exists x: int, z: int :: Occupies(a, x, z) && Occupies(b, x, z)
  {
    OverlapIsSharedBlock(a, b);
    forall x: int, z: int
      ensures (Covers(a, x, z) <==> Occupies(a, x, z)) && (Covers(b, x, z) <==> Occupies(b, x, z))
    {
    }
  }

  lemma FreeIsClear(cfg: Config, store: Store, r: Record)
    requires StoreOk(cfg, store) && r.width >= 1 && r.depth >= 1
    ensures FreeFor(store, r) <==> Clear(store, r)
  {
    hide Overlap, Occupies, Covers;
    forall k | k in store
      ensures Overlap(store[k], r) <==> exists x: int, z: int :: Occupies(store[k], x, z) && Occupies(r, x, z)
    {
      OccupiesIsCovers(store[k], r);
    }
  }

  lemma TakesIsAccepts(cfg: Config, m: Manifest, r: Record)
    requires StoreOk(cfg, m.records)
    ensures Takes(cfg, m, r) <==> Accepts(cfg, m, r)
  {
    SoundIsValid(cfg, r);
    if ValidRecord(cfg, r) {
      FreeIsClear(cfg, m.records, r);
    }
    hide ValidRecord, Sound, FreeFor, Clear, StoreOk;
  }

  // ---------------------------------------------------------------- what an upsert does

  /** A record is taken exactly if it is a removal or an update that supersedes what stands under its id, or a new
      building within the limit, and if it is no removal, sound and on free ground; then it stands under its id, or
      the id is gone, nothing else changes and the revision advances; otherwise nothing changes at all. */
  lemma UpsertDoes(cfg: Config, sha: Sha, m: Manifest, r: Record)
    requires ManifestOk(cfg, sha, m)
    ensures var m' := Upsert(cfg, sha, m, r);
      if !Takes(cfg, m, r) then m' == m
      else
        && (forall k :: k != r.id ==>
              (k in m'.records <==> k in m.records) && (k in m.records ==> m'.records[k] == m.records[k]))
        && (if r.flags == 0 then r.id !in m'.records else r.id in m'.records && m'.records[r.id] == r)
        && m'.revision == if m.revision == 0xFFFF_FFFF_FFFF_FFFF then 1 else m.revision + 1
  {
    hide Takes, Accepts, StoreOk, DigestOf;
    TakesIsAccepts(cfg, m, r);
    RefusedFlags(cfg, m, r);
  }

  lemma RefusedFlags(cfg: Config, m: Manifest, r: Record)
    ensures Accepts(cfg, m, r) ==> r.flags == 0 || r.flags == 1
  {
  }

  lemma SupersedesIsNewer(a: Record, b: Record)
    ensures Supersedes(a, b) <==> Newer(a, b)
  {
  }

  /** While an id stays present its slot never falls, and as long as the slot is zero its revision rises at each
      change. */
  lemma SlotsRise(cfg: Config, sha: Sha, m: Manifest, rs: seq<Record>, id: u64)
    requires Stays(cfg, sha, m, rs, id)
    ensures id in m.records && id in Upserts(cfg, sha, m, rs).records
    ensures var first, last := m.records[id], Upserts(cfg, sha, m, rs).records[id];
      && first.slot <= last.slot
      && (last != first && last.slot == 0 ==> first.activeRevision < last.activeRevision)
      && (last != first && first.slot != 0 ==> first.slot < last.slot)
  {
    RecordsRise(cfg, sha, m, rs, id);
    SupersedesIsNewer(Upserts(cfg, sha, m, rs).records[id], m.records[id]);
    hide Newer;
  }
}
