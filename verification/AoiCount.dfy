/** How many topics one fan-out reaches. */
module AoiCount {
  import opened Ints
  import opened Chunks

  function Max(a: int, b: int): int { if a >= b then a else b }

  /** The number of v in [lo, lo + n) that lie within radius of center. */
  function Clipped(lo: int, n: nat, center: int, radius: nat): nat {
    Max(0, Min(lo + n - 1, center + radius) - Max(lo, center - radius) + 1)
  }

  lemma ClippedMore(lo: int, n: nat, center: int, radius: nat)
    ensures Clipped(lo, n + 1, center, radius)
         == Clipped(lo, n, center, radius) + if center - radius <= lo + n <= center + radius then 1 else 0
    ensures Clipped(lo, 0, center, radius) == 0
  {
  }

  lemma {:induction false} TopicsConcat(cfg: Config, c: Chunk, a: seq<Offset>, b: seq<Offset>)
    ensures TopicsOf(cfg, c, a + b) == TopicsOf(cfg, c, a) + TopicsOf(cfg, c, b)
  {
    if b == [] {
      assert a + b == a;
    } else {
      TopicsConcat(cfg, c, a, b[..|b| - 1]);
      assert (a + b)[..|a + b| - 1] == a + b[..|b| - 1];
    }
  }

  lemma OneTopic(cfg: Config, c: Chunk, before: seq<Offset>, o: Offset)
    ensures |TopicsOf(cfg, c, before + [o])|
         == |TopicsOf(cfg, c, before)| + if Contains(cfg, Shift(c, o)) then 1 else 0
  {
    assert (before + [o])[..|before|] == before;
  }

  lemma ShiftServed(cfg: Config, c: Chunk, o: Offset)
    requires Deployable(cfg) && Contains(cfg, c) && InSquare(cfg.aoiRadius, o.dx, o.dz)
    ensures Contains(cfg, Shift(c, o))
       <==> && cfg.center.z - cfg.serviceRadius <= c.z + o.dz <= cfg.center.z + cfg.serviceRadius
            && cfg.center.x - cfg.serviceRadius <= c.x + o.dx <= cfg.center.x + cfg.serviceRadius
  {
    ShiftInRange(cfg, c, o);
  }

  lemma RowMore(r: u8, dz: i8, n: nat)
    requires 0 < n <= Side(r) && r <= 127
    ensures Row(r, dz, n) == Row(r, dz, n - 1) + [Offset(n - 1 - r, dz)]
  {
    WrapI8Id(n - 1 - r);
    WrapI8Id(dz);
  }

  /** Of the first n offsets of a row, those are kept whose column is served, if the row is. */
  lemma {:induction false} RowCount(cfg: Config, c: Chunk, dz: i8, n: nat)
    requires Deployable(cfg) && Contains(cfg, c) && InSquare(cfg.aoiRadius, 0, dz) && n <= Side(cfg.aoiRadius)
    ensures |TopicsOf(cfg, c, Row(cfg.aoiRadius, dz, n))|
         == if cfg.center.z - cfg.serviceRadius <= c.z + dz <= cfg.center.z + cfg.serviceRadius
            then Clipped(c.x - cfg.aoiRadius, n, cfg.center.x, cfg.serviceRadius) else 0
  {
    var r := cfg.aoiRadius;
    if n == 0 {
      ClippedMore(c.x - r, 0, cfg.center.x, cfg.serviceRadius);
    } else {
      hide Clipped, Row, TopicsOf, Shift, Contains;
      var o := Offset(n - 1 - r, dz);
      RowCount(cfg, c, dz, n - 1);
      ClippedMore(c.x - r, n - 1, cfg.center.x, cfg.serviceRadius);
      RowMore(r, dz, n);
      OneTopic(cfg, c, Row(r, dz, n - 1), o);
      ShiftServed(cfg, c, o);
    }
  }

  lemma OneMoreRow(height: nat, width: nat, total: nat, served: bool, height': nat, total': nat)
    requires total == height * width
    requires height' == height + (if served then 1 else 0) && total' == total + if served then width else 0
    ensures total' == height' * width
  {
  }

  lemma {:induction false} RowsCount(cfg: Config, c: Chunk, m: nat, width: nat)
    requires Deployable(cfg) && Contains(cfg, c) && m <= Side(cfg.aoiRadius)
    requires width == Clipped(c.x - cfg.aoiRadius, Side(cfg.aoiRadius), cfg.center.x, cfg.serviceRadius)
    ensures |TopicsOf(cfg, c, Rows(cfg.aoiRadius, m))|
         == Clipped(c.z - cfg.aoiRadius, m, cfg.center.z, cfg.serviceRadius) * width
  {
    hide Clipped, TopicsOf, Row, Contains, Validated;
    var r := cfg.aoiRadius;
    if m == 0 {
      ClippedMore(c.z - r, 0, cfg.center.z, cfg.serviceRadius);
      NoTopics(cfg, c);
    } else {
      var before, row := Rows(r, m - 1), Row(r, m - 1 - r, Side(r));
      RowsCount(cfg, c, m - 1, width);
      RowCount(cfg, c, m - 1 - r, Side(r));
      TopicsConcat(cfg, c, before, row);
      ClippedMore(c.z - r, m - 1, cfg.center.z, cfg.serviceRadius);
      OneMoreRow(Clipped(c.z - r, m - 1, cfg.center.z, cfg.serviceRadius), width, |TopicsOf(cfg, c, before)|,
                 cfg.center.z - cfg.serviceRadius <= c.z + (m - 1 - r) <= cfg.center.z + cfg.serviceRadius,
                 Clipped(c.z - r, m, cfg.center.z, cfg.serviceRadius), |TopicsOf(cfg, c, before + row)|);
    }
  }

  lemma NoTopics(cfg: Config, c: Chunk)
    ensures |TopicsOf(cfg, c, [])| == 0
  {
  }

  /** A fan-out around a served chunk reaches as many topics as the clipped square has chunks: the product of its
      sides. */
  lemma FanOutCount(cfg: Config, c: Chunk)
    requires Deployable(cfg) && Contains(cfg, c)
    ensures |AoiTopics(cfg, c)|
         == Clipped(c.z - cfg.aoiRadius, Side(cfg.aoiRadius), cfg.center.z, cfg.serviceRadius)
            * Clipped(c.x - cfg.aoiRadius, Side(cfg.aoiRadius), cfg.center.x, cfg.serviceRadius)
  {
    RowsCount(cfg, c, Side(cfg.aoiRadius),
              Clipped(c.x - cfg.aoiRadius, Side(cfg.aoiRadius), cfg.center.x, cfg.serviceRadius));
  }
}
