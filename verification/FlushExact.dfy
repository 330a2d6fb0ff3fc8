/** Down to the bytes: what a flush puts on each topic. */
module FlushExact {
  import opened Ints
  import opened Chunks
  import opened Wire
  import opened Session
  import opened Tables
  import opened Delivery
  import opened Theorems

  /** Connected players of the queue whose area of interest contains d, in queue order. */
  function QueuedNear(cfg: Config, g: State, queue: seq<Ref>, d: Chunk): seq<Ref> {
    if queue == [] then []
    else
      var r := queue[|queue| - 1];
      QueuedNear(cfg, g, queue[..|queue| - 1], d)
      + if At(g, r).connected && Near(cfg, At(g, r).chunk, d) then [r] else []
  }

  lemma {:induction false} QueuedNearOnce(cfg: Config, g: State, queue: seq<Ref>, d: Chunk)
    requires NoDup(queue)
    ensures NoDup(QueuedNear(cfg, g, queue, d))
    ensures forall r: Ref ::
      r in QueuedNear(cfg, g, queue, d) <==> r in queue && At(g, r).connected && Near(cfg, At(g, r).chunk, d)
  {
    if queue != [] {
      var before, last := queue[..|queue| - 1], queue[|queue| - 1];
      QueuedNearOnce(cfg, g, before, d);
      assert queue == before + [last] && last !in before;
    }
  }

  /** The moves of the given players as they are now. */
  function CurrentMoves(cfg: Config, g: State, refs: seq<Ref>): seq<MoveItem> {
    seq(|refs|, i requires 0 <= i < |refs| => ItemOf(cfg, At(g, refs[i])))
  }

  lemma QueuedMove(cfg: Config, g: State, r: Ref)
    requires QueueOk(cfg, g) && r in g.queue && At(g, r).connected
    ensures r < |g.objs| && Flushable(At(g, r)) && At(g, r).pending == ItemOf(cfg, At(g, r))
  {
    assert FlagsOk(cfg, g, r);
  }

  lemma {:induction false} ItemsAreMoves(cfg: Config, g: State, queue: seq<Ref>, d: Chunk)
    requires Deployable(cfg) && QueueOk(cfg, g) && ChunksOk(cfg, g) && Contains(cfg, d)
    requires forall r :: r in queue ==> r in g.queue
    ensures TopicItems(cfg, g, queue, LocalIndex(cfg, d)) == CurrentMoves(cfg, g, QueuedNear(cfg, g, queue, d))
  {
    if queue != [] {
      var before, r := queue[..|queue| - 1], queue[|queue| - 1];
      assert queue == before + [r] && r in queue;
      assert forall q :: q in before ==> q in queue;
      ItemsAreMoves(cfg, g, before, d);
      OneMove(cfg, g, r, d);
    }
  }

  lemma OneMove(cfg: Config, g: State, r: Ref, d: Chunk)
    requires Deployable(cfg) && QueueOk(cfg, g) && ChunksOk(cfg, g) && Contains(cfg, d) && r in g.queue
    ensures Flushable(At(g, r)) && LocalIndex(cfg, d) in AoiTopics(cfg, At(g, r).chunk)
       <==> At(g, r).connected && Near(cfg, At(g, r).chunk, d)
    ensures At(g, r).connected ==> At(g, r).pending == ItemOf(cfg, At(g, r))
  {
    if At(g, r).connected {
      QueuedMove(cfg, g, r);
      AoiTopicsExact(cfg, g.objs[r].chunk);
    }
  }

  lemma QueueOnce(cfg: Config, g: State)
    requires QueueOk(cfg, g)
    ensures NoDup(g.queue)
  {
  }

  lemma GoodOfRun(cfg: Config, events: seq<Event>, w: World)
    requires Deployable(cfg) && Run(cfg, START, events, w)
    ensures QueueOk(cfg, w.g) && ChunksOk(cfg, w.g)
  {
    EveryRun(cfg, events, w);
  }

  /** In every run, what the next flush puts on the topic of a served chunk, whatever the order of topics, is for any
      socket on that topic, once parsed: the current chunk and pose of each queued connected player in range, each once,
      in queue order, 1 to 255 to a frame. */
  lemma FlushIsExact(cfg: Config, events: seq<Event>, w: World, order: seq<nat>, d: Chunk, s: Sid)
    requires Deployable(cfg) && Run(cfg, START, events, w) && IsTopicOrder(cfg, w.g, order) && Contains(cfg, d)
    ensures var pubs := FlushPubs(cfg, w.g, WrapU16(w.g.tick + 1), order);
      var frames := Received({LocalIndex(cfg, d)}, s, pubs);
      var refs := QueuedNear(cfg, w.g, w.g.queue, d);
      && Step(cfg, w, Flush(order)).hub == Deliver(w.hub, pubs)
      && Parsed(Payloads(frames)) == frames
      && ItemsOf(frames) == CurrentMoves(cfg, w.g, refs)
      && (forall f :: f in frames ==> f.MoveBatch? && f.tick == WrapU16(w.g.tick + 1) && 1 <= |f.items| <= 255)
      && NoDup(refs)
      && (forall r: Ref :: r in refs <==> r in w.g.queue && At(w.g, r).connected && Near(cfg, At(w.g, r).chunk, d))
  {
    hide Run, Deployable, Contains, Received, FlushPubs, TopicItems, Cut, Near, IsTopicOrder, QueueOk, ChunksOk,
      LocalIndex, QueuedNear, CurrentMoves, ItemsOf, Parsed, Payloads, WrapU16;
    var tick, t := WrapU16(w.g.tick + 1), LocalIndex(cfg, d);
    GoodOfRun(cfg, events, w);
    ReceivedFlush(cfg, w.g, tick, order, t, s);
    var items := TopicItems(cfg, w.g, w.g.queue, t);
    QueueOnce(cfg, w.g);
    ItemsAreMoves(cfg, w.g, w.g.queue, d);
    QueuedNearOnce(cfg, w.g, w.g.queue, d);
    CutExact(tick, items);
    WireFaithful(Cut(tick, items));
  }
}
