/** Fan-out and batching loops: what they have built after each turn. */
module Batching {
  import opened Ints
  import opened Chunks
  import opened Wire
  import opened Session
  import opened Tables

  /** Items by topic, as the flush collects them. */
  type Batches<T> = map<nat, seq<T>>

  function Got<T>(batches: Batches<T>, t: nat): seq<T> { if t in batches then batches[t] else [] }

  ghost predicate NoneEmpty<T>(batches: Batches<T>) { forall t :: t in batches ==> batches[t] != [] }

  ghost predicate AddedTo<T>(before: Batches<T>, batches: Batches<T>, item: T, topics: seq<nat>) {
    forall t: nat :: Got(batches, t) == Got(before, t) + if t in topics then [item] else []
  }

  /** The batches hold what the abstract flush has for each topic after some of the queue. */
  ghost predicate Holding(cfg: Config, g: State, done: seq<Ref>, batches: Batches<MoveItem>) {
    NoneEmpty(batches) && forall t: nat :: Got(batches, t) == TopicItems(cfg, g, done, t)
  }

  lemma HoldingMore(cfg: Config, g: State, done: seq<Ref>, r: Ref, before: Batches<MoveItem>,
                    batches: Batches<MoveItem>)
    requires Holding(cfg, g, done, before) && r < |g.objs|
    requires if Flushable(g.objs[r]) then AddedTo(before, batches, g.objs[r].pending, AoiTopics(cfg, g.objs[r].chunk))
             else batches == before
    requires NoneEmpty(before) ==> NoneEmpty(batches)
    ensures Holding(cfg, g, done + [r], batches)
  {
    hide AoiTopics;
    assert (done + [r])[..|done|] == done;
    forall t: nat
      ensures Got(batches, t) == TopicItems(cfg, g, done + [r], t)
    {
      assert Got(before, t) == TopicItems(cfg, g, done, t);
    }
  }

  lemma ServedAt(cfg: Config, g: State, r: Ref)
    requires ChunksOk(cfg, g) && r < |g.objs|
    ensures Contains(cfg, g.objs[r].chunk)
  {
  }

  lemma {:induction false} OnTopicConcat(t: nat, a: seq<Frame>, b: seq<Frame>)
    ensures OnTopic(t, a + b) == OnTopic(t, a) + OnTopic(t, b)
  {
    if b == [] {
      assert a + b == a;
    } else {
      OnTopicConcat(t, a, b[..|b| - 1]);
      assert (a + b)[..|a + b| - 1] == a + b[..|b| - 1];
    }
  }

  lemma CutNothing(tick: u16, t: nat)
    ensures OnTopic(t, Cut(tick, [])) == []
  {
  }

  lemma CutStep(tick: u16, t: nat, items: seq<MoveItem>, count: nat)
    requires items != [] && count == if |items| < 255 then |items| else 255
    ensures OnTopic(t, Cut(tick, items))
         == [Publication(t, MoveBatch(tick, items[..count]), None)] + OnTopic(t, Cut(tick, items[count..]))
  {
    var frame := MoveBatch(tick, items[..count]);
    assert items[..|items|] == items;
    assert Cut(tick, items) == [frame] + Cut(tick, items[count..]);
    OnTopicConcat(t, [frame], Cut(tick, items[count..]));
    assert [frame][..0] == [];
    assert OnTopic(t, [frame]) == [Publication(t, frame, None)];
  }

  lemma FlushedIs(g: State)
    ensures var g' := Flushed(g);
      && g'.objs == ClearedAt(g.objs, g.queue) && g'.queue == [] && g'.tick == WrapU16(g.tick + 1)
      && g'.active == g.active && g'.retired == g.retired && g'.nextId == g.nextId
      && g'.moveIn == g.moveIn && g'.dropped == g.dropped
  {
  }

  /** The number of items in the batches among the publications. */
  function ItemTotal(pubs: seq<Publication>): nat {
    if pubs == [] then 0
    else
      var frame := pubs[|pubs| - 1].frame;
      ItemTotal(pubs[..|pubs| - 1]) + if frame.MoveBatch? then |frame.items| else 0
  }

  lemma {:induction false} ItemTotalConcat(a: seq<Publication>, b: seq<Publication>)
    ensures ItemTotal(a + b) == ItemTotal(a) + ItemTotal(b)
  {
    if b == [] {
      assert a + b == a;
    } else {
      ItemTotalConcat(a, b[..|b| - 1]);
      assert (a + b)[..|a + b| - 1] == a + b[..|b| - 1];
    }
  }

  lemma {:induction false} ItemTotalOfCut(t: nat, tick: u16, items: seq<MoveItem>)
    ensures ItemTotal(OnTopic(t, Cut(tick, items))) == |items|
    decreases |items|
  {
    if items != [] {
      var count := if |items| < 255 then |items| else 255;
      var first := [Publication(t, MoveBatch(tick, items[..count]), None)];
      CutStep(tick, t, items, count);
      ItemTotalOfCut(t, tick, items[count..]);
      ItemTotalConcat(first, OnTopic(t, Cut(tick, items[count..])));
      assert first[..0] == [];
      assert ItemTotal(first) == count;
    }
  }

  /** The topics already published. */
  ghost predicate Sent(batches: Batches<MoveItem>, todo: set<nat>, order: seq<nat>) {
    NoDup(order) && forall t: nat :: t in order <==> t in batches && t !in todo
  }

  lemma NothingSent(frames: nat -> seq<Frame>)
    ensures InOrder(frames, []) == [] && ItemTotal([]) == 0
  {
  }

  lemma SendMore(cfg: Config, g: State, tick: u16, batches: Batches<MoveItem>, order: seq<nat>, pubs: seq<Publication>,
                 t: nat)
    requires Holding(cfg, g, g.queue, batches) && t in batches
    ensures InOrder(BatchFrames(cfg, g, tick), order + [t])
         == InOrder(BatchFrames(cfg, g, tick), order) + OnTopic(t, Cut(tick, batches[t]))
    ensures ItemTotal(pubs + OnTopic(t, Cut(tick, batches[t]))) == ItemTotal(pubs) + |batches[t]|
  {
    hide TopicItems;
    assert (order + [t])[..|order|] == order;
    assert Got(batches, t) == TopicItems(cfg, g, g.queue, t);
    ItemTotalOfCut(t, tick, batches[t]);
    ItemTotalConcat(pubs, OnTopic(t, Cut(tick, batches[t])));
  }

  lemma AllSent(cfg: Config, g: State, batches: Batches<MoveItem>, order: seq<nat>)
    requires Holding(cfg, g, g.queue, batches) && Sent(batches, {}, order)
    ensures IsTopicOrder(cfg, g, order)
  {
    hide TopicItems;
    forall t: nat
      ensures t in order <==> TopicItems(cfg, g, g.queue, t) != []
    {
      assert Got(batches, t) == TopicItems(cfg, g, g.queue, t);
    }
  }

  /** The records after the players named in done have been visited. */
  function ClearedAt(recs: seq<PlayerRec>, done: seq<Ref>): seq<PlayerRec> {
    seq(|recs|, i requires 0 <= i < |recs| => if i in done then Cleared(recs[i]) else recs[i])
  }

  lemma ClearedMore(recs: seq<PlayerRec>, done: seq<Ref>, r: Ref)
    requires r < |recs| && r !in done
    ensures ClearedAt(recs, done)[r] == recs[r]
    ensures ClearedAt(recs, done + [r]) == ClearedAt(recs, done)[r := Cleared(recs[r])]
  {
    forall i: nat
      ensures i in done + [r] <==> i in done || i == r
    {
    }
  }

  lemma NothingAdded<T>(cfg: Config, chunk: Chunk, before: Batches<T>, item: T)
    ensures AddedTo(before, before, item, TopicsOf(cfg, chunk, []))
  {
  }

  lemma NotYet(topics: seq<nat>, t: nat, all: seq<nat>)
    requires topics + [t] <= all && NoDup(all)
    ensures t !in topics
  {
    assert all[|topics|] == t;
    forall i | 0 <= i < |topics|
      ensures topics[i] != t
    {
      assert topics[i] == all[i];
    }
  }

  lemma AddStep<T>(before: Batches<T>, batches: Batches<T>, item: T, topics: seq<nat>, t: nat)
    requires AddedTo(before, batches, item, topics) && t !in topics
    ensures AddedTo(before, batches[t := Got(batches, t) + [item]], item, topics + [t])
    ensures NoneEmpty(batches) ==> NoneEmpty(batches[t := Got(batches, t) + [item]])
  {
    var next := batches[t := Got(batches, t) + [item]];
    forall u: nat
      ensures Got(next, u) == Got(before, u) + if u in topics + [t] then [item] else []
    {
      assert u in topics + [t] <==> u in topics || u == t;
      assert u != t ==> Got(next, u) == Got(batches, u);
      assert Got(before, u) + [] == Got(before, u);
    }
  }

  lemma TopicsGrow(cfg: Config, chunk: Chunk, offsets: seq<Offset>, i: nat)
    requires i < |offsets|
    ensures TopicsOf(cfg, chunk, offsets[..i + 1])
         == var before, c := TopicsOf(cfg, chunk, offsets[..i]), Shift(chunk, offsets[i]);
            if Contains(cfg, c) then before + [LocalIndex(cfg, c)] else before
  {
    assert offsets[..i + 1][..i] == offsets[..i];
  }

  lemma {:induction false} TopicsPrefix(cfg: Config, chunk: Chunk, offsets: seq<Offset>, i: nat)
    requires i <= |offsets|
    ensures TopicsOf(cfg, chunk, offsets[..i]) <= TopicsOf(cfg, chunk, offsets)
    decreases |offsets| - i
  {
    if i == |offsets| {
      assert offsets[..i] == offsets;
    } else {
      TopicsPrefix(cfg, chunk, offsets, i + 1);
      TopicsGrow(cfg, chunk, offsets, i);
    }
  }

  lemma {:induction false} EverywhereSize(topics: seq<nat>, f: Frame, except: Option<Sid>)
    ensures |Everywhere(topics, f, except)| == |topics|
  {
    if topics != [] {
      EverywhereSize(topics[..|topics| - 1], f, except);
    }
  }

  lemma EverywhereGrows(topics: seq<nat>, t: nat, frame: Frame, except: Option<Sid>)
    ensures Everywhere(topics + [t], frame, except)
         == Everywhere(topics, frame, except) + [Publication(t, frame, except)]
  {
    assert (topics + [t])[..|topics|] == topics;
  }

  lemma TopicsOne(cfg: Config, c: Chunk, offsets: seq<Offset>, o: Offset)
    ensures TopicsOf(cfg, c, offsets + [o])
         == var before := TopicsOf(cfg, c, offsets);
            if Contains(cfg, Shift(c, o)) then before + [LocalIndex(cfg, Shift(c, o))] else before
  {
    assert (offsets + [o])[..|offsets|] == offsets;
  }

  lemma TopicFresh(cfg: Config, c: Chunk, offsets: seq<Offset>, o: Offset)
    requires Deployable(cfg) && Contains(cfg, c) && offsets + [o] <= AoiOffsets(cfg.aoiRadius)
    requires Contains(cfg, Shift(c, o))
    ensures LocalIndex(cfg, Shift(c, o)) !in TopicsOf(cfg, c, offsets)
  {
    var all, n := AoiOffsets(cfg.aoiRadius), |offsets|;
    AoiTopicsExact(cfg, c);
    TopicsPrefix(cfg, c, all, n + 1);
    assert all[..n + 1] == offsets + [o];
    TopicsOne(cfg, c, offsets, o);
    NotYet(TopicsOf(cfg, c, offsets), LocalIndex(cfg, Shift(c, o)), AoiTopics(cfg, c));
  }
}
