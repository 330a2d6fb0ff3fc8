/** What one socket receives from the publications of a handler, and what a client makes of its frames. */
module Delivery {
  import opened Ints
  import opened Chunks
  import opened Wire
  import opened Session

  // ---------------------------------------------------------------- received frames

  lemma {:induction false} ReceivedConcat(subs: set<nat>, s: Sid, a: seq<Publication>, b: seq<Publication>)
    ensures Received(subs, s, a + b) == Received(subs, s, a) + Received(subs, s, b)
  {
    if b == [] {
      assert a + b == a;
    } else {
      ReceivedConcat(subs, s, a, b[..|b| - 1]);
      assert (a + b)[..|a + b| - 1] == a + b[..|b| - 1];
    }
  }

  lemma {:induction false} ReceivedNothing(s: Sid, pubs: seq<Publication>)
    ensures Received({}, s, pubs) == []
  {
    if pubs != [] {
      ReceivedNothing(s, pubs[..|pubs| - 1]);
    }
  }

  lemma ReceivedMore(subs: set<nat>, s: Sid, pubs: seq<Publication>, last: Publication)
    ensures Received(subs, s, pubs + [last])
         == Received(subs, s, pubs) + if last.topic in subs && last.except != Some(s) then [last.frame] else []
  {
    assert (pubs + [last])[..|pubs|] == pubs;
  }

  lemma EverywhereMore(topics: seq<nat>, last: nat, f: Frame, except: Option<Sid>)
    ensures Everywhere(topics + [last], f, except) == Everywhere(topics, f, except) + [Publication(last, f, except)]
  {
    assert (topics + [last])[..|topics|] == topics;
  }

  lemma {:induction false} ReceivedEverywhere(t: nat, s: Sid, topics: seq<nat>, f: Frame, except: Option<Sid>)
    requires NoDup(topics)
    ensures Received({t}, s, Everywhere(topics, f, except)) == if t in topics && except != Some(s) then [f] else []
  {
    if topics != [] {
      hide Received, Everywhere;
      var before, last := topics[..|topics| - 1], topics[|topics| - 1];
      assert topics == before + [last] && last !in before;
      ReceivedEverywhere(t, s, before, f, except);
      EverywhereMore(before, last, f, except);
      ReceivedMore({t}, s, Everywhere(before, f, except), Publication(last, f, except));
    }
  }

  lemma NearSymmetric(cfg: Config, a: Chunk, b: Chunk)
    ensures Near(cfg, a, b) <==> Near(cfg, b, a)
  {
  }

  /** A socket on the topic of chunk d gets a fan-out around c once, if d is in range and it is not excluded. */
  lemma ReceivedAoi(cfg: Config, c: Chunk, d: Chunk, s: Sid, f: Frame, except: Option<Sid>)
    requires Deployable(cfg) && Contains(cfg, c) && Contains(cfg, d)
    ensures Received({LocalIndex(cfg, d)}, s, AoiPubs(cfg, c, f, except))
         == if Near(cfg, d, c) && except != Some(s) then [f] else []
  {
    AoiTopicsExact(cfg, c);
    ReceivedEverywhere(LocalIndex(cfg, d), s, AoiTopics(cfg, c), f, except);
    NearSymmetric(cfg, c, d);
  }

  lemma OnTopicMore(topic: nat, frames: seq<Frame>, last: Frame)
    ensures OnTopic(topic, frames + [last]) == OnTopic(topic, frames) + [Publication(topic, last, None)]
  {
    assert (frames + [last])[..|frames|] == frames;
  }

  lemma ReceivedOneMore(t: nat, s: Sid, topic: nat, frames: seq<Frame>, last: Frame)
    ensures Received({t}, s, OnTopic(topic, frames + [last]))
         == Received({t}, s, OnTopic(topic, frames)) + if t == topic then [last] else []
  {
    hide Received, OnTopic;
    OnTopicMore(topic, frames, last);
    ReceivedMore({t}, s, OnTopic(topic, frames), Publication(topic, last, None));
  }

  lemma {:induction false} ReceivedOnTopic(t: nat, s: Sid, topic: nat, frames: seq<Frame>)
    ensures Received({t}, s, OnTopic(topic, frames)) == if t == topic then frames else []
  {
    if frames != [] {
      hide Received, OnTopic;
      var before, last := frames[..|frames| - 1], frames[|frames| - 1];
      ReceivedOnTopic(t, s, topic, before);
      ReceivedOneMore(t, s, topic, before, last);
      assert frames == before + [last];
    }
  }

  lemma {:induction false} ReceivedInOrder(frames: nat -> seq<Frame>, order: seq<nat>, t: nat, s: Sid)
    requires NoDup(order)
    ensures Received({t}, s, InOrder(frames, order)) == if t in order then frames(t) else []
  {
    if order != [] {
      var before, last := order[..|order| - 1], order[|order| - 1];
      assert order == before + [last] && last !in before;
      ReceivedInOrder(frames, before, t, s);
      ReceivedConcat({t}, s, InOrder(frames, before), OnTopic(last, frames(last)));
      ReceivedOnTopic(t, s, last, frames(last));
    }
  }

  /** Whatever the order in which topics are flushed, a socket on one topic gets that topic's items, in queue order. */
  lemma ReceivedFlush(cfg: Config, g: State, tick: u16, order: seq<nat>, t: nat, s: Sid)
    requires IsTopicOrder(cfg, g, order)
    ensures Received({t}, s, FlushPubs(cfg, g, tick, order)) == Cut(tick, TopicItems(cfg, g, g.queue, t))
  {
    ReceivedInOrder(BatchFrames(cfg, g, tick), order, t, s);
  }

  // ---------------------------------------------------------------- the client's picture

  datatype Owner = Owner(hash: u32, fingerprint: u64, wallet: Wallet)

  datatype Seen = Seen(owner: Owner, lx: u8, lz: u8, pose: Pose)

  /** What a client knows about the others: id to owner, last chunk and last pose. */
  type Picture = map<u16, Seen>

  function OwnerOf(cfg: Config, wallet: Wallet): Owner { Owner(cfg.ownerHash(wallet), cfg.fingerprint(wallet), wallet) }

  function SeenOf(cfg: Config, p: PlayerRec): Seen {
    Seen(OwnerOf(cfg, p.wallet), ToLocalX(cfg, p.chunk.x), ToLocalZ(cfg, p.chunk.z), p.pose)
  }

  /** An item says where the player is, and the owner stays. */
  function Placed(seen: Seen, m: MoveItem): Seen { Seen(seen.owner, m.lx, m.lz, m.pose) }

  /** A batched move updates a known player; the client's own echoed moves concern no known player. */
  function ApplyItems(v: Picture, items: seq<MoveItem>): Picture {
    if items == [] then v
    else
      var before, m := ApplyItems(v, items[..|items| - 1]), items[|items| - 1];
      if m.id in before then before[m.id := Placed(before[m.id], m)] else before
  }

  function Apply(v: Picture, f: Frame): Picture {
    match f
    case Join(j) => v[j.id := Seen(Owner(j.ownerHash, j.fingerprint, j.wallet), j.lx, j.lz, j.pose)]
    case Leave(l) => v - {l.id}
    case MoveBatch(_, items) => ApplyItems(v, items)
    case _ => v
  }

  function Fold(v: Picture, frames: seq<Frame>): Picture {
    if frames == [] then v else Apply(Fold(v, frames[..|frames| - 1]), frames[|frames| - 1])
  }

  /** The frames that say something about players. */
  function AboutPlayers(frames: seq<Frame>): seq<Frame> {
    if frames == [] then []
    else
      var before, last := AboutPlayers(frames[..|frames| - 1]), frames[|frames| - 1];
      if last.Other? || last.Error? then before else before + [last]
  }

  /** A client makes the same of its frames with all others taken out, wherever they stood. */
  lemma {:induction false} OthersUnseen(v: Picture, frames: seq<Frame>)
    ensures Fold(v, frames) == Fold(v, AboutPlayers(frames))
  {
    if frames != [] {
      OthersUnseen(v, frames[..|frames| - 1]);
      var before, last := AboutPlayers(frames[..|frames| - 1]), frames[|frames| - 1];
      assert (before + [last])[..|before|] == before;
    }
  }

  lemma {:induction false} NothingAboutPlayers(frames: seq<Frame>)
    requires Aside(frames)
    ensures AboutPlayers(frames) == []
  {
    if frames != [] {
      assert frames[|frames| - 1] in frames;
      NothingAboutPlayers(frames[..|frames| - 1]);
    }
  }

  lemma AsideUnseen(v: Picture, frames: seq<Frame>)
    requires Aside(frames)
    ensures Fold(v, frames) == v
  {
    OthersUnseen(v, frames);
    NothingAboutPlayers(frames);
  }

  lemma {:induction false} FoldConcat(v: Picture, a: seq<Frame>, b: seq<Frame>)
    ensures Fold(v, a + b) == Fold(Fold(v, a), b)
  {
    if b == [] {
      assert a + b == a;
    } else {
      FoldConcat(v, a, b[..|b| - 1]);
      assert (a + b)[..|a + b| - 1] == a + b[..|b| - 1];
    }
  }

  lemma FoldOne(v: Picture, f: Frame)
    ensures Fold(v, [f]) == Apply(v, f)
  {
    assert [f][..0] == [];
    assert Fold(v, []) == v;
  }

  lemma {:induction false} ApplyItemsConcat(v: Picture, a: seq<MoveItem>, b: seq<MoveItem>)
    ensures ApplyItems(v, a + b) == ApplyItems(ApplyItems(v, a), b)
  {
    if b == [] {
      assert a + b == a;
    } else {
      ApplyItemsConcat(v, a, b[..|b| - 1]);
      assert (a + b)[..|a + b| - 1] == a + b[..|b| - 1];
    }
  }

  lemma CutMore(tick: u16, items: seq<MoveItem>)
    requires |items| > 255
    ensures Cut(tick, items) == [MoveBatch(tick, items[..255])] + Cut(tick, items[255..])
  {
  }

  lemma FoldCutShort(v: Picture, tick: u16, items: seq<MoveItem>)
    requires |items| <= 255
    ensures Fold(v, Cut(tick, items)) == ApplyItems(v, items)
  {
    if items != [] {
      FoldOne(v, MoveBatch(tick, items));
    }
  }

  /** Cutting a batch into frames changes nothing for the client. */
  lemma {:induction false} FoldCut(v: Picture, tick: u16, items: seq<MoveItem>)
    ensures Fold(v, Cut(tick, items)) == ApplyItems(v, items)
    decreases |items|
  {
    hide Fold, Cut, ApplyItems;
    if |items| <= 255 {
      FoldCutShort(v, tick, items);
    } else {
      var head, tail := items[..255], items[255..];
      CutMore(tick, items);
      FoldConcat(v, [MoveBatch(tick, head)], Cut(tick, tail));
      FoldOne(v, MoveBatch(tick, head));
      FoldCut(Apply(v, MoveBatch(tick, head)), tick, tail);
      ApplyItemsConcat(v, head, tail);
      assert items == head + tail;
    }
  }

  /** The items that a list of frames carries, in order. */
  function ItemsOf(frames: seq<Frame>): seq<MoveItem> {
    if frames == [] then []
    else (if frames[0].MoveBatch? then frames[0].items else []) + ItemsOf(frames[1..])
  }

  /** Nothing is lost, repeated or reordered by the cutting, and every frame carries 255 items, but the last, which
      carries the rest. */
  lemma {:induction false} CutExact(tick: u16, items: seq<MoveItem>)
    ensures ItemsOf(Cut(tick, items)) == items
    ensures forall f :: f in Cut(tick, items) ==> f.MoveBatch? && f.tick == tick && 1 <= |f.items| <= 255
    ensures forall i :: 0 <= i < |Cut(tick, items)| - 1 ==> |Cut(tick, items)[i].items| == 255
    ensures |Cut(tick, items)| == (|items| + 254) / 255
    decreases |items|
  {
    if items == [] {
    } else if |items| <= 255 {
      assert ItemsOf([]) == [];
    } else {
      CutExact(tick, items[255..]);
      assert items == items[..255] + items[255..];
    }
  }
}
