/** What each socket hears of a dig, on the hub that the handlers leave behind. */
module DigHeard {
  import opened Ints
  import opened Chunks
  import opened Wire
  import opened Session
  import opened Delivery
  import opened Runs
  import opened Digs
  import opened DigWords
  import opened Hearing
  import opened App

  /** What socket q hears of a dig of socket s: the dig repeated, if q is another socket and its player is in range. */
  ghost predicate HearsDig(cfg: Config, w: World, s: Sid, id: u16, tick: u16, d: Dig, q: Sid, heard: seq<Frame>) {
    if q != s && Place(w, q).Some? && Concerns(cfg, d, Place(w, q).value) then
      && |heard| == 1 && heard[0].Other?
      && var e := ParseDigEvent(heard[0].payload); e.Some? && Repeats(e.value, d, id, tick)
    else heard == []
  }

  /** What it hears of a batch: in one frame, the digs that its player is in range of, repeated, if there are any. */
  ghost predicate HearsBatch(cfg: Config, w: World, s: Sid, id: u16, tick: u16, digs: seq<Dig>, q: Sid,
                             heard: seq<Frame>) {
    if q != s && Place(w, q).Some? && Concerning(cfg, digs, Place(w, q).value) != [] then
      && |heard| == 1 && heard[0].Other?
      && var events := ParseDigEventBatch(heard[0].payload);
      events.Some? && AllRepeat(events.value, Concerning(cfg, digs, Place(w, q).value), id, tick)
    else heard == []
  }

  // ---------------------------------------------------------------- from packets to an inbox

  lemma AsidesMore(sent: seq<Packet>, last: Packet, s: Sid)
    ensures Asides(sent + [last], s) == Asides(sent, s) + [Publication(last.topic, Other(last.payload), Some(s))]
  {
  }

  /** One packet more. */
  lemma HeardMore(subs: set<nat>, s: Sid, q: Sid, sent: seq<Packet>, last: Packet)
    ensures Received(subs, q, Asides(sent + [last], s))
         == Received(subs, q, Asides(sent, s)) + if last.topic in subs && q != s then [Other(last.payload)] else []
  {
    hide Received, Asides;
    AsidesMore(sent, last, s);
    ReceivedMore(subs, q, Asides(sent, s), Publication(last.topic, Other(last.payload), Some(s)));
  }

  lemma {:induction false} NothingOn(t: nat, s: Sid, q: Sid, sent: seq<Packet>)
    requires !HasTopic(sent, t)
    ensures Received({t}, q, Asides(sent, s)) == []
  {
    if sent != [] {
      hide Received, Asides;
      var before, last := sent[..|sent| - 1], sent[|sent| - 1];
      assert sent == before + [last];
      assert forall i :: 0 <= i < |before| ==> before[i] == sent[i];
      NothingOn(t, s, q, before);
      HeardMore({t}, s, q, before, last);
    }
  }

  lemma {:induction false} OneOn(t: nat, s: Sid, q: Sid, sent: seq<Packet>, i: nat)
    requires OneEach(sent) && i < |sent| && sent[i].topic == t && q != s
    ensures Received({t}, q, Asides(sent, s)) == [Other(sent[i].payload)]
  {
    hide Received, Asides;
    var n := |sent| - 1;
    var before, last := sent[..n], sent[n];
    assert sent == before + [last];
    assert forall j :: 0 <= j < n ==> before[j] == sent[j];
    HeardMore({t}, s, q, before, last);
    if i == n {
      NothingOn(t, s, q, before);
    } else {
      OneOn(t, s, q, before, i);
    }
  }

  lemma {:induction false} NothingOwn(subs: set<nat>, s: Sid, sent: seq<Packet>)
    ensures Received(subs, s, Asides(sent, s)) == []
  {
    if sent != [] {
      hide Received, Asides;
      var before, last := sent[..|sent| - 1], sent[|sent| - 1];
      assert sent == before + [last];
      NothingOwn(subs, s, before);
      HeardMore(subs, s, s, before, last);
    }
  }

  /** The frames for each socket: one, if a packet is on its topic. */
  lemma PacketsHeard(cfg: Config, w: World, s: Sid, sent: seq<Packet>, q: Sid)
    requires Deployable(cfg) && Inv(cfg, w) && Listening(w, q) && OneEach(sent)
    ensures var h := Answered(w.hub, s, None, sent);
      && q in w.hub.inbox && q in h.inbox
      && (q == s || Place(w, q).None? ==> h.inbox[q] == w.hub.inbox[q])
      && (q != s && Place(w, q).Some? ==>
            var t := LocalIndex(cfg, Place(w, q).value);
            && (!HasTopic(sent, t) ==> h.inbox[q] == w.hub.inbox[q])
            && forall i :: 0 <= i < |sent| && sent[i].topic == t ==>
                 h.inbox[q] == w.hub.inbox[q] + [Other(sent[i].payload)])
  {
    hide Inv, Deployable, LocalIndex, Contains, Received, HasTopic, Place;
    SubscribedHere(cfg, w, q);
    TunedOfInv(cfg, w, q);
    var subs := SubsOf(w.hub, q);
    if q == s {
      NothingOwn(subs, s, sent);
    } else if Place(w, q).None? {
      ReceivedNothing(q, Asides(sent, s));
    } else {
      var t := LocalIndex(cfg, Place(w, q).value);
      if !HasTopic(sent, t) {
        NothingOn(t, s, q, sent);
      }
      forall i | 0 <= i < |sent| && sent[i].topic == t
        ensures Received({t}, q, Asides(sent, s)) == [Other(sent[i].payload)]
      {
        OneOn(t, s, q, sent, i);
      }
    }
  }

  lemma PlaceServed(cfg: Config, w: World, q: Sid)
    requires Inv(cfg, w) && Place(w, q).Some?
    ensures Contains(cfg, Place(w, q).value)
  {
  }

  // ---------------------------------------------------------------- digs

  /** An accepted dig is heard, once and as it was said, by the players in range of it, but not by the digger. */
  lemma DigIsHeard(cfg: Config, w: World, s: Sid, id: u16, tick: u16, d: Dig, sent: seq<Packet>, q: Sid)
    requires Deployable(cfg) && Inv(cfg, w) && Listening(w, q) && DigTold(cfg, id, tick, d, sent)
    ensures var h := Answered(w.hub, s, None, sent);
      q in w.hub.inbox && q in h.inbox && |w.hub.inbox[q]| <= |h.inbox[q]|
    ensures var inbox, n := Answered(w.hub, s, None, sent).inbox[q], |w.hub.inbox[q]|;
      inbox[..n] == w.hub.inbox[q] && HearsDig(cfg, w, s, id, tick, d, q, inbox[n..])
  {
    hide Inv, Deployable, Answered, LocalIndex, Contains, Place, Concerns, ParseDigEvent;
    PacketsHeard(cfg, w, s, sent, q);
    if q != s && Place(w, q).Some? {
      PlaceServed(cfg, w, q);
      var x := Place(w, q).value;
      if Concerns(cfg, d, x) {
        assert HasTopic(sent, LocalIndex(cfg, x));
      }
    }
  }

  /** Of an accepted batch, each other player hears exactly the digs that it is in range of, in order. */
  lemma BatchIsHeard(cfg: Config, w: World, s: Sid, id: u16, tick: u16, digs: seq<Dig>, sent: seq<Packet>, q: Sid)
    requires Deployable(cfg) && Inv(cfg, w) && Listening(w, q) && BatchTold(cfg, id, tick, digs, sent)
    ensures var h := Answered(w.hub, s, None, sent);
      q in w.hub.inbox && q in h.inbox && |w.hub.inbox[q]| <= |h.inbox[q]|
    ensures var inbox, n := Answered(w.hub, s, None, sent).inbox[q], |w.hub.inbox[q]|;
      inbox[..n] == w.hub.inbox[q] && HearsBatch(cfg, w, s, id, tick, digs, q, inbox[n..])
  {
    hide Inv, Deployable, Answered, LocalIndex, Contains, Place, Concerning, AllRepeat, ParseDigEventBatch;
    PacketsHeard(cfg, w, s, sent, q);
    if q != s && Place(w, q).Some? {
      PlaceServed(cfg, w, q);
      var x := Place(w, q).value;
      if Concerning(cfg, digs, x) != [] {
        assert HasTopic(sent, LocalIndex(cfg, x));
      }
    }
  }

  /** A refusal is heard by its sender only. */
  lemma RefusalIsHeard(w: World, s: Sid, code: u16, sent: seq<Packet>, q: Sid)
    requires s in w.hub.inbox && q in w.hub.inbox
    ensures var h := Answered(w.hub, s, Some(code), sent);
      q in h.inbox && h.inbox[q] == w.hub.inbox[q] + if q == s then [Error(code)] else []
  {
  }
}
