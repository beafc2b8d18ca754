/** What holds of the Bitswap client over whole sequences of events. */
module BitswapRuns {
  import opened Bitswap

  // ---------------------------------------------------------------- fetches are counted

  function Fetches(events: seq<Event>): nat {
    if events == [] then 0 else Fetches(events[..|events| - 1]) + if events[|events| - 1].Fetch? then 1 else 0
  }

  /** Every fetch command, and nothing else, issues one fetch. */
  lemma {:induction false} EveryFetchIsIssued(t: Tracking, events: seq<Event>)
    ensures AfterAll(t, events).fetches == t.fetches + Fetches(events)
  {
    if events != [] { EveryFetchIsIssued(t, events[..|events| - 1]); }
  }

  // ---------------------------------------------------------------- connections

  /** The last word about `peer` is that it connected. */
  ghost predicate LinkedAt(events: seq<Event>, peer: Peer, i: nat) {
    && i < |events| && events[i].Established? && events[i].peer == peer
    && forall j :: i < j < |events| ==> !(events[j].Closed? && events[j].peer == peer)
  }

  ghost predicate NeverClosed(events: seq<Event>, peer: Peer) {
    forall j :: 0 <= j < |events| ==> !(events[j].Closed? && events[j].peer == peer)
  }

  ghost predicate Linked(events: seq<Event>, peer: Peer, initially: bool) {
    (initially && NeverClosed(events, peer)) || exists i: nat :: LinkedAt(events, peer, i)
  }

  lemma LinkedSnoc(events: seq<Event>, e: Event, peer: Peer, initially: bool)
    ensures Linked(events + [e], peer, initially) <==>
      (e.Established? && e.peer == peer) || (Linked(events, peer, initially) && !(e.Closed? && e.peer == peer))
  {
    var r, n := events + [e], |events|;
    assert r[n] == e && forall j :: 0 <= j < n ==> r[j] == events[j];
    if i: nat :| LinkedAt(r, peer, i) {
      if i < n {
        forall j | i < j < n ensures !(events[j].Closed? && events[j].peer == peer) { assert r[j] == events[j]; }
        assert LinkedAt(events, peer, i);
      }
    }
    if i: nat :| LinkedAt(events, peer, i) && !(e.Closed? && e.peer == peer) { assert LinkedAt(r, peer, i); }
    if e.Established? && e.peer == peer { assert LinkedAt(r, peer, n); }
    if NeverClosed(r, peer) {
      forall j | 0 <= j < n ensures !(events[j].Closed? && events[j].peer == peer) { assert r[j] == events[j]; }
    }
  }

  /** A peer is connected exactly when its last connection event says so. */
  lemma {:induction false} ConnectedIff(t: Tracking, events: seq<Event>, peer: Peer)
    ensures peer in AfterAll(t, events).connected <==> Linked(events, peer, peer in t.connected)
  {
    if events != [] {
      var before, e := events[..|events| - 1], events[|events| - 1];
      ConnectedIff(t, before, peer);
      LinkedSnoc(before, e, peer, peer in t.connected);
      assert before + [e] == events;
    }
  }

  // ---------------------------------------------------------------- a closed connection

  lemma {:induction false} OtherWaitingArePart(w: seq<Waiting>, peer: Peer)
    ensures forall x :: x in OtherWaiting(w, peer) <==> x in w && x.peer != peer
  {
    if w != [] {
      OtherWaitingArePart(w[..|w| - 1], peer);
      assert w == w[..|w| - 1] + [w[|w| - 1]];
    }
  }

  lemma {:induction false} OtherRequestsAre(q: seq<Request>, peer: Peer)
    ensures forall x :: x in OtherRequests(q, peer) <==> x in q && x.peer != peer
  {
    if q != [] {
      OtherRequestsAre(q[..|q| - 1], peer);
      assert q == q[..|q| - 1] + [q[|q| - 1]];
    }
  }

  lemma {:induction false} AwaitedFromPeer(w: seq<Waiting>, x: Waiting)
    requires x in w
    ensures x.id in FromPeer(w, x.peer)
  {
    var before, last := w[..|w| - 1], w[|w| - 1];
    assert w == before + [last];
    if x in before { AwaitedFromPeer(before, x); }
  }

  lemma {:induction false} QueuedForPeer(q: seq<Request>, x: Request)
    requires x in q
    ensures x.id in ForPeer(q, x.peer)
  {
    var before, last := q[..|q| - 1], q[|q| - 1];
    assert q == before + [last];
    if x in before { QueuedForPeer(before, x); }
  }

  lemma FailureOf(ids: seq<FetchId>, id: FetchId, reason: Failure)
    requires id in ids
    ensures Answer(id, Failed(reason)) in Failures(ids, reason)
  {
    var i :| 0 <= i < |ids| && ids[i] == id;
    assert Failures(ids, reason)[i] == Answer(id, Failed(reason));
  }

  /**
   Once a connection closes, its peer is not connected, nothing waits or queues for it, every fetch
   that did is answered with that failure, and the fetches of other peers are where they were.
   */
  lemma ClosedLeavesNothing(t: Tracking, events: seq<Event>, peer: Peer)
    ensures
      var before, after := AfterAll(t, events), AfterAll(t, events + [Closed(peer)]);
      && peer !in after.connected
      && (forall x :: x in after.waiting <==> x in before.waiting && x.peer != peer)
      && (forall x :: x in after.queue <==> x in before.queue && x.peer != peer)
      && (forall x :: x in before.waiting && x.peer == peer ==>
            Answer(x.id, Failed(ConnectionClosed)) in after.answers)
      && (forall x :: x in before.queue && x.peer == peer ==>
            Answer(x.id, Failed(ClosedBeforeRequest)) in after.answers)
  {
    var before, all := AfterAll(t, events), events + [Closed(peer)];
    assert all[..|all| - 1] == events;
    OtherWaitingArePart(before.waiting, peer);
    OtherRequestsAre(before.queue, peer);
    forall x | x in before.waiting && x.peer == peer
      ensures Answer(x.id, Failed(ConnectionClosed)) in Failures(FromPeer(before.waiting, peer), ConnectionClosed)
    {
      AwaitedFromPeer(before.waiting, x);
      FailureOf(FromPeer(before.waiting, peer), x.id, ConnectionClosed);
    }
    forall x | x in before.queue && x.peer == peer
      ensures Answer(x.id, Failed(ClosedBeforeRequest)) in Failures(ForPeer(before.queue, peer), ClosedBeforeRequest)
    {
      QueuedForPeer(before.queue, x);
      FailureOf(ForPeer(before.queue, peer), x.id, ClosedBeforeRequest);
    }
  }

  // ---------------------------------------------------------------- answers

  lemma StepAnswersGrow(t: Tracking, e: Event)
    ensures t.answers <= After(t, e).answers
  {
    match e
    case Established(peer, results) =>
    case Closed(peer) =>
    case InboundOpened(peer, frames) =>
    case _ =>
  }

  /** Answers are never withdrawn or reordered. */
  lemma {:induction false} AnswersGrow(t: Tracking, events: seq<Event>)
    ensures t.answers <= AfterAll(t, events).answers
  {
    if events != [] {
      var before := events[..|events| - 1];
      AnswersGrow(t, before);
      StepAnswersGrow(AfterAll(t, before), events[|events| - 1]);
    }
  }

  /** A fetch that runs its course: connected, opened, sent, and answered with what its peer sent. */
  lemma FetchIsAnswered(t: Tracking, peer: Peer, cids: seq<Cid>, frames: seq<Frame>)
    requires peer in t.connected && FirstFrom(t.waiting, peer) == |t.waiting| && t.substreams !in t.outbound
    ensures
      var t1 := After(t, Fetch(peer, cids, true));
      var t2 := After(t1, OutboundOpened(peer, t.substreams, true));
      var t3 := After(t2, InboundOpened(peer, frames));
      && t3.answers == t.answers + [Answer(t.fetches, ReplyTo(frames, |cids|))]
      && t3.waiting == t.waiting && t3.outbound == t.outbound && t3.queue == t.queue
  {
    var w := Waiting(peer, |cids|, t.fetches);
    FirstFromSnoc(t.waiting, w);
    assert (t.waiting + [w])[..|t.waiting|] == t.waiting;
    assert t.outbound[t.substreams := Outbound(cids, t.fetches)] - {t.substreams} == t.outbound;
  }

  lemma {:induction false} FirstFromSnoc(w: seq<Waiting>, x: Waiting)
    requires FirstFrom(w, x.peer) == |w|
    ensures FirstFrom(w + [x], x.peer) == |w|
  {
    if w != [] {
      assert (w + [x])[1..] == w[1..] + [x];
      FirstFromSnoc(w[1..], x);
    }
  }
}
