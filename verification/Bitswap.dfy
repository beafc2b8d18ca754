/** Request tracking of the Bitswap client: where each fetch is, from command to reply. */
module Bitswap {
  import opened Types

  type Peer = nat
  type SubstreamId = nat
  type FetchId = nat
  type Cid = seq<nat>
  type Block = seq<nat>

  /** A fetch waiting for its peer to connect; `id` stands for its one-shot reply channel. */
  datatype Request = Request(peer: Peer, cids: seq<Cid>, id: FetchId)

  /** A fetch whose wantlist is being sent on an outbound substream. */
  datatype Outbound = Outbound(cids: seq<Cid>, id: FetchId)

  /** A fetch whose wantlist was sent and whose reply is awaited from `peer`. */
  datatype Waiting = Waiting(peer: Peer, expected: nat, id: FetchId)

  datatype Failure =
    | OpenSubstream
    | SendWantlist
    | SubstreamOpen
    | SubstreamRead
    | NoBlocks
    | ConnectionClosed
    | ClosedBeforeRequest

  datatype Reply = Blocks(blocks: seq<Block>) | Failed(reason: Failure)

  datatype Answer = Answer(id: FetchId, reply: Reply)

  /** A frame read from an inbound substream; running out of frames is the end of the stream. */
  datatype Frame =
    | Message(payload: seq<Block>, presences: nat)
    | Undecodable
    | ReadError

  /** Commands and transport events; `opens` and `results` say which `open_substream` calls succeed. */
  datatype Event =
    | Fetch(peer: Peer, cids: seq<Cid>, opens: bool)
    | OutboundOpened(peer: Peer, substream: SubstreamId, sent: bool)
    | InboundOpened(peer: Peer, frames: seq<Frame>)
    | OpenFailed(substream: SubstreamId)
    | Established(peer: Peer, results: seq<bool>)
    | Closed(peer: Peer)
    | DialFailed

  // ---------------------------------------------------------------- where fetches are

  /** How often a fetch occurs in each of the four places. */
  ghost function Queued(q: seq<Request>, id: FetchId): nat {
    if q == [] then 0 else Queued(q[..|q| - 1], id) + One(q[|q| - 1].id == id)
  }

  ghost function Awaited(w: seq<Waiting>, id: FetchId): nat {
    if w == [] then 0 else Awaited(w[..|w| - 1], id) + One(w[|w| - 1].id == id)
  }

  ghost function Answered(a: seq<Answer>, id: FetchId): nat {
    if a == [] then 0 else Answered(a[..|a| - 1], id) + One(a[|a| - 1].id == id)
  }

  ghost function Opening(m: map<SubstreamId, Outbound>, id: FetchId): nat
    decreases |m|
  {
    if m == map[] then 0
    else
      var k :| k in m;
      Opening(m - {k}, id) + One(m[k].id == id)
  }

  lemma QueuedSnoc(q: seq<Request>, r: Request)
    ensures forall id :: Queued(q + [r], id) == Queued(q, id) + One(r.id == id)
  {
  }

  lemma AwaitedSnoc(w: seq<Waiting>, x: Waiting)
    ensures forall id :: Awaited(w + [x], id) == Awaited(w, id) + One(x.id == id)
  {
  }

  lemma AnsweredSnoc(a: seq<Answer>, x: Answer)
    ensures forall id :: Answered(a + [x], id) == Answered(a, id) + One(x.id == id)
  {
  }

  lemma {:induction false} AwaitedConcat(a: seq<Waiting>, b: seq<Waiting>, id: FetchId)
    ensures Awaited(a + b, id) == Awaited(a, id) + Awaited(b, id)
  {
    if b == [] {
      assert a + b == a;
    } else {
      AwaitedConcat(a, b[..|b| - 1], id);
      assert (a + b)[..|a + b| - 1] == a + b[..|b| - 1];
    }
  }

  lemma {:induction false} OpeningRemove(m: map<SubstreamId, Outbound>, k: SubstreamId, id: FetchId)
    requires k in m
    ensures Opening(m, id) == Opening(m - {k}, id) + One(m[k].id == id)
    decreases |m|
  {
    var x :| x in m && Opening(m, id) == Opening(m - {x}, id) + One(m[x].id == id);
    if x != k {
      OpeningRemove(m - {x}, k, id);
      OpeningRemove(m - {k}, x, id);
      assert m - {x} - {k} == m - {k} - {x};
    }
  }

  lemma OpeningTake(m: map<SubstreamId, Outbound>, k: SubstreamId)
    requires k in m
    ensures forall id :: Opening(m - {k}, id) + One(m[k].id == id) == Opening(m, id)
  {
    forall id ensures Opening(m - {k}, id) + One(m[k].id == id) == Opening(m, id) {
      OpeningRemove(m, k, id);
    }
  }

  lemma OpeningAdd(m: map<SubstreamId, Outbound>, k: SubstreamId, o: Outbound)
    requires k !in m
    ensures forall id :: Opening(m[k := o], id) == Opening(m, id) + One(o.id == id)
  {
    forall id ensures Opening(m[k := o], id) == Opening(m, id) + One(o.id == id) {
      OpeningRemove(m[k := o], k, id);
      assert m[k := o] - {k} == m;
    }
  }

  // ---------------------------------------------------------------- per-peer order

  /** The fetches awaited from one peer, oldest first. */
  function FromPeer(w: seq<Waiting>, peer: Peer): seq<FetchId> {
    if w == [] then []
    else FromPeer(w[..|w| - 1], peer) + if w[|w| - 1].peer == peer then [w[|w| - 1].id] else []
  }

  lemma {:induction false} FromPeerConcat(a: seq<Waiting>, b: seq<Waiting>, peer: Peer)
    ensures FromPeer(a + b, peer) == FromPeer(a, peer) + FromPeer(b, peer)
  {
    if b == [] {
      assert a + b == a;
    } else {
      var c, r := b[..|b| - 1], a + b;
      FromPeerConcat(a, c, peer);
      assert r[..|r| - 1] == a + c && r[|r| - 1] == b[|b| - 1];
    }
  }

  lemma {:induction false} NoneFromPeer(w: seq<Waiting>, peer: Peer)
    requires forall i :: 0 <= i < |w| ==> w[i].peer != peer
    ensures FromPeer(w, peer) == []
  {
    if w != [] { NoneFromPeer(w[..|w| - 1], peer); }
  }

  /** Taking out the first entry of a peer is taking the head of its queue; other peers keep theirs. */
  lemma RemoveOldest(w: seq<Waiting>, idx: nat, other: Peer)
    requires idx < |w| && forall i :: 0 <= i < idx ==> w[i].peer != w[idx].peer
    ensures FromPeer(w, w[idx].peer) != [] && FromPeer(w, w[idx].peer)[0] == w[idx].id
    ensures FromPeer(w[..idx] + w[idx + 1..], other)
         == if other == w[idx].peer then FromPeer(w, other)[1..] else FromPeer(w, other)
  {
    var peer, before, mid, after := w[idx].peer, w[..idx], [w[idx]], w[idx + 1..];
    assert w == before + mid + after;
    NoneFromPeer(before, peer);
    FromPeerConcat(before + mid, after, peer);
    FromPeerConcat(before, mid, peer);
    FromPeerConcat(before + mid, after, other);
    FromPeerConcat(before, mid, other);
    FromPeerConcat(before, after, other);
    assert mid[..0] == [] && FromPeer(mid, peer) == [w[idx].id];
  }

  /** The fetch awaited longest from `peer`. */
  ghost predicate Oldest(w: seq<Waiting>, peer: Peer, idx: nat) {
    idx < |w| && w[idx].peer == peer && forall i :: 0 <= i < idx ==> w[i].peer != peer
  }

  lemma AwaitedTake(w: seq<Waiting>, idx: nat)
    requires idx < |w|
    ensures forall id :: Awaited(w[..idx] + w[idx + 1..], id) + One(w[idx].id == id) == Awaited(w, id)
  {
    var before, mid, after := w[..idx], [w[idx]], w[idx + 1..];
    assert w == before + mid + after && mid[..0] == [];
    forall id ensures Awaited(before + after, id) + One(w[idx].id == id) == Awaited(w, id) {
      AwaitedConcat(before + mid, after, id);
      AwaitedConcat(before, mid, id);
      AwaitedConcat(before, after, id);
      assert Awaited(mid, id) == One(w[idx].id == id);
    }
  }

  /** The fetches queued for one peer, oldest first. */
  function ForPeer(q: seq<Request>, peer: Peer): seq<FetchId> {
    if q == [] then []
    else ForPeer(q[..|q| - 1], peer) + if q[|q| - 1].peer == peer then [q[|q| - 1].id] else []
  }

  function Failures(ids: seq<FetchId>, reason: Failure): seq<Answer> {
    seq(|ids|, i requires 0 <= i < |ids| => Answer(ids[i], Failed(reason)))
  }

  lemma FailuresSnoc(ids: seq<FetchId>, id: FetchId, reason: Failure)
    ensures Failures(ids + [id], reason) == Failures(ids, reason) + [Answer(id, Failed(reason))]
  {
  }

  function OtherRequests(q: seq<Request>, peer: Peer): seq<Request> {
    if q == [] then []
    else OtherRequests(q[..|q| - 1], peer) + if q[|q| - 1].peer == peer then [] else [q[|q| - 1]]
  }

  function OtherWaiting(w: seq<Waiting>, peer: Peer): seq<Waiting> {
    if w == [] then []
    else OtherWaiting(w[..|w| - 1], peer) + if w[|w| - 1].peer == peer then [] else [w[|w| - 1]]
  }

  lemma {:induction false} AnsweredConcat(a: seq<Answer>, b: seq<Answer>, id: FetchId)
    ensures Answered(a + b, id) == Answered(a, id) + Answered(b, id)
  {
    if b == [] {
      assert a + b == a;
    } else {
      var c, r := b[..|b| - 1], a + b;
      AnsweredConcat(a, c, id);
      assert r[..|r| - 1] == a + c && r[|r| - 1] == b[|b| - 1];
    }
  }

  /** Failing one peer's queued fetches moves exactly those to the answers. */
  lemma {:induction false} QueuedSplits(q: seq<Request>, peer: Peer, reason: Failure, id: FetchId)
    ensures Queued(q, id) == Queued(OtherRequests(q, peer), id) + Answered(Failures(ForPeer(q, peer), reason), id)
  {
    if q != [] {
      var p, r := q[..|q| - 1], q[|q| - 1];
      QueuedSplits(p, peer, reason, id);
      if r.peer == peer {
        assert OtherRequests(q, peer) == OtherRequests(p, peer) && ForPeer(q, peer) == ForPeer(p, peer) + [r.id];
        FailuresSnoc(ForPeer(p, peer), r.id, reason);
        AnsweredSnoc(Failures(ForPeer(p, peer), reason), Answer(r.id, Failed(reason)));
      } else {
        assert ForPeer(q, peer) == ForPeer(p, peer);
        QueuedSnoc(OtherRequests(p, peer), r);
      }
    }
  }

  lemma {:induction false} AwaitedSplits(w: seq<Waiting>, peer: Peer, reason: Failure, id: FetchId)
    ensures Awaited(w, id) == Awaited(OtherWaiting(w, peer), id) + Answered(Failures(FromPeer(w, peer), reason), id)
  {
    if w != [] {
      var p, x := w[..|w| - 1], w[|w| - 1];
      AwaitedSplits(p, peer, reason, id);
      if x.peer == peer {
        assert OtherWaiting(w, peer) == OtherWaiting(p, peer) && FromPeer(w, peer) == FromPeer(p, peer) + [x.id];
        FailuresSnoc(FromPeer(p, peer), x.id, reason);
        AnsweredSnoc(Failures(FromPeer(p, peer), reason), Answer(x.id, Failed(reason)));
      } else {
        assert FromPeer(w, peer) == FromPeer(p, peer);
        AwaitedSnoc(OtherWaiting(p, peer), x);
      }
    }
  }

  /** The requests queued for one peer, oldest first. */
  function Mine(q: seq<Request>, peer: Peer): seq<Request> {
    if q == [] then []
    else Mine(q[..|q| - 1], peer) + if q[|q| - 1].peer == peer then [q[|q| - 1]] else []
  }

  /** The `c`-th `open_substream` call succeeds. */
  predicate Opens(results: seq<bool>, c: nat) {
    c < |results| && results[c]
  }

  /** The requests whose own call came out as `ok`, in order. */
  function Those(mine: seq<Request>, results: seq<bool>, ok: bool): seq<Request> {
    if mine == [] then []
    else
      var n := |mine| - 1;
      Those(mine[..n], results, ok) + if Opens(results, n) == ok then [mine[n]] else []
  }

  lemma ThoseSnoc(mine: seq<Request>, r: Request, results: seq<bool>, ok: bool)
    ensures Those(mine + [r], results, ok)
         == if Opens(results, |mine|) == ok then Those(mine, results, ok) + [r] else Those(mine, results, ok)
  {
    assert (mine + [r])[..|mine|] == mine;
  }

  function Ids(rs: seq<Request>): seq<FetchId> {
    seq(|rs|, i requires 0 <= i < |rs| => rs[i].id)
  }

  /** Requests on consecutive fresh substreams. */
  function OnFresh(rs: seq<Request>, next: SubstreamId): map<SubstreamId, Outbound> {
    if rs == [] then map[]
    else
      var n := |rs| - 1;
      OnFresh(rs[..n], next)[next + n := Outbound(rs[n].cids, rs[n].id)]
  }

  lemma OnFreshSnoc(m: map<SubstreamId, Outbound>, rs: seq<Request>, r: Request, next: SubstreamId)
    ensures m + OnFresh(rs + [r], next) == (m + OnFresh(rs, next))[next + |rs| := Outbound(r.cids, r.id)]
  {
    assert (rs + [r])[..|rs|] == rs;
  }

  lemma RefusalsSnoc(rs: seq<Request>, r: Request)
    ensures Failures(Ids(rs + [r]), OpenSubstream)
         == Failures(Ids(rs), OpenSubstream) + [Answer(r.id, Failed(OpenSubstream))]
  {
    assert Ids(rs + [r]) == Ids(rs) + [r.id];
    FailuresSnoc(Ids(rs), r.id, OpenSubstream);
  }

  lemma {:induction false} OtherRequestsArePart(q: seq<Request>, peer: Peer)
    ensures forall r :: r in OtherRequests(q, peer) ==> r in q && r.peer != peer
  {
    if q != [] { OtherRequestsArePart(q[..|q| - 1], peer); }
  }

  /** One more request served: on the next fresh substream if its call succeeds, else one more refusal. */
  lemma ServedSnoc(mine: seq<Request>, r: Request, results: seq<bool>, m: map<SubstreamId, Outbound>,
                   next: SubstreamId, a: seq<Answer>)
    ensures
      var accepted, refused := Those(mine, results, true), Those(mine, results, false);
      var accepted', refused' := Those(mine + [r], results, true), Those(mine + [r], results, false);
      if Opens(results, |mine|) then
        && m + OnFresh(accepted', next) == (m + OnFresh(accepted, next))[next + |accepted| := Outbound(r.cids, r.id)]
        && |accepted'| == |accepted| + 1 && refused' == refused
      else
        && accepted' == accepted
        && a + Failures(Ids(refused'), OpenSubstream)
           == a + Failures(Ids(refused), OpenSubstream) + [Answer(r.id, Failed(OpenSubstream))]
  {
    ThoseSnoc(mine, r, results, true);
    ThoseSnoc(mine, r, results, false);
    OnFreshSnoc(m, Those(mine, results, true), r, next);
    RefusalsSnoc(Those(mine, results, false), r);
  }

  /** Dropping one peer's requests keeps that no request left is for a connected peer. */
  lemma OthersStayUnconnected(q: seq<Request>, peer: Peer, before: set<Peer>, after: set<Peer>)
    requires after <= before + {peer} && forall i :: 0 <= i < |q| ==> q[i].peer !in before
    ensures forall i :: 0 <= i < |OtherRequests(q, peer)| ==> OtherRequests(q, peer)[i].peer !in after
  {
    OtherRequestsArePart(q, peer);
  }

  // ---------------------------------------------------------------- reading a response

  function Payloads(frames: seq<Frame>): seq<Block> {
    if frames == [] then []
    else Payloads(frames[..|frames| - 1]) +
         if frames[|frames| - 1].Message? then frames[|frames| - 1].payload else []
  }

  /** A frame after which reading goes on. */
  predicate Clean(f: Frame) {
    f.Message? && f.presences == 0 && f.payload != []
  }

  /** Reading ends after `k` frames: the stream is over, enough blocks arrived, or the last frame ended it. */
  predicate Stops(frames: seq<Frame>, expected: nat, k: nat)
    requires k <= |frames|
  {
    k == |frames| || |Payloads(frames[..k])| >= expected || (k > 0 && !Clean(frames[k - 1]))
  }

  /** The least number of frames, from `k` on, after which reading ends. */
  function StopAt(frames: seq<Frame>, expected: nat, k: nat): (end: nat)
    requires k <= |frames|
    ensures k <= end <= |frames| && Stops(frames, expected, end)
    ensures forall j :: k <= j < end ==> !Stops(frames, expected, j)
    decreases |frames| - k
  {
    if Stops(frames, expected, k) then k else StopAt(frames, expected, k + 1)
  }

  /** The reply to a fetch of `expected` blocks: whatever arrived, or why nothing did. */
  function ReplyTo(frames: seq<Frame>, expected: nat): Reply {
    var k := StopAt(frames, expected, 0);
    var got := Payloads(frames[..k]);
    if got != [] then Blocks(got)
    else if k > 0 && !frames[k - 1].Message? then Failed(SubstreamRead)
    else Failed(NoBlocks)
  }

  function AnswerTo(w: Waiting, frames: seq<Frame>): Answer {
    Answer(w.id, ReplyTo(frames, w.expected))
  }

  method ReadResponse(frames: seq<Frame>, expected: nat) returns (reply: Reply)
    ensures reply == ReplyTo(frames, expected)
  {
    var all: seq<Block> := [];
    var hadError, stopped := false, false;
    var i := 0;
    ghost var end := StopAt(frames, expected, 0);
    assert frames[..0] == [];
    while |all| < expected && i < |frames| && !stopped
      invariant 0 <= i <= end && all == Payloads(frames[..i])
      invariant stopped <==> i > 0 && !Clean(frames[i - 1])
      invariant hadError <==> i > 0 && !frames[i - 1].Message?
      decreases |frames| - i
    {
      assert !Stops(frames, expected, i);
      PayloadsGrow(frames, i);
      match frames[i] {
        case Message(payload, presences) =>
          all := all + payload;
          stopped := presences != 0 || payload == [];
        case Undecodable => hadError, stopped := true, true;
        case ReadError => hadError, stopped := true, true;
      }
      i := i + 1;
    }
    assert Stops(frames, expected, i);
    if all != [] {
      reply := Blocks(all);
    } else if hadError {
      reply := Failed(SubstreamRead);
    } else {
      reply := Failed(NoBlocks);
    }
  }

  // ---------------------------------------------------------------- one block per CID

  /** Each of the first `k` frames lets reading go on, so frame `k` is read. */
  ghost predicate CleanBefore(frames: seq<Frame>, k: nat)
    requires k <= |frames|
  {
    forall j :: 0 <= j < k ==> Clean(frames[j])
  }

  lemma PayloadsGrow(frames: seq<Frame>, k: nat)
    requires k < |frames|
    ensures Payloads(frames[..k + 1])
         == Payloads(frames[..k]) + if frames[k].Message? then frames[k].payload else []
  {
    assert frames[..k + 1][..k] == frames[..k];
  }

  lemma {:induction false} PayloadsMonotone(frames: seq<Frame>, j: nat, k: nat)
    requires j <= k <= |frames|
    ensures Payloads(frames[..j]) <= Payloads(frames[..k])
    decreases k - j
  {
    if j < k {
      PayloadsMonotone(frames, j, k - 1);
      PayloadsGrow(frames, k - 1);
    }
  }

  /** While frames are clean and blocks are missing, reading goes on. */
  lemma ReadsThrough(frames: seq<Frame>, expected: nat, k: nat)
    requires k < |frames| && CleanBefore(frames, k) && |Payloads(frames[..k])| < expected
    ensures k < StopAt(frames, expected, 0)
  {
    var end := StopAt(frames, expected, 0);
    if end <= k {
      PayloadsMonotone(frames, end, k);
    }
  }

  /** Reading reaches the frame before its end over clean frames and with blocks missing. */
  lemma ReadsUpTo(frames: seq<Frame>, expected: nat)
    requires 0 < StopAt(frames, expected, 0)
    ensures
      var last := StopAt(frames, expected, 0) - 1;
      CleanBefore(frames, last) && |Payloads(frames[..last])| < expected
  {
    var end := StopAt(frames, expected, 0);
    assert !Stops(frames, expected, end - 1);
    forall j | 0 <= j < end - 1
      ensures Clean(frames[j])
    {
      assert !Stops(frames, expected, j + 1);
    }
  }

  /** The blocks received are a prefix of all that was sent. */
  lemma ReplyIsAPrefix(frames: seq<Frame>, expected: nat)
    ensures ReplyTo(frames, expected).Blocks? ==> ReplyTo(frames, expected).blocks <= Payloads(frames)
  {
    PayloadsMonotone(frames, StopAt(frames, expected, 0), |frames|);
    assert frames[..|frames|] == frames;
  }

  /** The frame with index `k` brings the block count to exactly `expected`, and reading gets to it. */
  ghost predicate ExactAt(frames: seq<Frame>, expected: nat, k: nat) {
    && k < |frames| && CleanBefore(frames, k)
    && |Payloads(frames[..k])| < expected == |Payloads(frames[..k + 1])|
  }

  /** A reply holds as many blocks as were asked for if and only if some readable frame completes the count exactly. */
  lemma BlockCountIff(frames: seq<Frame>, expected: nat)
    ensures (ReplyTo(frames, expected).Blocks? && |ReplyTo(frames, expected).blocks| == expected)
       <==> exists k :: ExactAt(frames, expected, k)
  {
    var end := StopAt(frames, expected, 0);
    assert frames[..0] == [];
    if ReplyTo(frames, expected).Blocks? && |ReplyTo(frames, expected).blocks| == expected {
      ReadsUpTo(frames, expected);
      assert ExactAt(frames, expected, end - 1);
    }
    if k :| ExactAt(frames, expected, k) {
      ExactStops(frames, expected, k);
    }
  }

  /** The frame that completes the count is the last one read. */
  lemma ExactStops(frames: seq<Frame>, expected: nat, k: nat)
    requires ExactAt(frames, expected, k)
    ensures StopAt(frames, expected, 0) == k + 1
  {
    ReadsThrough(frames, expected, k);
    assert Stops(frames, expected, k + 1);
  }

  /** The CIDs of blocks, under the content hash `cidOf`. */
  function CidsOf(cidOf: Block -> Cid, blocks: seq<Block>): seq<Cid> {
    seq(|blocks|, i requires 0 <= i < |blocks| => cidOf(blocks[i]))
  }

  /** The reply holds one block for each requested CID and nothing else. */
  ghost predicate Serves(cidOf: Block -> Cid, cids: seq<Cid>, reply: Reply) {
    reply.Blocks? && multiset(CidsOf(cidOf, reply.blocks)) == multiset(cids)
  }

  /** Some readable frame completes the count exactly, and the blocks sent up to it are the requested ones. */
  ghost predicate ServedAt(cidOf: Block -> Cid, cids: seq<Cid>, frames: seq<Frame>, k: nat) {
    && ExactAt(frames, |cids|, k)
    && multiset(CidsOf(cidOf, Payloads(frames[..k + 1]))) == multiset(cids)
  }

  /** A fetch is answered with one block per CID if and only if the frames that are read bring exactly those. */
  lemma OneBlockPerCidIff(cidOf: Block -> Cid, cids: seq<Cid>, frames: seq<Frame>)
    ensures Serves(cidOf, cids, ReplyTo(frames, |cids|)) <==> exists k :: ServedAt(cidOf, cids, frames, k)
  {
    var reply := ReplyTo(frames, |cids|);
    if Serves(cidOf, cids, reply) {
      assert |multiset(CidsOf(cidOf, reply.blocks))| == |multiset(cids)|;
      BlockCountIff(frames, |cids|);
      var k :| ExactAt(frames, |cids|, k);
      ExactStops(frames, |cids|, k);
      assert ServedAt(cidOf, cids, frames, k);
    }
    if k :| ServedAt(cidOf, cids, frames, k) {
      ExactStops(frames, |cids|, k);
    }
  }

  /** Two CIDs asked for, one block got: a frame that also reports an absence ends the reading. */
  lemma FewerBlocks(a: Block, b: Block)
    ensures ReplyTo([Message([a], 1), Message([b], 0)], 2) == Blocks([a])
  {
    var frames := [Message([a], 1), Message([b], 0)];
    assert frames[..0] == [] && frames[..1] == [Message([a], 1)] && frames[..1][..0] == [];
    assert Payloads(frames[..1]) == [a];
    assert !Stops(frames, 2, 0) && Stops(frames, 2, 1);
  }

  /** One CID asked for, two blocks got: a frame is never cut. */
  lemma MoreBlocks(a: Block, b: Block)
    ensures ReplyTo([Message([a, b], 0)], 1) == Blocks([a, b])
  {
    var frames := [Message([a, b], 0)];
    assert frames[..0] == [] && frames[..1] == frames;
    assert Payloads(frames[..1]) == [a, b];
    assert !Stops(frames, 1, 0) && Stops(frames, 1, 1);
  }

  /** Two CIDs asked for, the same block got twice: the count is right and nothing else is looked at. */
  lemma RepeatedBlock(cidOf: Block -> Cid, a: Block, other: Cid)
    requires other != cidOf(a)
    ensures
      var reply := ReplyTo([Message([a, a], 0)], 2);
      reply == Blocks([a, a]) && !Serves(cidOf, [cidOf(a), other], reply)
  {
    var frames := [Message([a, a], 0)];
    assert frames[..0] == [] && frames[..1] == frames;
    assert Payloads(frames[..1]) == [a, a];
    assert !Stops(frames, 2, 0) && Stops(frames, 2, 1);
    assert other in multiset([cidOf(a), other]) && CidsOf(cidOf, [a, a]) == [cidOf(a), cidOf(a)];
  }

  /** Nothing behind a frame that fails, reports an absence or carries no block is ever read. */
  lemma ReadingEndsAt(frames: seq<Frame>, expected: nat, j: nat)
    requires j < |frames|
    requires !frames[j].Message? || frames[j].presences > 0 || |frames[j].payload| == 0
    ensures ReplyTo(frames, expected) == ReplyTo(frames[..j + 1], expected)
  {
    var short := frames[..j + 1];
    StopsWithin(frames, expected, j, 0);
    var k := StopAt(frames, expected, 0);
    assert short[..k] == frames[..k];
  }

  lemma {:induction false} StopsWithin(frames: seq<Frame>, expected: nat, j: nat, k: nat)
    requires j < |frames| && !Clean(frames[j]) && k <= j + 1
    ensures StopAt(frames, expected, k) == StopAt(frames[..j + 1], expected, k) <= j + 1
    decreases j + 1 - k
  {
    assert frames[..j + 1][..k] == frames[..k];
    if k <= j { StopsWithin(frames, expected, j, k + 1); }
  }

  /** Only the first frame can leave a fetch without blocks, and it decides the error. */
  lemma FailureReason(frames: seq<Frame>, expected: nat)
    requires 0 < expected
    ensures ReplyTo(frames, expected) == Failed(SubstreamRead) <==>
      frames != [] && (frames[0].Undecodable? || frames[0].ReadError?)
    ensures ReplyTo(frames, expected) == Failed(NoBlocks) <==>
      frames == [] || (frames[0].Message? && frames[0].payload == [])
    ensures ReplyTo(frames, expected).Failed? ==> ReplyTo(frames, expected).reason in {SubstreamRead, NoBlocks}
  {
    assert frames[..0] == [];
    if frames != [] {
      PayloadsGrow(frames, 0);
      PayloadsMonotone(frames, 1, StopAt(frames, expected, 1));
    }
  }

  // ---------------------------------------------------------------- one event, on values

  /** Where everything is: the maps and queues of the event loop. */
  datatype Tracking = Tracking(
    connected: set<Peer>,
    queue: seq<Request>,
    outbound: map<SubstreamId, Outbound>,
    waiting: seq<Waiting>,
    answers: seq<Answer>,
    fetches: nat,
    substreams: SubstreamId)

  function Answering(t: Tracking, id: FetchId, reply: Reply): Tracking {
    t.(answers := t.answers + [Answer(id, reply)])
  }

  function AfterFetch(t: Tracking, peer: Peer, cids: seq<Cid>, opens: bool): Tracking {
    var t1 := t.(fetches := t.fetches + 1);
    if peer !in t.connected then t1.(queue := t.queue + [Request(peer, cids, t.fetches)])
    else if opens then t1.(outbound := t.outbound[t.substreams := Outbound(cids, t.fetches)],
                           substreams := t.substreams + 1)
    else Answering(t1, t.fetches, Failed(OpenSubstream))
  }

  function AfterOutboundOpened(t: Tracking, peer: Peer, substream: SubstreamId, sent: bool): Tracking {
    if substream !in t.outbound then t
    else
      var o, t1 := t.outbound[substream], t.(outbound := t.outbound - {substream});
      if sent then t1.(waiting := t.waiting + [Waiting(peer, |o.cids|, o.id)])
      else Answering(t1, o.id, Failed(SendWantlist))
  }

  /** The position of the fetch awaited longest from `peer`, or the length if there is none. */
  function FirstFrom(w: seq<Waiting>, peer: Peer): (idx: nat)
    ensures idx <= |w| && forall i :: 0 <= i < idx ==> w[i].peer != peer
    ensures idx < |w| ==> w[idx].peer == peer
  {
    if w == [] || w[0].peer == peer then 0 else 1 + FirstFrom(w[1..], peer)
  }

  function AfterInboundOpened(t: Tracking, peer: Peer, frames: seq<Frame>): Tracking {
    var idx := FirstFrom(t.waiting, peer);
    if idx == |t.waiting| then t
    else Answering(t.(waiting := t.waiting[..idx] + t.waiting[idx + 1..]), t.waiting[idx].id,
                   ReplyTo(frames, t.waiting[idx].expected))
  }

  function AfterOpenFailed(t: Tracking, substream: SubstreamId): Tracking {
    if substream !in t.outbound then t
    else Answering(t.(outbound := t.outbound - {substream}), t.outbound[substream].id, Failed(SubstreamOpen))
  }

  function AfterEstablished(t: Tracking, peer: Peer, results: seq<bool>): Tracking {
    var mine := Mine(t.queue, peer);
    var accepted, refused := Those(mine, results, true), Those(mine, results, false);
    t.(connected := t.connected + {peer}, queue := OtherRequests(t.queue, peer),
       outbound := t.outbound + OnFresh(accepted, t.substreams), substreams := t.substreams + |accepted|,
       answers := t.answers + Failures(Ids(refused), OpenSubstream))
  }

  function AfterClosed(t: Tracking, peer: Peer): Tracking {
    t.(connected := t.connected - {peer}, waiting := OtherWaiting(t.waiting, peer),
       queue := OtherRequests(t.queue, peer),
       answers := t.answers + Failures(FromPeer(t.waiting, peer), ConnectionClosed)
                  + Failures(ForPeer(t.queue, peer), ClosedBeforeRequest))
  }

  function After(t: Tracking, e: Event): Tracking {
    match e
    case Fetch(peer, cids, opens) => AfterFetch(t, peer, cids, opens)
    case OutboundOpened(peer, substream, sent) => AfterOutboundOpened(t, peer, substream, sent)
    case InboundOpened(peer, frames) => AfterInboundOpened(t, peer, frames)
    case OpenFailed(substream) => AfterOpenFailed(t, substream)
    case Established(peer, results) => AfterEstablished(t, peer, results)
    case Closed(peer) => AfterClosed(t, peer)
    case DialFailed => t
  }

  /** The state after all events, in order. */
  function AfterAll(t: Tracking, events: seq<Event>): Tracking {
    if events == [] then t else After(AfterAll(t, events[..|events| - 1]), events[|events| - 1])
  }

  // ---------------------------------------------------------------- the protocol loop

  class BitswapProtocol {
    var connected: set<Peer>
    var pendingConnection: seq<Request>
    var pendingOutbound: map<SubstreamId, Outbound>
    var waiting: seq<Waiting>
    var answers: seq<Answer>
    var fetches: nat
    var substreams: SubstreamId

    ghost function View(): Tracking
      reads this
    {
      Tracking(connected, pendingConnection, pendingOutbound, waiting, answers, fetches, substreams)
    }

    /** In how many places a fetch is. */
    ghost function Places(id: FetchId): nat
      reads this
    {
      Queued(pendingConnection, id) + Opening(pendingOutbound, id) + Awaited(waiting, id) + Answered(answers, id)
    }

    /**
     Each fetch issued so far is in exactly one place: queued, outbound, waiting or answered, and
     there once. No queued request belongs to a connected peer. Substream ids are handed out fresh.
     */
    ghost predicate Valid()
      reads this
    {
      && (forall id: FetchId :: Places(id) == One(id < fetches))
      && (forall i :: 0 <= i < |pendingConnection| ==> pendingConnection[i].peer !in connected)
      && (forall k :: k in pendingOutbound ==> k < substreams)
    }

    constructor ()
      ensures Valid() && View() == Tracking({}, [], map[], [], [], 0, 0)
    {
      connected, pendingConnection, pendingOutbound, waiting := {}, [], map[], [];
      answers, fetches, substreams := [], 0, 0;
      new;
      assert forall x: FetchId :: Opening(map[], x) == 0;
    }

    /** Reply on a fetch's channel. */
    method Send(id: FetchId, reply: Reply)
      modifies this`answers
      ensures answers == old(answers) + [Answer(id, reply)]
      ensures forall x: FetchId :: Answered(answers, x) == Answered(old(answers), x) + One(id == x)
    {
      AnsweredSnoc(answers, Answer(id, reply));
      answers := answers + [Answer(id, reply)];
    }

    /** Open a substream for a fetch that is in no other place, or answer it when that fails. */
    method OpenFor(cids: seq<Cid>, id: FetchId, opens: bool)
      requires forall k :: k in pendingOutbound ==> k < substreams
      modifies this`pendingOutbound, this`substreams, this`answers
      ensures forall x: FetchId ::
        Opening(pendingOutbound, x) + Answered(answers, x)
          == Opening(old(pendingOutbound), x) + Answered(old(answers), x) + One(id == x)
      ensures opens ==>
        answers == old(answers) && pendingOutbound == old(pendingOutbound)[old(substreams) := Outbound(cids, id)]
      ensures !opens ==>
        answers == old(answers) + [Answer(id, Failed(OpenSubstream))] && pendingOutbound == old(pendingOutbound)
      ensures substreams == if opens then old(substreams) + 1 else old(substreams)
      ensures forall k :: k in pendingOutbound ==> k < substreams
    {
      if opens {
        OpeningAdd(pendingOutbound, substreams, Outbound(cids, id));
        pendingOutbound := pendingOutbound[substreams := Outbound(cids, id)];
        substreams := substreams + 1;
      } else {
        Send(id, Failed(OpenSubstream));
      }
    }

    method OnFetch(peer: Peer, cids: seq<Cid>, opens: bool)
      requires Valid()
      modifies this
      ensures View() == AfterFetch(old(View()), peer, cids, opens)
      ensures Valid() && fetches == old(fetches) + 1 && waiting == old(waiting)
      ensures connected == old(connected) && old(answers) <= answers
      ensures peer !in connected ==>
        pendingConnection == old(pendingConnection) + [Request(peer, cids, old(fetches))] && answers == old(answers)
      ensures peer in connected ==> pendingConnection == old(pendingConnection)
      ensures peer in connected && opens ==>
        pendingOutbound == old(pendingOutbound)[old(substreams) := Outbound(cids, old(fetches))]
      ensures peer in connected && !opens ==>
        answers == old(answers) + [Answer(old(fetches), Failed(OpenSubstream))]
    {
      var id := fetches;
      fetches := fetches + 1;
      if peer in connected {
        OpenFor(cids, id, opens);
      } else {
        QueuedSnoc(pendingConnection, Request(peer, cids, id));
        pendingConnection := pendingConnection + [Request(peer, cids, id)];
      }
      assert forall x: FetchId :: Places(x) == old(Places(x)) + One(id == x);
    }

    method OnOutboundOpened(peer: Peer, substream: SubstreamId, sent: bool)
      requires Valid()
      modifies this
      ensures View() == AfterOutboundOpened(old(View()), peer, substream, sent)
      ensures Valid() && fetches == old(fetches) && old(answers) <= answers
      ensures connected == old(connected) && pendingConnection == old(pendingConnection)
      ensures substream !in old(pendingOutbound) ==> waiting == old(waiting) && answers == old(answers)
      ensures substream in old(pendingOutbound) && sent ==>
        var o := old(pendingOutbound)[substream];
        waiting == old(waiting) + [Waiting(peer, |o.cids|, o.id)] && answers == old(answers)
      ensures substream in old(pendingOutbound) && !sent ==>
        && waiting == old(waiting)
        && answers == old(answers) + [Answer(old(pendingOutbound)[substream].id, Failed(SendWantlist))]
      ensures pendingOutbound == old(pendingOutbound) - {substream}
    {
      if substream in pendingOutbound {
        var o := pendingOutbound[substream];
        OpeningTake(pendingOutbound, substream);
        pendingOutbound := pendingOutbound - {substream};
        if sent {
          AwaitedSnoc(waiting, Waiting(peer, |o.cids|, o.id));
          waiting := waiting + [Waiting(peer, |o.cids|, o.id)];
        } else {
          Send(o.id, Failed(SendWantlist));
        }
      }
      assert forall x: FetchId :: Places(x) == old(Places(x));
    }

    /** The reply goes to the oldest fetch awaited from that peer, and to no other. */
    method OnInboundOpened(peer: Peer, frames: seq<Frame>)
      requires Valid()
      modifies this
      ensures View() == AfterInboundOpened(old(View()), peer, frames)
      ensures Valid() && fetches == old(fetches) && old(answers) <= answers
      ensures connected == old(connected) && pendingConnection == old(pendingConnection)
      ensures pendingOutbound == old(pendingOutbound)
      ensures FromPeer(old(waiting), peer) == [] ==> waiting == old(waiting) && answers == old(answers)
      ensures FromPeer(old(waiting), peer) != [] ==>
        && (exists idx: nat :: Oldest(old(waiting), peer, idx)
              && answers == old(answers) + [AnswerTo(old(waiting)[idx], frames)])
        && FromPeer(waiting, peer) == FromPeer(old(waiting), peer)[1..]
      ensures forall other :: other != peer ==> FromPeer(waiting, other) == FromPeer(old(waiting), other)
    {
      var idx := 0;
      while idx < |waiting| && waiting[idx].peer != peer
        invariant 0 <= idx <= |waiting|
        invariant forall i :: 0 <= i < idx ==> waiting[i].peer != peer
      {
        idx := idx + 1;
      }
      if idx == |waiting| {
        NoneFromPeer(waiting, peer);
      } else {
        TakeOldest(peer, idx, frames);
      }
    }

    method TakeOldest(peer: Peer, idx: nat, frames: seq<Frame>)
      requires Valid() && Oldest(waiting, peer, idx)
      modifies this`waiting, this`answers
      ensures Valid() && answers == old(answers) + [AnswerTo(old(waiting)[idx], frames)]
      ensures waiting == old(waiting)[..idx] + old(waiting)[idx + 1..]
      ensures FromPeer(old(waiting), peer) != [] && FromPeer(waiting, peer) == FromPeer(old(waiting), peer)[1..]
      ensures forall other :: other != peer ==> FromPeer(waiting, other) == FromPeer(old(waiting), other)
    {
      var w, rest := waiting[idx], waiting[..idx] + waiting[idx + 1..];
      forall other ensures other != peer ==> FromPeer(rest, other) == FromPeer(waiting, other) {
        RemoveOldest(waiting, idx, other);
      }
      RemoveOldest(waiting, idx, peer);
      AwaitedTake(waiting, idx);
      waiting := rest;
      var reply := ReadResponse(frames, w.expected);
      Send(w.id, reply);
      assert forall x: FetchId :: Places(x) == old(Places(x));
    }

    method OnOpenFailed(substream: SubstreamId)
      requires Valid()
      modifies this
      ensures View() == AfterOpenFailed(old(View()), substream)
      ensures Valid() && fetches == old(fetches) && waiting == old(waiting)
      ensures connected == old(connected) && pendingConnection == old(pendingConnection)
      ensures answers == old(answers) + if substream in old(pendingOutbound)
        then [Answer(old(pendingOutbound)[substream].id, Failed(SubstreamOpen))] else []
      ensures pendingOutbound == old(pendingOutbound) - {substream}
    {
      if substream in pendingOutbound {
        var o := pendingOutbound[substream];
        OpeningTake(pendingOutbound, substream);
        pendingOutbound := pendingOutbound - {substream};
        Send(o.id, Failed(SubstreamOpen));
      }
      assert forall x: FetchId :: Places(x) == old(Places(x));
    }

    /**
     A peer connects. Its queued requests are served in order: those whose call succeeds get fresh
     substreams, the others an error. Requests for other peers keep their order.
     */
    method OnEstablished(peer: Peer, results: seq<bool>)
      requires Valid()
      modifies this
      ensures View() == AfterEstablished(old(View()), peer, results)
      ensures Valid() && fetches == old(fetches) && waiting == old(waiting)
      ensures connected == old(connected) + {peer}
      ensures pendingConnection == OtherRequests(old(pendingConnection), peer)
      ensures
        var mine := Mine(old(pendingConnection), peer);
        && pendingOutbound == old(pendingOutbound) + OnFresh(Those(mine, results, true), old(substreams))
        && answers == old(answers) + Failures(Ids(Those(mine, results, false)), OpenSubstream)
    {
      OthersStayUnconnected(pendingConnection, peer, connected, connected + {peer});
      connected := connected + {peer};
      ServeQueued(peer, results);
      assert forall x: FetchId :: Places(x) == old(Places(x));
    }

    /** What has become of the requests `mine`, served from the given outbound map, substream id and answers. */
    ghost predicate Served(mine: seq<Request>, results: seq<bool>, m: map<SubstreamId, Outbound>,
                           next: SubstreamId, a: seq<Answer>)
      reads this
    {
      var accepted, refused := Those(mine, results, true), Those(mine, results, false);
      && pendingOutbound == m + OnFresh(accepted, next) && substreams == next + |accepted|
      && answers == a + Failures(Ids(refused), OpenSubstream)
    }

    /** One queued request is served by call number `|mine|`. */
    method ServeOne(r: Request, ghost mine: seq<Request>, results: seq<bool>, call: nat,
                    ghost m: map<SubstreamId, Outbound>, ghost next: SubstreamId, ghost a: seq<Answer>)
      requires call == |mine| && Served(mine, results, m, next, a)
      requires forall k :: k in pendingOutbound ==> k < substreams
      modifies this`pendingOutbound, this`substreams, this`answers
      ensures Served(mine + [r], results, m, next, a)
      ensures forall k :: k in pendingOutbound ==> k < substreams
      ensures forall x: FetchId ::
        Opening(pendingOutbound, x) + Answered(answers, x)
          == Opening(old(pendingOutbound), x) + Answered(old(answers), x) + One(r.id == x)
    {
      ServedSnoc(mine, r, results, m, next, a);
      OpenFor(r.cids, r.id, call < |results| && results[call]);
    }

    method ServeQueued(peer: Peer, results: seq<bool>)
      requires forall k :: k in pendingOutbound ==> k < substreams
      modifies this`pendingConnection, this`pendingOutbound, this`substreams, this`answers
      ensures pendingConnection == OtherRequests(old(pendingConnection), peer)
      ensures Served(Mine(old(pendingConnection), peer), results, old(pendingOutbound), old(substreams), old(answers))
      ensures forall x: FetchId ::
        Queued(pendingConnection, x) + Opening(pendingOutbound, x) + Answered(answers, x)
          == Queued(old(pendingConnection), x) + Opening(old(pendingOutbound), x) + Answered(old(answers), x)
      ensures forall k :: k in pendingOutbound ==> k < substreams
    {
      var todo := pendingConnection;
      pendingConnection := [];
      var calls := 0;
      ghost var m, next, a := pendingOutbound, substreams, answers;
      assert todo[..0] == [];
      for i := 0 to |todo|
        invariant pendingConnection == OtherRequests(todo[..i], peer)
        invariant calls == |Mine(todo[..i], peer)| && Served(Mine(todo[..i], peer), results, m, next, a)
        invariant forall x: FetchId ::
          Queued(pendingConnection, x) + Opening(pendingOutbound, x) + Answered(answers, x)
            == Queued(todo[..i], x) + Opening(m, x) + Answered(a, x)
        invariant forall k :: k in pendingOutbound ==> k < substreams
      {
        var r := todo[i];
        assert todo[..i + 1] == todo[..i] + [r] && todo[..i + 1][..i] == todo[..i];
        QueuedSnoc(todo[..i], r);
        assert Mine(todo[..i + 1], peer) == Mine(todo[..i], peer) + if r.peer == peer then [r] else [];
        if r.peer == peer {
          ServeOne(r, Mine(todo[..i], peer), results, calls, m, next, a);
          calls := calls + 1;
        } else {
          assert Mine(todo[..i + 1], peer) == Mine(todo[..i], peer);
          QueuedSnoc(pendingConnection, r);
          pendingConnection := pendingConnection + [r];
        }
      }
      assert todo[..|todo|] == todo;
    }

    /** Fail every fetch awaited from a closed peer; the other peers' fetches keep their order. */
    method FailWaiting(peer: Peer)
      modifies this`waiting, this`answers
      ensures waiting == OtherWaiting(old(waiting), peer)
      ensures answers == old(answers) + Failures(FromPeer(old(waiting), peer), ConnectionClosed)
    {
      var todo := waiting;
      waiting := [];
      assert todo[..0] == [];
      for i := 0 to |todo|
        invariant waiting == OtherWaiting(todo[..i], peer)
        invariant answers == old(answers) + Failures(FromPeer(todo[..i], peer), ConnectionClosed)
      {
        assert todo[..i + 1][..i] == todo[..i];
        if todo[i].peer == peer {
          FailuresSnoc(FromPeer(todo[..i], peer), todo[i].id, ConnectionClosed);
          Send(todo[i].id, Failed(ConnectionClosed));
        } else {
          waiting := waiting + [todo[i]];
        }
      }
      assert todo[..|todo|] == todo;
    }

    method FailQueued(peer: Peer)
      modifies this`pendingConnection, this`answers
      ensures pendingConnection == OtherRequests(old(pendingConnection), peer)
      ensures answers == old(answers) + Failures(ForPeer(old(pendingConnection), peer), ClosedBeforeRequest)
    {
      var todo := pendingConnection;
      pendingConnection := [];
      assert todo[..0] == [];
      for i := 0 to |todo|
        invariant pendingConnection == OtherRequests(todo[..i], peer)
        invariant answers == old(answers) + Failures(ForPeer(todo[..i], peer), ClosedBeforeRequest)
      {
        assert todo[..i + 1][..i] == todo[..i];
        if todo[i].peer == peer {
          FailuresSnoc(ForPeer(todo[..i], peer), todo[i].id, ClosedBeforeRequest);
          Send(todo[i].id, Failed(ClosedBeforeRequest));
        } else {
          pendingConnection := pendingConnection + [todo[i]];
        }
      }
      assert todo[..|todo|] == todo;
    }

    method FailPeer(peer: Peer)
      modifies this`waiting, this`pendingConnection, this`answers
      ensures waiting == OtherWaiting(old(waiting), peer)
      ensures pendingConnection == OtherRequests(old(pendingConnection), peer)
      ensures answers == old(answers) + Failures(FromPeer(old(waiting), peer), ConnectionClosed)
                         + Failures(ForPeer(old(pendingConnection), peer), ClosedBeforeRequest)
      ensures forall x: FetchId ::
        Queued(pendingConnection, x) + Awaited(waiting, x) + Answered(answers, x)
          == Queued(old(pendingConnection), x) + Awaited(old(waiting), x) + Answered(old(answers), x)
    {
      ghost var w, q, a := waiting, pendingConnection, answers;
      FailWaiting(peer);
      FailQueued(peer);
      ghost var fw := Failures(FromPeer(w, peer), ConnectionClosed);
      ghost var fq := Failures(ForPeer(q, peer), ClosedBeforeRequest);
      forall x: FetchId
        ensures Queued(pendingConnection, x) + Awaited(waiting, x) + Answered(answers, x)
             == Queued(q, x) + Awaited(w, x) + Answered(a, x)
      {
        AwaitedSplits(w, peer, ConnectionClosed, x);
        QueuedSplits(q, peer, ClosedBeforeRequest, x);
        AnsweredConcat(a, fw, x);
        AnsweredConcat(a + fw, fq, x);
      }
    }

    method OnClosed(peer: Peer)
      requires Valid()
      modifies this
      ensures View() == AfterClosed(old(View()), peer)
      ensures Valid() && fetches == old(fetches) && old(answers) <= answers
      ensures answers == old(answers) + Failures(FromPeer(old(waiting), peer), ConnectionClosed)
                         + Failures(ForPeer(old(pendingConnection), peer), ClosedBeforeRequest)
      ensures connected == old(connected) - {peer} && pendingOutbound == old(pendingOutbound)
      ensures waiting == OtherWaiting(old(waiting), peer)
      ensures pendingConnection == OtherRequests(old(pendingConnection), peer)
    {
      OthersStayUnconnected(pendingConnection, peer, connected, connected - {peer});
      connected := connected - {peer};
      FailPeer(peer);
      assert forall x: FetchId :: Places(x) == old(Places(x));
    }

    /** The event loop. Whatever the transport does, a fetch stays in exactly one place and is answered at most once. */
    method Run(events: seq<Event>)
      requires Valid()
      modifies this
      ensures View() == AfterAll(old(View()), events)
      ensures Valid() && forall id: FetchId :: id < fetches ==> Places(id) == 1
    {
      assert events[..0] == [];
      for i := 0 to |events|
        invariant Valid() && View() == AfterAll(old(View()), events[..i])
      {
        assert events[..i + 1][..i] == events[..i];
        match events[i] {
          case Fetch(peer, cids, opens) => OnFetch(peer, cids, opens);
          case OutboundOpened(peer, substream, sent) => OnOutboundOpened(peer, substream, sent);
          case InboundOpened(peer, frames) => OnInboundOpened(peer, frames);
          case OpenFailed(substream) => OnOpenFailed(substream);
          case Established(peer, results) => OnEstablished(peer, results);
          case Closed(peer) => OnClosed(peer);
          case DialFailed =>
        }
      }
      assert events[..|events|] == events;
    }
  }
}
