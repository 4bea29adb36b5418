/** A snapshot transfer as steps of the cluster: the leader's chunk loop, whatever its peer answers,
    and a whole transfer of which no message is lost, on both sides. */
module TransferSteps {
  import opened RaftTypes
  import opened Protocol
  import opened SnapshotCodec
  import opened SnapshotTransfer
  import opened TransferDone
  import opened Uninterrupted
  import H = Handlers

  /** Leader `n` sends its snapshot to the peer in slot `i`. */
  ghost predicate Serving(c: Cluster, n: nat, i: nat, order: seq<Pair>) {
    && IsLeader(c, n) && i < |c.procs| - 1 && BehindSnapshot(c.procs[n].node, i)
    && Enumerates(order, c.procs[n].node.snapshot.value.kv)
  }

  function Chunks(l: Node, order: seq<Pair>): nat
    requires l.snapshot.Some?
  {
    ChunkCount(|Bytes(l, order)|, CHUNK_SIZE)
  }

  /** The leader once the last chunk is accepted. */
  function Done(l: Node, i: nat): Node
    requires l.snapshot.Some? && i < |l.nextIndex| && i < |l.matchIndex|
  {
    H.SnapshotDone(l, i, l.snapshot.value.lastIncludedIndex)
  }

  /** The leader takes the answer to a chunk. */
  lemma ChunkTaken(now: Cluster, n: nat, i: nat, a: SnapArgs, m: Msg) returns (next: Cluster)
    requires IsLeader(now, n) && i < |now.procs| - 1 && a.term == now.procs[n].node.term && m in now.msgs
    requires m == SnapRep(PeerId(n, i), n, a, SnapReply(a.term, true))
    ensures CanTakeChunkReply(now, n, m) && next == DoTakeChunkReply(now, n, m) && |next.procs| == |now.procs|
    ensures next.procs[n].node ==
      if a.done then H.SnapshotDone(now.procs[n].node, i, a.lastIncludedIndex) else now.procs[n].node
  {
    next := DoTakeChunkReply(now, n, m);
  }

  /** The turn of a chunk that is accepted. */
  lemma ChunkTurn(c: Cluster, n: nat, i: nat, order: seq<Pair>, k: nat)
      returns (turn: seq<(Cluster, Step)>, next: Cluster)
    requires Serving(c, n, i, order) && k < Chunks(c.procs[n].node, order)
    ensures Follows(n, c, turn, next) && |next.procs| == |c.procs|
    ensures next.procs[n].node ==
      if k == Chunks(c.procs[n].node, order) - 1 then Done(c.procs[n].node, i) else c.procs[n].node
  {
    var l, p := c.procs[n].node, PeerId(n, i);
    LastOffset(Bytes(l, order), k + 1);
    var a := H.SnapshotRequest(l.term, n, l.snapshot.value, Bytes(l, order), k);
    var m := SnapRep(p, n, a, SnapReply(l.term, true));
    var sent := DoSendChunk(c, n, i, order, k);
    var now := sent.(msgs := sent.msgs + {m});
    next := ChunkTaken(now, n, i, a, m);
    turn := TwoSteps(n, c, SendChunk(n, i, order, k), now, ChunkReply(n, m), next);
  }

  /** A chunk that is not accepted ends the transfer. */
  lemma ChunkUnanswered(c: Cluster, n: nat, i: nat, order: seq<Pair>, k: nat)
      returns (turn: seq<(Cluster, Step)>, next: Cluster)
    requires Serving(c, n, i, order) && k < Chunks(c.procs[n].node, order)
    ensures Follows(n, c, turn, next) && |next.procs| == |c.procs| && next.procs[n].node == c.procs[n].node
  {
    LastOffset(Bytes(c.procs[n].node, order), k + 1);
    next := DoSendChunk(c, n, i, order, k);
    FollowsMore(n, c, c, SendChunk(n, i, order, k), [], next);
    turn := [(c, SendChunk(n, i, order, k))] + [];
  }

  /** From chunk `k` on. */
  lemma {:induction false} ChunkSteps(c: Cluster, n: nat, i: nat, order: seq<Pair>, answers: seq<Answer>, k: nat)
      returns (trail: seq<(Cluster, Step)>, c': Cluster)
    requires Serving(c, n, i, order) && k < Chunks(c.procs[n].node, order) && AcceptedTo(answers, k)
    ensures Follows(n, c, trail, c') && n < |c'.procs|
    ensures c'.procs[n].node ==
      if AcceptedTo(answers, Chunks(c.procs[n].node, order)) then Done(c.procs[n].node, i) else c.procs[n].node
    decreases Chunks(c.procs[n].node, order) - k
  {
    if AnswerTo(answers, k) == Accepted {
      OneMoreAccepted(answers, k);
      var turn, next := ChunkTurn(c, n, i, order, k);
      trail, c' := turn, next;
      if k + 1 < Chunks(c.procs[n].node, order) {
        var rest;
        rest, c' := ChunkSteps(next, n, i, order, answers, k + 1);
        trail := turn + rest;
        FollowsJoin(n, c, turn, next, rest, c');
      }
    } else {
      trail, c' := ChunkUnanswered(c, n, i, order, k);
    }
  }

  /** A transfer that nothing interrupts is a sequence of the leader's steps, and the answers decide
      its outcome. */
  lemma TransferIsSteps(c: Cluster, n: nat, i: nat, order: seq<Pair>, answers: seq<Answer>)
      returns (trail: seq<(Cluster, Step)>, c': Cluster)
    requires Serving(c, n, i, order)
    ensures Follows(n, c, trail, c') && n < |c'.procs|
    ensures c'.procs[n].node ==
      if AcceptedTo(answers, Chunks(c.procs[n].node, order)) then Done(c.procs[n].node, i) else c.procs[n].node
  {
    SerializedHasChunks(Bytes(c.procs[n].node, order));
    trail, c' := ChunkSteps(c, n, i, order, answers, 0);
  }

  // ---------- both sides ----------

  /** Chunk `k` is sent, handled and answered: from `c` to `c'` by three steps. */
  ghost predicate Delivers(c: Cluster, n: nat, i: nat, order: seq<Pair>, k: nat, unread: Snapshot, c': Cluster) {
    && IsLeader(c, n) && CanSendChunk(c, n, i, order, k)
    && var p, sent := PeerId(n, i), DoSendChunk(c, n, i, order, k);
    && var request := SnapReq(n, p, ChunkOf(c.procs[n].node, n, order, k));
    && CanHandle(sent, request)
    && var handled := DoHandleChunk(sent, request, unread);
    && var reply := SnapRep(p, n, request.snap, SnapReply(handled.procs[p].node.term, true));
    && IsLeader(handled, n) && CanTakeChunkReply(handled, n, reply)
    && c' == DoTakeChunkReply(handled, n, reply)
  }

  ghost function ChunkOf(l: Node, n: nat, order: seq<Pair>, k: nat): SnapArgs
    requires l.snapshot.Some? && k * CHUNK_SIZE <= |Bytes(l, order)|
  {
    H.SnapshotRequest(l.term, n, l.snapshot.value, Bytes(l, order), k)
  }

  /** A delivery is three steps of the protocol. */
  lemma DeliveryIsSteps(c: Cluster, n: nat, i: nat, order: seq<Pair>, k: nat, unread: Snapshot, c': Cluster)
      returns (sent: Cluster, request: Msg, handled: Cluster, reply: Msg)
    requires Delivers(c, n, i, order, k, unread, c')
    ensures Enabled(c, SendChunk(n, i, order, k)) && sent == Do(c, SendChunk(n, i, order, k))
    ensures Enabled(sent, HandleChunk(request, unread)) && handled == Do(sent, HandleChunk(request, unread))
    ensures Enabled(handled, ChunkReply(n, reply)) && c' == Do(handled, ChunkReply(n, reply))
  {
    var p, a := PeerId(n, i), ChunkOf(c.procs[n].node, n, order, k);
    sent := DoSendChunk(c, n, i, order, k);
    request := SnapReq(n, p, a);
    handled := DoHandleChunk(sent, request, unread);
    reply := SnapRep(p, n, a, SnapReply(handled.procs[p].node.term, true));
  }

  /** The chunk is with the peer, which has answered. */
  ghost predicate Answered(c: Cluster, n: nat, i: nat, a: SnapArgs, unread: Snapshot, handled: Cluster) {
    var p := PeerId(n, i);
    && n < |c.procs| && p < |c.procs| == |handled.procs| && handled.procs[n] == c.procs[n]
    && handled.procs[p].node == H.HandleSnapshot(c.procs[p].node, a, unread).0
    && SnapRep(p, n, a, SnapReply(handled.procs[p].node.term, true)) in handled.msgs
  }

  lemma ChunkAnswered(c: Cluster, n: nat, i: nat, a: SnapArgs, unread: Snapshot, sent: Cluster)
      returns (handled: Cluster)
    requires n < |c.procs| && i < |c.procs| - 1 && sent.procs == c.procs && SnapReq(n, PeerId(n, i), a) in sent.msgs
    requires c.procs[PeerId(n, i)].node.term <= a.term
    ensures CanHandle(sent, SnapReq(n, PeerId(n, i), a))
    ensures handled == DoHandleChunk(sent, SnapReq(n, PeerId(n, i), a), unread)
    ensures Answered(c, n, i, a, unread, handled) && handled.procs[PeerId(n, i)].node.term <= a.term
  {
    ChunkReplyTells(c.procs[PeerId(n, i)].node, a, unread);
    handled := DoHandleChunk(sent, SnapReq(n, PeerId(n, i), a), unread);
  }

  lemma AnswerTaken(c: Cluster, n: nat, i: nat, a: SnapArgs, unread: Snapshot, handled: Cluster)
      returns (c': Cluster)
    requires IsLeader(c, n) && i < |c.procs| - 1 && Answered(c, n, i, a, unread, handled)
    requires a.term == c.procs[n].node.term
    ensures IsLeader(handled, n)
    ensures var p := PeerId(n, i);
      var m := SnapRep(p, n, a, SnapReply(handled.procs[p].node.term, true));
      && CanTakeChunkReply(handled, n, m) && c' == DoTakeChunkReply(handled, n, m)
      && |c'.procs| == |c.procs| && c'.procs[p].node == handled.procs[p].node
      && c'.procs[n].node ==
           (if a.done then H.SnapshotDone(c.procs[n].node, i, a.lastIncludedIndex) else c.procs[n].node)
  {
    var p := PeerId(n, i);
    c' := DoTakeChunkReply(handled, n, SnapRep(p, n, a, SnapReply(handled.procs[p].node.term, true)));
  }

  /** What a delivery does to the two nodes. */
  lemma ChunkDelivered(c: Cluster, n: nat, i: nat, order: seq<Pair>, k: nat, unread: Snapshot) returns (c': Cluster)
    requires Serving(c, n, i, order) && k < Chunks(c.procs[n].node, order)
    requires c.procs[PeerId(n, i)].node.term <= c.procs[n].node.term
    ensures Delivers(c, n, i, order, k, unread, c') && |c'.procs| == |c.procs|
    ensures c'.procs[n].node ==
      if k == Chunks(c.procs[n].node, order) - 1 then Done(c.procs[n].node, i) else c.procs[n].node
    ensures var p := PeerId(n, i);
      && c'.procs[p].node == H.HandleSnapshot(c.procs[p].node, ChunkOf(c.procs[n].node, n, order, k), unread).0
      && c'.procs[p].node.term <= c.procs[n].node.term
  {
    var l := c.procs[n].node;
    LastOffset(Bytes(l, order), k + 1);
    var a := ChunkOf(l, n, order, k);
    var handled := ChunkAnswered(c, n, i, a, unread, DoSendChunk(c, n, i, order, k));
    c' := AnswerTaken(c, n, i, a, unread, handled);
  }

  /** The states of a transfer whose first `k` chunks are delivered. */
  ghost predicate Deliveries(r: seq<Cluster>, n: nat, i: nat, order: seq<Pair>, k: nat, unread: Snapshot) {
    |r| == k + 1 && forall j | 0 <= j < k :: Delivers(r[j], n, i, order, j, unread, r[j + 1])
  }

  /** What the two nodes then are. */
  ghost predicate DeliveredTo(c: Cluster, n: nat, i: nat, order: seq<Pair>, k: nat, unread: Snapshot, c': Cluster)
    requires Serving(c, n, i, order) && k <= Chunks(c.procs[n].node, order)
  {
    var l, p := c.procs[n].node, PeerId(n, i);
    && |c'.procs| == |c.procs|
    && c'.procs[n].node == (if 0 < k == Chunks(l, order) then Done(l, i) else l)
    && c'.procs[p].node == Receive(c.procs[p].node, l.term, n, l.snapshot.value, Bytes(l, order), k, unread)
    && c'.procs[p].node.term <= l.term
  }

  lemma DeliveryExtends(r: seq<Cluster>, n: nat, i: nat, order: seq<Pair>, k: nat, unread: Snapshot, c': Cluster)
    requires Deliveries(r, n, i, order, k, unread) && Delivers(r[k], n, i, order, k, unread, c')
    ensures Deliveries(r + [c'], n, i, order, k + 1, unread)
  {}

  lemma DeliveredMore(c: Cluster, n: nat, i: nat, order: seq<Pair>, k: nat, unread: Snapshot, now: Cluster)
      returns (c': Cluster)
    requires Serving(c, n, i, order) && k < Chunks(c.procs[n].node, order)
    requires DeliveredTo(c, n, i, order, k, unread, now)
    ensures Delivers(now, n, i, order, k, unread, c') && DeliveredTo(c, n, i, order, k + 1, unread, c')
  {
    c' := ChunkDelivered(now, n, i, order, k, unread);
  }

  /** A leader that sends every chunk, to a peer in no higher term and with no message lost, comes to
      know that the peer has the snapshot, and the peer ends as after the whole transfer. */
  lemma {:induction false} TransferDelivers(c: Cluster, n: nat, i: nat, order: seq<Pair>, k: nat, unread: Snapshot)
      returns (r: seq<Cluster>)
    requires Serving(c, n, i, order) && k <= Chunks(c.procs[n].node, order)
    requires c.procs[PeerId(n, i)].node.term <= c.procs[n].node.term
    ensures Deliveries(r, n, i, order, k, unread) && r[0] == c
    ensures DeliveredTo(c, n, i, order, k, unread, r[k])
  {
    if k == 0 {
      r := [c];
    } else {
      r := TransferDelivers(c, n, i, order, k - 1, unread);
      var c' := DeliveredMore(c, n, i, order, k - 1, unread, r[k - 1]);
      DeliveryExtends(r, n, i, order, k - 1, unread, c');
      r := r + [c'];
    }
  }
}
