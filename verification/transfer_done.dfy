/** The end of a snapshot transfer, on both sides: what the leader then knows of the peer is what the
    peer has, and the next heartbeat goes on from there. */
module TransferDone {
  import opened RaftTypes
  import opened Protocol
  import opened SnapshotCodec
  import opened SnapshotTransfer
  import opened LogMatching
  import opened ElectionSafety
  import opened Compaction
  import opened LeaderView
  import H = Handlers

  /** A leader that sends its snapshot, with the map iterated in `order`, to the peer in slot `i`. */
  ghost predicate Sending(l: Node, i: nat, order: seq<Pair>) {
    && l.snapshot.Some? && i < |l.nextIndex| == |l.matchIndex|
    && Enumerates(order, l.snapshot.value.kv)
    && Fits(l.snapshot.value.lastIncludedIndex, l.snapshot.value.lastIncludedTerm, order)
  }

  function Bytes(l: Node, order: seq<Pair>): seq<Byte>
    requires l.snapshot.Some?
  {
    SnapshotBytes(l.snapshot.value, order)
  }

  /** The follower once all messages of the transfer are handled. */
  function Received(l: Node, f: Node, order: seq<Pair>, unread: Snapshot): Node
    requires l.snapshot.Some?
  {
    Receive(f, l.term, l.id, l.snapshot.value, Bytes(l, order), ChunkCount(|Bytes(l, order)|, CHUNK_SIZE), unread)
  }

  /** The last message of the transfer. */
  function LastMessage(l: Node, order: seq<Pair>): SnapArgs
    requires l.snapshot.Some? && Bytes(l, order) != []
  {
    SerializedHasChunks(Bytes(l, order));
    LastOffset(Bytes(l, order), ChunkCount(|Bytes(l, order)|, CHUNK_SIZE));
    H.SnapshotRequest(l.term, l.id, l.snapshot.value, Bytes(l, order),
                      ChunkCount(|Bytes(l, order)|, CHUNK_SIZE) - 1)
  }

  /** A chunk's message says where it belongs, how many there are, and whether it is the last. */
  lemma MessageSays(term: nat, leader: nat, snap: Snapshot, bytes: seq<Byte>, k: nat)
    requires k < ChunkCount(|bytes|, CHUNK_SIZE)
    ensures k * 512 < |bytes|
    ensures var a := H.SnapshotRequest(term, leader, snap, bytes, k);
      && a.term == term && a.leaderId == leader
      && a.lastIncludedIndex == snap.lastIncludedIndex && a.lastIncludedTerm == snap.lastIncludedTerm
      && a.offset == 512 * k && a.chunkNum == k
      && (a.totalChunks - 1) * 512 < |bytes| <= a.totalChunks * 512
      && (a.done <==> k == a.totalChunks - 1)
      && Base64.Decode(a.data) == bytes[512 * k..if 512 * (k + 1) < |bytes| then 512 * (k + 1) else |bytes|]
  {
    LastOffset(bytes, k + 1);
    LastOffset(bytes, ChunkCount(|bytes|, CHUNK_SIZE));
    Base64.RoundTrip(ChunkAt(bytes, k * CHUNK_SIZE));
  }

  /** A request of an earlier term is refused with the receiver's; any other is accepted. */
  lemma ChunkReplyTells(n: Node, a: SnapArgs, unread: Snapshot)
    ensures var (n', r) := H.HandleSnapshot(n, a, unread);
      && r.term == n'.term && (r.success <==> a.term >= n.term)
      && (!r.success ==> n' == n && r.term > a.term)
  {}

  /** What a reply to a chunk tells the leader: after the last one, that the peer has the snapshot,
      and otherwise nothing. */
  lemma LeaderLearns(c: Cluster, n: nat, m: Msg)
    requires IsLeader(c, n) && CanTakeChunkReply(c, n, m)
    ensures var l, i := c.procs[n].node, PeerSlot(n, m.src);
      && i < |l.nextIndex|
      && DoTakeChunkReply(c, n, m).procs[n].node ==
           if m.snapReply.success && m.snap.done then
             l.(nextIndex := l.nextIndex[i := m.snap.lastIncludedIndex + 1],
                matchIndex := l.matchIndex[i := m.snap.lastIncludedIndex])
           else l
  {}

  /** The peer's node after the transfer. */
  lemma InstalledNode(l: Node, f: Node, i: nat, order: seq<Pair>, unread: Snapshot) returns (f': Node)
    requires Sending(l, i, order) && f.term <= l.term
    ensures f' == Received(l, f, order, unread) && f'.snapshot == l.snapshot && f'.log == [] && f'.term == l.term
  {
    TransferInstalls(f, l.term, l.id, l.snapshot.value, order, unread);
    f' := Received(l, f, order, unread);
  }

  lemma LastMessageSays(l: Node, order: seq<Pair>) returns (a: SnapArgs)
    requires l.snapshot.Some? && Bytes(l, order) != []
    ensures a == LastMessage(l, order) && a.done && a.lastIncludedIndex == l.snapshot.value.lastIncludedIndex
  {
    a := LastMessage(l, order);
    LastOffset(Bytes(l, order), ChunkCount(|Bytes(l, order)|, CHUNK_SIZE));
  }

  lemma SnapshotDoneIs(l: Node, i: nat, f': Node)
    requires l.snapshot.Some? && i < |l.nextIndex| == |l.matchIndex| && f'.snapshot == l.snapshot && f'.log == []
    ensures var l' := H.SnapshotDone(l, i, l.snapshot.value.lastIncludedIndex);
      && l' == l.(nextIndex := l.nextIndex[i := H.LogSize(f')], matchIndex := l.matchIndex[i := H.LogSize(f') - 1])
      && !BehindSnapshot(l', i) && H.LogSize(f') == H.Base(l)
  {}

  /** Once the last message is answered, the leader's next index for the peer is the size of the peer's
      log, what it takes to be confirmed is the entry before, and the peer is behind the snapshot no
      longer; nothing else changes. */
  lemma LeaderKnowsPeer(l: Node, f: Node, i: nat, order: seq<Pair>, unread: Snapshot)
    requires Sending(l, i, order) && f.term <= l.term && Bytes(l, order) != []
    ensures LastMessage(l, order).done
    ensures var l', size := H.SnapshotDone(l, i, LastMessage(l, order).lastIncludedIndex),
                            H.LogSize(Received(l, f, order, unread));
      && l' == l.(nextIndex := l.nextIndex[i := size], matchIndex := l.matchIndex[i := size - 1])
      && !BehindSnapshot(l', i)
  {
    var f' := InstalledNode(l, f, i, order, unread);
    var a := LastMessageSays(l, order);
    SnapshotDoneIs(l, i, f');
  }

  lemma BytesNotEmpty(l: Node, i: nat, order: seq<Pair>)
    requires Sending(l, i, order)
    ensures Bytes(l, order) != []
  {
    var s := l.snapshot.value;
    SerializeRoundTrip(s.lastIncludedIndex, s.lastIncludedTerm, order, s.kv);
  }

  // ---------- the next heartbeat ----------

  lemma {:induction false} PushOnto(log: Log, base: int, entries: Log)
    requires forall k | 0 <= k < |entries| :: entries[k].index >= base + |log| + k
    ensures H.PushMissing(log, base, entries) == log + entries
    decreases |entries|
  {
    if entries == [] {
      assert log + entries == log;
    } else {
      var log' := log + [entries[0]];
      forall k | 0 <= k < |entries| - 1 ensures entries[1..][k].index >= base + |log'| + k {
        assert entries[1..][k] == entries[k + 1];
      }
      PushOnto(log', base, entries[1..]);
      assert log' + entries[1..] == log + entries;
    }
  }

  lemma PushOntoNothing(base: int, entries: Log)
    requires forall k | 0 <= k < |entries| :: entries[k].index >= base + k
    ensures H.Inserted([], base, 0, entries) == entries
  {
    PushOnto([], base, entries);
    assert [] + entries == entries;
  }

  /** Whatever a request makes a node commit, its log is that with the entries taken. */
  lemma FinishKeepsLog(d: Node, a: AppendArgs)
    ensures var f, t := H.FinishAppend(d, a), H.TakeEntries(d, a);
      f.log == t.log && f.snapshot == t.snapshot == d.snapshot && f.term == d.term
  {
    var t := H.TakeEntries(d, a);
    var target := H.CommitTarget(t, a.leaderCommit);
    ApplyKeeps(t.(commitIndex := target), target);
  }

  /** A node with an empty log behind its snapshot takes the entries that follow the snapshot. */
  lemma TakesFollowing(f: Node, a: AppendArgs)
    requires f.snapshot.Some? && f.log == [] && f.term == a.term && a.prevLogIndex == f.snapshot.value.lastIncludedIndex
    requires a.prevLogIndex >= 0 && a.prevLogTerm == f.snapshot.value.lastIncludedTerm
    requires forall k | 0 <= k < |a.entries| :: a.entries[k].index == H.Base(f) + k
    ensures H.PrevMatches(f, a.prevLogIndex, a.prevLogTerm)
    ensures var (g, r) := H.HandleAppendCore(f, a);
      r == AppendReply(a.term, true) && g.log == a.entries && g.snapshot == f.snapshot
  {
    var d := H.StepDown(f, a);
    PushOntoNothing(H.Base(f), a.entries);
    FinishKeepsLog(d, a);
  }

  /** The heartbeat of a leader to a peer that has nothing but the leader's snapshot. */
  lemma HeartbeatGoesOn(l: Node, i: nat, full: Log, f: Node, a: AppendArgs)
    requires Represents(l, full) && Indexed(full) && l.snapshot.Some? && i < |l.nextIndex|
    requires l.nextIndex[i] == H.Base(l) && a == H.HeartbeatRequest(l, i)
    requires f.snapshot == l.snapshot && f.log == [] && f.term == l.term
    ensures H.PrevMatches(f, a.prevLogIndex, a.prevLogTerm)
    ensures var (g, r) := H.HandleAppendCore(f, a);
      && r == AppendReply(l.term, true)
      && Represents(g, full[..if H.Base(l) + 20 < |full| then H.Base(l) + 20 else |full|])
  {
    var base := H.Base(l);
    HeartbeatNames(l, full, i);
    var end := if base + 20 < |full| then base + 20 else |full|;
    assert a.entries == full[base..end];
    TakesFollowing(f, a);
    assert full[..end][base..] == full[base..end];
  }

  /** A snapshot transfer, end to end: the next heartbeat passes the check at the peer, which then has
      the leader's log up to twenty entries behind the snapshot. */
  lemma TransferGoesOn(l: Node, f: Node, i: nat, order: seq<Pair>, unread: Snapshot, full: Log, f': Node, l': Node,
      a: AppendArgs)
    requires Sending(l, i, order) && f.term <= l.term && Represents(l, full) && Indexed(full)
    requires f' == Received(l, f, order, unread)
    requires Bytes(l, order) != [] && l' == H.SnapshotDone(l, i, LastMessage(l, order).lastIncludedIndex)
    requires i < |l'.nextIndex| && a == H.HeartbeatRequest(l', i)
    ensures H.PrevMatches(f', a.prevLogIndex, a.prevLogTerm)
    ensures var (g, r) := H.HandleAppendCore(f', a);
      && r == AppendReply(l.term, true)
      && Represents(g, full[..if H.Base(l) + 20 < |full| then H.Base(l) + 20 else |full|])
  {
    var g := InstalledNode(l, f, i, order, unread);
    var m := LastMessageSays(l, order);
    SnapshotDoneIs(l, i, g);
    HeartbeatGoesOn(l', i, full, f', a);
  }
}
