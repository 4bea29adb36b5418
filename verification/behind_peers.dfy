/** What a client request says to a peer that is behind the leader's snapshot, and what the peer makes
    of it: it is refused, unless the peer is expected to have nothing at all. */
module BehindPeers {
  import opened RaftTypes
  import opened Protocol
  import opened Compaction
  import opened LogMatching
  import opened TransferDone
  import H = Handlers

  /** The request carries the whole log behind the snapshot, through the client's entry, and names
      term 0 for the entry before the peer's next index. */
  lemma BehindRequestNames(n: Node, full: Log, peer: nat, index: int)
    requires Represents(n, full) && peer < |n.nextIndex| && BehindSnapshot(n, peer)
    ensures H.ClientRequest(n, peer, index) ==
      AppendArgs(n.term, n.id, n.nextIndex[peer] - 1, 0, Stretch(full, H.Base(n), index + 1), n.commitIndex)
  {
    var base := H.Base(n);
    EntriesOfFull(n, full, base, index + 1);
    assert H.LogEntries(n, n.nextIndex[peer], index + 1) == H.LogEntries(n, base, index + 1);
  }

  /** The terms of a node's entries and of its snapshot are positive. */
  predicate PositiveTerms(f: Node) {
    && (forall k | 0 <= k < |f.log| :: f.log[k].term > 0)
    && (f.snapshot.Some? ==> f.snapshot.value.lastIncludedTerm > 0)
  }

  /** A peer lets such a request through if and only if it is expected to have nothing. */
  lemma BehindRefusedExactly(n: Node, full: Log, peer: nat, index: int, f: Node)
    requires Represents(n, full) && peer < |n.nextIndex| && BehindSnapshot(n, peer) && 0 <= n.nextIndex[peer]
    requires PositiveTerms(f)
    ensures var a := H.ClientRequest(n, peer, index);
      H.PrevMatches(f, a.prevLogIndex, a.prevLogTerm) <==> n.nextIndex[peer] == 0
  {
    BehindRequestNames(n, full, peer, index);
  }

  /** And then it takes the entries behind the snapshot for its first ones: an empty peer ends with a
      log that lacks what the snapshot covers, none of whose entries is at its index. */
  lemma BehindLeavesGap(n: Node, full: Log, peer: nat, index: int, f: Node, g: Node)
    requires Represents(n, full) && Indexed(full) && peer < |n.nextIndex| && BehindSnapshot(n, peer)
    requires n.nextIndex[peer] == 0 && H.Base(n) <= index < |full|
    requires f.log == [] && f.snapshot.None? && f.term <= n.term
    requires g == H.HandleAppendCore(f, H.ClientRequest(n, peer, index)).0
    ensures g.log == full[H.Base(n)..index + 1]
    ensures forall k | 0 <= k < |g.log| :: g.log[k].index > k
  {
    var a := H.ClientRequest(n, peer, index);
    BehindRequestNames(n, full, peer, index);
    PushOntoNothing(0, a.entries);
    FinishKeepsLog(H.StepDown(f, a), a);
  }
}
