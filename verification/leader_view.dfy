/** What a node with a snapshot says to others. Its vote request, its heartbeats, its client requests
    and what it expects of its peers are those of the node with nothing compacted. Only the voter's
    comparison is not. */
module LeaderView {
  import opened RaftTypes
  import opened Protocol
  import opened Compaction
  import H = Handlers

  /** A candidate names the last entry of the whole log. */
  lemma VoteNamesLastEntry(n: Node, full: Log)
    requires Represents(n, full)
    ensures H.VoteRequest(n) == VoteArgs(n.term, n.id, |full| - 1, TermAt(full, |full| - 1))
  {
    TermOfFull(n, full, |full| - 1);
  }

  /** A candidate's request is the one it would send with nothing compacted. */
  lemma VoteRequestSame(n: Node, f: Node)
    requires Uncompacted(n, f)
    ensures H.VoteRequest(n) == H.VoteRequest(f)
  {
    VoteNamesLastEntry(n, f.log);
    VoteNamesLastEntry(f, f.log);
  }

  /** A heartbeat to a peer behind the snapshot's end carries the twenty entries of the whole log from
      the peer's next index on, and names the entry before them. */
  lemma HeartbeatNames(n: Node, full: Log, peer: nat)
    requires Represents(n, full) && peer < |n.nextIndex| && H.Base(n) <= n.nextIndex[peer]
    ensures var next := n.nextIndex[peer];
      H.HeartbeatRequest(n, peer) ==
        AppendArgs(n.term, n.id, next - 1, TermAt(full, next - 1), Stretch(full, next, next + 20), n.commitIndex)
  {
    var next := n.nextIndex[peer];
    TermOfFull(n, full, next - 1);
    if next < |full| {
      EntriesOfFull(n, full, next, if next + 20 < |full| then next + 20 else |full|);
    }
  }

  /** A client request carries the entries of the whole log from the peer's next index through the
      client's entry. */
  lemma ClientRequestNames(n: Node, full: Log, peer: nat, index: int)
    requires Represents(n, full) && peer < |n.nextIndex| && H.Base(n) <= n.nextIndex[peer]
    ensures var next := n.nextIndex[peer];
      H.ClientRequest(n, peer, index) ==
        AppendArgs(n.term, n.id, next - 1, TermAt(full, next - 1), Stretch(full, next, index + 1), n.commitIndex)
  {
    TermOfFull(n, full, n.nextIndex[peer] - 1);
    EntriesOfFull(n, full, n.nextIndex[peer], index + 1);
  }

  /** What a leader sends is what it would send with nothing compacted, to exactly the peers that are
      not behind the snapshot. */
  lemma RequestsSame(n: Node, f: Node, peer: nat, index: int)
    requires Uncompacted(n, f) && peer < |n.nextIndex| && 0 <= n.nextIndex[peer]
    ensures !BehindSnapshot(n, peer) <==> H.Base(n) <= n.nextIndex[peer]
    ensures !BehindSnapshot(n, peer) ==>
      && H.HeartbeatRequest(n, peer) == H.HeartbeatRequest(f, peer)
      && H.ClientRequest(n, peer, index) == H.ClientRequest(f, peer, index)
  {
    if !BehindSnapshot(n, peer) {
      HeartbeatNames(n, f.log, peer);
      HeartbeatNames(f, f.log, peer);
      ClientRequestNames(n, f.log, peer, index);
      ClientRequestNames(f, f.log, peer, index);
    }
  }

  /** A new leader takes every peer to have the whole log, and to have confirmed nothing of it. */
  lemma WinExpects(n: Node, full: Log)
    requires Represents(n, full)
    ensures var w := H.WinElection(n);
      && w.role == Leader && w.leaderId == n.id && Represents(w, full) && w.disk.log == n.log
      && |w.nextIndex| == |n.nextIndex| && |w.matchIndex| == |n.matchIndex|
      && (forall i | 0 <= i < |w.nextIndex| :: w.nextIndex[i] == |full| && !BehindSnapshot(w, i))
      && (forall i | 0 <= i < |w.matchIndex| :: w.matchIndex[i] == -1)
  {
    ReadersSeeFull(n, full);
  }

  /** A client's entry goes to the end of the whole log, with its index there. */
  lemma AppendExtends(n: Node, full: Log, command: string)
    requires Represents(n, full)
    ensures Represents(H.AppendClient(n, command), full + [Entry(n.term, |full|, command)])
  {
    var e := Entry(n.term, |full|, command);
    assert (full + [e])[H.Base(n)..] == full[H.Base(n)..] + [e];
  }

  // ---------- the voter ----------

  /** A voter with a snapshot grants at least what it would grant with nothing compacted. */
  lemma VoterGrantsMore(n: Node, full: Log, lastIndex: int, lastTerm: nat)
    requires Represents(n, full) && lastIndex >= -1 && H.UpToDate(lastIndex, lastTerm, full)
    ensures H.UpToDate(lastIndex, lastTerm, n.log)
  {
    if n.log != [] {
      assert n.log[|n.log| - 1] == full[|full| - 1];
    }
  }

  /** A request that a voter with a snapshot takes for up to date, though the whole log is not behind
      it: one that names the voter's own last term and the length of its suffix. */
  lemma VoterForgets(n: Node, full: Log)
    requires Represents(n, full) && n.snapshot.Some?
    ensures var lastTerm := H.LastLogTerm(n.log);
      H.UpToDate(|n.log| - 1, lastTerm, n.log) && !H.UpToDate(|n.log| - 1, lastTerm, full)
  {
    if n.log != [] {
      assert n.log[|n.log| - 1] == full[|full| - 1];
    }
  }

  /** A voter judges candidates by its whole log if and only if it has no snapshot. */
  lemma VoterJudgesWholeLogExactly(n: Node, full: Log)
    requires Represents(n, full)
    ensures (forall i: int, t: nat | i >= -1 :: H.UpToDate(i, t, n.log) <==> H.UpToDate(i, t, full)) <==>
      n.snapshot.None?
  {
    if n.snapshot.Some? {
      VoterForgets(n, full);
      assert H.LastLogTerm(n.log) >= 0;
    } else {
      assert full[0..] == full;
    }
  }
}
