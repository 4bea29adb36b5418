/** What the answer to a request tells its sender, and what the sender makes of it. */
module Replies {
  import opened RaftTypes
  import opened Protocol
  import opened ElectionSafety
  import opened SuccessReply
  import H = Handlers

  /** The node follows in `term`, with its vote free, and that is on disk. */
  predicate FollowsIn(n: Node, term: nat) {
    n.role == Follower && n.term == term && n.votedFor == -1 && n.disk.term == term && n.disk.votedFor == -1
  }

  // ---------- votes ----------

  /** Before the request, the node's vote in the request's term is free, or the candidate's. */
  predicate VoteIsFree(n: Node, a: VoteArgs) {
    a.term > n.term || n.votedFor == -1 || n.votedFor == a.candidateId
  }

  /** A vote is given if and only if the request is not stale, the vote is free and the candidate's log
      is up to date. Either way the reply carries the term the voter is then in, the higher of the two,
      and the voter's log, commits and store are as they were. */
  lemma VoteReplyTells(n: Node, a: VoteArgs)
    ensures var (n', r) := H.HandleVote(n, a);
      && (r.granted <==> a.term >= n.term && VoteIsFree(n, a) && H.UpToDate(a.lastLogIndex, a.lastLogTerm, n.log))
      && r.term == n'.term == (if a.term > n.term then a.term else n.term)
      && (r.granted ==> n'.votedFor == n'.disk.votedFor == a.candidateId && n'.disk.term == a.term)
      && (!r.granted ==> if a.term > n.term then FollowsIn(n', a.term) else n' == n)
      && (a.term > n.term ==> n'.role == Follower)
      && n'.log == n.log && n'.commitIndex == n.commitIndex && n'.lastApplied == n.lastApplied && n'.store == n.store
  {}

  /** A candidate that is told of a higher term follows in it, and its election is over. */
  lemma CandidateLearns(c: Cluster, n: nat, m: Msg)
    requires CanTakeVote(c, n, m) && m.voteReply.term > c.procs[n].node.term
    ensures var p := DoTakeVote(c, n, m).procs[n];
      FollowsIn(p.node, m.voteReply.term) && p.election == None
  {}

  /** So a stale candidate that reaches a voter ends its candidacy in the voter's term. */
  lemma StaleCandidateFollows(b: Node, v: Node)
    requires b.term < v.term
    ensures var r := H.HandleVote(v, H.VoteRequest(b)).1;
      !r.granted && r.term > b.term && FollowsIn(H.BecomeFollower(b, r.term), v.term)
  {
    VoteReplyTells(v, H.VoteRequest(b));
  }

  // ---------- AppendEntries ----------

  /** The reply carries the term the receiver is then in, the higher of the two, and success means that
      the request was not stale. */
  lemma AppendReplyTells(n: Node, a: AppendArgs)
    requires Synced(n)
    ensures var (n', r) := H.HandleAppend(n, a);
      && r.term == n'.term == (if a.term > n.term then a.term else n.term)
      && (r.success ==> a.term >= n.term)
      && (a.term >= n.term ==> n'.leaderId == a.leaderId)
  {
    AppendSettlesOrDemotes(n, a);
    if a.term >= n.term {
      FinishKeepsLeader(H.StepDown(n, a), a);
    }
  }

  lemma FinishKeepsLeader(d: Node, a: AppendArgs)
    ensures H.FinishAppend(d, a).leaderId == d.leaderId && H.FinishAppend(d, a).term == d.term
    ensures H.CompactIfLong(H.FinishAppend(d, a)).leaderId == d.leaderId
    ensures H.CompactIfLong(H.FinishAppend(d, a)).term == d.term
  {
    var t := H.TakeEntries(d, a);
    var target := H.CommitTarget(t, a.leaderCommit);
    ApplyKeeps(t.(commitIndex := target), target);
  }

  /** The leader after a reply knows this of its peers, and everything else is as it was. */
  predicate Knows(l: Node, l': Node, i: nat, next: int, matched: int)
    requires i < |l.nextIndex| && i < |l.matchIndex|
  {
    l' == l.(nextIndex := l.nextIndex[i := next], matchIndex := l.matchIndex[i := matched])
  }

  function LessOne(next: int): int {
    if next > 0 then next - 1 else next
  }

  /** A heartbeat's reply: of a higher term it ends the leadership, success moves the peer's indices
      behind the last entry sent, a failure moves its next index back by one. */
  lemma HeartbeatTeaches(l: Node, i: nat, a: AppendArgs, r: AppendReply)
    requires i < |l.nextIndex| && i < |l.matchIndex|
    ensures var l' := H.HeartbeatReply(l, i, a.prevLogIndex + 1, |a.entries|, r);
      if r.term > l.term then FollowsIn(l', r.term) && l'.log == l.log
      else if !r.success then Knows(l, l', i, LessOne(l.nextIndex[i]), l.matchIndex[i])
      else if a.entries == [] then l' == l
      else Knows(l, l', i, End(a), End(a) - 1)
  {
    var same := l.nextIndex[i := l.nextIndex[i]];
    assert same == l.nextIndex && l.matchIndex[i := l.matchIndex[i]] == l.matchIndex;
  }

  /** The same for the reply to a client request, which ends with the client's entry. */
  lemma CallTeaches(l: Node, i: nat, index: int, r: AppendReply)
    requires i < |l.nextIndex| && i < |l.matchIndex|
    ensures var l' := H.ClientReply(l, i, index, r);
      if r.term > l.term then FollowsIn(l', r.term) && l'.log == l.log
      else if !r.success then Knows(l, l', i, LessOne(l.nextIndex[i]), l.matchIndex[i])
      else Knows(l, l', i, index + 1, index)
  {
    var same := l.nextIndex[i := l.nextIndex[i]];
    assert same == l.nextIndex && l.matchIndex[i := l.matchIndex[i]] == l.matchIndex;
  }

  // ---------- restarts ----------

  /** A restarted node keeps what it saved and knows nothing of others: it follows, names no leader, and
      has to find out about every peer. */
  lemma RestartForgets(n: Node, replayed: KV)
    ensures var m := H.Restart(n, replayed);
      && m.id == n.id && m.disk == n.disk && m.role == Follower && m.leaderId == -1 && m.buffer == []
      && m.term == n.disk.term && m.votedFor == n.disk.votedFor
      && m.log == n.disk.log && m.snapshot == n.disk.snapshot
      && |m.nextIndex| == |n.nextIndex| && |m.matchIndex| == |n.matchIndex|
      && (forall i | 0 <= i < |m.nextIndex| :: m.nextIndex[i] == 0)
      && (forall i | 0 <= i < |m.matchIndex| :: m.matchIndex[i] == -1)
      && (n.disk.snapshot.Some? ==>
            m.store == n.disk.snapshot.value.kv
            && m.lastApplied == m.commitIndex == n.disk.snapshot.value.lastIncludedIndex)
      && (n.disk.snapshot.None? ==> m.store == replayed && m.lastApplied == m.commitIndex == 0)
  {}
}
