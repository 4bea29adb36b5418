/** What nodes know of each other over a run: whom a node names as leader, and what a leader takes its
    peers to have confirmed. */
module PeerKnowledge {
  import opened RaftTypes
  import opened Protocol
  import opened History
  import opened ElectionSafety
  import opened LogMatching
  import opened LogSteps
  import opened Ballots
  import opened Acknowledged
  import opened AckSteps
  import opened SuccessReply
  import opened AppendOnly
  import opened Votes
  import opened Replies
  import H = Handlers

  // ---------- the leader a node names ----------

  /** A request names its sender as leader. */
  predicate Signed(m: Msg) {
    && (m.AppReq? ==> m.append.leaderId == m.src)
    && (m.SnapReq? ==> m.snap.leaderId == m.src)
  }

  predicate AllSigned(c: Cluster) {
    forall m | m in c.msgs :: Signed(m)
  }

  /** The leader a node names led some term up to the node's, and a leader names itself. */
  ghost predicate NamesLeader(h: Hist, n: Node) {
    && (n.leaderId == -1 || exists t: nat :: t <= n.term && t in h.terms && h.terms[t].leader == n.leaderId)
    && (n.role == Leader ==> n.leaderId == n.id)
  }

  ghost predicate AllName(c: Cluster, h: Hist) {
    forall i | 0 <= i < |c.procs| :: NamesLeader(h, c.procs[i].node)
  }

  lemma SignedStep(c: Cluster, h: Hist, s: Step)
    requires ElectionInv(c, h) && AllSigned(c) && Enabled(c, s)
    ensures AllSigned(Do(c, s))
  {
    NewRequestsSigned(c, h, s);
    forall m | m in Do(c, s).msgs ensures Signed(m) {
      assert m in c.msgs ==> Signed(m);
    }
  }

  lemma BeatSigned(c: Cluster, n: nat, slot: nat)
    requires IsLeader(c, n) && CanBeat(c, n, slot) && c.procs[n].node.id == n
    ensures forall m | m in DoBeat(c, n, slot).msgs && m !in c.msgs :: Signed(m)
  {}

  lemma CallSigned(c: Cluster, n: nat, index: int)
    requires CanCall(c, n, index) && c.procs[n].node.id == n
    ensures forall m | m in DoCallSend(c, n, index).msgs && m !in c.msgs :: Signed(m)
  {}

  lemma NewRequestsSigned(c: Cluster, h: Hist, s: Step)
    requires ElectionInv(c, h) && Enabled(c, s)
    ensures forall m | m in Do(c, s).msgs && m !in c.msgs :: Signed(m)
  {
    NewMsgs(c, s);
    if s.HeartbeatSend? {
      assert NodeOk(c.procs[s.n].node, s.n, |c.procs|);
      BeatSigned(c, s.n, s.slot);
    } else if s.CallSend? {
      assert NodeOk(c.procs[s.n].node, s.n, |c.procs|);
      CallSigned(c, s.n, s.index);
    }
  }

  /** The step changes nobody's leader but in the ways named. */
  predicate LeaderKept(n: Node, n': Node) {
    n'.leaderId == n.leaderId && n'.term >= n.term && n'.id == n.id && (n'.role == Leader ==> n.role == Leader)
  }

  lemma NamesKept(h: Hist, h': Hist, n: Node, n': Node)
    requires NamesLeader(h, n) && LeaderKept(n, n')
    requires forall t | t in h.terms :: t in h'.terms && h'.terms[t].leader == h.terms[t].leader
    ensures NamesLeader(h', n')
  {
    if n.leaderId != -1 {
      var t: nat :| t <= n.term && t in h.terms && h.terms[t].leader == n.leaderId;
      assert t <= n'.term && t in h'.terms && h'.terms[t].leader == n'.leaderId;
    }
  }

  lemma CommitKeepsLeader(n: Node, index: int)
    ensures LeaderKept(n, H.CommitClient(n, index))
  {
    ApplyKeeps(n.(commitIndex := index), index);
  }

  lemma OthersKeepLeader(c: Cluster, h: Hist, s: Step)
    requires ElectionInv(c, h) && Enabled(c, s) && !s.WinElection? && !s.HandleAppend? && !s.Crash?
    requires Actor(s) < |c.procs| == |Do(c, s).procs|
    ensures LeaderKept(c.procs[Actor(s)].node, Do(c, s).procs[Actor(s)].node)
  {
    LeadsOnlyByWinning(c, h, s);
    if s.CallCommit? {
      CommitKeepsLeader(c.procs[s.n].node, s.index);
    } else if Voting(s) {
      VotingKeepsLeader(c, s);
    } else {
      RestKeepsLeader(c, s);
    }
  }

  lemma VotingKeepsLeader(c: Cluster, s: Step)
    requires Enabled(c, s) && Voting(s) && !s.WinElection? && Actor(s) < |c.procs| == |Do(c, s).procs|
    ensures LeaderKept(c.procs[Actor(s)].node, Do(c, s).procs[Actor(s)].node)
  {}

  lemma RestKeepsLeader(c: Cluster, s: Step)
    requires Enabled(c, s) && !Voting(s) && !s.CallCommit? && !s.HandleAppend? && !s.Crash?
    requires Actor(s) < |c.procs| == |Do(c, s).procs|
    ensures LeaderKept(c.procs[Actor(s)].node, Do(c, s).procs[Actor(s)].node)
  {}

  lemma AppendNames(c: Cluster, h: Hist, m: Msg)
    requires ElectionInv(c, h) && AllOwned(c, h) && AllSigned(c) && AllName(c, h) && CanHandle(c, m) && m.AppReq?
    ensures NamesLeader(h, DoHandleAppend(c, m).procs[m.dst].node)
  {
    var n, a := c.procs[m.dst].node, m.append;
    assert NodeOk(n, m.dst, |c.procs|) && LeaderRecorded(n, m.dst, h) && NamesLeader(h, n);
    assert Owned(h, m) && Signed(m) && Addressed(c, m);
    AppendReplyTells(n, a);
    AppendSettlesOrDemotes(n, a);
    assert DoHandleAppend(c, m).procs[m.dst].node == H.HandleAppend(n, a).0;
    if a.term >= n.term {
      assert a.term in h.terms && h.terms[a.term].leader == H.HandleAppend(n, a).0.leaderId;
    }
  }

  lemma WinNames(c: Cluster, h: Hist, n: nat)
    requires ElectionInv(c, h) && CanWin(c, n)
    ensures NamesLeader(RecordWin(h, c, n), DoWin(c, n).procs[n].node)
  {
    var node, h' := c.procs[n].node, RecordWin(h, c, n);
    assert NodeOk(node, n, |c.procs|);
    assert node.term in h'.terms && h'.terms[node.term].leader == n;
  }

  lemma StepNames(c: Cluster, h: Hist, s: Step)
    requires ElectionInv(c, h) && AllOwned(c, h) && AllSigned(c) && AllName(c, h) && Enabled(c, s)
    ensures AllName(Do(c, s), Recorded(h, c, s))
  {
    OnlyActor(c, s);
    forall t | t in h.terms
      ensures t in Recorded(h, c, s).terms && Recorded(h, c, s).terms[t].leader == h.terms[t].leader
    {
      RecordKept(c, h, s, t);
    }
    var c', h' := Do(c, s), Recorded(h, c, s);
    forall i | 0 <= i < |c'.procs| ensures NamesLeader(h', c'.procs[i].node) {
      if i != Actor(s) {
        NamesKept(h, h', c.procs[i].node, c'.procs[i].node);
      } else {
        ActorNames(c, h, s, h');
      }
    }
  }

  lemma ActorNames(c: Cluster, h: Hist, s: Step, h': Hist)
    requires ElectionInv(c, h) && AllOwned(c, h) && AllSigned(c) && AllName(c, h) && Enabled(c, s)
    requires Actor(s) < |c.procs| == |Do(c, s).procs| && h' == Recorded(h, c, s)
    requires forall t | t in h.terms :: t in h'.terms && h'.terms[t].leader == h.terms[t].leader
    ensures NamesLeader(h', Do(c, s).procs[Actor(s)].node)
  {
    if s.WinElection? {
      WinNames(c, h, s.n);
    } else if s.HandleAppend? {
      AppendNames(c, h, s.m);
      var n' := Do(c, s).procs[s.m.dst].node;
      NamesKept(h, h', n', n');
    } else if s.Crash? {
      RestartForgets(c.procs[s.n].node, s.replayed);
    } else {
      OthersKeepLeader(c, h, s);
      NamesKept(h, h', c.procs[Actor(s)].node, Do(c, s).procs[Actor(s)].node);
    }
  }

  lemma InitNames(c: Cluster, h: Hist)
    requires Init(c)
    ensures AllName(c, h) && AllSigned(c)
  {
    assert forall i | 0 <= i < |c.procs| :: Fresh(c.procs[i].node, i, |c.procs|);
  }

  lemma NextNames(r: seq<Cluster>, steps: seq<Step>, j: nat)
    requires IsRun(r, steps) && j < |steps| && AllName(r[j], HistoryOf(r, steps, j)) && AllSigned(r[j])
    ensures AllName(r[j + 1], HistoryOf(r, steps, j + 1)) && AllSigned(r[j + 1])
  {
    RunKeeps(r, steps, j);
    RunOwned(r, steps, j);
    assert RunStep(r, steps, j);
    StepNames(r[j], HistoryOf(r, steps, j), steps[j]);
    SignedStep(r[j], HistoryOf(r, steps, j), steps[j]);
  }

  /** Over all runs the leader a node names, to which it sends clients, has led a term up to the node's,
      and a leader names itself. */
  lemma {:induction false} RunNames(r: seq<Cluster>, steps: seq<Step>, k: nat)
    requires IsRun(r, steps) && k <= |steps|
    ensures AllName(r[k], HistoryOf(r, steps, k)) && AllSigned(r[k])
  {
    if k == 0 {
      InitNames(r[0], HistoryOf(r, steps, 0));
    } else {
      RunNames(r, steps, k - 1);
      NextNames(r, steps, k - 1);
    }
  }

  // ---------- what a leader takes to be confirmed ----------

  /** What the leader takes a peer to have confirmed, the peer has acknowledged: every entry of the
      leader's own term up to it. */
  predicate MatchAcked(h: Hist, n: Node, id: nat, i: nat)
    requires i < |n.matchIndex|
  {
    n.matchIndex[i] >= 0 && n.term in h.terms ==>
      n.matchIndex[i] < |n.log|
      && forall k: nat | h.terms[n.term].start <= k <= n.matchIndex[i] :: Ack(PeerId(id, i), n.term, k) in h.acks
  }

  predicate MatchesAcked(h: Hist, n: Node, id: nat) {
    n.role == Leader ==> forall i | 0 <= i < |n.matchIndex| :: MatchAcked(h, n, id, i)
  }

  predicate AllMatchesAcked(c: Cluster, h: Hist) {
    forall n | 0 <= n < |c.procs| :: MatchesAcked(h, c.procs[n].node, n)
  }

  /** The leader goes on with the same term and the same or a longer log. */
  predicate SameMatches(n: Node, n': Node) {
    n'.role == Leader ==>
      n.role == Leader && n'.term == n.term && n'.matchIndex == n.matchIndex && |n.log| <= |n'.log|
  }

  predicate MoreAcks(h: Hist, h': Hist) {
    h.acks <= h'.acks && forall t | t in h'.terms && t in h.terms :: h'.terms[t].start == h.terms[t].start
  }

  lemma MatchesKept(h: Hist, h': Hist, n: Node, n': Node, id: nat)
    requires MatchesAcked(h, n, id) && SameMatches(n, n') && MoreAcks(h, h')
    requires n.role == Leader ==> n.term in h.terms
    ensures MatchesAcked(h', n', id)
  {
    if n'.role == Leader {
      forall i | 0 <= i < |n'.matchIndex| ensures MatchAcked(h', n', id, i) {
        assert MatchAcked(h, n, id, i);
      }
    }
  }

  /** One peer's reply was taken: the others are as before, and of it no more is taken to be confirmed
      than it acknowledged. */
  lemma OneMatchMoves(h: Hist, n: Node, n': Node, id: nat, i: nat, next: int, matched: int)
    requires MatchesAcked(h, n, id) && n.role == Leader && i < |n.nextIndex| && i < |n.matchIndex|
    requires Knows(n, n', i, next, matched) && n.term in h.terms
    requires matched == n.matchIndex[i]
      || (matched < |n.log|
          && forall k: nat | h.terms[n.term].start <= k <= matched :: Ack(PeerId(id, i), n.term, k) in h.acks)
    ensures MatchesAcked(h, n', id)
  {
    forall j | 0 <= j < |n'.matchIndex| ensures MatchAcked(h, n', id, j) {
      assert MatchAcked(h, n, id, j);
    }
  }

  lemma SlotOfPeer(n: nat, p: nat)
    requires p != n
    ensures PeerId(n, PeerSlot(n, p)) == p
  {}

  lemma BeatReplyMatches(c: Cluster, h: Hist, n: nat, m: Msg)
    requires ElectionInv(c, h) && LogInv(c, h) && AckInv(c, h) && AllMatchesAcked(c, h)
    requires IsLeader(c, n) && CanTakeBeat(c, n, m)
    ensures MatchesAcked(h, DoTakeBeat(c, n, m).procs[n].node, n)
  {
    var l, a, r, i := c.procs[n].node, m.append, m.appendReply, PeerSlot(n, m.src);
    assert MsgOk(h, m) && ReplyAcked(h, m) && ProcOk(h, c.procs[n]) && LeaderRecorded(l, n, h);
    assert MatchesAcked(h, l, n);
    SlotOfPeer(n, m.src);
    HeartbeatTeaches(l, i, a, r);
    var l' := H.HeartbeatReply(l, i, a.prevLogIndex + 1, |a.entries|, r);
    if r.term <= l.term && !(r.success && a.entries == []) {
      OneMatchMoves(h, l, l', n, i, if r.success then End(a) else LessOne(l.nextIndex[i]),
                    if r.success then End(a) - 1 else l.matchIndex[i]);
    }
  }

  lemma CallReplyMatches(c: Cluster, h: Hist, n: nat, index: int, m: Msg)
    requires ElectionInv(c, h) && LogInv(c, h) && AckInv(c, h) && AllMatchesAcked(c, h)
    requires CanCall(c, n, index) && CanTakeReply(c, n, index, m)
    ensures MatchesAcked(h, DoCallReply(c, n, index, m).procs[n].node, n)
  {
    var p := c.procs[n];
    var l, r, i := p.node, m.appendReply, p.calls[index].peer;
    assert MsgOk(h, m) && ReplyAcked(h, m) && ProcOk(h, p) && LeaderRecorded(l, n, h);
    assert CallOk(h, p, n, index, |c.procs|) && MatchesAcked(h, l, n);
    CallTeaches(l, i, index, r);
    if r.term <= l.term {
      OneMatchMoves(h, l, H.ClientReply(l, i, index, r), n, i, if r.success then index + 1 else LessOne(l.nextIndex[i]),
                    if r.success then index else l.matchIndex[i]);
    }
  }

  lemma WinMatches(h: Hist, n: Node, id: nat)
    ensures MatchesAcked(h, H.WinElection(n), id)
  {}

  lemma QuietMatches(c: Cluster, h: Hist, s: Step)
    requires ElectionInv(c, h) && LogInv(c, h) && Enabled(c, s) && !SnapshotStep(s)
    requires NoSnapshots(c) && NoSnapshots(Do(c, s)) && Actor(s) < |c.procs| == |Do(c, s).procs|
    requires !s.WinElection? && !s.HeartbeatReply? && !s.CallReply?
    ensures SameMatches(c.procs[Actor(s)].node, Do(c, s).procs[Actor(s)].node)
  {
    LeadsOnlyByWinning(c, h, s);
    if s.CallCommit? {
      CommitKeepsLog(c, s.n, s.index);
      ApplyKeeps(c.procs[s.n].node.(commitIndex := s.index), s.index);
    } else if s.HandleAppend? {
      HandlesAsFollower(c, h, s.m);
    } else if Voting(s) {
      VotingSameMatches(c, s);
    } else {
      RestSameMatches(c, s);
    }
  }

  lemma VotingSameMatches(c: Cluster, s: Step)
    requires Enabled(c, s) && Voting(s) && !s.WinElection? && Actor(s) < |c.procs| == |Do(c, s).procs|
    requires Do(c, s).procs[Actor(s)].node.role == Leader ==>
      c.procs[Actor(s)].node.role == Leader && Do(c, s).procs[Actor(s)].node.term == c.procs[Actor(s)].node.term
    ensures SameMatches(c.procs[Actor(s)].node, Do(c, s).procs[Actor(s)].node)
  {}

  lemma RestSameMatches(c: Cluster, s: Step)
    requires Enabled(c, s) && !Voting(s) && !SnapshotStep(s) && Actor(s) < |c.procs| == |Do(c, s).procs|
    requires !s.HandleAppend? && !s.CallCommit? && !s.HeartbeatReply? && !s.CallReply?
    ensures SameMatches(c.procs[Actor(s)].node, Do(c, s).procs[Actor(s)].node)
  {}

  /** A node that leads after a request led before it, and the request was stale. */
  lemma HandlesAsFollower(c: Cluster, h: Hist, m: Msg)
    requires ElectionInv(c, h) && LogInv(c, h) && CanHandle(c, m) && m.AppReq?
    ensures SameMatches(c.procs[m.dst].node, DoHandleAppend(c, m).procs[m.dst].node)
  {
    var n, a := c.procs[m.dst].node, m.append;
    assert NodeOk(n, m.dst, |c.procs|) && LeaderRecorded(n, m.dst, h) && MsgOk(h, m) && Addressed(c, m);
    AppendSettlesOrDemotes(n, a);
    assert n.role == Leader ==> a.term != n.term;
    assert DoHandleAppend(c, m).procs[m.dst].node == H.HandleAppend(n, a).0;
  }

  lemma ActorMatches(c: Cluster, h: Hist, s: Step, h': Hist)
    requires ElectionInv(c, h) && LogInv(c, h) && AckInv(c, h) && AllMatchesAcked(c, h) && Enabled(c, s)
    requires !SnapshotStep(s) && NoSnapshots(c) && NoSnapshots(Do(c, s)) && Actor(s) < |c.procs| == |Do(c, s).procs|
    requires h' == Recorded(h, c, s) && MoreAcks(h, h')
    ensures MatchesAcked(h', Do(c, s).procs[Actor(s)].node, Actor(s))
  {
    var n, n' := c.procs[Actor(s)].node, Do(c, s).procs[Actor(s)].node;
    assert LeaderRecorded(n, Actor(s), h) && MatchesAcked(h, n, Actor(s));
    if s.WinElection? {
      WinMatches(h', n, s.n);
    } else if s.HeartbeatReply? {
      BeatReplyMatches(c, h, s.n, s.m);
    } else if s.CallReply? {
      CallReplyMatches(c, h, s.n, s.index, s.m);
    } else {
      QuietMatches(c, h, s);
      MatchesKept(h, h', n, n', Actor(s));
    }
  }

  lemma StepMatches(c: Cluster, h: Hist, s: Step, h': Hist)
    requires ElectionInv(c, h) && LogInv(c, h) && AckInv(c, h) && AllMatchesAcked(c, h) && Enabled(c, s)
    requires !SnapshotStep(s) && NoSnapshots(c) && NoSnapshots(Do(c, s))
    requires h' == Recorded(h, c, s) && MoreAcks(h, h')
    ensures AllMatchesAcked(Do(c, s), h')
  {
    OnlyActor(c, s);
    var c' := Do(c, s);
    forall i | 0 <= i < |c'.procs| ensures MatchesAcked(h', c'.procs[i].node, i) {
      if i == Actor(s) {
        ActorMatches(c, h, s, h');
      } else {
        assert LeaderRecorded(c.procs[i].node, i, h) && MatchesAcked(h, c.procs[i].node, i);
        MatchesKept(h, h', c.procs[i].node, c'.procs[i].node, i);
      }
    }
  }

  lemma StepMoreAcks(c: Cluster, h: Hist, s: Step)
    requires Enabled(c, s) && Grows(h, Recorded(h, c, s))
    ensures MoreAcks(h, Recorded(h, c, s))
  {}

  lemma InitMatches(c: Cluster, h: Hist)
    requires Init(c)
    ensures AllMatchesAcked(c, h)
  {
    assert forall i | 0 <= i < |c.procs| :: Fresh(c.procs[i].node, i, |c.procs|);
  }

  lemma NextMatches(r: seq<Cluster>, steps: seq<Step>, j: nat)
    requires IsRun(r, steps) && CompactionFree(r) && NothingLost(r, steps) && j < |steps|
    requires AllMatchesAcked(r[j], HistoryOf(r, steps, j))
    ensures AllMatchesAcked(r[j + 1], HistoryOf(r, steps, j + 1))
  {
    NoSnapshotStep(r, steps, j);
    RunKeeps(r, steps, j);
    RunKeepsLogs(r, steps, j);
    RunKeepsAcks(r, steps, j);
    StepGrows(r, steps, j);
    StepMoreAcks(r[j], HistoryOf(r, steps, j), steps[j]);
    StepMatches(r[j], HistoryOf(r, steps, j), steps[j], HistoryOf(r, steps, j + 1));
  }

  /** Over the runs of `AckSteps.RunKeepsAcks`, what a leader takes a peer to have confirmed is never more
      than the peer acknowledged. */
  lemma {:induction false} RunMatchesAcked(r: seq<Cluster>, steps: seq<Step>, k: nat)
    requires IsRun(r, steps) && CompactionFree(r) && NothingLost(r, steps) && k <= |steps|
    ensures AllMatchesAcked(r[k], HistoryOf(r, steps, k))
  {
    if k == 0 {
      InitMatches(r[0], HistoryOf(r, steps, 0));
    } else {
      RunMatchesAcked(r, steps, k - 1);
      NextMatches(r, steps, k - 1);
    }
  }
}
