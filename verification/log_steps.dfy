/** What a step does to a node's log, in memory and on disk, to its term and candidacy, and which
    messages it can add, in runs without compaction. */
module LogSteps {
  import opened RaftTypes
  import opened Protocol
  import opened History
  import opened ElectionSafety
  import opened LogMatching
  import opened Votes

  /** A candidate's log stays while its candidacy lasts. */
  predicate Stands(n: Node, n': Node) {
    && n'.term >= n.term
    && (n'.role == Candidate && n'.term == n.term ==> n.role == Candidate && n'.log == n.log)
  }

  /** What is saved is in the log. */
  predicate Saved(n: Node) {
    n.disk.log <= n.log
  }

  /** What was saved stays saved. */
  predicate KeepsSaved(n: Node, n': Node) {
    n.disk.log <= n'.disk.log <= n'.log && n.term <= n'.term
  }

  /** Nothing but a save happened to the log. */
  predicate AtMostSaved(n: Node, n': Node) {
    n'.log == n.log && (n'.disk.log == n.disk.log || n'.disk.log == n.log)
  }

  lemma VotingKeepsLog(c: Cluster, s: Step)
    requires Enabled(c, s) && Voting(s)
    ensures var n, n' := c.procs[Actor(s)].node, Do(c, s).procs[Actor(s)].node;
      AtMostSaved(n, n') && Stands(n, n')
  {}

  lemma CommitKeepsLog(c: Cluster, n: nat, index: int)
    requires CanCommit(c, n, index) && NoSnapshots(c) && NoSnapshots(DoCommit(c, n, index))
    ensures var node, node' := c.procs[n].node, DoCommit(c, n, index).procs[n].node;
      node'.log == node'.disk.log == node.log && Stands(node, node')
  {
    ApplyKeeps(c.procs[n].node.(commitIndex := index), index);
    assert DoCommit(c, n, index).procs[n].node.snapshot.None?;
  }

  lemma LeadingKeepsLog(c: Cluster, s: Step)
    requires Enabled(c, s) && Leading(s) && NoSnapshots(c) && NoSnapshots(Do(c, s))
    ensures var n, n' := c.procs[Actor(s)].node, Do(c, s).procs[Actor(s)].node;
      && n.log <= n'.log && Stands(n, n')
      && (if s.ClientAppend? then n'.disk == n.disk else AtMostSaved(n, n'))
  {
    if s.CallCommit? {
      CommitKeepsLog(c, s.n, s.index);
    }
  }

  lemma RestartStands(c: Cluster, h: Hist, n: nat, replayed: KV)
    requires ElectionInv(c, h) && n < |c.procs| && c.procs[n].node.disk.snapshot.None?
    ensures var node, node' := c.procs[n].node, DoCrash(c, n, replayed).procs[n].node;
      && node'.disk == node.disk && node'.log == node.disk.log && node'.commitIndex == 0
      && Stands(node, node') && KeepsSaved(node, node') && DoCrash(c, n, replayed).procs[n].calls == map[]
  {
    assert NodeOk(c.procs[n].node, n, |c.procs|);
  }

  /** A node's candidacy and its log go together over every step. */
  lemma StepExtends(c: Cluster, h: Hist, s: Step)
    requires ElectionInv(c, h) && Enabled(c, s) && !SnapshotStep(s) && NoSnapshots(c) && NoSnapshots(Do(c, s))
    ensures Frame(c, Do(c, s), Actor(s))
    ensures Stands(c.procs[Actor(s)].node, Do(c, s).procs[Actor(s)].node)
  {
    OnlyActor(c, s);
    MsgsGrow(c, s);
    if Voting(s) {
      VotingKeepsLog(c, s);
    } else if Leading(s) {
      LeadingKeepsLog(c, s);
    } else if s.Crash? {
      CrashedNode(c, s.n, s.replayed);
      RestartStands(c, h, s.n, s.replayed);
    } else {
      assert NodeOk(c.procs[s.m.dst].node, s.m.dst, |c.procs|);
      AppendSettlesOrDemotes(c.procs[s.m.dst].node, s.m.append);
    }
  }

  /** A node that comes up without a snapshot had none on disk. */
  lemma CrashedNode(c: Cluster, n: nat, replayed: KV)
    requires n < |c.procs| && NoSnapshots(DoCrash(c, n, replayed))
    ensures c.procs[n].node.disk.snapshot.None?
  {
    assert DoCrash(c, n, replayed).procs[n].node.snapshot.None?;
  }

  /** Only AppendEntries can take a saved entry off the disk. */
  lemma StepSaves(c: Cluster, h: Hist, s: Step)
    requires ElectionInv(c, h) && Enabled(c, s) && !SnapshotStep(s) && !s.HandleAppend?
    requires NoSnapshots(c) && NoSnapshots(Do(c, s)) && Actor(s) < |c.procs| == |Do(c, s).procs|
    requires Saved(c.procs[Actor(s)].node)
    ensures KeepsSaved(c.procs[Actor(s)].node, Do(c, s).procs[Actor(s)].node)
  {
    if Voting(s) {
      VotingKeepsLog(c, s);
    } else if Leading(s) {
      LeadingKeepsLog(c, s);
    } else {
      CrashedNode(c, s.n, s.replayed);
      RestartStands(c, h, s.n, s.replayed);
    }
  }

  /** Leadership begins only with an election. */
  lemma LeadsOnlyByWinning(c: Cluster, h: Hist, s: Step)
    requires ElectionInv(c, h) && Enabled(c, s) && !s.WinElection?
    ensures Actor(s) < |c.procs| == |Do(c, s).procs|
    ensures var n, n' := c.procs[Actor(s)].node, Do(c, s).procs[Actor(s)].node;
      n'.role == Leader ==> n.role == Leader && n'.term == n.term
  {
    if Voting(s) {
      VotingKeepsRole(c, s);
    } else {
      StepReacts(c, h, s);
    }
  }

  lemma VotingKeepsRole(c: Cluster, s: Step)
    requires Enabled(c, s) && Voting(s) && !s.WinElection?
    ensures Actor(s) < |c.procs| == |Do(c, s).procs|
    ensures var n, n' := c.procs[Actor(s)].node, Do(c, s).procs[Actor(s)].node;
      n'.role == Leader ==> n.role == Leader && n'.term == n.term
  {}

  predicate CallStep(s: Step) {
    || s.ClientAppend? || s.CallSend? || s.CallReply? || s.CallMiss? || s.CallRefused? || s.CallCommit?
    || s.WinElection? || s.Crash?
  }

  lemma CallsStay(c: Cluster, s: Step)
    requires Enabled(c, s) && !CallStep(s)
    ensures Actor(s) < |c.procs| == |Do(c, s).procs|
    ensures Do(c, s).procs[Actor(s)].calls == c.procs[Actor(s)].calls
  {}

  lemma MsgsGrow(c: Cluster, s: Step)
    requires Enabled(c, s)
    ensures c.msgs <= Do(c, s).msgs
  {}

  lemma NewMsgs(c: Cluster, s: Step)
    requires Enabled(c, s)
    ensures forall m | m in Do(c, s).msgs && m !in c.msgs ::
      && (m.VoteReq? ==> s.AskVote?)
      && (m.VoteRep? ==> s.HandleVote?)
      && (m.AppReq? || m.SnapReq? ==> s.HeartbeatSend? || s.CallSend? || s.SendChunk?)
      && (m.AppRep? ==> s.HandleAppend?)
  {}
}
