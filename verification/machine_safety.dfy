/** State Machine Safety: whatever two nodes apply at one index is the same command, in runs that
    meet the conditions of Leader Completeness and in which no follower commits an entry that the
    request does not confirm. */
module MachineSafety {
  import opened RaftTypes
  import opened Protocol
  import opened History
  import opened ElectionSafety
  import opened LogMatching
  import opened LogSteps
  import opened Ballots
  import opened Acknowledged
  import opened AckSteps
  import opened AppendOnly
  import opened ApplyOrder
  import opened Completeness
  import opened Confirmation
  import opened Quorums
  import opened SuccessReply
  import opened Votes
  import H = Handlers

  ghost predicate Quorum(h: Hist, size: nat, term: nat, i: nat, q: set<nat>) {
    q <= Ids(size) && 2 * |q| > size && forall x | x in q :: Ack(x, term, i) in h.acks
  }

  /** A majority acknowledged the entry at `i` of the leader of `term`. */
  ghost predicate Chosen(h: Hist, size: nat, term: nat, i: nat) {
    term in h.terms && i < |h.terms[term].log| && exists q :: Quorum(h, size, term, i, q)
  }

  /** The commit index is that of an entry chosen in a term no later than `last`, or before it. */
  ghost predicate Covered(h: Hist, size: nat, commit: int, last: nat) {
    commit <= 0 || exists t: nat, i: nat :: t <= last && commit <= i && Chosen(h, size, t, i)
  }

  /** The command read is that of an entry at or before a chosen one. */
  ghost predicate ReadOk(h: Hist, size: nat, r: Read) {
    exists t: nat, i: nat ::
      Chosen(h, size, t, i) && 0 <= r.index <= i && r.command == Some(h.terms[t].log[r.index].command)
  }

  ghost predicate CommitsCovered(c: Cluster, h: Hist) {
    && (forall v | 0 <= v < |c.procs| :: Covered(h, |c.procs|, c.procs[v].node.commitIndex, c.procs[v].node.term))
    && (forall m | m in c.msgs && m.AppReq? :: Covered(h, |c.procs|, m.append.leaderCommit, m.append.term))
  }

  lemma ChosenKept(h: Hist, h': Hist, size: nat, term: nat, i: nat)
    requires Grows(h, h') && h.acks <= h'.acks && Chosen(h, size, term, i)
    ensures Chosen(h', size, term, i) && UpTo(h', term, i) == UpTo(h, term, i)
  {
    var q :| Quorum(h, size, term, i, q);
    assert Quorum(h', size, term, i, q);
  }

  lemma CoveredKept(h: Hist, h': Hist, size: nat, commit: int, commit': int, last: nat, last': nat)
    requires Grows(h, h') && h.acks <= h'.acks && Covered(h, size, commit, last)
    requires commit' <= commit && last <= last'
    ensures Covered(h', size, commit', last')
  {
    if commit' > 0 {
      var t: nat, i: nat :| t <= last && commit <= i && Chosen(h, size, t, i);
      ChosenKept(h, h', size, t, i);
    }
  }

  lemma ReadKept(h: Hist, h': Hist, size: nat, r: Read)
    requires Grows(h, h') && h.acks <= h'.acks && ReadOk(h, size, r)
    ensures ReadOk(h', size, r)
  {
    var t: nat, i: nat :|
      Chosen(h, size, t, i) && 0 <= r.index <= i && r.command == Some(h.terms[t].log[r.index].command);
    ChosenKept(h, h', size, t, i);
    assert h.terms[t].log[r.index] == h'.terms[t].log[r.index];
  }

  // ---------- commit indices ----------

  /** AppendEntries moves the commit index no further than the request says. */
  lemma AppendCommit(n: Node, a: AppendArgs)
    requires H.HandleAppend(n, a).0.snapshot.None?
    ensures var n' := H.HandleAppend(n, a).0;
      n'.commitIndex == n.commitIndex || (a.term >= n.term && n'.commitIndex <= a.leaderCommit)
  {
    if a.term >= n.term {
      var d := H.StepDown(n, a);
      var t := H.TakeEntries(d, a);
      var target := H.CommitTarget(t, a.leaderCommit);
      ApplyKeeps(t.(commitIndex := target), target);
    }
  }

  lemma LeaderCommit(n: Node, index: int)
    ensures H.CommitClient(n, index).commitIndex == index && H.CommitClient(n, index).term == n.term
  {
    ApplyKeeps(n.(commitIndex := index), index);
  }

  /** What a leader sends carries its term and its commit index. */
  lemma RequestsCommit(c: Cluster, s: Step)
    requires Enabled(c, s)
    ensures forall m | m in Do(c, s).msgs && m !in c.msgs && m.AppReq? ::
      && (s.HeartbeatSend? || s.CallSend?) && s.n < |c.procs|
      && m.append.term == c.procs[s.n].node.term && m.append.leaderCommit == c.procs[s.n].node.commitIndex
  {}

  lemma RequestsCovered(c: Cluster, h: Hist, s: Step, h': Hist)
    requires CommitsCovered(c, h) && Enabled(c, s) && Grows(h, h') && h.acks <= h'.acks
    requires |Do(c, s).procs| == |c.procs|
    ensures forall m | m in Do(c, s).msgs && m.AppReq? :: Covered(h', |c.procs|, m.append.leaderCommit, m.append.term)
  {
    RequestsCommit(c, s);
    forall m | m in Do(c, s).msgs && m.AppReq? ensures Covered(h', |c.procs|, m.append.leaderCommit, m.append.term) {
      CoveredKept(h, h', |c.procs|, m.append.leaderCommit, m.append.leaderCommit, m.append.term, m.append.term);
    }
  }

  /** The entry a leader commits is chosen. */
  lemma CommitIsChosen(c: Cluster, h: Hist, n: nat, index: int, h': Hist)
    requires ElectionInv(c, h) && LogInv(c, h) && AckInv(c, h) && CanCommit(c, n, index)
    requires h' == RecordCommit(h, c.procs[n].node, n, index)
    ensures index >= 0 && Chosen(h', |c.procs|, c.procs[n].node.term, index)
    ensures h'.terms[c.procs[n].node.term].log == c.procs[n].node.log
  {
    CommittedEntry(c, h, n, index);
    var q := CountQuorum(c, h, n, index, h');
    assert Quorum(h', |c.procs|, c.procs[n].node.term, index, q);
  }

  lemma QuietCommit(c: Cluster, s: Step)
    requires Enabled(c, s) && !SnapshotStep(s) && !s.CallCommit? && !s.HandleAppend? && !s.Crash?
    ensures Actor(s) < |c.procs| == |Do(c, s).procs|
    ensures Do(c, s).procs[Actor(s)].node.commitIndex == c.procs[Actor(s)].node.commitIndex
  {
    if Voting(s) {
      VotingTouchesNothing(c, s);
    } else if !Touching(s) {
      OthersTouchNothing(c, s);
    }
  }

  lemma ActorCovered(c: Cluster, h: Hist, s: Step, h': Hist)
    requires ElectionInv(c, h) && LogInv(c, h) && AckInv(c, h) && CommitsCovered(c, h)
    requires Enabled(c, s) && !SnapshotStep(s) && NoSnapshots(c) && NoSnapshots(Do(c, s))
    requires h' == Recorded(h, c, s) && Grows(h, h') && h.acks <= h'.acks && Frame(c, Do(c, s), Actor(s))
    requires Stands(c.procs[Actor(s)].node, Do(c, s).procs[Actor(s)].node)
    ensures var n' := Do(c, s).procs[Actor(s)].node; Covered(h', |c.procs|, n'.commitIndex, n'.term)
  {
    var n, n' := c.procs[Actor(s)].node, Do(c, s).procs[Actor(s)].node;
    if s.CallCommit? {
      CommitIsChosen(c, h, s.n, s.index, h');
      LeaderCommit(n, s.index);
    } else if s.Crash? {
      CrashedNode(c, s.n, s.replayed);
      RestartStands(c, h, s.n, s.replayed);
    } else if s.HandleAppend? {
      HandlingFrames(c, s.m);
      assert n'.snapshot.None?;
      AppendCommit(n, s.m.append);
      assert NodeOk(n, s.m.dst, |c.procs|);
      AppendSettlesOrDemotes(n, s.m.append);
      if n'.commitIndex == n.commitIndex {
        CoveredKept(h, h', |c.procs|, n.commitIndex, n.commitIndex, n.term, n'.term);
      } else {
        CoveredKept(h, h', |c.procs|, s.m.append.leaderCommit, n'.commitIndex, s.m.append.term, n'.term);
      }
    } else {
      QuietCommit(c, s);
      CoveredKept(h, h', |c.procs|, n.commitIndex, n.commitIndex, n.term, n'.term);
    }
  }

  lemma StepCovered(c: Cluster, h: Hist, s: Step, h': Hist)
    requires ElectionInv(c, h) && LogInv(c, h) && AckInv(c, h) && CommitsCovered(c, h)
    requires Enabled(c, s) && !SnapshotStep(s) && NoSnapshots(c) && NoSnapshots(Do(c, s))
    requires h' == Recorded(h, c, s) && Grows(h, h') && h.acks <= h'.acks
    ensures CommitsCovered(Do(c, s), h')
  {
    var c' := Do(c, s);
    StepExtends(c, h, s);
    ActorCovered(c, h, s, h');
    RequestsCovered(c, h, s, h');
    forall v | 0 <= v < |c'.procs|
      ensures Covered(h', |c'.procs|, c'.procs[v].node.commitIndex, c'.procs[v].node.term)
    {
      if v != Actor(s) {
        var n := c.procs[v].node;
        CoveredKept(h, h', |c.procs|, n.commitIndex, n.commitIndex, n.term, n.term);
      }
    }
  }

  // ---------- reads ----------

  /** An apply loop reads its own log, at the indices it passes. */
  lemma {:induction false} TraceReads(n: Node, target: int)
    ensures forall r | r in ApplyTrace(n, target) ::
      n.lastApplied < r.index <= target && r.command == H.CommandAt(n, r.index)
    decreases target - n.lastApplied
  {
    if n.lastApplied < target {
      var next := n.(lastApplied := n.lastApplied + 1);
      TraceReads(next, target);
      assert forall i :: H.CommandAt(next, i) == H.CommandAt(n, i);
    }
  }

  /** A leader's log has what was chosen up to its term. */
  lemma LeaderHasChosen(c: Cluster, h: Hist, term: nat, i: nat, later: nat)
    requires ElectionInv(c, h) && LogInv(c, h) && BallotInv(c, h) && AckInv(c, h)
    requires Chosen(h, |c.procs|, term, i) && later in h.terms && term <= later
    ensures UpTo(h, term, i) <= h.terms[later].log
  {
    if term < later {
      var q :| Quorum(h, |c.procs|, term, i, q);
      MajorityPassesOn(c, h, term, i, q, later);
    }
  }

  lemma SameAt(a: Log, b: Log, i: nat, k: nat)
    requires i < |a| && k <= i && a[..i + 1] <= b
    ensures k < |b| && a[k] == b[k]
  {
    assert a[..i + 1][k] == b[k];
  }

  /** An entry of a later leader's log, at an index a chosen entry covers. */
  lemma LeaderReadOk(c: Cluster, h: Hist, commit: int, term: nat, r: Read)
    requires ElectionInv(c, h) && LogInv(c, h) && BallotInv(c, h) && AckInv(c, h)
    requires Covered(h, |c.procs|, commit, term) && term in h.terms && 0 < r.index <= commit
    requires r.index < |h.terms[term].log| && r.command == Some(h.terms[term].log[r.index].command)
    ensures ReadOk(h, |c.procs|, r)
  {
    var t: nat, i: nat :| t <= term && commit <= i && Chosen(h, |c.procs|, t, i);
    LeaderHasChosen(c, h, t, i, term);
    SameAt(h.terms[t].log, h.terms[term].log, i, r.index);
  }

  lemma ChosenReads(h: Hist, size: nat, n: Node, index: nat, r: Read)
    requires Chosen(h, size, n.term, index) && h.terms[n.term].log == n.log && n.snapshot.None? && n.lastApplied >= 0
    requires r in ApplyTrace(n, index)
    ensures ReadOk(h, size, r)
  {
    TraceReads(n, index);
    assert r.command == Some(h.terms[n.term].log[r.index].command);
  }

  lemma CommitReads(c: Cluster, h: Hist, n: nat, index: int, r: Read, h': Hist)
    requires ElectionInv(c, h) && LogInv(c, h) && AckInv(c, h) && CanCommit(c, n, index)
    requires c.procs[n].node.snapshot.None? && SnapOk(c.procs[n].node)
    requires r in ApplyTrace(c.procs[n].node, index) && h' == RecordCommit(h, c.procs[n].node, n, index)
    ensures ReadOk(h', |c.procs|, r)
  {
    CommitIsChosen(c, h, n, index, h');
    ChosenReads(h', |c.procs|, c.procs[n].node, index, r);
  }

  /** A follower commits only what the request confirms. */
  predicate CommitsConfirmed(c: Cluster, s: Step) {
    s.HandleAppend? && s.m.AppReq? && s.m.dst < |c.procs| ==> CommitConfirmed(c.procs[s.m.dst].node, s.m.append)
  }

  lemma TakenEntries(n: Node, a: AppendArgs)
    requires n.snapshot.None? && a.term >= n.term
    ensures var t := H.TakeEntries(H.StepDown(n, a), a);
      t.log == TakenLog(n, a) && t.snapshot.None? && t.lastApplied == n.lastApplied
  {}

  /** What a follower commits it shares with the sender's log. */
  lemma ConfirmedShared(h: Hist, log: Log, a: AppendArgs, i: int)
    requires a.term in h.terms && Good(h, log) && Took(h, a, log) && 0 <= i < |log| && Confirmed(log, a, i)
    ensures AgreeTo(log, h.terms[a.term].log, i + 1)
  {
    if i < End(a) {
      AgreeLess(log, h.terms[a.term].log, End(a), i + 1);
    } else {
      OwnEntries(h, log, a.term, i);
    }
  }

  /** What a follower applies it has from the sender's log. */
  lemma FollowerReads(h: Hist, n: Node, a: AppendArgs, r: Read)
    requires n.snapshot.None? && SnapOk(n) && H.Commits(n, a) && CommitConfirmed(n, a)
    requires Good(h, TakenLog(n, a)) && Took(h, a, TakenLog(n, a)) && r in FollowerTrace(n, a)
    ensures 0 < r.index <= a.leaderCommit && r.index < |h.terms[a.term].log|
    ensures r.command == Some(h.terms[a.term].log[r.index].command)
  {
    TakenEntries(n, a);
    TargetOf(n, a);
    var i := Target(n, a);
    TraceReads(H.TakeEntries(H.StepDown(n, a), a), i);
    ConfirmedShared(h, TakenLog(n, a), a, i);
    SameAt(TakenLog(n, a)[..i + 1], h.terms[a.term].log, i, r.index);
  }

  lemma TakenLogGood(c: Cluster, h: Hist, m: Msg)
    requires LogInv(c, h) && CanHandle(c, m) && m.AppReq? && c.procs[m.dst].node.snapshot.None?
    ensures Good(h, TakenLog(c.procs[m.dst].node, m.append))
  {
    assert ProcOk(h, c.procs[m.dst]) && MsgOk(h, m) && RecOk(h, m.append.term);
    TakenGood(h, c.procs[m.dst].node, m.src, m.append);
  }

  lemma AppendReads(c: Cluster, h: Hist, m: Msg, r: Read)
    requires ElectionInv(c, h) && LogInv(c, h) && BallotInv(c, h) && AckInv(c, h) && CommitsCovered(c, h)
    requires CanHandle(c, m) && m.AppReq? && NoSnapshots(c) && NoSnapshots(DoHandleAppend(c, m))
    requires LosesNothing(c, Step.HandleAppend(m)) && CommitConfirmed(c.procs[m.dst].node, m.append)
    requires SnapOk(c.procs[m.dst].node) && H.Commits(c.procs[m.dst].node, m.append)
    requires r in FollowerTrace(c.procs[m.dst].node, m.append)
    ensures ReadOk(h, |c.procs|, r)
  {
    var n, a := c.procs[m.dst].node, m.append;
    AppendHasEffect(c, h, m);
    HandlingFrames(c, m);
    TakenLogGood(c, h, m);
    FollowerReads(h, n, a, r);
    LeaderReadOk(c, h, a.leaderCommit, a.term, r);
  }

  lemma StepReads(c: Cluster, h: Hist, s: Step, v: nat, r: Read, h': Hist)
    requires ElectionInv(c, h) && LogInv(c, h) && BallotInv(c, h) && AckInv(c, h) && CommitsCovered(c, h)
    requires Enabled(c, s) && NoSnapshots(c) && NoSnapshots(Do(c, s)) && LosesNothing(c, s) && CommitsConfirmed(c, s)
    requires v < |c.procs| && SnapOk(c.procs[v].node) && r in StepTrace(c, s, v)
    requires h' == Recorded(h, c, s) && Grows(h, h') && h.acks <= h'.acks
    ensures ReadOk(h', |c.procs|, r)
  {
    if s.HandleAppend? {
      AppendReads(c, h, s.m, r);
      ReadKept(h, h', |c.procs|, r);
    } else if s.CallCommit? {
      assert c.procs[v].node.snapshot.None?;
      CommitReads(c, h, s.n, s.index, r, h');
    }
  }

  // ---------- runs ----------

  /** The conditions of Leader Completeness, and only confirmed commits. */
  ghost predicate Orderly(r: seq<Cluster>, steps: seq<Step>) {
    && IsRun(r, steps) && CompactionFree(r) && NothingLost(r, steps)
    && forall k | 0 <= k < |steps| :: CommitsConfirmed(r[k], steps[k])
  }

  lemma InitCovered(c: Cluster, h: Hist)
    requires Init(c)
    ensures CommitsCovered(c, h)
  {
    assert forall v | 0 <= v < |c.procs| :: Fresh(c.procs[v].node, v, |c.procs|);
  }

  lemma {:induction false} RunCovered(r: seq<Cluster>, steps: seq<Step>, k: nat)
    requires Orderly(r, steps) && k <= |steps|
    ensures CommitsCovered(r[k], HistoryOf(r, steps, k))
  {
    if k == 0 {
      InitCovered(r[0], HistoryOf(r, steps, 0));
    } else {
      var j := k - 1;
      RunCovered(r, steps, j);
      RunKeepsAll(r, steps, j);
      NoSnapshotStep(r, steps, j);
      StepGrows(r, steps, j);
      AcksGrow(r, steps, j, k);
      StepCovered(r[j], HistoryOf(r, steps, j), steps[j], HistoryOf(r, steps, k));
    }
  }

  lemma RunStepReads(r: seq<Cluster>, steps: seq<Step>, j: nat, v: nat, x: Read)
    requires Orderly(r, steps) && j < |steps| && v < |r[0].procs|
    requires Enabled(r[j], steps[j]) && x in StepTrace(r[j], steps[j], v)
    ensures ReadOk(HistoryOf(r, steps, j + 1), |r[0].procs|, x)
  {
    SameSize(r, steps, j);
    RunCovered(r, steps, j);
    RunKeepsAll(r, steps, j);
    NoSnapshotStep(r, steps, j);
    RunSnapOk(r, steps, j, v);
    StepGrows(r, steps, j);
    AcksGrow(r, steps, j, j + 1);
    assert LosesNothing(r[j], steps[j]) && CommitsConfirmed(r[j], steps[j]);
    StepReads(r[j], HistoryOf(r, steps, j), steps[j], v, x, HistoryOf(r, steps, j + 1));
  }

  lemma ReadStays(r: seq<Cluster>, steps: seq<Step>, j: nat, x: Read)
    requires Orderly(r, steps) && j < |steps| && ReadOk(HistoryOf(r, steps, j), |r[0].procs|, x)
    ensures ReadOk(HistoryOf(r, steps, j + 1), |r[0].procs|, x)
  {
    StepGrows(r, steps, j);
    AcksGrow(r, steps, j, j + 1);
    ReadKept(HistoryOf(r, steps, j), HistoryOf(r, steps, j + 1), |r[0].procs|, x);
  }

  lemma {:induction false} RunReads(r: seq<Cluster>, steps: seq<Step>, k: nat, v: nat, x: Read)
    requires Orderly(r, steps) && k <= |steps| && v < |r[0].procs| && x in RunTrace(r, steps, k, v)
    ensures ReadOk(HistoryOf(r, steps, k), |r[0].procs|, x)
  {
    if k != 0 {
      var j := k - 1;
      RunTraceGrows(r, steps, j, v);
      if x in RunTrace(r, steps, j, v) {
        RunReads(r, steps, j, v, x);
        ReadStays(r, steps, j, x);
      } else {
        RunStepReads(r, steps, j, v, x);
      }
    }
  }

  /** Two chosen entries are in one log, so reads that they cover agree. */
  lemma ReadsAgree(c: Cluster, h: Hist, x: Read, y: Read)
    requires ElectionInv(c, h) && LogInv(c, h) && BallotInv(c, h) && AckInv(c, h)
    requires ReadOk(h, |c.procs|, x) && ReadOk(h, |c.procs|, y) && x.index == y.index
    ensures x.command == y.command
  {
    var t: nat, i: nat :|
      Chosen(h, |c.procs|, t, i) && 0 <= x.index <= i && x.command == Some(h.terms[t].log[x.index].command);
    var u: nat, j: nat :|
      Chosen(h, |c.procs|, u, j) && 0 <= y.index <= j && y.command == Some(h.terms[u].log[y.index].command);
    if t <= u {
      LeaderHasChosen(c, h, t, i, u);
      SameAt(h.terms[t].log, h.terms[u].log, i, x.index);
    } else {
      LeaderHasChosen(c, h, u, j, t);
      SameAt(h.terms[u].log, h.terms[t].log, j, x.index);
    }
  }

  /** State Machine Safety: in an orderly run no two nodes ever apply different commands at the same
      index. */
  lemma StateMachineSafety(r: seq<Cluster>, steps: seq<Step>, k: nat, a: nat, b: nat, x: Read, y: Read)
    requires Orderly(r, steps) && k <= |steps| && a < |r[0].procs| && b < |r[0].procs|
    requires x in RunTrace(r, steps, k, a) && y in RunTrace(r, steps, k, b) && x.index == y.index
    ensures x.command == y.command
  {
    RunReads(r, steps, k, a, x);
    RunReads(r, steps, k, b, y);
    SameSize(r, steps, k);
    RunKeepsAll(r, steps, k);
    ReadsAgree(r[k], HistoryOf(r, steps, k), x, y);
  }

  /** Two nodes of an orderly run that started from equal stores, have applied equally far and did not
      restart have equal stores. */
  lemma StoresAgree(r: seq<Cluster>, steps: seq<Step>, k: nat, a: nat, b: nat)
    requires Orderly(r, steps) && k <= |steps| && a < |r[0].procs| == |r[k].procs| && b < |r[0].procs|
    requires UndisturbedTo(steps, k, a) && UndisturbedTo(steps, k, b)
    requires r[0].procs[a].node.store == r[0].procs[b].node.store
    requires r[k].procs[a].node.lastApplied == r[k].procs[b].node.lastApplied
    ensures r[k].procs[a].node.store == r[k].procs[b].node.store
  {
    AppliedInOrder(r, steps, k, a);
    AppliedInOrder(r, steps, k, b);
    var ta, tb := RunTrace(r, steps, k, a), RunTrace(r, steps, k, b);
    forall i | 0 <= i < |ta| ensures ta[i] == tb[i] {
      StateMachineSafety(r, steps, k, a, b, ta[i], tb[i]);
    }
    assert ta == tb;
  }
}
