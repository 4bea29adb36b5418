/** Leader Append-Only: while a node leads a term, its log, snapshot and suffix taken together,
    only grows at the end. AppendEntries can erase entries whatever the receiver's role; what
    protects a leader is that no other node leads its term. */
module AppendOnly {
  import opened RaftTypes
  import opened Protocol
  import opened History
  import opened ElectionSafety
  import opened LogSteps
  import opened Votes
  import H = Handlers

  // ---------- requests come from the leader of their term ----------

  predicate Owned(h: Hist, m: Msg) {
    && (m.AppReq? ==> m.append.term in h.terms && h.terms[m.append.term].leader == m.src)
    && (m.SnapReq? ==> m.snap.term in h.terms && h.terms[m.snap.term].leader == m.src)
  }

  predicate AllOwned(c: Cluster, h: Hist) {
    forall m | m in c.msgs :: Owned(h, m)
  }

  predicate Requesting(s: Step) {
    s.HeartbeatSend? || s.CallSend? || s.SendChunk?
  }

  lemma RequestsFromLeader(c: Cluster, s: Step)
    requires Enabled(c, s) && Requesting(s)
    ensures s.n < |c.procs| && c.procs[s.n].node.role == Leader
    ensures forall m | m in Do(c, s).msgs && m !in c.msgs ::
      && m.src == s.n
      && (m.AppReq? ==> m.append.term == c.procs[s.n].node.term)
      && (m.SnapReq? ==> m.snap.term == c.procs[s.n].node.term)
  {}

  lemma StepOwned(c: Cluster, h: Hist, s: Step)
    requires ElectionInv(c, h) && AllOwned(c, h) && Enabled(c, s)
    ensures AllOwned(Do(c, s), Recorded(h, c, s))
  {
    var c', h' := Do(c, s), Recorded(h, c, s);
    NewMsgs(c, s);
    forall t | t in h.terms ensures t in h'.terms && h'.terms[t].leader == h.terms[t].leader {
      RecordKept(c, h, s, t);
    }
    if Requesting(s) {
      RequestsFromLeader(c, s);
      assert LeaderRecorded(c.procs[s.n].node, s.n, h);
    }
    forall m | m in c'.msgs ensures Owned(h', m) {
      assert m in c.msgs ==> Owned(h, m);
    }
  }

  lemma {:induction false} RunOwned(r: seq<Cluster>, steps: seq<Step>, k: nat)
    requires IsRun(r, steps) && k <= |steps|
    ensures AllOwned(r[k], HistoryOf(r, steps, k))
  {
    if k != 0 {
      RunOwned(r, steps, k - 1);
      RunKeeps(r, steps, k - 1);
      assert RunStep(r, steps, k - 1);
      StepOwned(r[k - 1], HistoryOf(r, steps, k - 1), steps[k - 1]);
    }
  }

  // ---------- a snapshot never runs ahead of what was applied ----------

  /** The snapshot is the one on disk and ends no later than `lastApplied`, and what the node
      takes for committed is applied. */
  predicate SnapOk(n: Node) {
    && n.disk.snapshot == n.snapshot && n.commitIndex <= n.lastApplied
    && (if n.snapshot.Some? then n.snapshot.value.lastIncludedIndex <= n.lastApplied else n.lastApplied >= 0)
  }

  lemma {:induction false} ApplyReaches(n: Node, target: int)
    ensures H.ApplyUpTo(n, target).lastApplied == if n.lastApplied < target then target else n.lastApplied
    decreases target - n.lastApplied
  {
    if n.lastApplied < target {
      ApplyReaches(H.ApplyOne(n), target);
    }
  }

  /** What was applied grows, and the log's base and snapshot stay. */
  predicate OnlyApplies(n: Node, n': Node) {
    && n'.snapshot == n.snapshot && n'.disk.snapshot == n.disk.snapshot && n'.lastApplied >= n.lastApplied
    && (n.commitIndex <= n.lastApplied ==> n'.commitIndex <= n'.lastApplied)
  }

  lemma FinishApplies(d: Node, a: AppendArgs)
    ensures OnlyApplies(d, H.FinishAppend(d, a))
  {
    var t := H.TakeEntries(d, a);
    var target := H.CommitTarget(t, a.leaderCommit);
    ApplyKeeps(t.(commitIndex := target), target);
    ApplyReaches(t.(commitIndex := target), target);
  }

  lemma CompactSnapOk(n: Node)
    requires SnapOk(n)
    ensures SnapOk(H.Compact(n)) && SnapOk(H.CompactIfLong(n))
  {}

  lemma AppendSnapOk(n: Node, a: AppendArgs)
    requires SnapOk(n)
    ensures SnapOk(H.HandleAppend(n, a).0)
  {
    if a.term >= n.term {
      FinishApplies(H.StepDown(n, a), a);
      CompactSnapOk(H.FinishAppend(H.StepDown(n, a), a));
    }
  }

  lemma CommitSnapOk(n: Node, index: int)
    requires SnapOk(n)
    ensures SnapOk(H.CommitClient(n, index))
  {
    ApplyKeeps(n.(commitIndex := index), index);
    ApplyReaches(n.(commitIndex := index), index);
    CompactSnapOk(H.ApplyUpTo(n.(commitIndex := index), index));
  }

  lemma ChunkSnapOk(n: Node, a: SnapArgs, unread: Snapshot)
    requires SnapOk(n)
    ensures SnapOk(H.HandleSnapshot(n, a, unread).0)
  {}

  /** The log, the snapshot, the store and what was committed and applied are as before. */
  predicate Idle(n: Node, n': Node) {
    && n'.log == n.log && n'.snapshot == n.snapshot && n'.disk.snapshot == n.disk.snapshot
    && n'.lastApplied == n.lastApplied && n'.commitIndex == n.commitIndex && n'.store == n.store
  }

  predicate Touching(s: Step) {
    s.HandleAppend? || s.HandleChunk? || s.CallCommit? || s.TriggerSnapshot? || s.Crash? || s.ClientAppend?
  }

  lemma VotingTouchesNothing(c: Cluster, s: Step)
    requires Enabled(c, s) && Voting(s)
    ensures Actor(s) < |c.procs| == |Do(c, s).procs|
    ensures Idle(c.procs[Actor(s)].node, Do(c, s).procs[Actor(s)].node)
  {}

  lemma OthersTouchNothing(c: Cluster, s: Step)
    requires Enabled(c, s) && !Voting(s) && !Touching(s)
    ensures Actor(s) < |c.procs| == |Do(c, s).procs|
    ensures Idle(c.procs[Actor(s)].node, Do(c, s).procs[Actor(s)].node)
  {}

  lemma StepSnapOk(c: Cluster, s: Step)
    requires Enabled(c, s) && Actor(s) < |c.procs| == |Do(c, s).procs| && SnapOk(c.procs[Actor(s)].node)
    ensures SnapOk(Do(c, s).procs[Actor(s)].node)
  {
    var n := c.procs[Actor(s)].node;
    if Voting(s) {
      VotingTouchesNothing(c, s);
    } else if !Touching(s) {
      OthersTouchNothing(c, s);
    } else {
      match s
      case HandleAppend(m) => AppendSnapOk(n, m.append);
      case HandleChunk(m, unread) => ChunkSnapOk(n, m.snap, unread);
      case CallCommit(a, index) => CommitSnapOk(n, index);
      case TriggerSnapshot(a) => CompactSnapOk(n);
      case _ =>
    }
  }

  lemma {:induction false} RunSnapOk(r: seq<Cluster>, steps: seq<Step>, k: nat, n: nat)
    requires IsRun(r, steps) && k <= |steps| && n < |r[0].procs|
    ensures |r[k].procs| == |r[0].procs| && SnapOk(r[k].procs[n].node)
  {
    SameSize(r, steps, k);
    if k == 0 {
      assert Fresh(r[0].procs[n].node, n, |r[0].procs|);
    } else {
      RunSnapOk(r, steps, k - 1, n);
      assert RunStep(r, steps, k - 1);
      OnlyActor(r[k - 1], steps[k - 1]);
      if n == Actor(steps[k - 1]) {
        StepSnapOk(r[k - 1], steps[k - 1]);
      }
    }
  }

  // ---------- growth at the end ----------

  /** The entry with global index `g`. */
  function EntryAt(n: Node, g: int): Entry
    requires H.Base(n) <= g < H.LogSize(n)
  {
    n.log[g - H.Base(n)]
  }

  /** From `n` to `n'` the log grew at its end by entries of `term`, each at its own index, and
      nothing else happened to it but that a prefix may have gone into a snapshot. */
  predicate Continues(n: Node, n': Node, term: nat) {
    && H.Base(n) <= H.Base(n') && H.LogSize(n) <= H.LogSize(n')
    && (forall g | H.Base(n') <= g < H.LogSize(n) :: EntryAt(n', g) == EntryAt(n, g))
    && (forall g | H.Base(n') <= g < H.LogSize(n') && H.LogSize(n) <= g ::
          EntryAt(n', g).term == term && EntryAt(n', g).index == g)
  }

  lemma ContinuesTwice(n: Node, m: Node, l: Node, term: nat)
    requires Continues(n, m, term) && Continues(m, l, term)
    ensures Continues(n, l, term)
  {
    forall g | H.Base(l) <= g < H.LogSize(n) ensures EntryAt(l, g) == EntryAt(n, g) {
      assert EntryAt(l, g) == EntryAt(m, g);
    }
    forall g | H.Base(l) <= g < H.LogSize(l) && H.LogSize(n) <= g
      ensures EntryAt(l, g).term == term && EntryAt(l, g).index == g
    {
      if g < H.LogSize(m) {
        assert EntryAt(l, g) == EntryAt(m, g);
      }
    }
  }

  /** What was applied lies inside the log, so that compaction cuts where it should. */
  predicate AppliedInLog(n: Node) {
    n.lastApplied <= if n.log == [] then H.Base(n) else H.LogSize(n) - 1
  }

  lemma CompactContinues(n: Node, term: nat)
    requires SnapOk(n) && AppliedInLog(n) && n.log != []
    ensures Continues(n, H.Compact(n), term) && AppliedInLog(H.Compact(n))
  {}

  /** Of a log whose entries carry their own indices, compaction moves none if and only if what was
      applied lies inside it. */
  lemma CompactContinuesExactly(n: Node, term: nat)
    requires SnapOk(n) && n.log != []
    requires forall k | 0 <= k < |n.log| :: n.log[k].index == H.Base(n) + k
    ensures Continues(n, H.Compact(n), term) <==> AppliedInLog(n)
  {
    if AppliedInLog(n) {
      CompactContinues(n, term);
    } else {
      assert EntryAt(H.Compact(n), H.Base(H.Compact(n))) == n.log[0];
    }
  }

  lemma AppliesContinues(n: Node, n': Node, term: nat)
    requires n'.log == n.log && H.Base(n') == H.Base(n)
    ensures Continues(n, n', term)
  {}

  lemma CommitContinues(n: Node, index: int, term: nat)
    requires SnapOk(n) && AppliedInLog(n) && index < H.LogSize(n)
    ensures Continues(n, H.CommitClient(n, index), term) && AppliedInLog(H.CommitClient(n, index))
  {
    var d := n.(commitIndex := index);
    var m := H.ApplyUpTo(d, index);
    ApplyKeeps(d, index);
    ApplyReaches(d, index);
    AppliesContinues(n, m, term);
    if |m.log| >= SNAPSHOT_THRESHOLD {
      CompactContinues(m, term);
      ContinuesTwice(n, m, H.Compact(m), term);
    }
    AppliesContinues(H.CompactIfLong(m), H.CommitClient(n, index), term);
    ContinuesTwice(n, H.CompactIfLong(m), H.CommitClient(n, index), term);
  }

  lemma AppendContinues(n: Node, command: string)
    requires AppliedInLog(n)
    ensures Continues(n, H.AppendClient(n, command), n.term) && AppliedInLog(H.AppendClient(n, command))
  {}

  // ---------- a leader's steps ----------

  predicate StaysLeader(c: Cluster, c': Cluster, n: nat, term: nat) {
    Leads(c, n, term) && Leads(c', n, term)
  }

  /** A request that a leader handles without losing its leadership is stale. */
  lemma LeaderTakesNoEntries(c: Cluster, h: Hist, m: Msg)
    requires ElectionInv(c, h) && AllOwned(c, h) && CanHandle(c, m) && m.AppReq?
    requires StaysLeader(c, DoHandleAppend(c, m), m.dst, c.procs[m.dst].node.term)
    ensures m.append.term < c.procs[m.dst].node.term
    ensures DoHandleAppend(c, m).procs[m.dst].node == c.procs[m.dst].node
  {
    var n := c.procs[m.dst].node;
    assert Owned(h, m) && Addressed(c, m) && LeaderRecorded(n, m.dst, h) && NodeOk(n, m.dst, |c.procs|);
    AppendSettlesOrDemotes(n, m.append);
    assert m.append.term != n.term;
    assert DoHandleAppend(c, m).procs[m.dst].node == H.HandleAppend(n, m.append).0;
  }

  lemma LeaderTakesNoChunks(c: Cluster, h: Hist, m: Msg, unread: Snapshot)
    requires ElectionInv(c, h) && AllOwned(c, h) && CanHandle(c, m) && m.SnapReq?
    requires StaysLeader(c, DoHandleChunk(c, m, unread), m.dst, c.procs[m.dst].node.term)
    ensures Idle(c.procs[m.dst].node, DoHandleChunk(c, m, unread).procs[m.dst].node)
  {
    var n := c.procs[m.dst].node;
    assert Owned(h, m) && Addressed(c, m) && LeaderRecorded(n, m.dst, h);
    assert m.snap.term != n.term;
  }

  /** The client calls of a leader are for entries it has. */
  predicate CallsInLog(p: Proc) {
    forall i | i in p.calls :: InCall(p, i) ==> i < H.LogSize(p.node)
  }

  predicate CarriesOn(n: Node, n': Node, term: nat) {
    Continues(n, n', term) && AppliedInLog(n')
  }

  lemma ClientCarriesOn(c: Cluster, n: nat, command: string)
    requires IsLeader(c, n) && AppliedInLog(c.procs[n].node)
    ensures CarriesOn(c.procs[n].node, DoClientAppend(c, n, command).procs[n].node, c.procs[n].node.term)
  {
    AppendContinues(c.procs[n].node, command);
  }

  lemma CommitCarriesOn(c: Cluster, n: nat, index: int, term: nat)
    requires CanCommit(c, n, index) && CallsInLog(c.procs[n]) && SnapOk(c.procs[n].node)
    requires AppliedInLog(c.procs[n].node)
    ensures CarriesOn(c.procs[n].node, DoCommit(c, n, index).procs[n].node, term)
  {
    assert InCall(c.procs[n], index);
    CommitContinues(c.procs[n].node, index, term);
  }

  lemma LeaderStep(c: Cluster, h: Hist, s: Step, term: nat)
    requires ElectionInv(c, h) && AllOwned(c, h) && Enabled(c, s) && Actor(s) < |c.procs|
    requires StaysLeader(c, Do(c, s), Actor(s), term)
    requires var p := c.procs[Actor(s)]; CallsInLog(p) && SnapOk(p.node) && AppliedInLog(p.node)
    ensures var n, n' := c.procs[Actor(s)].node, Do(c, s).procs[Actor(s)].node;
      Continues(n, n', term) && AppliedInLog(n')
  {
    var n, n' := c.procs[Actor(s)].node, Do(c, s).procs[Actor(s)].node;
    if s.ClientAppend? {
      ClientCarriesOn(c, s.n, s.command);
    } else if s.CallCommit? {
      CommitCarriesOn(c, s.n, s.index, term);
    } else if s.TriggerSnapshot? {
      CompactContinues(n, term);
    } else {
      LeaderUntouched(c, h, s, term);
      AppliesContinues(n, n', term);
    }
  }

  lemma LeaderUntouched(c: Cluster, h: Hist, s: Step, term: nat)
    requires ElectionInv(c, h) && AllOwned(c, h) && Enabled(c, s) && Actor(s) < |c.procs|
    requires StaysLeader(c, Do(c, s), Actor(s), term)
    requires !s.ClientAppend? && !s.CallCommit? && !s.TriggerSnapshot?
    ensures Idle(c.procs[Actor(s)].node, Do(c, s).procs[Actor(s)].node)
  {
    if s.HandleAppend? {
      LeaderTakesNoEntries(c, h, s.m);
    } else if s.HandleChunk? {
      LeaderTakesNoChunks(c, h, s.m, s.unread);
    } else if Voting(s) {
      VotingTouchesNothing(c, s);
    } else if !s.Crash? {
      OthersTouchNothing(c, s);
    }
  }

  // ---------- calls are for entries of the log, over all runs ----------

  /** Wherever `lastApplied` lies: base and size never fall, and an unmoved base means an
      unchanged log. */
  predicate Larger(n: Node, n': Node) {
    && H.Base(n') >= H.Base(n) && H.LogSize(n') >= H.LogSize(n)
    && (H.Base(n') == H.Base(n) ==> n'.log == n.log)
  }

  lemma CompactSize(n: Node)
    requires SnapOk(n)
    ensures Larger(n, H.Compact(n))
  {}

  lemma CommitSize(n: Node, index: int)
    requires SnapOk(n)
    ensures Larger(n, H.CommitClient(n, index))
  {
    var d := n.(commitIndex := index);
    ApplyKeeps(d, index);
    ApplyReaches(d, index);
    CompactSize(H.ApplyUpTo(d, index));
  }

  lemma LeaderSize(c: Cluster, h: Hist, s: Step, term: nat)
    requires ElectionInv(c, h) && AllOwned(c, h) && Enabled(c, s) && Actor(s) < |c.procs|
    requires StaysLeader(c, Do(c, s), Actor(s), term) && SnapOk(c.procs[Actor(s)].node)
    ensures var n, n' := c.procs[Actor(s)].node, Do(c, s).procs[Actor(s)].node;
      if s.ClientAppend? then n' == H.AppendClient(n, s.command) else Larger(n, n')
  {
    var n := c.procs[Actor(s)].node;
    if s.ClientAppend? {
    } else if s.CallCommit? {
      CommitSize(n, s.index);
    } else if s.TriggerSnapshot? {
      CompactSize(n);
    } else {
      LeaderUntouched(c, h, s, term);
    }
  }

  lemma SameBaseContinues(n: Node, n': Node, term: nat)
    requires Larger(n, n')
    ensures H.Base(n') == H.Base(n) ==> Continues(n, n', term)
  {
    if H.Base(n') == H.Base(n) {
      AppliesContinues(n, n', term);
    }
  }

  lemma AppendGrows(n: Node, command: string)
    ensures Continues(n, H.AppendClient(n, command), n.term)
  {}

  /** A leader's step that moves no base continues the log, wherever `lastApplied` lies. */
  lemma LeaderStepBase(c: Cluster, h: Hist, s: Step, term: nat)
    requires ElectionInv(c, h) && AllOwned(c, h) && Enabled(c, s) && Actor(s) < |c.procs|
    requires StaysLeader(c, Do(c, s), Actor(s), term) && SnapOk(c.procs[Actor(s)].node)
    ensures var n, n' := c.procs[Actor(s)].node, Do(c, s).procs[Actor(s)].node;
      && H.Base(n') >= H.Base(n)
      && (H.Base(n') == H.Base(n) ==> Continues(n, n', term))
  {
    var n, n' := c.procs[Actor(s)].node, Do(c, s).procs[Actor(s)].node;
    LeaderSize(c, h, s, term);
    if s.ClientAppend? {
      AppendGrows(n, s.command);
    } else {
      SameBaseContinues(n, n', term);
    }
  }

  /** A call is opened for the entry just appended; nothing else opens one. */
  lemma CallsOpened(c: Cluster, s: Step)
    requires Enabled(c, s) && Actor(s) < |c.procs| == |Do(c, s).procs|
    ensures var p, p' := c.procs[Actor(s)], Do(c, s).procs[Actor(s)];
      && (s.WinElection? || s.Crash? ==> p'.calls == map[])
      && forall i | i in p'.calls ::
           || (s.ClientAppend? && i == H.LogSize(p.node))
           || (i in p.calls && p'.calls[i].term == p.calls[i].term)
  {}

  lemma StepCallsInLog(c: Cluster, h: Hist, s: Step)
    requires ElectionInv(c, h) && AllOwned(c, h) && Enabled(c, s) && Actor(s) < |c.procs| == |Do(c, s).procs|
    requires CallsInLog(c.procs[Actor(s)]) && SnapOk(c.procs[Actor(s)].node)
    ensures CallsInLog(Do(c, s).procs[Actor(s)])
  {
    var p, p' := c.procs[Actor(s)], Do(c, s).procs[Actor(s)];
    CallsOpened(c, s);
    if p'.node.role == Leader && !s.WinElection? {
      LeadsOnlyByWinning(c, h, s);
      LeaderSize(c, h, s, p.node.term);
      forall i | i in p'.calls && InCall(p', i) ensures i < H.LogSize(p'.node) {
        assert i in p.calls ==> InCall(p, i) || p.calls[i].term != p'.calls[i].term;
      }
    }
  }

  lemma {:induction false} RunCallsInLog(r: seq<Cluster>, steps: seq<Step>, k: nat, n: nat)
    requires IsRun(r, steps) && k <= |steps| && n < |r[0].procs|
    ensures |r[k].procs| == |r[0].procs| && CallsInLog(r[k].procs[n])
  {
    SameSize(r, steps, k);
    if k != 0 {
      var j := k - 1;
      RunCallsInLog(r, steps, j, n);
      RunSnapOk(r, steps, j, n);
      RunKeeps(r, steps, j);
      RunOwned(r, steps, j);
      assert RunStep(r, steps, j);
      OnlyActor(r[j], steps[j]);
      if n == Actor(steps[j]) {
        StepCallsInLog(r[j], HistoryOf(r, steps, j), steps[j]);
      }
    }
  }

  // ---------- while a node leads ----------

  /** A leader leads its term without a break. */
  lemma LeadsBetween(r: seq<Cluster>, steps: seq<Step>, i: nat, j: nat, n: nat, term: nat)
    requires IsRun(r, steps) && i < j <= |steps| && Leads(r[i], n, term) && Leads(r[j], n, term)
    ensures Leads(r[j - 1], n, term)
  {
    SameSize(r, steps, i);
    SameSize(r, steps, j - 1);
    PhaseOfVote(r, steps, i, n, term);
    PhaseRun(r, steps, i, j - 1, n, term);
    RunKeeps(r, steps, j - 1);
    assert RunStep(r, steps, j - 1);
    WinsFromStanding(r[j - 1], HistoryOf(r, steps, j - 1), steps[j - 1], n, term);
  }

  lemma WinsFromStanding(c: Cluster, h: Hist, s: Step, n: nat, term: nat)
    requires ElectionInv(c, h) && Enabled(c, s) && n < |c.procs| && Leads(Do(c, s), n, term)
    requires PhaseOf(c.procs[n].node, term) != Standing
    ensures Leads(c, n, term)
  {
    OnlyActor(c, s);
    if n == Actor(s) && !s.WinElection? {
      LeadsOnlyByWinning(c, h, s);
    }
  }

  /** Leader Append-Only, over all runs with compaction, snapshot transfers and restarts: while
      a node leads a term its log changes only by growing at its end by entries of that term, and
      by compaction. Where it compacts, what it had applied has to lie inside its log when it
      starts, so that the cut comes where it should; it then does throughout. */
  lemma {:induction false} LeaderAppendOnly(r: seq<Cluster>, steps: seq<Step>, i: nat, j: nat, n: nat, term: nat)
    requires IsRun(r, steps) && i <= j <= |steps| && Leads(r[i], n, term) && Leads(r[j], n, term)
    ensures H.Base(r[i].procs[n].node) <= H.Base(r[j].procs[n].node)
    ensures H.Base(r[i].procs[n].node) == H.Base(r[j].procs[n].node) || AppliedInLog(r[i].procs[n].node) ==>
      Continues(r[i].procs[n].node, r[j].procs[n].node, term)
    ensures AppliedInLog(r[i].procs[n].node) ==> AppliedInLog(r[j].procs[n].node)
    decreases j
  {
    if i < j {
      var k := j - 1;
      LeadsBetween(r, steps, i, j, n, term);
      LeaderAppendOnly(r, steps, i, k, n, term);
      LeaderRunStep(r, steps, k, n, term);
      if Continues(r[i].procs[n].node, r[k].procs[n].node, term)
         && Continues(r[k].procs[n].node, r[j].procs[n].node, term) {
        ContinuesTwice(r[i].procs[n].node, r[k].procs[n].node, r[j].procs[n].node, term);
      }
    }
  }

  lemma LeaderRunStep(r: seq<Cluster>, steps: seq<Step>, k: nat, n: nat, term: nat)
    requires IsRun(r, steps) && k < |steps| && Leads(r[k], n, term) && Leads(r[k + 1], n, term)
    ensures var a, b := r[k].procs[n].node, r[k + 1].procs[n].node;
      && H.Base(a) <= H.Base(b)
      && (H.Base(a) == H.Base(b) ==> Continues(a, b, term))
      && (AppliedInLog(a) ==> Continues(a, b, term) && AppliedInLog(b))
  {
    SameSize(r, steps, k);
    RunKeeps(r, steps, k);
    RunOwned(r, steps, k);
    RunSnapOk(r, steps, k, n);
    RunCallsInLog(r, steps, k, n);
    assert RunStep(r, steps, k);
    OnlyActor(r[k], steps[k]);
    if n == Actor(steps[k]) {
      LeaderStepBase(r[k], HistoryOf(r, steps, k), steps[k], term);
      if AppliedInLog(r[k].procs[n].node) {
        LeaderStep(r[k], HistoryOf(r, steps, k), steps[k], term);
      }
    } else {
      AppliesContinues(r[k].procs[n].node, r[k + 1].procs[n].node, term);
    }
  }

  /** While it takes no snapshot, a leader's log at one moment is a prefix of its later log. */
  lemma LeaderLogPrefix(r: seq<Cluster>, steps: seq<Step>, i: nat, j: nat, n: nat, term: nat)
    requires IsRun(r, steps) && i <= j <= |steps| && Leads(r[i], n, term) && Leads(r[j], n, term)
    requires H.Base(r[i].procs[n].node) == H.Base(r[j].procs[n].node)
    ensures r[i].procs[n].node.log <= r[j].procs[n].node.log
  {
    LeaderAppendOnly(r, steps, i, j, n, term);
    var a, b := r[i].procs[n].node, r[j].procs[n].node;
    forall g | 0 <= g < |a.log| ensures b.log[g] == a.log[g] {
      assert EntryAt(b, H.Base(a) + g) == EntryAt(a, H.Base(a) + g);
    }
  }
}
