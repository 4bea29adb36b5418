/** The order in which a node applies entries: the leader's loop and the follower's loop
    together apply index 1, 2, 3, ... without a gap or a repetition. */
module ApplyOrder {
  import opened RaftTypes
  import opened Protocol
  import opened Votes
  import opened AppendOnly
  import Commands
  import H = Handlers

  /** One turn of an apply loop: the index, and the command the log held there, if any. */
  datatype Read = Read(index: int, command: Option<string>)

  function ReadAt(n: Node, index: int): Read {
    Read(index, H.CommandAt(n, index))
  }

  /** What an apply loop up to `target` reads. */
  function ApplyTrace(n: Node, target: int): seq<Read>
    decreases target - n.lastApplied
  {
    if n.lastApplied < target then
      [ReadAt(n, n.lastApplied + 1)] + ApplyTrace(n.(lastApplied := n.lastApplied + 1), target)
    else []
  }

  /** What node `v` reads in one step of the cluster. */
  ghost function StepTrace(c: Cluster, s: Step, v: nat): seq<Read>
    requires Enabled(c, s)
  {
    match s
    case HandleAppend(m) =>
      var n := c.procs[m.dst].node;
      if m.dst == v && H.Commits(n, m.append) then FollowerTrace(n, m.append) else []
    case CallCommit(n, index) => if n == v then ApplyTrace(c.procs[n].node, index) else []
    case _ => []
  }

  function FollowerTrace(n: Node, a: AppendArgs): seq<Read> {
    var t := H.TakeEntries(H.StepDown(n, a), a);
    ApplyTrace(t, H.CommitTarget(t, a.leaderCommit))
  }

  ghost function RunTrace(r: seq<Cluster>, steps: seq<Step>, k: nat, v: nat): seq<Read>
    requires IsRun(r, steps) && k <= |steps|
  {
    if k == 0 then []
    else
      assert RunStep(r, steps, k - 1);
      RunTrace(r, steps, k - 1, v) + StepTrace(r[k - 1], steps[k - 1], v)
  }

  function CommandsOf(trace: seq<Read>): seq<string>
    requires forall i | 0 <= i < |trace| :: trace[i].command.Some?
  {
    seq(|trace|, i requires 0 <= i < |trace| => trace[i].command.value)
  }

  function ExecReads(store: KV, trace: seq<Read>): KV
    decreases |trace|
  {
    if trace == [] then store else ExecReads(H.ApplyCommand(store, trace[0].command), trace[1..])
  }

  lemma {:induction false} ExecReadsAppend(store: KV, a: seq<Read>, b: seq<Read>)
    ensures ExecReads(store, a + b) == ExecReads(ExecReads(store, a), b)
    decreases |a|
  {
    if a == [] {
      assert a + b == b;
    } else {
      assert (a + b)[1..] == a[1..] + b;
      ExecReadsAppend(H.ApplyCommand(store, a[0].command), a[1..], b);
    }
  }

  /** Reads that all found an entry amount to the fold of the commands found. */
  lemma {:induction false} ReadsAreCommands(store: KV, trace: seq<Read>)
    requires forall i | 0 <= i < |trace| :: trace[i].command.Some?
    ensures ExecReads(store, trace) == Commands.ExecAll(store, CommandsOf(trace))
    decreases |trace|
  {
    if trace == [] {
      assert CommandsOf(trace) == [];
    } else {
      var k := |trace| - 1;
      var last := trace[k];
      ReadsAreCommands(store, trace[..k]);
      ExecReadsAppend(store, trace[..k], [last]);
      assert trace[..k] + [last] == trace;
      ExecOne(ExecReads(store, trace[..k]), last);
      ExecLast(store, trace);
    }
  }

  lemma ExecOne(store: KV, r: Read)
    ensures ExecReads(store, [r]) == H.ApplyCommand(store, r.command)
  {
    assert [r][1..] == [];
  }

  lemma ExecAllLast(store: KV, texts: seq<string>)
    requires texts != []
    ensures var k := |texts| - 1;
      Commands.ExecAll(store, texts) == Commands.Exec(Commands.ExecAll(store, texts[..k]), texts[k])
  {}

  lemma CommandsOfPrefix(trace: seq<Read>, k: nat)
    requires k <= |trace| && forall i | 0 <= i < |trace| :: trace[i].command.Some?
    ensures CommandsOf(trace)[..k] == CommandsOf(trace[..k])
  {}

  lemma ExecLast(store: KV, trace: seq<Read>)
    requires trace != [] && forall i | 0 <= i < |trace| :: trace[i].command.Some?
    ensures var k := |trace| - 1;
      Commands.ExecAll(store, CommandsOf(trace)) ==
      Commands.Exec(Commands.ExecAll(store, CommandsOf(trace[..k])), trace[k].command.value)
  {
    ExecAllLast(store, CommandsOf(trace));
    CommandsOfPrefix(trace, |trace| - 1);
  }

  /** Consecutive indices from `first` on, each of which found an entry. */
  predicate Consecutive(trace: seq<Read>, first: int) {
    forall i | 0 <= i < |trace| :: trace[i].index == first + i && trace[i].command.Some?
  }

  /** What a step applied to a node, as seen from outside. */
  predicate Applies(n: Node, n': Node, trace: seq<Read>) {
    && Consecutive(trace, n.lastApplied + 1) && n'.lastApplied == n.lastApplied + |trace|
    && n'.store == ExecReads(n.store, trace)
  }

  lemma FirstRead(first: Read, rest: seq<Read>)
    requires first.command.Some? && Consecutive(rest, first.index + 1)
    ensures Consecutive([first] + rest, first.index)
  {}

  lemma ExecFirst(store: KV, first: Read, rest: seq<Read>)
    ensures ExecReads(store, [first] + rest) == ExecReads(H.ApplyCommand(store, first.command), rest)
  {
    assert ([first] + rest)[1..] == rest;
  }

  lemma LoopTurn(n: Node, target: int)
    requires n.lastApplied < target
    ensures H.ApplyUpTo(n, target) == H.ApplyUpTo(H.ApplyOne(n), target)
    ensures ApplyTrace(n, target) == [ReadAt(n, n.lastApplied + 1)] + ApplyTrace(H.ApplyOne(n), target)
  {
    TraceIgnoresStore(n.(lastApplied := n.lastApplied + 1), H.ApplyOne(n), target);
  }

  /** A turn within the log finds an entry; `store` is what its command leaves. */
  lemma TurnReads(n: Node, first: Read, store: KV)
    requires H.Base(n) <= n.lastApplied + 1 < H.LogSize(n) && first == ReadAt(n, n.lastApplied + 1)
    requires store == H.ApplyCommand(n.store, first.command)
    ensures first.command.Some? && H.ApplyOne(n).store == store
  {
    H.ApplyOneIs(n, first.command, store);
  }

  /** The loop applies what it reads: consecutive entries, all of which the log holds. */
  lemma {:induction false} LoopApplies(n: Node, target: int, trace: seq<Read>, m: Node)
    requires H.Base(n) <= n.lastApplied + 1 && target < H.LogSize(n)
    requires trace == ApplyTrace(n, target) && m == H.ApplyUpTo(n, target)
    ensures Applies(n, m, trace)
    decreases target - n.lastApplied
  {
    if n.lastApplied < target {
      var next, first := H.ApplyOne(n), ReadAt(n, n.lastApplied + 1);
      LoopTurn(n, target);
      TurnReads(n, first, H.ApplyCommand(n.store, first.command));
      var rest := ApplyTrace(next, target);
      LoopApplies(next, target, rest, m);
      AppliesMore(n, next, m, first, rest);
    }
  }

  lemma AppliesMore(n: Node, next: Node, m: Node, first: Read, rest: seq<Read>)
    requires next.lastApplied == n.lastApplied + 1 && next.store == H.ApplyCommand(n.store, first.command)
    requires first.index == n.lastApplied + 1 && first.command.Some? && Applies(next, m, rest)
    ensures Applies(n, m, [first] + rest)
  {
    FirstRead(first, rest);
    ExecFirst(n.store, first, rest);
  }

  lemma {:induction false} TraceIgnoresStore(a: Node, b: Node, target: int)
    requires a.log == b.log && a.snapshot == b.snapshot && a.lastApplied == b.lastApplied
    ensures ApplyTrace(a, target) == ApplyTrace(b, target)
    decreases target - a.lastApplied
  {
    if a.lastApplied < target {
      TraceIgnoresStore(a.(lastApplied := a.lastApplied + 1), b.(lastApplied := b.lastApplied + 1), target);
    }
  }

  lemma AppliesAlso(n: Node, n': Node, m: Node, m': Node, trace: seq<Read>)
    requires Applies(n, n', trace)
    requires m.lastApplied == n.lastApplied && m.store == n.store
    requires m'.lastApplied == n'.lastApplied && m'.store == n'.store
    ensures Applies(m, m', trace)
  {}

  lemma NoneApplied(n: Node, n': Node)
    requires n'.lastApplied == n.lastApplied && n'.store == n.store
    ensures Applies(n, n', [])
  {}

  lemma CommitApplies(n: Node, index: int)
    requires SnapOk(n) && index < H.LogSize(n)
    ensures Applies(n, H.CommitClient(n, index), ApplyTrace(n, index))
  {
    var d := n.(commitIndex := index);
    BaseApplied(n);
    LoopApplies(d, index, ApplyTrace(d, index), H.ApplyUpTo(d, index));
    TraceIgnoresStore(d, n, index);
    AppliesAlso(d, H.ApplyUpTo(d, index), n, H.CommitClient(n, index), ApplyTrace(n, index));
  }

  lemma BaseApplied(n: Node)
    requires SnapOk(n)
    ensures H.Base(n) <= n.lastApplied + 1
  {}

  lemma AdvanceApplies(t: Node, target: int, trace: seq<Read>, m: Node)
    requires SnapOk(t) && target < H.LogSize(t)
    requires trace == ApplyTrace(t, target) && m == H.ApplyUpTo(t.(commitIndex := target), target)
    ensures Applies(t, m, trace)
  {
    var e := t.(commitIndex := target);
    BaseApplied(t);
    TraceIgnoresStore(e, t, target);
    LoopApplies(e, target, trace, m);
    AppliesAlso(e, m, t, m, trace);
  }

  lemma FinishAdvances(d: Node, a: AppendArgs)
    requires H.PrevMatches(d, a.prevLogIndex, a.prevLogTerm) && a.leaderCommit > d.commitIndex
    ensures H.FinishAppend(d, a) == H.AdvanceCommit(H.TakeEntries(d, a), a.leaderCommit)
  {}

  lemma FollowerApplies(d: Node, a: AppendArgs, t: Node, f: Node)
    requires SnapOk(d) && t == H.TakeEntries(d, a) && f == H.AdvanceCommit(t, a.leaderCommit)
    ensures Applies(t, f, ApplyTrace(t, H.CommitTarget(t, a.leaderCommit)))
  {
    var target := H.CommitTarget(t, a.leaderCommit);
    AdvanceApplies(t, target, ApplyTrace(t, target), f);
  }

  lemma CompactIfLongApplies(n: Node)
    ensures H.CompactIfLong(n).lastApplied == n.lastApplied && H.CompactIfLong(n).store == n.store
  {}

  /** The step down and the entries taken change neither the store nor what was applied. */
  lemma TakingAppliesNone(n: Node, a: AppendArgs)
    ensures var t := H.TakeEntries(H.StepDown(n, a), a);
      t.lastApplied == n.lastApplied && t.store == n.store
  {}

  lemma CommittingApplies(n: Node, a: AppendArgs, trace: seq<Read>, f: Node, n': Node)
    requires SnapOk(n) && H.Commits(n, a)
    requires trace == FollowerTrace(n, a) && f == H.FinishAppend(H.StepDown(n, a), a) && n' == H.CompactIfLong(f)
    ensures Applies(n, n', trace)
  {
    var d := H.StepDown(n, a);
    var t := H.TakeEntries(d, a);
    FinishAdvances(d, a);
    FollowerApplies(d, a, t, f);
    TakingAppliesNone(n, a);
    CompactIfLongApplies(f);
    AppliesAlso(t, f, n, n', trace);
  }

  lemma AppendApplies(n: Node, a: AppendArgs)
    requires SnapOk(n)
    ensures Applies(n, H.HandleAppend(n, a).0, if H.Commits(n, a) then FollowerTrace(n, a) else [])
  {
    if H.Commits(n, a) {
      var f := H.FinishAppend(H.StepDown(n, a), a);
      CommittingApplies(n, a, FollowerTrace(n, a), f, H.CompactIfLong(f));
    } else {
      NoneApplied(n, H.HandleAppend(n, a).0);
    }
  }

  lemma CompactApplies(n: Node)
    ensures Applies(n, H.Compact(n), [])
  {
    NoneApplied(n, H.Compact(n));
  }

  /** Neither a restart of `v` nor an InstallSnapshot request to it. */
  predicate Undisturbed(s: Step, v: nat) {
    && !(s.Crash? && s.n == v)
    && !(s.HandleChunk? && s.m.dst == v)
  }

  lemma StepApplies(c: Cluster, s: Step, v: nat)
    requires Enabled(c, s) && v < |c.procs| && Undisturbed(s, v)
    requires SnapOk(c.procs[v].node) && CallsInLog(c.procs[v])
    ensures |Do(c, s).procs| == |c.procs|
    ensures Applies(c.procs[v].node, Do(c, s).procs[v].node, StepTrace(c, s, v))
  {
    OnlyActor(c, s);
    var n := c.procs[v].node;
    if v != Actor(s) {
      NoneApplied(n, n);
    } else if s.HandleAppend? {
      AppendApplies(n, s.m.append);
    } else if s.CallCommit? {
      assert InCall(c.procs[v], s.index);
      CommitApplies(n, s.index);
    } else if s.TriggerSnapshot? {
      CompactApplies(n);
    } else {
      QuietApplies(c, s);
    }
  }

  lemma QuietApplies(c: Cluster, s: Step)
    requires Enabled(c, s) && !s.HandleAppend? && !s.CallCommit? && !s.TriggerSnapshot? && !s.Crash? && !s.HandleChunk?
    ensures Actor(s) < |c.procs| == |Do(c, s).procs| && StepTrace(c, s, Actor(s)) == []
    ensures Applies(c.procs[Actor(s)].node, Do(c, s).procs[Actor(s)].node, [])
  {
    if Voting(s) {
      VotingTouchesNothing(c, s);
    } else if !Touching(s) {
      OthersTouchNothing(c, s);
    }
    NoneApplied(c.procs[Actor(s)].node, Do(c, s).procs[Actor(s)].node);
  }

  lemma AppliesTwice(n: Node, m: Node, l: Node, a: seq<Read>, b: seq<Read>)
    requires Applies(n, m, a) && Applies(m, l, b)
    ensures Applies(n, l, a + b)
  {
    ExecReadsAppend(n.store, a, b);
    assert Consecutive(a + b, n.lastApplied + 1);
  }

  predicate UndisturbedTo(steps: seq<Step>, k: nat, v: nat)
    requires k <= |steps|
  {
    forall i | 0 <= i < k :: Undisturbed(steps[i], v)
  }

  /** Apply order: in every run in which a node neither restarts nor is sent a snapshot, what it
      has applied, as a leader or as a follower, is index 1, 2, and so on to `lastApplied`, each
      once and each found in its log; its store is the fold of the commands read there. */
  lemma {:induction false} AppliedInOrder(r: seq<Cluster>, steps: seq<Step>, k: nat, v: nat)
    requires IsRun(r, steps) && k <= |steps| && v < |r[0].procs| && UndisturbedTo(steps, k, v)
    ensures |r[k].procs| == |r[0].procs|
    ensures var trace, n := RunTrace(r, steps, k, v), r[k].procs[v].node;
      && |trace| == n.lastApplied
      && (forall i | 0 <= i < |trace| :: trace[i].index == i + 1 && trace[i].command.Some?)
      && n.store == Commands.ExecAll(r[0].procs[v].node.store, CommandsOf(trace))
  {
    RunApplies(r, steps, k, v);
    assert Fresh(r[0].procs[v].node, v, |r[0].procs|);
    ReadsAreCommands(r[0].procs[v].node.store, RunTrace(r, steps, k, v));
  }

  lemma RunStepApplies(r: seq<Cluster>, steps: seq<Step>, j: nat, v: nat, trace: seq<Read>)
    requires IsRun(r, steps) && j < |steps| && v < |r[0].procs| && Undisturbed(steps[j], v)
    requires Enabled(r[j], steps[j]) && trace == StepTrace(r[j], steps[j], v)
    ensures |r[j].procs| == |r[j + 1].procs| == |r[0].procs|
    ensures Applies(r[j].procs[v].node, r[j + 1].procs[v].node, trace)
  {
    RunSnapOk(r, steps, j, v);
    RunCallsInLog(r, steps, j, v);
    assert RunStep(r, steps, j);
    StepApplies(r[j], steps[j], v);
  }

  lemma RunTraceGrows(r: seq<Cluster>, steps: seq<Step>, j: nat, v: nat)
    requires IsRun(r, steps) && j < |steps|
    ensures Enabled(r[j], steps[j])
    ensures RunTrace(r, steps, j + 1, v) == RunTrace(r, steps, j, v) + StepTrace(r[j], steps[j], v)
  {
    assert RunStep(r, steps, j);
  }

  lemma {:induction false} RunApplies(r: seq<Cluster>, steps: seq<Step>, k: nat, v: nat)
    requires IsRun(r, steps) && k <= |steps| && v < |r[0].procs| && UndisturbedTo(steps, k, v)
    ensures |r[k].procs| == |r[0].procs|
    ensures Applies(r[0].procs[v].node, r[k].procs[v].node, RunTrace(r, steps, k, v))
  {
    if k == 0 {
      NoneApplied(r[0].procs[v].node, r[0].procs[v].node);
    } else {
      var j := k - 1;
      RunApplies(r, steps, j, v);
      RunTraceGrows(r, steps, j, v);
      var trace := StepTrace(r[j], steps[j], v);
      assert Undisturbed(steps[j], v);
      RunStepApplies(r, steps, j, v, trace);
      AppliesTwice(r[0].procs[v].node, r[j].procs[v].node, r[k].procs[v].node, RunTrace(r, steps, j, v), trace);
    }
  }
}
