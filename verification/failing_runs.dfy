/** Concrete runs in which a condition of the main results fails, and the result with it. */
module FailingRuns {
  import opened RaftTypes
  import opened Protocol
  import opened ElectionSafety
  import opened LogMatching
  import opened AckSteps
  import opened SuccessReply
  import opened AppendOnly
  import opened ApplyOrder
  import opened Completeness
  import opened Scenarios
  import H = Handlers

  /** What a run is about: the store all nodes start from, and two commands. */
  datatype World = World(store: KV, x: string, y: string)

  /** A node without a snapshot whose term and vote are saved. */
  function Plain(id: nat, role: Role, term: nat, votedFor: int, leaderId: int, log: Log, commit: int, applied: int,
      next: seq<int>, matched: seq<int>, store: KV, saved: Log): Node
  {
    Node(id, role, term, votedFor, leaderId, log, None, commit, applied, next, matched, store, [],
         Disk(term, votedFor, saved, None))
  }

  function New(w: World, id: nat): Node {
    Plain(id, Follower, 0, -1, -1, [], 0, 0, [0, 0], [-1, -1], w.store, [])
  }

  function Start(w: World): Cluster {
    Cluster([Proc(New(w, 0), None, map[]), Proc(New(w, 1), None, map[]), Proc(New(w, 2), None, map[])], {})
  }

  lemma StartIsInit(w: World, strict: bool)
    ensures Init(Start(w)) && Nodes(Start(w), [New(w, 0), New(w, 1), New(w, 2)]) && Fair(strict, [Start(w)], [])
  {
    assert [0, 0] == seq(2, _ => 0) && [-1, -1] == seq(2, _ => -1);
  }

  /** A follower that has just voted, and a leader that has just been elected. */
  function Voter(w: World, id: nat, term: nat, candidate: int, leaderId: int, log: Log): Node {
    Plain(id, Follower, term, candidate, leaderId, log, 0, 0, [0, 0], [-1, -1], w.store, log)
  }

  function Elected(n: Node, term: nat): Node {
    Plain(n.id, Leader, term, n.id, n.id, n.log, n.commitIndex, n.lastApplied, [|n.log|, |n.log|], [-1, -1],
          n.store, n.log)
  }

  function Granting(v: Node, term: nat, candidate: nat): Node {
    H.Persist(v.(term := term, role := Follower, votedFor := candidate))
  }

  predicate Electable(n: Node, id: nat) {
    && n.role != Leader && n.id == id && n.snapshot.None? && n.disk.snapshot.None? && n.buffer == []
    && TwoSlots(n)
  }

  lemma BeginIs(n: Node, id: nat) returns (b: Node)
    requires Electable(n, id)
    ensures b == H.BeginElection(n) && H.WinElection(b) == Elected(n, n.term + 1)
    ensures b.snapshot.None? && b.log == n.log && b.term == n.term + 1 && b.id == id
  {
    var size := |n.log|;
    assert [size, size] == seq(2, _ => size) && [-1, -1] == seq(2, _ => -1);
    b := H.BeginElection(n);
  }

  /** A node of an earlier term whose log is no more up to date gives its vote. */
  lemma VoteIs(n: Node, v: Node)
    requires n.snapshot.None? && v.snapshot.None? && v.term < n.term
    requires H.UpToDate(|n.log| - 1, H.LastLogTerm(n.log), v.log)
    ensures Grants(n, v, Granting(v, n.term, n.id))
  {}

  /** Node `n` is elected in its next term with the vote of the peer in slot `i`. */
  lemma ElectsNext(strict: bool, c: Cluster, ns: seq<Node>, n: nat, i: nat, v: Node, e: Node, g: Node)
      returns (ss: seq<Step>, c': Cluster)
    requires Nodes(c, ns) && n < 3 && i < 2 && Electable(ns[n], n) && v == ns[PeerId(n, i)]
    requires v.term <= ns[n].term && H.UpToDate(|ns[n].log| - 1, H.LastLogTerm(ns[n].log), v.log)
    requires e == Elected(ns[n], ns[n].term + 1) && g == Granting(v, ns[n].term + 1, n)
    ensures Path(strict, c, ss, c') && Nodes(c', ns[n := e][PeerId(n, i) := g]) && c'.procs[n].calls == map[]
  {
    var b := BeginIs(ns[n], n);
    VoteIs(b, v);
    ss, c' := Elects(strict, c, ns, n, i, b, g);
  }

  // ---------- a committed entry that is lost ----------

  function E0(w: World): Entry {
    Entry(1, 0, w.x)
  }

  function E1(w: World): Entry {
    Entry(1, 1, w.x)
  }

  function E2(w: World): Entry {
    Entry(1, 2, w.x)
  }

  function G1(w: World): Entry {
    Entry(2, 1, w.x)
  }


  function Leader0(w: World, log: Log, saved: Log, next: int, matched: int): Node {
    Plain(0, Leader, 1, 0, 0, log, 0, 0, [next, 0], [matched, -1], w.store, saved)
  }

  lemma FirstElection(w: World, strict: bool) returns (ss: seq<Step>, c: Cluster)
    ensures Path(strict, Start(w), ss, c)
    ensures Nodes(c, [Leader0(w, [], [], 0, -1), Voter(w, 1, 1, 0, -1, []), New(w, 2)]) && c.procs[0].calls == map[]
  {
    StartIsInit(w, strict);
    ss, c := ElectsNext(strict, Start(w), [New(w, 0), New(w, 1), New(w, 2)], 0, 0, New(w, 1),
      Leader0(w, [], [], 0, -1), Voter(w, 1, 1, 0, -1, []));
  }

  /** The first entry is appended and reaches node 1 by a heartbeat, to which no answer comes. */
  lemma FirstEntry(w: World, c: Cluster) returns (ss: seq<Step>, c': Cluster)
    requires Nodes(c, [Leader0(w, [], [], 0, -1), Voter(w, 1, 1, 0, -1, []), New(w, 2)]) && c.procs[0].calls == map[]
    ensures Path(false, c, ss, c')
    ensures Nodes(c', [Leader0(w, [E0(w)], [], 0, -1), Voter(w, 1, 1, 0, 0, [E0(w)]), New(w, 2)])
    ensures c'.procs[0].calls == map[0 := Call(1, 0, 1, None)]
  {
    var ns := [Leader0(w, [], [], 0, -1), Voter(w, 1, 1, 0, -1, []), New(w, 2)];
    var c1 := Appends(false, c, ns, 0, w.x);
    var ns1 := ns[0 := Leader0(w, [E0(w)], [], 0, -1)];
    assert H.AppendClient(ns[0], w.x) == ns1[0] by {
      assert [] + [E0(w)] == [E0(w)];
    }
    var a := AppendArgs(1, 0, -1, 0, [E0(w)], 0);
    FirstRequest(w, ns1[0], a);
    FirstTaken(w, ns1[1], a);
    var s, m, c2;
    s, c2, m, c' := Beats(false, c1, ns1, 0, 0, a, Voter(w, 1, 1, 0, 0, [E0(w)]));
    ss := [ClientAppend(0, w.x)] + [s, Step.HandleAppend(m)];
    Join(false, c, [ClientAppend(0, w.x)], c1, [s, Step.HandleAppend(m)], c');
  }

  lemma FirstInserted(w: World)
    ensures H.Inserted([], 0, 0, [E0(w)]) == [E0(w)]
  {
    PushAll([], [E0(w)]);
    assert [] + [E0(w)] == [E0(w)];
  }

  lemma FirstRequest(w: World, l: Node, a: AppendArgs)
    requires l == Leader0(w, [E0(w)], [], 0, -1) && a == AppendArgs(1, 0, -1, 0, [E0(w)], 0)
    ensures H.HeartbeatRequest(l, 0) == a
  {
    assert [E0(w)][0..1] == [E0(w)];
  }

  lemma FirstTaken(w: World, v: Node, a: AppendArgs)
    requires v == Voter(w, 1, 1, 0, -1, []) && a == AppendArgs(1, 0, -1, 0, [E0(w)], 0)
    ensures H.HandleAppend(v, a).0 == Voter(w, 1, 1, 0, 0, [E0(w)])
  {
    FirstInserted(w);
  }

  function Three0(w: World, next: int, matched: int): Node {
    Leader0(w, [E0(w), E1(w), E2(w)], [], next, matched)
  }

  lemma TwoMore(w: World, c: Cluster) returns (ss: seq<Step>, c': Cluster)
    requires Nodes(c, [Leader0(w, [E0(w)], [], 0, -1), Voter(w, 1, 1, 0, 0, [E0(w)]), New(w, 2)])
    ensures Path(false, c, ss, c') && Nodes(c', [Three0(w, 0, -1), Voter(w, 1, 1, 0, 0, [E0(w)]), New(w, 2)])
    ensures InCallAt(c', 0, 2, 0, 1)
  {
    var ns := [Leader0(w, [E0(w)], [], 0, -1), Voter(w, 1, 1, 0, 0, [E0(w)]), New(w, 2)];
    var c1 := Appends(false, c, ns, 0, w.x);
    var ns1 := ns[0 := Leader0(w, [E0(w), E1(w)], [], 0, -1)];
    assert [E0(w)] + [E1(w)] == [E0(w), E1(w)] && [E0(w), E1(w)] + [E2(w)] == [E0(w), E1(w), E2(w)];
    assert ns[0 := H.AppendClient(ns[0], w.x)] == ns1;
    c' := Appends(false, c1, ns1, 0, w.x);
    ss := [ClientAppend(0, w.x)] + [ClientAppend(0, w.x)];
    Join(false, c, [ClientAppend(0, w.x)], c1, [ClientAppend(0, w.x)], c');
    assert ns1[0 := H.AppendClient(ns1[0], w.x)] == [Three0(w, 0, -1), Voter(w, 1, 1, 0, 0, [E0(w)]), New(w, 2)];
  }

  /** All three entries are sent to a node that has the first one: it skips them and answers success. */
  lemma SkippedCall(w: World, l: Node, v: Node, a: AppendArgs)
    requires l == Three0(w, 0, -1) && v == Voter(w, 1, 1, 0, 0, [E0(w)])
    requires a == AppendArgs(1, 0, -1, 0, [E0(w), E1(w), E2(w)], 0)
    ensures H.ClientRequest(l, 0, 2) == a && H.HandleAppend(v, a) == (v, AppendReply(1, true))
    ensures H.ClientReply(l, 0, 2, AppendReply(1, true)) == Three0(w, 3, 2)
  {
    assert [E0(w), E1(w), E2(w)][0..3] == [E0(w), E1(w), E2(w)];
  }

  lemma CallOut(w: World, c: Cluster) returns (ss: seq<Step>, c': Cluster)
    requires Nodes(c, [Three0(w, 0, -1), Voter(w, 1, 1, 0, 0, [E0(w)]), New(w, 2)]) && InCallAt(c, 0, 2, 0, 1)
    ensures Path(false, c, ss, c') && Nodes(c', [Three0(w, 3, 2), Voter(w, 1, 1, 0, 0, [E0(w)]), New(w, 2)])
    ensures InCallAt(c', 0, 2, 2, 2)
  {
    var ns, v := [Three0(w, 0, -1), Voter(w, 1, 1, 0, 0, [E0(w)]), New(w, 2)], Voter(w, 1, 1, 0, 0, [E0(w)]);
    var a := AppendArgs(1, 0, -1, 0, [E0(w), E1(w), E2(w)], 0);
    SkippedCall(w, ns[0], v, a);
    var s1, c1 := Answers(false, c, ns, 0, 2, 0, 1, a, v);
    var ns1 := [Three0(w, 3, 2), v, New(w, 2)];
    assert ns[1 := v][0 := Three0(w, 3, 2)] == ns1;
    c' := Unanswered(false, c1, ns1, 0, 2, 1, 2);
    ss := s1 + [CallSend(0, 2), CallMiss(0, 2)];
    Join(false, c, s1, c1, [CallSend(0, 2), CallMiss(0, 2)], c');
  }

  /** What a leader with a short log is after a commit: only its store is not spelled out. */
  lemma CommitIs(n: Node, index: int) returns (n': Node)
    requires n.lastApplied < index && |n.log| < SNAPSHOT_THRESHOLD
    ensures n' == H.CommitClient(n, index)
    ensures n' == H.Persist(n.(commitIndex := index, lastApplied := index, store := n'.store))
  {
    n' := H.CommitClient(n, index);
    ApplyKeeps(n.(commitIndex := index), index);
    ApplyReaches(n.(commitIndex := index), index);
  }

  /** Node 0 once it has committed and applied its entries. */
  function Done0(w: World, store: KV): Node {
    Plain(0, Leader, 1, 0, 0, [E0(w), E1(w), E2(w)], 2, 2, [3, 0], [2, -1], store, [E0(w), E1(w), E2(w)])
  }

  lemma Committed(w: World, c: Cluster) returns (c': Cluster, store: KV)
    requires Nodes(c, [Three0(w, 3, 2), Voter(w, 1, 1, 0, 0, [E0(w)]), New(w, 2)]) && InCallAt(c, 0, 2, 2, 2)
    ensures Fine(false, c, CallCommit(0, 2)) && Path(false, c, [CallCommit(0, 2)], c')
    ensures Nodes(c', [Done0(w, store), Voter(w, 1, 1, 0, 0, [E0(w)]), New(w, 2)])
  {
    var ns := [Three0(w, 3, 2), Voter(w, 1, 1, 0, 0, [E0(w)]), New(w, 2)];
    var n := CommitIs(ns[0], 2);
    store := n.store;
    c' := Commits(false, c, ns, 0, 2, n);
    assert ns[0 := n] == [Done0(w, store), Voter(w, 1, 1, 0, 0, [E0(w)]), New(w, 2)];
  }

  /** Node 1 is elected in the next term with the vote of node 2, whose log is empty. */
  lemma SecondElection(w: World, c: Cluster, store: KV) returns (ss: seq<Step>, c': Cluster)
    requires Nodes(c, [Done0(w, store), Voter(w, 1, 1, 0, 0, [E0(w)]), New(w, 2)])
    ensures Path(false, c, ss, c')
    ensures Nodes(c', [Done0(w, store), Leader1(w, [E0(w)]), Voter(w, 2, 2, 1, -1, [])])
  {
    var ns := [Done0(w, store), Voter(w, 1, 1, 0, 0, [E0(w)]), New(w, 2)];
    ss, c' := ElectsNext(false, c, ns, 1, 1, New(w, 2), Leader1(w, [E0(w)]), Voter(w, 2, 2, 1, -1, []));
    assert ns[1 := Leader1(w, [E0(w)])][2 := Voter(w, 2, 2, 1, -1, [])] ==
      [Done0(w, store), Leader1(w, [E0(w)]), Voter(w, 2, 2, 1, -1, [])];
  }

  function Leader1(w: World, log: Log): Node {
    Plain(1, Leader, 2, 1, 1, log, 0, 0, [1, 1], [-1, -1], w.store, [E0(w)])
  }

  /** What is left of node 0 once the new leader's entry has replaced its own. */
  function Cut0(w: World, store: KV): Node {
    Plain(0, Follower, 2, -1, 1, [E0(w), G1(w)], 2, 2, [3, 0], [2, -1], store, [E0(w), G1(w)])
  }

  lemma CuttingBeat(w: World, l: Node, n: Node, store: KV, a: AppendArgs)
    requires l == Leader1(w, [E0(w), G1(w)]) && n == Done0(w, store) && a == AppendArgs(2, 1, 0, 1, [G1(w)], 0)
    ensures H.HeartbeatRequest(l, 0) == a && H.HandleAppend(n, a).0 == Cut0(w, store)
  {
    assert [E0(w), G1(w)][1..2] == [G1(w)];
    assert H.Inserted([E0(w), E1(w), E2(w)], 0, 1, [G1(w)]) == [E0(w), G1(w)] by {
      assert [E0(w), E1(w), E2(w)][..1] == [E0(w)] && [G1(w)][1..] == [] && [E0(w)] + [G1(w)] == [E0(w), G1(w)];
      assert H.PushMissing([E0(w)], 0, [G1(w)]) == [E0(w), G1(w)];
    }
  }

  lemma Overwritten(w: World, c: Cluster, store: KV) returns (ss: seq<Step>, c': Cluster)
    requires Nodes(c, [Done0(w, store), Leader1(w, [E0(w)]), Voter(w, 2, 2, 1, -1, [])])
    ensures Path(false, c, ss, c') && Nodes(c', [Cut0(w, store), Leader1(w, [E0(w), G1(w)]), Voter(w, 2, 2, 1, -1, [])])
  {
    var ns := [Done0(w, store), Leader1(w, [E0(w)]), Voter(w, 2, 2, 1, -1, [])];
    var c1 := Appends(false, c, ns, 1, w.x);
    var ns1 := ns[1 := Leader1(w, [E0(w), G1(w)])];
    assert [E0(w)] + [G1(w)] == [E0(w), G1(w)];
    assert ns[1 := H.AppendClient(ns[1], w.x)] == ns1;
    var a := AppendArgs(2, 1, 0, 1, [G1(w)], 0);
    CuttingBeat(w, ns1[1], ns1[0], store, a);
    var s, m, c2;
    s, c2, m, c' := Beats(false, c1, ns1, 1, 0, a, Cut0(w, store));
    ss := [ClientAppend(1, w.x)] + [s, Step.HandleAppend(m)];
    Join(false, c, [ClientAppend(1, w.x)], c1, [s, Step.HandleAppend(m)], c');
    assert ns1[0 := Cut0(w, store)] == [Cut0(w, store), Leader1(w, [E0(w), G1(w)]), Voter(w, 2, 2, 1, -1, [])];
  }

  /** Node 0 leads again, in a log shorter than what it has applied. */
  lemma ThirdElection(w: World, c: Cluster, store: KV) returns (ss: seq<Step>, c': Cluster)
    requires Nodes(c, [Cut0(w, store), Leader1(w, [E0(w), G1(w)]), Voter(w, 2, 2, 1, -1, [])])
    ensures Path(false, c, ss, c') && |c'.procs| == 3 && c'.procs[0].node == Elected(Cut0(w, store), 3)
  {
    var ns := [Cut0(w, store), Leader1(w, [E0(w), G1(w)]), Voter(w, 2, 2, 1, -1, [])];
    ss, c' := ElectsNext(false, c, ns, 0, 0, Leader1(w, [E0(w), G1(w)]), Elected(Cut0(w, store), 3),
      Granting(Leader1(w, [E0(w), G1(w)]), 3, 0));
  }

  lemma ToCommit(w: World) returns (ss: seq<Step>, c: Cluster)
    ensures Path(false, Start(w), ss, c) && Nodes(c, [Three0(w, 3, 2), Voter(w, 1, 1, 0, 0, [E0(w)]), New(w, 2)])
    ensures InCallAt(c, 0, 2, 2, 2)
  {
    var s1, c1 := FirstElection(w, false);
    var s2, c2 := FirstEntry(w, c1);
    var s3, c3 := TwoMore(w, c2);
    var s4;
    s4, c := CallOut(w, c3);
    Join(false, Start(w), s1, c1, s2, c2);
    Join(false, Start(w), s1 + s2, c2, s3, c3);
    Join(false, Start(w), s1 + s2 + s3, c3, s4, c);
    ss := s1 + s2 + s3 + s4;
  }

  lemma ToThirdElection(w: World, c: Cluster, store: KV) returns (ss: seq<Step>, c': Cluster)
    requires Nodes(c, [Done0(w, store), Leader1(w, [E0(w)]), Voter(w, 2, 2, 1, -1, [])])
    ensures Path(false, c, ss, c') && |c'.procs| == 3 && c'.procs[0].node == Elected(Cut0(w, store), 3)
  {
    var s1, c1 := Overwritten(w, c, store);
    var s2;
    s2, c' := ThirdElection(w, c1, store);
    Join(false, c, s1, c1, s2, c');
    ss := s1 + s2;
  }

  /** The states of the run that matter: node 0 about to commit in step `k`, node 1 elected at `j`, and
      node 0 elected again at the end. */
  ghost predicate Marks(w: World, r: seq<Cluster>, steps: seq<Step>, k: nat, j: nat, store: KV) {
    && k < j < |steps| && |r| == |steps| + 1 && steps[k] == CallCommit(0, 2)
    && Nodes(r[k], [Three0(w, 3, 2), Voter(w, 1, 1, 0, 0, [E0(w)]), New(w, 2)])
    && Nodes(r[j], [Done0(w, store), Leader1(w, [E0(w)]), Voter(w, 2, 2, 1, -1, [])])
    && |r[|steps|].procs| == 3 && r[|steps|].procs[0].node == Elected(Cut0(w, store), 3)
  }

  lemma LosingRun(w: World) returns (r: seq<Cluster>, steps: seq<Step>, k: nat, j: nat, store: KV)
    ensures Fair(false, r, steps) && Marks(w, r, steps, k, j, store)
  {
    StartIsInit(w, false);
    var s1, c1 := ToCommit(w);
    var r1 := RunAlong(false, [Start(w)], [], s1, c1);
    k := |[] + s1|;
    var c2;
    c2, store := Committed(w, c1);
    var r2 := RunAlong(false, r1, [] + s1, [CallCommit(0, 2)], c2);
    var s3, c3 := SecondElection(w, c2, store);
    var r3 := RunAlong(false, r2, [] + s1 + [CallCommit(0, 2)], s3, c3);
    j := |[] + s1 + [CallCommit(0, 2)] + s3|;
    var s4, c4 := ToThirdElection(w, c3, store);
    r := RunAlong(false, r3, [] + s1 + [CallCommit(0, 2)] + s3, s4, c4);
    steps := [] + s1 + [CallCommit(0, 2)] + s3 + s4;
  }

  /** Leader Completeness needs its condition on skipped batches: node 0 commits the entries up to index
      2 in term 1, and node 1 leads term 2 without two of them. */
  lemma SkippedBatchLosesCommit(w: World) returns (r: seq<Cluster>, steps: seq<Step>, k: nat, j: nat)
    ensures IsRun(r, steps) && CompactionFree(r) && forall i | 0 <= i < |steps| :: !steps[i].Crash?
    ensures k < j < |steps| && steps[k] == CallCommit(0, 2) && Leads(r[k], 0, 1) && Leads(r[j], 1, 2)
    ensures r[k].procs[0].node.log == [E0(w), E1(w), E2(w)] && r[j].procs[1].node.log == [E0(w)]
    ensures !NothingLost(r, steps)
  {
    var store;
    r, steps, k, j, store := LosingRun(w);
    if NothingLost(r, steps) {
      LeaderCompleteness(r, steps, k, 0, 2, j, 1, 2);
    }
  }

  /** Leader Append-Only needs its condition on what was applied: node 0 comes to lead term 3 with more
      applied than its log holds, and a snapshot then moves the entries of its log. */
  lemma LeadsBehindApplied(w: World) returns (r: seq<Cluster>, steps: seq<Step>)
    ensures IsRun(r, steps) && CompactionFree(r) && Leads(r[|steps|], 0, 3)
    ensures Enabled(r[|steps|], TriggerSnapshot(0))
    ensures var n := r[|steps|].procs[0].node;
      !AppliedInLog(n) && !Continues(n, Do(r[|steps|], TriggerSnapshot(0)).procs[0].node, 3)
  {
    var k, j, store;
    r, steps, k, j, store := LosingRun(w);
    CompactContinuesExactly(r[|steps|].procs[0].node, 3);
  }

  // ---------- a commit that the request does not confirm ----------

  /** A log of `k` entries of term 1. */
  function Filled(w: World, k: nat): (f: Log)
    ensures |f| == k && forall i | 0 <= i < k :: f[i] == Entry(1, i, w.x)
  {
    seq(k, i requires i >= 0 => Entry(1, i, w.x))
  }

  lemma FilledNext(w: World, k: nat)
    ensures Filled(w, k) + [Entry(1, k, w.x)] == Filled(w, k + 1)
  {}

  lemma FilledLess(w: World, k: nat, m: nat)
    requires k <= m
    ensures Filled(w, m)[..k] == Filled(w, m)[0..k] == Filled(w, k)
  {}

  /** Node 0's first entries, appended and sent to nobody yet. */
  function Long0(w: World, k: nat): Node {
    Leader0(w, Filled(w, k), [], 0, -1)
  }

  lemma {:induction false} Fills(w: World, c: Cluster, k: nat, m: nat) returns (ss: seq<Step>, c': Cluster)
    requires Nodes(c, [Long0(w, k), Voter(w, 1, 1, 0, -1, []), New(w, 2)]) && k <= m
    ensures Path(true, c, ss, c') && Nodes(c', [Long0(w, m), Voter(w, 1, 1, 0, -1, []), New(w, 2)])
    decreases m - k
  {
    if k == m {
      ss, c' := [], c;
    } else {
      var ns := [Long0(w, k), Voter(w, 1, 1, 0, -1, []), New(w, 2)];
      FilledNext(w, k);
      var c1 := Appends(true, c, ns, 0, w.x);
      assert ns[0 := H.AppendClient(ns[0], w.x)] == [Long0(w, k + 1), Voter(w, 1, 1, 0, -1, []), New(w, 2)];
      var rest;
      rest, c' := Fills(w, c1, k + 1, m);
      ss := [ClientAppend(0, w.x)] + rest;
      Join(true, c, [ClientAppend(0, w.x)], c1, rest, c');
    }
  }

  /** A full batch from the start of the log. */
  function Batch(w: World, term: nat, leader: nat, commit: int): AppendArgs {
    AppendArgs(term, leader, -1, 0, Filled(w, 20), commit)
  }

  lemma LongBeat(w: World, l: Node, i: nat)
    requires l == Long0(w, 21) && i < 2
    ensures H.HeartbeatRequest(l, i) == Batch(w, 1, 0, 0)
  {
    FilledLess(w, 20, 21);
  }

  lemma BatchInserted(w: World)
    ensures H.Inserted([], 0, 0, Filled(w, 20)) == Filled(w, 20)
  {
    PushAll([], Filled(w, 20));
    assert [] + Filled(w, 20) == Filled(w, 20);
  }

  lemma BatchTaken(w: World, v: Node, a: AppendArgs, v': Node)
    requires a == Batch(w, 1, 0, 0)
    requires (v == Voter(w, 1, 1, 0, -1, []) && v' == Voter(w, 1, 1, 0, 0, Filled(w, 20)))
          || (v == New(w, 2) && v' == Voter(w, 2, 1, -1, 0, Filled(w, 20)))
    ensures H.HandleAppend(v, a).0 == v' && CarriesThrough(v.log, a)
  {
    BatchInserted(w);
  }

  /** The follower in slot `i` gets the first twenty entries by a heartbeat. */
  lemma SpreadsTo(w: World, c: Cluster, ns: seq<Node>, i: nat, v': Node) returns (ss: seq<Step>, c': Cluster)
    requires Nodes(c, ns) && ns[0] == Long0(w, 21) && i < 2 && v'.snapshot.None?
    requires H.HandleAppend(ns[i + 1], Batch(w, 1, 0, 0)).0 == v' && CarriesThrough(ns[i + 1].log, Batch(w, 1, 0, 0))
    ensures Path(true, c, ss, c') && Nodes(c', ns[i + 1 := v'])
  {
    LongBeat(w, ns[0], i);
    var s, b, m;
    s, b, m, c' := Beats(true, c, ns, 0, i, Batch(w, 1, 0, 0), v');
    ss := [s, Step.HandleAppend(m)];
  }

  /** Both followers get them. */
  lemma Spreads(w: World, c: Cluster) returns (ss: seq<Step>, c': Cluster)
    requires Nodes(c, [Long0(w, 21), Voter(w, 1, 1, 0, -1, []), New(w, 2)])
    ensures Path(true, c, ss, c')
    ensures Nodes(c', [Long0(w, 21), Voter(w, 1, 1, 0, 0, Filled(w, 20)), Voter(w, 2, 1, -1, 0, Filled(w, 20))])
  {
    var l, v1, v2 := Long0(w, 21), Voter(w, 1, 1, 0, 0, Filled(w, 20)), Voter(w, 2, 1, -1, 0, Filled(w, 20));
    BatchTaken(w, Voter(w, 1, 1, 0, -1, []), Batch(w, 1, 0, 0), v1);
    BatchTaken(w, New(w, 2), Batch(w, 1, 0, 0), v2);
    var s1, c1 := SpreadsTo(w, c, [l, Voter(w, 1, 1, 0, -1, []), New(w, 2)], 0, v1);
    assert [l, Voter(w, 1, 1, 0, -1, []), New(w, 2)][1 := v1] == [l, v1, New(w, 2)];
    var s2;
    s2, c' := SpreadsTo(w, c1, [l, v1, New(w, 2)], 1, v2);
    assert [l, v1, New(w, 2)][2 := v2] == [l, v1, v2];
    ss := s1 + s2;
    Join(true, c, s1, c1, s2, c');
  }

  function Y(w: World): Entry {
    Entry(2, 20, w.y)
  }


  /** Node 1 as the leader of term 2. */
  function LongLeader(w: World, log: Log, saved: Log, next0: int, next2: int, matched2: int): Node {
    Plain(1, Leader, 2, 1, 1, log, 0, 0, [next0, next2], [-1, matched2], w.store, saved)
  }

  lemma LongElection(w: World, c: Cluster) returns (ss: seq<Step>, c': Cluster)
    requires Nodes(c, [Long0(w, 21), Voter(w, 1, 1, 0, 0, Filled(w, 20)), Voter(w, 2, 1, -1, 0, Filled(w, 20))])
    ensures Path(true, c, ss, c')
    ensures Nodes(c', [Long0(w, 21), LongLeader(w, Filled(w, 20), Filled(w, 20), 20, 20, -1),
                       Voter(w, 2, 2, 1, 0, Filled(w, 20))])
    ensures c'.procs[1].calls == map[]
  {
    var ns := [Long0(w, 21), Voter(w, 1, 1, 0, 0, Filled(w, 20)), Voter(w, 2, 1, -1, 0, Filled(w, 20))];
    var e, g := LongLeader(w, Filled(w, 20), Filled(w, 20), 20, 20, -1), Voter(w, 2, 2, 1, 0, Filled(w, 20));
    ss, c' := ElectsNext(true, c, ns, 1, 1, ns[2], e, g);
    assert ns[1 := e][2 := g] == [Long0(w, 21), e, g];
  }

  function Other20(w: World): Log {
    Filled(w, 20) + [Y(w)]
  }

  /** Node 1's entry at index 20 is taken by node 2. */
  lemma LongCall(w: World, l: Node, v: Node, a: AppendArgs)
    requires l == LongLeader(w, Other20(w), Filled(w, 20), 20, 20, -1) && v == Voter(w, 2, 2, 1, 0, Filled(w, 20))
    requires a == AppendArgs(2, 1, 19, 1, [Y(w)], 0)
    ensures H.ClientRequest(l, 1, 20) == a && CarriesThrough(v.log, a)
    ensures H.HandleAppend(v, a) == (Voter(w, 2, 2, 1, 1, Other20(w)), AppendReply(2, true))
    ensures H.ClientReply(l, 1, 20, AppendReply(2, true)) == LongLeader(w, Other20(w), Filled(w, 20), 20, 21, 20)
  {
    assert Other20(w)[20..21] == [Y(w)];
    PushAll(Filled(w, 20), [Y(w)]);
  }

  lemma LongCallOut(w: World, c: Cluster) returns (ss: seq<Step>, c': Cluster)
    requires Nodes(c, [Long0(w, 21), LongLeader(w, Filled(w, 20), Filled(w, 20), 20, 20, -1),
                       Voter(w, 2, 2, 1, 0, Filled(w, 20))])
    ensures Path(true, c, ss, c') && InCallAt(c', 1, 20, 2, 2)
    ensures Nodes(c', [Long0(w, 21), LongLeader(w, Other20(w), Filled(w, 20), 20, 21, 20),
                       Voter(w, 2, 2, 1, 1, Other20(w))])
  {
    var v := Voter(w, 2, 2, 1, 0, Filled(w, 20));
    var ns := [Long0(w, 21), LongLeader(w, Filled(w, 20), Filled(w, 20), 20, 20, -1), v];
    var c1 := Appends(true, c, ns, 1, w.y);
    var ns1 := [Long0(w, 21), LongLeader(w, Other20(w), Filled(w, 20), 20, 20, -1), v];
    assert ns[1 := H.AppendClient(ns[1], w.y)] == ns1;
    var c2 := Unanswered(true, c1, ns1, 1, 20, 0, 1);
    var a, v' := AppendArgs(2, 1, 19, 1, [Y(w)], 0), Voter(w, 2, 2, 1, 1, Other20(w));
    LongCall(w, ns1[1], v, a);
    var s3;
    s3, c' := Answers(true, c2, ns1, 1, 20, 1, 1, a, v');
    assert ns1[2 := v'][1 := LongLeader(w, Other20(w), Filled(w, 20), 20, 21, 20)] ==
      [Long0(w, 21), LongLeader(w, Other20(w), Filled(w, 20), 20, 21, 20), v'];
    ss := [ClientAppend(1, w.y)] + [CallSend(1, 20), CallMiss(1, 20)] + s3;
    Join(true, c, [ClientAppend(1, w.y)], c1, [CallSend(1, 20), CallMiss(1, 20)], c2);
    Join(true, c, [ClientAppend(1, w.y)] + [CallSend(1, 20), CallMiss(1, 20)], c2, s3, c');
  }

  /** Node 1 once it has committed and applied up to index 20, with its next index for node 0. */
  function LongDone(w: World, next0: int, store: KV): Node {
    Plain(1, Leader, 2, 1, 1, Other20(w), 20, 20, [next0, 21], [-1, 20], store, Other20(w))
  }

  lemma LongCommitted(w: World, c: Cluster) returns (c': Cluster, store: KV)
    requires Nodes(c, [Long0(w, 21), LongLeader(w, Other20(w), Filled(w, 20), 20, 21, 20),
                       Voter(w, 2, 2, 1, 1, Other20(w))])
    requires InCallAt(c, 1, 20, 2, 2)
    ensures Fine(true, c, CallCommit(1, 20)) && Path(true, c, [CallCommit(1, 20)], c')
    ensures Nodes(c', [Long0(w, 21), LongDone(w, 20, store), Voter(w, 2, 2, 1, 1, Other20(w))])
  {
    var ns := [Long0(w, 21), LongLeader(w, Other20(w), Filled(w, 20), 20, 21, 20), Voter(w, 2, 2, 1, 1, Other20(w))];
    var n := CommitIs(ns[1], 20);
    store := n.store;
    c' := Commits(true, c, ns, 1, 20, n);
    assert ns[1 := n] == [Long0(w, 21), LongDone(w, 20, store), Voter(w, 2, 2, 1, 1, Other20(w))];
  }

  lemma BackOffIs(w: World, next: nat, store: KV)
    requires next > 0
    ensures H.BackOff(LongDone(w, next, store), 0) == LongDone(w, next - 1, store)
  {
    assert [next, 21][0 := next - 1] == [next - 1, 21];
  }

  /** Refused heartbeats bring the next index for node 0 back to the start. */
  lemma {:induction false} BacksOff(w: World, c: Cluster, next: nat, store: KV) returns (ss: seq<Step>, c': Cluster)
    requires Nodes(c, [Long0(w, 21), LongDone(w, next, store), Voter(w, 2, 2, 1, 1, Other20(w))])
    ensures Path(true, c, ss, c') && Nodes(c', [Long0(w, 21), LongDone(w, 0, store), Voter(w, 2, 2, 1, 1, Other20(w))])
    decreases next
  {
    if next == 0 {
      ss, c' := [], c;
    } else {
      var ns := [Long0(w, 21), LongDone(w, next, store), Voter(w, 2, 2, 1, 1, Other20(w))];
      var c1 := Refuses(true, c, ns, 1, 0);
      BackOffIs(w, next, store);
      assert ns[1 := H.BackOff(ns[1], 0)] ==
        [Long0(w, 21), LongDone(w, next - 1, store), Voter(w, 2, 2, 1, 1, Other20(w))];
      var rest;
      rest, c' := BacksOff(w, c1, next - 1, store);
      ss := [HeartbeatRefused(1, 0)] + rest;
      Join(true, c, [HeartbeatRefused(1, 0)], c1, rest, c');
    }
  }

  /** Node 0 as a follower of term 2. */
  function Long0Later(w: World): Node {
    Plain(0, Follower, 2, -1, 1, Filled(w, 21), 0, 0, [0, 0], [-1, -1], w.store, Filled(w, 21))
  }

  lemma SkippedBatch(w: World, n: Node, a: AppendArgs)
    requires n == Long0(w, 21) && a == Batch(w, 2, 1, 20)
    ensures H.StepDown(n, a) == H.TakeEntries(H.StepDown(n, a), a) == Long0Later(w)
    ensures H.Commits(n, a) && CarriesThrough(n.log, a) && TakenLog(n, a) == n.log
  {}

  lemma {:induction false} TraceHas(n: Node, target: int, i: int)
    requires n.lastApplied < i <= target
    ensures ReadAt(n, i) in ApplyTrace(n, target)
    decreases target - n.lastApplied
  {
    if i > n.lastApplied + 1 {
      var next := n.(lastApplied := n.lastApplied + 1);
      TraceHas(next, target, i);
      assert ReadAt(next, i) == ReadAt(n, i);
    }
  }

  lemma FollowerReadsAt(n: Node, a: AppendArgs, t: Node, i: int)
    requires t == H.TakeEntries(H.StepDown(n, a), a) && t.lastApplied < i <= H.CommitTarget(t, a.leaderCommit)
    ensures ReadAt(t, i) in FollowerTrace(n, a)
  {
    TraceHas(t, H.CommitTarget(t, a.leaderCommit), i);
  }

  /** A node whose log stays short takes no snapshot. */
  lemma ShortTakesNone(n: Node, a: AppendArgs)
    requires n.snapshot.None? && a.term >= n.term && |TakenLog(n, a)| < SNAPSHOT_THRESHOLD
    ensures H.HandleAppend(n, a).0.snapshot.None?
  {
    var d := H.StepDown(n, a);
    FinishTakesLog(d, a);
    assert TakenLog(d, a) == TakenLog(n, a);
  }

  lemma LongBatchAgain(w: World, l: Node, store: KV)
    requires l == LongDone(w, 0, store)
    ensures H.HeartbeatRequest(l, 0) == Batch(w, 2, 1, 20)
  {
    assert Other20(w)[0..20] == Filled(w, 20);
  }

  lemma ReadsTwenty(w: World, t: Node)
    requires t == Long0Later(w)
    ensures ReadAt(t, 20) == Read(20, Some(w.x))
  {}

  /** On a batch that it skips, node 0 commits and applies its own entry at index 20. */
  lemma CommitsOwn(w: World, n: Node, a: AppendArgs)
    requires n == Long0(w, 21) && a == Batch(w, 2, 1, 20)
    ensures H.Commits(n, a) && Read(20, Some(w.x)) in FollowerTrace(n, a)
  {
    SkippedBatch(w, n, a);
    ReadsTwenty(w, Long0Later(w));
    FollowerReadsAt(n, a, Long0Later(w), 20);
  }

  lemma SkipKeepsNone(w: World, n: Node, a: AppendArgs)
    requires n == Long0(w, 21) && a == Batch(w, 2, 1, 20)
    ensures H.HandleAppend(n, a).0.snapshot.None?
  {
    SkippedBatch(w, n, a);
    ShortTakesNone(n, a);
  }

  lemma ToLongCommit(w: World) returns (ss: seq<Step>, c: Cluster)
    ensures Path(true, Start(w), ss, c) && InCallAt(c, 1, 20, 2, 2)
    ensures Nodes(c, [Long0(w, 21), LongLeader(w, Other20(w), Filled(w, 20), 20, 21, 20),
                      Voter(w, 2, 2, 1, 1, Other20(w))])
  {
    var s1, c1 := FirstElection(w, true);
    assert Filled(w, 0) == [];
    var s2, c2 := Fills(w, c1, 0, 21);
    var s3, c3 := Spreads(w, c2);
    var s4, c4 := LongElection(w, c3);
    var s5;
    s5, c := LongCallOut(w, c4);
    Join(true, Start(w), s1, c1, s2, c2);
    Join(true, Start(w), s1 + s2, c2, s3, c3);
    Join(true, Start(w), s1 + s2 + s3, c3, s4, c4);
    Join(true, Start(w), s1 + s2 + s3 + s4, c4, s5, c);
    ss := s1 + s2 + s3 + s4 + s5;
  }

  /** The last heartbeat, once it is refused no longer. */
  lemma LastBeat(w: World, c: Cluster, store: KV) returns (ss: seq<Step>, c1: Cluster, m: Msg, c': Cluster)
    requires Nodes(c, [Long0(w, 21), LongDone(w, 20, store), Voter(w, 2, 2, 1, 1, Other20(w))])
    ensures m == AppReq(1, 0, Batch(w, 2, 1, 20)) && Path(true, c, ss, c1) && Fine(true, c1, Step.HandleAppend(m))
    ensures c' == Do(c1, Step.HandleAppend(m)) && |c1.procs| == 3 && c1.procs[0].node == Long0(w, 21)
  {
    var s1, b := BacksOff(w, c, 20, store);
    var ns, a := [Long0(w, 21), LongDone(w, 0, store), Voter(w, 2, 2, 1, 1, Other20(w))], Batch(w, 2, 1, 20);
    LongBatchAgain(w, ns[1], store);
    SkippedBatch(w, ns[0], a);
    SkipKeepsNone(w, ns[0], a);
    var s, d;
    s, c1, m, d := Beats(true, b, ns, 1, 0, a, H.HandleAppend(ns[0], a).0);
    c' := Do(c1, Step.HandleAppend(m));
    ss := s1 + [s];
    Join(true, c, s1, b, [s], c1);
  }

  /** Node 1 commits in step `k`, and node 0 takes the last heartbeat in the last step. */
  ghost predicate Diverging(w: World, r: seq<Cluster>, steps: seq<Step>, k: nat) {
    && k + 1 < |steps| && |r| == |steps| + 1 && steps[k] == CallCommit(1, 20)
    && |r[k].procs| == 3 && r[k].procs[1].node == LongLeader(w, Other20(w), Filled(w, 20), 20, 21, 20)
    && var j := |steps| - 1;
       && |r[j].procs| == 3 && r[j].procs[0].node == Long0(w, 21)
       && steps[j] == Step.HandleAppend(AppReq(1, 0, Batch(w, 2, 1, 20)))
  }

  /** Node 1 has committed in the last step, `k`. */
  ghost predicate CommittedAt(w: World, r: seq<Cluster>, steps: seq<Step>, k: nat, store: KV) {
    && k + 1 == |steps| && |r| == |steps| + 1 && steps[k] == CallCommit(1, 20)
    && |r[k].procs| == 3 && r[k].procs[1].node == LongLeader(w, Other20(w), Filled(w, 20), 20, 21, 20)
    && Nodes(r[|steps|], [Long0(w, 21), LongDone(w, 20, store), Voter(w, 2, 2, 1, 1, Other20(w))])
  }

  lemma CommittedRun(w: World) returns (r: seq<Cluster>, steps: seq<Step>, k: nat, store: KV)
    ensures Fair(true, r, steps) && CommittedAt(w, r, steps, k, store)
  {
    StartIsInit(w, true);
    var s1, c1 := ToLongCommit(w);
    r := RunAlong(true, [Start(w)], [], s1, c1);
    steps := [] + s1;
    k := |steps|;
    var c2;
    c2, store := LongCommitted(w, c1);
    r := RunAlong(true, r, steps, [CallCommit(1, 20)], c2);
    steps := steps + [CallCommit(1, 20)];
  }

  lemma RunOn(strict: bool, r: seq<Cluster>, steps: seq<Step>, ss: seq<Step>, c: Cluster, s: Step)
      returns (r': seq<Cluster>, steps': seq<Step>)
    requires Fair(strict, r, steps) && Path(strict, r[|steps|], ss, c) && Fine(strict, c, s)
    ensures Fair(strict, r', steps') && r <= r' && |r'| == |steps'| + 1
    ensures steps' == steps + ss + [s] && r'[|steps + ss|] == c
  {
    r' := RunAlong(strict, r, steps, ss, c);
    RunMore(strict, r', steps + ss, s);
    r', steps' := r' + [Do(c, s)], steps + ss + [s];
  }

  /** The run goes on, and node 0 takes the last heartbeat in the last step. */
  ghost predicate BeatLast(w: World, before: seq<Cluster>, first: seq<Step>, r: seq<Cluster>, steps: seq<Step>) {
    && before <= r && first <= steps && |first| < |steps| && |r| == |steps| + 1
    && var j := |steps| - 1;
       && |r[j].procs| == 3 && r[j].procs[0].node == Long0(w, 21)
       && steps[j] == Step.HandleAppend(AppReq(1, 0, Batch(w, 2, 1, 20)))
  }

  lemma LastBeatRun(w: World, before: seq<Cluster>, first: seq<Step>, c: Cluster, store: KV)
      returns (r: seq<Cluster>, steps: seq<Step>)
    requires Fair(true, before, first) && c == before[|first|]
    requires Nodes(c, [Long0(w, 21), LongDone(w, 20, store), Voter(w, 2, 2, 1, 1, Other20(w))])
    ensures Fair(true, r, steps) && BeatLast(w, before, first, r, steps)
  {
    var last, c1, m, c' := LastBeat(w, c, store);
    r, steps := RunOn(true, before, first, last, c1, Step.HandleAppend(m));
    assert |steps| - 1 == |first + last|;
  }

  lemma DivergingRun(w: World) returns (r: seq<Cluster>, steps: seq<Step>, k: nat)
    ensures Fair(true, r, steps) && Diverging(w, r, steps, k)
  {
    var before, first, store;
    before, first, k, store := CommittedRun(w);
    r, steps := LastBeatRun(w, before, first, before[|first|], store);
    assert r[k] == before[k] && steps[k] == first[k];
  }

  lemma CommitsOther(w: World, n: Node)
    requires n == LongLeader(w, Other20(w), Filled(w, 20), 20, 21, 20)
    ensures Read(20, Some(w.y)) in ApplyTrace(n, 20)
  {
    TraceHas(n, 20, 20);
  }

  lemma CommitReadAt(r: seq<Cluster>, steps: seq<Step>, k: nat, n: nat, index: int, x: Read)
    requires IsRun(r, steps) && k < |steps| && steps[k] == CallCommit(n, index) && n < |r[k].procs|
    requires x in ApplyTrace(r[k].procs[n].node, index)
    ensures Enabled(r[k], steps[k]) && x in StepTrace(r[k], steps[k], n)
  {
    assert RunStep(r, steps, k);
  }

  lemma AppendReadAt(r: seq<Cluster>, steps: seq<Step>, k: nat, m: Msg, x: Read)
    requires IsRun(r, steps) && k < |steps| && steps[k] == Step.HandleAppend(m) && m.AppReq? && m.dst < |r[k].procs|
    requires H.Commits(r[k].procs[m.dst].node, m.append) && x in FollowerTrace(r[k].procs[m.dst].node, m.append)
    ensures Enabled(r[k], steps[k]) && x in StepTrace(r[k], steps[k], m.dst)
  {
    assert RunStep(r, steps, k);
  }

  /** Node `v` applies `command` at index 20 in step `k`. */
  ghost predicate AppliesAtTwenty(r: seq<Cluster>, steps: seq<Step>, k: nat, v: nat, command: string)
    requires |r| > |steps|
  {
    k < |steps| && Enabled(r[k], steps[k]) && Read(20, Some(command)) in StepTrace(r[k], steps[k], v)
  }

  lemma NodeOneReads(w: World, r: seq<Cluster>, steps: seq<Step>, k: nat)
    requires IsRun(r, steps) && Diverging(w, r, steps, k)
    ensures AppliesAtTwenty(r, steps, k, 1, w.y)
  {
    CommitsOther(w, r[k].procs[1].node);
    CommitReadAt(r, steps, k, 1, 20, Read(20, Some(w.y)));
  }

  lemma NodeZeroReads(w: World, r: seq<Cluster>, steps: seq<Step>, k: nat)
    requires IsRun(r, steps) && Diverging(w, r, steps, k)
    ensures AppliesAtTwenty(r, steps, |steps| - 1, 0, w.x)
  {
    var j, a := |steps| - 1, Batch(w, 2, 1, 20);
    CommitsOwn(w, r[j].procs[0].node, a);
    AppendReadAt(r, steps, j, AppReq(1, 0, a), Read(20, Some(w.x)));
  }

  /** State Machine Safety needs its condition on commits: in a run without compaction and crashes in
      which nothing is lost, node 1 applies `w.y` and node 0 applies `w.x` at index 20. */
  lemma UnconfirmedCommitDiverges(w: World) returns (r: seq<Cluster>, steps: seq<Step>, k: nat, j: nat)
    ensures IsRun(r, steps) && CompactionFree(r) && NothingLost(r, steps)
    ensures forall i | 0 <= i < |steps| :: !steps[i].Crash?
    ensures AppliesAtTwenty(r, steps, k, 1, w.y) && AppliesAtTwenty(r, steps, j, 0, w.x)
  {
    r, steps, k := DivergingRun(w);
    j := |steps| - 1;
    NodeOneReads(w, r, steps, k);
    NodeZeroReads(w, r, steps, k);
  }
}
