/** Runs of a cluster of three nodes, built block by block. A block takes a cluster whose nodes are
    known to one whose nodes are known. */
module Scenarios {
  import opened RaftTypes
  import opened Protocol
  import opened LogMatching
  import opened AckSteps
  import opened SuccessReply
  import H = Handlers

  /** The steps of a path are no crashes and take no snapshots; those of a strict one lose nothing. */
  ghost predicate Fine(strict: bool, c: Cluster, s: Step) {
    Enabled(c, s) && !s.Crash? && NoSnapshots(Do(c, s)) && (strict ==> LosesNothing(c, s))
  }

  ghost predicate Path(strict: bool, c: Cluster, ss: seq<Step>, c': Cluster)
    decreases |ss|
  {
    if ss == [] then c' == c else Fine(strict, c, ss[0]) && Path(strict, Do(c, ss[0]), ss[1..], c')
  }

  lemma {:induction false} Join(strict: bool, a: Cluster, ss: seq<Step>, b: Cluster, more: seq<Step>, c: Cluster)
    requires Path(strict, a, ss, b) && Path(strict, b, more, c)
    ensures Path(strict, a, ss + more, c)
    decreases |ss|
  {
    if ss == [] {
      assert ss + more == more;
    } else {
      assert (ss + more)[1..] == ss[1..] + more;
      Join(strict, Do(a, ss[0]), ss[1..], b, more, c);
    }
  }

  lemma One(strict: bool, c: Cluster, s: Step)
    requires Fine(strict, c, s)
    ensures Path(strict, c, [s], Do(c, s))
  {
    assert [s][1..] == [];
  }

  lemma Two(strict: bool, a: Cluster, s: Step, b: Cluster, t: Step, c: Cluster)
    requires Fine(strict, a, s) && b == Do(a, s) && Fine(strict, b, t) && c == Do(b, t)
    ensures Path(strict, a, [s, t], c)
  {
    One(strict, a, s);
    One(strict, b, t);
    Join(strict, a, [s], b, [t], c);
    assert [s] + [t] == [s, t];
  }

  lemma Three(strict: bool, a: Cluster, s: Step, b: Cluster, t: Step, c: Cluster, u: Step, d: Cluster)
    requires Fine(strict, a, s) && b == Do(a, s) && Fine(strict, b, t) && c == Do(b, t)
    requires Fine(strict, c, u) && d == Do(c, u)
    ensures Path(strict, a, [s, t, u], d)
  {
    Two(strict, a, s, b, t, c);
    One(strict, c, u);
    Join(strict, a, [s, t], c, [u], d);
    assert [s, t] + [u] == [s, t, u];
  }

  // ---------- paths and runs ----------

  ghost predicate Fair(strict: bool, r: seq<Cluster>, steps: seq<Step>) {
    && IsRun(r, steps) && CompactionFree(r) && (strict ==> NothingLost(r, steps))
    && forall k | 0 <= k < |steps| :: !steps[k].Crash?
  }

  lemma RunMore(strict: bool, r: seq<Cluster>, steps: seq<Step>, s: Step)
    requires Fair(strict, r, steps) && Fine(strict, r[|steps|], s)
    ensures Fair(strict, r + [Do(r[|steps|], s)], steps + [s])
  {
    var r', steps' := r + [Do(r[|steps|], s)], steps + [s];
    forall k | 0 <= k < |steps'| ensures RunStep(r', steps', k) {
      assert k < |steps| ==> RunStep(r, steps, k);
    }
    forall k | 0 <= k < |r'| ensures NoSnapshots(r'[k]) {
      assert k < |r| ==> NoSnapshots(r[k]);
    }
    if strict {
      forall k | 0 <= k < |steps'| && k < |r'| ensures LosesNothing(r'[k], steps'[k]) {
        assert k < |steps| ==> LosesNothing(r[k], steps[k]);
      }
    }
  }

  /** A run goes on along a path. */
  lemma {:induction false} RunAlong(strict: bool, r: seq<Cluster>, steps: seq<Step>, ss: seq<Step>, c: Cluster)
      returns (r': seq<Cluster>)
    requires Fair(strict, r, steps) && Path(strict, r[|steps|], ss, c)
    ensures Fair(strict, r', steps + ss) && r <= r' && r'[|steps + ss|] == c
    decreases |ss|
  {
    if ss == [] {
      r' := r;
      assert steps + ss == steps;
    } else {
      RunMore(strict, r, steps, ss[0]);
      r' := RunAlong(strict, r + [Do(r[|steps|], ss[0])], steps + [ss[0]], ss[1..], c);
      assert steps + [ss[0]] + ss[1..] == steps + ss;
    }
  }

  // ---------- blocks ----------

  /** The three nodes of a cluster, none with a snapshot. */
  predicate Nodes(c: Cluster, ns: seq<Node>) {
    && |c.procs| == |ns| == 3
    && (forall i | 0 <= i < 3 :: c.procs[i].node == ns[i] && ns[i].snapshot.None?)
  }

  predicate TwoSlots(n: Node) {
    |n.nextIndex| == |n.matchIndex| == 2
  }

  predicate Polling(p: Proc, i: nat, votes: nat) {
    p.node.role == Candidate && p.election == Some(Election(p.node.term, i, votes))
  }

  lemma Begins(strict: bool, c: Cluster, ns: seq<Node>, n: nat) returns (c': Cluster)
    requires Nodes(c, ns) && n < 3 && ns[n].role != Leader
    ensures Path(strict, c, [Step.BeginElection(n)], c')
    ensures Nodes(c', ns[n := H.BeginElection(ns[n])]) && Polling(c'.procs[n], 0, 1)
  {
    c' := DoBegin(c, n);
    One(strict, c, Step.BeginElection(n));
  }

  lemma Misses(strict: bool, c: Cluster, ns: seq<Node>, n: nat, i: nat, votes: nat) returns (c': Cluster)
    requires Nodes(c, ns) && n < 3 && Polling(c.procs[n], i, votes) && i < 2
    ensures Path(strict, c, [Step.MissVote(n)], c')
    ensures Nodes(c', ns) && Polling(c'.procs[n], i + 1, votes)
  {
    c' := DoMissVote(c, n);
    One(strict, c, Step.MissVote(n));
  }

  /** The voter in slot `i` grants its vote. */
  predicate Grants(n: Node, v: Node, v': Node) {
    H.HandleVote(v, H.VoteRequest(n)) == (v', VoteReply(n.term, true)) && v'.snapshot.None?
  }

  lemma Polls(strict: bool, c: Cluster, ns: seq<Node>, n: nat, i: nat, votes: nat, v': Node)
      returns (ss: seq<Step>, c': Cluster)
    requires Nodes(c, ns) && n < 3 && Polling(c.procs[n], i, votes) && i < 2
    requires Grants(ns[n], ns[PeerId(n, i)], v')
    ensures Path(strict, c, ss, c')
    ensures Nodes(c', ns[PeerId(n, i) := v']) && Polling(c'.procs[n], i + 1, votes + 1)
  {
    var v := PeerId(n, i);
    var q := VoteReq(n, v, H.VoteRequest(ns[n]));
    var a := VoteRep(v, n, ns[n].term, VoteReply(ns[n].term, true));
    var c1 := Asks(strict, c, ns, n, i, votes, q);
    var c2 := Voted(strict, c1, ns, n, i, votes, v', q, a);
    c' := Counted(strict, c2, ns[v := v'], n, i, votes, a);
    ss := [Step.AskVote(n), Step.HandleVote(q), Step.TakeVote(n, a)];
    Three(strict, c, Step.AskVote(n), c1, Step.HandleVote(q), c2, Step.TakeVote(n, a), c');
  }

  lemma Asks(strict: bool, c: Cluster, ns: seq<Node>, n: nat, i: nat, votes: nat, q: Msg) returns (c': Cluster)
    requires Nodes(c, ns) && n < 3 && Polling(c.procs[n], i, votes) && i < 2
    requires q == VoteReq(n, PeerId(n, i), H.VoteRequest(ns[n]))
    ensures Fine(strict, c, Step.AskVote(n)) && c' == Do(c, Step.AskVote(n))
    ensures Nodes(c', ns) && Polling(c'.procs[n], i, votes) && q in c'.msgs
  {
    c' := DoAsk(c, n);
  }

  lemma Voted(strict: bool, c: Cluster, ns: seq<Node>, n: nat, i: nat, votes: nat, v': Node, q: Msg, a: Msg)
      returns (c': Cluster)
    requires Nodes(c, ns) && n < 3 && Polling(c.procs[n], i, votes) && i < 2 && q in c.msgs
    requires Grants(ns[n], ns[PeerId(n, i)], v') && q == VoteReq(n, PeerId(n, i), H.VoteRequest(ns[n]))
    requires a == VoteRep(PeerId(n, i), n, ns[n].term, VoteReply(ns[n].term, true))
    ensures Fine(strict, c, Step.HandleVote(q)) && c' == Do(c, Step.HandleVote(q))
    ensures Nodes(c', ns[PeerId(n, i) := v']) && Polling(c'.procs[n], i, votes) && a in c'.msgs
  {
    c' := DoHandleVote(c, q);
  }

  lemma Counted(strict: bool, c: Cluster, ns: seq<Node>, n: nat, i: nat, votes: nat, a: Msg) returns (c': Cluster)
    requires Nodes(c, ns) && n < 3 && Polling(c.procs[n], i, votes) && i < 2 && a in c.msgs
    requires a == VoteRep(PeerId(n, i), n, ns[n].term, VoteReply(ns[n].term, true))
    ensures Fine(strict, c, Step.TakeVote(n, a)) && c' == Do(c, Step.TakeVote(n, a))
    ensures Nodes(c', ns) && Polling(c'.procs[n], i + 1, votes + 1)
  {
    c' := DoTakeVote(c, n, a);
  }

  lemma Wins(strict: bool, c: Cluster, ns: seq<Node>, n: nat) returns (c': Cluster)
    requires Nodes(c, ns) && n < 3 && Polling(c.procs[n], 2, 2)
    ensures Path(strict, c, [Step.WinElection(n)], c')
    ensures Nodes(c', ns[n := H.WinElection(ns[n])]) && c'.procs[n].calls == map[]
  {
    c' := DoWin(c, n);
    One(strict, c, Step.WinElection(n));
  }

  /** Both peers are asked, of which the one in slot `i` grants its vote. */
  lemma PollsBoth(strict: bool, c: Cluster, ns: seq<Node>, n: nat, i: nat, v': Node)
      returns (ss: seq<Step>, c': Cluster)
    requires Nodes(c, ns) && n < 3 && i < 2 && Polling(c.procs[n], 0, 1) && Grants(ns[n], ns[PeerId(n, i)], v')
    ensures Path(strict, c, ss, c')
    ensures Nodes(c', ns[PeerId(n, i) := v']) && Polling(c'.procs[n], 2, 2)
  {
    if i == 0 {
      var s, c1 := Polls(strict, c, ns, n, 0, 1, v');
      c' := Misses(strict, c1, ns[PeerId(n, 0) := v'], n, 1, 2);
      ss := s + [Step.MissVote(n)];
      Join(strict, c, s, c1, [Step.MissVote(n)], c');
    } else {
      var c1 := Misses(strict, c, ns, n, 0, 1);
      var s;
      s, c' := Polls(strict, c1, ns, n, 1, 1, v');
      ss := [Step.MissVote(n)] + s;
      Join(strict, c, [Step.MissVote(n)], c1, s, c');
    }
  }

  /** Node `n` is elected with its own vote and that of the peer in slot `i`. */
  lemma Elects(strict: bool, c: Cluster, ns: seq<Node>, n: nat, i: nat, b: Node, v': Node)
      returns (ss: seq<Step>, c': Cluster)
    requires Nodes(c, ns) && n < 3 && i < 2 && ns[n].role != Leader && b == H.BeginElection(ns[n])
    requires Grants(b, ns[PeerId(n, i)], v')
    ensures Path(strict, c, ss, c')
    ensures Nodes(c', ns[n := H.WinElection(b)][PeerId(n, i) := v']) && c'.procs[n].calls == map[]
  {
    var v := PeerId(n, i);
    var nv := ns[n := b][v := v'];
    var c1 := Begins(strict, c, ns, n);
    var polls, c2 := PollsBoth(strict, c1, ns[n := b], n, i, v');
    c' := Wins(strict, c2, nv, n);
    ss := [Step.BeginElection(n)] + polls + [Step.WinElection(n)];
    Join(strict, c, [Step.BeginElection(n)], c1, polls, c2);
    Join(strict, c, [Step.BeginElection(n)] + polls, c2, [Step.WinElection(n)], c');
    assert nv[n := H.WinElection(b)] == ns[n := H.WinElection(b)][v := v'];
  }

  predicate LeaderAt(ns: seq<Node>, n: nat) {
    n < |ns| && ns[n].role == Leader && TwoSlots(ns[n])
  }

  /** A client's entry is appended, and a call for it is opened. */
  lemma Appends(strict: bool, c: Cluster, ns: seq<Node>, n: nat, command: string) returns (c': Cluster)
    requires Nodes(c, ns) && LeaderAt(ns, n)
    ensures Path(strict, c, [ClientAppend(n, command)], c') && Nodes(c', ns[n := H.AppendClient(ns[n], command)])
    ensures c'.procs[n].calls == c.procs[n].calls[|ns[n].log| := Call(ns[n].term, 0, 1, None)]
  {
    c' := DoClientAppend(c, n, command);
    One(strict, c, ClientAppend(n, command));
  }

  /** A heartbeat is sent to the peer in slot `i` and handled there. */
  lemma Beats(strict: bool, c: Cluster, ns: seq<Node>, n: nat, i: nat, a: AppendArgs, p': Node)
      returns (s: Step, c1: Cluster, m: Msg, c': Cluster)
    requires Nodes(c, ns) && LeaderAt(ns, n) && i < 2 && a == H.HeartbeatRequest(ns[n], i)
    requires p' == H.HandleAppend(ns[PeerId(n, i)], a).0 && p'.snapshot.None?
    requires strict ==> CarriesThrough(ns[PeerId(n, i)].log, a)
    ensures s == HeartbeatSend(n, i) && m == AppReq(n, PeerId(n, i), a)
    ensures Path(strict, c, [s], c1) && Nodes(c1, ns) && m in c1.msgs && Fine(strict, c1, Step.HandleAppend(m))
    ensures Path(strict, c, [s, Step.HandleAppend(m)], c')
    ensures Nodes(c', ns[PeerId(n, i) := p']) && c'.procs[n] == c.procs[n]
  {
    s, m := HeartbeatSend(n, i), AppReq(n, PeerId(n, i), a);
    c1 := SendsBeat(strict, c, ns, n, i, a);
    c' := Takes(strict, c1, ns, n, PeerId(n, i), a, p', H.HandleAppend(ns[PeerId(n, i)], a).1);
    One(strict, c, s);
    Two(strict, c, s, c1, Step.HandleAppend(m), c');
  }

  lemma SendsBeat(strict: bool, c: Cluster, ns: seq<Node>, n: nat, i: nat, a: AppendArgs) returns (c': Cluster)
    requires Nodes(c, ns) && LeaderAt(ns, n) && i < 2 && a == H.HeartbeatRequest(ns[n], i)
    ensures Fine(strict, c, HeartbeatSend(n, i)) && c' == Do(c, HeartbeatSend(n, i))
    ensures Nodes(c', ns) && c'.procs[n] == c.procs[n] && AppReq(n, PeerId(n, i), a) in c'.msgs
  {
    c' := DoBeat(c, n, i);
  }

  lemma Refuses(strict: bool, c: Cluster, ns: seq<Node>, n: nat, i: nat) returns (c': Cluster)
    requires Nodes(c, ns) && LeaderAt(ns, n) && i < 2
    ensures Path(strict, c, [HeartbeatRefused(n, i)], c') && Nodes(c', ns[n := H.BackOff(ns[n], i)])
  {
    c' := DoBeatRefused(c, n, i);
    One(strict, c, HeartbeatRefused(n, i));
  }

  predicate InCallAt(c: Cluster, n: nat, index: int, i: nat, successes: nat) {
    && n < |c.procs| && index in c.procs[n].calls
    && c.procs[n].calls[index] == Call(c.procs[n].node.term, i, successes, None)
  }

  predicate Waits(c: Cluster, n: nat, index: int, i: nat, successes: nat, a: AppendArgs) {
    && n < |c.procs| && index in c.procs[n].calls
    && c.procs[n].calls[index] == Call(c.procs[n].node.term, i, successes, Some(a))
  }

  lemma Sends(strict: bool, c: Cluster, ns: seq<Node>, n: nat, index: int, i: nat, successes: nat, a: AppendArgs)
      returns (c': Cluster)
    requires Nodes(c, ns) && LeaderAt(ns, n) && InCallAt(c, n, index, i, successes) && i < 2
    requires a == H.ClientRequest(ns[n], i, index)
    ensures Fine(strict, c, CallSend(n, index)) && c' == Do(c, CallSend(n, index))
    ensures Nodes(c', ns) && Waits(c', n, index, i, successes, a) && AppReq(n, PeerId(n, i), a) in c'.msgs
  {
    c' := DoCallSend(c, n, index);
  }

  lemma Takes(strict: bool, c: Cluster, ns: seq<Node>, n: nat, p: nat, a: AppendArgs, p': Node, r: AppendReply)
      returns (c': Cluster)
    requires Nodes(c, ns) && n < 3 && p < 3 && p != n && AppReq(n, p, a) in c.msgs
    requires H.HandleAppend(ns[p], a) == (p', r) && p'.snapshot.None?
    requires strict && r.success ==> CarriesThrough(ns[p].log, a)
    ensures var s := Step.HandleAppend(AppReq(n, p, a)); Fine(strict, c, s) && c' == Do(c, s)
    ensures Nodes(c', ns[p := p']) && c'.procs[n] == c.procs[n] && AppRep(p, n, a, r) in c'.msgs
  {
    c' := DoHandleAppend(c, AppReq(n, p, a));
  }

  lemma Replied(strict: bool, c: Cluster, ns: seq<Node>, n: nat, index: int, i: nat, successes: nat, a: AppendArgs,
      m: Msg) returns (c': Cluster)
    requires Nodes(c, ns) && LeaderAt(ns, n) && Waits(c, n, index, i, successes, a) && i < 2 && m in c.msgs
    requires m == AppRep(PeerId(n, i), n, a, AppendReply(ns[n].term, true))
    ensures Fine(strict, c, CallReply(n, index, m)) && c' == Do(c, CallReply(n, index, m))
    ensures Nodes(c', ns[n := H.ClientReply(ns[n], i, index, m.appendReply)])
    ensures InCallAt(c', n, index, i + 1, successes + 1)
  {
    c' := DoCallReply(c, n, index, m);
  }

  /** The call tries the peer in slot `i`, which takes the request. */
  lemma Answers(strict: bool, c: Cluster, ns: seq<Node>, n: nat, index: int, i: nat, successes: nat,
      a: AppendArgs, p': Node) returns (ss: seq<Step>, c': Cluster)
    requires Nodes(c, ns) && LeaderAt(ns, n) && InCallAt(c, n, index, i, successes) && i < 2
    requires a == H.ClientRequest(ns[n], i, index)
    requires H.HandleAppend(ns[PeerId(n, i)], a) == (p', AppendReply(ns[n].term, true)) && p'.snapshot.None?
    requires strict ==> CarriesThrough(ns[PeerId(n, i)].log, a)
    ensures Path(strict, c, ss, c') && InCallAt(c', n, index, i + 1, successes + 1)
    ensures Nodes(c', ns[PeerId(n, i) := p'][n := H.ClientReply(ns[n], i, index, AppendReply(ns[n].term, true))])
  {
    var p, r := PeerId(n, i), AppendReply(ns[n].term, true);
    var q, m := AppReq(n, p, a), AppRep(p, n, a, r);
    var c1 := Sends(strict, c, ns, n, index, i, successes, a);
    var c2 := Takes(strict, c1, ns, n, p, a, p', r);
    c' := Replied(strict, c2, ns[p := p'], n, index, i, successes, a, m);
    ss := [CallSend(n, index), Step.HandleAppend(q), CallReply(n, index, m)];
    Three(strict, c, CallSend(n, index), c1, Step.HandleAppend(q), c2, CallReply(n, index, m), c');
  }

  /** The call tries the peer in slot `i` and gets no answer. */
  lemma Unanswered(strict: bool, c: Cluster, ns: seq<Node>, n: nat, index: int, i: nat, successes: nat)
      returns (c': Cluster)
    requires Nodes(c, ns) && LeaderAt(ns, n) && InCallAt(c, n, index, i, successes) && i < 2
    ensures Path(strict, c, [CallSend(n, index), CallMiss(n, index)], c')
    ensures Nodes(c', ns) && InCallAt(c', n, index, i + 1, successes)
  {
    var c1 := DoCallSend(c, n, index);
    c' := DoCallMiss(c1, n, index);
    Two(strict, c, CallSend(n, index), c1, CallMiss(n, index), c');
  }

  lemma Commits(strict: bool, c: Cluster, ns: seq<Node>, n: nat, index: int, n': Node) returns (c': Cluster)
    requires Nodes(c, ns) && LeaderAt(ns, n) && InCallAt(c, n, index, 2, 2)
    requires 0 <= index < |ns[n].log| && ns[n].log[index].term == ns[n].term
    requires n' == H.CommitClient(ns[n], index) && n'.snapshot.None?
    ensures Fine(strict, c, CallCommit(n, index))
    ensures Path(strict, c, [CallCommit(n, index)], c') && Nodes(c', ns[n := n'])
  {
    c' := DoCommit(c, n, index);
    One(strict, c, CallCommit(n, index));
  }
}
