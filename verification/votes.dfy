/** How a node's vote can change within one term, given that AppendEntries of the same term
    resets a candidate's vote. */
module Votes {
  import opened RaftTypes
  import opened Protocol
  import opened History
  import opened ElectionSafety
  import H = Handlers

  predicate Reacts(n: Node, n': Node) {
    Settled(n, n') || Demoted(n, n')
  }

  /** What one step can do to a node's term, vote and role. */
  predicate Moves(n: Node, n': Node) {
    || Reacts(n, n')
    || (0 <= n'.votedFor != n.id && Granted(n, n', n'.votedFor))
    || (n'.id == n.id && n'.term == n.term + 1 && n'.role == Candidate && n'.votedFor == n.id)
    || (n'.id == n.id && n'.term == n.term && n'.votedFor == n.votedFor
        && n.role == Candidate && n'.role == Leader)
  }

  /** The node a step changes. */
  function Actor(s: Step): nat {
    match s
    case HandleVote(m) => m.dst
    case HandleAppend(m) => m.dst
    case HandleChunk(m, _) => m.dst
    case _ => s.n
  }

  lemma OnlyActor(c: Cluster, s: Step)
    requires Enabled(c, s)
    ensures Actor(s) < |c.procs| == |Do(c, s).procs|
    ensures forall v | 0 <= v < |c.procs| && v != Actor(s) :: Do(c, s).procs[v] == c.procs[v]
  {}

  predicate Voting(s: Step) {
    s.BeginElection? || s.AskVote? || s.HandleVote? || s.TakeVote? || s.MissVote? || s.WinElection?
  }

  lemma VotingMoves(c: Cluster, h: Hist, s: Step)
    requires ElectionInv(c, h) && Enabled(c, s) && Voting(s)
    ensures Moves(c.procs[Actor(s)].node, Do(c, s).procs[Actor(s)].node)
  {
    assert NodeOk(c.procs[Actor(s)].node, Actor(s), |c.procs|);
    if s.HandleVote? {
      assert Addressed(c, s.m);
    }
  }

  lemma HandlingReacts(c: Cluster, h: Hist, s: Step)
    requires ElectionInv(c, h) && Enabled(c, s) && (s.HandleAppend? || s.CallCommit? || s.TriggerSnapshot?)
    ensures Reacts(c.procs[Actor(s)].node, Do(c, s).procs[Actor(s)].node)
  {
    var n := c.procs[Actor(s)].node;
    assert NodeOk(n, Actor(s), |c.procs|);
    match s
    case HandleAppend(m) => AppendSettlesOrDemotes(n, m.append);
    case CallCommit(a, index) => CommitSettles(n, index);
    case _ => CompactSettles(n);
  }

  predicate Answering(s: Step) {
    s.CallReply? || s.HeartbeatReply? || s.ChunkReply?
  }

  lemma ChunkReacts(c: Cluster, h: Hist, m: Msg, unread: Snapshot)
    requires ElectionInv(c, h) && CanHandle(c, m) && m.SnapReq?
    ensures Reacts(c.procs[m.dst].node, DoHandleChunk(c, m, unread).procs[m.dst].node)
  {
    assert NodeOk(c.procs[m.dst].node, m.dst, |c.procs|);
  }

  lemma ReplyReacts(n: Node, peer: nat, next: int, count: nat, newIndex: int, r: AppendReply)
    requires Synced(n) && peer < |n.nextIndex| && peer < |n.matchIndex|
    ensures Reacts(n, H.HeartbeatReply(n, peer, next, count, r)) && Reacts(n, H.ClientReply(n, peer, newIndex, r))
  {}

  lemma CallReplyReacts(c: Cluster, h: Hist, n: nat, index: int, m: Msg)
    requires ElectionInv(c, h) && CanCall(c, n, index) && CanTakeReply(c, n, index, m)
    ensures Reacts(c.procs[n].node, DoCallReply(c, n, index, m).procs[n].node)
  {
    var p := c.procs[n];
    assert NodeOk(p.node, n, |c.procs|);
    ReplyReacts(p.node, p.calls[index].peer, 0, 0, index, m.appendReply);
  }

  lemma BeatReplyReacts(c: Cluster, h: Hist, n: nat, m: Msg)
    requires ElectionInv(c, h) && IsLeader(c, n) && CanTakeBeat(c, n, m)
    ensures Reacts(c.procs[n].node, DoTakeBeat(c, n, m).procs[n].node)
  {
    assert NodeOk(c.procs[n].node, n, |c.procs|);
    ReplyReacts(c.procs[n].node, PeerSlot(n, m.src), m.append.prevLogIndex + 1, |m.append.entries|, 0, m.appendReply);
  }

  lemma AnsweringReacts(c: Cluster, h: Hist, s: Step)
    requires ElectionInv(c, h) && Enabled(c, s) && Answering(s)
    ensures Reacts(c.procs[Actor(s)].node, Do(c, s).procs[Actor(s)].node)
  {
    if s.CallReply? {
      CallReplyReacts(c, h, s.n, s.index, s.m);
    } else if s.HeartbeatReply? {
      BeatReplyReacts(c, h, s.n, s.m);
    }
  }

  lemma RefusedReacts(c: Cluster, h: Hist, s: Step)
    requires ElectionInv(c, h) && Enabled(c, s) && (s.CallRefused? || s.HeartbeatRefused?)
    ensures Reacts(c.procs[s.n].node, Do(c, s).procs[s.n].node)
  {
    var p := c.procs[s.n];
    assert NodeOk(p.node, s.n, |c.procs|);
    if s.CallRefused? {
      ReplyReacts(p.node, p.calls[s.index].peer, 0, 0, s.index, H.REFUSED);
    } else {
      ReplyReacts(p.node, s.slot, p.node.nextIndex[s.slot], 0, 0, H.REFUSED);
    }
  }

  lemma SendingReacts(c: Cluster, h: Hist, s: Step)
    requires ElectionInv(c, h) && Enabled(c, s)
    requires s.ClientAppend? || s.CallSend? || s.CallMiss? || s.HeartbeatSend? || s.SendChunk? || s.Crash?
    ensures Reacts(c.procs[Actor(s)].node, Do(c, s).procs[Actor(s)].node)
  {
    assert NodeOk(c.procs[Actor(s)].node, Actor(s), |c.procs|);
  }

  /** Outside elections a step settles or demotes its node. */
  lemma StepReacts(c: Cluster, h: Hist, s: Step)
    requires ElectionInv(c, h) && Enabled(c, s) && !Voting(s)
    ensures Actor(s) < |c.procs| == |Do(c, s).procs|
    ensures Reacts(c.procs[Actor(s)].node, Do(c, s).procs[Actor(s)].node)
  {
    OnlyActor(c, s);
    if s.HandleAppend? || s.CallCommit? || s.TriggerSnapshot? {
      HandlingReacts(c, h, s);
    } else if s.HandleChunk? {
      ChunkReacts(c, h, s.m, s.unread);
    } else if Answering(s) {
      AnsweringReacts(c, h, s);
    } else if s.CallRefused? || s.HeartbeatRefused? {
      RefusedReacts(c, h, s);
    } else {
      SendingReacts(c, h, s);
    }
  }

  lemma StepMoves(c: Cluster, h: Hist, s: Step, v: nat)
    requires ElectionInv(c, h) && Enabled(c, s) && v < |c.procs|
    ensures |Do(c, s).procs| == |c.procs| && Moves(c.procs[v].node, Do(c, s).procs[v].node)
  {
    OnlyActor(c, s);
    if v == Actor(s) {
      if Voting(s) {
        VotingMoves(c, h, s);
      } else {
        StepReacts(c, h, s);
      }
    }
  }

  /** Where a node is with its vote in `term`: the term is still to come; it is a candidate;
      it voted for itself and is no longer a candidate; its vote is unset; it voted for
      another; the term is past. */
  datatype Phase = Before | Standing | Kept | Unset | Other | Past

  function PhaseOf(n: Node, term: nat): Phase {
    if n.term < term then Before
    else if n.term > term then Past
    else if n.role == Candidate then Standing
    else if n.votedFor == n.id then Kept
    else if n.votedFor == -1 then Unset
    else Other
  }

  predicate Reaches(p: Phase, q: Phase) {
    p == q || p == Before || q == Past || (p == Standing && q != Before) || (p == Unset && q == Other)
  }

  /** A single step does not take a candidate to a vote for another. */
  predicate StepsTo(p: Phase, q: Phase) {
    Reaches(p, q) && !(p == Standing && q == Other)
  }

  lemma PhaseStep(n: Node, n': Node, term: nat)
    requires Moves(n, n')
    requires n.role != Follower ==> n.votedFor == n.id
    ensures StepsTo(PhaseOf(n, term), PhaseOf(n', term))
    ensures PhaseOf(n, term) == Other == PhaseOf(n', term) ==> n'.votedFor == n.votedFor
  {}

  lemma RunMoves(r: seq<Cluster>, steps: seq<Step>, k: nat, v: nat)
    requires IsRun(r, steps) && k < |steps| && v < |r[0].procs|
    ensures |r[k].procs| == |r[k + 1].procs| == |r[0].procs|
    ensures NodeOk(r[k].procs[v].node, v, |r[0].procs|)
    ensures Moves(r[k].procs[v].node, r[k + 1].procs[v].node)
  {
    SameSize(r, steps, k);
    RunKeeps(r, steps, k);
    assert RunStep(r, steps, k);
    StepMoves(r[k], HistoryOf(r, steps, k), steps[k], v);
  }

  lemma {:induction false} SameSize(r: seq<Cluster>, steps: seq<Step>, k: nat)
    requires IsRun(r, steps) && k <= |steps|
    ensures |r[k].procs| == |r[0].procs| > 0
  {
    if k != 0 {
      SameSize(r, steps, k - 1);
      assert RunStep(r, steps, k - 1);
    }
  }

  lemma {:induction false} PhaseRun(r: seq<Cluster>, steps: seq<Step>, i: nat, j: nat, v: nat, term: nat)
    requires IsRun(r, steps) && i <= j <= |steps| && v < |r[0].procs|
    ensures |r[i].procs| == |r[j].procs| == |r[0].procs|
    ensures var n, n' := r[i].procs[v].node, r[j].procs[v].node;
      && Reaches(PhaseOf(n, term), PhaseOf(n', term))
      && (PhaseOf(n, term) == Other == PhaseOf(n', term) ==> n'.votedFor == n.votedFor)
    decreases j
  {
    SameSize(r, steps, i);
    if i < j {
      PhaseRun(r, steps, i, j - 1, v, term);
      RunMoves(r, steps, j - 1, v);
      PhaseStep(r[j - 1].procs[v].node, r[j].procs[v].node, term);
    }
  }

  /** Between standing and a vote for another lies a moment with no vote at all. */
  lemma {:induction false} AbandonedBetween(r: seq<Cluster>, steps: seq<Step>, i: nat, j: nat, v: nat, term: nat)
      returns (k: nat)
    requires IsRun(r, steps) && i < j <= |steps| && v < |r[0].procs|
    requires |r[i].procs| == |r[j].procs| == |r[0].procs|
    requires PhaseOf(r[i].procs[v].node, term) == Standing && PhaseOf(r[j].procs[v].node, term) == Other
    ensures i < k < j && |r[k].procs| == |r[0].procs| && PhaseOf(r[k].procs[v].node, term) == Unset
    decreases j - i
  {
    RunMoves(r, steps, i, v);
    PhaseStep(r[i].procs[v].node, r[i + 1].procs[v].node, term);
    PhaseRun(r, steps, i + 1, j, v, term);
    if PhaseOf(r[i + 1].procs[v].node, term) == Standing {
      k := AbandonedBetween(r, steps, i + 1, j, v, term);
    } else {
      k := i + 1;
    }
  }

  predicate VotedFor(c: Cluster, v: nat, term: nat, candidate: nat) {
    v < |c.procs| && c.procs[v].node.term == term && c.procs[v].node.votedFor == candidate
  }

  /** Node `v` is in `term` and has no vote: a candidacy it had is given up. */
  predicate Abandoned(c: Cluster, v: nat, term: nat) {
    v < |c.procs| && c.procs[v].node.term == term && c.procs[v].node.votedFor == -1
    && c.procs[v].node.role == Follower
  }

  lemma PhaseOfVote(r: seq<Cluster>, steps: seq<Step>, k: nat, v: nat, term: nat)
    requires IsRun(r, steps) && k <= |steps| && v < |r[k].procs|
    ensures var n := r[k].procs[v].node;
      && n.id == v
      && (n.role != Follower ==> n.votedFor == v)
      && (Leads(r[k], v, term) ==> PhaseOf(n, term) == Kept)
  {
    RunKeeps(r, steps, k);
    assert NodeOk(r[k].procs[v].node, v, |r[k].procs|);
  }

  /** Two votes in one term: if a node ever votes for two candidates in a term, the first vote
      was for itself, it gave that candidacy up before the second, and it leads that term at no
      moment of the run. The second vote is the last: it stays while the term does. */
  lemma SecondVote(r: seq<Cluster>, steps: seq<Step>, i: nat, j: nat, v: nat, term: nat, c1: nat, c2: nat)
      returns (k: nat)
    requires IsRun(r, steps) && i < j <= |steps|
    requires VotedFor(r[i], v, term, c1) && VotedFor(r[j], v, term, c2) && c1 != c2
    ensures c1 == v
    ensures i < k < j && Abandoned(r[k], v, term)
    ensures forall m | 0 <= m <= |steps| :: !Leads(r[m], v, term)
    ensures forall m, c3 | j <= m <= |steps| && VotedFor(r[m], v, term, c3) :: c3 == c2
  {
    SameSize(r, steps, i);
    SameSize(r, steps, j);
    PhaseRun(r, steps, i, j, v, term);
    PhaseOfVote(r, steps, i, v, term);
    PhaseOfVote(r, steps, j, v, term);
    k := AbandonedBetween(r, steps, i, j, v, term);
    PhaseOfVote(r, steps, k, v, term);
    forall m | 0 <= m <= |steps| ensures !Leads(r[m], v, term) {
      SameSize(r, steps, m);
      PhaseOfVote(r, steps, m, v, term);
      if m <= i {
        PhaseRun(r, steps, m, i, v, term);
      } else if m <= j {
        PhaseRun(r, steps, m, j, v, term);
      } else {
        PhaseRun(r, steps, j, m, v, term);
      }
    }
    forall m, c3 | j <= m <= |steps| && VotedFor(r[m], v, term, c3) ensures c3 == c2 {
      PhaseRun(r, steps, j, m, v, term);
      PhaseOfVote(r, steps, m, v, term);
    }
  }
}
