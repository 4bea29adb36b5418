/** The votes behind every leader: what each voter's log was when it voted, and that the
    winner's log was at least as up to date. */
module Ballots {
  import opened RaftTypes
  import opened Protocol
  import opened History
  import opened ElectionSafety
  import opened LogMatching
  import opened LogSteps
  import opened Votes
  import H = Handlers

  /** A candidate's request tells the last entry of the log it still has. */
  predicate Asked(c: Cluster, m: Msg) {
    m.VoteReq? && m.src < |c.procs| ==>
      var n := c.procs[m.src].node;
      && m.vote.term <= n.term
      && (n.role == Candidate && n.term == m.vote.term ==>
            m.vote.lastLogIndex == |n.log| - 1 && m.vote.lastLogTerm == H.LastLogTerm(n.log))
  }

  predicate VoteOk(c: Cluster, h: Hist, v: nat, term: nat)
    requires (v, term) in h.votes
  {
    var rec := h.votes[(v, term)];
    && v < |c.procs| && c.procs[v].node.term >= term
    && Good(h, rec.log) && rec.vote.term == term
    && H.UpToDate(rec.vote.lastLogIndex, rec.vote.lastLogTerm, rec.log)
    && Grant(v, rec.vote.candidateId, term) in c.msgs
    && VoteReq(rec.vote.candidateId, v, rec.vote) in c.msgs
  }

  predicate GrantRecorded(h: Hist, m: Msg) {
    IsGrant(m) && m.asked !in h.terms ==> (m.src, m.asked) in h.votes
  }

  /** The log the leader was elected with. */
  function ElectedLog(r: TermRec): Log {
    if r.start <= |r.log| then r.log[..r.start] else r.log
  }

  predicate VoterOk(h: Hist, term: nat, v: nat)
    requires term in h.terms
  {
    var log := ElectedLog(h.terms[term]);
    v != h.terms[term].leader ==>
      (v, term) in h.votes && H.UpToDate(|log| - 1, H.LastLogTerm(log), h.votes[(v, term)].log)
  }

  ghost predicate ElectedOk(h: Hist, term: nat)
    requires term in h.terms
  {
    forall v | v in h.terms[term].voters :: VoterOk(h, term, v)
  }

  predicate RequestsOk(c: Cluster) {
    forall m | m in c.msgs :: Asked(c, m)
  }

  predicate GrantsRecorded(c: Cluster, h: Hist) {
    forall m | m in c.msgs :: GrantRecorded(h, m)
  }

  ghost predicate VotesOk(c: Cluster, h: Hist) {
    forall v: nat, t: nat | (v, t) in h.votes :: VoteOk(c, h, v, t)
  }

  ghost predicate AllElected(h: Hist) {
    forall t | t in h.terms :: ElectedOk(h, t)
  }

  ghost predicate BallotInv(c: Cluster, h: Hist) {
    RequestsOk(c) && GrantsRecorded(c, h) && VotesOk(c, h) && AllElected(h)
  }

  predicate VotesGrow(h: Hist, h': Hist) {
    forall k | k in h.votes :: k in h'.votes && h'.votes[k] == h.votes[k]
  }

  lemma ElectedLogKept(h: Hist, h': Hist, term: nat)
    requires Grows(h, h') && term in h.terms && h.terms[term].start <= |h.terms[term].log|
    ensures term in h'.terms && ElectedLog(h'.terms[term]) == ElectedLog(h.terms[term])
  {}

  lemma ElectedKept(h: Hist, h': Hist, term: nat)
    requires Grows(h, h') && VotesGrow(h, h') && term in h.terms && ElectedOk(h, term)
    requires h.terms[term].start <= |h.terms[term].log|
    requires term in h'.terms && h'.terms[term].voters == h.terms[term].voters
    ensures ElectedOk(h', term)
  {
    ElectedLogKept(h, h', term);
    forall v | v in h'.terms[term].voters ensures VoterOk(h', term, v) {
      assert VoterOk(h, term, v);
    }
  }

  lemma VoteKept(c: Cluster, h: Hist, c': Cluster, h': Hist, a: nat, v: nat, term: nat)
    requires (v, term) in h.votes && VoteOk(c, h, v, term) && Grows(h, h') && VotesGrow(h, h')
    requires Frame(c, c', a) && c'.procs[a].node.term >= c.procs[a].node.term
    ensures VoteOk(c', h', v, term)
  {
    GoodGrows(h, h', h.votes[(v, term)].log);
  }

  lemma RequestsKept(c: Cluster, c': Cluster, a: nat)
    requires RequestsOk(c) && Frame(c, c', a) && Stands(c.procs[a].node, c'.procs[a].node)
    requires forall m | m in c'.msgs && m !in c.msgs :: Asked(c', m)
    ensures RequestsOk(c')
  {
    forall m | m in c'.msgs ensures Asked(c', m) {
      assert m in c.msgs ==> Asked(c, m);
    }
  }

  lemma OldVotesKept(c: Cluster, h: Hist, c': Cluster, h': Hist, a: nat)
    requires VotesOk(c, h) && Frame(c, c', a) && Grows(h, h') && h'.votes == h.votes
    requires c'.procs[a].node.term >= c.procs[a].node.term
    ensures VotesOk(c', h')
  {
    forall v: nat, t: nat | (v, t) in h'.votes ensures VoteOk(c', h', v, t) {
      assert VoteOk(c, h, v, t);
      VoteKept(c, h, c', h', a, v, t);
    }
  }

  lemma OldElectedKept(c: Cluster, h: Hist, h': Hist, t: nat)
    requires LogInv(c, h) && AllElected(h) && Grows(h, h') && VotesGrow(h, h') && t in h.terms
    requires t in h'.terms && h'.terms[t].voters == h.terms[t].voters
    ensures ElectedOk(h', t)
  {
    assert RecOk(h, t) && ElectedOk(h, t);
    ElectedKept(h, h', t);
  }

  lemma AllElectedKept(c: Cluster, h: Hist, h': Hist)
    requires LogInv(c, h) && AllElected(h) && Grows(h, h') && VotesGrow(h, h') && SameLeaders(h, h')
    ensures AllElected(h')
  {
    forall t | t in h'.terms ensures ElectedOk(h', t) {
      OldElectedKept(c, h, h', t);
    }
  }

  predicate NoVoteMsgs(c: Cluster, c': Cluster) {
    forall m | m in c'.msgs && m !in c.msgs :: !m.VoteReq? && !m.VoteRep?
  }

  /** A step that casts no vote and elects no leader. */
  lemma NoBallot(c: Cluster, h: Hist, c': Cluster, h': Hist, a: nat)
    requires BallotInv(c, h) && LogInv(c, h) && Frame(c, c', a) && Grows(h, h') && SameLeaders(h, h')
    requires h'.votes == h.votes && Stands(c.procs[a].node, c'.procs[a].node)
    requires NoVoteMsgs(c, c')
    ensures BallotInv(c', h')
  {
    RequestsKept(c, c', a);
    OldVotesKept(c, h, c', h', a);
    AllElectedKept(c, h, h');
    forall m | m in c'.msgs ensures GrantRecorded(h', m) {
      assert m in c.msgs ==> GrantRecorded(h, m);
    }
  }

  lemma AskKeeps(c: Cluster, h: Hist, n: nat)
    requires BallotInv(c, h) && LogInv(c, h) && CanAsk(c, n) && c.procs[n].node.snapshot.None?
    ensures BallotInv(DoAsk(c, n), h)
  {
    var c' := DoAsk(c, n);
    var m := VoteReq(n, PeerId(n, c.procs[n].election.value.peer), H.VoteRequest(c.procs[n].node));
    assert c'.msgs == c.msgs + {m};
    assert Asked(c', m);
    RequestsKept(c, c', n);
    OldVotesKept(c, h, c', h, n);
    assert forall x | x in c.msgs :: GrantRecorded(h, x);
  }

  // ---------- casting a vote ----------

  lemma HandleVoteEffect(n: Node, a: VoteArgs)
    ensures var (n', r) := H.HandleVote(n, a);
      && n'.log == n.log && Stands(n, n')
      && (r.granted ==> r.term == a.term == n'.term && H.UpToDate(a.lastLogIndex, a.lastLogTerm, n.log))
  {}

  lemma CastVote(c: Cluster, h: Hist, c': Cluster, h': Hist, m: Msg, rec: VoteRec)
    requires LogInv(c, h) && CanHandle(c, m) && m.VoteReq? && Addressed(c, m) && Frame(c, c', m.dst)
    requires c'.procs[m.dst].node.term == m.vote.term
    requires rec == VoteRec(m.vote, c.procs[m.dst].node.log)
    requires H.UpToDate(m.vote.lastLogIndex, m.vote.lastLogTerm, rec.log)
    requires h' == h.(votes := h.votes[(m.dst, m.vote.term) := rec])
    requires Grant(m.dst, m.src, m.vote.term) in c'.msgs
    ensures VoteOk(c', h', m.dst, m.vote.term)
  {
    assert ProcOk(h, c.procs[m.dst]);
    GoodGrows(h, h', rec.log);
  }

  /** A vote is recorded the first time it is cast, unless its term has a leader already. */
  function WithVote(h: Hist, id: nat, rec: VoteRec): Hist {
    if (id, rec.vote.term) !in h.votes && rec.vote.term !in h.terms then
      h.(votes := h.votes[(id, rec.vote.term) := rec])
    else h
  }

  lemma VotesAfter(c: Cluster, h: Hist, c': Cluster, h': Hist, m: Msg, rec: VoteRec)
    requires LogInv(c, h) && VotesOk(c, h) && CanHandle(c, m) && m.VoteReq? && Addressed(c, m) && Frame(c, c', m.dst)
    requires c'.procs[m.dst].node.term == m.vote.term >= c.procs[m.dst].node.term
    requires rec == VoteRec(m.vote, c.procs[m.dst].node.log)
    requires H.UpToDate(m.vote.lastLogIndex, m.vote.lastLogTerm, rec.log)
    requires h' == WithVote(h, m.dst, rec)
    requires Grant(m.dst, m.src, m.vote.term) in c'.msgs
    ensures VotesOk(c', h')
  {
    forall v: nat, t: nat | (v, t) in h'.votes ensures VoteOk(c', h', v, t) {
      if (v, t) in h.votes {
        assert VoteOk(c, h, v, t);
        VoteKept(c, h, c', h', m.dst, v, t);
      } else {
        CastVote(c, h, c', h', m, rec);
      }
    }
  }

  lemma GrantsAfter(c: Cluster, h: Hist, c': Cluster, h': Hist, g: Msg)
    requires GrantsRecorded(c, h) && c'.msgs == c.msgs + {g} && GrantRecorded(h', g)
    requires VotesGrow(h, h') && h'.terms == h.terms
    ensures GrantsRecorded(c', h')
  {
    forall m | m in c'.msgs ensures GrantRecorded(h', m) {
      assert m in c.msgs ==> GrantRecorded(h, m);
    }
  }

  lemma GrantBallots(c: Cluster, h: Hist, c': Cluster, h': Hist, m: Msg, rec: VoteRec)
    requires BallotInv(c, h) && LogInv(c, h) && CanHandle(c, m) && m.VoteReq? && Addressed(c, m) && Frame(c, c', m.dst)
    requires c'.procs[m.dst].node.term == m.vote.term && Stands(c.procs[m.dst].node, c'.procs[m.dst].node)
    requires rec == VoteRec(m.vote, c.procs[m.dst].node.log)
    requires H.UpToDate(m.vote.lastLogIndex, m.vote.lastLogTerm, rec.log)
    requires h' == WithVote(h, m.dst, rec)
    requires c'.msgs == c.msgs + {Grant(m.dst, m.src, m.vote.term)}
    ensures BallotInv(c', h')
  {
    VotesAfter(c, h, c', h', m, rec);
    RequestsKept(c, c', m.dst);
    AllElectedKept(c, h, h');
    GrantsAfter(c, h, c', h', Grant(m.dst, m.src, m.vote.term));
  }

  lemma DenyBallots(c: Cluster, h: Hist, c': Cluster, a: nat, answer: Msg)
    requires BallotInv(c, h) && LogInv(c, h) && Frame(c, c', a) && Stands(c.procs[a].node, c'.procs[a].node)
    requires c'.msgs == c.msgs + {answer} && answer.VoteRep? && !IsGrant(answer)
    ensures BallotInv(c', h)
  {
    RequestsKept(c, c', a);
    OldVotesKept(c, h, c', h, a);
    GrantsAfter(c, h, c', h, answer);
  }

  lemma HandleVoteBallots(c: Cluster, h: Hist, m: Msg)
    requires ElectionInv(c, h) && BallotInv(c, h) && LogInv(c, h) && CanHandle(c, m) && m.VoteReq?
    ensures BallotInv(DoHandleVote(c, m), RecordVote(h, c.procs[m.dst].node, m.dst, m.vote))
  {
    var n := c.procs[m.dst].node;
    HandleVoteEffect(n, m.vote);
    assert Addressed(c, m);
    var r := H.HandleVote(n, m.vote).1;
    if r.granted {
      assert VoteRep(m.dst, m.src, m.vote.term, r) == Grant(m.dst, m.src, m.vote.term);
      GrantBallots(c, h, DoHandleVote(c, m), RecordVote(h, n, m.dst, m.vote), m, VoteRec(m.vote, n.log));
    } else {
      DenyBallots(c, h, DoHandleVote(c, m), m.dst, VoteRep(m.dst, m.src, m.vote.term, r));
    }
  }

  // ---------- winning ----------

  lemma WinnersVoter(c: Cluster, h: Hist, n: nat, v: nat)
    requires ElectionInv(c, h) && BallotInv(c, h) && CanWin(c, n) && v != n
    requires c.procs[n].node.term !in h.terms && Grant(v, n, c.procs[n].node.term) in c.msgs
    ensures (v, c.procs[n].node.term) in h.votes
    ensures var log := c.procs[n].node.log;
      H.UpToDate(|log| - 1, H.LastLogTerm(log), h.votes[(v, c.procs[n].node.term)].log)
  {
    var term := c.procs[n].node.term;
    var g := Grant(v, n, term);
    assert IsGrant(g) && GrantRecorded(h, g);
    assert VoteOk(c, h, v, term);
    var rec := h.votes[(v, term)];
    var g2 := Grant(v, rec.vote.candidateId, term);
    assert IsGrant(g2) && g2.dst == g.dst;
    assert Asked(c, VoteReq(n, v, rec.vote));
  }

  lemma WinBallots(c: Cluster, h: Hist, n: nat)
    requires ElectionInv(c, h) && BallotInv(c, h) && LogInv(c, h) && CanWin(c, n)
    ensures BallotInv(DoWin(c, n), RecordWin(h, c, n))
  {
    var c', h', term := DoWin(c, n), RecordWin(h, c, n), c.procs[n].node.term;
    WinnerIsFirst(c, h, n);
    assert c'.msgs == c.msgs;
    RequestsKept(c, c', n);
    OldVotesKept(c, h, c', h', n);
    forall m | m in c'.msgs ensures GrantRecorded(h', m) {
      assert GrantRecorded(h, m);
    }
    WinnersVotersOk(c, h, n, h');
    forall t | t in h'.terms ensures ElectedOk(h', t) {
      if t != term {
        OldElectedKept(c, h, h', t);
      }
    }
  }

  lemma WinnersVotersOk(c: Cluster, h: Hist, n: nat, h': Hist)
    requires ElectionInv(c, h) && BallotInv(c, h) && CanWin(c, n) && c.procs[n].node.term !in h.terms
    requires h' == RecordWin(h, c, n)
    ensures ElectedOk(h', c.procs[n].node.term)
  {
    var term := c.procs[n].node.term;
    forall v | v in h'.terms[term].voters ensures VoterOk(h', term, v) {
      if v != n {
        WinnersVoter(c, h, n, v);
      }
    }
  }

  // ---------- runs ----------

  lemma StepKeepsBallots(c: Cluster, h: Hist, s: Step)
    requires ElectionInv(c, h) && LogInv(c, h) && BallotInv(c, h) && NoSnapshotMsgs(c)
    requires Enabled(c, s) && !SnapshotStep(s) && NoSnapshots(c) && NoSnapshots(Do(c, s))
    requires Grows(h, Recorded(h, c, s))
    ensures BallotInv(Do(c, s), Recorded(h, c, s))
  {
    if s.WinElection? {
      WinBallots(c, h, s.n);
    } else if s.HandleVote? {
      HandleVoteBallots(c, h, s.m);
    } else if s.AskVote? {
      AskKeeps(c, h, s.n);
    } else {
      StepExtends(c, h, s);
      NewMsgs(c, s);
      OtherRecords(c, h, s);
      NoBallot(c, h, Do(c, s), Recorded(h, c, s), Actor(s));
    }
  }

  lemma OtherRecords(c: Cluster, h: Hist, s: Step)
    requires Enabled(c, s) && !s.WinElection? && !s.HandleVote?
    ensures SameLeaders(h, Recorded(h, c, s)) && Recorded(h, c, s).votes == h.votes
  {}

  lemma NoSnapshotStep(r: seq<Cluster>, steps: seq<Step>, k: nat)
    requires IsRun(r, steps) && CompactionFree(r) && k < |steps|
    ensures Enabled(r[k], steps[k]) && !SnapshotStep(steps[k]) && r[k + 1] == Do(r[k], steps[k])
    ensures NoSnapshots(r[k]) && NoSnapshots(r[k + 1])
  {
    assert RunStep(r, steps, k);
    RunKeepsLogs(r, steps, k);
    assert NoSnapshots(r[k]) && NoSnapshots(r[k + 1]);
    NoSnapshotSteps(r[k], steps[k]);
  }

  lemma {:induction false} RunKeepsBallots(r: seq<Cluster>, steps: seq<Step>, k: nat)
    requires IsRun(r, steps) && CompactionFree(r) && k <= |steps|
    ensures BallotInv(r[k], HistoryOf(r, steps, k))
  {
    if k != 0 {
      var j := k - 1;
      RunKeepsBallots(r, steps, j);
      NoSnapshotStep(r, steps, j);
      RunKeeps(r, steps, j);
      RunKeepsLogs(r, steps, j);
      StepGrows(r, steps, j);
      StepKeepsBallots(r[j], HistoryOf(r, steps, j), steps[j]);
    }
  }
}
