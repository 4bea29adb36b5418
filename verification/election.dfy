/** Election Safety: at most one node ever leads a term. */
module ElectionSafety {
  import opened RaftTypes
  import opened Protocol
  import opened History
  import opened Quorums
  import H = Handlers
  import SnapshotCodec

  predicate NodeOk(n: Node, id: nat, size: nat) {
    && n.id == id
    && |n.nextIndex| == |n.matchIndex| == size - 1
    && (n.role != Follower ==> n.votedFor == id && n.term >= 1)
    && n.disk.term == n.term && n.disk.votedFor == n.votedFor
  }

  predicate NodesOk(c: Cluster) {
    |c.procs| > 0 && forall i | 0 <= i < |c.procs| :: NodeOk(c.procs[i].node, i, |c.procs|)
  }

  predicate Addressed(c: Cluster, m: Msg) {
    && m.src < |c.procs| && m.dst < |c.procs| && m.src != m.dst
    && (m.VoteReq? ==> m.vote.candidateId == m.src)
  }

  predicate MsgsAddressed(c: Cluster) {
    forall m | m in c.msgs :: Addressed(c, m)
  }

  predicate IsGrant(m: Msg) {
    m.VoteRep? && m.voteReply.granted
  }

  /** A vote is kept for the rest of its term. Only a candidate's vote for itself is ever
      reset, so whoever voted for another node is a follower. */
  predicate GrantKept(n: Node, term: nat, candidate: nat) {
    n.term >= term && (n.term == term ==> n.votedFor == candidate && n.role == Follower)
  }

  predicate GrantOk(c: Cluster, m: Msg) {
    && m.src < |c.procs|
    && (IsGrant(m) ==> m.voteReply.term == m.asked && GrantKept(c.procs[m.src].node, m.asked, m.dst))
  }

  predicate GrantsOk(c: Cluster) {
    forall m | m in c.msgs :: GrantOk(c, m)
  }

  predicate GrantsUnique(c: Cluster) {
    forall m1, m2 | m1 in c.msgs && m2 in c.msgs && IsGrant(m1) && IsGrant(m2)
        && m1.src == m2.src && m1.asked == m2.asked :: m1.dst == m2.dst
  }

  /** A leader keeps the vote it gave itself: it is never reset, for it is no candidate. */
  predicate LeaderKept(n: Node, term: nat) {
    n.term >= term && (n.term == term ==> n.votedFor == n.id && n.role != Candidate)
  }

  ghost predicate TermOk(c: Cluster, term: nat, r: TermRec) {
    && r.leader < |c.procs| && LeaderKept(c.procs[r.leader].node, term)
    && r.leader in r.voters && r.voters <= Ids(|c.procs|) && 2 * |r.voters| > |c.procs|
    && (forall v | v in r.voters && v != r.leader :: Grant(v, r.leader, term) in c.msgs)
  }

  ghost predicate TermsOk(c: Cluster, h: Hist) {
    forall t | t in h.terms :: TermOk(c, t, h.terms[t])
  }

  predicate LeadersGrantNothing(c: Cluster, h: Hist) {
    forall m | m in c.msgs && IsGrant(m) && m.asked in h.terms :: h.terms[m.asked].leader != m.src
  }

  predicate LeaderRecorded(n: Node, id: nat, h: Hist) {
    n.role == Leader ==> n.term in h.terms && h.terms[n.term].leader == id
  }

  predicate LeadersRecorded(c: Cluster, h: Hist) {
    forall i | 0 <= i < |c.procs| :: LeaderRecorded(c.procs[i].node, i, h)
  }

  ghost predicate VotesCounted(c: Cluster, i: nat)
    requires i < |c.procs|
  {
    InElection(c.procs[i]) ==>
      var e := c.procs[i].election.value;
      e.peer <= |c.procs| - 1 && e.votes <= 1 + |Granters(c, i, e.term, e.peer)|
  }

  ghost predicate AllVotesCounted(c: Cluster) {
    forall i | 0 <= i < |c.procs| :: VotesCounted(c, i)
  }

  ghost predicate ElectionInv(c: Cluster, h: Hist) {
    && NodesOk(c) && MsgsAddressed(c) && GrantsOk(c) && GrantsUnique(c)
    && TermsOk(c, h) && LeadersGrantNothing(c, h) && LeadersRecorded(c, h) && AllVotesCounted(c)
  }

  // ---------- what a step does to terms, votes and roles ----------

  /** One node changed; messages were added. */
  predicate Frame(c: Cluster, c': Cluster, a: nat) {
    && a < |c.procs| == |c'.procs|
    && (forall j | 0 <= j < |c.procs| && j != a :: c'.procs[j] == c.procs[j])
    && c.msgs <= c'.msgs
  }

  predicate NoNewGrants(c: Cluster, c': Cluster) {
    forall m | m in c'.msgs && m !in c.msgs :: Addressed(c', m) && !IsGrant(m)
  }

  predicate SameLeaders(h: Hist, h': Hist) {
    && h.terms.Keys == h'.terms.Keys
    && forall t | t in h.terms :: h'.terms[t].leader == h.terms[t].leader && h'.terms[t].voters == h.terms[t].voters
  }

  /** Term and vote stay; the role stays or falls to follower, as in a restart. */
  predicate Settled(n: Node, n': Node) {
    && n'.id == n.id && n'.term == n.term && n'.votedFor == n.votedFor
    && (n'.role == n.role || n'.role == Follower)
    && |n'.nextIndex| == |n.nextIndex| && |n'.matchIndex| == |n.matchIndex|
    && n'.disk.term == n.disk.term && n'.disk.votedFor == n.disk.votedFor
  }

  /** A step down: to a higher term, or of a candidate in its own term. */
  predicate Demoted(n: Node, n': Node) {
    && n'.id == n.id && n'.term >= n.term && (n'.term > n.term || n.role == Candidate)
    && n'.role == Follower && n'.votedFor == -1
    && |n'.nextIndex| == |n.nextIndex| && |n'.matchIndex| == |n.matchIndex|
    && n'.disk.term == n'.term && n'.disk.votedFor == n'.votedFor
  }

  lemma GrantersGrow(c: Cluster, c': Cluster, i: nat, term: nat, k: nat)
    requires |c.procs| == |c'.procs| && c.msgs <= c'.msgs
    ensures |Granters(c, i, term, k)| <= |Granters(c', i, term, k)|
  {
    SubsetCount(Granters(c, i, term, k), Granters(c', i, term, k));
  }

  lemma CountsKept(c: Cluster, c': Cluster, a: nat)
    requires AllVotesCounted(c) && Frame(c, c', a) && VotesCounted(c', a)
    ensures AllVotesCounted(c')
  {
    forall i | 0 <= i < |c'.procs| ensures VotesCounted(c', i) {
      if i != a && InElection(c'.procs[i]) {
        var e := c.procs[i].election.value;
        assert VotesCounted(c, i);
        GrantersGrow(c, c', i, e.term, e.peer);
      }
    }
  }

  lemma TermsKept(c: Cluster, h: Hist, c': Cluster, h': Hist, a: nat)
    requires TermsOk(c, h) && Frame(c, c', a) && SameLeaders(h, h')
    requires forall t | t in h.terms && h.terms[t].leader == a :: LeaderKept(c'.procs[a].node, t)
    ensures TermsOk(c', h')
  {
    forall t | t in h'.terms ensures TermOk(c', t, h'.terms[t]) {
      assert TermOk(c, t, h.terms[t]);
    }
  }

  lemma SettledStep(c: Cluster, h: Hist, c': Cluster, h': Hist, a: nat)
    requires ElectionInv(c, h) && Frame(c, c', a) && NoNewGrants(c, c') && SameLeaders(h, h')
    requires Settled(c.procs[a].node, c'.procs[a].node)
    requires VotesCounted(c', a)
    ensures ElectionInv(c', h')
  {
    var n, n' := c.procs[a].node, c'.procs[a].node;
    assert NodeOk(n, a, |c.procs|);
    forall m | m in c'.msgs ensures Addressed(c', m) && GrantOk(c', m) {
      if m in c.msgs {
        assert Addressed(c, m) && GrantOk(c, m);
      }
    }
    forall t | t in h.terms && h.terms[t].leader == a ensures LeaderKept(n', t) {
      assert TermOk(c, t, h.terms[t]);
    }
    TermsKept(c, h, c', h', a);
    forall i | 0 <= i < |c'.procs| ensures LeaderRecorded(c'.procs[i].node, i, h') {
      assert LeaderRecorded(c.procs[i].node, i, h);
    }
    CountsKept(c, c', a);
  }

  lemma DemotedStep(c: Cluster, h: Hist, c': Cluster, h': Hist, a: nat)
    requires ElectionInv(c, h) && Frame(c, c', a) && NoNewGrants(c, c') && SameLeaders(h, h')
    requires Demoted(c.procs[a].node, c'.procs[a].node)
    ensures ElectionInv(c', h')
  {
    var n, n' := c.procs[a].node, c'.procs[a].node;
    assert NodeOk(n, a, |c.procs|);
    forall m | m in c'.msgs ensures Addressed(c', m) && GrantOk(c', m) {
      if m in c.msgs {
        assert Addressed(c, m) && GrantOk(c, m);
      }
    }
    forall t | t in h.terms && h.terms[t].leader == a ensures LeaderKept(n', t) {
      assert TermOk(c, t, h.terms[t]);
    }
    TermsKept(c, h, c', h', a);
    forall i | 0 <= i < |c'.procs| ensures LeaderRecorded(c'.procs[i].node, i, h') {
      assert LeaderRecorded(c.procs[i].node, i, h);
    }
    CountsKept(c, c', a);
  }

  lemma BeginStep(c: Cluster, h: Hist, n: nat)
    requires ElectionInv(c, h) && CanBegin(c, n)
    ensures ElectionInv(DoBegin(c, n), h)
  {
    var c' := DoBegin(c, n);
    assert NodeOk(c.procs[n].node, n, |c.procs|);
    forall m | m in c'.msgs ensures Addressed(c', m) && GrantOk(c', m) {
      assert Addressed(c, m) && GrantOk(c, m);
    }
    forall t | t in h.terms && h.terms[t].leader == n ensures LeaderKept(c'.procs[n].node, t) {
      assert TermOk(c, t, h.terms[t]);
    }
    TermsKept(c, h, c', h, n);
    forall i | 0 <= i < |c'.procs| ensures LeaderRecorded(c'.procs[i].node, i, h) {
      assert LeaderRecorded(c.procs[i].node, i, h);
    }
    CountsKept(c, c', n);
  }

  /** The voter had no vote in this term, or gives the same one again. */
  predicate Granted(n: Node, n': Node, candidate: nat) {
    && n'.id == n.id && n'.term >= n.term && n'.votedFor == candidate
    && (n'.term == n.term ==> (n.votedFor == -1 || n.votedFor == candidate) && n'.role == n.role)
    && (n'.term > n.term ==> n'.role == Follower)
    && |n'.nextIndex| == |n.nextIndex| && |n'.matchIndex| == |n.matchIndex|
    && n'.disk.term == n'.term && n'.disk.votedFor == n'.votedFor
  }

  lemma GrantMsgs(c: Cluster, h: Hist, c': Cluster, a: nat, candidate: nat)
    requires ElectionInv(c, h) && Frame(c, c', a) && a != candidate && candidate < |c.procs|
    requires Granted(c.procs[a].node, c'.procs[a].node, candidate)
    requires c'.msgs == c.msgs + {Grant(a, candidate, c'.procs[a].node.term)}
    ensures c'.procs[a].node.role == Follower
    ensures MsgsAddressed(c') && GrantsOk(c') && GrantsUnique(c')
  {
    var term := c'.procs[a].node.term;
    assert NodeOk(c.procs[a].node, a, |c.procs|);
    forall m | m in c'.msgs ensures Addressed(c', m) && GrantOk(c', m) {
      if m in c.msgs {
        assert Addressed(c, m) && GrantOk(c, m);
      }
    }
    forall m | m in c.msgs && IsGrant(m) && m.src == a && m.asked == term ensures m.dst == candidate {
      assert GrantOk(c, m) && Addressed(c, m);
    }
  }

  lemma GrantStep(c: Cluster, h: Hist, c': Cluster, h': Hist, a: nat, candidate: nat)
    requires ElectionInv(c, h) && Frame(c, c', a) && SameLeaders(h, h')
    requires a != candidate && candidate < |c.procs|
    requires Granted(c.procs[a].node, c'.procs[a].node, candidate)
    requires c'.msgs == c.msgs + {Grant(a, candidate, c'.procs[a].node.term)}
    ensures ElectionInv(c', h')
  {
    var n, n' := c.procs[a].node, c'.procs[a].node;
    GrantMsgs(c, h, c', a, candidate);
    assert NodeOk(n, a, |c.procs|);
    forall t | t in h.terms && h.terms[t].leader == a ensures LeaderKept(n', t) && t != n'.term {
      assert TermOk(c, t, h.terms[t]);
    }
    TermsKept(c, h, c', h', a);
    forall i | 0 <= i < |c'.procs| ensures LeaderRecorded(c'.procs[i].node, i, h') {
      assert LeaderRecorded(c.procs[i].node, i, h);
    }
    CountsKept(c, c', a);
  }

  lemma HandleVoteStep(c: Cluster, h: Hist, m: Msg)
    requires ElectionInv(c, h) && CanHandle(c, m) && m.VoteReq?
    ensures ElectionInv(DoHandleVote(c, m), RecordVote(h, c.procs[m.dst].node, m.dst, m.vote))
  {
    var c', h' := DoHandleVote(c, m), RecordVote(h, c.procs[m.dst].node, m.dst, m.vote);
    var n := c.procs[m.dst].node;
    var (n', r) := H.HandleVote(n, m.vote);
    assert Addressed(c, m);
    assert NodeOk(n, m.dst, |c.procs|);
    assert c'.procs[m.dst].node == n';
    if r.granted {
      assert VoteRep(m.dst, m.src, m.vote.term, r) == Grant(m.dst, m.src, n'.term);
      GrantStep(c, h, c', h', m.dst, m.src);
    } else if m.vote.term > n.term {
      DemotedStep(c, h, c', h', m.dst);
    } else {
      assert VotesCounted(c, m.dst);
      StillCounted(c, c', m.dst);
      SettledStep(c, h, c', h', m.dst);
    }
  }

  lemma StillCounted(c: Cluster, c': Cluster, a: nat)
    requires Frame(c, c', a) && VotesCounted(c, a)
    requires Settled(c.procs[a].node, c'.procs[a].node)
    requires c'.procs[a].election == c.procs[a].election
    ensures VotesCounted(c', a)
  {
    if InElection(c'.procs[a]) {
      var e := c.procs[a].election.value;
      GrantersGrow(c, c', a, e.term, e.peer);
    }
  }

  /** The peer asked next is counted if it voted. */
  lemma GrantersNext(c: Cluster, n: nat, term: nat, k: nat, m: Msg)
    requires n < |c.procs| && k < |c.procs| - 1 && m in c.msgs && m.src == PeerId(n, k)
    requires m == Grant(m.src, n, term) || !IsGrant(m)
    ensures |Granters(c, n, term, k + 1)| >= |Granters(c, n, term, k)| + (if IsGrant(m) then 1 else 0)
  {
    var g, g' := Granters(c, n, term, k), Granters(c, n, term, k + 1);
    if IsGrant(m) {
      assert g + {m.src} <= g' && m.src !in g;
      SubsetCount(g + {m.src}, g');
    } else {
      SubsetCount(g, g');
    }
  }

  lemma CountStep(c: Cluster, h: Hist, c': Cluster, n: nat, more: nat)
    requires ElectionInv(c, h) && CanAsk(c, n) && Frame(c, c', n) && c'.msgs == c.msgs
    requires c'.procs[n].node == c.procs[n].node
    requires var e := c.procs[n].election.value;
      && c'.procs[n].election == Some(Election(e.term, e.peer + 1, e.votes + more))
      && |Granters(c, n, e.term, e.peer + 1)| >= |Granters(c, n, e.term, e.peer)| + more
    ensures ElectionInv(c', h)
  {
    var e := c.procs[n].election.value;
    assert VotesCounted(c, n);
    GrantersGrow(c, c', n, e.term, e.peer + 1);
    SettledStep(c, h, c', h, n);
  }

  lemma TakeVoteStep(c: Cluster, h: Hist, n: nat, m: Msg)
    requires ElectionInv(c, h) && CanTakeVote(c, n, m)
    ensures ElectionInv(DoTakeVote(c, n, m), h)
  {
    var c' := DoTakeVote(c, n, m);
    var p := c.procs[n];
    var e := p.election.value;
    assert NodeOk(p.node, n, |c.procs|) && GrantOk(c, m);
    if m.voteReply.term > p.node.term {
      DemotedStep(c, h, c', h, n);
    } else {
      assert IsGrant(m) ==> m == Grant(m.src, n, e.term);
      GrantersNext(c, n, e.term, e.peer, m);
      assert c'.msgs == c.msgs;
      CountStep(c, h, c', n, if m.voteReply.granted then 1 else 0);
    }
  }

  lemma MissVoteStep(c: Cluster, h: Hist, n: nat)
    requires ElectionInv(c, h) && CanAsk(c, n)
    ensures ElectionInv(DoMissVote(c, n), h)
  {
    var c' := DoMissVote(c, n);
    var e := c.procs[n].election.value;
    SubsetCount(Granters(c, n, e.term, e.peer), Granters(c, n, e.term, e.peer + 1));
    assert c'.msgs == c.msgs;
    CountStep(c, h, c', n, 0);
  }

  /** Who is in the majority of a term's leader did not vote for another candidate of that
      term: each node votes once, and neither candidate voted for the other. */
  lemma VotersApart(c: Cluster, h: Hist, n: nat, x: nat)
    requires ElectionInv(c, h) && n < |c.procs| && InElection(c.procs[n])
    requires var t := c.procs[n].node.term; t in h.terms && x in h.terms[t].voters
    ensures x !in Granters(c, n, c.procs[n].node.term, |c.procs| - 1) && x != n
  {
    var term := c.procs[n].node.term;
    var leader := h.terms[term].leader;
    assert NodeOk(c.procs[n].node, n, |c.procs|) && TermOk(c, term, h.terms[term]);
    assert leader != n;
    if x != leader {
      var g := Grant(x, leader, term);
      assert g in c.msgs && IsGrant(g) && GrantOk(c, g);
      assert Grant(x, n, term) in c.msgs ==> IsGrant(Grant(x, n, term));
    } else {
      assert Grant(x, n, term) in c.msgs ==> IsGrant(Grant(x, n, term));
    }
  }

  lemma WinnersVoters(c: Cluster, n: nat)
    requires CanWin(c, n) && VotesCounted(c, n)
    ensures var voters := Granters(c, n, c.procs[n].node.term, |c.procs| - 1) + {n};
      voters <= Ids(|c.procs|) && 2 * |voters| > |c.procs|
  {
    var g := Granters(c, n, c.procs[n].node.term, |c.procs| - 1);
    assert |g + {n}| == |g| + 1;
  }

  /** A candidate with a majority is the first to lead its term. */
  lemma WinnerIsFirst(c: Cluster, h: Hist, n: nat)
    requires ElectionInv(c, h) && CanWin(c, n)
    ensures c.procs[n].node.term !in h.terms
  {
    var term := c.procs[n].node.term;
    assert VotesCounted(c, n);
    WinnersVoters(c, n);
    if term in h.terms {
      assert TermOk(c, term, h.terms[term]);
      var x := QuorumsMeet(Granters(c, n, term, |c.procs| - 1) + {n}, h.terms[term].voters, |c.procs|);
      VotersApart(c, h, n, x);
    }
  }

  /** A candidate became leader of a term that had none. */
  lemma WonStep(c: Cluster, h: Hist, c': Cluster, h': Hist, a: nat, rec: TermRec)
    requires ElectionInv(c, h) && Frame(c, c', a) && c'.msgs == c.msgs
    requires c.procs[a].node.role == Candidate && c'.procs[a].node.role == Leader
    requires NodeOk(c'.procs[a].node, a, |c.procs|) && c'.procs[a].node.term == c.procs[a].node.term
    requires c.procs[a].node.term !in h.terms && rec.leader == a
    requires h'.terms == h.terms[c.procs[a].node.term := rec]
    requires TermOk(c', c.procs[a].node.term, rec)
    ensures ElectionInv(c', h')
  {
    var n, n' := c.procs[a].node, c'.procs[a].node;
    assert NodeOk(n, a, |c.procs|);
    forall m | m in c'.msgs ensures Addressed(c', m) && GrantOk(c', m) {
      assert Addressed(c, m) && GrantOk(c, m);
    }
    forall t | t in h'.terms ensures TermOk(c', t, h'.terms[t]) {
      if t != n.term {
        assert TermOk(c, t, h.terms[t]);
      }
    }
    forall i | 0 <= i < |c'.procs| ensures LeaderRecorded(c'.procs[i].node, i, h') {
      assert LeaderRecorded(c.procs[i].node, i, h);
    }
    CountsKept(c, c', a);
  }

  lemma WinnersTerm(c: Cluster, n: nat, rec: TermRec)
    requires CanWin(c, n) && VotesCounted(c, n) && NodeOk(c.procs[n].node, n, |c.procs|)
    requires rec.leader == n && rec.voters == Granters(c, n, c.procs[n].node.term, |c.procs| - 1) + {n}
    ensures TermOk(DoWin(c, n), c.procs[n].node.term, rec)
  {
    WinnersVoters(c, n);
    assert DoWin(c, n).msgs == c.msgs;
  }

  lemma WinStep(c: Cluster, h: Hist, n: nat)
    requires ElectionInv(c, h) && CanWin(c, n)
    ensures ElectionInv(DoWin(c, n), RecordWin(h, c, n))
  {
    var c', h', t := DoWin(c, n), RecordWin(h, c, n), c.procs[n].node.term;
    WinnerIsFirst(c, h, n);
    assert VotesCounted(c, n) && NodeOk(c.procs[n].node, n, |c.procs|);
    WinnersTerm(c, n, h'.terms[t]);
    assert c'.msgs == c.msgs;
    WonStep(c, h, c', h', n, h'.terms[t]);
  }

  lemma {:induction false} ApplyKeeps(n: Node, target: int)
    ensures var m := H.ApplyUpTo(n, target);
      n.(commitIndex := m.commitIndex, lastApplied := m.lastApplied, store := m.store) == m
      && m.commitIndex == n.commitIndex
    decreases target - n.lastApplied
  {
    if n.lastApplied < target {
      ApplyKeeps(H.ApplyOne(n), target);
    }
  }

  lemma CompactSettles(n: Node)
    requires n.disk.term == n.term && n.disk.votedFor == n.votedFor
    ensures Settled(n, H.Compact(n)) && Settled(n, H.CompactIfLong(n))
    ensures H.Compact(n).role == n.role
  {}

  predicate Synced(n: Node) {
    n.disk.term == n.term && n.disk.votedFor == n.votedFor
  }

  lemma FinishSettles(d: Node, a: AppendArgs)
    requires Synced(d)
    ensures var f := H.FinishAppend(d, a); Settled(d, f) && f.role == d.role && Synced(f)
  {
    var t := H.TakeEntries(d, a);
    var target := H.CommitTarget(t, a.leaderCommit);
    ApplyKeeps(t.(commitIndex := target), target);
  }

  /** AppendEntries changes term, vote and role only by stepping down. */
  lemma AppendSettlesOrDemotes(n: Node, a: AppendArgs)
    requires Synced(n)
    ensures var n' := H.HandleAppend(n, a).0;
      && (a.term < n.term ==> H.HandleAppend(n, a) == (n, AppendReply(n.term, false)))
      && (a.term >= n.term ==> n'.term == a.term)
      && (if a.term > n.term || (a.term == n.term && n.role == Candidate) then Demoted(n, n')
          else Settled(n, n') && n'.role == n.role)
  {
    if a.term >= n.term {
      var d := H.StepDown(n, a);
      FinishSettles(d, a);
      CompactSettles(H.FinishAppend(d, a));
    }
  }

  lemma HandleAppendStep(c: Cluster, h: Hist, m: Msg)
    requires ElectionInv(c, h) && CanHandle(c, m) && m.AppReq?
    ensures ElectionInv(DoHandleAppend(c, m), RecordAppend(h, c.procs[m.dst].node, m.dst, m.append))
  {
    var c', h' := DoHandleAppend(c, m), RecordAppend(h, c.procs[m.dst].node, m.dst, m.append);
    assert Addressed(c, m);
    assert NodeOk(c.procs[m.dst].node, m.dst, |c.procs|);
    AppendSettlesOrDemotes(c.procs[m.dst].node, m.append);
    ReactStep(c, h, c', h', m.dst);
  }

  /** A step that settles or demotes a node and leaves its threads alone. */
  lemma ReactStep(c: Cluster, h: Hist, c': Cluster, h': Hist, a: nat)
    requires ElectionInv(c, h) && Frame(c, c', a) && NoNewGrants(c, c') && SameLeaders(h, h')
    requires Settled(c.procs[a].node, c'.procs[a].node) || Demoted(c.procs[a].node, c'.procs[a].node)
    requires c'.procs[a].election == c.procs[a].election || c'.procs[a].election == None
    ensures ElectionInv(c', h')
  {
    if Demoted(c.procs[a].node, c'.procs[a].node) {
      DemotedStep(c, h, c', h', a);
    } else {
      assert VotesCounted(c, a);
      if c'.procs[a].election == c.procs[a].election {
        StillCounted(c, c', a);
      }
      SettledStep(c, h, c', h', a);
    }
  }

  lemma CommitSettles(n: Node, index: int)
    requires n.disk.term == n.term && n.disk.votedFor == n.votedFor
    ensures Settled(n, H.CommitClient(n, index))
  {
    ApplyKeeps(n.(commitIndex := index), index);
    CompactSettles(H.ApplyUpTo(n.(commitIndex := index), index));
  }

  lemma CallRefusedStep(c: Cluster, h: Hist, n: nat, index: int)
    requires ElectionInv(c, h) && CanCall(c, n, index)
    ensures ElectionInv(DoCallRefused(c, n, index), h)
  {
    assert NodeOk(c.procs[n].node, n, |c.procs|);
    ReactStep(c, h, DoCallRefused(c, n, index), h, n);
  }

  lemma BeatRefusedStep(c: Cluster, h: Hist, n: nat, slot: nat)
    requires ElectionInv(c, h) && IsLeader(c, n) && CanBeat(c, n, slot)
    ensures ElectionInv(DoBeatRefused(c, n, slot), h)
  {
    assert NodeOk(c.procs[n].node, n, |c.procs|);
    ReactStep(c, h, DoBeatRefused(c, n, slot), h, n);
  }

  lemma ClientAppendStep(c: Cluster, h: Hist, n: nat, command: string)
    requires ElectionInv(c, h) && IsLeader(c, n)
    ensures ElectionInv(DoClientAppend(c, n, command), RecordClient(h, c.procs[n].node, command))
  {
    assert NodeOk(c.procs[n].node, n, |c.procs|);
    ReactStep(c, h, DoClientAppend(c, n, command), RecordClient(h, c.procs[n].node, command), n);
  }

  lemma CallSendStep(c: Cluster, h: Hist, n: nat, index: int)
    requires ElectionInv(c, h) && CanCall(c, n, index)
    ensures ElectionInv(DoCallSend(c, n, index), h)
  {
    ReactStep(c, h, DoCallSend(c, n, index), h, n);
  }

  lemma CallReplyStep(c: Cluster, h: Hist, n: nat, index: int, m: Msg)
    requires ElectionInv(c, h) && CanCall(c, n, index) && CanTakeReply(c, n, index, m)
    ensures ElectionInv(DoCallReply(c, n, index, m), h)
  {
    assert NodeOk(c.procs[n].node, n, |c.procs|);
    ReactStep(c, h, DoCallReply(c, n, index, m), h, n);
  }

  lemma CommitStep(c: Cluster, h: Hist, n: nat, index: int)
    requires ElectionInv(c, h) && CanCommit(c, n, index)
    ensures ElectionInv(DoCommit(c, n, index), RecordCommit(h, c.procs[n].node, n, index))
  {
    assert NodeOk(c.procs[n].node, n, |c.procs|);
    CommitSettles(c.procs[n].node, index);
    ReactStep(c, h, DoCommit(c, n, index), RecordCommit(h, c.procs[n].node, n, index), n);
  }

  lemma BeatStep(c: Cluster, h: Hist, n: nat, slot: nat)
    requires ElectionInv(c, h) && IsLeader(c, n) && CanBeat(c, n, slot)
    ensures ElectionInv(DoBeat(c, n, slot), h)
  {
    ReactStep(c, h, DoBeat(c, n, slot), h, n);
  }

  lemma TakeBeatStep(c: Cluster, h: Hist, n: nat, m: Msg)
    requires ElectionInv(c, h) && IsLeader(c, n) && CanTakeBeat(c, n, m)
    ensures ElectionInv(DoTakeBeat(c, n, m), h)
  {
    assert NodeOk(c.procs[n].node, n, |c.procs|);
    ReactStep(c, h, DoTakeBeat(c, n, m), h, n);
  }

  lemma ChunkStep(c: Cluster, h: Hist, m: Msg, unread: Snapshot)
    requires ElectionInv(c, h) && CanHandle(c, m) && m.SnapReq?
    ensures ElectionInv(DoHandleChunk(c, m, unread), h)
  {
    assert Addressed(c, m) && NodeOk(c.procs[m.dst].node, m.dst, |c.procs|);
    ReactStep(c, h, DoHandleChunk(c, m, unread), h, m.dst);
  }

  lemma CompactStep(c: Cluster, h: Hist, n: nat)
    requires ElectionInv(c, h) && n < |c.procs|
    ensures ElectionInv(DoTrigger(c, n), h)
  {
    assert NodeOk(c.procs[n].node, n, |c.procs|);
    CompactSettles(c.procs[n].node);
    ReactStep(c, h, DoTrigger(c, n), h, n);
  }

  lemma CrashStep(c: Cluster, h: Hist, n: nat, replayed: KV)
    requires ElectionInv(c, h) && n < |c.procs|
    ensures ElectionInv(DoCrash(c, n, replayed), h)
  {
    assert NodeOk(c.procs[n].node, n, |c.procs|);
    ReactStep(c, h, DoCrash(c, n, replayed), h, n);
  }

  lemma AskStep(c: Cluster, h: Hist, n: nat)
    requires ElectionInv(c, h) && CanAsk(c, n)
    ensures ElectionInv(DoAsk(c, n), h)
  {
    assert NodeOk(c.procs[n].node, n, |c.procs|);
    ReactStep(c, h, DoAsk(c, n), h, n);
  }

  lemma CallMissStep(c: Cluster, h: Hist, n: nat, index: int)
    requires ElectionInv(c, h) && CanCall(c, n, index)
    ensures ElectionInv(DoCallMiss(c, n, index), h)
  {
    ReactStep(c, h, DoCallMiss(c, n, index), h, n);
  }

  lemma SendChunkStep(c: Cluster, h: Hist, n: nat, slot: nat, order: seq<SnapshotCodec.Pair>, chunkNum: nat)
    requires ElectionInv(c, h) && IsLeader(c, n) && CanSendChunk(c, n, slot, order, chunkNum)
    ensures ElectionInv(DoSendChunk(c, n, slot, order, chunkNum), h)
  {
    ReactStep(c, h, DoSendChunk(c, n, slot, order, chunkNum), h, n);
  }

  lemma ChunkReplyStep(c: Cluster, h: Hist, n: nat, m: Msg)
    requires ElectionInv(c, h) && IsLeader(c, n) && CanTakeChunkReply(c, n, m)
    ensures ElectionInv(DoTakeChunkReply(c, n, m), h)
  {
    ReactStep(c, h, DoTakeChunkReply(c, n, m), h, n);
  }

  lemma StepKeeps(c: Cluster, h: Hist, s: Step)
    requires ElectionInv(c, h) && Enabled(c, s)
    ensures ElectionInv(Do(c, s), Recorded(h, c, s))
  {
    match s
    case BeginElection(n) => BeginStep(c, h, n);
    case HandleVote(m) => HandleVoteStep(c, h, m);
    case TakeVote(n, m) => TakeVoteStep(c, h, n, m);
    case MissVote(n) => MissVoteStep(c, h, n);
    case WinElection(n) => WinStep(c, h, n);
    case HandleAppend(m) => HandleAppendStep(c, h, m);
    case ClientAppend(n, command) => ClientAppendStep(c, h, n, command);
    case CallSend(n, index) => CallSendStep(c, h, n, index);
    case CallReply(n, index, m) => CallReplyStep(c, h, n, index, m);
    case CallCommit(n, index) => CommitStep(c, h, n, index);
    case HeartbeatSend(n, slot) => BeatStep(c, h, n, slot);
    case HeartbeatReply(n, m) => TakeBeatStep(c, h, n, m);
    case HandleChunk(m, unread) => ChunkStep(c, h, m, unread);
    case TriggerSnapshot(n) => CompactStep(c, h, n);
    case Crash(n, replayed) => CrashStep(c, h, n, replayed);
    case AskVote(n) => AskStep(c, h, n);
    case CallMiss(n, index) => CallMissStep(c, h, n, index);
    case CallRefused(n, index) => CallRefusedStep(c, h, n, index);
    case HeartbeatRefused(n, slot) => BeatRefusedStep(c, h, n, slot);
    case SendChunk(n, slot, order, chunkNum) => SendChunkStep(c, h, n, slot, order, chunkNum);
    case ChunkReply(n, m) => ChunkReplyStep(c, h, n, m);
  }

  lemma InitHolds(c: Cluster)
    requires Init(c)
    ensures ElectionInv(c, Hist(map[], map[], {}))
  {
    assert forall i | 0 <= i < |c.procs| :: NodeOk(c.procs[i].node, i, |c.procs|) by {
      assert forall i | 0 <= i < |c.procs| :: Fresh(c.procs[i].node, i, |c.procs|);
    }
  }

  lemma {:induction false} RunKeeps(r: seq<Cluster>, steps: seq<Step>, k: nat)
    requires IsRun(r, steps) && k <= |steps|
    ensures ElectionInv(r[k], HistoryOf(r, steps, k))
  {
    if k == 0 {
      InitHolds(r[0]);
    } else {
      RunKeeps(r, steps, k - 1);
      assert RunStep(r, steps, k - 1);
      StepKeeps(r[k - 1], HistoryOf(r, steps, k - 1), steps[k - 1]);
    }
  }

  /** Recording a step changes who is on record for a term only when an election is won in it. */
  lemma RecordUnlessWon(c: Cluster, h: Hist, s: Step, term: nat)
    requires Enabled(c, s) && term in h.terms
    requires s.WinElection? ==> s.n < |c.procs| && c.procs[s.n].node.term != term
    ensures var h' := Recorded(h, c, s);
      && term in h'.terms && h'.terms[term].leader == h.terms[term].leader
      && h'.terms[term].start == h.terms[term].start && h'.terms[term].voters == h.terms[term].voters
  {}

  /** Once a term has a leader on record, it is the only one. */
  lemma RecordKept(c: Cluster, h: Hist, s: Step, term: nat)
    requires ElectionInv(c, h) && Enabled(c, s) && term in h.terms
    ensures var h' := Recorded(h, c, s);
      && term in h'.terms && h'.terms[term].leader == h.terms[term].leader
      && h'.terms[term].start == h.terms[term].start && h'.terms[term].voters == h.terms[term].voters
  {
    if s.WinElection? {
      WinnerIsFirst(c, h, s.n);
    }
    RecordUnlessWon(c, h, s, term);
  }

  lemma {:induction false} RecordsKept(r: seq<Cluster>, steps: seq<Step>, i: nat, j: nat, term: nat)
    requires IsRun(r, steps) && i <= j <= |steps| && term in HistoryOf(r, steps, i).terms
    ensures var h, h' := HistoryOf(r, steps, i), HistoryOf(r, steps, j);
      && term in h'.terms && h'.terms[term].leader == h.terms[term].leader
      && h'.terms[term].start == h.terms[term].start && h'.terms[term].voters == h.terms[term].voters
    decreases j
  {
    if i < j {
      RecordsKept(r, steps, i, j - 1, term);
      RunKeeps(r, steps, j - 1);
      assert RunStep(r, steps, j - 1);
      RecordKept(r[j - 1], HistoryOf(r, steps, j - 1), steps[j - 1], term);
    }
  }

  /** Election Safety: over all runs, with delayed, repeated and lost messages, compaction,
      snapshot transfers and restarts, two nodes that lead the same term at whatever moments
      are one and the same. */
  lemma OneLeaderPerTerm(r: seq<Cluster>, steps: seq<Step>, i: nat, j: nat, a: nat, b: nat, term: nat)
    requires IsRun(r, steps) && i <= |steps| && j <= |steps|
    requires Leads(r[i], a, term) && Leads(r[j], b, term)
    ensures a == b
  {
    RunKeeps(r, steps, i);
    RunKeeps(r, steps, j);
    assert LeaderRecorded(r[i].procs[a].node, a, HistoryOf(r, steps, i));
    assert LeaderRecorded(r[j].procs[b].node, b, HistoryOf(r, steps, j));
    if i <= j {
      RecordsKept(r, steps, i, j, term);
    } else {
      RecordsKept(r, steps, j, i, term);
    }
  }
}
