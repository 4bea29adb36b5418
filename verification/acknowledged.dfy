/** Entries a node has acknowledged: it has them saved into every later term, unless a leader
    elected in between lacked them. Client calls count acknowledgements. */
module Acknowledged {
  import opened RaftTypes
  import opened Protocol
  import opened History
  import opened ElectionSafety
  import opened LogMatching
  import opened LogSteps
  import opened Ballots
  import opened Quorums
  import opened SuccessReply

  /** The log of term `term`'s leader, up to the entry at `i`. */
  function UpTo(h: Hist, term: nat, i: nat): Log {
    if term in h.terms && i < |h.terms[term].log| then h.terms[term].log[..i + 1] else []
  }

  predicate Lacks(h: Hist, w: nat, term: nat, i: nat, last: int)
    requires w in h.terms
  {
    term < w <= last && !(UpTo(h, term, i) <= ElectedLog(h.terms[w]))
  }

  /** Some leader elected after `term`, no later than `by`, lacked the entry. */
  ghost predicate Obstacle(h: Hist, term: nat, i: nat, last: int) {
    exists w :: w in h.terms && Lacks(h, w, term, i, last)
  }

  ghost predicate Held(h: Hist, k: Ack, log: Log, last: int) {
    UpTo(h, k.term, k.index) <= log || Obstacle(h, k.term, k.index, last)
  }

  predicate AckRecorded(h: Hist, k: Ack) {
    k.term in h.terms && h.terms[k.term].start <= k.index < |h.terms[k.term].log|
  }

  ghost predicate AckOk(c: Cluster, h: Hist, k: Ack) {
    && k.node < |c.procs| && AckRecorded(h, k) && c.procs[k.node].node.term >= k.term
    && Held(h, k, c.procs[k.node].node.disk.log, c.procs[k.node].node.term)
  }

  ghost predicate AckVoteOk(h: Hist, k: Ack, term: nat)
    requires (k.node, term) in h.votes
  {
    term > k.term ==> Held(h, k, h.votes[(k.node, term)].log, term - 1)
  }

  ghost predicate AckLeadOk(h: Hist, k: Ack, term: nat)
    requires term in h.terms
  {
    term > k.term && h.terms[term].leader == k.node ==> Held(h, k, ElectedLog(h.terms[term]), term - 1)
  }

  predicate ReplyAcked(h: Hist, m: Msg) {
    m.AppRep? && m.appendReply.success && m.append.term in h.terms ==>
      forall i: nat | h.terms[m.append.term].start <= i < End(m.append) :: Ack(m.src, m.append.term, i) in h.acks
  }

  /** The peers in the first `k` slots that acknowledged the entry. */
  function Askers(h: Hist, n: nat, term: nat, index: nat, k: nat, size: nat): set<nat> {
    set v | 0 <= v < size && v != n && PeerSlot(n, v) < k && Ack(v, term, index) in h.acks
  }

  predicate CallOk(h: Hist, p: Proc, n: nat, index: int, size: nat) {
    InCall(p, index) ==>
      var call := p.calls[index];
      && p.node.term in h.terms && 0 <= index && h.terms[p.node.term].start <= index
      && call.peer <= size - 1
      && call.successes <= 1 + |Askers(h, n, p.node.term, index, call.peer, size)|
      && (call.pending.Some? ==> call.pending.value.term == p.node.term && End(call.pending.value) > index)
  }

  predicate CallsOk(h: Hist, p: Proc, n: nat, size: nat) {
    forall index | index in p.calls :: CallOk(h, p, n, index, size)
  }

  ghost predicate AcksOk(c: Cluster, h: Hist) {
    forall k | k in h.acks :: AckOk(c, h, k)
  }

  ghost predicate AckVotesOk(h: Hist) {
    forall k, term: nat | k in h.acks && (k.node, term) in h.votes :: AckVoteOk(h, k, term)
  }

  ghost predicate AckLeadsOk(h: Hist) {
    forall k, term | k in h.acks && term in h.terms :: AckLeadOk(h, k, term)
  }

  predicate AllSaved(c: Cluster) {
    forall i | 0 <= i < |c.procs| :: Saved(c.procs[i].node)
  }

  predicate RepliesAcked(c: Cluster, h: Hist) {
    forall m | m in c.msgs :: ReplyAcked(h, m)
  }

  predicate AllCallsOk(c: Cluster, h: Hist) {
    forall n | 0 <= n < |c.procs| :: CallsOk(h, c.procs[n], n, |c.procs|)
  }

  ghost predicate AckInv(c: Cluster, h: Hist) {
    && AcksOk(c, h) && AckVotesOk(h) && AckLeadsOk(h)
    && AllSaved(c) && RepliesAcked(c, h) && AllCallsOk(c, h)
  }

  // ---------- what a growing history keeps ----------

  predicate Later(h: Hist, h': Hist) {
    Grows(h, h') && VotesGrow(h, h') && h.acks <= h'.acks
  }

  predicate StartsOk(h: Hist) {
    forall t | t in h.terms :: h.terms[t].start <= |h.terms[t].log|
  }

  lemma LogInvStarts(c: Cluster, h: Hist)
    requires LogInv(c, h)
    ensures StartsOk(h)
  {
    forall t | t in h.terms ensures h.terms[t].start <= |h.terms[t].log| {
      assert RecOk(h, t);
    }
  }

  lemma UpToKept(h: Hist, h': Hist, term: nat, i: nat)
    requires Grows(h, h') && term in h.terms && i < |h.terms[term].log|
    ensures UpTo(h', term, i) == UpTo(h, term, i)
  {}

  lemma ObstacleKept(h: Hist, h': Hist, k: Ack, last: int, last': int)
    requires Grows(h, h') && StartsOk(h) && AckRecorded(h, k) && last <= last'
    requires Obstacle(h, k.term, k.index, last)
    ensures Obstacle(h', k.term, k.index, last')
  {
    var w :| w in h.terms && Lacks(h, w, k.term, k.index, last);
    UpToKept(h, h', k.term, k.index);
    ElectedLogKept(h, h', w);
    assert Lacks(h', w, k.term, k.index, last');
  }

  lemma HeldKept(h: Hist, h': Hist, k: Ack, log: Log, log': Log, last: int, last': int)
    requires Grows(h, h') && StartsOk(h) && AckRecorded(h, k) && last <= last' && log <= log'
    requires Held(h, k, log, last)
    ensures Held(h', k, log', last')
  {
    if Obstacle(h, k.term, k.index, last) {
      ObstacleKept(h, h', k, last, last');
    } else {
      UpToKept(h, h', k.term, k.index);
    }
  }

  lemma RecordedKept(h: Hist, h': Hist, k: Ack)
    requires Grows(h, h') && AckRecorded(h, k)
    ensures AckRecorded(h', k)
  {}

  lemma OldAckKept(c: Cluster, h: Hist, c': Cluster, h': Hist, a: nat, k: Ack)
    requires AckOk(c, h, k) && StartsOk(h) && Grows(h, h') && Frame(c, c', a)
    requires KeepsSaved(c.procs[a].node, c'.procs[a].node)
    ensures AckOk(c', h', k)
  {
    RecordedKept(h, h', k);
    HeldKept(h, h', k, c.procs[k.node].node.disk.log, c'.procs[k.node].node.disk.log,
             c.procs[k.node].node.term, c'.procs[k.node].node.term);
  }

  /** What is saved of a node's log is held in its log. */
  lemma HeldInLog(c: Cluster, h: Hist, k: Ack)
    requires AcksOk(c, h) && AllSaved(c) && StartsOk(h) && k in h.acks
    ensures AckOk(c, h, k) && Held(h, k, c.procs[k.node].node.log, c.procs[k.node].node.term)
  {
    assert AckOk(c, h, k);
    var n := c.procs[k.node].node;
    assert Saved(n);
    HeldKept(h, h, k, n.disk.log, n.log, n.term, n.term);
  }

  lemma AllSavedKept(c: Cluster, c': Cluster, a: nat)
    requires AllSaved(c) && Frame(c, c', a) && Saved(c'.procs[a].node)
    ensures AllSaved(c')
  {
    assert forall i | 0 <= i < |c.procs| :: Saved(c.procs[i].node);
  }

  lemma OldVotesHeld(c: Cluster, h: Hist, h': Hist, k: Ack, term: nat)
    requires StartsOk(h) && Later(h, h') && AckOk(c, h, k) && (k.node, term) in h.votes && AckVoteOk(h, k, term)
    ensures AckVoteOk(h', k, term)
  {
    if term > k.term {
      var log := h.votes[(k.node, term)].log;
      HeldKept(h, h', k, log, log, term - 1, term - 1);
    }
  }

  lemma OldLeadsHeld(c: Cluster, h: Hist, h': Hist, k: Ack, term: nat)
    requires StartsOk(h) && Later(h, h') && AckOk(c, h, k) && term in h.terms && AckLeadOk(h, k, term)
    ensures term in h'.terms && AckLeadOk(h', k, term)
  {
    ElectedLogKept(h, h', term);
    if term > k.term && h.terms[term].leader == k.node {
      HeldKept(h, h', k, ElectedLog(h.terms[term]), ElectedLog(h'.terms[term]), term - 1, term - 1);
    }
  }

  /** An acknowledgement of the node's present term is later than all its votes and terms. */
  lemma FreshAck(c: Cluster, h: Hist, k: Ack)
    requires ElectionInv(c, h) && VotesOk(c, h) && k.node < |c.procs| && c.procs[k.node].node.term <= k.term
    ensures forall t: nat | (k.node, t) in h.votes :: t <= k.term
    ensures forall t | t in h.terms && h.terms[t].leader == k.node :: t <= k.term
  {
    forall t: nat | (k.node, t) in h.votes ensures t <= k.term {
      assert VoteOk(c, h, k.node, t);
    }
    forall t | t in h.terms && h.terms[t].leader == k.node ensures t <= k.term {
      assert TermOk(c, t, h.terms[t]);
    }
  }

  // ---------- calls ----------

  lemma AskersGrow(h: Hist, h': Hist, n: nat, term: nat, index: nat, k: nat, size: nat)
    requires h.acks <= h'.acks
    ensures |Askers(h, n, term, index, k, size)| <= |Askers(h', n, term, index, k, size)|
  {
    SubsetCount(Askers(h, n, term, index, k, size), Askers(h', n, term, index, k, size));
  }

  lemma AskersNext(h: Hist, n: nat, term: nat, index: nat, k: nat, size: nat, ok: bool)
    requires k < size - 1 && (ok ==> Ack(PeerId(n, k), term, index) in h.acks) && n < size
    ensures |Askers(h, n, term, index, k + 1, size)| >= |Askers(h, n, term, index, k, size)| + (if ok then 1 else 0)
  {
    var s, s' := Askers(h, n, term, index, k, size), Askers(h, n, term, index, k + 1, size);
    if ok {
      assert s + {PeerId(n, k)} <= s' && PeerId(n, k) !in s;
      SubsetCount(s + {PeerId(n, k)}, s');
    } else {
      SubsetCount(s, s');
    }
  }

  lemma CallKept(h: Hist, h': Hist, p: Proc, p': Proc, n: nat, index: int, size: nat)
    requires Later(h, h') && index in p'.calls && CallOk(h, p, n, index, size)
    requires InCall(p', index) ==> InCall(p, index) && p'.node.term == p.node.term && p'.calls[index] == p.calls[index]
    ensures CallOk(h', p', n, index, size)
  {
    if InCall(p', index) {
      AskersGrow(h, h', n, p.node.term, index, p.calls[index].peer, size);
    }
  }

  lemma CallsKept(h: Hist, h': Hist, p: Proc, p': Proc, n: nat, size: nat)
    requires Later(h, h') && CallsOk(h, p, n, size)
    requires p'.calls.Keys <= p.calls.Keys && forall i | i in p'.calls :: p'.calls[i] == p.calls[i]
    requires p'.node.role == Leader ==> p.node.role == Leader && p'.node.term == p.node.term
    ensures CallsOk(h', p', n, size)
  {
    forall index | index in p'.calls ensures CallOk(h', p', n, index, size) {
      CallKept(h, h', p, p', n, index, size);
    }
  }

  lemma AllCallsKept(c: Cluster, h: Hist, c': Cluster, h': Hist, a: nat)
    requires AllCallsOk(c, h) && Later(h, h') && Frame(c, c', a) && CallsOk(h', c'.procs[a], a, |c.procs|)
    ensures AllCallsOk(c', h')
  {
    forall n | 0 <= n < |c'.procs| ensures CallsOk(h', c'.procs[n], n, |c'.procs|) {
      if n != a {
        CallsKept(h, h', c.procs[n], c'.procs[n], n, |c.procs|);
      }
    }
  }

  lemma RepliesKept(c: Cluster, h: Hist, c': Cluster, h': Hist)
    requires RepliesAcked(c, h) && LogInv(c, h) && Later(h, h')
    requires forall m | m in c'.msgs && m !in c.msgs :: ReplyAcked(h', m)
    ensures RepliesAcked(c', h')
  {
    forall m | m in c'.msgs ensures ReplyAcked(h', m) {
      if m in c.msgs {
        assert ReplyAcked(h, m) && MsgOk(h, m);
      }
    }
  }
}
