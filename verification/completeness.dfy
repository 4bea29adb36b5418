/** Leader Completeness: an entry a leader commits is in the log of every leader of every later
    term, in runs without compaction in which no skipped batch held an entry that its receiver
    lacked. Nodes may crash and restart at any moment. */
module Completeness {
  import opened RaftTypes
  import opened Protocol
  import opened History
  import opened ElectionSafety
  import opened LogMatching
  import opened Ballots
  import opened Acknowledged
  import opened AckSteps
  import opened Quorums
  import Votes
  import H = Handlers

  ghost predicate RecsOk(h: Hist) {
    forall t | t in h.terms :: RecOk(h, t)
  }

  /** The last entry of a log has its highest term. */
  lemma LastTermHighest(h: Hist, log: Log, i: nat)
    requires RecsOk(h) && Good(h, log) && i < |log|
    ensures log[i].term <= H.LastLogTerm(log)
  {
    var t := log[|log| - 1].term;
    assert GoodAt(h, log, |log| - 1) && RecOk(h, t);
    assert log == log[..|log| - 1 + 1];
    assert log[i] == h.terms[t].log[i];
  }

  /** A log is, as a whole, a prefix of the log of the leader of its last entry's term. */
  lemma PrefixOfLast(h: Hist, log: Log)
    requires Good(h, log) && log != []
    ensures var t := log[|log| - 1].term;
      t in h.terms && log <= h.terms[t].log
  {
    assert GoodAt(h, log, |log| - 1);
    assert log == log[..|log| - 1 + 1];
  }

  lemma PrefixesNest(a: Log, b: Log, c: Log)
    requires a <= c && b <= c && |a| <= |b|
    ensures a <= b
  {}

  /** A log whose last entry is of term `w` goes beyond what that leader was elected with. */
  lemma BeyondElection(h: Hist, log: Log)
    requires RecsOk(h) && Good(h, log) && log != []
    ensures var w := log[|log| - 1].term;
      w in h.terms && ElectedLog(h.terms[w]) <= log
  {
    PrefixOfLast(h, log);
    var w := log[|log| - 1].term;
    assert RecOk(h, w);
    PrefixesNest(ElectedLog(h.terms[w]), log, h.terms[w].log);
  }

  /** Every leader elected after `term` and before `last` had the entry. */
  predicate NoneLacks(h: Hist, term: nat, i: nat, last: nat) {
    forall w | w in h.terms && term < w < last :: UpTo(h, term, i) <= ElectedLog(h.terms[w])
  }

  /** A log at least as up to date as one that holds the entry holds it as well. */
  lemma UpToDateHolds(h: Hist, k: Ack, mine: Log, voters: Log, last: nat)
    requires RecsOk(h) && AckRecorded(h, k) && Good(h, mine) && Good(h, voters)
    requires UpTo(h, k.term, k.index) <= voters
    requires H.UpToDate(|mine| - 1, H.LastLogTerm(mine), voters)
    requires forall j | 0 <= j < |mine| :: mine[j].term < last
    requires NoneLacks(h, k.term, k.index, last)
    ensures UpTo(h, k.term, k.index) <= mine
  {
    var shared := UpTo(h, k.term, k.index);
    assert RecOk(h, k.term);
    assert voters[k.index] == shared[k.index] == h.terms[k.term].log[k.index];
    LastTermHighest(h, voters, k.index);
    if H.LastLogTerm(mine) > H.LastLogTerm(voters) {
      BeyondElection(h, mine);
    } else {
      PrefixOfLast(h, mine);
      PrefixOfLast(h, voters);
      PrefixesNest(voters, mine, h.terms[mine[|mine| - 1].term].log);
    }
  }

  lemma HeldIfNoneLacks(h: Hist, k: Ack, log: Log, last: nat)
    requires Held(h, k, log, last - 1) && NoneLacks(h, k.term, k.index, last)
    ensures UpTo(h, k.term, k.index) <= log
  {
    assert forall w | w in h.terms :: !Lacks(h, w, k.term, k.index, last - 1);
  }

  lemma ElectedGood(h: Hist, term: nat)
    requires term in h.terms && RecOk(h, term)
    ensures Good(h, ElectedLog(h.terms[term]))
    ensures forall j | 0 <= j < |ElectedLog(h.terms[term])| :: ElectedLog(h.terms[term])[j].term < term
  {
    GoodPrefix(h, h.terms[term].log, h.terms[term].start);
  }

  /** One voter that acknowledged the entry is enough for the leader it elected to have it. */
  lemma VoterPassesOn(c: Cluster, h: Hist, k: Ack, term: nat)
    requires LogInv(c, h) && BallotInv(c, h) && AckInv(c, h) && k in h.acks
    requires term in h.terms && term > k.term && k.node in h.terms[term].voters
    requires NoneLacks(h, k.term, k.index, term)
    ensures UpTo(h, k.term, k.index) <= ElectedLog(h.terms[term])
  {
    var log := ElectedLog(h.terms[term]);
    assert AckOk(c, h, k);
    if k.node == h.terms[term].leader {
      assert AckLeadOk(h, k, term);
      HeldIfNoneLacks(h, k, log, term);
    } else {
      assert ElectedOk(h, term) && VoterOk(h, term, k.node);
      var voters := h.votes[(k.node, term)].log;
      assert AckVoteOk(h, k, term) && VoteOk(c, h, k.node, term) && RecOk(h, term);
      HeldIfNoneLacks(h, k, voters, term);
      ElectedGood(h, term);
      UpToDateHolds(h, k, log, voters, term);
    }
  }

  /** An entry that a majority acknowledged is in the log of every leader elected later. */
  lemma {:induction false} MajorityPassesOn(c: Cluster, h: Hist, term: nat, i: nat, q: set<nat>, later: nat)
    requires ElectionInv(c, h) && LogInv(c, h) && BallotInv(c, h) && AckInv(c, h)
    requires q <= Ids(|c.procs|) && 2 * |q| > |c.procs|
    requires forall x | x in q :: Ack(x, term, i) in h.acks
    requires later in h.terms && later > term
    ensures UpTo(h, term, i) <= ElectedLog(h.terms[later])
    decreases later
  {
    forall w | w in h.terms && term < w < later ensures UpTo(h, term, i) <= ElectedLog(h.terms[w]) {
      MajorityPassesOn(c, h, term, i, q, w);
    }
    assert TermOk(c, later, h.terms[later]);
    var x := QuorumsMeet(q, h.terms[later].voters, |c.procs|);
    VoterPassesOn(c, h, Ack(x, term, i), later);
  }

  // ---------- commits ----------

  lemma AskersQuorum(h: Hist, n: nat, term: nat, index: nat, size: nat, count: nat) returns (q: set<nat>)
    requires n < size && Ack(n, term, index) in h.acks && Majority(count, size)
    requires count <= 1 + |Askers(h, n, term, index, size - 1, size)|
    ensures q <= Ids(size) && 2 * |q| > size
    ensures forall x | x in q :: Ack(x, term, index) in h.acks
  {
    var askers := Askers(h, n, term, index, size - 1, size);
    q := askers + {n};
    assert |q| == |askers| + 1;
  }

  lemma CommittedEntry(c: Cluster, h: Hist, n: nat, index: int)
    requires ElectionInv(c, h) && LogInv(c, h) && AckInv(c, h) && CanCommit(c, n, index)
    ensures var node := c.procs[n].node;
      && 0 <= index < |node.log| && node.term in h.terms && h.terms[node.term].log == node.log
      && h.terms[node.term].start <= index
  {
    var p := c.procs[n];
    assert ProcOk(h, p) && LeaderRecorded(p.node, n, h) && CallOk(h, p, n, index, |c.procs|);
  }

  lemma CommitCount(c: Cluster, h: Hist, n: nat, index: nat)
    requires AllCallsOk(c, h) && CanCommit(c, n, index)
    ensures var count := c.procs[n].calls[index].successes;
      && Majority(count, |c.procs|)
      && count <= 1 + |Askers(h, n, c.procs[n].node.term, index, |c.procs| - 1, |c.procs|)|
  {
    assert CallOk(h, c.procs[n], n, index, |c.procs|);
  }

  /** What a leader counts before it commits are, with its own, acknowledgements of a majority. */
  lemma CountQuorum(c: Cluster, h: Hist, n: nat, index: nat, h': Hist) returns (q: set<nat>)
    requires AllCallsOk(c, h) && CanCommit(c, n, index) && h' == RecordCommit(h, c.procs[n].node, n, index)
    ensures q <= Ids(|c.procs|) && 2 * |q| > |c.procs|
    ensures forall x | x in q :: Ack(x, c.procs[n].node.term, index) in h'.acks
  {
    var term := c.procs[n].node.term;
    CommitCount(c, h, n, index);
    AskersGrow(h, h', n, term, index, |c.procs| - 1, |c.procs|);
    q := AskersQuorum(h', n, term, index, |c.procs|, c.procs[n].calls[index].successes);
  }

  lemma {:induction false} AcksGrow(r: seq<Cluster>, steps: seq<Step>, i: nat, j: nat)
    requires IsRun(r, steps) && i <= j <= |steps|
    ensures HistoryOf(r, steps, i).acks <= HistoryOf(r, steps, j).acks
    decreases j
  {
    if i < j {
      AcksGrow(r, steps, i, j - 1);
      assert RunStep(r, steps, j - 1);
    }
  }

  lemma RunKeepsAll(r: seq<Cluster>, steps: seq<Step>, k: nat)
    requires IsRun(r, steps) && CompactionFree(r) && NothingLost(r, steps) && k <= |steps|
    ensures var c, h := r[k], HistoryOf(r, steps, k);
      ElectionInv(c, h) && LogInv(c, h) && BallotInv(c, h) && AckInv(c, h) && NoSnapshots(c)
  {
    RunKeeps(r, steps, k);
    RunKeepsLogs(r, steps, k);
    RunKeepsBallots(r, steps, k);
    RunKeepsAcks(r, steps, k);
  }

  lemma ElectedStays(r: seq<Cluster>, steps: seq<Step>, j: nat, b: nat, term: nat, last: nat)
    requires IsRun(r, steps) && CompactionFree(r) && j <= last <= |steps| && Leads(r[j], b, term)
    ensures var h := HistoryOf(r, steps, last);
      term in h.terms && ElectedLog(h.terms[term]) <= r[j].procs[b].node.log
  {
    var h, h' := HistoryOf(r, steps, j), HistoryOf(r, steps, last);
    RunKeepsLogs(r, steps, j);
    RunGrows(r, steps, j, last);
    assert ProcOk(h, r[j].procs[b]) && RecOk(h, term);
    ElectedLogKept(h, h', term);
  }

  /** A commit step has a majority of acknowledgements behind it. */
  lemma CommitQuorum(r: seq<Cluster>, steps: seq<Step>, k: nat, n: nat, index: int) returns (q: set<nat>)
    requires IsRun(r, steps) && CompactionFree(r) && NothingLost(r, steps)
    requires k < |steps| && steps[k] == CallCommit(n, index) && n < |r[k].procs|
    ensures var node, h := r[k].procs[n].node, HistoryOf(r, steps, k + 1);
      && 0 <= index < |node.log| && node.term in h.terms && h.terms[node.term].log == node.log
      && q <= Ids(|r[k].procs|) && 2 * |q| > |r[k].procs|
      && forall x | x in q :: Ack(x, node.term, index) in h.acks
  {
    var h, h' := HistoryOf(r, steps, k), HistoryOf(r, steps, k + 1);
    assert CanCommit(r[k], n, index) && h' == RecordCommit(h, r[k].procs[n].node, n, index) by {
      assert RunStep(r, steps, k);
    }
    RunKeepsAll(r, steps, k);
    CommittedEntry(r[k], h, n, index);
    q := CountQuorum(r[k], h, n, index, h');
  }

  lemma AckedPassesOn(r: seq<Cluster>, steps: seq<Step>, k: nat, term: nat, i: nat, q: set<nat>, last: nat, later: nat)
    requires IsRun(r, steps) && CompactionFree(r) && NothingLost(r, steps) && k <= last <= |steps|
    requires q <= Ids(|r[k].procs|) && 2 * |q| > |r[k].procs|
    requires forall x | x in q :: Ack(x, term, i) in HistoryOf(r, steps, k).acks
    requires later in HistoryOf(r, steps, last).terms && later > term
    ensures var h := HistoryOf(r, steps, last); UpTo(h, term, i) <= ElectedLog(h.terms[later])
  {
    AcksGrow(r, steps, k, last);
    RunKeepsAll(r, steps, last);
    Votes.SameSize(r, steps, k);
    Votes.SameSize(r, steps, last);
    MajorityPassesOn(r[last], HistoryOf(r, steps, last), term, i, q, later);
  }

  /** Leader Completeness: when a leader commits the entry at `index` in step `k`, its log up to
      and with that entry is a prefix of the log of every node that leads a later term at any
      moment of the run, before or after. */
  lemma LeaderCompleteness(r: seq<Cluster>, steps: seq<Step>, k: nat, n: nat, index: int, j: nat, b: nat, later: nat)
    requires IsRun(r, steps) && CompactionFree(r) && NothingLost(r, steps)
    requires k < |steps| && steps[k] == CallCommit(n, index)
    requires j <= |steps| && Leads(r[j], b, later)
    requires n < |r[k].procs| && later > r[k].procs[n].node.term
    ensures 0 <= index < |r[k].procs[n].node.log|
    ensures r[k].procs[n].node.log[..index + 1] <= r[j].procs[b].node.log
  {
    var last := if j <= k then k + 1 else j;
    var h, term := HistoryOf(r, steps, last), r[k].procs[n].node.term;
    var q := CommitQuorum(r, steps, k, n, index);
    RunGrows(r, steps, k + 1, last);
    UpToKept(HistoryOf(r, steps, k + 1), h, term, index);
    ElectedStays(r, steps, j, b, later, last);
    Votes.SameSize(r, steps, k);
    Votes.SameSize(r, steps, k + 1);
    AckedPassesOn(r, steps, k + 1, term, index, q, last, later);
  }
}
