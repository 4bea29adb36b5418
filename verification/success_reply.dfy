/** What an AppendEntries success reply tells the leader about the follower's log, in runs
    without compaction. The batch is skipped as a whole when its first entry is present. */
module SuccessReply {
  import opened RaftTypes
  import opened Protocol
  import opened History
  import opened LogMatching
  import H = Handlers

  /** The index just past the last entry of a request. */
  function End(a: AppendArgs): int {
    a.prevLogIndex + 1 + |a.entries|
  }

  /** What tells, before the call, that a successful request leaves its last entry in place. */
  predicate CarriesThrough(log: Log, a: AppendArgs) {
    || a.entries == []
    || !H.Skips(log, a.prevLogIndex + 1, a.entries)
    || (0 < End(a) <= |log| && log[End(a) - 1].term == a.entries[|a.entries| - 1].term)
  }

  predicate AgreeTo(f: Log, lead: Log, end: int) {
    0 <= end <= |f| && end <= |lead| && f[..end] == lead[..end]
  }

  lemma AgreeLess(f: Log, lead: Log, end: int, less: int)
    requires AgreeTo(f, lead, end) && 0 <= less <= end
    ensures AgreeTo(f, lead, less)
  {
    assert f[..less] == f[..end][..less];
    assert lead[..less] == lead[..end][..less];
  }

  lemma AgreeLonger(f: Log, lead: Log, lead': Log, end: int)
    requires 0 <= end <= |lead| && end <= |lead'| && (lead <= lead' || lead' <= lead)
    ensures AgreeTo(f, lead, end) <==> AgreeTo(f, lead', end)
  {
    if lead <= lead' {
      assert lead'[..end] == lead[..end];
    } else {
      assert lead'[..end] == lead[..end];
    }
  }

  lemma SkippedBatch(h: Hist, n: Node, a: AppendArgs)
    requires Good(h, n.log) && a.term in h.terms && RecOk(h, a.term) && SentFrom(h.terms[a.term].log, a)
    requires H.Skips(n.log, a.prevLogIndex + 1, a.entries)
    ensures AgreeTo(n.log, h.terms[a.term].log, a.prevLogIndex + 2)
    ensures AgreeTo(n.log, h.terms[a.term].log, End(a)) <==> CarriesThrough(n.log, a)
  {
    var lead := h.terms[a.term].log;
    GoodLogsMatch(h, n.log, lead, a.prevLogIndex + 1);
    if CarriesThrough(n.log, a) {
      GoodLogsMatch(h, n.log, lead, End(a) - 1);
    }
    if AgreeTo(n.log, lead, End(a)) {
      assert n.log[End(a) - 1] == n.log[..End(a)][End(a) - 1] == lead[End(a) - 1];
    }
  }

  lemma TakenBatch(h: Hist, n: Node, a: AppendArgs)
    requires Good(h, n.log) && a.term in h.terms && RecOk(h, a.term) && SentFrom(h.terms[a.term].log, a)
    requires n.snapshot.None? && a.term >= n.term && H.PrevMatches(n, a.prevLogIndex, a.prevLogTerm)
    ensures var f, lead := TakenLog(n, a), h.terms[a.term].log;
      && AgreeTo(f, lead, a.prevLogIndex + 1)
      && (a.entries != [] ==> AgreeTo(f, lead, a.prevLogIndex + 2))
      && (AgreeTo(f, lead, End(a)) <==> CarriesThrough(n.log, a))
  {
    var lead := h.terms[a.term].log;
    CheckAgrees(h, n, a);
    if H.Skips(n.log, a.prevLogIndex + 1, a.entries) {
      SkippedBatch(h, n, a);
    } else if a.entries != [] {
      GoodIndexed(h, lead);
      TakesFromLeader(n, lead, a);
      AgreeLess(TakenLog(n, a), lead, End(a), a.prevLogIndex + 1);
      AgreeLess(TakenLog(n, a), lead, End(a), a.prevLogIndex + 2);
    }
  }

  /** The log a leader has at some moment of the run is its term's record, cut short or grown. */
  lemma LeadersLog(r: seq<Cluster>, steps: seq<Step>, i: nat, k: nat, b: nat, term: nat)
    requires IsRun(r, steps) && CompactionFree(r) && i <= |steps| && k <= |steps|
    requires Leads(r[i], b, term) && term in HistoryOf(r, steps, k).terms
    ensures var log, lead := HistoryOf(r, steps, k).terms[term].log, r[i].procs[b].node.log;
      log <= lead || lead <= log
  {
    RunKeepsLogs(r, steps, i);
    assert ProcOk(HistoryOf(r, steps, i), r[i].procs[b]);
    if i <= k {
      RunGrows(r, steps, i, k);
    } else {
      RunGrows(r, steps, k, i);
    }
  }

  lemma Received(r: seq<Cluster>, steps: seq<Step>, k: nat, m: Msg)
    requires IsRun(r, steps) && CompactionFree(r) && k < |steps| && steps[k] == Step.HandleAppend(m)
    ensures CanHandle(r[k], m) && m.AppReq? && m.dst < |r[k + 1].procs|
    ensures var n, a, h := r[k].procs[m.dst].node, m.append, HistoryOf(r, steps, k);
      && r[k + 1].procs[m.dst].node == H.HandleAppend(n, a).0
      && r[k + 1].procs[m.dst].node.log == TakenLog(n, a) && n.snapshot.None?
      && Good(h, n.log) && a.term in h.terms && RecOk(h, a.term) && SentFrom(h.terms[a.term].log, a)
      && (H.HandleAppend(n, a).1.success <==> a.term >= n.term && H.PrevMatches(n, a.prevLogIndex, a.prevLogTerm))
  {
    assert RunStep(r, steps, k);
    RunKeepsLogs(r, steps, k);
    assert NoSnapshots(r[k]) && NoSnapshots(r[k + 1]);
    var c, h := r[k], HistoryOf(r, steps, k);
    assert ProcOk(h, c.procs[m.dst]) && MsgOk(h, m) && RecOk(h, m.append.term);
    var n' := H.HandleAppend(c.procs[m.dst].node, m.append).0;
    assert r[k + 1].procs[m.dst].node == n';
    AppendTakesLog(c.procs[m.dst].node, m.append);
  }

  /** What a batch that was taken leaves, over a log `lead`; `carries` tells whether all of it. */
  predicate Leaves(f: Log, lead: Log, a: AppendArgs, carries: bool) {
    && AgreeTo(f, lead, a.prevLogIndex + 1)
    && (a.entries != [] ==> AgreeTo(f, lead, a.prevLogIndex + 2))
    && (AgreeTo(f, lead, End(a)) <==> carries)
  }

  lemma LeavesLonger(f: Log, log: Log, lead: Log, a: AppendArgs, carries: bool)
    requires Leaves(f, log, a, carries) && (log <= lead || lead <= log)
    requires -1 <= a.prevLogIndex && End(a) <= |log| && End(a) <= |lead|
    ensures Leaves(f, lead, a, carries)
  {
    AgreeLonger(f, lead, log, a.prevLogIndex + 1);
    AgreeLonger(f, lead, log, End(a));
    if a.entries != [] {
      AgreeLonger(f, lead, log, a.prevLogIndex + 2);
    }
  }

  /** What a handled request leaves, over the sender's log on record. */
  lemma TakenInRun(r: seq<Cluster>, steps: seq<Step>, k: nat, m: Msg, log: Log)
    requires IsRun(r, steps) && CompactionFree(r) && k < |steps| && steps[k] == Step.HandleAppend(m)
    requires m.AppReq? && m.dst < |r[k].procs| && H.HandleAppend(r[k].procs[m.dst].node, m.append).1.success
    requires m.append.term in HistoryOf(r, steps, k).terms && log == HistoryOf(r, steps, k).terms[m.append.term].log
    ensures m.dst < |r[k + 1].procs| && m.append.prevLogIndex >= -1 && End(m.append) <= |log|
    ensures Leaves(r[k + 1].procs[m.dst].node.log, log, m.append, CarriesThrough(r[k].procs[m.dst].node.log, m.append))
  {
    Received(r, steps, k, m);
    TakenBatch(HistoryOf(r, steps, k), r[k].procs[m.dst].node, m.append);
  }

  /** What a success reply guarantees. Let `lead` be the sender's log at any moment at which it
      leads the request's term and holds all that was sent. A follower that answers success
      agrees with it up to `prevLogIndex`, and one entry further if any were sent. It agrees
      up to the last entry sent if and only if, before the call, its log ended at or conflicted
      after `prevLogIndex`, or already held the last entry sent. */
  lemma SuccessGuarantees(r: seq<Cluster>, steps: seq<Step>, k: nat, m: Msg, i: nat, b: nat)
    requires IsRun(r, steps) && CompactionFree(r) && k < |steps| && steps[k] == Step.HandleAppend(m)
    requires m.AppReq? && m.dst < |r[k].procs| && H.HandleAppend(r[k].procs[m.dst].node, m.append).1.success
    requires i <= |steps| && Leads(r[i], b, m.append.term) && End(m.append) <= |r[i].procs[b].node.log|
    ensures m.dst < |r[k + 1].procs| && m.append.prevLogIndex >= -1
    ensures var a, f, lead := m.append, r[k + 1].procs[m.dst].node.log, r[i].procs[b].node.log;
      && AgreeTo(f, lead, a.prevLogIndex + 1)
      && (a.entries != [] ==> AgreeTo(f, lead, a.prevLogIndex + 2))
      && (AgreeTo(f, lead, End(a)) <==> CarriesThrough(r[k].procs[m.dst].node.log, a))
  {
    Received(r, steps, k, m);
    var a, log := m.append, HistoryOf(r, steps, k).terms[m.append.term].log;
    TakenInRun(r, steps, k, m, log);
    LeadersLog(r, steps, i, k, b, a.term);
    LeavesLonger(r[k + 1].procs[m.dst].node.log, log, r[i].procs[b].node.log, a,
                 CarriesThrough(r[k].procs[m.dst].node.log, a));
  }

  /** Success without the entries: a follower that holds the first of two entries sent answers
      success and still lacks the second. */
  lemma SuccessWithoutEntries(n: Node, command: string)
    requires n.term == 1 && n.role == Follower && n.snapshot.None? && n.log == [Entry(1, 0, command)]
    requires n.commitIndex == 0
    ensures var a := AppendArgs(1, 0, -1, 0, [Entry(1, 0, command), Entry(1, 1, command)], 0);
      && !CarriesThrough(n.log, a)
      && H.HandleAppend(n, a).1.success && H.HandleAppend(n, a).0.log == n.log
  {}
}
