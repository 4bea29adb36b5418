/** How far a follower may commit on a request. The handler bounds the commit index by the
    follower's own log, and not by what the request confirms of it. */
module Confirmation {
  import opened RaftTypes
  import opened Protocol
  import opened History
  import opened LogMatching
  import opened SuccessReply
  import H = Handlers

  /** The commit index a request sets. */
  function Target(n: Node, a: AppendArgs): int {
    H.CommitTarget(H.TakeEntries(H.StepDown(n, a), a), a.leaderCommit)
  }

  /** The request confirms the entry at `i`: it lies within what the check covers, it has the term of
      the entry that was sent, or it is of the sender's own term. */
  predicate Confirmed(log: Log, a: AppendArgs, i: int) {
    || i <= a.prevLogIndex
    || (0 <= i < |log|
        && (log[i].term == a.term
            || (a.prevLogIndex < i < End(a) && log[i].term == a.entries[i - a.prevLogIndex - 1].term)))
  }

  /** The handler commits nothing that the request does not confirm. */
  predicate CommitConfirmed(n: Node, a: AppendArgs) {
    H.Commits(n, a) ==> Confirmed(H.TakeEntries(H.StepDown(n, a), a).log, a, Target(n, a))
  }

  predicate Ordered(log: Log) {
    forall i, j | 0 <= i <= j < |log| :: log[i].term <= log[j].term
  }

  /** `lead` is a log from which the request can have come, as far as its receiver can tell: it holds
      what was sent and the entry the sender committed, and the two logs match. */
  predicate CouldSend(lead: Log, log: Log, a: AppendArgs) {
    && SentFrom(lead, a) && a.leaderCommit < |lead|
    && Indexed(lead) && Ordered(lead) && Within(lead, a.term) && Matched(lead, log)
    && forall i | 0 <= i < |log| && i < |lead| && log[i].term == a.term :: lead[i] == log[i]
  }

  lemma TargetOf(n: Node, a: AppendArgs)
    requires n.snapshot.None? && H.Commits(n, a)
    ensures H.TakeEntries(H.StepDown(n, a), a).log == TakenLog(n, a)
    ensures Target(n, a) == if a.leaderCommit < |TakenLog(n, a)| - 1 then a.leaderCommit else |TakenLog(n, a)| - 1
    ensures a.term >= n.term && H.PrevMatches(n, a.prevLogIndex, a.prevLogTerm)
  {}

  lemma SenderAgreesBefore(n: Node, a: AppendArgs, lead: Log)
    requires n.snapshot.None? && H.PrevMatches(n, a.prevLogIndex, a.prevLogTerm) && CouldSend(lead, n.log, a)
    ensures AgreesBefore(n.log, lead, a)
  {
    var i := a.prevLogIndex;
    if i >= 0 {
      assert lead[i].term == n.log[i].term;
    }
  }

  lemma AgreeAt(log: Log, lead: Log, i: nat)
    requires Matched(lead, log) && i < |log| && i < |lead| && log[i].term == lead[i].term
    ensures AgreeTo(log, lead, i + 1)
  {}

  /** Up to what is confirmed, every possible sender's log agrees with the follower's. */
  lemma ConfirmedAgrees(n: Node, a: AppendArgs, lead: Log, i: int)
    requires n.snapshot.None? && a.term >= n.term && H.PrevMatches(n, a.prevLogIndex, a.prevLogTerm)
    requires CouldSend(lead, n.log, a) && -1 <= i <= a.leaderCommit && i < |TakenLog(n, a)|
    requires Confirmed(TakenLog(n, a), a, i)
    ensures AgreeTo(TakenLog(n, a), lead, i + 1)
  {
    SenderAgreesBefore(n, a, lead);
    TakesFromLeader(n, lead, a);
    if TakenLog(n, a) == n.log {
      if i > a.prevLogIndex {
        AgreeAt(n.log, lead, i);
      } else {
        AgreeLess(n.log, lead, a.prevLogIndex + 1, i + 1);
      }
    } else {
      AgreeLess(TakenLog(n, a), lead, End(a), i + 1);
    }
  }

  /** The sender's log may as well go on with other entries behind the batch. */
  function Other(lead: Log, a: AppendArgs): Log
    requires 0 <= End(a) <= |lead| && End(a) <= a.leaderCommit + 1
  {
    lead[..End(a)] + seq(a.leaderCommit + 1 - End(a), i requires i >= 0 => Entry(a.term, End(a) + i, ""))
  }

  lemma EarlierTerm(log: Log, a: AppendArgs, i: nat, j: nat)
    requires Ordered(log) && Within(log, a.term) && i < |log| && log[i].term != a.term
    requires j < |log| && j <= a.leaderCommit && (i == a.leaderCommit || i == |log| - 1)
    ensures log[j].term < a.term
  {
    assert log[j].term <= log[i].term;
  }

  lemma OtherMatched(log: Log, a: AppendArgs, lead: Log, i: nat, j: nat)
    requires CouldSend(lead, log, a) && Ordered(log) && Within(log, a.term)
    requires End(a) <= i <= a.leaderCommit && i < |log| && (i == a.leaderCommit || i == |log| - 1)
    requires log[i].term != a.term
    requires j < |Other(lead, a)| && j < |log| && Other(lead, a)[j].term == log[j].term
    ensures j < End(a) && Other(lead, a)[..j + 1] == log[..j + 1]
  {
    EarlierTerm(log, a, i, j);
    assert lead[..j + 1] == log[..j + 1];
    assert Other(lead, a)[..j + 1] == lead[..j + 1];
  }

  lemma OtherCouldSend(log: Log, a: AppendArgs, lead: Log, i: nat)
    requires CouldSend(lead, log, a) && Ordered(log) && Within(log, a.term)
    requires End(a) <= i <= a.leaderCommit && i < |log| && (i == a.leaderCommit || i == |log| - 1)
    requires log[i].term != a.term
    ensures CouldSend(Other(lead, a), log, a) && Other(lead, a)[i].term != log[i].term
  {
    var o := Other(lead, a);
    forall j | 0 <= j < |o| && j < |log| && o[j].term == log[j].term ensures j < End(a) && o[..j + 1] == log[..j + 1] {
      OtherMatched(log, a, lead, i, j);
    }
    assert Matched(o, log) && SentFrom(o, a);
  }

  lemma DifferAt(log: Log, lead: Log, i: nat)
    requires i < |log| && i < |lead| && log[i] != lead[i]
    ensures !AgreeTo(log, lead, i + 1)
  {
    if i + 1 <= |log| && i + 1 <= |lead| {
      assert log[..i + 1][i] != lead[..i + 1][i];
    }
  }

  lemma UnconfirmedDiffers(n: Node, a: AppendArgs, lead: Log, i: int) returns (other: Log)
    requires n.snapshot.None? && a.term >= n.term && H.PrevMatches(n, a.prevLogIndex, a.prevLogTerm)
    requires CouldSend(lead, n.log, a) && Ordered(n.log) && Within(n.log, a.term)
    requires -1 <= i <= a.leaderCommit && i < |TakenLog(n, a)| && (i == a.leaderCommit || i == |TakenLog(n, a)| - 1)
    requires !Confirmed(TakenLog(n, a), a, i)
    ensures CouldSend(other, n.log, a) && !AgreeTo(TakenLog(n, a), other, i + 1)
  {
    SenderAgreesBefore(n, a, lead);
    TakesFromLeader(n, lead, a);
    var log := TakenLog(n, a);
    if i < End(a) {
      assert log != lead[..End(a)] by {
        assert lead[i] == a.entries[i - a.prevLogIndex - 1];
      }
      other := lead;
    } else {
      other := Other(lead, a);
      OtherCouldSend(n.log, a, lead, i);
    }
    DifferAt(log, other, i);
  }

  /** What a request makes a follower commit is the sender's, whatever log it can have come from, if
      and only if the request confirms the last entry committed. */
  lemma ConfirmedExactly(n: Node, a: AppendArgs, lead: Log)
    requires n.snapshot.None? && n.commitIndex >= -1 && H.Commits(n, a)
    requires Ordered(n.log) && Within(n.log, a.term) && CouldSend(lead, n.log, a)
    ensures CommitConfirmed(n, a) <==>
      forall other | CouldSend(other, n.log, a) :: AgreeTo(TakenLog(n, a), other, Target(n, a) + 1)
  {
    TargetOf(n, a);
    var i := Target(n, a);
    if Confirmed(TakenLog(n, a), a, i) {
      forall other | CouldSend(other, n.log, a) ensures AgreeTo(TakenLog(n, a), other, i + 1) {
        ConfirmedAgrees(n, a, other, i);
      }
    } else {
      var other := UnconfirmedDiffers(n, a, lead, i);
    }
  }

  // ---------- runs ----------

  lemma GoodOrdered(h: Hist, log: Log)
    requires Good(h, log) && forall t | t in h.terms :: RecOk(h, t)
    ensures Ordered(log)
  {
    forall i, j | 0 <= i <= j < |log| ensures log[i].term <= log[j].term {
      var t := log[j].term;
      assert GoodAt(h, log, j) && RecOk(h, t);
      assert h.terms[t].log[..j + 1][i] == log[..j + 1][i] == log[i];
    }
  }

  lemma GoodMatched(h: Hist, a: Log, b: Log)
    requires Good(h, a) && Good(h, b)
    ensures Matched(a, b)
  {
    forall i | 0 <= i < |a| && i < |b| && a[i].term == b[i].term ensures a[..i + 1] == b[..i + 1] {
      GoodLogsMatch(h, a, b, i);
    }
  }

  lemma OwnEntries(h: Hist, log: Log, term: nat, i: nat)
    requires Good(h, log) && term in h.terms && i < |log| && log[i].term == term
    ensures i < |h.terms[term].log| && h.terms[term].log[..i + 1] == log[..i + 1]
    ensures h.terms[term].log[i] == log[i]
  {
    assert GoodAt(h, log, i);
    assert h.terms[term].log[i] == h.terms[term].log[..i + 1][i] == log[..i + 1][i];
  }

  /** In a run without compaction the log of the request's term meets all that, if it reaches as far
      as the commit index sent. */
  lemma SenderCouldSend(r: seq<Cluster>, steps: seq<Step>, k: nat, m: Msg)
    requires IsRun(r, steps) && CompactionFree(r) && k < |steps| && steps[k] == Step.HandleAppend(m)
    requires m.AppReq? && m.dst < |r[k].procs| && m.append.term in HistoryOf(r, steps, k).terms
    requires m.append.leaderCommit < |HistoryOf(r, steps, k).terms[m.append.term].log|
    ensures var log := r[k].procs[m.dst].node.log;
      Ordered(log) && CouldSend(HistoryOf(r, steps, k).terms[m.append.term].log, log, m.append)
  {
    Received(r, steps, k, m);
    RunKeepsLogs(r, steps, k);
    var h, log, a := HistoryOf(r, steps, k), r[k].procs[m.dst].node.log, m.append;
    var lead := h.terms[a.term].log;
    GoodOrdered(h, log);
    GoodOrdered(h, lead);
    GoodIndexed(h, lead);
    GoodMatched(h, lead, log);
    forall i | 0 <= i < |log| && i < |lead| && log[i].term == a.term ensures lead[i] == log[i] {
      OwnEntries(h, log, a.term, i);
    }
    RecordWithin(h, a.term);
  }

  lemma RecordWithin(h: Hist, term: nat)
    requires term in h.terms && RecOk(h, term)
    ensures Within(h.terms[term].log, term)
  {
    var r := h.terms[term];
    forall i | 0 <= i < |r.log| ensures r.log[i].term <= term {
      if i < r.start {
        assert r.log[i].term < term;
      } else {
        assert r.log[i].term == term;
      }
    }
  }
}
