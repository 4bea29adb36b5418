/** Compaction: a snapshot and the suffix behind it stand for one uncompacted log. */
module Compaction {
  import opened RaftTypes
  import opened ElectionSafety
  import opened ApplyOrder
  import H = Handlers

  /** `n`'s snapshot and log stand for the log `full`. */
  predicate Represents(n: Node, full: Log) {
    && 0 <= H.Base(n) <= |full| && n.log == full[H.Base(n)..]
    && (n.snapshot.Some? ==> H.Base(n) >= 1 && full[H.Base(n) - 1].term == n.snapshot.value.lastIncludedTerm)
  }

  function TermAt(full: Log, i: int): int {
    if 0 <= i < |full| then full[i].term else 0
  }

  /** `full` from `a` up to `b`, cut to what there is. */
  function Stretch(full: Log, a: int, b: int): Log {
    var from := if a < 0 then 0 else a;
    var end := if |full| < b then |full| else b;
    if from >= end then [] else full[from..end]
  }

  lemma SuffixSlice(full: Log, base: nat, a: int, b: int)
    requires base <= a < b <= |full|
    ensures full[base..][a - base..b - base] == full[a..b]
  {}

  lemma EntriesOfFull(n: Node, full: Log, a: int, b: int)
    requires Represents(n, full) && a >= H.Base(n)
    ensures H.LogEntries(n, a, b) == Stretch(full, a, b)
  {
    var end := if |full| < b then |full| else b;
    if a < end {
      SuffixSlice(full, H.Base(n), a, end);
    }
  }

  lemma TermOfFull(n: Node, full: Log, i: int)
    requires Represents(n, full) && i >= H.Base(n) - 1
    ensures H.LogTerm(n, i) == TermAt(full, i)
  {
    if H.Base(n) <= i < |full| {
      assert n.log[i - H.Base(n)] == full[i];
    }
  }

  /** What readers of the compacted log see is the uncompacted one: its size, its terms from the
      snapshot's last entry on, and its entries behind the snapshot. */
  lemma ReadersSeeFull(n: Node, full: Log)
    requires Represents(n, full)
    ensures H.LogSize(n) == |full|
    ensures forall i | i >= H.Base(n) - 1 :: H.LogTerm(n, i) == TermAt(full, i)
    ensures forall a, b | a >= H.Base(n) :: H.LogEntries(n, a, b) == Stretch(full, a, b)
  {
    forall i | i >= H.Base(n) - 1 ensures H.LogTerm(n, i) == TermAt(full, i) {
      TermOfFull(n, full, i);
    }
    forall a, b | a >= H.Base(n) ensures H.LogEntries(n, a, b) == Stretch(full, a, b) {
      EntriesOfFull(n, full, a, b);
    }
  }

  // ---------- taking a snapshot ----------

  /** What was applied lies inside the log or is the snapshot's last entry. */
  predicate Inside(n: Node) {
    H.Base(n) - 1 <= n.lastApplied < H.LogSize(n)
  }

  lemma CutRepresents(n: Node, full: Log)
    requires Represents(n, full) && Inside(n) && n.lastApplied >= 0
    ensures H.TruncatedLog(n, n.lastApplied) == full[n.lastApplied + 1..]
  {
    var at := n.lastApplied + 1 - H.Base(n);
    assert n.log[at..] == full[n.lastApplied + 1..];
  }

  /** A snapshot leaves the log it stands for as it is. */
  lemma CompactRepresents(n: Node, full: Log)
    requires Represents(n, full) && Inside(n) && n.lastApplied >= 0
    ensures Represents(H.Compact(n), full)
  {
    CutRepresents(n, full);
    TermOfFull(n, full, n.lastApplied);
  }

  /** A crash after the snapshot is saved and before the cut log is: the restart pairs the new
      snapshot with the log as it was. The log then reads as longer by the entries the snapshot newly
      covers, which is harmless if and only if there are none. */
  lemma CrashBetweenSaves(n: Node, full: Log, replayed: KV)
    requires Represents(n, full) && Inside(n) && n.lastApplied >= 0 && n.disk.log == n.log
    ensures var m := H.Restart(n.(disk := n.disk.(snapshot := H.Compact(n).snapshot)), replayed);
      && H.LogSize(m) == |full| + (n.lastApplied + 1 - H.Base(n))
      && (Represents(m, full) <==> n.lastApplied == H.Base(n) - 1)
  {
    TermOfFull(n, full, n.lastApplied);
  }

  /** Readers behind `last` cannot tell the two nodes apart. */
  ghost predicate SameReads(n: Node, n': Node, last: int) {
    && H.LogSize(n') == H.LogSize(n)
    && (forall i | i >= last :: H.LogTerm(n', i) == H.LogTerm(n, i))
    && (forall a, b | a > last :: H.LogEntries(n', a, b) == H.LogEntries(n, a, b))
  }

  lemma CutAt(n: Node)
    requires Inside(n)
    ensures var at := n.lastApplied + 1 - H.Base(n);
      0 <= at <= |n.log| && H.Compact(n).log == n.log[at..]
  {
    assert n.log[0..] == n.log;
  }

  lemma CutTerm(n: Node, n': Node, at: nat, i: int)
    requires at <= |n.log| && n'.log == n.log[at..] && H.Base(n') == H.Base(n) + at
    requires n'.snapshot.Some? && n'.snapshot.value.lastIncludedTerm == H.LogTerm(n, H.Base(n') - 1)
    requires i >= H.Base(n') - 1
    ensures H.LogTerm(n', i) == H.LogTerm(n, i)
  {
    if H.Base(n') <= i < H.LogSize(n) {
      assert n'.log[i - H.Base(n')] == n.log[i - H.Base(n)];
    }
  }

  lemma CutReads(n: Node)
    requires Inside(n)
    ensures SameReads(n, H.Compact(n), n.lastApplied)
  {
    var at, last := n.lastApplied + 1 - H.Base(n), n.lastApplied;
    CutAt(n);
    forall i | i >= last ensures H.LogTerm(H.Compact(n), i) == H.LogTerm(n, i) {
      CutTerm(n, H.Compact(n), at, i);
    }
    forall a, b | a > last ensures H.LogEntries(H.Compact(n), a, b) == H.LogEntries(n, a, b) {
      CutEntries(n, H.Compact(n), at, a, b);
    }
  }

  lemma CutEntries(n: Node, n': Node, at: nat, a: int, b: int)
    requires at <= |n.log| && n'.log == n.log[at..] && H.Base(n') == H.Base(n) + at && a >= H.Base(n')
    ensures H.LogEntries(n', a, b) == H.LogEntries(n, a, b)
  {
    var from := a - H.Base(n);
    var end := if |n.log| < b - H.Base(n) then |n.log| else b - H.Base(n);
    if from < end {
      SuffixSlice(n.log, at, from, end);
    }
  }

  /** Compaction is invisible to readers behind the snapshot if and only if what was applied lies
      inside the log when the snapshot is taken. */
  lemma CompactionInvisible(n: Node)
    ensures SameReads(n, H.Compact(n), n.lastApplied) <==> Inside(n)
  {
    if Inside(n) {
      CutReads(n);
    } else {
      assert H.LogSize(H.Compact(n)) != H.LogSize(n);
    }
  }

  // ---------- the prefix erase and the index filter ----------

  /** The entries behind `last`, by their own index. */
  function EntriesAfter(log: Log, last: int): Log {
    if log == [] then []
    else
      var k := |log| - 1;
      EntriesAfter(log[..k], last) + if log[k].index > last then [log[k]] else []
  }

  method TruncateLog(last: int, log: Log) returns (newLog: Log)
    ensures newLog == EntriesAfter(log, last)
  {
    newLog := [];
    for i := 0 to |log|
      invariant newLog == EntriesAfter(log[..i], last)
    {
      assert log[..i + 1][..i] == log[..i];
      if log[i].index > last {
        newLog := newLog + [log[i]];
      }
    }
    assert log[..|log|] == log;
  }

  predicate AlignedAt(log: Log, base: int) {
    forall k | 0 <= k < |log| :: log[k].index == base + k
  }

  /** Every entry of the log carries its global index. */
  predicate Aligned(n: Node) {
    AlignedAt(n.log, H.Base(n))
  }

  function Suffix(log: Log, at: int): Log {
    if at <= 0 then log else if at <= |log| then log[at..] else []
  }

  lemma SuffixOfSnoc(log: Log, at: int)
    requires log != []
    ensures var k := |log| - 1;
      Suffix(log, at) == Suffix(log[..k], at) + if at <= k then [log[k]] else []
  {}

  lemma {:induction false} AfterIsSuffix(log: Log, base: int, last: int)
    requires AlignedAt(log, base)
    ensures EntriesAfter(log, last) == Suffix(log, last - base + 1)
  {
    if log != [] {
      AfterIsSuffix(log[..|log| - 1], base, last);
      SuffixOfSnoc(log, last - base + 1);
    }
  }

  /** The arithmetic erase agrees with the filter by index exactly when there is nothing to erase
      or the cut lies inside the log; beyond its end it erases nothing. */
  lemma EraseIsFilter(n: Node, last: int)
    requires Aligned(n)
    ensures H.TruncatedLog(n, last) == EntriesAfter(n.log, last) <==> n.log == [] || last < H.LogSize(n)
  {
    AfterIsSuffix(n.log, H.Base(n), last);
  }

  // ---------- AppendEntries on the suffix and on the whole log ----------

  /** The same node with nothing compacted. */
  predicate Uncompacted(n: Node, f: Node) {
    && Represents(n, f.log) && f == n.(snapshot := None, log := f.log, disk := f.disk)
    && f.disk.term == n.disk.term && f.disk.votedFor == n.disk.votedFor
  }

  lemma CheckSame(n: Node, f: Node, prevIndex: int, prevTerm: int)
    requires Uncompacted(n, f) && prevIndex >= H.Base(n) - 1
    ensures H.PrevMatches(n, prevIndex, prevTerm) <==> H.PrevMatches(f, prevIndex, prevTerm)
    ensures H.PrevMatches(n, prevIndex, prevTerm) ==> prevIndex < |f.log|
  {
    if H.Base(n) <= prevIndex < |f.log| {
      assert n.log[prevIndex - H.Base(n)] == f.log[prevIndex];
    }
  }

  lemma {:induction false} PushSame(log: Log, base: nat, head: Log, entries: Log)
    requires |head| == base
    ensures H.PushMissing(head + log, 0, entries) == head + H.PushMissing(log, base, entries)
    decreases |entries|
  {
    if entries != [] {
      var e := entries[0];
      if e.index - base >= |log| {
        assert head + log + [e] == head + (log + [e]);
        PushSame(log + [e], base, head, entries[1..]);
      } else {
        PushSame(log, base, head, entries[1..]);
      }
    }
  }

  /** Skipping, erasing and appending on the suffix is doing so on the whole. */
  lemma InsertSame(full: Log, base: nat, at: nat, entries: Log)
    requires base <= |full| && at <= |full| - base
    ensures H.Inserted(full, 0, base + at, entries) == full[..base] + H.Inserted(full[base..], base, at, entries)
  {
    var head, log := full[..base], full[base..];
    assert full == head + log;
    if entries != [] && !H.Skips(log, at, entries) {
      if at < |log| {
        assert full[..base + at] == head + log[..at];
        PushSame(log[..at], base, head, entries);
      } else {
        PushSame(log, base, head, entries);
      }
    }
  }

  lemma RepresentsInserted(n: Node, f: Node, log: Log)
    requires Uncompacted(n, f)
    ensures Uncompacted(n.(log := log), f.(log := f.log[..H.Base(n)] + log))
  {
    assert (f.log[..H.Base(n)] + log)[H.Base(n)..] == log;
  }

  lemma TakeSame(n: Node, f: Node, a: AppendArgs)
    requires Uncompacted(n, f) && a.prevLogIndex >= H.Base(n) - 1
    ensures Uncompacted(H.TakeEntries(n, a), H.TakeEntries(f, a))
  {
    CheckSame(n, f, a.prevLogIndex, a.prevLogTerm);
    if H.PrevMatches(n, a.prevLogIndex, a.prevLogTerm) {
      var at := a.prevLogIndex + 1 - H.Base(n);
      InsertSame(f.log, H.Base(n), at, a.entries);
      RepresentsInserted(n, f, H.Inserted(n.log, H.Base(n), at, a.entries));
    }
  }

  lemma ReadSame(n: Node, f: Node, index: int)
    requires Uncompacted(n, f) && index >= H.Base(n)
    ensures ReadAt(n, index) == ReadAt(f, index)
  {
    if index < |f.log| {
      assert n.log[index - H.Base(n)] == f.log[index];
    }
  }

  lemma ApplyOneSame(n: Node, f: Node)
    requires Uncompacted(n, f) && n.lastApplied + 1 >= H.Base(n)
    ensures Uncompacted(H.ApplyOne(n), H.ApplyOne(f))
  {
    ReadSame(n, f, n.lastApplied + 1);
  }

  lemma {:induction false} ApplySame(n: Node, f: Node, target: int)
    requires Uncompacted(n, f) && n.lastApplied + 1 >= H.Base(n)
    ensures Uncompacted(H.ApplyUpTo(n, target), H.ApplyUpTo(f, target))
    decreases target - n.lastApplied
  {
    if n.lastApplied < target {
      ApplyOneSame(n, f);
      ApplySame(H.ApplyOne(n), H.ApplyOne(f), target);
    }
  }

  lemma {:induction false} TraceSame(n: Node, f: Node, target: int)
    requires Uncompacted(n, f) && n.lastApplied + 1 >= H.Base(n)
    ensures ApplyTrace(n, target) == ApplyTrace(f, target)
    decreases target - n.lastApplied
  {
    if n.lastApplied < target {
      ReadSame(n, f, n.lastApplied + 1);
      TraceSame(n.(lastApplied := n.lastApplied + 1), f.(lastApplied := f.lastApplied + 1), target);
    }
  }

  lemma StepDownSame(n: Node, f: Node, a: AppendArgs)
    requires Uncompacted(n, f)
    ensures Uncompacted(H.StepDown(n, a), H.StepDown(f, a))
  {}

  lemma AdvanceSame(n: Node, f: Node, leaderCommit: int)
    requires Uncompacted(n, f) && n.lastApplied + 1 >= H.Base(n)
    ensures H.CommitTarget(n, leaderCommit) == H.CommitTarget(f, leaderCommit)
    ensures Uncompacted(H.AdvanceCommit(n, leaderCommit), H.AdvanceCommit(f, leaderCommit))
  {
    var target := H.CommitTarget(n, leaderCommit);
    ApplySame(n.(commitIndex := target), f.(commitIndex := target), target);
  }

  lemma FinishSame(n: Node, f: Node, a: AppendArgs)
    requires Uncompacted(n, f) && n.lastApplied + 1 >= H.Base(n) && a.prevLogIndex >= H.Base(n) - 1
    ensures Uncompacted(H.FinishAppend(n, a), H.FinishAppend(f, a))
  {
    CheckSame(n, f, a.prevLogIndex, a.prevLogTerm);
    TakeSame(n, f, a);
    AdvanceSame(H.TakeEntries(n, a), H.TakeEntries(f, a), a.leaderCommit);
  }

  lemma FollowerTraceSame(n: Node, f: Node, a: AppendArgs)
    requires Uncompacted(n, f) && n.lastApplied + 1 >= H.Base(n) && a.prevLogIndex >= H.Base(n) - 1
    ensures FollowerTrace(n, a) == FollowerTrace(f, a)
  {
    var d, e := H.StepDown(n, a), H.StepDown(f, a);
    StepDownSame(n, f, a);
    TakeSame(d, e, a);
    var t, u := H.TakeEntries(d, a), H.TakeEntries(e, a);
    AdvanceSame(t, u, a.leaderCommit);
    TraceSame(t, u, H.CommitTarget(t, a.leaderCommit));
  }

  /** Compaction refinement of AppendEntries: for every snapshot and every request that starts no
      earlier than the snapshot's last entry, the handler on the suffix does what it does on the
      whole log: the same reply, the same term, vote, commit index and store, the same entries
      applied in the same order, and a suffix that stands for the resulting whole log. */
  lemma CompactionRefines(n: Node, f: Node, a: AppendArgs)
    requires Uncompacted(n, f) && n.lastApplied + 1 >= H.Base(n) && a.prevLogIndex >= H.Base(n) - 1
    ensures var (n', r), (f', q) := H.HandleAppendCore(n, a), H.HandleAppendCore(f, a);
      r == q && Uncompacted(n', f') && n'.snapshot == n.snapshot
    ensures H.Commits(n, a) == H.Commits(f, a) && FollowerTrace(n, a) == FollowerTrace(f, a)
  {
    var d, e := H.StepDown(n, a), H.StepDown(f, a);
    StepDownSame(n, f, a);
    CheckSame(d, e, a.prevLogIndex, a.prevLogTerm);
    FinishSame(d, e, a);
    FinishKeepsSnapshot(d, a);
    FollowerTraceSame(n, f, a);
  }

  lemma FinishKeepsSnapshot(d: Node, a: AppendArgs)
    ensures H.FinishAppend(d, a).snapshot == d.snapshot && H.FinishAppend(d, a).log == H.TakeEntries(d, a).log
  {
    var t := H.TakeEntries(d, a);
    ApplyKeeps(t.(commitIndex := H.CommitTarget(t, a.leaderCommit)), H.CommitTarget(t, a.leaderCommit));
  }

  // ---------- indices stay aligned ----------

  lemma {:induction false} PushAligned(log: Log, base: int, entries: Log, first: int)
    requires AlignedAt(log, base) && AlignedAt(entries, first) && first <= base + |log|
    ensures AlignedAt(H.PushMissing(log, base, entries), base)
    decreases |entries|
  {
    if entries != [] {
      var e := entries[0];
      PushAligned(if e.index - base >= |log| then log + [e] else log, base, entries[1..], first + 1);
    }
  }

  /** A request whose entries carry consecutive indices keeps every entry at its own index behind
      the snapshot. */
  lemma AlignedKept(n: Node, a: AppendArgs)
    requires Aligned(n) && AlignedAt(a.entries, a.prevLogIndex + 1)
    requires H.Base(n) >= 0 && a.prevLogIndex >= H.Base(n) - 1
    ensures Aligned(H.HandleAppendCore(n, a).0)
  {
    var d := H.StepDown(n, a);
    FinishKeepsSnapshot(d, a);
    if a.term >= n.term && H.PrevMatches(d, a.prevLogIndex, a.prevLogTerm) {
      var base := H.Base(n);
      var at := a.prevLogIndex + 1 - base;
      PushAligned(if at < |n.log| then n.log[..at] else n.log, base, a.entries, a.prevLogIndex + 1);
    }
  }

  // ---------- where the refinement ends ----------

  /** A request that starts before the snapshot's last entry is turned down, whatever the whole
      log would say. */
  lemma BehindSnapshotRejected(n: Node, a: AppendArgs)
    requires n.snapshot.Some? && 0 <= a.prevLogIndex < H.Base(n) - 1 && a.term >= n.term
    ensures var (n', r) := H.HandleAppendCore(n, a); !r.success && n'.log == n.log
  {}

  lemma PushOne(log: Log, base: int, e: Entry)
    ensures H.PushMissing(log, base, [e]) == if e.index - base >= |log| then log + [e] else log
  {
    assert [e][1..] == [];
    assert H.PushMissing(log + [e], base, []) == log + [e] && H.PushMissing(log, base, []) == log;
  }

  /** A request from the very start passes unchecked: a snapshot hides the conflict that the whole
      log would have resolved, and the same request leaves different logs. */
  lemma FromStartDiffers(n: Node, f: Node, stored: Entry, sent: Entry)
    requires n.snapshot.Some? && H.Base(n) == 1 && f.log == [stored] && Uncompacted(n, f)
    requires stored.term != sent.term && sent.index == 0 && n.commitIndex >= 0
    ensures var a := AppendArgs(n.term, 0, -1, 0, [sent], 0);
      && H.HandleAppendCore(f, a).0.log == [sent]
      && H.HandleAppendCore(n, a).0.log == []
      && !Uncompacted(H.HandleAppendCore(n, a).0, H.HandleAppendCore(f, a).0)
  {
    var a := AppendArgs(n.term, 0, -1, 0, [sent], 0);
    PushOne([], 0, sent);
    PushOne([], 1, sent);
    assert f.log[..0] == [] && n.log == [];
    assert H.Inserted(f.log, 0, 0, [sent]) == [sent];
    assert H.Inserted(n.log, 1, -1, [sent]) == [];
    FinishKeepsSnapshot(H.StepDown(n, a), a);
    FinishKeepsSnapshot(H.StepDown(f, a), a);
  }
}
