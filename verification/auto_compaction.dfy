/** The snapshots nodes take by themselves: when the log is long once entries were committed, and
    what is left of it then. */
module AutoCompaction {
  import opened RaftTypes
  import opened ElectionSafety
  import opened AppendOnly
  import opened Compaction
  import H = Handlers

  /** `n'` is `n` with a snapshot of all that is applied, saved before the log was cut. */
  predicate Compacted(n: Node, n': Node) {
    && n'.snapshot == Some(Snapshot(n.lastApplied, H.LogTerm(n, n.lastApplied), n.store))
    && n'.disk == Disk(n.term, n.votedFor, n'.log, n'.snapshot)
    && n'.id == n.id && n'.role == n.role && n'.term == n.term && n'.votedFor == n.votedFor
    && n'.leaderId == n.leaderId && n'.buffer == n.buffer
    && n'.lastApplied == n.lastApplied && n'.commitIndex == n.commitIndex && n'.store == n.store
    && |n'.nextIndex| == |n.nextIndex| && n'.matchIndex == n.matchIndex
    && (forall i | 0 <= i < |n.nextIndex| ::
          n'.nextIndex[i] == if n.nextIndex[i] > n.lastApplied then n.nextIndex[i] else n.lastApplied + 1)
  }

  /** The log is cut to exactly the entries behind the snapshot. */
  predicate CutTo(n: Node, full: Log) {
    && n.snapshot.Some? && 0 <= n.lastApplied < |full|
    && n.snapshot.value.lastIncludedIndex == n.lastApplied
    && n.snapshot.value.lastIncludedTerm == full[n.lastApplied].term && n.snapshot.value.kv == n.store
    && n.log == n.disk.log == full[n.lastApplied + 1..] && n.disk.snapshot == n.snapshot
    && forall i | 0 <= i < |n.nextIndex| :: n.nextIndex[i] > n.lastApplied
  }

  lemma CompactIs(n: Node)
    ensures Compacted(n, H.Compact(n))
  {}

  lemma CompactCuts(n: Node, full: Log)
    requires Represents(n, full) && Inside(n) && n.lastApplied >= 0
    ensures CutTo(H.Compact(n), full)
  {
    CompactRepresents(n, full);
    TermOfFull(n, full, n.lastApplied);
    ReadersSeeFull(n, full);
    CompactIs(n);
  }

  /** A node compacts by itself if and only if its log holds three thousand entries or more. */
  lemma CompactsIfLong(n: Node)
    ensures |n.log| >= 3000 ==> Compacted(n, H.CompactIfLong(n))
    ensures |n.log| < 3000 ==> H.CompactIfLong(n) == n
  {
    CompactIs(n);
  }

  /** The node with the entries of a request taken and its commits applied, before its length is
      looked at: log and snapshot, and what of the rest has moved. */
  lemma CoreKeeps(n: Node, a: AppendArgs, m: Node)
    requires a.term >= n.term && m == H.HandleAppendCore(n, a).0
    ensures var t := H.TakeEntries(H.StepDown(n, a), a);
      m.log == m.disk.log == t.log && m.snapshot == n.snapshot && m.disk.snapshot == n.disk.snapshot
  {
    var t := H.TakeEntries(H.StepDown(n, a), a);
    var target := H.CommitTarget(t, a.leaderCommit);
    ApplyKeeps(t.(commitIndex := target), target);
  }

  /** A follower that commits on a request takes a snapshot if and only if its log then holds three
      thousand entries or more; on any other request it takes none. */
  lemma AppendCompactsExactly(n: Node, a: AppendArgs, m: Node, n': Node)
    requires a.term >= n.term && m == H.HandleAppendCore(n, a).0 && n' == H.HandleAppend(n, a).0
    ensures H.HandleAppend(n, a).1.success && a.leaderCommit > n.commitIndex && |m.log| >= 3000 ==> Compacted(m, n')
    ensures !(H.HandleAppend(n, a).1.success && a.leaderCommit > n.commitIndex && |m.log| >= 3000) ==>
      n' == m && n'.snapshot == n.snapshot
  {
    CoreKeeps(n, a, m);
    CompactsIfLong(m);
  }

  /** Its log then holds exactly the entries behind what it applied, of the log it stood for. */
  lemma AppendCutsLog(n: Node, a: AppendArgs, m: Node, n': Node, full: Log)
    requires a.term >= n.term && m == H.HandleAppendCore(n, a).0 && n' == H.HandleAppend(n, a).0
    requires H.HandleAppend(n, a).1.success && a.leaderCommit > n.commitIndex && |m.log| >= 3000
    requires Represents(m, full) && Inside(m) && m.lastApplied >= 0
    ensures CutTo(n', full) && Represents(n', full)
  {
    CompactCuts(m, full);
    CompactRepresents(m, full);
  }

  /** A leader that commits does the same. */
  lemma CommitCompactsExactly(n: Node, index: int, full: Log, n': Node)
    requires n' == H.CommitClient(n, index) && Represents(n, full) && Inside(n)
    requires 0 <= n.lastApplied && index < |full|
    ensures n'.lastApplied == (if n.lastApplied < index then index else n.lastApplied) && n'.disk.log == n'.log
    ensures |n.log| >= 3000 ==> CutTo(n', full) && Represents(n', full)
    ensures |n.log| < 3000 ==> n'.snapshot == n.snapshot && n'.log == n.log && n'.nextIndex == n.nextIndex
  {
    var m := H.ApplyUpTo(n.(commitIndex := index), index);
    ApplyKeeps(n.(commitIndex := index), index);
    ApplyReaches(n.(commitIndex := index), index);
    ReadersSeeFull(n, full);
    if |n.log| >= 3000 {
      CompactCuts(m, full);
      CompactRepresents(m, full);
    }
  }
}
