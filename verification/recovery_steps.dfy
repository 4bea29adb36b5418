/** The recovery machine is what a node's own steps do: applying an entry, taking a snapshot and
    restarting, for a node whose snapshot and log stand for one log. */
module RecoverySteps {
  import opened RaftTypes
  import opened Recovery
  import opened Compaction
  import Commands
  import H = Handlers

  function Texts(full: Log): seq<string> {
    seq(|full|, i requires 0 <= i < |full| => full[i].command)
  }

  /** `s` is what node `n` amounts to for recovery. Its saved log is the one in memory. */
  predicate Tracks(n: Node, s: State, full: Log) {
    && Represents(n, full) && Inside(n) && n.disk.log == n.log && n.disk.snapshot == n.snapshot
    && n.lastApplied == s.applied && n.store == s.store
    && (n.snapshot.None? <==> s.snapshot.None?)
    && (n.snapshot.Some? ==>
          s.snapshot.value.index == n.snapshot.value.lastIncludedIndex && s.snapshot.value.kv == n.snapshot.value.kv)
  }

  lemma CommandOfFull(n: Node, full: Log, i: int)
    requires Represents(n, full) && H.Base(n) <= i < |full|
    ensures H.CommandAt(n, i) == Some(full[i].command)
  {
    assert n.log[i - H.Base(n)] == full[i];
  }

  lemma AppliedNode(n: Node, full: Log, i: int, c: Change)
    requires Represents(n, full) && n.lastApplied + 1 == i && H.Base(n) <= i < |full| && c == ChangeOf(full[i].command)
    ensures H.ApplyOne(n) == n.(lastApplied := i, store := Perform(n.store, c))
  {
    CommandOfFull(n, full, i);
    ExecPerforms(n.store, full[i].command);
  }

  lemma ChangeAt(full: Log, i: nat)
    requires i < |full|
    ensures |Changes(Texts(full))| == |full| && Changes(Texts(full))[i] == ChangeOf(full[i].command)
  {}

  lemma StillTracks(n: Node, s: State, full: Log, n': Node, s': State, i: nat, m: map<string, string>)
    requires Tracks(n, s, full) && n.lastApplied <= i < |full|
    requires n' == n.(lastApplied := i, store := m)
    requires s'.applied == i && s'.store == m && s'.snapshot == s.snapshot
    ensures Tracks(n', s', full)
  {}

  /** The next entry is applied; `c` is its change and `m` the map it leaves. */
  lemma ApplyTracks(n: Node, s: State, full: Log, n': Node, s': State, i: nat, c: Change, m: map<string, string>)
    requires Tracks(n, s, full) && i == s.applied + 1 < |full| && c == ChangeOf(full[i].command)
    requires m == Perform(n.store, c) && n' == n.(lastApplied := i, store := m)
    requires s' == Applied(Changes(Texts(full)), s)
    ensures Tracks(n', s', full)
  {
    ChangeAt(full, i);
    StillTracks(n, s, full, n', s', i, m);
  }

  lemma ApplyOneTracks(n: Node, s: State, full: Log, i: nat, c: Change)
    requires Tracks(n, s, full) && i == s.applied + 1 < |full| && c == ChangeOf(full[i].command)
    ensures Tracks(H.ApplyOne(n), Applied(Changes(Texts(full)), s), full)
  {
    AppliedNode(n, full, i, c);
    ApplyTracks(n, s, full, H.ApplyOne(n), Applied(Changes(Texts(full)), s), i, c, Perform(n.store, c));
  }

  lemma CompactTracks(n: Node, s: State, full: Log, rest: seq<Change>)
    requires Tracks(n, s, full)
    ensures Tracks(H.Compact(n), Compacted(s, rest), full)
  {
    CompactRepresents(n, full);
  }

  /** Without a snapshot the restarted store is what the write-ahead log replays to. */
  lemma RestartTracks(n: Node, s: State, full: Log)
    requires Tracks(n, s, full) && full != []
    ensures Tracks(H.Restart(n, Replayed(s.wal)), Restarted(s), full)
  {}

  function ApplyNext(n: Node): Node {
    if n.lastApplied + 1 < H.LogSize(n) then H.ApplyOne(n) else n
  }

  lemma ApplyNextTracks(n: Node, s: State, full: Log, n': Node, s': State)
    requires Tracks(n, s, full) && n' == ApplyNext(n) && s' == Applied(Changes(Texts(full)), s)
    ensures Tracks(n', s', full)
  {
    if n.lastApplied + 1 < |full| {
      ApplyOneTracks(n, s, full, s.applied + 1, ChangeOf(full[s.applied + 1].command));
    }
  }

  /** The node's own step for an event; `s` holds its write-ahead log. */
  function NodeNext(n: Node, s: State, e: Event): Node {
    match e
    case Apply => ApplyNext(n)
    case Compact(rest) => H.Compact(n)
    case Crash => H.Restart(n, Replayed(s.wal))
  }

  function NodeRun(n: Node, log: seq<Change>, es: seq<Event>): Node {
    if es == [] then n
    else
      var k := |es| - 1;
      NodeNext(NodeRun(n, log, es[..k]), Run(log, es[..k]), es[k])
  }

  lemma NextTracks(n: Node, s: State, full: Log, e: Event)
    requires Tracks(n, s, full) && full != []
    ensures Tracks(NodeNext(n, s, e), Next(Changes(Texts(full)), s, e), full)
  {
    match e
    case Apply => ApplyNextTracks(n, s, full, ApplyNext(n), Applied(Changes(Texts(full)), s));
    case Compact(rest) => CompactTracks(n, s, full, rest);
    case Crash => RestartTracks(n, s, full);
  }

  /** Whatever applications, snapshots and crashes there are, the node's own steps and the recovery
      machine go together. */
  lemma {:induction false} RunTracks(n: Node, full: Log, es: seq<Event>)
    requires full != [] && Tracks(n, Run(Changes(Texts(full)), []), full)
    ensures Tracks(NodeRun(n, Changes(Texts(full)), es), Run(Changes(Texts(full)), es), full)
  {
    if es != [] {
      var k, log := |es| - 1, Changes(Texts(full));
      RunTracks(n, full, es[..k]);
      NextTracks(NodeRun(n, log, es[..k]), Run(log, es[..k]), full, es[k]);
    }
  }

  /** A node that regained the most it ever applied has the store of one clean application of its
      log, if every key a replay would invent is set or removed by some entry. */
  lemma NodeRecovers(n: Node, full: Log, texts: seq<string>, es: seq<Event>, s: State, n': Node)
    requires full != [] && texts == Texts(full) && Tracks(n, Run(Changes(texts), []), full)
    requires s == Run(Changes(texts), es) && n' == NodeRun(n, Changes(texts), es)
    requires n'.lastApplied == s.high < |full| && Recoverable(Changes(texts), s.high)
    ensures n'.store == Commands.ExecAll(map[], texts[1..s.high + 1])
  {
    RunTracks(n, full, es);
    RecoveredStore(texts, es, s);
  }
}
