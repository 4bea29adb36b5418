/** One node as the object it is: mutable fields, handlers that update them in place, and the
    loops of an election, a client command, an append and an application. Each method is proved
    against the function of the node's state that the protocol's steps are made of. */
module RaftNodes {
  import opened RaftTypes
  import opened Protocol
  import Commands
  import opened ByteCodec
  import Base64
  import SnapshotCodec
  import SnapshotTransfer
  import H = Handlers

  /** The position of the first reply of a higher term, or the number of replies. */
  function HigherAt(term: nat, replies: seq<Option<VoteReply>>): (k: nat)
    ensures k <= |replies|
    ensures k < |replies| ==> replies[k].Some? && replies[k].value.term > term
    ensures forall i | 0 <= i < k :: replies[i].Some? ==> replies[i].value.term <= term
  {
    if replies == [] || (replies[0].Some? && replies[0].value.term > term) then 0
    else 1 + HigherAt(term, replies[1..])
  }

  function GrantCount(replies: seq<Option<VoteReply>>): nat {
    if replies == [] then 0
    else
      var k := |replies| - 1;
      GrantCount(replies[..k]) + if replies[k].Some? && replies[k].value.granted then 1 else 0
  }

  /** The outcome of an election, from the peers' replies in the order asked; a lost one is None. */
  function Elected(n: Node, replies: seq<Option<VoteReply>>): Node {
    var c := H.BeginElection(n);
    var k := HigherAt(c.term, replies);
    if k < |replies| then H.BecomeFollower(c, replies[k].value.term)
    else if Majority(1 + GrantCount(replies), |replies| + 1) then H.WinElection(c)
    else c
  }

  /** What a client is told about its command, given the store before it. */
  function Answer(store: KV, c: Commands.Command): string {
    match c.op
    case "PUT" => "OK"
    case "GET" => if c.key in store then store[c.key] else "key not found"
    case "DELETE" => if c.key in store then "OK" else "key not found"
    case _ => "error: unknown command"
  }

  /** The leader after the peers from slot `i` on were tried, and how many of them took the
      entry; None once one of them was in a higher term. */
  function Replicated(n: Node, newIndex: int, replies: seq<Option<AppendReply>>, i: nat): (Node, Option<nat>)
    requires i <= |replies| == |n.nextIndex| == |n.matchIndex|
    decreases |replies| - i
  {
    if i == |replies| then (n, Some(0))
    else if replies[i].None? then Replicated(n, newIndex, replies, i + 1)
    else
      var r := replies[i].value;
      var m := H.ClientReply(n, i, newIndex, r);
      if r.term > n.term then (m, None)
      else AddTo(if r.success then 1 else 0, Replicated(m, newIndex, replies, i + 1))
  }

  function AddTo(more: nat, r: (Node, Option<nat>)): (Node, Option<nat>) {
    (r.0, if r.1.Some? then Some(r.1.value + more) else None)
  }

  /** The commit guard: the entry is of the present term and a majority has it. */
  predicate Commits(n: Node, newIndex: int, count: nat, peers: nat) {
    H.LogTerm(n, newIndex) == n.term && Majority(count, peers + 1)
  }

  lemma {:induction false} AppliedTerm(n: Node, target: int)
    ensures H.ApplyUpTo(n, target).term == n.term
    decreases target - n.lastApplied
  {
    if n.lastApplied < target {
      AppliedTerm(H.ApplyOne(n), target);
    }
  }

  /** Nothing after the step-down changes the term. */
  lemma FinishedTerm(d: Node, a: AppendArgs)
    ensures H.FinishAppend(d, a).term == d.term && H.TakeEntries(d, a).commitIndex == d.commitIndex
    ensures H.CompactIfLong(H.FinishAppend(d, a)).term == d.term
  {
    var t := H.TakeEntries(d, a);
    var target := H.CommitTarget(t, a.leaderCommit);
    AppliedTerm(t.(commitIndex := target), target);
  }

  /** What a client hears after one turn of the apply loop: the last command's result stands. */
  function AnswerNext(n: Node, result: string): string {
    var command := H.CommandAt(n, n.lastApplied + 1);
    AnswerTo(n.store, command, result)
  }

  function AnswerTo(store: KV, command: Option<string>, before: string): string {
    if command.Some? then Answer(store, Commands.Parse(command.value)) else before
  }

  /** The result of the last command that an apply loop up to `target` reads. */
  function LastAnswer(n: Node, target: int, result: string): string
    decreases target - n.lastApplied
  {
    if n.lastApplied < target then LastAnswer(H.ApplyOne(n), target, AnswerNext(n, result)) else result
  }

  /** What a round of heartbeats to the peers from slot `i` on makes of a leader. A peer that is behind
      the snapshot gets none. */
  function Beaten(n: Node, replies: seq<Option<AppendReply>>, i: nat): Node
    requires i <= |replies| == |n.nextIndex| == |n.matchIndex|
    decreases |replies| - i
  {
    if i == |replies| then n
    else if BehindSnapshot(n, i) || replies[i].None? then Beaten(n, replies, i + 1)
    else
      var a, r := H.HeartbeatRequest(n, i), replies[i].value;
      var m := H.HeartbeatReply(n, i, n.nextIndex[i], |a.entries|, r);
      if r.term > n.term then m else Beaten(m, replies, i + 1)
  }

  /** What a client call comes to, once the peers from slot `i` on are tried. */
  function Outcome(n: Node, index: int, replies: seq<Option<AppendReply>>, i: nat, successes: nat): Node
    requires i <= |replies| == |n.nextIndex| == |n.matchIndex|
  {
    var (m, count) := Replicated(n, index, replies, i);
    if count.Some? && Commits(m, index, successes + count.value, |replies|) then H.CommitClient(m, index) else m
  }

  /** The text the client gets back. */
  function Told(n: Node, index: int, replies: seq<Option<AppendReply>>): string
    requires |replies| == |n.nextIndex| == |n.matchIndex|
  {
    var (m, count) := Replicated(n, index, replies, 0);
    if count.None? then "leader step down"
    else if Commits(m, index, 1 + count.value, |replies|) then LastAnswer(m.(commitIndex := index), index, "")
    else "error: not committed"
  }

  lemma Advanced(n: Node, leaderCommit: int, target: int, m: Node)
    requires target == H.CommitTarget(n, leaderCommit) && m == H.ApplyUpTo(n.(commitIndex := target), target)
    ensures m == H.AdvanceCommit(n, leaderCommit)
  {}

  lemma SnapshotNotEmpty(snap: Snapshot, order: seq<SnapshotCodec.Pair>)
    ensures SnapshotBytes(snap, order) != []
  {}

  class RaftNode {
    const id: nat
    var state: Role
    var currentTerm: nat
    var votedFor: int
    var leaderId: int
    var log: Log
    var latestSnapshot: Option<Snapshot>
    var commitIndex: int
    var lastApplied: int
    var nextIndex: seq<int>
    var matchIndex: seq<int>
    var store: KV
    var snapshotBuffer: seq<Byte>
    var disk: Disk

    function State(): Node
      reads this
    {
      Node(id, state, currentTerm, votedFor, leaderId, log, latestSnapshot, commitIndex, lastApplied,
           nextIndex, matchIndex, store, snapshotBuffer, disk)
    }

    /** A node of a cluster of `size` that starts for the first time. */
    constructor (id: nat, size: nat, replayed: KV)
      requires size > 0
      ensures Fresh(State(), id, size) && store == replayed
    {
      this.id := id;
      state := Follower;
      currentTerm := 0;
      votedFor := -1;
      leaderId := -1;
      log := [];
      latestSnapshot := None;
      commitIndex := 0;
      lastApplied := 0;
      nextIndex := seq(size - 1, _ => 0);
      matchIndex := seq(size - 1, _ => -1);
      store := replayed;
      snapshotBuffer := [];
      disk := Disk(0, -1, [], None);
    }

    method PersistMetadata()
      modifies this`disk
      ensures State() == H.Persist(old(State()))
    {
      disk := disk.(term := currentTerm, votedFor := votedFor, log := log);
    }

    method BecomeFollower(newTerm: nat)
      modifies this
      ensures State() == H.BecomeFollower(old(State()), newTerm)
    {
      currentTerm := newTerm;
      state := Follower;
      votedFor := -1;
      PersistMetadata();
    }

    // ---------- the log behind a snapshot ----------

    method GetLogTerm(index: int) returns (term: int)
      ensures term == H.LogTerm(State(), index)
    {
      if latestSnapshot.Some? && index <= latestSnapshot.value.lastIncludedIndex {
        if index == latestSnapshot.value.lastIncludedIndex {
          return latestSnapshot.value.lastIncludedTerm;
        }
        return 0;
      }
      var logIndex := index;
      if latestSnapshot.Some? {
        logIndex := index - latestSnapshot.value.lastIncludedIndex - 1;
      }
      if logIndex < 0 || logIndex >= |log| {
        return 0;
      }
      term := log[logIndex].term;
    }

    method GetLogSize() returns (size: int)
      ensures size == H.LogSize(State())
    {
      var baseIndex := 0;
      if latestSnapshot.Some? {
        baseIndex := latestSnapshot.value.lastIncludedIndex + 1;
      }
      size := baseIndex + |log|;
    }

    method GetLogEntries(startIndex: int, endIndex: int) returns (entries: Log)
      ensures entries == H.LogEntries(State(), startIndex, endIndex)
    {
      var baseIndex := 0;
      if latestSnapshot.Some? {
        baseIndex := latestSnapshot.value.lastIncludedIndex + 1;
      }
      var logStart, logEnd := startIndex - baseIndex, endIndex - baseIndex;
      if logStart < 0 {
        logStart := 0;
      }
      if |log| < logEnd {
        logEnd := |log|;
      }
      if logStart >= logEnd || logStart >= |log| {
        return [];
      }
      entries := log[logStart..logEnd];
    }

    method TruncateLogSafe(lastIncludedIndex: int)
      modifies this`log
      ensures log == H.TruncatedLog(old(State()), lastIncludedIndex)
    {
      var oldSnapshotIndex := if latestSnapshot.Some? then latestSnapshot.value.lastIncludedIndex else -1;
      if lastIncludedIndex <= oldSnapshotIndex {
        return;
      }
      var baseIndex := oldSnapshotIndex + 1;
      var truncateAt := lastIncludedIndex - baseIndex + 1;
      if truncateAt > 0 && truncateAt <= |log| {
        log := log[truncateAt..];
      }
    }

    method BumpNextIndex(last: int)
      modifies this`nextIndex
      ensures nextIndex == H.BumpNext(old(nextIndex), last)
    {
      ghost var was := nextIndex;
      for i := 0 to |nextIndex|
        invariant |nextIndex| == |was|
        invariant forall j | 0 <= j < i :: nextIndex[j] == if was[j] <= last then last + 1 else was[j]
        invariant forall j | i <= j < |was| :: nextIndex[j] == was[j]
      {
        if nextIndex[i] <= last {
          nextIndex := nextIndex[i := last + 1];
        }
      }
    }

    /** Snapshot, erase, persist: the code that TriggerSnapshot and both commit paths share. */
    method TakeSnapshot()
      modifies this
      ensures State() == H.Compact(old(State()))
    {
      var term := GetLogTerm(lastApplied);
      var snap := Snapshot(lastApplied, term, store);
      disk := disk.(snapshot := Some(snap));
      TruncateLogSafe(snap.lastIncludedIndex);
      latestSnapshot := Some(snap);
      BumpNextIndex(snap.lastIncludedIndex);
      PersistMetadata();
    }

    method TriggerSnapshot() returns (taken: bool)
      modifies this
      ensures taken == (old(log) != [])
      ensures State() == if old(log) == [] then old(State()) else H.Compact(old(State()))
    {
      if |log| == 0 {
        return false;
      }
      TakeSnapshot();
      taken := true;
    }

    // ---------- the state machine ----------

    /** One command on the store; the result goes back to the client. */
    method ApplyToStateMachine(text: string) returns (result: string)
      modifies this`store
      ensures store == H.ApplyCommand(old(store), Some(text))
      ensures result == Answer(old(store), Commands.Parse(text))
      ensures var c, held := Commands.Parse(text), old(store);
        && (c.op == "PUT" ==> store == held[c.key := c.value] && result == "OK")
        && (c.op == "GET" ==> store == held && result == if c.key in held then held[c.key] else "key not found")
        && (c.op == "DELETE" ==> store == held - {c.key} && result == if c.key in held then "OK" else "key not found")
        && (c.op !in ["PUT", "GET", "DELETE"] ==> store == held && result == "error: unknown command")
    {
      var c := Commands.Parse(text);
      if c.op == "PUT" {
        store := store[c.key := c.value];
        result := "OK";
      } else if c.op == "GET" {
        result := if c.key in store then store[c.key] else "key not found";
      } else if c.op == "DELETE" {
        var deleted := c.key in store;
        store := store - {c.key};
        result := if deleted then "OK" else "key not found";
      } else {
        result := "error: unknown command";
      }
    }

    method GetCommand(index: int) returns (command: Option<string>)
      ensures command == H.CommandAt(State(), index)
    {
      var logIdx := index;
      if latestSnapshot.Some? {
        logIdx := index - latestSnapshot.value.lastIncludedIndex - 1;
      }
      command := if logIdx >= 0 && logIdx < |log| then Some(log[logIdx].command) else None;
    }

    method ApplyEntry(command: Option<string>, before: string) returns (result: string)
      modifies this`store
      ensures store == H.ApplyCommand(old(store), command)
      ensures result == AnswerTo(old(store), command, before)
    {
      result := before;
      if command.Some? {
        result := ApplyToStateMachine(command.value);
      }
    }

    /** One turn of the apply loop. */
    method ApplyNext(before: string) returns (result: string)
      modifies this`lastApplied, this`store
      ensures State() == H.ApplyOne(old(State()))
      ensures result == AnswerNext(old(State()), before)
    {
      ghost var n := State();
      lastApplied := lastApplied + 1;
      var command := GetCommand(lastApplied);
      assert command == H.CommandAt(n, lastApplied);
      result := ApplyEntry(command, before);
      H.ApplyOneIs(n, command, store);
    }

    /** The apply loop up to a new commit index, with the result of the last command. */
    method CommitAndApply(target: int) returns (result: string)
      modifies this
      ensures State() == H.ApplyUpTo(old(State()).(commitIndex := target), target)
      ensures result == LastAnswer(old(State()).(commitIndex := target), target, "")
    {
      commitIndex := target;
      result := "";
      while lastApplied < commitIndex
        invariant commitIndex == target
        invariant H.ApplyUpTo(State(), target) == H.ApplyUpTo(old(State()).(commitIndex := target), target)
        invariant LastAnswer(State(), target, result) == LastAnswer(old(State()).(commitIndex := target), target, "")
        decreases target - lastApplied
      {
        result := ApplyNext(result);
      }
    }

    // ---------- elections ----------

    method HandleRequestVote(a: VoteArgs) returns (reply: VoteReply)
      modifies this
      ensures (State(), reply) == H.HandleVote(old(State()), a)
    {
      var voteGranted := false;
      if a.term >= currentTerm {
        if a.term > currentTerm {
          BecomeFollower(a.term);
        }
        var notVotedYet := votedFor == -1 || votedFor == a.candidateId;
        var myLastIndex := |log| - 1;
        var myLastTerm := if myLastIndex >= 0 then log[myLastIndex].term else 0;
        var candidateUpToDate :=
          a.lastLogTerm > myLastTerm || (a.lastLogTerm == myLastTerm && a.lastLogIndex >= myLastIndex);
        if notVotedYet && candidateUpToDate {
          voteGranted := true;
          votedFor := a.candidateId;
          PersistMetadata();
        }
      }
      reply := VoteReply(currentTerm, voteGranted);
    }

    method BecomeCandidate()
      modifies this
      ensures State() == H.BeginElection(old(State()))
    {
      state := Candidate;
      currentTerm := currentTerm + 1;
      votedFor := id;
      PersistMetadata();
    }

    method ResetIndices(size: int)
      requires |nextIndex| == |matchIndex|
      modifies this`nextIndex, this`matchIndex
      ensures nextIndex == seq(|old(nextIndex)|, _ => size) && matchIndex == seq(|old(matchIndex)|, _ => -1)
    {
      for i := 0 to |nextIndex|
        invariant |nextIndex| == |matchIndex| == |old(nextIndex)|
        invariant forall j | 0 <= j < i :: nextIndex[j] == size && matchIndex[j] == -1
      {
        nextIndex := nextIndex[i := size];
        matchIndex := matchIndex[i := -1];
      }
    }

    method BecomeLeader()
      requires |nextIndex| == |matchIndex|
      modifies this
      ensures State() == H.WinElection(old(State()))
    {
      state := Leader;
      leaderId := id;
      var size := GetLogSize();
      ResetIndices(size);
      PersistMetadata();
    }

    method BuildVoteRequest() returns (a: VoteArgs)
      ensures a == H.VoteRequest(State())
    {
      var size := GetLogSize();
      var lastTerm := GetLogTerm(size - 1);
      a := VoteArgs(currentTerm, id, size - 1, lastTerm);
    }

    /** The peers are asked one after the other. `stopped` tells that one of them was in a higher
        term, to which the candidate has stepped down; otherwise `votes` counts the grants. */
    method AskForVotes(replies: seq<Option<VoteReply>>) returns (votes: nat, stopped: bool, ghost asked: nat)
      modifies this
      ensures var k := HigherAt(old(currentTerm), replies);
        && stopped == (k < |replies|)
        && asked == (if stopped then k + 1 else k)
        && State() == (if stopped then H.BecomeFollower(old(State()), replies[k].value.term) else old(State()))
        && (!stopped ==> votes == 1 + GrantCount(replies))
    {
      votes := 1;
      stopped := false;
      asked := 0;
      var i := 0;
      while i < |replies|
        invariant i <= |replies| && State() == old(State()) && asked == i
        invariant HigherAt(old(currentTerm), replies) >= i
        invariant votes == 1 + GrantCount(replies[..i])
      {
        var request := BuildVoteRequest();
        asked := asked + 1;
        if replies[i].Some? {
          var resp := replies[i].value;
          if resp.term > currentTerm {
            BecomeFollower(resp.term);
            stopped := true;
            return;
          }
          if resp.granted {
            votes := votes + 1;
          }
        }
        assert replies[..i + 1][..i] == replies[..i];
        i := i + 1;
      }
      assert replies[..|replies|] == replies;
    }

    /** An election without interruption: the peers' replies decide between stepping down at the
        first higher term, leading with a majority of votes, and staying a candidate. */
    method StartElection(replies: seq<Option<VoteReply>>)
      requires |replies| == |nextIndex| == |matchIndex|
      modifies this
      ensures State() == Elected(old(State()), replies)
    {
      BecomeCandidate();
      var votes, stopped, asked := AskForVotes(replies);
      if !stopped && votes > (|replies| + 1) / 2 {
        BecomeLeader();
      }
    }

    // ---------- AppendEntries ----------

    /** The consistency check on the entry before the first one sent. */
    method CheckPrevious(prevLogIndex: int, prevLogTerm: int) returns (success: bool)
      ensures success == H.PrevMatches(State(), prevLogIndex, prevLogTerm)
    {
      if prevLogIndex >= 0 {
        if latestSnapshot.Some? && prevLogIndex < latestSnapshot.value.lastIncludedIndex {
          success := false;
        } else if latestSnapshot.Some? && prevLogIndex == latestSnapshot.value.lastIncludedIndex {
          success := prevLogTerm == latestSnapshot.value.lastIncludedTerm;
        } else {
          var logIndex := prevLogIndex;
          if latestSnapshot.Some? {
            logIndex := prevLogIndex - latestSnapshot.value.lastIncludedIndex - 1;
          }
          if logIndex < 0 || logIndex >= |log| {
            success := false;
          } else {
            success := log[logIndex].term == prevLogTerm;
          }
        }
      } else {
        success := true;
      }
    }

    /** A conflict is erased, a first entry already present skips the batch, and what the log
        does not reach is appended. */
    method InsertEntries(insertIndex: int, entries: Log)
      modifies this`log
      ensures log == H.Inserted(old(log), H.Base(State()), insertIndex - H.Base(State()), entries)
    {
      if entries == [] {
        return;
      }
      var base := if latestSnapshot.Some? then latestSnapshot.value.lastIncludedIndex + 1 else 0;
      var logInsertIndex := insertIndex - base;
      if logInsertIndex >= 0 && logInsertIndex < |log| {
        if log[logInsertIndex].term != entries[0].term {
          log := log[..logInsertIndex];
        } else {
          return;
        }
      }
      ghost var cut := log;
      assert entries[0..] == entries && entries[|entries|..] == [];
      for i := 0 to |entries|
        invariant H.PushMissing(log, base, entries[i..]) == H.PushMissing(cut, base, entries)
      {
        assert entries[i..][0] == entries[i] && entries[i..][1..] == entries[i + 1..];
        if entries[i].index - base >= |log| {
          log := log + [entries[i]];
        }
      }
    }

    /** The check and the entries, for a request that is not stale. */
    method TakeEntries(a: AppendArgs) returns (success: bool)
      modifies this
      ensures State() == H.TakeEntries(old(State()), a)
      ensures success == H.PrevMatches(old(State()), a.prevLogIndex, a.prevLogTerm)
    {
      success := CheckPrevious(a.prevLogIndex, a.prevLogTerm);
      if success {
        InsertEntries(a.prevLogIndex + 1, a.entries);
      }
      PersistMetadata();
    }

    /** The commit bounded by the node's own log, the application, and the snapshot that a long
        log sets off. */
    method AdvanceCommit(leaderCommit: int)
      modifies this
      ensures State() == H.CompactIfLong(H.AdvanceCommit(old(State()), leaderCommit))
    {
      var size := GetLogSize();
      var target := if leaderCommit < size - 1 then leaderCommit else size - 1;
      ghost var n := State();
      ApplyCommitted(target);
      Advanced(n, leaderCommit, target, State());
      CompactWhenLong();
    }

    /** The follower's apply loop up to a new commit index. */
    method ApplyCommitted(target: int)
      modifies this
      ensures State() == H.ApplyUpTo(old(State()).(commitIndex := target), target)
    {
      commitIndex := target;
      while lastApplied < commitIndex
        invariant commitIndex == target
        invariant H.ApplyUpTo(State(), target) == H.ApplyUpTo(old(State()).(commitIndex := target), target)
        decreases target - lastApplied
      {
        var result := ApplyNext("");
      }
    }

    method CompactWhenLong()
      modifies this
      ensures State() == H.CompactIfLong(old(State()))
    {
      if |log| >= SNAPSHOT_THRESHOLD {
        TakeSnapshot();
      }
    }

    method StepDown(a: AppendArgs)
      modifies this
      ensures State() == H.StepDown(old(State()), a)
    {
      if a.term > currentTerm || state == Candidate {
        BecomeFollower(a.term);
      }
      leaderId := a.leaderId;
    }

    method HandleAppendEntries(a: AppendArgs) returns (reply: AppendReply)
      modifies this
      ensures (State(), reply) == H.HandleAppend(old(State()), a)
    {
      if a.term < currentTerm {
        return AppendReply(currentTerm, false);
      }
      StepDown(a);
      var success := TakeEntries(a);
      if success && a.leaderCommit > commitIndex {
        AdvanceCommit(a.leaderCommit);
      }
      reply := AppendReply(currentTerm, success);
      FinishedTerm(H.StepDown(old(State()), a), a);
    }

    // ---------- InstallSnapshot ----------

    /** One chunk; what a buffer that holds no whole snapshot reads as is left open. */
    method HandleInstallSnapshot(a: SnapArgs, unread: Snapshot) returns (reply: SnapReply)
      requires ByteString(a.data)
      modifies this
      ensures (State(), reply) == H.HandleSnapshot(old(State()), a, unread)
    {
      if a.term < currentTerm {
        return SnapReply(currentTerm, false);
      }
      if a.term > currentTerm {
        BecomeFollower(a.term);
      }
      if a.offset == 0 {
        snapshotBuffer := [];
      }
      var chunk := Base64.Base64Decode(a.data, 32);
      WriteChunk(a.offset, chunk);
      if a.done {
        var snap := SnapshotCodec.DeserializeSnapshot(snapshotBuffer);
        InstallSnapshot(if snap.Some? then snap.value else unread);
      }
      reply := SnapReply(currentTerm, true);
    }

    /** The buffer grows as far as the chunk reaches and takes the chunk at its offset. */
    method WriteChunk(offset: nat, chunk: seq<Byte>)
      modifies this`snapshotBuffer
      ensures snapshotBuffer == SnapshotCodec.WriteAt(old(snapshotBuffer), offset, chunk)
    {
      if |snapshotBuffer| < offset + |chunk| {
        snapshotBuffer := snapshotBuffer + seq(offset + |chunk| - |snapshotBuffer|, _ => 0);
      }
      snapshotBuffer := snapshotBuffer[..offset] + chunk + snapshotBuffer[offset + |chunk|..];
    }

    method LoadSnapshot(snap: Snapshot)
      modifies this`store, this`lastApplied, this`commitIndex, this`log, this`latestSnapshot
      ensures State() == old(State()).(store := snap.kv, lastApplied := snap.lastIncludedIndex,
        commitIndex := snap.lastIncludedIndex, log := [], snapshot := Some(snap))
    {
      store := snap.kv;
      lastApplied := snap.lastIncludedIndex;
      commitIndex := snap.lastIncludedIndex;
      log := [];
      latestSnapshot := Some(snap);
    }

    method InstallSnapshot(snap: Snapshot)
      modifies this
      ensures State() == H.Install(old(State()), snap)
    {
      disk := disk.(snapshot := Some(snap));
      LoadSnapshot(snap);
      PersistMetadata();
      snapshotBuffer := [];
    }

    // ---------- the leader ----------

    method AppendLogEntry(text: string) returns (newIndex: int)
      modifies this`log
      ensures newIndex == H.LogSize(old(State()))
      ensures State() == H.AppendClient(old(State()), text)
    {
      newIndex := GetLogSize();
      log := log + [Entry(currentTerm, newIndex, text)];
    }

    method BuildHeartbeat(peer: nat) returns (a: AppendArgs)
      requires peer < |nextIndex|
      ensures a == H.HeartbeatRequest(State(), peer)
    {
      var nextIdx := nextIndex[peer];
      var prevTerm := GetLogTerm(nextIdx - 1);
      var size := GetLogSize();
      var entries: Log := [];
      if nextIdx < size {
        entries := GetLogEntries(nextIdx, SnapshotCodec.Min(nextIdx + MAX_ENTRIES_PER_BATCH, size));
      }
      a := AppendArgs(currentTerm, id, nextIdx - 1, prevTerm, entries, commitIndex);
    }

    method TakeHeartbeatReply(peer: nat, nextIdx: int, count: nat, resp: AppendReply)
      requires peer < |nextIndex| && peer < |matchIndex|
      modifies this
      ensures State() == H.HeartbeatReply(old(State()), peer, nextIdx, count, resp)
    {
      if resp.term > currentTerm {
        BecomeFollower(resp.term);
      } else if resp.success && count > 0 {
        nextIndex := nextIndex[peer := nextIdx + count];
        matchIndex := matchIndex[peer := nextIdx + count - 1];
      } else if !resp.success {
        if nextIndex[peer] > 0 {
          nextIndex := nextIndex[peer := nextIndex[peer] - 1];
        }
      }
    }

    /** One round of heartbeats: each peer is sent its batch, and the first higher term ends the round.
        `replies` are the peers' answers, a lost one None. */
    method SendHeartbeats(replies: seq<Option<AppendReply>>)
      requires |replies| == |nextIndex| == |matchIndex|
      modifies this
      ensures State() == Beaten(old(State()), replies, 0)
    {
      var i := 0;
      while i < |replies|
        invariant i <= |replies| == |nextIndex| == |matchIndex|
        invariant Beaten(State(), replies, i) == Beaten(old(State()), replies, 0)
      {
        if !(latestSnapshot.Some? && nextIndex[i] <= latestSnapshot.value.lastIncludedIndex) {
          var nextIdx := nextIndex[i];
          var heartbeat := BuildHeartbeat(i);
          if replies[i].Some? {
            var resp := replies[i].value;
            var term := currentTerm;
            TakeHeartbeatReply(i, nextIdx, |heartbeat.entries|, resp);
            if resp.term > term {
              return;
            }
          }
        }
        i := i + 1;
      }
    }

    /** The snapshot is sent to a peer chunk by chunk; once the last one is accepted, the peer is taken to
        have it. `order` is the order in which the map is iterated, `answers` are the peer's. */
    method SendSnapshot(peer: nat, order: seq<SnapshotCodec.Pair>, answers: seq<SnapshotTransfer.Answer>)
        returns (complete: bool)
      requires peer < |nextIndex| && peer < |matchIndex|
      requires latestSnapshot.Some? && SnapshotCodec.Enumerates(order, latestSnapshot.value.kv)
      requires SnapshotTransfer.Sendable(currentTerm, id, latestSnapshot.value,
        SnapshotBytes(latestSnapshot.value, order))
      modifies this
      ensures complete <==> SnapshotTransfer.AcceptedTo(answers,
        SnapshotCodec.ChunkCount(|SnapshotBytes(old(latestSnapshot.value), order)|, CHUNK_SIZE))
      ensures State() ==
        if complete then H.SnapshotDone(old(State()), peer, old(latestSnapshot.value.lastIncludedIndex))
        else old(State())
    {
      var bytes := SnapshotCodec.SerializeSnapshot(latestSnapshot.value, order);
      SnapshotNotEmpty(latestSnapshot.value, order);
      complete := SendBytes(peer, latestSnapshot.value, bytes, answers);
    }

    method SendBytes(peer: nat, snap: Snapshot, bytes: seq<Byte>, answers: seq<SnapshotTransfer.Answer>)
        returns (complete: bool)
      requires peer < |nextIndex| && peer < |matchIndex| && bytes != []
      requires SnapshotTransfer.Sendable(currentTerm, id, snap, bytes)
      modifies this`nextIndex, this`matchIndex
      ensures complete <==> SnapshotTransfer.AcceptedTo(answers, SnapshotCodec.ChunkCount(|bytes|, CHUNK_SIZE))
      ensures State() == if complete then H.SnapshotDone(old(State()), peer, snap.lastIncludedIndex) else old(State())
    {
      var sent;
      sent, complete := SnapshotTransfer.SendChunks(currentTerm, id, snap, bytes, answers);
      if complete {
        nextIndex := nextIndex[peer := snap.lastIncludedIndex + 1];
        matchIndex := matchIndex[peer := snap.lastIncludedIndex];
      }
    }

    method BuildAppend(peer: nat, newIndex: int) returns (a: AppendArgs)
      requires peer < |nextIndex|
      ensures a == H.ClientRequest(State(), peer, newIndex)
    {
      var nextIdx := nextIndex[peer];
      var prevTerm := GetLogTerm(nextIdx - 1);
      var entries := GetLogEntries(nextIdx, newIndex + 1);
      a := AppendArgs(currentTerm, id, nextIdx - 1, prevTerm, entries, commitIndex);
    }

    method TakeAppendReply(peer: nat, newIndex: int, resp: AppendReply)
      requires peer < |nextIndex| && peer < |matchIndex|
      modifies this
      ensures State() == H.ClientReply(old(State()), peer, newIndex, resp)
    {
      if resp.term > currentTerm {
        BecomeFollower(resp.term);
      } else if resp.success {
        nextIndex := nextIndex[peer := newIndex + 1];
        matchIndex := matchIndex[peer := newIndex];
      } else if nextIndex[peer] > 0 {
        nextIndex := nextIndex[peer := nextIndex[peer] - 1];
      }
    }

    method CommitEntry(newIndex: int) returns (result: string)
      modifies this
      ensures State() == H.CommitClient(old(State()), newIndex)
      ensures result == LastAnswer(old(State()).(commitIndex := newIndex), newIndex, "")
    {
      result := CommitAndApply(newIndex);
      CompactWhenLong();
      PersistMetadata();
    }

    /** A client command without interruption: the entry is appended, each peer is tried once,
        and it is committed with a majority. `replies` are the peers' answers, a lost one None. */
    method HandleClientCommand(text: string, replies: seq<Option<AppendReply>>) returns (result: string)
      requires |replies| == |nextIndex| == |matchIndex|
      modifies this
      ensures var n, index := H.AppendClient(old(State()), text), H.LogSize(old(State()));
        State() == Outcome(n, index, replies, 0, 1) && result == Told(n, index, replies)
    {
      var newIndex := AppendLogEntry(text);
      ghost var n := State();
      var successCount := 1;
      var i := 0;
      while i < |replies|
        invariant i <= |replies| && |nextIndex| == |matchIndex| == |replies|
        invariant Replicated(n, newIndex, replies, 0) ==
          AddTo(successCount - 1, Replicated(State(), newIndex, replies, i))
        invariant currentTerm == n.term && successCount >= 1
      {
        var request := BuildAppend(i, newIndex);
        if replies[i].Some? {
          var resp := replies[i].value;
          var term := currentTerm;
          TakeAppendReply(i, newIndex, resp);
          if resp.term > term {
            return "leader step down";
          }
          if resp.success {
            successCount := successCount + 1;
          }
        }
        i := i + 1;
      }
      var term := GetLogTerm(newIndex);
      if term == currentTerm && successCount > (|replies| + 1) / 2 {
        result := CommitEntry(newIndex);
      } else {
        result := "error: not committed";
      }
    }

    // ---------- restarts ----------

    /** A process start from the metadata file and the snapshot file. */
    constructor Restart(n: Node, replayed: KV)
      ensures State() == H.Restart(n, replayed)
    {
      id := n.id;
      state := Follower;
      currentTerm := n.disk.term;
      votedFor := n.disk.votedFor;
      leaderId := -1;
      log := n.disk.log;
      latestSnapshot := n.disk.snapshot;
      commitIndex := if n.disk.snapshot.Some? then n.disk.snapshot.value.lastIncludedIndex else 0;
      lastApplied := if n.disk.snapshot.Some? then n.disk.snapshot.value.lastIncludedIndex else 0;
      nextIndex := seq(|n.nextIndex|, _ => 0);
      matchIndex := seq(|n.matchIndex|, _ => -1);
      store := if n.disk.snapshot.Some? then n.disk.snapshot.value.kv else replayed;
      snapshotBuffer := [];
      disk := n.disk;
    }
  }
}
