/** What each handler and each local step does to one node, as functions on its state. */
module Handlers {
  import opened RaftTypes
  import Commands
  import SnapshotCodec
  import Base64

  // ---------- the log behind a snapshot ----------

  /** The global index of the first physical entry. */
  function Base(n: Node): int {
    if n.snapshot.Some? then n.snapshot.value.lastIncludedIndex + 1 else 0
  }

  function LogSize(n: Node): int {
    Base(n) + |n.log|
  }

  function LogTerm(n: Node, index: int): int {
    if n.snapshot.Some? && index <= n.snapshot.value.lastIncludedIndex then
      if index == n.snapshot.value.lastIncludedIndex then n.snapshot.value.lastIncludedTerm else 0
    else
      var k := index - Base(n);
      if 0 <= k < |n.log| then n.log[k].term else 0
  }

  function LogEntries(n: Node, startIndex: int, endIndex: int): Log {
    var a := if startIndex - Base(n) < 0 then 0 else startIndex - Base(n);
    var b := if |n.log| < endIndex - Base(n) then |n.log| else endIndex - Base(n);
    if a >= b then [] else n.log[a..b]
  }

  /** The arithmetic prefix erase. */
  function TruncatedLog(n: Node, last: int): Log {
    var oldIndex := Base(n) - 1;
    var at := last - oldIndex;
    if last <= oldIndex then n.log
    else if 0 < at <= |n.log| then n.log[at..]
    else n.log
  }

  function BumpNext(next: seq<int>, last: int): (r: seq<int>)
    ensures |r| == |next|
  {
    seq(|next|, i requires 0 <= i < |next| => if next[i] <= last then last + 1 else next[i])
  }

  function Persist(n: Node): Node {
    n.(disk := n.disk.(term := n.term, votedFor := n.votedFor, log := n.log))
  }

  /** A snapshot at lastApplied, saved to disk before the log is cut. */
  function Compact(n: Node): Node {
    var snap := Snapshot(n.lastApplied, LogTerm(n, n.lastApplied), n.store);
    Persist(n.(
      snapshot := Some(snap),
      log := TruncatedLog(n, n.lastApplied),
      nextIndex := BumpNext(n.nextIndex, n.lastApplied),
      disk := n.disk.(snapshot := Some(snap))))
  }

  function CompactIfLong(n: Node): Node {
    if |n.log| >= SNAPSHOT_THRESHOLD then Compact(n) else n
  }

  // ---------- elections ----------

  function BecomeFollower(n: Node, term: nat): Node {
    Persist(n.(term := term, role := Follower, votedFor := -1))
  }

  function LastLogTerm(log: Log): int {
    if log == [] then 0 else log[|log| - 1].term
  }

  /** The voter compares with its physical log. */
  predicate UpToDate(lastIndex: int, lastTerm: int, log: Log) {
    || lastTerm > LastLogTerm(log)
    || (lastTerm == LastLogTerm(log) && lastIndex >= |log| - 1)
  }

  function HandleVote(n: Node, a: VoteArgs): (Node, VoteReply) {
    if a.term < n.term then (n, VoteReply(n.term, false))
    else
      var m := if a.term > n.term then BecomeFollower(n, a.term) else n;
      if (m.votedFor == -1 || m.votedFor == a.candidateId)
         && UpToDate(a.lastLogIndex, a.lastLogTerm, m.log) then
        (Persist(m.(votedFor := a.candidateId)), VoteReply(m.term, true))
      else (m, VoteReply(m.term, false))
  }

  function BeginElection(n: Node): Node {
    Persist(n.(role := Candidate, term := n.term + 1, votedFor := n.id))
  }

  function VoteRequest(n: Node): VoteArgs {
    VoteArgs(n.term, n.id, LogSize(n) - 1, LogTerm(n, LogSize(n) - 1))
  }

  function WinElection(n: Node): Node {
    Persist(n.(
      role := Leader,
      leaderId := n.id,
      nextIndex := seq(|n.nextIndex|, _ => LogSize(n)),
      matchIndex := seq(|n.matchIndex|, _ => -1)))
  }

  // ---------- AppendEntries ----------

  predicate PrevMatches(n: Node, prevIndex: int, prevTerm: int) {
    if prevIndex < 0 then true
    else if n.snapshot.Some? && prevIndex < n.snapshot.value.lastIncludedIndex then false
    else if n.snapshot.Some? && prevIndex == n.snapshot.value.lastIncludedIndex then
      prevTerm == n.snapshot.value.lastIncludedTerm
    else
      var k := prevIndex - Base(n);
      0 <= k < |n.log| && n.log[k].term == prevTerm
  }

  /** The append loop: an entry is pushed unless the log already reaches its index. */
  function PushMissing(log: Log, base: int, entries: Log): Log
    decreases |entries|
  {
    if entries == [] then log
    else
      var e := entries[0];
      PushMissing(if e.index - base >= |log| then log + [e] else log, base, entries[1..])
  }

  /** The first sent entry is already present, so nothing of the batch is looked at. */
  predicate Skips(log: Log, at: int, entries: Log) {
    entries != [] && 0 <= at < |log| && log[at].term == entries[0].term
  }

  /** The log after a successful check; `at` is the physical place of the first entry. */
  function Inserted(log: Log, base: int, at: int, entries: Log): Log {
    if entries == [] || Skips(log, at, entries) then log
    else if 0 <= at < |log| then PushMissing(log[..at], base, entries)
    else PushMissing(log, base, entries)
  }

  /** The command the log holds at a global index, if any. */
  function CommandAt(n: Node, index: int): Option<string> {
    var k := index - Base(n);
    if 0 <= k < |n.log| then Some(n.log[k].command) else None
  }

  function ApplyCommand(store: KV, command: Option<string>): KV {
    if command.Some? then Commands.Exec(store, command.value) else store
  }

  function ApplyOne(n: Node): Node {
    n.(lastApplied := n.lastApplied + 1, store := ApplyCommand(n.store, CommandAt(n, n.lastApplied + 1)))
  }

  /** One turn, by the command it finds and the store it leaves. */
  lemma ApplyOneIs(n: Node, command: Option<string>, store: KV)
    requires command == CommandAt(n, n.lastApplied + 1) && store == ApplyCommand(n.store, command)
    ensures ApplyOne(n) == n.(lastApplied := n.lastApplied + 1, store := store)
  {}

  function ApplyUpTo(n: Node, target: int): Node
    decreases target - n.lastApplied
  {
    if n.lastApplied < target then ApplyUpTo(ApplyOne(n), target) else n
  }

  function StepDown(n: Node, a: AppendArgs): Node {
    var m := if a.term > n.term || n.role == Candidate then BecomeFollower(n, a.term) else n;
    m.(leaderId := a.leaderId)
  }

  /** The log part of the handler, for a request that is not stale. */
  function TakeEntries(n: Node, a: AppendArgs): Node {
    Persist(if PrevMatches(n, a.prevLogIndex, a.prevLogTerm) then
              n.(log := Inserted(n.log, Base(n), a.prevLogIndex + 1 - Base(n), a.entries))
            else n)
  }

  /** A follower commits no further than its own log reaches. */
  function CommitTarget(n: Node, leaderCommit: int): int {
    if leaderCommit < LogSize(n) - 1 then leaderCommit else LogSize(n) - 1
  }

  function AdvanceCommit(n: Node, leaderCommit: int): Node {
    var target := CommitTarget(n, leaderCommit);
    ApplyUpTo(n.(commitIndex := target), target)
  }

  /** What follows the step-down: the check, the entries, commit and apply. */
  function FinishAppend(d: Node, a: AppendArgs): Node {
    var t := TakeEntries(d, a);
    if PrevMatches(d, a.prevLogIndex, a.prevLogTerm) && a.leaderCommit > t.commitIndex then
      AdvanceCommit(t, a.leaderCommit)
    else t
  }

  /** The handler up to, and without, the compaction a long log sets off. */
  function HandleAppendCore(n: Node, a: AppendArgs): (Node, AppendReply) {
    if a.term < n.term then (n, AppendReply(n.term, false))
    else
      var d := StepDown(n, a);
      (FinishAppend(d, a), AppendReply(d.term, PrevMatches(d, a.prevLogIndex, a.prevLogTerm)))
  }

  /** The request makes the handler apply entries, after which it looks at the log's length. */
  predicate Commits(n: Node, a: AppendArgs) {
    && a.term >= n.term
    && PrevMatches(StepDown(n, a), a.prevLogIndex, a.prevLogTerm)
    && a.leaderCommit > n.commitIndex
  }

  function HandleAppend(n: Node, a: AppendArgs): (Node, AppendReply) {
    var (m, r) := HandleAppendCore(n, a);
    (if Commits(n, a) then CompactIfLong(m) else m, r)
  }

  // ---------- the leader ----------

  /** What the leader reads from an answer that is no AppendEntries reply: the receiver's buffer
      cut the request short, or the call failed in the sender. */
  const REFUSED := AppendReply(0, false)

  function AppendClient(n: Node, command: string): Node {
    n.(log := n.log + [Entry(n.term, LogSize(n), command)])
  }

  function HeartbeatRequest(n: Node, peer: nat): AppendArgs
    requires peer < |n.nextIndex|
  {
    var next := n.nextIndex[peer];
    var entries :=
      if next < LogSize(n) then
        LogEntries(n, next, SnapshotCodec.Min(next + MAX_ENTRIES_PER_BATCH, LogSize(n)))
      else [];
    AppendArgs(n.term, n.id, next - 1, LogTerm(n, next - 1), entries, n.commitIndex)
  }

  function ClientRequest(n: Node, peer: nat, newIndex: int): AppendArgs
    requires peer < |n.nextIndex|
  {
    var next := n.nextIndex[peer];
    AppendArgs(n.term, n.id, next - 1, LogTerm(n, next - 1), LogEntries(n, next, newIndex + 1), n.commitIndex)
  }

  function BackOff(n: Node, peer: nat): Node
    requires peer < |n.nextIndex|
  {
    if n.nextIndex[peer] > 0 then n.(nextIndex := n.nextIndex[peer := n.nextIndex[peer] - 1]) else n
  }

  /** A heartbeat's reply, for the request that carried `count` entries from `next` on. */
  function HeartbeatReply(n: Node, peer: nat, next: int, count: nat, r: AppendReply): Node
    requires peer < |n.nextIndex| && peer < |n.matchIndex|
  {
    if r.term > n.term then BecomeFollower(n, r.term)
    else if r.success && count > 0 then
      n.(nextIndex := n.nextIndex[peer := next + count],
         matchIndex := n.matchIndex[peer := next + count - 1])
    else if !r.success then BackOff(n, peer)
    else n
  }

  /** A reply in the loop that replicates the client's entry at `newIndex`. */
  function ClientReply(n: Node, peer: nat, newIndex: int, r: AppendReply): Node
    requires peer < |n.nextIndex| && peer < |n.matchIndex|
  {
    if r.term > n.term then BecomeFollower(n, r.term)
    else if r.success then
      n.(nextIndex := n.nextIndex[peer := newIndex + 1], matchIndex := n.matchIndex[peer := newIndex])
    else BackOff(n, peer)
  }

  /** The last part of a client call whose entry a majority took. */
  function CommitClient(n: Node, newIndex: int): Node {
    Persist(CompactIfLong(ApplyUpTo(n.(commitIndex := newIndex), newIndex)))
  }

  function SnapshotDone(n: Node, peer: nat, last: int): Node
    requires peer < |n.nextIndex| && peer < |n.matchIndex|
  {
    n.(nextIndex := n.nextIndex[peer := last + 1], matchIndex := n.matchIndex[peer := last])
  }

  // ---------- snapshots and restarts ----------

  function SnapshotRequest(term: nat, leader: nat, snap: Snapshot, bytes: seq<Byte>, chunkNum: nat): SnapArgs
    requires chunkNum * CHUNK_SIZE <= |bytes|
  {
    var offset := chunkNum * CHUNK_SIZE;
    SnapArgs(term, leader, snap.lastIncludedIndex, snap.lastIncludedTerm, offset,
      Base64.Encode(SnapshotCodec.ChunkAt(bytes, offset)),
      SnapshotCodec.Min(offset + CHUNK_SIZE, |bytes|) == |bytes|,
      chunkNum, SnapshotCodec.ChunkCount(|bytes|, CHUNK_SIZE))
  }

  function Install(n: Node, snap: Snapshot): Node {
    Persist(n.(
      store := snap.kv,
      lastApplied := snap.lastIncludedIndex,
      commitIndex := snap.lastIncludedIndex,
      log := [],
      snapshot := Some(snap),
      disk := n.disk.(snapshot := Some(snap)))).(buffer := [])
  }

  /** One InstallSnapshot request. What a buffer that holds no whole snapshot reads as is
      left open: `unread` stands for it. */
  function HandleSnapshot(n: Node, a: SnapArgs, unread: Snapshot): (Node, SnapReply) {
    if a.term < n.term then (n, SnapReply(n.term, false))
    else
      var m := if a.term > n.term then BecomeFollower(n, a.term) else n;
      var buffer := SnapshotCodec.WriteAt(if a.offset == 0 then [] else m.buffer, a.offset, Base64.Decode(a.data));
      var w := m.(buffer := buffer);
      var snap := SnapshotCodec.Deserialize(buffer);
      (if a.done then Install(w, if snap.Some? then snap.value else unread) else w,
       SnapReply(m.term, true))
  }

  /** Process start: metadata and snapshot are loaded, everything else is at its initial
      value. Without a snapshot the store holds `replayed`, what its log gives back. */
  function Restart(n: Node, replayed: KV): Node {
    var d := n.disk;
    var last := if d.snapshot.Some? then d.snapshot.value.lastIncludedIndex else 0;
    Node(n.id, Follower, d.term, d.votedFor, -1, d.log, d.snapshot, last, last,
      seq(|n.nextIndex|, _ => 0), seq(|n.matchIndex|, _ => -1),
      if d.snapshot.Some? then d.snapshot.value.kv else replayed, [], d)
  }
}
