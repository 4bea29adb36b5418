/** The cluster as a state machine: every handler and every local step of a node is one step.

    Named assumptions:
    - AtomicHandlers: a handler, with the step-down it may do, is one step, and so is the part
      of a loop between two remote calls.
    - GuardedContinuations: the rest of an election or of a client call runs only while the
      node still has the role and term it started with, and the reply to a heartbeat or a chunk
      is taken only while its sender leads the term it sent it in.
    - OwnStore: every node has a key-value store of its own.

    Messages are never removed, so each may be handled late, more than once or never; a step
    of the sender that gives up on a reply stands for a lost one, and a refused step for an
    answer that no handler gave, as to a request too long for the receiver's buffer. To a vote
    request or a chunk such an answer is like a lost one. */
module Protocol {
  import opened RaftTypes
  import H = Handlers
  import SnapshotCodec

  datatype Msg =
    | VoteReq(src: nat, dst: nat, vote: VoteArgs)
    | VoteRep(src: nat, dst: nat, asked: nat, voteReply: VoteReply)
    | AppReq(src: nat, dst: nat, append: AppendArgs)
    | AppRep(src: nat, dst: nat, append: AppendArgs, appendReply: AppendReply)
    | SnapReq(src: nat, dst: nat, snap: SnapArgs)
    | SnapRep(src: nat, dst: nat, snap: SnapArgs, snapReply: SnapReply)

  /** The local state of a running election: its term, the next peer to ask, the votes. */
  datatype Election = Election(term: nat, peer: nat, votes: nat)

  /** The local state of a client call: its term, the next peer, the successes counted and the
      request whose reply is awaited. */
  datatype Call = Call(term: nat, peer: nat, successes: nat, pending: Option<AppendArgs>)

  /** A node with its threads; a client call is known by the index of its entry. */
  datatype Proc = Proc(node: Node, election: Option<Election>, calls: map<int, Call>)

  datatype Cluster = Cluster(procs: seq<Proc>, msgs: set<Msg>)

  datatype Step =
    | BeginElection(n: nat)
    | AskVote(n: nat)
    | HandleVote(m: Msg)
    | TakeVote(n: nat, m: Msg)
    | MissVote(n: nat)
    | WinElection(n: nat)
    | ClientAppend(n: nat, command: string)
    | CallSend(n: nat, index: int)
    | CallReply(n: nat, index: int, m: Msg)
    | CallMiss(n: nat, index: int)
    | CallRefused(n: nat, index: int)
    | CallCommit(n: nat, index: int)
    | HeartbeatSend(n: nat, slot: nat)
    | HeartbeatReply(n: nat, m: Msg)
    | HeartbeatRefused(n: nat, slot: nat)
    | HandleAppend(m: Msg)
    | SendChunk(n: nat, slot: nat, order: seq<SnapshotCodec.Pair>, chunkNum: nat)
    | HandleChunk(m: Msg, unread: Snapshot)
    | ChunkReply(n: nat, m: Msg)
    | TriggerSnapshot(n: nat)
    | Crash(n: nat, replayed: KV)

  /** The peer in slot `i` of node `n`'s list, which leaves out `n` itself. */
  function PeerId(n: nat, i: nat): nat {
    if i < n then i else i + 1
  }

  function PeerSlot(n: nat, p: nat): nat
    requires p != n
  {
    if p < n then p else p - 1
  }

  predicate InElection(p: Proc) {
    p.election.Some? && p.node.role == Candidate && p.election.value.term == p.node.term
  }

  predicate InCall(p: Proc, index: int) {
    index in p.calls && p.node.role == Leader && p.calls[index].term == p.node.term
  }

  predicate Slots(p: Proc, size: nat) {
    |p.node.nextIndex| == |p.node.matchIndex| == size - 1
  }

  predicate Majority(count: nat, size: nat) {
    count > size / 2
  }

  ghost predicate Enabled(c: Cluster, s: Step) {
    match s
    case BeginElection(n) => CanBegin(c, n)
    case AskVote(n) => CanAsk(c, n)
    case HandleVote(m) => CanHandle(c, m) && m.VoteReq?
    case TakeVote(n, m) => CanTakeVote(c, n, m)
    case MissVote(n) => CanAsk(c, n)
    case WinElection(n) => CanWin(c, n)
    case ClientAppend(n, command) => IsLeader(c, n)
    case CallSend(n, index) => CanCall(c, n, index) && c.procs[n].calls[index].pending.None?
    case CallReply(n, index, m) => CanCall(c, n, index) && CanTakeReply(c, n, index, m)
    case CallMiss(n, index) => CanCall(c, n, index) && c.procs[n].calls[index].pending.Some?
    case CallRefused(n, index) => CanCall(c, n, index) && c.procs[n].calls[index].pending.Some?
    case CallCommit(n, index) => CanCommit(c, n, index)
    case HeartbeatSend(n, slot) => IsLeader(c, n) && CanBeat(c, n, slot)
    case HeartbeatReply(n, m) => IsLeader(c, n) && CanTakeBeat(c, n, m)
    case HeartbeatRefused(n, slot) => IsLeader(c, n) && CanBeat(c, n, slot)
    case HandleAppend(m) => CanHandle(c, m) && m.AppReq?
    case SendChunk(n, slot, order, chunkNum) => IsLeader(c, n) && CanSendChunk(c, n, slot, order, chunkNum)
    case HandleChunk(m, unread) => CanHandle(c, m) && m.SnapReq?
    case ChunkReply(n, m) => IsLeader(c, n) && CanTakeChunkReply(c, n, m)
    case TriggerSnapshot(n) => n < |c.procs| && c.procs[n].node.log != []
    case Crash(n, replayed) => n < |c.procs|
  }

  predicate CanBegin(c: Cluster, n: nat) {
    n < |c.procs| && c.procs[n].node.role != Leader
  }

  /** An election has peers left to ask. */
  predicate CanAsk(c: Cluster, n: nat) {
    n < |c.procs| && InElection(c.procs[n]) && c.procs[n].election.value.peer < |c.procs| - 1
  }

  predicate CanHandle(c: Cluster, m: Msg) {
    m in c.msgs && m.dst < |c.procs|
  }

  /** The reply of the peer being asked, in the term it is asked in. */
  predicate CanTakeVote(c: Cluster, n: nat, m: Msg) {
    && CanAsk(c, n) && m in c.msgs && m.VoteRep? && m.dst == n
    && m.src == PeerId(n, c.procs[n].election.value.peer) && m.asked == c.procs[n].node.term
  }

  /** All peers were asked, and a majority voted for the candidate. */
  predicate CanWin(c: Cluster, n: nat) {
    && n < |c.procs| && InElection(c.procs[n]) && c.procs[n].election.value.peer == |c.procs| - 1
    && Majority(c.procs[n].election.value.votes, |c.procs|)
  }

  predicate IsLeader(c: Cluster, n: nat) {
    n < |c.procs| && c.procs[n].node.role == Leader && Slots(c.procs[n], |c.procs|)
  }

  /** A client call has peers left to replicate to. */
  predicate CanCall(c: Cluster, n: nat, index: int) {
    IsLeader(c, n) && InCall(c.procs[n], index) && c.procs[n].calls[index].peer < |c.procs| - 1
  }

  /** The reply to the request the call is waiting on. */
  predicate CanTakeReply(c: Cluster, n: nat, index: int, m: Msg)
    requires CanCall(c, n, index)
  {
    && m in c.msgs && m.AppRep? && m.dst == n && m.src == PeerId(n, c.procs[n].calls[index].peer)
    && c.procs[n].calls[index].pending == Some(m.append)
  }

  /** All peers were tried, a majority took the entry, and it is of the current term. */
  predicate CanCommit(c: Cluster, n: nat, index: int) {
    && n < |c.procs| && InCall(c.procs[n], index)
    && c.procs[n].calls[index].peer == |c.procs| - 1 && c.procs[n].calls[index].pending.None?
    && H.LogTerm(c.procs[n].node, index) == c.procs[n].node.term
    && Majority(c.procs[n].calls[index].successes, |c.procs|)
  }

  predicate BehindSnapshot(n: Node, slot: nat)
    requires slot < |n.nextIndex|
  {
    n.snapshot.Some? && n.nextIndex[slot] <= n.snapshot.value.lastIncludedIndex
  }

  predicate CanBeat(c: Cluster, n: nat, slot: nat)
    requires IsLeader(c, n)
  {
    slot < |c.procs| - 1 && !BehindSnapshot(c.procs[n].node, slot)
  }

  predicate CanTakeBeat(c: Cluster, n: nat, m: Msg)
    requires IsLeader(c, n)
  {
    && m in c.msgs && m.AppRep? && m.dst == n && m.src != n && m.src < |c.procs|
    && m.append.term == c.procs[n].node.term
  }

  ghost predicate CanSendChunk(c: Cluster, n: nat, slot: nat, order: seq<SnapshotCodec.Pair>, chunkNum: nat)
    requires IsLeader(c, n)
  {
    && slot < |c.procs| - 1 && BehindSnapshot(c.procs[n].node, slot)
    && SnapshotCodec.Enumerates(order, c.procs[n].node.snapshot.value.kv)
    && chunkNum * CHUNK_SIZE < |SnapshotBytes(c.procs[n].node.snapshot.value, order)|
  }

  predicate CanTakeChunkReply(c: Cluster, n: nat, m: Msg)
    requires IsLeader(c, n)
  {
    && m in c.msgs && m.SnapRep? && m.dst == n && m.src != n && m.src < |c.procs|
    && m.snap.term == c.procs[n].node.term
  }

  function SnapshotBytes(snap: Snapshot, order: seq<SnapshotCodec.Pair>): seq<Byte> {
    SnapshotCodec.Serialize(snap.lastIncludedIndex, snap.lastIncludedTerm, order)
  }

  function Put(c: Cluster, n: nat, p: Proc, sent: set<Msg>): Cluster
    requires n < |c.procs|
  {
    Cluster(c.procs[n := p], c.msgs + sent)
  }

  function NextPeer(call: Call, success: bool): Call {
    call.(peer := call.peer + 1, pending := None,
          successes := if success then call.successes + 1 else call.successes)
  }

  ghost function Do(c: Cluster, s: Step): Cluster
    requires Enabled(c, s)
  {
    match s
    case BeginElection(n) => DoBegin(c, n)
    case AskVote(n) => DoAsk(c, n)
    case HandleVote(m) => DoHandleVote(c, m)
    case TakeVote(n, m) => DoTakeVote(c, n, m)
    case MissVote(n) => DoMissVote(c, n)
    case WinElection(n) => DoWin(c, n)
    case ClientAppend(n, command) => DoClientAppend(c, n, command)
    case CallSend(n, index) => DoCallSend(c, n, index)
    case CallReply(n, index, m) => DoCallReply(c, n, index, m)
    case CallMiss(n, index) => DoCallMiss(c, n, index)
    case CallRefused(n, index) => DoCallRefused(c, n, index)
    case CallCommit(n, index) => DoCommit(c, n, index)
    case HeartbeatSend(n, slot) => DoBeat(c, n, slot)
    case HeartbeatReply(n, m) => DoTakeBeat(c, n, m)
    case HeartbeatRefused(n, slot) => DoBeatRefused(c, n, slot)
    case HandleAppend(m) => DoHandleAppend(c, m)
    case SendChunk(n, slot, order, chunkNum) => DoSendChunk(c, n, slot, order, chunkNum)
    case HandleChunk(m, unread) => DoHandleChunk(c, m, unread)
    case ChunkReply(n, m) => DoTakeChunkReply(c, n, m)
    case TriggerSnapshot(n) => DoTrigger(c, n)
    case Crash(n, replayed) => DoCrash(c, n, replayed)
  }

  function DoBegin(c: Cluster, n: nat): Cluster
    requires CanBegin(c, n)
  {
    var p := c.procs[n];
    var node := H.BeginElection(p.node);
    Put(c, n, p.(node := node, election := Some(Election(node.term, 0, 1))), {})
  }

  function DoAsk(c: Cluster, n: nat): Cluster
    requires CanAsk(c, n)
  {
    var p := c.procs[n];
    Put(c, n, p, {VoteReq(n, PeerId(n, p.election.value.peer), H.VoteRequest(p.node))})
  }

  function DoHandleVote(c: Cluster, m: Msg): Cluster
    requires CanHandle(c, m) && m.VoteReq?
  {
    var p := c.procs[m.dst];
    var (node, reply) := H.HandleVote(p.node, m.vote);
    Put(c, m.dst, p.(node := node), {VoteRep(m.dst, m.src, m.vote.term, reply)})
  }

  function DoTakeVote(c: Cluster, n: nat, m: Msg): Cluster
    requires CanTakeVote(c, n, m)
  {
    var p := c.procs[n];
    if m.voteReply.term > p.node.term then
      Put(c, n, p.(node := H.BecomeFollower(p.node, m.voteReply.term), election := None), {})
    else
      var e := p.election.value;
      var votes := if m.voteReply.granted then e.votes + 1 else e.votes;
      Put(c, n, p.(election := Some(Election(e.term, e.peer + 1, votes))), {})
  }

  function DoMissVote(c: Cluster, n: nat): Cluster
    requires CanAsk(c, n)
  {
    var p := c.procs[n];
    Put(c, n, p.(election := Some(p.election.value.(peer := p.election.value.peer + 1))), {})
  }

  function DoWin(c: Cluster, n: nat): Cluster
    requires CanWin(c, n)
  {
    var p := c.procs[n];
    Put(c, n, p.(node := H.WinElection(p.node), election := None, calls := map[]), {})
  }

  function DoClientAppend(c: Cluster, n: nat, command: string): Cluster
    requires IsLeader(c, n)
  {
    var p := c.procs[n];
    Put(c, n, p.(node := H.AppendClient(p.node, command),
                 calls := p.calls[H.LogSize(p.node) := Call(p.node.term, 0, 1, None)]), {})
  }

  function DoCallSend(c: Cluster, n: nat, index: int): Cluster
    requires CanCall(c, n, index)
  {
    var p := c.procs[n];
    var call := p.calls[index];
    var request := H.ClientRequest(p.node, call.peer, index);
    Put(c, n, p.(calls := p.calls[index := call.(pending := Some(request))]),
        {AppReq(n, PeerId(n, call.peer), request)})
  }

  function DoCallReply(c: Cluster, n: nat, index: int, m: Msg): Cluster
    requires CanCall(c, n, index) && CanTakeReply(c, n, index, m)
  {
    var p := c.procs[n];
    var call := p.calls[index];
    var node := H.ClientReply(p.node, call.peer, index, m.appendReply);
    Put(c, n, p.(node := node, calls := p.calls[index := NextPeer(call, m.appendReply.success)]), {})
  }

  function DoCallMiss(c: Cluster, n: nat, index: int): Cluster
    requires CanCall(c, n, index)
  {
    var p := c.procs[n];
    Put(c, n, p.(calls := p.calls[index := NextPeer(p.calls[index], false)]), {})
  }

  function DoCallRefused(c: Cluster, n: nat, index: int): Cluster
    requires CanCall(c, n, index)
  {
    var p := c.procs[n];
    var call := p.calls[index];
    var node := H.ClientReply(p.node, call.peer, index, H.REFUSED);
    Put(c, n, p.(node := node, calls := p.calls[index := NextPeer(call, false)]), {})
  }

  function DoCommit(c: Cluster, n: nat, index: int): Cluster
    requires CanCommit(c, n, index)
  {
    var p := c.procs[n];
    Put(c, n, p.(node := H.CommitClient(p.node, index), calls := p.calls - {index}), {})
  }

  function DoBeat(c: Cluster, n: nat, slot: nat): Cluster
    requires IsLeader(c, n) && CanBeat(c, n, slot)
  {
    var p := c.procs[n];
    Put(c, n, p, {AppReq(n, PeerId(n, slot), H.HeartbeatRequest(p.node, slot))})
  }

  function DoTakeBeat(c: Cluster, n: nat, m: Msg): Cluster
    requires IsLeader(c, n) && CanTakeBeat(c, n, m)
  {
    var p := c.procs[n];
    Put(c, n, p.(node := H.HeartbeatReply(p.node, PeerSlot(n, m.src), m.append.prevLogIndex + 1,
                                          |m.append.entries|, m.appendReply)), {})
  }

  function DoBeatRefused(c: Cluster, n: nat, slot: nat): Cluster
    requires IsLeader(c, n) && CanBeat(c, n, slot)
  {
    var p := c.procs[n];
    Put(c, n, p.(node := H.HeartbeatReply(p.node, slot, p.node.nextIndex[slot], 0, H.REFUSED)), {})
  }

  function DoHandleAppend(c: Cluster, m: Msg): Cluster
    requires CanHandle(c, m) && m.AppReq?
  {
    var p := c.procs[m.dst];
    var (node, reply) := H.HandleAppend(p.node, m.append);
    Put(c, m.dst, p.(node := node), {AppRep(m.dst, m.src, m.append, reply)})
  }

  ghost function DoSendChunk(c: Cluster, n: nat, slot: nat, order: seq<SnapshotCodec.Pair>, chunkNum: nat): Cluster
    requires IsLeader(c, n) && CanSendChunk(c, n, slot, order, chunkNum)
  {
    var p := c.procs[n];
    var snap := p.node.snapshot.value;
    Put(c, n, p, {SnapReq(n, PeerId(n, slot),
      H.SnapshotRequest(p.node.term, n, snap, SnapshotBytes(snap, order), chunkNum))})
  }

  function DoHandleChunk(c: Cluster, m: Msg, unread: Snapshot): Cluster
    requires CanHandle(c, m) && m.SnapReq?
  {
    var p := c.procs[m.dst];
    var (node, reply) := H.HandleSnapshot(p.node, m.snap, unread);
    Put(c, m.dst, p.(node := node), {SnapRep(m.dst, m.src, m.snap, reply)})
  }

  function DoTakeChunkReply(c: Cluster, n: nat, m: Msg): Cluster
    requires IsLeader(c, n) && CanTakeChunkReply(c, n, m)
  {
    var p := c.procs[n];
    if m.snapReply.success && m.snap.done then
      Put(c, n, p.(node := H.SnapshotDone(p.node, PeerSlot(n, m.src), m.snap.lastIncludedIndex)), {})
    else Put(c, n, p, {})
  }

  function DoTrigger(c: Cluster, n: nat): Cluster
    requires n < |c.procs|
  {
    Put(c, n, c.procs[n].(node := H.Compact(c.procs[n].node)), {})
  }

  function DoCrash(c: Cluster, n: nat, replayed: KV): Cluster
    requires n < |c.procs|
  {
    Put(c, n, Proc(H.Restart(c.procs[n].node, replayed), None, map[]), {})
  }

  /** A node that has never run. Its store is whatever its write-ahead log gave back. */
  predicate Fresh(n: Node, id: nat, size: nat)
    requires size > 0
  {
    && n.id == id && n.role == Follower && n.term == 0 && n.votedFor == -1 && n.leaderId == -1
    && n.log == [] && n.snapshot == None && n.commitIndex == 0 && n.lastApplied == 0
    && n.nextIndex == seq(size - 1, _ => 0) && n.matchIndex == seq(size - 1, _ => -1)
    && n.buffer == [] && n.disk == Disk(0, -1, [], None)
  }

  predicate Init(c: Cluster) {
    && |c.procs| > 0 && c.msgs == {}
    && forall i | 0 <= i < |c.procs| ::
         Fresh(c.procs[i].node, i, |c.procs|) && c.procs[i].election == None && c.procs[i].calls == map[]
  }

  /** `r` are the states and `steps` the steps of a run from an initial state. */
  ghost predicate IsRun(r: seq<Cluster>, steps: seq<Step>) {
    && |r| == |steps| + 1
    && Init(r[0])
    && forall k | 0 <= k < |steps| :: RunStep(r, steps, k)
  }

  ghost predicate RunStep(r: seq<Cluster>, steps: seq<Step>, k: nat)
    requires k < |steps| && |r| == |steps| + 1
  {
    Enabled(r[k], steps[k]) && r[k + 1] == Do(r[k], steps[k])
  }

  predicate Leads(c: Cluster, n: nat, term: nat) {
    n < |c.procs| && c.procs[n].node.role == Leader && c.procs[n].node.term == term
  }
}
