/** The entities of the Raft key-value store: log entries, snapshots, the state of one node
    and what a node keeps on disk. */
module RaftTypes {

  datatype Option<+T> = None | Some(value: T)

  datatype Role = Follower | Candidate | Leader

  datatype Entry = Entry(term: nat, index: int, command: string)

  type Log = seq<Entry>

  type KV = map<string, string>

  /** One byte of a C++ `char` buffer, read as unsigned. */
  type Byte = b: int | 0 <= b < 256

  datatype Snapshot = Snapshot(lastIncludedIndex: int, lastIncludedTerm: int, kv: KV)

  /** What a restart finds: the metadata file (term, vote, log) and the snapshot file. */
  datatype Disk = Disk(term: nat, votedFor: int, log: Log, snapshot: Option<Snapshot>)

  /** The fields of one Raft node. `votedFor` and `leaderId` are -1 when unset, and
      `nextIndex` and `matchIndex` have one slot for each peer. */
  datatype Node = Node(
    id: nat,
    role: Role,
    term: nat,
    votedFor: int,
    leaderId: int,
    log: Log,
    snapshot: Option<Snapshot>,
    commitIndex: int,
    lastApplied: int,
    nextIndex: seq<int>,
    matchIndex: seq<int>,
    store: KV,
    buffer: seq<Byte>,
    disk: Disk)

  datatype VoteArgs = VoteArgs(term: nat, candidateId: nat, lastLogIndex: int, lastLogTerm: int)

  datatype VoteReply = VoteReply(term: nat, granted: bool)

  datatype AppendArgs = AppendArgs(
    term: nat, leaderId: nat, prevLogIndex: int, prevLogTerm: int, entries: Log, leaderCommit: int)

  datatype AppendReply = AppendReply(term: nat, success: bool)

  /** An InstallSnapshot request; `data` is base64 text. */
  datatype SnapArgs = SnapArgs(
    term: nat, leaderId: nat, lastIncludedIndex: int, lastIncludedTerm: int,
    offset: nat, data: string, done: bool, chunkNum: int, totalChunks: int)

  datatype SnapReply = SnapReply(term: nat, success: bool)

  /** The number of entries a heartbeat carries at most. */
  const MAX_ENTRIES_PER_BATCH: int := 20

  /** The physical log length at which a node compacts by itself. */
  const SNAPSHOT_THRESHOLD: int := 3000

  const CHUNK_SIZE: nat := 512

  const MAX_JSON: nat := 2040

  /** The bytes of a request that a receiver's buffer holds. */
  const MAX_REQUEST: nat := 8191
}
