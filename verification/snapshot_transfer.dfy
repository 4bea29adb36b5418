/** A whole snapshot transfer: the leader's chunk loop, the size of each message, and what the
    follower installs. */
module SnapshotTransfer {
  import opened RaftTypes
  import opened SnapshotCodec
  import opened ByteCodec
  import opened JsonText
  import H = Handlers
  import Base64

  // ---------- the size of a message ----------

  function DoneText(done: bool): string {
    if done then "true" else "false"
  }

  function DataText(a: SnapArgs): string {
    Key("chunkNum") + Decimal(a.chunkNum) + Field("data", "\"" + a.data + "\"") + Field("done", DoneText(a.done))
  }

  function SnapText(a: SnapArgs): string {
    Field("lastIncludedIndex", Decimal(a.lastIncludedIndex)) + Field("lastIncludedTerm", Decimal(a.lastIncludedTerm))
  }

  function PlaceText(a: SnapArgs): string {
    Field("leaderId", Decimal(a.leaderId)) + Field("offset", Decimal(a.offset))
  }

  function CallText(a: SnapArgs): string {
    Field("rpc", "\"InstallSnapshot\"") + Field("term", Decimal(a.term)) + Field("totalChunks", Decimal(a.totalChunks))
  }

  /** The JSON text of an InstallSnapshot request: the fields in the order of their names. */
  function Json(a: SnapArgs): string {
    Object(DataText(a) + SnapText(a) + PlaceText(a) + CallText(a))
  }

  predicate HeaderFits(a: SnapArgs) {
    && Int32(a.chunkNum) && Int32(a.lastIncludedIndex) && Int32(a.lastIncludedTerm) && Int32(a.leaderId)
    && Int32(a.offset) && Int32(a.term) && Int32(a.totalChunks)
  }

  lemma JsonLength(a: SnapArgs)
    requires HeaderFits(a) && |a.data| <= 684
    ensures |Json(a)| <= MAX_JSON
  {
    DecimalLength(a.chunkNum);
    NumberShort("lastIncludedIndex", a.lastIncludedIndex);
    NumberShort("lastIncludedTerm", a.lastIncludedTerm);
    NumberShort("leaderId", a.leaderId);
    NumberShort("offset", a.offset);
    NumberShort("term", a.term);
    NumberShort("totalChunks", a.totalChunks);
  }

  lemma ChunkText(bytes: seq<Byte>, offset: nat)
    requires offset <= |bytes|
    ensures |Base64.Encode(ChunkAt(bytes, offset))| <= 684
  {
    Base64.EncodeLength(ChunkAt(bytes, offset));
  }

  /** A leader whose numbers are 32 bits wide and whose snapshot is under two gigabytes. */
  predicate Sendable(term: nat, leader: nat, snap: Snapshot, bytes: seq<Byte>) {
    Int32(term) && Int32(leader) && Int32(snap.lastIncludedIndex) && Int32(snap.lastIncludedTerm) && Int32(|bytes|)
  }

  /** Every message of a transfer is short enough to be sent as it is. */
  lemma MessageFits(term: nat, leader: nat, snap: Snapshot, bytes: seq<Byte>, chunkNum: nat)
    requires Sendable(term, leader, snap, bytes) && chunkNum * CHUNK_SIZE <= |bytes|
    ensures |Json(H.SnapshotRequest(term, leader, snap, bytes, chunkNum))| <= MAX_JSON
  {
    ChunkText(bytes, chunkNum * CHUNK_SIZE);
    JsonLength(H.SnapshotRequest(term, leader, snap, bytes, chunkNum));
  }

  // ---------- the chunks cover the bytes ----------

  /** What the first `k` chunks carry, one after the other. */
  function Carried(bytes: seq<Byte>, k: nat): seq<Byte>
    requires k <= ChunkCount(|bytes|, CHUNK_SIZE)
  {
    if k == 0 then [] else
      LastOffset(bytes, k);
      Carried(bytes, k - 1) + Base64.Decode(Base64.Encode(ChunkAt(bytes, (k - 1) * CHUNK_SIZE)))
  }

  lemma LastOffset(bytes: seq<Byte>, k: nat)
    requires 0 < k <= ChunkCount(|bytes|, CHUNK_SIZE)
    ensures (k - 1) * CHUNK_SIZE < |bytes|
    ensures k == ChunkCount(|bytes|, CHUNK_SIZE) <==> k * CHUNK_SIZE >= |bytes|
  {}

  lemma ReadBackChunk(bytes: seq<Byte>, at: nat)
    requires at <= |bytes|
    ensures bytes[..at] + Base64.Decode(Base64.Encode(ChunkAt(bytes, at))) == bytes[..Min(at + CHUNK_SIZE, |bytes|)]
  {
    Base64.RoundTrip(ChunkAt(bytes, at));
    Joined(bytes, at, Min(at + CHUNK_SIZE, |bytes|));
  }

  lemma OneMoreChunk(bytes: seq<Byte>, k: nat, before: seq<Byte>, at: nat, end: nat)
    requires 0 < k <= ChunkCount(|bytes|, CHUNK_SIZE) && before == Carried(bytes, k - 1)
    requires at == (k - 1) * CHUNK_SIZE <= |bytes| && before == bytes[..at] && end == Min(at + CHUNK_SIZE, |bytes|)
    ensures Carried(bytes, k) == bytes[..end]
  {
    ReadBackChunk(bytes, at);
  }

  /** Read back, the first `k` chunks are the first `512 * k` bytes: all chunks together carry
      every byte once, in order. */
  lemma {:induction false} ChunksCover(bytes: seq<Byte>, k: nat)
    requires k <= ChunkCount(|bytes|, CHUNK_SIZE)
    ensures Carried(bytes, k) == bytes[..Min(k * CHUNK_SIZE, |bytes|)]
    ensures k == ChunkCount(|bytes|, CHUNK_SIZE) ==> Carried(bytes, k) == bytes
  {
    if k == 0 {
      assert bytes[..0] == [];
    } else {
      ChunksCover(bytes, k - 1);
      LastOffset(bytes, k);
      var at := (k - 1) * CHUNK_SIZE;
      OneMoreChunk(bytes, k, bytes[..at], at, Min(at + CHUNK_SIZE, |bytes|));
    }
    if k == ChunkCount(|bytes|, CHUNK_SIZE) {
      assert bytes[..|bytes|] == bytes;
    }
  }

  lemma Joined(bytes: seq<Byte>, a: nat, b: nat)
    requires a <= b <= |bytes|
    ensures bytes[..a] + bytes[a..b] == bytes[..b]
  {}

  // ---------- the sender ----------

  /** The outcome of one remote call: no answer, a refusal, or an acceptance. */
  datatype Answer = Lost | Rejected | Accepted

  function AnswerTo(answers: seq<Answer>, k: nat): Answer {
    if k < |answers| then answers[k] else Lost
  }

  predicate AcceptedTo(answers: seq<Answer>, k: nat) {
    k <= |answers| && forall i | 0 <= i < k :: answers[i] == Accepted
  }

  lemma OneMoreAccepted(answers: seq<Answer>, k: nat)
    requires AcceptedTo(answers, k) && AnswerTo(answers, k) == Accepted
    ensures AcceptedTo(answers, k + 1)
  {}

  /** The first `k` messages of a transfer. */
  function Messages(term: nat, leader: nat, snap: Snapshot, bytes: seq<Byte>, k: nat): (s: seq<SnapArgs>)
    requires k <= ChunkCount(|bytes|, CHUNK_SIZE)
  {
    if k == 0 then [] else
      LastOffset(bytes, k);
      Messages(term, leader, snap, bytes, k - 1) + [H.SnapshotRequest(term, leader, snap, bytes, k - 1)]
  }

  lemma {:induction false} MessageIs(term: nat, leader: nat, snap: Snapshot, bytes: seq<Byte>, k: nat, i: nat)
    requires i < k <= ChunkCount(|bytes|, CHUNK_SIZE)
    ensures i * CHUNK_SIZE < |bytes| && |Messages(term, leader, snap, bytes, k)| == k
    ensures Messages(term, leader, snap, bytes, k)[i] == H.SnapshotRequest(term, leader, snap, bytes, i)
  {
    LastOffset(bytes, i + 1);
    if k > 1 {
      MessageIs(term, leader, snap, bytes, k - 1, if i == k - 1 then 0 else i);
    }
  }

  /** All of them are short enough to be sent as they are. */
  lemma MessagesFit(term: nat, leader: nat, snap: Snapshot, bytes: seq<Byte>, k: nat)
    requires Sendable(term, leader, snap, bytes) && k <= ChunkCount(|bytes|, CHUNK_SIZE)
    ensures forall a | a in Messages(term, leader, snap, bytes, k) :: |Json(a)| <= MAX_JSON
  {
    var s := Messages(term, leader, snap, bytes, k);
    if k > 0 {
      MessageIs(term, leader, snap, bytes, k, 0);
    }
    forall a | a in s ensures |Json(a)| <= MAX_JSON {
      var i :| 0 <= i < |s| && s[i] == a;
      MessageIs(term, leader, snap, bytes, k, i);
      MessageFits(term, leader, snap, bytes, i);
    }
  }

  /** One chunk's message. The branch in which its text is too long, and the transfer would
      start over with smaller chunks, is never taken. */
  method BuildMessage(term: nat, leader: nat, snap: Snapshot, bytes: seq<Byte>, k: nat) returns (a: SnapArgs)
    requires Sendable(term, leader, snap, bytes) && k < ChunkCount(|bytes|, CHUNK_SIZE)
    ensures Messages(term, leader, snap, bytes, k + 1) == Messages(term, leader, snap, bytes, k) + [a]
    ensures a.done <==> k + 1 == ChunkCount(|bytes|, CHUNK_SIZE)
  {
    LastOffset(bytes, k + 1);
    MessageFits(term, leader, snap, bytes, k);
    a := H.SnapshotRequest(term, leader, snap, bytes, k);
    if |Json(a)| > MAX_JSON {
      assert false;
    }
  }

  /** The leader's chunk loop; `answers` are the outcomes of its calls, the ones not given being
      lost. It sends chunk after chunk until one is not accepted, in no more turns than there are
      chunks: no message is too long, so it never restarts with smaller chunks. It reports
      success exactly when every chunk was accepted. */
  method SendChunks(term: nat, leader: nat, snap: Snapshot, bytes: seq<Byte>, answers: seq<Answer>)
      returns (sent: seq<SnapArgs>, complete: bool)
    requires Sendable(term, leader, snap, bytes) && bytes != []
    ensures |sent| <= ChunkCount(|bytes|, CHUNK_SIZE) && sent == Messages(term, leader, snap, bytes, |sent|)
    ensures complete <==> AcceptedTo(answers, ChunkCount(|bytes|, CHUNK_SIZE))
    ensures complete ==> |sent| == ChunkCount(|bytes|, CHUNK_SIZE)
    ensures !complete ==> |sent| > 0 && AnswerTo(answers, |sent| - 1) != Accepted && AcceptedTo(answers, |sent| - 1)
  {
    var chunkCount := ChunkCount(|bytes|, CHUNK_SIZE);
    SerializedHasChunks(bytes);
    var chunkNum := 0;
    complete := false;
    sent := [];
    while chunkNum < chunkCount
      invariant chunkNum <= chunkCount && |sent| == chunkNum
      invariant sent == Messages(term, leader, snap, bytes, chunkNum)
      invariant AcceptedTo(answers, chunkNum)
      invariant complete <==> chunkNum == chunkCount
    {
      var message := BuildMessage(term, leader, snap, bytes, chunkNum);
      sent := sent + [message];
      if AnswerTo(answers, chunkNum) != Accepted {
        return;
      }
      OneMoreAccepted(answers, chunkNum);
      if message.done {
        complete := true;
      }
      chunkNum := chunkNum + 1;
    }
  }

  lemma SerializedHasChunks(bytes: seq<Byte>)
    requires bytes != []
    ensures ChunkCount(|bytes|, CHUNK_SIZE) > 0
  {}

  // ---------- the receiver ----------

  /** The follower after the first `k` messages of a transfer, handled in order. */
  function Receive(n: Node, term: nat, leader: nat, snap: Snapshot, bytes: seq<Byte>, k: nat, unread: Snapshot): Node
    requires k <= ChunkCount(|bytes|, CHUNK_SIZE)
  {
    if k == 0 then n else
      LastOffset(bytes, k);
      H.HandleSnapshot(Receive(n, term, leader, snap, bytes, k - 1, unread),
                       H.SnapshotRequest(term, leader, snap, bytes, k - 1), unread).0
  }

  /** The follower with its own log and state, in the sender's term. */
  function InTerm(n: Node, term: nat): Node {
    if term > n.term then H.BecomeFollower(n, term) else n
  }

  lemma WriteNext(bytes: seq<Byte>, from: nat, to: nat)
    requires from <= to <= |bytes|
    ensures WriteAt(bytes[..from], from, bytes[from..to]) == bytes[..to]
  {}

  /** A chunk that is not the last one goes into the buffer behind what came before. */
  lemma MidChunk(m: Node, term: nat, leader: nat, snap: Snapshot, bytes: seq<Byte>, k: nat, unread: Snapshot)
    requires m.term <= term && 0 < k < ChunkCount(|bytes|, CHUNK_SIZE)
    requires (k - 1) * CHUNK_SIZE <= |bytes|
    requires k > 1 ==> m.buffer == bytes[..(k - 1) * CHUNK_SIZE]
    ensures k * CHUNK_SIZE < |bytes|
    ensures H.HandleSnapshot(m, H.SnapshotRequest(term, leader, snap, bytes, k - 1), unread).0 ==
      InTerm(m, term).(buffer := bytes[..k * CHUNK_SIZE])
  {
    var at := (k - 1) * CHUNK_SIZE;
    LastOffset(bytes, k);
    Base64.RoundTrip(ChunkAt(bytes, at));
    WriteNext(bytes, at, at + CHUNK_SIZE);
    if k == 1 {
      assert bytes[..0] == [];
    }
  }

  /** Part-way, the follower has changed nothing but its term and its buffer, which holds what
      has come so far; what the buffer held before the first chunk is gone. */
  lemma {:induction false} Buffered(n: Node, term: nat, leader: nat, snap: Snapshot, bytes: seq<Byte>, k: nat,
                                    unread: Snapshot)
    requires n.term <= term && 0 < k < ChunkCount(|bytes|, CHUNK_SIZE)
    ensures k * CHUNK_SIZE < |bytes|
    ensures Receive(n, term, leader, snap, bytes, k, unread) == InTerm(n, term).(buffer := bytes[..k * CHUNK_SIZE])
  {
    if k > 1 {
      Buffered(n, term, leader, snap, bytes, k - 1, unread);
    }
    MidChunk(Receive(n, term, leader, snap, bytes, k - 1, unread), term, leader, snap, bytes, k, unread);
  }

  lemma LastWrite(bytes: seq<Byte>, k: nat)
    requires 0 < k == ChunkCount(|bytes|, CHUNK_SIZE)
    ensures var at := (k - 1) * CHUNK_SIZE;
      at < |bytes| && WriteAt(bytes[..at], at, Base64.Decode(Base64.Encode(ChunkAt(bytes, at)))) == bytes
  {
    LastOffset(bytes, k);
    var at := (k - 1) * CHUNK_SIZE;
    Base64.RoundTrip(ChunkAt(bytes, at));
    WriteNext(bytes, at, |bytes|);
    assert bytes[..|bytes|] == bytes;
  }

  /** The last chunk completes the buffer, which is then installed. */
  lemma LastChunk(m: Node, term: nat, leader: nat, snap: Snapshot, bytes: seq<Byte>, unread: Snapshot)
    requires bytes != [] && m.term == term
    requires var at := (ChunkCount(|bytes|, CHUNK_SIZE) - 1) * CHUNK_SIZE;
      at < |bytes| && (at > 0 ==> m.buffer == bytes[..at])
    requires Deserialize(bytes).Some?
    ensures var k := ChunkCount(|bytes|, CHUNK_SIZE);
      && (k - 1) * CHUNK_SIZE <= |bytes|
      && H.HandleSnapshot(m, H.SnapshotRequest(term, leader, snap, bytes, k - 1), unread).0 ==
         H.Install(m, Deserialize(bytes).value)
  {
    var k := ChunkCount(|bytes|, CHUNK_SIZE);
    LastOffset(bytes, k);
    LastWrite(bytes, k);
    var at := (k - 1) * CHUNK_SIZE;
    assert at == 0 ==> bytes[..at] == [];
    var a := H.SnapshotRequest(term, leader, snap, bytes, k - 1);
    assert a.done && a.offset == at;
    DoneInstalls(m, a, unread, bytes);
  }

  lemma DoneInstalls(m: Node, a: SnapArgs, unread: Snapshot, bytes: seq<Byte>)
    requires a.term == m.term && a.done && Deserialize(bytes).Some?
    requires bytes == WriteAt(if a.offset == 0 then [] else m.buffer, a.offset, Base64.Decode(a.data))
    ensures H.HandleSnapshot(m, a, unread).0 == H.Install(m, Deserialize(bytes).value)
  {}

  lemma BytesInstall(n: Node, term: nat, leader: nat, snap: Snapshot, bytes: seq<Byte>, unread: Snapshot)
    requires n.term <= term && bytes != [] && Deserialize(bytes).Some?
    ensures Receive(n, term, leader, snap, bytes, ChunkCount(|bytes|, CHUNK_SIZE), unread) ==
            H.Install(InTerm(n, term), Deserialize(bytes).value)
  {
    var k := ChunkCount(|bytes|, CHUNK_SIZE);
    SerializedHasChunks(bytes);
    LastOffset(bytes, k);
    if k == 1 {
      FirstIsLast(n, term, leader, snap, bytes, unread);
    } else {
      Buffered(n, term, leader, snap, bytes, k - 1, unread);
      LastChunk(InTerm(n, term).(buffer := bytes[..(k - 1) * CHUNK_SIZE]), term, leader, snap, bytes, unread);
    }
  }

  /** Snapshot transfer end to end: whatever the follower's log, state and leftover buffer, once
      it has handled the messages of one transfer in order, it holds exactly the leader's
      snapshot, in memory, in its store and on disk, for every map and every order in which the
      map was iterated. */
  lemma TransferInstalls(n: Node, term: nat, leader: nat, snap: Snapshot, order: seq<Pair>, unread: Snapshot)
    requires n.term <= term && Enumerates(order, snap.kv) && Fits(snap.lastIncludedIndex, snap.lastIncludedTerm, order)
    ensures var bytes := Serialize(snap.lastIncludedIndex, snap.lastIncludedTerm, order);
      var n' := Receive(n, term, leader, snap, bytes, ChunkCount(|bytes|, CHUNK_SIZE), unread);
      && n'.snapshot == n'.disk.snapshot == Some(snap) && n'.store == snap.kv
      && n'.lastApplied == n'.commitIndex == snap.lastIncludedIndex
      && n'.log == n'.disk.log == [] && n'.buffer == [] && n'.term == term
  {
    var bytes := Serialize(snap.lastIncludedIndex, snap.lastIncludedTerm, order);
    SerializeRoundTrip(snap.lastIncludedIndex, snap.lastIncludedTerm, order, snap.kv);
    BytesInstall(n, term, leader, snap, bytes, unread);
  }

  lemma FirstIsLast(n: Node, term: nat, leader: nat, snap: Snapshot, bytes: seq<Byte>, unread: Snapshot)
    requires n.term <= term && ChunkCount(|bytes|, CHUNK_SIZE) == 1 && bytes != [] && Deserialize(bytes).Some?
    ensures Receive(n, term, leader, snap, bytes, 1, unread) == H.Install(InTerm(n, term), Deserialize(bytes).value)
  {
    LastOffset(bytes, 1);
    LastChunk(InTerm(n, term), term, leader, snap, bytes, unread);
    var a := H.SnapshotRequest(term, leader, snap, bytes, 0);
    assert H.HandleSnapshot(n, a, unread).0 == H.HandleSnapshot(InTerm(n, term), a, unread).0;
  }
}
