/** Snapshots as bytes: serialized, cut into chunks, carried as base64 text, reassembled by
    offset and read back. */
module SnapshotCodec {
  import opened RaftTypes
  import opened ByteCodec

  type Pair = (string, string)

  function EncodePair(p: Pair): seq<Byte> {
    IntBytes(|p.0|) + StringBytes(p.0) + IntBytes(|p.1|) + StringBytes(p.1)
  }

  function EncodePairs(ps: seq<Pair>): seq<Byte>
    decreases |ps|
  {
    if ps == [] then [] else EncodePair(ps[0]) + EncodePairs(ps[1..])
  }

  /** The bytes of a snapshot whose map is iterated in the order `ps`. */
  function Serialize(index: int, term: int, ps: seq<Pair>): (b: seq<Byte>)
    ensures |b| >= 12
  {
    IntBytes(index) + IntBytes(term) + IntBytes(|ps|) + EncodePairs(ps)
  }

  function PutAll(m: KV, ps: seq<Pair>): KV
    decreases |ps|
  {
    if ps == [] then m else PutAll(m[ps[0].0 := ps[0].1], ps[1..])
  }

  /** `ps` is an iteration order of `kv`: every key once, with its value. */
  ghost predicate Enumerates(ps: seq<Pair>, kv: KV) {
    && (forall i | 0 <= i < |ps| :: ps[i].0 in kv && kv[ps[i].0] == ps[i].1)
    && (forall i, j | 0 <= i < j < |ps| :: ps[i].0 != ps[j].0)
    && (forall k | k in kv :: exists i | 0 <= i < |ps| :: ps[i].0 == k)
  }

  /** What the 32-bit fields of the format can hold. */
  predicate Fits(index: int, term: int, ps: seq<Pair>) {
    && Int32(index) && Int32(term) && Int32(|ps|)
    && forall i | 0 <= i < |ps| :: PairFits(ps[i])
  }

  predicate PairFits(p: Pair) {
    Int32(|p.0|) && Int32(|p.1|) && ByteString(p.0) && ByteString(p.1)
  }

  // ---------- reading ----------

  function ReadInt(b: seq<Byte>): Option<(int, seq<Byte>)> {
    if |b| < 4 then None else Some((IntOf(b[..4]), b[4..]))
  }

  function ReadString(b: seq<Byte>, n: int): Option<(string, seq<Byte>)> {
    if 0 <= n <= |b| then Some((StringOf(b[..n]), b[n..])) else None
  }

  function ReadPair(b: seq<Byte>): (r: Option<(Pair, seq<Byte>)>) {
    match ReadInt(b)
    case None => None
    case Some((klen, b1)) =>
      match ReadString(b1, klen)
      case None => None
      case Some((key, b2)) =>
        match ReadInt(b2)
        case None => None
        case Some((vlen, b3)) =>
          match ReadString(b3, vlen)
          case None => None
          case Some((value, b4)) => Some(((key, value), b4))
  }

  /** Reads `n` more pairs into `m`. */
  function ReadInto(b: seq<Byte>, n: int, m: KV): Option<KV>
    decreases n
  {
    if n <= 0 then Some(m)
    else
      match ReadPair(b)
      case None => None
      case Some((p, rest)) => ReadInto(rest, n - 1, m[p.0 := p.1])
  }

  /** The snapshot in a buffer; None when a read falls short or a length is negative. */
  function Deserialize(b: seq<Byte>): Option<Snapshot> {
    if |b| < 12 then None
    else
      match ReadInto(b[12..], IntOf(b[8..12]), map[])
      case None => None
      case Some(kv) => Some(Snapshot(IntOf(b[..4]), IntOf(b[4..8]), kv))
  }

  lemma IntReads(x: int, rest: seq<Byte>)
    requires Int32(x)
    ensures ReadInt(IntBytes(x) + rest) == Some((x, rest))
  {
    IntRoundTrip(x);
    assert (IntBytes(x) + rest)[..4] == IntBytes(x);
    assert (IntBytes(x) + rest)[4..] == rest;
  }

  /** A serialized snapshot begins with its index, its term and the number of its pairs. */
  lemma SerializeBegins(index: int, term: int, ps: seq<Pair>)
    requires Int32(index) && Int32(term) && Int32(|ps|)
    ensures var b := Serialize(index, term, ps);
      IntOf(b[..4]) == index && IntOf(b[4..8]) == term && IntOf(b[8..12]) == |ps|
  {
    var b := Serialize(index, term, ps);
    assert b[..4] == IntBytes(index) && b[4..8] == IntBytes(term) && b[8..12] == IntBytes(|ps|);
    IntRoundTrip(index);
    IntRoundTrip(term);
    IntRoundTrip(|ps|);
  }

  lemma StringReads(s: string, rest: seq<Byte>)
    requires ByteString(s)
    ensures ReadString(StringBytes(s) + rest, |s|) == Some((s, rest))
  {
    StringRoundTrip(s);
    assert (StringBytes(s) + rest)[..|s|] == StringBytes(s);
    assert (StringBytes(s) + rest)[|s|..] == rest;
  }

  lemma PairReads(p: Pair, rest: seq<Byte>)
    requires PairFits(p)
    ensures ReadPair(EncodePair(p) + rest) == Some((p, rest))
  {
    var b3 := StringBytes(p.1) + rest;
    var b2 := IntBytes(|p.1|) + b3;
    var b1 := StringBytes(p.0) + b2;
    assert EncodePair(p) + rest == IntBytes(|p.0|) + b1;
    IntReads(|p.0|, b1);
    StringReads(p.0, b2);
    IntReads(|p.1|, b3);
    StringReads(p.1, rest);
  }

  lemma {:induction false} PairsRead(ps: seq<Pair>, m: KV)
    requires forall i | 0 <= i < |ps| :: PairFits(ps[i])
    ensures ReadInto(EncodePairs(ps), |ps|, m) == Some(PutAll(m, ps))
    decreases |ps|
  {
    if ps != [] {
      PairReads(ps[0], EncodePairs(ps[1..]));
      PairsRead(ps[1..], m[ps[0].0 := ps[0].1]);
    }
  }

  lemma {:induction false} PutAllGives(m: KV, ps: seq<Pair>, kv: KV)
    requires forall i | 0 <= i < |ps| :: ps[i].0 in kv && kv[ps[i].0] == ps[i].1
    requires forall k | k in m :: k in kv && m[k] == kv[k]
    requires forall k | k in kv :: k in m || exists i | 0 <= i < |ps| :: ps[i].0 == k
    ensures PutAll(m, ps) == kv
    decreases |ps|
  {
    if ps == [] {
      assert m.Keys == kv.Keys;
    } else {
      var m' := m[ps[0].0 := ps[0].1];
      forall k | k in kv ensures k in m' || exists i | 0 <= i < |ps[1..]| :: ps[1..][i].0 == k {
        if k !in m {
          var i :| 0 <= i < |ps| && ps[i].0 == k;
          assert i > 0 ==> ps[1..][i - 1].0 == k;
        }
      }
      PutAllGives(m', ps[1..], kv);
    }
  }

  lemma HeaderOf(index: int, term: int, ps: seq<Pair>)
    requires Fits(index, term, ps)
    ensures var b := Serialize(index, term, ps);
      && IntOf(b[..4]) == index && IntOf(b[4..8]) == term && IntOf(b[8..12]) == |ps|
      && b[12..] == EncodePairs(ps)
  {
    Slices(IntBytes(index), IntBytes(term), IntBytes(|ps|), EncodePairs(ps));
    IntRoundTrip(index);
    IntRoundTrip(term);
    IntRoundTrip(|ps|);
  }

  lemma Slices<T>(a: seq<T>, b: seq<T>, c: seq<T>, d: seq<T>)
    requires |a| == |b| == |c| == 4
    ensures var s := a + b + c + d;
      s[..4] == a && s[4..8] == b && s[8..12] == c && s[12..] == d
  {}

  /** Reading back a serialized snapshot gives the same index, term and map, in whatever order
      the map was iterated. */
  lemma SerializeRoundTrip(index: int, term: int, ps: seq<Pair>, kv: KV)
    requires Fits(index, term, ps) && Enumerates(ps, kv)
    ensures Deserialize(Serialize(index, term, ps)) == Some(Snapshot(index, term, kv))
  {
    HeaderOf(index, term, ps);
    PairsRead(ps, map[]);
    PutAllGives(map[], ps, kv);
  }

  // ---------- the loops ----------

  lemma {:induction false} PairsAppend(ps: seq<Pair>, p: Pair)
    ensures EncodePairs(ps + [p]) == EncodePairs(ps) + EncodePair(p)
    decreases |ps|
  {
    if ps == [] {
      assert [p][1..] == [];
    } else {
      assert (ps + [p])[1..] == ps[1..] + [p];
      PairsAppend(ps[1..], p);
    }
  }

  method SerializeSnapshot(snap: Snapshot, order: seq<Pair>) returns (oss: seq<Byte>)
    ensures oss == Serialize(snap.lastIncludedIndex, snap.lastIncludedTerm, order)
  {
    oss := IntBytes(snap.lastIncludedIndex) + IntBytes(snap.lastIncludedTerm) + IntBytes(|order|);
    var pairs := SerializePairs(order);
    oss := oss + pairs;
  }

  method SerializePairs(order: seq<Pair>) returns (oss: seq<Byte>)
    ensures oss == EncodePairs(order)
  {
    oss := [];
    for i := 0 to |order|
      invariant oss == EncodePairs(order[..i])
    {
      PairsAppend(order[..i], order[i]);
      assert order[..i + 1] == order[..i] + [order[i]];
      var (k, v) := order[i];
      oss := oss + (IntBytes(|k|) + StringBytes(k) + IntBytes(|v|) + StringBytes(v));
    }
    assert order[..|order|] == order;
  }

  method DeserializeSnapshot(buffer: seq<Byte>) returns (snap: Option<Snapshot>)
    ensures snap == Deserialize(buffer)
  {
    if |buffer| < 12 {
      return None;
    }
    var kvState := DeserializePairs(buffer[12..], IntOf(buffer[8..12]));
    snap := if kvState.None? then None
            else Some(Snapshot(IntOf(buffer[..4]), IntOf(buffer[4..8]), kvState.value));
  }

  method NextPair(b: seq<Byte>) returns (next: Option<(Pair, seq<Byte>)>)
    ensures next == ReadPair(b)
  {
    next := ReadPair(b);
  }

  lemma ReadIntoStep(b: seq<Byte>, n: int, m: KV, next: Option<(Pair, seq<Byte>)>, whole: Option<KV>)
    requires n > 0 && next == ReadPair(b) && whole == ReadInto(b, n, m)
    ensures next.None? ==> whole == None
    ensures next.Some? ==>
      ReadInto(next.value.1, n - 1, m[next.value.0.0 := next.value.0.1]) == whole
  {}

  lemma ReadIntoDone(b: seq<Byte>, n: int, m: KV)
    requires n <= 0
    ensures ReadInto(b, n, m) == Some(m)
  {}

  method DeserializePairs(bytes: seq<Byte>, size: int) returns (kvState: Option<KV>)
    ensures kvState == ReadInto(bytes, size, map[])
  {
    var iss := bytes;
    var m: KV := map[];
    var left := size;
    ghost var whole := ReadInto(bytes, size, map[]);
    while left > 0
      invariant ReadInto(iss, left, m) == whole
    {
      var next := NextPair(iss);
      ReadIntoStep(iss, left, m, next, whole);
      if next.None? {
        return None;
      }
      m := m[next.value.0.0 := next.value.0.1];
      iss := next.value.1;
      left := left - 1;
    }
    ReadIntoDone(iss, left, m);
    kvState := Some(m);
  }

  // ---------- chunks ----------

  function Min(a: int, b: int): int {
    if a < b then a else b
  }

  function ChunkCount(n: nat, size: nat): nat
    requires size > 0
  {
    (n + size - 1) / size
  }

  /** The bytes at `offset`, at most one chunk of them. */
  function ChunkAt(bytes: seq<Byte>, offset: nat): seq<Byte>
    requires offset <= |bytes|
  {
    bytes[offset..Min(offset + CHUNK_SIZE, |bytes|)]
  }

  /** The buffer grown with zeros where needed, then overwritten at `offset`. */
  function WriteAt(buffer: seq<Byte>, offset: nat, chunk: seq<Byte>): (r: seq<Byte>)
    ensures |r| >= offset + |chunk| && |r| >= |buffer|
  {
    var b := if |buffer| < offset + |chunk| then buffer + seq(offset + |chunk| - |buffer|, _ => 0) else buffer;
    b[..offset] + chunk + b[offset + |chunk|..]
  }

  /** The chunk stands at its offset, what was there before stays around it, and a gap is zeros. */
  lemma WriteAtGives(buffer: seq<Byte>, offset: nat, chunk: seq<Byte>)
    ensures var r, end := WriteAt(buffer, offset, chunk), offset + |chunk|;
      && |r| == (if |buffer| < end then end else |buffer|)
      && r[offset..end] == chunk
      && forall i | 0 <= i < |r| && !(offset <= i < end) :: r[i] == if i < |buffer| then buffer[i] else 0
  {}
}
