/** What is appended behind a torn record. Opening leaves the torn bytes in the file, so the next
    record's bytes complete the torn one. */
module TornTail {
  import opened RaftTypes
  import opened ByteCodec
  import opened WriteAheadLog
  import opened KeyValueStore

  /** The bytes that a record cut at `k` lacks. */
  function Missing(r: Record, k: nat): nat
    requires k <= |EncodeRecord(r)|
  {
    |EncodeRecord(r)| - k
  }

  /** The record that is read where a record was cut at `k` and `tail` was written behind it. */
  function Swallowed(r: Record, k: nat, tail: seq<Byte>): Record
    requires HEADER <= k <= |EncodeRecord(r)| && Missing(r, k) <= |tail|
  {
    Record(r.term, r.index, r.command[..k - HEADER] + StringOf(tail[..Missing(r, k)]))
  }

  lemma SliceAcross(x: seq<Byte>, y: seq<Byte>, a: nat, m: nat)
    requires a <= |x| <= a + m <= |x| + |y|
    ensures (x + y)[a..a + m] == x[a..] + y[..a + m - |x|] && (x + y)[a + m..] == y[a + m - |x|..]
  {}

  lemma TextAcross(u: seq<Byte>, v: seq<Byte>)
    ensures StringOf(u + v) == StringOf(u) + StringOf(v)
  {}

  lemma CutBytes(r: Record, k: nat)
    requires ByteString(r.command) && HEADER <= k <= |EncodeRecord(r)|
    ensures StringOf(EncodeRecord(r)[..k][HEADER..]) == r.command[..k - HEADER]
  {
    assert EncodeRecord(r)[..k][HEADER..] == StringBytes(r.command)[..k - HEADER];
  }

  lemma CutCommand(r: Record, k: nat, tail: seq<Byte>)
    requires Storable(r) && HEADER <= k <= |EncodeRecord(r)| && Missing(r, k) <= |tail|
    ensures var b := EncodeRecord(r)[..k] + tail;
      && StringOf(b[HEADER..HEADER + |r.command|]) == r.command[..k - HEADER] + StringOf(tail[..Missing(r, k)])
      && b[HEADER + |r.command|..] == tail[Missing(r, k)..]
  {
    var x := EncodeRecord(r)[..k];
    SliceAcross(x, tail, HEADER, |r.command|);
    TextAcross(x[HEADER..], tail[..Missing(r, k)]);
    CutBytes(r, k);
  }

  lemma TornRead(r: Record, k: nat, tail: seq<Byte>, b: seq<Byte>)
    requires Storable(r) && HEADER <= k <= |EncodeRecord(r)| && b == EncodeRecord(r)[..k] + tail
    ensures |tail| < Missing(r, k) ==> ReadRecord(b) == None
    ensures |tail| >= Missing(r, k) ==> ReadRecord(b) == Some((Swallowed(r, k, tail), tail[Missing(r, k)..]))
  {
    assert b == Header(r) + b[HEADER..];
    HeaderReads(r, b[HEADER..]);
    if |tail| >= Missing(r, k) {
      CutCommand(r, k, tail);
    }
  }

  lemma ReadsOn(b: seq<Byte>)
    ensures ReadAll(b) ==
      if ReadRecord(b).None? then [] else [ReadRecord(b).value.0] + ReadAll(ReadRecord(b).value.1)
  {}

  /** A record torn behind its header takes in as many of the bytes written behind it as it lacks. As
      long as there are too few, nothing of them is read. */
  lemma TornTailSwallows(r: Record, k: nat, tail: seq<Byte>)
    requires Storable(r) && HEADER <= k <= |EncodeRecord(r)|
    ensures ReadAll(EncodeRecord(r)[..k] + tail) ==
      if |tail| < Missing(r, k) then [] else [Swallowed(r, k, tail)] + ReadAll(tail[Missing(r, k)..])
  {
    var b := EncodeRecord(r)[..k] + tail;
    TornRead(r, k, tail, b);
    ReadsOn(b);
  }

  // ---------- the store ----------

  function PutRecord(key: string, value: string): Record {
    Record(1, 1, PutText(key, value))
  }

  /** The file of a first PUT torn `p` characters into its key. */
  function TornFile(key: string, value: string, p: nat): seq<Byte>
    requires p <= |key|
  {
    EncodeRecord(PutRecord(key, value))[..HEADER + 4 + p]
  }

  lemma TornOpens(key: string, value: string, p: nat)
    requires Clean(Put(key, value)) && p < |key|
    ensures Open(TornFile(key, value, p)) == Store(map[], [], 0, TornFile(key, value, p))
  {
    NothingComplete(PutRecord(key, value), HEADER + 4 + p);
  }

  lemma SwallowedWhole(r: Record, k: nat, tail: seq<Byte>)
    requires Storable(r) && HEADER <= k <= |EncodeRecord(r)| && |tail| == Missing(r, k)
    ensures ReadAll(EncodeRecord(r)[..k] + tail) == [Swallowed(r, k, tail)]
    ensures Swallowed(r, k, tail).command == r.command[..k - HEADER] + StringOf(tail)
  {
    TornTailSwallows(r, k, tail);
    NothingLeft(tail);
  }

  lemma TextsJoin(op: string, piece: string, rest: string)
    ensures op + " " + piece + rest == op + " " + (piece + rest)
  {}

  /** What the swallowed record sets: a text that begins with a piece of the torn key and the first
      byte of the next record's header. */
  lemma SwallowedText(key: string, value: string, p: nat, tail: seq<Byte>)
    requires Clean(Put(key, value)) && p < |key| && |tail| == Missing(PutRecord(key, value), HEADER + 4 + p)
    ensures ReadAll(TornFile(key, value, p) + tail) == [Swallowed(PutRecord(key, value), HEADER + 4 + p, tail)]
    ensures Swallowed(PutRecord(key, value), HEADER + 4 + p, tail).command == "PUT" + " " + (key[..p] + StringOf(tail))
  {
    SwallowedWhole(PutRecord(key, value), HEADER + 4 + p, tail);
    CutText(key, value, p);
    TextsJoin("PUT", key[..p], StringOf(tail));
  }

  lemma NothingLeft(tail: seq<Byte>)
    ensures tail[..|tail|] == tail && ReadAll(tail[|tail|..]) == []
  {}

  lemma CutText(key: string, value: string, p: nat)
    requires p < |key|
    ensures PutText(key, value)[..4 + p] == "PUT" + " " + key[..p]
  {}

  /** What lies before the first '=' of a piece of key and the bytes of a PUT record. */
  lemma InventedKey(piece: string, text: string, key2: string, value2: string, rest: string) returns (k: string)
    requires '=' !in piece && text == StringOf(EncodeRecord(PutRecord(key2, value2))) && rest == piece + text
    requires Clean(Put(key2, value2))
    ensures var n := Find(rest, '='); |piece| < n < |rest| && k == rest[..n] && k[|piece|] == 1 as char
  {
    var r := PutRecord(key2, value2);
    var e := EncodeRecord(r);
    assert e[HEADER + 4 + |key2|] == StringBytes(r.command)[4 + |key2|] == '=' as int;
    assert rest[|piece| + HEADER + 4 + |key2|] == '=';
    assert e[0] == IntBytes(1)[0] == 1;
    assert rest[|piece|] == 1 as char && rest[..|piece|] == piece;
    k := rest[..Find(rest, '=')];
    FindBehind(rest, |piece|);
  }

  lemma FindBehind(s: string, p: nat)
    requires p < |s| && '=' !in s[..p] && s[p] != '=' && '=' in s
    ensures p < Find(s, '=') < |s|
  {
    assert forall i | 0 <= i < p :: s[i] == s[..p][i];
    assert s[..|s|] == s;
  }

  /** A torn PUT, one more PUT and a reopening: with keys free of '=', the map then holds a key that
      nobody set and not the key set last. */
  lemma TornPutInvents(key: string, value: string, p: nat, key2: string, value2: string) returns (k: string)
    requires Clean(Put(key, value)) && 0 < p < |key| && Clean(Put(key2, value2))
    requires 1 as char !in key && 1 as char !in key2
    requires |key| - p + 1 + |value| == HEADER + |PutText(key2, value2)|
    ensures var s := Do(Open(TornFile(key, value, p)), Put(key2, value2));
      && s.mp == map[key2 := value2]
      && k != key && k != key2 && Open(s.file).mp.Keys == {k}
  {
    TornOpens(key, value, p);
    var tail := EncodeRecord(PutRecord(key2, value2));
    SwallowedText(key, value, p, tail);
    var rest := key[..p] + StringOf(tail);
    k := InventedKey(key[..p], StringOf(tail), key2, value2, rest);
    assert k[p] == 1 as char;
    SplitText(map[], "PUT", rest);
    OneRecord(Swallowed(PutRecord(key, value), HEADER + 4 + p, tail));
  }

  lemma OneRecord(r: Record)
    ensures ReplayAll(map[], [r]) == ReplayText(map[], r.command)
  {
    assert [r][..0] == [];
  }
}
