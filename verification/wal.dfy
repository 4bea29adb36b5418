/** The write-ahead log: record framing, the replayed file, append and truncation. */
module WriteAheadLog {
  import opened RaftTypes
  import opened ByteCodec

  datatype Record = Record(term: int, index: nat, command: string)

  /** What the fields of a record can hold. */
  predicate Storable(r: Record) {
    Int32(r.term) && r.index < WORD64 && |r.command| < WORD64 && ByteString(r.command)
  }

  predicate AllStorable(rs: seq<Record>) {
    forall i | 0 <= i < |rs| :: Storable(rs[i])
  }

  const HEADER: nat := 20

  function Header(r: Record): (h: seq<Byte>)
    ensures |h| == HEADER
  {
    IntBytes(r.term) + LongBytes(r.index) + LongBytes(|r.command|)
  }

  function EncodeRecord(r: Record): (b: seq<Byte>)
    ensures |b| == HEADER + |r.command|
  {
    Header(r) + StringBytes(r.command)
  }

  function EncodeAll(rs: seq<Record>): seq<Byte> {
    if rs == [] then [] else EncodeRecord(rs[0]) + EncodeAll(rs[1..])
  }

  /** `fromBinary`: the next record and what follows it, or nothing when a read falls short. */
  function ReadRecord(b: seq<Byte>): (r: Option<(Record, seq<Byte>)>)
    ensures r.Some? ==> |r.value.1| < |b|
  {
    if |b| < HEADER then None
    else
      var size := FromLE(b[12..20]);
      if |b| < HEADER + size then None
      else Some((Record(IntOf(b[..4]), FromLE(b[4..12]), StringOf(b[20..20 + size])), b[20 + size..]))
  }

  function ReadAll(b: seq<Byte>): seq<Record>
    decreases |b|
  {
    match ReadRecord(b)
    case None => []
    case Some((r, rest)) => [r] + ReadAll(rest)
  }

  lemma ReadNext(b: seq<Byte>)
    requires ReadRecord(b).Some?
    ensures var (r, rest) := ReadRecord(b).value;
      forall c: seq<Record> :: c + ReadAll(b) == (c + [r]) + ReadAll(rest)
  {
    var (r, rest) := ReadRecord(b).value;
    assert ReadAll(b) == [r] + ReadAll(rest);
  }

  lemma HeaderReads(r: Record, rest: seq<Byte>)
    requires Storable(r)
    ensures var b := Header(r) + rest;
      IntOf(b[..4]) == r.term && FromLE(b[4..12]) == r.index && FromLE(b[12..20]) == |r.command|
  {
    var b := Header(r) + rest;
    assert b[..4] == IntBytes(r.term);
    assert b[4..12] == LongBytes(r.index);
    assert b[12..20] == LongBytes(|r.command|);
    IntRoundTrip(r.term);
    LongRoundTrip(r.index);
    LongRoundTrip(|r.command|);
  }

  /** A record written is read back, and nothing of what follows is consumed. */
  lemma RecordRoundTrip(r: Record, rest: seq<Byte>)
    requires Storable(r)
    ensures ReadRecord(EncodeRecord(r) + rest) == Some((r, rest))
  {
    var tail := StringBytes(r.command) + rest;
    var b := EncodeRecord(r) + rest;
    assert b == Header(r) + tail;
    HeaderReads(r, tail);
    assert b[20..20 + |r.command|] == StringBytes(r.command);
    assert b[20 + |r.command|..] == rest;
    StringRoundTrip(r.command);
  }

  /** A record cut anywhere short of its end is not read. */
  lemma TornRecord(r: Record, k: nat)
    requires Storable(r) && k < |EncodeRecord(r)|
    ensures ReadRecord(EncodeRecord(r)[..k]) == None
  {
    if k >= HEADER {
      var b := EncodeRecord(r)[..k];
      assert b == Header(r) + b[HEADER..];
      HeaderReads(r, b[HEADER..]);
    }
  }

  /** How many of the records lie wholly within the first `k` bytes. */
  function Complete(rs: seq<Record>, k: nat): (n: nat)
    ensures n <= |rs|
  {
    if rs == [] || k < |EncodeRecord(rs[0])| then 0
    else 1 + Complete(rs[1..], k - |EncodeRecord(rs[0])|)
  }

  lemma TakeConcat<T>(a: seq<T>, b: seq<T>, k: nat)
    requires k <= |a| + |b|
    ensures (a + b)[..k] == if k < |a| then a[..k] else a + b[..k - |a|]
  {}

  lemma ReadsFirst(r: Record, rest: seq<Byte>)
    requires Storable(r)
    ensures ReadAll(EncodeRecord(r) + rest) == [r] + ReadAll(rest)
  {
    RecordRoundTrip(r, rest);
  }

  lemma NothingComplete(r: Record, k: nat)
    requires Storable(r) && k < |EncodeRecord(r)|
    ensures ReadAll(EncodeRecord(r)[..k]) == []
  {
    TornRecord(r, k);
  }

  lemma CompleteNext(rs: seq<Record>, k: nat)
    requires rs != [] && |EncodeRecord(rs[0])| <= k
    ensures var n := |EncodeRecord(rs[0])|;
      rs[..Complete(rs, k)] == [rs[0]] + rs[1..][..Complete(rs[1..], k - n)]
  {}

  /** Whatever prefix of the file survives, exactly the complete records in it are read. */
  lemma {:induction false} ReadPrefix(rs: seq<Record>, k: nat)
    requires AllStorable(rs) && k <= |EncodeAll(rs)|
    ensures ReadAll(EncodeAll(rs)[..k]) == rs[..Complete(rs, k)]
  {
    if rs == [] {
    } else {
      var e, rest := EncodeRecord(rs[0]), EncodeAll(rs[1..]);
      TakeConcat(e, rest, k);
      if k < |e| {
        NothingComplete(rs[0], k);
      } else {
        ReadsFirst(rs[0], rest[..k - |e|]);
        ReadPrefix(rs[1..], k - |e|);
        CompleteNext(rs, k);
      }
    }
  }

  lemma {:induction false} CompleteAll(rs: seq<Record>)
    ensures Complete(rs, |EncodeAll(rs)|) == |rs|
  {
    if rs != [] {
      CompleteAll(rs[1..]);
    }
  }

  /** Reading a file back gives the records written to it. */
  lemma FileRoundTrip(rs: seq<Record>)
    requires AllStorable(rs)
    ensures ReadAll(EncodeAll(rs)) == rs
  {
    CompleteAll(rs);
    ReadPrefix(rs, |EncodeAll(rs)|);
    assert EncodeAll(rs)[..|EncodeAll(rs)|] == EncodeAll(rs);
  }

  lemma {:induction false} EncodeAppend(rs: seq<Record>, r: Record)
    ensures EncodeAll(rs + [r]) == EncodeAll(rs) + EncodeRecord(r)
  {
    if rs == [] {
      assert [r][1..] == [];
    } else {
      assert (rs + [r])[1..] == rs[1..] + [r];
      EncodeAppend(rs[1..], r);
    }
  }

  /** `++lastIndex` on an unsigned 64-bit counter. */
  function NextIndex(last: nat): nat {
    if last == WORD64 - 1 then 0 else last + 1
  }

  function LastIndex(rs: seq<Record>): nat {
    if rs == [] then 0 else rs[|rs| - 1].index
  }

  /** The records after `last`, which the comparison with an unsigned index reads modulo 2^64. */
  function RecordsAfter(rs: seq<Record>, last: int): seq<Record> {
    if rs == [] then []
    else
      var kept := RecordsAfter(rs[..|rs| - 1], last);
      if rs[|rs| - 1].index > last % WORD64 then kept + [rs[|rs| - 1]] else kept
  }

  lemma {:induction false} AfterStorable(rs: seq<Record>, last: int)
    requires AllStorable(rs)
    ensures AllStorable(RecordsAfter(rs, last))
  {
    if rs != [] {
      AfterStorable(rs[..|rs| - 1], last);
    }
  }

  method ToBinary(r: Record) returns (oss: seq<Byte>)
    ensures oss == EncodeRecord(r)
  {
    oss := IntBytes(r.term);
    oss := oss + LongBytes(r.index);
    oss := oss + LongBytes(|r.command|);
    oss := oss + StringBytes(r.command);
  }

  class Wal {
    var file: seq<Byte>
    var cachedEntries: seq<Record>
    var lastIndex: nat

    /** The file is the encoding of the cache. */
    ghost predicate Valid()
      reads this
    {
      && AllStorable(cachedEntries)
      && file == EncodeAll(cachedEntries)
      && lastIndex == LastIndex(cachedEntries)
    }

    /** Reads records until one falls short; the bytes after it stay in the file. */
    constructor (disk: seq<Byte>)
      ensures file == disk && cachedEntries == ReadAll(disk) && lastIndex == LastIndex(ReadAll(disk))
      ensures AllStorable(ReadAll(disk)) && disk == EncodeAll(ReadAll(disk)) ==> Valid()
    {
      file := disk;
      cachedEntries := [];
      lastIndex := 0;
      new;
      var stream := disk;
      while true
        invariant file == disk
        invariant cachedEntries + ReadAll(stream) == ReadAll(disk)
        invariant lastIndex == LastIndex(cachedEntries)
        decreases |stream|
      {
        var next := ReadRecord(stream);
        if next.None? {
          assert cachedEntries + [] == cachedEntries;
          break;
        }
        ReadNext(stream);
        cachedEntries := cachedEntries + [next.value.0];
        lastIndex := next.value.0.index;
        stream := next.value.1;
      }
    }

    method AppendEntry(command: string)
      modifies this
      ensures var r := Record(1, NextIndex(old(lastIndex)), command);
        && cachedEntries == old(cachedEntries) + [r]
        && file == old(file) + EncodeRecord(r)
        && lastIndex == r.index
      ensures old(Valid()) && ByteString(command) && |command| < WORD64 ==> Valid()
    {
      EncodeAppend(cachedEntries, Record(1, NextIndex(lastIndex), command));
      lastIndex := NextIndex(lastIndex);
      var entry := Record(1, lastIndex, command);
      var binaryData := ToBinary(entry);
      file := file + binaryData;
      cachedEntries := cachedEntries + [entry];
    }

    method TruncateUpTo(lastIncludedIndex: int)
      modifies this
      ensures cachedEntries == RecordsAfter(old(cachedEntries), lastIncludedIndex)
      ensures file == EncodeAll(cachedEntries) && lastIndex == LastIndex(cachedEntries)
      ensures old(AllStorable(cachedEntries)) ==> Valid()
    {
      var remaining: seq<Record> := [];
      ghost var all := cachedEntries;
      for i := 0 to |cachedEntries|
        invariant cachedEntries == all
        invariant remaining == RecordsAfter(all[..i], lastIncludedIndex)
      {
        assert all[..i + 1][..i] == all[..i];
        if cachedEntries[i].index > lastIncludedIndex % WORD64 {
          remaining := remaining + [cachedEntries[i]];
        }
      }
      assert all[..|all|] == all;
      var outFile: seq<Byte> := [];
      for i := 0 to |remaining|
        invariant outFile == EncodeAll(remaining[..i])
      {
        var binaryData := ToBinary(remaining[i]);
        outFile := outFile + binaryData;
        EncodeAppend(remaining[..i], remaining[i]);
        assert remaining[..i + 1] == remaining[..i] + [remaining[i]];
      }
      assert remaining[..|remaining|] == remaining;
      if AllStorable(all) {
        AfterStorable(all, lastIncludedIndex);
      }
      file := outFile;
      cachedEntries := remaining;
      lastIndex := LastIndex(remaining);
    }
  }
}
