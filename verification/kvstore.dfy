/** The key-value store: a map and the write-ahead log it is rebuilt from. */
module KeyValueStore {
  import opened RaftTypes
  import opened ByteCodec
  import opened WriteAheadLog

  /** The first position of `c` in `s`, or its length. */
  function Find(s: string, c: char): (n: nat)
    ensures n <= |s| && c !in s[..n]
    ensures n < |s| ==> s[n] == c
  {
    if s == "" || s[0] == c then 0 else 1 + Find(s[1..], c)
  }

  function PutText(key: string, value: string): string {
    "PUT " + key + "=" + value
  }

  function DeleteText(key: string): string {
    "DELETE " + key
  }

  /** What a record's operation and the text after its first space do to the map. */
  function ReplayParts(m: KV, op: string, rest: string): KV {
    if op == "PUT" then
      var eq := Find(rest, '=');
      if eq == |rest| || eq == 0 then m else m[rest[..eq] := rest[eq + 1..]]
    else if op == "DELETE" then
      if rest == "" then m else m - {rest}
    else m
  }

  /** What replaying one record's text does to the map. */
  function ReplayText(m: KV, text: string): KV {
    var sp := Find(text, ' ');
    if sp == |text| then m else ReplayParts(m, text[..sp], text[sp + 1..])
  }

  function ReplayAll(m: KV, rs: seq<Record>): KV {
    if rs == [] then m else ReplayText(ReplayAll(m, rs[..|rs| - 1]), rs[|rs| - 1].command)
  }

  lemma {:induction false} FindIs(s: string, c: char, n: nat)
    requires n <= |s| && c !in s[..n] && (n < |s| ==> s[n] == c)
    ensures Find(s, c) == n
  {
    if n != 0 {
      assert s[0] == s[..n][0];
      assert s[1..][..n - 1] == s[..n][1..];
      FindIs(s[1..], c, n - 1);
    }
  }

  lemma SplitText(m: KV, op: string, rest: string)
    requires ' ' !in op
    ensures ReplayText(m, op + " " + rest) == ReplayParts(m, op, rest)
  {
    var text := op + " " + rest;
    assert text[..|op|] == op && text[|op| + 1..] == rest;
    FindIs(text, ' ', |op|);
  }

  /** A PUT record sets what lies before its first '='. */
  lemma ReplayPut(m: KV, key: string, value: string)
    ensures var k := key[..Find(key, '=')];
      ReplayText(m, PutText(key, value)) ==
        if k == "" then m else m[k := (key + "=" + value)[|k| + 1..]]
  {
    PutTextParts(key, value);
    SplitText(m, "PUT", key + "=" + value);
    ReplayPutParts(m, key, value, key + "=" + value);
  }

  lemma ReplayPutParts(m: KV, key: string, value: string, rest: string)
    requires rest == key + "=" + value
    ensures var k := key[..Find(key, '=')];
      ReplayParts(m, "PUT", rest) == if k == "" then m else m[k := rest[|k| + 1..]]
  {
    FindEquals(key, value);
  }

  lemma PutTextParts(key: string, value: string)
    ensures PutText(key, value) == "PUT" + " " + (key + "=" + value)
  {
    assert "PUT " == "PUT" + " ";
  }

  lemma FindEquals(key: string, value: string)
    ensures var rest, n := key + "=" + value, Find(key, '=');
      n < |rest| && Find(rest, '=') == n && rest[..n] == key[..n]
  {
    var rest, n := key + "=" + value, Find(key, '=');
    assert rest[..n] == key[..n];
    FindIs(rest, '=', n);
  }

  lemma ReplayDelete(m: KV, key: string)
    ensures ReplayText(m, DeleteText(key)) == if key == "" then m else m - {key}
  {
    assert DeleteText(key) == "DELETE" + " " + key;
    SplitText(m, "DELETE", key);
  }

  predicate SetsKey(text: string) {
    |text| > 4 && text[..4] == "PUT " && text[4] != '=' && '=' in text[4..]
  }

  predicate RemovesKey(text: string) {
    |text| > 7 && text[..7] == "DELETE "
  }

  /** Every other text is passed over. */
  lemma OtherTextsKeep(m: KV, text: string)
    requires !SetsKey(text) && !RemovesKey(text)
    ensures ReplayText(m, text) == m
  {
    var sp := Find(text, ' ');
    if sp < |text| {
      OpBegins(text, sp, "PUT");
      OpBegins(text, sp, "DELETE");
      var rest := text[sp + 1..];
      if text[..sp] == "PUT" {
        assert rest == text[4..];
      } else if text[..sp] == "DELETE" {
        assert rest == text[7..];
      }
    }
  }

  lemma OpBegins(text: string, sp: nat, op: string)
    requires sp < |text| && text[sp] == ' '
    ensures text[..sp] == op ==> sp == |op| && text[..|op| + 1] == op + " "
  {
    assert text[..sp + 1] == text[..sp] + " ";
  }

  /** Replaying a PUT record is the put it came from exactly for non-empty keys without '='. */
  lemma PutReplaysExactly(key: string, value: string)
    ensures (forall m: KV :: ReplayText(m, PutText(key, value)) == m[key := value])
      <==> key != "" && '=' !in key
  {
    var n := Find(key, '=');
    var rest := key + "=" + value;
    if key != "" && '=' !in key {
      assert key[..n] == key && rest[|key| + 1..] == value;
      forall m: KV ensures ReplayText(m, PutText(key, value)) == m[key := value] {
        ReplayPut(m, key, value);
      }
    } else {
      ReplayPut(map[], key, value);
      var none: KV := map[];
      assert key in none[key := value];
      assert key !in ReplayText(none, PutText(key, value)) by {
        if '=' in key {
          assert n < |key|;
          assert key[..n] != key;
        }
      }
    }
  }

  /** Replaying a DELETE record is the removal it came from exactly for non-empty keys. */
  lemma DeleteReplaysExactly(key: string)
    ensures (forall m: KV :: ReplayText(m, DeleteText(key)) == m - {key}) <==> key != ""
  {
    if key != "" {
      forall m: KV ensures ReplayText(m, DeleteText(key)) == m - {key} {
        ReplayDelete(m, key);
      }
    } else {
      var one: KV := map["" := ""];
      ReplayDelete(one, key);
      assert "" in ReplayText(one, DeleteText(key)) && "" !in one - {key};
    }
  }

  // ---------- runs of operations ----------

  datatype Op = Put(key: string, value: string) | Remove(key: string) | Reopen

  datatype Store = Store(mp: KV, cache: seq<Record>, lastIndex: nat, file: seq<Byte>)

  /** What the constructors make of a file. */
  function Open(file: seq<Byte>): Store {
    var rs := ReadAll(file);
    Store(ReplayAll(map[], rs), rs, LastIndex(rs), file)
  }

  function Append(s: Store, text: string): Store {
    var r := Record(1, NextIndex(s.lastIndex), text);
    s.(cache := s.cache + [r], lastIndex := r.index, file := s.file + EncodeRecord(r))
  }

  function Do(s: Store, op: Op): Store {
    match op
    case Put(k, v) => Append(s, PutText(k, v)).(mp := s.mp[k := v])
    case Remove(k) => Append(s, DeleteText(k)).(mp := s.mp - {k})
    case Reopen => Open(s.file)
  }

  function Run(s: Store, ops: seq<Op>): Store {
    if ops == [] then s else Do(Run(s, ops[..|ops| - 1]), ops[|ops| - 1])
  }

  /** The map after the operations, taking reopening to change nothing. */
  function MapAfter(ops: seq<Op>): KV {
    if ops == [] then map[]
    else
      var m := MapAfter(ops[..|ops| - 1]);
      match ops[|ops| - 1]
      case Put(k, v) => m[k := v]
      case Remove(k) => m - {k}
      case Reopen => m
  }

  /** Keys the log can carry, and texts a record can hold. */
  predicate Clean(op: Op) {
    match op
    case Put(k, v) => k != "" && '=' !in k && ByteString(k) && ByteString(v) && |k| + |v| + 5 < WORD64
    case Remove(k) => k != "" && ByteString(k) && |k| + 7 < WORD64
    case Reopen => true
  }

  predicate AllClean(ops: seq<Op>) {
    forall i | 0 <= i < |ops| :: Clean(ops[i])
  }

  ghost predicate InStep(s: Store) {
    && AllStorable(s.cache)
    && s.file == EncodeAll(s.cache)
    && s.lastIndex == LastIndex(s.cache)
    && s.mp == ReplayAll(map[], s.cache)
  }

  lemma OpenInStep(s: Store)
    requires InStep(s)
    ensures Open(s.file) == s
  {
    FileRoundTrip(s.cache);
  }

  lemma AppendInStep(s: Store, text: string, m: KV)
    requires InStep(s) && ByteString(text) && |text| < WORD64
    requires m == ReplayText(s.mp, text)
    ensures InStep(Append(s, text).(mp := m))
  {
    var r := Record(1, NextIndex(s.lastIndex), text);
    EncodeAppend(s.cache, r);
    assert (s.cache + [r])[..|s.cache|] == s.cache;
  }

  lemma DoInStep(s: Store, op: Op)
    requires InStep(s) && Clean(op)
    ensures InStep(Do(s, op))
  {
    match op
    case Put(k, v) =>
      PutReplaysExactly(k, v);
      AppendInStep(s, PutText(k, v), s.mp[k := v]);
    case Remove(k) =>
      ReplayDelete(s.mp, k);
      AppendInStep(s, DeleteText(k), s.mp - {k});
    case Reopen =>
      OpenInStep(s);
  }

  /** After any clean operations the file is the encoding of the cache, the map is the one the
      operations describe, and reopening changes nothing at all. */
  lemma {:induction false} ReopeningRestores(ops: seq<Op>)
    requires AllClean(ops)
    ensures var s := Run(Open([]), ops);
      && s.file == EncodeAll(s.cache)
      && s.mp == MapAfter(ops)
      && Open(s.file) == s
      && InStep(s)
  {
    if ops != [] {
      ReopeningRestores(ops[..|ops| - 1]);
      DoInStep(Run(Open([]), ops[..|ops| - 1]), ops[|ops| - 1]);
      OpenInStep(Run(Open([]), ops));
    }
  }

  lemma CacheExtends(t: Store, op: Op)
    requires InStep(t)
    ensures var s := Do(t, op);
      && |t.cache| <= |s.cache| <= |t.cache| + 1
      && s.cache[..|t.cache|] == t.cache
  {
    OpenInStep(t);
  }

  /** Every prefix of the records is all there was after some prefix of the operations. */
  lemma {:induction false} CacheGrows(ops: seq<Op>, j: nat) returns (i: nat)
    requires AllClean(ops) && j <= |Run(Open([]), ops).cache|
    ensures i <= |ops| && Run(Open([]), ops[..i]).cache == Run(Open([]), ops).cache[..j]
  {
    var s := Run(Open([]), ops);
    i := |ops|;
    if j == |s.cache| {
      assert ops[..|ops|] == ops && s.cache[..j] == s.cache;
    } else {
      var before := ops[..|ops| - 1];
      var t := Run(Open([]), before);
      ReopeningRestores(before);
      CacheExtends(t, ops[|ops| - 1]);
      i := CacheGrows(before, j);
      assert before[..i] == ops[..i];
      assert t.cache[..j] == s.cache[..|t.cache|][..j] == s.cache[..j];
    }
  }

  /** Whatever prefix of the file survives a crash, opening it gives the map as it was after
      some prefix of the operations. */
  lemma TornFileRestoresPrefix(ops: seq<Op>, k: nat)
    requires AllClean(ops) && k <= |Run(Open([]), ops).file|
    ensures exists i | 0 <= i <= |ops| ::
      Open(Run(Open([]), ops).file[..k]).mp == MapAfter(ops[..i])
  {
    var s := Run(Open([]), ops);
    ReopeningRestores(ops);
    ReadPrefix(s.cache, k);
    var i := CacheGrows(ops, Complete(s.cache, k));
    ReopeningRestores(ops[..i]);
  }

  // ---------- the store itself ----------

  class KVStore {
    var mp: KV
    const writeAheadLog: Wal

    function State(): Store
      reads this, writeAheadLog
    {
      Store(mp, writeAheadLog.cachedEntries, writeAheadLog.lastIndex, writeAheadLog.file)
    }

    /** Opens the log and replays its records into an empty map. */
    constructor (file: seq<Byte>)
      ensures fresh(writeAheadLog)
      ensures State() == Open(file)
    {
      writeAheadLog := new Wal(file);
      mp := map[];
      new;
      var entries := writeAheadLog.cachedEntries;
      for i := 0 to |entries|
        invariant mp == ReplayAll(map[], entries[..i])
        invariant writeAheadLog.cachedEntries == entries == ReadAll(file)
        invariant writeAheadLog.file == file && writeAheadLog.lastIndex == LastIndex(entries)
      {
        assert entries[..i + 1][..i] == entries[..i];
        Replay(entries[i].command);
      }
      assert entries[..|entries|] == entries;
    }

    /** One record's text, taken apart the way the constructor does. */
    method Replay(text: string)
      modifies this
      ensures mp == ReplayText(old(mp), text)
    {
      var spacePos := Find(text, ' ');
      if spacePos == |text| {
        return;
      }
      var command := text[..spacePos];
      var rest := text[spacePos + 1..];
      if command == "PUT" {
        var eqPos := Find(rest, '=');
        if eqPos == |rest| {
          return;
        }
        var key, value := rest[..eqPos], rest[eqPos + 1..];
        if key == "" {
          return;
        }
        mp := mp[key := value];
      } else if command == "DELETE" {
        if rest == "" {
          return;
        }
        mp := mp - {rest};
      }
    }

    method Put(key: string, value: string)
      modifies this, writeAheadLog
      ensures State() == Do(old(State()), Op.Put(key, value))
    {
      writeAheadLog.AppendEntry("PUT " + key + "=" + value);
      mp := mp[key := value];
    }

    method Get(key: string) returns (value: Option<string>)
      ensures value == if key in mp then Some(mp[key]) else None
    {
      value := if key in mp then Some(mp[key]) else None;
    }

    method Remove(key: string) returns (found: bool)
      modifies this, writeAheadLog
      ensures State() == Do(old(State()), Op.Remove(key))
      ensures found == (key in old(mp))
    {
      writeAheadLog.AppendEntry("DELETE " + key);
      found := key in mp;
      mp := mp - {key};
    }

    method LoadFromMap(state: KV)
      modifies this
      ensures State() == old(State()).(mp := state)
    {
      mp := state;
    }

    method TruncateLog(lastIncludedIndex: int)
      modifies writeAheadLog
      ensures var rs := RecordsAfter(old(State()).cache, lastIncludedIndex);
        State() == Store(old(mp), rs, LastIndex(rs), EncodeAll(rs))
    {
      writeAheadLog.TruncateUpTo(lastIncludedIndex);
    }
  }
}
