/** What is left of the write-ahead log after a truncation, and what reopening it replays. */
module Truncation {
  import opened ByteCodec
  import opened WriteAheadLog
  import opened KeyValueStore

  // ---------- the records that stay ----------

  /** Exactly the records with a greater index stay. */
  lemma {:induction false} StaysExactly(rs: seq<Record>, last: int, r: Record)
    ensures r in RecordsAfter(rs, last) <==> r in rs && r.index > last % WORD64
  {
    if rs != [] {
      var k := |rs| - 1;
      StaysExactly(rs[..k], last, r);
      assert rs == rs[..k] + [rs[k]];
    }
  }

  /** Their order stays. */
  lemma {:induction false} OrderStays(a: seq<Record>, b: seq<Record>, last: int)
    ensures RecordsAfter(a + b, last) == RecordsAfter(a, last) + RecordsAfter(b, last)
  {
    if b == [] {
      assert a + b == a;
    } else {
      var k := |b| - 1;
      assert (a + b)[..|a + b| - 1] == a + b[..k];
      OrderStays(a, b[..k], last);
    }
  }

  /** Records with consecutive indices from `first` on, as a log that was never reopened torn has. */
  predicate Numbered(rs: seq<Record>, first: nat) {
    forall i | 0 <= i < |rs| :: rs[i].index == first + i
  }

  function Cut(size: nat, at: int): nat {
    if at < 0 then 0 else if at < size then at else size
  }

  /** Of consecutive records exactly the suffix behind `last` stays. */
  lemma {:induction false} SuffixStays(rs: seq<Record>, first: nat, last: nat)
    requires Numbered(rs, first) && last < WORD64
    ensures RecordsAfter(rs, last) == rs[Cut(|rs|, last + 1 - first)..]
  {
    SmallRemainder(last, WORD64);
    if rs != [] {
      var k, at := |rs| - 1, Cut(|rs|, last + 1 - first);
      SuffixStays(rs[..k], first, last);
      if rs[k].index > last {
        assert rs[at..] == rs[..k][at..] + [rs[k]];
      }
    }
  }

  // ---------- reopening ----------

  /** The operations that leave a record. */
  function Writes(ops: seq<Op>): seq<Op> {
    if ops == [] then []
    else
      var k := |ops| - 1;
      if ops[k].Reopen? then Writes(ops[..k]) else Writes(ops[..k]) + [ops[k]]
  }

  function TextOf(op: Op): string
    requires !op.Reopen?
  {
    if op.Put? then PutText(op.key, op.value) else DeleteText(op.key)
  }

  /** The cache holds one record for each write, numbered from 1 on. */
  predicate Logs(cache: seq<Record>, ops: seq<Op>) {
    && |cache| == |ops|
    && forall i | 0 <= i < |ops| :: !ops[i].Reopen? && cache[i] == Record(1, i + 1, TextOf(ops[i]))
  }

  lemma NextLogged(cache: seq<Record>, ops: seq<Op>, op: Op)
    requires Logs(cache, ops) && !op.Reopen? && |ops| + 1 < WORD64
    ensures Logs(cache + [Record(1, NextIndex(LastIndex(cache)), TextOf(op))], ops + [op])
  {}

  lemma {:induction false} WritesLogged(ops: seq<Op>)
    requires AllClean(ops) && |ops| + 1 < WORD64
    ensures |Writes(ops)| <= |ops| && Logs(Run(Open([]), ops).cache, Writes(ops))
  {
    if ops == [] {
      assert ReadAll([]) == [];
    } else {
      var k := |ops| - 1;
      var s := Run(Open([]), ops[..k]);
      WritesLogged(ops[..k]);
      ReopeningRestores(ops[..k]);
      if ops[k].Reopen? {
        ReopeningRestores(ops);
        FileKept(s);
      } else {
        NextLogged(s.cache, Writes(ops[..k]), ops[k]);
      }
    }
  }

  lemma FileKept(s: Store)
    requires InStep(s)
    ensures Open(s.file).cache == s.cache
  {
    OpenInStep(s);
  }

  /** A store whose log was cut: the map stays. */
  function Truncated(s: Store, last: int): Store {
    var rs := RecordsAfter(s.cache, last);
    s.(cache := rs, lastIndex := LastIndex(rs), file := EncodeAll(rs))
  }

  lemma {:induction false} ReplayLogged(cache: seq<Record>, ops: seq<Op>)
    requires |cache| == |ops| && AllClean(ops)
    requires forall i | 0 <= i < |ops| :: !ops[i].Reopen? && cache[i].command == TextOf(ops[i])
    ensures ReplayAll(map[], cache) == MapAfter(ops)
  {
    if ops != [] {
      var k := |ops| - 1;
      ReplayLogged(cache[..k], ops[..k]);
      match ops[k]
      case Put(key, value) => PutReplaysExactly(key, value);
      case Remove(key) => DeleteReplaysExactly(key);
      case Reopen =>
    }
  }

  lemma {:induction false} WritesClean(ops: seq<Op>)
    requires AllClean(ops)
    ensures AllClean(Writes(ops))
  {
    if ops != [] {
      WritesClean(ops[..|ops| - 1]);
    }
  }

  lemma SuffixReplays(rs: seq<Record>, ws: seq<Op>, at: nat)
    requires Logs(rs, ws) && AllClean(ws) && at <= |rs|
    ensures ReplayAll(map[], rs[at..]) == MapAfter(ws[at..])
  {
    ReplayLogged(rs[at..], ws[at..]);
  }

  lemma OpensTo(rs: seq<Record>)
    requires AllStorable(rs)
    ensures Open(EncodeAll(rs)) == Store(ReplayAll(map[], rs), rs, LastIndex(rs), EncodeAll(rs))
  {
    FileRoundTrip(rs);
  }

  lemma LastOfSuffix(rs: seq<Record>, ws: seq<Op>, last: nat)
    requires Logs(rs, ws)
    ensures LastIndex(rs[Cut(|ws|, last)..]) == if last < |ws| then |ws| else 0
  {}

  lemma KeptReplays(rs: seq<Record>, ws: seq<Op>, at: nat, kept: seq<Record>)
    requires Logs(rs, ws) && AllClean(ws) && at <= |rs| && kept == rs[at..] && AllStorable(kept)
    ensures Open(EncodeAll(kept)).mp == MapAfter(ws[at..]) && Open(EncodeAll(kept)).lastIndex == LastIndex(kept)
  {
    OpensTo(kept);
    SuffixReplays(rs, ws, at);
  }

  lemma CutReplays(rs: seq<Record>, ws: seq<Op>, last: nat, kept: seq<Record>, s: Store)
    requires Logs(rs, ws) && AllClean(ws) && AllStorable(rs) && last < WORD64
    requires kept == RecordsAfter(rs, last) && s == Open(EncodeAll(kept))
    ensures s.mp == MapAfter(ws[Cut(|ws|, last)..])
    ensures s.lastIndex == if last < |ws| then |ws| else 0
  {
    SuffixStays(rs, 1, last);
    AfterStorable(rs, last);
    KeptReplays(rs, ws, Cut(|ws|, last), kept);
    LastOfSuffix(rs, ws, last);
  }

  /** After any puts, removes and reopenings, a truncation keeps the map, and reopening then gives the map
      that the writes behind `last`, in their order, make of an empty one. */
  lemma ReopeningAfterTruncation(ops: seq<Op>, last: nat, ws: seq<Op>, s: Store)
    requires AllClean(ops) && |ops| + 1 < WORD64 && last < WORD64 && ws == Writes(ops)
    requires s == Truncated(Run(Open([]), ops), last)
    ensures s.mp == MapAfter(ops)
    ensures Open(s.file).mp == MapAfter(ws[Cut(|ws|, last)..])
    ensures Open(s.file).lastIndex == if last < |ws| then |ws| else 0
  {
    WritesLogged(ops);
    WritesClean(ops);
    ReopeningRestores(ops);
    var rs := Run(Open([]), ops).cache;
    CutReplays(rs, ws, last, RecordsAfter(rs, last), Open(s.file));
  }
}
