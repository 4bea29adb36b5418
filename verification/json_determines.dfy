/** The text of a request says everything about it: no two requests have the same text. */
module JsonDetermines {
  import opened RaftTypes
  import opened JsonText
  import opened AppendText
  import opened JsonCut
  import Transfer = SnapshotTransfer
  import Base64

  lemma Cancel(k: string, s: string, t: string)
    requires k + s == k + t
    ensures s == t
  {
    assert (k + s)[|k|..] == s && (k + t)[|k|..] == t;
  }

  // ---------- numbers ----------

  /** What follows a number. */
  predicate Stops(s: string) {
    s != "" && !('0' <= s[0] <= '9')
  }

  lemma {:induction false} DigitsSame(v: nat, w: nat)
    requires DecimalDigits(v) == DecimalDigits(w)
    ensures v == w
  {
    var a, b := DecimalDigits(v), DecimalDigits(w);
    if v >= 10 && w >= 10 {
      assert a[..|a| - 1] == DecimalDigits(v / 10) && b[..|b| - 1] == DecimalDigits(w / 10);
      DigitsSame(v / 10, w / 10);
      assert a[|a| - 1] == DigitChar(v % 10) && b[|b| - 1] == DigitChar(w % 10);
    } else if v < 10 && w < 10 {
      assert a[0] == DigitChar(v) && b[0] == DigitChar(w);
    }
  }

  lemma CharAt(a: string, b: string, k: nat)
    requires k < |a + b|
    ensures (a + b)[k] == if k < |a| then a[k] else b[k - |a|]
  {}

  lemma NotShorter(f: char -> bool, a: string, s: string, b: string, t: string)
    requires (forall i | 0 <= i < |b| :: f(b[i])) && s != "" && !f(s[0]) && a + s == b + t
    ensures |a| >= |b|
  {
    CharAt(a, s, |a|);
    CharAt(b, t, |a|);
  }

  /** The part of a text before the first character that is not as `f` says. */
  lemma PartPeel(f: char -> bool, a: string, s: string, b: string, t: string)
    requires (forall i | 0 <= i < |a| :: f(a[i])) && (forall i | 0 <= i < |b| :: f(b[i]))
    requires s != "" && t != "" && !f(s[0]) && !f(t[0]) && a + s == b + t
    ensures a == b && s == t
  {
    NotShorter(f, a, s, b, t);
    NotShorter(f, b, t, a, s);
    assert (a + s)[..|a|] == a && (b + t)[..|a|] == b;
    assert (a + s)[|a|..] == s && (b + t)[|a|..] == t;
  }

  lemma DigitsAre(v: nat)
    ensures forall i | 0 <= i < |DecimalDigits(v)| :: '0' <= DecimalDigits(v)[i] <= '9'
  {
    DigitsOnly(v);
    var a := DecimalDigits(v);
    assert forall i | 0 <= i < |a| :: a[i] in a;
  }

  lemma DigitsPeel(v: nat, s: string, w: nat, t: string)
    requires DecimalDigits(v) + s == DecimalDigits(w) + t && Stops(s) && Stops(t)
    ensures v == w && s == t
  {
    DigitsAre(v);
    DigitsAre(w);
    PartPeel(c => '0' <= c <= '9', DecimalDigits(v), s, DecimalDigits(w), t);
    DigitsSame(v, w);
  }

  lemma FirstDigit(v: nat, s: string)
    ensures (DecimalDigits(v) + s)[0] != '-'
  {
    DigitsOnly(v);
    assert DecimalDigits(v)[0] in DecimalDigits(v);
  }

  lemma NumberPeel(v: int, s: string, w: int, t: string)
    requires Decimal(v) + s == Decimal(w) + t && Stops(s) && Stops(t)
    ensures v == w && s == t
  {
    if v >= 0 {
      FirstDigit(v, s);
    }
    if w >= 0 {
      FirstDigit(w, t);
    }
    if v < 0 && w < 0 {
      assert Decimal(v) + s == "-" + (DecimalDigits(-v) + s);
      assert Decimal(w) + t == "-" + (DecimalDigits(-w) + t);
      Cancel("-", DecimalDigits(-v) + s, DecimalDigits(-w) + t);
      DigitsPeel(-v, s, -w, t);
    } else {
      DigitsPeel(v, s, w, t);
    }
  }

  lemma FieldPeel(name: string, v: int, s: string, w: int, t: string)
    requires Field(name, Decimal(v)) + s == Field(name, Decimal(w)) + t && Stops(s) && Stops(t)
    ensures v == w && s == t
  {
    var k := "," + Key(name);
    assert Field(name, Decimal(v)) + s == k + (Decimal(v) + s);
    assert Field(name, Decimal(w)) + t == k + (Decimal(w) + t);
    Cancel(k, Decimal(v) + s, Decimal(w) + t);
    NumberPeel(v, s, w, t);
  }

  lemma FieldStops(name: string, text: string, s: string)
    ensures Stops(Field(name, text) + s)
  {
    assert (Field(name, text) + s)[0] == ',';
  }

  /** Two number fields, one behind the other. */
  lemma FieldsPeel(x: string, y: string, v: int, v2: int, s: string, w: int, w2: int, t: string)
    requires Field(x, Decimal(v)) + Field(y, Decimal(v2)) + s == Field(x, Decimal(w)) + Field(y, Decimal(w2)) + t
    requires Stops(s) && Stops(t)
    ensures v == w && v2 == w2 && s == t
  {
    var a, b := Field(y, Decimal(v2)) + s, Field(y, Decimal(w2)) + t;
    assert Field(x, Decimal(v)) + Field(y, Decimal(v2)) + s == Field(x, Decimal(v)) + a;
    assert Field(x, Decimal(w)) + Field(y, Decimal(w2)) + t == Field(x, Decimal(w)) + b;
    FieldStops(y, Decimal(v2), s);
    FieldStops(y, Decimal(w2), t);
    FieldPeel(x, v, a, w, b);
    FieldPeel(y, v2, s, w2, t);
  }

  // ---------- strings ----------

  lemma HexSame(a: int, b: int)
    requires 0 <= a < 16 && 0 <= b < 16 && HexChar(a) == HexChar(b)
    ensures a == b
  {}

  lemma LongEscapeSame(c: char, d: char)
    requires |EscapedChar(c)| == 6 && EscapedChar(c) == EscapedChar(d)
    ensures c == d
  {
    var a, b := EscapedChar(c), EscapedChar(d);
    assert a[5] == HexChar(c as int % 16) && b[5] == HexChar(d as int % 16);
    HexSame(c as int % 16, d as int % 16);
    assert a[4] == if c as int < 16 then '0' else '1';
    assert b[4] == if d as int < 16 then '0' else '1';
  }

  lemma ShortEscapeSame(c: char, d: char)
    requires |EscapedChar(c)| <= 2 && EscapedChar(c) == EscapedChar(d)
    ensures c == d
  {
    var a, b := EscapedChar(c), EscapedChar(d);
    assert a[0] == b[0];
    if |a| == 2 {
      assert a[1] == b[1];
    }
  }

  /** The length of an escape shows in its first two characters. */
  lemma EscapeLength(c: char, s: string)
    ensures var e, text := EscapedChar(c), EscapedChar(c) + s;
      && (|e| == 1 <==> text[0] != '\\') && (|e| == 6 <==> text[0] == '\\' && text[1] == 'u') && text[0] != '"'
      && (|e| == 1 || |e| == 2 || |e| == 6)
  {}

  lemma EscapePeel(c: char, s: string, d: char, t: string)
    requires EscapedChar(c) + s == EscapedChar(d) + t
    ensures c == d && s == t
  {
    var a, b := EscapedChar(c), EscapedChar(d);
    EscapeLength(c, s);
    EscapeLength(d, t);
    assert a == (a + s)[..|a|] && b == (b + t)[..|b|];
    if |a| == 6 {
      LongEscapeSame(c, d);
    } else {
      ShortEscapeSame(c, d);
    }
    Cancel(a, s, t);
  }

  /** A string that is not empty, with what follows its escaped text. */
  lemma EscapedFirst(s: string, rest: string) returns (after: string)
    requires s != ""
    ensures Escaped(s) + rest == EscapedChar(s[0]) + after && after == Escaped(s[1..]) + rest
    ensures (Escaped(s) + rest)[0] != '"'
  {
    after := Escaped(s[1..]) + rest;
    Regroup(EscapedChar(s[0]), Escaped(s[1..]), rest);
    EscapeLength(s[0], after);
  }

  lemma Regroup(a: string, b: string, c: string)
    ensures a + b + c == a + (b + c)
  {}

  lemma EmptyFirst(rest: string)
    requires rest != ""
    ensures (Escaped("") + rest)[0] == rest[0]
  {}

  /** A string up to its closing quote. */
  lemma {:induction false} StringPeel(x: string, s: string, y: string, t: string)
    requires s != "" && t != "" && s[0] == t[0] == '"'
    requires Escaped(x) + s == Escaped(y) + t
    ensures x == y && s == t
    decreases |x|
  {
    if x == "" && y == "" {
      Cancel("", s, t);
    } else if x == "" {
      EmptyFirst(s);
      var _ := EscapedFirst(y, t);
    } else if y == "" {
      EmptyFirst(t);
      var _ := EscapedFirst(x, s);
    } else {
      var a, b := StringsFirst(x, s, y, t);
      StringPeel(x[1..], s, y[1..], t);
    }
  }

  lemma StringsFirst(x: string, s: string, y: string, t: string) returns (a: string, b: string)
    requires x != "" && y != "" && Escaped(x) + s == Escaped(y) + t
    ensures x[0] == y[0] && a == b && a == Escaped(x[1..]) + s && b == Escaped(y[1..]) + t
  {
    a := EscapedFirst(x, s);
    b := EscapedFirst(y, t);
    EscapePeel(x[0], a, y[0], b);
  }

  // ---------- a request ----------

  lemma SpreadEntry(key: string, command: string, index: string, term: string, s: string)
    ensures Object(key + ("\"" + command + "\"") + index + term) + s ==
      "{" + key + "\"" + (command + ("\"" + (index + term + ("}" + s))))
  {}

  lemma EntryPeel(e: Entry, s: string, f: Entry, t: string)
    requires EntryText(e) + s == EntryText(f) + t
    ensures e == f && s == t
  {
    var a := Field("index", Decimal(e.index)) + Field("term", Decimal(e.term)) + ("}" + s);
    var b := Field("index", Decimal(f.index)) + Field("term", Decimal(f.term)) + ("}" + t);
    SpreadEntry(Key("command"), Escaped(e.command), Field("index", Decimal(e.index)),
                Field("term", Decimal(e.term)), s);
    SpreadEntry(Key("command"), Escaped(f.command), Field("index", Decimal(f.index)),
                Field("term", Decimal(f.term)), t);
    Cancel("{" + Key("command") + "\"", Escaped(e.command) + ("\"" + a), Escaped(f.command) + ("\"" + b));
    StringPeel(e.command, "\"" + a, f.command, "\"" + b);
    Cancel("\"", a, b);
    FieldsPeel("index", "term", e.index, e.term, "}" + s, f.index, f.term, "}" + t);
    Cancel("}", s, t);
  }

  /** What follows the first of some entries. */
  function AfterFirst(es: Log, s: string): string
    requires es != []
  {
    if |es| == 1 then s else "," + (EntriesText(es[1..]) + s)
  }

  lemma EntriesFirst(es: Log, s: string)
    requires es != []
    ensures EntriesText(es) + s == EntryText(es[0]) + AfterFirst(es, s)
  {
    if |es| > 1 {
      Regroup(EntryText(es[0]) + ",", EntriesText(es[1..]), s);
      Regroup(EntryText(es[0]), ",", EntriesText(es[1..]) + s);
    }
  }

  lemma EntriesBegin(es: Log, s: string)
    requires s != ""
    ensures (EntriesText(es) + s)[0] == if es == [] then s[0] else '{'
  {
    if es != [] {
      EntriesFirst(es, s);
    }
  }

  /** A text that begins with a closing bracket begins with no entry. */
  lemma NoEntries(s: string, es: Log, t: string)
    requires s != "" && t != "" && s[0] == ']' && s == EntriesText(es) + t
    ensures es == [] && s == t
  {
    EntriesBegin(es, t);
    assert "" + t == t;
  }

  lemma FirstsPeel(es: Log, s: string, fs: Log, t: string)
    requires es != [] && fs != [] && s != "" && t != "" && s[0] == t[0] == ']'
    requires EntriesText(es) + s == EntriesText(fs) + t
    ensures es[0] == fs[0] && (|es| == 1 <==> |fs| == 1)
    ensures if |es| == 1 then s == t else EntriesText(es[1..]) + s == EntriesText(fs[1..]) + t
  {
    EntriesFirst(es, s);
    EntriesFirst(fs, t);
    EntryPeel(es[0], AfterFirst(es, s), fs[0], AfterFirst(fs, t));
    if |es| > 1 && |fs| > 1 {
      Cancel(",", EntriesText(es[1..]) + s, EntriesText(fs[1..]) + t);
    }
  }

  lemma SameEntries(es: Log, fs: Log)
    requires es != [] && fs != [] && es[0] == fs[0] && es[1..] == fs[1..]
    ensures es == fs
  {
    assert es == [es[0]] + es[1..] && fs == [fs[0]] + fs[1..];
  }

  /** Entries up to the bracket that closes their list. */
  lemma {:induction false} EntriesPeel(es: Log, s: string, fs: Log, t: string)
    requires s != "" && t != "" && s[0] == t[0] == ']'
    requires EntriesText(es) + s == EntriesText(fs) + t
    ensures es == fs && s == t
    decreases |es|
  {
    if es == [] {
      assert "" + s == s;
      NoEntries(s, fs, t);
    } else if fs == [] {
      assert "" + t == t;
      NoEntries(t, es, s);
    } else {
      FirstsPeel(es, s, fs, t);
      if |es| > 1 {
        EntriesPeel(es[1..], s, fs[1..], t);
      } else {
        assert es[1..] == fs[1..] == [];
      }
      SameEntries(es, fs);
    }
  }

  /** A request's text behind its entries. */
  function AfterEntries(a: AppendArgs): string {
    "]" + (LeaderText(a) + (PrevText(a) + (CallText(a) + "}")))
  }

  lemma SpreadJson(key: string, entries: string, leader: string, prev: string, call: string)
    ensures Object(key + List(entries) + (leader + prev + call)) ==
      "{" + key + "[" + (entries + ("]" + (leader + (prev + (call + "}")))))
  {}

  lemma CallSame(v: int, w: int)
    requires Field("rpc", "\"AppendEntries\"") + Field("term", Decimal(v)) + "}" ==
      Field("rpc", "\"AppendEntries\"") + Field("term", Decimal(w)) + "}"
    ensures v == w
  {
    var k := Field("rpc", "\"AppendEntries\"");
    Regroup(k, Field("term", Decimal(v)), "}");
    Regroup(k, Field("term", Decimal(w)), "}");
    Cancel(k, Field("term", Decimal(v)) + "}", Field("term", Decimal(w)) + "}");
    FieldPeel("term", v, "}", w, "}");
  }

  lemma AfterEntriesSame(a: AppendArgs, b: AppendArgs)
    requires AfterEntries(a) == AfterEntries(b)
    ensures a.leaderCommit == b.leaderCommit && a.leaderId == b.leaderId && a.term == b.term
    ensures a.prevLogIndex == b.prevLogIndex && a.prevLogTerm == b.prevLogTerm
  {
    var c, d := CallText(a) + "}", CallText(b) + "}";
    Cancel("]", LeaderText(a) + (PrevText(a) + c), LeaderText(b) + (PrevText(b) + d));
    FieldsPeel("leaderCommit", "leaderId", a.leaderCommit, a.leaderId, PrevText(a) + c,
               b.leaderCommit, b.leaderId, PrevText(b) + d);
    FieldsPeel("prevLogIndex", "prevLogTerm", a.prevLogIndex, a.prevLogTerm, c, b.prevLogIndex, b.prevLogTerm, d);
    CallSame(a.term, b.term);
  }

  /** Requests with one text are one request, whatever characters their commands have. */
  lemma RequestDetermined(a: AppendArgs, b: AppendArgs)
    requires Json(a) == Json(b)
    ensures a == b
  {
    SpreadJson(Key("entries"), EntriesText(a.entries), LeaderText(a), PrevText(a), CallText(a));
    SpreadJson(Key("entries"), EntriesText(b.entries), LeaderText(b), PrevText(b), CallText(b));
    Cancel("{" + Key("entries") + "[", EntriesText(a.entries) + AfterEntries(a),
           EntriesText(b.entries) + AfterEntries(b));
    EntriesPeel(a.entries, AfterEntries(a), b.entries, AfterEntries(b));
    AfterEntriesSame(a, b);
  }

  // ---------- a chunk ----------

  lemma DonePeel(d: bool, s: string, e: bool, t: string)
    requires Transfer.DoneText(d) + s == Transfer.DoneText(e) + t
    ensures d == e && s == t
  {
    assert (Transfer.DoneText(d) + s)[0] == if d then 't' else 'f';
    assert (Transfer.DoneText(e) + t)[0] == if e then 't' else 'f';
    Cancel(Transfer.DoneText(d), s, t);
  }

  /** The first three fields of a chunk's message, as they are read. */
  function DataRead(num: int, data: string, done: bool, s: string): string {
    Decimal(num) + ("," + Key("data") + "\"" + (data + ("\"" + ("," + Key("done") + (Transfer.DoneText(done) + s)))))
  }

  lemma SpreadData(num: string, data: string, done: string, s: string)
    ensures Key("chunkNum") + num + Field("data", "\"" + data + "\"") + Field("done", done) + s ==
      Key("chunkNum") + (num + ("," + Key("data") + "\"" + (data + ("\"" + ("," + Key("done") + (done + s))))))
  {}

  lemma DataPeel(num: int, data: string, done: bool, s: string, num': int, data': string, done': bool, s': string)
    requires '"' !in data && '"' !in data' && DataRead(num, data, done, s) == DataRead(num', data', done', s')
    ensures num == num' && data == data' && done == done' && s == s'
  {
    var k := "," + Key("data") + "\"";
    var a, b := "," + Key("done") + (Transfer.DoneText(done) + s), "," + Key("done") + (Transfer.DoneText(done') + s');
    NumberPeel(num, k + (data + ("\"" + a)), num', k + (data' + ("\"" + b)));
    Cancel(k, data + ("\"" + a), data' + ("\"" + b));
    PartPeel(c => c != '"', data, "\"" + a, data', "\"" + b);
    Cancel("\"", a, b);
    Cancel("," + Key("done"), Transfer.DoneText(done) + s, Transfer.DoneText(done') + s');
    DonePeel(done, s, done', s');
  }

  /** A chunk's text behind its data. */
  function AfterData(a: SnapArgs): string {
    Transfer.SnapText(a) + (Transfer.PlaceText(a) + (Transfer.CallText(a) + "}"))
  }

  lemma SpreadMessage(data: string, snap: string, place: string, call: string)
    ensures Object(data + snap + place + call) == "{" + (data + (snap + (place + (call + "}"))))
  {}

  lemma SpreadCall(rpc: string, term: string, chunks: string)
    ensures rpc + term + chunks + "}" == rpc + (term + chunks + "}")
  {}

  lemma ChunkCallSame(a: SnapArgs, b: SnapArgs)
    requires Transfer.CallText(a) + "}" == Transfer.CallText(b) + "}"
    ensures a.term == b.term && a.totalChunks == b.totalChunks
  {
    var k := Field("rpc", "\"InstallSnapshot\"");
    var s := Field("term", Decimal(a.term)) + Field("totalChunks", Decimal(a.totalChunks)) + "}";
    var t := Field("term", Decimal(b.term)) + Field("totalChunks", Decimal(b.totalChunks)) + "}";
    SpreadCall(k, Field("term", Decimal(a.term)), Field("totalChunks", Decimal(a.totalChunks)));
    SpreadCall(k, Field("term", Decimal(b.term)), Field("totalChunks", Decimal(b.totalChunks)));
    Cancel(k, s, t);
    FieldsPeel("term", "totalChunks", a.term, a.totalChunks, "}", b.term, b.totalChunks, "}");
  }

  lemma AfterDataSame(a: SnapArgs, b: SnapArgs)
    requires AfterData(a) == AfterData(b)
    ensures a.lastIncludedIndex == b.lastIncludedIndex && a.lastIncludedTerm == b.lastIncludedTerm
    ensures a.leaderId == b.leaderId && a.offset == b.offset && a.term == b.term && a.totalChunks == b.totalChunks
  {
    var c, d := Transfer.CallText(a) + "}", Transfer.CallText(b) + "}";
    FieldsPeel("lastIncludedIndex", "lastIncludedTerm", a.lastIncludedIndex, a.lastIncludedTerm,
               Transfer.PlaceText(a) + c, b.lastIncludedIndex, b.lastIncludedTerm, Transfer.PlaceText(b) + d);
    FieldsPeel("leaderId", "offset", a.leaderId, a.offset, c, b.leaderId, b.offset, d);
    ChunkCallSame(a, b);
  }

  lemma DataSame(a: SnapArgs, s: string, b: SnapArgs, t: string)
    requires Transfer.DataText(a) + s == Transfer.DataText(b) + t && '"' !in a.data && '"' !in b.data
    ensures a.chunkNum == b.chunkNum && a.data == b.data && a.done == b.done && s == t
  {
    SpreadData(Decimal(a.chunkNum), a.data, Transfer.DoneText(a.done), s);
    SpreadData(Decimal(b.chunkNum), b.data, Transfer.DoneText(b.done), t);
    Cancel(Key("chunkNum"), DataRead(a.chunkNum, a.data, a.done, s), DataRead(b.chunkNum, b.data, b.done, t));
    DataPeel(a.chunkNum, a.data, a.done, s, b.chunkNum, b.data, b.done, t);
  }

  /** Base64 text has no quotes. */
  lemma NoQuotes(bytes: seq<Byte>)
    ensures '"' !in Base64.Encode(bytes)
  {
    var text := Base64.Text(Base64.Sextets(bytes));
    assert forall i | 0 <= i < |text| :: text[i] != '"';
  }

  /** Chunks without quotes in their data that have one text are one chunk. */
  lemma ChunkDetermined(a: SnapArgs, b: SnapArgs)
    requires Transfer.Json(a) == Transfer.Json(b) && '"' !in a.data && '"' !in b.data
    ensures a == b
  {
    SpreadMessage(Transfer.DataText(a), Transfer.SnapText(a), Transfer.PlaceText(a), Transfer.CallText(a));
    SpreadMessage(Transfer.DataText(b), Transfer.SnapText(b), Transfer.PlaceText(b), Transfer.CallText(b));
    Cancel("{", Transfer.DataText(a) + AfterData(a), Transfer.DataText(b) + AfterData(b));
    DataSame(a, AfterData(a), b, AfterData(b));
    AfterDataSame(a, b);
  }
}
