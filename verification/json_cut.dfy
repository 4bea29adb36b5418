/** Why a request that does not fit the receive buffer is refused: cut short anywhere, its text is no
    JSON text, because a bracket or a string in it is still open. */
module JsonCut {
  import opened RaftTypes
  import opened JsonText
  import opened AppendText

  /** Where a reader of JSON text is: outside of strings, in one, or behind a backslash in one; `depth`
      counts the brackets that are open. */
  datatype Reader = Outside(depth: int) | Inside(depth: int) | Behind(depth: int)

  function Next(r: Reader, c: char): Reader {
    match r
    case Outside(d) =>
      if c == '"' then Inside(d)
      else if c == '{' || c == '[' then Outside(d + 1)
      else if c == '}' || c == ']' then Outside(d - 1)
      else r
    case Inside(d) => if c == '"' then Outside(d) else if c == '\\' then Behind(d) else r
    case Behind(d) => Inside(d)
  }

  function Read(r: Reader, text: string): Reader {
    if text == "" then r else Next(Read(r, text[..|text| - 1]), text[|text| - 1])
  }

  /** Every string and bracket is closed, as in any JSON text. */
  predicate Closed(text: string) {
    Read(Outside(0), text) == Outside(0)
  }

  /** The least depth on the way. */
  function Least(r: Reader, text: string): int {
    if text == "" then r.depth
    else
      var before, last := Least(r, text[..|text| - 1]), Read(r, text).depth;
      if last < before then last else before
  }

  /** `text` takes the reader from `r` to `r'`, and never below depth `d`. */
  predicate Takes(r: Reader, text: string, r': Reader, d: int) {
    Read(r, text) == r' && Least(r, text) >= d
  }

  lemma {:induction false} ReadJoin(r: Reader, a: string, b: string)
    ensures Read(r, a + b) == Read(Read(r, a), b)
  {
    if b == "" {
      assert a + b == a;
    } else {
      var k := |b| - 1;
      assert (a + b)[..|a| + k] == a + b[..k];
      ReadJoin(r, a, b[..k]);
    }
  }

  lemma {:induction false} LeastJoin(r: Reader, a: string, b: string, d: int)
    requires Least(r, a) >= d && Least(Read(r, a), b) >= d
    ensures Least(r, a + b) >= d
  {
    if b == "" {
      assert a + b == a;
    } else {
      var k := |b| - 1;
      assert (a + b)[..|a| + k] == a + b[..k];
      LeastJoin(r, a, b[..k], d);
      ReadJoin(r, a, b);
    }
  }

  lemma {:induction false} LeastHolds(r: Reader, text: string, k: nat)
    requires k <= |text|
    ensures Read(r, text[..k]).depth >= Least(r, text)
  {
    if k == |text| {
      assert text[..k] == text;
    } else {
      assert text[..|text| - 1][..k] == text[..k];
      LeastHolds(r, text[..|text| - 1], k);
    }
  }

  lemma TakesJoin(r: Reader, a: string, r': Reader, b: string, r'': Reader, d: int)
    requires Takes(r, a, r', d) && Takes(r', b, r'', d)
    ensures Takes(r, a + b, r'', d)
  {
    ReadJoin(r, a, b);
    LeastJoin(r, a, b, d);
  }

  lemma TakesChar(r: Reader, c: char, d: int)
    requires r.depth >= d && Next(r, c).depth >= d
    ensures Takes(r, [c], Next(r, c), d)
  {
    assert [c][..0] == "";
  }

  /** Text that changes nothing where the reader is. */
  lemma {:induction false} TakesPlain(r: Reader, text: string)
    requires forall c | c in text :: Next(r, c) == r
    ensures Takes(r, text, r, r.depth)
  {
    if text == "" {
    } else {
      var k := |text| - 1;
      TakesPlain(r, text[..k]);
      TakesChar(r, text[k], r.depth);
      TakesJoin(r, text[..k], r, [text[k]], r, r.depth);
      assert text[..k] + [text[k]] == text;
    }
  }

  // ---------- the parts of a request ----------

  lemma TakesEscapedChar(d: int, c: char)
    ensures Takes(Inside(d), EscapedChar(c), Inside(d), d)
  {
    var e := EscapedChar(c);
    TakesChar(Inside(d), e[0], d);
    if |e| == 1 {
      assert e == [c];
    } else {
      TakesChar(Behind(d), e[1], d);
      TakesJoin(Inside(d), [e[0]], Behind(d), [e[1]], Inside(d), d);
      TakesPlain(Inside(d), e[2..]);
      TakesJoin(Inside(d), [e[0]] + [e[1]], Inside(d), e[2..], Inside(d), d);
      assert [e[0]] + [e[1]] + e[2..] == e;
    }
  }

  lemma {:induction false} TakesEscaped(d: int, s: string)
    ensures Takes(Inside(d), Escaped(s), Inside(d), d)
  {
    if s != "" {
      TakesEscapedChar(d, s[0]);
      TakesEscaped(d, s[1..]);
      TakesJoin(Inside(d), EscapedChar(s[0]), Inside(d), Escaped(s[1..]), Inside(d), d);
    }
  }

  /** A string between quotes. */
  lemma TakesString(d: int, text: string)
    requires Takes(Inside(d), text, Inside(d), d)
    ensures Takes(Outside(d), "\"" + text + "\"", Outside(d), d)
  {
    TakesChar(Outside(d), '"', d);
    TakesChar(Inside(d), '"', d);
    TakesJoin(Outside(d), "\"", Inside(d), text, Inside(d), d);
    TakesJoin(Outside(d), "\"" + text, Inside(d), "\"", Outside(d), d);
  }

  predicate Name(name: string) {
    '"' !in name && '\\' !in name
  }

  lemma TakesKey(d: int, name: string)
    requires Name(name)
    ensures Takes(Outside(d), Key(name), Outside(d), d)
  {
    TakesPlain(Inside(d), name);
    TakesString(d, name);
    TakesChar(Outside(d), ':', d);
    TakesJoin(Outside(d), "\"" + name + "\"", Outside(d), ":", Outside(d), d);
    assert "\"" + name + "\"" + ":" == Key(name);
  }

  /** Texts that leave the reader at its depth do so one after the other. */
  lemma TakesThree(d: int, a: string, b: string, c: string)
    requires Takes(Outside(d), a, Outside(d), d) && Takes(Outside(d), b, Outside(d), d)
    requires Takes(Outside(d), c, Outside(d), d)
    ensures Takes(Outside(d), a + b + c, Outside(d), d)
  {
    TakesJoin(Outside(d), a, Outside(d), b, Outside(d), d);
    TakesJoin(Outside(d), a + b, Outside(d), c, Outside(d), d);
  }

  lemma TakesField(d: int, name: string, text: string)
    requires Name(name) && Takes(Outside(d), text, Outside(d), d)
    ensures Takes(Outside(d), Field(name, text), Outside(d), d)
  {
    TakesPlain(Outside(d), ",");
    TakesKey(d, name);
    TakesThree(d, ",", Key(name), text);
  }

  lemma TakesPair(d: int, name: string, s: string) returns (text: string)
    requires Name(name)
    ensures text == Key(name) + Quoted(s) && Takes(Outside(d), text, Outside(d), d)
  {
    text := Key(name) + Quoted(s);
    TakesKey(d, name);
    TakesEscaped(d, s);
    TakesString(d, Escaped(s));
    TakesJoin(Outside(d), Key(name), Outside(d), Quoted(s), Outside(d), d);
  }

  lemma NameField(d: int, name: string, value: string) returns (text: string)
    requires Name(name) && Name(value)
    ensures text == Field(name, "\"" + value + "\"") && Takes(Outside(d), text, Outside(d), d)
  {
    text := Field(name, "\"" + value + "\"");
    TakesPlain(Inside(d), value);
    TakesString(d, value);
    TakesField(d, name, "\"" + value + "\"");
  }

  lemma {:induction false} DigitsOnly(v: nat)
    ensures forall c | c in DecimalDigits(v) :: '0' <= c <= '9'
  {
    if v >= 10 {
      DigitsOnly(v / 10);
    }
  }

  lemma NumberField(d: int, name: string, v: int) returns (text: string)
    requires Name(name)
    ensures text == Field(name, Decimal(v)) && Takes(Outside(d), text, Outside(d), d)
  {
    text := Field(name, Decimal(v));
    DigitsOnly(if v < 0 then -v else v);
    TakesPlain(Outside(d), Decimal(v));
    TakesField(d, name, Decimal(v));
  }

  /** What lies between two brackets. */
  lemma TakesBracketed(d: int, open: string, text: string, close: string)
    requires (open == "{" && close == "}") || (open == "[" && close == "]")
    requires Takes(Outside(d + 1), text, Outside(d + 1), d + 1)
    ensures Takes(Outside(d), open + text + close, Outside(d), d)
  {
    TakesChar(Outside(d), open[0], d);
    TakesChar(Outside(d + 1), close[0], d);
    TakesJoin(Outside(d), open, Outside(d + 1), text, Outside(d + 1), d);
    TakesJoin(Outside(d), open + text, Outside(d + 1), close, Outside(d), d);
  }

  lemma TakesObject(d: int, fields: string, text: string)
    requires Takes(Outside(d + 1), fields, Outside(d + 1), d + 1) && text == Object(fields)
    ensures Takes(Outside(d), text, Outside(d), d)
  {
    TakesBracketed(d, "{", fields, "}");
  }

  lemma TakesList(d: int, elements: string) returns (text: string)
    requires Takes(Outside(d + 1), elements, Outside(d + 1), d + 1)
    ensures text == List(elements) && Takes(Outside(d), text, Outside(d), d)
  {
    text := List(elements);
    TakesBracketed(d, "[", elements, "]");
  }

  lemma TakesEntry(d: int, e: Entry, text: string)
    requires text == EntryText(e)
    ensures Takes(Outside(d), text, Outside(d), d)
  {
    var index := NumberField(d + 1, "index", e.index);
    var term := NumberField(d + 1, "term", e.term);
    var command := TakesPair(d + 1, "command", e.command);
    TakesThree(d + 1, command, index, term);
    TakesObject(d, command + index + term, text);
  }

  lemma {:induction false} TakesEntries(d: int, es: Log) returns (text: string)
    ensures text == EntriesText(es) && Takes(Outside(d), text, Outside(d), d)
  {
    if es == [] {
      text := "";
    } else {
      text := EntryText(es[0]);
      TakesEntry(d, es[0], text);
      if |es| > 1 {
        var rest := TakesEntries(d, es[1..]);
        text := TakesListed(d, text, rest);
      }
    }
  }

  lemma TakesListed(d: int, first: string, rest: string) returns (text: string)
    requires Takes(Outside(d), first, Outside(d), d) && Takes(Outside(d), rest, Outside(d), d)
    ensures text == first + "," + rest && Takes(Outside(d), text, Outside(d), d)
  {
    TakesPlain(Outside(d), ",");
    TakesThree(d, first, ",", rest);
    text := first + "," + rest;
  }

  lemma TakesLeader(d: int, a: AppendArgs) returns (text: string)
    ensures text == LeaderText(a) && Takes(Outside(d), text, Outside(d), d)
  {
    var commit := NumberField(d, "leaderCommit", a.leaderCommit);
    var id := NumberField(d, "leaderId", a.leaderId);
    TakesJoin(Outside(d), commit, Outside(d), id, Outside(d), d);
    text := commit + id;
  }

  lemma TakesPrev(d: int, a: AppendArgs) returns (text: string)
    ensures text == PrevText(a) && Takes(Outside(d), text, Outside(d), d)
  {
    var index := NumberField(d, "prevLogIndex", a.prevLogIndex);
    var term := NumberField(d, "prevLogTerm", a.prevLogTerm);
    TakesJoin(Outside(d), index, Outside(d), term, Outside(d), d);
    text := index + term;
  }

  lemma TakesRpc(d: int) returns (text: string)
    ensures text == Field("rpc", "\"AppendEntries\"") && Takes(Outside(d), text, Outside(d), d)
  {
    text := NameField(d, "rpc", "AppendEntries");
  }

  lemma TakesCall(d: int, a: AppendArgs) returns (text: string)
    ensures text == CallText(a) && Takes(Outside(d), text, Outside(d), d)
  {
    var rpc := TakesRpc(d);
    var term := NumberField(d, "term", a.term);
    TakesJoin(Outside(d), rpc, Outside(d), term, Outside(d), d);
    text := rpc + term;
  }

  lemma TakesRest(d: int, a: AppendArgs) returns (text: string)
    ensures text == LeaderText(a) + PrevText(a) + CallText(a) && Takes(Outside(d), text, Outside(d), d)
  {
    var leader := TakesLeader(d, a);
    var prev := TakesPrev(d, a);
    var call := TakesCall(d, a);
    TakesThree(d, leader, prev, call);
    text := leader + prev + call;
  }

  lemma TakesLog(d: int, a: AppendArgs) returns (text: string)
    ensures text == Key("entries") + List(EntriesText(a.entries)) && Takes(Outside(d), text, Outside(d), d)
  {
    var elements := TakesEntries(d + 1, a.entries);
    var entries := TakesList(d, elements);
    TakesKey(d, "entries");
    TakesJoin(Outside(d), Key("entries"), Outside(d), entries, Outside(d), d);
    text := Key("entries") + entries;
  }

  lemma TakesBody(a: AppendArgs) returns (body: string)
    ensures Json(a) == "{" + body + "}" && Takes(Outside(1), body, Outside(1), 1)
  {
    var entries := TakesLog(1, a);
    var rest := TakesRest(1, a);
    TakesJoin(Outside(1), entries, Outside(1), rest, Outside(1), 1);
    body := entries + rest;
  }

  // ---------- a request cut short ----------

  lemma BodyOpen(body: string, j: nat)
    requires Takes(Outside(1), body, Outside(1), 1) && j <= |body|
    ensures Read(Outside(0), "{" + body[..j]).depth >= 1
  {
    LeastHolds(Outside(1), body, j);
    TakesChar(Outside(0), '{', 0);
    ReadJoin(Outside(0), "{", body[..j]);
  }

  lemma CutText(body: string, text: string, k: nat)
    requires Takes(Outside(1), body, Outside(1), 1) && text == "{" + body + "}" && 0 < k <= |text|
    ensures Closed(text[..k]) <==> k == |text|
  {
    if k < |text| {
      assert text[..k] == "{" + body[..k - 1];
      BodyOpen(body, k - 1);
    } else {
      assert text[..k] == text;
      TakesBracketed(0, "{", body, "}");
    }
  }

  /** The whole text of a request is closed, and no text is that is cut from it short of its end. */
  lemma CutIsOpen(a: AppendArgs, k: nat)
    requires 0 < k <= |Json(a)|
    ensures Closed(Json(a)[..k]) <==> k == |Json(a)|
  {
    var body := TakesBody(a);
    CutText(body, Json(a), k);
  }

  /** What the receiver reads of a request, into a buffer of 8191 bytes. */
  function Received(a: AppendArgs): string {
    if |Json(a)| <= 8191 then Json(a) else Json(a)[..8191]
  }

  /** What is read is closed text if and only if the request fits. */
  lemma ReadsWholeExactly(a: AppendArgs)
    ensures Closed(Received(a)) <==> Fits(a)
  {
    CutIsOpen(a, if |Json(a)| <= 8191 then |Json(a)| else 8191);
    assert Json(a)[..|Json(a)|] == Json(a);
  }
}
