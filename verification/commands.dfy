/** The text command a leader logs, its reading when it is applied, and its effect on the map. */
module Commands {
  import opened RaftTypes

  datatype Command = Command(op: string, key: string, value: string)

  /** isspace in the C locale. */
  predicate IsSpace(c: char) {
    c == ' ' || 9 <= c as int <= 13
  }

  predicate NoSpace(s: string) {
    forall i | 0 <= i < |s| :: !IsSpace(s[i])
  }

  function Build(op: string, key: string, value: string): string {
    op + " " + key + " " + value
  }

  function DropSpaces(s: string): (r: string)
    ensures |r| <= |s|
  {
    if s != "" && IsSpace(s[0]) then DropSpaces(s[1..]) else s
  }

  /** The longest prefix without white space. */
  function Token(s: string): (r: string)
    ensures |r| <= |s|
  {
    if s == "" || IsSpace(s[0]) then "" else [s[0]] + Token(s[1..])
  }

  /** What getline reads: everything up to the first newline. */
  function Line(s: string): (r: string)
    ensures |r| <= |s|
  {
    if s == "" || s[0] == '\n' then "" else [s[0]] + Line(s[1..])
  }

  /** `iss >> op >> key; getline(iss, value)`, then one leading space dropped. A failed
      extraction leaves the stream unreadable, so the value then stays empty. */
  function Parse(text: string): Command {
    var s1 := DropSpaces(text);
    var op := Token(s1);
    var s2 := DropSpaces(s1[|op|..]);
    var key := Token(s2);
    var rest := if key == "" then "" else Line(s2[|key|..]);
    Command(op, key, if rest != "" && rest[0] == ' ' then rest[1..] else rest)
  }

  lemma {:induction false} TokenIs(s: string)
    ensures Token(s) == s[..|Token(s)|] && NoSpace(Token(s))
    ensures |Token(s)| < |s| ==> IsSpace(s[|Token(s)|])
  {
    if s != "" && !IsSpace(s[0]) {
      TokenIs(s[1..]);
    }
  }

  lemma {:induction false} LineIs(s: string)
    ensures Line(s) == s[..|Line(s)|] && '\n' !in Line(s)
    ensures |Line(s)| < |s| ==> s[|Line(s)|] == '\n'
  {
    if s != "" && s[0] != '\n' {
      LineIs(s[1..]);
    }
  }

  /** What is read has no white space in operation and key, no newline in the value, and no value
      without a key. */
  lemma ParseIs(text: string)
    ensures var c := Parse(text);
      NoSpace(c.op) && NoSpace(c.key) && '\n' !in c.value && (c.key == "" ==> c.value == "")
  {
    var s1 := DropSpaces(text);
    TokenIs(s1);
    var s2 := DropSpaces(s1[|Token(s1)|..]);
    TokenIs(s2);
    LineIs(s2[|Token(s2)|..]);
  }

  /** The effect on the map of applying one logged command. */
  function Exec(store: KV, text: string): KV {
    var c := Parse(text);
    if c.op == "PUT" then store[c.key := c.value]
    else if c.op == "DELETE" then store - {c.key}
    else store
  }

  function ExecAll(store: KV, texts: seq<string>): KV {
    if texts == [] then store else Exec(ExecAll(store, texts[..|texts| - 1]), texts[|texts| - 1])
  }

  lemma {:induction false} TokenOf(t: string, rest: string)
    requires NoSpace(t)
    requires rest == "" || IsSpace(rest[0])
    ensures Token(t + rest) == t
  {
    if t == "" {
      assert t + rest == rest;
    } else {
      assert (t + rest)[1..] == t[1..] + rest;
      TokenOf(t[1..], rest);
    }
  }

  lemma {:induction false} LineOf(s: string)
    requires '\n' !in s
    ensures Line(s) == s
  {
    if s != "" {
      LineOf(s[1..]);
    }
  }

  lemma DropNothing(t: string, rest: string)
    requires t != "" && NoSpace(t)
    ensures DropSpaces(t + rest) == t + rest
  {
    assert (t + rest)[0] == t[0];
  }

  lemma FirstToken(t: string, rest: string)
    requires t != "" && NoSpace(t)
    requires rest == "" || IsSpace(rest[0])
    ensures DropSpaces(t + rest) == t + rest && Token(t + rest) == t && (t + rest)[|t|..] == rest
  {
    DropNothing(t, rest);
    TokenOf(t, rest);
  }

  lemma DropOne(s: string)
    ensures DropSpaces(" " + s) == DropSpaces(s)
  {
    assert (" " + s)[1..] == s;
  }

  /** The triples for which reading back what was logged is the identity. */
  predicate Codable(op: string, key: string, value: string) {
    && NoSpace(op) && NoSpace(key) && '\n' !in value
    && ((op != "" && key != "") || (key == "" && value == ""))
  }

  lemma ParseBuildFull(op: string, key: string, value: string)
    requires NoSpace(op) && NoSpace(key) && '\n' !in value && op != "" && key != ""
    ensures Parse(Build(op, key, value)) == Command(op, key, value)
  {
    var tail := " " + value;
    var middle := " " + (key + tail);
    assert Build(op, key, value) == op + middle;
    FirstToken(op, middle);
    DropOne(key + tail);
    FirstToken(key, tail);
    LineOf(tail);
    assert tail[1..] == value;
  }

  lemma ParseBuildBare(op: string)
    requires NoSpace(op)
    ensures Parse(Build(op, "", "")) == Command(op, "", "")
  {
    assert Build(op, "", "") == op + "  ";
    DropOne(" ");
    DropOne("");
    assert " " + " " == "  " && " " + "" == " ";
    assert DropSpaces("  ") == "";
    TokenOf(op, "  ");
    assert (op + "  ")[|op|..] == "  ";
    if op == "" {
      assert op + "  " == "  ";
    } else {
      DropNothing(op, "  ");
    }
  }

  /** Logging a command and reading it back returns the same triple exactly for the codable
      ones: white space in the operation or key, a newline in the value, or a missing
      operation or key (unless nothing follows it) changes it. */
  lemma CommandRoundTrip(op: string, key: string, value: string)
    ensures Parse(Build(op, key, value)) == Command(op, key, value) <==> Codable(op, key, value)
  {
    if Codable(op, key, value) {
      if key != "" {
        ParseBuildFull(op, key, value);
      } else {
        ParseBuildBare(op);
      }
    } else if op == "" && key != "" && NoSpace(key) {
      var tail := " " + value;
      assert Build(op, key, value) == " " + (key + tail);
      DropOne(key + tail);
      DropNothing(key, tail);
      TokenOf(key, tail);
    } else {
      ParseIs(Build(op, key, value));
    }
  }

  lemma {:induction false} ExecAllAppend(store: KV, a: seq<string>, b: seq<string>)
    ensures ExecAll(store, a + b) == ExecAll(ExecAll(store, a), b)
  {
    if b == [] {
      assert a + b == a;
    } else {
      var k := |b| - 1;
      assert (a + b)[..|a + b| - 1] == a + b[..k];
      ExecAllAppend(store, a, b[..k]);
    }
  }
}
