/** The text of numbers and strings inside the JSON of a message. */
module JsonText {
  import opened ByteCodec

  function DigitChar(d: int): char
    requires 0 <= d < 10
  {
    '0' + (d as char)
  }

  function DecimalDigits(v: nat): (s: string)
    ensures |s| >= 1
  {
    if v < 10 then [DigitChar(v)] else DecimalDigits(v / 10) + [DigitChar(v % 10)]
  }

  function Decimal(v: int): string {
    if v < 0 then "-" + DecimalDigits(-v) else DecimalDigits(v)
  }

  function Power10(k: nat): nat {
    if k == 0 then 1 else 10 * Power10(k - 1)
  }

  lemma {:induction false} DigitsLength(v: nat, k: nat)
    requires k >= 1 && v < Power10(k)
    ensures |DecimalDigits(v)| <= k
    decreases k
  {
    if v >= 10 {
      assert k > 1 by {
        assert Power10(1) == 10 * Power10(0) == 10;
      }
      DigitsLength(v / 10, k - 1);
    }
  }

  /** A 32-bit number takes at most eleven characters. */
  lemma DecimalLength(v: int)
    requires Int32(v)
    ensures |Decimal(v)| <= 11
  {
    assert Power10(10) == 10_000_000_000 by {
      assert Power10(2) == 100;
      assert Power10(4) == 10_000;
      assert Power10(6) == 1_000_000;
      assert Power10(8) == 100_000_000;
    }
    DigitsLength(if v < 0 then -v else v, 10);
  }

  /** One character of a string: quotes, backslashes and control characters are escaped. */
  function EscapedChar(c: char): (s: string)
    ensures 1 <= |s| <= 6
  {
    if c == '"' || c == '\\' then ['\\', c]
    else if 8 <= c as int <= 10 || 12 <= c as int <= 13 then
      ['\\', if c as int == 8 then 'b' else if c == '\t' then 't' else if c == '\n' then 'n'
             else if c as int == 12 then 'f' else 'r']
    else if c as int < 32 then
      ['\\', 'u', '0', '0', if c as int < 16 then '0' else '1', HexChar(c as int % 16)]
    else [c]
  }

  function HexChar(d: int): char
    requires 0 <= d < 16
  {
    "0123456789abcdef"[d]
  }

  function Escaped(s: string): (r: string)
    ensures |r| >= |s|
  {
    if s == "" then "" else EscapedChar(s[0]) + Escaped(s[1..])
  }

  function Key(name: string): string {
    "\"" + name + "\":"
  }

  /** A field that is not the first of its object. */
  function Field(name: string, text: string): string {
    "," + Key(name) + text
  }

  function Quoted(s: string): string {
    "\"" + Escaped(s) + "\""
  }

  function Object(fields: string): string {
    "{" + fields + "}"
  }

  function List(elements: string): string {
    "[" + elements + "]"
  }

  lemma NumberShort(name: string, v: int)
    requires Int32(v)
    ensures |Field(name, Decimal(v))| <= |name| + 15
  {
    DecimalLength(v);
  }
}
