/** Base64 (section 4 of RFC 4648) as the repository's bit accumulators compute it. */
module Base64 {
  import opened RaftTypes
  import opened Bits
  import opened Chunks

  type Sextet = v: int | 0 <= v < 64

  const UPPER: string := "ABCDEFGHIJKLMNOPQRSTUVWXYZ"
  const LOWER: string := "abcdefghijklmnopqrstuvwxyz"
  const OTHER: string := "0123456789+/"
  const ALPHABET: string := UPPER + LOWER + OTHER

  function Digit(v: Sextet): char {
    if v < 26 then ('A' as int + v) as char
    else if v < 52 then ('a' as int + (v - 26)) as char
    else if v < 62 then ('0' as int + (v - 52)) as char
    else if v == 62 then '+' else '/'
  }

  /** The value of a base64 digit, or -1 for every other character. */
  function Value(c: char): int {
    if 'A' <= c <= 'Z' then c as int - 'A' as int
    else if 'a' <= c <= 'z' then c as int - 'a' as int + 26
    else if '0' <= c <= '9' then c as int - '0' as int + 52
    else if c == '+' then 62
    else if c == '/' then 63
    else -1
  }

  /** The sextet made of the low `k` bits of a byte and the high `6 - k` bits of the next. */
  function Across(a: Byte, b: Byte, k: nat): (s: Sextet)
    requires k == 2 || k == 4
  {
    Powers(); LowBound(a, k); ShrBound(b, k + 2, 6 - k); ShlSmall(Low(a, k));
    Shl(Low(a, k), 6 - k) + Shr(b, k + 2)
  }

  function First(a: Byte): Sextet {
    Powers(); ShrBound(a, 2, 6);
    Shr(a, 2)
  }

  function Fourth(c: Byte): Sextet {
    Powers(); LowBound(c, 6);
    Low(c, 6)
  }

  /** The byte made of the low `k` bits of a sextet and the high `8 - k` bits of the next. */
  function Joined(p: Sextet, q: Sextet, k: nat): (b: Byte)
    requires k == 2 || k == 4 || k == 6
  {
    Powers(); LowBound(p, k); ShrBound(q, k - 2, 8 - k); ShlSmall(Low(p, k));
    Shl(Low(p, k), 8 - k) + Shr(q, k - 2)
  }

  /** A group of three bytes becomes four sextets; one of two or one becomes three or two. */
  function Group(g: seq<Byte>): seq<Sextet> {
    if |g| == 1 then [First(g[0]), Across(g[0], 0, 2)]
    else if |g| == 2 then [First(g[0]), Across(g[0], g[1], 2), Across(g[1], 0, 4)]
    else if |g| == 3 then [First(g[0]), Across(g[0], g[1], 2), Across(g[1], g[2], 4), Fourth(g[2])]
    else []
  }

  /** Of a group of up to four sextets only whole bytes count. */
  function Ungroup(h: seq<Sextet>): seq<Byte> {
    if |h| == 2 then [Joined(h[0], h[1], 6)]
    else if |h| == 3 then [Joined(h[0], h[1], 6), Joined(h[1], h[2], 4)]
    else if |h| == 4 then [Joined(h[0], h[1], 6), Joined(h[1], h[2], 4), Joined(h[2], h[3], 2)]
    else []
  }

  function Sextets(d: seq<Byte>): seq<Sextet> {
    MapChunks(Group, 3, d)
  }

  function Octets(v: seq<Sextet>): seq<Byte> {
    MapChunks(Ungroup, 4, v)
  }

  function Text(v: seq<Sextet>): string {
    seq(|v|, i requires 0 <= i < |v| => Digit(v[i]))
  }

  /** What fills `n` characters up to a multiple of four. */
  function Pad(n: nat): string {
    seq((4 - n % 4) % 4, _ => '=')
  }

  function Encode(d: seq<Byte>): string {
    var t := Text(Sextets(d));
    t + Pad(|t|)
  }

  /** The values of the digits before the first character that is no digit. */
  function Digits(s: string): seq<Sextet> {
    if s == "" || Value(s[0]) < 0 then [] else [Value(s[0])] + Digits(s[1..])
  }

  function Decode(s: string): seq<Byte> {
    Octets(Digits(s))
  }

  // ---------- round trip and length ----------

  lemma {:induction false} SextetsLength(d: seq<Byte>)
    ensures |Sextets(d)| == 4 * (|d| / 3) + (if |d| % 3 == 0 then 0 else |d| % 3 + 1)
  {
    if |d| > 3 {
      SextetsLength(d[3..]);
    }
  }

  lemma JoinFirst(a: Byte, b: Byte)
    ensures Joined(First(a), Across(a, b, 2), 6) == a
  {
    Powers();
    ShrBound(a, 2, 6);
    LowOfSmall(Shr(a, 2), 6);
    ShrOfShl(Low(a, 2), Shr(b, 4), 4, 4);
    ShrTwice(b, 4, 4);
    ShrBound(b, 8, 0);
    Halves(a, 2);
  }

  lemma JoinSecond(a: Byte, b: Byte, c: Byte)
    ensures Joined(Across(a, b, 2), Across(b, c, 4), 4) == b
  {
    Powers();
    ShrBound(b, 4, 4);
    LowOfShl(Low(a, 2), Shr(b, 4), 4, 0);
    ShrOfShl(Low(b, 4), Shr(c, 6), 2, 2);
    ShrTwice(c, 6, 2);
    ShrBound(c, 8, 0);
    ShlSmall(0);
    Halves(b, 4);
  }

  lemma JoinThird(b: Byte, c: Byte)
    ensures Joined(Across(b, c, 4), Fourth(c), 2) == c
  {
    Powers();
    ShrBound(c, 6, 2);
    LowOfShl(Low(b, 4), Shr(c, 6), 2, 0);
    ShlSmall(0);
    Halves(c, 6);
  }

  lemma UngroupOfGroup(g: seq<Byte>)
    requires 1 <= |g| <= 3
    ensures Ungroup(Group(g)) == g
  {
    JoinFirst(g[0], if |g| == 1 then 0 else g[1]);
    if |g| >= 2 {
      JoinSecond(g[0], g[1], if |g| == 2 then 0 else g[2]);
    }
    if |g| == 3 {
      JoinThird(g[1], g[2]);
    }
  }

  lemma {:induction false} OctetsOfSextets(d: seq<Byte>)
    ensures Octets(Sextets(d)) == d
  {
    if d != [] {
      var k := if |d| <= 3 then |d| else 3;
      var g, rest := d[..k], d[k..];
      OctetsOfSextets(rest);
      UngroupOfGroup(g);
      assert d == g + rest;
      if k == 3 && rest != [] {
        var s := Group(g) + Sextets(rest);
        assert s[..4] == Group(g) && s[4..] == Sextets(rest);
        assert Sextets(rest) != [];
      }
    }
  }

  lemma ValueOfDigit(v: Sextet)
    ensures Value(Digit(v)) == v
  {}

  lemma {:induction false} DigitsOfText(v: seq<Sextet>, rest: string)
    requires rest == "" || Value(rest[0]) < 0
    ensures Digits(Text(v) + rest) == v
  {
    if v == [] {
      assert Text(v) + rest == rest;
    } else {
      assert (Text(v) + rest)[1..] == Text(v[1..]) + rest;
      ValueOfDigit(v[0]);
      DigitsOfText(v[1..], rest);
    }
  }

  /** Decoding what was encoded gives the same bytes back. */
  lemma RoundTrip(d: seq<Byte>)
    ensures Decode(Encode(d)) == d
  {
    DigitsOfText(Sextets(d), Pad(|Sextets(d)|));
    OctetsOfSextets(d);
  }

  /** Encoded text has four characters for every started group of three bytes. */
  lemma EncodeLength(d: seq<Byte>)
    ensures |Encode(d)| == 4 * ((|d| + 2) / 3)
  {
    SextetsLength(d);
    var q, r := |d| / 3, |d| % 3;
    var n := |Sextets(d)|;
    assert n % 4 == (n - 4 * q) % 4;
  }

  // ---------- the accumulator loops ----------

  /** What an accumulator of `width` bits keeps of a value; 0 stands for unbounded. */
  function Wrap(v: nat, width: nat): nat {
    if width == 0 then v else Low(v, width)
  }

  /** Twelve bits are all that is ever read back, so a 32-bit `int` does. */
  predicate WideEnough(width: nat) {
    width == 0 || width >= 12
  }

  lemma WrapKeepsLowBits(v: nat, width: nat, k: nat)
    requires WideEnough(width) && k <= 12
    ensures Low(Wrap(v, width), k) == Low(v, k)
  {
    if width != 0 {
      LowOfLow(v, width, k);
    }
  }

  /** `(v >> a) & mask` after `c` was shifted in: the `k` held bits above `c` stay. */
  lemma ReadBack(held: nat, c: nat, s: nat, k: nat, a: nat, b: nat, width: nat)
    requires WideEnough(width) && a + b == s + k <= 12 && a <= s && c < Shl(1, s)
    ensures Low(Shr(Wrap(Shl(held, s) + c, width), a), b) == Shl(Low(held, k), s - a) + Shr(c, a)
  {
    var v := Shl(held, s) + c;
    LowBits(Wrap(v, width), v, a, b) by {
      WrapKeepsLowBits(v, width, a + b);
    }
    LowOfShl(held, c, s, k);
    ShrOfShl(Low(held, k), c, s, a);
  }

  lemma LowBits(w: nat, v: nat, a: nat, b: nat)
    requires Low(w, a + b) == Low(v, a + b)
    ensures Low(Shr(w, a), b) == Shr(Low(v, a + b), a)
  {
    LowOfShr(w, a, b);
  }

  lemma HeldBack(held: nat, c: nat, s: nat, k: nat, width: nat)
    requires WideEnough(width) && k <= s <= 12 && c < Shl(1, s)
    ensures Low(Wrap(Shl(held, s) + c, width), k) == Low(c, k)
  {
    var v := Shl(held, s) + c;
    WrapKeepsLowBits(v, width, k);
    LowOfLow(v, s, k);
    LowOfShl(held, c, s, 0);
    ShlZero(s);
  }

  lemma {:induction false} ShlZero(s: nat)
    ensures Shl(0, s) == 0
  {
    if s != 0 {
      ShlZero(s - 1);
    }
  }

  /** What the encoder has written for a group of which `g` is known. */
  function Held(g: seq<Byte>): string
    requires |g| < 3
  {
    if |g| == 0 then ""
    else if |g| == 1 then [Digit(First(g[0]))]
    else [Digit(First(g[0])), Digit(Across(g[0], g[1], 2))]
  }

  lemma TextAppend(a: seq<Sextet>, b: seq<Sextet>)
    ensures Text(a + b) == Text(a) + Text(b)
  {}

  lemma TextOfFour(a: Sextet, b: Sextet, c: Sextet, d: Sextet)
    ensures Text([a, b, c, d]) == [Digit(a), Digit(b), Digit(c), Digit(d)]
    ensures Text([a, b, c]) == [Digit(a), Digit(b), Digit(c)]
    ensures Text([a, b]) == [Digit(a), Digit(b)]
  {}

  lemma GroupText(p: seq<Byte>, g: seq<Byte>)
    requires Full(3, p) && 1 <= |g| <= 3
    ensures Text(Sextets(p + g)) == Text(Sextets(p)) + Text(Group(g))
  {
    MapSplit(Group, 3, p, g);
    TextAppend(Sextets(p), Group(g));
  }

  lemma GroupDone(p: seq<Byte>, a: Byte, b: Byte, c: Byte)
    requires Full(3, p)
    ensures Full(3, p + [a, b, c])
    ensures Text(Sextets(p + [a, b, c])) ==
      Text(Sextets(p)) + Held([a, b]) + [Digit(Across(b, c, 4)), Digit(Fourth(c))]
  {
    GroupText(p, [a, b, c]);
    FullGrows(3, p, [a, b, c]);
    TextOfFour(First(a), Across(a, b, 2), Across(b, c, 4), Fourth(c));
  }

  lemma GroupCut(p: seq<Byte>, g: seq<Byte>)
    requires Full(3, p) && 1 <= |g| <= 2
    ensures Text(Sextets(p + g)) ==
      Text(Sextets(p)) + Held(g) + [Digit(Across(g[|g| - 1], 0, 2 * |g|))]
  {
    GroupText(p, g);
    if |g| == 1 {
      TextOfFour(First(g[0]), Across(g[0], 0, 2), 0, 0);
    } else {
      TextOfFour(First(g[0]), Across(g[0], g[1], 2), Across(g[1], 0, 4), 0);
    }
  }

  lemma UpperDigits()
    ensures |UPPER| == 26
    ensures forall v | 0 <= v < 26 :: UPPER[v] == ('A' as int + v) as char
  {}

  lemma LowerDigits()
    ensures |LOWER| == 26
    ensures forall v | 0 <= v < 26 :: LOWER[v] == ('a' as int + v) as char
  {}

  lemma OtherDigits()
    ensures |OTHER| == 12
    ensures forall v | 0 <= v < 12 :: OTHER[v] == Digit(52 + v)
  {}

  lemma AlphabetIsDigits()
    ensures |ALPHABET| == 64
    ensures forall v | 0 <= v < 64 :: ALPHABET[v] == Digit(v)
  {
    UpperDigits();
    LowerDigits();
    OtherDigits();
  }

  /** `base64_chars[v]` */
  method Char(v: Sextet) returns (c: char)
    ensures c == Digit(v)
  {
    AlphabetIsDigits();
    c := ALPHABET[v];
  }

  /** The accumulator's low bits are those the last byte held has not yet given up. */
  predicate HoldsBits(g: seq<Byte>, val: nat) {
    0 < |g| < 3 ==> Low(val, 2 * |g|) == Low(g[|g| - 1], 2 * |g|)
  }

  /** Halfway through: whole groups `p` are written, and `g` is held. */
  ghost predicate Encoding(p: seq<Byte>, g: seq<Byte>, val: nat, encoded: string) {
    && Full(3, p) && |g| < 3
    && encoded == Text(Sextets(p)) + Held(g)
    && HoldsBits(g, val)
  }

  lemma FirstByte(p: seq<Byte>, val: nat, c: Byte, width: nat)
    requires WideEnough(width)
    ensures var v := Wrap(Shl(val, 8) + c, width);
      SixBits(v, 2) == Digit(First(c)) && HoldsBits([c], v)
  {
    Powers();
    ReadBack(val, c, 8, 0, 2, 6, width);
    ShlZero(6);
    HeldBack(val, c, 8, 2, width);
  }

  lemma SecondByte(a: Byte, val: nat, c: Byte, width: nat)
    requires WideEnough(width) && HoldsBits([a], val)
    ensures var v := Wrap(Shl(val, 8) + c, width);
      SixBits(v, 4) == Digit(Across(a, c, 2)) && HoldsBits([a, c], v)
  {
    Powers();
    ReadBack(val, c, 8, 2, 4, 6, width);
    HeldBack(val, c, 8, 4, width);
  }

  lemma ThirdByte(a: Byte, b: Byte, val: nat, c: Byte, width: nat)
    requires WideEnough(width) && HoldsBits([a, b], val)
    ensures var v := Wrap(Shl(val, 8) + c, width);
      SixBits(v, 6) == Digit(Across(b, c, 4)) && SixBits(v, 0) == Digit(Fourth(c))
  {
    Powers();
    ReadBack(val, c, 8, 4, 6, 6, width);
    HeldBack(val, c, 8, 6, width);
  }

  /** The digit `base64_chars[(val >> k) & 0x3F]` */
  function SixBits(val: nat, k: nat): char {
    Powers(); LowBound(Shr(val, k), 6);
    Digit(Low(Shr(val, k), 6))
  }

  /** What one more byte makes the encoder write. */
  function Written(g: seq<Byte>, c: Byte): string
    requires |g| < 3
  {
    if |g| == 0 then [Digit(First(c))]
    else if |g| == 1 then [Digit(Across(g[0], c, 2))]
    else [Digit(Across(g[1], c, 4)), Digit(Fourth(c))]
  }

  lemma EncodeByte(p: seq<Byte>, g: seq<Byte>, val: nat, encoded: string, c: Byte, width: nat)
    requires WideEnough(width) && Encoding(p, g, val, encoded)
    ensures var v := Wrap(Shl(val, 8) + c, width);
      && SixBits(v, 2 + 2 * |g|) == Written(g, c)[0]
      && (|g| == 2 ==> SixBits(v, 0) == Written(g, c)[1])
      && (if |g| == 2 then Encoding(p + (g + [c]), [], v, encoded + Written(g, c))
          else Encoding(p, g + [c], v, encoded + Written(g, c)))
  {
    if |g| == 0 {
      FirstByte(p, val, c, width);
      assert g + [c] == [c];
    } else if |g| == 1 {
      assert g == [g[0]];
      SecondByte(g[0], val, c, width);
      assert g + [c] == [g[0], c];
    } else {
      assert g == [g[0], g[1]];
      ThirdByte(g[0], g[1], val, c, width);
      GroupDone(p, g[0], g[1], c);
      assert g + [c] == [g[0], g[1], c];
    }
  }

  /** The inner loop: the accumulator gives up every whole sextet. */
  method Drain(ghost g: seq<Byte>, val: nat, valb: int, encoded: string, ghost c: Byte)
      returns (valb': int, encoded': string)
    requires |g| < 3 && valb == 2 + 2 * |g|
    requires SixBits(val, valb) == Written(g, c)[0]
    requires |g| == 2 ==> SixBits(val, 0) == Written(g, c)[1]
    ensures encoded' == encoded + Written(g, c)
    ensures valb' == if |g| == 2 then -6 else 2 * |g| - 4
  {
    valb' := valb;
    encoded' := encoded;
    while valb' >= 0
      invariant
        || (valb' == valb && encoded' == encoded)
        || (valb' == valb - 6 && encoded' == encoded + [Written(g, c)[0]])
        || (|g| == 2 && valb' == -6 && encoded' == encoded + Written(g, c))
      decreases valb' + 6
    {
      Powers();
      LowBound(Shr(val, valb'), 6);
      var ch := Char(Low(Shr(val, valb'), 6));
      encoded' := encoded' + [ch];
      valb' := valb' - 6;
    }
  }

  /** The encoder. Its accumulator only ever gives up low bits, so every width of twelve or
      more, a 32-bit `int` included, yields the text of section 4 of RFC 4648. */
  method Base64Encode(data: seq<Byte>, width: nat) returns (encoded: string)
    requires WideEnough(width)
    ensures encoded == Encode(data)
  {
    encoded := "";
    var val: nat, valb := 0, -6;
    ghost var p: seq<Byte>, g: seq<Byte> := [], [];
    for i := 0 to |data|
      invariant p + g == data[..i]
      invariant Encoding(p, g, val, encoded)
      invariant valb == 2 * |g| - 6
    {
      EncodeByte(p, g, val, encoded, data[i], width);
      Snoc(p, g, data, i);
      val := Wrap(Shl(val, 8) + data[i], width);
      valb, encoded := Drain(g, val, valb + 8, encoded, data[i]);
      if |g| == 2 {
        p, g := p + (g + [data[i]]), [];
      } else {
        g := g + [data[i]];
      }
    }
    assert data[..|data|] == data;
    if valb > -6 {
      var ch := LastChar(g, val, valb, width);
      GroupCut(p, g);
      encoded := encoded + [ch];
    } else {
      assert p + g == p;
    }
    assert encoded == Text(Sextets(data));
    encoded := PadToFour(encoded);
  }

  /** The digit for the bits of a group cut short, filled up with zeros. */
  method LastChar(ghost g: seq<Byte>, val: nat, valb: int, width: nat) returns (c: char)
    requires WideEnough(width) && 1 <= |g| < 3 && HoldsBits(g, val) && valb == 2 * |g| - 6
    ensures c == Digit(Across(g[|g| - 1], 0, 2 * |g|))
  {
    Powers();
    var v := Wrap(Shl(val, 8), width);
    LowBound(Shr(v, valb + 8), 6);
    ReadBack(val, 0, 8, 2 * |g|, 2 * |g| + 2, 6, width);
    c := Char(Low(Shr(v, valb + 8), 6));
  }

  method PadToFour(text: string) returns (padded: string)
    ensures padded == text + Pad(|text|)
  {
    padded := text;
    while |padded| % 4 != 0
      invariant |text| <= |padded| <= |text| + (4 - |text| % 4) % 4
      invariant padded == text + seq(|padded| - |text|, _ => '=')
      decreases |text| + 4 - |padded|
    {
      padded := padded + ['='];
    }
  }

  /** The values of the first `j` characters. */
  function Values(s: string, j: nat): seq<Sextet>
    requires j <= |s| && forall i | 0 <= i < j :: Value(s[i]) >= 0
  {
    seq(j, i requires 0 <= i < j => Value(s[i]))
  }

  lemma {:induction false} DigitsPrefix(s: string, j: nat)
    requires j <= |s|
    requires forall i | 0 <= i < j :: Value(s[i]) >= 0
    requires j < |s| ==> Value(s[j]) < 0
    ensures Digits(s) == Values(s, j)
  {
    if j != 0 {
      DigitsPrefix(s[1..], j - 1);
      assert Values(s, j) == [Value(s[0])] + Values(s[1..], j - 1);
    }
  }

  /** The byte, if any, that one more sextet completes. */
  function GrowsBy(g: seq<Sextet>, s: Sextet): (r: seq<Byte>)
    requires |g| < 4
  {
    if |g| == 0 then [] else [Joined(g[|g| - 1], s, 8 - 2 * |g|)]
  }

  lemma UngroupGrows(g: seq<Sextet>, s: Sextet)
    requires |g| < 4
    ensures Ungroup(g + [s]) == Ungroup(g) + GrowsBy(g, s)
  {}

  lemma OctetsGrow(p: seq<Sextet>, g: seq<Sextet>, s: Sextet)
    requires Full(4, p) && |g| < 4
    ensures Octets(p + (g + [s])) == Octets(p + g) + GrowsBy(g, s)
    ensures |g| == 3 ==> Full(4, p + (g + [s]))
  {
    MapSplit(Ungroup, 4, p, g + [s]);
    UngroupGrows(g, s);
    if g == [] {
      assert p + g == p;
    } else {
      MapSplit(Ungroup, 4, p, g);
    }
    if |g| == 3 {
      FullGrows(4, p, g + [s]);
    }
  }

  /** The accumulator's low bits are those the last sextet held has not yet given up. */
  predicate HoldsSextet(g: seq<Sextet>, val: nat) {
    0 < |g| < 4 ==> Low(val, 8 - 2 * |g|) == Low(g[|g| - 1], 8 - 2 * |g|)
  }

  /** What the decoder writes for digit value `t`, and what the accumulator then holds. */
  lemma DecodeDigit(g: seq<Sextet>, val: nat, t: Sextet, width: nat)
    requires WideEnough(width) && |g| < 4 && HoldsSextet(g, val)
    ensures var v := Wrap(Shl(val, 6) + t, width);
      && (|g| != 0 ==> GrowsBy(g, t) == [Low(Shr(v, 6 - 2 * |g|), 8)])
      && (|g| < 3 ==> HoldsSextet(g + [t], v))
  {
    Powers();
    if |g| != 0 {
      ReadBack(val, t, 6, 8 - 2 * |g|, 6 - 2 * |g|, 8, width);
    }
    if |g| < 3 {
      HeldBack(val, t, 6, 6 - 2 * |g|, width);
    }
  }

  /** Halfway through: whole groups `p` and what `g` already yields are written. */
  ghost predicate Decoding(p: seq<Sextet>, g: seq<Sextet>, val: nat, out: seq<Byte>) {
    Full(4, p) && |g| < 4 && out == Octets(p + g) && HoldsSextet(g, val)
  }

  /** The byte `(val >> k) & 0xFF` */
  function EightBits(val: nat, k: nat): Byte {
    ByteOf(val, k);
    Low(Shr(val, k), 8)
  }

  lemma DecodeStep(p: seq<Sextet>, g: seq<Sextet>, val: nat, out: seq<Byte>, t: Sextet, width: nat)
    requires WideEnough(width) && Decoding(p, g, val, out)
    ensures var v := Wrap(Shl(val, 6) + t, width);
      var out' := if |g| == 0 then out else out + [EightBits(v, 6 - 2 * |g|)];
      if |g| == 3 then Decoding(p + (g + [t]), [], v, out') else Decoding(p, g + [t], v, out')
  {
    DecodeDigit(g, val, t, width);
    OctetsGrow(p, g, t);
    assert (p + (g + [t])) + [] == p + (g + [t]);
  }

  /** The decoder: it stops at the first character that is no digit, and its accumulator may
      be as narrow as the encoder's. */
  method Base64Decode(s: string, width: nat) returns (out: seq<Byte>)
    requires WideEnough(width)
    requires forall i | 0 <= i < |s| :: s[i] as int < 256
    ensures out == Decode(s)
  {
    var T := BuildTable();
    out := [];
    var val: nat, valb := 0, -8;
    var j := 0;
    ghost var p: seq<Sextet>, g: seq<Sextet> := [], [];
    while j < |s|
      invariant 0 <= j <= |s|
      invariant forall i | 0 <= i < j :: Value(s[i]) >= 0
      invariant p + g == Values(s, j)
      invariant Decoding(p, g, val, out)
      invariant valb == if |g| == 0 then -8 else -2 * |g|
    {
      var t := T[s[j] as int];
      if t == -1 {
        break;
      }
      DecodeStep(p, g, val, out, t, width);
      ValuesGrow(p, g, s, j);
      val := Wrap(Shl(val, 6) + t, width);
      valb := valb + 6;
      if valb >= 0 {
        out := out + [EightBits(val, valb)];
        valb := valb - 8;
      }
      if |g| == 3 {
        p, g := p + (g + [t]), [];
      } else {
        g := g + [t];
      }
      j := j + 1;
    }
    DigitsPrefix(s, j);
  }

  lemma ByteOf(val: nat, k: nat)
    ensures Low(Shr(val, k), 8) < 256
  {
    Powers();
    LowBound(Shr(val, k), 8);
  }

  lemma ValuesGrow(p: seq<Sextet>, g: seq<Sextet>, s: string, j: nat)
    requires j < |s| && forall i | 0 <= i <= j :: Value(s[i]) >= 0
    requires p + g == Values(s, j)
    ensures p + (g + [Value(s[j])]) == Values(s, j + 1)
    ensures (p + (g + [Value(s[j])])) + [] == Values(s, j + 1)
  {
    assert Values(s, j + 1) == Values(s, j) + [Value(s[j])];
  }

  method BuildTable() returns (T: seq<int>)
    ensures |T| == 256 && forall k | 0 <= k < 256 :: T[k] == Value(k as char)
  {
    T := seq(256, _ => -1);
    for i := 0 to 64
      invariant |T| == 256
      invariant forall k | 0 <= k < 256 :: T[k] == if 0 <= Value(k as char) < i then Value(k as char) else -1
    {
      var c := Char(i);
      T := T[c as int := i];
    }
  }
}
