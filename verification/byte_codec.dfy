/** Integers and strings as the bytes a C++ stream writes for them, least significant byte
    first. */
module ByteCodec {
  import opened RaftTypes

  const WORD32: nat := 0x1_0000_0000
  const WORD64: nat := 0x1_0000_0000_0000_0000

  /** The `n` lowest bytes of `v`. */
  function LE(v: nat, n: nat): (r: seq<Byte>)
    ensures |r| == n
  {
    if n == 0 then [] else [v % 256] + LE(v / 256, n - 1)
  }

  function FromLE(b: seq<Byte>): nat {
    if b == [] then 0 else b[0] + 256 * FromLE(b[1..])
  }

  function Capacity(n: nat): nat {
    if n == 0 then 1 else 256 * Capacity(n - 1)
  }

  lemma Capacities()
    ensures Capacity(4) == WORD32 && Capacity(8) == WORD64
  {
    assert Capacity(1) == 0x100 && Capacity(2) == 0x1_0000 && Capacity(3) == 0x100_0000;
    assert Capacity(5) == 0x100_0000_0000 && Capacity(6) == 0x1_0000_0000_0000;
    assert Capacity(7) == 0x100_0000_0000_0000;
  }

  lemma {:induction false} LERoundTrip(v: nat, n: nat)
    requires v < Capacity(n)
    ensures FromLE(LE(v, n)) == v
  {
    if n != 0 {
      LERoundTrip(v / 256, n - 1);
      assert LE(v, n)[1..] == LE(v / 256, n - 1);
    }
  }

  predicate Int32(x: int) {
    -0x8000_0000 <= x < 0x8000_0000
  }

  /** The four bytes of an `int`, in two's complement. */
  function IntBytes(x: int): (r: seq<Byte>)
    ensures |r| == 4
  {
    LE(x % WORD32, 4)
  }

  function IntOf(b: seq<Byte>): int {
    var u := FromLE(b);
    if u < 0x8000_0000 then u else u - WORD32
  }

  lemma LowestFirst(v: nat, n: nat)
    requires n > 0
    ensures LE(v, n)[0] == v % 256 && LE(v, n)[1..] == LE(v / 256, n - 1)
  {}

  /** The least significant byte comes first. */
  lemma LeastFirst(x: int)
    ensures var b: seq<int> := IntBytes(x);
      b[0] + 0x100 * b[1] + 0x1_0000 * b[2] + 0x100_0000 * b[3] == x % 0x1_0000_0000
  {
    var v: nat := x % WORD32;
    LowestFirst(v, 4);
    LowestFirst(v / 256, 3);
    LowestFirst(v / 256 / 256, 2);
    LowestFirst(v / 256 / 256 / 256, 1);
    var b := LE(v, 4);
    assert b[1] == b[1..][0] && b[2] == b[1..][1..][0] && b[3] == b[1..][1..][1..][0];
    assert v / 256 / 256 / 256 < 256;
  }

  lemma IntRoundTrip(x: int)
    requires Int32(x)
    ensures IntOf(IntBytes(x)) == x
  {
    Capacities();
    LERoundTrip(x % WORD32, 4);
  }

  function LongBytes(v: nat): (r: seq<Byte>)
    ensures |r| == 8
  {
    LE(v % WORD64, 8)
  }

  lemma LongRoundTrip(v: nat)
    requires v < WORD64
    ensures FromLE(LongBytes(v)) == v
  {
    Capacities();
    SmallRemainder(v, WORD64);
    LERoundTrip(v, 8);
  }

  lemma SmallRemainder(v: nat, m: nat)
    requires v < m
    ensures v % m == v
  {}

  /** Every character is one byte, as in a std::string. */
  predicate ByteString(s: string) {
    forall i | 0 <= i < |s| :: s[i] as int < 256
  }

  function StringBytes(s: string): (r: seq<Byte>)
    ensures |r| == |s|
  {
    seq(|s|, i requires 0 <= i < |s| => s[i] as int % 256)
  }

  function StringOf(b: seq<Byte>): (s: string)
    ensures |s| == |b| && ByteString(s)
  {
    seq(|b|, i requires 0 <= i < |b| => b[i] as char)
  }

  lemma StringRoundTrip(s: string)
    requires ByteString(s)
    ensures StringOf(StringBytes(s)) == s
  {}
}
