/** Shifts and masks on non-negative integers. */
module Bits {

  /** `v << k` */
  function Shl(v: nat, k: nat): nat {
    if k == 0 then v else 2 * Shl(v, k - 1)
  }

  /** `v >> k` */
  function Shr(v: nat, k: nat): nat {
    if k == 0 then v else Shr(v / 2, k - 1)
  }

  /** The lowest `k` bits of `v`. */
  function Low(v: nat, k: nat): nat {
    if k == 0 then 0 else v % 2 + 2 * Low(v / 2, k - 1)
  }

  lemma {:induction false} LowBound(v: nat, k: nat)
    ensures Low(v, k) < Shl(1, k)
  {
    if k != 0 {
      LowBound(v / 2, k - 1);
    }
  }

  lemma {:induction false} LowOfSmall(v: nat, k: nat)
    requires v < Shl(1, k)
    ensures Low(v, k) == v
  {
    if k != 0 {
      LowOfSmall(v / 2, k - 1);
    }
  }

  lemma {:induction false} ShrBound(v: nat, a: nat, b: nat)
    requires v < Shl(1, a + b)
    ensures Shr(v, a) < Shl(1, b)
  {
    if a != 0 {
      ShrBound(v / 2, a - 1, b);
    }
  }

  lemma {:induction false} LowOfLow(v: nat, w: nat, k: nat)
    requires k <= w
    ensures Low(Low(v, w), k) == Low(v, k)
  {
    if k != 0 {
      LowOfLow(v / 2, w - 1, k - 1);
    }
  }

  lemma {:induction false} LowOfShr(v: nat, a: nat, b: nat)
    ensures Low(Shr(v, a), b) == Shr(Low(v, a + b), a)
  {
    if a != 0 {
      LowOfShr(v / 2, a - 1, b);
      assert Low(v, a + b) / 2 == Low(v / 2, a - 1 + b);
    }
  }

  /** Below what was shifted up by `s` there is room for `c`. */
  lemma {:induction false} LowOfShl(h: nat, c: nat, s: nat, k: nat)
    requires c < Shl(1, s)
    ensures Low(Shl(h, s) + c, s + k) == Shl(Low(h, k), s) + c
  {
    if s != 0 {
      LowOfShl(h, c / 2, s - 1, k);
      assert (Shl(h, s) + c) / 2 == Shl(h, s - 1) + c / 2;
    }
  }

  lemma {:induction false} ShrOfShl(x: nat, c: nat, s: nat, t: nat)
    requires t <= s
    ensures Shr(Shl(x, s) + c, t) == Shl(x, s - t) + Shr(c, t)
  {
    if t != 0 {
      assert (Shl(x, s) + c) / 2 == Shl(x, s - 1) + c / 2;
      ShrOfShl(x, c / 2, s - 1, t - 1);
    }
  }

  /** The two halves of a number make it up. */
  lemma {:induction false} Halves(v: nat, k: nat)
    ensures Shl(Shr(v, k), k) + Low(v, k) == v
  {
    if k != 0 {
      Halves(v / 2, k - 1);
    }
  }

  lemma {:induction false} ShrTwice(v: nat, a: nat, b: nat)
    ensures Shr(Shr(v, a), b) == Shr(v, a + b)
  {
    if a != 0 {
      ShrTwice(v / 2, a - 1, b);
    }
  }

  lemma {:induction false} ShlMono(x: nat, y: nat, k: nat)
    requires x <= y
    ensures Shl(x, k) <= Shl(y, k)
  {
    if k != 0 {
      ShlMono(x, y, k - 1);
    }
  }

  lemma Powers()
    ensures Shl(1, 2) == 4 && Shl(1, 4) == 16 && Shl(1, 6) == 64 && Shl(1, 8) == 256
  {
    assert Shl(1, 3) == 8 && Shl(1, 5) == 32 && Shl(1, 7) == 128;
  }

  lemma ShlSmall(x: nat)
    ensures Shl(x, 2) == 4 * x && Shl(x, 4) == 16 * x && Shl(x, 6) == 64 * x
  {
    assert Shl(x, 1) == 2 * x;
    assert Shl(x, 2) == 4 * x;
    assert Shl(x, 3) == 8 * x;
    assert Shl(x, 4) == 16 * x;
    assert Shl(x, 5) == 32 * x;
  }
}
