/** Sequences rewritten chunk by chunk. */
module Chunks {

  /** Applies `f` to every chunk of `k` elements, and to what is left over. */
  function MapChunks<A, B>(f: seq<A> -> seq<B>, k: nat, d: seq<A>): seq<B>
    requires k > 0
  {
    if d == [] then []
    else if |d| <= k then f(d)
    else f(d[..k]) + MapChunks(f, k, d[k..])
  }

  /** The number of elements is a multiple of `k`. */
  predicate Full<A>(k: nat, p: seq<A>)
    requires k > 0
  {
    p == [] || (|p| >= k && Full(k, p[k..]))
  }

  lemma {:induction false} FullGrows<A>(k: nat, p: seq<A>, g: seq<A>)
    requires k > 0 && Full(k, p) && |g| == k
    ensures Full(k, p + g)
  {
    if p == [] {
      assert p + g == g;
    } else {
      FullGrows(k, p[k..], g);
      assert (p + g)[k..] == p[k..] + g;
    }
  }

  lemma {:induction false} MapSplit<A, B>(f: seq<A> -> seq<B>, k: nat, p: seq<A>, g: seq<A>)
    requires k > 0 && Full(k, p) && 1 <= |g| <= k
    ensures MapChunks(f, k, p + g) == MapChunks(f, k, p) + f(g)
  {
    if p == [] {
      assert p + g == g;
    } else {
      MapSplit(f, k, p[k..], g);
      assert (p + g)[k..] == p[k..] + g && (p + g)[..k] == p[..k];
      if |p| == k {
        assert p[..k] == p && p[k..] == [];
      }
    }
  }

  lemma Snoc<A>(p: seq<A>, g: seq<A>, data: seq<A>, i: nat)
    requires i < |data| && p + g == data[..i]
    ensures p + (g + [data[i]]) == data[..i + 1]
    ensures (p + (g + [data[i]])) + [] == data[..i + 1]
  {}
}
