/**
 * Flag words. The filter and rule types are Go `int`s used only through `|`, `&`, `==` and
 * `1 << iota`; a 64-bit word is modelled here as the set of its set bit positions, so `|` is
 * union, `f & g == g` is inclusion and the zero word is the empty set.
 */
module Bitset {

  /** A 64-bit word, as the positions (0 = least significant) of its one bits. */
  type Bits = s: set<nat> | forall i :: i in s ==> i < 64

  /** `1 << k`. */
  function Bit(k: nat): Bits
    requires k < 64
  {
    {k}
  }

  /** Bitwise OR. */
  function Or(a: Bits, b: Bits): Bits {
    a + b
  }

  /** `acc` with `flag` ORed in when `cond` holds: one step of `failed = failed | X`. */
  function Mark(acc: Bits, cond: bool, flag: Bits): Bits {
    if cond then Or(acc, flag) else acc
  }

  /** `f & g == g`: every bit of `g` is set in `f`. */
  predicate Includes(f: Bits, g: Bits) {
    g <= f
  }

  /** The bitwise OR of `fs`, folded left to right from zero as the variadic constructors do. */
  function Combine(fs: seq<Bits>): (r: Bits)
    ensures forall i :: 0 <= i < |fs| ==> Includes(r, fs[i])
    ensures |fs| == 0 ==> r == {}
    decreases |fs|
  {
    if |fs| == 0 then {}
    else
      var init := Combine(fs[..|fs| - 1]);
      assert forall i :: 0 <= i < |fs| - 1 ==> fs[i] <= init by {
        forall i | 0 <= i < |fs| - 1 ensures fs[i] <= init {
          assert fs[..|fs| - 1][i] == fs[i];
        }
      }
      Or(init, fs[|fs| - 1])
  }

  /** `Combine(fs)` is the least word containing every argument. */
  lemma {:induction false} CombineLeast(fs: seq<Bits>, h: Bits)
    requires forall i :: 0 <= i < |fs| ==> Includes(h, fs[i])
    ensures Includes(h, Combine(fs))
    decreases |fs|
  {
    if |fs| > 0 {
      var init := fs[..|fs| - 1];
      assert forall i :: 0 <= i < |init| ==> Includes(h, init[i]) by {
        forall i | 0 <= i < |init| ensures Includes(h, init[i]) {
          assert init[i] == fs[i];
        }
      }
      CombineLeast(init, h);
    }
  }

  /** A bit is set in `Combine(fs)` exactly when some argument sets it. */
  lemma {:induction false} CombineHasBit(fs: seq<Bits>, k: nat)
    ensures k in Combine(fs) <==> exists i :: 0 <= i < |fs| && k in fs[i]
    decreases |fs|
  {
    if |fs| > 0 {
      var init := fs[..|fs| - 1];
      CombineHasBit(init, k);
      if k in Combine(init) {
        var i :| 0 <= i < |init| && k in init[i];
        assert fs[i] == init[i];
      }
      if exists i :: 0 <= i < |fs| && k in fs[i] {
        var i :| 0 <= i < |fs| && k in fs[i];
        if i < |fs| - 1 {
          assert init[i] == fs[i];
        }
      }
    }
  }

  /** `2^k`. */
  function Pow2(k: nat): nat {
    if k == 0 then 1 else 2 * Pow2(k - 1)
  }

  /** The unsigned value of bits `k..63` of `f`. */
  function UnsignedFrom(f: Bits, k: nat): nat
    decreases 64 - k
  {
    if k >= 64 then 0 else (if k in f then Pow2(k) else 0) + UnsignedFrom(f, k + 1)
  }

  /** The Go `int` a word denotes: two's complement, bit 63 being the sign. */
  function Value(f: Bits): int {
    UnsignedFrom(f, 0) - (if 63 in f then Pow2(64) else 0)
  }

  /** Bits `k..63` are worth less than `2^64`: at most `2^64 - 2^k`. */
  lemma {:induction false} UnsignedFromBound(f: Bits, k: nat)
    requires k <= 64
    ensures UnsignedFrom(f, k) <= Pow2(64) - Pow2(k)
    decreases 64 - k
  {
    if k < 64 {
      UnsignedFromBound(f, k + 1);
      assert Pow2(k + 1) == 2 * Pow2(k);
    }
  }

  /** A word holding the single flag `k` is worth `2^k` from bit `j` on when `j <= k`, and nothing otherwise. */
  lemma {:induction false} UnsignedFromSingle(k: nat, j: nat)
    requires k < 64
    ensures UnsignedFrom({k}, j) == if j <= k then Pow2(k) else 0
    decreases 64 - j
  {
    if j < 64 {
      UnsignedFromSingle(k, j + 1);
    }
  }

  /**
   * A Go `int` reads a word in range, and a single flag below the sign bit reads as `2^k`: the
   * filter constants `1 << iota` print as 1, 2, 4, 8, 16, 32.
   */
  lemma ValueOfFlag(f: Bits, k: nat)
    requires k < 63
    ensures -(Pow2(63) as int) <= Value(f) < Pow2(63)
    ensures Value({k}) == Pow2(k)
  {
    UnsignedFromBound(f, 0);
    UnsignedFromSingle(k, 0);
    assert Pow2(64) == 2 * Pow2(63);
    if 63 in f {
      assert UnsignedFrom(f, 0) >= Pow2(63) by { UnsignedFromHasTop(f, 0); }
    } else {
      assert UnsignedFrom(f, 0) < Pow2(63) by { UnsignedFromNoTop(f, 0); }
    }
  }

  /** With bit 63 set, bits `j..63` are worth at least `2^63`. */
  lemma {:induction false} UnsignedFromHasTop(f: Bits, j: nat)
    requires j <= 63 && 63 in f
    ensures UnsignedFrom(f, j) >= Pow2(63)
    decreases 63 - j
  {
    if j < 63 {
      UnsignedFromHasTop(f, j + 1);
    }
  }

  /** Without bit 63, bits `j..63` are worth less than `2^63 - 2^j + 1`. */
  lemma {:induction false} UnsignedFromNoTop(f: Bits, j: nat)
    requires j <= 64 && 63 !in f
    ensures UnsignedFrom(f, j) <= if j <= 63 then Pow2(63) - Pow2(j) else 0
    decreases 64 - j
  {
    if j < 64 {
      UnsignedFromNoTop(f, j + 1);
      if j < 63 {
        assert Pow2(j + 1) == 2 * Pow2(j);
      }
    }
  }
}
