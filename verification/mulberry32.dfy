/** The seeded pseudo-random source `mulberry32` and the one shared
    generator the mock datasets draw from (financial.js:37-39).

    A draw is represented by its 32-bit numerator `n`; the number the
    source returns is `n / 2^32` (see `Value`). The source keeps its
    accumulator as an unbounded number and reads it only through
    ECMAScript's ToInt32/ToUint32, so the 32-bit residue kept here is
    what every operation of the closure sees. */
module Mulberry32 {

  /** The odd constant added to the state before every draw. */
  const Increment: bv32 := 0x6D2B79F5

  /** 2^32, the divisor that turns a numerator into a number in [0, 1). */
  const Denominator: real := 4294967296.0

  /** Line `r` (1, 2 or 3) of the closure body that follows the state
      update: `t = imul(t ^ t>>>15, t | 1)`, then `t ^= t + imul(t ^ t>>>7,
      t | 61)`, then `t ^ t>>>14`. `>>` on `bv32` is the logical shift
      `>>>`, and `+` and `*` wrap modulo 2^32 as `Math.imul` and ToInt32 do.
      The lines are indexed so that `Mix` unfolds one line at a time. */
  function MixStep(r: nat, t: bv32): bv32 {
    if r == 1 then (t ^ (t >> 15)) * (t | 1)
    else if r == 2 then t ^ (t + (t ^ (t >> 7)) * (t | 61))
    else t ^ (t >> 14)
  }

  /** The first `r` lines applied to `t` in order. */
  function MixSteps(t: bv32, r: nat): bv32 {
    if r == 0 then t else MixStep(r, MixSteps(t, r - 1))
  }

  /** The output numerator for a freshly advanced state `t`: the three
      lines in order. */
  function Mix(t: bv32): bv32 {
    MixSteps(t, 3)
  }

  /** A draw's numerator: the `>>> 0` result, an integer in [0, 2^32). */
  type Numerator = n: int | 0 <= n < 0x1_0000_0000

  /** The number a draw with numerator `n` stands for. */
  function Value(n: Numerator): (v: real)
    ensures 0.0 <= v < 1.0
  {
    n as real / Denominator
  }

  /** The generator's state after `k` draws from state `s`. */
  function StateAfter(s: bv32, k: nat): bv32 {
    if k == 0 then s else StateAfter(s, k - 1) + Increment
  }

  /** The numerator of draw number `i` (counting from 0) of a generator
      seeded with `s`: the first draw mixes the advanced state, and every
      later one is a draw of the generator that state seeds. */
  function Draw(s: bv32, i: nat): Numerator
    decreases i
  {
    if i == 0 then Mix(s + Increment) as int else Draw(s + Increment, i - 1)
  }

  /** The `k` numerators drawn after the first `c` draws from seed `s`. */
  function Draws(s: bv32, c: nat, k: nat): (ns: seq<Numerator>)
    ensures |ns| == k
  {
    seq<Numerator>(k, j requires 0 <= j < k => Draw(s, c + j))
  }

  /** Advancing `j` times and then `k` times is advancing `j + k` times. */
  lemma {:induction false} StateAfterAdd(s: bv32, j: nat, k: nat)
    ensures StateAfter(StateAfter(s, j), k) == StateAfter(s, j + k)
  {
    if k > 0 {
      StateAfterAdd(s, j, k - 1);
    }
  }

  /** Draw `i` advances the state `i + 1` times and mixes the result. */
  lemma {:induction false} DrawIsMix(s: bv32, i: nat)
    ensures Draw(s, i) == Mix(StateAfter(s, i + 1)) as int
    decreases i
  {
    if i > 0 {
      DrawIsMix(s + Increment, i - 1);
      StateAfterAdd(s, 1, i);
    }
  }

  /** What a generator produces depends on its state alone: after `c`
      draws it continues exactly as a generator seeded with the state it
      has reached. */
  lemma DrawsFromState(s: bv32, c: nat, k: nat)
    ensures Draws(s, c, k) == Draws(StateAfter(s, c), 0, k)
  {
    forall j | 0 <= j < k
      ensures Draws(s, c, k)[j] == Draws(StateAfter(s, c), 0, k)[j]
    {
      DrawIsMix(s, c + j);
      DrawIsMix(StateAfter(s, c), j);
      StateAfterAdd(s, c, j + 1);
    }
  }

  /** Drawing `j + k` numerators is drawing `j` and then `k` more:
      consumers that share one generator see consecutive windows of a
      single stream. */
  lemma DrawsSplit(s: bv32, c: nat, j: nat, k: nat)
    ensures Draws(s, c, j + k) == Draws(s, c, j) + Draws(s, c + j, k)
  {
    var w := Draws(s, c, j + k);
    assert w == Draws(s, c, j) + Draws(s, c + j, k) by {
      forall x | 0 <= x < j + k
        ensures w[x] == (Draws(s, c, j) + Draws(s, c + j, k))[x]
      {
        if x >= j {
          assert c + x == (c + j) + (x - j);
        }
      }
    }
  }

  /** Every window of a run of draws is itself a run of draws. */
  lemma DrawsSlice(s: bv32, c: nat, k: nat, i: nat, j: nat)
    requires i <= j <= k
    ensures Draws(s, c, k)[i..j] == Draws(s, c + i, j - i)
  {
    var w := Draws(s, c, k)[i..j];
    forall x | 0 <= x < j - i
      ensures w[x] == Draws(s, c + i, j - i)[x]
    {
      assert c + (i + x) == (c + i) + x;
    }
  }

  /** The first numerators drawn by the dashboard's generator. */
  lemma SeedFortyTwoOpening()
    ensures Draws(42, 0, 3) == [2581720956, 1925393290, 3661312704]
  {
    assert 42 + Increment == 0x6D2B_7A1F;
    assert 0x6D2B_7A1F + Increment == 0xDA56_F414;
    assert 0xDA56_F414 + Increment == 0x4782_6E09;
    assert Mix(0x6D2B_7A1F) == 2581720956;
    assert Mix(0xDA56_F414) == 1925393290;
    assert Mix(0x4782_6E09) == 3661312704;
    assert Draw(42, 1) == Draw(0x6D2B_7A1F, 0);
    assert Draw(42, 2) == Draw(0xDA56_F414, 0);
  }

  /** The closure returned by `mulberry32(seed)`: one mutable 32-bit state.
      `count` is the number of draws made so far. */
  class Generator {
    var a: bv32
    ghost const seed: bv32
    ghost var count: nat

    /** The state is the seed advanced once per draw. */
    ghost predicate Valid()
      reads this
    {
      a == StateAfter(seed, count)
    }

    /** `mulberry32(seed)` */
    constructor (seed: bv32)
      ensures Valid()
      ensures this.seed == seed && a == seed && count == 0
    {
      a := seed;
      this.seed := seed;
      count := 0;
    }

    /** One call of the closure: advance the state, then mix it; the
        result is the next draw of the seed's stream. */
    method Next() returns (n: Numerator)
      requires Valid()
      modifies this
      ensures Valid() && count == old(count) + 1
      ensures n == Draw(seed, old(count))
    {
      DrawIsMix(seed, count);
      var t := a + Increment;
      a := t;
      n := Mix(t) as int;
      count := count + 1;
    }
  }
}
