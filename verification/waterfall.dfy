/** `buildWaterfall(monthLabel, key)` (financial.js:92-105): a running total
    over the partner categories, each step a signed, scaled pick.

    The steps are specified over the numerators they consume (two per
    category: the sign draw, then the `pick(1, 8)` draw). `Cum` is the value
    `cum` holds after a number of categories and `Parts` the parts returned
    so far; the method that keeps `cum` in a local variable is proved to
    return `WaterfallOf` of the window of the stream it consumed. Products
    are taken over exact reals. */
module Waterfall {
  import opened Mulberry32
  import opened Sampler
  import opened Datasets

  /** `{ name, start, value, end }` */
  datatype Part = Part(name: string, start: real, value: real, end: real)

  /** `{ month, parts, total }` */
  datatype WaterfallData = WaterfallData(month: string, parts: seq<Part>, total: real)

  /** The smallest numerator whose draw exceeds 0.2: `0.2 * 2^32` is
      858993459.2. The double nearest 0.2 lies above it by less than 2^-54,
      which moves no numerator across the threshold. */
  const RisingFrom: Numerator := 858993460

  /** `rng() > 0.2 ? 1 : -1` for a draw with numerator `n`. */
  function Sign(n: Numerator): (s: real)
    ensures s == 1.0 || s == -1.0
    ensures s == 1.0 <==> n >= RisingFrom
  {
    if Value(n) > 0.2 then 1.0 else -1.0
  }

  /** `key === "gross" ? 1.6 : key === "net" ? 1.2 : 1` */
  function Multiplier(key: string): (m: real)
    ensures 1.0 <= m <= 1.6
  {
    if key == "gross" then 1.6 else if key == "net" then 1.2 else 1.0
  }

  /** `base * mult * sign` for a sign draw `s` and a base draw `b`: a step
      falls exactly when its sign draw is below `RisingFrom`, and its size
      lies between one and eight times the key's multiplier. */
  function Delta(key: string, s: Numerator, b: Numerator): (v: real)
    ensures s >= RisingFrom ==> Multiplier(key) <= v <= 8.0 * Multiplier(key)
    ensures s < RisingFrom ==> -8.0 * Multiplier(key) <= v <= -Multiplier(key)
  {
    var base := PickValue(1, 8, b) as real;
    var m := Multiplier(key);
    assert m <= base * m <= 8.0 * m;
    base * m * Sign(s)
  }

  /** The value of `cum` once the first `k` categories are done: each
      category moves it by at most eight times the largest multiplier,
      1.6, either way. */
  function Cum(key: string, ns: seq<Numerator>, k: nat): real
    requires 2 * k <= |ns|
  {
    if k == 0 then 0.0 else Cum(key, ns, k - 1) + Delta(key, ns[2 * k - 2], ns[2 * k - 1])
  }

  /** Each category moves `cum` by one to eight multipliers, so after
      `k` categories it lies within `8k` multipliers of 0. */
  lemma {:induction false} CumBounds(key: string, ns: seq<Numerator>, k: nat)
    requires 2 * k <= |ns|
    ensures -8.0 * Multiplier(key) * k as real <= Cum(key, ns, k) <= 8.0 * Multiplier(key) * k as real
  {
    if k > 0 {
      CumBounds(key, ns, k - 1);
      var m := Multiplier(key);
      assert 8.0 * m * k as real == 8.0 * m * (k - 1) as real + 8.0 * m;
    }
  }

  /** The parts for the first `k` categories, one per category. */
  function Parts(key: string, ns: seq<Numerator>, k: nat): (parts: seq<Part>)
    requires k <= |Categories| && 2 * k <= |ns|
    ensures |parts| == k
  {
    if k == 0 then []
    else
      var start := Cum(key, ns, k - 1);
      var v := Delta(key, ns[2 * k - 2], ns[2 * k - 1]);
      Parts(key, ns, k - 1) + [Part(Categories[k - 1], start, v, start + v)]
  }

  /** The chain the running total builds: the parts are named in category
      order, each ends where it starts plus its value, the first starts at
      0, every other starts where the previous one ends, and the last ends
      at `cum`. */
  lemma {:induction false} PartsChain(key: string, ns: seq<Numerator>, k: nat)
    requires k <= |Categories| && 2 * k <= |ns|
    ensures forall i :: 0 <= i < k ==> Parts(key, ns, k)[i].name == Categories[i]
    ensures forall i :: 0 <= i < k ==>
      Parts(key, ns, k)[i].end == Parts(key, ns, k)[i].start + Parts(key, ns, k)[i].value
    ensures k > 0 ==> Parts(key, ns, k)[0].start == 0.0 && Parts(key, ns, k)[k - 1].end == Cum(key, ns, k)
    ensures forall i :: 0 < i < k ==> Parts(key, ns, k)[i].start == Parts(key, ns, k)[i - 1].end
  {
    if k > 0 {
      PartsChain(key, ns, k - 1);
    }
  }

  /** Part `i` is step `i` of the fold: it is named by category `i`,
      starts at the running total after `i` categories, moves by the step
      of draws `2i` (the sign) and `2i + 1` (the base), and ends at the
      running total after `i + 1` categories. */
  lemma {:induction false} PartsValues(key: string, ns: seq<Numerator>, k: nat)
    requires k <= |Categories| && 2 * k <= |ns|
    ensures forall i :: 0 <= i < k ==>
      Parts(key, ns, k)[i]
        == Part(Categories[i], Cum(key, ns, i), Delta(key, ns[2 * i], ns[2 * i + 1]), Cum(key, ns, i + 1))
  {
    if k > 0 {
      PartsValues(key, ns, k - 1);
    }
  }

  /** Part `i` falls exactly when its sign draw `2i` is below
      `RisingFrom`, and its size is one to eight multipliers. */
  lemma PartsSigns(key: string, ns: seq<Numerator>, k: nat)
    requires k <= |Categories| && 2 * k <= |ns|
    ensures forall i :: 0 <= i < k ==>
      (Parts(key, ns, k)[i].value < 0.0 <==> ns[2 * i] < RisingFrom) &&
      -8.0 * Multiplier(key) <= Parts(key, ns, k)[i].value <= 8.0 * Multiplier(key) &&
      (Parts(key, ns, k)[i].value <= -Multiplier(key) || Multiplier(key) <= Parts(key, ns, k)[i].value)
  {
    PartsValues(key, ns, k);
  }

  /** The sum of the parts' values. */
  function SumValues(parts: seq<Part>): real {
    if parts == [] then 0.0 else SumValues(parts[..|parts| - 1]) + parts[|parts| - 1].value
  }

  /** `buildWaterfall(monthLabel, key)` over sixteen numerators: the label
      passes through, there is one part per category, and the total is
      where the last part ends. */
  function WaterfallOf(monthLabel: string, key: string, ns: seq<Numerator>): (w: WaterfallData)
    requires |ns| == 2 * |Categories|
    ensures w.month == monthLabel
    ensures |w.parts| == |Categories|
    ensures w.total == w.parts[|Categories| - 1].end
  {
    WaterfallData(monthLabel, Parts(key, ns, |Categories|), Cum(key, ns, |Categories|))
  }

  /** The running total is the sum of the values of the parts so far. */
  lemma {:induction false} CumIsSum(key: string, ns: seq<Numerator>, k: nat)
    requires k <= |Categories| && 2 * k <= |ns|
    ensures SumValues(Parts(key, ns, k)) == Cum(key, ns, k)
  {
    if k > 0 {
      CumIsSum(key, ns, k - 1);
      assert Parts(key, ns, k)[..k - 1] == Parts(key, ns, k - 1);
    }
  }

  /** The key only scales a step: over the same draws, a "gross" or "net"
      step is its multiplier times the "netnet" one. */
  lemma DeltaScales(key: string, s: Numerator, b: Numerator)
    ensures Delta(key, s, b) == Multiplier(key) * Delta("netnet", s, b)
  {
  }

  /** The key only scales the running total: over the same draws, every
      running total of the "gross" or "net" waterfall is its multiplier
      times the "netnet" one. */
  lemma {:induction false} CumScales(key: string, ns: seq<Numerator>, k: nat)
    requires 2 * k <= |ns|
    ensures Cum(key, ns, k) == Multiplier(key) * Cum("netnet", ns, k)
  {
    if k > 0 {
      CumScales(key, ns, k - 1);
      DeltaScales(key, ns[2 * k - 2], ns[2 * k - 1]);
      var m := Multiplier(key);
      var a := Cum("netnet", ns, k - 1);
      var d := Delta("netnet", ns[2 * k - 2], ns[2 * k - 1]);
      assert m * (a + d) == m * a + m * d;
    }
  }

  /** The waterfall's total is the sum of its parts' values, and for every
      key it is that key's multiplier times the "netnet" total over the same
      draws. */
  lemma WaterfallTotal(monthLabel: string, key: string, ns: seq<Numerator>)
    requires |ns| == 2 * |Categories|
    ensures WaterfallOf(monthLabel, key, ns).total == SumValues(WaterfallOf(monthLabel, key, ns).parts)
    ensures WaterfallOf(monthLabel, key, ns).total
         == Multiplier(key) * WaterfallOf(monthLabel, "netnet", ns).total
  {
    CumIsSum(key, ns, |Categories|);
    CumScales(key, ns, |Categories|);
  }

  /** The callback of `partnerCategories.map`: draws the sign, then the
      base, and moves the running total `cum` by the step they give. */
  method NextPart(g: Generator, name: string, key: string, cum: real) returns (p: Part, cum': real)
    requires g.Valid()
    modifies g
    ensures g.Valid() && g.count == old(g.count) + 2
    ensures p.name == name && p.start == cum && p.end == cum' && cum' == cum + p.value
    ensures p.value == Delta(key, Draw(g.seed, old(g.count)), Draw(g.seed, old(g.count) + 1))
  {
    var r := g.Next();
    var sign := Sign(r);
    var base := Pick(g, 1, 8);
    var mult := Multiplier(key);
    var v := base as real * mult * sign;
    var start := cum;
    cum' := cum + v;
    p := Part(name, start, v, cum');
  }

  /** `buildWaterfall(monthLabel, key)` drawing from the shared generator. */
  method BuildWaterfall(g: Generator, monthLabel: string, key: string) returns (w: WaterfallData)
    requires g.Valid()
    modifies g
    ensures g.Valid() && g.count == old(g.count) + 2 * |Categories|
    ensures w == WaterfallOf(monthLabel, key, Draws(g.seed, old(g.count), 2 * |Categories|))
  {
    ghost var c0 := g.count;
    ghost var ns := Draws(g.seed, c0, 2 * |Categories|);
    var cum := 0.0;
    var parts := [];
    var i := 0;
    while i < |Categories|
      invariant 0 <= i <= |Categories|
      invariant g.Valid() && g.count == c0 + 2 * i
      invariant cum == Cum(key, ns, i)
      invariant parts == Parts(key, ns, i)
    {
      var p;
      p, cum := NextPart(g, Categories[i], key, cum);
      parts := parts + [p];
      i := i + 1;
    }
    w := WaterfallData(monthLabel, parts, cum);
  }
}
