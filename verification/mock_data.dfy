/** Module load of financial.js (lines 37-109): one generator seeded with 42
    is created, and the mock datasets are evaluated in the order they are
    declared, each taking the next draws of the one shared stream. */
module MockData {
  import opened Mulberry32
  import opened Sampler
  import opened Datasets
  import opened Waterfall

  /** The seed of the module-level `rng`. */
  const Seed: bv32 := 42

  /** The module-level constants the dashboard reads. */
  datatype Constants = Constants(
    stackedMonthlyNNR: seq<MonthlyRow>,
    quarterlyTreemap: seq<QuarterNode>,
    marginMoM: seq<MarginRow>,
    mtdBlocks: seq<MtdBlock>,
    wfMonthlyNetNet: WaterfallData,
    wfMonthlyNet: WaterfallData,
    wfMonthlyGross: WaterfallData)

  /** The constants for a generator seeded with `s`: the datasets take
      consecutive windows of its stream, 48, 32, 36 and 20 draws, then
      16 for each waterfall. Each dataset has its fixed number of rows, and
      every waterfall carries the label it was built with and one part per
      category. */
  function ConstantsOf(s: bv32): (c: Constants)
    ensures |c.stackedMonthlyNNR| == 6 && |c.quarterlyTreemap| == 4
    ensures |c.marginMoM| == 12 && |c.mtdBlocks| == 4
    ensures c.wfMonthlyNetNet.month == "Selected Month" && |c.wfMonthlyNetNet.parts| == |Categories|
    ensures c.wfMonthlyNet.month == "Selected Month" && |c.wfMonthlyNet.parts| == |Categories|
    ensures c.wfMonthlyGross.month == "Selected Month" && |c.wfMonthlyGross.parts| == |Categories|
  {
    Constants(
      StackedMonthlyNNR(Draws(s, 0, 48)),
      QuarterlyTreemap(Draws(s, 48, 32)),
      MarginMoM(Draws(s, 80, 36)),
      MtdCumulative(Draws(s, 116, 20)),
      WaterfallOf("Selected Month", "netnet", Draws(s, 136, 16)),
      WaterfallOf("Selected Month", "net", Draws(s, 152, 16)),
      WaterfallOf("Selected Month", "gross", Draws(s, 168, 16)))
  }

  /** The windows the constants take tile the first 184 draws of the
      stream, in declaration order, with no draw skipped or shared. */
  lemma WindowsTileStream(s: bv32)
    ensures Draws(s, 0, 184)
         == Draws(s, 0, 48) + Draws(s, 48, 32) + Draws(s, 80, 36) + Draws(s, 116, 20)
          + Draws(s, 136, 16) + Draws(s, 152, 16) + Draws(s, 168, 16)
  {
    DrawsSplit(s, 0, 48, 136);
    DrawsSplit(s, 48, 32, 104);
    DrawsSplit(s, 80, 36, 68);
    DrawsSplit(s, 116, 20, 48);
    DrawsSplit(s, 136, 16, 32);
    DrawsSplit(s, 152, 16, 16);
  }

  /** Lines 44-76: the four fixed-shape datasets, from the first 136
      draws of a fresh generator. */
  method BuildDatasets(g: Generator)
    returns (monthly: seq<MonthlyRow>, treemap: seq<QuarterNode>, margins: seq<MarginRow>, mtd: seq<MtdBlock>)
    requires g.Valid() && g.count == 0
    modifies g
    ensures g.Valid() && g.count == 136
    ensures monthly == StackedMonthlyNNR(Draws(g.seed, 0, 48))
    ensures treemap == QuarterlyTreemap(Draws(g.seed, 48, 32))
    ensures margins == MarginMoM(Draws(g.seed, 80, 36))
    ensures mtd == MtdCumulative(Draws(g.seed, 116, 20))
  {
    monthly := BuildStackedMonthlyNNR(g);
    treemap := BuildQuarterlyTreemap(g);
    margins := BuildMarginMoM(g);
    mtd := GenMtdCumulative(g);
  }

  /** Lines 107-109: the three waterfalls, from the next 48 draws. */
  method BuildWaterfalls(g: Generator) returns (netnet: WaterfallData, net: WaterfallData, gross: WaterfallData)
    requires g.Valid() && g.count == 136
    modifies g
    ensures g.Valid() && g.count == 184
    ensures netnet == WaterfallOf("Selected Month", "netnet", Draws(g.seed, 136, 16))
    ensures net == WaterfallOf("Selected Month", "net", Draws(g.seed, 152, 16))
    ensures gross == WaterfallOf("Selected Month", "gross", Draws(g.seed, 168, 16))
  {
    netnet := BuildWaterfall(g, "Selected Month", "netnet");
    net := BuildWaterfall(g, "Selected Month", "net");
    gross := BuildWaterfall(g, "Selected Month", "gross");
  }

  /** Evaluating the module with the generator seeded with `seed`: every
      constant is built from it in declaration order. */
  method Load(seed: bv32) returns (c: Constants)
    ensures c == ConstantsOf(seed)
  {
    var g := new Generator(seed);
    var monthly, treemap, margins, mtd := BuildDatasets(g);
    var netnet, net, gross := BuildWaterfalls(g);
    c := Constants(monthly, treemap, margins, mtd, netnet, net, gross);
  }

  /** The first cell of the stacked chart: Jan's "Alliance Partner" amount
      is `round(8000 + 30000 * 2581720956 / 2^32)`, that is 26033. */
  lemma FirstAmount()
    ensures StackedMonthlyNNR(Draws(Seed, 0, 48))[0].amounts[0] == Amount("Alliance Partner", 26033)
  {
    var ns := Draws(Seed, 0, 48);
    SeedFortyTwoOpening();
    DrawsSlice(Seed, 0, 48, 0, 3);
    MonthlyRowsWindows(ns, 6);
    assert PickValue(8000, 38000, 2581720956) == 26033;
  }
}
