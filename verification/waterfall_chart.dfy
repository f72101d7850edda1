/** The data transform at the top of `WaterfallChart` (financial.js:150-157):
    the rows meant for a waterfall of an invisible baseline bar under a
    visible change bar, the y-axis domain, and the "Cumulative" line drawn
    over them (financial.js:170). The two bars carry no `stackId`
    (financial.js:168-169), so Recharts draws them side by side rather than
    stacked; the rendering itself is not modelled. */
module WaterfallChart {
  import opened Mulberry32
  import opened Datasets
  import opened Waterfall

  /** `{ name, baseline, delta }` */
  datatype ChartRow = ChartRow(name: string, baseline: real, delta: real)

  /** `Math.min` of two numbers. */
  function Min(a: real, b: real): (m: real)
    ensures m <= a && m <= b && (m == a || m == b)
  {
    if a <= b then a else b
  }

  /** `Math.max` of two numbers. */
  function Max(a: real, b: real): (m: real)
    ensures a <= m && b <= m && (m == a || m == b)
  {
    if a <= b then b else a
  }

  /** Every part ends where it starts plus its value, as every part
      `buildWaterfall` returns does. */
  ghost predicate Chained(parts: seq<Part>) {
    forall i :: 0 <= i < |parts| ==> parts[i].end == parts[i].start + parts[i].value
  }

  /** `data.parts.map(...)`: one row per part, in order, keeping the name
      and the value; the baseline is the lower of the part's two edges. */
  function ChartRows(parts: seq<Part>): (rows: seq<ChartRow>)
    ensures |rows| == |parts|
    ensures forall i :: 0 <= i < |parts| ==>
      rows[i].name == parts[i].name && rows[i].delta == parts[i].value &&
      rows[i].baseline <= parts[i].start && rows[i].baseline <= parts[i].end &&
      (rows[i].baseline == parts[i].start || rows[i].baseline == parts[i].end)
  {
    seq(|parts|, i requires 0 <= i < |parts| =>
      ChartRow(parts[i].name, Min(parts[i].start, parts[i].end), parts[i].value))
  }

  /** `Math.min(0, ...parts.map(p => Math.min(p.start, p.end)))`: the lowest
      edge of any part, or 0 when no edge is lower. */
  function LowestEdge(parts: seq<Part>): (lo: real)
    ensures lo <= 0.0
    ensures forall i :: 0 <= i < |parts| ==> lo <= parts[i].start && lo <= parts[i].end
    ensures lo == 0.0 || exists i :: 0 <= i < |parts| && (lo == parts[i].start || lo == parts[i].end)
  {
    if parts == [] then 0.0
    else
      var init := parts[..|parts| - 1];
      var last := parts[|parts| - 1];
      var lo := LowestEdge(init);
      assert forall i :: 0 <= i < |init| ==> init[i] == parts[i];
      Min(lo, Min(last.start, last.end))
  }

  /** `Math.max(0, ...parts.map(p => Math.max(p.start, p.end)))`: the
      highest edge of any part, or 0 when no edge is higher. */
  function HighestEdge(parts: seq<Part>): (hi: real)
    ensures 0.0 <= hi
    ensures forall i :: 0 <= i < |parts| ==> parts[i].start <= hi && parts[i].end <= hi
    ensures hi == 0.0 || exists i :: 0 <= i < |parts| && (hi == parts[i].start || hi == parts[i].end)
  {
    if parts == [] then 0.0
    else
      var init := parts[..|parts| - 1];
      var last := parts[|parts| - 1];
      var hi := HighestEdge(init);
      assert forall i :: 0 <= i < |init| ==> init[i] == parts[i];
      Max(hi, Max(last.start, last.end))
  }

  /** `domainMin`: two below the lowest edge, and never above -2, so every
      row's baseline sits at least two above the bottom of the axis. */
  function DomainMin(parts: seq<Part>): (d: real)
    ensures d <= -2.0
    ensures forall i :: 0 <= i < |parts| ==> d <= ChartRows(parts)[i].baseline - 2.0
  {
    LowestEdge(parts) - 2.0
  }

  /** `domainMax`: two above the highest edge, and never below 2. */
  function DomainMax(parts: seq<Part>): (d: real)
    ensures 2.0 <= d
    ensures forall i :: 0 <= i < |parts| ==> Max(parts[i].start, parts[i].end) + 2.0 <= d
  {
    HighestEdge(parts) + 2.0
  }

  /** The domain is as tight as it claims: unless it is the default
      [-2, 2] end, each end lies exactly two beyond some part's edge. */
  lemma DomainIsTight(parts: seq<Part>)
    ensures DomainMin(parts) == -2.0 ||
      exists i :: 0 <= i < |parts| && DomainMin(parts) == ChartRows(parts)[i].baseline - 2.0
    ensures DomainMax(parts) == 2.0 ||
      exists i :: 0 <= i < |parts| && DomainMax(parts) == Max(parts[i].start, parts[i].end) + 2.0
  {
    var rows := ChartRows(parts);
    if DomainMin(parts) != -2.0 {
      var i :| 0 <= i < |parts| && (LowestEdge(parts) == parts[i].start || LowestEdge(parts) == parts[i].end);
      assert DomainMin(parts) == rows[i].baseline - 2.0;
    }
    if DomainMax(parts) != 2.0 {
      var i :| 0 <= i < |parts| && (HighestEdge(parts) == parts[i].start || HighestEdge(parts) == parts[i].end);
      assert DomainMax(parts) == Max(parts[i].start, parts[i].end) + 2.0;
    }
  }

  // ---------- The "Cumulative" line ----------

  /** The line as written: the point of row `i` is `baseline + delta`. For
      a rising part that is where it ends; for a falling part the baseline
      is already the end, so the point lands `|value|` below it. */
  function CumulativeLineAsWritten(rows: seq<ChartRow>): (line: seq<real>)
    ensures |line| == |rows|
  {
    seq(|rows|, i requires 0 <= i < |rows| => rows[i].baseline + rows[i].delta)
  }

  /** For chained parts, the line as written meets the running total at a
      part exactly when the part does not fall. */
  lemma CumulativeLineAsWrittenMisses(parts: seq<Part>)
    requires Chained(parts)
    ensures forall i :: 0 <= i < |parts| ==>
      (CumulativeLineAsWritten(ChartRows(parts))[i] == parts[i].end <==> parts[i].value >= 0.0)
  {
  }

  /** One falling first step, as `buildWaterfall` makes whenever its first
      sign draw is below `RisingFrom`: the running total is -2 but the line
      is drawn at -4. */
  lemma FallingStepMisplotted()
    ensures CumulativeLineAsWritten(ChartRows([Part("Alliance Partner", 0.0, -2.0, -2.0)]))[0] == -4.0
  {
    var rows := ChartRows([Part("Alliance Partner", 0.0, -2.0, -2.0)]);
    assert rows[0] == ChartRow("Alliance Partner", -2.0, -2.0);
  }

  /** The line as intended: the running total after each part, which the
      row holds as `baseline + delta` for a rising part and as `baseline`
      for a falling one. */
  function CumulativeLine(rows: seq<ChartRow>): (line: seq<real>)
    ensures |line| == |rows|
  {
    seq(|rows|, i requires 0 <= i < |rows| => rows[i].baseline + Max(rows[i].delta, 0.0))
  }

  /** For chained parts, the intended line passes through every part's end,
      and so stays inside the axis domain. */
  lemma CumulativeLineFollowsTotal(parts: seq<Part>)
    requires Chained(parts)
    ensures forall i :: 0 <= i < |parts| ==> CumulativeLine(ChartRows(parts))[i] == parts[i].end
    ensures forall i :: 0 <= i < |parts| ==>
      DomainMin(parts) < CumulativeLine(ChartRows(parts))[i] < DomainMax(parts)
  {
  }

  /** The waterfalls `buildWaterfall` returns are chained, so the intended
      line of such a chart ends at the waterfall's total. */
  lemma WaterfallLineEndsAtTotal(monthLabel: string, key: string, ns: seq<Numerator>)
    requires |ns| == 2 * |Categories|
    ensures Chained(WaterfallOf(monthLabel, key, ns).parts)
    ensures var parts := WaterfallOf(monthLabel, key, ns).parts;
      CumulativeLine(ChartRows(parts))[|parts| - 1] == WaterfallOf(monthLabel, key, ns).total
  {
    PartsChain(key, ns, |Categories|);
    CumulativeLineFollowsTotal(WaterfallOf(monthLabel, key, ns).parts);
  }
}
