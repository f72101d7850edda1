/** The fixed-shape mock datasets built at module load from the shared
    generator (financial.js:24-76): the stacked monthly net-net revenue by
    partner category, the quarterly treemap, the month-over-month margins
    and the month-to-date blocks.

    Each dataset is specified by a function of the numerators it consumes,
    in the order the source draws them; each builder is a method that draws
    from the generator and is proved to return that function of the window
    of the stream it consumed. */
module Datasets {
  import opened Mulberry32
  import opened Sampler

  /** `partnerCategories`, in stacking order. */
  const Categories: seq<string> := [
    "Alliance Partner",
    "Embedded Partner",
    "Referral Partner",
    "VC Partner",
    "AM Managed Partner",
    "Distribution Partner",
    "Referral Others",
    "TPI"
  ]

  /** `months`, the fixed calendar. */
  const Months: seq<string> :=
    ["Jan", "Feb", "Mar", "Apr", "May", "Jun", "Jul", "Aug", "Sep", "Oct", "Nov", "Dec"]

  const Quarters: seq<string> := ["Q1", "Q2", "Q3", "Q4"]

  /** No category label occurs twice, so a row keyed by category has one
      entry per category. */
  lemma CategoriesDistinct()
    ensures |Categories| == 8
    ensures forall i, j :: 0 <= i < j < |Categories| ==> Categories[i] != Categories[j]
  {
  }

  // ---------- stackedMonthlyNNR ----------

  /** One category column of a monthly row: `row[category] = amount`. */
  datatype Amount = Amount(category: string, amount: int)

  /** `{ month: m, [category]: amount, ... }`, the category keys in the
      order the row was filled. */
  datatype MonthlyRow = MonthlyRow(month: string, amounts: seq<Amount>)

  /** The amounts are keyed by exactly the categories, in order, each
      amount in [lo, hi]. */
  ghost predicate AmountsCover(amounts: seq<Amount>, lo: int, hi: int) {
    |amounts| == |Categories| &&
    forall i :: 0 <= i < |amounts| ==>
      amounts[i].category == Categories[i] && lo <= amounts[i].amount <= hi
  }

  /** The row for `month` filled from eight consecutive draws. */
  function MonthlyRowOf(month: string, ns: seq<Numerator>): (row: MonthlyRow)
    requires |ns| == |Categories|
    ensures row.month == month
    ensures AmountsCover(row.amounts, 8000, 38000)
  {
    MonthlyRow(month, seq(|Categories|, i requires 0 <= i < |Categories| =>
      Amount(Categories[i], PickValue(8000, 38000, ns[i]))))
  }

  /** The first `m` rows of `stackedMonthlyNNR`: one row per month from
      Jan on, filled month by month and, within a month, category by
      category, each from its own draw. */
  function MonthlyRows(ns: seq<Numerator>, m: nat): (rows: seq<MonthlyRow>)
    requires m <= |Months| && 8 * m <= |ns|
    ensures |rows| == m
    ensures forall j :: 0 <= j < m ==>
      rows[j].month == Months[j] && AmountsCover(rows[j].amounts, 8000, 38000)
  {
    if m == 0 then []
    else MonthlyRows(ns, m - 1) + [MonthlyRowOf(Months[m - 1], ns[8 * (m - 1) .. 8 * m])]
  }

  /** Row `j` is the row for month `j` built from draws `8j` to `8j + 7`:
      the months consume the stream one after another. */
  lemma {:induction false} MonthlyRowsWindows(ns: seq<Numerator>, m: nat)
    requires m <= |Months| && 8 * m <= |ns|
    ensures forall j :: 0 <= j < m ==>
      MonthlyRows(ns, m)[j] == MonthlyRowOf(Months[j], ns[8 * j .. 8 * j + 8])
  {
    if m > 0 {
      MonthlyRowsWindows(ns, m - 1);
    }
  }

  /** The amount of category `i` in month `j` is the pick of draw `8j + i`. */
  lemma MonthlyRowsDrawOrder(ns: seq<Numerator>, m: nat)
    requires m <= |Months| && 8 * m <= |ns|
    ensures forall j, i :: 0 <= j < m && 0 <= i < |Categories| ==>
      MonthlyRows(ns, m)[j].amounts[i].amount == PickValue(8000, 38000, ns[8 * j + i])
  {
    MonthlyRowsWindows(ns, m);
  }

  /** `stackedMonthlyNNR`: Jan to Jun. */
  function StackedMonthlyNNR(ns: seq<Numerator>): (rows: seq<MonthlyRow>)
    requires |ns| == 48
    ensures |rows| == 6
    ensures forall j :: 0 <= j < 6 ==>
      rows[j].month == Months[j] && AmountsCover(rows[j].amounts, 8000, 38000)
  {
    MonthlyRows(ns, 6)
  }

  /** The callback of `months.slice(0, 6).map`: a row filled in place by
      `partnerCategories.forEach`. */
  method BuildMonthlyRow(g: Generator, month: string) returns (row: MonthlyRow)
    requires g.Valid()
    modifies g
    ensures g.Valid() && g.count == old(g.count) + |Categories|
    ensures row == MonthlyRowOf(month, Draws(g.seed, old(g.count), |Categories|))
  {
    ghost var c0 := g.count;
    row := MonthlyRow(month, []);
    var i := 0;
    while i < |Categories|
      invariant 0 <= i <= |Categories|
      invariant g.Valid() && g.count == c0 + i
      invariant row.month == month && |row.amounts| == i
      invariant forall j :: 0 <= j < i ==>
        row.amounts[j] == Amount(Categories[j], PickValue(8000, 38000, Draw(g.seed, c0 + j)))
    {
      var v := Pick(g, 8000, 38000);
      row := row.(amounts := row.amounts + [Amount(Categories[i], v)]);
      i := i + 1;
    }
  }

  /** `stackedMonthlyNNR`, built from the shared generator. */
  method BuildStackedMonthlyNNR(g: Generator) returns (rows: seq<MonthlyRow>)
    requires g.Valid()
    modifies g
    ensures g.Valid() && g.count == old(g.count) + 48
    ensures rows == StackedMonthlyNNR(Draws(g.seed, old(g.count), 48))
  {
    ghost var c0 := g.count;
    ghost var ns := Draws(g.seed, c0, 48);
    rows := [];
    var m := 0;
    while m < 6
      invariant 0 <= m <= 6
      invariant g.Valid() && g.count == c0 + 8 * m
      invariant rows == MonthlyRows(ns, m)
    {
      DrawsSlice(g.seed, c0, 48, 8 * m, 8 * m + 8);
      var x := BuildMonthlyRow(g, Months[m]);
      rows := rows + [x];
      m := m + 1;
    }
  }

  // ---------- quarterlyTreemap ----------

  /** A leaf of the treemap: `{ name: category, size }`. */
  datatype Leaf = Leaf(name: string, size: int)

  /** A quarter node: `{ name: quarter, children }`. */
  datatype QuarterNode = QuarterNode(name: string, children: seq<Leaf>)

  /** The leaves are named by exactly the categories, in order, each size
      in [lo, hi]. */
  ghost predicate LeavesCover(children: seq<Leaf>, lo: int, hi: int) {
    |children| == |Categories| &&
    forall i :: 0 <= i < |children| ==>
      children[i].name == Categories[i] && lo <= children[i].size <= hi
  }

  /** The node for quarter `name` from eight consecutive draws. */
  function QuarterOf(name: string, ns: seq<Numerator>): (q: QuarterNode)
    requires |ns| == |Categories|
    ensures q.name == name
    ensures LeavesCover(q.children, 80000, 320000)
  {
    QuarterNode(name, seq(|Categories|, i requires 0 <= i < |Categories| =>
      Leaf(Categories[i], PickValue(80000, 320000, ns[i]))))
  }

  /** The first `k` nodes of `quarterlyTreemap`: one node per quarter from
      Q1 on, each with one leaf per category, drawn quarter by quarter and,
      within a quarter, category by category. */
  function QuarterNodes(ns: seq<Numerator>, k: nat): (nodes: seq<QuarterNode>)
    requires k <= |Quarters| && 8 * k <= |ns|
    ensures |nodes| == k
    ensures forall q :: 0 <= q < k ==>
      nodes[q].name == Quarters[q] && LeavesCover(nodes[q].children, 80000, 320000)
  {
    if k == 0 then []
    else QuarterNodes(ns, k - 1) + [QuarterOf(Quarters[k - 1], ns[8 * (k - 1) .. 8 * k])]
  }

  /** Node `q` is the node for quarter `q` built from draws `8q` to
      `8q + 7`. */
  lemma {:induction false} QuarterNodesWindows(ns: seq<Numerator>, k: nat)
    requires k <= |Quarters| && 8 * k <= |ns|
    ensures forall q :: 0 <= q < k ==>
      QuarterNodes(ns, k)[q] == QuarterOf(Quarters[q], ns[8 * q .. 8 * q + 8])
  {
    if k > 0 {
      QuarterNodesWindows(ns, k - 1);
    }
  }

  /** The size of category `i` in quarter `q` is the pick of draw `8q + i`. */
  lemma QuarterNodesDrawOrder(ns: seq<Numerator>, k: nat)
    requires k <= |Quarters| && 8 * k <= |ns|
    ensures forall q, i :: 0 <= q < k && 0 <= i < |Categories| ==>
      QuarterNodes(ns, k)[q].children[i].size == PickValue(80000, 320000, ns[8 * q + i])
  {
    QuarterNodesWindows(ns, k);
  }

  /** `quarterlyTreemap`: Q1 to Q4. */
  function QuarterlyTreemap(ns: seq<Numerator>): (nodes: seq<QuarterNode>)
    requires |ns| == 32
    ensures |nodes| == 4
    ensures forall q :: 0 <= q < 4 ==>
      nodes[q].name == Quarters[q] && LeavesCover(nodes[q].children, 80000, 320000)
  {
    QuarterNodes(ns, 4)
  }

  /** The callback of the outer `map`: the inner `partnerCategories.map`. */
  method BuildQuarter(g: Generator, name: string) returns (q: QuarterNode)
    requires g.Valid()
    modifies g
    ensures g.Valid() && g.count == old(g.count) + |Categories|
    ensures q == QuarterOf(name, Draws(g.seed, old(g.count), |Categories|))
  {
    ghost var c0 := g.count;
    var children := [];
    var i := 0;
    while i < |Categories|
      invariant 0 <= i <= |Categories|
      invariant g.Valid() && g.count == c0 + i
      invariant |children| == i
      invariant forall j :: 0 <= j < i ==>
        children[j] == Leaf(Categories[j], PickValue(80000, 320000, Draw(g.seed, c0 + j)))
    {
      var v := Pick(g, 80000, 320000);
      children := children + [Leaf(Categories[i], v)];
      i := i + 1;
    }
    q := QuarterNode(name, children);
  }

  /** `quarterlyTreemap`, built from the shared generator. */
  method BuildQuarterlyTreemap(g: Generator) returns (nodes: seq<QuarterNode>)
    requires g.Valid()
    modifies g
    ensures g.Valid() && g.count == old(g.count) + 32
    ensures nodes == QuarterlyTreemap(Draws(g.seed, old(g.count), 32))
  {
    ghost var c0 := g.count;
    ghost var ns := Draws(g.seed, c0, 32);
    nodes := [];
    var k := 0;
    while k < 4
      invariant 0 <= k <= 4
      invariant g.Valid() && g.count == c0 + 8 * k
      invariant nodes == QuarterNodes(ns, k)
    {
      DrawsSlice(g.seed, c0, 32, 8 * k, 8 * k + 8);
      var x := BuildQuarter(g, Quarters[k]);
      nodes := nodes + [x];
      k := k + 1;
    }
  }

  // ---------- marginMoM ----------

  /** `{ month, gross, net, netnet }`, margins in percent. */
  datatype MarginRow = MarginRow(month: string, gross: int, net: int, netnet: int)

  ghost predicate MarginInRange(r: MarginRow) {
    18 <= r.gross <= 42 && 10 <= r.net <= 30 && 6 <= r.netnet <= 22
  }

  /** The margin row for `month` from three consecutive draws. */
  function MarginRowOf(month: string, ns: seq<Numerator>): (r: MarginRow)
    requires |ns| == 3
    ensures r.month == month && MarginInRange(r)
  {
    MarginRow(month, PickValue(18, 42, ns[0]), PickValue(10, 30, ns[1]), PickValue(6, 22, ns[2]))
  }

  /** The first `m` rows of `marginMoM`: one row per month from Jan on,
      each drawing gross, net and net-net in the order the object literal
      lists them. */
  function MarginRows(ns: seq<Numerator>, m: nat): (rows: seq<MarginRow>)
    requires m <= |Months| && 3 * m <= |ns|
    ensures |rows| == m
    ensures forall j :: 0 <= j < m ==> rows[j].month == Months[j] && MarginInRange(rows[j])
  {
    if m == 0 then []
    else MarginRows(ns, m - 1) + [MarginRowOf(Months[m - 1], ns[3 * (m - 1) .. 3 * m])]
  }

  /** Row `j` is the row for month `j` built from draws `3j` to `3j + 2`. */
  lemma {:induction false} MarginRowsWindows(ns: seq<Numerator>, m: nat)
    requires m <= |Months| && 3 * m <= |ns|
    ensures forall j :: 0 <= j < m ==>
      MarginRows(ns, m)[j] == MarginRowOf(Months[j], ns[3 * j .. 3 * j + 3])
  {
    if m > 0 {
      MarginRowsWindows(ns, m - 1);
    }
  }

  /** Month `j` takes gross, net and net-net, in the order the object
      literal lists them, from draws `3j`, `3j + 1` and `3j + 2`. */
  lemma MarginRowsDrawOrder(ns: seq<Numerator>, m: nat)
    requires m <= |Months| && 3 * m <= |ns|
    ensures forall j :: 0 <= j < m ==>
      MarginRows(ns, m)[j].gross == PickValue(18, 42, ns[3 * j]) &&
      MarginRows(ns, m)[j].net == PickValue(10, 30, ns[3 * j + 1]) &&
      MarginRows(ns, m)[j].netnet == PickValue(6, 22, ns[3 * j + 2])
  {
    MarginRowsWindows(ns, m);
  }

  /** `marginMoM`: all twelve months. */
  function MarginMoM(ns: seq<Numerator>): (rows: seq<MarginRow>)
    requires |ns| == 36
    ensures |rows| == 12
    ensures forall j :: 0 <= j < 12 ==> rows[j].month == Months[j] && MarginInRange(rows[j])
  {
    MarginRows(ns, 12)
  }

  /** The callback of `months.slice(0, 12).map`. */
  method BuildMarginRow(g: Generator, month: string) returns (r: MarginRow)
    requires g.Valid()
    modifies g
    ensures g.Valid() && g.count == old(g.count) + 3
    ensures r == MarginRowOf(month, Draws(g.seed, old(g.count), 3))
  {
    var gross := Pick(g, 18, 42);
    var net := Pick(g, 10, 30);
    var netnet := Pick(g, 6, 22);
    r := MarginRow(month, gross, net, netnet);
  }

  /** `marginMoM`, built from the shared generator. */
  method BuildMarginMoM(g: Generator) returns (rows: seq<MarginRow>)
    requires g.Valid()
    modifies g
    ensures g.Valid() && g.count == old(g.count) + 36
    ensures rows == MarginMoM(Draws(g.seed, old(g.count), 36))
  {
    ghost var c0 := g.count;
    ghost var ns := Draws(g.seed, c0, 36);
    rows := [];
    var m := 0;
    while m < 12
      invariant 0 <= m <= 12
      invariant g.Valid() && g.count == c0 + 3 * m
      invariant rows == MarginRows(ns, m)
    {
      DrawsSlice(g.seed, c0, 36, 3 * m, 3 * m + 3);
      var x := BuildMarginRow(g, Months[m]);
      rows := rows + [x];
      m := m + 1;
    }
  }

  // ---------- mtdBlocks ----------

  /** `{ label, gross, net, netnet, tpv, target }`; `label` is a reserved word here, so the field is `caption`. */
  datatype MtdBlock = MtdBlock(caption: string, gross: int, net: int, netnet: int, tpv: int, target: int)

  ghost predicate MtdInRange(b: MtdBlock) {
    120000 <= b.gross <= 320000 && 80000 <= b.net <= 220000 &&
    60000 <= b.netnet <= 180000 && 1000000 <= b.tpv <= 3500000 &&
    90000 <= b.target <= 260000
  }

  /** The block for `month` from five consecutive draws. */
  function MtdBlockOf(month: string, ns: seq<Numerator>): (b: MtdBlock)
    requires |ns| == 5
    ensures b.caption == month + " (MTD)" && MtdInRange(b)
  {
    MtdBlock(month + " (MTD)",
      PickValue(120000, 320000, ns[0]),
      PickValue(80000, 220000, ns[1]),
      PickValue(60000, 180000, ns[2]),
      PickValue(1000000, 3500000, ns[3]),
      PickValue(90000, 260000, ns[4]))
  }

  /** The first `m` blocks of `genMTDCumulative()`: one block per month
      from Jan on, labelled `<month> (MTD)`, each drawing its five figures
      in the order the object literal lists them. */
  function MtdBlocks(ns: seq<Numerator>, m: nat): (blocks: seq<MtdBlock>)
    requires m <= |Months| && 5 * m <= |ns|
    ensures |blocks| == m
    ensures forall j :: 0 <= j < m ==>
      blocks[j].caption == Months[j] + " (MTD)" && MtdInRange(blocks[j])
  {
    if m == 0 then []
    else MtdBlocks(ns, m - 1) + [MtdBlockOf(Months[m - 1], ns[5 * (m - 1) .. 5 * m])]
  }

  /** Block `j` is the block for month `j` built from draws `5j` to
      `5j + 4`. */
  lemma {:induction false} MtdBlocksWindows(ns: seq<Numerator>, m: nat)
    requires m <= |Months| && 5 * m <= |ns|
    ensures forall j :: 0 <= j < m ==>
      MtdBlocks(ns, m)[j] == MtdBlockOf(Months[j], ns[5 * j .. 5 * j + 5])
  {
    if m > 0 {
      MtdBlocksWindows(ns, m - 1);
    }
  }

  /** Month `j` takes its five figures, in the order the object literal
      lists them, from draws `5j` to `5j + 4`. */
  lemma MtdBlocksDrawOrder(ns: seq<Numerator>, m: nat)
    requires m <= |Months| && 5 * m <= |ns|
    ensures forall j :: 0 <= j < m ==>
      MtdBlocks(ns, m)[j].gross == PickValue(120000, 320000, ns[5 * j]) &&
      MtdBlocks(ns, m)[j].net == PickValue(80000, 220000, ns[5 * j + 1]) &&
      MtdBlocks(ns, m)[j].netnet == PickValue(60000, 180000, ns[5 * j + 2]) &&
      MtdBlocks(ns, m)[j].tpv == PickValue(1000000, 3500000, ns[5 * j + 3]) &&
      MtdBlocks(ns, m)[j].target == PickValue(90000, 260000, ns[5 * j + 4])
  {
    MtdBlocksWindows(ns, m);
  }

  /** `genMTDCumulative()`: Jan to Apr. */
  function MtdCumulative(ns: seq<Numerator>): (blocks: seq<MtdBlock>)
    requires |ns| == 20
    ensures |blocks| == 4
    ensures forall j :: 0 <= j < 4 ==>
      blocks[j].caption == Months[j] + " (MTD)" && MtdInRange(blocks[j])
  {
    MtdBlocks(ns, 4)
  }

  /** The callback of `last4.map`. */
  method BuildMtdBlock(g: Generator, month: string) returns (b: MtdBlock)
    requires g.Valid()
    modifies g
    ensures g.Valid() && g.count == old(g.count) + 5
    ensures b == MtdBlockOf(month, Draws(g.seed, old(g.count), 5))
  {
    var gross := Pick(g, 120000, 320000);
    var net := Pick(g, 80000, 220000);
    var netnet := Pick(g, 60000, 180000);
    var tpv := Pick(g, 1000000, 3500000);
    var target := Pick(g, 90000, 260000);
    b := MtdBlock(month + " (MTD)", gross, net, netnet, tpv, target);
  }

  /** `genMTDCumulative()`, built from the shared generator. */
  method GenMtdCumulative(g: Generator) returns (blocks: seq<MtdBlock>)
    requires g.Valid()
    modifies g
    ensures g.Valid() && g.count == old(g.count) + 20
    ensures blocks == MtdCumulative(Draws(g.seed, old(g.count), 20))
  {
    ghost var c0 := g.count;
    ghost var ns := Draws(g.seed, c0, 20);
    blocks := [];
    var m := 0;
    while m < 4
      invariant 0 <= m <= 4
      invariant g.Valid() && g.count == c0 + 5 * m
      invariant blocks == MtdBlocks(ns, m)
    {
      DrawsSlice(g.seed, c0, 20, 5 * m, 5 * m + 5);
      var x := BuildMtdBlock(g, Months[m]);
      blocks := blocks + [x];
      m := m + 1;
    }
  }
}
