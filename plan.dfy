/** The weekly investment plan derived from the tree: one line per stock, in
    sector order and then stock order, and what the lines add up to. */
module Plan {
  import opened Portfolio

  /** One row of the plan. The two percentages are the allocations times 100. */
  datatype PlanLine = PlanLine(
    sector: string,
    ticker: string,
    weeklyAmount: real,
    totalAmount: real,
    sectorAllocation: real,
    stockInSector: real)

  /** What one plan line is computed from: a stock together with the name and
      allocation of its sector. */
  datatype Holding = Holding(sectorName: string, sectorAllocation: real, stock: Stock)

  /** The holdings of `sector` for the stocks in `stocks`, in order. */
  function SectorHoldings(sector: Sector, stocks: seq<Stock>): (r: seq<Holding>)
    ensures |r| == |stocks|
  {
    if |stocks| == 0 then []
    else [Holding(sector.name, sector.allocation, stocks[0])] + SectorHoldings(sector, stocks[1..])
  }

  /** Holding `j` of a sector is stock `j` with the sector's name and share. */
  lemma {:induction false} SectorHoldingsAt(sector: Sector, stocks: seq<Stock>)
    ensures forall j :: 0 <= j < |stocks| ==>
      SectorHoldings(sector, stocks)[j] == Holding(sector.name, sector.allocation, stocks[j])
    decreases |stocks|
  {
    if |stocks| > 0 {
      SectorHoldingsAt(sector, stocks[1..]);
    }
  }

  /** The number of stocks in all the sectors. */
  function StockCount(sectors: seq<Sector>): nat
  {
    if |sectors| == 0 then 0
    else |sectors[0].stocks| + StockCount(sectors[1..])
  }

  /** Where the lines of sector `i` begin: the number of stocks before it. */
  function Offset(sectors: seq<Sector>, i: nat): nat
    requires i <= |sectors|
  {
    StockCount(sectors[..i])
  }

  /** All holdings, sector by sector and within a sector stock by stock: the
      order of the two nested loops of the plan. */
  function Holdings(sectors: seq<Sector>): (r: seq<Holding>)
    ensures |r| == StockCount(sectors)
  {
    if |sectors| == 0 then []
    else SectorHoldings(sectors[0], sectors[0].stocks) + Holdings(sectors[1..])
  }

  /** The line for one holding: the sector's share of the weekly total, the
      stock's share of that, and that weekly amount over all the weeks. */
  function Line(h: Holding, weeklyTotal: real, weeks: real): PlanLine
  {
    var sectorWeeklyAmount := weeklyTotal * h.sectorAllocation;
    var stockWeeklyAmount := sectorWeeklyAmount * h.stock.allocation;
    PlanLine(h.sectorName, h.stock.ticker, stockWeeklyAmount, stockWeeklyAmount * weeks,
             h.sectorAllocation * 100.0, h.stock.allocation * 100.0)
  }

  function LinesOf(hs: seq<Holding>, weeklyTotal: real, weeks: real): (r: seq<PlanLine>)
    ensures |r| == |hs|
  {
    if |hs| == 0 then []
    else [Line(hs[0], weeklyTotal, weeks)] + LinesOf(hs[1..], weeklyTotal, weeks)
  }

  /** Line `k` is the line of holding `k`. */
  lemma {:induction false} LinesOfAt(hs: seq<Holding>, weeklyTotal: real, weeks: real)
    ensures forall k :: 0 <= k < |hs| ==> LinesOf(hs, weeklyTotal, weeks)[k] == Line(hs[k], weeklyTotal, weeks)
    decreases |hs|
  {
    if |hs| > 0 {
      LinesOfAt(hs[1..], weeklyTotal, weeks);
    }
  }

  /** What is invested each week: the total amount over the number of weeks. */
  function WeeklyTotal(totalAmount: real, weeks: real): real
    requires weeks != 0.0
  {
    totalAmount / weeks
  }

  /** `calculateWeeklyInvestments`: the weekly total is the total amount over
      the number of weeks (which must not be 0), and every holding gets its
      line. */
  function WeeklyInvestments(sectors: seq<Sector>, totalAmount: real, weeks: real): seq<PlanLine>
    requires weeks != 0.0
  {
    LinesOf(Holdings(sectors), WeeklyTotal(totalAmount, weeks), weeks)
  }

  /** The footer row: the weekly total and the total amount. */
  function Footer(totalAmount: real, weeks: real): (real, real)
    requires weeks != 0.0
  {
    (WeeklyTotal(totalAmount, weeks), totalAmount)
  }

  // ---------------------------------------------------------------------------
  // The order of the plan.

  /** The lines of two runs of holdings, one after the other. */
  lemma LinesOfConcat(a: seq<Holding>, b: seq<Holding>, weeklyTotal: real, weeks: real)
    ensures LinesOf(a + b, weeklyTotal, weeks) == LinesOf(a, weeklyTotal, weeks) + LinesOf(b, weeklyTotal, weeks)
  {
    LinesOfAt(a + b, weeklyTotal, weeks);
    LinesOfAt(a, weeklyTotal, weeks);
    LinesOfAt(b, weeklyTotal, weeks);
  }

  /** The holdings of two runs of sectors, one after the other. */
  lemma {:induction false} HoldingsConcat(a: seq<Sector>, b: seq<Sector>)
    ensures Holdings(a + b) == Holdings(a) + Holdings(b)
    decreases |a|
  {
    if |a| == 0 {
      assert a + b == b;
    } else {
      assert (a + b)[1..] == a[1..] + b;
      HoldingsConcat(a[1..], b);
    }
  }

  /** The holdings split at sector `i` into those before it, its own, and
      those after it. */
  lemma HoldingsSplit(sectors: seq<Sector>, i: nat)
    requires i < |sectors|
    ensures Holdings(sectors) ==
      Holdings(sectors[..i]) + SectorHoldings(sectors[i], sectors[i].stocks) + Holdings(sectors[i + 1..])
    ensures |Holdings(sectors[..i])| == Offset(sectors, i)
  {
    var tail := sectors[i..];
    assert sectors == sectors[..i] + tail;
    HoldingsConcat(sectors[..i], tail);
    assert tail[0] == sectors[i] && tail[1..] == sectors[i + 1..];
    assert Holdings(tail) == SectorHoldings(sectors[i], sectors[i].stocks) + Holdings(sectors[i + 1..]);
  }

  /** Holding `Offset(i) + j` is stock `j` of sector `i`. */
  lemma HoldingAt(sectors: seq<Sector>, i: nat, j: nat)
    requires i < |sectors| && j < |sectors[i].stocks|
    ensures Offset(sectors, i) + j < |Holdings(sectors)|
    ensures Holdings(sectors)[Offset(sectors, i) + j] ==
      Holding(sectors[i].name, sectors[i].allocation, sectors[i].stocks[j])
  {
    HoldingsSplit(sectors, i);
    SectorHoldingsAt(sectors[i], sectors[i].stocks);
  }

  /** Every holding is some stock of some sector, at that stock's position in
      sector-then-stock order. */
  lemma {:induction false} HoldingOrigin(sectors: seq<Sector>, k: nat)
    requires k < |Holdings(sectors)|
    ensures exists i: nat, j: nat :: (i < |sectors| && j < |sectors[i].stocks| &&
      k == Offset(sectors, i) + j &&
      Holdings(sectors)[k] == Holding(sectors[i].name, sectors[i].allocation, sectors[i].stocks[j]))
    decreases |sectors|
  {
    var first, rest := sectors[0], sectors[1..];
    var n := |first.stocks|;
    if k < n {
      assert sectors[..0] == [];
      SectorHoldingsAt(first, first.stocks);
      assert Holdings(sectors)[k] == Holding(first.name, first.allocation, first.stocks[k]);
      assert Offset(sectors, 0) + k == k;
    } else {
      HoldingOrigin(rest, k - n);
      var i: nat, j: nat :| i < |rest| && j < |rest[i].stocks| && k - n == Offset(rest, i) + j &&
        Holdings(rest)[k - n] == Holding(rest[i].name, rest[i].allocation, rest[i].stocks[j]);
      assert sectors[..i + 1][1..] == rest[..i];
      assert Offset(sectors, i + 1) == n + Offset(rest, i);
      assert sectors[i + 1] == rest[i];
    }
  }

  // ---------------------------------------------------------------------------
  // What one line holds.

  lemma CancelWeeks(t: real, w: real, x: real)
    requires w != 0.0
    ensures WeeklyTotal(t, w) * x * w == t * x
  {
    assert WeeklyTotal(t, w) * w == t;
    assert WeeklyTotal(t, w) * x * w == (WeeklyTotal(t, w) * w) * x;
  }

  lemma CancelWeeks2(t: real, w: real, x: real, y: real)
    requires w != 0.0
    ensures WeeklyTotal(t, w) * x * y * w == t * x * y
  {
    CancelWeeks(t, w, x * y);
    assert WeeklyTotal(t, w) * x * y == WeeklyTotal(t, w) * (x * y);
    assert t * x * y == t * (x * y);
  }

  /** What the line of `stock` in `sector` holds: the sector's name and the
      ticker verbatim, the weekly amount (total / weeks) * sector share * stock
      share, the total amount total * sector share * stock share (which is the
      weekly amount times the weeks), and both shares as percentages. */
  ghost predicate Describes(line: PlanLine, sector: Sector, stock: Stock, totalAmount: real, weeks: real)
    requires weeks != 0.0
  {
    && line.sector == sector.name
    && line.ticker == stock.ticker
    && line.weeklyAmount == (WeeklyTotal(totalAmount, weeks)) * sector.allocation * stock.allocation
    && line.totalAmount == totalAmount * sector.allocation * stock.allocation
    && line.totalAmount == line.weeklyAmount * weeks
    && line.sectorAllocation == sector.allocation * 100.0
    && line.stockInSector == stock.allocation * 100.0
  }

  lemma LineAmounts(sector: Sector, stock: Stock, totalAmount: real, weeks: real)
    requires weeks != 0.0
    ensures Describes(Line(Holding(sector.name, sector.allocation, stock), WeeklyTotal(totalAmount, weeks), weeks),
                      sector, stock, totalAmount, weeks)
  {
    CancelWeeks2(totalAmount, weeks, sector.allocation, stock.allocation);
  }

  /** The line at `Offset(i) + j` holds what `Describes` says of stock `j` of
      sector `i`. */
  lemma PlanLineAt(sectors: seq<Sector>, totalAmount: real, weeks: real, i: nat, j: nat)
    requires weeks != 0.0
    requires i < |sectors| && j < |sectors[i].stocks|
    ensures Offset(sectors, i) + j < |WeeklyInvestments(sectors, totalAmount, weeks)|
    ensures Describes(WeeklyInvestments(sectors, totalAmount, weeks)[Offset(sectors, i) + j],
                      sectors[i], sectors[i].stocks[j], totalAmount, weeks)
  {
    HoldingAt(sectors, i, j);
    LinesOfAt(Holdings(sectors), WeeklyTotal(totalAmount, weeks), weeks);
    LineAmounts(sectors[i], sectors[i].stocks[j], totalAmount, weeks);
  }

  /** Every line of the plan is the line of some stock `j` of some sector `i`,
      and it sits at `Offset(i) + j`. */
  lemma PlanLineOrigin(sectors: seq<Sector>, totalAmount: real, weeks: real, k: nat)
    requires weeks != 0.0
    requires k < |WeeklyInvestments(sectors, totalAmount, weeks)|
    ensures exists i: nat, j: nat :: (i < |sectors| && j < |sectors[i].stocks| &&
      k == Offset(sectors, i) + j &&
      Describes(WeeklyInvestments(sectors, totalAmount, weeks)[k], sectors[i], sectors[i].stocks[j], totalAmount, weeks))
  {
    HoldingOrigin(sectors, k);
    var i: nat, j: nat :| i < |sectors| && j < |sectors[i].stocks| && k == Offset(sectors, i) + j &&
      Holdings(sectors)[k] == Holding(sectors[i].name, sectors[i].allocation, sectors[i].stocks[j]);
    PlanLineAt(sectors, totalAmount, weeks, i, j);
  }

  /** The lines of sector `i` fill exactly the positions `Offset(i)` up to
      `Offset(i + 1)`, one per stock (none for a sector without stocks), and
      the plan has one line per stock of the whole tree. */
  lemma PlanRuns(sectors: seq<Sector>, totalAmount: real, weeks: real, i: nat)
    requires weeks != 0.0 && i < |sectors|
    ensures Offset(sectors, i + 1) == Offset(sectors, i) + |sectors[i].stocks|
    ensures Offset(sectors, i + 1) <= |WeeklyInvestments(sectors, totalAmount, weeks)|
    ensures |WeeklyInvestments(sectors, totalAmount, weeks)| == StockCount(sectors) == Offset(sectors, |sectors|)
  {
    assert sectors[..i + 1] == sectors[..i] + [sectors[i]];
    HoldingsConcat(sectors[..i], [sectors[i]]);
    assert [sectors[i]][1..] == [];
    HoldingsSplit(sectors, i);
    assert sectors[..|sectors|] == sectors;
  }

  // ---------------------------------------------------------------------------
  // What the plan adds up to.

  function SumWeekly(lines: seq<PlanLine>): real
  {
    if |lines| == 0 then 0.0
    else lines[0].weeklyAmount + SumWeekly(lines[1..])
  }

  function SumTotal(lines: seq<PlanLine>): real
  {
    if |lines| == 0 then 0.0
    else lines[0].totalAmount + SumTotal(lines[1..])
  }

  /** The fraction of the money one holding receives. */
  function Weight(h: Holding): real
  {
    h.sectorAllocation * h.stock.allocation
  }

  /** The fraction of the money a list of holdings receives: the sum of sector
      share times stock share. */
  function Share(hs: seq<Holding>): real
  {
    if |hs| == 0 then 0.0
    else Weight(hs[0]) + Share(hs[1..])
  }

  /** The fraction of the money one sector's stocks receive. */
  function SectorWeight(sector: Sector): real
  {
    sector.allocation * TotalStockAllocation(sector.stocks)
  }

  /** The fraction of the money the plan hands out, sector by sector: sector
      share times that sector's stock total. */
  function WeightedAllocation(sectors: seq<Sector>): real
  {
    if |sectors| == 0 then 0.0
    else SectorWeight(sectors[0]) + WeightedAllocation(sectors[1..])
  }

  lemma {:induction false} ShareConcat(a: seq<Holding>, b: seq<Holding>)
    ensures Share(a + b) == Share(a) + Share(b)
    decreases |a|
  {
    if |a| == 0 {
      assert a + b == b;
    } else {
      assert (a + b)[1..] == a[1..] + b;
      ShareConcat(a[1..], b);
    }
  }

  lemma {:induction false} WeightedConcat(a: seq<Sector>, b: seq<Sector>)
    ensures WeightedAllocation(a + b) == WeightedAllocation(a) + WeightedAllocation(b)
    decreases |a|
  {
    if |a| == 0 {
      assert a + b == b;
    } else {
      assert (a + b)[1..] == a[1..] + b;
      WeightedConcat(a[1..], b);
    }
  }

  lemma DistributeShare(a: real, x: real, t: real)
    ensures a * x + a * t == a * (x + t)
  {
  }

  /** A sector's holdings receive its share times its stock total. */
  lemma {:induction false} SectorShare(sector: Sector, stocks: seq<Stock>)
    ensures Share(SectorHoldings(sector, stocks)) == sector.allocation * TotalStockAllocation(stocks)
    decreases |stocks|
  {
    if |stocks| > 0 {
      SectorShare(sector, stocks[1..]);
      DistributeShare(sector.allocation, stocks[0].allocation, TotalStockAllocation(stocks[1..]));
    }
  }

  /** All of a sector's holdings receive its weight. */
  lemma SectorShareIsWeight(sector: Sector)
    ensures Share(SectorHoldings(sector, sector.stocks)) == SectorWeight(sector)
  {
    SectorShare(sector, sector.stocks);
  }

  /** Summed holding by holding or sector by sector, the share is the same. */
  lemma {:induction false} ShareIsWeighted(sectors: seq<Sector>)
    ensures Share(Holdings(sectors)) == WeightedAllocation(sectors)
    decreases |sectors|
  {
    if |sectors| > 0 {
      ShareIsWeighted(sectors[1..]);
      ShareConcat(SectorHoldings(sectors[0], sectors[0].stocks), Holdings(sectors[1..]));
      SectorShareIsWeight(sectors[0]);
    }
  }

  lemma AddLineShare(u: real, a: real, x: real, s: real, w: real)
    ensures u * a * x + u * s == u * (a * x + s)
    ensures u * a * x * w + u * s * w == u * (a * x + s) * w
  {
    assert u * a * x == u * (a * x);
    assert u * (a * x) * w + u * s * w == (u * (a * x) + u * s) * w;
  }

  /** The weekly amounts of the lines of some holdings add up to the weekly
      total times their share. */
  lemma {:induction false} LinesWeeklySum(hs: seq<Holding>, weeklyTotal: real, weeks: real)
    ensures SumWeekly(LinesOf(hs, weeklyTotal, weeks)) == weeklyTotal * Share(hs)
    decreases |hs|
  {
    if |hs| > 0 {
      LinesWeeklySum(hs[1..], weeklyTotal, weeks);
      AddLineShare(weeklyTotal, hs[0].sectorAllocation, hs[0].stock.allocation, Share(hs[1..]), weeks);
    }
  }

  /** The total amounts of the lines of some holdings add up to the weekly
      total times their share times the weeks. */
  lemma {:induction false} LinesTotalSum(hs: seq<Holding>, weeklyTotal: real, weeks: real)
    ensures SumTotal(LinesOf(hs, weeklyTotal, weeks)) == weeklyTotal * Share(hs) * weeks
    decreases |hs|
  {
    if |hs| > 0 {
      LinesTotalSum(hs[1..], weeklyTotal, weeks);
      AddLineShare(weeklyTotal, hs[0].sectorAllocation, hs[0].stock.allocation, Share(hs[1..]), weeks);
    }
  }

  /** Whatever the allocations, the plan's weekly amounts add up to the weekly
      total times the share of the money its holdings receive. */
  lemma PlanWeeklySum(sectors: seq<Sector>, totalAmount: real, weeks: real)
    requires weeks != 0.0
    ensures SumWeekly(WeeklyInvestments(sectors, totalAmount, weeks)) ==
      WeeklyTotal(totalAmount, weeks) * Share(Holdings(sectors))
  {
    LinesWeeklySum(Holdings(sectors), WeeklyTotal(totalAmount, weeks), weeks);
  }

  /** Whatever the allocations, the plan's total amounts add up to the total
      amount times the share of the money its holdings receive. */
  lemma PlanTotalSum(sectors: seq<Sector>, totalAmount: real, weeks: real)
    requires weeks != 0.0
    ensures SumTotal(WeeklyInvestments(sectors, totalAmount, weeks)) ==
      totalAmount * Share(Holdings(sectors))
  {
    LinesTotalSum(Holdings(sectors), WeeklyTotal(totalAmount, weeks), weeks);
    CancelWeeks(totalAmount, weeks, Share(Holdings(sectors)));
  }

  ghost predicate StocksSumToOne(sectors: seq<Sector>)
  {
    forall i :: 0 <= i < |sectors| ==> TotalStockAllocation(sectors[i].stocks) == 1.0
  }

  /** When every sector's stocks sum to 1, the weighted allocation is just the
      sector total. */
  lemma {:induction false} WeightedWhenStocksSumToOne(sectors: seq<Sector>)
    requires StocksSumToOne(sectors)
    ensures WeightedAllocation(sectors) == TotalSectorAllocation(sectors)
    decreases |sectors|
  {
    if |sectors| > 0 {
      var rest := sectors[1..];
      assert StocksSumToOne(rest) by {
        forall i | 0 <= i < |rest| ensures TotalStockAllocation(rest[i].stocks) == 1.0 {
          assert rest[i] == sectors[i + 1];
        }
      }
      WeightedWhenStocksSumToOne(rest);
      assert TotalStockAllocation(sectors[0].stocks) == 1.0;
    }
  }

  /** When every sector's stocks sum to 1, the holdings receive exactly the
      sector total. */
  lemma ShareWhenStocksSumToOne(sectors: seq<Sector>)
    requires StocksSumToOne(sectors)
    ensures Share(Holdings(sectors)) == TotalSectorAllocation(sectors)
  {
    ShareIsWeighted(sectors);
    WeightedWhenStocksSumToOne(sectors);
  }

  /** Conservation of money: when the sector allocations sum to 1 and every
      sector's stocks sum to 1, the weekly amounts add up to the footer's
      weekly total and the total amounts to the footer's total amount. */
  lemma Conservation(sectors: seq<Sector>, totalAmount: real, weeks: real)
    requires weeks != 0.0
    requires TotalSectorAllocation(sectors) == 1.0 && StocksSumToOne(sectors)
    ensures SumWeekly(WeeklyInvestments(sectors, totalAmount, weeks)) == Footer(totalAmount, weeks).0
    ensures SumTotal(WeeklyInvestments(sectors, totalAmount, weeks)) == Footer(totalAmount, weeks).1
  {
    PlanWeeklySum(sectors, totalAmount, weeks);
    PlanTotalSum(sectors, totalAmount, weeks);
    ShareWhenStocksSumToOne(sectors);
  }

  ghost predicate NonNegativeSectors(sectors: seq<Sector>)
  {
    forall i :: 0 <= i < |sectors| ==> sectors[i].allocation >= 0.0
  }

  /** No sector's stock check is on. */
  ghost predicate StockChecksPass(sectors: seq<Sector>)
  {
    forall i :: 0 <= i < |sectors| ==> !ValidateStockAllocations(sectors, i)
  }

  /** A sector with a non-negative share whose stocks pass the check
      receives its share to within the tolerance, proportionally. */
  lemma SectorWeightBounds(sector: Sector)
    requires sector.allocation >= 0.0
    requires LowerBound <= TotalStockAllocation(sector.stocks) <= UpperBound
    ensures LowerBound * sector.allocation <= SectorWeight(sector) <= UpperBound * sector.allocation
  {
    var a, t := sector.allocation, TotalStockAllocation(sector.stocks);
    MulNonNeg(a, t - LowerBound);
    MulNonNeg(a, UpperBound - t);
  }

  lemma MulNonNeg(x: real, y: real)
    requires x >= 0.0 && y >= 0.0
    ensures x * y >= 0.0
  {
  }

  lemma BoundsStep(a: real, aw: real, s: real, w: real)
    requires LowerBound * a <= aw <= UpperBound * a
    requires LowerBound * s <= w <= UpperBound * s
    ensures LowerBound * (a + s) <= aw + w <= UpperBound * (a + s)
  {
  }

  /** The conditions of `WeightedBounds` hold for all sectors but the first. */
  lemma ChecksOfRest(sectors: seq<Sector>)
    requires |sectors| > 0
    requires NonNegativeSectors(sectors) && StockChecksPass(sectors)
    ensures NonNegativeSectors(sectors[1..]) && StockChecksPass(sectors[1..])
    ensures sectors[0].allocation >= 0.0 && !ValidateStockAllocations(sectors, 0)
  {
    var rest := sectors[1..];
    forall i | 0 <= i < |rest|
      ensures rest[i].allocation >= 0.0 && !ValidateStockAllocations(rest, i)
    {
      assert rest[i] == sectors[i + 1];
      assert !ValidateStockAllocations(sectors, i + 1);
    }
  }

  /** With non-negative sector shares and every stock total within the
      tolerance, the weighted allocation lies within the tolerance of the
      sector total, proportionally. */
  lemma {:induction false} WeightedBounds(sectors: seq<Sector>)
    requires NonNegativeSectors(sectors) && StockChecksPass(sectors)
    ensures LowerBound * TotalSectorAllocation(sectors) <= WeightedAllocation(sectors)
    ensures WeightedAllocation(sectors) <= UpperBound * TotalSectorAllocation(sectors)
    decreases |sectors|
  {
    if |sectors| > 0 {
      var first, rest := sectors[0], sectors[1..];
      ChecksOfRest(sectors);
      WeightedBounds(rest);
      SectorWeightBounds(first);
      BoundsStep(first.allocation, SectorWeight(first), TotalSectorAllocation(rest), WeightedAllocation(rest));
    }
  }

  lemma BoundsScale(t: real, w: real)
    requires t >= 0.0 && LowerBound * LowerBound <= w <= UpperBound * UpperBound
    ensures LowerBound * LowerBound * t <= t * w <= UpperBound * UpperBound * t
  {
    MulNonNeg(t, w - LowerBound * LowerBound);
    MulNonNeg(t, UpperBound * UpperBound - w);
  }

  /** What the two checks guarantee: when neither the sector warning nor any
      stock check is on, no sector share is negative and the amount is not
      negative, the plan hands out between 98.01% and 102.01% of the amount. */
  lemma NoWarningsBoundsPlan(sectors: seq<Sector>, totalAmount: real, weeks: real)
    requires weeks != 0.0 && totalAmount >= 0.0
    requires NonNegativeSectors(sectors)
    requires !SectorWarning(sectors) && StockChecksPass(sectors)
    ensures LowerBound * LowerBound * totalAmount <= SumTotal(WeeklyInvestments(sectors, totalAmount, weeks))
    ensures SumTotal(WeeklyInvestments(sectors, totalAmount, weeks)) <= UpperBound * UpperBound * totalAmount
  {
    PlanTotalSum(sectors, totalAmount, weeks);
    NoWarningsShare(sectors);
    BoundsScale(totalAmount, Share(Holdings(sectors)));
  }

  /** Without either warning and with non-negative sector shares, the holdings
      receive between 98.01% and 102.01% of the money. */
  lemma NoWarningsShare(sectors: seq<Sector>)
    requires NonNegativeSectors(sectors)
    requires !SectorWarning(sectors) && StockChecksPass(sectors)
    ensures LowerBound * LowerBound <= Share(Holdings(sectors)) <= UpperBound * UpperBound
  {
    ShareIsWeighted(sectors);
    WeightedBounds(sectors);
  }

  /** The bound needs its premise that no sector share is negative: the share
      inputs accept a negative entry, and with one the two checks can pass
      while the plan hands out 119% of the money. */
  lemma NegativeShareEscapesBounds()
    ensures var sectors := [Sector("A", 10.0, [Stock("X", 1.01)]), Sector("B", -9.0, [Stock("Y", 0.99)])];
      && !NonNegativeSectors(sectors)
      && !SectorWarning(sectors) && StockChecksPass(sectors)
      && Share(Holdings(sectors)) == 1.19
  {
    var sectors := [Sector("A", 10.0, [Stock("X", 1.01)]), Sector("B", -9.0, [Stock("Y", 0.99)])];
    assert sectors[1].allocation < 0.0;
    assert TotalSectorAllocation(sectors) == 1.0;
    assert !ValidateStockAllocations(sectors, 0) && !ValidateStockAllocations(sectors, 1);
    ShareIsWeighted(sectors);
  }

  // ---------------------------------------------------------------------------
  // How the edits change the holdings and so the plan.

  /** Three ways of editing the middle part of `A + S + B`. */
  lemma InsertInMiddle<T>(A: seq<T>, S: seq<T>, B: seq<T>, x: T)
    ensures var q := A + S + B;
      q[..|A| + |S|] + [x] + q[|A| + |S|..] == A + (S + [x]) + B
  {
    var q := A + S + B;
    assert q[..|A| + |S|] == A + S;
    assert q[|A| + |S|..] == B;
  }

  lemma RemoveInMiddle<T>(q: seq<T>, r: seq<T>, A: seq<T>, S: seq<T>, B: seq<T>, at: nat, j: nat)
    requires j < |S| && at == |A| + j
    requires q == A + S + B && r == A + (S[..j] + S[j + 1..]) + B
    ensures at < |q| && r == q[..at] + q[at + 1..]
  {
    assert q[..at] == A + S[..j];
    assert q[at + 1..] == S[j + 1..] + B;
  }

  lemma ReplaceInMiddle<T>(A: seq<T>, S: seq<T>, B: seq<T>, j: nat, x: T)
    requires j < |S|
    ensures (A + S + B)[|A| + j := x] == A + S[j := x] + B
  {
  }

  lemma SameLengthMiddle<T>(A: seq<T>, S: seq<T>, S': seq<T>, B: seq<T>, k: nat)
    requires |S| == |S'| && k < |A| + |S| + |B| && !(|A| <= k < |A| + |S|)
    ensures (A + S' + B)[k] == (A + S + B)[k]
  {
  }

  lemma SectorHoldingsAppend(sector: Sector, stocks: seq<Stock>, stock: Stock)
    ensures SectorHoldings(sector, stocks + [stock]) ==
      SectorHoldings(sector, stocks) + [Holding(sector.name, sector.allocation, stock)]
  {
    SectorHoldingsAt(sector, stocks + [stock]);
    SectorHoldingsAt(sector, stocks);
  }

  lemma SectorHoldingsRemove(sector: Sector, stocks: seq<Stock>, j: nat)
    requires j < |stocks|
    ensures SectorHoldings(sector, stocks[..j] + stocks[j + 1..]) ==
      SectorHoldings(sector, stocks)[..j] + SectorHoldings(sector, stocks)[j + 1..]
  {
    SectorHoldingsAt(sector, stocks[..j] + stocks[j + 1..]);
    SectorHoldingsAt(sector, stocks);
  }

  lemma SectorHoldingsReplace(sector: Sector, stocks: seq<Stock>, j: nat, stock: Stock)
    requires j < |stocks|
    ensures SectorHoldings(sector, stocks[j := stock]) ==
      SectorHoldings(sector, stocks)[j := Holding(sector.name, sector.allocation, stock)]
  {
    SectorHoldingsAt(sector, stocks[j := stock]);
    SectorHoldingsAt(sector, stocks);
  }

  /** A sector's holdings depend on its name and share, not on its own stocks. */
  lemma SectorHoldingsHeader(sector: Sector, other: Sector, stocks: seq<Stock>)
    requires other.name == sector.name && other.allocation == sector.allocation
    ensures SectorHoldings(other, stocks) == SectorHoldings(sector, stocks)
  {
    SectorHoldingsAt(other, stocks);
    SectorHoldingsAt(sector, stocks);
  }

  /** Giving sector `i` other stocks replaces exactly its run of holdings. */
  lemma HoldingsReplaceStocks(sectors: seq<Sector>, i: nat, stocks: seq<Stock>)
    requires i < |sectors|
    ensures Holdings(sectors[i := sectors[i].(stocks := stocks)]) ==
      Holdings(sectors[..i]) + SectorHoldings(sectors[i], stocks) + Holdings(sectors[i + 1..])
  {
    var r := sectors[i := sectors[i].(stocks := stocks)];
    HoldingsSplit(r, i);
    assert r[..i] == sectors[..i];
    assert r[i + 1..] == sectors[i + 1..];
    SectorHoldingsHeader(sectors[i], r[i], stocks);
  }

  /** The holdings after `WithNewStock`: one more, for "NEW", at the end of
      sector `i`'s run. */
  lemma AddStockHoldings(sectors: seq<Sector>, i: nat)
    requires i < |sectors|
    ensures var hs := Holdings(sectors);
      var at := Offset(sectors, i) + |sectors[i].stocks|;
      && at <= |hs|
      && Holdings(WithNewStock(sectors, i)) ==
         hs[..at] + [Holding(sectors[i].name, sectors[i].allocation, NewStock)] + hs[at..]
  {
    var sector := sectors[i];
    var A, S, B := Holdings(sectors[..i]), SectorHoldings(sector, sector.stocks), Holdings(sectors[i + 1..]);
    var h := Holding(sector.name, sector.allocation, NewStock);
    HoldingsSplit(sectors, i);
    HoldingsReplaceStocks(sectors, i, sector.stocks + [NewStock]);
    SectorHoldingsAppend(sector, sector.stocks, NewStock);
    assert Holdings(WithNewStock(sectors, i)) == A + (S + [h]) + B;
    InsertInMiddle(A, S, B, h);
  }

  lemma WithoutStockInRange(sectors: seq<Sector>, i: nat, j: nat)
    requires i < |sectors| && j < |sectors[i].stocks|
    ensures WithoutStock(sectors, i, j) ==
      sectors[i := sectors[i].(stocks := sectors[i].stocks[..j] + sectors[i].stocks[j + 1..])]
  {
    SpliceOneInRange(sectors[i].stocks, j);
  }

  /** The holdings after `WithoutStock` at a valid index: the same without
      that stock's holding. */
  lemma RemoveStockHoldings(sectors: seq<Sector>, i: nat, j: nat)
    requires i < |sectors| && j < |sectors[i].stocks|
    ensures var hs := Holdings(sectors);
      var at := Offset(sectors, i) + j;
      && at < |hs|
      && Holdings(WithoutStock(sectors, i, j)) == hs[..at] + hs[at + 1..]
  {
    var hs, at := Holdings(sectors), Offset(sectors, i) + j;
    var A, S, B := RemovedFromRun(sectors, i, j);
    RemoveInMiddle(hs, Holdings(WithoutStock(sectors, i, j)), A, S, B, at, j);
  }

  /** The holdings split as `A + S + B` around sector `i`'s run `S`, which
      starts at `Offset(sectors, i)`; after `WithoutStock` at a valid index
      they are the same `A` and `B` around `S` without holding `j`. */
  lemma RemovedFromRun(sectors: seq<Sector>, i: nat, j: nat) returns (A: seq<Holding>, S: seq<Holding>, B: seq<Holding>)
    requires i < |sectors| && j < |sectors[i].stocks|
    ensures S == SectorHoldings(sectors[i], sectors[i].stocks)
    ensures j < |S| && |A| == Offset(sectors, i)
    ensures Holdings(sectors) == A + S + B
    ensures Holdings(WithoutStock(sectors, i, j)) == A + (S[..j] + S[j + 1..]) + B
  {
    var sector := sectors[i];
    A, S, B := Holdings(sectors[..i]), SectorHoldings(sector, sector.stocks), Holdings(sectors[i + 1..]);
    HoldingsSplit(sectors, i);
    WithoutStockInRange(sectors, i, j);
    HoldingsReplaceStocks(sectors, i, sector.stocks[..j] + sector.stocks[j + 1..]);
    SectorHoldingsRemove(sector, sector.stocks, j);
  }

  /** The holdings after replacing stock `j` of sector `i`: the same with that
      one holding replaced. */
  lemma ReplaceStockHoldings(sectors: seq<Sector>, i: nat, j: nat, stock: Stock)
    requires i < |sectors| && j < |sectors[i].stocks|
    ensures var hs := Holdings(sectors);
      var at := Offset(sectors, i) + j;
      && at < |hs|
      && Holdings(WithStock(sectors, i, j, stock)) ==
         hs[at := Holding(sectors[i].name, sectors[i].allocation, stock)]
  {
    var sector := sectors[i];
    var A, S, B := Holdings(sectors[..i]), SectorHoldings(sector, sector.stocks), Holdings(sectors[i + 1..]);
    HoldingsSplit(sectors, i);
    HoldingsReplaceStocks(sectors, i, sector.stocks[j := stock]);
    SectorHoldingsReplace(sector, sector.stocks, j, stock);
    ReplaceInMiddle(A, S, B, j, Holding(sector.name, sector.allocation, stock));
  }

  lemma LinesOfInsert(hs: seq<Holding>, at: nat, h: Holding, weeklyTotal: real, weeks: real)
    requires at <= |hs|
    ensures var lines := LinesOf(hs, weeklyTotal, weeks);
      LinesOf(hs[..at] + [h] + hs[at..], weeklyTotal, weeks) ==
      lines[..at] + [Line(h, weeklyTotal, weeks)] + lines[at..]
  {
    LinesOfAt(hs[..at] + [h] + hs[at..], weeklyTotal, weeks);
    LinesOfAt(hs, weeklyTotal, weeks);
  }

  lemma LinesOfRemove(hs: seq<Holding>, at: nat, weeklyTotal: real, weeks: real)
    requires at < |hs|
    ensures var lines := LinesOf(hs, weeklyTotal, weeks);
      LinesOf(hs[..at] + hs[at + 1..], weeklyTotal, weeks) == lines[..at] + lines[at + 1..]
  {
    LinesOfAt(hs[..at] + hs[at + 1..], weeklyTotal, weeks);
    LinesOfAt(hs, weeklyTotal, weeks);
  }

  lemma LinesOfReplace(hs: seq<Holding>, at: nat, h: Holding, weeklyTotal: real, weeks: real)
    requires at < |hs|
    ensures LinesOf(hs[at := h], weeklyTotal, weeks) ==
      LinesOf(hs, weeklyTotal, weeks)[at := Line(h, weeklyTotal, weeks)]
  {
    LinesOfAt(hs[at := h], weeklyTotal, weeks);
    LinesOfAt(hs, weeklyTotal, weeks);
  }

  // ---------------------------------------------------------------------------
  // Sums of edited lists of lines.

  lemma {:induction false} SumsConcat(a: seq<PlanLine>, b: seq<PlanLine>)
    ensures SumWeekly(a + b) == SumWeekly(a) + SumWeekly(b)
    ensures SumTotal(a + b) == SumTotal(a) + SumTotal(b)
    decreases |a|
  {
    if |a| == 0 {
      assert a + b == b;
    } else {
      assert (a + b)[1..] == a[1..] + b;
      SumsConcat(a[1..], b);
    }
  }

  lemma SumsMiddle(a: seq<PlanLine>, line: PlanLine, b: seq<PlanLine>)
    ensures SumWeekly(a + [line] + b) == SumWeekly(a) + line.weeklyAmount + SumWeekly(b)
    ensures SumTotal(a + [line] + b) == SumTotal(a) + line.totalAmount + SumTotal(b)
  {
    SumsConcat(a + [line], b);
    SumsConcat(a, [line]);
  }

  /** A line inserted anywhere adds its amounts to both sums. */
  lemma SumsInsert(lines: seq<PlanLine>, at: nat, line: PlanLine)
    requires at <= |lines|
    ensures SumWeekly(lines[..at] + [line] + lines[at..]) == SumWeekly(lines) + line.weeklyAmount
    ensures SumTotal(lines[..at] + [line] + lines[at..]) == SumTotal(lines) + line.totalAmount
  {
    assert lines == lines[..at] + lines[at..];
    SumsMiddle(lines[..at], line, lines[at..]);
    SumsConcat(lines[..at], lines[at..]);
  }

  /** A line removed takes its amounts off both sums. */
  lemma SumsRemove(lines: seq<PlanLine>, at: nat)
    requires at < |lines|
    ensures SumWeekly(lines[..at] + lines[at + 1..]) == SumWeekly(lines) - lines[at].weeklyAmount
    ensures SumTotal(lines[..at] + lines[at + 1..]) == SumTotal(lines) - lines[at].totalAmount
  {
    SplitAt(lines, at);
    SumsMiddle(lines[..at], lines[at], lines[at + 1..]);
    SumsConcat(lines[..at], lines[at + 1..]);
  }

  /** A line replaced moves both sums by the difference of the amounts. */
  lemma SumsReplace(lines: seq<PlanLine>, at: nat, line: PlanLine)
    requires at < |lines|
    ensures SumWeekly(lines[at := line]) == SumWeekly(lines) - lines[at].weeklyAmount + line.weeklyAmount
    ensures SumTotal(lines[at := line]) == SumTotal(lines) - lines[at].totalAmount + line.totalAmount
  {
    SplitAt(lines, at);
    assert lines[at := line] == lines[..at] + [line] + lines[at + 1..];
    SumsMiddle(lines[..at], lines[at], lines[at + 1..]);
    SumsMiddle(lines[..at], line, lines[at + 1..]);
  }

  // ---------------------------------------------------------------------------
  // How each edit changes the plan.

  /** Adding the "NEW" stock to sector `i` adds one line, at the end of that
      sector's lines, for "NEW" with zero amounts; all other lines keep their
      order. */
  lemma AddStockPlan(sectors: seq<Sector>, i: nat, totalAmount: real, weeks: real)
    requires weeks != 0.0 && i < |sectors|
    ensures var before := WeeklyInvestments(sectors, totalAmount, weeks);
      var at := Offset(sectors, i) + |sectors[i].stocks|;
      && at <= |before|
      && WeeklyInvestments(WithNewStock(sectors, i), totalAmount, weeks) ==
         before[..at] + [PlanLine(sectors[i].name, "NEW", 0.0, 0.0, sectors[i].allocation * 100.0, 0.0)] + before[at..]
  {
    var h := Holding(sectors[i].name, sectors[i].allocation, NewStock);
    AddStockHoldings(sectors, i);
    LinesOfInsert(Holdings(sectors), Offset(sectors, i) + |sectors[i].stocks|, h, WeeklyTotal(totalAmount, weeks), weeks);
  }

  /** Adding the "NEW" stock does not change the money the plan hands out. */
  lemma AddStockSums(sectors: seq<Sector>, i: nat, totalAmount: real, weeks: real)
    requires weeks != 0.0 && i < |sectors|
    ensures SumWeekly(WeeklyInvestments(WithNewStock(sectors, i), totalAmount, weeks)) ==
      SumWeekly(WeeklyInvestments(sectors, totalAmount, weeks))
    ensures SumTotal(WeeklyInvestments(WithNewStock(sectors, i), totalAmount, weeks)) ==
      SumTotal(WeeklyInvestments(sectors, totalAmount, weeks))
  {
    var before := WeeklyInvestments(sectors, totalAmount, weeks);
    var at := Offset(sectors, i) + |sectors[i].stocks|;
    AddStockPlan(sectors, i, totalAmount, weeks);
    SumsInsert(before, at, PlanLine(sectors[i].name, "NEW", 0.0, 0.0, sectors[i].allocation * 100.0, 0.0));
  }

  /** Removing stock `j` of sector `i` removes exactly its line; the lines
      after it move up by one. */
  lemma RemoveStockPlan(sectors: seq<Sector>, i: nat, j: nat, totalAmount: real, weeks: real)
    requires weeks != 0.0 && i < |sectors| && j < |sectors[i].stocks|
    ensures var before := WeeklyInvestments(sectors, totalAmount, weeks);
      var at := Offset(sectors, i) + j;
      && at < |before|
      && WeeklyInvestments(WithoutStock(sectors, i, j), totalAmount, weeks) == before[..at] + before[at + 1..]
  {
    RemoveStockHoldings(sectors, i, j);
    LinesOfRemove(Holdings(sectors), Offset(sectors, i) + j, WeeklyTotal(totalAmount, weeks), weeks);
  }

  /** Removing stock `j` of sector `i` lowers the money the plan hands out,
      weekly and in total, by exactly the amounts of that stock's line. */
  lemma RemoveStockSums(sectors: seq<Sector>, i: nat, j: nat, totalAmount: real, weeks: real)
    requires weeks != 0.0 && i < |sectors| && j < |sectors[i].stocks|
    ensures var before := WeeklyInvestments(sectors, totalAmount, weeks);
      var after := WeeklyInvestments(WithoutStock(sectors, i, j), totalAmount, weeks);
      var at := Offset(sectors, i) + j;
      && at < |before|
      && SumWeekly(after) == SumWeekly(before) - before[at].weeklyAmount
      && SumTotal(after) == SumTotal(before) - before[at].totalAmount
  {
    RemoveStockPlan(sectors, i, j, totalAmount, weeks);
    SumsRemove(WeeklyInvestments(sectors, totalAmount, weeks), Offset(sectors, i) + j);
  }

  lemma LineTicker(h: Holding, ticker: string, weeklyTotal: real, weeks: real)
    ensures Line(h.(stock := h.stock.(ticker := ticker)), weeklyTotal, weeks) ==
      Line(h, weeklyTotal, weeks).(ticker := ticker)
  {
  }

  /** A ticker edit changes exactly the ticker of that stock's line. */
  lemma TickerPlan(sectors: seq<Sector>, i: nat, j: nat, ticker: string, totalAmount: real, weeks: real)
    requires weeks != 0.0 && i < |sectors| && j < |sectors[i].stocks|
    ensures var before := WeeklyInvestments(sectors, totalAmount, weeks);
      var at := Offset(sectors, i) + j;
      && at < |before|
      && WeeklyInvestments(WithStockTicker(sectors, i, j, ticker), totalAmount, weeks) ==
         before[at := before[at].(ticker := ticker)]
  {
    var stock := sectors[i].stocks[j];
    var h := Holding(sectors[i].name, sectors[i].allocation, stock.(ticker := ticker));
    var wt := WeeklyTotal(totalAmount, weeks);
    ReplaceStockHoldings(sectors, i, j, stock.(ticker := ticker));
    HoldingAt(sectors, i, j);
    LinesOfAt(Holdings(sectors), wt, weeks);
    LinesOfReplace(Holdings(sectors), Offset(sectors, i) + j, h, wt, weeks);
    LineTicker(Holding(sectors[i].name, sectors[i].allocation, stock), ticker, wt, weeks);
  }

  /** An allocation edit of stock `j` of sector `i` replaces exactly that
      stock's line, by the line of the edited stock. */
  lemma StockAllocationPlan(sectors: seq<Sector>, i: nat, j: nat, allocation: real, totalAmount: real, weeks: real)
    requires weeks != 0.0 && i < |sectors| && j < |sectors[i].stocks|
    ensures var before := WeeklyInvestments(sectors, totalAmount, weeks);
      var at := Offset(sectors, i) + j;
      var after := WeeklyInvestments(WithStockAllocation(sectors, i, j, allocation), totalAmount, weeks);
      && at < |before| == |after|
      && after == before[at := after[at]]
      && Describes(after[at], sectors[i], sectors[i].stocks[j].(allocation := allocation), totalAmount, weeks)
  {
    var stock := sectors[i].stocks[j].(allocation := allocation);
    var h := Holding(sectors[i].name, sectors[i].allocation, stock);
    ReplaceStockHoldings(sectors, i, j, stock);
    LinesOfReplace(Holdings(sectors), Offset(sectors, i) + j, h, WeeklyTotal(totalAmount, weeks), weeks);
    LineAmounts(sectors[i], stock, totalAmount, weeks);
  }

  /** An allocation edit of one stock moves the money the plan hands out by
      the change in that stock's line. */
  lemma StockAllocationSums(sectors: seq<Sector>, i: nat, j: nat, allocation: real, totalAmount: real, weeks: real)
    requires weeks != 0.0 && i < |sectors| && j < |sectors[i].stocks|
    ensures var before := WeeklyInvestments(sectors, totalAmount, weeks);
      var at := Offset(sectors, i) + j;
      var after := WeeklyInvestments(WithStockAllocation(sectors, i, j, allocation), totalAmount, weeks);
      && at < |before| == |after|
      && SumWeekly(after) == SumWeekly(before) - before[at].weeklyAmount + after[at].weeklyAmount
      && SumTotal(after) == SumTotal(before) - before[at].totalAmount + after[at].totalAmount
  {
    var before := WeeklyInvestments(sectors, totalAmount, weeks);
    var after := WeeklyInvestments(WithStockAllocation(sectors, i, j, allocation), totalAmount, weeks);
    var at := Offset(sectors, i) + j;
    StockAllocationPlan(sectors, i, j, allocation, totalAmount, weeks);
    SumsReplace(before, at, after[at]);
  }

  /** Changing sector `i`'s allocation changes no line outside that sector's
      run, and every line in the run becomes the line of the same stock under
      the new allocation. */
  lemma SectorAllocationPlan(sectors: seq<Sector>, i: nat, allocation: real, totalAmount: real, weeks: real)
    requires weeks != 0.0 && i < |sectors|
    ensures var before := WeeklyInvestments(sectors, totalAmount, weeks);
      var after := WeeklyInvestments(WithSectorAllocation(sectors, i, allocation), totalAmount, weeks);
      var run := Offset(sectors, i);
      && |after| == |before|
      && run + |sectors[i].stocks| <= |before|
      && (forall k :: 0 <= k < |before| && !(run <= k < run + |sectors[i].stocks|) ==> after[k] == before[k])
      && (forall j :: 0 <= j < |sectors[i].stocks| ==>
            Describes(after[run + j], sectors[i].(allocation := allocation), sectors[i].stocks[j], totalAmount, weeks))
  {
    var r := WithSectorAllocation(sectors, i, allocation);
    var wt := WeeklyTotal(totalAmount, weeks);
    HoldingsSplit(sectors, i);
    HoldingsSplit(r, i);
    assert r[..i] == sectors[..i];
    assert r[i + 1..] == sectors[i + 1..];
    var A, B := Holdings(sectors[..i]), Holdings(sectors[i + 1..]);
    var S, S' := SectorHoldings(sectors[i], sectors[i].stocks), SectorHoldings(r[i], r[i].stocks);
    LinesOfAt(Holdings(sectors), wt, weeks);
    LinesOfAt(Holdings(r), wt, weeks);
    forall k | 0 <= k < |Holdings(sectors)| && !(|A| <= k < |A| + |S|)
      ensures Holdings(r)[k] == Holdings(sectors)[k]
    {
      SameLengthMiddle(A, S, S', B, k);
    }
    forall j | 0 <= j < |sectors[i].stocks|
      ensures Describes(WeeklyInvestments(r, totalAmount, weeks)[Offset(sectors, i) + j],
                        r[i], sectors[i].stocks[j], totalAmount, weeks)
    {
      PlanLineAt(r, totalAmount, weeks, i, j);
    }
  }

  lemma WeightedMiddle(a: seq<Sector>, sector: Sector, b: seq<Sector>)
    ensures WeightedAllocation(a + [sector] + b) ==
      WeightedAllocation(a) + SectorWeight(sector) + WeightedAllocation(b)
  {
    WeightedConcat(a + [sector], b);
    WeightedConcat(a, [sector]);
  }

  /** Replacing sector `i` moves the weighted allocation by the difference of
      the two sectors' weights. */
  lemma WeightedReplace(sectors: seq<Sector>, i: nat, sector: Sector)
    requires i < |sectors|
    ensures WeightedAllocation(sectors[i := sector]) ==
      WeightedAllocation(sectors) - SectorWeight(sectors[i]) + SectorWeight(sector)
  {
    SplitAt(sectors, i);
    assert sectors[i := sector] == sectors[..i] + [sector] + sectors[i + 1..];
    WeightedMiddle(sectors[..i], sectors[i], sectors[i + 1..]);
    WeightedMiddle(sectors[..i], sector, sectors[i + 1..]);
  }

  /** How much a sector's weight moves when its allocation is set to
      `allocation`. */
  function WeightChange(sector: Sector, allocation: real): real
  {
    SectorWeight(sector.(allocation := allocation)) - SectorWeight(sector)
  }

  /** The weight of a sector moves by the change of its allocation times its
      stock total. */
  lemma SectorWeightChange(sector: Sector, allocation: real)
    ensures WeightChange(sector, allocation) ==
      (allocation - sector.allocation) * TotalStockAllocation(sector.stocks)
  {
  }

  /** Changing sector `i`'s allocation moves the share of the money the
      holdings receive by the change in that sector's weight. */
  lemma SectorAllocationShare(sectors: seq<Sector>, i: nat, allocation: real)
    requires i < |sectors|
    ensures Share(Holdings(WithSectorAllocation(sectors, i, allocation))) ==
      Share(Holdings(sectors)) + WeightChange(sectors[i], allocation)
  {
    var r := WithSectorAllocation(sectors, i, allocation);
    ShareIsWeighted(sectors);
    ShareIsWeighted(r);
    WeightedReplace(sectors, i, r[i]);
  }
}
