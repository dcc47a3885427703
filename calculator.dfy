/** The calculator component: its state, the handlers that edit it, and the
    loop that turns it into the plan. */
module Calculator {
  import opened Portfolio
  import opened Plan
  import Seed

  // ---------------------------------------------------------------------------
  // The plan built one holding at a time, in the order the loops visit them.

  lemma LinesOfSnoc(hs: seq<Holding>, h: Holding, weeklyTotal: real, weeks: real)
    ensures LinesOf(hs + [h], weeklyTotal, weeks) == LinesOf(hs, weeklyTotal, weeks) + [Line(h, weeklyTotal, weeks)]
  {
    LinesOfConcat(hs, [h], weeklyTotal, weeks);
    assert [h][1..] == [];
  }

  lemma SectorHoldingsStep(sector: Sector, j: nat)
    requires j < |sector.stocks|
    ensures SectorHoldings(sector, sector.stocks[..j + 1]) ==
      SectorHoldings(sector, sector.stocks[..j]) + [Holding(sector.name, sector.allocation, sector.stocks[j])]
  {
    assert sector.stocks[..j + 1] == sector.stocks[..j] + [sector.stocks[j]];
    SectorHoldingsAppend(sector, sector.stocks[..j], sector.stocks[j]);
  }

  /** One more stock of the current sector: one more line at the end. */
  lemma LinesStep(sectors: seq<Sector>, i: nat, j: nat, weeklyTotal: real, weeks: real)
    requires i < |sectors| && j < |sectors[i].stocks|
    ensures var sector := sectors[i];
      LinesOf(Holdings(sectors[..i]) + SectorHoldings(sector, sector.stocks[..j + 1]), weeklyTotal, weeks) ==
      LinesOf(Holdings(sectors[..i]) + SectorHoldings(sector, sector.stocks[..j]), weeklyTotal, weeks) +
      [Line(Holding(sector.name, sector.allocation, sector.stocks[j]), weeklyTotal, weeks)]
  {
    var sector := sectors[i];
    var h := Holding(sector.name, sector.allocation, sector.stocks[j]);
    SectorHoldingsStep(sector, j);
    assert Holdings(sectors[..i]) + SectorHoldings(sector, sector.stocks[..j + 1]) ==
      (Holdings(sectors[..i]) + SectorHoldings(sector, sector.stocks[..j])) + [h];
    LinesOfSnoc(Holdings(sectors[..i]) + SectorHoldings(sector, sector.stocks[..j]), h, weeklyTotal, weeks);
  }

  /** The lines of the first `i` sectors, before and after sector `i`'s stocks. */
  lemma LinesSectorDone(sectors: seq<Sector>, i: nat, weeklyTotal: real, weeks: real)
    requires i < |sectors|
    ensures var sector := sectors[i];
      && LinesOf(Holdings(sectors[..i]) + SectorHoldings(sector, sector.stocks[..0]), weeklyTotal, weeks) ==
         LinesOf(Holdings(sectors[..i]), weeklyTotal, weeks)
      && LinesOf(Holdings(sectors[..i]) + SectorHoldings(sector, sector.stocks[..|sector.stocks|]), weeklyTotal, weeks) ==
         LinesOf(Holdings(sectors[..i + 1]), weeklyTotal, weeks)
  {
    var sector := sectors[i];
    assert sector.stocks[..0] == [];
    assert Holdings(sectors[..i]) + SectorHoldings(sector, sector.stocks[..0]) == Holdings(sectors[..i]);
    assert sector.stocks[..|sector.stocks|] == sector.stocks;
    HoldingsStep(sectors, i);
  }

  lemma HoldingsStep(sectors: seq<Sector>, i: nat)
    requires i < |sectors|
    ensures Holdings(sectors[..i + 1]) == Holdings(sectors[..i]) + SectorHoldings(sectors[i], sectors[i].stocks)
  {
    assert sectors[..i + 1] == sectors[..i] + [sectors[i]];
    HoldingsConcat(sectors[..i], [sectors[i]]);
    assert [sectors[i]][1..] == [];
  }

  /** The `InvestmentCalculator` component. Its fields are the component's
      state; `showAllocationWarning` is kept equal to the sector-sum check, as
      the effect that watches `sectors` keeps it. */
  class InvestmentCalculator {
    var totalAmount: real
    var weeksToInvest: real
    var sectors: seq<Sector>
    var showAllocationWarning: bool

    ghost predicate Valid()
      reads this
    {
      showAllocationWarning == SectorWarning(sectors)
    }

    /** The initial state: 75000 over 12 weeks, the default tree, and no
        warning (the default sector allocations sum to exactly 1). */
    constructor()
      ensures totalAmount == 75000.0 && weeksToInvest == 12.0
      ensures sectors == Seed.InitialSectors()
      ensures !showAllocationWarning && Valid()
    {
      totalAmount := 75000.0;
      weeksToInvest := 12.0;
      sectors := Seed.InitialSectors();
      showAllocationWarning := false;
      Seed.InitialSectorTotal();
    }

    /** The effect run after every change of `sectors`. */
    method RefreshWarning()
      modifies this`showAllocationWarning
      ensures showAllocationWarning == SectorWarning(sectors)
    {
      showAllocationWarning := OutsideTolerance(TotalSectorAllocation(sectors));
    }

    /** The total-amount input: negative entries become 0. */
    method SetTotalAmount(value: real)
      requires Valid()
      modifies this`totalAmount
      ensures totalAmount == ClampNonNegative(value)
      ensures totalAmount >= 0.0
      ensures Valid()
    {
      totalAmount := if value < 0.0 then 0.0 else value;
    }

    /** The weeks input: taken as entered. */
    method SetWeeksToInvest(value: real)
      requires Valid()
      modifies this`weeksToInvest
      ensures weeksToInvest == value
      ensures Valid()
    {
      weeksToInvest := value;
    }

    /** `updateSectorAllocation`: the sector's allocation becomes the parsed
        value or 0; the warning then follows the new sector total, which is the
        old one moved by the difference. */
    method UpdateSectorAllocation(index: nat, parsed: Option<real>)
      requires index < |sectors|
      modifies this`sectors, this`showAllocationWarning
      ensures sectors == WithSectorAllocation(old(sectors), index, ParseOrZero(parsed))
      ensures Valid()
      ensures showAllocationWarning <==>
        OutsideTolerance(TotalSectorAllocation(old(sectors)) - old(sectors)[index].allocation + ParseOrZero(parsed))
    {
      SectorAllocationEffect(sectors, index, ParseOrZero(parsed));
      sectors := WithSectorAllocation(sectors, index, ParseOrZero(parsed));
      RefreshWarning();
    }

    /** `updateStockAllocation`: the stock's allocation becomes the parsed
        value or 0; the warning is unchanged. */
    method UpdateStockAllocation(sectorIndex: nat, stockIndex: nat, parsed: Option<real>)
      requires Valid()
      requires sectorIndex < |sectors| && stockIndex < |sectors[sectorIndex].stocks|
      modifies this`sectors, this`showAllocationWarning
      ensures sectors == WithStockAllocation(old(sectors), sectorIndex, stockIndex, ParseOrZero(parsed))
      ensures Valid() && showAllocationWarning == old(showAllocationWarning)
    {
      StockAllocationEffect(sectors, sectorIndex, stockIndex, ParseOrZero(parsed));
      sectors := WithStockAllocation(sectors, sectorIndex, stockIndex, ParseOrZero(parsed));
      RefreshWarning();
    }

    /** `updateStockTicker`: the stock's ticker becomes the entered text; the
        warning is unchanged. */
    method UpdateStockTicker(sectorIndex: nat, stockIndex: nat, ticker: string)
      requires Valid()
      requires sectorIndex < |sectors| && stockIndex < |sectors[sectorIndex].stocks|
      modifies this`sectors, this`showAllocationWarning
      ensures sectors == WithStockTicker(old(sectors), sectorIndex, stockIndex, ticker)
      ensures Valid() && showAllocationWarning == old(showAllocationWarning)
    {
      StockTickerEffect(sectors, sectorIndex, stockIndex, ticker);
      sectors := WithStockTicker(sectors, sectorIndex, stockIndex, ticker);
      RefreshWarning();
    }

    /** `addStockToSector`: "NEW" at 0 is appended to the sector; the warning
        is unchanged. */
    method AddStockToSector(sectorIndex: nat)
      requires Valid() && sectorIndex < |sectors|
      modifies this`sectors, this`showAllocationWarning
      ensures sectors == WithNewStock(old(sectors), sectorIndex)
      ensures Valid() && showAllocationWarning == old(showAllocationWarning)
    {
      NewStockEffect(sectors, sectorIndex);
      sectors := WithNewStock(sectors, sectorIndex);
      RefreshWarning();
    }

    /** `removeStockFromSector`: `splice(stockIndex, 1)` on the sector's stocks,
        for any index `splice` accepts; the warning is unchanged. */
    method RemoveStockFromSector(sectorIndex: nat, stockIndex: int)
      requires Valid() && sectorIndex < |sectors|
      modifies this`sectors, this`showAllocationWarning
      ensures sectors == WithoutStock(old(sectors), sectorIndex, stockIndex)
      ensures Valid() && showAllocationWarning == old(showAllocationWarning)
    {
      var sector := sectors[sectorIndex];
      SameAllocationsSameSectorTotal(sectors, sectorIndex, sector.(stocks := SpliceOne(sector.stocks, stockIndex)));
      sectors := WithoutStock(sectors, sectorIndex, stockIndex);
      RefreshWarning();
    }

    /** `calculateWeeklyInvestments`: for each sector in order and each of its
        stocks in order, push the stock's line (`Line` computes its weekly
        amount, its amount over all the weeks and the two allocations as
        percentages). The result is exactly the plan `WeeklyInvestments`
        defines. */
    method CalculateWeeklyInvestments() returns (results: seq<PlanLine>)
      requires weeksToInvest != 0.0
      ensures results == WeeklyInvestments(sectors, totalAmount, weeksToInvest)
    {
      var weeklyTotal := totalAmount / weeksToInvest;
      results := [];
      var i := 0;
      while i < |sectors|
        invariant 0 <= i <= |sectors|
        invariant results == LinesOf(Holdings(sectors[..i]), weeklyTotal, weeksToInvest)
      {
        var sector := sectors[i];
        var j := 0;
        LinesSectorDone(sectors, i, weeklyTotal, weeksToInvest);
        while j < |sector.stocks|
          invariant 0 <= j <= |sector.stocks|
          invariant results ==
            LinesOf(Holdings(sectors[..i]) + SectorHoldings(sector, sector.stocks[..j]), weeklyTotal, weeksToInvest)
        {
          var line := Line(Holding(sector.name, sector.allocation, sector.stocks[j]), weeklyTotal, weeksToInvest);
          LinesStep(sectors, i, j, weeklyTotal, weeksToInvest);
          results := results + [line];
          j := j + 1;
        }
        i := i + 1;
      }
      assert sectors[..i] == sectors;
    }
  }
}
