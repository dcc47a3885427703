/** The sector/stock tree of the investment calculator, the two allocation-sum
    checks, and the list edits the calculator applies to the tree. Numbers are
    exact reals; an allocation is a fraction (1.0 means 100%). */
module Portfolio {

  datatype Option<T> = None | Some(value: T)

  /** A holding inside a sector: its ticker label and its share of the sector. */
  datatype Stock = Stock(ticker: string, allocation: real)

  /** A sector: its name, its share of the whole investment, and its stocks in order. */
  datatype Sector = Sector(name: string, allocation: real, stocks: seq<Stock>)

  /** Absolute tolerance of both allocation checks, in fraction units. */
  const Tolerance: real := 0.01

  /** The band a total must lie in to pass a check: 1 give or take the tolerance. */
  const LowerBound: real := 1.0 - Tolerance
  const UpperBound: real := 1.0 + Tolerance

  /** The stock a newly added row starts with. */
  const NewStock: Stock := Stock("NEW", 0.0)

  /** `parseFloat(v) || 0`: a failed parse (NaN, here `None`) and every falsy
      number become 0; any other parsed number is kept. */
  function ParseOrZero(parsed: Option<real>): (r: real)
    ensures parsed.Some? && parsed.value != 0.0 ==> r == parsed.value
    ensures r == 0.0 <==> (parsed.None? || parsed.value == 0.0)
  {
    match parsed
    case None => 0.0
    case Some(v) => if v == 0.0 then 0.0 else v
  }

  /** `Math.max(0, v)`, the clamp applied to the total amount. */
  function ClampNonNegative(v: real): (r: real)
    ensures r >= 0.0 && r >= v
    ensures r == v || r == 0.0
  {
    if v < 0.0 then 0.0 else v
  }

  function Abs(x: real): real
  {
    if x < 0.0 then -x else x
  }

  // ---------------------------------------------------------------------------
  // The two `reduce((sum, x) => sum + x.allocation, 0)` folds. With exact reals
  // the order of the additions does not matter; they are written from the
  // front, the first item plus the rest.

  function TotalStockAllocation(stocks: seq<Stock>): real
  {
    if |stocks| == 0 then 0.0
    else stocks[0].allocation + TotalStockAllocation(stocks[1..])
  }

  function TotalSectorAllocation(sectors: seq<Sector>): real
  {
    if |sectors| == 0 then 0.0
    else sectors[0].allocation + TotalSectorAllocation(sectors[1..])
  }

  lemma {:induction false} StockTotalConcat(a: seq<Stock>, b: seq<Stock>)
    ensures TotalStockAllocation(a + b) == TotalStockAllocation(a) + TotalStockAllocation(b)
    decreases |a|
  {
    if |a| == 0 {
      assert a + b == b;
    } else {
      assert (a + b)[1..] == a[1..] + b;
      StockTotalConcat(a[1..], b);
    }
  }

  lemma {:induction false} SectorTotalConcat(a: seq<Sector>, b: seq<Sector>)
    ensures TotalSectorAllocation(a + b) == TotalSectorAllocation(a) + TotalSectorAllocation(b)
    decreases |a|
  {
    if |a| == 0 {
      assert a + b == b;
    } else {
      assert (a + b)[1..] == a[1..] + b;
      SectorTotalConcat(a[1..], b);
    }
  }

  /** The fold one item at a time from the left, as `reduce` visits them: the
      total of the first `k + 1` items. */
  lemma StockTotalStep(stocks: seq<Stock>, k: nat)
    requires k < |stocks|
    ensures TotalStockAllocation(stocks[..k + 1]) == TotalStockAllocation(stocks[..k]) + stocks[k].allocation
  {
    assert stocks[..k + 1] == stocks[..k] + [stocks[k]];
    StockTotalConcat(stocks[..k], [stocks[k]]);
  }

  lemma SectorTotalStep(sectors: seq<Sector>, k: nat)
    requires k < |sectors|
    ensures TotalSectorAllocation(sectors[..k + 1]) == TotalSectorAllocation(sectors[..k]) + sectors[k].allocation
  {
    assert sectors[..k + 1] == sectors[..k] + [sectors[k]];
    SectorTotalConcat(sectors[..k], [sectors[k]]);
  }

  // ---------------------------------------------------------------------------
  // Validation.

  /** The rule both checks share: a total is flagged when it lies more than the
      tolerance away from 1. */
  function OutsideTolerance(total: real): (r: bool)
    ensures r <==> (total < LowerBound || total > UpperBound)
  {
    Abs(total - 1.0) > Tolerance
  }

  /** The sector-sum warning: on exactly when the sector allocations do not sum
      to 1 within the tolerance. */
  function SectorWarning(sectors: seq<Sector>): (r: bool)
    ensures r <==> (TotalSectorAllocation(sectors) < LowerBound || TotalSectorAllocation(sectors) > UpperBound)
  {
    OutsideTolerance(TotalSectorAllocation(sectors))
  }

  /** `validateStockAllocations`: `false` for an index that names no sector;
      otherwise `true` (a problem) exactly when that sector's stock allocations
      do not sum to 1 within the tolerance. */
  function ValidateStockAllocations(sectors: seq<Sector>, sectorIndex: int): (r: bool)
    ensures !(0 <= sectorIndex < |sectors|) ==> !r
    ensures 0 <= sectorIndex < |sectors| ==>
      (r <==> (TotalStockAllocation(sectors[sectorIndex].stocks) < LowerBound ||
               TotalStockAllocation(sectors[sectorIndex].stocks) > UpperBound))
  {
    if !(0 <= sectorIndex < |sectors|) then false
    else OutsideTolerance(TotalStockAllocation(sectors[sectorIndex].stocks))
  }

  // ---------------------------------------------------------------------------
  // The edits, as functions of the old tree.

  function WithSectorAllocation(sectors: seq<Sector>, index: nat, allocation: real): (r: seq<Sector>)
    requires index < |sectors|
    ensures |r| == |sectors|
    ensures r[index].allocation == allocation
    ensures r[index].name == sectors[index].name && r[index].stocks == sectors[index].stocks
    ensures forall k :: 0 <= k < |sectors| && k != index ==> r[k] == sectors[k]
  {
    sectors[index := sectors[index].(allocation := allocation)]
  }

  /** Replaces stock `stockIndex` of sector `sectorIndex` by `stock`. */
  function WithStock(sectors: seq<Sector>, sectorIndex: nat, stockIndex: nat, stock: Stock): (r: seq<Sector>)
    requires sectorIndex < |sectors| && stockIndex < |sectors[sectorIndex].stocks|
    ensures |r| == |sectors|
    ensures r[sectorIndex].name == sectors[sectorIndex].name
    ensures r[sectorIndex].allocation == sectors[sectorIndex].allocation
    ensures |r[sectorIndex].stocks| == |sectors[sectorIndex].stocks|
    ensures r[sectorIndex].stocks[stockIndex] == stock
    ensures forall t :: 0 <= t < |sectors[sectorIndex].stocks| && t != stockIndex ==>
      r[sectorIndex].stocks[t] == sectors[sectorIndex].stocks[t]
    ensures forall k :: 0 <= k < |sectors| && k != sectorIndex ==> r[k] == sectors[k]
  {
    var sector := sectors[sectorIndex];
    sectors[sectorIndex := sector.(stocks := sector.stocks[stockIndex := stock])]
  }

  function WithStockAllocation(sectors: seq<Sector>, sectorIndex: nat, stockIndex: nat, allocation: real): (r: seq<Sector>)
    requires sectorIndex < |sectors| && stockIndex < |sectors[sectorIndex].stocks|
    ensures |r| == |sectors| && |r[sectorIndex].stocks| == |sectors[sectorIndex].stocks|
    ensures r[sectorIndex].stocks[stockIndex].allocation == allocation
    ensures r[sectorIndex].stocks[stockIndex].ticker == sectors[sectorIndex].stocks[stockIndex].ticker
    ensures r[sectorIndex].name == sectors[sectorIndex].name
    ensures r[sectorIndex].allocation == sectors[sectorIndex].allocation
    ensures forall t :: 0 <= t < |sectors[sectorIndex].stocks| && t != stockIndex ==>
      r[sectorIndex].stocks[t] == sectors[sectorIndex].stocks[t]
    ensures forall k :: 0 <= k < |sectors| && k != sectorIndex ==> r[k] == sectors[k]
  {
    var stock := sectors[sectorIndex].stocks[stockIndex];
    WithStock(sectors, sectorIndex, stockIndex, stock.(allocation := allocation))
  }

  function WithStockTicker(sectors: seq<Sector>, sectorIndex: nat, stockIndex: nat, ticker: string): (r: seq<Sector>)
    requires sectorIndex < |sectors| && stockIndex < |sectors[sectorIndex].stocks|
    ensures |r| == |sectors| && |r[sectorIndex].stocks| == |sectors[sectorIndex].stocks|
    ensures r[sectorIndex].stocks[stockIndex].ticker == ticker
    ensures r[sectorIndex].stocks[stockIndex].allocation == sectors[sectorIndex].stocks[stockIndex].allocation
    ensures r[sectorIndex].name == sectors[sectorIndex].name
    ensures r[sectorIndex].allocation == sectors[sectorIndex].allocation
    ensures forall t :: 0 <= t < |sectors[sectorIndex].stocks| && t != stockIndex ==>
      r[sectorIndex].stocks[t] == sectors[sectorIndex].stocks[t]
    ensures forall k :: 0 <= k < |sectors| && k != sectorIndex ==> r[k] == sectors[k]
  {
    var stock := sectors[sectorIndex].stocks[stockIndex];
    WithStock(sectors, sectorIndex, stockIndex, stock.(ticker := ticker))
  }

  /** `stocks.push({ticker: "NEW", allocation: 0})` on one sector. */
  function WithNewStock(sectors: seq<Sector>, sectorIndex: nat): (r: seq<Sector>)
    requires sectorIndex < |sectors|
    ensures |r| == |sectors|
    ensures |r[sectorIndex].stocks| == |sectors[sectorIndex].stocks| + 1
    ensures r[sectorIndex].stocks[|sectors[sectorIndex].stocks|] == NewStock
    ensures forall t :: 0 <= t < |sectors[sectorIndex].stocks| ==>
      r[sectorIndex].stocks[t] == sectors[sectorIndex].stocks[t]
    ensures r[sectorIndex].name == sectors[sectorIndex].name
    ensures r[sectorIndex].allocation == sectors[sectorIndex].allocation
    ensures forall k :: 0 <= k < |sectors| && k != sectorIndex ==> r[k] == sectors[k]
  {
    var sector := sectors[sectorIndex];
    sectors[sectorIndex := sector.(stocks := sector.stocks + [NewStock])]
  }

  /** The position `Array.prototype.splice` starts at: a negative start counts
      back from the end (no further than 0), a start past the end is the end. */
  function SpliceStart(len: nat, start: int): (p: nat)
    ensures p <= len
    ensures 0 <= start <= len ==> p == start
    ensures -(len as int) <= start < 0 ==> p == len + start
    ensures start < -(len as int) ==> p == 0
    ensures start > len ==> p == len
  {
    if start < 0 then (if len + start < 0 then 0 else len + start)
    else if start > len then len
    else start
  }

  /** `s.splice(start, 1)`: removes the one element at the splice position, if
      there is one there. */
  function SpliceOne<T>(s: seq<T>, start: int): (r: seq<T>)
    // an index in range: exactly that element goes, later ones shift down by one
    ensures 0 <= start < |s| ==>
      |r| == |s| - 1 &&
      (forall k :: 0 <= k < start ==> r[k] == s[k]) &&
      (forall k :: start <= k < |r| ==> r[k] == s[k + 1])
    // an index at or past the end removes nothing
    ensures start >= |s| ==> r == s
    // a negative index counts back from the end
    ensures -|s| <= start < 0 ==>
      |r| == |s| - 1 &&
      (forall k :: 0 <= k < |s| + start ==> r[k] == s[k]) &&
      (forall k :: |s| + start <= k < |r| ==> r[k] == s[k + 1])
    // a negative index before the start removes the first element
    ensures start < -|s| && |s| > 0 ==> r == s[1..]
    // an empty list stays empty, whatever the index
    ensures |s| == 0 ==> r == s
  {
    var p := SpliceStart(|s|, start);
    if p < |s| then s[..p] + s[p + 1..] else s
  }

  /** At an index in range, `SpliceOne` is the sequence without that element. */
  lemma SpliceOneInRange<T>(s: seq<T>, p: nat)
    requires p < |s|
    ensures SpliceOne(s, p) == s[..p] + s[p + 1..]
  {
    assert SpliceStart(|s|, p) == p;
  }

  /** A sequence is its part before `i`, its element `i`, and its part after. */
  lemma SplitAt<T>(s: seq<T>, i: nat)
    requires i < |s|
    ensures s == s[..i] + [s[i]] + s[i + 1..]
  {
  }

  /** `stocks.splice(stockIndex, 1)` on one sector. */
  function WithoutStock(sectors: seq<Sector>, sectorIndex: nat, stockIndex: int): (r: seq<Sector>)
    requires sectorIndex < |sectors|
    ensures |r| == |sectors|
    ensures r[sectorIndex].stocks == SpliceOne(sectors[sectorIndex].stocks, stockIndex)
    ensures r[sectorIndex].name == sectors[sectorIndex].name
    ensures r[sectorIndex].allocation == sectors[sectorIndex].allocation
    ensures forall k :: 0 <= k < |sectors| && k != sectorIndex ==> r[k] == sectors[k]
  {
    var sector := sectors[sectorIndex];
    sectors[sectorIndex := sector.(stocks := SpliceOne(sector.stocks, stockIndex))]
  }

  // ---------------------------------------------------------------------------
  // How the edits move the two sums, and so the two checks.

  /** The totals of a run with one item in the middle. */
  lemma SectorTotalMiddle(a: seq<Sector>, x: Sector, b: seq<Sector>)
    ensures TotalSectorAllocation(a + [x] + b) ==
      TotalSectorAllocation(a) + x.allocation + TotalSectorAllocation(b)
  {
    SectorTotalConcat(a + [x], b);
    SectorTotalConcat(a, [x]);
    assert [x][..0] == [];
  }

  lemma StockTotalMiddle(a: seq<Stock>, x: Stock, b: seq<Stock>)
    ensures TotalStockAllocation(a + [x] + b) ==
      TotalStockAllocation(a) + x.allocation + TotalStockAllocation(b)
  {
    StockTotalConcat(a + [x], b);
    StockTotalConcat(a, [x]);
    assert [x][..0] == [];
  }

  /** Replacing one sector moves the sector total by the change in that
      sector's allocation. */
  lemma SectorTotalReplace(sectors: seq<Sector>, index: nat, sector: Sector)
    requires index < |sectors|
    ensures TotalSectorAllocation(sectors[index := sector]) ==
      TotalSectorAllocation(sectors) - sectors[index].allocation + sector.allocation
  {
    var a, b := sectors[..index], sectors[index + 1..];
    assert sectors == a + [sectors[index]] + b;
    assert sectors[index := sector] == a + [sector] + b;
    SectorTotalMiddle(a, sectors[index], b);
    SectorTotalMiddle(a, sector, b);
  }

  /** Replacing one stock moves its sector's stock total by the change in that
      stock's allocation. */
  lemma StockTotalReplace(stocks: seq<Stock>, index: nat, stock: Stock)
    requires index < |stocks|
    ensures TotalStockAllocation(stocks[index := stock]) ==
      TotalStockAllocation(stocks) - stocks[index].allocation + stock.allocation
  {
    var a, b := stocks[..index], stocks[index + 1..];
    assert stocks == a + [stocks[index]] + b;
    assert stocks[index := stock] == a + [stock] + b;
    StockTotalMiddle(a, stocks[index], b);
    StockTotalMiddle(a, stock, b);
  }

  /** Removing the stock at a valid index takes exactly its allocation off the
      sector's stock total. */
  lemma StockTotalRemove(stocks: seq<Stock>, index: nat)
    requires index < |stocks|
    ensures TotalStockAllocation(SpliceOne(stocks, index)) ==
      TotalStockAllocation(stocks) - stocks[index].allocation
  {
    var a, b := stocks[..index], stocks[index + 1..];
    SplitAt(stocks, index);
    SpliceOneInRange(stocks, index);
    StockTotalMiddle(a, stocks[index], b);
    StockTotalConcat(a, b);
  }

  /** Every edit that leaves the sector allocations alone leaves the sector
      total, and so the sector warning, alone. */
  lemma SameAllocationsSameSectorTotal(sectors: seq<Sector>, index: nat, sector: Sector)
    requires index < |sectors| && sector.allocation == sectors[index].allocation
    ensures TotalSectorAllocation(sectors[index := sector]) == TotalSectorAllocation(sectors)
    ensures SectorWarning(sectors[index := sector]) == SectorWarning(sectors)
  {
    SectorTotalReplace(sectors, index, sector);
  }

  /** Changing a sector's allocation moves the sector total by the difference
      and changes no sector's stock check. */
  lemma SectorAllocationEffect(sectors: seq<Sector>, index: nat, allocation: real)
    requires index < |sectors|
    ensures TotalSectorAllocation(WithSectorAllocation(sectors, index, allocation)) ==
      TotalSectorAllocation(sectors) - sectors[index].allocation + allocation
    ensures forall k :: (ValidateStockAllocations(WithSectorAllocation(sectors, index, allocation), k) ==
      ValidateStockAllocations(sectors, k))
  {
    SectorTotalReplace(sectors, index, sectors[index].(allocation := allocation));
  }

  /** Changing a stock's allocation moves only its own sector's stock total, by
      the difference, and never changes the sector warning. */
  lemma StockAllocationEffect(sectors: seq<Sector>, sectorIndex: nat, stockIndex: nat, allocation: real)
    requires sectorIndex < |sectors| && stockIndex < |sectors[sectorIndex].stocks|
    ensures TotalStockAllocation(WithStockAllocation(sectors, sectorIndex, stockIndex, allocation)[sectorIndex].stocks) ==
      TotalStockAllocation(sectors[sectorIndex].stocks) - sectors[sectorIndex].stocks[stockIndex].allocation + allocation
    ensures forall k :: k != sectorIndex ==>
      (ValidateStockAllocations(WithStockAllocation(sectors, sectorIndex, stockIndex, allocation), k) ==
      ValidateStockAllocations(sectors, k))
    ensures SectorWarning(WithStockAllocation(sectors, sectorIndex, stockIndex, allocation)) == SectorWarning(sectors)
  {
    var stocks := sectors[sectorIndex].stocks;
    var stock := stocks[stockIndex].(allocation := allocation);
    StockTotalReplace(stocks, stockIndex, stock);
    SameAllocationsSameSectorTotal(sectors, sectorIndex, sectors[sectorIndex].(stocks := stocks[stockIndex := stock]));
  }

  /** A ticker edit changes neither check anywhere. */
  lemma StockTickerEffect(sectors: seq<Sector>, sectorIndex: nat, stockIndex: nat, ticker: string)
    requires sectorIndex < |sectors| && stockIndex < |sectors[sectorIndex].stocks|
    ensures forall k :: (ValidateStockAllocations(WithStockTicker(sectors, sectorIndex, stockIndex, ticker), k) ==
      ValidateStockAllocations(sectors, k))
    ensures SectorWarning(WithStockTicker(sectors, sectorIndex, stockIndex, ticker)) == SectorWarning(sectors)
  {
    var stocks := sectors[sectorIndex].stocks;
    var stock := stocks[stockIndex].(ticker := ticker);
    StockTotalReplace(stocks, stockIndex, stock);
    SameAllocationsSameSectorTotal(sectors, sectorIndex, sectors[sectorIndex].(stocks := stocks[stockIndex := stock]));
  }

  /** Adding the zero-allocation "NEW" stock changes neither check anywhere. */
  lemma NewStockEffect(sectors: seq<Sector>, sectorIndex: nat)
    requires sectorIndex < |sectors|
    ensures TotalStockAllocation(WithNewStock(sectors, sectorIndex)[sectorIndex].stocks) ==
      TotalStockAllocation(sectors[sectorIndex].stocks)
    ensures forall k :: (ValidateStockAllocations(WithNewStock(sectors, sectorIndex), k) ==
      ValidateStockAllocations(sectors, k))
    ensures SectorWarning(WithNewStock(sectors, sectorIndex)) == SectorWarning(sectors)
  {
    var stocks := sectors[sectorIndex].stocks;
    StockTotalConcat(stocks, [NewStock]);
    SameAllocationsSameSectorTotal(sectors, sectorIndex, sectors[sectorIndex].(stocks := stocks + [NewStock]));
  }

  /** Removing a stock at a valid index takes its allocation off its sector's
      stock total, and changes no other sector's check nor the sector warning. */
  lemma RemoveStockEffect(sectors: seq<Sector>, sectorIndex: nat, stockIndex: nat)
    requires sectorIndex < |sectors| && stockIndex < |sectors[sectorIndex].stocks|
    ensures TotalStockAllocation(WithoutStock(sectors, sectorIndex, stockIndex)[sectorIndex].stocks) ==
      TotalStockAllocation(sectors[sectorIndex].stocks) - sectors[sectorIndex].stocks[stockIndex].allocation
    ensures forall k :: k != sectorIndex ==>
      (ValidateStockAllocations(WithoutStock(sectors, sectorIndex, stockIndex), k) ==
      ValidateStockAllocations(sectors, k))
    ensures SectorWarning(WithoutStock(sectors, sectorIndex, stockIndex)) == SectorWarning(sectors)
  {
    var stocks := sectors[sectorIndex].stocks;
    StockTotalRemove(stocks, stockIndex);
    SameAllocationsSameSectorTotal(sectors, sectorIndex, sectors[sectorIndex].(stocks := SpliceOne(stocks, stockIndex)));
  }
}
