/** The default tree the calculator starts with, and what the two checks say
    about it. */
module Seed {
  import opened Portfolio

  function InitialSectors(): seq<Sector>
  {
    [ Sector("Health", 0.20,
        [Stock("LLY", 0.25), Stock("UNH", 0.25), Stock("NVO", 0.25), Stock("MRK", 0.25)]),
      Sector("Finance", 0.10,
        [Stock("BRK.B", 0.25), Stock("BLK", 0.25), Stock("GS", 0.25), Stock("JPM", 0.25)]),
      Sector("Tech", 0.30,
        [Stock("NVDA", 0.12), Stock("MSFT", 0.12), Stock("TSM", 0.12), Stock("AAPL", 0.12),
         Stock("AMD", 0.08), Stock("META", 0.12), Stock("AMZN", 0.16), Stock("NFLX", 0.06),
         Stock("GOOGL", 0.08)]),
      Sector("Energy", 0.10,
        [Stock("XOM", 0.33), Stock("CVX", 0.33), Stock("SHEL", 0.33)]),
      Sector("Communications", 0.10,
        [Stock("CMCSA", 0.34), Stock("TMUS", 0.33), Stock("T", 0.33)]),
      Sector("Consumer", 0.10,
        [Stock("COST", 0.30), Stock("WMT", 0.20), Stock("HD", 0.20), Stock("PG", 0.15),
         Stock("KO", 0.15)]),
      Sector("Defense", 0.05,
        [Stock("NOC", 0.34), Stock("LMT", 0.33), Stock("GD", 0.33)]),
      Sector("Metals", 0.05,
        [Stock("GLD", 1.0)])
    ]
  }

  /** The stock total of default sector `i`, folded one stock at a time. */
  lemma StockTotalOf(i: nat)
    requires i < |InitialSectors()|
    ensures TotalStockAllocation(InitialSectors()[i].stocks) ==
      [1.0, 1.0, 0.98, 0.99, 1.0, 1.0, 1.0, 1.0][i]
  {
  }

  /** The default sector allocations sum to exactly 1, so the calculator
      starts without the sector warning. */
  lemma InitialSectorTotal()
    ensures TotalSectorAllocation(InitialSectors()) == 1.0
    ensures !SectorWarning(InitialSectors())
  {
    var s := InitialSectors();
    var k := 0;
    while k < |s|
      invariant 0 <= k <= |s|
      invariant TotalSectorAllocation(s[..k]) ==
        [0.0, 0.20, 0.30, 0.60, 0.70, 0.80, 0.90, 0.95, 1.0][k]
    {
      SectorTotalStep(s, k);
      k := k + 1;
    }
    assert s[..k] == s;
  }

  /** With exact arithmetic, the only default sector the stock check flags is
      Tech (index 2), whose stock allocations sum to 0.98; Energy sums to 0.99,
      which is within the tolerance. */
  lemma InitialStockChecks()
    ensures forall k :: ValidateStockAllocations(InitialSectors(), k) <==> k == 2
  {
    forall k
      ensures ValidateStockAllocations(InitialSectors(), k) <==> k == 2
    {
      if 0 <= k < |InitialSectors()| { StockTotalOf(k); }
    }
  }
}
