/** A concrete run under scarcity in which the High-severity disaster ends with a lower
    fulfilment rate than the Low-severity one.  The High disaster is served first, but in
    the fair-share branch it is granted `int(available * needed / total * weight)`, a
    fraction of the stock, so it leaves enough for the Low disaster to be met in full. */
module ScarcityExample {
  import opened Common
  import opened Text
  import opened Resources
  import opened DisasterTypes
  import opened NeedEstimator
  import opened Priority
  import opened Allocator

  const HighFlood: Disaster := Disaster(High, 10, "flood", None)
  const LowFlood: Disaster := Disaster(Low, 10, "flood", None)
  const Scarce: Pool := map[Food := 11, Water := 20, Medicine := 3, Shelter := 2]

  const HighNeeds: PerKind<int> := PerKind(12, 21, 4, 3)
  const LowNeeds: PerKind<int> := PerKind(8, 14, 3, 2)
  const Totals: PerKind<int> := PerKind(20, 35, 7, 5)

  lemma FloodFactors()
    ensures FactorsFor("flood") == FloodRow
  {
    assert ToLower("flood") == "flood";
    assert Contains("flood", "flood");
    FloodRowFor("flood");
  }

  const FloodRow: map<Resource, real> := map[Water := 1.2, Shelter := 1.3, Medicine := 1.1]

  /** Ten people in a High flood need 12 food, 21 water, 4 medicine and 3 shelter. */
  lemma HighFloodNeeds()
    ensures DisasterNeed(10, High, "flood") == HighNeeds
  {
    HighFloodBase();
    FloodFactors();
    HighFloodAdjusted(CalculateBaseNeed(10, High));
  }

  lemma HighFloodBase()
    ensures CalculateBaseNeed(10, High) == PerKind(12, 18, 4, 3)
  {
    assert Demand(10, High, Food) == 12.0;
    assert Demand(10, High, Water) == 18.0;
    assert Demand(10, High, Medicine) == 4.5;
    assert Demand(10, High, Shelter) == 3.75;
  }

  lemma HighFloodAdjusted(base: PerKind<int>)
    requires base == PerKind(12, 18, 4, 3)
    ensures ApplyFactors(base, FloodRow) == HighNeeds
  {
    assert Scaled(18, FloodRow, Water) == Trunc(21.6);
    assert Scaled(4, FloodRow, Medicine) == Trunc(4.4);
    assert Scaled(3, FloodRow, Shelter) == Trunc(3.9);
  }

  /** Ten people in a Low flood need 8 food, 14 water, 3 medicine and 2 shelter. */
  lemma LowFloodNeeds()
    ensures DisasterNeed(10, Low, "flood") == LowNeeds
  {
    LowFloodBase();
    FloodFactors();
    LowFloodAdjusted(CalculateBaseNeed(10, Low));
  }

  lemma LowFloodBase()
    ensures CalculateBaseNeed(10, Low) == PerKind(8, 12, 3, 2)
  {
    assert Demand(10, Low, Food) == 8.0;
    assert Demand(10, Low, Water) == 12.0;
    assert Demand(10, Low, Medicine) == 3.0;
    assert Demand(10, Low, Shelter) == 2.5;
  }

  lemma LowFloodAdjusted(base: PerKind<int>)
    requires base == PerKind(8, 12, 3, 2)
    ensures ApplyFactors(base, FloodRow) == LowNeeds
  {
    assert Scaled(12, FloodRow, Water) == Trunc(14.4);
    assert Scaled(3, FloodRow, Medicine) == Trunc(3.3);
    assert Scaled(2, FloodRow, Shelter) == Trunc(2.6);
  }

  function HighInfo(): DisasterInfo
  {
    DisasterInfo(0, High, 10, "flood", "Unknown", HighNeeds, PriorityKey(3, 10))
  }

  function LowInfo(): DisasterInfo
  {
    DisasterInfo(1, Low, 10, "flood", "Unknown", LowNeeds, PriorityKey(1, 10))
  }

  lemma RecordsAndOrder()
    ensures Infos([HighFlood, LowFlood]) == [HighInfo(), LowInfo()]
    ensures SortByPriority([HighInfo(), LowInfo()]) == [HighInfo(), LowInfo()]
    ensures TotalNeeds([HighInfo(), LowInfo()]) == Totals
  {
    TheTwoRecords();
    TheTwoInOrder();
    TheTwoTotals();
  }

  lemma TheTwoRecords()
    ensures Infos([HighFlood, LowFlood]) == [HighInfo(), LowInfo()]
  {
    InfosOfTwo(HighFlood, LowFlood);
    HighRecord();
    LowRecord();
  }

  lemma InfosOfTwo(a: Disaster, b: Disaster)
    ensures Infos([a, b]) == [InfoOf(a, 0), InfoOf(b, 1)]
  {
  }

  lemma HighRecord()
    ensures InfoOf(HighFlood, 0) == HighInfo()
  {
    HighFloodNeeds();
  }

  lemma LowRecord()
    ensures InfoOf(LowFlood, 1) == LowInfo()
  {
    LowFloodNeeds();
  }

  lemma TheTwoInOrder()
    ensures SortByPriority([HighInfo(), LowInfo()]) == [HighInfo(), LowInfo()]
  {
    var s := [HighInfo(), LowInfo()];
    assert s[1..] == [LowInfo()];
    assert [LowInfo()][1..] == [];
    assert ComesBefore(HighInfo(), LowInfo());
  }

  lemma TheTwoTotals()
    ensures TotalNeeds([HighInfo(), LowInfo()]) == Totals
  {
    var s := [HighInfo(), LowInfo()];
    assert s[..1] == [HighInfo()];
    assert [HighInfo()][..0] == [];
  }

  /** The High disaster is short of every kind and gets 3 food, 6 water and nothing else. */
  lemma HighGetsAFairShare()
    ensures SingleAllocation(HighInfo(), Scarce, Totals).Success?
    ensures SingleAllocation(HighInfo(), Scarce, Totals).value.granted == PerKind(3, 6, 0, 0)
    ensures SingleAllocation(HighInfo(), Scarce, Totals).value.fulfillmentRate == 9.0 / 40.0
  {
    assert WeightedShare(11, Proportion(12, 20), 0.5) == 3.3;
    assert Trunc(3.3) == 3;
    assert WeightedShare(20, Proportion(21, 35), 0.5) == 6.0;
    assert Trunc(6.0) == 6;
    assert WeightedShare(3, Proportion(4, 7), 0.5) == 6.0 / 7.0;
    assert Trunc(6.0 / 7.0) == 0;
    assert WeightedShare(2, Proportion(3, 5), 0.5) == 0.6;
    assert Trunc(0.6) == 0;
    SingleAllocationSucceeds(HighInfo(), Scarce, Totals);
    SingleAllocationRecord(HighInfo(), Scarce, Totals);
  }

  const AfterHigh: Pool := map[Food := 8, Water := 14, Medicine := 3, Shelter := 2]

  lemma HighDeducted()
    ensures Deducted(Scarce, PerKind(3, 6, 0, 0)) == Success(AfterHigh)
  {
    ScarceIsComplete();
    var rest := Deducted(Scarce, PerKind(3, 6, 0, 0)).value;
    assert rest.Keys == AfterHigh.Keys;
    assert rest[Food] == 8 && rest[Water] == 14 && rest[Medicine] == 3 && rest[Shelter] == 2;
    forall r | r in rest ensures rest[r] == AfterHigh[r] {
      assert r == Food || r == Water || r == Medicine || r == Shelter;
    }
    assert rest == AfterHigh;
  }

  lemma ScarceIsComplete()
    ensures Complete(Scarce) && Complete(AfterHigh)
  {
    forall r: Resource ensures r in Scarce && r in AfterHigh {
      assert r == Food || r == Water || r == Medicine || r == Shelter;
    }
  }

  /** What the High disaster leaves meets the Low disaster's need in full. */
  lemma LowIsMetInFull()
    ensures SingleAllocation(LowInfo(), AfterHigh, Totals).Success?
    ensures SingleAllocation(LowInfo(), AfterHigh, Totals).value.granted == LowNeeds
    ensures SingleAllocation(LowInfo(), AfterHigh, Totals).value.fulfillmentRate == 1.0
  {
    SingleAllocationSucceeds(LowInfo(), AfterHigh, Totals);
    SingleAllocationRecord(LowInfo(), AfterHigh, Totals);
    FullRateIsOne(LowNeeds);
  }

  lemma TheWalk()
    ensures Pass([HighInfo(), LowInfo()], Scarce, Totals).Success?
    ensures var allocs := Pass([HighInfo(), LowInfo()], Scarce, Totals).value.0;
      && |allocs| == 2
      && allocs[0] == SingleAllocation(HighInfo(), Scarce, Totals).value
      && allocs[1] == SingleAllocation(LowInfo(), AfterHigh, Totals).value
  {
    HighGetsAFairShare();
    HighDeducted();
    LowIsMetInFull();
    ScarceIsComplete();
    var a := SingleAllocation(HighInfo(), Scarce, Totals).value;
    var b := SingleAllocation(LowInfo(), AfterHigh, Totals).value;
    var s := [HighInfo(), LowInfo()];
    var rest := Deducted(AfterHigh, b.granted).value;
    PassStepAt(s, 0, Scarce, Totals, a, AfterHigh);
    PassStepAt(s, 1, AfterHigh, Totals, b, rest);
    GlueAppend([a], b, Pass(s[2..], rest, Totals));
    GlueFinished(s, [a] + [b], rest, Totals);
    assert s[0..] == s;
  }

  /** Under this scarcity the High disaster is met to 9/40 while the Low disaster,
      served after it, is met in full: a higher severity does not guarantee a higher
      fulfilment rate. */
  lemma HighCanFareWorseThanLow()
    ensures AllocateSpec([HighFlood, LowFlood], Scarce).Success?
    ensures var allocs := AllocateSpec([HighFlood, LowFlood], Scarce).value.allocations;
      && |allocs| == 2
      && allocs[0].severity == High && allocs[0].fulfillmentRate == 9.0 / 40.0
      && allocs[1].severity == Low && allocs[1].fulfillmentRate == 1.0
  {
    var ds := [HighFlood, LowFlood];
    ScarceIsComplete();
    AllocationSucceedsWhenWellFormed(ds, Scarce);
    AllocationsOfWalk(ds, Scarce);
    RecordsAndOrder();
    TheWalk();
    TheTwoAllocations();
  }

  lemma TheTwoAllocations()
    ensures SingleAllocation(HighInfo(), Scarce, Totals).Success?
    ensures SingleAllocation(LowInfo(), AfterHigh, Totals).Success?
    ensures var a := SingleAllocation(HighInfo(), Scarce, Totals).value;
      a.severity == High && a.fulfillmentRate == 9.0 / 40.0
    ensures var b := SingleAllocation(LowInfo(), AfterHigh, Totals).value;
      b.severity == Low && b.fulfillmentRate == 1.0
  {
    HighGetsAFairShare();
    LowIsMetInFull();
    SingleAllocationRecord(HighInfo(), Scarce, Totals);
    SingleAllocationRecord(LowInfo(), AfterHigh, Totals);
  }
}
