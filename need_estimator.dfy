/** Per-disaster resource need: `ResourceAllocator.calculate_base_need` followed by the
    type adjustment of module DisasterTypes.  Decimal rates are exact reals; `int()` of a
    product is `Trunc`. */
module NeedEstimator {
  import opened Common
  import opened Text
  import opened Resources
  import opened DisasterTypes

  /** Units per affected person (`base_per_person`). */
  function PerPersonRate(r: Resource): real
  {
    match r
    case Food => 0.8
    case Water => 1.2
    case Medicine => 0.3
    case Shelter => 0.25
  }

  /** `severity_multipliers.get(severity, 1.0)`. */
  function SeverityMultiplier(s: Severity): real
  {
    match s
    case High => 1.5
    case Medium => 1.2
    case Low => 1.0
    case Unrecognised(_) => 1.0
  }

  /** The exact (unrounded) demand for one kind before any type adjustment. */
  function Demand(people: nat, s: Severity, r: Resource): real
  {
    people as real * PerPersonRate(r) * SeverityMultiplier(s)
  }

  /** `max(1, int(x))` of a non-negative demand: the demand rounded down, but never
      less than one unit. */
  function AtLeastOneUnit(x: real): (n: int)
    requires x >= 0.0
    ensures n >= 1
    ensures x < 1.0 ==> n == 1
    ensures x >= 1.0 ==> n as real <= x < n as real + 1.0
  {
    Max(1, Trunc(x))
  }

  lemma DemandNonNegative(people: nat, s: Severity, r: Resource)
    ensures Demand(people, s, r) >= 0.0
  {
    assert PerPersonRate(r) * SeverityMultiplier(s) >= 0.0;
    assert Demand(people, s, r) == people as real * (PerPersonRate(r) * SeverityMultiplier(s));
  }

  /** `calculate_base_need`: every kind gets `max(1, int(demand))`, so every base
      need is at least 1. */
  function CalculateBaseNeed(people: nat, s: Severity): (n: PerKind<int>)
    ensures AllAtLeast(n, 1)
    ensures forall r :: Demand(people, s, r) >= 0.0 && n.Get(r) == AtLeastOneUnit(Demand(people, s, r))
  {
    DemandNonNegative(people, s, Food);
    DemandNonNegative(people, s, Water);
    DemandNonNegative(people, s, Medicine);
    DemandNonNegative(people, s, Shelter);
    PerKind(AtLeastOneUnit(Demand(people, s, Food)),
            AtLeastOneUnit(Demand(people, s, Water)),
            AtLeastOneUnit(Demand(people, s, Medicine)),
            AtLeastOneUnit(Demand(people, s, Shelter)))
  }

  lemma AtLeastOneUnitMonotone(x: real, y: real)
    requires 0.0 <= x <= y
    ensures AtLeastOneUnit(x) <= AtLeastOneUnit(y)
  {
  }

  lemma DemandMonotone(p: nat, q: nat, s: Severity, r: Resource)
    requires p <= q
    ensures Demand(p, s, r) <= Demand(q, s, r)
  {
    var c := PerPersonRate(r) * SeverityMultiplier(s);
    assert c >= 0.0;
    assert Demand(p, s, r) == p as real * c;
    assert Demand(q, s, r) == q as real * c;
    assert (q - p) as real * c >= 0.0;
  }

  /** More people never need fewer units, whatever the severity. */
  lemma BaseNeedGrowsWithPeople(p: nat, q: nat, s: Severity)
    requires p <= q
    ensures AtMost(CalculateBaseNeed(p, s), CalculateBaseNeed(q, s))
  {
    forall r ensures CalculateBaseNeed(p, s).Get(r) <= CalculateBaseNeed(q, s).Get(r) {
      DemandNonNegative(p, s, r);
      DemandMonotone(p, q, s, r);
      AtLeastOneUnitMonotone(Demand(p, s, r), Demand(q, s, r));
    }
  }

  /** The need vector of one disaster: base need, then the type adjustment.  Every
      entry is at least 0. */
  function DisasterNeed(people: nat, s: Severity, disasterType: string): (n: PerKind<int>)
    ensures AllAtLeast(n, 0)
  {
    var base := CalculateBaseNeed(people, s);
    var f := FactorsFor(disasterType);
    ScaledKeepsNonNegative(base.food, f, Food);
    ScaledKeepsNonNegative(base.water, f, Water);
    ScaledKeepsNonNegative(base.medicine, f, Medicine);
    ScaledKeepsNonNegative(base.shelter, f, Shelter);
    AdjustForDisasterType(base, disasterType)
  }

  /** The drought factor 0.8 takes a base Medicine need of 1 down to 0: an adjusted
      need is not always at least 1. */
  lemma DroughtCanZeroMedicine()
    ensures CalculateBaseNeed(1, Low).Get(Medicine) == 1
    ensures DisasterNeed(1, Low, "drought").Get(Medicine) == 0
  {
    assert Demand(1, Low, Medicine) == 0.3;
    var base := CalculateBaseNeed(1, Low);
    assert base.medicine == 1;
    DroughtUsesItsOwnRow();
    DroughtHalvesNothingButZeroesOneMedicine(base);
  }

  lemma DroughtHalvesNothingButZeroesOneMedicine(base: PerKind<int>)
    requires base.medicine == 1
    ensures ApplyFactors(base, AdjustmentFactors("drought")).Get(Medicine) == 0
  {
    var f := AdjustmentFactors("drought");
    assert f[Medicine] == 0.8;
    assert Scaled(1, f, Medicine) == Trunc(0.8);
  }
}
