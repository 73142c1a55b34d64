/** The two pure helpers of the working dashboard: a rule-based severity predictor
    (a second scorer, different from the preprocessing labels) and a single-disaster
    allocator against a fixed simulated stock. */
module Dashboard {
  import opened Common
  import opened Resources

  // ---------------------------------------------------------------------------
  // `predict_severity`
  // ---------------------------------------------------------------------------

  /** Points for people affected (30 % of the score); thresholds are strict. */
  function PeoplePoints(people: int): int
  {
    if people > 10000 then 30 else if people > 1000 then 20 else 10
  }

  /** Points for deaths (40 %). */
  function DeathPoints(deaths: int): int
  {
    if deaths > 100 then 40 else if deaths > 10 then 25 else 10
  }

  /** Points for damages (30 %). */
  function DamagePoints(damages: int): int
  {
    if damages > 10000000 then 30 else if damages > 1000000 then 20 else 10
  }

  const HighImpactTypes: seq<string> := ["earthquake", "tsunami", "cyclone"]

  /** +5 for a type in `high_impact_disasters`, compared as exact strings. */
  function TypeBonus(disasterType: string): int
  {
    if disasterType in HighImpactTypes then 5 else 0
  }

  /** The score `predict_severity` builds. */
  function ImpactScore(people: int, deaths: int, damages: int, disasterType: string): (score: int)
    ensures 30 <= score <= 105
  {
    PeoplePoints(people) + DeathPoints(deaths) + DamagePoints(damages) + TypeBonus(disasterType)
  }

  function ScoreLabel(score: int): (s: Severity)
    ensures s == High <==> score >= 70
    ensures s == Medium <==> 50 <= score < 70
    ensures s == Low <==> score < 50
  {
    if score >= 70 then High else if score >= 50 then Medium else Low
  }

  /** The probability map returned with a prediction. */
  datatype Confidence = Confidence(high: real, medium: real, low: real) {
    function Of(s: Severity): real
    {
      match s
      case High => high
      case Medium => medium
      case _ => low
    }
  }

  function ConfidenceFor(s: Severity): Confidence
  {
    match s
    case High => Confidence(0.85, 0.12, 0.03)
    case Medium => Confidence(0.15, 0.75, 0.10)
    case _ => Confidence(0.05, 0.25, 0.70)
  }

  /** `predict_severity`: the score is accumulated step by step, then cut at 70
      and 50. */
  method PredictSeverity(people: int, deaths: int, damages: int, disasterType: string)
    returns (prediction: Severity, confidence: Confidence)
    ensures prediction == ScoreLabel(ImpactScore(people, deaths, damages, disasterType))
    ensures confidence == ConfidenceFor(prediction)
  {
    var score := 0;
    if people > 10000 {
      score := score + 30;
    } else if people > 1000 {
      score := score + 20;
    } else {
      score := score + 10;
    }
    if deaths > 100 {
      score := score + 40;
    } else if deaths > 10 {
      score := score + 25;
    } else {
      score := score + 10;
    }
    if damages > 10000000 {
      score := score + 30;
    } else if damages > 1000000 {
      score := score + 20;
    } else {
      score := score + 10;
    }
    if disasterType in HighImpactTypes {
      score := score + 5;
    }
    if score >= 70 {
      prediction, confidence := High, Confidence(0.85, 0.12, 0.03);
    } else if score >= 50 {
      prediction, confidence := Medium, Confidence(0.15, 0.75, 0.10);
    } else {
      prediction, confidence := Low, Confidence(0.05, 0.25, 0.70);
    }
  }

  /** The returned label is the strictly most probable entry of its map, and each map
      sums to 1. */
  lemma LabelIsMostConfident(score: int)
    ensures var s := ScoreLabel(score);
      var c := ConfidenceFor(s);
      && (forall t: Severity :: t.IsKnown() && t != s ==> c.Of(t) < c.Of(s))
      && c.high + c.medium + c.low == 1.0
  {
  }

  /** A value exactly at a threshold falls to the lower band. */
  lemma BoundariesFallLow()
    ensures PeoplePoints(10000) == 20 && PeoplePoints(1000) == 10
    ensures DeathPoints(100) == 25 && DeathPoints(10) == 10
    ensures DamagePoints(10000000) == 20 && DamagePoints(1000000) == 10
    ensures ImpactScore(10000, 100, 10000000, "flood") == 65
    ensures ScoreLabel(ImpactScore(10000, 100, 10000000, "flood")) == Medium
    ensures ScoreLabel(ImpactScore(10001, 101, 10000001, "flood")) == High
  {
  }

  /** The type bonus needs the exact lower-case name. */
  lemma TypeBonusIsExact()
    ensures TypeBonus("earthquake") == 5 && TypeBonus("tsunami") == 5 && TypeBonus("cyclone") == 5
    ensures TypeBonus("Earthquake") == 0 && TypeBonus("flood") == 0 && TypeBonus("earthquakes") == 0
  {
    assert HighImpactTypes[0] == "earthquake" && HighImpactTypes[1] == "tsunami";
    assert "Earthquake" != "earthquake" && "Earthquake" != "tsunami" && "Earthquake" != "cyclone";
    assert "earthquakes" != "earthquake" && "earthquakes" != "tsunami" && "earthquakes" != "cyclone";
  }

  /** Raising any input never lowers the predicted label. */
  lemma PredictionIsMonotone(p: int, d: int, m: int, p': int, d': int, m': int, disasterType: string)
    requires p <= p' && d <= d' && m <= m'
    ensures ImpactScore(p, d, m, disasterType) <= ImpactScore(p', d', m', disasterType)
    ensures ScoreRank(ScoreLabel(ImpactScore(p, d, m, disasterType)))
      <= ScoreRank(ScoreLabel(ImpactScore(p', d', m', disasterType)))
  {
  }

  function ScoreRank(s: Severity): int
  {
    match s
    case High => 2
    case Medium => 1
    case _ => 0
  }

  // ---------------------------------------------------------------------------
  // `calculate_resource_allocation`
  // ---------------------------------------------------------------------------

  /** `severity_multipliers.get(severity, 0.5)`. */
  function SeverityFactor(s: Severity): real
  {
    match s
    case High => 1.0
    case Medium => 0.7
    case Low => 0.4
    case Unrecognised(_) => 0.5
  }

  /** `needs_per_person`. */
  function RatePerPerson(r: Resource): real
  {
    match r
    case Food => 0.8
    case Water => 1.2
    case Medicine => 0.3
    case Shelter => 0.25
  }

  /** `disaster_adjustments`. */
  const Adjustments: map<string, map<Resource, real>> := map[
    "flood" := map[Water := 1.5, Medicine := 1.3],
    "earthquake" := map[Shelter := 1.8, Medicine := 1.4],
    "cyclone" := map[Shelter := 1.6, Food := 1.2],
    "drought" := map[Water := 2.0, Food := 1.5],
    "wildfire" := map[Shelter := 1.4, Medicine := 1.2],
    "tsunami" := map[Water := 1.3, Shelter := 1.5],
    "landslide" := map[Medicine := 1.3, Shelter := 1.2]]

  /** `disaster_adjustments[disaster_type].get(resource, 1.0)` when the type is an exact
      key of the table, and 1.0 otherwise. */
  function TypeFactor(disasterType: string, r: Resource): real
  {
    if disasterType in Adjustments && r in Adjustments[disasterType]
    then Adjustments[disasterType][r] else 1.0
  }

  lemma TypeFactorAtLeastOne(disasterType: string, r: Resource)
    ensures TypeFactor(disasterType, r) >= 1.0
  {
  }

  /** `int(people_affected * adjusted_rate * multiplier)`. */
  function NeedAt(people: nat, adjustedRate: real, multiplier: real): int
  {
    Trunc(people as real * adjustedRate * multiplier)
  }

  /** `needed[resource]`: no minimum of one unit. */
  function NeededOf(s: Severity, people: nat, disasterType: string, r: Resource): int
  {
    NeedAt(people, RatePerPerson(r) * TypeFactor(disasterType, r), SeverityFactor(s))
  }

  /** Every need is at least 0. */
  lemma NeedIsNonNegative(s: Severity, people: nat, disasterType: string, r: Resource)
    ensures NeededOf(s, people, disasterType, r) >= 0
  {
    TypeFactorAtLeastOne(disasterType, r);
    NeedAtNonNegative(people, RatePerPerson(r) * TypeFactor(disasterType, r), SeverityFactor(s));
  }

  lemma NeedAtNonNegative(people: nat, adjustedRate: real, multiplier: real)
    requires adjustedRate >= 0.0 && multiplier >= 0.0
    ensures NeedAt(people, adjustedRate, multiplier) >= 0
  {
    ProductNonNegative(people as real, adjustedRate);
    ProductNonNegative(people as real * adjustedRate, multiplier);
  }

  /** The stock the dashboard allocates from. */
  const Stock: PerKind<int> := PerKind(10000, 15000, 5000, 3000)

  /** `total_allocated / total_needed if total_needed > 0 else 1.0`. */
  function Fulfilment(needed: PerKind<int>, granted: PerKind<int>): real
  {
    if Sum(needed) > 0 then Sum(granted) as real / Sum(needed) as real else 1.0
  }

  datatype AllocationResult = AllocationResult(
    needed: PerKind<int>,
    granted: PerKind<int>,
    fulfillmentRate: real)

  /** `calculate_resource_allocation`. */
  method CalculateResourceAllocation(s: Severity, people: nat, disasterType: string)
    returns (res: AllocationResult)
    ensures forall r :: res.needed.Get(r) == NeededOf(s, people, disasterType, r)
    ensures forall r :: res.granted.Get(r) == Min(res.needed.Get(r), Stock.Get(r))
    ensures res.fulfillmentRate == Fulfilment(res.needed, res.granted)
  {
    var needed := ComputeNeeds(s, people, disasterType);
    var granted, totalNeeded, totalGranted := GrantFromStock(needed);
    var rate := if totalNeeded > 0 then totalGranted as real / totalNeeded as real else 1.0;
    res := AllocationResult(needed, granted, rate);
  }

  /** The first loop: the need of every kind, with the type row looked up by exact key. */
  method ComputeNeeds(s: Severity, people: nat, disasterType: string) returns (needed: PerKind<int>)
    ensures forall r :: needed.Get(r) == NeededOf(s, people, disasterType, r)
  {
    var multiplier := SeverityFactor(s);
    needed := Uniform(0);
    for k := 0 to |Kinds|
      invariant forall r :: KindIndex(r) < k ==> needed.Get(r) == NeededOf(s, people, disasterType, r)
    {
      var r := Kinds[k];
      assert KindIndex(r) == k;
      var adjustedRate := RatePerPerson(r);
      if disasterType in Adjustments {
        adjustedRate := adjustedRate * (if r in Adjustments[disasterType] then Adjustments[disasterType][r] else 1.0);
      }
      var amount := Trunc(people as real * adjustedRate * multiplier);
      NeedOfRate(s, people, disasterType, r, adjustedRate, multiplier, amount);
      needed := needed.With(r, amount);
    }
  }

  lemma NeedOfRate(s: Severity, people: nat, disasterType: string, r: Resource,
                   adjustedRate: real, multiplier: real, amount: int)
    requires adjustedRate == RatePerPerson(r) * TypeFactor(disasterType, r)
    requires multiplier == SeverityFactor(s)
    requires amount == Trunc(people as real * adjustedRate * multiplier)
    ensures amount == NeededOf(s, people, disasterType, r)
  {
    assert amount == NeedAt(people, adjustedRate, multiplier);
  }

  /** The second loop: `min(needed, available)` per kind and the two running totals. */
  method GrantFromStock(needed: PerKind<int>) returns (granted: PerKind<int>, totalNeeded: int, totalGranted: int)
    ensures granted == Granted(needed)
    ensures totalNeeded == Sum(needed) && totalGranted == Sum(granted)
  {
    granted := Uniform(0);
    totalNeeded := 0;
    totalGranted := 0;
    for k := 0 to |Kinds|
      invariant forall r :: KindIndex(r) < k ==> granted.Get(r) == Min(needed.Get(r), Stock.Get(r))
      invariant totalNeeded == SumUpTo(needed, k)
      invariant totalGranted == SumUpTo(granted, k)
    {
      var r := Kinds[k];
      assert KindIndex(r) == k;
      var amount := Min(needed.Get(r), Stock.Get(r));
      var next := granted.With(r, amount);
      SumUpToIgnoresLater(next, granted, k);
      granted := next;
      totalNeeded := totalNeeded + needed.Get(r);
      totalGranted := totalGranted + amount;
    }
    SumUpToAll(needed);
    SumUpToAll(granted);
    PerKindEquality(granted, Granted(needed));
  }

  /** The sum of the first `k` kinds, in `Kinds` order. */
  function SumUpTo(c: PerKind<int>, k: nat): int
    requires k <= |Kinds|
  {
    if k == 0 then 0 else SumUpTo(c, k - 1) + c.Get(Kinds[k - 1])
  }

  lemma SumUpToAll(c: PerKind<int>)
    ensures SumUpTo(c, |Kinds|) == Sum(c)
  {
    assert SumUpTo(c, 1) == c.food;
    assert SumUpTo(c, 2) == c.food + c.water;
    assert SumUpTo(c, 3) == c.food + c.water + c.medicine;
  }

  lemma {:induction false} SumUpToIgnoresLater(a: PerKind<int>, b: PerKind<int>, k: nat)
    requires k <= |Kinds|
    requires forall r :: KindIndex(r) < k ==> a.Get(r) == b.Get(r)
    ensures SumUpTo(a, k) == SumUpTo(b, k)
  {
    if k > 0 {
      assert KindIndex(Kinds[k - 1]) == k - 1;
      SumUpToIgnoresLater(a, b, k - 1);
    }
  }

  /** The grants for a need vector. */
  function Granted(needed: PerKind<int>): (granted: PerKind<int>)
    ensures forall r :: granted.Get(r) == Min(needed.Get(r), Stock.Get(r))
  {
    PerKind(Min(needed.food, Stock.food), Min(needed.water, Stock.water),
      Min(needed.medicine, Stock.medicine), Min(needed.shelter, Stock.shelter))
  }

  /** Each grant is at most the need and at most the stock; the rate lies in [0, 1]
      and is 1 exactly when every need is met in full. */
  lemma AllocationBounds(needed: PerKind<int>)
    requires AllAtLeast(needed, 0)
    ensures var granted := Granted(needed);
      && AllAtLeast(granted, 0) && AtMost(granted, needed) && AtMost(granted, Stock)
      && 0.0 <= Fulfilment(needed, granted) <= 1.0
      && (Fulfilment(needed, granted) == 1.0 <==> AtMost(needed, Stock))
  {
    var granted := Granted(needed);
    SumBounds(granted, needed);
    if Sum(needed) > 0 {
      var a := Sum(granted) as real;
      var n := Sum(needed) as real;
      FractionAtMostOne(a, n);
      if a / n == 1.0 {
        assert a == n by {
          assert a / n * n == a;
        }
        MetWhenSumsAgree(needed, granted);
      }
      if AtMost(needed, Stock) {
        PerKindEquality(granted, needed);
        assert a / n == 1.0;
      }
    } else {
      forall r ensures needed.Get(r) <= Stock.Get(r) {
        ZeroSumMeansZero(needed, r);
      }
    }
  }

  lemma MetWhenSumsAgree(needed: PerKind<int>, granted: PerKind<int>)
    requires granted == Granted(needed) && Sum(granted) == Sum(needed)
    ensures AtMost(needed, Stock)
  {
    assert granted.Get(Food) <= needed.Get(Food) && granted.Get(Water) <= needed.Get(Water);
    assert granted.Get(Medicine) <= needed.Get(Medicine) && granted.Get(Shelter) <= needed.Get(Shelter);
  }

  lemma ZeroSumMeansZero(c: PerKind<int>, r: Resource)
    requires AllAtLeast(c, 0) && Sum(c) == 0
    ensures c.Get(r) == 0
  {
    assert c.Get(Food) >= 0 && c.Get(Water) >= 0 && c.Get(Medicine) >= 0 && c.Get(Shelter) >= 0;
  }

  /** What a whole call returns satisfies those bounds. */
  lemma ResultWithinBounds(s: Severity, people: nat, disasterType: string, res: AllocationResult)
    requires forall r :: res.needed.Get(r) == NeededOf(s, people, disasterType, r)
    requires forall r :: res.granted.Get(r) == Min(res.needed.Get(r), Stock.Get(r))
    requires res.fulfillmentRate == Fulfilment(res.needed, res.granted)
    ensures 0.0 <= res.fulfillmentRate <= 1.0
    ensures res.fulfillmentRate == 1.0 <==> AtMost(res.needed, Stock)
  {
    PerKindEquality(res.granted, Granted(res.needed));
    forall r ensures res.needed.Get(r) >= 0 {
      NeedIsNonNegative(s, people, disasterType, r);
    }
    AllocationBounds(res.needed);
  }

  /** No minimum of one unit is enforced, and the type row is picked only by an
      exact key: "Flood" gets no flood adjustment. */
  lemma NeedsExamples()
    ensures NeededOf(Low, 1, "flood", Shelter) == 0
    ensures NeededOf(High, 10, "flood", Water) == 18
    ensures NeededOf(High, 10, "Flood", Water) == 12
    ensures NeededOf(Unrecognised("Severe"), 10, "drought", Food) == 6
  {
    assert TypeFactor("flood", Water) == 1.5;
    assert "Flood" !in Adjustments;
    assert TypeFactor("drought", Food) == 1.5;
  }

  /** More people never need less of any kind. */
  lemma NeedGrowsWithPeople(s: Severity, p: nat, q: nat, disasterType: string, r: Resource)
    requires p <= q
    ensures NeededOf(s, p, disasterType, r) <= NeededOf(s, q, disasterType, r)
  {
    TypeFactorAtLeastOne(disasterType, r);
    NeedAtMonotone(p, q, RatePerPerson(r) * TypeFactor(disasterType, r), SeverityFactor(s));
  }

  lemma NeedAtMonotone(p: nat, q: nat, k: real, f: real)
    requires p <= q && k >= 0.0 && f >= 0.0
    ensures NeedAt(p, k, f) <= NeedAt(q, k, f)
  {
    ScaleMonotone(p as real, q as real, k, f);
  }

  lemma ScaleMonotone(x: real, y: real, k: real, f: real)
    requires x <= y && k >= 0.0 && f >= 0.0
    ensures x * k * f <= y * k * f
  {
    ProductNonNegative(y - x, k);
    ProductNonNegative((y - x) * k, f);
    assert y * k * f - x * k * f == (y - x) * k * f;
  }
}
