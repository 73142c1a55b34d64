/** The multi-disaster allocation engine, `ResourceAllocator.allocate_resources`.

    The engine computes each disaster's need and the total need per kind, orders the
    disasters by priority, then walks them with one running pool: a need that fits is
    met in full, otherwise the disaster gets a severity-weighted share of what is left.
    Python raises `KeyError` on an unrecognised severity label and on a pool without one
    of the four kinds; here that is the `Failure` of a `Result`.

    The functions below are the specification; the methods at the end follow the loops
    of the source and are proved equal to them. */
module Allocator {
  import opened Common
  import opened Resources
  import opened DisasterTypes
  import opened NeedEstimator
  import opened Priority

  /** One entry of the `disasters` argument; `location` is optional. */
  datatype Disaster = Disaster(
    severity: Severity,
    peopleAffected: nat,
    disasterType: string,
    location: Option<string>)

  /** The one exception the engine can raise. */
  datatype AllocError = KeyError

  /** `available_resources` and `remaining_resources`. */
  type Pool = map<Resource, int>

  /** The pool has an entry for every kind. */
  predicate Complete(pool: Pool)
  {
    forall r: Resource :: r in pool
  }

  predicate NonNegative(pool: Pool)
  {
    forall r :: r in pool ==> pool[r] >= 0
  }

  /** `self.severity_weights[severity]`; `None` is the `KeyError`. */
  function SeverityWeight(s: Severity): (w: Option<real>)
    ensures w.Some? <==> s.IsKnown()
    ensures w.Some? ==> 0.0 < w.value <= 0.5
  {
    match s
    case High => Some(0.5)
    case Medium => Some(0.3)
    case Low => Some(0.2)
    case Unrecognised(_) => None
  }

  /** `available_resources.get(resource, 0)`. */
  function Available(pool: Pool, r: Resource): int
  {
    if r in pool then pool[r] else 0
  }

  /** `needed / total_needs[resource]`. */
  function Proportion(needed: int, totalNeed: int): real
    requires totalNeed > 0
  {
    needed as real / totalNeed as real
  }

  /** `available * proportion * severity_weight`. */
  function WeightedShare(available: int, proportion: real, weight: real): real
  {
    available as real * proportion * weight
  }

  /** The scarcity branch: `min(int(available * needed / total * weight), available,
      needed)`, or 0 when the total need is not positive. */
  function FairShare(needed: int, available: int, totalNeed: int, weight: real): (a: int)
    ensures a <= needed || totalNeed <= 0
    ensures 0 <= needed && 0 <= available && 0.0 <= weight ==> 0 <= a <= Min(needed, available)
  {
    if totalNeed > 0 then
      var share := WeightedShare(available, Proportion(needed, totalNeed), weight);
      assert 0 <= needed && 0 <= available && 0.0 <= weight ==> share >= 0.0;
      Min(Min(Trunc(share), available), needed)
    else 0
  }

  /** Under scarcity a disaster whose need is part of the total never gets more than
      its severity weight times what is left: High at most half, Low at most a fifth. */
  lemma FairShareWithinWeight(needed: int, available: int, totalNeed: int, weight: real)
    requires 0 <= needed <= totalNeed && totalNeed > 0
    requires 0 <= available && 0.0 <= weight
    ensures FairShare(needed, available, totalNeed, weight) as real <= available as real * weight
  {
    var proportion := needed as real / totalNeed as real;
    FractionAtMostOne(needed as real, totalNeed as real);
    var x := available as real * proportion;
    ProductNonNegative(available as real, 1.0 - proportion);
    ProductNonNegative(available as real - x, weight);
    var y := available as real * proportion * weight;
    assert y <= available as real * weight;
    ProductNonNegative(x, weight);
    assert Trunc(y) as real <= y;
  }

  /** What one disaster gets of one kind. */
  function Grant(needed: int, available: int, totalNeed: int, s: Severity): (g: Result<int, AllocError>)
    ensures g.Success? <==> needed <= available || s.IsKnown()
    ensures needed <= available ==> g == Success(needed)
  {
    if needed <= available then Success(needed)
    else match SeverityWeight(s)
      case None => Failure(KeyError)
      case Some(w) => Success(FairShare(needed, available, totalNeed, w))
  }

  /** A grant never exceeds the need nor, with a non-negative stock, the stock. */
  lemma GrantBounds(needed: int, available: int, totalNeed: int, s: Severity)
    requires Grant(needed, available, totalNeed, s).Success?
    requires 0 <= needed && 0 <= available
    ensures 0 <= Grant(needed, available, totalNeed, s).value <= Min(needed, available)
  {
  }

  /** One entry of `allocations`. */
  datatype Allocation = Allocation(
    disasterIndex: nat,
    severity: Severity,
    peopleAffected: nat,
    disasterType: string,
    location: string,
    needed: PerKind<int>,
    granted: PerKind<int>,
    unmetNeeds: PerKind<int>,
    fulfillmentRate: real)

  /** `_calculate_fulfillment_rate`. */
  function FulfillmentRate(needs: PerKind<int>, granted: PerKind<int>): real
  {
    if Sum(needs) == 0 then 1.0 else Sum(granted) as real / Sum(needs) as real
  }

  /** The rate is a fraction: between 0 and 1 whenever nothing is over-allocated, and
      exactly 1 when every need is met. */
  lemma FulfillmentRateBounds(needs: PerKind<int>, granted: PerKind<int>)
    requires AllAtLeast(granted, 0) && AtMost(granted, needs)
    ensures 0.0 <= FulfillmentRate(needs, granted) <= 1.0
    ensures granted == needs ==> FulfillmentRate(needs, granted) == 1.0
  {
    SumBounds(granted, needs);
  }

  lemma FullRateIsOne(needs: PerKind<int>)
    ensures FulfillmentRate(needs, needs) == 1.0
  {
    if Sum(needs) != 0 {
      var t := Sum(needs) as real;
      assert t / t == 1.0;
    }
  }

  /** The grant of kind `r` for the disaster `info`. */
  function GrantOf(info: DisasterInfo, remaining: Pool, totals: PerKind<int>, r: Resource): Result<int, AllocError>
  {
    Grant(info.needs.Get(r), Available(remaining, r), totals.Get(r), info.severity)
  }

  /** `_allocate_to_single_disaster`. */
  function SingleAllocation(info: DisasterInfo, remaining: Pool, totals: PerKind<int>): Result<Allocation, AllocError>
  {
    var f := GrantOf(info, remaining, totals, Food);
    var w := GrantOf(info, remaining, totals, Water);
    var m := GrantOf(info, remaining, totals, Medicine);
    var s := GrantOf(info, remaining, totals, Shelter);
    if f.Failure? || w.Failure? || m.Failure? || s.Failure? then Failure(KeyError)
    else
      var granted := PerKind(f.value, w.value, m.value, s.value);
      Success(Allocation(info.index, info.severity, info.peopleAffected, info.disasterType,
        info.location, info.needs, granted, Minus(info.needs, granted),
        FulfillmentRate(info.needs, granted)))
  }

  /** One disaster's allocation fails exactly when some kind's grant fails, that is
      when some kind is short and the label is unknown. */
  lemma SingleAllocationSucceeds(info: DisasterInfo, remaining: Pool, totals: PerKind<int>)
    ensures SingleAllocation(info, remaining, totals).Success?
      <==> forall r :: GrantOf(info, remaining, totals, r).Success?
  {
    if !SingleAllocation(info, remaining, totals).Success? {
      assert exists r :: GrantOf(info, remaining, totals, r).Failure?;
    }
  }

  /** A successful allocation copies the disaster's fields, grants each kind by the
      rule, and records the unmet rest and the fulfilment rate. */
  lemma SingleAllocationRecord(info: DisasterInfo, remaining: Pool, totals: PerKind<int>)
    requires SingleAllocation(info, remaining, totals).Success?
    ensures var a := SingleAllocation(info, remaining, totals).value;
      && a.disasterIndex == info.index
      && a.severity == info.severity
      && a.peopleAffected == info.peopleAffected
      && a.disasterType == info.disasterType
      && a.location == info.location
      && a.needed == info.needs
      && (forall r :: a.granted.Get(r) == GrantOf(info, remaining, totals, r).value)
      && a.unmetNeeds == Minus(info.needs, a.granted)
      && a.fulfillmentRate == FulfillmentRate(info.needs, a.granted)
  {
    var f := GrantOf(info, remaining, totals, Food);
    var w := GrantOf(info, remaining, totals, Water);
    var m := GrantOf(info, remaining, totals, Medicine);
    var s := GrantOf(info, remaining, totals, Shelter);
    var granted := PerKind(f.value, w.value, m.value, s.value);
    assert SingleAllocation(info, remaining, totals).value.granted == granted;
    forall r ensures granted.Get(r) == GrantOf(info, remaining, totals, r).value {
      match r
      case Food =>
      case Water =>
      case Medicine =>
      case Shelter =>
    }
  }

  /** `remaining_resources[resource] -= amount` for every kind. */
  function Deducted(remaining: Pool, granted: PerKind<int>): (res: Result<Pool, AllocError>)
    ensures res.Success? <==> Complete(remaining)
  {
    if Complete(remaining) then Success(map r | r in remaining :: remaining[r] - granted.Get(r))
    else Failure(KeyError)
  }

  /** Step 3: the allocations of the walk over `sorted` and the pool left at its end. */
  function Pass(sorted: seq<DisasterInfo>, remaining: Pool, totals: PerKind<int>): Result<(seq<Allocation>, Pool), AllocError>
    decreases |sorted|
  {
    if sorted == [] then Success(([], remaining))
    else match SingleAllocation(sorted[0], remaining, totals)
      case Failure(e) => Failure(e)
      case Success(a) =>
        match Deducted(remaining, a.granted)
        case Failure(e) => Failure(e)
        case Success(rest) => Glue([a], Pass(sorted[1..], rest, totals))
  }

  /** Puts `prefix` in front of the allocations of a successful walk. */
  function Glue(prefix: seq<Allocation>, res: Result<(seq<Allocation>, Pool), AllocError>): Result<(seq<Allocation>, Pool), AllocError>
  {
    match res
    case Failure(e) => Failure(e)
    case Success((allocs, final)) => Success((prefix + allocs, final))
  }

  /** Entry-wise sum of the `granted` vectors: `total_allocated`. */
  function AllocatedTotals(allocs: seq<Allocation>): PerKind<int>
  {
    if allocs == [] then Uniform(0)
    else Plus(AllocatedTotals(allocs[..|allocs| - 1]), allocs[|allocs| - 1].granted)
  }

  /** Entry-wise sum of the `needed` vectors. */
  function NeededTotals(allocs: seq<Allocation>): PerKind<int>
  {
    if allocs == [] then Uniform(0)
    else Plus(NeededTotals(allocs[..|allocs| - 1]), allocs[|allocs| - 1].needed)
  }

  /** The pool after the allocations `allocs` have been taken from it. */
  function Drawn(pool: Pool, allocs: seq<Allocation>): Pool
  {
    map r | r in pool :: pool[r] - AllocatedTotals(allocs).Get(r)
  }

  /** `disaster_info` of the `i`-th disaster. */
  function InfoOf(d: Disaster, i: nat): DisasterInfo
  {
    DisasterInfo(i, d.severity, d.peopleAffected, d.disasterType, d.location.GetOr("Unknown"),
      DisasterNeed(d.peopleAffected, d.severity, d.disasterType),
      PriorityScore(d.severity, d.peopleAffected))
  }

  /** Step 1: `disaster_needs` in input order. */
  function Infos(ds: seq<Disaster>): (infos: seq<DisasterInfo>)
    ensures |infos| == |ds|
    ensures forall i :: 0 <= i < |ds| ==> infos[i] == InfoOf(ds[i], i)
  {
    seq(|ds|, i requires 0 <= i < |ds| => InfoOf(ds[i], i))
  }

  /** Step 1: `total_needs`, the entry-wise sum of the needs. */
  function TotalNeeds(infos: seq<DisasterInfo>): PerKind<int>
  {
    if infos == [] then Uniform(0)
    else Plus(TotalNeeds(infos[..|infos| - 1]), infos[|infos| - 1].needs)
  }

  /** Per-kind `resource_utilization`. */
  function UtilisationOf(pool: Pool, totalAllocated: PerKind<int>, r: Resource): real
  {
    var available := Available(pool, r);
    if available > 0 then (totalAllocated.Get(r) as real / available as real) * 100.0 else 0.0
  }

  function Utilisation(pool: Pool, totalAllocated: PerKind<int>): (u: PerKind<real>)
    ensures forall r :: u.Get(r) == UtilisationOf(pool, totalAllocated, r)
  {
    PerKind(UtilisationOf(pool, totalAllocated, Food), UtilisationOf(pool, totalAllocated, Water),
      UtilisationOf(pool, totalAllocated, Medicine), UtilisationOf(pool, totalAllocated, Shelter))
  }

  /** `severity_stats[s]`: the fulfilment rates of the allocations labelled `s`, in order. */
  function RatesOf(allocs: seq<Allocation>, s: Severity): seq<real>
  {
    if allocs == [] then []
    else
      var last := allocs[|allocs| - 1];
      RatesOf(allocs[..|allocs| - 1], s) + (if last.severity == s then [last.fulfillmentRate] else [])
  }

  function SumReals(xs: seq<real>): real
  {
    if xs == [] then 0.0 else SumReals(xs[..|xs| - 1]) + xs[|xs| - 1]
  }

  /** `np.mean(rates) * 100`, or 0 for an empty band. */
  function AverageFulfilment(rates: seq<real>): real
  {
    if |rates| > 0 then SumReals(rates) / |rates| as real * 100.0 else 0.0
  }

  /** `avg_fulfillment_by_severity`. */
  datatype BySeverity = BySeverity(high: real, medium: real, low: real)

  function FulfilmentBySeverity(allocs: seq<Allocation>): BySeverity
  {
    BySeverity(AverageFulfilment(RatesOf(allocs, High)), AverageFulfilment(RatesOf(allocs, Medium)),
      AverageFulfilment(RatesOf(allocs, Low)))
  }

  function TotalPeople(ds: seq<Disaster>): nat
  {
    if ds == [] then 0 else TotalPeople(ds[..|ds| - 1]) + ds[|ds| - 1].peopleAffected
  }

  predicate AllSeveritiesKnown(allocs: seq<Allocation>)
  {
    forall i :: 0 <= i < |allocs| ==> allocs[i].severity.IsKnown()
  }

  /** `summary_stats`. */
  datatype SummaryStats = SummaryStats(
    totalDisasters: nat,
    totalPeopleAffected: nat,
    resourceUtilization: PerKind<real>,
    avgFulfillmentBySeverity: BySeverity,
    totalAllocated: PerKind<int>,
    remainingResources: Pool,
    totalNeeds: PerKind<int>)

  /** The dictionary `allocate_resources` returns. */
  datatype AllocationReport = AllocationReport(allocations: seq<Allocation>, summaryStats: SummaryStats)

  /** `_prepare_allocation_summary`; `severity_stats[severity]` raises on a label other
      than the three known ones. */
  function Report(ds: seq<Disaster>, allocs: seq<Allocation>, pool: Pool, remaining: Pool, totals: PerKind<int>): Result<AllocationReport, AllocError>
  {
    if !AllSeveritiesKnown(allocs) then Failure(KeyError)
    else
      var totalAllocated := AllocatedTotals(allocs);
      Success(AllocationReport(allocs, SummaryStats(|ds|, TotalPeople(ds),
        Utilisation(pool, totalAllocated), FulfilmentBySeverity(allocs), totalAllocated,
        remaining, totals)))
  }

  /** `allocate_resources(disasters, available_resources)`. */
  function AllocateSpec(ds: seq<Disaster>, pool: Pool): Result<AllocationReport, AllocError>
  {
    var infos := Infos(ds);
    var totals := TotalNeeds(infos);
    match Pass(SortByPriority(infos), pool, totals)
    case Failure(e) => Failure(e)
    case Success((allocs, remaining)) => Report(ds, allocs, pool, remaining, totals)
  }

  // ---------------------------------------------------------------------------------
  // The walk, step by step

  lemma AllocatedTotalsCons(a: Allocation, s: seq<Allocation>)
    ensures AllocatedTotals([a] + s) == Plus(a.granted, AllocatedTotals(s))
    decreases |s|
  {
    if s != [] {
      var t := s[..|s| - 1];
      assert ([a] + s)[..|s|] == [a] + t;
      AllocatedTotalsCons(a, t);
    }
  }

  lemma DrawnEmpty(pool: Pool)
    ensures Drawn(pool, []) == pool
  {
  }

  /** Taking `a` and then the allocations `s` leaves what taking `[a] + s` leaves. */
  lemma DrawnStep(pool: Pool, a: Allocation, s: seq<Allocation>)
    requires Complete(pool)
    ensures Drawn(Deducted(pool, a.granted).value, s) == Drawn(pool, [a] + s)
  {
    AllocatedTotalsCons(a, s);
    var rest := Deducted(pool, a.granted).value;
    var later := AllocatedTotals(s);
    var both := AllocatedTotals([a] + s);
    assert rest.Keys == pool.Keys;
    forall r | r in pool ensures Drawn(rest, s)[r] == Drawn(pool, [a] + s)[r] {
      assert rest[r] == pool[r] - a.granted.Get(r);
      assert both.Get(r) == a.granted.Get(r) + later.Get(r);
    }
  }

  /** The allocations `allocs` and final pool `final` are a walk over `sorted` from
      `remaining`: each allocation is the single-disaster allocation against the pool left
      by the allocations before it, and the walk ends with the pool less every
      allocation. */
  predicate WalkOf(sorted: seq<DisasterInfo>, remaining: Pool, totals: PerKind<int>, allocs: seq<Allocation>, final: Pool)
  {
    && |allocs| == |sorted|
    && final == Drawn(remaining, allocs)
    && forall i :: 0 <= i < |sorted| ==>
         SingleAllocation(sorted[i], Drawn(remaining, allocs[..i]), totals) == Success(allocs[i])
  }

  /** One step of a successful walk. */
  lemma PassUnfolds(sorted: seq<DisasterInfo>, remaining: Pool, totals: PerKind<int>)
    requires sorted != [] && Pass(sorted, remaining, totals).Success?
    ensures SingleAllocation(sorted[0], remaining, totals).Success?
    ensures Complete(remaining)
    ensures var a := SingleAllocation(sorted[0], remaining, totals).value;
      var rest := Deducted(remaining, a.granted).value;
      && Pass(sorted[1..], rest, totals).Success?
      && Pass(sorted, remaining, totals).value
           == ([a] + Pass(sorted[1..], rest, totals).value.0, Pass(sorted[1..], rest, totals).value.1)
  {
  }

  /** A step in front of a walk is a walk. */
  lemma WalkPrepend(sorted: seq<DisasterInfo>, remaining: Pool, totals: PerKind<int>,
                    a: Allocation, tail: seq<Allocation>, final: Pool)
    requires sorted != [] && Complete(remaining)
    requires SingleAllocation(sorted[0], remaining, totals) == Success(a)
    requires WalkOf(sorted[1..], Deducted(remaining, a.granted).value, totals, tail, final)
    ensures WalkOf(sorted, remaining, totals, [a] + tail, final)
  {
    var allocs := [a] + tail;
    DrawnStep(remaining, a, tail);
    forall i | 0 <= i < |sorted|
      ensures SingleAllocation(sorted[i], Drawn(remaining, allocs[..i]), totals) == Success(allocs[i])
    {
      if i == 0 {
        DrawnEmpty(remaining);
      } else {
        LaterStepPrepended(sorted, remaining, totals, a, tail, i);
      }
    }
  }

  /** The `i`-th step of the walk after `a` is the `i`-th step with `a` in front. */
  lemma LaterStepPrepended(sorted: seq<DisasterInfo>, remaining: Pool, totals: PerKind<int>,
                           a: Allocation, tail: seq<Allocation>, i: nat)
    requires Complete(remaining) && 0 < i < |sorted| && i - 1 < |tail|
    requires SingleAllocation(sorted[1..][i - 1], Drawn(Deducted(remaining, a.granted).value, tail[..i - 1]), totals)
      == Success(tail[i - 1])
    ensures SingleAllocation(sorted[i], Drawn(remaining, ([a] + tail)[..i]), totals) == Success(([a] + tail)[i])
  {
    assert ([a] + tail)[..i] == [a] + tail[..i - 1];
    DrawnStep(remaining, a, tail[..i - 1]);
    assert sorted[1..][i - 1] == sorted[i];
  }

  /** A successful walk is a `WalkOf` its input. */
  lemma {:induction false} PassSteps(sorted: seq<DisasterInfo>, remaining: Pool, totals: PerKind<int>)
    requires Pass(sorted, remaining, totals).Success?
    ensures sorted != [] ==> Complete(remaining)
    ensures WalkOf(sorted, remaining, totals, Pass(sorted, remaining, totals).value.0, Pass(sorted, remaining, totals).value.1)
    decreases |sorted|
  {
    if sorted == [] {
      DrawnEmpty(remaining);
    } else {
      PassUnfolds(sorted, remaining, totals);
      var a := SingleAllocation(sorted[0], remaining, totals).value;
      var rest := Deducted(remaining, a.granted).value;
      PassSteps(sorted[1..], rest, totals);
      WalkPrepend(sorted, remaining, totals, a, Pass(sorted[1..], rest, totals).value.0, Pass(sorted[1..], rest, totals).value.1);
    }
  }

  /** With every kind in the pool and every label known, the walk cannot fail. */
  lemma {:induction false} PassSucceeds(sorted: seq<DisasterInfo>, remaining: Pool, totals: PerKind<int>)
    requires Complete(remaining)
    requires forall i :: 0 <= i < |sorted| ==> sorted[i].severity.IsKnown()
    ensures Pass(sorted, remaining, totals).Success?
    decreases |sorted|
  {
    if sorted != [] {
      SingleAllocationSucceeds(sorted[0], remaining, totals);
      var a := SingleAllocation(sorted[0], remaining, totals).value;
      var rest := Deducted(remaining, a.granted).value;
      assert Complete(rest);
      PassSucceeds(sorted[1..], rest, totals);
    }
  }

  /** A walk over at least one disaster with a kind missing from the pool fails. */
  lemma PassFailsOnIncompletePool(sorted: seq<DisasterInfo>, remaining: Pool, totals: PerKind<int>)
    requires sorted != [] && !Complete(remaining)
    ensures Pass(sorted, remaining, totals).Failure?
  {
  }

  /** What is left of kind `r` when the `i`-th allocation is made. */
  function StockBefore(pool: Pool, allocs: seq<Allocation>, i: nat, r: Resource): int
    requires i <= |allocs|
  {
    Available(pool, r) - AllocatedTotals(allocs[..i]).Get(r)
  }

  /** Every grant of `allocs` is the rule applied to the stock left by the earlier ones. */
  predicate Walked(pool: Pool, allocs: seq<Allocation>, totals: PerKind<int>)
  {
    forall i, r :: 0 <= i < |allocs| ==>
      Grant(allocs[i].needed.Get(r), StockBefore(pool, allocs, i, r), totals.Get(r), allocs[i].severity)
        == Success(allocs[i].granted.Get(r))
  }

  /** The order of the walk: higher priority first, equal priorities in input order. */
  predicate ServedBefore(a: Allocation, b: Allocation)
  {
    var ka := PriorityScore(a.severity, a.peopleAffected);
    var kb := PriorityScore(b.severity, b.peopleAffected);
    Outranks(ka, kb) || (ka == kb && a.disasterIndex < b.disasterIndex)
  }

  /** The allocation carries the fields and the need of the input disaster `d`. */
  predicate Describes(a: Allocation, d: Disaster)
  {
    && a.severity == d.severity
    && a.peopleAffected == d.peopleAffected
    && a.disasterType == d.disasterType
    && a.location == d.location.GetOr("Unknown")
    && a.needed == DisasterNeed(d.peopleAffected, d.severity, d.disasterType)
  }

  lemma SortedComesFromInput(ds: seq<Disaster>, j: int)
    requires 0 <= j < |ds|
    ensures exists k :: 0 <= k < |ds| && SortByPriority(Infos(ds))[j] == InfoOf(ds[k], k)
  {
    var infos := Infos(ds);
    var sorted := SortByPriority(infos);
    assert sorted[j] in multiset(infos);
    var k :| 0 <= k < |infos| && infos[k] == sorted[j];
    assert infos[k] == InfoOf(ds[k], k);
  }

  lemma IndexIsSorted(ds: seq<Disaster>, k: int)
    requires 0 <= k < |ds|
    ensures exists j :: 0 <= j < |ds| && SortByPriority(Infos(ds))[j].index == k
  {
    InputIsSorted(ds, k);
  }

  lemma InputIsSorted(ds: seq<Disaster>, k: int)
    requires 0 <= k < |ds|
    ensures exists j :: 0 <= j < |ds| && SortByPriority(Infos(ds))[j] == InfoOf(ds[k], k)
  {
    var infos := Infos(ds);
    var sorted := SortByPriority(infos);
    assert infos[k] in multiset(sorted);
  }

  /** `a` is the allocation record of `info`. */
  predicate Copies(a: Allocation, info: DisasterInfo)
  {
    && a.disasterIndex == info.index
    && a.severity == info.severity
    && a.peopleAffected == info.peopleAffected
    && a.disasterType == info.disasterType
    && a.location == info.location
    && a.needed == info.needs
  }

  /** The grants of a walk follow the rule against the stock left before each one. */
  lemma WalkFacts(sorted: seq<DisasterInfo>, remaining: Pool, totals: PerKind<int>, allocs: seq<Allocation>, final: Pool)
    requires WalkOf(sorted, remaining, totals, allocs, final)
    requires sorted != [] ==> Complete(remaining)
    ensures Walked(remaining, allocs, totals)
    ensures forall i :: 0 <= i < |allocs| ==>
      && Copies(allocs[i], sorted[i])
      && allocs[i].unmetNeeds == Minus(allocs[i].needed, allocs[i].granted)
      && allocs[i].fulfillmentRate == FulfillmentRate(allocs[i].needed, allocs[i].granted)
  {
    forall i | 0 <= i < |allocs|
      ensures forall r :: Grant(allocs[i].needed.Get(r), StockBefore(remaining, allocs, i, r), totals.Get(r), allocs[i].severity)
                            == Success(allocs[i].granted.Get(r))
      ensures Copies(allocs[i], sorted[i])
      ensures allocs[i].unmetNeeds == Minus(allocs[i].needed, allocs[i].granted)
      ensures allocs[i].fulfillmentRate == FulfillmentRate(allocs[i].needed, allocs[i].granted)
    {
      var before := Drawn(remaining, allocs[..i]);
      AllocationFollowsRule(sorted[i], before, totals, allocs[i]);
      forall r ensures Available(before, r) == StockBefore(remaining, allocs, i, r) {
      }
    }
  }

  /** The allocation of one disaster against `before` copies the record and grants by
      the rule against that pool. */
  lemma AllocationFollowsRule(info: DisasterInfo, before: Pool, totals: PerKind<int>, a: Allocation)
    requires SingleAllocation(info, before, totals) == Success(a)
    ensures Copies(a, info)
    ensures forall r :: Grant(a.needed.Get(r), Available(before, r), totals.Get(r), a.severity) == Success(a.granted.Get(r))
    ensures a.unmetNeeds == Minus(a.needed, a.granted)
    ensures a.fulfillmentRate == FulfillmentRate(a.needed, a.granted)
  {
    SingleAllocationSucceeds(info, before, totals);
    SingleAllocationRecord(info, before, totals);
  }

  lemma TotalNeedsCons(x: DisasterInfo, s: seq<DisasterInfo>)
    ensures TotalNeeds([x] + s) == Plus(x.needs, TotalNeeds(s))
    decreases |s|
  {
    if s != [] {
      var t := s[..|s| - 1];
      assert ([x] + s)[..|s|] == [x] + t;
      TotalNeedsCons(x, t);
    }
  }

  lemma {:induction false} TotalNeedsInsert(x: DisasterInfo, s: seq<DisasterInfo>)
    ensures TotalNeeds(Insert(x, s)) == Plus(x.needs, TotalNeeds(s))
    decreases |s|
  {
    if s == [] || ComesBefore(x, s[0]) {
      TotalNeedsCons(x, s);
    } else {
      var rest := Insert(x, s[1..]);
      assert Insert(x, s) == [s[0]] + rest;
      TotalNeedsInsert(x, s[1..]);
      TotalNeedsCons(s[0], rest);
      TotalNeedsCons(s[0], s[1..]);
      assert [s[0]] + s[1..] == s;
      var a, b, c := s[0].needs, x.needs, TotalNeeds(s[1..]);
      assert Plus(a, Plus(b, c)) == Plus(b, Plus(a, c));
    }
  }

  /** Sorting does not change the total need. */
  lemma {:induction false} TotalNeedsSort(s: seq<DisasterInfo>)
    ensures TotalNeeds(SortByPriority(s)) == TotalNeeds(s)
    decreases |s|
  {
    if s != [] {
      TotalNeedsSort(s[1..]);
      TotalNeedsInsert(s[0], SortByPriority(s[1..]));
      TotalNeedsCons(s[0], s[1..]);
      assert [s[0]] + s[1..] == s;
    }
  }

  lemma {:induction false} TotalsMatch(sorted: seq<DisasterInfo>, allocs: seq<Allocation>)
    requires |sorted| == |allocs|
    requires forall i :: 0 <= i < |allocs| ==> allocs[i].needed == sorted[i].needs
    ensures NeededTotals(allocs) == TotalNeeds(sorted)
    decreases |allocs|
  {
    if allocs != [] {
      TotalsMatch(sorted[..|sorted| - 1], allocs[..|allocs| - 1]);
    }
  }

  // ---------------------------------------------------------------------------------
  // Properties of `allocate_resources`

  /** Things derived per allocation: the unmet need and the fulfilment rate. */
  predicate Derived(allocs: seq<Allocation>)
  {
    forall i :: 0 <= i < |allocs| ==>
      && allocs[i].unmetNeeds == Minus(allocs[i].needed, allocs[i].granted)
      && allocs[i].fulfillmentRate == FulfillmentRate(allocs[i].needed, allocs[i].granted)
  }

  /** A successful run walks the disasters in sorted order: each grant is the fast path
      or the fair share against the stock the earlier grants left, the unmet need and
      the fulfilment rate are derived from the grant, `total_needs` is the sum of all
      needs, `total_allocated` the sum of all grants, and the remaining pool is the
      caller's pool less every grant. */
  lemma AllocationSteps(ds: seq<Disaster>, pool: Pool)
    requires AllocateSpec(ds, pool).Success?
    ensures var rep := AllocateSpec(ds, pool).value;
      var allocs := rep.allocations;
      && |allocs| == |ds|
      && (ds != [] ==> Complete(pool))
      && AllSeveritiesKnown(allocs)
      && Walked(pool, allocs, rep.summaryStats.totalNeeds)
      && rep.summaryStats.totalNeeds == TotalNeeds(Infos(ds))
      && rep.summaryStats.totalNeeds == NeededTotals(allocs)
      && rep.summaryStats.totalAllocated == AllocatedTotals(allocs)
      && rep.summaryStats.remainingResources == Drawn(pool, allocs)
      && Derived(allocs)
  {
    var infos := Infos(ds);
    var totals := TotalNeeds(infos);
    var sorted := SortByPriority(infos);
    PassSteps(sorted, pool, totals);
    var (allocs, remaining) := Pass(sorted, pool, totals).value;
    WalkFacts(sorted, pool, totals, allocs, remaining);
    TotalNeedsSort(infos);
    TotalsMatch(sorted, allocs);
  }

  /** The allocations of a successful run copy the sorted disaster records. */
  lemma AllocationsCopySorted(ds: seq<Disaster>, pool: Pool)
    requires AllocateSpec(ds, pool).Success?
    ensures var allocs := AllocateSpec(ds, pool).value.allocations;
      var sorted := SortByPriority(Infos(ds));
      && |allocs| == |sorted|
      && forall i :: 0 <= i < |allocs| ==> Copies(allocs[i], sorted[i])
  {
    var infos := Infos(ds);
    var totals := TotalNeeds(infos);
    var sorted := SortByPriority(infos);
    PassSteps(sorted, pool, totals);
    var (allocs, remaining) := Pass(sorted, pool, totals).value;
    WalkFacts(sorted, pool, totals, allocs, remaining);
  }

  /** Every allocation describes the input disaster at its `disaster_index`. */
  lemma AllocationsDescribeInputs(ds: seq<Disaster>, pool: Pool)
    requires AllocateSpec(ds, pool).Success?
    ensures var allocs := AllocateSpec(ds, pool).value.allocations;
      && |allocs| == |ds|
      && forall i :: 0 <= i < |allocs| ==>
           allocs[i].disasterIndex < |ds| && Describes(allocs[i], ds[allocs[i].disasterIndex])
  {
    AllocationsCopySorted(ds, pool);
    var allocs := AllocateSpec(ds, pool).value.allocations;
    forall i | 0 <= i < |allocs|
      ensures allocs[i].disasterIndex < |ds| && Describes(allocs[i], ds[allocs[i].disasterIndex])
    {
      SortedComesFromInput(ds, i);
    }
  }

  /** The allocations come in priority order: a higher severity rank first, then the
      larger population, ties in input order; no disaster is served twice. */
  lemma AllocationsInPriorityOrder(ds: seq<Disaster>, pool: Pool)
    requires AllocateSpec(ds, pool).Success?
    ensures var allocs := AllocateSpec(ds, pool).value.allocations;
      forall i, j :: 0 <= i < j < |allocs| ==>
        allocs[i].disasterIndex != allocs[j].disasterIndex && ServedBefore(allocs[i], allocs[j])
  {
    var infos := Infos(ds);
    assert DistinctIndices(infos);
    SortIsSorted(infos);
    SortedRecordsKeyed(ds);
    AllocationsCopySorted(ds, pool);
    CopiesKeepOrder(SortByPriority(infos), AllocateSpec(ds, pool).value.allocations);
  }

  /** Each record's priority is the score of its own label and population. */
  predicate Keyed(s: seq<DisasterInfo>)
  {
    forall i :: 0 <= i < |s| ==> s[i].priority == PriorityScore(s[i].severity, s[i].peopleAffected)
  }

  /** No two different records share an input index. */
  predicate IndexDetermines(s: seq<DisasterInfo>)
  {
    forall i, j :: 0 <= i < |s| && 0 <= j < |s| && s[i].index == s[j].index ==> s[i] == s[j]
  }

  lemma SortedRecordsKeyed(ds: seq<Disaster>)
    ensures Keyed(SortByPriority(Infos(ds))) && IndexDetermines(SortByPriority(Infos(ds)))
  {
    var sorted := SortByPriority(Infos(ds));
    forall i | 0 <= i < |sorted|
      ensures sorted[i].index < |ds| && sorted[i] == InfoOf(ds[sorted[i].index], sorted[i].index)
      ensures sorted[i].priority == PriorityScore(sorted[i].severity, sorted[i].peopleAffected)
    {
      SortedAt(ds, i);
    }
  }

  lemma SortedAt(ds: seq<Disaster>, j: nat)
    requires j < |ds|
    ensures var x := SortByPriority(Infos(ds))[j];
      && x.index < |ds| && x == InfoOf(ds[x.index], x.index)
      && x.priority == PriorityScore(x.severity, x.peopleAffected)
  {
    SortedComesFromInput(ds, j);
  }

  /** Allocations copying a sorted, keyed list of records are served in priority order. */
  lemma CopiesKeepOrder(sorted: seq<DisasterInfo>, allocs: seq<Allocation>)
    requires |allocs| == |sorted|
    requires forall i :: 0 <= i < |allocs| ==> Copies(allocs[i], sorted[i])
    requires SortedByPriority(sorted) && Keyed(sorted) && IndexDetermines(sorted)
    ensures forall i, j :: 0 <= i < j < |allocs| ==>
      allocs[i].disasterIndex != allocs[j].disasterIndex && ServedBefore(allocs[i], allocs[j])
  {
    forall i, j | 0 <= i < j < |allocs|
      ensures allocs[i].disasterIndex != allocs[j].disasterIndex && ServedBefore(allocs[i], allocs[j])
    {
      assert ComesBefore(sorted[i], sorted[j]);
    }
  }


  /** Some allocation of `allocs` is for the `k`-th input disaster. */
  predicate Served(allocs: seq<Allocation>, k: nat)
  {
    exists i :: 0 <= i < |allocs| && allocs[i].disasterIndex == k
  }

  /** Every input disaster gets an allocation. */
  lemma EveryDisasterServed(ds: seq<Disaster>, pool: Pool)
    requires AllocateSpec(ds, pool).Success?
    ensures forall k :: 0 <= k < |ds| ==> Served(AllocateSpec(ds, pool).value.allocations, k)
  {
    AllocationsCopySorted(ds, pool);
    SortedIndices(ds);
    CopiesServe(SortByPriority(Infos(ds)), AllocateSpec(ds, pool).value.allocations, |ds|);
  }

  /** Some record of `sorted` carries the input index `k`. */
  predicate Carries(sorted: seq<DisasterInfo>, k: nat)
  {
    exists j :: 0 <= j < |sorted| && sorted[j].index == k
  }

  lemma SortedIndices(ds: seq<Disaster>)
    ensures forall k :: 0 <= k < |ds| ==> Carries(SortByPriority(Infos(ds)), k)
  {
    forall k | 0 <= k < |ds| ensures Carries(SortByPriority(Infos(ds)), k) {
      IndexIsSorted(ds, k);
    }
  }

  /** Allocations copying records that carry every index below `n` serve every one. */
  lemma CopiesServe(sorted: seq<DisasterInfo>, allocs: seq<Allocation>, n: nat)
    requires |allocs| == |sorted|
    requires forall i :: 0 <= i < |allocs| ==> Copies(allocs[i], sorted[i])
    requires forall k :: 0 <= k < n ==> Carries(sorted, k)
    ensures forall k :: 0 <= k < n ==> Served(allocs, k)
  {
    forall k | 0 <= k < n ensures Served(allocs, k) {
      assert Carries(sorted, k);
      var j :| 0 <= j < |sorted| && sorted[j].index == k;
      assert allocs[j].disasterIndex == k;
    }
  }

  /** With every kind in the pool and every label known, the run succeeds. */
  /** The allocations of a successful run are those of the walk over the sorted records. */
  lemma AllocationsOfWalk(ds: seq<Disaster>, pool: Pool)
    requires AllocateSpec(ds, pool).Success?
    ensures Pass(SortByPriority(Infos(ds)), pool, TotalNeeds(Infos(ds))).Success?
    ensures AllocateSpec(ds, pool).value.allocations
      == Pass(SortByPriority(Infos(ds)), pool, TotalNeeds(Infos(ds))).value.0
  {
  }

  lemma AllocationSucceedsWhenWellFormed(ds: seq<Disaster>, pool: Pool)
    requires ds == [] || Complete(pool)
    requires forall i :: 0 <= i < |ds| ==> ds[i].severity.IsKnown()
    ensures AllocateSpec(ds, pool).Success?
  {
    var infos := Infos(ds);
    var totals := TotalNeeds(infos);
    var sorted := SortByPriority(infos);
    forall j | 0 <= j < |sorted| ensures sorted[j].severity.IsKnown() {
      SortedComesFromInput(ds, j);
    }
    if ds != [] {
      PassSucceeds(sorted, pool, totals);
    }
    PassSteps(sorted, pool, totals);
    var (allocs, remaining) := Pass(sorted, pool, totals).value;
    WalkFacts(sorted, pool, totals, allocs, remaining);
    assert AllSeveritiesKnown(allocs);
  }

  lemma SuccessMeansKnownLabels(ds: seq<Disaster>, pool: Pool)
    requires AllocateSpec(ds, pool).Success?
    ensures AllSeveritiesKnown(AllocateSpec(ds, pool).value.allocations)
  {
  }

  /** A successful run saw only known labels.  Contrapositively, an unrecognised
      label anywhere in the input makes the run raise, even when every need fits: the
      summary looks every label up. */
  lemma SuccessMeansKnownInputs(ds: seq<Disaster>, pool: Pool)
    requires AllocateSpec(ds, pool).Success?
    ensures forall k :: 0 <= k < |ds| ==> ds[k].severity.IsKnown()
  {
    SuccessMeansKnownLabels(ds, pool);
    AllocationsDescribeInputs(ds, pool);
    EveryDisasterServed(ds, pool);
    var allocs := AllocateSpec(ds, pool).value.allocations;
    forall k | 0 <= k < |ds| ensures ds[k].severity.IsKnown() {
      assert Served(allocs, k);
      var i :| 0 <= i < |allocs| && allocs[i].disasterIndex == k;
      assert allocs[i].severity.IsKnown();
    }
  }

  /** At least one disaster and a pool missing one of the four kinds make the run
      raise. */
  lemma AllocationFailsOnIncompletePool(ds: seq<Disaster>, pool: Pool)
    requires ds != [] && !Complete(pool)
    ensures AllocateSpec(ds, pool).Failure?
  {
    var infos := Infos(ds);
    PassFailsOnIncompletePool(SortByPriority(infos), pool, TotalNeeds(infos));
  }

  /** `allocate_resources` raises exactly when the list is non-empty and either the
      pool lacks a kind or some label is not High, Medium or Low. */
  lemma AllocationFailsExactly(ds: seq<Disaster>, pool: Pool)
    ensures AllocateSpec(ds, pool).Failure? <==>
      ds != [] && (!Complete(pool) || exists k :: 0 <= k < |ds| && !ds[k].severity.IsKnown())
  {
    if AllocateSpec(ds, pool).Success? {
      SuccessMeansKnownInputs(ds, pool);
    }
    if k :| 0 <= k < |ds| && !ds[k].severity.IsKnown() {
    } else if ds != [] && !Complete(pool) {
      AllocationFailsOnIncompletePool(ds, pool);
    } else {
      AllocationSucceedsWhenWellFormed(ds, pool);
    }
  }

  // ---------------------------------------------------------------------------------
  // Conservation and bounds

  /** The stock before allocation `n`, less that allocation's grant, is the stock after it. */
  lemma StockStep(pool: Pool, allocs: seq<Allocation>, n: nat, r: Resource)
    requires n < |allocs|
    ensures StockBefore(pool, allocs, n + 1, r) == StockBefore(pool, allocs, n, r) - allocs[n].granted.Get(r)
  {
    assert allocs[..n + 1][..n] == allocs[..n];
  }

  predicate NeedsNonNegative(allocs: seq<Allocation>)
  {
    forall i :: 0 <= i < |allocs| ==> AllAtLeast(allocs[i].needed, 0)
  }

  /** With a non-negative pool the running stock never goes below zero. */
  lemma {:induction false} StockNeverNegative(pool: Pool, allocs: seq<Allocation>, totals: PerKind<int>, n: nat)
    requires Walked(pool, allocs, totals) && NonNegative(pool) && NeedsNonNegative(allocs)
    requires n <= |allocs|
    ensures forall r :: StockBefore(pool, allocs, n, r) >= 0
    decreases n
  {
    if n > 0 {
      StockNeverNegative(pool, allocs, totals, n - 1);
      forall r ensures StockBefore(pool, allocs, n, r) >= 0 {
        var a := allocs[n - 1];
        GrantBounds(a.needed.Get(r), StockBefore(pool, allocs, n - 1, r), totals.Get(r), a.severity);
        StockStep(pool, allocs, n - 1, r);
      }
    }
  }

  lemma {:induction false} AllocatedTotalsNonNegative(allocs: seq<Allocation>)
    requires forall i :: 0 <= i < |allocs| ==> AllAtLeast(allocs[i].granted, 0)
    ensures AllAtLeast(AllocatedTotals(allocs), 0)
    decreases |allocs|
  {
    if allocs != [] {
      AllocatedTotalsNonNegative(allocs[..|allocs| - 1]);
    }
  }

  lemma SuccessfulNeedsNonNegative(ds: seq<Disaster>, pool: Pool)
    requires AllocateSpec(ds, pool).Success?
    ensures NeedsNonNegative(AllocateSpec(ds, pool).value.allocations)
  {
    AllocationsDescribeInputs(ds, pool);
  }

  /** With a non-negative pool nothing is over-allocated: every grant lies between 0
      and both the need and the stock left when it is made, and every unmet need is
      non-negative. */
  lemma NoOverAllocation(ds: seq<Disaster>, pool: Pool)
    requires AllocateSpec(ds, pool).Success? && NonNegative(pool)
    ensures var allocs := AllocateSpec(ds, pool).value.allocations;
      forall i, r :: 0 <= i < |allocs| ==>
        && 0 <= allocs[i].granted.Get(r) <= Min(allocs[i].needed.Get(r), StockBefore(pool, allocs, i, r))
        && allocs[i].unmetNeeds.Get(r) >= 0
  {
    AllocationSteps(ds, pool);
    SuccessfulNeedsNonNegative(ds, pool);
    var rep := AllocateSpec(ds, pool).value;
    WalkWithinStock(pool, rep.allocations, rep.summaryStats.totalNeeds);
  }

  /** A run over a non-negative pool leaves no kind below zero. */
  lemma RemainingNeverNegative(ds: seq<Disaster>, pool: Pool)
    requires AllocateSpec(ds, pool).Success? && NonNegative(pool)
    ensures var rest := AllocateSpec(ds, pool).value.summaryStats.remainingResources;
      forall r :: r in rest ==> rest[r] >= 0
  {
    AllocationSteps(ds, pool);
    SuccessfulNeedsNonNegative(ds, pool);
    var rep := AllocateSpec(ds, pool).value;
    WalkWithinStock(pool, rep.allocations, rep.summaryStats.totalNeeds);
  }

  /** A run over a non-negative pool hands out, per kind, no more than the pool held. */
  lemma AllocatedWithinPool(ds: seq<Disaster>, pool: Pool)
    requires AllocateSpec(ds, pool).Success? && NonNegative(pool)
    ensures var total := AllocateSpec(ds, pool).value.summaryStats.totalAllocated;
      forall r :: 0 <= total.Get(r) <= Available(pool, r)
  {
    AllocationSteps(ds, pool);
    SuccessfulNeedsNonNegative(ds, pool);
    var rep := AllocateSpec(ds, pool).value;
    WalkWithinStock(pool, rep.allocations, rep.summaryStats.totalNeeds);
  }

  /** Every grant of a walk over a non-negative pool lies between 0 and both the need
      and the stock left, and the walk never draws a kind below zero. */
  lemma WalkWithinStock(pool: Pool, allocs: seq<Allocation>, totals: PerKind<int>)
    requires Walked(pool, allocs, totals) && NonNegative(pool) && NeedsNonNegative(allocs) && Derived(allocs)
    ensures forall i, r :: 0 <= i < |allocs| ==>
      && 0 <= allocs[i].granted.Get(r) <= Min(allocs[i].needed.Get(r), StockBefore(pool, allocs, i, r))
      && allocs[i].unmetNeeds.Get(r) >= 0
    ensures forall r :: r in Drawn(pool, allocs) ==> Drawn(pool, allocs)[r] >= 0
    ensures forall r :: 0 <= AllocatedTotals(allocs).Get(r) <= Available(pool, r)
  {
    forall i, r | 0 <= i < |allocs|
      ensures 0 <= allocs[i].granted.Get(r) <= Min(allocs[i].needed.Get(r), StockBefore(pool, allocs, i, r))
      ensures allocs[i].unmetNeeds.Get(r) >= 0
    {
      GrantWithinStock(pool, allocs, totals, i, r);
    }
    StockNeverNegative(pool, allocs, totals, |allocs|);
    assert allocs[..|allocs|] == allocs;
    AllocatedTotalsNonNegative(allocs);
    forall r | r in Drawn(pool, allocs) ensures Drawn(pool, allocs)[r] >= 0 {
      assert StockBefore(pool, allocs, |allocs|, r) >= 0;
    }
  }

  lemma GrantWithinStock(pool: Pool, allocs: seq<Allocation>, totals: PerKind<int>, i: nat, r: Resource)
    requires Walked(pool, allocs, totals) && NonNegative(pool) && NeedsNonNegative(allocs) && Derived(allocs)
    requires i < |allocs|
    ensures 0 <= allocs[i].granted.Get(r) <= Min(allocs[i].needed.Get(r), StockBefore(pool, allocs, i, r))
    ensures allocs[i].unmetNeeds.Get(r) >= 0
  {
    StockNeverNegative(pool, allocs, totals, i);
    GrantBounds(allocs[i].needed.Get(r), StockBefore(pool, allocs, i, r), totals.Get(r), allocs[i].severity);
  }

  /** A need that fits the stock left when the disaster's turn comes is met in full;
      one that does not gets the severity-weighted fair share of that stock. */
  lemma FastPathOrFairShare(pool: Pool, allocs: seq<Allocation>, totals: PerKind<int>, i: nat, r: Resource)
    requires Walked(pool, allocs, totals) && Derived(allocs) && i < |allocs|
    ensures var a := allocs[i];
      var stock := StockBefore(pool, allocs, i, r);
      && (a.needed.Get(r) <= stock ==> a.granted.Get(r) == a.needed.Get(r) && a.unmetNeeds.Get(r) == 0)
      && (a.needed.Get(r) > stock ==>
            a.severity.IsKnown()
            && a.granted.Get(r) == FairShare(a.needed.Get(r), stock, totals.Get(r), SeverityWeight(a.severity).value)
            && a.unmetNeeds.Get(r) == a.needed.Get(r) - a.granted.Get(r))
  {
    assert Grant(allocs[i].needed.Get(r), StockBefore(pool, allocs, i, r), totals.Get(r), allocs[i].severity)
      == Success(allocs[i].granted.Get(r));
  }

  lemma UtilisationBounds(pool: Pool, totalAllocated: PerKind<int>, r: Resource)
    requires 0 <= totalAllocated.Get(r) <= Available(pool, r)
    ensures 0.0 <= UtilisationOf(pool, totalAllocated, r) <= 100.0
  {
    if Available(pool, r) > 0 {
      FractionAtMostOne(totalAllocated.Get(r) as real, Available(pool, r) as real);
    }
  }

  lemma {:induction false} SumRealsBounds(xs: seq<real>)
    requires forall k :: 0 <= k < |xs| ==> 0.0 <= xs[k] <= 1.0
    ensures 0.0 <= SumReals(xs) <= |xs| as real
    decreases |xs|
  {
    if xs != [] {
      SumRealsBounds(xs[..|xs| - 1]);
    }
  }

  lemma AverageBounds(rates: seq<real>)
    requires forall k :: 0 <= k < |rates| ==> 0.0 <= rates[k] <= 1.0
    ensures 0.0 <= AverageFulfilment(rates) <= 100.0
  {
    if |rates| > 0 {
      SumRealsBounds(rates);
      FractionAtMostOne(SumReals(rates), |rates| as real);
    }
  }

  predicate RatesAreFractions(allocs: seq<Allocation>)
  {
    forall i :: 0 <= i < |allocs| ==> 0.0 <= allocs[i].fulfillmentRate <= 1.0
  }

  lemma {:induction false} RatesOfBounds(allocs: seq<Allocation>, s: Severity)
    requires RatesAreFractions(allocs)
    ensures forall k :: 0 <= k < |RatesOf(allocs, s)| ==> 0.0 <= RatesOf(allocs, s)[k] <= 1.0
    decreases |allocs|
  {
    if allocs != [] {
      RatesOfBounds(allocs[..|allocs| - 1], s);
    }
  }

  /** The summary figures of a successful run are computed from its allocations. */
  lemma SummaryOfRun(ds: seq<Disaster>, pool: Pool)
    requires AllocateSpec(ds, pool).Success?
    ensures var rep := AllocateSpec(ds, pool).value;
      && rep.summaryStats.totalDisasters == |ds|
      && rep.summaryStats.totalPeopleAffected == TotalPeople(ds)
      && rep.summaryStats.resourceUtilization == Utilisation(pool, rep.summaryStats.totalAllocated)
      && rep.summaryStats.avgFulfillmentBySeverity == FulfilmentBySeverity(rep.allocations)
  {
  }

  /** With a non-negative pool every fulfilment rate is a fraction in [0, 1]. */
  lemma FulfilmentRatesBounded(ds: seq<Disaster>, pool: Pool)
    requires AllocateSpec(ds, pool).Success? && NonNegative(pool)
    ensures RatesAreFractions(AllocateSpec(ds, pool).value.allocations)
  {
    AllocationSteps(ds, pool);
    NoOverAllocation(ds, pool);
    var allocs := AllocateSpec(ds, pool).value.allocations;
    forall i | 0 <= i < |allocs| ensures 0.0 <= allocs[i].fulfillmentRate <= 1.0 {
      FulfillmentRateBounds(allocs[i].needed, allocs[i].granted);
    }
  }

  lemma {:induction false} UtilisationVectorBounds(pool: Pool, totalAllocated: PerKind<int>)
    requires forall r :: 0 <= totalAllocated.Get(r) <= Available(pool, r)
    ensures forall r :: 0.0 <= Utilisation(pool, totalAllocated).Get(r) <= 100.0
  {
    forall r ensures 0.0 <= Utilisation(pool, totalAllocated).Get(r) <= 100.0 {
      UtilisationBounds(pool, totalAllocated, r);
    }
  }

  /** With a non-negative pool every utilisation is a percentage in [0, 100]. */
  lemma UtilisationBounded(ds: seq<Disaster>, pool: Pool)
    requires AllocateSpec(ds, pool).Success? && NonNegative(pool)
    ensures forall r :: 0.0 <= AllocateSpec(ds, pool).value.summaryStats.resourceUtilization.Get(r) <= 100.0
  {
    AllocatedWithinPool(ds, pool);
    SummaryOfRun(ds, pool);
    UtilisationVectorBounds(pool, AllocateSpec(ds, pool).value.summaryStats.totalAllocated);
  }

  /** With a non-negative pool every per-severity average fulfilment is a percentage in
      [0, 100]. */
  lemma AverageFulfilmentBounded(ds: seq<Disaster>, pool: Pool)
    requires AllocateSpec(ds, pool).Success? && NonNegative(pool)
    ensures var avg := AllocateSpec(ds, pool).value.summaryStats.avgFulfillmentBySeverity;
      && 0.0 <= avg.high <= 100.0
      && 0.0 <= avg.medium <= 100.0
      && 0.0 <= avg.low <= 100.0
  {
    FulfilmentRatesBounded(ds, pool);
    SummaryOfRun(ds, pool);
    var allocs := AllocateSpec(ds, pool).value.allocations;
    RatesOfBounds(allocs, High);
    RatesOfBounds(allocs, Medium);
    RatesOfBounds(allocs, Low);
    AverageBounds(RatesOf(allocs, High));
    AverageBounds(RatesOf(allocs, Medium));
    AverageBounds(RatesOf(allocs, Low));
  }

  /** With non-negative needs a prefix never needs more than the whole list. */
  lemma {:induction false} NeededPrefixAtMost(allocs: seq<Allocation>, m: nat)
    requires NeedsNonNegative(allocs) && m <= |allocs|
    ensures AtMost(NeededTotals(allocs[..m]), NeededTotals(allocs))
    decreases |allocs|
  {
    if m < |allocs| {
      var init := allocs[..|allocs| - 1];
      NeededPrefixAtMost(init, m);
      assert init[..m] == allocs[..m];
    } else {
      assert allocs[..m] == allocs;
    }
  }

  /** While the pool covers the total need, every grant so far is the full need. */
  lemma {:induction false} FullGrantsWhileAmple(pool: Pool, allocs: seq<Allocation>, totals: PerKind<int>, n: nat)
    requires Walked(pool, allocs, totals) && NeedsNonNegative(allocs)
    requires forall r :: Available(pool, r) >= NeededTotals(allocs).Get(r)
    requires n <= |allocs|
    ensures AllocatedTotals(allocs[..n]) == NeededTotals(allocs[..n])
    ensures forall i :: 0 <= i < n ==> allocs[i].granted == allocs[i].needed
    decreases n
  {
    if n > 0 {
      FullGrantsWhileAmple(pool, allocs, totals, n - 1);
      NeededPrefixAtMost(allocs, n);
      var a := allocs[n - 1];
      assert allocs[..n][..n - 1] == allocs[..n - 1];
      forall r ensures a.granted.Get(r) == a.needed.Get(r) {
        assert a.needed.Get(r) <= StockBefore(pool, allocs, n - 1, r);
      }
      PerKindEquality(a.granted, a.needed);
    }
  }

  lemma AmpleWalk(pool: Pool, allocs: seq<Allocation>, totals: PerKind<int>)
    requires Walked(pool, allocs, totals) && NeedsNonNegative(allocs) && Derived(allocs)
    requires totals == NeededTotals(allocs)
    requires forall r :: Available(pool, r) >= totals.Get(r)
    ensures forall i :: 0 <= i < |allocs| ==>
      && allocs[i].granted == allocs[i].needed
      && allocs[i].unmetNeeds == Uniform(0)
      && allocs[i].fulfillmentRate == 1.0
    ensures AllocatedTotals(allocs) == totals
    ensures Drawn(pool, allocs) == map r | r in pool :: pool[r] - totals.Get(r)
  {
    FullGrantsWhileAmple(pool, allocs, totals, |allocs|);
    assert allocs[..|allocs|] == allocs;
    forall i | 0 <= i < |allocs|
      ensures allocs[i].unmetNeeds == Uniform(0) && allocs[i].fulfillmentRate == 1.0
    {
      FullyMet(allocs[i]);
    }
  }

  /** An allocation granting its whole need leaves nothing unmet, at rate 1. */
  lemma FullyMet(a: Allocation)
    requires a.granted == a.needed
    requires a.unmetNeeds == Minus(a.needed, a.granted)
    requires a.fulfillmentRate == FulfillmentRate(a.needed, a.granted)
    ensures a.unmetNeeds == Uniform(0) && a.fulfillmentRate == 1.0
  {
    PerKindEquality(a.unmetNeeds, Uniform(0));
    FullRateIsOne(a.needed);
  }

  /** A pool holding at least the total need of every kind meets every need in full:
      nothing is unmet, every fulfilment rate is 1, and the pool is left less exactly
      the total need. */
  lemma AmplePoolMeetsEveryNeed(ds: seq<Disaster>, pool: Pool)
    requires AllocateSpec(ds, pool).Success?
    requires forall r :: Available(pool, r) >= TotalNeeds(Infos(ds)).Get(r)
    ensures var rep := AllocateSpec(ds, pool).value;
      && (forall i :: 0 <= i < |rep.allocations| ==>
            && rep.allocations[i].granted == rep.allocations[i].needed
            && rep.allocations[i].unmetNeeds == Uniform(0)
            && rep.allocations[i].fulfillmentRate == 1.0)
      && rep.summaryStats.totalAllocated == rep.summaryStats.totalNeeds
      && rep.summaryStats.remainingResources == map r | r in pool :: pool[r] - rep.summaryStats.totalNeeds.Get(r)
  {
    AllocationSteps(ds, pool);
    SuccessfulNeedsNonNegative(ds, pool);
    var rep := AllocateSpec(ds, pool).value;
    AmpleWalk(pool, rep.allocations, rep.summaryStats.totalNeeds);
  }

  /** From an empty stock nothing is granted, whatever the severity. */
  lemma GrantFromNothing(needed: int, totalNeed: int, s: Severity)
    requires needed >= 0 && Grant(needed, 0, totalNeed, s).Success?
    ensures Grant(needed, 0, totalNeed, s).value == 0
  {
    if needed > 0 && totalNeed > 0 {
      var w := SeverityWeight(s).value;
      assert 0.0 * (needed as real / totalNeed as real) * w == 0.0;
    }
  }

  lemma {:induction false} NothingFromNothing(pool: Pool, allocs: seq<Allocation>, totals: PerKind<int>, n: nat)
    requires Walked(pool, allocs, totals) && NeedsNonNegative(allocs)
    requires forall r :: Available(pool, r) == 0
    requires n <= |allocs|
    ensures AllocatedTotals(allocs[..n]) == Uniform(0)
    ensures forall i :: 0 <= i < n ==> allocs[i].granted == Uniform(0)
    decreases n
  {
    if n > 0 {
      NothingFromNothing(pool, allocs, totals, n - 1);
      assert allocs[..n][..n - 1] == allocs[..n - 1];
      EmptyStockGrantsNothing(pool, allocs, totals, n - 1);
    }
  }

  /** The disaster served while the stock is empty is granted nothing. */
  lemma EmptyStockGrantsNothing(pool: Pool, allocs: seq<Allocation>, totals: PerKind<int>, i: nat)
    requires Walked(pool, allocs, totals) && NeedsNonNegative(allocs) && i < |allocs|
    requires forall r :: StockBefore(pool, allocs, i, r) == 0
    ensures allocs[i].granted == Uniform(0)
  {
    var a := allocs[i];
    forall r ensures a.granted.Get(r) == 0 {
      GrantFromNothing(a.needed.Get(r), totals.Get(r), a.severity);
    }
    PerKindEquality(a.granted, Uniform(0));
  }

  lemma EmptyWalk(pool: Pool, allocs: seq<Allocation>, totals: PerKind<int>)
    requires Walked(pool, allocs, totals) && NeedsNonNegative(allocs) && Derived(allocs)
    requires forall r :: r in pool && pool[r] == 0
    ensures forall i :: 0 <= i < |allocs| ==>
      allocs[i].granted == Uniform(0) && allocs[i].unmetNeeds == allocs[i].needed
    ensures Drawn(pool, allocs) == pool
  {
    NothingFromNothing(pool, allocs, totals, |allocs|);
    assert allocs[..|allocs|] == allocs;
    forall i | 0 <= i < |allocs| ensures allocs[i].unmetNeeds == allocs[i].needed {
      NothingGrantedAllUnmet(allocs[i]);
    }
    DrawnNothing(pool, allocs);
  }

  lemma NothingGrantedAllUnmet(a: Allocation)
    requires a.granted == Uniform(0) && a.unmetNeeds == Minus(a.needed, a.granted)
    ensures a.unmetNeeds == a.needed
  {
    PerKindEquality(a.unmetNeeds, a.needed);
  }

  lemma DrawnNothing(pool: Pool, allocs: seq<Allocation>)
    requires AllocatedTotals(allocs) == Uniform(0)
    ensures Drawn(pool, allocs) == pool
  {
    var drawn := Drawn(pool, allocs);
    forall r | r in pool ensures drawn[r] == pool[r] {
      assert AllocatedTotals(allocs).Get(r) == 0;
    }
  }

  /** A pool of zeros grants nothing: every need stays unmet and the pool is returned
      unchanged. */
  lemma EmptyPoolGrantsNothing(ds: seq<Disaster>, pool: Pool)
    requires AllocateSpec(ds, pool).Success?
    requires forall r :: r in pool && pool[r] == 0
    ensures var rep := AllocateSpec(ds, pool).value;
      && (forall i :: 0 <= i < |rep.allocations| ==>
            rep.allocations[i].granted == Uniform(0)
            && rep.allocations[i].unmetNeeds == rep.allocations[i].needed)
      && rep.summaryStats.remainingResources == pool
  {
    AllocationSteps(ds, pool);
    SuccessfulNeedsNonNegative(ds, pool);
    var rep := AllocateSpec(ds, pool).value;
    EmptyWalk(pool, rep.allocations, rep.summaryStats.totalNeeds);
  }

  // ---------------------------------------------------------------------------------
  // The source's loops

  /** `total[resource] += amount` for every kind. */
  method AddInto(total: PerKind<int>, amounts: PerKind<int>) returns (sum: PerKind<int>)
    ensures sum == Plus(total, amounts)
  {
    KindsListsEveryKindOnce();
    sum := total;
    for k := 0 to |Kinds|
      invariant forall m :: 0 <= m < k ==> sum.Get(Kinds[m]) == total.Get(Kinds[m]) + amounts.Get(Kinds[m])
      invariant forall m :: k <= m < |Kinds| ==> sum.Get(Kinds[m]) == total.Get(Kinds[m])
    {
      var r := Kinds[k];
      sum := sum.With(r, sum.Get(r) + amounts.Get(r));
    }
    assert Kinds[0] == Food && Kinds[1] == Water && Kinds[2] == Medicine && Kinds[3] == Shelter;
    PerKindEquality(sum, Plus(total, amounts));
  }

  /** The body of the loop of `_allocate_to_single_disaster` for one kind. */
  method GrantFor(needed: int, available: int, totalNeed: int, severity: Severity)
    returns (g: Result<int, AllocError>)
    ensures g == Grant(needed, available, totalNeed, severity)
  {
    if needed <= available {
      return Success(needed);
    }
    var weight := SeverityWeight(severity);
    if weight.None? {
      return Failure(KeyError);
    }
    if totalNeed > 0 {
      var proportion := Proportion(needed, totalNeed);
      var fair := Trunc(WeightedShare(available, proportion, weight.value));
      g := Success(Min(Min(fair, available), needed));
    } else {
      g := Success(0);
    }
  }

  /** Grants and unmet needs collected kind by kind, in the order of `Kinds`, make up
      the single allocation. */
  lemma AssembledAllocation(info: DisasterInfo, remaining: Pool, totals: PerKind<int>,
                            granted: PerKind<int>, unmet: PerKind<int>)
    requires forall m :: 0 <= m < |Kinds| ==>
      && GrantOf(info, remaining, totals, Kinds[m]).Success?
      && granted.Get(Kinds[m]) == GrantOf(info, remaining, totals, Kinds[m]).value
      && unmet.Get(Kinds[m]) == info.needs.Get(Kinds[m]) - granted.Get(Kinds[m])
    ensures SingleAllocation(info, remaining, totals)
      == Success(Allocation(info.index, info.severity, info.peopleAffected, info.disasterType,
           info.location, info.needs, granted, unmet, FulfillmentRate(info.needs, granted)))
  {
    forall r
      ensures GrantOf(info, remaining, totals, r).Success?
      ensures granted.Get(r) == GrantOf(info, remaining, totals, r).value
      ensures unmet.Get(r) == info.needs.Get(r) - granted.Get(r)
    {
      match r
      case Food => assert Kinds[0] == r;
      case Water => assert Kinds[1] == r;
      case Medicine => assert Kinds[2] == r;
      case Shelter => assert Kinds[3] == r;
    }
    AssembledByKind(info, remaining, totals, granted, unmet);
  }

  lemma AssembledByKind(info: DisasterInfo, remaining: Pool, totals: PerKind<int>,
                        granted: PerKind<int>, unmet: PerKind<int>)
    requires forall r :: GrantOf(info, remaining, totals, r).Success?
    requires forall r :: granted.Get(r) == GrantOf(info, remaining, totals, r).value
    requires forall r :: unmet.Get(r) == info.needs.Get(r) - granted.Get(r)
    ensures SingleAllocation(info, remaining, totals)
      == Success(Allocation(info.index, info.severity, info.peopleAffected, info.disasterType,
           info.location, info.needs, granted, unmet, FulfillmentRate(info.needs, granted)))
  {
    SingleAllocationSucceeds(info, remaining, totals);
    SingleAllocationRecord(info, remaining, totals);
    var expected := SingleAllocation(info, remaining, totals).value;
    PerKindEquality(granted, expected.granted);
    PerKindEquality(unmet, expected.unmetNeeds);
  }

  /** `_allocate_to_single_disaster`: the loop over `resource_types`. */
  method AllocateToSingleDisaster(info: DisasterInfo, remaining: Pool, totals: PerKind<int>)
    returns (res: Result<Allocation, AllocError>)
    ensures res == SingleAllocation(info, remaining, totals)
  {
    KindsListsEveryKindOnce();
    var granted := Uniform(0);
    var unmet := Uniform(0);
    for k := 0 to |Kinds|
      invariant forall m :: 0 <= m < k ==>
        && GrantOf(info, remaining, totals, Kinds[m]).Success?
        && granted.Get(Kinds[m]) == GrantOf(info, remaining, totals, Kinds[m]).value
        && unmet.Get(Kinds[m]) == info.needs.Get(Kinds[m]) - granted.Get(Kinds[m])
    {
      var r := Kinds[k];
      var needed := info.needs.Get(r);
      var g := GrantFor(needed, Available(remaining, r), totals.Get(r), info.severity);
      if g.Failure? {
        SingleAllocationSucceeds(info, remaining, totals);
        return Failure(KeyError);
      }
      granted := granted.With(r, g.value);
      unmet := unmet.With(r, needed - g.value);
    }
    AssembledAllocation(info, remaining, totals, granted, unmet);
    res := Success(Allocation(info.index, info.severity, info.peopleAffected, info.disasterType,
      info.location, info.needs, granted, unmet, FulfillmentRate(info.needs, granted)));
  }

  /** `remaining_resources[resource] -= amount` over the kinds of one allocation. */
  method DeductAllocation(remaining: Pool, granted: PerKind<int>) returns (res: Result<Pool, AllocError>)
    ensures res == Deducted(remaining, granted)
  {
    var rem := remaining;
    for k := 0 to |Kinds|
      invariant rem.Keys == remaining.Keys
      invariant forall r :: KindIndex(r) < k ==> r in remaining
      invariant forall r :: r in rem ==> rem[r] == remaining[r] - (if KindIndex(r) < k then granted.Get(r) else 0)
    {
      var r := Kinds[k];
      assert KindIndex(r) == k;
      if r !in rem {
        return Failure(KeyError);
      }
      rem := rem[r := rem[r] - granted.Get(r)];
    }
    DeductedEntryWise(remaining, granted, rem);
    res := Success(rem);
  }

  /** A pool holding every kind, each less its grant, is the deducted pool. */
  lemma DeductedEntryWise(remaining: Pool, granted: PerKind<int>, rem: Pool)
    requires rem.Keys == remaining.Keys
    requires forall r :: KindIndex(r) < |Kinds| ==> r in remaining
    requires forall r :: r in rem ==> rem[r] == remaining[r] - (if KindIndex(r) < |Kinds| then granted.Get(r) else 0)
    ensures Deducted(remaining, granted) == Success(rem)
  {
    assert Complete(remaining);
    assert rem == map r | r in remaining :: remaining[r] - granted.Get(r);
  }


  /** `_prepare_allocation_summary`: the running totals, the utilisation per kind, and
      the rates grouped by severity. */
  method PrepareAllocationSummary(ds: seq<Disaster>, allocs: seq<Allocation>, pool: Pool, remaining: Pool, totals: PerKind<int>)
    returns (res: Result<AllocationReport, AllocError>)
    ensures res == Report(ds, allocs, pool, remaining, totals)
  {
    var totalAllocated := SumGranted(allocs);
    var utilisation := UtilisationFor(pool, totalAllocated);
    var rates := GroupRates(allocs);
    if rates.Failure? {
      return Failure(KeyError);
    }
    var (high, medium, low) := rates.value;
    var averages := BySeverity(AverageFulfilment(high), AverageFulfilment(medium), AverageFulfilment(low));
    res := Success(AllocationReport(allocs, SummaryStats(|ds|, TotalPeople(ds), utilisation, averages,
      totalAllocated, remaining, totals)));
  }

  /** The loop adding up `total_allocated`. */
  method SumGranted(allocs: seq<Allocation>) returns (totalAllocated: PerKind<int>)
    ensures totalAllocated == AllocatedTotals(allocs)
  {
    totalAllocated := Uniform(0);
    for i := 0 to |allocs|
      invariant totalAllocated == AllocatedTotals(allocs[..i])
    {
      assert allocs[..i + 1][..i] == allocs[..i];
      totalAllocated := AddInto(totalAllocated, allocs[i].granted);
    }
    assert allocs[..|allocs|] == allocs;
  }

  /** The loop filling `resource_utilization`. */
  method UtilisationFor(pool: Pool, totalAllocated: PerKind<int>) returns (utilisation: PerKind<real>)
    ensures utilisation == Utilisation(pool, totalAllocated)
  {
    KindsListsEveryKindOnce();
    utilisation := Uniform(0.0);
    for k := 0 to |Kinds|
      invariant forall m :: 0 <= m < k ==> utilisation.Get(Kinds[m]) == UtilisationOf(pool, totalAllocated, Kinds[m])
    {
      var r := Kinds[k];
      var available := Available(pool, r);
      if available > 0 {
        utilisation := utilisation.With(r, (totalAllocated.Get(r) as real / available as real) * 100.0);
      } else {
        utilisation := utilisation.With(r, 0.0);
      }
    }
    assert Kinds[0] == Food && Kinds[1] == Water && Kinds[2] == Medicine && Kinds[3] == Shelter;
    PerKindEquality(utilisation, Utilisation(pool, totalAllocated));
  }

  /** The loop appending each rate to `severity_stats[severity]`; an unknown label is
      the `KeyError` of that lookup. */
  method GroupRates(allocs: seq<Allocation>) returns (res: Result<(seq<real>, seq<real>, seq<real>), AllocError>)
    ensures res.Success? <==> AllSeveritiesKnown(allocs)
    ensures res.Success? ==> res.value == (RatesOf(allocs, High), RatesOf(allocs, Medium), RatesOf(allocs, Low))
  {
    var high: seq<real>, medium: seq<real>, low: seq<real> := [], [], [];
    for i := 0 to |allocs|
      invariant high == RatesOf(allocs[..i], High)
      invariant medium == RatesOf(allocs[..i], Medium)
      invariant low == RatesOf(allocs[..i], Low)
      invariant AllSeveritiesKnown(allocs[..i])
    {
      var a := allocs[i];
      assert allocs[..i + 1][..i] == allocs[..i];
      match a.severity
      case High => high := high + [a.fulfillmentRate];
      case Medium => medium := medium + [a.fulfillmentRate];
      case Low => low := low + [a.fulfillmentRate];
      case Unrecognised(_) => return Failure(KeyError);
    }
    assert allocs[..|allocs|] == allocs;
    res := Success((high, medium, low));
  }


  lemma GlueAppend(allocs: seq<Allocation>, a: Allocation, res: Result<(seq<Allocation>, Pool), AllocError>)
    ensures Glue(allocs, Glue([a], res)) == Glue(allocs + [a], res)
  {
    if res.Success? {
      assert allocs + ([a] + res.value.0) == (allocs + [a]) + res.value.0;
    }
  }

  lemma GlueNothing(res: Result<(seq<Allocation>, Pool), AllocError>)
    ensures Glue([], res) == res
  {
    if res.Success? {
      assert [] + res.value.0 == res.value.0;
    }
  }

  /** The walk past the last disaster returns what it has collected. */
  lemma GlueFinished(sorted: seq<DisasterInfo>, allocs: seq<Allocation>, remaining: Pool, totals: PerKind<int>)
    ensures Glue(allocs, Pass(sorted[|sorted|..], remaining, totals)) == Success((allocs, remaining))
  {
    assert sorted[|sorted|..] == [];
    assert allocs + [] == allocs;
  }

  /** One successful step of the walk from position `j`. */
  lemma PassStepAt(sorted: seq<DisasterInfo>, j: nat, remaining: Pool, totals: PerKind<int>, a: Allocation, rest: Pool)
    requires j < |sorted|
    requires SingleAllocation(sorted[j], remaining, totals) == Success(a)
    requires Deducted(remaining, a.granted) == Success(rest)
    ensures Pass(sorted[j..], remaining, totals) == Glue([a], Pass(sorted[j + 1..], rest, totals))
  {
    assert sorted[j..][0] == sorted[j];
    assert sorted[j..][1..] == sorted[j + 1..];
  }

  /** A failing step ends the walk with its error. */
  lemma PassFailsAt(sorted: seq<DisasterInfo>, j: nat, remaining: Pool, totals: PerKind<int>, e: AllocError)
    requires j < |sorted|
    requires SingleAllocation(sorted[j], remaining, totals) == Failure(e)
      || (SingleAllocation(sorted[j], remaining, totals).Success?
          && Deducted(remaining, SingleAllocation(sorted[j], remaining, totals).value.granted) == Failure(e))
    ensures Pass(sorted[j..], remaining, totals) == Failure(e)
  {
    assert sorted[j..][0] == sorted[j];
  }

  lemma TotalNeedsSnoc(infos: seq<DisasterInfo>, info: DisasterInfo)
    ensures TotalNeeds(infos + [info]) == Plus(TotalNeeds(infos), info.needs)
  {
    assert (infos + [info])[..|infos|] == infos;
  }

  lemma PrefixExtends<T>(s: seq<T>, i: nat)
    requires i < |s|
    ensures s[..i + 1] == s[..i] + [s[i]]
  {
  }

  /** Step 1 of `allocate_resources`: `disaster_needs` and `total_needs`. */
  method CollectNeeds(ds: seq<Disaster>) returns (infos: seq<DisasterInfo>, totals: PerKind<int>)
    ensures infos == Infos(ds)
    ensures totals == TotalNeeds(infos)
  {
    infos := [];
    totals := Uniform(0);
    for i := 0 to |ds|
      invariant infos == Infos(ds)[..i]
      invariant totals == TotalNeeds(infos)
    {
      var d := ds[i];
      var adjusted := DisasterNeed(d.peopleAffected, d.severity, d.disasterType);
      var info := DisasterInfo(i, d.severity, d.peopleAffected, d.disasterType,
        d.location.GetOr("Unknown"), adjusted, PriorityScore(d.severity, d.peopleAffected));
      assert info == Infos(ds)[i];
      PrefixExtends(Infos(ds), i);
      TotalNeedsSnoc(infos, info);
      totals := AddInto(totals, adjusted);
      infos := infos + [info];
    }
    assert Infos(ds)[..|ds|] == Infos(ds);
  }

  /** Step 3 of `allocate_resources`: the walk with one running pool. */
  method WalkSorted(sorted: seq<DisasterInfo>, pool: Pool, totals: PerKind<int>)
    returns (res: Result<(seq<Allocation>, Pool), AllocError>)
    ensures res == Pass(sorted, pool, totals)
  {
    var allocs: seq<Allocation> := [];
    var remaining := pool;
    assert sorted[0..] == sorted;
    GlueNothing(Pass(sorted, pool, totals));
    for j := 0 to |sorted|
      invariant Pass(sorted, pool, totals) == Glue(allocs, Pass(sorted[j..], remaining, totals))
    {
      var a := AllocateToSingleDisaster(sorted[j], remaining, totals);
      if a.Failure? {
        PassFailsAt(sorted, j, remaining, totals, a.error);
        return Failure(a.error);
      }
      var rest := DeductAllocation(remaining, a.value.granted);
      if rest.Failure? {
        PassFailsAt(sorted, j, remaining, totals, rest.error);
        return Failure(rest.error);
      }
      PassStepAt(sorted, j, remaining, totals, a.value, rest.value);
      GlueAppend(allocs, a.value, Pass(sorted[j + 1..], rest.value, totals));
      allocs := allocs + [a.value];
      remaining := rest.value;
    }
    GlueFinished(sorted, allocs, remaining, totals);
    res := Success((allocs, remaining));
  }

  /** `allocate_resources`. */
  method AllocateResources(ds: seq<Disaster>, pool: Pool) returns (res: Result<AllocationReport, AllocError>)
    ensures res == AllocateSpec(ds, pool)
  {
    var infos, totals := CollectNeeds(ds);
    var sorted := SortByPriority(infos);
    var walk := WalkSorted(sorted, pool, totals);
    if walk.Failure? {
      return Failure(walk.error);
    }
    var (allocs, remaining) := walk.value;
    res := PrepareAllocationSummary(ds, allocs, pool, remaining, totals);
  }

  // ---------------------------------------------------------------------------------
  // `allocate_single_disaster`

  /** The one disaster the simplified interface builds. */
  function SingleDisaster(severity: Severity, peopleAffected: nat, disasterType: string): Disaster
  {
    Disaster(severity, peopleAffected, disasterType, Some("Single Location"))
  }

  /** `allocate_single_disaster`: the first allocation of a run over the one disaster,
      or `None` (the `{}` of the source) when the run has no allocations. */
  function SingleDisasterSpec(severity: Severity, peopleAffected: nat, disasterType: string, pool: Pool)
    : Result<Option<Allocation>, AllocError>
  {
    match AllocateSpec([SingleDisaster(severity, peopleAffected, disasterType)], pool)
    case Failure(e) => Failure(e)
    case Success(rep) => Success(if |rep.allocations| > 0 then Some(rep.allocations[0]) else None)
  }

  /** A run over one disaster sees one record, whose need is the total need. */
  lemma OneRecord(d: Disaster)
    ensures Infos([d]) == [InfoOf(d, 0)]
    ensures SortByPriority([InfoOf(d, 0)]) == [InfoOf(d, 0)]
    ensures TotalNeeds([InfoOf(d, 0)]) == InfoOf(d, 0).needs
  {
    OneRecordAlone(InfoOf(d, 0));
  }

  lemma OneRecordAlone(x: DisasterInfo)
    ensures SortByPriority([x]) == [x]
    ensures TotalNeeds([x]) == x.needs
  {
    assert [x][..0] == [];
    assert [x][1..] == [];
    PlusZero(x.needs);
  }

  /** The walk over one record is one single-disaster allocation. */
  lemma OneStepWalk(info: DisasterInfo, pool: Pool)
    ensures Pass([info], pool, info.needs).Success? ==>
      SingleAllocation(info, pool, info.needs).Success?
      && Pass([info], pool, info.needs).value.0 == [SingleAllocation(info, pool, info.needs).value]
  {
    var sorted := [info];
    assert sorted[1..] == [];
    if Pass(sorted, pool, info.needs).Success? {
      PassUnfolds(sorted, pool, info.needs);
    }
  }

  /** The simplified interface fails exactly when a kind is missing from the pool or
      the label is unknown. */
  lemma SingleDisasterFails(severity: Severity, peopleAffected: nat, disasterType: string, pool: Pool)
    ensures SingleDisasterSpec(severity, peopleAffected, disasterType, pool).Failure?
      <==> !Complete(pool) || !severity.IsKnown()
  {
    AllocationFailsExactly([SingleDisaster(severity, peopleAffected, disasterType)], pool);
  }

  /** Otherwise it returns, never `{}`, the allocation the disaster gets against the
      whole pool, its own need being the total need. */
  lemma SingleDisasterResult(severity: Severity, peopleAffected: nat, disasterType: string, pool: Pool)
    requires SingleDisasterSpec(severity, peopleAffected, disasterType, pool).Success?
    ensures var info := InfoOf(SingleDisaster(severity, peopleAffected, disasterType), 0);
      && SingleAllocation(info, pool, info.needs).Success?
      && SingleDisasterSpec(severity, peopleAffected, disasterType, pool).value
         == Some(SingleAllocation(info, pool, info.needs).value)
  {
    var d := SingleDisaster(severity, peopleAffected, disasterType);
    OneRecord(d);
    OneStepWalk(InfoOf(d, 0), pool);
  }

  method AllocateSingleDisaster(severity: Severity, peopleAffected: nat, disasterType: string, pool: Pool)
    returns (res: Result<Option<Allocation>, AllocError>)
    ensures res == SingleDisasterSpec(severity, peopleAffected, disasterType, pool)
  {
    var result := AllocateResources([SingleDisaster(severity, peopleAffected, disasterType)], pool);
    if result.Failure? {
      return Failure(result.error);
    }
    var allocs := result.value.allocations;
    res := Success(if |allocs| > 0 then Some(allocs[0]) else None);
  }
}
