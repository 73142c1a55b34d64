/** The vocabulary shared by the allocation engine and the dashboard: the four relief
    resource kinds, per-kind quantity vectors, and the severity labels. */
module Resources {

  /** The four resource kinds, in the order of `resource_types`. */
  datatype Resource = Food | Water | Medicine | Shelter

  const Kinds: seq<Resource> := [Food, Water, Medicine, Shelter]

  /** The dictionary key the source uses for each kind. */
  function Name(r: Resource): string
  {
    match r
    case Food => "Food Kits"
    case Water => "Water Packs"
    case Medicine => "Medicine Kits"
    case Shelter => "Shelter Units"
  }

  lemma KindsListsEveryKindOnce()
    ensures |Kinds| == 4
    ensures forall r: Resource :: r in Kinds
    ensures forall i, j :: 0 <= i < j < |Kinds| ==> Kinds[i] != Kinds[j]
  {
    forall r: Resource ensures r in Kinds {
      match r
      case Food => assert Kinds[0] == r;
      case Water => assert Kinds[1] == r;
      case Medicine => assert Kinds[2] == r;
      case Shelter => assert Kinds[3] == r;
    }
  }

  /** The position of `r` in `Kinds`. */
  function KindIndex(r: Resource): (i: nat)
    ensures i < |Kinds| && Kinds[i] == r
    ensures forall j :: 0 <= j < |Kinds| && Kinds[j] == r ==> j == i
  {
    match r
    case Food => 0
    case Water => 1
    case Medicine => 2
    case Shelter => 3
  }

  /** A dictionary with one entry per resource kind. */
  datatype PerKind<T> = PerKind(food: T, water: T, medicine: T, shelter: T) {

    function Get(r: Resource): T
    {
      match r
      case Food => food
      case Water => water
      case Medicine => medicine
      case Shelter => shelter
    }

    /** `d[r] = v` on a copy. */
    function With(r: Resource, v: T): (p: PerKind<T>)
      ensures p.Get(r) == v
      ensures forall k :: k != r ==> p.Get(k) == Get(k)
    {
      match r
      case Food => this.(food := v)
      case Water => this.(water := v)
      case Medicine => this.(medicine := v)
      case Shelter => this.(shelter := v)
    }
  }

  /** Two vectors that agree on every kind are equal. */
  lemma PerKindEquality<T>(a: PerKind<T>, b: PerKind<T>)
    requires forall r :: a.Get(r) == b.Get(r)
    ensures a == b
  {
    assert a.Get(Food) == b.Get(Food) && a.Get(Water) == b.Get(Water);
    assert a.Get(Medicine) == b.Get(Medicine) && a.Get(Shelter) == b.Get(Shelter);
  }

  function Uniform<T>(v: T): (p: PerKind<T>)
    ensures forall r :: p.Get(r) == v
  {
    PerKind(v, v, v, v)
  }

  function Plus(a: PerKind<int>, b: PerKind<int>): (c: PerKind<int>)
    ensures forall r :: c.Get(r) == a.Get(r) + b.Get(r)
  {
    PerKind(a.food + b.food, a.water + b.water, a.medicine + b.medicine, a.shelter + b.shelter)
  }

  lemma PlusZero(a: PerKind<int>)
    ensures Plus(Uniform(0), a) == a
  {
  }

  function Minus(a: PerKind<int>, b: PerKind<int>): (c: PerKind<int>)
    ensures forall r :: c.Get(r) == a.Get(r) - b.Get(r)
  {
    PerKind(a.food - b.food, a.water - b.water, a.medicine - b.medicine, a.shelter - b.shelter)
  }

  /** `sum(d.values())` over a per-kind dictionary of counts. */
  function Sum(c: PerKind<int>): int
  {
    c.food + c.water + c.medicine + c.shelter
  }

  predicate AllAtLeast(c: PerKind<int>, lo: int)
  {
    forall r :: c.Get(r) >= lo
  }

  /** Entry-wise `a[r] <= b[r]`. */
  predicate AtMost(a: PerKind<int>, b: PerKind<int>)
  {
    forall r :: a.Get(r) <= b.Get(r)
  }

  lemma SumBounds(a: PerKind<int>, b: PerKind<int>)
    requires AllAtLeast(a, 0) && AtMost(a, b)
    ensures 0 <= Sum(a) <= Sum(b)
  {
    assert a.Get(Food) <= b.Get(Food) && a.Get(Water) <= b.Get(Water);
    assert a.Get(Medicine) <= b.Get(Medicine) && a.Get(Shelter) <= b.Get(Shelter);
    assert a.Get(Food) >= 0 && a.Get(Water) >= 0 && a.Get(Medicine) >= 0 && a.Get(Shelter) >= 0;
  }

  /** Severity labels 'High', 'Medium', 'Low'; any other string the caller passes is
      kept as `Unrecognised`. */
  datatype Severity = High | Medium | Low | Unrecognised(name: string) {
    predicate IsKnown() { !Unrecognised? }
  }
}
