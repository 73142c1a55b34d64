/** The disaster-type adjustment of `ResourceAllocator.adjust_for_disaster_type`: the
    factor table, the partial, case-insensitive key match that picks one row, and the
    rounding of the adjusted needs. */
module DisasterTypes {
  import opened Common
  import opened Text
  import opened Resources

  /** The keys of `disaster_adjustments`, in dictionary insertion order. */
  const AdjustmentKeys: seq<string> :=
    ["flood", "earthquake", "cyclone", "drought", "landslide", "wildfire"]

  /** The factors stored under each key of `disaster_adjustments`. */
  function AdjustmentFactors(key: string): map<Resource, real>
  {
    if key == "flood" then map[Water := 1.2, Shelter := 1.3, Medicine := 1.1]
    else if key == "earthquake" then map[Shelter := 1.5, Medicine := 1.3, Food := 1.1]
    else if key == "cyclone" then map[Shelter := 1.4, Water := 1.2, Food := 1.1]
    else if key == "drought" then map[Water := 1.6, Food := 1.3, Medicine := 0.8]
    else if key == "landslide" then map[Medicine := 1.4, Shelter := 1.2, Food := 1.1]
    else if key == "wildfire" then map[Medicine := 1.3, Water := 1.2, Shelter := 1.1]
    else map[]
  }

  /** `disaster_key in disaster_type_lower or disaster_type_lower in disaster_key`. */
  predicate KeyMatches(key: string, typeLower: string)
  {
    Contains(typeLower, key) || Contains(key, typeLower)
  }

  /** Position of the first key, from `from` on, that matches: the loop with `break`. */
  function FirstMatch(keys: seq<string>, typeLower: string, from: nat): (m: Option<nat>)
    requires from <= |keys|
    ensures m.Some? ==> from <= m.value < |keys| && KeyMatches(keys[m.value], typeLower)
    ensures m.Some? ==> forall j :: from <= j < m.value ==> !KeyMatches(keys[j], typeLower)
    ensures m.None? ==> forall j :: from <= j < |keys| ==> !KeyMatches(keys[j], typeLower)
    decreases |keys| - from
  {
    if from == |keys| then None
    else if KeyMatches(keys[from], typeLower) then Some(from)
    else FirstMatch(keys, typeLower, from + 1)
  }

  /** The factors that apply to a disaster type: those of the first matching key,
      or none at all. */
  function FactorsFor(disasterType: string): (f: map<Resource, real>)
    ensures (forall j :: 0 <= j < |AdjustmentKeys| ==>
               !KeyMatches(AdjustmentKeys[j], ToLower(disasterType))) ==> f == map[]
    ensures forall r :: r in f ==> 0.8 <= f[r] <= 1.6
  {
    match FirstMatch(AdjustmentKeys, ToLower(disasterType), 0)
    case None => map[]
    case Some(i) => AdjustmentFactors(AdjustmentKeys[i])
  }

  /** One entry of the adjusted dictionary: `int(need * factor)` when the kind has a
      factor, the need itself otherwise. */
  function Scaled(need: int, f: map<Resource, real>, r: Resource): int
  {
    if r in f then Trunc(need as real * f[r]) else need
  }

  /** Each kind named in `f` becomes `int(need * factor)`; the others are copied. */
  function ApplyFactors(base: PerKind<int>, f: map<Resource, real>): (n: PerKind<int>)
    ensures forall r :: n.Get(r) == Scaled(base.Get(r), f, r)
  {
    PerKind(Scaled(base.food, f, Food), Scaled(base.water, f, Water),
            Scaled(base.medicine, f, Medicine), Scaled(base.shelter, f, Shelter))
  }

  /** A factor that is not negative keeps a non-negative need non-negative. */
  lemma ScaledKeepsNonNegative(need: int, f: map<Resource, real>, r: Resource)
    requires need >= 0
    requires r in f ==> f[r] >= 0.0
    ensures Scaled(need, f, r) >= 0
  {
    if r in f {
      var x := need as real * f[r];
      assert x >= 0.0;
    }
  }

  /** `adjust_for_disaster_type`. */
  function AdjustForDisasterType(base: PerKind<int>, disasterType: string): PerKind<int>
  {
    ApplyFactors(base, FactorsFor(disasterType))
  }

  /** An empty type, or a one-letter fragment of the first key, picks up the flood row,
      because `"" in "flood"` and `"d" in "flood"` hold; matching ignores case. */
  lemma FragmentsMatchFlood()
    ensures FactorsFor("") == AdjustmentFactors("flood")
    ensures FactorsFor("d") == AdjustmentFactors("flood")
    ensures FactorsFor("FLOOD") == AdjustmentFactors("flood")
  {
    assert ToLower("") == "";
    assert Contains("flood", "");
    FloodRowFor("");
    assert ToLower("d") == "d";
    assert Contains("flood", "d") by {
      assert OccursAt("d", "flood", 4);
      OccurrenceIsContained("flood", "d", 4);
    }
    FloodRowFor("d");
    assert ToLower("FLOOD") == "flood";
    assert Contains("flood", "flood");
    FloodRowFor("FLOOD");
  }

  /** A type whose lower-case form matches the first key gets the flood row. */
  lemma FloodRowFor(t: string)
    requires KeyMatches("flood", ToLower(t))
    ensures FactorsFor(t) == AdjustmentFactors("flood")
  {
    assert AdjustmentKeys[0] == "flood";
  }

  /** "drought" matches no earlier key, so it gets its own row. */
  lemma DroughtUsesItsOwnRow()
    ensures FactorsFor("drought") == AdjustmentFactors("drought")
  {
    var t := "drought";
    assert ToLower(t) == t;
    assert KeyMatches(AdjustmentKeys[3], t);
    assert FirstMatch(AdjustmentKeys, t, 3) == Some(3);
    CycloneMissesDrought();
    assert FirstMatch(AdjustmentKeys, t, 2) == Some(3);
    EarthquakeMissesDrought();
    assert FirstMatch(AdjustmentKeys, t, 1) == Some(3);
    FloodMissesDrought();
    assert FirstMatch(AdjustmentKeys, t, 0) == Some(3);
  }

  lemma FloodMissesDrought()
    ensures !KeyMatches(AdjustmentKeys[0], "drought")
  {
    NoSharedCharMeansNoMatch("flood", "drought", 'f', 'r');
  }

  lemma EarthquakeMissesDrought()
    ensures !KeyMatches(AdjustmentKeys[1], "drought")
  {
    NoSharedCharMeansNoMatch("earthquake", "drought", 'e', 'd');
  }

  lemma CycloneMissesDrought()
    ensures !KeyMatches(AdjustmentKeys[2], "drought")
  {
    NoSharedCharMeansNoMatch("cyclone", "drought", 'c', 'd');
  }

  /** A key and a type that each hold a character the other lacks do not match. */
  lemma NoSharedCharMeansNoMatch(key: string, t: string, c: char, d: char)
    requires c in key && c !in t
    requires d in t && d !in key
    ensures !KeyMatches(key, t)
  {
    MissingCharRulesOut(t, key, c);
    MissingCharRulesOut(key, t, d);
  }
}
