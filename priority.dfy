/** Priority ranking of disasters (`_calculate_priority_score` and the sort in
    `allocate_resources`).  The score `rank * 100 + log10(max(1, people))` is replaced by
    the pair (rank, max(1, people)) compared lexicographically, which orders disasters the
    same way as long as `log10` of a population stays below 100. */
module Priority {
  import opened Common
  import opened Resources

  /** `severity_scores.get(severity, 1)`. */
  function SeverityRank(s: Severity): (rank: nat)
    ensures 1 <= rank <= 3
  {
    match s
    case High => 3
    case Medium => 2
    case Low => 1
    case Unrecognised(_) => 1
  }

  /** The two components of the priority score. */
  datatype PriorityKey = PriorityKey(rank: nat, people: nat)

  /** `_calculate_priority_score`. */
  function PriorityScore(s: Severity, peopleAffected: nat): (k: PriorityKey)
    ensures k.rank == SeverityRank(s) && k.people == Max(1, peopleAffected)
  {
    PriorityKey(SeverityRank(s), Max(1, peopleAffected))
  }

  /** `a` has the strictly larger score. */
  predicate Outranks(a: PriorityKey, b: PriorityKey)
  {
    a.rank > b.rank || (a.rank == b.rank && a.people > b.people)
  }

  /** Severity dominates: any High disaster outranks any Medium or Low one, whatever
      the populations; within one band the larger population comes first; and 0 and 1
      affected people tie, because both count as `max(1, people) = 1`. */
  lemma SeverityDominatesPopulation(p: nat, q: nat)
    ensures Outranks(PriorityScore(High, p), PriorityScore(Medium, q))
    ensures Outranks(PriorityScore(Medium, p), PriorityScore(Low, q))
    ensures Outranks(PriorityScore(High, p), PriorityScore(Low, q))
    ensures p > q >= 1 ==> Outranks(PriorityScore(Low, p), PriorityScore(Low, q))
    ensures PriorityScore(Low, 0) == PriorityScore(Low, 1)
  {
  }

  /** `disaster_info`: what the allocator keeps about each input disaster. */
  datatype DisasterInfo = DisasterInfo(
    index: nat,
    severity: Severity,
    peopleAffected: nat,
    disasterType: string,
    location: string,
    needs: PerKind<int>,
    priority: PriorityKey)

  /** Order of `sort(key=priority_score, reverse=True)`, which is stable: a higher score
      first, equal scores in input order. */
  predicate ComesBefore(a: DisasterInfo, b: DisasterInfo)
  {
    Outranks(a.priority, b.priority) || (a.priority == b.priority && a.index < b.index)
  }

  predicate SortedByPriority(s: seq<DisasterInfo>)
  {
    forall i, j :: 0 <= i < j < |s| ==> ComesBefore(s[i], s[j])
  }

  predicate DistinctIndices(s: seq<DisasterInfo>)
  {
    forall i, j :: 0 <= i < j < |s| ==> s[i].index != s[j].index
  }

  lemma ComesBeforeTotal(a: DisasterInfo, b: DisasterInfo)
    requires a.index != b.index
    ensures ComesBefore(a, b) || ComesBefore(b, a)
  {
  }

  lemma ComesBeforeTransitive(a: DisasterInfo, b: DisasterInfo, c: DisasterInfo)
    requires ComesBefore(a, b) && ComesBefore(b, c)
    ensures ComesBefore(a, c)
  {
  }

  /** Places `x` in front of the first element it comes before. */
  function Insert(x: DisasterInfo, s: seq<DisasterInfo>): (r: seq<DisasterInfo>)
    ensures multiset(r) == multiset(s) + multiset{x}
    ensures |r| == |s| + 1
  {
    if s == [] then [x]
    else if ComesBefore(x, s[0]) then [x] + s
    else assert s == [s[0]] + s[1..]; [s[0]] + Insert(x, s[1..])
  }

  /** The sorted list the allocator walks. */
  function SortByPriority(s: seq<DisasterInfo>): (r: seq<DisasterInfo>)
    ensures multiset(r) == multiset(s)
    ensures |r| == |s|
  {
    if s == [] then []
    else assert s == [s[0]] + s[1..]; Insert(s[0], SortByPriority(s[1..]))
  }

  lemma {:induction false} InsertKeepsSorted(x: DisasterInfo, s: seq<DisasterInfo>)
    requires SortedByPriority(s)
    requires forall y :: y in s ==> y.index != x.index
    ensures SortedByPriority(Insert(x, s))
  {
    if s == [] {
    } else if ComesBefore(x, s[0]) {
      var r := [x] + s;
      forall i, j | 0 <= i < j < |r| ensures ComesBefore(r[i], r[j]) {
        if i == 0 && j > 1 {
          ComesBeforeTransitive(x, s[0], s[j - 1]);
        }
      }
    } else {
      assert s[0] in s;
      ComesBeforeTotal(x, s[0]);
      var tail := s[1..];
      assert SortedByPriority(tail);
      forall y | y in tail ensures y.index != x.index {
        assert y in s;
      }
      InsertKeepsSorted(x, tail);
      var ins := Insert(x, tail);
      var r := [s[0]] + ins;
      forall i, j | 0 <= i < j < |r| ensures ComesBefore(r[i], r[j]) {
        if i == 0 {
          var y := ins[j - 1];
          assert y in multiset(ins);
          assert y == x || y in multiset(tail);
          if y != x {
            var k :| 0 <= k < |tail| && tail[k] == y;
            assert s[k + 1] == y;
          }
        }
      }
    }
  }

  /** The walk order is the stable descending order: higher score first, ties in
      input order. */
  lemma {:induction false} SortIsSorted(s: seq<DisasterInfo>)
    requires DistinctIndices(s)
    ensures SortedByPriority(SortByPriority(s))
  {
    if s != [] {
      var tail := s[1..];
      assert DistinctIndices(tail);
      SortIsSorted(tail);
      var sorted := SortByPriority(tail);
      forall y | y in sorted ensures y.index != s[0].index {
        assert y in multiset(tail);
        var k :| 0 <= k < |tail| && tail[k] == y;
        assert s[k + 1] == y;
      }
      InsertKeepsSorted(s[0], sorted);
    }
  }
}
