/**
 * The classified form of a schema change (what happened, whether it breaks
 * the API, how severe it is) and the aggregate of all classified changes
 * between two schema versions: filters, statistics and stable sorting.
 */
module ChangeModels {
  import opened Common
  import opened JsonData
  import opened SchemaModels

  datatype ChangeType = Addition | Removal | Modification

  datatype BreakingLevel = Breaking | NonBreaking

  datatype ImpactLevel = Critical | High | Medium | Low

  /** Numeric priority for sorting: 0 is the most severe. */
  function ToPriority(i: ImpactLevel): (r: nat)
    ensures r <= 3
  {
    match i
    case Critical => 0
    case High => 1
    case Medium => 2
    case Low => 3
  }

  /** Priorities order the impact levels strictly, critical first, so distinct levels never tie. */
  lemma PriorityOrder(a: ImpactLevel, b: ImpactLevel)
    ensures ToPriority(a) == ToPriority(b) ==> a == b
    ensures ToPriority(Critical) < ToPriority(High) < ToPriority(Medium) < ToPriority(Low)
  {
  }

  datatype AnalyzedChange = AnalyzedChange(
    fieldChange: FieldChange,
    changeType: ChangeType,
    breakingLevel: BreakingLevel,
    impactLevel: ImpactLevel,
    reason: string,
    recommendations: seq<string>,
    affectedScenarios: seq<string>)

  function PathOf(c: AnalyzedChange): string { c.fieldChange.path }

  predicate IsBreaking(c: AnalyzedChange) { c.breakingLevel == Breaking }

  predicate IsCritical(c: AnalyzedChange) { c.impactLevel == Critical }

  function Priority(c: AnalyzedChange): nat { ToPriority(c.impactLevel) }

  /** A change has priority 0 exactly when it is critical. */
  lemma PriorityZeroIffCritical(c: AnalyzedChange)
    ensures Priority(c) == 0 <==> IsCritical(c)
  {
  }

  datatype AnalysisResult = AnalysisResult(
    oldVersion: string,
    newVersion: string,
    analyzedChanges: seq<AnalyzedChange>,
    metadata: map<string, Json>)

  // ---------------------------------------------------------------------------
  // Filters
  // ---------------------------------------------------------------------------

  /** The groups `AnalysisResult` can list its changes by. */
  datatype Group =
    | BreakingGroup | NonBreakingGroup
    | AdditionGroup | RemovalGroup | ModificationGroup
    | CriticalGroup | HighGroup | MediumGroup | LowGroup

  predicate InGroup(g: Group, c: AnalyzedChange)
  {
    match g
    case BreakingGroup => IsBreaking(c)
    case NonBreakingGroup => c.breakingLevel == NonBreaking
    case AdditionGroup => c.changeType == Addition
    case RemovalGroup => c.changeType == Removal
    case ModificationGroup => c.changeType == Modification
    case CriticalGroup => IsCritical(c)
    case HighGroup => c.impactLevel == High
    case MediumGroup => c.impactLevel == Medium
    case LowGroup => c.impactLevel == Low
  }

  /** `[c for c in changes if <c is in g>]`: the changes of the group, in their original order. */
  function Select(g: Group, xs: seq<AnalyzedChange>): (r: seq<AnalyzedChange>)
    ensures |r| <= |xs|
    ensures forall i :: 0 <= i < |r| ==> InGroup(g, r[i])
  {
    if xs == [] then [] else (if InGroup(g, xs[0]) then [xs[0]] else []) + Select(g, xs[1..])
  }

  /** Selecting from a concatenation selects from each part, so the selection keeps the input order. */
  lemma {:induction false} SelectConcat(g: Group, xs: seq<AnalyzedChange>, ys: seq<AnalyzedChange>)
    ensures Select(g, xs + ys) == Select(g, xs) + Select(g, ys)
    decreases |xs|
  {
    if xs == [] {
      assert xs + ys == ys;
    } else {
      assert (xs + ys)[1..] == xs[1..] + ys;
      SelectConcat(g, xs[1..], ys);
    }
  }

  /** A change occurs in the selection as often as in the input when it is in the group, else never. */
  lemma {:induction false} SelectCount(g: Group, xs: seq<AnalyzedChange>, c: AnalyzedChange)
    ensures multiset(Select(g, xs))[c] == if InGroup(g, c) then multiset(xs)[c] else 0
    decreases |xs|
  {
    if xs != [] {
      SelectCount(g, xs[1..], c);
      assert xs == [xs[0]] + xs[1..];
    }
  }

  /** The selection is non-empty exactly when some change is in the group. */
  lemma {:induction false} SelectNonEmpty(g: Group, xs: seq<AnalyzedChange>)
    ensures |Select(g, xs)| > 0 <==> exists i :: 0 <= i < |xs| && InGroup(g, xs[i])
    decreases |xs|
  {
    if xs != [] {
      SelectNonEmpty(g, xs[1..]);
      if exists i :: 0 <= i < |xs| && InGroup(g, xs[i]) {
        var i :| 0 <= i < |xs| && InGroup(g, xs[i]);
        if i > 0 {
          assert xs[1..][i - 1] == xs[i];
        }
      }
      if exists i :: 0 <= i < |xs[1..]| && InGroup(g, xs[1..][i]) {
        var i :| 0 <= i < |xs[1..]| && InGroup(g, xs[1..][i]);
        assert xs[i + 1] == xs[1..][i];
      }
    }
  }

  function TotalChanges(r: AnalysisResult): nat { |r.analyzedChanges| }

  function BreakingChanges(r: AnalysisResult): seq<AnalyzedChange> { Select(BreakingGroup, r.analyzedChanges) }
  function NonBreakingChanges(r: AnalysisResult): seq<AnalyzedChange> { Select(NonBreakingGroup, r.analyzedChanges) }
  function Additions(r: AnalysisResult): seq<AnalyzedChange> { Select(AdditionGroup, r.analyzedChanges) }
  function Removals(r: AnalysisResult): seq<AnalyzedChange> { Select(RemovalGroup, r.analyzedChanges) }
  function Modifications(r: AnalysisResult): seq<AnalyzedChange> { Select(ModificationGroup, r.analyzedChanges) }
  function CriticalChanges(r: AnalysisResult): seq<AnalyzedChange> { Select(CriticalGroup, r.analyzedChanges) }
  function HighImpactChanges(r: AnalysisResult): seq<AnalyzedChange> { Select(HighGroup, r.analyzedChanges) }
  function MediumImpactChanges(r: AnalysisResult): seq<AnalyzedChange> { Select(MediumGroup, r.analyzedChanges) }
  function LowImpactChanges(r: AnalysisResult): seq<AnalyzedChange> { Select(LowGroup, r.analyzedChanges) }

  /**
   * Breaking and non-breaking changes split the list: together they hold
   * every change exactly once.
   */
  lemma BreakingPartition(r: AnalysisResult)
    ensures multiset(BreakingChanges(r)) + multiset(NonBreakingChanges(r)) == multiset(r.analyzedChanges)
    ensures |BreakingChanges(r)| + |NonBreakingChanges(r)| == TotalChanges(r)
  {
    var xs := r.analyzedChanges;
    forall c ensures (multiset(BreakingChanges(r)) + multiset(NonBreakingChanges(r)))[c] == multiset(xs)[c] {
      SelectCount(BreakingGroup, xs, c);
      SelectCount(NonBreakingGroup, xs, c);
    }
  }

  /** Additions, removals and modifications split the list, so their counts add up to the total. */
  lemma ChangeTypePartition(r: AnalysisResult)
    ensures multiset(Additions(r)) + multiset(Removals(r)) + multiset(Modifications(r)) == multiset(r.analyzedChanges)
    ensures |Additions(r)| + |Removals(r)| + |Modifications(r)| == TotalChanges(r)
  {
    var xs := r.analyzedChanges;
    var a, rm, m := multiset(Additions(r)), multiset(Removals(r)), multiset(Modifications(r));
    forall c ensures (a + rm + m)[c] == multiset(xs)[c] {
      ChangeTypeCount(xs, c);
    }
    assert a + rm + m == multiset(xs);
    SumSizes(a, rm, m, multiset{}, multiset(xs));
  }

  /** The critical, high, medium and low lists split the list by impact. */
  lemma ImpactPartition(r: AnalysisResult)
    ensures multiset(CriticalChanges(r)) + multiset(HighImpactChanges(r)) + multiset(MediumImpactChanges(r))
      + multiset(LowImpactChanges(r)) == multiset(r.analyzedChanges)
    ensures |CriticalChanges(r)| + |HighImpactChanges(r)| + |MediumImpactChanges(r)| + |LowImpactChanges(r)|
      == TotalChanges(r)
  {
    var xs := r.analyzedChanges;
    var c, h, m, l := multiset(CriticalChanges(r)), multiset(HighImpactChanges(r)),
      multiset(MediumImpactChanges(r)), multiset(LowImpactChanges(r));
    forall x ensures (c + h + m + l)[x] == multiset(xs)[x] {
      ImpactCount(xs, x);
    }
    assert c + h + m + l == multiset(xs);
    SumSizes(c, h, m, l, multiset(xs));
  }

  lemma ChangeTypeCount(xs: seq<AnalyzedChange>, x: AnalyzedChange)
    ensures multiset(Select(AdditionGroup, xs))[x] + multiset(Select(RemovalGroup, xs))[x]
      + multiset(Select(ModificationGroup, xs))[x] == multiset(xs)[x]
  {
    SelectCount(AdditionGroup, xs, x);
    SelectCount(RemovalGroup, xs, x);
    SelectCount(ModificationGroup, xs, x);
  }

  lemma ImpactCount(xs: seq<AnalyzedChange>, x: AnalyzedChange)
    ensures multiset(Select(CriticalGroup, xs))[x] + multiset(Select(HighGroup, xs))[x]
      + multiset(Select(MediumGroup, xs))[x] + multiset(Select(LowGroup, xs))[x] == multiset(xs)[x]
  {
    SelectCount(CriticalGroup, xs, x);
    SelectCount(HighGroup, xs, x);
    SelectCount(MediumGroup, xs, x);
    SelectCount(LowGroup, xs, x);
    match x.impactLevel
    case Critical => assert InGroup(CriticalGroup, x) && !InGroup(HighGroup, x) && !InGroup(MediumGroup, x) && !InGroup(LowGroup, x);
    case High => assert !InGroup(CriticalGroup, x) && InGroup(HighGroup, x) && !InGroup(MediumGroup, x) && !InGroup(LowGroup, x);
    case Medium => assert !InGroup(CriticalGroup, x) && !InGroup(HighGroup, x) && InGroup(MediumGroup, x) && !InGroup(LowGroup, x);
    case Low => assert !InGroup(CriticalGroup, x) && !InGroup(HighGroup, x) && !InGroup(MediumGroup, x) && InGroup(LowGroup, x);
  }

  lemma SumSizes<T>(a: multiset<T>, b: multiset<T>, c: multiset<T>, d: multiset<T>, all: multiset<T>)
    requires a + b + c + d == all
    ensures |a| + |b| + |c| + |d| == |all|
  {
  }

  // ---------------------------------------------------------------------------
  // Statistics and summary predicates
  // ---------------------------------------------------------------------------

  datatype ResultStatistics = ResultStatistics(
    totalChanges: nat,
    additions: nat, removals: nat, modifications: nat,
    breaking: nat, nonBreaking: nat,
    critical: nat, high: nat, medium: nat, low: nat)

  /** Each group of counts in the statistics adds up to the total number of changes. */
  function Statistics(r: AnalysisResult): (s: ResultStatistics)
    ensures s.additions + s.removals + s.modifications == s.totalChanges
    ensures s.breaking + s.nonBreaking == s.totalChanges
    ensures s.critical + s.high + s.medium + s.low == s.totalChanges
  {
    ChangeTypePartition(r);
    BreakingPartition(r);
    ImpactPartition(r);
    ResultStatistics(TotalChanges(r),
      |Additions(r)|, |Removals(r)|, |Modifications(r)|,
      |BreakingChanges(r)|, |NonBreakingChanges(r)|,
      |CriticalChanges(r)|, |HighImpactChanges(r)|, |MediumImpactChanges(r)|, |LowImpactChanges(r)|)
  }

  predicate HasCriticalChanges(r: AnalysisResult) { |CriticalChanges(r)| > 0 }

  predicate HasBreakingChanges(r: AnalysisResult) { |BreakingChanges(r)| > 0 }

  predicate RequiresScenarioUpdate(r: AnalysisResult) { HasBreakingChanges(r) }

  /** The summary predicates hold exactly when some change is critical, respectively breaking. */
  lemma SummaryPredicates(r: AnalysisResult)
    ensures HasCriticalChanges(r) <==> exists i :: 0 <= i < |r.analyzedChanges| && InGroup(CriticalGroup, r.analyzedChanges[i])
    ensures HasBreakingChanges(r) <==> exists i :: 0 <= i < |r.analyzedChanges| && InGroup(BreakingGroup, r.analyzedChanges[i])
    ensures RequiresScenarioUpdate(r) <==> HasBreakingChanges(r)
  {
    SelectNonEmpty(CriticalGroup, r.analyzedChanges);
    SelectNonEmpty(BreakingGroup, r.analyzedChanges);
  }

  // ---------------------------------------------------------------------------
  // Sorting
  // ---------------------------------------------------------------------------

  datatype SortField = ByPriority | ByPath | ByImpactLevel

  /** A sort key: a number (priority) or a text (path). */
  datatype SortKey = Rank(n: nat) | Text(s: string)

  function KeyOf(key: SortField, c: AnalyzedChange): SortKey
  {
    match key
    case ByPriority => Rank(Priority(c))
    case ByPath => Text(PathOf(c))
    case ByImpactLevel => Rank(ToPriority(c.impactLevel))
  }

  predicate KeyLess(a: SortKey, b: SortKey)
  {
    match (a, b)
    case (Rank(x), Rank(y)) => x < y
    case (Text(x), Text(y)) => StrLess(x, y)
    case _ => false
  }

  /** `x` sorts strictly before `y` under the sort field `key`, ascending or (when `reverse`) descending. */
  predicate Precedes(key: SortField, reverse: bool, x: AnalyzedChange, y: AnalyzedChange)
  {
    if reverse then KeyLess(KeyOf(key, y), KeyOf(key, x)) else KeyLess(KeyOf(key, x), KeyOf(key, y))
  }

  lemma PrecedesIrreflexive(key: SortField, reverse: bool, x: AnalyzedChange)
    ensures !Precedes(key, reverse, x, x)
  {
    StrLessIrreflexive(PathOf(x));
  }

  /** Elements that precede one another have different keys, so no element precedes itself. */
  lemma PrecedesKeys(key: SortField, reverse: bool, x: AnalyzedChange, y: AnalyzedChange)
    requires Precedes(key, reverse, x, y)
    ensures KeyOf(key, x) != KeyOf(key, y)
  {
    if KeyOf(key, x) == KeyOf(key, y) {
      StrLessIrreflexive(PathOf(x));
    }
  }

  lemma PrecedesTransitive(key: SortField, reverse: bool, x: AnalyzedChange, y: AnalyzedChange, z: AnalyzedChange)
    requires Precedes(key, reverse, x, y) && Precedes(key, reverse, y, z)
    ensures Precedes(key, reverse, x, z)
  {
    if key == ByPath {
      if reverse {
        StrLessTransitive(PathOf(z), PathOf(y), PathOf(x));
      } else {
        StrLessTransitive(PathOf(x), PathOf(y), PathOf(z));
      }
    }
  }

  /** "Does not sort before" is transitive too: `Precedes` is a strict weak order. */
  lemma NotPrecedesTransitive(key: SortField, reverse: bool, x: AnalyzedChange, y: AnalyzedChange, z: AnalyzedChange)
    requires !Precedes(key, reverse, x, y) && !Precedes(key, reverse, y, z)
    ensures !Precedes(key, reverse, x, z)
  {
    if Precedes(key, reverse, x, z) {
      if key == ByPath {
        StrLessTotal(PathOf(y), PathOf(z));
      }
      if Precedes(key, reverse, z, y) {
        PrecedesTransitive(key, reverse, x, z, y);
      }
    }
  }

  /** Insert `x` in front of the first element that does not sort strictly before it. */
  function Insert(key: SortField, reverse: bool, x: AnalyzedChange, s: seq<AnalyzedChange>): (r: seq<AnalyzedChange>)
    ensures |r| == |s| + 1
  {
    if s == [] then [x]
    else if Precedes(key, reverse, s[0], x) then [s[0]] + Insert(key, reverse, x, s[1..])
    else [x] + s
  }

  /** Inserting adds `x` and loses nothing. */
  lemma {:induction false} InsertPermutes(key: SortField, reverse: bool, x: AnalyzedChange, s: seq<AnalyzedChange>)
    ensures multiset(Insert(key, reverse, x, s)) == multiset{x} + multiset(s)
    decreases |s|
  {
    if s != [] && Precedes(key, reverse, s[0], x) {
      InsertPermutes(key, reverse, x, s[1..]);
      assert s == [s[0]] + s[1..];
    }
  }

  /** Python's stable `sorted(changes, key=…, reverse=…)`, as an insertion sort. */
  function Sort(key: SortField, reverse: bool, xs: seq<AnalyzedChange>): (r: seq<AnalyzedChange>)
    ensures |r| == |xs|
  {
    if xs == [] then [] else Insert(key, reverse, xs[0], Sort(key, reverse, xs[1..]))
  }

  /** Sorting is a permutation. */
  lemma {:induction false} SortPermutes(key: SortField, reverse: bool, xs: seq<AnalyzedChange>)
    ensures multiset(Sort(key, reverse, xs)) == multiset(xs)
    decreases |xs|
  {
    if xs != [] {
      SortPermutes(key, reverse, xs[1..]);
      InsertPermutes(key, reverse, xs[0], Sort(key, reverse, xs[1..]));
      assert xs == [xs[0]] + xs[1..];
    }
  }

  predicate SortedBy(key: SortField, reverse: bool, s: seq<AnalyzedChange>)
  {
    forall i, j :: 0 <= i < j < |s| ==> !Precedes(key, reverse, s[j], s[i])
  }

  /** Nothing in `s` sorts strictly before `y`. */
  predicate NoneBefore(key: SortField, reverse: bool, s: seq<AnalyzedChange>, y: AnalyzedChange)
  {
    forall j :: 0 <= j < |s| ==> !Precedes(key, reverse, s[j], y)
  }

  lemma ConsSorted(key: SortField, reverse: bool, y: AnalyzedChange, t: seq<AnalyzedChange>)
    requires SortedBy(key, reverse, t) && NoneBefore(key, reverse, t, y)
    ensures SortedBy(key, reverse, [y] + t)
  {
    var r := [y] + t;
    forall i, j | 0 <= i < j < |r|
      ensures !Precedes(key, reverse, r[j], r[i])
    {
      assert r[j] == t[j - 1];
      if i > 0 {
        assert r[i] == t[i - 1];
      }
    }
  }

  /** A bound that holds for `x` and for every element of `s` holds for every element of `Insert(x, s)`. */
  lemma InsertNoneBefore(key: SortField, reverse: bool, x: AnalyzedChange, s: seq<AnalyzedChange>, y: AnalyzedChange)
    requires NoneBefore(key, reverse, s, y) && !Precedes(key, reverse, x, y)
    ensures NoneBefore(key, reverse, Insert(key, reverse, x, s), y)
  {
    var r := Insert(key, reverse, x, s);
    InsertPermutes(key, reverse, x, s);
    forall j | 0 <= j < |r|
      ensures !Precedes(key, reverse, r[j], y)
    {
      assert r[j] in multiset(r);
      if r[j] != x {
        assert r[j] in multiset(s);
        var k :| 0 <= k < |s| && s[k] == r[j];
      }
    }
  }

  lemma {:induction false} InsertSorted(key: SortField, reverse: bool, x: AnalyzedChange, s: seq<AnalyzedChange>)
    requires SortedBy(key, reverse, s)
    ensures SortedBy(key, reverse, Insert(key, reverse, x, s))
    decreases |s|
  {
    if s == [] {
    } else if Precedes(key, reverse, s[0], x) {
      var t := s[1..];
      assert SortedBy(key, reverse, t) by {
        forall i, j | 0 <= i < j < |t| ensures !Precedes(key, reverse, t[j], t[i]) {
          assert t[i] == s[i + 1] && t[j] == s[j + 1];
        }
      }
      InsertSorted(key, reverse, x, t);
      assert NoneBefore(key, reverse, t, s[0]) by {
        forall j | 0 <= j < |t| ensures !Precedes(key, reverse, t[j], s[0]) {
          assert t[j] == s[j + 1];
        }
      }
      if Precedes(key, reverse, x, s[0]) {
        PrecedesTransitive(key, reverse, x, s[0], x);
        PrecedesIrreflexive(key, reverse, x);
      }
      InsertNoneBefore(key, reverse, x, t, s[0]);
      ConsSorted(key, reverse, s[0], Insert(key, reverse, x, t));
    } else {
      assert NoneBefore(key, reverse, s, x) by {
        forall j | 0 <= j < |s| ensures !Precedes(key, reverse, s[j], x) {
          if j > 0 {
            NotPrecedesTransitive(key, reverse, s[j], s[0], x);
          }
        }
      }
      ConsSorted(key, reverse, x, s);
    }
  }

  lemma {:induction false} SortSorted(key: SortField, reverse: bool, xs: seq<AnalyzedChange>)
    ensures SortedBy(key, reverse, Sort(key, reverse, xs))
    decreases |xs|
  {
    if xs != [] {
      SortSorted(key, reverse, xs[1..]);
      InsertSorted(key, reverse, xs[0], Sort(key, reverse, xs[1..]));
    }
  }

  /** The changes of `s` whose sort key is `k`, in order. */
  function WithKey(key: SortField, k: SortKey, s: seq<AnalyzedChange>): seq<AnalyzedChange>
  {
    if s == [] then [] else (if KeyOf(key, s[0]) == k then [s[0]] else []) + WithKey(key, k, s[1..])
  }

  /** Inserting `x` puts it ahead of every element with the same key. */
  lemma {:induction false} InsertStable(key: SortField, reverse: bool, x: AnalyzedChange, s: seq<AnalyzedChange>, k: SortKey)
    ensures WithKey(key, k, Insert(key, reverse, x, s))
      == (if KeyOf(key, x) == k then [x] else []) + WithKey(key, k, s)
    decreases |s|
  {
    if s == [] {
      assert [x][1..] == [];
    } else if Precedes(key, reverse, s[0], x) {
      var tail := Insert(key, reverse, x, s[1..]);
      var r := [s[0]] + tail;
      assert Insert(key, reverse, x, s) == r;
      assert r[0] == s[0] && r[1..] == tail;
      var h0 := if KeyOf(key, s[0]) == k then [s[0]] else [];
      var hx := if KeyOf(key, x) == k then [x] else [];
      assert WithKey(key, k, r) == h0 + WithKey(key, k, tail);
      InsertStable(key, reverse, x, s[1..], k);
      PrecedesKeys(key, reverse, s[0], x);
      assert h0 == [] || hx == [];
      assert WithKey(key, k, s) == h0 + WithKey(key, k, s[1..]);
    } else {
      assert ([x] + s)[1..] == s;
    }
  }

  /**
   * Stability: for every key, the changes with that key appear in the
   * sorted list in the same relative order as in the input.
   */
  lemma {:induction false} SortStable(key: SortField, reverse: bool, xs: seq<AnalyzedChange>, k: SortKey)
    ensures WithKey(key, k, Sort(key, reverse, xs)) == WithKey(key, k, xs)
    decreases |xs|
  {
    if xs != [] {
      SortStable(key, reverse, xs[1..], k);
      InsertStable(key, reverse, xs[0], Sort(key, reverse, xs[1..]), k);
    }
  }

  datatype Sorted = SortedChanges(changes: seq<AnalyzedChange>) | UnknownSortField(message: string)

  function SortFieldOf(key: string): Option<SortField>
  {
    if key == "priority" then Some(ByPriority)
    else if key == "path" then Some(ByPath)
    else if key == "impact_level" then Some(ByImpactLevel)
    else None
  }

  /**
   * `get_sorted_changes`: a stable sort key priority, path or impact level;
   * any other field name is a ValueError.
   */
  function GetSortedChanges(r: AnalysisResult, key: string, reverse: bool): (s: Sorted)
    ensures s.UnknownSortField? <==> key !in {"priority", "path", "impact_level"}
    ensures s.UnknownSortField? ==> s.message == "Неизвестное поле для сортировки: " + key
    ensures s.SortedChanges? ==> multiset(s.changes) == multiset(r.analyzedChanges)
    ensures s.SortedChanges? ==> SortedBy(SortFieldOf(key).value, reverse, s.changes)
  {
    match SortFieldOf(key)
    case None => UnknownSortField("Неизвестное поле для сортировки: " + key)
    case Some(field) =>
      SortSorted(field, reverse, r.analyzedChanges);
      SortPermutes(field, reverse, r.analyzedChanges);
      SortedChanges(Sort(field, reverse, r.analyzedChanges))
  }

  /** Sorting key "priority" and key "impact_level" give the same list. */
  lemma {:induction false} PriorityAndImpactSortAgree(reverse: bool, xs: seq<AnalyzedChange>)
    ensures Sort(ByPriority, reverse, xs) == Sort(ByImpactLevel, reverse, xs)
    decreases |xs|
  {
    if xs != [] {
      PriorityAndImpactSortAgree(reverse, xs[1..]);
      InsertAgree(reverse, xs[0], Sort(ByPriority, reverse, xs[1..]));
    }
  }

  lemma {:induction false} InsertAgree(reverse: bool, x: AnalyzedChange, s: seq<AnalyzedChange>)
    ensures Insert(ByPriority, reverse, x, s) == Insert(ByImpactLevel, reverse, x, s)
    decreases |s|
  {
    if s != [] {
      InsertAgree(reverse, x, s[1..]);
    }
  }
}
