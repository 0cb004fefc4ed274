/**
 * The comparator of two flattened schemas (`{path: FieldMetadata}`): it
 * splits the union of paths into added, removed and modified fields and
 * describes, attribute by attribute, what changed in a modified field.
 */
module SchemaComparator {
  import opened Common
  import opened JsonData
  import opened SchemaModels

  // ---------------------------------------------------------------------------
  // Do two fields differ?
  // ---------------------------------------------------------------------------

  /**
   * `_fields_differ`: type, requiredness, conditional requiredness, the
   * condition expression (None when there is no condition), dictionary,
   * constraints, format or default value differ.
   */
  predicate FieldsDiffer(a: FieldMetadata, b: FieldMetadata)
    ensures FieldsDiffer(a, b) ==> a != b
  {
    a.fieldType != b.fieldType || a.isRequired != b.isRequired || a.isConditional != b.isConditional
    || a.condition != b.condition || a.dictionary != b.dictionary || a.constraints != b.constraints
    || a.format != b.format || a.default != b.default
  }

  /** A field never differs from itself, and differing is symmetric. */
  lemma FieldsDifferProps(a: FieldMetadata, b: FieldMetadata)
    ensures !FieldsDiffer(a, a)
    ensures FieldsDiffer(a, b) == FieldsDiffer(b, a)
    ensures (a.path == b.path && a.name == b.name && a.description == b.description && a.items == b.items
      && !FieldsDiffer(a, b)) ==> a == b
  {
  }

  // ---------------------------------------------------------------------------
  // Constraint changes
  // ---------------------------------------------------------------------------

  /** The Russian name of a known constraint; any other key names itself. */
  function ConstraintName(key: string): string
  {
    if key == "minLength" then "Минимальная длина"
    else if key == "maxLength" then "Максимальная длина"
    else if key == "minimum" then "Минимальное значение"
    else if key == "maximum" then "Максимальное значение"
    else if key == "maxIntLength" then "Максимальная длина целой части"
    else if key == "minItems" then "Минимальное количество элементов"
    else if key == "maxItems" then "Максимальное количество элементов"
    else if key == "pattern" then "Регулярное выражение"
    else key
  }

  /** Lower bounds: raising them is the stricter direction. */
  predicate IsLowerBound(key: string)
  {
    key == "minLength" || key == "minimum" || key == "minItems"
  }

  /** A numeric constraint moved in the stricter direction. */
  predicate Tightened(key: string, oldVal: Json, newVal: Json)
    requires IsNumber(oldVal) && IsNumber(newVal)
  {
    if IsLowerBound(key) then NumberValue(newVal) > NumberValue(oldVal)
    else NumberValue(newVal) < NumberValue(oldVal)
  }

  /** The description of one constraint key whose value differs. */
  function ConstraintPart(key: string, oldC: map<string, Json>, newC: map<string, Json>): (r: string)
    ensures r != ""
  {
    var name := ConstraintName(key);
    var oldVal, newVal := Get(oldC, key), Get(newC, key);
    if oldVal == JNull then name + " добавлено: " + PyStr(newVal)
    else if newVal == JNull then name + " удалено (было: " + PyStr(oldVal) + ")"
    else if IsNumber(oldVal) && IsNumber(newVal) then
      name + " " + (if Tightened(key, oldVal, newVal) then "ужесточено" else "смягчено") + ": "
      + PyStr(oldVal) + " → " + PyStr(newVal)
    else name + " изменено: " + PyStr(oldVal) + " → " + PyStr(newVal)
  }

  /** The keys the constraint description mentions: every key but "custom" whose value differs. */
  function DifferingKeys(oldC: map<string, Json>, newC: map<string, Json>): set<string>
  {
    set k | k in oldC.Keys + newC.Keys && k != "custom" && Get(oldC, k) != Get(newC, k)
  }

  /** `order` lists each differing key exactly once: some iteration order of Python's set of keys. */
  ghost predicate KeyOrder(order: seq<string>, oldC: map<string, Json>, newC: map<string, Json>)
  {
    (forall i, j :: 0 <= i < j < |order| ==> order[i] != order[j])
    && (forall k :: k in order <==> k in DifferingKeys(oldC, newC))
  }

  function Parts(order: seq<string>, oldC: map<string, Json>, newC: map<string, Json>): (r: seq<string>)
    ensures |r| == |order|
    ensures forall i :: 0 <= i < |order| ==> r[i] == ConstraintPart(order[i], oldC, newC)
  {
    seq(|order|, i requires 0 <= i < |order| => ConstraintPart(order[i], oldC, newC))
  }

  /** The constraint description for the keys taken in the order `order`. */
  function ConstraintDescription(oldC: map<string, Json>, newC: map<string, Json>, order: seq<string>): string
  {
    Join(Parts(order, oldC, newC), "; ")
  }

  /** `t` is what `_analyze_constraint_changes` returns for some iteration order of the keys. */
  ghost predicate DescribesConstraints(t: string, oldC: map<string, Json>, newC: map<string, Json>)
  {
    exists order :: KeyOrder(order, oldC, newC) && t == ConstraintDescription(oldC, newC, order)
  }

  /**
   * `_analyze_constraint_changes`: one part per differing key, in the order
   * Python happens to iterate the set of keys, joined with "; ".
   */
  method AnalyzeConstraintChanges(oldC: map<string, Json>, newC: map<string, Json>)
    returns (r: string, ghost order: seq<string>)
    ensures KeyOrder(order, oldC, newC)
    ensures r == ConstraintDescription(oldC, newC, order)
  {
    var keys := oldC.Keys + newC.Keys;
    ghost var seen: set<string> := {};
    var parts: seq<string> := [];
    order := [];
    while keys != {}
      invariant keys + seen == oldC.Keys + newC.Keys && keys !! seen
      invariant forall i, j :: 0 <= i < j < |order| ==> order[i] != order[j]
      invariant forall k :: k in order <==> k in seen && k in DifferingKeys(oldC, newC)
      invariant parts == Parts(order, oldC, newC)
      decreases keys
    {
      var key :| key in keys;
      keys := keys - {key};
      seen := seen + {key};
      if key == "custom" {
        continue;
      }
      if Get(oldC, key) != Get(newC, key) {
        parts := parts + [ConstraintPart(key, oldC, newC)];
        order := order + [key];
      }
    }
    r := Join(parts, "; ");
  }

  /** The description is empty exactly when no key other than "custom" changed its value. */
  lemma ConstraintDescriptionEmpty(oldC: map<string, Json>, newC: map<string, Json>, order: seq<string>)
    requires KeyOrder(order, oldC, newC)
    ensures ConstraintDescription(oldC, newC, order) == "" <==> DifferingKeys(oldC, newC) == {}
  {
    JoinEmpty(Parts(order, oldC, newC), "; ");
    if order != [] {
      assert order[0] in DifferingKeys(oldC, newC);
    }
  }

  /**
   * The direction of a numeric change: a lower bound (minLength, minimum,
   * minItems) is tightened when it grows, any other bound when it shrinks.
   */
  lemma ConstraintDirection(key: string, oldC: map<string, Json>, newC: map<string, Json>)
    requires key in oldC && key in newC && oldC[key] != JNull && newC[key] != JNull
    requires IsNumber(oldC[key]) && IsNumber(newC[key])
    ensures var o, n := NumberValue(oldC[key]), NumberValue(newC[key]);
      var word := if (IsLowerBound(key) && n > o) || (!IsLowerBound(key) && n < o) then "ужесточено" else "смягчено";
      ConstraintPart(key, oldC, newC)
      == ConstraintName(key) + " " + word + ": " + PyStr(oldC[key]) + " → " + PyStr(newC[key])
  {
  }

  /**
   * A key present on one side only reads "<name> добавлено: <new>" or
   * "<name> удалено (было: <old>)".
   */
  lemma ConstraintOneSided(key: string, oldC: map<string, Json>, newC: map<string, Json>)
    ensures key !in oldC && key in newC && newC[key] != JNull ==>
      ConstraintPart(key, oldC, newC) == ConstraintName(key) + " добавлено: " + PyStr(newC[key])
    ensures key in oldC && oldC[key] != JNull && key !in newC ==>
      ConstraintPart(key, oldC, newC) == ConstraintName(key) + " удалено (было: " + PyStr(oldC[key]) + ")"
  {
  }

  // ---------------------------------------------------------------------------
  // Condition changes
  // ---------------------------------------------------------------------------

  /** `expr[:n].replace('\n', ' ').strip()`. */
  function Preview(s: string, n: nat): (r: string)
    ensures |r| <= n
    ensures '\n' !in r
  {
    var t := ReplaceChar(Take(s, n), '\n', ' ');
    assert '\n' !in t by {
      forall i | 0 <= i < |t| ensures t[i] != '\n' { }
    }
    Strip(t)
  }

  /** "..." when `s` was cut at `n` characters. */
  function Ellipsis(s: string, n: nat): string
  {
    if |s| > n then "..." else ""
  }

  /** A character of the class `[0-9,\s]`. */
  predicate InListClass(c: char) { IsDigit(c) || c == ',' || IsSpace(c) }

  /** End of the run of `[0-9,\s]` characters starting at `j`. */
  function ListRunEnd(s: string, j: nat): (e: nat)
    requires j <= |s|
    ensures j <= e <= |s|
    ensures forall k :: j <= k < e ==> InListClass(s[k])
    ensures e < |s| ==> !InListClass(s[e])
    decreases |s| - j
  {
    if j < |s| && InListClass(s[j]) then ListRunEnd(s, j + 1) else j
  }

  /** End of the run of whitespace starting at `j`. */
  function SpaceRunEnd(s: string, j: nat): (e: nat)
    requires j <= |s|
    ensures j <= e <= |s|
    ensures forall k :: j <= k < e ==> IsSpace(s[k])
    ensures e < |s| ==> !IsSpace(s[e])
    decreases |s| - j
  {
    if j < |s| && IsSpace(s[j]) then SpaceRunEnd(s, j + 1) else j
  }

  /** Position of the first comma at or after `j`, or `|s|`. */
  function NextComma(s: string, j: nat): (c: nat)
    requires j <= |s|
    ensures j <= c <= |s|
    ensures forall k :: j <= k < c ==> s[k] != ','
    ensures c < |s| ==> s[c] == ','
    decreases |s| - j
  {
    if j < |s| && s[j] != ',' then NextComma(s, j + 1) else j
  }

  datatype ListMatch = ListMatch(group: string, next: nat)

  /**
   * A match of `in\([^,]+,\s*([0-9,\s]+)\)` starting exactly at `i`, with
   * its captured group and the position after it. `[^,]+` can only end
   * before the first comma, and the group can only end before the first
   * character outside its class, so no other backtracking choice exists.
   */
  function ListMatchAt(s: string, i: nat): (m: Option<ListMatch>)
    requires i <= |s|
    ensures m.Some? ==> i < m.value.next <= |s| && m.value.group != []
    ensures m.Some? ==> forall k :: 0 <= k < |m.value.group| ==> InListClass(m.value.group[k])
  {
    if i + 3 <= |s| && s[i..i + 3] == "in(" then
      var c := NextComma(s, i + 3);
      if i + 3 < c < |s| then
        var e := ListRunEnd(s, c + 1);
        if c + 1 < e < |s| && s[e] == ')' then
          var w := SpaceRunEnd(s, c + 1);
          var start := if w < e then w else e - 1;
          Some(ListMatch(s[start..e], e + 1))
        else None
      else None
    else None
  }

  /** `re.findall(r'in\([^,]+,\s*([0-9,\s]+)\)', s[i..])`: the captured value lists, left to right. */
  function ListGroups(s: string, i: nat): (r: seq<string>)
    requires i <= |s|
    decreases |s| - i
  {
    if i == |s| then []
    else
      match ListMatchAt(s, i)
      case Some(m) => [m.group] + ListGroups(s, m.next)
      case None => ListGroups(s, i + 1)
  }

  /** The numbers (as digit strings) of every value list. */
  function Numbers(groups: seq<string>): (r: seq<string>)
    ensures forall i :: 0 <= i < |r| ==> AllDigits(r[i])
  {
    if groups == [] then [] else DigitRuns(groups[0]) + Numbers(groups[1..])
  }

  /** `[x for x in xs if x not in ys]`. */
  function Minus(xs: seq<string>, ys: seq<string>): (r: seq<string>)
    ensures forall x :: x in r <==> x in xs && x !in ys
  {
    if xs == [] then []
    else (if xs[0] in ys then [] else [xs[0]]) + Minus(xs[1..], ys)
  }

  /** `new - old` of the value sets, sorted. */
  function AddedValues(oldExpr: string, newExpr: string): seq<string>
  {
    SortedSet(Minus(Numbers(ListGroups(newExpr, 0)), Numbers(ListGroups(oldExpr, 0))))
  }

  function RemovedValues(oldExpr: string, newExpr: string): seq<string>
  {
    AddedValues(newExpr, oldExpr)
  }

  /** `_describe_condition_change`. */
  function DescribeConditionChange(oldExpr: string, newExpr: string): (r: string)
    ensures r != ""
  {
    if oldExpr == "" && newExpr != "" then
      "Добавлено условие: " + Preview(newExpr, 100) + Ellipsis(newExpr, 100)
    else if oldExpr != "" && newExpr == "" then
      "Условие удалено: " + Preview(oldExpr, 100) + Ellipsis(oldExpr, 100)
    else
      var added, removed := AddedValues(oldExpr, newExpr), RemovedValues(oldExpr, newExpr);
      if ListGroups(oldExpr, 0) != [] && ListGroups(newExpr, 0) != [] && added != [] && removed == [] then
        if |added| <= 10 then "Добавлены значения: " + Join(added, ", ")
        else "Добавлено " + NatToString(|added|) + " значений в условие"
      else if ListGroups(oldExpr, 0) != [] && ListGroups(newExpr, 0) != [] && removed != [] && added == [] then
        if |removed| <= 10 then "Удалены значения: " + Join(removed, ", ")
        else "Удалено " + NatToString(|removed|) + " значений из условия"
      else if ListGroups(oldExpr, 0) != [] && ListGroups(newExpr, 0) != [] && added != [] && removed != [] then
        MixedText(added, removed)
      else if Preview(oldExpr, 80) != Preview(newExpr, 80) then
        "Условие изменилось (было: " + Preview(oldExpr, 80) + Ellipsis(oldExpr, 80) + ")"
      else "Условие изменилось"
  }

  /**
   * The text for value lists that both gained and lost values: each side
   * lists its values when there are at most five, else only their count,
   * and the joined text is capitalised.
   */
  function MixedText(added: seq<string>, removed: seq<string>): (r: string)
    ensures r != ""
  {
    var addedPart := if |added| <= 5 then "добавлены: " + Join(added, ", ")
                     else "добавлено: " + NatToString(|added|);
    var removedPart := if |removed| <= 5 then "удалены: " + Join(removed, ", ")
                       else "удалено: " + NatToString(|removed|);
    Capitalize(addedPart + "; " + removedPart)
  }

  /** A condition that appears is shown by a preview of at most 100 characters, "..." marking a cut. */
  lemma ConditionAppears(newExpr: string)
    requires newExpr != ""
    ensures var p := Preview(newExpr, 100);
      DescribeConditionChange("", newExpr) == "Добавлено условие: " + p + (if |newExpr| > 100 then "..." else "")
      && |p| <= 100 && '\n' !in p
  {
  }

  /** A condition that disappears is shown the same way, after "Условие удалено: ". */
  lemma ConditionDisappears(oldExpr: string)
    requires oldExpr != ""
    ensures var p := Preview(oldExpr, 100);
      DescribeConditionChange(oldExpr, "") == "Условие удалено: " + p + (if |oldExpr| > 100 then "..." else "")
      && |p| <= 100 && '\n' !in p
  {
  }

  /**
   * When both conditions hold `in(…)` value lists and values were only
   * added, at most ten of them, the description lists exactly the new
   * values, in ascending order and without repetition.
   */
  lemma AddedValuesListed(oldExpr: string, newExpr: string)
    requires oldExpr != "" && newExpr != ""
    requires ListGroups(oldExpr, 0) != [] && ListGroups(newExpr, 0) != []
    requires RemovedValues(oldExpr, newExpr) == [] && 0 < |AddedValues(oldExpr, newExpr)| <= 10
    ensures var vs := AddedValues(oldExpr, newExpr);
      DescribeConditionChange(oldExpr, newExpr) == "Добавлены значения: " + Join(vs, ", ")
      && StrictlyAscending(vs)
      && (forall v :: v in vs <==> v in Numbers(ListGroups(newExpr, 0)) && v !in Numbers(ListGroups(oldExpr, 0)))
      && |vs| == |set v | v in vs|
  {
    var vs := AddedValues(oldExpr, newExpr);
    SortedSetProps(Minus(Numbers(ListGroups(newExpr, 0)), Numbers(ListGroups(oldExpr, 0))));
    AscendingCard(vs);
  }

  /** Every value an added or removed list holds is a digit string. */
  lemma ValuesAreDigits(oldExpr: string, newExpr: string)
    ensures forall i :: 0 <= i < |AddedValues(oldExpr, newExpr)| ==> AllDigits(AddedValues(oldExpr, newExpr)[i])
  {
    var vs := AddedValues(oldExpr, newExpr);
    SortedSetProps(Minus(Numbers(ListGroups(newExpr, 0)), Numbers(ListGroups(oldExpr, 0))));
    forall i | 0 <= i < |vs|
      ensures AllDigits(vs[i])
    {
      assert vs[i] in vs;
    }
  }

  /** A list of value numbers joined with ", " holds no upper-case letter. */
  lemma JoinedValuesLower(oldExpr: string, newExpr: string)
    ensures LowerFixed(Join(AddedValues(oldExpr, newExpr), ", "))
  {
    var vs := AddedValues(oldExpr, newExpr);
    ValuesAreDigits(oldExpr, newExpr);
    forall i | 0 <= i < |vs|
      ensures LowerFixed(vs[i])
    {
      DigitsLowerFixed(vs[i]);
    }
    JoinLowerFixed(vs, ", ");
  }

  /**
   * When values were both added and removed, at most five of each, the
   * description lists both, each in ascending order: capitalisation only
   * raises the first letter, since the rest holds digits and lower-case words.
   */
  lemma MixedValuesListed(oldExpr: string, newExpr: string)
    requires oldExpr != "" && newExpr != ""
    requires ListGroups(oldExpr, 0) != [] && ListGroups(newExpr, 0) != []
    requires 0 < |AddedValues(oldExpr, newExpr)| <= 5 && 0 < |RemovedValues(oldExpr, newExpr)| <= 5
    ensures DescribeConditionChange(oldExpr, newExpr)
         == "Добавлены: " + Join(AddedValues(oldExpr, newExpr), ", ")
            + "; удалены: " + Join(RemovedValues(oldExpr, newExpr), ", ")
    ensures StrictlyAscending(AddedValues(oldExpr, newExpr)) && StrictlyAscending(RemovedValues(oldExpr, newExpr))
  {
    var ja, jr := Join(AddedValues(oldExpr, newExpr), ", "), Join(RemovedValues(oldExpr, newExpr), ", ");
    SortedSetProps(Minus(Numbers(ListGroups(newExpr, 0)), Numbers(ListGroups(oldExpr, 0))));
    SortedSetProps(Minus(Numbers(ListGroups(oldExpr, 0)), Numbers(ListGroups(newExpr, 0))));
    JoinedValuesLower(oldExpr, newExpr);
    JoinedValuesLower(newExpr, oldExpr);
    MixedBranch(oldExpr, newExpr);
    CapitalizeMixed(ja, jr);
  }

  lemma MixedBranch(oldExpr: string, newExpr: string)
    requires oldExpr != "" && newExpr != ""
    requires ListGroups(oldExpr, 0) != [] && ListGroups(newExpr, 0) != []
    requires 0 < |AddedValues(oldExpr, newExpr)| <= 5 && 0 < |RemovedValues(oldExpr, newExpr)| <= 5
    ensures DescribeConditionChange(oldExpr, newExpr)
         == Capitalize("добавлены: " + Join(AddedValues(oldExpr, newExpr), ", ")
                       + "; " + "удалены: " + Join(RemovedValues(oldExpr, newExpr), ", "))
  {
    var added, removed := AddedValues(oldExpr, newExpr), RemovedValues(oldExpr, newExpr);
    var ja, jr := Join(added, ", "), Join(removed, ", ");
    assert DescribeConditionChange(oldExpr, newExpr) == MixedText(added, removed);
    assert MixedText(added, removed) == Capitalize(("добавлены: " + ja) + "; " + ("удалены: " + jr));
    assert ("добавлены: " + ja) + "; " + ("удалены: " + jr) == "добавлены: " + ja + "; " + "удалены: " + jr;
  }

  lemma CapitalizeMixed(ja: string, jr: string)
    requires LowerFixed(ja) && LowerFixed(jr)
    ensures Capitalize("добавлены: " + ja + "; " + "удалены: " + jr) == "Добавлены: " + ja + "; удалены: " + jr
  {
    var t := "добавлены: " + ja + "; " + "удалены: " + jr;
    MixedTextLower(ja, jr);
    CapitalizeFixed(t);
    RaiseFirst(ja, jr);
  }

  lemma MixedTextLower(ja: string, jr: string)
    requires LowerFixed(ja) && LowerFixed(jr)
    ensures LowerFixed("добавлены: " + ja + "; " + "удалены: " + jr)
  {
    assert LowerFixed("добавлены: ");
    assert LowerFixed("; ");
    assert LowerFixed("удалены: ");
    LowerFixedConcat("добавлены: ", ja);
    LowerFixedConcat("добавлены: " + ja, "; ");
    LowerFixedConcat("добавлены: " + ja + "; ", "удалены: ");
    LowerFixedConcat("добавлены: " + ja + "; " + "удалены: ", jr);
  }

  lemma RaiseFirst(ja: string, jr: string)
    ensures var t := "добавлены: " + ja + "; " + "удалены: " + jr;
      t[0] == 'д' && [UpperChar('д')] + t[1..] == "Добавлены: " + ja + "; удалены: " + jr
  {
    var t := "добавлены: " + ja + "; " + "удалены: " + jr;
    var u := "Добавлены: " + ja + "; удалены: " + jr;
    assert UpperChar('д') == 'Д';
    assert |t| == |u|;
    forall i | 0 <= i < |u|
      ensures ([UpperChar('д')] + t[1..])[i] == u[i]
    {
      if i >= 11 + |ja| + 11 {
        assert t[i] == jr[i - 22 - |ja|] == u[i];
      } else if i >= 11 + |ja| {
        assert t[i] == u[i];
      } else if i >= 11 {
        assert t[i] == ja[i - 11] == u[i];
      } else if i > 0 {
        assert t[i] == u[i];
      }
    }
  }

  /**
   * Two present conditions whose value lists cannot be compared (a side
   * without `in(…)` lists, or lists with the same values) are compared by
   * their 80-character previews: the old preview is shown when they differ.
   */
  lemma ConditionFallback(oldExpr: string, newExpr: string)
    requires oldExpr != "" && newExpr != ""
    requires ListGroups(oldExpr, 0) == [] || ListGroups(newExpr, 0) == []
      || (AddedValues(oldExpr, newExpr) == [] && RemovedValues(oldExpr, newExpr) == [])
    ensures DescribeConditionChange(oldExpr, newExpr)
         == if Preview(oldExpr, 80) != Preview(newExpr, 80)
            then "Условие изменилось (было: " + Preview(oldExpr, 80) + (if |oldExpr| > 80 then "..." else "") + ")"
            else "Условие изменилось"
  {
  }

  // ---------------------------------------------------------------------------
  // The description of a modified field
  // ---------------------------------------------------------------------------

  /** The condition expression, "" when there is none. */
  function ConditionText(f: FieldMetadata): string
  {
    if f.condition.Some? then f.condition.value else ""
  }

  /** One attribute's entry, written when `present`. */
  datatype Slot = Slot(present: bool, key: string, text: string)

  function Emit(s: Slot): (r: Changes)
    ensures s.present ==> r == [Entry(s.key, s.text)]
    ensures !s.present ==> r == []
  {
    if s.present then [Entry(s.key, s.text)] else []
  }

  /** The entries of the present slots, in slot order. */
  function Collect(ss: seq<Slot>): Changes
  {
    if ss == [] then [] else Collect(ss[..|ss| - 1]) + Emit(ss[|ss| - 1])
  }

  lemma EmitHasKey(s: Slot, k: string)
    ensures HasKey(Emit(s), k) <==> s.present && s.key == k
    ensures s.present ==> HasKey(Emit(s), s.key) && Lookup(Emit(s), s.key) == s.text
  {
    if s.present {
      assert Emit(s)[0].key == s.key;
    }
  }

  lemma {:induction false} CollectHasKey(ss: seq<Slot>, k: string)
    ensures HasKey(Collect(ss), k) <==> exists i :: 0 <= i < |ss| && ss[i].present && ss[i].key == k
    decreases |ss|
  {
    if ss != [] {
      var init, last := ss[..|ss| - 1], ss[|ss| - 1];
      CollectHasKey(init, k);
      HasKeyConcat(Collect(init), Emit(last), k);
      EmitHasKey(last, k);
      if exists i :: 0 <= i < |ss| && ss[i].present && ss[i].key == k {
        var i :| 0 <= i < |ss| && ss[i].present && ss[i].key == k;
        if i < |ss| - 1 {
          assert init[i] == ss[i];
        }
      }
      if exists i :: 0 <= i < |init| && init[i].present && init[i].key == k {
        var i :| 0 <= i < |init| && init[i].present && init[i].key == k;
        assert ss[i] == init[i];
      }
    }
  }

  predicate DistinctSlots(ss: seq<Slot>)
  {
    forall i, j :: 0 <= i < j < |ss| ==> ss[i].key != ss[j].key
  }

  lemma {:induction false} CollectDistinct(ss: seq<Slot>)
    requires DistinctSlots(ss)
    ensures DistinctKeys(Collect(ss))
    decreases |ss|
  {
    if ss != [] {
      var init, last := ss[..|ss| - 1], ss[|ss| - 1];
      CollectDistinct(init);
      forall k ensures !(HasKey(Collect(init), k) && HasKey(Emit(last), k)) {
        CollectHasKey(init, k);
        EmitHasKey(last, k);
      }
      DistinctConcat(Collect(init), Emit(last));
    }
  }

  /** Nothing is collected exactly when no slot is present. */
  lemma {:induction false} CollectEmpty(ss: seq<Slot>)
    ensures Collect(ss) == [] <==> forall i :: 0 <= i < |ss| ==> !ss[i].present
    decreases |ss|
  {
    if ss != [] {
      var init, last := ss[..|ss| - 1], ss[|ss| - 1];
      CollectEmpty(init);
      if Collect(ss) == [] {
        assert Collect(init) == [] && !last.present;
        forall i | 0 <= i < |ss| ensures !ss[i].present {
          if i < |ss| - 1 { assert init[i] == ss[i]; }
        }
      }
      if forall i :: 0 <= i < |ss| ==> !ss[i].present {
        forall i | 0 <= i < |init| ensures !init[i].present {
          assert init[i] == ss[i];
        }
      }
    }
  }

  /** With distinct slot keys, looking up a present slot's key finds that slot's text. */
  lemma {:induction false} CollectLookup(ss: seq<Slot>, i: nat)
    requires DistinctSlots(ss) && i < |ss| && ss[i].present
    ensures HasKey(Collect(ss), ss[i].key) && Lookup(Collect(ss), ss[i].key) == ss[i].text
    decreases |ss|
  {
    var init, last := ss[..|ss| - 1], ss[|ss| - 1];
    var k := ss[i].key;
    EmitHasKey(last, k);
    if i == |ss| - 1 {
      CollectHasKey(init, k);
      LookupConcat(Collect(init), Emit(last), k);
    } else {
      assert init[i] == ss[i];
      CollectLookup(init, i);
      LookupConcat(Collect(init), Emit(last), k);
    }
  }

  /** Eight collected slots, written out as a left-to-right concatenation. */
  lemma CollectEight(s0: Slot, s1: Slot, s2: Slot, s3: Slot, s4: Slot, s5: Slot, s6: Slot, s7: Slot)
    ensures Collect([s0, s1, s2, s3, s4, s5, s6, s7])
      == Emit(s0) + Emit(s1) + Emit(s2) + Emit(s3) + Emit(s4) + Emit(s5) + Emit(s6) + Emit(s7)
  {
    assert [s0][..0] == [];
    assert Collect([s0]) == Emit(s0);
    assert [s0, s1][..1] == [s0];
    assert Collect([s0, s1]) == Emit(s0) + Emit(s1);
    assert [s0, s1, s2][..2] == [s0, s1];
    assert Collect([s0, s1, s2]) == Emit(s0) + Emit(s1) + Emit(s2);
    assert [s0, s1, s2, s3][..3] == [s0, s1, s2];
    assert Collect([s0, s1, s2, s3]) == Emit(s0) + Emit(s1) + Emit(s2) + Emit(s3);
    assert [s0, s1, s2, s3, s4][..4] == [s0, s1, s2, s3];
    assert Collect([s0, s1, s2, s3, s4]) == Emit(s0) + Emit(s1) + Emit(s2) + Emit(s3) + Emit(s4);
    assert [s0, s1, s2, s3, s4, s5][..5] == [s0, s1, s2, s3, s4];
    assert Collect([s0, s1, s2, s3, s4, s5]) == Emit(s0) + Emit(s1) + Emit(s2) + Emit(s3) + Emit(s4) + Emit(s5);
    assert [s0, s1, s2, s3, s4, s5, s6][..6] == [s0, s1, s2, s3, s4, s5];
    assert Collect([s0, s1, s2, s3, s4, s5, s6])
      == Emit(s0) + Emit(s1) + Emit(s2) + Emit(s3) + Emit(s4) + Emit(s5) + Emit(s6);
    assert [s0, s1, s2, s3, s4, s5, s6, s7][..7] == [s0, s1, s2, s3, s4, s5, s6];
  }

  function TypeSlot(a: FieldMetadata, b: FieldMetadata): Slot
  {
    Slot(a.fieldType != b.fieldType, "type",
      "Тип поля изменился: " + PyStr(a.fieldType) + " → " + PyStr(b.fieldType))
  }

  /** The text `_detect_field_changes` records when requiredness changes. */
  function RequiredText(b: FieldMetadata): string
  {
    if b.isRequired then "Поле стало обязательным (Н → О)" else "Поле стало опциональным (О → Н)"
  }

  function RequiredSlot(a: FieldMetadata, b: FieldMetadata): Slot
  {
    Slot(a.isRequired != b.isRequired, "required", RequiredText(b))
  }

  function ConditionalText(b: FieldMetadata): string
  {
    if b.isConditional then "Поле стало условно обязательным (УО)" else "Поле перестало быть условно обязательным"
  }

  function ConditionalSlot(a: FieldMetadata, b: FieldMetadata): Slot
  {
    Slot(a.isConditional != b.isConditional, "conditional", ConditionalText(b))
  }

  function ConditionSlot(a: FieldMetadata, b: FieldMetadata): Slot
  {
    Slot(ConditionText(a) != ConditionText(b), "condition", DescribeConditionChange(ConditionText(a), ConditionText(b)))
  }

  function DictionarySlot(a: FieldMetadata, b: FieldMetadata): Slot
  {
    Slot(a.dictionary != b.dictionary, "dictionary",
      "Справочник изменился: '" + PyStr(a.dictionary) + "' → '" + PyStr(b.dictionary) + "'")
  }

  function ConstraintsSlot(a: FieldMetadata, b: FieldMetadata, constraintText: string): Slot
  {
    Slot(a.constraints != b.constraints && constraintText != "", "constraints", constraintText)
  }

  function FormatSlot(a: FieldMetadata, b: FieldMetadata): Slot
  {
    Slot(a.format != b.format, "format", "Формат изменился: " + PyStr(a.format) + " → " + PyStr(b.format))
  }

  function DefaultSlot(a: FieldMetadata, b: FieldMetadata): Slot
  {
    Slot(a.default != b.default, "default",
      "Значение по умолчанию изменилось: " + PyStr(a.default) + " → " + PyStr(b.default))
  }

  function Slots(a: FieldMetadata, b: FieldMetadata, constraintText: string): seq<Slot>
  {
    [TypeSlot(a, b), RequiredSlot(a, b), ConditionalSlot(a, b), ConditionSlot(a, b), DictionarySlot(a, b),
     ConstraintsSlot(a, b, constraintText), FormatSlot(a, b), DefaultSlot(a, b)]
  }

  /**
   * The dict `_detect_field_changes` builds, in insertion order, when the
   * constraint comparison produced `constraintText`.
   */
  function FieldChanges(a: FieldMetadata, b: FieldMetadata, constraintText: string): Changes
  {
    Collect(Slots(a, b, constraintText))
  }

  /** The first five attributes `_detect_field_changes` compares: type to dictionary. */
  method DetectHeadChanges(a: FieldMetadata, b: FieldMetadata) returns (r: Changes)
    ensures r == Emit(TypeSlot(a, b)) + Emit(RequiredSlot(a, b)) + Emit(ConditionalSlot(a, b)) + Emit(ConditionSlot(a, b))
      + Emit(DictionarySlot(a, b))
  {
    r := [];
    if a.fieldType != b.fieldType {
      r := r + [Entry("type", "Тип поля изменился: " + PyStr(a.fieldType) + " → " + PyStr(b.fieldType))];
    }
    ghost var r1 := r;
    assert r1 == Emit(TypeSlot(a, b));
    if a.isRequired != b.isRequired {
      if b.isRequired {
        r := r + [Entry("required", "Поле стало обязательным (Н → О)")];
      } else {
        r := r + [Entry("required", "Поле стало опциональным (О → Н)")];
      }
    }
    ghost var r2 := r;
    assert r2 == r1 + Emit(RequiredSlot(a, b));
    if a.isConditional != b.isConditional {
      if b.isConditional {
        r := r + [Entry("conditional", "Поле стало условно обязательным (УО)")];
      } else {
        r := r + [Entry("conditional", "Поле перестало быть условно обязательным")];
      }
    }
    ghost var r3 := r;
    assert r3 == r2 + Emit(ConditionalSlot(a, b));
    var oldCond, newCond := ConditionText(a), ConditionText(b);
    if oldCond != newCond {
      r := r + [Entry("condition", DescribeConditionChange(oldCond, newCond))];
    }
    ghost var r4 := r;
    assert r4 == r3 + Emit(ConditionSlot(a, b));
    if a.dictionary != b.dictionary {
      r := r + [Entry("dictionary", "Справочник изменился: '" + PyStr(a.dictionary) + "' → '" + PyStr(b.dictionary) + "'")];
    }
    assert r == r4 + Emit(DictionarySlot(a, b));
  }

  /** The last three attributes `_detect_field_changes` compares: constraints, format and default. */
  method DetectTailChanges(a: FieldMetadata, b: FieldMetadata) returns (r: Changes, ghost constraintText: string)
    ensures DescribesConstraints(constraintText, a.constraints, b.constraints)
    ensures r == Emit(ConstraintsSlot(a, b, constraintText)) + Emit(FormatSlot(a, b)) + Emit(DefaultSlot(a, b))
  {
    r := [];
    constraintText := "";
    if a.constraints != b.constraints {
      var desc;
      ghost var order;
      desc, order := AnalyzeConstraintChanges(a.constraints, b.constraints);
      constraintText := desc;
      if desc != "" {
        r := r + [Entry("constraints", desc)];
      }
    } else {
      assert KeyOrder([], a.constraints, b.constraints);
    }
    ghost var c := r;
    assert c == Emit(ConstraintsSlot(a, b, constraintText));
    if a.format != b.format {
      r := r + [Entry("format", "Формат изменился: " + PyStr(a.format) + " → " + PyStr(b.format))];
    }
    ghost var cf := r;
    assert cf == c + Emit(FormatSlot(a, b));
    if a.default != b.default {
      r := r + [Entry("default", "Значение по умолчанию изменилось: " + PyStr(a.default) + " → " + PyStr(b.default))];
    }
    assert r == cf + Emit(DefaultSlot(a, b));
  }

  /** The eight slots' entries, grouped as the first five and the last three. */
  lemma FieldChangesSplit(a: FieldMetadata, b: FieldMetadata, t: string)
    ensures FieldChanges(a, b, t)
      == (Emit(TypeSlot(a, b)) + Emit(RequiredSlot(a, b)) + Emit(ConditionalSlot(a, b)) + Emit(ConditionSlot(a, b))
          + Emit(DictionarySlot(a, b)))
        + (Emit(ConstraintsSlot(a, b, t)) + Emit(FormatSlot(a, b)) + Emit(DefaultSlot(a, b)))
  {
    CollectEightSplit(TypeSlot(a, b), RequiredSlot(a, b), ConditionalSlot(a, b), ConditionSlot(a, b),
      DictionarySlot(a, b), ConstraintsSlot(a, b, t), FormatSlot(a, b), DefaultSlot(a, b));
  }

  lemma CollectEightSplit(s0: Slot, s1: Slot, s2: Slot, s3: Slot, s4: Slot, s5: Slot, s6: Slot, s7: Slot)
    ensures Collect([s0, s1, s2, s3, s4, s5, s6, s7])
      == (Emit(s0) + Emit(s1) + Emit(s2) + Emit(s3) + Emit(s4)) + (Emit(s5) + Emit(s6) + Emit(s7))
  {
    CollectEight(s0, s1, s2, s3, s4, s5, s6, s7);
    var e0, e1, e2, e3, e4, e5, e6, e7 := Emit(s0), Emit(s1), Emit(s2), Emit(s3), Emit(s4), Emit(s5), Emit(s6), Emit(s7);
    assert e0 + e1 + e2 + e3 + e4 + e5 + e6 + e7 == (e0 + e1 + e2 + e3 + e4) + (e5 + e6 + e7);
  }

  /** `_detect_field_changes`: builds the description dict attribute by attribute. */
  method DetectFieldChanges(a: FieldMetadata, b: FieldMetadata) returns (r: Changes, ghost constraintText: string)
    ensures DescribesConstraints(constraintText, a.constraints, b.constraints)
    ensures r == FieldChanges(a, b, constraintText)
  {
    var head := DetectHeadChanges(a, b);
    var tail;
    tail, constraintText := DetectTailChanges(a, b);
    r := head + tail;
    FieldChangesSplit(a, b, constraintText);
  }

  /**
   * The description has a key exactly for each attribute that differs;
   * "condition" compares the expressions with "" for a missing condition,
   * and "constraints" also needs a non-empty constraint description.
   */
  lemma FieldChangesKeys(a: FieldMetadata, b: FieldMetadata, t: string, k: string)
    ensures HasKey(FieldChanges(a, b, t), k) <==>
      (k == "type" && a.fieldType != b.fieldType)
      || (k == "required" && a.isRequired != b.isRequired)
      || (k == "conditional" && a.isConditional != b.isConditional)
      || (k == "condition" && ConditionText(a) != ConditionText(b))
      || (k == "dictionary" && a.dictionary != b.dictionary)
      || (k == "constraints" && a.constraints != b.constraints && t != "")
      || (k == "format" && a.format != b.format)
      || (k == "default" && a.default != b.default)
  {
    SlotsPresent(a, b, t);
    CollectHasKey(Slots(a, b, t), k);
    EightSlotKeys(Slots(a, b, t), k);
  }

  /** Which slot is present when, and under which key. */
  lemma SlotsPresent(a: FieldMetadata, b: FieldMetadata, t: string)
    ensures |Slots(a, b, t)| == 8
    ensures Slots(a, b, t)[0].key == "type" && Slots(a, b, t)[1].key == "required"
    ensures Slots(a, b, t)[2].key == "conditional" && Slots(a, b, t)[3].key == "condition"
    ensures Slots(a, b, t)[4].key == "dictionary" && Slots(a, b, t)[5].key == "constraints"
    ensures Slots(a, b, t)[6].key == "format" && Slots(a, b, t)[7].key == "default"
    ensures Slots(a, b, t)[0].present == (a.fieldType != b.fieldType)
    ensures Slots(a, b, t)[1].present == (a.isRequired != b.isRequired)
    ensures Slots(a, b, t)[2].present == (a.isConditional != b.isConditional)
    ensures Slots(a, b, t)[3].present == (ConditionText(a) != ConditionText(b))
    ensures Slots(a, b, t)[4].present == (a.dictionary != b.dictionary)
    ensures Slots(a, b, t)[5].present == (a.constraints != b.constraints && t != "")
    ensures Slots(a, b, t)[6].present == (a.format != b.format)
    ensures Slots(a, b, t)[7].present == (a.default != b.default)
  {
    HeadSlots(a, b, t);
    TailSlots(a, b, t);
  }

  lemma HeadSlots(a: FieldMetadata, b: FieldMetadata, t: string)
    ensures |Slots(a, b, t)| == 8
    ensures Slots(a, b, t)[0].key == "type" && Slots(a, b, t)[0].present == (a.fieldType != b.fieldType)
    ensures Slots(a, b, t)[1].key == "required" && Slots(a, b, t)[1].present == (a.isRequired != b.isRequired)
    ensures Slots(a, b, t)[2].key == "conditional" && Slots(a, b, t)[2].present == (a.isConditional != b.isConditional)
    ensures Slots(a, b, t)[3].key == "condition" && Slots(a, b, t)[3].present == (ConditionText(a) != ConditionText(b))
  {
    var ss := Slots(a, b, t);
    assert ss[0] == TypeSlot(a, b) && ss[1] == RequiredSlot(a, b);
    assert ss[2] == ConditionalSlot(a, b) && ss[3] == ConditionSlot(a, b);
  }

  lemma TailSlots(a: FieldMetadata, b: FieldMetadata, t: string)
    ensures |Slots(a, b, t)| == 8
    ensures Slots(a, b, t)[4].key == "dictionary" && Slots(a, b, t)[4].present == (a.dictionary != b.dictionary)
    ensures Slots(a, b, t)[5].key == "constraints"
    ensures Slots(a, b, t)[5].present == (a.constraints != b.constraints && t != "")
    ensures Slots(a, b, t)[6].key == "format" && Slots(a, b, t)[6].present == (a.format != b.format)
    ensures Slots(a, b, t)[7].key == "default" && Slots(a, b, t)[7].present == (a.default != b.default)
  {
    var ss := Slots(a, b, t);
    assert ss[4] == DictionarySlot(a, b) && ss[5] == ConstraintsSlot(a, b, t);
    assert ss[6] == FormatSlot(a, b) && ss[7] == DefaultSlot(a, b);
  }

  /** Among eight slots with the comparator's keys, `k` is present exactly when its own slot is. */
  lemma EightSlotKeys(ss: seq<Slot>, k: string)
    requires |ss| == 8
    requires ss[0].key == "type" && ss[1].key == "required" && ss[2].key == "conditional" && ss[3].key == "condition"
    requires ss[4].key == "dictionary" && ss[5].key == "constraints" && ss[6].key == "format" && ss[7].key == "default"
    ensures (exists i :: 0 <= i < |ss| && ss[i].present && ss[i].key == k) <==>
      (k == "type" && ss[0].present) || (k == "required" && ss[1].present)
      || (k == "conditional" && ss[2].present) || (k == "condition" && ss[3].present)
      || (k == "dictionary" && ss[4].present) || (k == "constraints" && ss[5].present)
      || (k == "format" && ss[6].present) || (k == "default" && ss[7].present)
  {
    if exists i :: 0 <= i < |ss| && ss[i].present && ss[i].key == k {
      var i :| 0 <= i < |ss| && ss[i].present && ss[i].key == k;
      assert i in {0, 1, 2, 3, 4, 5, 6, 7};
    }
    if k == "type" && ss[0].present { assert ss[0].key == k; }
    if k == "required" && ss[1].present { assert ss[1].key == k; }
    if k == "conditional" && ss[2].present { assert ss[2].key == k; }
    if k == "condition" && ss[3].present { assert ss[3].key == k; }
    if k == "dictionary" && ss[4].present { assert ss[4].key == k; }
    if k == "constraints" && ss[5].present { assert ss[5].key == k; }
    if k == "format" && ss[6].present { assert ss[6].key == k; }
    if k == "default" && ss[7].present { assert ss[7].key == k; }
  }

  /**
   * The description is a dict (no key twice) and records the texts the
   * comparator writes for each attribute.
   */
  lemma FieldChangesTexts(a: FieldMetadata, b: FieldMetadata, t: string)
    ensures DistinctKeys(FieldChanges(a, b, t))
    ensures a.isRequired != b.isRequired ==>
      HasKey(FieldChanges(a, b, t), "required") && Lookup(FieldChanges(a, b, t), "required") == RequiredText(b)
    ensures a.isConditional != b.isConditional ==>
      HasKey(FieldChanges(a, b, t), "conditional") && Lookup(FieldChanges(a, b, t), "conditional") == ConditionalText(b)
    ensures ConditionText(a) != ConditionText(b) ==>
      HasKey(FieldChanges(a, b, t), "condition")
      && Lookup(FieldChanges(a, b, t), "condition") == DescribeConditionChange(ConditionText(a), ConditionText(b))
    ensures a.constraints != b.constraints && t != "" ==>
      HasKey(FieldChanges(a, b, t), "constraints") && Lookup(FieldChanges(a, b, t), "constraints") == t
  {
    var ss := Slots(a, b, t);
    SlotsPresent(a, b, t);
    assert DistinctSlots(ss);
    CollectDistinct(ss);
    if ss[1].present { CollectLookup(ss, 1); }
    if ss[2].present { CollectLookup(ss, 2); }
    if ss[3].present { CollectLookup(ss, 3); }
    if ss[5].present { CollectLookup(ss, 5); }
  }

  /**
   * Identical fields have no description; a difference `_fields_differ`
   * sees but the description omits can only be a condition missing on one
   * side and "" on the other, or a constraint change with an empty
   * description (a change in "custom" only).
   */
  lemma SilentDifferences(a: FieldMetadata, b: FieldMetadata, t: string)
    ensures !FieldsDiffer(a, b) ==> FieldChanges(a, b, t) == []
    ensures FieldsDiffer(a, b) && FieldChanges(a, b, t) == [] ==>
      a.fieldType == b.fieldType && a.isRequired == b.isRequired && a.isConditional == b.isConditional
      && a.dictionary == b.dictionary && a.format == b.format && a.default == b.default
      && ConditionText(a) == ConditionText(b) && (a.constraints != b.constraints ==> t == "")
  {
    if FieldChanges(a, b, t) == [] {
      FieldChangesKeys(a, b, t, "type");
      FieldChangesKeys(a, b, t, "required");
      FieldChangesKeys(a, b, t, "conditional");
      FieldChangesKeys(a, b, t, "condition");
      FieldChangesKeys(a, b, t, "dictionary");
      FieldChangesKeys(a, b, t, "constraints");
      FieldChangesKeys(a, b, t, "format");
      FieldChangesKeys(a, b, t, "default");
    }
    if !FieldsDiffer(a, b) {
      var ss := Slots(a, b, t);
      CollectEight(ss[0], ss[1], ss[2], ss[3], ss[4], ss[5], ss[6], ss[7]);
    }
  }

  // ---------------------------------------------------------------------------
  // compare
  // ---------------------------------------------------------------------------

  /** The paths a list of changes is about. */
  function PathsOf(cs: seq<FieldChange>): (r: set<string>)
    ensures forall c :: c in cs ==> c.path in r
    ensures forall p :: p in r ==> exists c :: c in cs && c.path == p
  {
    set c | c in cs :: c.path
  }

  /** No path appears twice in the list. */
  predicate DistinctPaths(cs: seq<FieldChange>)
  {
    forall i, j :: 0 <= i < j < |cs| ==> cs[i].path != cs[j].path
  }

  lemma AppendChange(cs: seq<FieldChange>, c: FieldChange)
    requires DistinctPaths(cs) && c.path !in PathsOf(cs)
    ensures PathsOf(cs + [c]) == PathsOf(cs) + {c.path}
    ensures DistinctPaths(cs + [c])
  {
    forall x | x in PathsOf(cs + [c]) ensures x in PathsOf(cs) + {c.path} {
      var e :| e in cs + [c] && e.path == x;
      if e != c { assert e in cs; }
    }
    forall x | x in PathsOf(cs) ensures x in PathsOf(cs + [c]) {
      var e :| e in cs && e.path == x;
      assert e in cs + [c];
    }
    assert c in cs + [c];
    forall i, j | 0 <= i < j < |cs + [c]| ensures (cs + [c])[i].path != (cs + [c])[j].path {
      if j == |cs| { assert (cs + [c])[i] in cs; }
      else { assert (cs + [c])[i] == cs[i] && (cs + [c])[j] == cs[j]; }
    }
  }

  /** Removing `p` from the paths still to visit adds `p` to the visited part of `a` exactly when `p` is in `a`. */
  lemma VisitStep(a: set<string>, todo: set<string>, p: string)
    requires p in todo
    ensures a - (todo - {p}) == if p in a then (a - todo) + {p} else a - todo
  {
  }

  /** The paths of `old` and `new` whose fields `_fields_differ` tells apart. */
  function DifferingPaths(oldS: map<string, FieldMetadata>, newS: map<string, FieldMetadata>): set<string>
  {
    set p | p in oldS && p in newS && FieldsDiffer(oldS[p], newS[p])
  }

  /** The entry `compare` records for a path of the new schema only. */
  predicate IsAddition(c: FieldChange, newS: map<string, FieldMetadata>)
  {
    c.path in newS && c == FieldChange(c.path, "added", None, Some(newS[c.path]), [])
  }

  /** The entry `compare` records for a path of the old schema only. */
  predicate IsRemoval(c: FieldChange, oldS: map<string, FieldMetadata>)
  {
    c.path in oldS && c == FieldChange(c.path, "removed", Some(oldS[c.path]), None, [])
  }

  /**
   * The entry `compare` records for a path in both schemas: both metadata
   * and the description `_detect_field_changes` gives for them.
   */
  ghost predicate IsModification(c: FieldChange, oldS: map<string, FieldMetadata>, newS: map<string, FieldMetadata>)
  {
    c.path in oldS && c.path in newS
    && c.changeType == "modified" && c.oldMeta == Some(oldS[c.path]) && c.newMeta == Some(newS[c.path])
    && exists t :: DescribesConstraints(t, oldS[c.path].constraints, newS[c.path].constraints)
                 && c.changes == FieldChanges(oldS[c.path], newS[c.path], t)
  }

  /** Which of the three lists of `compare` a change belongs to. */
  datatype ChangeKind = Added | Removed | Modified

  /** The paths that end up in the list of the given kind. */
  function Expected(kind: ChangeKind, oldS: map<string, FieldMetadata>, newS: map<string, FieldMetadata>): set<string>
  {
    match kind
    case Added => newS.Keys - oldS.Keys
    case Removed => oldS.Keys - newS.Keys
    case Modified => DifferingPaths(oldS, newS)
  }

  /** The entry `compare` records for its path in the list of the given kind. */
  ghost predicate Fits(kind: ChangeKind, c: FieldChange, oldS: map<string, FieldMetadata>, newS: map<string, FieldMetadata>)
  {
    match kind
    case Added => IsAddition(c, newS)
    case Removed => IsRemoval(c, oldS)
    case Modified => IsModification(c, oldS, newS)
  }

  /**
   * The loop invariant of `compare` for one list: it holds one fitting
   * entry for each expected path visited so far and nothing else.
   */
  ghost predicate Recorded(cs: seq<FieldChange>, kind: ChangeKind, todo: set<string>,
                           oldS: map<string, FieldMetadata>, newS: map<string, FieldMetadata>)
  {
    PathsOf(cs) == Expected(kind, oldS, newS) - todo
    && DistinctPaths(cs)
    && forall c :: c in cs ==> Fits(kind, c, oldS, newS)
  }

  /** Visiting a path that does not belong to the list leaves the list's invariant intact. */
  lemma RecordSkip(cs: seq<FieldChange>, kind: ChangeKind, todo: set<string>, path: string,
                   oldS: map<string, FieldMetadata>, newS: map<string, FieldMetadata>)
    requires Recorded(cs, kind, todo, oldS, newS) && path in todo
    requires path !in Expected(kind, oldS, newS)
    ensures Recorded(cs, kind, todo - {path}, oldS, newS)
  {
    VisitStep(Expected(kind, oldS, newS), todo, path);
  }

  /** Appending the fitting entry of a path that belongs to the list keeps the list's invariant. */
  lemma RecordAppend(cs: seq<FieldChange>, kind: ChangeKind, todo: set<string>, c: FieldChange,
                     oldS: map<string, FieldMetadata>, newS: map<string, FieldMetadata>)
    requires Recorded(cs, kind, todo, oldS, newS) && c.path in todo
    requires c.path in Expected(kind, oldS, newS) && Fits(kind, c, oldS, newS)
    ensures Recorded(cs + [c], kind, todo - {c.path}, oldS, newS)
  {
    VisitStep(Expected(kind, oldS, newS), todo, c.path);
    AppendChange(cs, c);
  }

  /** Once every path is visited, the list holds exactly the expected paths, each once, with fitting entries. */
  lemma RecordDone(cs: seq<FieldChange>, kind: ChangeKind, oldS: map<string, FieldMetadata>, newS: map<string, FieldMetadata>)
    requires Recorded(cs, kind, {}, oldS, newS)
    ensures PathsOf(cs) == Expected(kind, oldS, newS) && DistinctPaths(cs)
    ensures kind == Added ==> forall c :: c in cs ==> IsAddition(c, newS)
    ensures kind == Removed ==> forall c :: c in cs ==> IsRemoval(c, oldS)
    ensures kind == Modified ==> forall c :: c in cs ==> IsModification(c, oldS, newS)
  {
    forall c | c in cs ensures Fits(kind, c, oldS, newS) { }
  }

  /** The `modified` entry of `compare` for a path in both schemas. */
  method Modification(path: string, oldS: map<string, FieldMetadata>, newS: map<string, FieldMetadata>)
    returns (c: FieldChange)
    requires path in oldS && path in newS
    ensures c.path == path && IsModification(c, oldS, newS)
  {
    var changes, t := DetectFieldChanges(oldS[path], newS[path]);
    c := FieldChange(path, "modified", Some(oldS[path]), Some(newS[path]), changes);
  }

  /**
   * `compare`: every path of either schema is visited once, in the
   * unspecified order Python iterates the set of paths; a path only in the
   * new schema is an addition, one only in the old schema a removal, and
   * one in both whose fields differ a modification.
   */
  method Compare(oldS: map<string, FieldMetadata>, newS: map<string, FieldMetadata>,
                 oldVersion: string, newVersion: string, call: string, adapter: string)
    returns (d: SchemaDiff)
    ensures d.oldVersion == oldVersion && d.newVersion == newVersion && d.call == call && d.adapter == adapter
    ensures PathsOf(d.addedFields) == newS.Keys - oldS.Keys
    ensures PathsOf(d.removedFields) == oldS.Keys - newS.Keys
    ensures PathsOf(d.modifiedFields) == DifferingPaths(oldS, newS)
    ensures DistinctPaths(d.addedFields) && DistinctPaths(d.removedFields) && DistinctPaths(d.modifiedFields)
    ensures forall c :: c in d.addedFields ==> IsAddition(c, newS)
    ensures forall c :: c in d.removedFields ==> IsRemoval(c, oldS)
    ensures forall c :: c in d.modifiedFields ==> IsModification(c, oldS, newS)
  {
    var todo := oldS.Keys + newS.Keys;
    var added: seq<FieldChange> := [];
    var removed: seq<FieldChange> := [];
    var modified: seq<FieldChange> := [];
    while todo != {}
      invariant todo <= oldS.Keys + newS.Keys
      invariant Recorded(added, Added, todo, oldS, newS)
      invariant Recorded(removed, Removed, todo, oldS, newS)
      invariant Recorded(modified, Modified, todo, oldS, newS)
      decreases |todo|
    {
      var path :| path in todo;
      if path !in oldS {
        var c := FieldChange(path, "added", None, Some(newS[path]), []);
        RecordAppend(added, Added, todo, c, oldS, newS);
        RecordSkip(removed, Removed, todo, path, oldS, newS);
        RecordSkip(modified, Modified, todo, path, oldS, newS);
        added := added + [c];
      } else if path !in newS {
        var c := FieldChange(path, "removed", Some(oldS[path]), None, []);
        RecordSkip(added, Added, todo, path, oldS, newS);
        RecordAppend(removed, Removed, todo, c, oldS, newS);
        RecordSkip(modified, Modified, todo, path, oldS, newS);
        removed := removed + [c];
      } else if FieldsDiffer(oldS[path], newS[path]) {
        var c := Modification(path, oldS, newS);
        RecordSkip(added, Added, todo, path, oldS, newS);
        RecordSkip(removed, Removed, todo, path, oldS, newS);
        RecordAppend(modified, Modified, todo, c, oldS, newS);
        modified := modified + [c];
      } else {
        RecordSkip(added, Added, todo, path, oldS, newS);
        RecordSkip(removed, Removed, todo, path, oldS, newS);
        RecordSkip(modified, Modified, todo, path, oldS, newS);
      }
      todo := todo - {path};
    }
    RecordDone(added, Added, oldS, newS);
    RecordDone(removed, Removed, oldS, newS);
    RecordDone(modified, Modified, oldS, newS);
    d := SchemaDiff(oldVersion, newVersion, call, adapter, added, removed, modified);
  }

  /** A list without repeated paths has one entry per path. */
  lemma {:induction false} DistinctPathsCount(cs: seq<FieldChange>)
    requires DistinctPaths(cs)
    ensures |PathsOf(cs)| == |cs|
  {
    if cs != [] {
      var init := cs[..|cs| - 1];
      var last := cs[|cs| - 1];
      assert cs == init + [last];
      assert DistinctPaths(init);
      DistinctPathsCount(init);
      AppendChange(init, last);
    }
  }

  /**
   * The size of a diff `compare` returns: one change per added, removed
   * and differing path; comparing a schema with itself gives no change.
   */
  lemma CompareTotal(d: SchemaDiff, oldS: map<string, FieldMetadata>, newS: map<string, FieldMetadata>)
    requires PathsOf(d.addedFields) == newS.Keys - oldS.Keys
    requires PathsOf(d.removedFields) == oldS.Keys - newS.Keys
    requires PathsOf(d.modifiedFields) == DifferingPaths(oldS, newS)
    requires DistinctPaths(d.addedFields) && DistinctPaths(d.removedFields) && DistinctPaths(d.modifiedFields)
    ensures TotalChanges(d) == |newS.Keys - oldS.Keys| + |oldS.Keys - newS.Keys| + |DifferingPaths(oldS, newS)|
    ensures oldS == newS ==> !HasChanges(d)
  {
    DistinctPathsCount(d.addedFields);
    DistinctPathsCount(d.removedFields);
    DistinctPathsCount(d.modifiedFields);
    if oldS == newS {
      forall p | p in oldS ensures !FieldsDiffer(oldS[p], newS[p]) {
        FieldsDifferProps(oldS[p], oldS[p]);
      }
      assert DifferingPaths(oldS, newS) == {};
    }
  }
}
