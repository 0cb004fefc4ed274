/**
 * Facts about the fixed texts the comparator writes and the analyzer
 * reads, each evaluated character by character. They live apart from the
 * analyzer so that each is checked with only the text functions in view.
 */
module AnalyzerTexts {
  import opened Common

  // The comparator's texts in lower case, one at a time (each is evaluated
  // character by character).

  lemma LowerBecameOptional()
    ensures Lower("Поле стало опциональным (О → Н)") == "поле стало опциональным (о → н)"
  {
  }

  lemma LowerStoppedConditional()
    ensures Lower("Поле перестало быть условно обязательным") == "поле перестало быть условно обязательным"
  {
  }

  lemma LowerTightened()
    ensures Lower("ужесточено") == "ужесточено"
  {
  }

  /** The substrings the analyzer looks for do not occur in the texts for the opposite direction. */
  lemma OptionalUnmarked()
    ensures !Contains("Поле стало опциональным (О → Н)", "Н → О")
  {
    NotContainsNoHead("Поле стало опциональным (О → Н)", "Н → О");
  }

  lemma OptionalReadsOptional()
    ensures !Contains("поле стало опциональным (о → н)", "стало обязательным")
  {
    NotContainsOneHead("поле стало опциональным (о → н)", "стало обязательным", 5, 7);
  }

  lemma StoppedReadsStopped()
    ensures !Contains("поле перестало быть условно обязательным", "стало условно обязательным")
  {
    NotContainsOneHead("поле перестало быть условно обязательным", "стало условно обязательным", 9, 6);
  }

  /** `a + sub + b` contains `sub`. */
  lemma ContainsInfix(a: string, sub: string, b: string)
    ensures Contains(a + sub + b, sub)
  {
    ContainsSelf(sub);
    ContainsWithin(a, sub, b, sub);
  }

  /** The "became required" text carries the marker "Н → О". */
  lemma BecameRequiredMarked()
    ensures Contains("Поле стало обязательным (Н → О)", "Н → О")
  {
    ContainsInfix("Поле стало обязательным (", "Н → О", ")");
    assert "Поле стало обязательным (" + "Н → О" + ")" == "Поле стало обязательным (Н → О)";
  }

  /** The "became required" text, lowered, contains "стало обязательным". */
  lemma LowerBecameRequired()
    ensures Lower("Поле стало обязательным (Н → О)") == "поле стало обязательным (н → о)"
  {
  }

  lemma RequiredMarked()
    ensures Contains("поле стало обязательным (н → о)", "стало обязательным")
  {
    assert "поле стало обязательным (н → о)" == "поле " + "стало обязательным" + " (н → о)";
    ContainsInfix("поле ", "стало обязательным", " (н → о)");
  }

  lemma BecameRequiredReads()
    ensures Contains(Lower("Поле стало обязательным (Н → О)"), "стало обязательным")
  {
    LowerBecameRequired();
    RequiredMarked();
  }

  /** The "became conditionally required" text, lowered, contains "стало условно обязательным". */
  lemma LowerBecameConditional()
    ensures Lower("Поле стало условно обязательным (УО)") == "поле стало условно обязательным (уо)"
  {
  }

  lemma ConditionalMarked()
    ensures Contains("поле стало условно обязательным (уо)", "стало условно обязательным")
  {
    assert "поле стало условно обязательным (уо)" == "поле " + "стало условно обязательным" + " (уо)";
    ContainsInfix("поле ", "стало условно обязательным", " (уо)");
  }

  lemma BecameConditionalReads()
    ensures Contains(Lower("Поле стало условно обязательным (УО)"), "стало условно обязательным")
  {
    LowerBecameConditional();
    ConditionalMarked();
  }

  /** The "became optional" text, lowered, does not contain "стало обязательным". */
  lemma BecameOptionalReads()
    ensures !Contains(Lower("Поле стало опциональным (О → Н)"), "стало обязательным")
  {
    LowerBecameOptional();
    OptionalReadsOptional();
  }

  /** The "no longer conditionally required" text, lowered, does not contain "стало условно обязательным". */
  lemma StoppedConditionalReads()
    ensures !Contains(Lower("Поле перестало быть условно обязательным"), "стало условно обязательным")
  {
    LowerStoppedConditional();
    StoppedReadsStopped();
  }
}

/**
 * `ChangeAnalyzer`: classifies every change of a schema diff by what
 * happened (addition, removal, modification), whether it breaks API
 * clients, and how critical it is, with a reason and recommendations
 * in Russian. The analyzer holds no state of its own, so each rule is a
 * function of the change it classifies.
 */
module ChangeAnalyzer {
  import opened Common
  import opened JsonData
  import opened SchemaModels
  import opened ChangeModels
  import opened SchemaComparator
  import opened AnalyzerTexts

  // ---------------------------------------------------------------------------
  // _format_condition_brief
  // ---------------------------------------------------------------------------

  /** The condition expression cut to 100 characters, or "нет условия" when there is none. */
  function FormatConditionBrief(condition: Option<string>): (r: string)
    ensures condition.None? ==> r == "нет условия"
    ensures condition.Some? && |condition.value| <= 100 ==> r == condition.value
    ensures condition.Some? && |condition.value| > 100 ==>
      |r| == 103 && StartsWith(condition.value, r[..100]) && r[100..] == "..."
  {
    if condition.None? then "нет условия"
    else if |condition.value| > 100 then condition.value[..100] + "..."
    else condition.value
  }

  // ---------------------------------------------------------------------------
  // _analyze_addition / _analyze_removal
  // ---------------------------------------------------------------------------

  /** The adjective the reasons use for "О", "УО" and "Н". */
  function RequirementWord(f: FieldMetadata): (r: string)
    ensures r == "обязательное" <==> RequirementStatus(f) == "О"
    ensures r == "условно обязательное" <==> RequirementStatus(f) == "УО"
  {
    if f.isRequired then "обязательное" else if f.isConditional then "условно обязательное" else "опциональное"
  }

  /** `'` + path + `'` inside a recommendation, which therefore mentions the path. */
  function Mention(prefix: string, p: string, suffix: string): (r: string)
    ensures Contains(r, p)
  {
    ContainsSelf(p);
    ContainsWithin(prefix + "'", p, "'" + suffix, p);
    assert prefix + "'" + p + "'" + suffix == (prefix + "'") + p + ("'" + suffix);
    prefix + "'" + p + "'" + suffix
  }

  /** The recommendations for an added field; the path is named in the first or second one. */
  function AdditionAdvice(m: FieldMetadata, p: string): (r: seq<string>)
    ensures |r| >= 2 && Contains(r[if m.isRequired then 0 else 1], p)
  {
    if m.isRequired then
      [Mention("КРИТИЧНО: Добавить поле ", p, " во ВСЕ существующие сценарии"),
       "Определить корректные значения для нового обязательного поля",
       "Все запросы БЕЗ этого поля будут отклонены API"]
    else if m.isConditional then
      ["Проверить условие: " + FormatConditionBrief(m.condition),
       Mention("Добавить поле ", p, " в сценарии, где выполняются условия"),
       "Запросы без поля будут отклонены, если условие выполняется"]
    else
      ["Изменение не требует обновления существующих сценариев",
       Mention("Можно использовать новое поле ", p, " в новых сценариях")]
  }

  /**
   * An added field: required breaks every request (critical), conditionally
   * required breaks some (high), optional breaks nothing (low).
   */
  function AnalyzeAddition(fc: FieldChange): (r: AnalyzedChange)
    requires fc.newMeta.Some?
    ensures r.fieldChange == fc && r.changeType == Addition && r.affectedScenarios == []
    ensures r.breakingLevel == Breaking <==> RequirementStatus(fc.newMeta.value) != "Н"
    ensures r.impactLevel == Critical <==> RequirementStatus(fc.newMeta.value) == "О"
    ensures r.impactLevel == High <==> RequirementStatus(fc.newMeta.value) == "УО"
    ensures r.impactLevel == Low <==> RequirementStatus(fc.newMeta.value) == "Н"
    ensures r.reason == "Добавлено новое " + RequirementWord(fc.newMeta.value) + " поле (" + RequirementStatus(fc.newMeta.value) + ")"
    ensures r.recommendations == AdditionAdvice(fc.newMeta.value, fc.path)
  {
    var m := fc.newMeta.value;
    var reason := "Добавлено новое " + RequirementWord(m) + " поле (" + RequirementStatus(m) + ")";
    var advice := AdditionAdvice(m, fc.path);
    if m.isRequired then AnalyzedChange(fc, Addition, Breaking, Critical, reason, advice, [])
    else if m.isConditional then AnalyzedChange(fc, Addition, Breaking, High, reason, advice, [])
    else AnalyzedChange(fc, Addition, NonBreaking, Low, reason, advice, [])
  }

  /** The recommendations for a removed field; the first one names the path. */
  function RemovalAdvice(m: FieldMetadata, p: string): (r: seq<string>)
    ensures |r| >= 2 && Contains(r[0], p)
  {
    if m.isRequired then
      [Mention("Удалить поле ", p, " из ВСЕХ сценариев"),
       "API будет отклонять запросы с этим полем",
       "Проверить, не используется ли поле в логике тестов"]
    else if m.isConditional then
      [Mention("Удалить поле ", p, " из сценариев"),
       "Проверить условия, при которых поле использовалось"]
    else
      [Mention("Удалить поле ", p, " из сценариев, если оно используется"),
       "API может отклонять запросы с неизвестными полями (зависит от реализации)"]
  }

  /**
   * A removed field: always breaking (clients may still send it); high
   * impact when it was required, medium otherwise.
   */
  function AnalyzeRemoval(fc: FieldChange): (r: AnalyzedChange)
    requires fc.oldMeta.Some?
    ensures r.fieldChange == fc && r.changeType == Removal && r.affectedScenarios == []
    ensures r.breakingLevel == Breaking
    ensures r.impactLevel == High <==> RequirementStatus(fc.oldMeta.value) == "О"
    ensures r.impactLevel == Medium <==> RequirementStatus(fc.oldMeta.value) != "О"
    ensures r.reason == "Удалено " + RequirementWord(fc.oldMeta.value) + " поле (" + RequirementStatus(fc.oldMeta.value) + ")"
    ensures r.recommendations == RemovalAdvice(fc.oldMeta.value, fc.path)
  {
    var m := fc.oldMeta.value;
    var reason := "Удалено " + RequirementWord(m) + " поле (" + RequirementStatus(m) + ")";
    AnalyzedChange(fc, Removal, Breaking, if m.isRequired then High else Medium, reason, RemovalAdvice(m, fc.path), [])
  }

  // ---------------------------------------------------------------------------
  // _analyze_modification
  // ---------------------------------------------------------------------------

  /** The "required" description says the field became required. */
  predicate BecameRequired(c: Changes)
  {
    HasKey(c, "required") && Contains(Lower(Lookup(c, "required")), "стало обязательным")
  }

  /** The "conditional" description says the field became conditionally required. */
  predicate BecameConditional(c: Changes)
  {
    HasKey(c, "conditional") && Contains(Lower(Lookup(c, "conditional")), "стало условно обязательным")
  }

  /** A constraint description that reads as a restriction. */
  predicate IsRestriction(desc: string)
  {
    Contains(Lower(desc), "ужесточено") || Contains(Lower(desc), "уменьшился") || Contains(Lower(desc), "увеличился минимум")
  }

  /**
   * Which rule of `_analyze_modification` decides, the first that applies:
   * 1 type, 2 required, 3 conditional, 4 condition of a conditionally
   * required field, 5 dictionary, 6 constraints, 7 format, 8 anything else.
   */
  function Rule(fc: FieldChange): (n: nat)
    ensures 1 <= n <= 8
  {
    var c := fc.changes;
    if HasKey(c, "type") then 1
    else if HasKey(c, "required") then 2
    else if HasKey(c, "conditional") then 3
    else if HasKey(c, "condition") && fc.newMeta.Some? && fc.newMeta.value.isConditional then 4
    else if HasKey(c, "dictionary") then 5
    else if HasKey(c, "constraints") then 6
    else if HasKey(c, "format") then 7
    else 8
  }

  /** Rule 3 reads the new field's condition, so the new metadata must be there. */
  predicate ModificationDefined(fc: FieldChange)
  {
    Rule(fc) == 3 && BecameConditional(fc.changes) ==> fc.newMeta.Some?
  }

  /** Whether the rule that decides breaks clients, and how critical it is. */
  function ModificationLevels(fc: FieldChange): (l: (BreakingLevel, ImpactLevel))
    ensures l.0 == Breaking <==>
      Rule(fc) in {1, 4, 5}
      || (Rule(fc) == 2 && BecameRequired(fc.changes))
      || (Rule(fc) == 3 && BecameConditional(fc.changes))
      || (Rule(fc) == 6 && IsRestriction(Lookup(fc.changes, "constraints")))
    ensures l.1 == Critical <==> Rule(fc) == 1 || (Rule(fc) == 2 && BecameRequired(fc.changes))
    ensures l.0 == Breaking ==> l.1 in {Critical, High}
    ensures l.0 == NonBreaking ==> l.1 in {Medium, Low}
    ensures l.1 == Medium <==> Rule(fc) == 6 && !IsRestriction(Lookup(fc.changes, "constraints"))
  {
    var c := fc.changes;
    match Rule(fc)
    case 1 => (Breaking, Critical)
    case 2 => if BecameRequired(c) then (Breaking, Critical) else (NonBreaking, Low)
    case 3 => if BecameConditional(c) then (Breaking, High) else (NonBreaking, Low)
    case 4 => (Breaking, High)
    case 5 => (Breaking, High)
    case 6 => if IsRestriction(Lookup(c, "constraints")) then (Breaking, High) else (NonBreaking, Medium)
    case 7 => (NonBreaking, Low)
    case _ => (NonBreaking, Low)
  }

  /** The reason `_analyze_modification` gives, quoting the deciding description. */
  function ModificationReason(fc: FieldChange): string
  {
    var c := fc.changes;
    match Rule(fc)
    case 1 => "Изменился тип данных: " + Lookup(c, "type")
    case 2 =>
      if BecameRequired(c) then "Поле стало обязательным: " + Lookup(c, "required")
      else "Поле стало опциональным: " + Lookup(c, "required")
    case 3 =>
      if BecameConditional(c) then "Поле стало условно обязательным (Н → УО)"
      else "Поле перестало быть условно обязательным: " + Lookup(c, "conditional")
    case 4 => "Изменилось условие для условно обязательного поля (УО): " + Lookup(c, "condition")
    case 5 => "Изменился справочник: " + Lookup(c, "dictionary")
    case 6 =>
      if IsRestriction(Lookup(c, "constraints")) then "Ужесточены ограничения: " + Lookup(c, "constraints")
      else "Смягчены ограничения: " + Lookup(c, "constraints")
    case 7 => "Изменился формат: " + Lookup(c, "format")
    case _ => "Прочие изменения: " + Join(Texts(c), ", ")
  }

  /** The recommendations `_analyze_modification` gives. */
  function ModificationAdvice(fc: FieldChange): (r: seq<string>)
    requires ModificationDefined(fc)
    ensures r != []
  {
    var c := fc.changes;
    var p := fc.path;
    match Rule(fc)
    case 1 => TypeAdvice(p)
    case 2 => RequiredAdvice(BecameRequired(c), p)
    case 3 =>
      if BecameConditional(c) then ConditionalAdvice(fc.newMeta.value.condition, p)
      else ["Изменение не требует немедленных действий"]
    case 4 => ConditionAdvice(Lookup(c, "condition"), p)
    case 5 => DictionaryAdvice(p)
    case 6 => ConstraintsAdvice(IsRestriction(Lookup(c, "constraints")), p)
    case 7 => FormatAdvice(Lookup(c, "format"), p)
    case _ => ["Изменение не требует немедленных действий"]
  }

  function TypeAdvice(p: string): (r: seq<string>)
    ensures |r| == 3 && Contains(r[0], p)
  {
    [Mention("КРИТИЧНО: Обновить значения поля ", p, " в соответствии с новым типом"),
     "Преобразовать данные согласно изменению типа во ВСЕХ сценариях",
     "Все запросы со старым типом будут отклонены"]
  }

  function RequiredAdvice(becameRequired: bool, p: string): (r: seq<string>)
    ensures |r| == 2 && Contains(r[if becameRequired then 0 else 1], p)
  {
    if becameRequired then
      [Mention("КРИТИЧНО: Добавить поле ", p, " во ВСЕ сценарии, где оно отсутствует"),
       "Все запросы БЕЗ этого поля будут отклонены"]
    else
      ["Изменение не требует обновления сценариев",
       Mention("Поле ", p, " можно не передавать")]
  }

  function ConditionalAdvice(condition: Option<string>, p: string): (r: seq<string>)
    ensures |r| == 3 && Contains(r[1], p)
  {
    ["Проверить условие: " + FormatConditionBrief(condition),
     Mention("Добавить поле ", p, " в сценарии, где выполняются условия"),
     "Запросы без поля будут отклонены при выполнении условия"]
  }

  function ConditionAdvice(description: string, p: string): (r: seq<string>)
    ensures |r| == 3 && Contains(r[0], p)
  {
    [Mention("Проверить новое условие для поля ", p, ""),
     "Обновить сценарии согласно новому условию",
     "Детали изменения: " + description]
  }

  function DictionaryAdvice(p: string): (r: seq<string>)
    ensures |r| == 3 && Contains(r[0], p)
  {
    [Mention("Обновить значения поля ", p, " согласно новому справочнику"),
     "Проверить актуальность кодов во ВСЕХ сценариях",
     "Старые коды могут быть отклонены API"]
  }

  function ConstraintsAdvice(restricted: bool, p: string): (r: seq<string>)
    ensures |r| == 2 && Contains(r[if restricted then 0 else 1], p)
  {
    if restricted then
      [Mention("Проверить значения поля ", p, " на соответствие новым ограничениям"),
       "Значения, не соответствующие новым ограничениям, будут отклонены"]
    else
      ["Изменение не требует обновления существующих сценариев",
       Mention("Теперь допустимы более широкие значения для ", p, "")]
  }

  function FormatAdvice(description: string, p: string): (r: seq<string>)
    ensures |r| == 2 && Contains(r[1], p)
  {
    ["Проверить соответствие значений новому формату",
     Mention("Формат поля ", p, ": " + description)]
  }

  /**
   * A modified field, classified by the first rule that applies. The
   * result is breaking exactly for a type change, a field that became
   * required or conditionally required, a changed condition, a changed
   * dictionary and a restricted constraint; breaking changes are critical
   * or high, the others medium or low.
   */
  function AnalyzeModification(fc: FieldChange): (r: AnalyzedChange)
    requires ModificationDefined(fc)
    ensures r.fieldChange == fc && r.changeType == Modification && r.affectedScenarios == []
    ensures (r.breakingLevel, r.impactLevel) == ModificationLevels(fc)
    ensures r.reason == ModificationReason(fc) && r.recommendations == ModificationAdvice(fc)
  {
    var levels := ModificationLevels(fc);
    AnalyzedChange(fc, Modification, levels.0, levels.1, ModificationReason(fc), ModificationAdvice(fc), [])
  }

  // ---------------------------------------------------------------------------
  // How the analyzer reads the comparator's texts
  // ---------------------------------------------------------------------------

  /**
   * The comparator's "required" text carries the marker "Н → О" and reads
   * as "стало обязательным" exactly when the field became required.
   */
  lemma RequiredTextRead(b: FieldMetadata)
    ensures Contains(RequiredText(b), "Н → О") <==> b.isRequired
    ensures Contains(Lower(RequiredText(b)), "стало обязательным") <==> b.isRequired
  {
    if b.isRequired {
      BecameRequiredMarked();
      BecameRequiredReads();
    } else {
      OptionalUnmarked();
      BecameOptionalReads();
    }
  }

  /** The comparator's "conditional" text reads as "стало условно обязательным" exactly when the field became conditionally required. */
  lemma ConditionalTextRead(b: FieldMetadata)
    ensures Contains(Lower(ConditionalText(b)), "стало условно обязательным") <==> b.isConditional
  {
    if b.isConditional {
      BecameConditionalReads();
    } else {
      StoppedConditionalReads();
    }
  }

  /** The entry `compare` records for a modified path whose constraint description is `t`. */
  function ComparedModification(path: string, a: FieldMetadata, b: FieldMetadata, t: string): FieldChange
  {
    FieldChange(path, "modified", Some(a), Some(b), FieldChanges(a, b, t))
  }

  /** The analyzer rates a compared modification critical exactly for a type change or a field that became required. */
  lemma CriticalModification(path: string, a: FieldMetadata, b: FieldMetadata, t: string)
    ensures ModificationDefined(ComparedModification(path, a, b, t))
    ensures ModificationLevels(ComparedModification(path, a, b, t)).1 == Critical
        <==> a.fieldType != b.fieldType || (a.isRequired != b.isRequired && b.isRequired)
  {
    var c := FieldChanges(a, b, t);
    FieldChangesKeys(a, b, t, "type");
    FieldChangesKeys(a, b, t, "required");
    FieldChangesTexts(a, b, t);
    RequiredTextRead(b);
    assert HasKey(c, "required") ==> Lookup(c, "required") == RequiredText(b);
  }

  /** `is_breaking_change` reports a compared modification exactly for a type change or a field that became required. */
  lemma BreakingModification(path: string, a: FieldMetadata, b: FieldMetadata, t: string)
    ensures IsBreakingChange(ComparedModification(path, a, b, t))
        <==> a.fieldType != b.fieldType || (a.isRequired != b.isRequired && b.isRequired)
  {
    var c := FieldChanges(a, b, t);
    FieldChangesKeys(a, b, t, "type");
    FieldChangesKeys(a, b, t, "required");
    FieldChangesTexts(a, b, t);
    RequiredTextRead(b);
    assert HasKey(c, "required") ==> Lookup(c, "required") == RequiredText(b);
  }

  /**
   * On what the comparator produces, the analyzer's critical modifications
   * are exactly the changes `is_breaking_change` reports.
   */
  lemma CriticalAgreesWithBreaking(path: string, a: FieldMetadata, b: FieldMetadata, t: string)
    ensures AnalyzeModification(ComparedModification(path, a, b, t)).impactLevel == Critical
        <==> IsBreakingChange(ComparedModification(path, a, b, t))
  {
    CriticalModification(path, a, b, t);
    BreakingModification(path, a, b, t);
  }

  /**
   * With type and requiredness unchanged, a change of conditional
   * requiredness is breaking (high) when the field became conditionally
   * required and non-breaking (low) when it stopped being so.
   */
  lemma ConditionalChangeRead(path: string, a: FieldMetadata, b: FieldMetadata, t: string)
    requires a.fieldType == b.fieldType && a.isRequired == b.isRequired && a.isConditional != b.isConditional
    ensures ModificationLevels(ComparedModification(path, a, b, t)) == if b.isConditional then (Breaking, High) else (NonBreaking, Low)
  {
    FieldChangesKeys(a, b, t, "type");
    FieldChangesKeys(a, b, t, "required");
    FieldChangesKeys(a, b, t, "conditional");
    FieldChangesTexts(a, b, t);
    ConditionalTextRead(b);
  }

  /** The description of a tightened numeric constraint says "ужесточено". */
  lemma TightenedPartReads(key: string, oldC: map<string, Json>, newC: map<string, Json>)
    requires Get(oldC, key) != JNull && Get(newC, key) != JNull
    requires IsNumber(Get(oldC, key)) && IsNumber(Get(newC, key)) && Tightened(key, Get(oldC, key), Get(newC, key))
    ensures Contains(ConstraintPart(key, oldC, newC), "ужесточено")
  {
    var w := "ужесточено";
    var s1 := ConstraintName(key) + " " + w;
    ContainsSuffix(ConstraintName(key) + " ", w);
    ContainsAppend(s1, ": ", w);
    ContainsAppend(s1 + ": ", PyStr(Get(oldC, key)), w);
    ContainsAppend(s1 + ": " + PyStr(Get(oldC, key)), " → ", w);
    ContainsAppend(s1 + ": " + PyStr(Get(oldC, key)) + " → ", PyStr(Get(newC, key)), w);
  }

  /** A tightened numeric constraint makes the whole description read as a restriction. */
  lemma TightenedPartRestricts(key: string, oldC: map<string, Json>, newC: map<string, Json>, order: seq<string>, k: nat)
    requires k < |order| && order[k] == key
    requires Get(oldC, key) != JNull && Get(newC, key) != JNull
    requires IsNumber(Get(oldC, key)) && IsNumber(Get(newC, key)) && Tightened(key, Get(oldC, key), Get(newC, key))
    ensures IsRestriction(ConstraintDescription(oldC, newC, order))
  {
    TightenedPartReads(key, oldC, newC);
    ContainsJoin(Parts(order, oldC, newC), "; ", k, "ужесточено");
    LowerContains(ConstraintDescription(oldC, newC, order), "ужесточено");
    LowerTightened();
  }

  /** A description of constraints with a tightened numeric bound is non-empty and reads as a restriction. */
  lemma TightenedDescription(t: string, oldC: map<string, Json>, newC: map<string, Json>, key: string)
    requires DescribesConstraints(t, oldC, newC)
    requires key != "custom" && Get(oldC, key) != JNull && Get(newC, key) != JNull
    requires IsNumber(Get(oldC, key)) && IsNumber(Get(newC, key)) && Tightened(key, Get(oldC, key), Get(newC, key))
    ensures t != "" && IsRestriction(t)
  {
    var order :| KeyOrder(order, oldC, newC) && t == ConstraintDescription(oldC, newC, order);
    assert key in DifferingKeys(oldC, newC);
    var k :| 0 <= k < |order| && order[k] == key;
    TightenedPartRestricts(key, oldC, newC, order, k);
    JoinEmpty(Parts(order, oldC, newC), "; ");
  }

  /** When only the constraints differ, with a non-empty description, rule 6 decides on that description. */
  lemma OnlyConstraintsDiffer(path: string, a: FieldMetadata, b: FieldMetadata, t: string)
    requires a.fieldType == b.fieldType && a.isRequired == b.isRequired && a.isConditional == b.isConditional
    requires ConditionText(a) == ConditionText(b) && a.dictionary == b.dictionary
    requires a.constraints != b.constraints && t != ""
    ensures Rule(ComparedModification(path, a, b, t)) == 6
    ensures Lookup(FieldChanges(a, b, t), "constraints") == t
  {
    FieldChangesKeys(a, b, t, "type");
    FieldChangesKeys(a, b, t, "required");
    FieldChangesKeys(a, b, t, "conditional");
    FieldChangesKeys(a, b, t, "condition");
    FieldChangesKeys(a, b, t, "dictionary");
    FieldChangesKeys(a, b, t, "constraints");
    FieldChangesTexts(a, b, t);
  }

  /**
   * When only the constraints differ and some numeric bound was tightened,
   * the analyzer reports a breaking, high-impact restriction whatever order
   * the comparator described the constraint keys in.
   */
  lemma TightenedConstraintBreaks(path: string, a: FieldMetadata, b: FieldMetadata, t: string, key: string)
    requires DescribesConstraints(t, a.constraints, b.constraints)
    requires a.fieldType == b.fieldType && a.isRequired == b.isRequired && a.isConditional == b.isConditional
    requires ConditionText(a) == ConditionText(b) && a.dictionary == b.dictionary
    requires key != "custom"
    requires Get(a.constraints, key) != JNull && Get(b.constraints, key) != JNull
    requires IsNumber(Get(a.constraints, key)) && IsNumber(Get(b.constraints, key))
    requires Tightened(key, Get(a.constraints, key), Get(b.constraints, key))
    ensures ModificationLevels(ComparedModification(path, a, b, t)) == (Breaking, High)
  {
    TightenedDescription(t, a.constraints, b.constraints, key);
    assert Get(a.constraints, key) != Get(b.constraints, key);
    OnlyConstraintsDiffer(path, a, b, t);
  }

  // ---------------------------------------------------------------------------
  // analyze_changes
  // ---------------------------------------------------------------------------

  /** The change carries the metadata the rule for its kind reads. */
  predicate Defined(kind: ChangeKind, fc: FieldChange)
  {
    match kind
    case Added => fc.newMeta.Some?
    case Removed => fc.oldMeta.Some?
    case Modified => ModificationDefined(fc)
  }

  predicate AllDefined(kind: ChangeKind, fcs: seq<FieldChange>)
  {
    forall i :: 0 <= i < |fcs| ==> Defined(kind, fcs[i])
  }

  /** Every change of the diff carries the metadata its rule reads. */
  predicate Analyzable(d: SchemaDiff)
  {
    AllDefined(Added, d.addedFields) && AllDefined(Removed, d.removedFields) && AllDefined(Modified, d.modifiedFields)
  }

  /** The rule `analyze_changes` applies to a change of the given list. */
  function Analyze(kind: ChangeKind, fc: FieldChange): AnalyzedChange
    requires Defined(kind, fc)
  {
    match kind
    case Added => AnalyzeAddition(fc)
    case Removed => AnalyzeRemoval(fc)
    case Modified => AnalyzeModification(fc)
  }

  function TypeOf(kind: ChangeKind): ChangeType
  {
    match kind
    case Added => Addition
    case Removed => Removal
    case Modified => Modification
  }

  /** Each rule keeps the change it classifies and reports the change type of its list; removals always break. */
  lemma AnalyzeKind(kind: ChangeKind, fc: FieldChange)
    requires Defined(kind, fc)
    ensures Analyze(kind, fc).fieldChange == fc && Analyze(kind, fc).changeType == TypeOf(kind)
    ensures kind == Removed ==> Analyze(kind, fc).breakingLevel == Breaking
  {
  }

  /** `Analyze` for one kind, as a value the list functions can apply. */
  function RuleOf(kind: ChangeKind): FieldChange --> AnalyzedChange
  {
    fc requires Defined(kind, fc) => Analyze(kind, fc)
  }

  /** `[f(fc) for fc in fcs]`, built from the back as a loop that appends builds it. */
  function MapChanges(f: FieldChange --> AnalyzedChange, fcs: seq<FieldChange>): seq<AnalyzedChange>
    requires forall i :: 0 <= i < |fcs| ==> f.requires(fcs[i])
    decreases |fcs|
  {
    if fcs == [] then [] else MapChanges(f, fcs[..|fcs| - 1]) + [f(fcs[|fcs| - 1])]
  }

  lemma MapStep(f: FieldChange --> AnalyzedChange, fcs: seq<FieldChange>, i: nat)
    requires i < |fcs| && forall j :: 0 <= j < |fcs| ==> f.requires(fcs[j])
    ensures MapChanges(f, fcs[..i + 1]) == MapChanges(f, fcs[..i]) + [f(fcs[i])]
  {
    assert fcs[..i + 1][..i] == fcs[..i];
  }

  /** The mapped list holds one result per change, in order. */
  lemma {:induction false} MapElements(f: FieldChange --> AnalyzedChange, fcs: seq<FieldChange>)
    requires forall i :: 0 <= i < |fcs| ==> f.requires(fcs[i])
    ensures |MapChanges(f, fcs)| == |fcs|
    ensures forall i :: 0 <= i < |fcs| ==> MapChanges(f, fcs)[i] == f(fcs[i])
    decreases |fcs|
  {
    if fcs != [] {
      var n := |fcs| - 1;
      MapElements(f, fcs[..n]);
      forall i | 0 <= i < n ensures MapChanges(f, fcs)[i] == f(fcs[i]) {
        assert fcs[..n][i] == fcs[i];
      }
    }
  }

  /** The analysis of each change of one list of the diff, in the diff's order. */
  function AnalyzedList(kind: ChangeKind, fcs: seq<FieldChange>): seq<AnalyzedChange>
    requires AllDefined(kind, fcs)
  {
    MapChanges(RuleOf(kind), fcs)
  }

  /** What `analyze_changes` lists: additions, then removals, then modifications. */
  function AnalyzedAll(d: SchemaDiff): seq<AnalyzedChange>
    requires Analyzable(d)
  {
    AnalyzedList(Added, d.addedFields) + AnalyzedList(Removed, d.removedFields) + AnalyzedList(Modified, d.modifiedFields)
  }

  lemma ListStep(kind: ChangeKind, fcs: seq<FieldChange>, i: nat)
    requires i < |fcs| && AllDefined(kind, fcs)
    ensures AnalyzedList(kind, fcs[..i + 1]) == AnalyzedList(kind, fcs[..i]) + [Analyze(kind, fcs[i])]
  {
    MapStep(RuleOf(kind), fcs, i);
  }

  /** The list holds one analysed change per change, each the rule's verdict on it. */
  lemma ListElements(kind: ChangeKind, fcs: seq<FieldChange>)
    requires AllDefined(kind, fcs)
    ensures |AnalyzedList(kind, fcs)| == |fcs|
    ensures forall i :: 0 <= i < |fcs| ==> AnalyzedList(kind, fcs)[i] == Analyze(kind, fcs[i])
  {
    MapElements(RuleOf(kind), fcs);
  }

  /**
   * One loop of `analyze_changes`: the rule for the list's kind applied to
   * each change in turn, the results appended in order.
   */
  method AnalyzeEach(kind: ChangeKind, fcs: seq<FieldChange>) returns (out: seq<AnalyzedChange>)
    requires AllDefined(kind, fcs)
    ensures out == AnalyzedList(kind, fcs)
  {
    out := [];
    for i := 0 to |fcs|
      invariant out == AnalyzedList(kind, fcs[..i])
    {
      ListStep(kind, fcs, i);
      out := out + [Analyze(kind, fcs[i])];
    }
    assert fcs[..|fcs|] == fcs;
  }

  /**
   * `analyze_changes` after the two schemas are loaded and compared: one
   * analysed change per entry of the diff (additions, then removals, then
   * modifications), the versions being the stems of the two schema files.
   */
  method AnalyzeChanges(d: SchemaDiff, oldStem: string, newStem: string) returns (r: AnalysisResult)
    requires Analyzable(d)
    ensures r.oldVersion == oldStem && r.newVersion == newStem && r.metadata == map[]
    ensures r.analyzedChanges == AnalyzedAll(d)
  {
    var additions := AnalyzeEach(Added, d.addedFields);
    var removals := AnalyzeEach(Removed, d.removedFields);
    var modifications := AnalyzeEach(Modified, d.modifiedFields);
    r := AnalysisResult(oldStem, newStem, additions + removals + modifications, map[]);
  }

  /** A diff produced by `compare` can always be analysed. */
  lemma ComparedAnalyzable(d: SchemaDiff, oldS: map<string, FieldMetadata>, newS: map<string, FieldMetadata>)
    requires forall c :: c in d.addedFields ==> IsAddition(c, newS)
    requires forall c :: c in d.removedFields ==> IsRemoval(c, oldS)
    requires forall c :: c in d.modifiedFields ==> IsModification(c, oldS, newS)
    ensures Analyzable(d)
  {
    forall i | 0 <= i < |d.addedFields| ensures Defined(Added, d.addedFields[i]) {
      assert IsAddition(d.addedFields[i], newS);
    }
    forall i | 0 <= i < |d.removedFields| ensures Defined(Removed, d.removedFields[i]) {
      assert IsRemoval(d.removedFields[i], oldS);
    }
    forall i | 0 <= i < |d.modifiedFields| ensures Defined(Modified, d.modifiedFields[i]) {
      assert IsModification(d.modifiedFields[i], oldS, newS);
    }
  }

  lemma {:induction false} SelectEvery(g: Group, xs: seq<AnalyzedChange>)
    requires forall i :: 0 <= i < |xs| ==> InGroup(g, xs[i])
    ensures Select(g, xs) == xs
    decreases |xs|
  {
    if xs != [] {
      SelectEvery(g, xs[1..]);
    }
  }

  lemma {:induction false} SelectNone(g: Group, xs: seq<AnalyzedChange>)
    requires forall i :: 0 <= i < |xs| ==> !InGroup(g, xs[i])
    ensures Select(g, xs) == []
    decreases |xs|
  {
    if xs != [] {
      SelectNone(g, xs[1..]);
    }
  }

  /** Every analysed change of one list keeps its change and has its list's change type; removals all break. */
  lemma ListKinds(kind: ChangeKind, fcs: seq<FieldChange>)
    requires AllDefined(kind, fcs)
    ensures |AnalyzedList(kind, fcs)| == |fcs|
    ensures forall i :: 0 <= i < |fcs| ==>
      AnalyzedList(kind, fcs)[i].fieldChange == fcs[i] && AnalyzedList(kind, fcs)[i].changeType == TypeOf(kind)
    ensures kind == Removed ==> forall i :: 0 <= i < |fcs| ==> AnalyzedList(kind, fcs)[i].breakingLevel == Breaking
  {
    ListElements(kind, fcs);
    forall i | 0 <= i < |fcs|
      ensures AnalyzedList(kind, fcs)[i].fieldChange == fcs[i] && AnalyzedList(kind, fcs)[i].changeType == TypeOf(kind)
      ensures kind == Removed ==> AnalyzedList(kind, fcs)[i].breakingLevel == Breaking
    {
      AnalyzeKind(kind, fcs[i]);
    }
  }

  /**
   * The analysis lists the diff's changes in order, one analysed change
   * each: the i-th analysed change is about the i-th change of the diff.
   */
  lemma AnalysisFollowsDiff(d: SchemaDiff)
    requires Analyzable(d)
    ensures |AnalyzedAll(d)| == SchemaModels.TotalChanges(d)
    ensures forall i :: 0 <= i < |AnalyzedAll(d)| ==> AnalyzedAll(d)[i].fieldChange == AllChanges(d)[i]
  {
    var a, rm, m := AnalyzedList(Added, d.addedFields), AnalyzedList(Removed, d.removedFields), AnalyzedList(Modified, d.modifiedFields);
    ListKinds(Added, d.addedFields);
    ListKinds(Removed, d.removedFields);
    ListKinds(Modified, d.modifiedFields);
    PartsFollow(a, rm, m, d.addedFields, d.removedFields, d.modifiedFields);
  }

  /** Three lists that follow three lists element by element make a concatenation that follows theirs. */
  lemma PartsFollow(a: seq<AnalyzedChange>, rm: seq<AnalyzedChange>, m: seq<AnalyzedChange>,
                    fa: seq<FieldChange>, frm: seq<FieldChange>, fm: seq<FieldChange>)
    requires |a| == |fa| && |rm| == |frm| && |m| == |fm|
    requires forall i :: 0 <= i < |a| ==> a[i].fieldChange == fa[i]
    requires forall i :: 0 <= i < |rm| ==> rm[i].fieldChange == frm[i]
    requires forall i :: 0 <= i < |m| ==> m[i].fieldChange == fm[i]
    ensures forall i :: 0 <= i < |a + rm + m| ==> (a + rm + m)[i].fieldChange == (fa + frm + fm)[i]
  {
    forall i | 0 <= i < |a + rm + m| ensures (a + rm + m)[i].fieldChange == (fa + frm + fm)[i] {
      if i < |a| {
        assert (a + rm + m)[i] == a[i];
      } else if i < |a| + |rm| {
        assert (a + rm + m)[i] == rm[i - |a|];
      } else {
        assert (a + rm + m)[i] == m[i - |a| - |rm|];
      }
    }
  }

  /** Selecting a group that holds the first part only, the second part only or the third part only. */
  lemma SelectParts(g: Group, a: seq<AnalyzedChange>, rm: seq<AnalyzedChange>, m: seq<AnalyzedChange>, which: nat)
    requires which < 3
    requires forall i :: 0 <= i < |a| ==> (InGroup(g, a[i]) <==> which == 0)
    requires forall i :: 0 <= i < |rm| ==> (InGroup(g, rm[i]) <==> which == 1)
    requires forall i :: 0 <= i < |m| ==> (InGroup(g, m[i]) <==> which == 2)
    ensures Select(g, a + rm + m) == if which == 0 then a else if which == 1 then rm else m
  {
    SelectConcat(g, a + rm, m);
    SelectConcat(g, a, rm);
    if which == 0 { SelectEvery(g, a); } else { SelectNone(g, a); }
    if which == 1 { SelectEvery(g, rm); } else { SelectNone(g, rm); }
    if which == 2 { SelectEvery(g, m); } else { SelectNone(g, m); }
  }

  /** Counting by change type in a list made of additions, then removals, then modifications. */
  lemma PartsCount(a: seq<AnalyzedChange>, rm: seq<AnalyzedChange>, m: seq<AnalyzedChange>)
    requires forall i :: 0 <= i < |a| ==> a[i].changeType == Addition
    requires forall i :: 0 <= i < |rm| ==> rm[i].changeType == Removal && rm[i].breakingLevel == Breaking
    requires forall i :: 0 <= i < |m| ==> m[i].changeType == Modification
    ensures |Select(AdditionGroup, a + rm + m)| == |a|
    ensures |Select(RemovalGroup, a + rm + m)| == |rm|
    ensures |Select(ModificationGroup, a + rm + m)| == |m|
    ensures |Select(BreakingGroup, a + rm + m)| >= |rm|
  {
    SelectParts(AdditionGroup, a, rm, m, 0);
    SelectParts(RemovalGroup, a, rm, m, 1);
    SelectParts(ModificationGroup, a, rm, m, 2);
    SelectConcat(BreakingGroup, a + rm, m);
    SelectConcat(BreakingGroup, a, rm);
    SelectEvery(BreakingGroup, rm);
  }

  /**
   * The result's additions, removals and modifications are the diff's added,
   * removed and modified fields, so their counts agree; every removal is
   * breaking, so there are at least as many breaking changes as removals.
   */
  lemma AnalysisCounts(d: SchemaDiff, r: AnalysisResult)
    requires Analyzable(d) && r.analyzedChanges == AnalyzedAll(d)
    ensures ChangeModels.TotalChanges(r) == SchemaModels.TotalChanges(d)
    ensures |Additions(r)| == |d.addedFields|
    ensures |Removals(r)| == |d.removedFields|
    ensures |Modifications(r)| == |d.modifiedFields|
    ensures |ChangeModels.BreakingChanges(r)| >= |d.removedFields|
  {
    ListKinds(Added, d.addedFields);
    ListKinds(Removed, d.removedFields);
    ListKinds(Modified, d.modifiedFields);
    PartsCount(AnalyzedList(Added, d.addedFields), AnalyzedList(Removed, d.removedFields), AnalyzedList(Modified, d.modifiedFields));
  }
}
