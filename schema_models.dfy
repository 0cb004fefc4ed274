/**
 * The records the schema-diff pipeline passes around: contract versions,
 * the metadata of one schema field, one field change and the diff of two
 * schemas, with the predicates, counts and filters defined on them.
 */
module SchemaModels {
  import opened Common
  import opened JsonData

  // ---------------------------------------------------------------------------
  // Contract versions
  // ---------------------------------------------------------------------------

  datatype VersionStatus = Current | Future | Deprecating | Deprecated

  /** The Russian text each status carries as its enum value. */
  function StatusValue(s: VersionStatus): string
  {
    match s
    case Current => "Актуально"
    case Future => "Будущий релиз"
    case Deprecating => "Выводится из эксплуатации"
    case Deprecated => "Выведено из эксплуатации"
  }

  /** Distinct statuses carry distinct texts, so the text identifies the status. */
  lemma StatusValueInjective(a: VersionStatus, b: VersionStatus)
    ensures StatusValue(a) == StatusValue(b) ==> a == b
  {
    if a != b {
      var x, y := StatusValue(a), StatusValue(b);
      assert x[0] != y[0] || x[1] != y[1] || x[5] != y[5];
    }
  }

  datatype VersionInfo = VersionInfo(
    version: string,
    subversion: Option<string>,
    releaseMonth: Option<string>,
    status: VersionStatus,
    direction: Option<string>,
    inclusionDate: Option<string>,
    comment: string,
    adapter: string)

  /** "072" or, with a non-empty subversion, "072.04". */
  function FullVersion(v: VersionInfo): (r: string)
    ensures StartsWith(r, v.version)
    ensures r == v.version <==> (v.subversion.None? || v.subversion.value == "")
    ensures r != v.version ==> r[|v.version|] == '.' && r[|v.version| + 1..] == v.subversion.value
  {
    if v.subversion.Some? && v.subversion.value != "" then v.version + "." + v.subversion.value
    else v.version
  }

  predicate IsCurrent(v: VersionInfo) { v.status == Current }

  predicate IsFuture(v: VersionInfo) { v.status == Future }

  predicate IsDeprecated(v: VersionInfo) { v.status in {Deprecating, Deprecated} }

  /** Every version is exactly one of current, future or deprecated (deprecating counts as deprecated). */
  lemma VersionStatusExclusive(v: VersionInfo)
    ensures IsCurrent(v) || IsFuture(v) || IsDeprecated(v)
    ensures !(IsCurrent(v) && IsFuture(v)) && !(IsCurrent(v) && IsDeprecated(v))
      && !(IsFuture(v) && IsDeprecated(v))
    ensures IsDeprecated(v) <==> v.status == Deprecating || v.status == Deprecated
  {
  }

  // ---------------------------------------------------------------------------
  // Field metadata
  // ---------------------------------------------------------------------------

  /**
   * The metadata of one schema field. Values read from the schema that
   * Python keeps as arbitrary objects (`type`, `dictionary`, `format`,
   * `default`, `description`) are `Json`, with `JNull` for None. The
   * condition is its SpEL expression, when there is one.
   */
  datatype FieldMetadata = FieldMetadata(
    path: string,
    name: string,
    fieldType: Json,
    isRequired: bool,
    isConditional: bool,
    condition: Option<string>,
    dictionary: Json,
    constraints: map<string, Json>,
    description: Json,
    items: Option<FieldMetadata>,
    format: Json,
    default: Json)

  predicate IsPrimitive(f: FieldMetadata)
  {
    f.fieldType in {JStr("string"), JStr("integer"), JStr("number"), JStr("boolean")}
  }

  predicate IsComplex(f: FieldMetadata)
  {
    f.fieldType in {JStr("object"), JStr("array")}
  }

  /** No field is both primitive and complex; the parser's fallback type "unknown" is neither. */
  lemma PrimitiveComplexDisjoint(f: FieldMetadata)
    ensures !(IsPrimitive(f) && IsComplex(f))
    ensures f.fieldType == JStr("unknown") ==> !IsPrimitive(f) && !IsComplex(f)
  {
  }

  predicate HasDictionary(f: FieldMetadata) { f.dictionary != JNull }

  /** `dict.get(key)`: the value stored under `key`, or None. */
  function Get(m: map<string, Json>, key: string): (r: Json)
    ensures key in m ==> r == m[key]
    ensures key !in m ==> r == JNull
  {
    if key in m then m[key] else JNull
  }

  function GetMaxLength(f: FieldMetadata): Json { Get(f.constraints, "maxLength") }

  function GetMinLength(f: FieldMetadata): Json { Get(f.constraints, "minLength") }

  function GetPattern(f: FieldMetadata): Json { Get(f.constraints, "pattern") }

  /** "О" for required, else "УО" for conditionally required, else "Н". */
  function RequirementStatus(f: FieldMetadata): (r: string)
    ensures r == "О" <==> f.isRequired
    ensures r == "УО" <==> !f.isRequired && f.isConditional
    ensures r == "Н" <==> !f.isRequired && !f.isConditional
  {
    if f.isRequired then "О" else if f.isConditional then "УО" else "Н"
  }

  // ---------------------------------------------------------------------------
  // Change descriptions: a dict from attribute name to text, in insertion order
  // ---------------------------------------------------------------------------

  datatype Entry = Entry(key: string, text: string)

  /** A Python dict `{attribute: description}`; its keys are pairwise distinct. */
  type Changes = seq<Entry>

  predicate HasKey(c: Changes, key: string)
  {
    exists i :: 0 <= i < |c| && c[i].key == key
  }

  function KeysOf(c: Changes): (r: set<string>)
    ensures forall k :: k in r <==> HasKey(c, k)
  {
    set i | 0 <= i < |c| :: c[i].key
  }

  /** `changes[key]` for a key that is present. */
  function Lookup(c: Changes, key: string): (r: string)
    requires HasKey(c, key)
    ensures exists i :: 0 <= i < |c| && c[i].key == key && c[i].text == r
  {
    if c[0].key == key then c[0].text
    else
      assert exists i :: 1 <= i < |c| && c[i].key == key;
      var i :| 1 <= i < |c| && c[i].key == key;
      assert c[1..][i - 1].key == key;
      Lookup(c[1..], key)
  }

  /** A key is in a concatenation exactly when it is in one of the parts. */
  lemma HasKeyConcat(c: Changes, d: Changes, key: string)
    ensures HasKey(c + d, key) <==> HasKey(c, key) || HasKey(d, key)
  {
    if HasKey(c + d, key) {
      var i :| 0 <= i < |c + d| && (c + d)[i].key == key;
      if i >= |c| {
        assert d[i - |c|].key == key;
      }
    }
    if HasKey(d, key) {
      var i :| 0 <= i < |d| && d[i].key == key;
      assert (c + d)[i + |c|].key == key;
    }
    if HasKey(c, key) {
      var i :| 0 <= i < |c| && c[i].key == key;
      assert (c + d)[i].key == key;
    }
  }

  /** Looking a key up in a concatenation finds it in the first part that has it. */
  lemma {:induction false} LookupConcat(c: Changes, d: Changes, key: string)
    requires HasKey(c, key) || HasKey(d, key)
    ensures HasKey(c + d, key)
    ensures Lookup(c + d, key) == if HasKey(c, key) then Lookup(c, key) else Lookup(d, key)
    decreases |c|
  {
    HasKeyConcat(c, d, key);
    if c != [] {
      assert (c + d)[0] == c[0];
      assert (c + d)[1..] == c[1..] + d;
      if c[0].key != key {
        if HasKey(c, key) {
          var i :| 0 <= i < |c| && c[i].key == key;
          assert c[1..][i - 1].key == key;
        }
        if HasKey(c[1..], key) {
          var i :| 0 <= i < |c[1..]| && c[1..][i].key == key;
          assert c[i + 1].key == key;
        }
        LookupConcat(c[1..], d, key);
      }
    } else {
      assert c + d == d;
    }
  }

  predicate DistinctKeys(c: Changes)
  {
    forall i, j :: 0 <= i < j < |c| ==> c[i].key != c[j].key
  }

  /** Two dicts without common keys concatenate into a dict. */
  lemma DistinctConcat(c: Changes, d: Changes)
    requires DistinctKeys(c) && DistinctKeys(d)
    requires forall k :: !(HasKey(c, k) && HasKey(d, k))
    ensures DistinctKeys(c + d)
  {
    forall i, j | 0 <= i < j < |c + d| ensures (c + d)[i].key != (c + d)[j].key {
      if i < |c| && j >= |c| {
        assert HasKey(c, c[i].key);
        assert HasKey(d, d[j - |c|].key);
      }
    }
  }

  function Texts(c: Changes): (r: seq<string>)
    ensures |r| == |c| && forall i :: 0 <= i < |c| ==> r[i] == c[i].text
  {
    seq(|c|, i requires 0 <= i < |c| => c[i].text)
  }

  // ---------------------------------------------------------------------------
  // One field change
  // ---------------------------------------------------------------------------

  /** `change_type` is "added", "removed" or "modified". */
  datatype FieldChange = FieldChange(
    path: string,
    changeType: string,
    oldMeta: Option<FieldMetadata>,
    newMeta: Option<FieldMetadata>,
    changes: Changes)

  /**
   * A change is breaking when a required field was removed, when the type
   * changed, or when the `required` description records "Н → О".
   */
  predicate IsBreakingChange(c: FieldChange)
    ensures IsBreakingChange(c) ==>
      (c.changeType == "removed" && c.oldMeta.Some?) || HasKey(c.changes, "type") || HasKey(c.changes, "required")
  {
    (c.changeType == "removed" && c.oldMeta.Some? && c.oldMeta.value.isRequired)
    || HasKey(c.changes, "type")
    || (HasKey(c.changes, "required") && Contains(Lookup(c.changes, "required"), "Н → О"))
  }

  /** "critical" for a breaking change, else "warning" for a modification, else "info". */
  function Severity(c: FieldChange): (r: string)
    ensures r == "critical" <==> IsBreakingChange(c)
    ensures r == "warning" <==> !IsBreakingChange(c) && c.changeType == "modified"
    ensures r == "info" <==> !IsBreakingChange(c) && c.changeType != "modified"
  {
    if IsBreakingChange(c) then "critical" else if c.changeType == "modified" then "warning" else "info"
  }

  /** An addition without type or required changes is never breaking, whatever the new field looks like. */
  lemma PlainAdditionNotBreaking(path: string, meta: FieldMetadata)
    ensures !IsBreakingChange(FieldChange(path, "added", None, Some(meta), []))
    ensures Severity(FieldChange(path, "added", None, Some(meta), [])) == "info"
  {
  }

  /** Removing a required field is breaking whatever its changes say. */
  lemma RemovedRequiredIsCritical(path: string, meta: FieldMetadata, changes: Changes)
    requires meta.isRequired
    ensures Severity(FieldChange(path, "removed", Some(meta), None, changes)) == "critical"
  {
  }

  // ---------------------------------------------------------------------------
  // The diff of two schemas
  // ---------------------------------------------------------------------------

  datatype SchemaDiff = SchemaDiff(
    oldVersion: string,
    newVersion: string,
    call: string,
    adapter: string,
    addedFields: seq<FieldChange>,
    removedFields: seq<FieldChange>,
    modifiedFields: seq<FieldChange>)

  function AllChanges(d: SchemaDiff): seq<FieldChange>
  {
    d.addedFields + d.removedFields + d.modifiedFields
  }

  function TotalChanges(d: SchemaDiff): (r: nat)
    ensures r == |AllChanges(d)|
  {
    |d.addedFields| + |d.removedFields| + |d.modifiedFields|
  }

  predicate HasChanges(d: SchemaDiff) { TotalChanges(d) > 0 }

  predicate Breaking(c: FieldChange) { IsBreakingChange(c) }

  function BreakingChanges(d: SchemaDiff): (r: seq<FieldChange>)
    ensures forall i :: 0 <= i < |r| ==> IsBreakingChange(r[i]) && r[i] in AllChanges(d)
    ensures |r| <= TotalChanges(d)
  {
    Filter(AllChanges(d), Breaking)
  }

  /** `any(change.is_breaking_change() for change in all_changes)`. */
  predicate HasBreakingChanges(d: SchemaDiff)
  {
    exists i :: 0 <= i < |AllChanges(d)| && IsBreakingChange(AllChanges(d)[i])
  }

  datatype DiffStatistics = DiffStatistics(added: nat, removed: nat, modified: nat, total: nat, breaking: nat)

  function Statistics(d: SchemaDiff): (s: DiffStatistics)
    ensures s.total == s.added + s.removed + s.modified
    ensures s.breaking <= s.total
  {
    DiffStatistics(|d.addedFields|, |d.removedFields|, |d.modifiedFields|, TotalChanges(d),
                   |BreakingChanges(d)|)
  }

  /** A diff has changes exactly when one of its three lists is non-empty. */
  lemma HasChangesIffSomeList(d: SchemaDiff)
    ensures HasChanges(d) <==> d.addedFields != [] || d.removedFields != [] || d.modifiedFields != []
  {
  }

  /**
   * The breaking changes are those of the added, then the removed, then the
   * modified list, each in its own order; there are some exactly when
   * `has_breaking_changes` holds.
   */
  lemma BreakingChangesInOrder(d: SchemaDiff)
    ensures BreakingChanges(d) ==
      Filter(d.addedFields, Breaking) + Filter(d.removedFields, Breaking) + Filter(d.modifiedFields, Breaking)
    ensures HasBreakingChanges(d) <==> |BreakingChanges(d)| > 0
    ensures Statistics(d).breaking == |BreakingChanges(d)|
  {
    FilterConcat(d.addedFields + d.removedFields, d.modifiedFields, Breaking);
    FilterConcat(d.addedFields, d.removedFields, Breaking);
    FilterNonEmpty(AllChanges(d), Breaking);
  }
}
