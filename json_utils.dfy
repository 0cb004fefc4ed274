/**
 * Two schema utilities: the deep merge of two schemas, where the override
 * wins except where both sides hold a dict, and the collection of the
 * required field paths of a schema, level by level.
 */
module JsonUtils {
  import opened Common
  import opened JsonData
  import SchemaParser
  import opened SchemaModels

  // ---------------------------------------------------------------------------
  // merge_schemas
  // ---------------------------------------------------------------------------

  /** A value of the dict that sits in a JSON object is smaller than the object. */
  lemma FieldSmaller(fields: map<string, Json>, k: string)
    requires k in fields
    ensures fields[k] < JObj(fields)
  {
  }

  /**
   * The merged schema: every key of either side; a key only in `base` keeps
   * its value, a key in `over` takes over's value unless both values are
   * dicts, which are merged in turn.
   */
  function Merged(base: map<string, Json>, over: map<string, Json>): (r: map<string, Json>)
    ensures r.Keys == base.Keys + over.Keys
    decreases JObj(over)
  {
    map k | k in base.Keys + over.Keys ::
      if k !in over then base[k]
      else if k in base && base[k].JObj? && over[k].JObj? then
        FieldSmaller(over, k);
        JObj(Merged(base[k].fields, over[k].fields))
      else over[k]
  }

  /** The value `merge_schemas` gives a key, stated case by case. */
  lemma MergedValues(base: map<string, Json>, over: map<string, Json>, k: string)
    ensures k in Merged(base, over) <==> k in base || k in over
    ensures k in base && k !in over ==> Merged(base, over)[k] == base[k]
    ensures k in over && !(k in base && base[k].JObj? && over[k].JObj?) ==> Merged(base, over)[k] == over[k]
    ensures k in base && k in over && base[k].JObj? && over[k].JObj? ==>
      Merged(base, over)[k] == JObj(Merged(base[k].fields, over[k].fields))
  {
  }

  /** Merging a schema with itself gives it back, at every depth. */
  lemma {:induction false} MergeIdempotent(m: map<string, Json>)
    ensures Merged(m, m) == m
    decreases JObj(m)
  {
    forall k | k in m
      ensures Merged(m, m)[k] == m[k]
    {
      if m[k].JObj? {
        FieldSmaller(m, k);
        MergeIdempotent(m[k].fields);
      }
    }
  }

  /** An empty override changes nothing, and over an empty base the override is taken whole. */
  lemma MergeEmpty(m: map<string, Json>)
    ensures Merged(m, map[]) == m
    ensures Merged(map[], m) == m
  {
  }

  /**
   * `merge_schemas`: copies `base`, then goes through the keys of `over`
   * (in any order), merging two dicts recursively and otherwise taking
   * over's value. The inputs are values, so neither is changed.
   */
  method MergeSchemas(base: map<string, Json>, over: map<string, Json>) returns (r: map<string, Json>)
    ensures r == Merged(base, over)
    decreases JObj(over)
  {
    r := base;
    var todo := over.Keys;
    while todo != {}
      invariant todo <= over.Keys
      invariant forall k :: k in r <==> k in base || (k in over && k !in todo)
      invariant forall k :: k in r ==> r[k] == if k in over && k !in todo then Merged(base, over)[k] else base[k]
      decreases todo
    {
      var key :| key in todo;
      if key in r && r[key].JObj? && over[key].JObj? {
        FieldSmaller(over, key);
        var sub := MergeSchemas(r[key].fields, over[key].fields);
        r := r[key := JObj(sub)];
      } else {
        r := r[key := over[key]];
      }
      todo := todo - {key};
    }
  }

  // ---------------------------------------------------------------------------
  // extract_required_fields
  // ---------------------------------------------------------------------------

  /** The entry for one required name: `f"{prefix}/{name}"`, or the name itself without a prefix. */
  function RequiredPath(prefix: string, x: Json): (r: Json)
    ensures prefix != "" ==> r.JStr? && StartsWith(r.s, prefix + "/")
    ensures prefix == "" ==> r == x
  {
    if prefix != "" then
      assert (prefix + "/" + PyStr(x))[..|prefix + "/"|] == prefix + "/";
      JStr(SchemaParser.BuildPath(prefix, PyStr(x)))
    else x
  }

  /**
   * What a `for` loop over `required` visits: the items of a list, the
   * one-character strings of a string; None stands for the TypeError of a
   * value Python cannot iterate.
   */
  function Iterated(req: Json): (r: Option<seq<Json>>)
    ensures req.JArr? ==> r == Some(req.items)
    ensures req.JStr? ==> (r.Some? && |r.value| == |req.s|
      && forall i :: 0 <= i < |req.s| ==> r.value[i] == JStr([req.s[i]]))
    ensures !req.JArr? && !req.JStr? ==> r.None?
  {
    match req
    case JArr(items) => Some(items)
    case JStr(s) => Some(seq(|s|, i requires 0 <= i < |s| => JStr([s[i]])))
    case _ => None
  }

  /** `schema.get("required", [])`. */
  function RequiredOf(schema: map<string, Json>): Json
  {
    if "required" in schema then schema["required"] else JArr([])
  }

  /** The entries for this level's `required`, in order, each placed under `prefix`. */
  function LevelRequired(schema: map<string, Json>, prefix: string): (r: Option<seq<Json>>)
    ensures r.Some? <==> Iterated(RequiredOf(schema)).Some?
    ensures r.Some? ==> (|r.value| == |Iterated(RequiredOf(schema)).value|
      && forall i :: 0 <= i < |r.value| ==> r.value[i] == RequiredPath(prefix, Iterated(RequiredOf(schema)).value[i]))
  {
    var names := Iterated(RequiredOf(schema));
    if names.None? then None
    else Some(seq(|names.value|, i requires 0 <= i < |names.value| => RequiredPath(prefix, names.value[i])))
  }

  /**
   * `schema.get("properties", {})` can be iterated with `.items()` only
   * when it is a dict; anything else raises AttributeError.
   */
  predicate PropertiesOk(schema: map<string, Json>)
  {
    "properties" !in schema || schema["properties"].JObj?
  }

  /** The properties of a schema, empty when it has none. */
  function Properties(schema: map<string, Json>): map<string, Json>
  {
    if "properties" in schema && schema["properties"].JObj? then schema["properties"].fields else map[]
  }

  /** A property's schema is smaller than the schema that holds it. */
  lemma PropertySmaller(schema: map<string, Json>, name: string)
    requires name in Properties(schema)
    ensures Properties(schema)[name] < JObj(schema)
  {
    FieldSmaller(schema["properties"].fields, name);
    FieldSmaller(schema, "properties");
  }

  /**
   * What one property adds: a property schema that is not a dict raises
   * (None); one whose type is "object" adds its own required paths under
   * `prefix/name`; any other adds nothing, so arrays are not searched.
   */
  ghost function Contribution(schema: map<string, Json>, prefix: string, name: string): Option<multiset<Json>>
    requires name in Properties(schema)
    decreases JObj(schema), 0, 0
  {
    var fs := Properties(schema)[name];
    PropertySmaller(schema, name);
    if !fs.JObj? then None
    else if Get(fs.fields, "type") == JStr("object") then AllRequired(fs.fields, SchemaParser.BuildPath(prefix, name))
    else Some(multiset{})
  }

  /** One property's contribution, case by case. */
  lemma ContributionCases(schema: map<string, Json>, prefix: string, name: string)
    requires name in Properties(schema)
    ensures !Properties(schema)[name].JObj? ==> Contribution(schema, prefix, name).None?
    ensures Properties(schema)[name].JObj? && Get(Properties(schema)[name].fields, "type") != JStr("object") ==>
      Contribution(schema, prefix, name) == Some(multiset{})
    ensures Properties(schema)[name].JObj? && Get(Properties(schema)[name].fields, "type") == JStr("object") ==>
      Contribution(schema, prefix, name)
        == AllRequired(Properties(schema)[name].fields, SchemaParser.BuildPath(prefix, name))
  {
  }

  /** The contributions of the properties in `done`, taken together. */
  ghost function NestedSum(schema: map<string, Json>, prefix: string, done: set<string>): multiset<Json>
    requires done <= Properties(schema).Keys
    decreases JObj(schema), 1, |done|
  {
    if done == {} then multiset{}
    else
      var n :| n in done;
      var c := Contribution(schema, prefix, n);
      (if c.Some? then c.value else multiset{}) + NestedSum(schema, prefix, done - {n})
  }

  /** No property makes Python raise. */
  ghost predicate ContributionsOk(schema: map<string, Json>, prefix: string)
    decreases JObj(schema), 1, 0
  {
    forall n :: n in Properties(schema) ==> Contribution(schema, prefix, n).Some?
  }

  /**
   * All required paths of a schema, as a multiset: this level's entries and
   * those of every nested object, whatever order Python visits the
   * properties in. None when Python raises.
   */
  ghost function AllRequired(schema: map<string, Json>, prefix: string): Option<multiset<Json>>
    decreases JObj(schema), 2, 0
  {
    var level := LevelRequired(schema, prefix);
    if level.None? || !PropertiesOk(schema) || !ContributionsOk(schema, prefix) then None
    else Some(multiset(level.value) + NestedSum(schema, prefix, Properties(schema).Keys))
  }

  /** The sum does not depend on which property is taken first. */
  lemma {:induction false} NestedSumStep(schema: map<string, Json>, prefix: string, done: set<string>, n: string)
    requires done <= Properties(schema).Keys
    requires n in done
    ensures NestedSum(schema, prefix, done)
      == NestedSum(schema, prefix, done - {n})
         + (if Contribution(schema, prefix, n).Some? then Contribution(schema, prefix, n).value else multiset{})
    decreases |done|
  {
    var m :| m in done && NestedSum(schema, prefix, done)
      == (if Contribution(schema, prefix, m).Some? then Contribution(schema, prefix, m).value else multiset{})
         + NestedSum(schema, prefix, done - {m});
    if m != n {
      NestedSumStep(schema, prefix, done - {m}, n);
      NestedSumStep(schema, prefix, done - {n}, m);
      assert done - {m} - {n} == done - {n} - {m};
    }
  }

  /** The first loop of `extract_required_fields`: the paths for this level's `required`. */
  method LevelPaths(schema: map<string, Json>, prefix: string) returns (r: Option<seq<Json>>)
    ensures r == LevelRequired(schema, prefix)
  {
    var required := RequiredOf(schema);
    if !required.JArr? && !required.JStr? {
      return None;
    }
    var names := Iterated(required).value;
    var out: seq<Json> := [];
    var i := 0;
    while i < |names|
      invariant 0 <= i <= |names|
      invariant |out| == i && forall j :: 0 <= j < i ==> out[j] == RequiredPath(prefix, names[j])
    {
      out := out + [RequiredPath(prefix, names[i])];
      i := i + 1;
    }
    assert out == LevelRequired(schema, prefix).value;
    r := Some(out);
  }

  /**
   * `extract_required_fields`: this level's required names first, in list
   * order, then the paths of every nested object, property by property.
   * None stands for the exception Python raises on a malformed schema.
   */
  method ExtractRequiredFields(schema: map<string, Json>, prefix: string) returns (r: Option<seq<Json>>)
    ensures r.Some? <==> AllRequired(schema, prefix).Some?
    ensures r.Some? ==> multiset(r.value) == AllRequired(schema, prefix).value
    ensures r.Some? ==> (|LevelRequired(schema, prefix).value| <= |r.value|
      && r.value[..|LevelRequired(schema, prefix).value|] == LevelRequired(schema, prefix).value)
    ensures r.Some? && AllRequired(schema, prefix).value == multiset(LevelRequired(schema, prefix).value) ==>
      r.value == LevelRequired(schema, prefix).value
    decreases JObj(schema), 2
  {
    var levelPaths := LevelPaths(schema, prefix);
    if levelPaths.None? {
      return None;
    }
    r := NestedPaths(schema, prefix, levelPaths.value);
    if r.Some? && multiset(r.value) == multiset(levelPaths.value) {
      assert |r.value| == |levelPaths.value|;
    }
  }

  /**
   * The second loop of `extract_required_fields`: extends `found` with the
   * required paths of every nested object, in whatever order the
   * properties come.
   */
  method NestedPaths(schema: map<string, Json>, prefix: string, found: seq<Json>) returns (r: Option<seq<Json>>)
    ensures r.Some? <==> PropertiesOk(schema) && ContributionsOk(schema, prefix)
    ensures r.Some? ==> (|found| <= |r.value| && r.value[..|found|] == found
      && multiset(r.value) == multiset(found) + NestedSum(schema, prefix, Properties(schema).Keys))
    decreases JObj(schema), 1, 2
  {
    if !PropertiesOk(schema) {
      return None;
    }
    r := CollectNested(schema, prefix, found);
  }

  /**
   * What `CollectNested` has gathered after visiting the properties in
   * `done`: `found` unchanged at the front, then the paths they contribute,
   * none of them having raised.
   */
  ghost predicate Collected(schema: map<string, Json>, prefix: string, found: seq<Json>, out: seq<Json>, done: set<string>)
  {
    done <= Properties(schema).Keys
    && |found| <= |out| && out[..|found|] == found
    && multiset(out) == multiset(found) + NestedSum(schema, prefix, done)
    && forall n :: n in done ==> Contribution(schema, prefix, n).Some?
  }

  /** The loop of `NestedPaths` over the properties of a schema whose `properties` is a dict. */
  method CollectNested(schema: map<string, Json>, prefix: string, found: seq<Json>) returns (r: Option<seq<Json>>)
    requires PropertiesOk(schema)
    ensures r.Some? <==> ContributionsOk(schema, prefix)
    ensures r.Some? ==> (|found| <= |r.value| && r.value[..|found|] == found
      && multiset(r.value) == multiset(found) + NestedSum(schema, prefix, Properties(schema).Keys))
    decreases JObj(schema), 1, 1
  {
    var out := found;
    var properties := Properties(schema);
    var todo := properties.Keys;
    ghost var done: set<string> := {};
    while todo != {}
      invariant todo <= properties.Keys && done == properties.Keys - todo
      invariant Collected(schema, prefix, found, out, done)
      decreases todo
    {
      var name :| name in todo;
      var next := CollectProperty(schema, prefix, done, name, found, out);
      if next.None? {
        return None;
      }
      out := next.value;
      done := done + {name};
      todo := todo - {name};
    }
    CollectedAll(schema, prefix, found, out, done);
    r := Some(out);
  }

  /** Once every property is visited, nothing raised and the gathered paths are the whole sum. */
  lemma CollectedAll(schema: map<string, Json>, prefix: string, found: seq<Json>, out: seq<Json>, done: set<string>)
    requires done == Properties(schema).Keys && Collected(schema, prefix, found, out, done)
    ensures ContributionsOk(schema, prefix)
    ensures |found| <= |out| && out[..|found|] == found
      && multiset(out) == multiset(found) + NestedSum(schema, prefix, Properties(schema).Keys)
  {
  }

  /** One turn of `CollectNested`: appends the paths of property `name`, or None where Python raises. */
  method CollectProperty(schema: map<string, Json>, prefix: string, ghost done: set<string>, name: string,
                         found: seq<Json>, out: seq<Json>) returns (r: Option<seq<Json>>)
    requires name in Properties(schema) && name !in done
    requires Collected(schema, prefix, found, out, done)
    ensures r.None? ==> !ContributionsOk(schema, prefix)
    ensures r.Some? ==> Collected(schema, prefix, found, r.value, done + {name})
    decreases JObj(schema), 1, 0
  {
    var added := PropertyPaths(schema, prefix, name);
    if added.None? {
      return None;
    }
    NestedStep(schema, prefix, done, name, found, out, added.value);
    r := Some(out + added.value);
  }

  /** The paths one property adds, or None where Python raises. */
  method PropertyPaths(schema: map<string, Json>, prefix: string, name: string) returns (r: Option<seq<Json>>)
    requires name in Properties(schema)
    ensures r.Some? <==> Contribution(schema, prefix, name).Some?
    ensures r.Some? ==> Contribution(schema, prefix, name) == Some(multiset(r.value))
    decreases JObj(schema), 0
  {
    var fieldSchema := Properties(schema)[name];
    PropertySmaller(schema, name);
    ContributionCases(schema, prefix, name);
    if !fieldSchema.JObj? {
      return None;
    }
    if Get(fieldSchema.fields, "type") == JStr("object") {
      r := ExtractRequiredFields(fieldSchema.fields, SchemaParser.BuildPath(prefix, name));
    } else {
      r := Some([]);
    }
  }

  /** Appending one property's paths keeps the running total equal to the sum over the properties seen. */
  lemma NestedStep(schema: map<string, Json>, prefix: string, done: set<string>, name: string,
                   found: seq<Json>, before: seq<Json>, added: seq<Json>)
    requires done <= Properties(schema).Keys && name in Properties(schema) && name !in done
    requires |found| <= |before| && before[..|found|] == found
    requires multiset(before) == multiset(found) + NestedSum(schema, prefix, done)
    requires Contribution(schema, prefix, name) == Some(multiset(added))
    ensures |found| <= |before + added| && (before + added)[..|found|] == found
    ensures multiset(before + added) == multiset(found) + NestedSum(schema, prefix, done + {name})
  {
    NestedSumStep(schema, prefix, done + {name}, name);
    assert done + {name} - {name} == done;
    assert (before + added)[..|found|] == before[..|found|];
  }

  /** A schema without nested objects contributes nothing beyond its own level. */
  lemma {:induction false} NestedSumZero(schema: map<string, Json>, prefix: string, done: set<string>)
    requires done <= Properties(schema).Keys
    requires forall n :: n in done ==> Contribution(schema, prefix, n) == Some(multiset{})
    ensures NestedSum(schema, prefix, done) == multiset{}
    decreases |done|
  {
    if done != {} {
      var n :| n in done;
      NestedSumStep(schema, prefix, done, n);
      NestedSumZero(schema, prefix, done - {n});
    }
  }

  /**
   * When every property is a dict whose type is not "object", the result is
   * exactly this level's `required` list, in order.
   */
  lemma FlatSchema(schema: map<string, Json>, prefix: string)
    requires LevelRequired(schema, prefix).Some? && PropertiesOk(schema)
    requires forall n :: n in Properties(schema) ==>
      Properties(schema)[n].JObj? && Get(Properties(schema)[n].fields, "type") != JStr("object")
    ensures AllRequired(schema, prefix) == Some(multiset(LevelRequired(schema, prefix).value))
  {
    forall n | n in Properties(schema)
      ensures Contribution(schema, prefix, n) == Some(multiset{})
    {
    }
    assert ContributionsOk(schema, prefix);
    NestedSumZero(schema, prefix, Properties(schema).Keys);
    assert multiset(LevelRequired(schema, prefix).value) + multiset{} == multiset(LevelRequired(schema, prefix).value);
  }

  /** A string that starts with `p + q` starts with `p`. */
  lemma StartsWithLonger(s: string, p: string, q: string)
    requires StartsWith(s, p + q)
    ensures StartsWith(s, p)
  {
    assert s[..|p|] == s[..|p + q|][..|p|];
  }

  /** Under a non-empty prefix every collected entry is a path string below `prefix/`. */
  lemma {:induction false} AllRequiredUnder(schema: map<string, Json>, prefix: string)
    requires prefix != "" && AllRequired(schema, prefix).Some?
    ensures forall x :: x in AllRequired(schema, prefix).value ==> x.JStr? && StartsWith(x.s, prefix + "/")
    decreases JObj(schema), 2, 0
  {
    var level := LevelRequired(schema, prefix).value;
    forall x: Json | x in multiset(level)
      ensures x.JStr? && StartsWith(x.s, prefix + "/")
    {
      var i :| 0 <= i < |level| && level[i] == x;
    }
    NestedSumUnder(schema, prefix, Properties(schema).Keys);
  }

  lemma {:induction false} NestedSumUnder(schema: map<string, Json>, prefix: string, done: set<string>)
    requires prefix != "" && done <= Properties(schema).Keys
    requires forall n :: n in done ==> Contribution(schema, prefix, n).Some?
    ensures forall x :: x in NestedSum(schema, prefix, done) ==> x.JStr? && StartsWith(x.s, prefix + "/")
    decreases JObj(schema), 1, |done|
  {
    if done != {} {
      var n :| n in done;
      NestedSumStep(schema, prefix, done, n);
      NestedSumUnder(schema, prefix, done - {n});
      ContributionUnder(schema, prefix, n);
    }
  }

  lemma {:induction false} ContributionUnder(schema: map<string, Json>, prefix: string, name: string)
    requires prefix != "" && name in Properties(schema) && Contribution(schema, prefix, name).Some?
    ensures forall x :: x in Contribution(schema, prefix, name).value ==> x.JStr? && StartsWith(x.s, prefix + "/")
    decreases JObj(schema), 0, 0
  {
    var fs := Properties(schema)[name];
    PropertySmaller(schema, name);
    if Get(fs.fields, "type") == JStr("object") {
      var sub := SchemaParser.BuildPath(prefix, name);
      AllRequiredUnder(fs.fields, sub);
      forall x | x in AllRequired(fs.fields, sub).value
        ensures x.JStr? && StartsWith(x.s, prefix + "/")
      {
        assert sub + "/" == prefix + "/" + (name + "/");
        StartsWithLonger(x.s, prefix + "/", name + "/");
      }
    }
  }
}
