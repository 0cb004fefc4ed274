/**
 * The JSON Schema parser: it flattens a schema into `{path: FieldMetadata}`,
 * with nested object properties under "parent/child" and the properties of
 * object array items under "path[]/child", and it has its own, simpler
 * comparison of two flattened schemas.
 */
module SchemaParser {
  import opened Common
  import opened JsonData
  import opened SchemaModels
  import SchemaComparator

  // ---------------------------------------------------------------------------
  // Paths
  // ---------------------------------------------------------------------------

  /** `_build_path`: "parent/name", or the bare name at the top level. */
  function BuildPath(parent: string, name: string): string
  {
    if parent != "" then parent + "/" + name else name
  }

  /** The first position of `c` is pinned down by its two defining facts. */
  lemma IndexOfIs(s: string, c: char, i: nat)
    requires i <= |s| && (i < |s| ==> s[i] == c) && forall j :: 0 <= j < i ==> s[j] != c
    ensures IndexOf(s, c) == i
  {
  }

  /** Splitting "s/n" on '/' gives the segments of `s` followed by `n`, when `n` has no '/'. */
  lemma {:induction false} SplitAppend(s: string, n: string)
    requires '/' !in n
    ensures Split(s + "/" + n, '/') == Split(s, '/') + [n]
    decreases |s|
  {
    var t := s + "/" + n;
    var i := IndexOf(s, '/');
    IndexOfIs(t, '/', i);
    if i == |s| {
      assert t[..i] == s && t[i + 1..] == n;
      SplitNoSeparator(n, '/');
      assert Split(t, '/') == [s] + Split(n, '/');
    } else {
      var rest := s[i + 1..];
      assert t[..i] == s[..i];
      assert t[i + 1..] == rest + "/" + n;
      SplitAppend(rest, n);
      assert Split(t, '/') == [s[..i]] + Split(rest + "/" + n, '/');
      assert Split(s, '/') == [s[..i]] + Split(rest, '/');
    }
  }

  /**
   * A path splits on '/' into its parent's segments and then the field's
   * name, so the name is the last segment; at the top level the path is
   * the name.
   */
  lemma BuildPathSegments(parent: string, name: string)
    requires '/' !in name
    ensures Split(BuildPath(parent, name), '/') == (if parent == "" then [name] else Split(parent, '/') + [name])
    ensures parent != "" ==> StartsWith(BuildPath(parent, name), parent + "/")
  {
    if parent == "" {
      SplitNoSeparator(name, '/');
    } else {
      SplitAppend(parent, name);
      assert BuildPath(parent, name)[..|parent + "/"|] == parent + "/";
    }
  }

  // ---------------------------------------------------------------------------
  // One field
  // ---------------------------------------------------------------------------

  /** Python hashability: a list or a dict cannot be put into a set. */
  predicate Hashable(j: Json) { !j.JArr? && !j.JObj? }

  /**
   * `_get_required_fields`: `set(schema.get("required", []))`, keeping the
   * strings, since only a string can equal a property name. A string gives
   * its characters and a dict its keys, as Python's `set` does; `None`
   * stands for the TypeError Python raises for None, a bool or a number
   * (not iterable) and for a list holding a list or a dict (not hashable).
   */
  function RequiredNames(schema: map<string, Json>): (r: Option<set<string>>)
    ensures "required" !in schema ==> r == Some({})
    ensures "required" in schema && schema["required"].JArr? ==>
      (r.Some? <==> forall x :: x in schema["required"].items ==> Hashable(x))
      && (r.Some? ==> forall n :: n in r.value <==> JStr(n) in schema["required"].items)
    ensures "required" in schema && (schema["required"].JNull? || schema["required"].JBool? || schema["required"].JInt?)
      ==> r.None?
  {
    if "required" !in schema then Some({})
    else
      match schema["required"]
      case JArr(items) =>
        if forall x :: x in items ==> Hashable(x) then Some(set x | x in items && x.JStr? :: x.s) else None
      case JStr(s) => Some(set i | 0 <= i < |s| :: [s[i]])
      case JObj(f) => Some(f.Keys)
      case _ => None
  }

  /** The constraint keywords `_extract_constraints` copies. */
  const ConstraintKeys: set<string> :=
    {"minLength", "maxLength", "pattern", "minimum", "maximum", "maxIntLength", "minItems", "maxItems", "enum"}

  /** The recognised constraints of a field schema. */
  function Constraints(fs: map<string, Json>): map<string, Json>
  {
    Restrict(fs, ConstraintKeys)
  }

  /**
   * Keys outside the recognised nine never reach the constraints, and
   * extracting from extracted constraints changes nothing.
   */
  lemma ConstraintsOnlyRecognised(fs: map<string, Json>, k: string, v: Json)
    requires k !in ConstraintKeys
    ensures Constraints(fs[k := v]) == Constraints(fs)
    ensures Constraints(Constraints(fs)) == Constraints(fs)
    ensures forall c :: c in ConstraintKeys && c in fs ==> c in Constraints(fs) && Constraints(fs)[c] == fs[c]
  {
  }

  /** The entries of `fs` under the keys in `ks`. */
  function Restrict(fs: map<string, Json>, ks: set<string>): map<string, Json>
  {
    map k | k in fs.Keys * ks :: fs[k]
  }

  /** A map holding exactly the recognised entries of `fs` is its constraints. */
  lemma ConstraintsChar(fs: map<string, Json>, c: map<string, Json>)
    requires forall k :: k in c <==> k in fs && k in ConstraintKeys
    requires forall k :: k in c ==> c[k] == fs[k]
    ensures c == Constraints(fs)
  {
    assert c.Keys == fs.Keys * ConstraintKeys;
  }

  /** Copying the entries of `fs` under the keys in `ks`, and nothing else. */
  ghost predicate CopiedFrom(c: map<string, Json>, fs: map<string, Json>, ks: set<string>)
  {
    (forall k :: k in c <==> k in fs && k in ks) && forall k :: k in c ==> c[k] == fs[k]
  }

  /** Copying one more keyword, when the schema has it, extends the copy by that keyword. */
  lemma CopyStep(c: map<string, Json>, fs: map<string, Json>, ks: set<string>, key: string)
    requires CopiedFrom(c, fs, ks)
    ensures key in fs ==> CopiedFrom(c[key := fs[key]], fs, ks + {key})
    ensures key !in fs ==> CopiedFrom(c, fs, ks + {key})
  {
  }

  /** One step of `_extract_constraints`: copy `key` when the schema has it. */
  method CopyKey(c: map<string, Json>, fs: map<string, Json>, ghost ks: set<string>, key: string)
    returns (c': map<string, Json>)
    requires CopiedFrom(c, fs, ks)
    ensures CopiedFrom(c', fs, ks + {key})
  {
    CopyStep(c, fs, ks, key);
    c' := c;
    if key in fs {
      c' := c[key := fs[key]];
    }
  }

  /** `_extract_constraints`: copies the recognised keywords one by one. */
  method ExtractConstraints(fs: map<string, Json>) returns (c: map<string, Json>)
    ensures forall k :: k in c <==> k in fs && k in ConstraintKeys
    ensures forall k :: k in c ==> c[k] == fs[k]
    ensures c == Constraints(fs)
  {
    c := map[];
    ghost var ks: set<string> := {};
    c := CopyKey(c, fs, ks, "minLength");
    ks := ks + {"minLength"};
    c := CopyKey(c, fs, ks, "maxLength");
    ks := ks + {"maxLength"};
    c := CopyKey(c, fs, ks, "pattern");
    ks := ks + {"pattern"};
    c := CopyKey(c, fs, ks, "minimum");
    ks := ks + {"minimum"};
    c := CopyKey(c, fs, ks, "maximum");
    ks := ks + {"maximum"};
    c := CopyKey(c, fs, ks, "maxIntLength");
    ks := ks + {"maxIntLength"};
    c := CopyKey(c, fs, ks, "minItems");
    ks := ks + {"minItems"};
    c := CopyKey(c, fs, ks, "maxItems");
    ks := ks + {"maxItems"};
    c := CopyKey(c, fs, ks, "enum");
    ks := ks + {"enum"};
    assert ks == ConstraintKeys;
    ConstraintsChar(fs, c);
  }

  /**
   * The expression of a `condition` entry: the entry itself when it is a
   * string, or its "expression" when it is an object holding one.
   */
  function ConditionOf(c: Json): Option<string>
  {
    match c
    case JStr(e) => Some(e)
    case JObj(f) => if "expression" in f && f["expression"].JStr? then Some(f["expression"].s) else None
    case _ => None
  }

  /** `dict.get(key, default)`. */
  function GetOr(m: map<string, Json>, key: string, default: Json): (r: Json)
  {
    if key in m then m[key] else default
  }

  /**
   * `_parse_field`: the type defaults to "unknown" and the description to
   * "", the field is conditionally required exactly when the schema has a
   * `condition` key, and the recognised constraints are copied.
   */
  function ParseField(name: string, path: string, fs: map<string, Json>, isRequired: bool): (f: FieldMetadata)
    ensures f.path == path && f.name == name && f.isRequired == isRequired && f.items.None?
    ensures f.isConditional <==> "condition" in fs
    ensures "type" in fs ==> f.fieldType == fs["type"]
    ensures "type" !in fs ==> f.fieldType == JStr("unknown")
    ensures f.constraints == Constraints(fs)
  {
    FieldMetadata(
      path, name, GetOr(fs, "type", JStr("unknown")), isRequired, "condition" in fs,
      ConditionOf(Get(fs, "condition")), Get(fs, "dictionary"), Constraints(fs),
      GetOr(fs, "description", JStr("")), None, Get(fs, "format"), Get(fs, "default"))
  }

  /**
   * The requirement status of a parsed field: "О" when the name is in the
   * level's `required`, else "УО" when the field schema has a condition,
   * else "Н"; a field without a type is neither primitive nor complex.
   */
  lemma ParsedRequirement(name: string, path: string, fs: map<string, Json>, isRequired: bool)
    ensures RequirementStatus(ParseField(name, path, fs, isRequired))
      == if isRequired then "О" else if "condition" in fs then "УО" else "Н"
    ensures "type" !in fs ==>
      !IsPrimitive(ParseField(name, path, fs, isRequired)) && !IsComplex(ParseField(name, path, fs, isRequired))
  {
    PrimitiveComplexDisjoint(ParseField(name, path, fs, isRequired));
  }

  /** The keys `_parse_array_items` reads nothing from. */
  function ItemsSchema(items: map<string, Json>): map<string, Json>
  {
    map k | k in items && k !in {"condition", "format", "default"} :: items[k]
  }

  /**
   * `_parse_array_items`: the items are described at "path[]" under the
   * name "items", with their type (default "unknown"), description,
   * constraints and dictionary, and nothing else.
   */
  function ParseArrayItems(path: string, items: map<string, Json>): (f: FieldMetadata)
    ensures f.path == path + "[]" && f.name == "items"
    ensures f == ParseField("items", path + "[]", ItemsSchema(items), false)
    ensures !f.isRequired && !f.isConditional && f.condition.None? && f.format == JNull && f.default == JNull
  {
    assert Constraints(ItemsSchema(items)) == Constraints(items);
    FieldMetadata(
      path + "[]", "items", GetOr(items, "type", JStr("unknown")), false, false, None,
      Get(items, "dictionary"), Constraints(items), GetOr(items, "description", JStr("")), None, JNull, JNull)
  }

  // ---------------------------------------------------------------------------
  // parse_schema
  // ---------------------------------------------------------------------------

  /** `schema.get("properties", {})` when that is a dict. */
  function Properties(schema: Json): (r: map<string, Json>)
    requires schema.JObj?
    ensures forall n :: n in r ==> r[n] < schema
  {
    if "properties" in schema.fields && schema.fields["properties"].JObj? then schema.fields["properties"].fields
    else map[]
  }

  /** What a level needs before its properties are visited: a usable `required` and a dict of properties. */
  predicate LevelOk(schema: Json)
    requires schema.JObj?
  {
    RequiredNames(schema.fields).Some?
    && ("properties" in schema.fields ==> schema.fields["properties"].JObj?)
  }

  /** A property name that cannot run into a path separator or an items marker. */
  predicate PlainName(n: string) { n != "" && '/' !in n && '[' !in n }

  /** Every property name, at every level and inside array items, is plain. */
  predicate PlainNames(schema: Json)
    decreases schema
  {
    schema.JObj? ==>
      forall n :: n in Properties(schema) ==>
        PlainName(n) && PlainNames(Properties(schema)[n])
        && (Properties(schema)[n].JObj? && "items" in Properties(schema)[n].fields ==>
              PlainNames(Properties(schema)[n].fields["items"]))
  }

  /** The metadata `parse_schema` creates for property `name` of a level. */
  function FieldAt(schema: Json, parent: string, name: string): FieldMetadata
    requires schema.JObj? && LevelOk(schema) && name in Properties(schema) && Properties(schema)[name].JObj?
  {
    ParseField(name, BuildPath(parent, name), Properties(schema)[name].fields,
      name in RequiredNames(schema.fields).value)
  }

  /** Whether a parsed field is an object whose own properties are flattened. */
  predicate NestsObject(meta: FieldMetadata, fs: map<string, Json>)
  {
    meta.fieldType == JStr("object") && "properties" in fs
  }

  /** Whether a parsed field is an array whose items are described. */
  predicate HasItems(meta: FieldMetadata, fs: map<string, Json>)
  {
    meta.fieldType == JStr("array") && "items" in fs
  }

  /** The entries `base` and a nested level give together, `None` when the nested level fails. */
  function Nest(base: map<string, FieldMetadata>, nested: Option<map<string, FieldMetadata>>): Option<map<string, FieldMetadata>>
  {
    if nested.None? then None else Some(base + nested.value)
  }

  /**
   * The entries an array field with `items` adds: its metadata with the
   * items metadata attached and, for object items with `properties`, the
   * flattened properties of the items under "path[]". `None` when the items
   * schema is not a dict or the items level fails.
   */
  ghost function ItemsContribution(itemsSchema: Json, path: string, meta: FieldMetadata): Option<map<string, FieldMetadata>>
    decreases itemsSchema, 4
  {
    if !itemsSchema.JObj? then None
    else
      var items := ParseArrayItems(path, itemsSchema.fields);
      var withItems := meta.(items := Some(items));
      if NestsObject(items, itemsSchema.fields) then Nest(map[path := withItems], Flatten(itemsSchema, path + "[]"))
      else Some(map[path := withItems])
  }

  /**
   * The entries one property adds to its level: its own metadata and the
   * flattened properties of a nested object, or what an array with `items`
   * adds. `None` when parsing it raises: a property schema that is not a
   * dict, or a part that fails.
   */
  ghost function Contribution(schema: Json, parent: string, name: string): Option<map<string, FieldMetadata>>
    requires schema.JObj? && LevelOk(schema) && name in Properties(schema)
    decreases schema, 0
  {
    var fieldSchema := Properties(schema)[name];
    if !fieldSchema.JObj? then None
    else
      var fs := fieldSchema.fields;
      var path := BuildPath(parent, name);
      var meta := FieldAt(schema, parent, name);
      if NestsObject(meta, fs) then Nest(map[path := meta], Flatten(fieldSchema, path))
      else if HasItems(meta, fs) then ItemsContribution(fs["items"], path, meta)
      else Some(map[path := meta])
  }

  /** The keys the properties in `done` contribute. */
  ghost function UnionKeys(schema: Json, parent: string, done: set<string>): set<string>
    requires schema.JObj? && LevelOk(schema) && done <= Properties(schema).Keys
    requires forall n :: n in done ==> Contribution(schema, parent, n).Some?
    decreases schema, 1
  {
    set n, k | n in done && k in Contribution(schema, parent, n).value :: k
  }

  /** The union of the contributions of the properties in `done`. */
  ghost function PartialUnion(schema: Json, parent: string, done: set<string>): map<string, FieldMetadata>
    requires schema.JObj? && LevelOk(schema) && done <= Properties(schema).Keys
    requires forall n :: n in done ==> Contribution(schema, parent, n).Some?
    decreases schema, 2
  {
    map k | k in UnionKeys(schema, parent, done) ::
      var n :| n in done && k in Contribution(schema, parent, n).value; Contribution(schema, parent, n).value[k]
  }

  /**
   * `parse_schema(schema, parent)`: the union of the contributions of all
   * properties, or `None` when the level or any property fails.
   */
  ghost function Flatten(schema: Json, parent: string): Option<map<string, FieldMetadata>>
    requires schema.JObj?
    decreases schema, 3
  {
    if !LevelOk(schema) then None
    else if exists n :: n in Properties(schema) && Contribution(schema, parent, n).None? then None
    else Some(PartialUnion(schema, parent, Properties(schema).Keys))
  }

  /** `k` lies at `path` or below it: a nested property or an items property. */
  predicate Under(k: string, path: string)
  {
    k == path || StartsWith(k, path + "/") || StartsWith(k, path + "[]/")
  }

  lemma PrefixOfPrefix(k: string, a: string, b: string)
    requires StartsWith(k, a + b)
    ensures StartsWith(k, a)
  {
    assert k[..|a|] == (a + b)[..|a|];
  }

  /** What an array field adds lies at its path, which holds it with its items attached, or under "path[]/". */
  lemma {:induction false} ItemsShape(itemsSchema: Json, path: string, meta: FieldMetadata)
    requires PlainNames(itemsSchema) && ItemsContribution(itemsSchema, path, meta).Some?
    ensures forall k :: k in ItemsContribution(itemsSchema, path, meta).value ==> k == path || StartsWith(k, path + "[]/")
    ensures path in ItemsContribution(itemsSchema, path, meta).value
    ensures ItemsContribution(itemsSchema, path, meta).value[path]
      == meta.(items := Some(ParseArrayItems(path, itemsSchema.fields)))
    decreases itemsSchema, 4
  {
    var items := ParseArrayItems(path, itemsSchema.fields);
    if NestsObject(items, itemsSchema.fields) {
      var nested := Flatten(itemsSchema, path + "[]").value;
      FlattenUnder(itemsSchema, path + "[]");
      assert path + "[]" + "/" == path + "[]/";
      assert path !in nested;
    }
  }

  /** Every key a property contributes lies under its path; its own path holds its metadata. */
  lemma {:induction false} ContributionShape(schema: Json, parent: string, name: string)
    requires schema.JObj? && LevelOk(schema) && PlainNames(schema) && name in Properties(schema)
    requires Contribution(schema, parent, name).Some?
    ensures forall k :: k in Contribution(schema, parent, name).value ==> Under(k, BuildPath(parent, name))
    ensures BuildPath(parent, name) in Contribution(schema, parent, name).value
    ensures Contribution(schema, parent, name).value[BuildPath(parent, name)]
      == FieldAt(schema, parent, name).(items := Contribution(schema, parent, name).value[BuildPath(parent, name)].items)
    decreases schema, 0
  {
    var fieldSchema := Properties(schema)[name];
    var fs := fieldSchema.fields;
    var path := BuildPath(parent, name);
    var meta := FieldAt(schema, parent, name);
    if NestsObject(meta, fs) {
      var nested := Flatten(fieldSchema, path).value;
      FlattenUnder(fieldSchema, path);
      assert path !in nested;
    } else if HasItems(meta, fs) {
      ItemsShape(fs["items"], path, meta);
    }
  }

  /** Below a non-empty parent, every flattened key starts with "parent/". */
  lemma {:induction false} FlattenUnder(schema: Json, parent: string)
    requires schema.JObj? && parent != "" && PlainNames(schema) && Flatten(schema, parent).Some?
    ensures forall k :: k in Flatten(schema, parent).value ==> StartsWith(k, parent + "/")
    decreases schema, 1
  {
    var props := Properties(schema);
    forall k | k in Flatten(schema, parent).value ensures StartsWith(k, parent + "/") {
      assert k in UnionKeys(schema, parent, props.Keys);
      var n :| n in props.Keys && k in Contribution(schema, parent, n).value;
      ContributionShape(schema, parent, n);
      UnderParent(k, parent, n);
    }
  }

  /** Whatever lies under "parent/n" starts with "parent/". */
  lemma UnderParent(k: string, parent: string, n: string)
    requires parent != "" && Under(k, BuildPath(parent, n))
    ensures StartsWith(k, parent + "/")
  {
    var path := BuildPath(parent, n);
    assert path == (parent + "/") + n;
    if k == path {
      assert k[..|parent + "/"|] == parent + "/";
    } else if StartsWith(k, path + "/") {
      assert path + "/" == (parent + "/") + (n + "/");
      PrefixOfPrefix(k, parent + "/", n + "/");
    } else {
      assert path + "[]/" == (parent + "/") + (n + "[]/");
      PrefixOfPrefix(k, parent + "/", n + "[]/");
    }
  }

  /** A key under "pre + n" continues, after the name, with nothing, '/' or '['. */
  lemma UnderHead(k: string, pre: string, n: string)
    requires Under(k, pre + n)
    ensures StartsWith(k, pre + n)
    ensures |k| == |pre + n| || k[|pre + n|] == '/' || k[|pre + n|] == '['
  {
    var p := pre + n;
    if StartsWith(k, p + "/") {
      PrefixOfPrefix(k, p, "/");
      assert k[|p|] == (p + "/")[|p|];
    } else if StartsWith(k, p + "[]/") {
      PrefixOfPrefix(k, p, "[]/");
      assert k[|p|] == (p + "[]/")[|p|];
    }
  }

  /** Two plain names that both head the same key after the same prefix are equal. */
  lemma HeadUnique(k: string, pre: string, n1: string, n2: string)
    requires PlainName(n1) && PlainName(n2)
    requires Under(k, pre + n1) && Under(k, pre + n2)
    ensures n1 == n2
  {
    UnderHead(k, pre, n1);
    UnderHead(k, pre, n2);
    assert |n1| == |n2|;
    assert n1 == (pre + n1)[|pre|..] == k[|pre|..|pre| + |n1|] == (pre + n2)[|pre|..] == n2;
  }

  /** "parent/" before a name, or nothing at the top level. */
  function Prefix(parent: string): (r: string)
    ensures forall n :: BuildPath(parent, n) == r + n
  {
    if parent == "" then "" else parent + "/"
  }

  /** With plain names, no two properties of a level contribute the same key. */
  lemma OwnerUnique(schema: Json, parent: string, n1: string, n2: string, k: string)
    requires schema.JObj? && LevelOk(schema) && PlainNames(schema)
    requires n1 in Properties(schema) && n2 in Properties(schema)
    requires Contribution(schema, parent, n1).Some? && Contribution(schema, parent, n2).Some?
    requires k in Contribution(schema, parent, n1).value && k in Contribution(schema, parent, n2).value
    ensures n1 == n2
  {
    ContributionShape(schema, parent, n1);
    ContributionShape(schema, parent, n2);
    HeadUnique(k, Prefix(parent), n1, n2);
  }

  /** A key contributed by a property of `done` holds that property's entry in the union. */
  lemma UnionValue(schema: Json, parent: string, done: set<string>, n: string, k: string)
    requires schema.JObj? && LevelOk(schema) && PlainNames(schema) && done <= Properties(schema).Keys
    requires forall m :: m in done ==> Contribution(schema, parent, m).Some?
    requires n in done && k in Contribution(schema, parent, n).value
    ensures k in PartialUnion(schema, parent, done)
    ensures PartialUnion(schema, parent, done)[k] == Contribution(schema, parent, n).value[k]
  {
    assert k in UnionKeys(schema, parent, done);
    var u := PartialUnion(schema, parent, done);
    assert exists m :: (m in done && k in Contribution(schema, parent, m).value
      && u[k] == Contribution(schema, parent, m).value[k]);
    var m :| m in done && k in Contribution(schema, parent, m).value && u[k] == Contribution(schema, parent, m).value[k];
    OwnerUnique(schema, parent, n, m, k);
  }

  /** Visiting one more property adds its contribution to the union. */
  lemma UnionStep(schema: Json, parent: string, done: set<string>, n: string)
    requires schema.JObj? && LevelOk(schema) && PlainNames(schema) && done <= Properties(schema).Keys
    requires n in Properties(schema) && n !in done
    requires forall m :: m in done + {n} ==> Contribution(schema, parent, m).Some?
    ensures PartialUnion(schema, parent, done + {n})
      == PartialUnion(schema, parent, done) + Contribution(schema, parent, n).value
  {
    var before := PartialUnion(schema, parent, done);
    var after := PartialUnion(schema, parent, done + {n});
    var c := Contribution(schema, parent, n).value;
    forall k | k in after ensures k in before + c && after[k] == (before + c)[k] {
      assert k in UnionKeys(schema, parent, done + {n});
      var m :| m in done + {n} && k in Contribution(schema, parent, m).value;
      UnionValue(schema, parent, done + {n}, m, k);
      if m == n {
        assert k in c;
      } else {
        UnionValue(schema, parent, done, m, k);
        if k in c {
          OwnerUnique(schema, parent, n, m, k);
        }
      }
    }
    forall k | k in before + c ensures k in after {
      if k in c {
        UnionValue(schema, parent, done + {n}, n, k);
      } else {
        assert k in UnionKeys(schema, parent, done);
        var m :| m in done && k in Contribution(schema, parent, m).value;
        UnionValue(schema, parent, done + {n}, m, k);
      }
    }
  }

  /** Storing an entry and then merging a nested level is merging the entry and the level. */
  lemma StoreThenUpdate(fields: map<string, FieldMetadata>, path: string, meta: FieldMetadata,
                        nested: map<string, FieldMetadata>)
    ensures fields[path := meta] + nested == fields + (map[path := meta] + nested)
  {
  }

  /** Storing an entry is merging a one-entry map. */
  lemma StoreOnly(fields: map<string, FieldMetadata>, path: string, meta: FieldMetadata)
    ensures fields[path := meta] == fields + map[path := meta]
  {
  }

  /** The array part overwrites the entry stored just before it. */
  lemma ItemsOverwrite(fields: map<string, FieldMetadata>, path: string, meta: FieldMetadata, itemsSchema: Json)
    ensures Nest(fields[path := meta], ItemsContribution(itemsSchema, path, meta))
      == Nest(fields, ItemsContribution(itemsSchema, path, meta))
  {
    var c := ItemsContribution(itemsSchema, path, meta);
    if c.Some? {
      assert path in c.value;
      assert fields[path := meta] + c.value == fields + c.value;
    }
  }

  /**
   * Lines 103-117 of `parse_schema` for an array field with `items`, given
   * the entries collected so far: the stored metadata object receives the
   * items metadata (the model writes the updated value back into the map),
   * then object items with `properties` are flattened under "path[]".
   */
  method ParseItems(itemsSchema: Json, path: string, meta: FieldMetadata, fields: map<string, FieldMetadata>)
    returns (r: Option<map<string, FieldMetadata>>)
    requires PlainNames(itemsSchema)
    ensures r == Nest(fields, ItemsContribution(itemsSchema, path, meta))
    decreases itemsSchema, 4
  {
    if !itemsSchema.JObj? {
      return None;
    }
    var items := ParseArrayItems(path, itemsSchema.fields);
    var withItems := meta.(items := Some(items));
    var acc := fields[path := withItems];
    if items.fieldType == JStr("object") && "properties" in itemsSchema.fields {
      var nested := ParseSchema(itemsSchema, path + "[]");
      if nested.None? {
        return None;
      }
      StoreThenUpdate(fields, path, withItems, nested.value);
      acc := acc + nested.value;
    } else {
      StoreOnly(fields, path, withItems);
    }
    return Some(acc);
  }

  /**
   * Lines 85-117 of `parse_schema` for one property, given the entries
   * collected so far: the metadata is stored at the property's path, then
   * a nested object or the array items are handled.
   */
  method ParseProperty(schema: Json, parent: string, required: set<string>, name: string,
                       fields: map<string, FieldMetadata>)
    returns (r: Option<map<string, FieldMetadata>>)
    requires schema.JObj? && LevelOk(schema) && PlainNames(schema) && name in Properties(schema)
    requires required == RequiredNames(schema.fields).value
    ensures r == Nest(fields, Contribution(schema, parent, name))
    decreases schema, 0
  {
    var fieldSchema := Properties(schema)[name];
    if !fieldSchema.JObj? {
      return None;
    }
    var fs := fieldSchema.fields;
    var path := BuildPath(parent, name);
    var meta := ParseField(name, path, fs, name in required);
    assert meta == FieldAt(schema, parent, name);
    var acc := fields[path := meta];
    if meta.fieldType == JStr("object") && "properties" in fs {
      var nested := ParseSchema(fieldSchema, path);
      if nested.None? {
        return None;
      }
      StoreThenUpdate(fields, path, meta, nested.value);
      return Some(acc + nested.value);
    }
    if meta.fieldType == JStr("array") && "items" in fs {
      r := ParseItems(fs["items"], path, meta, acc);
      ItemsOverwrite(fields, path, meta, fs["items"]);
      return r;
    }
    StoreOnly(fields, path, meta);
    return Some(acc);
  }

  /**
   * `parse_schema`: visits the properties in the unspecified order of the
   * dict and collects what each contributes. With plain names no two
   * properties produce the same path, so the order does not matter.
   */
  method ParseSchema(schema: Json, parent: string) returns (r: Option<map<string, FieldMetadata>>)
    requires schema.JObj? && PlainNames(schema)
    ensures r == Flatten(schema, parent)
    decreases schema, 1
  {
    var required := RequiredNames(schema.fields);
    if required.None? || ("properties" in schema.fields && !schema.fields["properties"].JObj?) {
      return None;
    }
    var props := Properties(schema);
    var fields: map<string, FieldMetadata> := map[];
    var todo := props.Keys;
    assert fields == PartialUnion(schema, parent, props.Keys - todo);
    while todo != {}
      invariant todo <= props.Keys
      invariant forall n :: n in props.Keys - todo ==> Contribution(schema, parent, n).Some?
      invariant fields == PartialUnion(schema, parent, props.Keys - todo)
      decreases |todo|
    {
      var name :| name in todo;
      var next := ParseProperty(schema, parent, required.value, name, fields);
      if next.None? {
        assert Contribution(schema, parent, name).None?;
        return None;
      }
      UnionStep(schema, parent, props.Keys - todo, name);
      assert props.Keys - (todo - {name}) == (props.Keys - todo) + {name};
      fields := next.value;
      todo := todo - {name};
    }
    assert props.Keys - todo == props.Keys;
    return Some(fields);
  }

  /** A successful level holds every entry each of its properties contributes. */
  lemma FlattenHolds(schema: Json, parent: string, name: string)
    requires schema.JObj? && PlainNames(schema) && Flatten(schema, parent).Some? && name in Properties(schema)
    ensures LevelOk(schema) && Contribution(schema, parent, name).Some?
    ensures forall k :: k in Contribution(schema, parent, name).value ==>
      k in Flatten(schema, parent).value && Flatten(schema, parent).value[k] == Contribution(schema, parent, name).value[k]
  {
    var props := Properties(schema);
    forall k | k in Contribution(schema, parent, name).value
      ensures k in Flatten(schema, parent).value
      ensures Flatten(schema, parent).value[k] == Contribution(schema, parent, name).value[k]
    {
      UnionValue(schema, parent, props.Keys, name, k);
    }
  }

  /**
   * Every property of a level has an entry at its path, with its name,
   * whether the name is in the level's `required`, whether it has a
   * condition, and its type ("unknown" when the schema gives none).
   */
  lemma FlattenEntry(schema: Json, parent: string, name: string)
    requires schema.JObj? && PlainNames(schema) && Flatten(schema, parent).Some? && name in Properties(schema)
    ensures Properties(schema)[name].JObj?
    ensures var fs := Properties(schema)[name].fields;
      var path := BuildPath(parent, name);
      var r := Flatten(schema, parent).value;
      path in r && r[path].path == path && r[path].name == name
      && r[path].isRequired == (name in RequiredNames(schema.fields).value)
      && (r[path].isConditional <==> "condition" in fs)
      && r[path].fieldType == GetOr(fs, "type", JStr("unknown"))
      && r[path].constraints == Constraints(fs)
  {
    FlattenHolds(schema, parent, name);
    ContributionShape(schema, parent, name);
  }

  /** The properties of an object field with `properties` are flattened under "path/", each entry unchanged. */
  lemma FlattenNested(schema: Json, parent: string, name: string)
    requires schema.JObj? && PlainNames(schema) && Flatten(schema, parent).Some? && name in Properties(schema)
    requires Properties(schema)[name].JObj?
    requires NestsObject(FieldAt(schema, parent, name), Properties(schema)[name].fields)
    ensures var path := BuildPath(parent, name);
      Flatten(Properties(schema)[name], path).Some?
      && forall k :: k in Flatten(Properties(schema)[name], path).value ==>
           StartsWith(k, path + "/") && k in Flatten(schema, parent).value
           && Flatten(schema, parent).value[k] == Flatten(Properties(schema)[name], path).value[k]
  {
    FlattenHolds(schema, parent, name);
    var path := BuildPath(parent, name);
    FlattenUnder(Properties(schema)[name], path);
  }

  /**
   * An array field with `items` carries the items metadata at "path[]";
   * the properties of object items with `properties` are flattened under
   * "path[]/", each entry unchanged.
   */
  lemma FlattenItems(schema: Json, parent: string, name: string)
    requires schema.JObj? && PlainNames(schema) && Flatten(schema, parent).Some? && name in Properties(schema)
    requires Properties(schema)[name].JObj?
    requires HasItems(FieldAt(schema, parent, name), Properties(schema)[name].fields)
    ensures var itemsSchema := Properties(schema)[name].fields["items"];
      var path := BuildPath(parent, name);
      var r := Flatten(schema, parent).value;
      itemsSchema.JObj? && path in r && r[path].items == Some(ParseArrayItems(path, itemsSchema.fields))
      && r[path].items.value.path == path + "[]" && r[path].items.value.name == "items"
      && (NestsObject(r[path].items.value, itemsSchema.fields) ==>
            Flatten(itemsSchema, path + "[]").Some?
            && forall k :: k in Flatten(itemsSchema, path + "[]").value ==>
                 k in r && r[k] == Flatten(itemsSchema, path + "[]").value[k])
  {
    FlattenHolds(schema, parent, name);
    var path := BuildPath(parent, name);
    var itemsSchema := Properties(schema)[name].fields["items"];
    ItemsShape(itemsSchema, path, FieldAt(schema, parent, name));
  }

  /** Every flattened key comes from some property of the level and lies under its path. */
  lemma FlattenKeys(schema: Json, parent: string, k: string)
    requires schema.JObj? && PlainNames(schema) && Flatten(schema, parent).Some?
    requires k in Flatten(schema, parent).value
    ensures exists n :: n in Properties(schema) && Under(k, BuildPath(parent, n))
  {
    assert k in UnionKeys(schema, parent, Properties(schema).Keys);
    var n :| n in Properties(schema) && k in Contribution(schema, parent, n).value;
    ContributionShape(schema, parent, n);
  }

  // ---------------------------------------------------------------------------
  // compare_schemas
  // ---------------------------------------------------------------------------

  /**
   * `_fields_differ` of the parser: type, requiredness, conditional
   * requiredness, dictionary, constraints, format or default differ. Unlike
   * the comparator it does not look at the condition expression.
   */
  predicate FieldsDiffer(a: FieldMetadata, b: FieldMetadata)
    ensures FieldsDiffer(a, b) ==> a != b
  {
    a.fieldType != b.fieldType || a.isRequired != b.isRequired || a.isConditional != b.isConditional
    || a.dictionary != b.dictionary || a.constraints != b.constraints
    || a.format != b.format || a.default != b.default
  }

  /**
   * The parser's test is the comparator's without the condition: the two
   * disagree exactly on fields whose only difference is the condition.
   */
  lemma FieldsDifferVsComparator(a: FieldMetadata, b: FieldMetadata)
    ensures SchemaComparator.FieldsDiffer(a, b) <==> FieldsDiffer(a, b) || a.condition != b.condition
    ensures !FieldsDiffer(a, a) && FieldsDiffer(a, b) == FieldsDiffer(b, a)
  {
  }

  /** `f"{old} → {new}"`. */
  function Arrow(oldVal: Json, newVal: Json): string
  {
    PyStr(oldVal) + " → " + PyStr(newVal)
  }

  /** The attributes `_detect_field_changes` of the parser compares, in its order. */
  function Slots(a: FieldMetadata, b: FieldMetadata): (r: seq<SchemaComparator.Slot>)
    ensures SchemaComparator.DistinctSlots(r)
  {
    [SchemaComparator.Slot(a.fieldType != b.fieldType, "type", Arrow(a.fieldType, b.fieldType)),
     SchemaComparator.Slot(a.isRequired != b.isRequired, "required", Arrow(JBool(a.isRequired), JBool(b.isRequired))),
     SchemaComparator.Slot(a.isConditional != b.isConditional, "conditional",
       Arrow(JBool(a.isConditional), JBool(b.isConditional))),
     SchemaComparator.Slot(a.dictionary != b.dictionary, "dictionary", Arrow(a.dictionary, b.dictionary)),
     SchemaComparator.Slot(a.constraints != b.constraints, "constraints", "изменены"),
     SchemaComparator.Slot(a.format != b.format, "format", Arrow(a.format, b.format)),
     SchemaComparator.Slot(a.default != b.default, "default", Arrow(a.default, b.default))]
  }

  /** The dict the parser's `_detect_field_changes` builds, in insertion order. */
  function FieldChanges(a: FieldMetadata, b: FieldMetadata): Changes
  {
    SchemaComparator.Collect(Slots(a, b))
  }

  /** Seven collected slots, written out as a left-to-right concatenation. */
  lemma CollectSeven(ss: seq<SchemaComparator.Slot>)
    requires |ss| == 7
    ensures SchemaComparator.Collect(ss)
      == SchemaComparator.Emit(ss[0]) + SchemaComparator.Emit(ss[1]) + SchemaComparator.Emit(ss[2])
      + SchemaComparator.Emit(ss[3]) + SchemaComparator.Emit(ss[4]) + SchemaComparator.Emit(ss[5])
      + SchemaComparator.Emit(ss[6])
  {
    assert ss[..1][..0] == [] && ss[..1][0] == ss[0];
    assert SchemaComparator.Collect(ss[..1]) == SchemaComparator.Emit(ss[0]);
    assert ss[..2][..1] == ss[..1] && ss[..2][1] == ss[1];
    assert SchemaComparator.Collect(ss[..2])
      == SchemaComparator.Emit(ss[0]) + SchemaComparator.Emit(ss[1]);
    assert ss[..3][..2] == ss[..2] && ss[..3][2] == ss[2];
    assert SchemaComparator.Collect(ss[..3])
      == SchemaComparator.Emit(ss[0]) + SchemaComparator.Emit(ss[1]) + SchemaComparator.Emit(ss[2]);
    assert ss[..4][..3] == ss[..3] && ss[..4][3] == ss[3];
    assert SchemaComparator.Collect(ss[..4])
      == SchemaComparator.Emit(ss[0]) + SchemaComparator.Emit(ss[1]) + SchemaComparator.Emit(ss[2]) + SchemaComparator.Emit(ss[3]);
    assert ss[..5][..4] == ss[..4] && ss[..5][4] == ss[4];
    assert SchemaComparator.Collect(ss[..5])
      == SchemaComparator.Emit(ss[0]) + SchemaComparator.Emit(ss[1]) + SchemaComparator.Emit(ss[2]) + SchemaComparator.Emit(ss[3]) + SchemaComparator.Emit(ss[4]);
    assert ss[..6][..5] == ss[..5] && ss[..6][5] == ss[5];
    assert SchemaComparator.Collect(ss[..6])
      == SchemaComparator.Emit(ss[0]) + SchemaComparator.Emit(ss[1]) + SchemaComparator.Emit(ss[2]) + SchemaComparator.Emit(ss[3]) + SchemaComparator.Emit(ss[4]) + SchemaComparator.Emit(ss[5]);
    assert ss[..7][..6] == ss[..6] && ss[..7][6] == ss[6];
    assert SchemaComparator.Collect(ss[..7])
      == SchemaComparator.Emit(ss[0]) + SchemaComparator.Emit(ss[1]) + SchemaComparator.Emit(ss[2]) + SchemaComparator.Emit(ss[3]) + SchemaComparator.Emit(ss[4]) + SchemaComparator.Emit(ss[5]) + SchemaComparator.Emit(ss[6]);
    assert ss[..7] == ss;
  }

  /** The first four attributes: type, requiredness, conditional requiredness and dictionary. */
  method DetectHeadChanges(a: FieldMetadata, b: FieldMetadata) returns (r: Changes)
    ensures r == SchemaComparator.Emit(Slots(a, b)[0]) + SchemaComparator.Emit(Slots(a, b)[1])
      + SchemaComparator.Emit(Slots(a, b)[2]) + SchemaComparator.Emit(Slots(a, b)[3])
  {
    var ss := Slots(a, b);
    r := [];
    if a.fieldType != b.fieldType {
      r := r + [Entry("type", PyStr(a.fieldType) + " → " + PyStr(b.fieldType))];
    }
    ghost var r1 := r;
    assert r1 == SchemaComparator.Emit(ss[0]);
    if a.isRequired != b.isRequired {
      r := r + [Entry("required", PyStr(JBool(a.isRequired)) + " → " + PyStr(JBool(b.isRequired)))];
    }
    ghost var r2 := r;
    assert r2 == r1 + SchemaComparator.Emit(ss[1]);
    if a.isConditional != b.isConditional {
      r := r + [Entry("conditional", PyStr(JBool(a.isConditional)) + " → " + PyStr(JBool(b.isConditional)))];
    }
    ghost var r3 := r;
    assert r3 == r2 + SchemaComparator.Emit(ss[2]);
    if a.dictionary != b.dictionary {
      r := r + [Entry("dictionary", PyStr(a.dictionary) + " → " + PyStr(b.dictionary))];
    }
    assert r == r3 + SchemaComparator.Emit(ss[3]);
  }

  /** `_detect_field_changes` of the parser: one entry per differing attribute. */
  method DetectFieldChanges(a: FieldMetadata, b: FieldMetadata) returns (r: Changes)
    ensures r == FieldChanges(a, b)
  {
    var ss := Slots(a, b);
    r := DetectHeadChanges(a, b);
    ghost var head := r;
    if a.constraints != b.constraints {
      r := r + [Entry("constraints", "изменены")];
    }
    assert r == head + SchemaComparator.Emit(ss[4]);
    ghost var upToConstraints := r;
    if a.format != b.format {
      r := r + [Entry("format", PyStr(a.format) + " → " + PyStr(b.format))];
    }
    assert r == upToConstraints + SchemaComparator.Emit(ss[5]);
    ghost var upToFormat := r;
    if a.default != b.default {
      r := r + [Entry("default", PyStr(a.default) + " → " + PyStr(b.default))];
    }
    assert r == upToFormat + SchemaComparator.Emit(ss[6]);
    CollectSeven(ss);
  }

  /** The description has a key exactly for each attribute that differs. */
  lemma FieldChangesKeys(a: FieldMetadata, b: FieldMetadata, k: string)
    ensures HasKey(FieldChanges(a, b), k) <==>
      (k == "type" && a.fieldType != b.fieldType)
      || (k == "required" && a.isRequired != b.isRequired)
      || (k == "conditional" && a.isConditional != b.isConditional)
      || (k == "dictionary" && a.dictionary != b.dictionary)
      || (k == "constraints" && a.constraints != b.constraints)
      || (k == "format" && a.format != b.format)
      || (k == "default" && a.default != b.default)
  {
    var ss := Slots(a, b);
    SchemaComparator.CollectHasKey(ss, k);
    SevenSlotKeys(ss, k);
  }

  /** Among seven slots with the parser's keys, `k` is present exactly when its own slot is. */
  lemma SevenSlotKeys(ss: seq<SchemaComparator.Slot>, k: string)
    requires |ss| == 7
    requires ss[0].key == "type" && ss[1].key == "required" && ss[2].key == "conditional"
    requires ss[3].key == "dictionary" && ss[4].key == "constraints" && ss[5].key == "format" && ss[6].key == "default"
    ensures (exists i :: 0 <= i < |ss| && ss[i].present && ss[i].key == k) <==>
      (k == "type" && ss[0].present) || (k == "required" && ss[1].present)
      || (k == "conditional" && ss[2].present) || (k == "dictionary" && ss[3].present)
      || (k == "constraints" && ss[4].present) || (k == "format" && ss[5].present)
      || (k == "default" && ss[6].present)
  {
    if exists i :: 0 <= i < |ss| && ss[i].present && ss[i].key == k {
      var i :| 0 <= i < |ss| && ss[i].present && ss[i].key == k;
      assert i in {0, 1, 2, 3, 4, 5, 6};
    }
    if k == "type" && ss[0].present { assert ss[0].key == k; }
    if k == "required" && ss[1].present { assert ss[1].key == k; }
    if k == "conditional" && ss[2].present { assert ss[2].key == k; }
    if k == "dictionary" && ss[3].present { assert ss[3].key == k; }
    if k == "constraints" && ss[4].present { assert ss[4].key == k; }
    if k == "format" && ss[5].present { assert ss[5].key == k; }
    if k == "default" && ss[6].present { assert ss[6].key == k; }
  }

  /**
   * The description is a dict, is empty exactly when `_fields_differ` says
   * the fields agree, shows requiredness as Python's "False"/"True" and
   * summarises any constraint change as "изменены".
   */
  lemma FieldChangesTexts(a: FieldMetadata, b: FieldMetadata)
    ensures DistinctKeys(FieldChanges(a, b))
    ensures FieldChanges(a, b) == [] <==> !FieldsDiffer(a, b)
    ensures !a.isRequired && b.isRequired ==>
      HasKey(FieldChanges(a, b), "required") && Lookup(FieldChanges(a, b), "required") == "False → True"
    ensures a.isRequired && !b.isRequired ==>
      HasKey(FieldChanges(a, b), "required") && Lookup(FieldChanges(a, b), "required") == "True → False"
    ensures a.constraints != b.constraints ==>
      HasKey(FieldChanges(a, b), "constraints") && Lookup(FieldChanges(a, b), "constraints") == "изменены"
  {
    var ss := Slots(a, b);
    SchemaComparator.CollectDistinct(ss);
    if ss[1].present { SchemaComparator.CollectLookup(ss, 1); }
    if ss[4].present { SchemaComparator.CollectLookup(ss, 4); }
    FieldChangesEmpty(a, b);
    BoolArrows();
  }

  /** Requiredness changes read as Python's booleans. */
  lemma BoolArrows()
    ensures Arrow(JBool(false), JBool(true)) == "False → True"
    ensures Arrow(JBool(true), JBool(false)) == "True → False"
  {
  }

  /** No entry is recorded exactly when `_fields_differ` finds no difference. */
  lemma FieldChangesEmpty(a: FieldMetadata, b: FieldMetadata)
    ensures FieldChanges(a, b) == [] <==> !FieldsDiffer(a, b)
  {
    var ss := Slots(a, b);
    SchemaComparator.CollectEmpty(ss);
    if FieldsDiffer(a, b) {
      var i := if ss[0].present then 0 else if ss[1].present then 1 else if ss[2].present then 2
        else if ss[3].present then 3 else if ss[4].present then 4 else if ss[5].present then 5 else 6;
      assert ss[i].present;
    } else {
      forall i | 0 <= i < |ss| ensures !ss[i].present {
        assert i in {0, 1, 2, 3, 4, 5, 6};
      }
    }
  }

  /**
   * A field that only becomes required is a modification the parser
   * records, yet `is_breaking_change` does not flag it: the parser writes
   * "False → True" where the check looks for "Н → О".
   */
  lemma RequiredChangeNotBreaking(path: string, a: FieldMetadata, b: FieldMetadata)
    requires a.fieldType == b.fieldType && !a.isRequired && b.isRequired
    ensures FieldsDiffer(a, b)
    ensures !IsBreakingChange(FieldChange(path, "modified", Some(a), Some(b), FieldChanges(a, b)))
  {
    FieldChangesKeys(a, b, "type");
    FieldChangesTexts(a, b);
    NotContainsNoHead("False → True", "Н → О");
  }

  /** The comparator's description of the same change is flagged. */
  lemma ComparatorRequiredBreaking(path: string, a: FieldMetadata, b: FieldMetadata, t: string)
    requires !a.isRequired && b.isRequired
    ensures IsBreakingChange(FieldChange(path, "modified", Some(a), Some(b), SchemaComparator.FieldChanges(a, b, t)))
  {
    SchemaComparator.FieldChangesTexts(a, b, t);
    assert OccursAt("Поле стало обязательным (Н → О)", "Н → О", 25);
  }

  /** The paths in both schemas whose fields the parser's `_fields_differ` tells apart. */
  function ModifiedPaths(oldS: map<string, FieldMetadata>, newS: map<string, FieldMetadata>): set<string>
  {
    set p | p in oldS && p in newS && FieldsDiffer(oldS[p], newS[p])
  }

  /** The `modified` entry `compare_schemas` records for a path in both schemas. */
  predicate IsModification(c: FieldChange, oldS: map<string, FieldMetadata>, newS: map<string, FieldMetadata>)
  {
    c.path in oldS && c.path in newS
    && c == FieldChange(c.path, "modified", Some(oldS[c.path]), Some(newS[c.path]),
                        FieldChanges(oldS[c.path], newS[c.path]))
  }

  /** The `added` loop: one entry per path of the new schema only. */
  method AddedChanges(oldS: map<string, FieldMetadata>, newS: map<string, FieldMetadata>)
    returns (cs: seq<FieldChange>)
    ensures SchemaComparator.PathsOf(cs) == newS.Keys - oldS.Keys && SchemaComparator.DistinctPaths(cs)
    ensures forall c :: c in cs ==> SchemaComparator.IsAddition(c, newS)
  {
    var todo := newS.Keys - oldS.Keys;
    cs := [];
    while todo != {}
      invariant todo <= newS.Keys - oldS.Keys
      invariant SchemaComparator.PathsOf(cs) == (newS.Keys - oldS.Keys) - todo
      invariant SchemaComparator.DistinctPaths(cs)
      invariant forall c :: c in cs ==> SchemaComparator.IsAddition(c, newS)
      decreases |todo|
    {
      var path :| path in todo;
      var c := FieldChange(path, "added", None, Some(newS[path]), []);
      SchemaComparator.AppendChange(cs, c);
      SchemaComparator.VisitStep(newS.Keys - oldS.Keys, todo, path);
      cs := cs + [c];
      todo := todo - {path};
    }
  }

  /** The `removed` loop: one entry per path of the old schema only. */
  method RemovedChanges(oldS: map<string, FieldMetadata>, newS: map<string, FieldMetadata>)
    returns (cs: seq<FieldChange>)
    ensures SchemaComparator.PathsOf(cs) == oldS.Keys - newS.Keys && SchemaComparator.DistinctPaths(cs)
    ensures forall c :: c in cs ==> SchemaComparator.IsRemoval(c, oldS)
  {
    var todo := oldS.Keys - newS.Keys;
    cs := [];
    while todo != {}
      invariant todo <= oldS.Keys - newS.Keys
      invariant SchemaComparator.PathsOf(cs) == (oldS.Keys - newS.Keys) - todo
      invariant SchemaComparator.DistinctPaths(cs)
      invariant forall c :: c in cs ==> SchemaComparator.IsRemoval(c, oldS)
      decreases |todo|
    {
      var path :| path in todo;
      var c := FieldChange(path, "removed", Some(oldS[path]), None, []);
      SchemaComparator.AppendChange(cs, c);
      SchemaComparator.VisitStep(oldS.Keys - newS.Keys, todo, path);
      cs := cs + [c];
      todo := todo - {path};
    }
  }

  /** The `modified` loop: the common paths whose fields differ, each with its description. */
  method ModifiedChanges(oldS: map<string, FieldMetadata>, newS: map<string, FieldMetadata>)
    returns (cs: seq<FieldChange>)
    ensures SchemaComparator.PathsOf(cs) == ModifiedPaths(oldS, newS) && SchemaComparator.DistinctPaths(cs)
    ensures forall c :: c in cs ==> IsModification(c, oldS, newS)
  {
    var todo := oldS.Keys * newS.Keys;
    cs := [];
    while todo != {}
      invariant todo <= oldS.Keys * newS.Keys
      invariant SchemaComparator.PathsOf(cs) == ModifiedPaths(oldS, newS) - todo
      invariant SchemaComparator.DistinctPaths(cs)
      invariant forall c :: c in cs ==> IsModification(c, oldS, newS)
      decreases |todo|
    {
      var path :| path in todo;
      SchemaComparator.VisitStep(ModifiedPaths(oldS, newS), todo, path);
      if FieldsDiffer(oldS[path], newS[path]) {
        var changes := DetectFieldChanges(oldS[path], newS[path]);
        var c := FieldChange(path, "modified", Some(oldS[path]), Some(newS[path]), changes);
        SchemaComparator.AppendChange(cs, c);
        cs := cs + [c];
      }
      todo := todo - {path};
    }
  }

  /**
   * `compare_schemas`: the added, removed and modified fields of two parsed
   * schemas, with versions and call left "unknown".
   */
  method CompareSchemas(oldS: map<string, FieldMetadata>, newS: map<string, FieldMetadata>) returns (d: SchemaDiff)
    ensures d.oldVersion == "unknown" && d.newVersion == "unknown" && d.call == "unknown"
    ensures d.adapter == "front-adapter"
    ensures SchemaComparator.PathsOf(d.addedFields) == newS.Keys - oldS.Keys
    ensures SchemaComparator.PathsOf(d.removedFields) == oldS.Keys - newS.Keys
    ensures SchemaComparator.PathsOf(d.modifiedFields) == ModifiedPaths(oldS, newS)
    ensures SchemaComparator.DistinctPaths(d.addedFields) && SchemaComparator.DistinctPaths(d.removedFields)
    ensures SchemaComparator.DistinctPaths(d.modifiedFields)
    ensures forall c :: c in d.addedFields ==> SchemaComparator.IsAddition(c, newS)
    ensures forall c :: c in d.removedFields ==> SchemaComparator.IsRemoval(c, oldS)
    ensures forall c :: c in d.modifiedFields ==> IsModification(c, oldS, newS)
  {
    var added := AddedChanges(oldS, newS);
    var removed := RemovedChanges(oldS, newS);
    var modified := ModifiedChanges(oldS, newS);
    d := SchemaDiff("unknown", "unknown", "unknown", "front-adapter", added, removed, modified);
  }

  /**
   * The parser reports a subset of the comparator's modified paths: it
   * misses exactly the paths whose fields differ only in their condition.
   */
  lemma ModifiedVsComparator(oldS: map<string, FieldMetadata>, newS: map<string, FieldMetadata>)
    ensures ModifiedPaths(oldS, newS) <= SchemaComparator.DifferingPaths(oldS, newS)
    ensures SchemaComparator.DifferingPaths(oldS, newS) - ModifiedPaths(oldS, newS)
      == set p | p in oldS && p in newS && !FieldsDiffer(oldS[p], newS[p]) && oldS[p].condition != newS[p].condition
  {
    forall p | p in oldS && p in newS {
      FieldsDifferVsComparator(oldS[p], newS[p]);
    }
  }

  /**
   * The size of the diff: one change per added, removed and differing path;
   * a schema compared with itself gives no change.
   */
  lemma CompareTotal(d: SchemaDiff, oldS: map<string, FieldMetadata>, newS: map<string, FieldMetadata>)
    requires SchemaComparator.PathsOf(d.addedFields) == newS.Keys - oldS.Keys
    requires SchemaComparator.PathsOf(d.removedFields) == oldS.Keys - newS.Keys
    requires SchemaComparator.PathsOf(d.modifiedFields) == ModifiedPaths(oldS, newS)
    requires SchemaComparator.DistinctPaths(d.addedFields) && SchemaComparator.DistinctPaths(d.removedFields)
    requires SchemaComparator.DistinctPaths(d.modifiedFields)
    ensures TotalChanges(d) == |newS.Keys - oldS.Keys| + |oldS.Keys - newS.Keys| + |ModifiedPaths(oldS, newS)|
    ensures oldS == newS ==> !HasChanges(d)
  {
    SchemaComparator.DistinctPathsCount(d.addedFields);
    SchemaComparator.DistinctPathsCount(d.removedFields);
    SchemaComparator.DistinctPathsCount(d.modifiedFields);
    if oldS == newS {
      assert ModifiedPaths(oldS, newS) == {};
    }
  }
}
