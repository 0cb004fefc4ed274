/**
 * A JSON scenario: its metadata (with a tag list) and its data, a nested
 * dict addressed by paths such as "loanRequest/items[0]/creditAmt". Reading,
 * writing and deleting by path follow Python's own subscription rules,
 * including the exception each wrong step raises.
 */
module ScenarioModels {
  import opened Common
  import opened JsonData

  /** The exceptions the path operations can raise. */
  datatype PyError =
    | KeyError
    | IndexError
    | TypeError
    | ValueError
    | AttributeError
      /** `d[i] = v` on a dict with an integer `i`: Python stores an int key, which a JSON object cannot hold. */
    | IntKey

  datatype Outcome<T> = Ok(value: T) | Err(error: PyError)

  // ---------------------------------------------------------------------------
  // Path segments
  // ---------------------------------------------------------------------------

  /** One segment of a path: a plain key, or `key[index]`. */
  datatype Segment = Key(name: string) | Indexed(key: string, index: int)

  /** The dict key a segment subscripts first. */
  function SegmentKey(seg: Segment): string
  {
    if seg.Key? then seg.name else seg.key
  }

  /**
   * One segment: a part holding both '[' and ']' is `key[index]`, split at
   * its only '[' (more than one is a ValueError when unpacking) with the
   * trailing ']'s stripped and the rest read by `int()`.
   */
  function ParseSegment(part: string): (r: Outcome<Segment>)
    ensures !('[' in part && ']' in part) ==> r == Ok(Key(part))
    ensures r.Ok? && r.value.Indexed? ==> '[' in part && '[' !in r.value.key
    ensures r.Err? ==> r.error == ValueError
  {
    if '[' in part && ']' in part then
      var pieces := Split(part, '[');
      if |pieces| != 2 then Err(ValueError)
      else
        match ParseInt(RStrip(pieces[1], ']'))
        case Some(i) => Ok(Indexed(pieces[0], i))
        case None => Err(ValueError)
    else Ok(Key(part))
  }

  /** The text of a segment: the key, or `key[index]`. */
  function SegmentText(seg: Segment): string
  {
    match seg
    case Key(k) => k
    case Indexed(k, i) => k + "[" + IntToString(i) + "]"
  }

  lemma SplitTwo(k: string, t: string)
    requires '[' !in k && '[' !in t
    ensures Split(k + "[" + t, '[') == [k, t]
  {
    var s := k + "[" + t;
    assert IndexOf(s, '[') == |k| by {
      assert s[|k|] == '[';
      assert forall j :: 0 <= j < |k| ==> s[j] == k[j];
      IndexOfAt(s, '[', |k|);
    }
    assert s[..|k|] == k && s[|k| + 1..] == t;
    SplitNoSeparator(t, '[');
  }

  lemma IndexOfAt(s: string, c: char, i: nat)
    requires i < |s| && s[i] == c && forall j :: 0 <= j < i ==> s[j] != c
    ensures IndexOf(s, c) == i
  {
  }

  /** The decimal text of an integer holds no bracket. */
  lemma IntTextPlain(i: int)
    ensures '[' !in IntToString(i) && ']' !in IntToString(i)
    ensures IntToString(i) != "" && IntToString(i)[|IntToString(i)| - 1] != ']'
  {
    var t := IntToString(i);
    if i < 0 {
      assert t == "-" + NatToString(-i);
      NatTextPlain(-i);
    } else {
      NatTextPlain(i);
    }
  }

  lemma NatTextPlain(n: nat)
    ensures AllDigits(NatToString(n))
  {
    NatToStringValue(n);
  }

  /** A segment written out reads back as itself, when its key holds no bracket and no '/'. */
  lemma ParseSegmentText(seg: Segment)
    requires '[' !in SegmentKey(seg) && ']' !in SegmentKey(seg)
    ensures ParseSegment(SegmentText(seg)) == Ok(seg)
  {
    match seg
    case Key(k) =>
    case Indexed(k, i) =>
      var t := IntToString(i);
      IntTextPlain(i);
      var part := k + "[" + t + "]";
      assert part[|k|] == '[' && part[|part| - 1] == ']';
      assert k + "[" + (t + "]") == part;
      SplitTwo(k, t + "]");
      assert RStrip(t + "]", ']') == t by {
        assert (t + "]")[..|t|] == t;
      }
      IntToStringParses(i);
  }

  // ---------------------------------------------------------------------------
  // Reading by path
  // ---------------------------------------------------------------------------

  /** A Python index into a sequence of length `n`: negative indices count from the end. */
  function Position(index: int, n: nat): (p: Option<nat>)
    ensures p.Some? <==> -(n as int) <= index < n
    ensures p.Some? ==> p.value < n && (p.value == index || p.value == index + n)
  {
    if 0 <= index < n then Some(index)
    else if -(n as int) <= index < 0 then Some(index + n)
    else None
  }

  /** `current[key]` with a string key: only a dict can answer it. */
  function Subscript(cur: Json, key: string): Outcome<Json>
  {
    match cur
    case JObj(fields) => if key in fields then Ok(fields[key]) else Err(KeyError)
    case _ => Err(TypeError)
  }

  /** `current[index]` with an integer index: a list or a string answers it, a dict has no int key. */
  function Item(cur: Json, index: int): Outcome<Json>
  {
    match cur
    case JArr(items) =>
      (match Position(index, |items|) case Some(p) => Ok(items[p]) case None => Err(IndexError))
    case JStr(s) =>
      (match Position(index, |s|) case Some(p) => Ok(JStr([s[p]])) case None => Err(IndexError))
    case JObj(_) => Err(KeyError)
    case _ => Err(TypeError)
  }

  /** One step of `get_field_value`. */
  function Step(cur: Json, part: string): Outcome<Json>
  {
    match ParseSegment(part)
    case Err(e) => Err(e)
    case Ok(Key(k)) => Subscript(cur, k)
    case Ok(Indexed(k, i)) =>
      match Subscript(cur, k)
      case Err(e) => Err(e)
      case Ok(c) => Item(c, i)
  }

  /** `get_field_value` over the segments of a path. */
  function GetPath(cur: Json, parts: seq<string>): Outcome<Json>
    decreases |parts|
  {
    if parts == [] then Ok(cur)
    else
      match Step(cur, parts[0])
      case Err(e) => Err(e)
      case Ok(next) => GetPath(next, parts[1..])
  }

  /** Reading never raises anything but KeyError, IndexError, TypeError or ValueError. */
  lemma {:induction false} GetPathErrors(cur: Json, parts: seq<string>)
    ensures GetPath(cur, parts).Err? ==> GetPath(cur, parts).error in {KeyError, IndexError, TypeError, ValueError}
    decreases |parts|
  {
    if parts != [] {
      match Step(cur, parts[0])
      case Err(e) =>
      case Ok(next) => GetPathErrors(next, parts[1..]);
    }
  }

  // ---------------------------------------------------------------------------
  // Writing by path
  // ---------------------------------------------------------------------------

  /** What a write leaves behind: the new value, including changes made before a failure, and the exception. */
  datatype Written = Written(cur: Json, error: Option<PyError>)

  /** `while len(lst) <= index: lst.append(fill)`. */
  function Pad(items: seq<Json>, index: int, fill: Json): (r: seq<Json>)
    ensures |r| == if index < |items| then |items| else index + 1
    ensures forall j :: 0 <= j < |items| ==> r[j] == items[j]
    ensures forall j :: |items| <= j < |r| ==> r[j] == fill
  {
    if index < |items| then items else items + seq(index + 1 - |items|, _ => fill)
  }

  /** The list under `key`, `[]` when the dict has none yet. */
  function ListAt(fields: map<string, Json>, key: string): Json
  {
    if key in fields then fields[key] else JArr([])
  }

  /** The final segment of `set_field_value`. */
  function SetLast(cur: Json, seg: Segment, value: Json): (w: Written)
    ensures cur.JObj? ==> w.cur.JObj? && w.cur.fields.Keys == cur.fields.Keys + {SegmentKey(seg)}
    ensures cur.JObj? ==> forall k' :: k' in cur.fields && k' != SegmentKey(seg) ==> w.cur.fields[k'] == cur.fields[k']
  {
    if !cur.JObj? then Written(cur, Some(TypeError))
    else
      match seg
      case Key(k) => Written(JObj(cur.fields[k := value]), None)
      case Indexed(k, i) =>
        var list := ListAt(cur.fields, k);
        var fields := cur.fields[k := list];
        match list
        case JArr(items) =>
          var padded := Pad(items, i, JNull);
          (match Position(i, |padded|)
           case None => Written(JObj(fields[k := JArr(padded)]), Some(IndexError))
           case Some(p) => Written(JObj(fields[k := JArr(padded[p := value])]), None))
        case JObj(m) => Written(JObj(fields), Some(if |m| <= i then AttributeError else IntKey))
        case JStr(s) => Written(JObj(fields), Some(if |s| <= i then AttributeError else TypeError))
        case _ => Written(JObj(fields), Some(TypeError))
  }

  /**
   * `set_field_value` over the segments of a path: intermediate segments
   * create a missing dict, or a missing list padded with `{}` up to the
   * index; the final segment pads with `None`. Whatever was created before
   * an exception stays.
   */
  function SetPath(cur: Json, parts: seq<string>, value: Json): (w: Written)
    requires parts != []
    ensures cur.JObj? ==> w.cur.JObj?
    decreases |parts|, 1
  {
    match ParseSegment(parts[0])
    case Err(e) => Written(cur, Some(e))
    case Ok(seg) =>
      if |parts| == 1 then SetLast(cur, seg, value)
      else if !cur.JObj? then Written(cur, Some(TypeError))
      else if seg.Key? then SetChild(cur.fields, seg.name, parts[1..], value)
      else SetItem(cur.fields, seg.key, seg.index, parts[1..], value)
  }

  /** An intermediate plain key: a missing one becomes `{}`, then the rest of the path is written into it. */
  function SetChild(fields: map<string, Json>, k: string, rest: seq<string>, value: Json): (w: Written)
    requires rest != []
    ensures w.cur.JObj? && w.cur.fields.Keys == fields.Keys + {k}
    ensures forall k' :: k' in fields && k' != k ==> w.cur.fields[k'] == fields[k']
    decreases |rest| + 1, 0
  {
    var child := if k in fields then fields[k] else JObj(map[]);
    var w := SetPath(child, rest, value);
    Written(JObj(fields[k := w.cur]), w.error)
  }

  /**
   * An intermediate `key[i]`: a missing key becomes `[]`, a list is padded
   * with `{}` while its length is at most `i`, then the rest of the path is
   * written into item `i`.
   */
  function SetItem(fields: map<string, Json>, k: string, i: int, rest: seq<string>, value: Json): (w: Written)
    requires rest != []
    ensures w.cur.JObj? && w.cur.fields.Keys == fields.Keys + {k}
    ensures forall k' :: k' in fields && k' != k ==> w.cur.fields[k'] == fields[k']
    decreases |rest| + 1, 0
  {
    var list := ListAt(fields, k);
    var fields := fields[k := list];
    match list
    case JArr(items) =>
      var padded := Pad(items, i, JObj(map[]));
      (match Position(i, |padded|)
       case None => Written(JObj(fields[k := JArr(padded)]), Some(IndexError))
       case Some(p) =>
         var w := SetPath(padded[p], rest, value);
         Written(JObj(fields[k := JArr(padded[p := w.cur])]), w.error))
    case JObj(m) => Written(JObj(fields), Some(if |m| <= i then AttributeError else KeyError))
    case JStr(s) =>
      (match Position(i, |s|)
       case None => Written(JObj(fields), Some(if |s| <= i then AttributeError else IndexError))
       case Some(p) =>
         if |s| <= i then Written(JObj(fields), Some(AttributeError))
         else Written(JObj(fields), SetPath(JStr([s[p]]), rest, value).error))
    case _ => Written(JObj(fields), Some(TypeError))
  }

  /** A write that raised nothing can be read back: `get_field_value(p)` is the value just set. */
  lemma {:induction false} SetThenGet(cur: Json, parts: seq<string>, value: Json)
    requires parts != [] && SetPath(cur, parts, value).error == None
    ensures GetPath(SetPath(cur, parts, value).cur, parts) == Ok(value)
    decreases |parts|, 1
  {
    var w := SetPath(cur, parts, value);
    var seg := ParseSegment(parts[0]).value;
    if |parts| == 1 {
      assert GetPath(w.cur, parts) == Step(w.cur, parts[0]);
    } else if seg.Key? {
      SetChildThenGet(cur.fields, seg.name, parts[1..], value);
      assert GetPath(w.cur, parts) == GetPath(w.cur.fields[seg.name], parts[1..]);
    } else {
      SetItemThenGet(cur.fields, seg.key, seg.index, parts[1..], value);
      assert GetPath(w.cur, parts) == GetPath(Item(w.cur.fields[seg.key], seg.index).value, parts[1..]);
    }
  }

  lemma {:induction false} SetChildThenGet(fields: map<string, Json>, k: string, rest: seq<string>, value: Json)
    requires rest != [] && SetChild(fields, k, rest, value).error == None
    ensures GetPath(SetChild(fields, k, rest, value).cur.fields[k], rest) == Ok(value)
    decreases |rest| + 1, 0
  {
    SetThenGet(if k in fields then fields[k] else JObj(map[]), rest, value);
  }

  lemma {:induction false} SetItemThenGet(fields: map<string, Json>, k: string, i: int, rest: seq<string>, value: Json)
    requires rest != [] && SetItem(fields, k, i, rest, value).error == None
    ensures var w := SetItem(fields, k, i, rest, value);
      Item(w.cur.fields[k], i).Ok? && GetPath(Item(w.cur.fields[k], i).value, rest) == Ok(value)
    decreases |rest| + 1, 0
  {
    var padded := Pad(ListAt(fields, k).items, i, JObj(map[]));
    var p := Position(i, |padded|).value;
    SetThenGet(padded[p], rest, value);
  }

  /**
   * A write on the data dict never touches a key other than the first
   * segment's; once that segment parses, its key exists afterwards.
   */
  lemma SetSiblings(m: map<string, Json>, parts: seq<string>, value: Json)
    requires parts != []
    ensures var w := SetPath(JObj(m), parts, value);
      (ParseSegment(parts[0]).Err? ==> w.cur.fields == m)
      && (ParseSegment(parts[0]).Ok? ==>
            var key := SegmentKey(ParseSegment(parts[0]).value);
            w.cur.fields.Keys == m.Keys + {key}
            && forall k :: k in m && k != key ==> w.cur.fields[k] == m[k])
  {
    match ParseSegment(parts[0])
    case Err(_) =>
    case Ok(seg) =>
      var w := SetPath(JObj(m), parts, value);
      if |parts| == 1 {
        assert w == SetLast(JObj(m), seg, value);
      } else if seg.Key? {
        assert w == SetChild(m, seg.name, parts[1..], value);
      } else {
        assert w == SetItem(m, seg.key, seg.index, parts[1..], value);
      }
  }

  /** An intermediate key the dict lacks becomes a new dict holding the rest of the path. */
  lemma SetCreatesDict(m: map<string, Json>, parts: seq<string>, value: Json, k: string)
    requires |parts| >= 2 && ParseSegment(parts[0]) == Ok(Key(k)) && k !in m
    ensures var w := SetPath(JObj(m), parts, value);
      k in w.cur.fields && w.cur.fields[k] == SetPath(JObj(map[]), parts[1..], value).cur
      && w.cur.fields[k].JObj?
  {
  }

  /**
   * A final `key[i]` with `i >= 0` on a missing key or a list: the list is
   * padded with `None` up to `i`, keeps its earlier items and gets the value at `i`.
   */
  lemma SetPadsFinal(m: map<string, Json>, part: string, value: Json, k: string, i: int)
    requires ParseSegment(part) == Ok(Indexed(k, i)) && i >= 0
    requires k !in m || m[k].JArr?
    ensures var items := ListAt(m, k).items;
      var w := SetPath(JObj(m), [part], value);
      w.error == None && k in w.cur.fields && w.cur.fields[k].JArr?
      && var r := w.cur.fields[k].items;
      |r| == (if i < |items| then |items| else i + 1)
      && r[i] == value
      && (forall j :: 0 <= j < |items| && j != i ==> r[j] == items[j])
      && (forall j :: |items| <= j < |r| && j != i ==> r[j] == JNull)
  {
  }

  /**
   * An intermediate `key[i]` with `i >= 0` on a missing key or a list: the
   * list is padded with `{}` up to `i`, keeps its earlier items, and the
   * item at `i` is written through.
   */
  lemma SetPadsIntermediate(m: map<string, Json>, parts: seq<string>, value: Json, k: string, i: int)
    requires |parts| >= 2 && ParseSegment(parts[0]) == Ok(Indexed(k, i)) && i >= 0
    requires k !in m || m[k].JArr?
    ensures var items := ListAt(m, k).items;
      var w := SetPath(JObj(m), parts, value);
      k in w.cur.fields && w.cur.fields[k].JArr?
      && var r := w.cur.fields[k].items;
      |r| == (if i < |items| then |items| else i + 1)
      && r[i] == SetPath(if i < |items| then items[i] else JObj(map[]), parts[1..], value).cur
      && (forall j :: 0 <= j < |items| && j != i ==> r[j] == items[j])
      && (forall j :: |items| <= j < |r| && j != i ==> r[j] == JObj(map[]))
  {
  }

  // ---------------------------------------------------------------------------
  // Deleting by path
  // ---------------------------------------------------------------------------

  /** A readable path's first step succeeded on a dict holding the segment's key. */
  lemma GetPathHead(cur: Json, parts: seq<string>)
    requires parts != [] && GetPath(cur, parts).Ok?
    ensures ParseSegment(parts[0]).Ok? && cur.JObj? && SegmentKey(ParseSegment(parts[0]).value) in cur.fields
    ensures Step(cur, parts[0]).Ok? && GetPath(Step(cur, parts[0]).value, parts[1..]).Ok?
  {
  }

  /**
   * `delete_field` on a readable path: the final key is removed from its
   * dict, or the final item from its list; `del` on a character of a
   * string raises TypeError.
   */
  function DeletePath(cur: Json, parts: seq<string>): (w: Written)
    requires parts != [] && GetPath(cur, parts).Ok?
    ensures w.cur.JObj?
    decreases |parts|, 1
  {
    GetPathHead(cur, parts);
    var seg := ParseSegment(parts[0]).value;
    if |parts| == 1 then DeleteLast(cur.fields, seg)
    else if seg.Key? then DeleteChild(cur.fields, seg.name, parts[1..])
    else DeleteItem(cur.fields, seg.key, seg.index, parts[1..])
  }

  /** The final segment of `delete_field`: `del d[key]` or `del d[key][index]`. */
  function DeleteLast(fields: map<string, Json>, seg: Segment): (w: Written)
    requires SegmentKey(seg) in fields
    ensures w.cur.JObj?
    ensures w.cur.fields.Keys == if seg.Key? && w.error == None then fields.Keys - {seg.name} else fields.Keys
    ensures forall k' :: k' in fields && k' != SegmentKey(seg) ==> w.cur.fields[k'] == fields[k']
  {
    match seg
    case Key(k) => Written(JObj(fields - {k}), None)
    case Indexed(k, i) =>
      match fields[k]
      case JArr(items) =>
        (match Position(i, |items|)
         case Some(p) => Written(JObj(fields[k := JArr(items[..p] + items[p + 1..])]), None)
         case None => Written(JObj(fields), Some(IndexError)))
      case _ => Written(JObj(fields), Some(TypeError))
  }

  /** An intermediate plain key: the rest of the path is deleted inside its value. */
  function DeleteChild(fields: map<string, Json>, k: string, rest: seq<string>): (w: Written)
    requires k in fields && rest != [] && GetPath(fields[k], rest).Ok?
    ensures w.cur.JObj? && w.cur.fields.Keys == fields.Keys
    ensures forall k' :: k' in fields && k' != k ==> w.cur.fields[k'] == fields[k']
    decreases |rest| + 1, 0
  {
    var w := DeletePath(fields[k], rest);
    Written(JObj(fields[k := w.cur]), w.error)
  }

  /** An intermediate `key[i]`: the rest of the path is deleted inside item `i` of the list. */
  function DeleteItem(fields: map<string, Json>, k: string, i: int, rest: seq<string>): (w: Written)
    requires k in fields && rest != [] && Item(fields[k], i).Ok? && GetPath(Item(fields[k], i).value, rest).Ok?
    ensures w.cur.JObj? && w.cur.fields.Keys == fields.Keys
    ensures forall k' :: k' in fields && k' != k ==> w.cur.fields[k'] == fields[k']
    decreases |rest| + 1, 0
  {
    match fields[k]
    case JArr(items) =>
      var p := Position(i, |items|).value;
      var w := DeletePath(items[p], rest);
      Written(JObj(fields[k := JArr(items[p := w.cur])]), w.error)
    case _ => Written(JObj(fields), Some(TypeError))
  }

  /** After deleting a path that ends in a plain key, reading it raises KeyError. */
  lemma {:induction false} DeleteThenGet(cur: Json, parts: seq<string>)
    requires parts != [] && GetPath(cur, parts).Ok?
    requires ParseSegment(parts[|parts| - 1]).Ok? && ParseSegment(parts[|parts| - 1]).value.Key?
    requires DeletePath(cur, parts).error == None
    ensures GetPath(DeletePath(cur, parts).cur, parts) == Err(KeyError)
    decreases |parts|
  {
    GetPathHead(cur, parts);
    var seg := ParseSegment(parts[0]).value;
    var w := DeletePath(cur, parts);
    if |parts| == 1 {
      assert GetPath(w.cur, parts) == Step(w.cur, parts[0]);
    } else {
      assert parts[1..][|parts[1..]| - 1] == parts[|parts| - 1];
      match seg
      case Key(k) =>
        DeleteThenGet(cur.fields[k], parts[1..]);
      case Indexed(k, i) =>
        var items := cur.fields[k].items;
        var p := Position(i, |items|).value;
        DeleteThenGet(items[p], parts[1..]);
    }
  }

  /** Deleting keeps every other key of the top-level dict, and removes at most the first segment's key. */
  lemma DeleteSiblings(m: map<string, Json>, parts: seq<string>)
    requires parts != [] && GetPath(JObj(m), parts).Ok?
    ensures ParseSegment(parts[0]).Ok?
    ensures var key := SegmentKey(ParseSegment(parts[0]).value);
      var w := DeletePath(JObj(m), parts);
      w.cur.fields.Keys == (if |parts| == 1 && ParseSegment(parts[0]).value.Key? then m.Keys - {key} else m.Keys)
      && forall k :: k in m && k != key ==> w.cur.fields[k] == m[k]
  {
    GetPathHead(JObj(m), parts);
    var seg := ParseSegment(parts[0]).value;
    var w := DeletePath(JObj(m), parts);
    if |parts| == 1 {
      assert w == DeleteLast(m, seg);
    } else if seg.Key? {
      assert w == DeleteChild(m, seg.name, parts[1..]);
    } else {
      assert w == DeleteItem(m, seg.key, seg.index, parts[1..]);
    }
  }

  // ---------------------------------------------------------------------------
  // The scenario
  // ---------------------------------------------------------------------------

  /** `add_tag`: the tag list with `tag` appended unless already present. */
  function WithTag(tags: seq<string>, tag: string): (r: seq<string>)
    ensures tag in r
    ensures forall t :: t in r <==> t in tags || t == tag
    ensures tag in tags ==> r == tags
    ensures tag !in tags ==> r == tags + [tag]
  {
    if tag in tags then tags else tags + [tag]
  }

  predicate NoDuplicates(tags: seq<string>)
  {
    forall i, j :: 0 <= i < j < |tags| ==> tags[i] != tags[j]
  }

  /** Adding a tag twice is adding it once, and a list without duplicates stays so. */
  lemma WithTagIdempotent(tags: seq<string>, tag: string)
    ensures WithTag(WithTag(tags, tag), tag) == WithTag(tags, tag)
    ensures NoDuplicates(tags) ==> NoDuplicates(WithTag(tags, tag))
  {
  }

  /** The scenario's metadata; timestamps and the source file are not modelled. */
  class ScenarioMetadata {
    var name: string
    var version: string
    var call: string
    var adapter: string
    var description: string
    var tags: seq<string>

    constructor(name: string, version: string, call: string)
      ensures this.name == name && this.version == version && this.call == call
      ensures adapter == "front-adapter" && description == "" && tags == []
    {
      this.name := name;
      this.version := version;
      this.call := call;
      adapter := "front-adapter";
      description := "";
      tags := [];
    }

    predicate HasTag(tag: string)
      reads this
    {
      tag in tags
    }

    /** `add_tag`: appends the tag unless present; afterwards `has_tag` holds. */
    method AddTag(tag: string)
      modifies this
      ensures tags == WithTag(old(tags), tag) && HasTag(tag)
      ensures name == old(name) && version == old(version) && call == old(call)
      ensures adapter == old(adapter) && description == old(description)
    {
      if tag !in tags {
        tags := tags + [tag];
      }
    }
  }

  /** A scenario: metadata and the data dict. */
  class Scenario {
    var metadata: ScenarioMetadata
    var data: map<string, Json>

    constructor(metadata: ScenarioMetadata, data: map<string, Json>)
      ensures this.metadata == metadata && this.data == data
    {
      this.metadata := metadata;
      this.data := data;
    }

    /** `get_field_value`: walks the segments of the path from the data dict. */
    method GetFieldValue(path: string) returns (r: Outcome<Json>)
      ensures r == GetPath(JObj(data), Split(path, '/'))
    {
      var parts := Split(path, '/');
      var current := JObj(data);
      var i := 0;
      while i < |parts|
        invariant 0 <= i <= |parts|
        invariant GetPath(JObj(data), parts) == GetPath(current, parts[i..])
      {
        assert parts[i..][1..] == parts[i + 1..];
        var seg := ParseSegment(parts[i]);
        if seg.Err? {
          return Err(seg.error);
        }
        var step := Subscript(current, SegmentKey(seg.value));
        if step.Err? {
          return Err(step.error);
        }
        current := step.value;
        if seg.value.Indexed? {
          var item := Item(current, seg.value.index);
          if item.Err? {
            return Err(item.error);
          }
          current := item.value;
        }
        i := i + 1;
      }
      r := Ok(current);
    }

    /**
     * `has_field`: whether reading succeeds; KeyError, IndexError and
     * TypeError mean "no", and a ValueError from a malformed index passes through.
     */
    method HasField(path: string) returns (r: Outcome<bool>)
      ensures r == Ok(true) <==> GetPath(JObj(data), Split(path, '/')).Ok?
      ensures r == Ok(false) <==> GetPath(JObj(data), Split(path, '/')).Err?
                                  && GetPath(JObj(data), Split(path, '/')).error != ValueError
      ensures r.Err? ==> r.error == ValueError
    {
      var got := GetFieldValue(path);
      GetPathErrors(JObj(data), Split(path, '/'));
      if got.Ok? {
        r := Ok(true);
      } else if got.error == ValueError {
        r := Err(ValueError);
      } else {
        r := Ok(false);
      }
    }

    /**
     * `set_field_value`: the data after the write, including what was
     * created before an exception; the timestamp update is not modelled.
     */
    method SetFieldValue(path: string, value: Json) returns (error: Option<PyError>)
      modifies this
      ensures var w := SetPath(JObj(old(data)), Split(path, '/'), value);
        data == w.cur.fields && error == w.error
      ensures metadata == old(metadata)
    {
      var w := SetPath(JObj(data), Split(path, '/'), value);
      data := w.cur.fields;
      error := w.error;
    }

    /**
     * `delete_field`: False with the data unchanged when the path cannot be
     * read; otherwise the final key or item is removed and the answer is True.
     */
    method DeleteField(path: string) returns (r: Outcome<bool>)
      modifies this
      ensures var parts := Split(path, '/');
        var got := GetPath(JObj(old(data)), parts);
        (got.Err? && got.error == ValueError ==> r == Err(ValueError) && data == old(data))
        && (got.Err? && got.error != ValueError ==> r == Ok(false) && data == old(data))
        && (got.Ok? ==>
              var w := DeletePath(JObj(old(data)), parts);
              data == w.cur.fields && r == (if w.error.Some? then Err(w.error.value) else Ok(true)))
      ensures metadata == old(metadata)
    {
      var has := HasField(path);
      if has.Err? {
        return Err(has.error);
      }
      if !has.value {
        return Ok(false);
      }
      var w := DeletePath(JObj(data), Split(path, '/'));
      data := w.cur.fields;
      r := if w.error.Some? then Err(w.error.value) else Ok(true);
    }

    /** `to_dict`: a copy equal to the data. */
    method ToDict() returns (r: map<string, Json>)
      ensures r == data
    {
      r := data;
    }
  }
}
