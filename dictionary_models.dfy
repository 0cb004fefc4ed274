/**
 * A reference dictionary (справочник): a named list of entries, each with
 * a numeric code and a name, searched front to back.
 */
module DictionaryModels {
  import opened Common
  import opened JsonData

  /** One entry of a dictionary; two entries are equal when all their fields are. */
  datatype DictionaryEntry = DictionaryEntry(
    code: int,
    name: string,
    dictionaryType: string,
    description: string,
    metadata: map<string, Json>)

  /** The first entry satisfying `p`, in list order. */
  function First(es: seq<DictionaryEntry>, p: DictionaryEntry -> bool): Option<DictionaryEntry>
  {
    if es == [] then None
    else if p(es[0]) then Some(es[0])
    else First(es[1..], p)
  }

  /** The search finds the entry at the lowest index satisfying `p`, and nothing when there is none. */
  lemma {:induction false} FirstIsFirst(es: seq<DictionaryEntry>, p: DictionaryEntry -> bool)
    ensures First(es, p).None? <==> forall i :: 0 <= i < |es| ==> !p(es[i])
    ensures First(es, p).Some? ==>
      exists i :: 0 <= i < |es| && es[i] == First(es, p).value && p(es[i])
                  && forall j :: 0 <= j < i ==> !p(es[j])
  {
    if es != [] {
      FirstIsFirst(es[1..], p);
      if !p(es[0]) {
        if First(es[1..], p).Some? {
          var i :| 0 <= i < |es[1..]| && es[1..][i] == First(es[1..], p).value && p(es[1..][i])
                   && forall j :: 0 <= j < i ==> !p(es[1..][j]);
          assert es[i + 1] == es[1..][i];
          assert forall j :: 1 <= j < i + 1 ==> es[j] == es[1..][j - 1];
        } else {
          assert forall i :: 1 <= i < |es| ==> es[i] == es[1..][i - 1];
        }
      }
    }
  }

  /** Appending an entry never hides an earlier match; it is found only when nothing before it matches. */
  lemma {:induction false} FirstAppend(es: seq<DictionaryEntry>, e: DictionaryEntry, p: DictionaryEntry -> bool)
    ensures First(es + [e], p) == if First(es, p).Some? then First(es, p) else if p(e) then Some(e) else None
  {
    if es != [] {
      assert (es + [e])[1..] == es[1..] + [e];
      FirstAppend(es[1..], e, p);
    } else {
      assert (es + [e])[1..] == [];
    }
  }

  function CodeIs(code: int): DictionaryEntry -> bool
  {
    (e: DictionaryEntry) => e.code == code
  }

  function NameIs(name: string): DictionaryEntry -> bool
  {
    (e: DictionaryEntry) => e.name == name
  }

  /** The argument of `in`: Python dispatches on its runtime type. */
  datatype Probe =
    | IntProbe(i: int)
    | BoolProbe(b: bool)
    | StrProbe(s: string)
    | EntryProbe(e: DictionaryEntry)
    | OtherProbe

  datatype RandomResult = Picked(entry: DictionaryEntry) | EmptyError(message: string)

  class Dictionary {
    var name: string
    var entries: seq<DictionaryEntry>
    var description: string

    constructor(name: string)
      ensures this.name == name && entries == [] && description == ""
    {
      this.name := name;
      entries := [];
      description := "";
    }

    /** `get_by_code`: the first entry with the code, None when there is none. */
    method GetByCode(code: int) returns (r: Option<DictionaryEntry>)
      ensures r == First(entries, CodeIs(code))
    {
      var i := 0;
      while i < |entries|
        invariant 0 <= i <= |entries|
        invariant First(entries, CodeIs(code)) == First(entries[i..], CodeIs(code))
      {
        assert entries[i..][1..] == entries[i + 1..];
        if entries[i].code == code {
          return Some(entries[i]);
        }
        i := i + 1;
      }
      r := None;
    }

    /** `get_by_name`: the first entry with the name, None when there is none. */
    method GetByName(name: string) returns (r: Option<DictionaryEntry>)
      ensures r == First(entries, NameIs(name))
    {
      var i := 0;
      while i < |entries|
        invariant 0 <= i <= |entries|
        invariant First(entries, NameIs(name)) == First(entries[i..], NameIs(name))
      {
        assert entries[i..][1..] == entries[i + 1..];
        if entries[i].name == name {
          return Some(entries[i]);
        }
        i := i + 1;
      }
      r := None;
    }

    /** `contains_code`: some entry has the code. */
    method ContainsCode(code: int) returns (r: bool)
      ensures r <==> exists i :: 0 <= i < |entries| && entries[i].code == code
    {
      var found := GetByCode(code);
      FirstIsFirst(entries, CodeIs(code));
      r := found.Some?;
    }

    /** `contains_name`: some entry has the name. */
    method ContainsName(name: string) returns (r: bool)
      ensures r <==> exists i :: 0 <= i < |entries| && entries[i].name == name
    {
      var found := GetByName(name);
      FirstIsFirst(entries, NameIs(name));
      r := found.Some?;
    }

    /**
     * `__contains__`: an int (a bool counts as 0 or 1) is looked up by code,
     * a string by name, an entry by equality; anything else is not contained.
     */
    method Contains(item: Probe) returns (r: bool)
      ensures item.IntProbe? ==> (r <==> exists i :: 0 <= i < |entries| && entries[i].code == item.i)
      ensures item.BoolProbe? ==>
        (r <==> exists i :: 0 <= i < |entries| && entries[i].code == (if item.b then 1 else 0))
      ensures item.StrProbe? ==> (r <==> exists i :: 0 <= i < |entries| && entries[i].name == item.s)
      ensures item.EntryProbe? ==> (r <==> item.e in entries)
      ensures item.OtherProbe? ==> !r
    {
      match item
      case IntProbe(i) => r := ContainsCode(i);
      case BoolProbe(b) => r := ContainsCode(if b then 1 else 0);
      case StrProbe(s) => r := ContainsName(s);
      case EntryProbe(e) => r := e in entries;
      case OtherProbe => r := false;
    }

    /** `add_entry`: appends at the end. */
    method AddEntry(entry: DictionaryEntry)
      modifies this
      ensures entries == old(entries) + [entry]
      ensures name == old(name) && description == old(description)
    {
      entries := entries + [entry];
    }

    /** `get_all_codes`: the codes in entry order. */
    function AllCodes(): (r: seq<int>)
      reads this
      ensures |r| == |entries| && forall i :: 0 <= i < |r| ==> r[i] == entries[i].code
    {
      seq(|entries|, i requires 0 <= i < |entries| reads this => entries[i].code)
    }

    /** `get_all_names`: the names in entry order. */
    function AllNames(): (r: seq<string>)
      reads this
      ensures |r| == |entries| && forall i :: 0 <= i < |r| ==> r[i] == entries[i].name
    {
      seq(|entries|, i requires 0 <= i < |entries| reads this => entries[i].name)
    }

    /** `size`: the number of entries, one code per entry. */
    function Size(): (n: nat)
      reads this
      ensures n == |AllCodes()|
    {
      |entries|
    }

    /** `is_empty`: no entries, that is size 0. */
    predicate IsEmpty()
      reads this
      ensures IsEmpty() <==> Size() == 0 && entries == []
    {
      |entries| == 0
    }

    /**
     * `get_random`: ValueError naming the dictionary when it is empty,
     * otherwise the entry `random.choice` picks, given here as `pick`.
     */
    method GetRandom(pick: nat) returns (r: RandomResult)
      ensures r.EmptyError? <==> entries == []
      ensures r.EmptyError? ==> r.message == "Справочник " + name + " пуст"
      ensures r.Picked? ==> r.entry in entries && r.entry == entries[pick % |entries|]
    {
      if |entries| == 0 {
        return EmptyError("Справочник " + name + " пуст");
      }
      r := Picked(entries[pick % |entries|]);
    }
  }

  /**
   * After `add_entry(e)` the dictionary contains e's code and name; a
   * lookup still returns an earlier entry with the same code, if any.
   */
  lemma AddEntryLookups(es: seq<DictionaryEntry>, e: DictionaryEntry)
    ensures First(es + [e], CodeIs(e.code)).Some?
    ensures First(es + [e], NameIs(e.name)).Some?
    ensures First(es, CodeIs(e.code)).Some? ==> First(es + [e], CodeIs(e.code)) == First(es, CodeIs(e.code))
    ensures First(es, CodeIs(e.code)).None? ==> First(es + [e], CodeIs(e.code)) == Some(e)
  {
    FirstAppend(es, e, CodeIs(e.code));
    FirstAppend(es, e, NameIs(e.name));
  }
}
