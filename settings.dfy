/**
 * The application's file layout: the directories the configuration names,
 * and how the file names of schemas, diff reports and updated scenarios
 * are formed.
 */
module Settings {
  import opened Common

  // ---------------------------------------------------------------------------
  // Paths
  // ---------------------------------------------------------------------------

  /** A POSIX path as pathlib keeps it: absolute or not, and its components. */
  datatype Path = Path(absolute: bool, parts: seq<string>)

  /** pathlib keeps neither empty pieces nor "." pieces of a path string. */
  predicate IsComponent(x: string)
  {
    x != "" && x != "." && '/' !in x
  }

  /** Every component of the path is one pathlib would keep. */
  predicate WellFormed(p: Path)
  {
    forall i :: 0 <= i < |p.parts| ==> IsComponent(p.parts[i])
  }

  /** The components pathlib keeps from a path string. */
  function Components(s: string): (r: seq<string>)
    ensures forall i :: 0 <= i < |r| ==> IsComponent(r[i])
  {
    Filter(Split(s, '/'), (x: string) => x != "" && x != ".")
  }

  /** A plain file name is one component. */
  lemma ComponentsOfName(s: string)
    requires IsComponent(s)
    ensures Components(s) == [s]
  {
    SplitNoSeparator(s, '/');
    var keep := (x: string) => x != "" && x != ".";
    assert [s][1..] == [];
    assert Filter([s], keep) == [s] + Filter([s][1..], keep);
  }

  /** `p / name`: a name starting with "/" replaces the path, any other extends it. */
  function Join(p: Path, name: string): (r: Path)
    ensures WellFormed(p) ==> WellFormed(r)
  {
    if |name| > 0 && name[0] == '/' then Path(true, Components(name)) else Path(p.absolute, p.parts + Components(name))
  }

  /** Joining a plain file name appends exactly that component. */
  lemma JoinName(p: Path, name: string)
    requires IsComponent(name)
    ensures Join(p, name) == Path(p.absolute, p.parts + [name])
    ensures Name(Join(p, name)) == name
  {
    ComponentsOfName(name);
  }

  /** Joining two plain names in turn appends both. */
  lemma JoinTwo(p: Path, a: string, b: string)
    requires IsComponent(a) && IsComponent(b)
    ensures Join(Join(p, a), b) == Child(Child(p, a), b) == Path(p.absolute, p.parts + [a, b])
  {
    JoinName(p, a);
    JoinName(Join(p, a), b);
    assert p.parts + [a] + [b] == p.parts + [a, b];
  }

  /** `.name`: the last component, "" for a path without one. */
  function Name(p: Path): (r: string)
    ensures WellFormed(p) ==> '/' !in r
  {
    if p.parts == [] then "" else p.parts[|p.parts| - 1]
  }

  /** `str.rfind(c)`: the last position of `c`, -1 when there is none. */
  function RFind(s: string, c: char): (i: int)
    ensures -1 <= i < |s|
    ensures i >= 0 ==> s[i] == c
    ensures forall j :: i < j < |s| ==> s[j] != c
  {
    if |s| == 0 then -1 else if s[|s| - 1] == c then |s| - 1 else RFind(s[..|s| - 1], c)
  }

  /** `.suffix`: from the last dot of the name on, unless that dot is its first or its last character. */
  function Suffix(p: Path): (r: string)
    ensures r != "" ==> |r| >= 2 && r[0] == '.' && |r| < |Name(p)| && r == Name(p)[|Name(p)| - |r|..]
  {
    var n := Name(p);
    var i := RFind(n, '.');
    if 0 < i < |n| - 1 then n[i..] else ""
  }

  /** `.stem`: the name without its suffix. */
  function Stem(p: Path): (r: string)
    ensures |r| <= |Name(p)| && r == Name(p)[..|r|]
    ensures Name(p) != "" ==> r != ""
  {
    var n := Name(p);
    var i := RFind(n, '.');
    if 0 < i < |n| - 1 then n[..i] else n
  }

  /**
   * The stem and the suffix split the name; a suffix is a dot followed by
   * at least one character and no other dot, after a non-empty stem.
   */
  lemma StemSuffix(p: Path)
    ensures Stem(p) + Suffix(p) == Name(p)
    ensures Suffix(p) != "" ==>
      Stem(p) != "" && |Suffix(p)| >= 2 && Suffix(p)[0] == '.'
      && forall j :: 0 < j < |Suffix(p)| ==> Suffix(p)[j] != '.'
  {
    var n := Name(p);
    var i := RFind(n, '.');
    if 0 < i < |n| - 1 {
      assert n[..i] + n[i..] == n;
    }
  }

  /**
   * A name that ends in a suffix-shaped tail after a non-empty head has
   * that tail as its suffix and the head as its stem.
   */
  lemma NameWithSuffix(p: Path, head: string, tail: string)
    requires Name(p) == head + tail && head != ""
    requires |tail| >= 2 && tail[0] == '.' && forall j :: 0 < j < |tail| ==> tail[j] != '.'
    ensures Suffix(p) == tail && Stem(p) == head
  {
    var n := Name(p);
    assert n[|head|] == '.';
    assert forall j :: |head| < j < |n| ==> n[j] == tail[j - |head|];
    assert RFind(n, '.') == |head|;
    assert n[|head|..] == tail && n[..|head|] == head;
  }

  // ---------------------------------------------------------------------------
  // AppConfig
  // ---------------------------------------------------------------------------

  /** The directories of the configuration; any of them can be given explicitly. */
  datatype AppConfig = AppConfig(
    baseDir: Path,
    dataDir: Path,
    outputDir: Path,
    logDir: Path,
    schemasDir: Path,
    dictionariesDir: Path,
    releasesDir: Path,
    mappingsDir: Path,
    scenariosDir: Path,
    reportsDir: Path,
    updatedScenariosDir: Path,
    comparisonDir: Path)

  /** `p / name` for a name pathlib keeps as one component, which JoinName and JoinTwo show. */
  function Child(p: Path, name: string): Path
  {
    Path(p.absolute, p.parts + [name])
  }

  /** The default configuration: every directory sits under the project directory `base`. */
  function DefaultConfig(base: Path): AppConfig
  {
    var data := Child(base, "data");
    var output := Child(base, "output");
    AppConfig(
      base, data, output, Child(base, "logs"),
      Child(data, "schemas"), Child(data, "dictionaries"), Child(data, "releases"),
      Child(data, "mappings"), Child(data, "scenarios"),
      Child(output, "reports"), Child(output, "scenarios"), Child(output, "comparisons"))
  }

  /** Request and response schemas differ only in their "Rq" / "Rs" marker. */
  function DirectionSuffix(direction: string): (r: string)
    ensures r == "Rq" <==> direction == "request"
    ensures r == "Rq" || r == "Rs"
  {
    if direction == "request" then "Rq" else "Rs"
  }

  /** `get_schema_path`: `V{version}{call}{Rq|Rs}.json` in the schemas directory. */
  function SchemaPath(c: AppConfig, version: string, call: string, direction: string): (r: Path)
    ensures WellFormed(c.schemasDir) ==> WellFormed(r)
    ensures r.absolute == c.schemasDir.absolute
  {
    Join(c.schemasDir, "V" + version + call + DirectionSuffix(direction) + ".json")
  }

  /** `get_report_path`: `diff_{call}_v{old}_to_v{new}.md` in the reports directory. */
  function ReportPath(c: AppConfig, oldVersion: string, newVersion: string, call: string): (r: Path)
    ensures WellFormed(c.reportsDir) ==> WellFormed(r)
    ensures r.absolute == c.reportsDir.absolute
  {
    Join(c.reportsDir, "diff_" + call + "_v" + oldVersion + "_to_v" + newVersion + ".md")
  }

  /**
   * `get_updated_scenario_path`: the original's stem, "_updated_to_v" and
   * the version, then the original's suffix, in the updated-scenarios
   * directory; the original's own directory is dropped.
   */
  function UpdatedScenarioPath(c: AppConfig, original: Path, newVersion: string): (r: Path)
    ensures WellFormed(c.updatedScenariosDir) ==> WellFormed(r)
    ensures WellFormed(original) ==> r.absolute == c.updatedScenariosDir.absolute
  {
    Join(c.updatedScenariosDir, Stem(original) + "_updated_to_v" + newVersion + Suffix(original))
  }

  // ---------------------------------------------------------------------------
  // Properties of the three paths
  // ---------------------------------------------------------------------------

  /**
   * A schema path is one file directly in the schemas directory; its suffix
   * is ".json" and its stem ends in "Rq" exactly for the request direction.
   */
  lemma SchemaPathShape(c: AppConfig, version: string, call: string, direction: string)
    requires '/' !in version && '/' !in call
    ensures SchemaPath(c, version, call, direction).parts[..|c.schemasDir.parts|] == c.schemasDir.parts
    ensures |SchemaPath(c, version, call, direction).parts| == |c.schemasDir.parts| + 1
    ensures SchemaPath(c, version, call, direction).absolute == c.schemasDir.absolute
    ensures Suffix(SchemaPath(c, version, call, direction)) == ".json"
    ensures Stem(SchemaPath(c, version, call, direction)) == "V" + version + call + DirectionSuffix(direction)
  {
    var stem := "V" + version + call + DirectionSuffix(direction);
    var name := stem + ".json";
    assert name[0] == 'V';
    JoinName(c.schemasDir, name);
    NameWithSuffix(SchemaPath(c, version, call, direction), stem, ".json");
  }

  /** The request and the response schema of one version and call are different files. */
  lemma SchemaDirectionsDiffer(c: AppConfig, version: string, call: string, direction: string)
    requires '/' !in version && '/' !in call && direction != "request"
    ensures SchemaPath(c, version, call, "request") != SchemaPath(c, version, call, direction)
  {
    SchemaPathShape(c, version, call, "request");
    SchemaPathShape(c, version, call, direction);
    var a := Stem(SchemaPath(c, version, call, "request"));
    var b := Stem(SchemaPath(c, version, call, direction));
    assert a[|a| - 1] == 'q' && b[|b| - 1] == 's';
  }

  /** A report is one ".md" file directly in the reports directory, named after the call and both versions. */
  lemma ReportPathShape(c: AppConfig, oldVersion: string, newVersion: string, call: string)
    requires '/' !in oldVersion && '/' !in newVersion && '/' !in call
    ensures ReportPath(c, oldVersion, newVersion, call)
      == Path(c.reportsDir.absolute, c.reportsDir.parts + [Name(ReportPath(c, oldVersion, newVersion, call))])
    ensures Suffix(ReportPath(c, oldVersion, newVersion, call)) == ".md"
    ensures Stem(ReportPath(c, oldVersion, newVersion, call)) == "diff_" + call + "_v" + oldVersion + "_to_v" + newVersion
  {
    var stem := "diff_" + call + "_v" + oldVersion + "_to_v" + newVersion;
    var name := stem + ".md";
    assert name[0] == 'd';
    JoinName(c.reportsDir, name);
    NameWithSuffix(ReportPath(c, oldVersion, newVersion, call), stem, ".md");
  }

  /**
   * The updated scenario lands directly in the updated-scenarios directory
   * whatever directory the original was in, and a file with a suffix keeps
   * it, the version being appended to its stem.
   */
  lemma UpdatedScenarioShape(c: AppConfig, original: Path, newVersion: string)
    requires WellFormed(original) && '/' !in newVersion
    ensures UpdatedScenarioPath(c, original, newVersion)
      == Path(c.updatedScenariosDir.absolute,
              c.updatedScenariosDir.parts + [Name(UpdatedScenarioPath(c, original, newVersion))])
    ensures Suffix(original) != "" ==>
      Suffix(UpdatedScenarioPath(c, original, newVersion)) == Suffix(original)
      && Stem(UpdatedScenarioPath(c, original, newVersion)) == Stem(original) + "_updated_to_v" + newVersion
  {
    StemSuffix(original);
    var head := Stem(original) + "_updated_to_v" + newVersion;
    var name := head + Suffix(original);
    assert Name(original) == Stem(original) + Suffix(original);
    assert '/' !in Stem(original) && '/' !in Suffix(original) by {
      forall j | 0 <= j < |Stem(original)|
        ensures Stem(original)[j] != '/'
      {
        assert Stem(original)[j] == Name(original)[j];
      }
      forall j | 0 <= j < |Suffix(original)|
        ensures Suffix(original)[j] != '/'
      {
        assert Suffix(original)[j] == Name(original)[|Stem(original)| + j];
      }
    }
    assert name[|Stem(original)|] == '_';
    JoinName(c.updatedScenariosDir, name);
    if Suffix(original) != "" {
      NameWithSuffix(UpdatedScenarioPath(c, original, newVersion), head, Suffix(original));
    }
  }
}
