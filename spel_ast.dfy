/**
 * The catalogue of expression-tree nodes: the node kinds with their
 * string values, the scope classification of a field path by its prefix
 * (`this`, `root`/`#rootBean`, `parent`, plain field), the path built for
 * `parentN` and `rootBean` navigation, the debugging text of every node
 * and the `create_*` factories.
 */
module SpelAst {
  import opened Common
  import opened JsonData

  datatype NodeType =
    | Literal | Field
    | And | Or | Not
    | Eq | NotEq | In | NotIn | EqOrGreater | EqOrLess
    | IsNull | NotNull | IsBlank | NotBlank
    | AnyMatch | AllMatch | NoneMatch | Filter | Map | HasSize | Size | NotEmptyList | ContainsAll
    | Length
    | CurrentDate | MinusYears | MinusDays | ToLocalDate | IsAfter | CompareTo
    | IsValidTaxNum | IsValidUuid | DigitsCheck | IsDictionaryValue
    | This | Root | Parent
    | Call

  /** The enum member's `.value`. */
  function Value(t: NodeType): string
  {
    match t
    case Literal => "literal"
    case Field => "field"
    case And => "and"
    case Or => "or"
    case Not => "not"
    case Eq => "eq"
    case NotEq => "notEq"
    case In => "in"
    case NotIn => "notIn"
    case EqOrGreater => "eqOrGreater"
    case EqOrLess => "eqOrLess"
    case IsNull => "isNull"
    case NotNull => "notNull"
    case IsBlank => "isBlank"
    case NotBlank => "notBlank"
    case AnyMatch => "anyMatch"
    case AllMatch => "allMatch"
    case NoneMatch => "noneMatch"
    case Filter => "filter"
    case Map => "map"
    case HasSize => "hasSize"
    case Size => "size"
    case NotEmptyList => "notEmptyList"
    case ContainsAll => "containsAll"
    case Length => "length"
    case CurrentDate => "currentDate"
    case MinusYears => "minusYears"
    case MinusDays => "minusDays"
    case ToLocalDate => "toLocalDate"
    case IsAfter => "isAfter"
    case CompareTo => "compareTo"
    case IsValidTaxNum => "isValidTaxNum"
    case IsValidUuid => "isValidUuid"
    case DigitsCheck => "digitsCheck"
    case IsDictionaryValue => "isDictionaryValue"
    case This => "this"
    case Root => "root"
    case Parent => "parent"
    case Call => "call"
  }

  datatype Node =
    | LiteralNode(value: Json)
    | FieldNode(path: string)
    | ParentNNode(level: int, subPath: Option<string>)
    | RootNode(rootSubPath: string)
    | UnaryOpNode(op: NodeType, operand: Node)
    | BinaryOpNode(op: NodeType, left: Node, right: Node)
    | NaryOpNode(op: NodeType, operands: seq<Node>)
    | CallMethodNode(target: Node, methodName: string, arguments: seq<Node>)
    | FilterNode(array: Node, condition: Node)
    | MapNode(array: Node, expression: Node)
    | AnyMatchNode(array: Node, condition: Node)
    | AllMatchNode(array: Node, condition: Node)
    | NoneMatchNode(array: Node, condition: Node)
    | HasSizeNode(array: Node, expectedSize: Node)

  /** `FieldNode.__init__`: the scope of a path, decided by its prefix. */
  function ClassifyPath(path: string): (t: NodeType)
    ensures t in {This, Root, Parent, Field}
    ensures t == This <==> path == "this" || path == "this."
    ensures t == Root <==> StartsWith(path, "root") || StartsWith(path, "#rootBean")
    ensures t == Parent <==> StartsWith(path, "parent")
    ensures t == Field <==> path != "this" && path != "this." && !StartsWith(path, "root")
                            && !StartsWith(path, "#rootBean") && !StartsWith(path, "parent")
  {
    ThisNotRootOrParent();
    if path == "this" || path == "this." then This
    else if StartsWith(path, "root") || StartsWith(path, "#rootBean") then Root
    else if StartsWith(path, "parent") then Parent
    else Field
  }

  /** `this` and `this.` start with none of the ROOT and PARENT prefixes, and those prefixes exclude each other. */
  lemma ThisNotRootOrParent()
    ensures forall p :: p == "this" || p == "this." ==>
      !StartsWith(p, "root") && !StartsWith(p, "#rootBean") && !StartsWith(p, "parent")
    ensures forall p :: StartsWith(p, "parent") ==> !StartsWith(p, "root") && !StartsWith(p, "#rootBean")
  {
    forall p | StartsWith(p, "parent")
      ensures !StartsWith(p, "root") && !StartsWith(p, "#rootBean")
    {
      StartsWithHead(p, "parent");
      StartsWithHead(p, "root");
      StartsWithHead(p, "#rootBean");
    }
    assert "this"[0] == 't' && "this."[0] == 't';
    StartsWithHead("this", "root");
    StartsWithHead("this", "#rootBean");
    StartsWithHead("this", "parent");
    StartsWithHead("this.", "root");
    StartsWithHead("this.", "#rootBean");
    StartsWithHead("this.", "parent");
  }

  /** Any path under `root` or `#rootBean` is ROOT, whatever follows the prefix. */
  lemma ClassifyRootPrefix(s: string)
    ensures ClassifyPath("root" + s) == Root
    ensures ClassifyPath("#rootBean" + s) == Root
  {
    var p, q := "root" + s, "#rootBean" + s;
    assert p[..4] == "root" && p[0] == 'r';
    assert q[..9] == "#rootBean" && q[0] == '#';
  }

  /** Any path under `parent` is PARENT, whatever follows the prefix. */
  lemma ClassifyParentPrefix(s: string)
    ensures ClassifyPath("parent" + s) == Parent
  {
    var p := "parent" + s;
    assert p[..6] == "parent" && p[0] == 'p';
    StartsWithHead(p, "root");
    StartsWithHead(p, "#rootBean");
  }

  /** A path below `this.` is an ordinary field, not THIS. */
  lemma ClassifyThisDotPrefix(s: string)
    requires s != ""
    ensures ClassifyPath("this." + s) == Field
  {
    var p := "this." + s;
    assert p[0] == 't' && |p| > 5;
    StartsWithHead(p, "root");
    StartsWithHead(p, "#rootBean");
    StartsWithHead(p, "parent");
  }

  /** Only the bare `this` is THIS: a dotted path below it is an ordinary field. */
  lemma ThisDotFieldIsField()
    ensures ClassifyPath("this.x") == Field
    ensures ClassifyPath("this") == This
    ensures ClassifyPath("rootX") == Root
    ensures ClassifyPath("parentId") == Parent
  {
    assert !StartsWith("this.x", "root") by { assert "this.x"[..4] != "root"; }
    assert !StartsWith("this.x", "#rootBean");
    assert !StartsWith("this.x", "parent") by { assert "this.x"[..6] != "parent"; }
    assert StartsWith("rootX", "root") by { assert "rootX"[..4] == "root"; }
    assert !StartsWith("parentId", "root") by { assert "parentId"[..4] != "root"; }
    assert !StartsWith("parentId", "#rootBean");
    assert StartsWith("parentId", "parent") by { assert "parentId"[..6] == "parent"; }
  }

  /** `ParentNNode`: `parent` for level 1 (or less), `parent{level}` above, then `.sub` for a non-empty sub-path. */
  function ParentNPath(level: int, subPath: Option<string>): (p: string)
    ensures StartsWith(p, "parent")
  {
    var head := if level > 1 then "parent" + IntToString(level) else "parent";
    assert head[..6] == "parent";
    if subPath.Some? && subPath.value != "" then head + "." + subPath.value else head
  }

  /** `RootNode`: the path is `rootBean.` followed by the sub-path. */
  function RootPath(subPath: string): (p: string)
    ensures StartsWith(p, "rootBean.") && p[9..] == subPath
  {
    "rootBean." + subPath
  }

  /** The `path` attribute of the field-like nodes. */
  function PathOf(n: Node): string
    requires n.FieldNode? || n.ParentNNode? || n.RootNode?
  {
    match n
    case FieldNode(p) => p
    case ParentNNode(level, sub) => ParentNPath(level, sub)
    case RootNode(sub) => RootPath(sub)
  }

  /** The `node_type` attribute. */
  function TypeOf(n: Node): (t: NodeType)
    ensures n.LiteralNode? ==> t == Literal
    ensures n.ParentNNode? ==> t == Parent
    ensures n.RootNode? ==> t == Root
    ensures n.FieldNode? ==> t == ClassifyPath(n.path)
    ensures n.CallMethodNode? ==> t == Call
  {
    match n
    case LiteralNode(_) => Literal
    case FieldNode(p) => ClassifyPath(p)
    case ParentNNode(_, _) =>
      var p := PathOf(n);
      assert p[..6] == "parent" && p[0] == p[..6][0] == 'p';
      StartsWithHead(p, "root");
      StartsWithHead(p, "#rootBean");
      ClassifyPath(p)
    case RootNode(_) =>
      var p := PathOf(n);
      assert p[..4] == "root";
      ClassifyPath(p)
    case UnaryOpNode(op, _) => op
    case BinaryOpNode(op, _, _) => op
    case NaryOpNode(op, _) => op
    case CallMethodNode(_, _, _) => Call
    case FilterNode(_, _) => Filter
    case MapNode(_, _) => Map
    case AnyMatchNode(_, _) => AnyMatch
    case AllMatchNode(_, _) => AllMatch
    case NoneMatchNode(_, _) => NoneMatch
    case HasSizeNode(_, _) => HasSize
  }

  /** `LiteralNode.__repr__`: null, lower-case booleans, double-quoted strings, else `str`. */
  function LiteralRepr(v: Json): (r: string)
    ensures v.JNull? ==> r == "null"
    ensures v.JBool? ==> r == (if v.b then "true" else "false")
    ensures v.JStr? ==> r == "\"" + v.s + "\""
    ensures v.JInt? ==> r == IntToString(v.i)
  {
    match v
    case JNull => "null"
    case JBool(b) => Lower(PyStr(v))
    case JStr(s) => "\"" + s + "\""
    case _ => PyStr(v)
  }

  /**
   * Debugging text of a node (`__repr__` / `str`): a field-like node prints
   * its path, every other non-literal node prints as `kind(...)`.
   */
  function Repr(n: Node): (r: string)
    ensures n.FieldNode? || n.ParentNNode? || n.RootNode? ==> r == PathOf(n)
    ensures !(n.LiteralNode? || n.FieldNode? || n.ParentNNode? || n.RootNode?) ==> |r| > 0 && r[|r| - 1] == ')'
  {
    match n
    case LiteralNode(v) => LiteralRepr(v)
    case FieldNode(_) => PathOf(n)
    case ParentNNode(_, _) => PathOf(n)
    case RootNode(_) => PathOf(n)
    case UnaryOpNode(op, x) => Value(op) + "(" + Repr(x) + ")"
    case BinaryOpNode(op, l, r) => Value(op) + "(" + Repr(l) + ", " + Repr(r) + ")"
    case NaryOpNode(op, xs) => Value(op) + "(" + Join(Reprs(xs), ", ") + ")"
    case CallMethodNode(target, name, args) => "call(" + Repr(target) + ", " + Join([name] + Reprs(args), ", ") + ")"
    case FilterNode(a, c) => "filter(" + Repr(a) + ", " + Repr(c) + ")"
    case MapNode(a, e) => "map(" + Repr(a) + ", " + Repr(e) + ")"
    case AnyMatchNode(a, c) => "anyMatch(" + Repr(a) + ", " + Repr(c) + ")"
    case AllMatchNode(a, c) => "allMatch(" + Repr(a) + ", " + Repr(c) + ")"
    case NoneMatchNode(a, c) => "noneMatch(" + Repr(a) + ", " + Repr(c) + ")"
    case HasSizeNode(a, s) => "hasSize(" + Repr(a) + ", " + Repr(s) + ")"
  }

  /** The reprs of a list of nodes, in order. */
  function Reprs(xs: seq<Node>): (rs: seq<string>)
    ensures |rs| == |xs|
    ensures forall i :: 0 <= i < |xs| ==> rs[i] == Repr(xs[i])
  {
    if xs == [] then [] else [Repr(xs[0])] + Reprs(xs[1..])
  }

  /** An n-ary node with one or two operands prints exactly like the unary or binary node. */
  lemma NaryReprMatchesFixedArity(op: NodeType, a: Node, b: Node)
    ensures Repr(NaryOpNode(op, [a])) == Repr(UnaryOpNode(op, a))
    ensures Repr(NaryOpNode(op, [a, b])) == Repr(BinaryOpNode(op, a, b))
  {
    NaryReprOne(op, a);
    NaryReprTwo(op, a, b);
  }

  lemma NaryReprOne(op: NodeType, a: Node)
    ensures Repr(NaryOpNode(op, [a])) == Value(op) + "(" + Repr(a) + ")"
  {
    ReprsOne(a);
    JoinOne(Repr(a), ", ");
  }

  lemma NaryReprTwo(op: NodeType, a: Node, b: Node)
    ensures Repr(NaryOpNode(op, [a, b])) == Value(op) + "(" + Repr(a) + ", " + Repr(b) + ")"
  {
    ReprsTwo(a, b);
    JoinTwo(Repr(a), Repr(b), ", ");
  }

  lemma ReprsOne(a: Node)
    ensures Reprs([a]) == [Repr(a)]
  {
  }

  lemma ReprsTwo(a: Node, b: Node)
    ensures Reprs([a, b]) == [Repr(a), Repr(b)]
  {
    assert [a, b][1..] == [b];
  }

  /** A method call without arguments prints as `call(target, name)`. */
  lemma CallReprNoArguments(target: Node, name: string)
    ensures Repr(CallMethodNode(target, name, [])) == "call(" + Repr(target) + ", " + name + ")"
  {
  }

  /** `CallMethodNode(target, name, None)`: a missing argument list becomes empty. */
  function CreateCall(target: Node, methodName: string, arguments: Option<seq<Node>>): (r: Node)
    ensures r.CallMethodNode? && r.target == target && r.methodName == methodName
    ensures arguments.None? ==> r.arguments == []
    ensures arguments.Some? ==> r.arguments == arguments.value
  {
    CallMethodNode(target, methodName, if arguments.Some? then arguments.value else [])
  }

  function CreateAnd(operands: seq<Node>): (r: Node)
    ensures r.NaryOpNode? && TypeOf(r) == And && r.operands == operands
  {
    NaryOpNode(And, operands)
  }

  function CreateOr(operands: seq<Node>): (r: Node)
    ensures r.NaryOpNode? && TypeOf(r) == Or && r.operands == operands
  {
    NaryOpNode(Or, operands)
  }

  function CreateNot(operand: Node): (r: Node)
    ensures TypeOf(r) == Not && Repr(r) == "not(" + Repr(operand) + ")"
  {
    UnaryOpNode(Not, operand)
  }

  function CreateEq(left: Node, right: Node): (r: Node)
    ensures TypeOf(r) == Eq && Repr(r) == "eq(" + Repr(left) + ", " + Repr(right) + ")"
  {
    BinaryOpNode(Eq, left, right)
  }

  function CreateNotEq(left: Node, right: Node): (r: Node)
    ensures TypeOf(r) == NotEq && Repr(r) == "notEq(" + Repr(left) + ", " + Repr(right) + ")"
  {
    BinaryOpNode(NotEq, left, right)
  }

  /** `create_in`: the value being checked first, then the candidates in order. */
  function CreateIn(subject: Node, values: seq<Node>): (r: Node)
    ensures r.NaryOpNode? && TypeOf(r) == In && |r.operands| == |values| + 1
    ensures r.operands[0] == subject && r.operands[1..] == values
  {
    NaryOpNode(In, [subject] + values)
  }

  function CreateNotIn(subject: Node, values: seq<Node>): (r: Node)
    ensures r.NaryOpNode? && TypeOf(r) == NotIn && |r.operands| == |values| + 1
    ensures r.operands[0] == subject && r.operands[1..] == values
  {
    NaryOpNode(NotIn, [subject] + values)
  }

  /** `in(x, v)` prints like a binary `in`: subject on the left, candidate on the right. */
  lemma CreateInRepr(subject: Node, v: Node)
    ensures Repr(CreateIn(subject, [v])) == Repr(BinaryOpNode(In, subject, v))
  {
    assert CreateIn(subject, [v]) == NaryOpNode(In, [subject, v]);
    NaryReprMatchesFixedArity(In, subject, v);
  }

  function CreateIsNull(operand: Node): (r: Node)
    ensures TypeOf(r) == IsNull && Repr(r) == "isNull(" + Repr(operand) + ")"
  {
    UnaryOpNode(IsNull, operand)
  }

  function CreateNotNull(operand: Node): (r: Node)
    ensures TypeOf(r) == NotNull && Repr(r) == "notNull(" + Repr(operand) + ")"
  {
    UnaryOpNode(NotNull, operand)
  }

  function CreateIsBlank(operand: Node): (r: Node)
    ensures TypeOf(r) == IsBlank && Repr(r) == "isBlank(" + Repr(operand) + ")"
  {
    UnaryOpNode(IsBlank, operand)
  }

  function CreateNotBlank(operand: Node): (r: Node)
    ensures TypeOf(r) == NotBlank && Repr(r) == "notBlank(" + Repr(operand) + ")"
  {
    UnaryOpNode(NotBlank, operand)
  }

  /** The field-like nodes print as their path. */
  lemma FieldReprIsPath(n: Node)
    requires n.FieldNode? || n.ParentNNode? || n.RootNode?
    ensures Repr(n) == PathOf(n)
  {
  }

  /** `parent2.x` and friends: level 2 with a sub-path; level 1 and a falsy sub-path collapse. */
  lemma ParentNPathExamples()
    ensures ParentNPath(2, Some("realEstateCategoryCdExt")) == "parent2.realEstateCategoryCdExt"
    ensures ParentNPath(1, Some("x")) == "parent.x"
    ensures ParentNPath(3, None) == "parent3"
    ensures ParentNPath(0, Some("")) == "parent"
  {
    assert IntToString(2) == NatToString(2) == [DigitChar(2)] == "2";
    assert IntToString(3) == NatToString(3) == [DigitChar(3)] == "3";
    assert "parent" + "2" + "." + "realEstateCategoryCdExt" == "parent2.realEstateCategoryCdExt";
    assert "parent" + "3" == "parent3";
    assert "parent" + "." + "x" == "parent.x";
  }
}
