/**
 * The serialiser from parser nodes to Python source text: literals, variable
 * lookups through `context.get_value`, parenthesised unary and binary
 * operators with a fixed operator table, function calls, comprehensions for
 * filter/map, `all`/`any`/`not any` for the match operators and a `len`
 * comparison for `hasSize`. Any other node kind is a ValueError; when there
 * are several, the first one met in evaluation order is reported.
 */
module SpelTranspiler {
  import opened Common
  import opened JsonData
  import opened SpelParser

  datatype Transpiled = Ok(code: string) | ValueError(msg: string)

  /** `_transpile_literal`: quoted strings (no escaping), None, True/False, else `str`. */
  function Literal(v: Json): (code: string)
    ensures v.JStr? ==> code == "'" + v.s + "'"
    ensures v.JNull? ==> code == "None"
    ensures v.JBool? ==> code == (if v.b then "True" else "False")
    ensures v.JInt? ==> code == IntToString(v.i)
  {
    if v.JStr? then "'" + v.s + "'"
    else if v.JNull? then "None"
    else PyStr(v)
  }

  /** The unary operator table: `not` and `!` become `not`, anything else passes through. */
  function UnaryOperator(op: string): (py: string)
    ensures op == "not" || op == "!" ==> py == "not"
    ensures op != "not" && op != "!" ==> py == op
  {
    if op == "not" || op == "!" then "not" else op
  }

  /** The binary operator table; an operator not in the table passes through verbatim. */
  function BinaryOperator(op: string): (py: string)
  {
    if op == "eq" then "=="
    else if op == "ne" then "!="
    else if op == "lt" then "<"
    else if op == "le" then "<="
    else if op == "gt" then ">"
    else if op == "ge" then ">="
    else if op == "and" then "and"
    else if op == "or" then "or"
    else if op == "in" then "in"
    else if op == "notIn" then "not in"
    else op
  }

  /** Every table entry, and pass-through for everything else. */
  lemma BinaryOperatorTable(op: string)
    ensures BinaryOperator("eq") == "==" && BinaryOperator("ne") == "!="
    ensures BinaryOperator("lt") == "<" && BinaryOperator("le") == "<="
    ensures BinaryOperator("gt") == ">" && BinaryOperator("ge") == ">="
    ensures BinaryOperator("and") == "and" && BinaryOperator("or") == "or"
    ensures BinaryOperator("in") == "in" && BinaryOperator("notIn") == "not in"
    ensures op !in {"eq", "ne", "lt", "le", "gt", "ge", "and", "or", "in", "notIn"} ==> BinaryOperator(op) == op
  {
  }

  const Unsupported := "Unsupported AST node type: "

  /** Whether the tree holds a node kind the transpiler does not handle. */
  predicate HasUnsupported(n: PNode)
  {
    match n
    case LiteralNode(_) => false
    case VariableNode(_) => false
    case FunctionCallNode(_, args) => exists i :: 0 <= i < |args| && HasUnsupported(args[i])
    case UnaryOpNode(_, x) => HasUnsupported(x)
    case BinaryOpNode(_, l, r) => HasUnsupported(l) || HasUnsupported(r)
    case FilterNode(c, p) => HasUnsupported(c) || HasUnsupported(p)
    case MapNode(c, e) => HasUnsupported(c) || HasUnsupported(e)
    case AllMatchNode(c, p) => HasUnsupported(c) || HasUnsupported(p)
    case AnyMatchNode(c, p) => HasUnsupported(c) || HasUnsupported(p)
    case NoneMatchNode(c, p) => HasUnsupported(c) || HasUnsupported(p)
    case HasSizeNode(c, s) => HasUnsupported(c) || HasUnsupported(s)
    case OtherNode(_) => true
  }

  /** Transpile `first`, then `second`, and combine; the first error wins. */
  function Both(first: Transpiled, second: Transpiled, pre: string, mid: string, post: string): (r: Transpiled)
    ensures r.Ok? <==> first.Ok? && second.Ok?
    ensures r.Ok? ==> r.code == pre + first.code + mid + second.code + post
    ensures !first.Ok? ==> r == first
    ensures first.Ok? && !second.Ok? ==> r == second
  {
    if !first.Ok? then first
    else if !second.Ok? then second
    else Ok(pre + first.code + mid + second.code + post)
  }

  /** `transpile`: dispatch on the node kind. */
  function Transpile(n: PNode): (r: Transpiled)
    ensures r.ValueError? ==> StartsWith(r.msg, Unsupported)
    decreases n, 1
  {
    match n
    case LiteralNode(v) => Ok(Literal(v))
    case VariableNode(name) => Ok("context.get_value('" + name + "')")
    case UnaryOpNode(op, x) =>
      var c := Transpile(x);
      if c.Ok? then Ok("(" + UnaryOperator(op) + " " + c.code + ")") else c
    case BinaryOpNode(op, l, r) => Both(Transpile(l), Transpile(r), "(", " " + BinaryOperator(op) + " ", ")")
    case FunctionCallNode(name, args) =>
      var cs := TranspileArgs(args);
      if cs.Ok? then Ok(name + "(" + cs.code + ")") else cs
    case FilterNode(c, p) => Both(Transpile(c), Transpile(p), "[x for x in ", " if ", "]")
    case MapNode(c, e) => SwapBoth(Transpile(c), Transpile(e), "[", " for x in ", "]")
    case AllMatchNode(c, p) => SwapBoth(Transpile(c), Transpile(p), "all(", " for x in ", ")")
    case AnyMatchNode(c, p) => SwapBoth(Transpile(c), Transpile(p), "any(", " for x in ", ")")
    case NoneMatchNode(c, p) => SwapBoth(Transpile(c), Transpile(p), "not any(", " for x in ", ")")
    case HasSizeNode(c, s) => Both(Transpile(c), Transpile(s), "(len(", ") == ", ")")
    case OtherNode(kind) =>
      assert (Unsupported + kind)[..|Unsupported|] == Unsupported;
      ValueError(Unsupported + kind)
  }

  /**
   * Like `Both`, for the forms that print the second part first: the
   * collection is still transpiled (and its error reported) first.
   */
  function SwapBoth(first: Transpiled, second: Transpiled, pre: string, mid: string, post: string): (r: Transpiled)
    ensures r.Ok? <==> first.Ok? && second.Ok?
    ensures r.Ok? ==> r.code == pre + second.code + mid + first.code + post
    ensures !first.Ok? ==> r == first
    ensures first.Ok? && !second.Ok? ==> r == second
  {
    if !first.Ok? then first
    else if !second.Ok? then second
    else Ok(pre + second.code + mid + first.code + post)
  }

  /** The arguments of a call, transpiled in order and joined with ", ". */
  function TranspileArgs(args: seq<PNode>): (r: Transpiled)
    ensures r.ValueError? ==> StartsWith(r.msg, Unsupported)
    decreases args, 0
  {
    if args == [] then Ok("")
    else
      var head := Transpile(args[0]);
      if !head.Ok? then head
      else if |args| == 1 then head
      else
        var rest := TranspileArgs(args[1..]);
        if rest.Ok? then Ok(head.code + ", " + rest.code) else rest
  }

  /** The arguments' codes in order, as `", ".join` of the individual results. */
  lemma {:induction false} TranspileArgsJoin(args: seq<PNode>)
    requires forall i :: 0 <= i < |args| ==> Transpile(args[i]).Ok?
    ensures TranspileArgs(args) == Ok(Join(seq(|args|, i requires 0 <= i < |args| => Transpile(args[i]).code), ", "))
    decreases |args|
  {
    if |args| > 1 {
      TranspileArgsJoin(args[1..]);
      var codes := seq(|args|, i requires 0 <= i < |args| => Transpile(args[i]).code);
      assert codes[1..] == seq(|args| - 1, i requires 0 <= i < |args| - 1 => Transpile(args[1..][i]).code);
    }
  }

  /** Transpilation fails exactly when the tree holds an unsupported node. */
  lemma {:induction false} TranspileFailsIffUnsupported(n: PNode)
    ensures Transpile(n).ValueError? <==> HasUnsupported(n)
    decreases n, 1
  {
    match n
    case LiteralNode(_) =>
    case VariableNode(_) =>
    case OtherNode(_) =>
    case UnaryOpNode(_, x) => TranspileFailsIffUnsupported(x);
    case BinaryOpNode(_, l, r) => TranspileFailsIffUnsupported(l); TranspileFailsIffUnsupported(r);
    case FilterNode(c, p) => TranspileFailsIffUnsupported(c); TranspileFailsIffUnsupported(p);
    case MapNode(c, e) => TranspileFailsIffUnsupported(c); TranspileFailsIffUnsupported(e);
    case AllMatchNode(c, p) => TranspileFailsIffUnsupported(c); TranspileFailsIffUnsupported(p);
    case AnyMatchNode(c, p) => TranspileFailsIffUnsupported(c); TranspileFailsIffUnsupported(p);
    case NoneMatchNode(c, p) => TranspileFailsIffUnsupported(c); TranspileFailsIffUnsupported(p);
    case HasSizeNode(c, s) => TranspileFailsIffUnsupported(c); TranspileFailsIffUnsupported(s);
    case FunctionCallNode(_, args) => ArgsFailIffUnsupported(args);
  }

  lemma {:induction false} ArgsFailIffUnsupported(args: seq<PNode>)
    ensures TranspileArgs(args).ValueError? <==> exists i :: 0 <= i < |args| && HasUnsupported(args[i])
    decreases args, 0
  {
    if args != [] {
      TranspileFailsIffUnsupported(args[0]);
      if |args| > 1 {
        ArgsFailIffUnsupported(args[1..]);
        if exists i :: 0 <= i < |args| && HasUnsupported(args[i]) {
          var i :| 0 <= i < |args| && HasUnsupported(args[i]);
          if i > 0 { assert HasUnsupported(args[1..][i - 1]); }
        }
        if exists j :: 0 <= j < |args| - 1 && HasUnsupported(args[1..][j]) {
          var j :| 0 <= j < |args| - 1 && HasUnsupported(args[1..][j]);
          assert HasUnsupported(args[j + 1]);
        }
      }
    }
  }

  /** Whatever the parser builds can be transpiled. */
  lemma {:induction false} ParsedTranspiles(n: PNode)
    requires ParserBuilt(n)
    ensures !HasUnsupported(n) && Transpile(n).Ok?
    decreases n
  {
    TranspileFailsIffUnsupported(n);
    if n.FunctionCallNode? {
      forall i | 0 <= i < |n.args|
        ensures !HasUnsupported(n.args[i])
      {
        ParsedTranspiles(n.args[i]);
      }
    }
  }

  /** A parsed digit token without a superfluous leading zero transpiles back to itself. */
  lemma IntegerLiteralRoundTrip(tok: string)
    requires AllDigits(tok) && (|tok| > 1 ==> tok[0] != '0')
    ensures Transpile(LiteralNode(JInt(DigitsValue(tok)))) == Ok(tok)
  {
    NatToStringOfDigits(tok);
  }

  /** Python reads an integer literal's code back as the same integer. */
  lemma IntegerLiteralReadsBack(i: int)
    ensures Transpile(LiteralNode(JInt(i))).Ok?
    ensures ParseInt(Transpile(LiteralNode(JInt(i))).code) == Some(i)
  {
    IntToStringParses(i);
  }

  /** A variable becomes a `context.get_value` lookup of its dotted name. */
  lemma VariableCode(name: string)
    ensures Transpile(VariableNode(name)) == Ok("context.get_value('" + name + "')")
  {
  }

  /** `not` and `!` both become Python's `not`. */
  lemma NegationCode(x: PNode)
    requires !HasUnsupported(x)
    ensures Transpile(x).Ok?
    ensures Transpile(UnaryOpNode("!", x)) == Ok("(not " + Transpile(x).code + ")")
    ensures Transpile(UnaryOpNode("not", x)) == Ok("(not " + Transpile(x).code + ")")
  {
    TranspileFailsIffUnsupported(x);
    UnaryShape("!", x);
    UnaryShape("not", x);
    assert "(" + UnaryOperator("!") + " " == "(not ";
    assert "(" + UnaryOperator("not") + " " == "(not ";
  }

  lemma UnaryShape(op: string, x: PNode)
    ensures Transpile(UnaryOpNode(op, x))
      == if Transpile(x).Ok? then Ok("(" + UnaryOperator(op) + " " + Transpile(x).code + ")") else Transpile(x)
  {
  }

  lemma BinaryShape(op: string, x: PNode, y: PNode)
    ensures Transpile(BinaryOpNode(op, x, y)) == Both(Transpile(x), Transpile(y), "(", " " + BinaryOperator(op) + " ", ")")
  {
  }

  /** A binary `notIn` becomes `not in`; an operator outside the table is kept verbatim. */
  lemma BinaryCode(x: PNode, y: PNode)
    requires !HasUnsupported(x) && !HasUnsupported(y)
    ensures Transpile(x).Ok? && Transpile(y).Ok?
    ensures Transpile(BinaryOpNode("notIn", x, y)) == Ok("(" + Transpile(x).code + " not in " + Transpile(y).code + ")")
    ensures Transpile(BinaryOpNode("xor", x, y)) == Ok("(" + Transpile(x).code + " xor " + Transpile(y).code + ")")
  {
    TranspileFailsIffUnsupported(x);
    TranspileFailsIffUnsupported(y);
    BinaryOperatorTable("xor");
    BinaryOk("notIn", x, y);
    BinaryOk("xor", x, y);
    assert " " + BinaryOperator("notIn") + " " == " not in ";
    assert " " + BinaryOperator("xor") + " " == " xor ";
  }

  lemma BinaryOk(op: string, x: PNode, y: PNode)
    requires Transpile(x).Ok? && Transpile(y).Ok?
    ensures Transpile(BinaryOpNode(op, x, y)) == Ok("(" + Transpile(x).code + (" " + BinaryOperator(op) + " ") + Transpile(y).code + ")")
  {
    BinaryShape(op, x, y);
  }

  /** The collection forms: comprehension, `all`/`any`/`not any`, and `len` comparison. */
  lemma CollectionCode(c: PNode, p: PNode)
    requires !HasUnsupported(c) && !HasUnsupported(p)
    ensures Transpile(c).Ok? && Transpile(p).Ok?
    ensures Transpile(FilterNode(c, p)) == Ok("[x for x in " + Transpile(c).code + " if " + Transpile(p).code + "]")
    ensures Transpile(MapNode(c, p)) == Ok("[" + Transpile(p).code + " for x in " + Transpile(c).code + "]")
    ensures Transpile(AllMatchNode(c, p)) == Ok("all(" + Transpile(p).code + " for x in " + Transpile(c).code + ")")
    ensures Transpile(AnyMatchNode(c, p)) == Ok("any(" + Transpile(p).code + " for x in " + Transpile(c).code + ")")
    ensures Transpile(NoneMatchNode(c, p)) == Ok("not any(" + Transpile(p).code + " for x in " + Transpile(c).code + ")")
    ensures Transpile(HasSizeNode(c, p)) == Ok("(len(" + Transpile(c).code + ") == " + Transpile(p).code + ")")
  {
    TranspileFailsIffUnsupported(c);
    TranspileFailsIffUnsupported(p);
    CollectionShape(c, p);
  }

  lemma CollectionShape(c: PNode, p: PNode)
    ensures Transpile(FilterNode(c, p)) == Both(Transpile(c), Transpile(p), "[x for x in ", " if ", "]")
    ensures Transpile(MapNode(c, p)) == SwapBoth(Transpile(c), Transpile(p), "[", " for x in ", "]")
    ensures Transpile(AllMatchNode(c, p)) == SwapBoth(Transpile(c), Transpile(p), "all(", " for x in ", ")")
    ensures Transpile(AnyMatchNode(c, p)) == SwapBoth(Transpile(c), Transpile(p), "any(", " for x in ", ")")
    ensures Transpile(NoneMatchNode(c, p)) == SwapBoth(Transpile(c), Transpile(p), "not any(", " for x in ", ")")
    ensures Transpile(HasSizeNode(c, p)) == Both(Transpile(c), Transpile(p), "(len(", ") == ", ")")
  {
    ShapeOf(FilterNode(c, p));
    ShapeOf(MapNode(c, p));
    ShapeOf(AllMatchNode(c, p));
    ShapeOf(AnyMatchNode(c, p));
    ShapeOf(NoneMatchNode(c, p));
    ShapeOf(HasSizeNode(c, p));
  }

  /** One unfolding of `Transpile` on a collection node. */
  lemma ShapeOf(n: PNode)
    requires n.FilterNode? || n.MapNode? || n.AllMatchNode? || n.AnyMatchNode? || n.NoneMatchNode? || n.HasSizeNode?
    ensures n.FilterNode? ==> Transpile(n) == Both(Transpile(n.collection), Transpile(n.condition), "[x for x in ", " if ", "]")
    ensures n.MapNode? ==> Transpile(n) == SwapBoth(Transpile(n.collection), Transpile(n.expression), "[", " for x in ", "]")
    ensures n.AllMatchNode? ==> Transpile(n) == SwapBoth(Transpile(n.collection), Transpile(n.condition), "all(", " for x in ", ")")
    ensures n.AnyMatchNode? ==> Transpile(n) == SwapBoth(Transpile(n.collection), Transpile(n.condition), "any(", " for x in ", ")")
    ensures n.NoneMatchNode? ==> Transpile(n) == SwapBoth(Transpile(n.collection), Transpile(n.condition), "not any(", " for x in ", ")")
    ensures n.HasSizeNode? ==> Transpile(n) == Both(Transpile(n.collection), Transpile(n.size), "(len(", ") == ", ")")
  {
  }

  /** An unsupported collection is reported before an unsupported condition. */
  lemma FirstErrorWins(a: string, b: string)
    ensures Transpile(MapNode(OtherNode(a), OtherNode(b))) == ValueError(Unsupported + a)
    ensures Transpile(FunctionCallNode("f", [VariableNode("x"), OtherNode(a), OtherNode(b)])) == ValueError(Unsupported + a)
  {
    var args := [VariableNode("x"), OtherNode(a), OtherNode(b)];
    assert args[1..] == [OtherNode(a), OtherNode(b)];
    assert Transpile(args[0]).Ok?;
    assert Transpile(args[1]) == ValueError(Unsupported + a);
    assert TranspileArgs(args[1..]) == ValueError(Unsupported + a);
    assert TranspileArgs(args) == ValueError(Unsupported + a);
  }
}
