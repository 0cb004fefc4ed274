/**
 * The expression tokenizer and the recursive-descent parser over a token
 * list with a cursor. The parser recognises integer literals, function
 * calls `name(arg, ...)` and dotted variables; everything else is left to
 * the (absent) operator layer, so the first primary expression is the
 * whole result.
 *
 * The node datatype mirrors the fields the parser and the transpiler
 * actually read (`operator`, `collection`, `size`, `args`, `func_name`),
 * which differ from the expression-tree catalogue in `SpelAst`.
 */
module SpelParser {
  import opened Common
  import opened JsonData

  datatype PNode =
    | LiteralNode(value: Json)
    | VariableNode(name: string)
    | FunctionCallNode(funcName: string, args: seq<PNode>)
    | UnaryOpNode(operator: string, operand: PNode)
    | BinaryOpNode(operator: string, left: PNode, right: PNode)
    | FilterNode(collection: PNode, condition: PNode)
    | MapNode(collection: PNode, expression: PNode)
    | AllMatchNode(collection: PNode, condition: PNode)
    | AnyMatchNode(collection: PNode, condition: PNode)
    | NoneMatchNode(collection: PNode, condition: PNode)
    | HasSizeNode(collection: PNode, size: PNode)
    /** Any other node class, named by its class name. */
    | OtherNode(kind: string)

  /** The node kinds the parser itself builds. */
  predicate ParserBuilt(n: PNode)
  {
    match n
    case LiteralNode(v) => v.JInt?
    case VariableNode(_) => true
    case FunctionCallNode(_, args) => forall i :: 0 <= i < |args| ==> ParserBuilt(args[i])
    case _ => false
  }

  // ===========================================================================
  // Tokenizer: findall of (\w+|[().,[\]]|==|!=|<=|>=|<|>|&&|\|\||!)
  // ===========================================================================

  predicate IsPunct(c: char) { c in "().,[]" }

  predicate IsTwoCharOperator(s: string) { s in {"==", "!=", "<=", ">=", "&&", "||"} }

  predicate IsOneCharOperator(c: char) { c in "<>!" }

  /** A token the pattern can produce. */
  predicate ValidToken(tok: string)
  {
    (|tok| > 0 && forall i :: 0 <= i < |tok| ==> IsWordChar(tok[i])) ||
    (|tok| == 1 && (IsPunct(tok[0]) || IsOneCharOperator(tok[0]))) ||
    IsTwoCharOperator(tok)
  }

  /** Length of the longest prefix of word characters. */
  function WordRun(s: string): (n: nat)
    ensures n <= |s|
    ensures forall i :: 0 <= i < n ==> IsWordChar(s[i])
    ensures n < |s| ==> !IsWordChar(s[n])
  {
    if |s| == 0 || !IsWordChar(s[0]) then 0 else 1 + WordRun(s[1..])
  }

  /**
   * One step of the scan of `re.findall` on a non-empty string: the first
   * alternative that matches at the start wins (a maximal word run, one
   * bracket or separator, a two-character operator, a one-character
   * operator); a character no alternative matches is skipped. Returns the
   * number of characters consumed and whether they form a token.
   */
  function Step(s: string): (r: (nat, bool))
    requires |s| > 0
    ensures 1 <= r.0 <= |s|
    ensures r.1 ==> ValidToken(s[..r.0])
  {
    if IsWordChar(s[0]) then (WordRun(s), true)
    else if IsPunct(s[0]) then (1, true)
    else if |s| >= 2 && IsTwoCharOperator(s[..2]) then (2, true)
    else if IsOneCharOperator(s[0]) then (1, true)
    else (1, false)
  }

  /** `re.findall` with the token pattern: the tokens of the successive steps. */
  function Tokenize(s: string): (tokens: seq<string>)
    ensures forall i :: 0 <= i < |tokens| ==> ValidToken(tokens[i])
    decreases |s|
  {
    if |s| == 0 then []
    else
      var st := Step(s);
      (if st.1 then [s[..st.0]] else []) + Tokenize(s[st.0..])
  }

  /** One step of the tokenizer on a non-empty text. */
  lemma TokenizeUnfold(s: string)
    requires |s| > 0
    ensures Tokenize(s) == (if Step(s).1 then [s[..Step(s).0]] else []) + Tokenize(s[Step(s).0..])
  {
  }

  /** A word run stops at a space. */
  lemma {:induction false} WordRunBeforeSpace(a: string, b: string)
    ensures WordRun(a + " " + b) == WordRun(a)
    decreases |a|
  {
    var s := a + " " + b;
    if |a| > 0 && IsWordChar(a[0]) {
      assert s[1..] == a[1..] + " " + b;
      WordRunBeforeSpace(a[1..], b);
    }
  }

  /** A step never reaches past the end of `a` into a following space. */
  lemma StepBeforeSpace(a: string, b: string)
    requires |a| > 0
    ensures Step(a + " " + b) == Step(a)
  {
    var s := a + " " + b;
    assert s[0] == a[0];
    if IsWordChar(a[0]) {
      WordRunBeforeSpace(a, b);
    } else if !IsPunct(a[0]) {
      if |a| == 1 {
        assert s[..2] == [a[0], ' '];
      } else {
        assert s[..2] == a[..2];
      }
    }
  }

  /** A space separates tokens: nothing is matched across it and it is itself dropped. */
  lemma {:induction false} TokenizeSpace(a: string, b: string)
    ensures Tokenize(a + " " + b) == Tokenize(a) + Tokenize(b)
    decreases |a|
  {
    var s := a + " " + b;
    if |a| == 0 {
      assert s[1..] == b;
      assert Step(s) == (1, false);
    } else {
      StepBeforeSpace(a, b);
      var n := Step(a).0;
      var head: seq<string> := if Step(a).1 then [a[..n]] else [];
      assert s[..n] == a[..n];
      assert s[n..] == a[n..] + " " + b;
      TokenizeUnfold(s);
      TokenizeUnfold(a);
      TokenizeSpace(a[n..], b);
      ConcatAssoc(head, Tokenize(a[n..]), Tokenize(b));
    }
  }

  /** A run of word characters is one token. */
  lemma TokenizeWord(w: string)
    requires |w| > 0 && forall i :: 0 <= i < |w| ==> IsWordChar(w[i])
    ensures Tokenize(w) == [w]
  {
    assert WordRun(w) == |w|;
    assert Step(w) == (|w|, true);
    assert w[..|w|] == w;
    assert Tokenize(w[|w|..]) == [] by { assert w[|w|..] == []; }
  }

  /** The shape of the two-character operators: `==`, `!=`, `<=`, `>=`, `&&`, `||`. */
  lemma TwoCharOperatorShape(x: string)
    requires IsTwoCharOperator(x)
    ensures |x| == 2 && !IsWordChar(x[0]) && !IsPunct(x[0])
    ensures (x[0] in "<>!=" && x[1] == '=') || x == "&&" || x == "||"
  {
  }

  /**
   * The step takes the longest token of the pattern that starts `s`, and
   * drops one character exactly when no token starts there.
   */
  lemma StepLongestToken(s: string)
    requires |s| > 0
    ensures Step(s).1 ==> forall k :: Step(s).0 < k <= |s| ==> !ValidToken(s[..k])
    ensures !Step(s).1 <==> forall k :: 1 <= k <= |s| ==> !ValidToken(s[..k])
  {
    var st := Step(s);
    forall k | 1 <= k <= |s| && (st.1 ==> st.0 < k)
      ensures !ValidToken(s[..k])
    {
      var u := s[..k];
      assert u[0] == s[0];
      if IsTwoCharOperator(u) {
        TwoCharOperatorShape(u);
      }
      if !IsWordChar(s[0]) {
        assert !(|u| > 0 && forall i :: 0 <= i < |u| ==> IsWordChar(u[i]));
      } else {
        assert u[st.0] == s[st.0];
      }
    }
  }

  /** A maximal run of word characters is one token. */
  lemma {:induction false} WordRunOf(w: string, r: string)
    requires forall i :: 0 <= i < |w| ==> IsWordChar(w[i])
    requires r == [] || !IsWordChar(r[0])
    ensures WordRun(w + r) == |w|
    decreases |w|
  {
    if w == [] {
      assert w + r == r;
    } else {
      assert (w + r)[1..] == w[1..] + r;
      WordRunOf(w[1..], r);
    }
  }

  /** Tokenizing a maximal word run: the run, then the rest. */
  lemma TokenizeWordRun(w: string, r: string)
    requires |w| > 0 && forall i :: 0 <= i < |w| ==> IsWordChar(w[i])
    requires r == [] || !IsWordChar(r[0])
    ensures Tokenize(w + r) == [w] + Tokenize(r)
  {
    var s := w + r;
    WordRunOf(w, r);
    assert s[0] == w[0];
    assert s[..|w|] == w && s[|w|..] == r;
  }

  /** A bracket or separator is a token of its own, whatever follows it. */
  lemma TokenizePunct(c: char, r: string)
    requires IsPunct(c)
    ensures Tokenize([c] + r) == [[c]] + Tokenize(r)
  {
    var s := [c] + r;
    assert s[0] == c && s[..1] == [c] && s[1..] == r;
  }

  /** A two-character operator is taken whole, whatever follows it. */
  lemma TokenizeTwoChar(op: string, r: string)
    requires IsTwoCharOperator(op)
    ensures Tokenize(op + r) == [op] + Tokenize(r)
  {
    TwoCharOperatorShape(op);
    var s := op + r;
    assert s[0] == op[0] && s[..2] == op && s[2..] == r;
  }

  /** `<`, `>` and `!` are one-character tokens unless `=` follows them. */
  lemma TokenizeOneChar(c: char, r: string)
    requires IsOneCharOperator(c) && (r == [] || r[0] != '=')
    ensures Tokenize([c] + r) == [[c]] + Tokenize(r)
  {
    var s := [c] + r;
    assert s[..1] == [c] && s[1..] == r;
    OneCharStep(c, r);
    TokenizeUnfold(s);
  }

  lemma OneCharStep(c: char, r: string)
    requires IsOneCharOperator(c) && (r == [] || r[0] != '=')
    ensures Step([c] + r) == (1, true)
  {
    var s := [c] + r;
    assert s[0] == c;
    if |s| >= 2 {
      assert s[..2] == [c, r[0]];
    }
  }

  /** A character that starts no token is dropped. */
  lemma TokenizeDrop(c: char, r: string)
    requires !IsWordChar(c) && !IsPunct(c) && !IsOneCharOperator(c)
    requires r == [] || !IsTwoCharOperator([c, r[0]])
    ensures Tokenize([c] + r) == Tokenize(r)
  {
    var s := [c] + r;
    assert s[0] == c && s[1..] == r;
    if |s| >= 2 {
      assert s[..2] == [c, r[0]];
    }
  }

  /** Two-character operators win over their one-character prefixes. */
  lemma TokenizeTwoCharOperator()
    ensures Tokenize("<=") == ["<="]
  {
    assert "<="[..2] == "<=";
    assert Step("<=") == (2, true);
    assert "<="[2..] == [];
  }

  /** `!` alone is a token when no `=` follows it. */
  lemma TokenizeNot()
    ensures Tokenize("!x") == ["!", "x"]
  {
    var s := "!x";
    assert !IsTwoCharOperator(s[..2]) by { assert s[..2][1] == 'x'; }
    assert Step(s) == (1, true);
    assert s[1..] == "x" && s[..1] == "!";
    TokenizeWord("x");
  }

  /** Quotes match no alternative and are dropped, so a quoted string loses its quotes. */
  lemma TokenizeDropsQuotes()
    ensures Tokenize("'a'") == ["a"]
    ensures Tokenize("=") == []
  {
    var s := "'a'";
    assert Step(s) == (1, false);
    var u := s[1..];
    assert u == "a'";
    assert WordRun(u) == 1 by { assert WordRun(u[1..]) == 0; }
    assert Step(u) == (1, true);
    assert u[..1] == "a" && u[1..] == "'";
    assert Step("'") == (1, false);
    assert "'"[1..] == [];
    assert Step("=") == (1, false);
    assert "="[1..] == [];
  }

  // ===========================================================================
  // Parser, as functions of the token list and the cursor
  // ===========================================================================

  datatype PResult =
    | Parsed(node: PNode, next: nat)
    | SyntaxError(msg: string)
    /** The argument loop stops making progress and never returns. */
    | Diverges

  const EndOfInput := "Unexpected end of expression"
  const MissingClose := "Expected ')' after function arguments"

  /** `isalnum()` or the single underscore: the tokens a variable path is made of. */
  predicate IsPathPart(tok: string) { AllAlnum(tok) || tok == "_" }

  /** Tokens a variable consumes: path parts and the dots between them. */
  predicate IsPathToken(tok: string) { IsPathPart(tok) || tok == "." }

  /** The first position at or after `p` whose token a variable does not consume. */
  function VarEnd(t: seq<string>, p: nat): (q: nat)
    requires p <= |t|
    ensures p <= q <= |t|
    ensures forall i :: p <= i < q ==> IsPathToken(t[i])
    ensures q < |t| ==> !IsPathToken(t[q])
    decreases |t| - p
  {
    if p < |t| && IsPathToken(t[p]) then VarEnd(t, p + 1) else p
  }

  /** The path parts among a run of path tokens (the dots dropped). */
  function PathParts(toks: seq<string>): (parts: seq<string>)
    ensures |parts| <= |toks|
    ensures forall i :: 0 <= i < |parts| ==> parts[i] != "."
  {
    if toks == [] then []
    else PathParts(toks[..|toks| - 1]) + (if toks[|toks| - 1] == "." then [] else [toks[|toks| - 1]])
  }

  /** Dots are dropped from a concatenation piece by piece. */
  lemma {:induction false} PathPartsConcat(a: seq<string>, b: seq<string>)
    ensures PathParts(a + b) == PathParts(a) + PathParts(b)
    decreases |b|
  {
    if b == [] {
      assert a + b == a;
    } else {
      var b' := b[..|b| - 1];
      assert (a + b)[..|a + b| - 1] == a + b';
      assert (a + b)[|a + b| - 1] == b[|b| - 1];
      PathPartsConcat(a, b');
    }
  }

  /** A single token is a part unless it is the dot. */
  lemma PathPartsOne(x: string)
    ensures PathParts([x]) == (if x == "." then [] else [x])
  {
    assert [x][..0] == [];
  }

  /**
   * One more path token: the variable's end is unchanged, and the token
   * joins the path parts unless it is a dot.
   */
  lemma PathTokenStep(t: seq<string>, a: nat, b: nat)
    requires a <= b < |t| && IsPathToken(t[b])
    ensures VarEnd(t, b) == VarEnd(t, b + 1)
    ensures PathParts(t[a..b + 1]) == PathParts(t[a..b]) + (if IsPathPart(t[b]) then [t[b]] else [])
  {
    assert t[a..b + 1][..b - a] == t[a..b];
    if IsPathPart(t[b]) {
      assert t[b][0] != '.';
    }
  }

  /**
   * `_parse_variable`: the maximal run of path tokens from `p` on is
   * consumed, and the name is its parts joined with '.'.
   */
  function Variable(t: seq<string>, p: nat): (r: PResult)
    requires p <= |t|
    ensures r.Parsed? && r.node.VariableNode? && p <= r.next <= |t|
    ensures forall i :: p <= i < r.next ==> IsPathToken(t[i])
    ensures r.next < |t| ==> !IsPathToken(t[r.next])
    ensures r.node.name == Join(PathParts(t[p..r.next]), ".")
  {
    var q := VarEnd(t, p);
    Parsed(VariableNode(Join(PathParts(t[p..q]), ".")), q)
  }

  lemma VariableUpTo(t: seq<string>, p: nat)
    requires p <= |t|
    ensures Variable(t, p) == Parsed(VariableNode(Join(PathParts(t[p..VarEnd(t, p)]), ".")), VarEnd(t, p))
  {
  }

  /** `_parse_primary`. */
  function Primary(t: seq<string>, p: nat): (r: PResult)
    requires p <= |t|
    ensures r.Parsed? ==> p <= r.next <= |t| && ParserBuilt(r.node)
    ensures r.Parsed? && r.next == p ==> r.node == VariableNode("")
    decreases |t| - p, 2
  {
    if p >= |t| then SyntaxError(EndOfInput)
    else if AllDigits(t[p]) then Parsed(LiteralNode(JInt(DigitsValue(t[p]))), p + 1)
    else if p + 1 < |t| && t[p + 1] == "(" then FunctionCall(t, p)
    else
      var r := Variable(t, p);
      assert r.next == p ==> t[p..r.next] == [];
      r
  }

  /** `_parse_function_call` at the name token. */
  function FunctionCall(t: seq<string>, p: nat): (r: PResult)
    requires p < |t|
    ensures r.Parsed? ==> p + 2 < r.next <= |t| && ParserBuilt(r.node)
    ensures r.Parsed? ==> r.node.FunctionCallNode? && r.node.funcName == t[p] && t[r.next - 1] == ")"
    decreases |t| - p, 1
  {
    if p + 1 >= |t| || t[p + 1] != "(" then
      SyntaxError("Expected '(' after function name '" + t[p] + "'")
    else Args(t[p], t, p + 2, [])
  }

  /**
   * The argument loop from cursor `q` with the arguments `acc` parsed so
   * far: commas are skipped, every other token up to `)` starts an argument.
   * An argument that consumes nothing leaves the cursor where it was, so
   * the loop never ends (each turn appends another empty variable).
   */
  function Args(name: string, t: seq<string>, q: nat, acc: seq<PNode>): (r: PResult)
    requires q <= |t|
    requires forall i :: 0 <= i < |acc| ==> ParserBuilt(acc[i])
    ensures r.Parsed? ==> q < r.next <= |t| && ParserBuilt(r.node)
    ensures r.Parsed? ==> r.node.FunctionCallNode? && r.node.funcName == name && t[r.next - 1] == ")"
    ensures r.Parsed? ==> |acc| <= |r.node.args| && r.node.args[..|acc|] == acc
    decreases |t| - q + 1, 0
  {
    if q < |t| && t[q] != ")" then
      if t[q] == "," then Args(name, t, q + 1, acc)
      else
        match Primary(t, q)
        case SyntaxError(m) => SyntaxError(m)
        case Diverges => Diverges
        case Parsed(n, q') =>
          if q' == q then Diverges
          else
            var r := Args(name, t, q', acc + [n]);
            assert r.Parsed? ==> r.node.args[..|acc|] == (acc + [n])[..|acc|];
            r
    else if q >= |t| then SyntaxError(MissingClose)
    else Parsed(FunctionCallNode(name, acc), q + 1)
  }

  /** `parse`: the first primary expression of the token list; trailing tokens are not examined. */
  function Parse(expression: string): (r: PResult)
    ensures r.Parsed? ==> ParserBuilt(r.node) && r.next <= |Tokenize(expression)|
    ensures Tokenize(expression) == [] ==> r == SyntaxError(EndOfInput)
  {
    Primary(Tokenize(expression), 0)
  }

  // ---------------------------------------------------------------------------
  // Properties
  // ---------------------------------------------------------------------------

  /** An expression without tokens is a syntax error. */
  lemma ParseNoTokens(expression: string)
    requires Tokenize(expression) == []
    ensures Parse(expression) == SyntaxError(EndOfInput)
  {
  }

  /** A digit token is an integer literal and the cursor moves by exactly one. */
  lemma PrimaryDigits(t: seq<string>, p: nat)
    requires p < |t| && AllDigits(t[p])
    ensures Primary(t, p) == Parsed(LiteralNode(JInt(DigitsValue(t[p]))), p + 1)
  {
  }

  /** A variable is a run of path tokens; the token that ends it is not consumed. */
  lemma VariableStopsAtOtherToken(t: seq<string>, p: nat)
    requires p < |t| && !AllDigits(t[p]) && !(p + 1 < |t| && t[p + 1] == "(")
    ensures Primary(t, p).Parsed? && Primary(t, p).node.VariableNode?
    ensures forall i :: p <= i < Primary(t, p).next ==> IsPathToken(t[i])
    ensures Primary(t, p).next < |t| ==> !IsPathToken(t[Primary(t, p).next])
  {
  }

  /** Dots are skipped: `x . y` and `x y` both name the path `x.y`, up to the first token a path cannot hold. */
  lemma VariableJoinsParts(x: string, y: string, stop: string)
    requires IsPathPart(x) && IsPathPart(y) && !IsPathToken(stop)
    ensures Variable([x, ".", y, stop], 0) == Parsed(VariableNode(x + "." + y), 3)
    ensures Variable([x, y], 0) == Parsed(VariableNode(x + "." + y), 2)
  {
    assert x != "." && y != "." by {
      assert !AllAlnum(".") by { assert "."[0] == '.'; }
    }
    var t := [x, ".", y, stop];
    assert VarEnd(t, 3) == 3;
    assert VarEnd(t, 0) == 3;
    assert PathParts([x]) == [x] by { assert [x][..0] == []; }
    assert PathParts([x, "."]) == [x] by { assert [x, "."][..1] == [x]; }
    var run := t[0..3];
    assert run == [x, ".", y] && run[..2] == [x, "."];
    assert PathParts(run) == [x, y];
    var u := [x, y];
    assert VarEnd(u, 0) == 2;
    assert u[0..2] == u && u[..1] == [x];
    assert PathParts(u) == [x, y];
    assert Join([x, y], ".") == x + "." + y by {
      assert [x, y][1..] == [y];
    }
  }

  /** The tokens of `x1 . x2 . … . xn`. */
  function Dotted(xs: seq<string>): (t: seq<string>)
    ensures |xs| > 0 ==> |t| == 2 * |xs| - 1
    ensures xs == [] ==> t == []
  {
    if |xs| <= 1 then xs else Dotted(xs[..|xs| - 1]) + [".", xs[|xs| - 1]]
  }

  /** Path parts contain no dot. */
  lemma PathPartNotDot(x: string)
    requires IsPathPart(x)
    ensures x != "."
  {
    if AllAlnum(x) {
      assert x[0] != '.';
    }
  }

  /** Without dots every token is a part. */
  lemma {:induction false} PathPartsOfParts(xs: seq<string>)
    requires forall i :: 0 <= i < |xs| ==> IsPathPart(xs[i])
    ensures PathParts(xs) == xs
    decreases |xs|
  {
    if xs != [] {
      var init, last := xs[..|xs| - 1], xs[|xs| - 1];
      PathPartsOfParts(init);
      PathPartNotDot(last);
      assert init + [last] == xs;
    }
  }

  /** With dots between the parts, the parts are exactly recovered. */
  lemma {:induction false} PathPartsOfDotted(xs: seq<string>)
    requires forall i :: 0 <= i < |xs| ==> xs[i] != "."
    ensures PathParts(Dotted(xs)) == xs
    decreases |xs|
  {
    if |xs| == 1 {
      PathPartsOne(xs[0]);
      assert xs == [xs[0]];
    } else if |xs| > 1 {
      var init, last := xs[..|xs| - 1], xs[|xs| - 1];
      assert Dotted(xs) == Dotted(init) + [".", last];
      PathPartsOfDotted(init);
      DotThenPart(last);
      PathPartsConcat(Dotted(init), [".", last]);
      assert init + [last] == xs;
    }
  }

  /** The dotted form of path parts is a run of path tokens. */
  lemma {:induction false} DottedTokens(xs: seq<string>)
    requires forall i :: 0 <= i < |xs| ==> IsPathPart(xs[i])
    ensures forall i :: 0 <= i < |Dotted(xs)| ==> IsPathToken(Dotted(xs)[i])
    decreases |xs|
  {
    if |xs| > 1 {
      var init := xs[..|xs| - 1];
      DottedTokens(init);
      var d := Dotted(xs);
      assert d == Dotted(init) + [".", xs[|xs| - 1]];
      forall i | 0 <= i < |d|
        ensures IsPathToken(d[i])
      {
        if i < |Dotted(init)| {
          assert d[i] == Dotted(init)[i];
        }
      }
    }
  }

  lemma DotThenPart(x: string)
    requires x != "."
    ensures PathParts([".", x]) == [x]
  {
    PathPartsConcat(["."], [x]);
    PathPartsOne(".");
    PathPartsOne(x);
    assert [".", x] == ["."] + [x];
  }

  /** The variable over a maximal run of path tokens is named by the run's parts. */
  lemma VariableOfRun(run: seq<string>, rest: seq<string>)
    requires forall i :: 0 <= i < |run| ==> IsPathToken(run[i])
    requires rest == [] || !IsPathToken(rest[0])
    ensures Variable(run + rest, 0) == Parsed(VariableNode(Join(PathParts(run), ".")), |run|)
  {
    var t := run + rest;
    assert t[0..|run|] == run;
  }

  /**
   * For any path parts `x1 … xn` followed by a token a path cannot hold,
   * `x1 . x2 . … . xn` and `x1 x2 … xn` both name the variable `x1.x2.….xn`.
   */
  lemma VariableNamesParts(xs: seq<string>, rest: seq<string>)
    requires forall i :: 0 <= i < |xs| ==> IsPathPart(xs[i])
    requires rest == [] || !IsPathToken(rest[0])
    ensures Variable(Dotted(xs) + rest, 0) == Parsed(VariableNode(Join(xs, ".")), |Dotted(xs)|)
    ensures Variable(xs + rest, 0) == Parsed(VariableNode(Join(xs, ".")), |xs|)
  {
    PathPartsOfParts(xs);
    forall i | 0 <= i < |xs|
      ensures xs[i] != "."
    {
      PathPartNotDot(xs[i]);
    }
    PathPartsOfDotted(xs);
    DottedTokens(xs);
    VariableOfRun(Dotted(xs), rest);
    VariableOfRun(xs, rest);
  }

  /** A token with an underscore inside (`a_b`) is not alphanumeric, so a variable there is empty. */
  lemma UnderscoreEndsVariable()
    ensures Variable(["a_b"], 0) == Parsed(VariableNode(""), 0)
  {
    assert !AllAlnum("a_b") by { assert "a_b"[1] == '_'; }
  }

  /** An argument that consumes nothing makes the call loop forever, e.g. `f(a_b)`. */
  lemma ArgumentWithoutProgressDiverges()
    ensures Primary(["f", "(", "a_b", ")"], 0) == Diverges
  {
    var t := ["f", "(", "a_b", ")"];
    assert !AllDigits("f") by { assert !IsDigit("f"[0]); }
    assert !AllDigits("a_b") by { assert !IsDigit("a_b"[0]); }
    assert !AllAlnum("a_b") by { assert "a_b"[1] == '_'; }
    assert VarEnd(t, 2) == 2;
    assert Primary(t, 2) == Parsed(VariableNode(""), 2) by {
      assert t[2..2] == [];
    }
  }

  /** A call whose tokens hold no `)` after its `(` never parses. */
  lemma MissingCloseParen(t: seq<string>, p: nat)
    requires p + 1 < |t| && t[p + 1] == "(" && !AllDigits(t[p])
    requires forall i :: p + 2 <= i < |t| ==> t[i] != ")"
    ensures !Primary(t, p).Parsed?
  {
    assert Primary(t, p) == FunctionCall(t, p);
  }

  /** A call that runs out of tokens right after `(` gets the missing-parenthesis message. */
  lemma MissingCloseParenMessage(name: string)
    ensures Primary([name, "("], 0) == (if AllDigits(name) then Parsed(LiteralNode(JInt(DigitsValue(name))), 1)
                                        else SyntaxError(MissingClose))
  {
    var t := [name, "("];
    if !AllDigits(name) {
      assert FunctionCall(t, 0) == Args(name, t, 2, []);
    }
  }

  /** Commas are skipped and arguments are collected in order: `f(1, 2)`. */
  lemma CallArgumentsInOrder(name: string)
    requires !AllDigits(name)
    ensures Primary([name, "(", "1", ",", "2", ")"], 0)
         == Parsed(FunctionCallNode(name, [LiteralNode(JInt(1)), LiteralNode(JInt(2))]), 6)
  {
    var t := [name, "(", "1", ",", "2", ")"];
    assert AllDigits("1") && AllDigits("2");
    assert DigitsValue("1") == 1 && DigitsValue("2") == 2;
    assert Primary(t, 2) == Parsed(LiteralNode(JInt(1)), 3);
    assert Primary(t, 4) == Parsed(LiteralNode(JInt(2)), 5);
    var one := [LiteralNode(JInt(1))];
    var both := one + [LiteralNode(JInt(2))];
    assert Args(name, t, 5, both) == Parsed(FunctionCallNode(name, both), 6);
    assert Args(name, t, 4, one) == Args(name, t, 5, both);
    assert Args(name, t, 3, one) == Args(name, t, 4, one);
    assert [] + one == one;
    assert Args(name, t, 2, []) == Args(name, t, 3, one);
    assert FunctionCall(t, 0) == Args(name, t, 2, []);
    assert t[0] == name && t[1] == "(";
    assert Primary(t, 0) == FunctionCall(t, 0);
    assert both == [LiteralNode(JInt(1)), LiteralNode(JInt(2))];
  }

  /** Every token from `a` up to `b` is a comma. */
  predicate Commas(t: seq<string>, a: nat, b: nat)
  {
    b <= |t| && forall i :: a <= i < b ==> t[i] == ","
  }

  /** The primary expression at `s` parses to `a`, consuming at least one token and not reaching `close`. */
  ghost predicate ArgAt(t: seq<string>, s: nat, a: PNode, close: nat)
  {
    s < close <= |t| && Primary(t, s).Parsed? && s < Primary(t, s).next <= close && Primary(t, s).node == a
  }

  /** Only commas lie between the end of the primary expression at `s` and position `b`. */
  ghost predicate CommasAfter(t: seq<string>, s: nat, b: nat)
  {
    s < |t| && Primary(t, s).Parsed? && Primary(t, s).next <= b && Commas(t, Primary(t, s).next, b)
  }

  /**
   * How the arguments `args[from..]` of a call lie in the tokens from `q`
   * up to the call's end `next`, just after its `)`: the i-th of them is
   * the primary expression parsed at `starts[i]`; and only commas lie
   * before the first, between one argument's end and the next one's
   * start, and after the last.
   */
  ghost predicate ArgsLayout(t: seq<string>, q: nat, starts: seq<nat>, args: seq<PNode>, from: nat, next: nat)
  {
    from <= |args| && q < next <= |t| && t[next - 1] == ")" && |starts| == |args| - from
    && (forall i :: 0 <= i < |starts| ==> q <= starts[i] && ArgAt(t, starts[i], args[from + i], next - 1))
    && (forall i :: 0 <= i < |starts| - 1 ==> CommasAfter(t, starts[i], starts[i + 1]))
    && (|starts| == 0 ==> Commas(t, q, next - 1))
    && (|starts| > 0 ==> Commas(t, q, starts[0]) && CommasAfter(t, starts[|starts| - 1], next - 1))
  }

  /** The layout of a whole call's arguments, for the call at `p`: they start after its `(`. */
  ghost predicate CallLayout(t: seq<string>, p: nat, starts: seq<nat>, args: seq<PNode>, next: nat)
  {
    ArgsLayout(t, p + 2, starts, args, 0, next)
  }

  /**
   * A parsed call's arguments, for every token list: they are the primary
   * expressions at increasing positions inside the parentheses, in order,
   * with only commas around them, and the call ends just after the `)`.
   */
  lemma FunctionCallArguments(t: seq<string>, p: nat)
    requires p < |t|
    ensures FunctionCall(t, p).Parsed? ==>
      p + 1 < |t| && t[p + 1] == "(" &&
      exists starts :: CallLayout(t, p, starts, FunctionCall(t, p).node.args, FunctionCall(t, p).next)
  {
    if p + 1 < |t| && t[p + 1] == "(" {
      ArgsArguments(t[p], t, p + 2, []);
      var r := FunctionCall(t, p);
      if r.Parsed? {
        var starts :| ArgsLayout(t, p + 2, starts, r.node.args, 0, r.next);
        assert CallLayout(t, p, starts, r.node.args, r.next);
      }
    }
  }

  /** The argument loop from `q`: the arguments it adds after `acc` lie as `ArgsLayout` says. */
  lemma {:induction false} ArgsArguments(name: string, t: seq<string>, q: nat, acc: seq<PNode>)
    requires q <= |t|
    requires forall i :: 0 <= i < |acc| ==> ParserBuilt(acc[i])
    ensures Args(name, t, q, acc).Parsed? ==>
      exists starts :: ArgsLayout(t, q, starts, Args(name, t, q, acc).node.args, |acc|, Args(name, t, q, acc).next)
    decreases |t| - q
  {
    var r := Args(name, t, q, acc);
    if r.Parsed? {
      if q < |t| && t[q] != ")" {
        if t[q] == "," {
          assert r == Args(name, t, q + 1, acc);
          ArgsArguments(name, t, q + 1, acc);
          var starts :| ArgsLayout(t, q + 1, starts, r.node.args, |acc|, r.next);
          LayoutAfterComma(t, q, starts, r.node.args, |acc|, r.next);
        } else {
          ArgsParsedStep(name, t, q, acc);
          var n, q' := Primary(t, q).node, Primary(t, q).next;
          ArgsArguments(name, t, q', acc + [n]);
          var starts :| ArgsLayout(t, q', starts, r.node.args, |acc| + 1, r.next);
          LayoutAfterArgument(t, q, q', starts, r.node.args, |acc|, r.next);
        }
      } else {
        assert ArgsLayout(t, q, [], r.node.args, |acc|, r.next);
      }
    }
  }

  /** A parsed call whose loop meets an argument at `q`: that argument advances and heads the rest. */
  lemma ArgsParsedStep(name: string, t: seq<string>, q: nat, acc: seq<PNode>)
    requires q < |t| && t[q] != ")" && t[q] != ","
    requires forall i :: 0 <= i < |acc| ==> ParserBuilt(acc[i])
    requires Args(name, t, q, acc).Parsed?
    ensures Primary(t, q).Parsed? && q < Primary(t, q).next
    ensures Args(name, t, q, acc) == Args(name, t, Primary(t, q).next, acc + [Primary(t, q).node])
    ensures Args(name, t, q, acc).node.args[|acc|] == Primary(t, q).node
  {
    var r := Args(name, t, q, acc);
    var n := Primary(t, q).node;
    assert r.node.args[..|acc| + 1] == acc + [n];
  }

  /** A comma in front of a layout extends it to start at the comma. */
  lemma LayoutAfterComma(t: seq<string>, q: nat, starts: seq<nat>, args: seq<PNode>, from: nat, next: nat)
    requires q < |t| && t[q] == ","
    requires ArgsLayout(t, q + 1, starts, args, from, next)
    ensures ArgsLayout(t, q, starts, args, from, next)
  {
  }

  /** An argument parsed at `q`, ending at `q2` where a layout starts, extends the layout by that argument. */
  lemma LayoutAfterArgument(t: seq<string>, q: nat, q2: nat, starts: seq<nat>, args: seq<PNode>, from: nat, next: nat)
    requires from < |args|
    requires q < q2 && q < |t| && Primary(t, q) == Parsed(args[from], q2)
    requires ArgsLayout(t, q2, starts, args, from + 1, next)
    ensures ArgsLayout(t, q, [q] + starts, args, from, next)
  {
    var s := [q] + starts;
    forall i | 0 <= i < |s|
      ensures q <= s[i] && ArgAt(t, s[i], args[from + i], next - 1)
    {
      if i > 0 {
        assert s[i] == starts[i - 1];
        assert from + i == from + 1 + (i - 1);
      }
    }
    forall i | 0 <= i < |s| - 1
      ensures CommasAfter(t, s[i], s[i + 1])
    {
      if i > 0 {
        assert s[i] == starts[i - 1] && s[i + 1] == starts[i];
      }
    }
    if |starts| > 0 {
      assert s[|s| - 1] == starts[|starts| - 1];
    }
  }

  // ===========================================================================
  // The parser object: token list and cursor, advanced step by step
  // ===========================================================================

  class SpelParserState {
    var tokens: seq<string>
    var currentPos: nat

    constructor ()
      ensures tokens == [] && currentPos == 0
    {
      tokens := [];
      currentPos := 0;
    }

    /** `parse`: tokenize, reset the cursor, parse one primary expression. */
    method Parse(expression: string) returns (r: PResult)
      modifies this
      ensures tokens == Tokenize(expression)
      ensures r == Primary(tokens, 0)
      ensures r.Parsed? ==> currentPos == r.next
    {
      tokens := Tokenize(expression);
      currentPos := 0;
      r := ParsePrimary();
    }

    method ParsePrimary() returns (r: PResult)
      requires currentPos <= |tokens|
      modifies this
      ensures tokens == old(tokens)
      ensures r == Primary(tokens, old(currentPos))
      ensures r.Parsed? ==> currentPos == r.next
      ensures currentPos <= |tokens|
      decreases |tokens| - currentPos, 2
    {
      if currentPos >= |tokens| {
        return SyntaxError(EndOfInput);
      }
      var token := tokens[currentPos];
      if AllDigits(token) {
        currentPos := currentPos + 1;
        return Parsed(LiteralNode(JInt(DigitsValue(token))), currentPos);
      }
      if currentPos + 1 < |tokens| && tokens[currentPos + 1] == "(" {
        r := ParseFunctionCall();
        return;
      }
      r := ParseVariable();
    }

    method ParseFunctionCall() returns (r: PResult)
      requires currentPos < |tokens|
      modifies this
      ensures tokens == old(tokens)
      ensures r == FunctionCall(tokens, old(currentPos))
      ensures r.Parsed? ==> currentPos == r.next
      ensures currentPos <= |tokens|
      decreases |tokens| - currentPos, 1
    {
      var start := currentPos;
      var funcName := tokens[currentPos];
      currentPos := currentPos + 1;
      if currentPos >= |tokens| || tokens[currentPos] != "(" {
        return SyntaxError("Expected '(' after function name '" + funcName + "'");
      }
      currentPos := currentPos + 1;
      var args: seq<PNode> := [];
      while currentPos < |tokens| && tokens[currentPos] != ")"
        invariant start + 2 <= currentPos <= |tokens|
        invariant tokens == old(tokens)
        invariant forall i :: 0 <= i < |args| ==> ParserBuilt(args[i])
        invariant FunctionCall(tokens, start) == Args(funcName, tokens, currentPos, args)
        decreases |tokens| - currentPos
      {
        if tokens[currentPos] == "," {
          currentPos := currentPos + 1;
          continue;
        }
        var before := currentPos;
        var arg := ParsePrimary();
        if !arg.Parsed? {
          return arg;
        }
        if currentPos == before {
          // The loop would now repeat with the same cursor forever.
          return Diverges;
        }
        args := args + [arg.node];
      }
      if currentPos >= |tokens| || tokens[currentPos] != ")" {
        return SyntaxError(MissingClose);
      }
      currentPos := currentPos + 1;
      r := Parsed(FunctionCallNode(funcName, args), currentPos);
    }

    method ParseVariable() returns (r: PResult)
      requires currentPos <= |tokens|
      modifies this
      ensures tokens == old(tokens)
      ensures r == Variable(tokens, old(currentPos)) && currentPos == r.next
    {
      var toks, start := tokens, currentPos;
      var pathParts: seq<string> := [];
      var pos := start;
      while pos < |toks|
        invariant start <= pos <= |toks|
        invariant currentPos == pos
        invariant VarEnd(toks, start) == VarEnd(toks, pos)
        invariant pathParts == PathParts(toks[start..pos])
        modifies this`currentPos
        decreases |toks| - pos
      {
        var token := toks[pos];
        if IsPathPart(token) {
          PathTokenStep(toks, start, pos);
          pathParts := pathParts + [token];
        } else if token == "." {
          PathTokenStep(toks, start, pos);
        } else {
          break;
        }
        pos := pos + 1;
        currentPos := pos;
      }
      assert VarEnd(toks, pos) == pos;
      VariableUpTo(toks, start);
      r := Parsed(VariableNode(Join(pathParts, ".")), pos);
    }
  }
}
