/**
 * JSON-like Python values (`None`, `bool`, `int`, `str`, `list`, `dict`)
 * as they flow through schemas, scenarios and expression contexts, and the
 * text Python's `str()` gives for them where the tool embeds values in
 * change descriptions.
 */
module JsonData {
  import opened Common

  datatype Json =
    | JNull
    | JBool(b: bool)
    | JInt(i: int)
    | JStr(s: string)
    | JArr(items: seq<Json>)
    | JObj(fields: map<string, Json>)

  /** Python truthiness: None, False, 0, "", [] and {} are falsy. */
  predicate Truthy(j: Json)
  {
    match j
    case JNull => false
    case JBool(b) => b
    case JInt(i) => i != 0
    case JStr(s) => s != []
    case JArr(items) => items != []
    case JObj(fields) => fields != map[]
  }

  /** `isinstance(v, (int, float))`: booleans are integers in Python. */
  predicate IsNumber(j: Json)
  {
    j.JInt? || j.JBool?
  }

  /** The numeric value of an int or bool (True == 1, False == 0). */
  function NumberValue(j: Json): int
    requires IsNumber(j)
  {
    if j.JInt? then j.i else if j.b then 1 else 0
  }

  /** Python `repr()` of a value inside a container. */
  function PyRepr(j: Json): string
    decreases j, 1
  {
    match j
    case JStr(s) => StrRepr(s)
    case _ => PyStr(j)
  }

  // ---------------------------------------------------------------------------
  // `repr()` of a string
  // ---------------------------------------------------------------------------

  /** The characters below U+0100 that `str.isprintable()` rejects: controls, U+00A0 and the soft hyphen. */
  predicate NonPrintable(c: char)
  {
    c < ' ' || ('\U{7F}' <= c <= '\U{A0}') || c == '\U{AD}'
  }

  /** The quote `repr()` chooses: double quotes only for text with a single quote and no double quote. */
  function ReprQuote(s: string): (q: char)
    ensures q == '"' <==> '\'' in s && '"' !in s
    ensures q == '\'' || q == '"'
  {
    if '\'' in s && '"' !in s then '"' else '\''
  }

  function HexChar(n: nat): char
    requires n < 16
  {
    "0123456789abcdef"[n]
  }

  function HexValue(c: char): nat
  {
    if '0' <= c <= '9' then c as int - '0' as int
    else if 'a' <= c <= 'f' then c as int - 'a' as int + 10
    else 16
  }

  /** How `repr()` writes one character of a string quoted with `q`. */
  function EscapeChar(c: char, q: char): string
  {
    if c == '\\' then "\\\\"
    else if c == q then ['\\', q]
    else if c == '\t' then "\\t"
    else if c == '\n' then "\\n"
    else if c == '\r' then "\\r"
    else if NonPrintable(c) then ['\\', 'x', HexChar(c as int / 16), HexChar(c as int % 16)]
    else [c]
  }

  function Escape(s: string, q: char): string
  {
    if s == [] then [] else EscapeChar(s[0], q) + Escape(s[1..], q)
  }

  /** Python `repr()` of a string. */
  function StrRepr(s: string): (r: string)
    ensures |r| >= 2 && r[0] == r[|r| - 1] == ReprQuote(s)
  {
    [ReprQuote(s)] + Escape(s, ReprQuote(s)) + [ReprQuote(s)]
  }

  /** Reads back the body of a quoted string literal: the inverse of `Escape`. */
  function Unescape(e: string): (r: Option<string>)
  {
    if e == [] then Some([])
    else if e[0] != '\\' then
      match Unescape(e[1..])
      case Some(rest) => Some([e[0]] + rest)
      case None => None
    else if |e| < 2 then None
    else
      var c: Option<char> :=
        if e[1] == 'n' then Some('\n')
        else if e[1] == 't' then Some('\t')
        else if e[1] == 'r' then Some('\r')
        else if e[1] in {'\\', '\'', '"'} then Some(e[1])
        else None;
      if c.Some? then
        match Unescape(e[2..])
        case Some(rest) => Some([c.value] + rest)
        case None => None
      else if e[1] == 'x' && |e| >= 4 && HexValue(e[2]) < 16 && HexValue(e[3]) < 16 then
        match Unescape(e[4..])
        case Some(rest) => Some([(HexValue(e[2]) * 16 + HexValue(e[3])) as char] + rest)
        case None => None
      else None
  }

  /** Reads back a quoted string literal. */
  function StrUnrepr(r: string): Option<string>
  {
    if |r| >= 2 && r[0] == r[|r| - 1] && r[0] in {'\'', '"'} then Unescape(r[1..|r| - 1]) else None
  }

  lemma HexRoundTrip(n: nat)
    requires n < 16
    ensures HexValue(HexChar(n)) == n
  {
  }

  /** Reading back one escaped character and the rest. */
  lemma UnescapeChar(c: char, q: char, rest: string)
    requires q == '\'' || q == '"'
    ensures Unescape(EscapeChar(c, q) + rest) == match Unescape(rest)
      case Some(x) => Some([c] + x)
      case None => None
  {
    var e := EscapeChar(c, q) + rest;
    if c == '\\' || c == q || c == '\t' || c == '\n' || c == '\r' {
      assert e[2..] == rest;
    } else if NonPrintable(c) {
      var v := c as int;
      HexRoundTrip(v / 16);
      HexRoundTrip(v % 16);
      assert e[1] == 'x' && e[2] == HexChar(v / 16) && e[3] == HexChar(v % 16);
      assert e[4..] == rest;
    } else {
      assert e[0] == c && e[1..] == rest;
    }
  }

  /** `Escape` loses nothing: reading its text back gives the string. */
  lemma {:induction false} EscapeRoundTrip(s: string, q: char)
    requires q == '\'' || q == '"'
    ensures Unescape(Escape(s, q)) == Some(s)
  {
    if s != [] {
      EscapeRoundTrip(s[1..], q);
      UnescapeChar(s[0], q, Escape(s[1..], q));
      assert [s[0]] + s[1..] == s;
    }
  }

  /** `repr()` of a string reads back as that string, so distinct strings have distinct reprs. */
  lemma StrReprRoundTrip(s: string)
    ensures StrUnrepr(StrRepr(s)) == Some(s)
  {
    var r := StrRepr(s);
    assert r[1..|r| - 1] == Escape(s, ReprQuote(s));
    EscapeRoundTrip(s, ReprQuote(s));
  }

  /** Text with no quote, backslash or non-printable character is `repr`-ed between single quotes as it is. */
  lemma {:induction false} PlainRepr(s: string)
    requires forall i :: 0 <= i < |s| ==> s[i] !in {'\'', '"', '\\'} && !NonPrintable(s[i])
    ensures StrRepr(s) == "'" + s + "'"
  {
    PlainEscape(s);
  }

  lemma {:induction false} PlainEscape(s: string)
    requires forall i :: 0 <= i < |s| ==> s[i] !in {'\'', '"', '\\'} && !NonPrintable(s[i])
    ensures Escape(s, '\'') == s
  {
    if s != [] {
      PlainEscape(s[1..]);
      assert [s[0]] + s[1..] == s;
    }
  }

  /**
   * Python `str()`. Strings print as themselves; lists print their items'
   * `repr` separated by ", ". A non-empty dict prints as "{...}" here.
   */
  function PyStr(j: Json): (r: string)
    ensures j.JStr? ==> r == j.s
    ensures j.JNull? ==> r == "None"
    ensures j.JInt? ==> r == IntToString(j.i)
    decreases j, 0
  {
    match j
    case JNull => "None"
    case JBool(b) => if b then "True" else "False"
    case JInt(i) => IntToString(i)
    case JStr(s) => s
    case JArr(items) => "[" + Join(seq(|items|, k requires 0 <= k < |items| => PyRepr(items[k])), ", ") + "]"
    case JObj(fields) => if fields == map[] then "{}" else "{...}"
  }
}
