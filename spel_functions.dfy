/**
 * The builtin predicates of the expression language (`SpelFunctions`):
 * the Russian taxpayer-number (INN) checksum, the UUID shape check, digit
 * counting of a decimal string, year arithmetic on dates with the Feb-29
 * fallback, strict date ordering, three-way comparison, string length and
 * the dictionary-membership stub.
 */
module SpelFunctions {
  import opened Common

  /** A value or the ValueError Python raises. */
  datatype Outcome<T> = Ok(value: T) | ValueError

  // ===========================================================================
  // Taxpayer number (INN)
  // ===========================================================================

  const Coeffs10: seq<int> := [2, 4, 10, 3, 5, 9, 4, 6, 8]
  const Coeffs12First: seq<int> := [7, 2, 4, 10, 3, 5, 9, 4, 6, 8]
  const Coeffs12Second: seq<int> := [3, 7, 2, 4, 10, 3, 5, 9, 4, 6, 8]

  /** Σ digit(s[i]) * w[i] over the first |w| characters of `s`. */
  function WeightedSum(s: string, w: seq<int>): int
    requires |w| <= |s|
    requires forall i :: 0 <= i < |s| ==> IsDigit(s[i])
  {
    if |w| == 0 then 0
    else WeightedSum(s, w[..|w| - 1]) + DigitValue(s[|w| - 1]) * w[|w| - 1]
  }

  /** The check digit: (sum mod 11) mod 10. */
  function Control(s: string, w: seq<int>): (c: int)
    requires |w| <= |s|
    requires forall i :: 0 <= i < |s| ==> IsDigit(s[i])
    ensures 0 <= c < 10
  {
    (WeightedSum(s, w) % 11) % 10
  }

  /** `is_valid_tax_num`: a 10-digit or 12-digit INN with correct check digits. */
  function IsValidTaxNum(taxNum: Option<string>): (r: bool)
    ensures r ==> taxNum.Some? && AllDigits(taxNum.value) && (|taxNum.value| == 10 || |taxNum.value| == 12)
  {
    match taxNum
    case None => false
    case Some(s) =>
      if s == [] || !AllDigits(s) then false
      else if |s| == 10 then DigitValue(s[9]) == Control(s, Coeffs10)
      else if |s| == 12 then
        DigitValue(s[10]) == Control(s, Coeffs12First) && DigitValue(s[11]) == Control(s, Coeffs12Second)
      else false
  }

  /** The weighted sum only reads the first |w| characters. */
  lemma {:induction false} WeightedSumPrefix(s: string, t: string, w: seq<int>)
    requires |w| <= |s| && |w| <= |t|
    requires forall i :: 0 <= i < |s| ==> IsDigit(s[i])
    requires forall i :: 0 <= i < |t| ==> IsDigit(t[i])
    requires s[..|w|] == t[..|w|]
    ensures WeightedSum(s, w) == WeightedSum(t, w)
  {
    if |w| > 0 {
      var w' := w[..|w| - 1];
      assert s[..|w'|] == s[..|w|][..|w'|] && t[..|w'|] == t[..|w|][..|w'|];
      WeightedSumPrefix(s, t, w');
      assert s[|w| - 1] == s[..|w|][|w| - 1] && t[|w| - 1] == t[..|w|][|w| - 1];
    }
  }

  /** The nine weighted digits of a 10-digit INN, term by term. */
  lemma WeightedSum10(s: string)
    requires AllDigits(s) && |s| == 10
    ensures WeightedSum(s, Coeffs10)
         == 2 * DigitValue(s[0]) + 4 * DigitValue(s[1]) + 10 * DigitValue(s[2]) + 3 * DigitValue(s[3])
            + 5 * DigitValue(s[4]) + 9 * DigitValue(s[5]) + 4 * DigitValue(s[6]) + 6 * DigitValue(s[7])
            + 8 * DigitValue(s[8])
  {
    var w := Coeffs10;
    assert w == w[..9];
    assert w[..1][..0] == w[..0];
    assert WeightedSum(s, w[..1]) == WeightedSum(s, w[..0]) + DigitValue(s[0]) * 2;
    assert w[..2][..1] == w[..1];
    assert WeightedSum(s, w[..2]) == WeightedSum(s, w[..1]) + DigitValue(s[1]) * 4;
    assert w[..3][..2] == w[..2];
    assert WeightedSum(s, w[..3]) == WeightedSum(s, w[..2]) + DigitValue(s[2]) * 10;
    assert w[..4][..3] == w[..3];
    assert WeightedSum(s, w[..4]) == WeightedSum(s, w[..3]) + DigitValue(s[3]) * 3;
    assert w[..5][..4] == w[..4];
    assert WeightedSum(s, w[..5]) == WeightedSum(s, w[..4]) + DigitValue(s[4]) * 5;
    assert w[..6][..5] == w[..5];
    assert WeightedSum(s, w[..6]) == WeightedSum(s, w[..5]) + DigitValue(s[5]) * 9;
    assert w[..7][..6] == w[..6];
    assert WeightedSum(s, w[..7]) == WeightedSum(s, w[..6]) + DigitValue(s[6]) * 4;
    assert w[..8][..7] == w[..7];
    assert WeightedSum(s, w[..8]) == WeightedSum(s, w[..7]) + DigitValue(s[7]) * 6;
    assert w[..9][..8] == w[..8];
    assert WeightedSum(s, w[..9]) == WeightedSum(s, w[..8]) + DigitValue(s[8]) * 8;
  }

  /** The ten weighted digits of the first 12-digit checksum, term by term. */
  lemma WeightedSum12First(s: string)
    requires AllDigits(s) && |s| == 12
    ensures WeightedSum(s, Coeffs12First)
         == 7 * DigitValue(s[0]) + 2 * DigitValue(s[1]) + 4 * DigitValue(s[2]) + 10 * DigitValue(s[3])
            + 3 * DigitValue(s[4]) + 5 * DigitValue(s[5]) + 9 * DigitValue(s[6]) + 4 * DigitValue(s[7])
            + 6 * DigitValue(s[8]) + 8 * DigitValue(s[9])
  {
    var w := Coeffs12First;
    assert w == w[..10];
    assert w[..1][..0] == w[..0];
    assert WeightedSum(s, w[..1]) == WeightedSum(s, w[..0]) + DigitValue(s[0]) * 7;
    assert w[..2][..1] == w[..1];
    assert WeightedSum(s, w[..2]) == WeightedSum(s, w[..1]) + DigitValue(s[1]) * 2;
    assert w[..3][..2] == w[..2];
    assert WeightedSum(s, w[..3]) == WeightedSum(s, w[..2]) + DigitValue(s[2]) * 4;
    assert w[..4][..3] == w[..3];
    assert WeightedSum(s, w[..4]) == WeightedSum(s, w[..3]) + DigitValue(s[3]) * 10;
    assert w[..5][..4] == w[..4];
    assert WeightedSum(s, w[..5]) == WeightedSum(s, w[..4]) + DigitValue(s[4]) * 3;
    assert w[..6][..5] == w[..5];
    assert WeightedSum(s, w[..6]) == WeightedSum(s, w[..5]) + DigitValue(s[5]) * 5;
    assert w[..7][..6] == w[..6];
    assert WeightedSum(s, w[..7]) == WeightedSum(s, w[..6]) + DigitValue(s[6]) * 9;
    assert w[..8][..7] == w[..7];
    assert WeightedSum(s, w[..8]) == WeightedSum(s, w[..7]) + DigitValue(s[7]) * 4;
    assert w[..9][..8] == w[..8];
    assert WeightedSum(s, w[..9]) == WeightedSum(s, w[..8]) + DigitValue(s[8]) * 6;
    assert w[..10][..9] == w[..9];
    assert WeightedSum(s, w[..10]) == WeightedSum(s, w[..9]) + DigitValue(s[9]) * 8;
  }

  /** The eleven weighted digits of the second 12-digit checksum, term by term. */
  lemma WeightedSum12Second(s: string)
    requires AllDigits(s) && |s| == 12
    ensures WeightedSum(s, Coeffs12Second)
         == 3 * DigitValue(s[0]) + 7 * DigitValue(s[1]) + 2 * DigitValue(s[2]) + 4 * DigitValue(s[3])
            + 10 * DigitValue(s[4]) + 3 * DigitValue(s[5]) + 5 * DigitValue(s[6]) + 9 * DigitValue(s[7])
            + 4 * DigitValue(s[8]) + 6 * DigitValue(s[9]) + 8 * DigitValue(s[10])
  {
    var w := Coeffs12Second;
    assert w == w[..11];
    assert w[..1][..0] == w[..0];
    assert WeightedSum(s, w[..1]) == WeightedSum(s, w[..0]) + DigitValue(s[0]) * 3;
    assert w[..2][..1] == w[..1];
    assert WeightedSum(s, w[..2]) == WeightedSum(s, w[..1]) + DigitValue(s[1]) * 7;
    assert w[..3][..2] == w[..2];
    assert WeightedSum(s, w[..3]) == WeightedSum(s, w[..2]) + DigitValue(s[2]) * 2;
    assert w[..4][..3] == w[..3];
    assert WeightedSum(s, w[..4]) == WeightedSum(s, w[..3]) + DigitValue(s[3]) * 4;
    assert w[..5][..4] == w[..4];
    assert WeightedSum(s, w[..5]) == WeightedSum(s, w[..4]) + DigitValue(s[4]) * 10;
    assert w[..6][..5] == w[..5];
    assert WeightedSum(s, w[..6]) == WeightedSum(s, w[..5]) + DigitValue(s[5]) * 3;
    assert w[..7][..6] == w[..6];
    assert WeightedSum(s, w[..7]) == WeightedSum(s, w[..6]) + DigitValue(s[6]) * 5;
    assert w[..8][..7] == w[..7];
    assert WeightedSum(s, w[..8]) == WeightedSum(s, w[..7]) + DigitValue(s[7]) * 9;
    assert w[..9][..8] == w[..8];
    assert WeightedSum(s, w[..9]) == WeightedSum(s, w[..8]) + DigitValue(s[8]) * 4;
    assert w[..10][..9] == w[..9];
    assert WeightedSum(s, w[..10]) == WeightedSum(s, w[..9]) + DigitValue(s[9]) * 6;
    assert w[..11][..10] == w[..10];
    assert WeightedSum(s, w[..11]) == WeightedSum(s, w[..10]) + DigitValue(s[10]) * 8;
  }

  /**
   * 10-digit form, both directions: valid iff the tenth digit is the sum of
   * the first nine weighted 2, 4, 10, 3, 5, 9, 4, 6, 8, modulo 11, modulo 10.
   */
  lemma TaxNum10(s: string)
    requires AllDigits(s) && |s| == 10
    ensures IsValidTaxNum(Some(s)) <==>
      DigitValue(s[9]) == ((2 * DigitValue(s[0]) + 4 * DigitValue(s[1]) + 10 * DigitValue(s[2]) + 3 * DigitValue(s[3])
         + 5 * DigitValue(s[4]) + 9 * DigitValue(s[5]) + 4 * DigitValue(s[6]) + 6 * DigitValue(s[7])
         + 8 * DigitValue(s[8])) % 11) % 10
  {
    WeightedSum10(s);
  }

  /**
   * 12-digit form, both directions: digit 11 checks the first ten digits
   * weighted 7, 2, 4, 10, 3, 5, 9, 4, 6, 8 and digit 12 checks the first
   * eleven weighted 3, 7, 2, 4, 10, 3, 5, 9, 4, 6, 8, each modulo 11, modulo 10.
   */
  lemma TaxNum12(s: string)
    requires AllDigits(s) && |s| == 12
    ensures IsValidTaxNum(Some(s)) <==>
      DigitValue(s[10]) == ((7 * DigitValue(s[0]) + 2 * DigitValue(s[1]) + 4 * DigitValue(s[2]) + 10 * DigitValue(s[3])
         + 3 * DigitValue(s[4]) + 5 * DigitValue(s[5]) + 9 * DigitValue(s[6]) + 4 * DigitValue(s[7])
         + 6 * DigitValue(s[8]) + 8 * DigitValue(s[9])) % 11) % 10 &&
      DigitValue(s[11]) == ((3 * DigitValue(s[0]) + 7 * DigitValue(s[1]) + 2 * DigitValue(s[2]) + 4 * DigitValue(s[3])
         + 10 * DigitValue(s[4]) + 3 * DigitValue(s[5]) + 5 * DigitValue(s[6]) + 9 * DigitValue(s[7])
         + 4 * DigitValue(s[8]) + 6 * DigitValue(s[9]) + 8 * DigitValue(s[10])) % 11) % 10
  {
    WeightedSum12First(s);
    WeightedSum12Second(s);
  }

  /** Appending the computed check digit to any nine digits gives a valid 10-digit INN. */
  lemma {:induction false} TaxNum10FromPrefix(p: string)
    requires |p| == 9 && AllDigits(p)
    ensures IsValidTaxNum(Some(p + [DigitChar(Control(p, Coeffs10))]))
  {
    var c := DigitChar(Control(p, Coeffs10));
    var s := p + [c];
    assert AllDigits(s);
    WeightedSumPrefix(s, p, Coeffs10);
    assert s[9] == c;
  }

  /** Appending both computed check digits to any ten digits gives a valid 12-digit INN. */
  lemma {:induction false} TaxNum12FromPrefix(p: string)
    requires |p| == 10 && AllDigits(p)
    ensures var c1 := DigitChar(Control(p, Coeffs12First));
            var q := p + [c1];
            AllDigits(q) &&
            IsValidTaxNum(Some(q + [DigitChar(Control(q, Coeffs12Second))]))
  {
    var c1 := DigitChar(Control(p, Coeffs12First));
    var q := p + [c1];
    assert AllDigits(q);
    var c2 := DigitChar(Control(q, Coeffs12Second));
    var s := q + [c2];
    assert AllDigits(s);
    WeightedSumPrefix(s, p, Coeffs12First);
    WeightedSumPrefix(s, q, Coeffs12Second);
    assert s[10] == c1 && s[11] == c2;
  }

  /** Changing only the check digit of a valid 10-digit INN always makes it invalid. */
  lemma {:induction false} TaxNum10CheckDigitDetected(s: string, d: char)
    requires IsValidTaxNum(Some(s)) && |s| == 10
    requires IsDigit(d) && d != s[9]
    ensures !IsValidTaxNum(Some(s[..9] + [d]))
  {
    var t := s[..9] + [d];
    assert AllDigits(t);
    WeightedSumPrefix(s, t, Coeffs10);
  }

  /**
   * A single-digit change is NOT always detected: "0000000000" and
   * "5000000000" differ only in the first digit and are both valid
   * (5 * 2 = 10, and 10 mod 11 mod 10 = 0, the same check digit as for 0).
   */
  lemma TaxNum10MutationUndetected()
    ensures IsValidTaxNum(Some("0000000000"))
    ensures IsValidTaxNum(Some("5000000000"))
  {
    var a := "0000000000";
    var b := "5000000000";
    assert AllDigits(a) && AllDigits(b);
    assert Coeffs10[..9] == Coeffs10;
    assert WeightedSum(a, Coeffs10[..1]) == 0;
    assert WeightedSum(b, Coeffs10[..1]) == 10;
    assert Coeffs10[..2][..1] == Coeffs10[..1];
    assert WeightedSum(a, Coeffs10[..2]) == 0 && WeightedSum(b, Coeffs10[..2]) == 10;
    assert Coeffs10[..3][..2] == Coeffs10[..2];
    assert WeightedSum(a, Coeffs10[..3]) == 0 && WeightedSum(b, Coeffs10[..3]) == 10;
    assert Coeffs10[..4][..3] == Coeffs10[..3];
    assert WeightedSum(a, Coeffs10[..4]) == 0 && WeightedSum(b, Coeffs10[..4]) == 10;
    assert Coeffs10[..5][..4] == Coeffs10[..4];
    assert WeightedSum(a, Coeffs10[..5]) == 0 && WeightedSum(b, Coeffs10[..5]) == 10;
    assert Coeffs10[..6][..5] == Coeffs10[..5];
    assert WeightedSum(a, Coeffs10[..6]) == 0 && WeightedSum(b, Coeffs10[..6]) == 10;
    assert Coeffs10[..7][..6] == Coeffs10[..6];
    assert WeightedSum(a, Coeffs10[..7]) == 0 && WeightedSum(b, Coeffs10[..7]) == 10;
    assert Coeffs10[..8][..7] == Coeffs10[..7];
    assert WeightedSum(a, Coeffs10[..8]) == 0 && WeightedSum(b, Coeffs10[..8]) == 10;
    assert Coeffs10[..9][..8] == Coeffs10[..8];
    assert WeightedSum(a, Coeffs10) == 0 && WeightedSum(b, Coeffs10) == 10;
  }

  // ===========================================================================
  // UUID
  // ===========================================================================

  /** The canonical 8-4-4-4-12 shape, hex digits in either case. */
  predicate UuidShape(s: string)
  {
    |s| == 36 &&
    forall i :: 0 <= i < 36 ==>
      if i == 8 || i == 13 || i == 18 || i == 23 then s[i] == '-' else IsHexDigit(s[i])
  }

  /**
   * `is_valid_uuid` as written: `re.match` with a pattern ending in `$`,
   * and Python's `$` also matches just before a final newline.
   */
  function IsValidUuidAsWritten(uuid: Option<string>): (r: bool)
    ensures r <==> (uuid.Some? &&
      (UuidShape(uuid.value) || (|uuid.value| == 37 && uuid.value[36] == '\n' && UuidShape(uuid.value[..36]))))
  {
    match uuid
    case None => false
    case Some(s) =>
      if s == [] then false
      else UuidShape(s) || (|s| == 37 && s[36] == '\n' && UuidShape(s[..36]))
  }

  /** `is_valid_uuid` as intended: exactly the canonical shape, nothing after it. */
  function IsValidUuid(uuid: Option<string>): (r: bool)
    ensures r ==> uuid.Some? && UuidShape(uuid.value)
  {
    match uuid
    case None => false
    case Some(s) => s != [] && UuidShape(s)
  }

  /** The as-written check lets a UUID followed by a newline through; the corrected one does not. */
  lemma UuidTrailingNewline()
    ensures var u := "550e8400-e29b-41d4-a716-446655440000";
            IsValidUuid(Some(u)) && IsValidUuidAsWritten(Some(u + "\n")) && !IsValidUuid(Some(u + "\n"))
  {
    var u := "550e8400-e29b-41d4-a716-446655440000";
    assert UuidShape(u);
    assert (u + "\n")[..36] == u;
  }

  /** The two agree on every input without a trailing newline. */
  lemma UuidAgreement(uuid: Option<string>)
    requires uuid.Some? ==> |uuid.value| == 0 || uuid.value[|uuid.value| - 1] != '\n'
    ensures IsValidUuid(uuid) == IsValidUuidAsWritten(uuid)
  {
  }

  /** Upper-case hex digits are accepted: the check ignores case. */
  lemma UuidIgnoresCase()
    ensures IsValidUuid(Some("550E8400-E29B-41D4-A716-446655440000"))
    ensures !IsValidUuid(Some("not-a-uuid"))
  {
    var u := "550E8400-E29B-41D4-A716-446655440000";
    assert UuidShape(u);
  }

  // ===========================================================================
  // digitsCheck
  // ===========================================================================

  /**
   * `digits_check` over the decimal text `str(value)`: None is valid;
   * otherwise split on '.', strip leading '-' from the integer part and
   * compare the two part lengths with the maxima. More than one '.' makes
   * the two-name unpacking raise ValueError.
   */
  function DigitsCheck(value: Option<string>, intDigits: int, fracDigits: int): (r: Outcome<bool>)
    ensures value.None? ==> r == Ok(true)
    ensures r.ValueError? <==> value.Some? && '.' in value.value && |Split(value.value, '.')| != 2
  {
    match value
    case None => Ok(true)
    case Some(s) =>
      if '.' in s then
        var parts := Split(s, '.');
        if |parts| != 2 then ValueError
        else Ok(|LStrip(parts[0], '-')| <= intDigits && |parts[1]| <= fracDigits)
      else Ok(|LStrip(s, '-')| <= intDigits && 0 <= fracDigits)
  }

  /** For `int.frac` with one dot the verdict compares both part lengths, sign excluded. */
  lemma {:induction false} DigitsCheckDecimal(intPart: string, frac: string, intDigits: int, fracDigits: int)
    requires '.' !in intPart && '.' !in frac
    ensures DigitsCheck(Some(intPart + "." + frac), intDigits, fracDigits)
         == Ok(|LStrip(intPart, '-')| <= intDigits && |frac| <= fracDigits)
  {
    var s := intPart + "." + frac;
    assert s[|intPart|] == '.';
    FirstSeparator(intPart, frac, '.');
    SplitNoSeparator(frac, '.');
    var parts := Split(s, '.');
    assert parts == [intPart, frac];
  }

  /** An integer printed by `str` has as many digits as its magnitude; the sign does not count. */
  lemma DigitsCheckInteger(n: int, intDigits: int, fracDigits: int)
    ensures DigitsCheck(Some(IntToString(n)), intDigits, fracDigits)
         == Ok(|NatToString(if n < 0 then -n else n)| <= intDigits && 0 <= fracDigits)
  {
    var m: nat := if n < 0 then -n else n;
    var t := NatToString(m);
    assert '.' !in t by { assert forall i :: 0 <= i < |t| ==> IsDigit(t[i]); }
    if n < 0 {
      assert IntToString(n) == "-" + t;
      assert LStrip(IntToString(n), '-') == LStrip(t, '-');
    }
    assert t[0] != '-';
  }

  /** The first separator of `a + [c] + b` is the one after `a` when `a` has none. */
  lemma FirstSeparator(a: string, b: string, c: char)
    requires c !in a
    ensures IndexOf(a + [c] + b, c) == |a|
    ensures Split(a + [c] + b, c) == [a] + Split(b, c)
  {
    var s := a + [c] + b;
    assert forall j :: 0 <= j < |a| ==> s[j] == a[j];
    assert s[|a|] == c;
    assert s[..|a|] == a && s[|a| + 1..] == b;
  }

  /** Two dots cannot be unpacked into integer and fractional part. */
  lemma DigitsCheckTwoDots(a: string, b: string, c: string, intDigits: int, fracDigits: int)
    requires '.' !in a && '.' !in b
    ensures DigitsCheck(Some(a + "." + b + "." + c), intDigits, fracDigits) == ValueError
  {
    var rest := b + "." + c;
    FirstSeparator(b, c, '.');
    assert a + "." + b + "." + c == a + "." + rest;
    FirstSeparator(a, rest, '.');
    assert (a + "." + rest)[|a|] == '.';
  }

  // ===========================================================================
  // Dates
  // ===========================================================================

  datatype Date = Date(year: int, month: int, day: int)

  predicate IsLeap(y: int)
  {
    (y % 4 == 0 && y % 100 != 0) || y % 400 == 0
  }

  function DaysInMonth(y: int, m: int): int
    requires 1 <= m <= 12
  {
    if m == 2 then (if IsLeap(y) then 29 else 28)
    else if m == 4 || m == 6 || m == 9 || m == 11 then 30
    else 31
  }

  /** A Python `date`: years 1..9999 and a day that exists in its month. */
  predicate ValidDate(d: Date)
  {
    1 <= d.year <= 9999 && 1 <= d.month <= 12 && 1 <= d.day <= DaysInMonth(d.year, d.month)
  }

  /**
   * `minus_years`: `dt.replace(year=dt.year - years)`, and on ValueError
   * `dt.replace(year=..., day=28)`; a year outside 1..9999 makes the
   * second `replace` raise as well.
   */
  function MinusYears(dt: Date, years: int): (r: Outcome<Date>)
    requires ValidDate(dt)
    ensures r.Ok? <==> 1 <= dt.year - years <= 9999
    ensures r.Ok? ==> ValidDate(r.value) && r.value.year == dt.year - years && r.value.month == dt.month
    ensures r.Ok? ==> r.value.day == dt.day || (dt.month == 2 && dt.day == 29 && r.value.day == 28 && !IsLeap(r.value.year))
  {
    var y := dt.year - years;
    if !(1 <= y <= 9999) then ValueError
    else if dt.day <= DaysInMonth(y, dt.month) then Ok(Date(y, dt.month, dt.day))
    else Ok(Date(y, dt.month, 28))
  }

  /** Subtracting zero years is the identity. */
  lemma MinusZeroYears(dt: Date)
    requires ValidDate(dt)
    ensures MinusYears(dt, 0) == Ok(dt)
  {
  }

  /** Feb 29 falls back to Feb 28 exactly when the target year is not a leap year. */
  lemma MinusYearsLeapDay(y: int, years: int)
    requires ValidDate(Date(y, 2, 29)) && 1 <= y - years <= 9999
    ensures MinusYears(Date(y, 2, 29), years) == Ok(Date(y - years, 2, if IsLeap(y - years) then 29 else 28))
  {
  }

  /** Python's ordering of dates: by year, then month, then day. */
  predicate DateBefore(a: Date, b: Date)
  {
    a.year < b.year || (a.year == b.year && (a.month < b.month || (a.month == b.month && a.day < b.day)))
  }

  /** `is_after`: strictly later. */
  function IsAfter(d1: Date, d2: Date): (r: bool)
    ensures r ==> d1 != d2
  {
    DateBefore(d2, d1)
  }

  /** `is_after` is a strict total order on dates. */
  lemma IsAfterStrictOrder(a: Date, b: Date, c: Date)
    ensures !IsAfter(a, a)
    ensures IsAfter(a, b) ==> !IsAfter(b, a)
    ensures IsAfter(a, b) && IsAfter(b, c) ==> IsAfter(a, c)
    ensures a != b ==> IsAfter(a, b) || IsAfter(b, a)
  {
  }

  /** `compare_to`: 1, -1 or 0 as the first value is greater, smaller or equal. */
  function CompareTo(a: int, b: int): (r: int)
    ensures r == 1 <==> a > b
    ensures r == -1 <==> a < b
    ensures r == 0 <==> a == b
  {
    if a > b then 1 else if a < b then -1 else 0
  }

  /** Swapping the arguments negates the comparison. */
  lemma CompareToAntisymmetric(a: int, b: int)
    ensures CompareTo(a, b) == -CompareTo(b, a)
  {
  }

  // ===========================================================================
  // Strings and dictionaries
  // ===========================================================================

  /** `length`: 0 for None or the empty string, else the number of characters. */
  function Length(s: Option<string>): (r: nat)
    ensures s.Some? ==> r == |s.value|
    ensures s.None? ==> r == 0
  {
    match s
    case None => 0
    case Some(t) => if t == [] then 0 else |t|
  }

  /**
   * `is_dictionary_value` is a stub: with `allowEmpty` an empty value is
   * accepted up front, and every other value is accepted as well.
   */
  function IsDictionaryValue(value: Option<string>, dictionaryName: string, allowEmpty: bool): (r: bool)
    ensures r
  {
    if allowEmpty && (value.None? || value == Some("")) then true else true
  }
}
