/**
 * Small string and value helpers shared by every module of the model:
 * an Option type, Python's `str.split` / `str.join` / `startswith` / `in`
 * on strings, `str.lower` on the alphabets the tool's own texts use, and
 * decimal conversion of integers in both directions (`str(int)` and `int(str)`).
 */
module Common {

  datatype Option<T> = None | Some(value: T)

  // ---------------------------------------------------------------------------
  // Character classes (ASCII; see README for what is left out of Unicode)
  // ---------------------------------------------------------------------------

  predicate IsDigit(c: char) { '0' <= c <= '9' }

  predicate IsAsciiLetter(c: char) { 'a' <= c <= 'z' || 'A' <= c <= 'Z' }

  /** The `\w` regex class: letters, digits and the underscore. */
  predicate IsWordChar(c: char) { IsAsciiLetter(c) || IsDigit(c) || c == '_' }

  /** Python `str.isdigit()`: non-empty and every character is a digit. */
  predicate AllDigits(s: string) { |s| > 0 && forall i :: 0 <= i < |s| ==> IsDigit(s[i]) }

  /** Python `str.isalnum()`: non-empty and every character is a letter or digit. */
  predicate AllAlnum(s: string)
  {
    |s| > 0 && forall i :: 0 <= i < |s| ==> IsAsciiLetter(s[i]) || IsDigit(s[i])
  }

  predicate IsHexDigit(c: char) { IsDigit(c) || 'a' <= c <= 'f' || 'A' <= c <= 'F' }

  // ---------------------------------------------------------------------------
  // Prefixes, substrings, lower case
  // ---------------------------------------------------------------------------

  predicate StartsWith(s: string, prefix: string)
  {
    |prefix| <= |s| && s[..|prefix|] == prefix
  }

  /** Strings with different first characters cannot share a prefix. */
  lemma StartsWithHead(s: string, prefix: string)
    requires |prefix| > 0
    ensures StartsWith(s, prefix) ==> s[0] == prefix[0]
  {
    if StartsWith(s, prefix) {
      assert s[0] == s[..|prefix|][0];
    }
  }

  /** Python `sub in s` for strings. */
  predicate Contains(s: string, sub: string)
  {
    exists i :: 0 <= i <= |s| - |sub| && OccursAt(s, sub, i)
  }

  predicate OccursAt(s: string, sub: string, i: int)
  {
    0 <= i <= |s| - |sub| && s[i..i + |sub|] == sub
  }

  /** Python `str.lower()` on one character: Latin and Russian capitals. */
  function LowerChar(c: char): (r: char)
    ensures 'A' <= c <= 'Z' ==> r as int == c as int + 32
    ensures !('A' <= c <= 'Z') && !('А' <= c <= 'Я') && c != 'Ё' ==> r == c
  {
    if 'A' <= c <= 'Z' then (c as int + 32) as char
    else if 'А' <= c <= 'Я' then (c as int + 32) as char
    else if c == 'Ё' then 'ё'
    else c
  }

  function Lower(s: string): (r: string)
    ensures |r| == |s|
    ensures forall i :: 0 <= i < |s| ==> r[i] == LowerChar(s[i])
  {
    seq(|s|, i requires 0 <= i < |s| => LowerChar(s[i]))
  }

  /** A substring stays a substring when text is added on either side. */
  lemma ContainsWithin(a: string, s: string, b: string, sub: string)
    requires Contains(s, sub)
    ensures Contains(a + s + b, sub)
  {
    var i :| 0 <= i <= |s| - |sub| && OccursAt(s, sub, i);
    assert (a + s + b)[|a| + i..|a| + i + |sub|] == s[i..i + |sub|];
    assert OccursAt(a + s + b, sub, |a| + i);
  }

  /** A substring stays a substring when text is appended. */
  lemma ContainsAppend(s: string, t: string, sub: string)
    requires Contains(s, sub)
    ensures Contains(s + t, sub)
  {
    var i :| 0 <= i <= |s| - |sub| && OccursAt(s, sub, i);
    assert (s + t)[i..i + |sub|] == s[i..i + |sub|];
    assert OccursAt(s + t, sub, i);
  }

  /** A string contains whatever it ends with. */
  lemma ContainsSuffix(a: string, sub: string)
    ensures Contains(a + sub, sub)
  {
    assert (a + sub)[|a|..|a| + |sub|] == sub;
    assert OccursAt(a + sub, sub, |a|);
  }

  /** Every string contains itself. */
  lemma ContainsSelf(s: string)
    ensures Contains(s, s)
  {
    assert OccursAt(s, s, 0);
  }

  /** `str.lower()` keeps substrings: `sub in s` implies `sub.lower() in s.lower()`. */
  lemma LowerContains(s: string, sub: string)
    requires Contains(s, sub)
    ensures Contains(Lower(s), Lower(sub))
  {
    var i :| 0 <= i <= |s| - |sub| && OccursAt(s, sub, i);
    assert Lower(s)[i..i + |sub|] == Lower(sub);
    assert OccursAt(Lower(s), Lower(sub), i);
  }

  /** A substring of one part is a substring of the joined string. */
  lemma {:induction false} ContainsJoin(parts: seq<string>, sep: string, k: nat, sub: string)
    requires k < |parts| && Contains(parts[k], sub)
    ensures Contains(Join(parts, sep), sub)
  {
    if |parts| == 1 {
    } else if k == 0 {
      ContainsWithin("", parts[0], sep + Join(parts[1..], sep), sub);
      assert "" + parts[0] + (sep + Join(parts[1..], sep)) == Join(parts, sep);
    } else {
      ContainsJoin(parts[1..], sep, k - 1, sub);
      ContainsWithin(parts[0] + sep, Join(parts[1..], sep), "", sub);
      assert parts[0] + sep + Join(parts[1..], sep) + "" == Join(parts, sep);
    }
  }

  /**
   * `sub not in s` when the first character of `sub` occurs at no position
   * where `sub` could start.
   */
  lemma NotContainsNoHead(s: string, sub: string)
    requires 0 < |sub| <= |s| && sub[0] !in s[..|s| - |sub| + 1]
    ensures !Contains(s, sub)
  {
    forall j | 0 <= j <= |s| - |sub| ensures !OccursAt(s, sub, j) {
      assert s[j] == s[..|s| - |sub| + 1][j];
    }
  }

  /**
   * `sub not in s` when `p` is the only position where `sub` could start
   * with its first character, and `sub` differs from `s` there at offset `k`.
   */
  lemma NotContainsOneHead(s: string, sub: string, p: nat, k: nat)
    requires 0 < |sub| && p <= |s| - |sub| && k < |sub| && s[p + k] != sub[k]
    requires sub[0] !in s[..p] && sub[0] !in s[p + 1..|s| - |sub| + 1]
    ensures !Contains(s, sub)
  {
    forall j | 0 <= j <= |s| - |sub| ensures !OccursAt(s, sub, j) {
      if j == p {
        assert s[p..p + |sub|][k] == s[p + k];
      } else if j < p {
        assert s[j] == s[..p][j];
        assert s[j..j + |sub|][0] == s[j];
      } else {
        assert s[j] == s[p + 1..|s| - |sub| + 1][j - p - 1];
        assert s[j..j + |sub|][0] == s[j];
      }
    }
  }

  /** Python `s[:n]` for a non-negative `n`. */
  function Take(s: string, n: nat): (r: string)
    ensures |r| == if n < |s| then n else |s|
    ensures StartsWith(s, r)
  {
    if n < |s| then s[..n] else s
  }

  // ---------------------------------------------------------------------------
  // split / join
  // ---------------------------------------------------------------------------

  /** Python `sep.join(parts)`. */
  function Join(parts: seq<string>, sep: string): string
  {
    if |parts| == 0 then ""
    else if |parts| == 1 then parts[0]
    else parts[0] + sep + Join(parts[1..], sep)
  }

  lemma JoinOne(x: string, sep: string)
    ensures Join([x], sep) == x
  {
  }

  lemma JoinTwo(x: string, y: string, sep: string)
    ensures Join([x, y], sep) == x + sep + y
  {
    assert [x, y][1..] == [y];
  }

  /** Joining non-empty parts gives the empty string only when there are no parts. */
  lemma JoinEmpty(parts: seq<string>, sep: string)
    requires forall i :: 0 <= i < |parts| ==> parts[i] != ""
    ensures Join(parts, sep) == "" <==> parts == []
  {
    if |parts| > 1 {
      assert |Join(parts, sep)| >= |parts[0]|;
    }
  }

  /** Position of the first `c` in `s`, or `|s|` when there is none. */
  function IndexOf(s: string, c: char): (i: nat)
    ensures i <= |s|
    ensures i < |s| ==> s[i] == c
    ensures forall j :: 0 <= j < i ==> s[j] != c
  {
    if |s| == 0 then 0
    else if s[0] == c then 0
    else 1 + IndexOf(s[1..], c)
  }

  /** Python `s.split(c)` for a one-character separator. */
  function Split(s: string, c: char): (parts: seq<string>)
    ensures |parts| >= 1
    ensures forall k :: 0 <= k < |parts| ==> c !in parts[k]
    decreases |s|
  {
    var i := IndexOf(s, c);
    if i == |s| then [s] else [s[..i]] + Split(s[i + 1..], c)
  }

  /** Concatenation regroups freely. */
  lemma ConcatAssoc<T>(x: seq<T>, y: seq<T>, z: seq<T>)
    ensures x + (y + z) == x + y + z
  {
  }

  /** A string is the part before position `i`, the character there and the part after it. */
  lemma Recompose<T>(s: seq<T>, i: nat)
    requires i < |s|
    ensures s == s[..i] + [s[i]] + s[i + 1..]
  {
  }

  /** Joining a part in front of a non-empty list puts one separator between them. */
  lemma JoinCons(head: string, tail: seq<string>, sep: string)
    requires |tail| > 0
    ensures Join([head] + tail, sep) == head + sep + Join(tail, sep)
  {
    assert ([head] + tail)[1..] == tail;
  }

  /** Splitting on `c` and joining with `c` gives back the original string. */
  lemma {:induction false} SplitJoin(s: string, c: char)
    ensures Join(Split(s, c), [c]) == s
    decreases |s|
  {
    var i := IndexOf(s, c);
    if i < |s| {
      var rest := s[i + 1..];
      SplitJoin(rest, c);
      var head, tail := s[..i], Split(rest, c);
      assert Split(s, c) == [head] + tail;
      JoinCons(head, tail, [c]);
      Recompose(s, i);
    }
  }

  /** A string without the separator splits into itself alone. */
  lemma SplitNoSeparator(s: string, c: char)
    requires c !in s
    ensures Split(s, c) == [s]
  {
  }

  /** Python `s.lstrip(c)` for one character. */
  function LStrip(s: string, c: char): (r: string)
    ensures |r| <= |s| && s[|s| - |r|..] == r
    ensures |r| > 0 ==> r[0] != c
    ensures forall i :: 0 <= i < |s| - |r| ==> s[i] == c
  {
    if |s| > 0 && s[0] == c then LStrip(s[1..], c) else s
  }

  /** Python `s.rstrip(c)` for one character. */
  function RStrip(s: string, c: char): (r: string)
    ensures |r| <= |s| && s[..|r|] == r
    ensures |r| > 0 ==> r[|r| - 1] != c
    ensures forall i :: |r| <= i < |s| ==> s[i] == c
  {
    if |s| > 0 && s[|s| - 1] == c then RStrip(s[..|s| - 1], c) else s
  }

  // ---------------------------------------------------------------------------
  // List comprehensions
  // ---------------------------------------------------------------------------

  /** `[x for x in xs if p(x)]`. */
  function Filter<T>(xs: seq<T>, p: T -> bool): (r: seq<T>)
    ensures |r| <= |xs|
    ensures forall i :: 0 <= i < |r| ==> p(r[i]) && r[i] in xs
  {
    if |xs| == 0 then [] else (if p(xs[0]) then [xs[0]] else []) + Filter(xs[1..], p)
  }

  /** Filtering distributes over concatenation, so the kept elements stay in their original order. */
  lemma {:induction false} FilterConcat<T>(xs: seq<T>, ys: seq<T>, p: T -> bool)
    ensures Filter(xs + ys, p) == Filter(xs, p) + Filter(ys, p)
    decreases |xs|
  {
    if |xs| > 0 {
      FilterConcat(xs[1..], ys, p);
      assert (xs + ys)[1..] == xs[1..] + ys;
    } else {
      assert xs + ys == ys;
    }
  }

  /** An element is kept exactly as often as it occurs, when it satisfies `p`, and never otherwise. */
  lemma {:induction false} FilterCount<T>(xs: seq<T>, p: T -> bool, x: T)
    ensures multiset(Filter(xs, p))[x] == if p(x) then multiset(xs)[x] else 0
    decreases |xs|
  {
    if |xs| > 0 {
      FilterCount(xs[1..], p, x);
      assert xs == [xs[0]] + xs[1..];
    }
  }

  /** Filtering by `p` and by a predicate that is its negation on the list splits it: the two parts together are a permutation of it. */
  lemma {:induction false} FilterPartition<T>(xs: seq<T>, p: T -> bool, q: T -> bool)
    requires forall i :: 0 <= i < |xs| ==> q(xs[i]) == !p(xs[i])
    ensures multiset(Filter(xs, p)) + multiset(Filter(xs, q)) == multiset(xs)
    ensures |Filter(xs, p)| + |Filter(xs, q)| == |xs|
    decreases |xs|
  {
    if |xs| > 0 {
      var h, t := xs[0], xs[1..];
      assert q(h) == !p(h);
      FilterPartitionTail(xs, p, q);
      FilterPartition(t, p, q);
      assert multiset(xs) == multiset([h]) + multiset(t) by { assert xs == [h] + t; }
    }
  }

  lemma FilterPartitionTail<T>(xs: seq<T>, p: T -> bool, q: T -> bool)
    requires |xs| > 0 && q(xs[0]) == !p(xs[0])
    ensures forall i :: 0 <= i < |xs[1..]| ==> q(xs[1..][i]) == q(xs[i + 1]) && p(xs[1..][i]) == p(xs[i + 1])
    ensures p(xs[0]) ==> Filter(xs, p) == [xs[0]] + Filter(xs[1..], p) && Filter(xs, q) == Filter(xs[1..], q)
    ensures !p(xs[0]) ==> Filter(xs, q) == [xs[0]] + Filter(xs[1..], q) && Filter(xs, p) == Filter(xs[1..], p)
  {
  }

  /** Something satisfies `p` exactly when the filtered list is non-empty. */
  lemma {:induction false} FilterNonEmpty<T>(xs: seq<T>, p: T -> bool)
    ensures |Filter(xs, p)| > 0 <==> exists i :: 0 <= i < |xs| && p(xs[i])
    decreases |xs|
  {
    if |xs| > 0 {
      FilterNonEmpty(xs[1..], p);
      if !p(xs[0]) && (exists i :: 0 <= i < |xs| && p(xs[i])) {
        var i :| 0 <= i < |xs| && p(xs[i]);
        assert xs[1..][i - 1] == xs[i];
      }
      if exists i :: 0 <= i < |xs[1..]| && p(xs[1..][i]) {
        var i :| 0 <= i < |xs[1..]| && p(xs[1..][i]);
        assert xs[i + 1] == xs[1..][i];
      }
    }
  }

  // ---------------------------------------------------------------------------
  // Decimal numbers
  // ---------------------------------------------------------------------------

  function DigitValue(c: char): nat
    requires IsDigit(c)
  {
    c as int - '0' as int
  }

  function DigitChar(d: nat): (c: char)
    requires d < 10
    ensures IsDigit(c) && DigitValue(c) == d
  {
    ('0' as int + d) as char
  }

  /** The value of a string of decimal digits (leading zeros allowed). */
  function DigitsValue(s: string): nat
    requires forall i :: 0 <= i < |s| ==> IsDigit(s[i])
  {
    if |s| == 0 then 0 else DigitsValue(s[..|s| - 1]) * 10 + DigitValue(s[|s| - 1])
  }

  /** Python `str(n)` for a natural number. */
  function NatToString(n: nat): (s: string)
    ensures AllDigits(s)
    ensures |s| > 1 ==> s[0] != '0'
  {
    if n < 10 then [DigitChar(n)] else NatToString(n / 10) + [DigitChar(n % 10)]
  }

  /** Python `str(i)` for an integer. */
  function IntToString(i: int): (s: string)
    ensures |s| > 0
  {
    if i < 0 then "-" + NatToString(-i) else NatToString(i)
  }

  /** Reading back what `str(n)` prints gives `n`. */
  lemma {:induction false} NatToStringValue(n: nat)
    ensures DigitsValue(NatToString(n)) == n
  {
    var s := NatToString(n);
    if n >= 10 {
      NatToStringValue(n / 10);
      assert s[..|s| - 1] == NatToString(n / 10);
    }
  }

  /** A digit string without a superfluous leading zero is exactly what `str(int(s))` prints. */
  lemma {:induction false} NatToStringOfDigits(s: string)
    requires AllDigits(s) && (|s| > 1 ==> s[0] != '0')
    ensures NatToString(DigitsValue(s)) == s
    decreases |s|
  {
    var init := s[..|s| - 1];
    var last := s[|s| - 1];
    if |s| == 1 {
    } else {
      assert AllDigits(init) && init[0] == s[0];
      NatToStringOfDigits(init);
      DigitsValueLowerBound(init);
      var v := DigitsValue(s);
      assert v == DigitsValue(init) * 10 + DigitValue(last);
      assert v / 10 == DigitsValue(init) && v % 10 == DigitValue(last);
      assert NatToString(v) == NatToString(v / 10) + [DigitChar(v % 10)];
    }
  }

  /** A digit string of length >= 2 that does not start with '0' has value >= 10. */
  lemma {:induction false} DigitsValueLowerBound(s: string)
    requires AllDigits(s) && s[0] != '0'
    ensures |s| >= 2 ==> DigitsValue(s) >= 10
    ensures DigitsValue(s) >= 1
    decreases |s|
  {
    if |s| >= 2 {
      var init := s[..|s| - 1];
      assert init[0] == s[0];
      DigitsValueLowerBound(init);
    }
  }

  /**
   * Python `int(s)` on the forms the tool passes to it: an optional sign
   * followed by at least one decimal digit. Anything else is a ValueError,
   * reported here as None.
   */
  function ParseInt(s: string): (r: Option<int>)
    ensures AllDigits(s) ==> r == Some(DigitsValue(s))
  {
    if AllDigits(s) then Some(DigitsValue(s))
    else if |s| >= 2 && s[0] == '-' && AllDigits(s[1..]) then Some(0 - DigitsValue(s[1..]) as int)
    else if |s| >= 2 && s[0] == '+' && AllDigits(s[1..]) then Some(DigitsValue(s[1..]))
    else None
  }

  /** `int(str(i)) == i` for every integer. */
  lemma IntToStringParses(i: int)
    ensures ParseInt(IntToString(i)) == Some(i)
  {
    var s := IntToString(i);
    if i < 0 {
      var t := NatToString(-i);
      NatToStringValue(-i);
      assert s == "-" + t;
      assert s[1..] == t && s[0] == '-' && |s| >= 2;
      assert !AllDigits(s) by { assert !IsDigit(s[0]); }
      assert ParseInt(s) == Some(0 - DigitsValue(t) as int);
    } else {
      NatToStringValue(i);
      assert s == NatToString(i);
    }
  }

  // ---------------------------------------------------------------------------
  // String order and sorted string lists
  // ---------------------------------------------------------------------------

  /** Python's `<` on strings: lexicographic by code point, a proper prefix first. */
  predicate StrLess(a: string, b: string)
  {
    if |a| == 0 then |b| > 0
    else if |b| == 0 then false
    else if a[0] != b[0] then a[0] < b[0]
    else StrLess(a[1..], b[1..])
  }

  lemma {:induction false} StrLessIrreflexive(a: string)
    ensures !StrLess(a, a)
    decreases |a|
  {
    if |a| > 0 {
      StrLessIrreflexive(a[1..]);
    }
  }

  lemma {:induction false} StrLessTransitive(a: string, b: string, c: string)
    requires StrLess(a, b) && StrLess(b, c)
    ensures StrLess(a, c)
    decreases |a|
  {
    if |a| > 0 && a[0] == b[0] && b[0] == c[0] {
      StrLessTransitive(a[1..], b[1..], c[1..]);
    }
  }

  /** Two different strings are ordered one way or the other. */
  lemma {:induction false} StrLessTotal(a: string, b: string)
    ensures a == b || StrLess(a, b) || StrLess(b, a)
    decreases |a|
  {
    if |a| > 0 && |b| > 0 && a[0] == b[0] {
      StrLessTotal(a[1..], b[1..]);
      assert a == [a[0]] + a[1..] && b == [a[0]] + b[1..];
    }
  }

  /** Strictly ascending, hence without duplicates. */
  predicate StrictlyAscending(s: seq<string>)
  {
    forall i, j :: 0 <= i < j < |s| ==> StrLess(s[i], s[j])
  }

  /** Insert `x` into a strictly ascending list unless it is already there. */
  function InsertString(x: string, s: seq<string>): (r: seq<string>)
  {
    if s == [] then [x]
    else if StrLess(s[0], x) then [s[0]] + InsertString(x, s[1..])
    else if s[0] == x then s
    else [x] + s
  }

  lemma {:induction false} InsertStringProps(x: string, s: seq<string>)
    requires StrictlyAscending(s)
    ensures StrictlyAscending(InsertString(x, s))
    ensures forall y :: y in InsertString(x, s) <==> y in s || y == x
    decreases |s|
  {
    var r := InsertString(x, s);
    if s == [] {
    } else if StrLess(s[0], x) {
      var t := s[1..];
      assert StrictlyAscending(t) by {
        forall i, j | 0 <= i < j < |t| ensures StrLess(t[i], t[j]) {
          assert t[i] == s[i + 1] && t[j] == s[j + 1];
        }
      }
      InsertStringProps(x, t);
      var rt := InsertString(x, t);
      assert r == [s[0]] + rt;
      assert s == [s[0]] + t;
      forall i, j | 0 <= i < j < |r| ensures StrLess(r[i], r[j]) {
        if i == 0 {
          assert r[j] == rt[j - 1] && rt[j - 1] in rt;
          if rt[j - 1] != x {
            var k :| 0 <= k < |t| && t[k] == rt[j - 1];
            assert StrLess(s[0], s[k + 1]);
          }
        } else {
          assert r[i] == rt[i - 1] && r[j] == rt[j - 1];
        }
      }
    } else if s[0] == x {
    } else {
      StrLessTotal(x, s[0]);
      forall i, j | 0 <= i < j < |r| ensures StrLess(r[i], r[j]) {
        if i == 0 && j > 1 {
          StrLessTransitive(x, s[0], s[j - 1]);
        }
      }
    }
  }

  /** Python `sorted(set(xs))`: the distinct strings of `xs` in ascending order. */
  function SortedSet(xs: seq<string>): (r: seq<string>)
  {
    if xs == [] then [] else InsertString(xs[0], SortedSet(xs[1..]))
  }

  lemma {:induction false} SortedSetProps(xs: seq<string>)
    ensures StrictlyAscending(SortedSet(xs))
    ensures forall y :: y in SortedSet(xs) <==> y in xs
    decreases |xs|
  {
    if xs != [] {
      SortedSetProps(xs[1..]);
      InsertStringProps(xs[0], SortedSet(xs[1..]));
      assert xs == [xs[0]] + xs[1..];
    }
  }

  /** A strictly ascending list has no duplicates, so it is as long as the set of its elements. */
  lemma {:induction false} AscendingCard(s: seq<string>)
    requires StrictlyAscending(s)
    ensures |set y | y in s| == |s|
    decreases |s|
  {
    if s != [] {
      var t := s[1..];
      assert StrictlyAscending(t) by {
        forall i, j | 0 <= i < j < |t| ensures StrLess(t[i], t[j]) {
          assert t[i] == s[i + 1] && t[j] == s[j + 1];
        }
      }
      AscendingCard(t);
      if s[0] in t {
        var k :| 0 <= k < |t| && t[k] == s[0];
        assert StrLess(s[0], s[k + 1]);
        StrLessIrreflexive(s[0]);
      }
      assert (set y | y in s) == {s[0]} + set y | y in t;
    }
  }

  // ---------------------------------------------------------------------------
  // Whitespace, case and digit runs
  // ---------------------------------------------------------------------------

  /** Python `str.isspace()` for one character: the characters `\s` and `strip()` treat as whitespace. */
  predicate IsSpace(c: char)
  {
    c in {' ', '\t', '\n', '\U{000B}', '\U{000C}', '\r', '\U{001C}', '\U{001D}', '\U{001E}', '\U{001F}',
          '\U{0085}', '\U{00A0}', '\U{1680}', '\U{2028}', '\U{2029}', '\U{202F}', '\U{205F}', '\U{3000}'}
    || '\U{2000}' <= c <= '\U{200A}'
  }

  /** Python `s.strip()`. */
  function Strip(s: string): (r: string)
    ensures |r| <= |s|
    ensures |r| > 0 ==> !IsSpace(r[0]) && !IsSpace(r[|r| - 1])
    ensures forall c :: c in r ==> c in s
    decreases |s|
  {
    if |s| > 0 && IsSpace(s[0]) then Strip(s[1..])
    else if |s| > 0 && IsSpace(s[|s| - 1]) then Strip(s[..|s| - 1])
    else s
  }

  /** Python `s.replace(a, b)` for single characters. */
  function ReplaceChar(s: string, a: char, b: char): (r: string)
    ensures |r| == |s|
    ensures forall i :: 0 <= i < |s| ==> r[i] == if s[i] == a then b else s[i]
  {
    seq(|s|, i requires 0 <= i < |s| => if s[i] == a then b else s[i])
  }

  /** Upper case for ASCII and basic Cyrillic letters, the inverse of `LowerChar` on lower-case letters. */
  function UpperChar(c: char): (r: char)
    ensures 'a' <= c <= 'z' || 'а' <= c <= 'я' ==> LowerChar(r) == c
  {
    if 'a' <= c <= 'z' then (c as int - 32) as char
    else if 'а' <= c <= 'я' then (c as int - 32) as char
    else if c == 'ё' then 'Ё'
    else c
  }

  /** Text that holds no upper-case letter. */
  predicate LowerFixed(s: string)
  {
    forall i :: 0 <= i < |s| ==> LowerChar(s[i]) == s[i]
  }

  /** Text without upper-case letters is its own lower-case form. */
  lemma LowerOfFixed(s: string)
    requires LowerFixed(s)
    ensures Lower(s) == s
  {
  }

  lemma LowerFixedConcat(a: string, b: string)
    requires LowerFixed(a) && LowerFixed(b)
    ensures LowerFixed(a + b)
  {
    forall i | 0 <= i < |a + b|
      ensures LowerChar((a + b)[i]) == (a + b)[i]
    {
      if i < |a| {
        assert (a + b)[i] == a[i];
      } else {
        assert (a + b)[i] == b[i - |a|];
      }
    }
  }

  /** Joining texts without upper-case letters gives one. */
  lemma {:induction false} JoinLowerFixed(parts: seq<string>, sep: string)
    requires LowerFixed(sep) && forall i :: 0 <= i < |parts| ==> LowerFixed(parts[i])
    ensures LowerFixed(Join(parts, sep))
    decreases |parts|
  {
    if |parts| > 1 {
      JoinLowerFixed(parts[1..], sep);
      LowerFixedConcat(parts[0], sep);
      LowerFixedConcat(parts[0] + sep, Join(parts[1..], sep));
    }
  }

  /** Capitalising text without upper-case letters raises only its first character. */
  lemma CapitalizeFixed(t: string)
    requires |t| > 0 && LowerFixed(t)
    ensures Capitalize(t) == [UpperChar(t[0])] + t[1..]
  {
    LowerOfFixed(t[1..]);
  }

  /** Digit strings hold no upper-case letter. */
  lemma DigitsLowerFixed(s: string)
    requires AllDigits(s)
    ensures LowerFixed(s)
  {
  }

  /** Python `s.capitalize()`: the first character in upper case, the rest in lower case. */
  function Capitalize(s: string): (r: string)
    ensures |r| == |s|
    ensures |s| > 0 ==> r[0] == UpperChar(s[0]) && r[1..] == Lower(s[1..])
  {
    if s == [] then [] else [UpperChar(s[0])] + Lower(s[1..])
  }

  /** Length of the run of digits at the start of `s`. */
  function DigitPrefix(s: string): (n: nat)
    ensures n <= |s|
    ensures forall i :: 0 <= i < n ==> IsDigit(s[i])
    ensures n < |s| ==> !IsDigit(s[n])
  {
    if |s| > 0 && IsDigit(s[0]) then 1 + DigitPrefix(s[1..]) else 0
  }

  /**
   * Python `re.findall(r'\b\d+\b', s)` on a string of digits, commas and
   * whitespace: every maximal run of digits, in order.
   */
  function DigitRuns(s: string): (r: seq<string>)
    ensures forall i :: 0 <= i < |r| ==> AllDigits(r[i])
    decreases |s|
  {
    if s == [] then []
    else if !IsDigit(s[0]) then DigitRuns(s[1..])
    else
      var n := DigitPrefix(s);
      [s[..n]] + DigitRuns(s[n..])
  }
}
