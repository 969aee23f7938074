/**
 * Shared vocabulary for the model: an Option type and the small string
 * operations (digit filtering, ASCII case mapping, substring search,
 * decimal rendering and splitting) that the backend's f-strings and the
 * frontend's regular expressions are built from.
 */
module Common {

  datatype Option<T> = None | Some(value: T)

  // ---------------------------------------------------------------------
  // Characters

  predicate IsDigit(c: char) { '0' <= c <= '9' }

  predicate AllDigits(s: string) { forall i :: 0 <= i < |s| ==> IsDigit(s[i]) }

  /** Upper-case letters of ASCII and Latin-1 ('A'..'Z', 'À'..'Þ' without '×'). */
  predicate IsUpperLetter(c: char)
  {
    'A' <= c <= 'Z' || ('\U{C0}' <= c <= '\U{DE}' && c != '\U{D7}')
  }

  /** Lower-case letters that have a one-character upper-case form in Latin-1. */
  predicate IsLowerLetter(c: char)
  {
    'a' <= c <= 'z' || ('\U{E0}' <= c <= '\U{FE}' && c != '\U{F7}')
  }

  /** Lower-casing over ASCII and Latin-1; every other character is left as it is. */
  function LowerChar(c: char): (r: char)
    ensures IsUpperLetter(c) ==> IsLowerLetter(r) && UpperChar(r) == c
    ensures !IsUpperLetter(c) ==> r == c
  {
    if IsUpperLetter(c) then (c as int + 32) as char else c
  }

  /** Upper-casing over ASCII and Latin-1; every other character is left as it is. */
  function UpperChar(c: char): (r: char)
    ensures IsLowerLetter(c) ==> IsUpperLetter(r)
    ensures !IsLowerLetter(c) ==> r == c
  {
    if IsLowerLetter(c) then (c as int - 32) as char else c
  }

  function Lower(s: string): (r: string)
    ensures |r| == |s|
    ensures forall i :: 0 <= i < |s| ==> r[i] == LowerChar(s[i])
  {
    if s == [] then [] else [LowerChar(s[0])] + Lower(s[1..])
  }

  function Upper(s: string): (r: string)
    ensures |r| == |s|
    ensures forall i :: 0 <= i < |s| ==> r[i] == UpperChar(s[i])
  {
    if s == [] then [] else [UpperChar(s[0])] + Upper(s[1..])
  }

  // ---------------------------------------------------------------------
  // Digit filtering: the `replace(/\D/g, '')` of the frontend masks

  function DigitsOf(s: string): (r: string)
    ensures |r| <= |s|
    ensures AllDigits(r)
  {
    if s == [] then []
    else (if IsDigit(s[0]) then [s[0]] else []) + DigitsOf(s[1..])
  }

  lemma {:induction false} DigitsOfAllDigits(s: string)
    requires AllDigits(s)
    ensures DigitsOf(s) == s
  {
    if s != [] {
      DigitsOfAllDigits(s[1..]);
    }
  }

  lemma {:induction false} DigitsOfConcat(a: string, b: string)
    ensures DigitsOf(a + b) == DigitsOf(a) + DigitsOf(b)
  {
    if a == [] {
      assert a + b == b;
    } else {
      assert (a + b)[1..] == a[1..] + b;
      DigitsOfConcat(a[1..], b);
    }
  }

  lemma {:induction false} DigitsOfNone(s: string)
    requires forall i :: 0 <= i < |s| ==> !IsDigit(s[i])
    ensures DigitsOf(s) == []
  {
    if s != [] {
      DigitsOfNone(s[1..]);
    }
  }

  /** Punctuation and digits appended to a text add just those digits. */
  lemma DigitsOfAppended(a: string, p: string, b: string)
    requires AllDigits(b) && DigitsOf(p) == []
    ensures DigitsOf(a + p + b) == DigitsOf(a) + b
  {
    DigitsOfConcat(a + p, b);
    DigitsOfConcat(a, p);
    DigitsOfAllDigits(b);
  }

  /** Filtering digits twice is filtering them once. */
  lemma DigitsOfIdempotent(s: string)
    ensures DigitsOf(DigitsOf(s)) == DigitsOf(s)
  {
    DigitsOfAllDigits(DigitsOf(s));
  }

  // ---------------------------------------------------------------------
  // Substrings and prefixes

  predicate IsPrefix(p: string, s: string) { |p| <= |s| && s[..|p|] == p }

  /** Python's `sub in s` and JavaScript's `s.includes(sub)`. */
  ghost predicate Contains(s: string, sub: string)
  {
    exists i :: OccursAt(s, sub, i)
  }

  predicate OccursAt(s: string, sub: string, i: int)
  {
    0 <= i && i + |sub| <= |s| && s[i..i + |sub|] == sub
  }

  /** An executable decision procedure for Contains. */
  function ContainsFrom(s: string, sub: string, i: nat): (r: bool)
    requires i <= |s|
    ensures r <==> exists j :: i <= j && OccursAt(s, sub, j)
    decreases |s| - i
  {
    if i + |sub| > |s| then false
    else if s[i..i + |sub|] == sub then assert OccursAt(s, sub, i); true
    else ContainsFrom(s, sub, i + 1)
  }

  function Includes(s: string, sub: string): (r: bool)
    ensures r <==> Contains(s, sub)
  {
    ContainsFrom(s, sub, 0)
  }

  // ---------------------------------------------------------------------
  // Decimal rendering: Python's `str(int)` / `f"{n}"` and `f"{n:02d}"`

  function DigitChar(d: nat): (c: char)
    requires d < 10
    ensures IsDigit(c)
  {
    ('0' as int + d) as char
  }

  function DigitValue(c: char): (d: nat)
    requires IsDigit(c)
    ensures d < 10
  {
    c as int - '0' as int
  }

  function NatToString(n: nat): (s: string)
    ensures |s| >= 1 && AllDigits(s)
    ensures n >= 10 ==> |s| >= 2
    ensures n < 10 ==> |s| == 1
    ensures |s| > 1 ==> s[0] != '0'
  {
    if n < 10 then [DigitChar(n)] else NatToString(n / 10) + [DigitChar(n % 10)]
  }

  /** The value of a string of decimal digits. */
  function ParseNat(s: string): nat
    requires AllDigits(s)
  {
    if s == [] then 0 else ParseNat(s[..|s| - 1]) * 10 + DigitValue(s[|s| - 1])
  }

  lemma {:induction false} ParseNatToString(n: nat)
    ensures ParseNat(NatToString(n)) == n
  {
    if n >= 10 {
      var s := NatToString(n);
      assert s[..|s| - 1] == NatToString(n / 10);
      ParseNatToString(n / 10);
    }
  }

  lemma NatToStringInjective(m: nat, n: nat)
    requires NatToString(m) == NatToString(n)
    ensures m == n
  {
    ParseNatToString(m);
    ParseNatToString(n);
  }

  /** Python's `str(i)` for an int. */
  function IntToString(i: int): (s: string)
    ensures |s| >= 1
    ensures i >= 0 ==> AllDigits(s)
  {
    if i < 0 then "-" + NatToString(-i) else NatToString(i)
  }

  /** Python's `f"{i:02d}"`: at least two characters, zero-filled after any sign. */
  function Pad2(i: int): (s: string)
    ensures 0 <= i < 100 ==> |s| == 2 && AllDigits(s)
    ensures |s| >= 2
  {
    if 0 <= i < 10 then "0" + NatToString(i)
    else if -10 < i < 0 then "-" + NatToString(-i)
    else IntToString(i)
  }

  lemma Pad2Injective(m: int, n: int)
    requires 0 <= m < 100 && 0 <= n < 100
    requires Pad2(m) == Pad2(n)
    ensures m == n
  {
    if m < 10 && n < 10 {
      assert Pad2(m)[1..] == NatToString(m);
      assert Pad2(n)[1..] == NatToString(n);
      NatToStringInjective(m, n);
    } else if m >= 10 && n >= 10 {
      NatToStringInjective(m, n);
    }
  }

  // ---------------------------------------------------------------------
  // Splitting and trimming: JavaScript's `split(sep)` and `trim()`

  /** Everything before the first occurrence of `sep`, or all of `s`. */
  function TakeUntil(s: string, sep: char): (r: string)
    ensures IsPrefix(r, s)
    ensures sep !in r
    ensures |r| < |s| ==> s[|r|] == sep
  {
    if s == [] || s[0] == sep then [] else [s[0]] + TakeUntil(s[1..], sep)
  }

  /** `s.split(sep)` for a one-character separator: never empty. */
  function Split(s: string, sep: char): (parts: seq<string>)
    ensures |parts| >= 1
    ensures forall i :: 0 <= i < |parts| ==> sep !in parts[i]
    decreases |s|
  {
    var head := TakeUntil(s, sep);
    if |head| == |s| then [s] else [head] + Split(s[|head| + 1..], sep)
  }

  /** Joining the pieces again with the separator gives back the input. */
  lemma {:induction false} SplitJoin(s: string, sep: char)
    ensures Join(Split(s, sep), sep) == s
    decreases |s|
  {
    var head := TakeUntil(s, sep);
    if |head| == |s| {
      assert head == s;
    } else {
      SplitJoin(s[|head| + 1..], sep);
      assert s == head + [sep] + s[|head| + 1..];
    }
  }

  function Join(parts: seq<string>, sep: char): string
    requires |parts| >= 1
  {
    if |parts| == 1 then parts[0] else parts[0] + [sep] + Join(parts[1..], sep)
  }

  predicate IsSpace(c: char) { c == ' ' || c == '\t' || c == '\n' || c == '\r' }

  function TrimStart(s: string): (r: string)
    ensures |r| <= |s| && r == s[|s| - |r|..]
    ensures r != [] ==> !IsSpace(r[0])
  {
    if s != [] && IsSpace(s[0]) then TrimStart(s[1..]) else s
  }

  function TrimEnd(s: string): (r: string)
    ensures |r| <= |s| && r == s[..|r|]
    ensures r != [] ==> !IsSpace(r[|r| - 1])
  {
    if s != [] && IsSpace(s[|s| - 1]) then TrimEnd(s[..|s| - 1]) else s
  }

  /** JavaScript's `trim()`, over the ASCII white-space characters. */
  function Trim(s: string): (r: string)
    ensures |r| <= |s|
    ensures r != [] ==> !IsSpace(r[0]) && !IsSpace(r[|r| - 1])
  {
    TrimEnd(TrimStart(s))
  }

  /** `!s.trim()` holds exactly for strings made only of white space. */
  lemma {:induction false} TrimEmptyIffBlank(s: string)
    ensures Trim(s) == [] <==> forall i :: 0 <= i < |s| ==> IsSpace(s[i])
  {
    TrimStartBlank(s);
    TrimEndBlank(TrimStart(s));
  }

  lemma {:induction false} TrimStartBlank(s: string)
    ensures TrimStart(s) == [] <==> forall i :: 0 <= i < |s| ==> IsSpace(s[i])
  {
    if s != [] && IsSpace(s[0]) {
      TrimStartBlank(s[1..]);
      if TrimStart(s) == [] {
        forall i | 0 <= i < |s| ensures IsSpace(s[i]) {
          if i > 0 { assert s[i] == s[1..][i - 1]; }
        }
      }
    }
  }

  lemma {:induction false} TrimEndBlank(s: string)
    ensures TrimEnd(s) == [] <==> forall i :: 0 <= i < |s| ==> IsSpace(s[i])
  {
    if s != [] && IsSpace(s[|s| - 1]) {
      TrimEndBlank(s[..|s| - 1]);
      if TrimEnd(s) == [] {
        forall i | 0 <= i < |s| ensures IsSpace(s[i]) {
          if i < |s| - 1 { assert s[i] == s[..|s| - 1][i]; }
        }
      }
    }
  }

  // ---------------------------------------------------------------------
  // Lexicographic order on strings: the order in which the document store
  // returns the documents of a query (ascending document id)

  predicate StrLt(a: string, b: string)
  {
    if a == [] then b != []
    else if b == [] then false
    else a[0] < b[0] || (a[0] == b[0] && StrLt(a[1..], b[1..]))
  }

  predicate StrLe(a: string, b: string) { a == b || StrLt(a, b) }

  lemma {:induction false} StrLtIrreflexive(a: string)
    ensures !StrLt(a, a)
  {
    if a != [] {
      StrLtIrreflexive(a[1..]);
    }
  }

  lemma {:induction false} StrLtTransitive(a: string, b: string, c: string)
    requires StrLt(a, b) && StrLt(b, c)
    ensures StrLt(a, c)
  {
    if a != [] && b != [] && c != [] && a[0] == b[0] && b[0] == c[0] {
      StrLtTransitive(a[1..], b[1..], c[1..]);
    }
  }

  lemma {:induction false} StrLtTotal(a: string, b: string)
    ensures a == b || StrLt(a, b) || StrLt(b, a)
  {
    if a != [] && b != [] && a[0] == b[0] {
      StrLtTotal(a[1..], b[1..]);
      if a[1..] == b[1..] {
        assert a == [a[0]] + a[1..] && b == [b[0]] + b[1..];
      }
    }
  }

  lemma StrLtAsymmetric(a: string, b: string)
    requires StrLt(a, b)
    ensures !StrLt(b, a)
  {
    if StrLt(b, a) {
      StrLtTransitive(a, b, a);
      StrLtIrreflexive(a);
    }
  }

  /** No element of the list appears twice. */
  predicate Distinct<T(==)>(xs: seq<T>)
  {
    forall i, j :: 0 <= i < j < |xs| ==> xs[i] != xs[j]
  }

  /** Least element of `xs` under StrLt: every element is at least `m`. */
  predicate IsLeast(m: string, xs: set<string>)
  {
    m in xs && forall x :: x in xs ==> StrLe(m, x)
  }

  lemma LeastUnique(m1: string, m2: string, xs: set<string>)
    requires IsLeast(m1, xs) && IsLeast(m2, xs)
    ensures m1 == m2
  {
    if m1 != m2 {
      StrLtAsymmetric(m1, m2);
    }
  }

  /** The first id a query returns: the least of the matching ids, if any. */
  method LeastOf(xs: set<string>) returns (r: Option<string>)
    ensures r.None? <==> xs == {}
    ensures r.Some? ==> IsLeast(r.value, xs)
  {
    r := None;
    var rest := xs;
    while rest != {}
      invariant rest <= xs
      invariant r.None? <==> rest == xs
      invariant r.Some? ==> IsLeast(r.value, xs - rest)
      decreases rest
    {
      var x :| x in rest;
      if r.None? {
        r := Some(x);
      } else {
        StrLtTotal(x, r.value);
        if StrLt(x, r.value) {
          forall y | y in xs - rest
            ensures StrLe(x, y)
          {
            if y != r.value && StrLt(r.value, y) {
              StrLtTransitive(x, r.value, y);
            }
          }
          r := Some(x);
        }
      }
      rest := rest - {x};
    }
  }

  /** Every non-empty set of strings has a least element. */
  lemma {:induction false} LeastExists(xs: set<string>)
    requires xs != {}
    ensures exists m :: IsLeast(m, xs)
    decreases xs
  {
    var x :| x in xs;
    if xs == {x} {
      assert IsLeast(x, xs);
    } else {
      LeastExists(xs - {x});
      var m :| IsLeast(m, xs - {x});
      StrLtTotal(m, x);
      if StrLt(x, m) {
        forall y | y in xs
          ensures StrLe(x, y)
        {
          if y != x && y != m {
            assert y in xs - {x};
            StrLtTransitive(x, m, y);
          }
        }
        assert IsLeast(x, xs);
      } else {
        assert IsLeast(m, xs);
      }
    }
  }

  /** Strictly ascending, hence without repetitions. */
  predicate StrictlySorted(ids: seq<string>)
  {
    forall i, j :: 0 <= i < j < |ids| ==> StrLt(ids[i], ids[j])
  }

  /** The elements of `xs` in ascending order. */
  ghost function Sorted(xs: set<string>): (r: seq<string>)
    ensures StrictlySorted(r)
    ensures forall x :: x in r <==> x in xs
    decreases xs
  {
    if xs == {} then []
    else
      LeastExists(xs);
      var m :| IsLeast(m, xs);
      var rest := Sorted(xs - {m});
      assert forall j :: 0 <= j < |rest| ==> StrLt(m, rest[j]) by {
        forall j | 0 <= j < |rest|
          ensures StrLt(m, rest[j])
        {
          assert rest[j] in xs - {m};
        }
      }
      [m] + rest
  }

  /** A set has exactly one strictly ascending listing. */
  lemma {:induction false} SortedUnique(a: seq<string>, b: seq<string>)
    requires StrictlySorted(a) && StrictlySorted(b)
    requires forall x :: x in a <==> x in b
    ensures a == b
    decreases |a|
  {
    assert a == [] <==> b == [] by {
      if a != [] {
        assert a[0] in b;
      }
      if b != [] {
        assert b[0] in a;
      }
    }
    if a != [] {
      assert a[0] == b[0] by {
        assert a[0] in b && b[0] in a;
        var i :| 0 <= i < |b| && b[i] == a[0];
        var j :| 0 <= j < |a| && a[j] == b[0];
        if a[0] != b[0] {
          assert StrLt(b[0], a[0]) && StrLt(a[0], b[0]);
          StrLtAsymmetric(a[0], b[0]);
        }
      }
      forall x
        ensures x in a[1..] <==> x in b[1..]
      {
        if x in a[1..] {
          var i :| 1 <= i < |a| && a[i] == x;
          StrLtIrreflexive(x);
          assert x in a && x in b;
          var k :| 0 <= k < |b| && b[k] == x;
          assert k != 0;
          assert b[1..][k - 1] == x;
        }
        if x in b[1..] {
          var i :| 1 <= i < |b| && b[i] == x;
          StrLtIrreflexive(x);
          assert x in b && x in a;
          var k :| 0 <= k < |a| && a[k] == x;
          assert k != 0;
          assert a[1..][k - 1] == x;
        }
      }
      SortedUnique(a[1..], b[1..]);
      assert a == [a[0]] + a[1..] && b == [b[0]] + b[1..];
    }
  }

  /** The elements of `xs` in ascending order: the order a query streams documents in. */
  method SortedIds(xs: set<string>) returns (ids: seq<string>)
    ensures ids == Sorted(xs)
    ensures forall i, j :: 0 <= i < j < |ids| ==> StrLt(ids[i], ids[j])
    ensures forall x :: x in ids <==> x in xs
  {
    ids := [];
    var rest := xs;
    while rest != {}
      invariant rest <= xs
      invariant forall x :: x in ids <==> x in xs - rest
      invariant forall i, j :: 0 <= i < j < |ids| ==> StrLt(ids[i], ids[j])
      invariant forall i, y :: 0 <= i < |ids| && y in rest ==> StrLt(ids[i], y)
      decreases rest
    {
      var least := LeastOf(rest);
      var x := least.value;
      ids := ids + [x];
      rest := rest - {x};
    }
    SortedUnique(ids, Sorted(xs));
  }

  // ---------------------------------------------------------------------
  // Sums

  /** Sum of a sequence of amounts, folded from the left as Python's sum() is. */
  function SumReals(xs: seq<real>): real
  {
    if xs == [] then 0.0 else SumReals(xs[..|xs| - 1]) + xs[|xs| - 1]
  }
}
