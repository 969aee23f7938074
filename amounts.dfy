/**
 * The amount field of the add-expense and add-income screens (the two
 * screens share the same code): typed text is reduced to its digits, read
 * as a number of cents, and shown as "R$ 1.234,56"; on submission the
 * shown text is parsed back into the amount sent to the API.
 */
module AmountMask {
  import opened Common
  import opened Formatters

  /** The two-digit rendering of a cent count below 100, as `toFixed(2)` ends. */
  function Cents(r: nat): (s: string)
    requires r < 100
    ensures |s| == 2 && AllDigits(s)
  {
    [DigitChar(r / 10), DigitChar(r % 10)]
  }

  lemma CentsValue(r: nat)
    requires r < 100
    ensures ParseNat(Cents(r)) == r
  {
    var s := Cents(r);
    assert s[..1] == [DigitChar(r / 10)];
    assert ParseNat(s[..1]) == r / 10 by {
      assert s[..1][..0] == [];
    }
  }

  /**
   * `/(\d)(?=(\d{3})+(?!\d))/g` replaced by `'$1.'` on a run of digits: a
   * '.' after every digit followed by a positive multiple of three digits.
   */
  function Group(s: string): string
    decreases |s|
  {
    if |s| <= 3 then s else Group(s[..|s| - 3]) + "." + s[|s| - 3..]
  }

  /** What the field shows for `n` cents: "R$ ", the grouped whole part, ',' and two cent digits. */
  function Shown(n: nat): string
  {
    "R$ " + Group(NatToString(n / 100)) + "," + Cents(n % 100)
  }

  /** The masked text starts with "R$ " and ends with ',' and two digits. */
  lemma ShownShape(n: nat)
    ensures var r := Shown(n);
      |r| >= 7 && r[..3] == "R$ " && r[|r| - 3] == ',' && AllDigits(r[|r| - 2..])
  {
    var r := Shown(n);
    assert r[|r| - 2..] == Cents(n % 100);
  }

  /**
   * `formatCurrency`: the digits of `value` read as cents (`parseInt`, then
   * `/ 100` and `toFixed(2)`), the decimal point turned into ',' and the
   * integer part grouped by '.'; with no digit at all `parseInt` is NaN.
   */
  function FormatCurrency(value: string): (r: string)
    ensures DigitsOf(value) == [] <==> r == "R$ NaN"
    ensures DigitsOf(value) != [] ==> exists n: nat :: r == Shown(n)
    ensures DigitsOf(value) != [] ==> r == Shown(ParseNat(DigitsOf(value)))
  {
    var digits := DigitsOf(value);
    if digits == [] then "R$ NaN"
    else
      var r := Shown(ParseNat(digits));
      ShownShape(ParseNat(digits));
      r
  }

  /** `handleAmountChange`: the new value of the field for the typed `text`. */
  function AmountFor(text: string): (r: string)
    ensures DigitsOf(text) == [] ==> r == ""
    ensures DigitsOf(text) != [] ==> r == FormatCurrency(DigitsOf(text))
  {
    var numeric := DigitsOf(text);
    if numeric == [] then "" else FormatCurrency(numeric)
  }

  // ---------------------------------------------------------------------
  // The digits of a shown amount

  lemma {:induction false} DigitsOfGroup(s: string)
    requires AllDigits(s)
    ensures DigitsOf(Group(s)) == s
    decreases |s|
  {
    if |s| <= 3 {
      DigitsOfAllDigits(s);
    } else {
      var a := s[..|s| - 3];
      var b := s[|s| - 3..];
      DigitsOfGroup(a);
      DigitsOfNone(".");
      DigitsOfAppended(Group(a), ".", b);
      assert s == a + b;
    }
  }

  lemma {:induction false} ParseNatConcat(a: string, b: string)
    requires AllDigits(a) && AllDigits(b)
    ensures ParseNat(a + b) == ParseNat(a) * Pow10(|b|) + ParseNat(b)
    decreases |b|
  {
    if b == [] {
      assert a + b == a;
    } else {
      var b' := b[..|b| - 1];
      var d := DigitValue(b[|b| - 1]);
      assert ParseNat(a + b) == ParseNat(a + b') * 10 + d by {
        assert (a + b)[..|a + b| - 1] == a + b';
        assert (a + b)[|a + b| - 1] == b[|b| - 1];
      }
      assert ParseNat(b) == ParseNat(b') * 10 + d;
      ParseNatConcat(a, b');
      ShiftDigit(ParseNat(a), Pow10(|b'|), ParseNat(b'), d);
    }
  }

  /** Appending a digit `d` to `x` followed by the value `y` of `k` digits, where `p` is 10^k. */
  lemma ShiftDigit(x: int, p: int, y: int, d: int)
    ensures (x * p + y) * 10 + d == x * (10 * p) + (y * 10 + d)
  {
    assert (x * p) * 10 == x * (10 * p);
  }

  /** A field holding at least one digit shows the mask of the cents typed. */
  lemma AmountForShown(text: string)
    requires DigitsOf(text) != []
    ensures AmountFor(text) == Shown(ParseNat(DigitsOf(text)))
  {
    DigitsOfIdempotent(text);
  }

  lemma ShownDigits(n: nat)
    ensures DigitsOf(Shown(n)) == NatToString(n / 100) + Cents(n % 100)
    ensures ParseNat(DigitsOf(Shown(n))) == n
  {
    var q := NatToString(n / 100);
    var c := Cents(n % 100);
    assert DigitsOf(Shown(n)) == q + c by {
      DigitsOfNone(",");
      DigitsOfAppended("R$ " + Group(q), ",", c);
      DigitsOfNone("R$ ");
      DigitsOfConcat("R$ ", Group(q));
      DigitsOfGroup(q);
    }
    assert ParseNat(q + c) == n by {
      ParseNatConcat(q, c);
      ParseNatToString(n / 100);
      CentsValue(n % 100);
      assert Pow10(2) == 100;
    }
  }

  /** Typing into the field again what it shows changes nothing: the mask is idempotent. */
  lemma AmountForIdempotent(text: string)
    ensures AmountFor(AmountFor(text)) == AmountFor(text)
  {
    var digits := DigitsOf(text);
    if digits != [] {
      AmountForShown(text);
      var n := ParseNat(digits);
      ShownDigits(n);
      DigitsOfIdempotent(Shown(n));
    }
  }

  // ---------------------------------------------------------------------
  // Parsing the shown text back

  /** `s.replace(sub, '')` with a string pattern: the first occurrence of `sub` removed. */
  function RemoveFirst(s: string, sub: string): (r: string)
    requires sub != []
    decreases |s|
  {
    if |s| < |sub| then s
    else if s[..|sub|] == sub then s[|sub|..]
    else [s[0]] + RemoveFirst(s[1..], sub)
  }

  /** `s.replace(/\./g, '')`: every '.' removed. */
  function RemoveDots(s: string): (r: string)
    ensures '.' !in r
  {
    if s == [] then []
    else (if s[0] == '.' then [] else [s[0]]) + RemoveDots(s[1..])
  }

  lemma RemoveCurrencyPrefix(rest: string)
    ensures RemoveFirst("R$ " + rest, "R$ ") == rest
  {
    assert ("R$ " + rest)[..3] == "R$ ";
    assert ("R$ " + rest)[3..] == rest;
  }

  lemma {:induction false} RemoveFirstAbsent(s: string, c: char)
    requires c !in s
    ensures RemoveFirst(s, [c]) == s
  {
    if |s| >= 1 {
      assert s[..1] != [c] by { assert s[..1][0] == s[0]; }
      RemoveFirstAbsent(s[1..], c);
    }
  }

  lemma {:induction false} RemoveFirstAfter(a: string, b: string, c: char)
    requires c !in a
    ensures RemoveFirst(a + b, [c]) == a + RemoveFirst(b, [c])
  {
    if a != [] {
      assert (a + b)[..1] == a[..1] && a[..1][0] == a[0];
      assert (a + b)[1..] == a[1..] + b;
      RemoveFirstAfter(a[1..], b, c);
    } else {
      assert a + b == b;
    }
  }

  lemma RemoveFirstHere(c: char, b: string)
    ensures RemoveFirst([c] + b, [c]) == b
  {
    assert ([c] + b)[..1] == [c];
    assert ([c] + b)[1..] == b;
  }

  lemma {:induction false} RemoveDotsConcat(a: string, b: string)
    ensures RemoveDots(a + b) == RemoveDots(a) + RemoveDots(b)
  {
    if a == [] {
      assert a + b == b;
    } else {
      var head := if a[0] == '.' then [] else [a[0]];
      assert (a + b)[0] == a[0] && (a + b)[1..] == a[1..] + b;
      RemoveDotsConcat(a[1..], b);
      assert head + (RemoveDots(a[1..]) + RemoveDots(b)) == (head + RemoveDots(a[1..])) + RemoveDots(b);
    }
  }

  lemma {:induction false} RemoveDotsAbsent(s: string)
    requires '.' !in s
    ensures RemoveDots(s) == s
  {
    if s != [] {
      assert s[0] in s;
      RemoveDotsAbsent(s[1..]);
    }
  }

  lemma RemoveDotsSeparator(b: string)
    requires AllDigits(b)
    ensures RemoveDots("." + b) == b
  {
    RemoveDotsConcat(".", b);
    assert RemoveDots(".") == [];
    NoCommaInDigits(b);
    RemoveDotsAbsent(b);
  }

  lemma {:induction false} RemoveDotsGroup(s: string)
    requires AllDigits(s)
    ensures RemoveDots(Group(s)) == s
    decreases |s|
  {
    if |s| <= 3 {
      assert Group(s) == s;
      NoCommaInDigits(s);
      RemoveDotsAbsent(s);
    } else {
      var a := s[..|s| - 3];
      var b := s[|s| - 3..];
      assert s == a + b;
      assert Group(s) == Group(a) + ("." + b);
      RemoveDotsGroup(a);
      RemoveDotsJoin(Group(a), a, b);
    }
  }

  lemma RemoveDotsJoin(g: string, a: string, b: string)
    requires AllDigits(b) && RemoveDots(g) == a
    ensures RemoveDots(g + ("." + b)) == a + b
  {
    RemoveDotsSeparator(b);
    RemoveDotsConcat(g, "." + b);
  }

  lemma {:induction false} IndexOfAfter(a: string, b: string, c: char)
    requires c !in a
    ensures c in a + [c] + b && IndexOf(a + [c] + b, c) == |a|
  {
    var s := a + [c] + b;
    assert s[|a|] == c;
    if a != [] {
      assert s[0] == a[0] && s[1..] == a[1..] + [c] + b;
      IndexOfAfter(a[1..], b, c);
    }
  }

  /** `replace(',', '.')` on digits, ',' and more: that ',' becomes the decimal point. */
  lemma ReplaceCommaAfter(a: string, b: string)
    requires ',' !in a
    ensures ReplaceFirstComma(a + [','] + b) == a + "." + b
  {
    var s := a + [','] + b;
    IndexOfAfter(a, b, ',');
    assert s[..|a|] == a && s[|a| + 1..] == b;
  }

  lemma NoCommaInDigits(s: string)
    requires AllDigits(s)
    ensures ',' !in s && '.' !in s
  {
    forall i | 0 <= i < |s|
      ensures s[i] != ',' && s[i] != '.'
    {
      assert IsDigit(s[i]);
    }
  }

  /** `parseFloat` of whole digits, '.', and two cent digits. */
  lemma ParseCents(q: nat, r: nat)
    requires r < 100
    ensures ParseDecimal(NatToString(q) + "." + Cents(r)) == Some((100 * q + r) as real / 100.0)
  {
    var w := NatToString(q);
    var c := Cents(r);
    assert ParseDecimal(w + "." + c) == Some(DecimalValue(w, c)) by {
      ParseDecimalParts(w, c, []);
      assert w + "." + c + [] == w + "." + c;
    }
    assert DecimalValue(w, c) == q as real + r as real / 100.0 by {
      ParseNatToString(q);
      CentsValue(r);
      assert Pow10(2) == 100;
    }
  }

  /** The decimal text of `n` cents parses to `n / 100`. */
  lemma ParseCentsOf(n: nat)
    ensures ParseDecimal(NatToString(n / 100) + "." + Cents(n % 100)) == Some(n as real / 100.0)
  {
    ParseCents(n / 100, n % 100);
    assert 100 * (n / 100) + n % 100 == n;
  }


  /** The text the submit handler parses: "R$ " removed, the first '.' removed, the first ',' made '.'. */
  function CleanAsWritten(amount: string): string
  {
    ReplaceFirstComma(RemoveFirst(RemoveFirst(amount, "R$ "), "."))
  }

  /** The amount as written: `parseFloat(amount.replace('R$ ', '').replace('.', '').replace(',', '.'))`. */
  function ParseAmountAsWritten(amount: string): Option<real>
  {
    ParseDecimal(CleanAsWritten(amount))
  }

  /** The amount as intended: every thousands separator removed. */
  function ParseAmount(amount: string): Option<real>
  {
    ParseDecimal(ReplaceFirstComma(RemoveDots(RemoveFirst(amount, "R$ "))))
  }

  lemma ShownSplit(n: nat)
    ensures Shown(n) == "R$ " + (Group(NatToString(n / 100)) + [','] + Cents(n % 100))
  {
  }

  lemma StripShown(n: nat)
    ensures RemoveFirst(Shown(n), "R$ ") == Group(NatToString(n / 100)) + [','] + Cents(n % 100)
  {
    ShownSplit(n);
    RemoveCurrencyPrefix(Group(NatToString(n / 100)) + [','] + Cents(n % 100));
  }

  lemma RemoveDotsBody(q: string, c: string)
    requires AllDigits(q) && AllDigits(c)
    ensures RemoveDots(Group(q) + [','] + c) == q + [','] + c
  {
    var g := Group(q);
    var t := [','] + c;
    assert RemoveDots(g + [','] + c) == RemoveDots(g) + RemoveDots(t) by {
      assert g + [','] + c == g + t;
      RemoveDotsConcat(g, t);
    }
    assert RemoveDots(g) == q by {
      RemoveDotsGroup(q);
    }
    assert RemoveDots(t) == t by {
      NoCommaInDigits(c);
      RemoveDotsAbsent(t);
    }
    assert q + t == q + [','] + c;
  }

  lemma CleanShown(n: nat)
    ensures ReplaceFirstComma(RemoveDots(RemoveFirst(Shown(n), "R$ "))) ==
      NatToString(n / 100) + "." + Cents(n % 100)
  {
    var q := NatToString(n / 100);
    var c := Cents(n % 100);
    StripShown(n);
    RemoveDotsBody(q, c);
    NoCommaInDigits(q);
    ReplaceCommaAfter(q, c);
  }

  /** Parsing what the mask shows for `n` cents gives back `n / 100`, for every `n`. */
  lemma ParseAmountInvertsMask(n: nat)
    ensures ParseAmount(Shown(n)) == Some(n as real / 100.0)
  {
    CleanShown(n);
    ParseCentsOf(n);
  }

  lemma {:induction false} NatToStringShort(m: nat, k: nat)
    requires 1 <= k && m < Pow10(k)
    ensures |NatToString(m)| <= k
  {
    if m >= 10 {
      assert k == 1 ==> Pow10(k) == 10;
      NatToStringShort(m / 10, k - 1);
    }
  }

  lemma RemoveFirstDotShown(n: nat)
    requires |NatToString(n / 100)| <= 6
    ensures RemoveFirst(RemoveFirst(Shown(n), "R$ "), ".") == NatToString(n / 100) + [','] + Cents(n % 100)
  {
    var q := NatToString(n / 100);
    var c := Cents(n % 100);
    ShownSplit(n);
    RemoveCurrencyPrefix(Group(q) + [','] + c);
    RemoveFirstDotGrouped(q, c);
  }

  /** With at most two groups of digits, removing the first '.' undoes the grouping. */
  lemma RemoveFirstDotGrouped(q: string, c: string)
    requires AllDigits(q) && |q| <= 6 && AllDigits(c)
    ensures RemoveFirst(Group(q) + [','] + c, ".") == q + [','] + c
  {
    RemoveFirstSeparator(q, c, '.');
  }

  /** The same, with the separator `d` (a '.') kept symbolic. */
  lemma RemoveFirstSeparator(q: string, c: string, d: char)
    requires AllDigits(q) && |q| <= 6 && AllDigits(c) && d == '.'
    ensures RemoveFirst(Group(q) + [','] + c, [d]) == q + [','] + c
  {
    if |q| <= 3 {
      RemoveFirstOneGroup(q, c, d);
    } else {
      RemoveFirstTwoGroups(q, c, d);
    }
  }

  lemma RemoveFirstOneGroup(q: string, c: string, d: char)
    requires AllDigits(q) && |q| <= 3 && AllDigits(c) && d == '.'
    ensures RemoveFirst(Group(q) + [','] + c, [d]) == q + [','] + c
  {
    NoCommaInDigits(q);
    NoCommaInDigits(c);
    assert Group(q) == q;
    assert d !in q + [','] + c;
    RemoveFirstAbsent(q + [','] + c, d);
  }

  lemma RemoveFirstTwoGroups(q: string, c: string, d: char)
    requires AllDigits(q) && 3 < |q| <= 6 && AllDigits(c) && d == '.'
    ensures RemoveFirst(Group(q) + [','] + c, [d]) == q + [','] + c
  {
    var a := q[..|q| - 3];
    var rest := q[|q| - 3..] + [','] + c;
    assert Group(q) + [','] + c == a + [d] + rest && d !in a by {
      GroupTwo(q);
      NoCommaInDigits(a);
    }
    RemoveFirstAt(a, rest, d);
    assert a + rest == q + [','] + c by {
      assert a + q[|q| - 3..] == q;
    }
  }

  /** Removing the first `d` of `a d rest`, where `a` holds none. */
  lemma RemoveFirstAt(a: string, rest: string, d: char)
    requires d !in a
    ensures RemoveFirst(a + [d] + rest, [d]) == a + rest
  {
    assert a + [d] + rest == a + ([d] + rest);
    RemoveFirstAfter(a, [d] + rest, d);
    RemoveFirstHere(d, rest);
  }

  /** Four to six digits form exactly two groups. */
  lemma GroupTwo(q: string)
    requires AllDigits(q) && 3 < |q| <= 6
    ensures Group(q) == q[..|q| - 3] + "." + q[|q| - 3..]
  {
    assert Group(q[..|q| - 3]) == q[..|q| - 3];
  }

  /** Below 1.000.000,00 the shown amount holds at most one '.', and the parse as written is exact. */
  lemma ParseAmountAsWrittenBelowMillion(n: nat)
    requires n < 100000000
    ensures ParseAmountAsWritten(Shown(n)) == Some(n as real / 100.0)
  {
    assert Pow10(6) == 1000000;
    NatToStringShort(n / 100, 6);
    RemoveFirstDotShown(n);
    NoCommaInDigits(NatToString(n / 100));
    ReplaceCommaAfter(NatToString(n / 100), Cents(n % 100));
    ParseCentsOf(n);
  }

  // The counterexample, one step per lemma.

  lemma NumeralOfCount()
    ensures NatToString(1234567) == "1234567"
  {
    assert NatToString(12) == "12";
    assert NatToString(123) == "123";
    assert NatToString(1234) == "1234";
    assert NatToString(12345) == "12345";
    assert NatToString(123456) == "123456";
  }

  lemma GroupOfCount()
    ensures Group("1234567") == "1.234.567"
  {
    assert "1234567"[..4] == "1234" && "1234567"[4..] == "567";
    assert "1234"[..1] == "1" && "1234"[1..] == "234";
  }

  lemma CentsOfCount()
    ensures Cents(123456789 % 100) == "89"
  {
  }

  /** The mask shows 123456789 typed cents as "R$ 1.234.567,89". */
  lemma MillionsShown()
    ensures Shown(123456789) == "R$ 1.234.567,89"
  {
    NumeralOfCount();
    GroupOfCount();
    CentsOfCount();
  }

  /** The parse as written on a shown amount with two thousands separators. */
  lemma CleanTwoSeparators(a: string, b: string, c: string, d: string)
    requires AllDigits(a) && AllDigits(b) && AllDigits(c) && AllDigits(d)
    ensures CleanAsWritten("R$ " + a + "." + b + "." + c + "," + d) == a + b + "." + c + "." + d
  {
    var tail := b + "." + c + "," + d;
    assert RemoveFirst(RemoveFirst("R$ " + a + "." + b + "." + c + "," + d, "R$ "), ".") == a + tail by {
      assert "R$ " + a + "." + b + "." + c + "," + d == "R$ " + (a + (['.'] + tail));
      RemoveCurrencyPrefix(a + (['.'] + tail));
      NoCommaInDigits(a);
      RemoveFirstAfter(a, ['.'] + tail, '.');
      RemoveFirstHere('.', tail);
    }
    assert a + tail == (a + b + "." + c) + [','] + d;
    assert ',' !in a + b + "." + c by {
      NoCommaInDigits(a);
      NoCommaInDigits(b);
      NoCommaInDigits(c);
      forall i | 0 <= i < |a + b + "." + c|
        ensures (a + b + "." + c)[i] != ','
      {
        if i < |a| {
          assert (a + b + "." + c)[i] == a[i];
        } else if i < |a| + |b| {
          assert (a + b + "." + c)[i] == b[i - |a|];
        } else if i > |a| + |b| {
          assert (a + b + "." + c)[i] == c[i - |a| - |b| - 1];
        }
      }
    }
    ReplaceCommaAfter(a + b + "." + c, d);
  }

  lemma ValueOf1234()
    ensures ParseNat("1234") == 1234
  {
    assert "1234"[..3] == "123" && "123"[..2] == "12" && "12"[..1] == "1";
  }

  lemma ValueOf567()
    ensures ParseNat("567") == 567
  {
    assert "567"[..2] == "56" && "56"[..1] == "5";
  }

  lemma ValueOfMillions()
    ensures DecimalValue("1234", "567") == 1234.567
  {
    ValueOf1234();
    ValueOf567();
    assert Pow10(3) == 1000;
  }

  lemma ParseMillions()
    ensures ParseDecimal("1234.567.89") == Some(1234.567)
  {
    var s := "1234" + "." + "567" + ".89";
    assert s == "1234.567.89";
    ParseDecimalParts("1234", "567", ".89");
    ValueOfMillions();
  }

  /**
   * From 1.000.000,00 on the parse as written keeps a second '.': the
   * 1234567.89 the field shows is sent as 1234.567.
   */
  lemma ParseAmountAsWrittenMillions()
    ensures ParseAmountAsWritten(Shown(123456789)) == Some(1234.567)
  {
    MillionsShown();
    CleanMillions();
    ParseMillions();
  }

  lemma CleanMillions()
    ensures CleanAsWritten("R$ 1.234.567,89") == "1234.567.89"
  {
    CleanTwoSeparators("1", "234", "567", "89");
    MillionsPieces();
  }

  lemma MillionsPieces()
    ensures "R$ " + "1" + "." + "234" + "." + "567" + "," + "89" == "R$ 1.234.567,89"
    ensures "1" + "234" + "." + "567" + "." + "89" == "1234.567.89"
  {
  }

  /** The corrected parse sends what the field shows. */
  lemma ParseAmountMillions()
    ensures ParseAmount(Shown(123456789)) == Some(1234567.89)
  {
    ParseAmountInvertsMask(123456789);
  }
}
