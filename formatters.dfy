/**
 * The frontend's string formatters: date strings between the display form
 * DD/MM/YYYY and the API form YYYY-MM-DD, amounts as sent to the API, the
 * copy of a form prepared for the API, and the names of the fixed
 * category ids.
 */
module Formatters {
  import opened Common

  /** A JavaScript value as the formatters see it. */
  datatype Js = Undefined | Null | Str(s: string) | Num(n: real) | Bool(b: bool) | DateObj | Obj

  /** JavaScript truthiness (NaN is not modelled). */
  predicate Truthy(v: Js)
  {
    match v
    case Undefined => false
    case Null => false
    case Str(s) => s != ""
    case Num(n) => n != 0.0
    case Bool(b) => b
    case DateObj => true
    case Obj => true
  }

  // ---------------------------------------------------------------------
  // Splitting on a separator

  lemma {:induction false} TakeUntilWithout(a: string, sep: char)
    requires sep !in a
    ensures TakeUntil(a, sep) == a
  {
    if a != [] {
      TakeUntilWithout(a[1..], sep);
    }
  }

  lemma {:induction false} TakeUntilBefore(a: string, b: string, sep: char)
    requires sep !in a
    ensures TakeUntil(a + [sep] + b, sep) == a
  {
    if a != [] {
      assert (a + [sep] + b)[1..] == a[1..] + [sep] + b;
      TakeUntilBefore(a[1..], b, sep);
    }
  }

  lemma SplitWithout(a: string, sep: char)
    requires sep !in a
    ensures Split(a, sep) == [a]
  {
    TakeUntilWithout(a, sep);
  }

  lemma SplitAfter(a: string, b: string, sep: char)
    requires sep !in a
    ensures Split(a + [sep] + b, sep) == [a] + Split(b, sep)
  {
    TakeUntilBefore(a, b, sep);
    assert (a + [sep] + b)[|a| + 1..] == b;
  }

  /** Splitting a string made of pieces without the separator gives back the pieces. */
  lemma SplitThree(a: string, b: string, c: string, sep: char)
    requires sep !in a && sep !in b && sep !in c
    ensures Split(a + [sep] + b + [sep] + c, sep) == [a, b, c]
  {
    SplitWithout(c, sep);
    SplitAfter(b, c, sep);
    assert a + [sep] + b + [sep] + c == a + [sep] + (b + [sep] + c);
    SplitAfter(a, b + [sep] + c, sep);
  }

  // ---------------------------------------------------------------------
  // Dates

  /** `/^\d{4}-\d{2}-\d{2}$/`. */
  predicate IsApiDate(s: string)
  {
    |s| == 10 && AllDigits(s[..4]) && s[4] == '-' && AllDigits(s[5..7]) && s[7] == '-' && AllDigits(s[8..])
  }

  /** `/^\d{2}\/\d{2}\/\d{4}$/`. */
  predicate IsDisplayDate(s: string)
  {
    |s| == 10 && AllDigits(s[..2]) && s[2] == '/' && AllDigits(s[3..5]) && s[5] == '/' && AllDigits(s[6..])
  }

  /** The pieces of a date string on either separator. */
  lemma SplitDates(s: string)
    ensures IsApiDate(s) ==> Split(s, '-') == [s[..4], s[5..7], s[8..]]
    ensures IsDisplayDate(s) ==> Split(s, '/') == [s[..2], s[3..5], s[6..]]
  {
    if IsApiDate(s) {
      assert s == s[..4] + ['-'] + s[5..7] + ['-'] + s[8..];
      SplitThree(s[..4], s[5..7], s[8..], '-');
    }
    if IsDisplayDate(s) {
      assert s == s[..2] + ['/'] + s[3..5] + ['/'] + s[6..];
      SplitThree(s[..2], s[3..5], s[6..], '/');
    }
  }

  /**
   * `formatDateForAPI`. `viaDate` is what the JavaScript `Date` path yields
   * for any other input (the parsed date's ISO day, or today's): clock and
   * parsing are outside the model.
   */
  function DateForAPI(date: Js, viaDate: string): (r: string)
    ensures date.Str? && IsApiDate(date.s) ==> r == date.s
    ensures date.Str? && IsDisplayDate(date.s) ==>
      r == date.s[6..] + "-" + date.s[3..5] + "-" + date.s[..2]
    ensures !(date.Str? && (IsApiDate(date.s) || IsDisplayDate(date.s))) ==> r == viaDate
  {
    if date.Str? && IsApiDate(date.s) then date.s
    else if date.Str? && IsDisplayDate(date.s) then
      var parts := Split(date.s, '/');
      SplitDates(date.s);
      parts[2] + "-" + parts[1] + "-" + parts[0]
    else viaDate
  }

  /** `formatDateForDisplay`, with `viaDate` the `toLocaleDateString` of any other input. */
  function DateForDisplay(date: Js, viaDate: string): (r: string)
    ensures date.Str? && IsDisplayDate(date.s) ==> r == date.s
    ensures date.Str? && IsApiDate(date.s) ==>
      r == date.s[8..] + "/" + date.s[5..7] + "/" + date.s[..4]
    ensures !(date.Str? && (IsApiDate(date.s) || IsDisplayDate(date.s))) ==> r == viaDate
  {
    if date.Str? && IsDisplayDate(date.s) then date.s
    else if date.Str? && IsApiDate(date.s) then
      var parts := Split(date.s, '-');
      SplitDates(date.s);
      parts[2] + "/" + parts[1] + "/" + parts[0]
    else viaDate
  }

  /** The two date forms never overlap. */
  lemma DateFormsDisjoint(s: string)
    ensures IsApiDate(s) ==> !IsDisplayDate(s)
  {
    if IsApiDate(s) {
      assert IsDigit(s[..4][2]) && s[..4][2] == s[2];
    }
  }

  /** Converting a display date for the API and back gives the display date. */
  lemma DisplayApiDisplay(s: string, viaDate: string, viaDate': string)
    requires IsDisplayDate(s)
    ensures IsApiDate(DateForAPI(Str(s), viaDate))
    ensures DateForDisplay(Str(DateForAPI(Str(s), viaDate)), viaDate') == s
  {
    DateFormsDisjoint(s);
    var api := DateForAPI(Str(s), viaDate);
    assert api[..4] == s[6..] && api[5..7] == s[3..5] && api[8..] == s[..2];
    DateFormsDisjoint(api);
    assert s == s[..2] + "/" + s[3..5] + "/" + s[6..];
  }

  /** Converting an API date for display and back gives the API date. */
  lemma ApiDisplayApi(s: string, viaDate: string, viaDate': string)
    requires IsApiDate(s)
    ensures IsDisplayDate(DateForDisplay(Str(s), viaDate))
    ensures DateForAPI(Str(DateForDisplay(Str(s), viaDate)), viaDate') == s
  {
    DateFormsDisjoint(s);
    var shown := DateForDisplay(Str(s), viaDate);
    assert shown[..2] == s[8..] && shown[3..5] == s[5..7] && shown[6..] == s[..4];
    DateFormsDisjoint(shown);
    assert s == s[..4] + "-" + s[5..7] + "-" + s[8..];
  }

  /** Both conversions leave a string already in their target form alone, so they are idempotent. */
  lemma DateConversionsIdempotent(date: Js, viaDate: string, viaDate': string)
    ensures var api := DateForAPI(date, viaDate);
      IsApiDate(api) ==> DateForAPI(Str(api), viaDate') == api
    ensures var shown := DateForDisplay(date, viaDate);
      IsDisplayDate(shown) ==> DateForDisplay(Str(shown), viaDate') == shown
  {
  }

  // ---------------------------------------------------------------------
  // Amounts

  /** `/[^\d,.-]/g` removed: only digits, ',', '.' and '-' are kept, in order. */
  function KeepNumeric(s: string): (r: string)
    ensures |r| <= |s|
    ensures forall i :: 0 <= i < |r| ==> IsDigit(r[i]) || r[i] in ",.-"
  {
    if s == [] then []
    else (if IsDigit(s[0]) || s[0] in ",.-" then [s[0]] else []) + KeepNumeric(s[1..])
  }

  /** Keeping the numeric characters of a string made only of them changes nothing. */
  lemma {:induction false} KeepNumericKeepsNumeric(s: string)
    requires forall i :: 0 <= i < |s| ==> IsDigit(s[i]) || s[i] in ",.-"
    ensures KeepNumeric(s) == s
  {
    if s != [] {
      KeepNumericKeepsNumeric(s[1..]);
    }
  }

  /** The position of the first `c` in `s`. */
  function IndexOf(s: string, c: char): (i: nat)
    requires c in s
    ensures i < |s| && s[i] == c && c !in s[..i]
  {
    if s[0] == c then 0
    else
      var j := IndexOf(s[1..], c);
      assert s[..j + 1] == [s[0]] + s[1..][..j];
      j + 1
  }

  /** `replace(',', '.')` with a string pattern: only the first ',' becomes '.'. */
  function ReplaceFirstComma(s: string): (r: string)
    ensures |r| == |s|
    ensures ',' !in s ==> r == s
    ensures ',' in s ==> r == s[..IndexOf(s, ',')] + "." + s[IndexOf(s, ',') + 1..]
  {
    if ',' in s then
      var i := IndexOf(s, ',');
      s[..i] + "." + s[i + 1..]
    else s
  }

  /** The leading run of decimal digits. */
  function LeadingDigits(s: string): (r: string)
    ensures |r| <= |s| && r == s[..|r|] && AllDigits(r)
    ensures |r| < |s| ==> !IsDigit(s[|r|])
  {
    if s != [] && IsDigit(s[0]) then [s[0]] + LeadingDigits(s[1..]) else []
  }

  function Pow10(n: nat): (p: nat)
    ensures p >= 1
  {
    if n == 0 then 1 else 10 * Pow10(n - 1)
  }

  /**
   * `parseFloat` on a string of digits, ',', '.' and '-': an optional '-',
   * integer digits and, after a '.', fraction digits; NaN (None) when
   * neither part has a digit. Parsing stops at the first other character.
   */
  function ParseDecimal(s: string): (r: Option<real>)
    ensures var body := if |s| > 0 && s[0] == '-' then s[1..] else s;
      r.None? <==> (LeadingDigits(body) == [] && !(|body| > 1 && body[0] == '.' && IsDigit(body[1])))
  {
    var neg := |s| > 0 && s[0] == '-';
    var body := if neg then s[1..] else s;
    var whole := LeadingDigits(body);
    var rest := body[|whole|..];
    var frac := if |rest| > 0 && rest[0] == '.' then LeadingDigits(rest[1..]) else [];
    if whole == [] && frac == [] then None
    else
      var v := DecimalValue(whole, frac);
      Some(if neg then -v else v)
  }

  /** The value of integer digits `whole` followed by fraction digits `frac`. */
  function DecimalValue(whole: string, frac: string): real
    requires AllDigits(whole) && AllDigits(frac)
  {
    ParseNat(whole) as real + ParseNat(frac) as real / Pow10(|frac|) as real
  }

  /** `formatDecimalForAPI`: numbers pass, strings are cleaned and parsed (NaN gives 0), anything else is 0. */
  function DecimalForAPI(value: Js): (r: real)
    ensures value.Num? ==> r == value.n
    ensures !value.Num? && !value.Str? ==> r == 0.0
    ensures value.Str? ==> var p := ParseDecimal(ReplaceFirstComma(KeepNumeric(value.s)));
      r == if p.None? then 0.0 else p.value
  {
    match value
    case Num(n) => n
    case Str(s) =>
      var p := ParseDecimal(ReplaceFirstComma(KeepNumeric(s)));
      if p.None? then 0.0 else p.value
    case _ => 0.0
  }

  lemma {:induction false} KeepNumericConcat(a: string, b: string)
    ensures KeepNumeric(a + b) == KeepNumeric(a) + KeepNumeric(b)
  {
    if a != [] {
      var head := if IsDigit(a[0]) || a[0] in ",.-" then [a[0]] else [];
      assert (a + b)[0] == a[0] && (a + b)[1..] == a[1..] + b;
      assert KeepNumeric(a + b) == head + KeepNumeric(a[1..] + b);
      KeepNumericConcat(a[1..], b);
      assert head + (KeepNumeric(a[1..]) + KeepNumeric(b)) == (head + KeepNumeric(a[1..])) + KeepNumeric(b);
    } else {
      assert a + b == b;
    }
  }

  /** The currency prefix "R$ " is dropped whole. */
  lemma KeepNumericDropsPrefix(amount: string)
    ensures KeepNumeric("R$ " + amount) == KeepNumeric(amount)
  {
    KeepNumericConcat("R$ ", amount);
    assert KeepNumeric(" ") == "";
    assert KeepNumeric("$ ") == "";
    assert KeepNumeric("R$ ") == "";
  }

  /** The leading digits of digits followed by a non-digit. */
  lemma {:induction false} LeadingDigitsOf(a: string, b: string)
    requires AllDigits(a) && (b == [] || !IsDigit(b[0]))
    ensures LeadingDigits(a + b) == a
  {
    if a == [] {
      assert a + b == b;
    } else {
      assert (a + b)[0] == a[0] && (a + b)[1..] == a[1..] + b;
      LeadingDigitsOf(a[1..], b);
    }
  }

  /**
   * A run of digits, '.', a run of digits and anything not starting with a
   * digit parses as the whole part plus the fraction.
   */
  lemma ParseDecimalParts(w: string, f: string, tail: string)
    requires w != [] && AllDigits(w) && AllDigits(f)
    requires tail == [] || !IsDigit(tail[0])
    ensures ParseDecimal(w + "." + f + tail) == Some(DecimalValue(w, f))
  {
    var rest := "." + (f + tail);
    var s := w + rest;
    assert w + "." + f + tail == s;
    assert s[0] != '-' by { assert s[0] == w[0]; }
    LeadingDigitsOf(w, rest);
    assert LeadingDigits(s) == w;
    assert s[|w|..] == rest;
    assert rest[1..] == f + tail;
    LeadingDigitsOf(f, tail);
    assert LeadingDigits(rest[1..]) == f;
  }

  lemma LeadingTwelve()
    ensures LeadingDigits("12.50") == "12" && LeadingDigits("50") == "50"
  {
    LeadingDigitsOf("12", ".50");
    assert "12" + ".50" == "12.50";
    LeadingDigitsOf("50", []);
    assert "50" + [] == "50";
  }

  lemma ValuesTwelveFifty()
    ensures ParseNat("12") == 12 && ParseNat("50") == 50
  {
    assert "12"[..1] == "1" && "50"[..1] == "5";
  }

  lemma ParseTwelveFifty()
    ensures ParseDecimal("12.50") == Some(12.5)
  {
    LeadingTwelve();
    assert "12.50"[2..] == ".50" && ".50"[1..] == "50";
    ValuesTwelveFifty();
    assert Pow10(2) == 100;
  }

  lemma LeadingOne()
    ensures LeadingDigits("1.234.56") == "1" && LeadingDigits("234.56") == "234"
  {
    LeadingDigitsOf("1", ".234.56");
    assert "1" + ".234.56" == "1.234.56";
    LeadingDigitsOf("234", ".56");
    assert "234" + ".56" == "234.56";
  }

  lemma Value234()
    ensures ParseNat("234") == 234
  {
    assert "234"[..2] == "23" && "23"[..1] == "2";
  }

  lemma ParseOnePoint234()
    ensures ParseDecimal("1.234.56") == Some(1.234)
  {
    LeadingOne();
    assert "1.234.56"[1..] == ".234.56" && ".234.56"[1..] == "234.56";
    assert ParseNat("1") == 1;
    Value234();
    assert Pow10(3) == 1000;
  }

  lemma CleanTwelveFifty()
    ensures ReplaceFirstComma(KeepNumeric("R$ 12,50")) == "12.50"
  {
    KeepTwelveFifty();
    CommaAtTwo();
  }

  lemma KeepTwelveFifty()
    ensures KeepNumeric("R$ 12,50") == "12,50"
  {
    KeepNumericDropsPrefix("12,50");
    assert "R$ 12,50" == "R$ " + "12,50";
    NumericTwelveFifty();
  }

  lemma NumericTwelveFifty()
    ensures KeepNumeric("12,50") == "12,50"
  {
    KeepNumericKeepsNumeric("12,50");
  }

  lemma CommaAtTwo()
    ensures ',' in "12,50" && IndexOf("12,50", ',') == 2 && ReplaceFirstComma("12,50") == "12.50"
  {
    assert "12,50"[2] == ',';
    assert "12,50"[1..][1..] == ",50";
  }

  lemma CleanOnePoint234()
    ensures ReplaceFirstComma(KeepNumeric("R$ 1.234,56")) == "1.234.56"
  {
    KeepOnePoint234();
    CommaAtFive();
  }

  lemma KeepOnePoint234()
    ensures KeepNumeric("R$ 1.234,56") == "1.234,56"
  {
    var a := "1.234,56";
    KeepAfterPrefix(a);
    assert "R$ 1.234,56" == "R$ " + a;
  }

  lemma KeepAfterPrefix(a: string)
    requires forall i :: 0 <= i < |a| ==> IsDigit(a[i]) || a[i] in ",.-"
    ensures KeepNumeric("R$ " + a) == a
  {
    KeepNumericDropsPrefix(a);
    KeepNumericKeepsNumeric(a);
  }

  lemma NumericOnePoint234()
    ensures KeepNumeric("1.234,56") == "1.234,56"
  {
    KeepNumericKeepsNumeric("1.234,56");
  }

  lemma CommaAtFive()
    ensures ',' in "1.234,56" && IndexOf("1.234,56", ',') == 5 && ReplaceFirstComma("1.234,56") == "1.234.56"
  {
    assert "1.234,56"[5] == ',';
    assert "1.234,56"[1..][1..][1..][1..][1..] == ",56";
  }

  /** A Brazilian amount without thousands separators is read as intended. */
  lemma DecimalForAPIReadsComma()
    ensures DecimalForAPI(Str("R$ 12,50")) == 12.5
  {
    CleanTwelveFifty();
    ParseTwelveFifty();
  }

  /** With a thousands separator the '.' is read as the decimal point: "R$ 1.234,56" gives 1.234. */
  lemma DecimalForAPIReadsThousandsAsDecimals()
    ensures DecimalForAPI(Str("R$ 1.234,56")) == 1.234
  {
    CleanOnePoint234();
    ParseOnePoint234();
  }

  // ---------------------------------------------------------------------
  // Preparing a form for the API

  /**
   * `prepareDataForAPI` on a form whose absent keys read as undefined:
   * truthy `data` and `data_recebimento` go through `formatDateForAPI`
   * (`viaDate` standing for its `Date` path), a defined `valor` through
   * `formatDecimalForAPI`, and an undefined `descricao` becomes ''.
   */
  function PrepareDataForAPI(form: map<string, Js>, viaDate: Js -> string): (r: map<string, Js>)
    ensures r.Keys == form.Keys + {"descricao"}
    ensures forall k :: k in form && k !in {"data", "data_recebimento", "valor", "descricao"} ==> r[k] == form[k]
    ensures forall k :: k in {"data", "data_recebimento"} && k in form ==>
      r[k] == if Truthy(form[k]) then Str(DateForAPI(form[k], viaDate(form[k]))) else form[k]
    ensures "valor" in form ==>
      r["valor"] == if form["valor"] != Undefined then Num(DecimalForAPI(form["valor"])) else Undefined
    ensures r["descricao"] == if "descricao" in form && form["descricao"] != Undefined then form["descricao"] else Str("")
  {
    var withData := WithApiDate(form, "data", viaDate);
    var withReceb := WithApiDate(withData, "data_recebimento", viaDate);
    WithDescricao(WithApiDecimal(withReceb))
  }

  /** The `valor` step of `prepareDataForAPI`: a defined value goes through `formatDecimalForAPI`. */
  function WithApiDecimal(form: map<string, Js>): (r: map<string, Js>)
    ensures r.Keys == form.Keys
    ensures forall k :: k in form && k != "valor" ==> r[k] == form[k]
    ensures "valor" in form ==>
      r["valor"] == if form["valor"] != Undefined then Num(DecimalForAPI(form["valor"])) else Undefined
  {
    if "valor" in form && form["valor"] != Undefined then form["valor" := Num(DecimalForAPI(form["valor"]))] else form
  }

  /** The `descricao` step of `prepareDataForAPI`: undefined becomes ''. */
  function WithDescricao(form: map<string, Js>): (r: map<string, Js>)
    ensures r.Keys == form.Keys + {"descricao"}
    ensures forall k :: k in form && k != "descricao" ==> r[k] == form[k]
    ensures r["descricao"] == if "descricao" in form && form["descricao"] != Undefined then form["descricao"] else Str("")
  {
    if "descricao" in form && form["descricao"] != Undefined then form else form["descricao" := Str("")]
  }

  /** One date field of `prepareDataForAPI`: a truthy value goes through `formatDateForAPI`. */
  function WithApiDate(form: map<string, Js>, key: string, viaDate: Js -> string): (r: map<string, Js>)
    ensures r.Keys == form.Keys
    ensures forall k :: k in form && k != key ==> r[k] == form[k]
    ensures key in form ==>
      r[key] == if Truthy(form[key]) then Str(DateForAPI(form[key], viaDate(form[key]))) else form[key]
  {
    if key in form && Truthy(form[key]) then form[key := Str(DateForAPI(form[key], viaDate(form[key])))] else form
  }


  // ---------------------------------------------------------------------
  // Category names

  /** A category id: a number or a string (ids that are not integers are not modelled). */
  datatype CategoryId = IdNum(n: int) | IdStr(s: string)

  const CategoryNames: seq<string> := [
    "Alimentação", "Transporte", "Moradia", "Saúde", "Educação", "Lazer",
    "Vestuário", "Tecnologia", "Investimentos", "Salário", "Freelance", "Outros"]

  predicate IsHexDigit(c: char)
  {
    IsDigit(c) || 'a' <= c <= 'f' || 'A' <= c <= 'F'
  }

  /**
   * `isNaN(parseInt(s))`: after leading white space and an optional sign
   * there is no digit, or a "0x" prefix is not followed by a hex digit.
   */
  predicate ParseIntIsNaN(s: string)
  {
    var t := TrimStart(s);
    var body := if |t| > 0 && (t[0] == '-' || t[0] == '+') then t[1..] else t;
    if |body| >= 2 && body[0] == '0' && (body[1] == 'x' || body[1] == 'X') then
      !(|body| > 2 && IsHexDigit(body[2]))
    else
      !(|body| > 0 && IsDigit(body[0]))
  }

  /** The property key `categoryMap[id]` looks up: the id as a string. */
  function PropertyKey(id: CategoryId): string
  {
    match id
    case IdNum(n) => IntToString(n)
    case IdStr(s) => s
  }

  /** `categoryMap`, keyed by property name. */
  const CategoryMap: map<string, string> := map[
    "1" := "Alimentação", "2" := "Transporte", "3" := "Moradia", "4" := "Saúde",
    "5" := "Educação", "6" := "Lazer", "7" := "Vestuário", "8" := "Tecnologia",
    "9" := "Investimentos", "10" := "Salário", "11" := "Freelance", "12" := "Outros"]

  /** `getCategoryName`. */
  function CategoryName(id: CategoryId): (r: string)
    ensures id.IdStr? && ParseIntIsNaN(id.s) ==> r == id.s
    ensures !(id.IdStr? && ParseIntIsNaN(id.s)) ==>
      r == if PropertyKey(id) in CategoryMap then CategoryMap[PropertyKey(id)] else "Categoria " + PropertyKey(id)
  {
    if id.IdStr? && ParseIntIsNaN(id.s) then id.s
    else if PropertyKey(id) in CategoryMap then CategoryMap[PropertyKey(id)]
    else "Categoria " + PropertyKey(id)
  }

  /** The keys of the map are the decimal numerals of 1 to 12, naming the categories in order. */
  lemma CategoryMapKeys()
    ensures forall m :: 1 <= m <= 12 ==> NatToString(m) in CategoryMap && CategoryMap[NatToString(m)] == CategoryNames[m - 1]
    ensures forall k :: k in CategoryMap ==> k in Numerals
  {
    NumeralsUpToTwelve();
    NumeralsNameCategories();
    forall k | k in CategoryMap
      ensures k in Numerals
    {
      KeysAreNumerals(k);
    }
  }

  lemma NumeralsNameCategories()
    ensures forall i :: 0 <= i < 12 ==> Numerals[i] in CategoryMap && CategoryMap[Numerals[i]] == CategoryNames[i]
  {
  }

  lemma KeysAreNumerals(k: string)
    requires k in CategoryMap
    ensures k in Numerals
  {
  }

  /** The numerals of 1 to 12. */
  const Numerals: seq<string> := ["1", "2", "3", "4", "5", "6", "7", "8", "9", "10", "11", "12"]

  lemma NumeralsUpToTwelve()
    ensures forall m :: 1 <= m <= 12 ==> NatToString(m) == Numerals[m - 1]
  {
    SmallNumerals();
    assert NatToString(10) == NatToString(1) + [DigitChar(0)] == "10";
    assert NatToString(11) == NatToString(1) + [DigitChar(1)] == "11";
    assert NatToString(12) == NatToString(1) + [DigitChar(2)] == "12";
  }

  lemma SmallNumerals()
    ensures forall m :: 1 <= m <= 9 ==> NatToString(m) == Numerals[m - 1]
  {
    assert NatToString(1) == "1" && NatToString(2) == "2" && NatToString(3) == "3";
    assert NatToString(4) == "4" && NatToString(5) == "5" && NatToString(6) == "6";
    assert NatToString(7) == "7" && NatToString(8) == "8" && NatToString(9) == "9";
  }

  /** The decimal numeral of a number is never taken for NaN. */
  lemma NumeralIsNumber(n: nat)
    ensures !ParseIntIsNaN(NatToString(n))
  {
    var s := NatToString(n);
    assert TrimStart(s) == s by {
      assert !IsSpace(s[0]);
    }
    if |s| >= 2 {
      assert IsDigit(s[1]);
    }
  }

  /** The twelve fixed ids, as numbers or as their decimal strings, give their names. */
  lemma FixedIdsNamed(n: int)
    requires 1 <= n <= 12
    ensures CategoryName(IdNum(n)) == CategoryNames[n - 1]
    ensures CategoryName(IdStr(NatToString(n))) == CategoryNames[n - 1]
  {
    CategoryMapKeys();
    NumeralIsNumber(n);
  }

  /** Any other number is "Categoria " and the number. */
  lemma OtherIdsNumbered(n: int)
    requires !(1 <= n <= 12)
    ensures CategoryName(IdNum(n)) == "Categoria " + IntToString(n)
  {
    CategoryMapKeys();
    NumeralsUpToTwelve();
    forall i | 0 <= i < 12
      ensures IntToString(n) != Numerals[i]
    {
      var m := i + 1;
      if n >= 0 && IntToString(n) == NatToString(m) {
        NatToStringInjective(m, n);
      }
      if n < 0 {
        assert IntToString(n)[0] == '-' && IsDigit(NatToString(m)[0]);
      }
    }
  }

  /** A string that does not start like a number comes back unchanged. */
  lemma NonNumericIdUnchanged(s: string)
    requires |s| > 0 && !IsDigit(s[0]) && !IsSpace(s[0]) && s[0] != '-' && s[0] != '+'
    ensures CategoryName(IdStr(s)) == s
  {
  }
}
