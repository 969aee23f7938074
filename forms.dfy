/**
 * The add-expense and add-income screens: the form state each keeps, the
 * amount field's change handler, and what pressing "save" does with that
 * state, refusing with an alert or building the payload for the API.
 */
module TransactionForms {
  import opened Common
  import opened Formatters
  import opened AmountMask

  /** The alert shown when submission is refused; no request is sent. */
  datatype Alert = DescricaoObrigatoria | ValorInvalido | CategoriaObrigatoria | TipoObrigatorio

  datatype Submission<P> = Refused(alert: Alert) | Send(payload: P)

  /** `!amount || amount === 'R$ 0,00'`. */
  predicate AmountMissing(amount: string)
  {
    amount == "" || amount == "R$ 0,00"
  }

  /** The amount field only ever holds '' or what the mask shows for some number of cents. */
  ghost predicate MaskedAmount(amount: string)
  {
    amount == "" || exists n: nat :: amount == Shown(n)
  }

  lemma AmountForIsMasked(text: string)
    ensures MaskedAmount(AmountFor(text))
  {
    if DigitsOf(text) != [] {
      AmountForShown(text);
    }
  }

  lemma ZeroShown()
    ensures Shown(0) == "R$ 0,00"
  {
    assert NatToString(0) == "0";
  }

  /** The "R$ 0,00" test refuses exactly the shown amounts of zero cents. */
  lemma ZeroIsTheOnlyRefusedShownAmount(n: nat)
    ensures Shown(n) == "R$ 0,00" <==> n == 0
  {
    ZeroShown();
    if Shown(n) == "R$ 0,00" {
      ShownDigits(n);
      ShownDigits(0);
    }
  }

  /** A masked amount passes the amount check exactly when it stands for a positive number of cents, which the corrected parse sends. */
  lemma MaskedAmountAccepted(amount: string)
    requires MaskedAmount(amount)
    ensures !AmountMissing(amount) <==> exists n: nat :: n > 0 && amount == Shown(n)
    ensures !AmountMissing(amount) ==> ParseAmount(amount).Some? && ParseAmount(amount).value > 0.0
  {
    if amount != "" {
      var n: nat :| amount == Shown(n);
      ZeroIsTheOnlyRefusedShownAmount(n);
      ParseAmountInvertsMask(n);
      forall m: nat | amount == Shown(m)
        ensures m == n
      {
        ShownDigits(m);
        ShownDigits(n);
      }
    }
  }

  // ---------------------------------------------------------------------
  // Tags and installments

  /** The trimmed, non-empty pieces, in order. */
  function TrimmedPieces(parts: seq<string>): (r: seq<string>)
    ensures |r| <= |parts|
    ensures forall t :: t in r <==> exists i :: 0 <= i < |parts| && Trim(parts[i]) == t && t != ""
  {
    if parts == [] then []
    else
      var rest := TrimmedPieces(parts[1..]);
      assert forall i :: 0 < i < |parts| ==> parts[i] == parts[1..][i - 1];
      if Trim(parts[0]) != "" then [Trim(parts[0])] + rest else rest
  }

  /** `tags.split(',').map(tag => tag.trim()).filter(tag => tag)`. */
  function Tags(text: string): (r: seq<string>)
  {
    TrimmedPieces(Split(text, ','))
  }

  /** Every tag is a non-empty, trimmed comma-free piece of the text, and every such piece is a tag. */
  lemma TagsMeaning(text: string)
    ensures forall t :: t in Tags(text) <==>
      t != "" && exists p :: p in Split(text, ',') && Trim(p) == t
    ensures forall t :: t in Tags(text) ==> ',' !in t && !IsSpace(t[0]) && !IsSpace(t[|t| - 1])
  {
    var parts := Split(text, ',');
    forall t | t in Tags(text)
      ensures ',' !in t
    {
      var i :| 0 <= i < |parts| && Trim(parts[i]) == t;
      TrimInside(parts[i]);
    }
  }

  /** The trimmed text is a slice of the text. */
  lemma TrimInside(s: string)
    ensures forall c :: c in Trim(s) ==> c in s
  {
    var t := TrimStart(s);
    assert forall c :: c in TrimEnd(t) ==> c in t;
    assert forall c :: c in t ==> c in s;
  }

  /** `parseInt(s, 10)`: leading white space, a sign, then decimal digits; NaN (None) when there are none. */
  function ParseInt10(s: string): (r: Option<int>)
    ensures var t := TrimStart(s);
      var body := if |t| > 0 && (t[0] == '-' || t[0] == '+') then t[1..] else t;
      r.None? <==> LeadingDigits(body) == []
  {
    var t := TrimStart(s);
    var neg := |t| > 0 && t[0] == '-';
    var body := if |t| > 0 && (t[0] == '-' || t[0] == '+') then t[1..] else t;
    var digits := LeadingDigits(body);
    if digits == [] then None
    else
      var v: int := ParseNat(digits);
      Some(if neg then -v else v)
  }

  /** A numeral is read as its value. */
  lemma ParseInt10OfNumeral(n: nat)
    ensures ParseInt10(NatToString(n)) == Some(n)
  {
    var s := NatToString(n);
    assert !IsSpace(s[0]) && s[0] != '-' && s[0] != '+' by { assert IsDigit(s[0]); }
    LeadingDigitsOf(s, []);
    assert s + [] == s;
    ParseNatToString(n);
  }

  /** The expense sent to the API. `valor` is None where `parseFloat` gives NaN. */
  datatype ExpensePayload = ExpensePayload(
    descricao: string, valor: Option<real>, data: string,
    categoriaId: string, categoriaNome: string,
    metodoPagamento: string, observacoes: string, tags: seq<string>,
    recorrente: bool, parcelado: bool,
    numeroParcelas: Option<int>, parcelaAtual: Option<int>)

  /** The income sent to the API. */
  datatype IncomePayload = IncomePayload(
    descricao: string, valor: Option<real>, data: string, tipo: string,
    categoriaId: string, categoriaNome: string, recorrente: bool,
    frequencia: string, dataProxima: Option<string>)

  /** The state of the add-expense screen's form. */
  class ExpenseForm {
    var description: string
    var amount: string
    var categoryId: string
    var categoryName: string
    var paymentMethod: string
    var notes: string
    var isRecurrent: bool
    var isInstallment: bool
    var installmentsTotal: string
    var currentInstallment: string
    var tags: string

    /** The amount field holds what the mask produced. */
    ghost predicate Valid()
      reads this
    {
      MaskedAmount(amount)
    }

    constructor()
      ensures Valid()
      ensures description == "" && amount == "" && categoryId == "" && categoryName == ""
      ensures paymentMethod == "" && notes == "" && tags == ""
      ensures !isRecurrent && !isInstallment
      ensures installmentsTotal == "1" && currentInstallment == "1"
    {
      description, amount, categoryId, categoryName := "", "", "", "";
      paymentMethod, notes, tags := "", "", "";
      isRecurrent, isInstallment := false, false;
      installmentsTotal, currentInstallment := "1", "1";
    }

    /** `handleAmountChange`. */
    method HandleAmountChange(text: string)
      modifies this`amount
      ensures amount == AmountFor(text)
      ensures Valid()
    {
      amount := AmountFor(text);
      AmountForIsMasked(text);
    }

    /** `handleSubmit` up to the request: the checks in order, then the payload. */
    method Submit(date: string) returns (r: Submission<ExpensePayload>)
      ensures Trim(description) == "" ==> r == Refused(DescricaoObrigatoria)
      ensures Trim(description) != "" && AmountMissing(amount) ==> r == Refused(ValorInvalido)
      ensures Trim(description) != "" && !AmountMissing(amount) && categoryId == "" ==> r == Refused(CategoriaObrigatoria)
      ensures r.Send? <==> Trim(description) != "" && !AmountMissing(amount) && categoryId != ""
      ensures r.Send? ==>
        (r.payload.descricao == description && r.payload.data == date &&
         r.payload.valor == ParseAmount(amount) && r.payload.tags == Tags(tags) &&
         r.payload.categoriaId == categoryId && r.payload.categoriaNome == categoryName &&
         r.payload.metodoPagamento == paymentMethod && r.payload.observacoes == notes &&
         r.payload.recorrente == isRecurrent && r.payload.parcelado == isInstallment)
      ensures Valid() && r.Send? ==> r.payload.valor.Some? && r.payload.valor.value > 0.0
      ensures r.Send? && !isInstallment ==> r.payload.numeroParcelas == Some(1) && r.payload.parcelaAtual == Some(1)
      ensures r.Send? && isInstallment ==>
        r.payload.numeroParcelas == ParseInt10(installmentsTotal) && r.payload.parcelaAtual == ParseInt10(currentInstallment)
    {
      if Trim(description) == "" {
        return Refused(DescricaoObrigatoria);
      }
      if AmountMissing(amount) {
        return Refused(ValorInvalido);
      }
      if categoryId == "" {
        return Refused(CategoriaObrigatoria);
      }
      if Valid() {
        MaskedAmountAccepted(amount);
      }
      var valor := ParseAmount(amount);
      var tagList := Tags(tags);
      var parcelas := if isInstallment then ParseInt10(installmentsTotal) else Some(1);
      var atual := if isInstallment then ParseInt10(currentInstallment) else Some(1);
      r := Send(ExpensePayload(description, valor, date, categoryId, categoryName,
                               paymentMethod, notes, tagList, isRecurrent, isInstallment, parcelas, atual));
    }
  }

  /** The state of the add-income screen's form. */
  class IncomeForm {
    var description: string
    var amount: string
    var incomeType: string
    var categoryId: string
    var categoryName: string
    var isRecurrent: bool
    var frequency: string

    ghost predicate Valid()
      reads this
    {
      MaskedAmount(amount)
    }

    constructor()
      ensures Valid()
      ensures description == "" && amount == "" && incomeType == "" && categoryId == "" && categoryName == ""
      ensures !isRecurrent && frequency == ""
    {
      description, amount, incomeType, categoryId, categoryName := "", "", "", "", "";
      isRecurrent, frequency := false, "";
    }

    /** `handleAmountChange`, the same mask as the expense screen. */
    method HandleAmountChange(text: string)
      modifies this`amount
      ensures amount == AmountFor(text)
      ensures Valid()
    {
      amount := AmountFor(text);
      AmountForIsMasked(text);
    }

    /** `handleSubmit` up to the request; `nextDate` is the ISO text of the next-date picker. */
    method Submit(date: string, nextDate: string) returns (r: Submission<IncomePayload>)
      ensures Trim(description) == "" ==> r == Refused(DescricaoObrigatoria)
      ensures Trim(description) != "" && AmountMissing(amount) ==> r == Refused(ValorInvalido)
      ensures Trim(description) != "" && !AmountMissing(amount) && incomeType == "" ==> r == Refused(TipoObrigatorio)
      ensures r.Send? <==> Trim(description) != "" && !AmountMissing(amount) && incomeType != ""
      ensures r.Send? ==>
        (r.payload.descricao == description && r.payload.data == date &&
         r.payload.valor == ParseAmount(amount) && r.payload.tipo == incomeType &&
         r.payload.categoriaId == categoryId && r.payload.categoriaNome == categoryName &&
         r.payload.recorrente == isRecurrent)
      ensures Valid() && r.Send? ==> r.payload.valor.Some? && r.payload.valor.value > 0.0
      ensures r.Send? && !isRecurrent ==> r.payload.frequencia == "" && r.payload.dataProxima.None?
      ensures r.Send? && isRecurrent ==> r.payload.frequencia == frequency && r.payload.dataProxima == Some(nextDate)
    {
      if Trim(description) == "" {
        return Refused(DescricaoObrigatoria);
      }
      if AmountMissing(amount) {
        return Refused(ValorInvalido);
      }
      if incomeType == "" {
        return Refused(TipoObrigatorio);
      }
      if Valid() {
        MaskedAmountAccepted(amount);
      }
      var valor := ParseAmount(amount);
      r := Send(IncomePayload(description, valor, date, incomeType, categoryId, categoryName, isRecurrent,
                              if isRecurrent then frequency else "",
                              if isRecurrent then Some(nextDate) else None));
    }
  }

  // ---------------------------------------------------------------------
  // The income screen's category list

  /** A category as the list endpoint returns it; `None` stands for a null entry. */
  datatype CategoryEntry = CategoryEntry(id: string, nome: string)

  const IncomeKeywords: seq<string> := ["receita", "renda", "salário", "entrada", "investimento"]

  /** `cat && cat.nome && (cat.nome.toLowerCase().includes(...) || ...)`. */
  predicate IsIncomeCategory(cat: Option<CategoryEntry>)
  {
    cat.Some? && cat.value.nome != "" &&
    (Includes(Lower(cat.value.nome), "receita") || Includes(Lower(cat.value.nome), "renda") ||
     Includes(Lower(cat.value.nome), "salário") || Includes(Lower(cat.value.nome), "entrada") ||
     Includes(Lower(cat.value.nome), "investimento"))
  }

  /** `data.filter(...)`: the income categories, in the order received. */
  function IncomeOnly(data: seq<Option<CategoryEntry>>): (r: seq<Option<CategoryEntry>>)
    ensures |r| <= |data|
    ensures forall c :: c in r <==> c in data && IsIncomeCategory(c)
    ensures r == [] <==> forall i :: 0 <= i < |data| ==> !IsIncomeCategory(data[i])
  {
    if data == [] then []
    else
      var rest := IncomeOnly(data[1..]);
      assert forall c :: c in data <==> c == data[0] || c in data[1..];
      assert forall i :: 0 < i < |data| ==> data[i] == data[1..][i - 1];
      if IsIncomeCategory(data[0]) then [data[0]] + rest else rest
  }

  /** The categories the screen offers: the income ones, or all of them when none is. */
  function OfferedCategories(data: seq<Option<CategoryEntry>>): (r: seq<Option<CategoryEntry>>)
  {
    var income := IncomeOnly(data);
    if |income| > 0 then income else data
  }

  /** Exactly one of: every offered category is an income one found in the data, or none is and all are offered. */
  lemma OfferedCategoriesMeaning(data: seq<Option<CategoryEntry>>)
    ensures (exists c :: c in data && IsIncomeCategory(c)) ==>
      forall c :: c in OfferedCategories(data) <==> c in data && IsIncomeCategory(c)
    ensures (forall c :: c in data ==> !IsIncomeCategory(c)) ==> OfferedCategories(data) == data
  {
    if exists c :: c in data && IsIncomeCategory(c) {
      var c :| c in data && IsIncomeCategory(c);
      assert c in IncomeOnly(data);
    }
  }

  /** The keyword test reads the name without regard to case: "SALÁRIO" counts. */
  lemma UppercaseSalaryIsIncome()
    ensures IsIncomeCategory(Some(CategoryEntry("10", "SALÁRIO")))
  {
    assert Lower("SALÁRIO") == "salário";
    assert OccursAt("salário", "salário", 0);
  }
}
