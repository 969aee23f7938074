/**
 * Automatic budget forecasting (`OrcamentoAutomaticoService`): per-category
 * statistics over the expenses of a history window, the projected limit and
 * the confidence derived from them, one forecast budget per category, and
 * the step that stores the forecasts.
 */
module Forecast {
  import opened Common
  import opened Calendar
  import opened DateOrder
  import opened Entities
  import opened Store
  import opened Budgets

  // ---------------------------------------------------------------------
  // Expenses of the history window

  /** Every expense carries a date: the range query only returns dated documents. */
  predicate Dated(xs: seq<Despesa>)
  {
    forall i :: 0 <= i < |xs| ==> xs[i].data.Some?
  }

  /** `f"{data.year}-{data.month:02d}"`: the month an expense is grouped under. */
  function MonthKey(d: DateTime): string
  {
    IntToString(d.year) + "-" + Pad2(d.month)
  }

  /** What the statistics read off one expense: its month key, category and amount. */
  datatype Lanc = Lanc(mes: string, categoriaId: string, categoriaNome: string, valor: real)

  /** The expenses as the statistics see them. */
  function Lancamentos(xs: seq<Despesa>): (ls: seq<Lanc>)
    requires Dated(xs)
    ensures |ls| == |xs|
  {
    if xs == [] then [] else Lancamentos(xs[..|xs| - 1]) + [LancOf(xs[|xs| - 1])]
  }

  /** Each expense becomes, in its own position, what the statistics read off it. */
  lemma {:induction false} LancamentosAt(xs: seq<Despesa>, i: nat)
    requires Dated(xs) && i < |xs|
    ensures Lancamentos(xs)[i] == LancOf(xs[i])
  {
    var init := xs[..|xs| - 1];
    var last := [LancOf(xs[|xs| - 1])];
    assert Lancamentos(xs) == Lancamentos(init) + last;
    if i < |xs| - 1 {
      LancamentosAt(init, i);
      assert init[i] == xs[i];
    }
  }

  /** What the statistics read off one dated expense. */
  function LancOf(d: Despesa): Lanc
    requires d.data.Some?
  {
    Lanc(MonthKey(d.data.value), d.categoriaId, d.categoriaNome, d.valor)
  }

  /** The expenses of `ids` in `m` dated within [inicio, fim], in the order of `ids`. */
  function InWindow(m: map<string, Despesa>, ids: seq<string>, inicio: DateTime, fim: DateTime)
    : (r: seq<Despesa>)
    requires forall i :: 0 <= i < |ids| ==> ids[i] in m
    ensures Dated(r)
    ensures forall i :: 0 <= i < |r| ==> Le(inicio, r[i].data.value) && Le(r[i].data.value, fim)
  {
    if ids == [] then []
    else
      var d := m[ids[|ids| - 1]];
      InWindow(m, ids[..|ids| - 1], inicio, fim) +
      (if d.data.Some? && Le(inicio, d.data.value) && Le(d.data.value, fim) then [d] else [])
  }

  /** The dates of the expenses of `m` within [inicio, fim]: what the range query selects and sorts on. */
  function WindowDates(m: map<string, Despesa>, inicio: DateTime, fim: DateTime): (date: map<string, DateTime>)
    ensures date.Keys <= m.Keys
    ensures forall id :: id in date <==>
      id in m && m[id].data.Some? && Le(inicio, m[id].data.value) && Le(m[id].data.value, fim)
    ensures forall id :: id in date ==> date[id] == m[id].data.value
  {
    map id | id in m && m[id].data.Some? && Le(inicio, m[id].data.value) && Le(m[id].data.value, fim)
      :: m[id].data.value
  }

  /**
   * `DespesaService.get_by_periodo`: the user's expenses within the window,
   * streamed by date and then by id.
   */
  ghost function Historico(despesas: map<string, map<string, Despesa>>, userId: string,
                           inicio: DateTime, fim: DateTime): seq<Despesa>
  {
    var m := if userId in despesas then despesas[userId] else map[];
    InWindow(m, ByDateListing(WindowDates(m, inicio, fim)), inicio, fim)
  }

  /** Runs the range query. */
  method ObterDespesasPeriodo(db: Db, userId: string, inicio: DateTime, fim: DateTime)
    returns (xs: seq<Despesa>)
    ensures xs == Historico(db.despesas, userId, inicio, fim)
    ensures Dated(xs)
    ensures forall i, j :: 0 <= i < j < |xs| ==> Le(xs[i].data.value, xs[j].data.value)
  {
    var m := db.DespesasOf(userId);
    var ids := SortedByDate(WindowDates(m, inicio, fim));
    xs := InWindow(m, ids, inicio, fim);
    InWindowOfByDate(m, WindowDates(m, inicio, fim), ids, inicio, fim);
  }

  /** Over documents listed by date, all within the window, the window keeps every one, in date order. */
  lemma {:induction false} InWindowOfByDate(m: map<string, Despesa>, date: map<string, DateTime>, ids: seq<string>,
                                            inicio: DateTime, fim: DateTime)
    requires date == WindowDates(m, inicio, fim)
    requires ByDate(date, ids)
    ensures InWindow(m, ids, inicio, fim) == seq(|ids|, i requires 0 <= i < |ids| => m[ids[i]])
    ensures var xs := InWindow(m, ids, inicio, fim);
      forall i, j :: 0 <= i < j < |xs| ==> Le(xs[i].data.value, xs[j].data.value)
  {
    if ids != [] {
      var init := ids[..|ids| - 1];
      assert ByDate(date, init) by {
        forall i, j | 0 <= i < j < |init|
          ensures KeyLt(date[init[i]], init[i], date[init[j]], init[j])
        {
          assert init[i] == ids[i] && init[j] == ids[j];
        }
      }
      InWindowOfByDate(m, date, init, inicio, fim);
    }
    var xs := InWindow(m, ids, inicio, fim);
    forall i, j | 0 <= i < j < |xs|
      ensures Le(xs[i].data.value, xs[j].data.value)
    {
      assert xs[i] == m[ids[i]] && xs[j] == m[ids[j]];
      assert KeyLt(date[ids[i]], ids[i], date[ids[j]], ids[j]);
    }
  }

  // ---------------------------------------------------------------------
  // Reference definitions the statistics are measured against

  /** Sum of the amounts, accumulated in list order. */
  function Total(xs: seq<Lanc>): real
  {
    if xs == [] then 0.0 else Total(xs[..|xs| - 1]) + xs[|xs| - 1].valor
  }

  /** The expenses of category `c`, in list order. */
  function Of(xs: seq<Lanc>, c: string): (r: seq<Lanc>)
    ensures forall i :: 0 <= i < |r| ==> r[i].categoriaId == c
  {
    if xs == [] then []
    else Of(xs[..|xs| - 1], c) + (if xs[|xs| - 1].categoriaId == c then [xs[|xs| - 1]] else [])
  }

  /** What category `c` spent in month `k`: the amounts of its expenses grouped under `k`. */
  function MonthTotal(xs: seq<Lanc>, k: string, c: string): real
  {
    if xs == [] then 0.0
    else
      var d := xs[|xs| - 1];
      MonthTotal(xs[..|xs| - 1], k, c) + (if d.mes == k && d.categoriaId == c then d.valor else 0.0)
  }

  /** Category `c` has an expense grouped under month `k`. */
  predicate SpentIn(xs: seq<Lanc>, k: string, c: string)
  {
    exists i :: 0 <= i < |xs| && xs[i].mes == k && xs[i].categoriaId == c
  }

  /** The distinct month keys of all the expenses. */
  function Months(xs: seq<Lanc>): set<string>
  {
    set i | 0 <= i < |xs| :: xs[i].mes
  }

  // ---------------------------------------------------------------------
  // The two dictionaries the first loop fills

  /** A `despesas_por_categoria` entry. */
  datatype Acc = Acc(categoriaNome: string, total: real, count: nat)

  /** `despesas_por_categoria` after the loop has seen `xs`. */
  function Accumulate(xs: seq<Lanc>): map<string, Acc>
  {
    if xs == [] then map[] else AccStep(Accumulate(xs[..|xs| - 1]), xs[|xs| - 1])
  }

  /** One expense added to `despesas_por_categoria`, its entry created first when missing. */
  function AccStep(a: map<string, Acc>, d: Lanc): map<string, Acc>
  {
    var cur := if d.categoriaId in a then a[d.categoriaId] else Acc(d.categoriaNome, 0.0, 0);
    a[d.categoriaId := Acc(cur.categoriaNome, cur.total + d.valor, cur.count + 1)]
  }

  /** `despesas_por_categoria_mes` after the loop has seen `xs`. */
  function PorMes(xs: seq<Lanc>): map<string, map<string, real>>
  {
    if xs == [] then map[]
    else
      var d := xs[|xs| - 1];
      AddTo(PorMes(xs[..|xs| - 1]), d.mes, d.categoriaId, d.valor)
  }

  /** Adds `v` to entry `c` of month `k`, creating the month and the entry at 0.0 when missing. */
  function AddTo(pm: map<string, map<string, real>>, k: string, c: string, v: real)
    : (r: map<string, map<string, real>>)
    ensures r.Keys == pm.Keys + {k}
    ensures forall k' :: k' in pm && k' != k ==> r[k'] == pm[k']
    ensures r[k].Keys == (if k in pm then pm[k].Keys else {}) + {c}
    ensures forall c' :: c' in r[k] && c' != c ==> r[k][c'] == pm[k][c']
    ensures r[k][c] == (if k in pm && c in pm[k] then pm[k][c] else 0.0) + v
  {
    var mes := if k in pm then pm[k] else map[];
    var cur := if c in mes then mes[c] else 0.0;
    pm[k := mes[c := cur + v]]
  }

  /**
   * A category has an entry exactly when it has expenses, and the entry holds
   * the name of its first expense, its total and its number of expenses.
   */
  lemma {:induction false} AccumulateIsPerCategory(xs: seq<Lanc>, c: string)
    ensures c in Accumulate(xs) <==> Of(xs, c) != []
    ensures c in Accumulate(xs) ==>
      Accumulate(xs)[c] == Acc(Of(xs, c)[0].categoriaNome, Total(Of(xs, c)), |Of(xs, c)|)
  {
    if xs != [] {
      var p := xs[..|xs| - 1];
      var d := xs[|xs| - 1];
      AccumulateIsPerCategory(p, c);
      if d.categoriaId == c {
        assert Of(xs, c) == Of(p, c) + [d];
        assert (Of(p, c) + [d])[..|Of(p, c)|] == Of(p, c);
        if Of(p, c) != [] {
          assert Of(xs, c)[0] == Of(p, c)[0];
        }
      } else {
        assert Of(xs, c) == Of(p, c);
      }
    }
  }

  /** The last expense adds its month key to the months of the others. */
  lemma MonthsSnoc(xs: seq<Lanc>)
    requires xs != []
    ensures Months(xs) == Months(xs[..|xs| - 1]) + {xs[|xs| - 1].mes}
  {
    var p := xs[..|xs| - 1];
    forall x
      ensures x in Months(xs) <==> x in Months(p) + {xs[|xs| - 1].mes}
    {
      if x in Months(xs) {
        var i :| 0 <= i < |xs| && xs[i].mes == x;
        if i < |p| {
          assert xs[i] == p[i];
        }
      }
      if x in Months(p) {
        var i :| 0 <= i < |p| && p[i].mes == x;
        assert xs[i] == p[i];
      }
    }
  }

  /** The last expense counts for `SpentIn` when it has the month and the category. */
  lemma SpentInSnoc(xs: seq<Lanc>, k: string, c: string)
    requires xs != []
    ensures SpentIn(xs, k, c) <==>
      SpentIn(xs[..|xs| - 1], k, c) || (xs[|xs| - 1].mes == k && xs[|xs| - 1].categoriaId == c)
  {
    var p := xs[..|xs| - 1];
    if SpentIn(xs, k, c) {
      var i :| 0 <= i < |xs| && xs[i].mes == k && xs[i].categoriaId == c;
      if i < |p| {
        assert xs[i] == p[i];
      }
    }
    if SpentIn(p, k, c) {
      var i :| 0 <= i < |p| && p[i].mes == k && p[i].categoriaId == c;
      assert xs[i] == p[i];
    }
  }

  /** `despesas_por_categoria_mes` has an entry for exactly the months of the expenses. */
  lemma {:induction false} PorMesHasMonth(xs: seq<Lanc>, k: string)
    ensures k in PorMes(xs) <==> k in Months(xs)
  {
    if xs != [] {
      PorMesHasMonth(xs[..|xs| - 1], k);
      MonthsSnoc(xs);
    }
  }

  /**
   * A category appears in a month's entry exactly when it spent in that
   * month, with its month total as the value.
   */
  lemma {:induction false} PorMesIsPerMonth(xs: seq<Lanc>, k: string, c: string)
    requires k in PorMes(xs)
    ensures c in PorMes(xs)[k] <==> SpentIn(xs, k, c)
    ensures c in PorMes(xs)[k] ==> PorMes(xs)[k][c] == MonthTotal(xs, k, c)
  {
    var p := xs[..|xs| - 1];
    var d := xs[|xs| - 1];
    SpentInSnoc(xs, k, c);
    if k in PorMes(p) {
      PorMesIsPerMonth(p, k, c);
    } else {
      assert !SpentIn(p, k, c) by {
        PorMesHasMonth(p, k);
        forall i | 0 <= i < |p|
          ensures p[i].mes in Months(p)
        {
        }
      }
    }
    if !SpentIn(p, k, c) {
      MonthTotalWithoutSpending(p, k, c);
    }
  }

  /** A category that did not spend in a month has a month total of 0. */
  lemma {:induction false} MonthTotalWithoutSpending(xs: seq<Lanc>, k: string, c: string)
    requires !SpentIn(xs, k, c)
    ensures MonthTotal(xs, k, c) == 0.0
  {
    if xs != [] {
      SpentInSnoc(xs, k, c);
      MonthTotalWithoutSpending(xs[..|xs| - 1], k, c);
    }
  }

  /** The months of `despesas_por_categoria_mes` are the distinct months of the expenses. */
  lemma PorMesKeysAreMonths(xs: seq<Lanc>)
    ensures PorMes(xs).Keys == Months(xs)
  {
    forall k
      ensures k in PorMes(xs) <==> k in Months(xs)
    {
      PorMesHasMonth(xs, k);
    }
  }

  /** `.get(c, 0)`. */
  function GetOr(m: map<string, real>, c: string): real
  {
    if c in m then m[c] else 0.0
  }

  /** Python's `max(a, b)`: `a` unless `b` is larger. */
  function Max(a: real, b: real): (r: real)
    ensures r >= a && r >= b && (r == a || r == b)
  {
    if b > a then b else a
  }

  // ---------------------------------------------------------------------
  // The statistics of one category

  /** A category's statistics. */
  datatype Stats = Stats(categoriaNome: string, total: real, mediaMensal: real,
                         maxMensal: real, tendencia: real, count: nat)

  /**
   * `max_mensal`: the running maximum, from 0, over the months `ks` in which
   * category `c` spent.
   */
  function MaxMensalOver(pm: map<string, map<string, real>>, ks: seq<string>, c: string): (r: real)
    ensures r >= 0.0
    ensures forall j :: 0 <= j < |ks| && ks[j] in pm && c in pm[ks[j]] ==> pm[ks[j]][c] <= r
    ensures r == 0.0 || exists j :: 0 <= j < |ks| && ks[j] in pm && c in pm[ks[j]] && r == pm[ks[j]][c]
  {
    if ks == [] then 0.0
    else
      var m := MaxMensalOver(pm, ks[..|ks| - 1], c);
      var k := ks[|ks| - 1];
      assert forall j :: 0 <= j < |ks| - 1 ==> ks[..|ks| - 1][j] == ks[j];
      if k in pm && c in pm[k] then Max(m, pm[k][c]) else m
  }

  /** The trend: the relative change from the second-last to the last month of `meses`. */
  function Tendencia(pm: map<string, map<string, real>>, meses: seq<string>, c: string): real
    requires forall i :: 0 <= i < |meses| ==> meses[i] in pm
  {
    if |meses| >= 2 then
      Trend(GetOr(pm[meses[|meses| - 1]], c), GetOr(pm[meses[|meses| - 2]], c))
    else 0.0
  }

  /** The relative change from `penultimo` to `ultimo`, 0 unless `penultimo` is positive. */
  function Trend(ultimo: real, penultimo: real): real
  {
    if penultimo > 0.0 then (ultimo - penultimo) / penultimo else 0.0
  }

  /** The statistics entry of category `c`, from the two dictionaries and the sorted month keys. */
  function StatsOf(acc: map<string, Acc>, pm: map<string, map<string, real>>, meses: seq<string>, c: string)
    : Stats
    requires c in acc
    requires forall i :: 0 <= i < |meses| ==> meses[i] in pm
  {
    var a := acc[c];
    Stats(a.categoriaNome, a.total,
          if |meses| > 0 then a.total / (|meses| as real) else 0.0,
          MaxMensalOver(pm, meses, c), Tendencia(pm, meses, c), a.count)
  }

  /** `_calcular_estatisticas_por_categoria`. */
  ghost function Estatisticas(xs: seq<Lanc>): map<string, Stats>
  {
    StatsMap(Accumulate(xs), PorMes(xs), Sorted(PorMes(xs).Keys))
  }

  /** One statistics entry per category of `acc`. */
  function StatsMap(acc: map<string, Acc>, pm: map<string, map<string, real>>, meses: seq<string>)
    : map<string, Stats>
    requires forall i :: 0 <= i < |meses| ==> meses[i] in pm
  {
    map c | c in acc :: StatsOf(acc, pm, meses, c)
  }

  /** The month key, category and amount of each expense, in list order. */
  method Lancar(despesas: seq<Despesa>) returns (ls: seq<Lanc>)
    requires Dated(despesas)
    ensures ls == Lancamentos(despesas)
  {
    ls := [];
    for i := 0 to |despesas|
      invariant ls == Lancamentos(despesas[..i])
    {
      assert despesas[..i + 1][..i] == despesas[..i];
      ls := ls + [LancOf(despesas[i])];
    }
    assert despesas[..|despesas|] == despesas;
  }

  /**
   * The first loop of `_calcular_estatisticas_por_categoria`: fills both
   * dictionaries, each expense under its category and under its month key.
   */
  method Agrupar(ls: seq<Lanc>) returns (acc: map<string, Acc>, porMes: map<string, map<string, real>>)
    ensures acc == Accumulate(ls) && porMes == PorMes(ls)
  {
    acc := map[];
    porMes := map[];
    for i := 0 to |ls|
      invariant acc == Accumulate(ls[..i])
      invariant porMes == PorMes(ls[..i])
    {
      var d := ls[i];
      GroupStep(ls, i);
      acc := AccStep(acc, d);
      porMes := AddTo(porMes, d.mes, d.categoriaId, d.valor);
    }
    assert ls[..|ls|] == ls;
  }

  /** Both dictionaries after one more expense. */
  lemma GroupStep(ls: seq<Lanc>, i: int)
    requires 0 <= i < |ls|
    ensures Accumulate(ls[..i + 1]) == AccStep(Accumulate(ls[..i]), ls[i])
    ensures PorMes(ls[..i + 1]) == AddTo(PorMes(ls[..i]), ls[i].mes, ls[i].categoriaId, ls[i].valor)
  {
    assert ls[..i + 1][..i] == ls[..i] && ls[..i + 1][i] == ls[i];
  }

  /** The inner loop: the largest month total of `c`, from 0. */
  method MaiorMensal(porMes: map<string, map<string, real>>, meses: seq<string>, c: string)
    returns (maxMensal: real)
    requires forall i :: 0 <= i < |meses| ==> meses[i] in porMes
    ensures maxMensal == MaxMensalOver(porMes, meses, c)
  {
    maxMensal := 0.0;
    for j := 0 to |meses|
      invariant maxMensal == MaxMensalOver(porMes, meses[..j], c)
    {
      assert meses[..j + 1][..j] == meses[..j];
      var mes := porMes[meses[j]];
      if c in mes {
        maxMensal := Max(maxMensal, mes[c]);
      }
    }
    assert meses[..|meses|] == meses;
  }

  /** The body of the second loop: the statistics entry of category `c`. */
  method EstatisticaDe(acc: map<string, Acc>, porMes: map<string, map<string, real>>, meses: seq<string>, c: string)
    returns (s: Stats)
    requires c in acc
    requires forall i :: 0 <= i < |meses| ==> meses[i] in porMes
    ensures s == StatsOf(acc, porMes, meses, c)
  {
    var a := acc[c];
    var numMeses := |meses|;
    var media := if numMeses > 0 then a.total / (numMeses as real) else 0.0;
    var maxMensal := MaiorMensal(porMes, meses, c);
    var tendencia := 0.0;
    if numMeses >= 2 {
      var ultimo := GetOr(porMes[meses[numMeses - 1]], c);
      var penultimo := GetOr(porMes[meses[numMeses - 2]], c);
      if penultimo > 0.0 {
        tendencia := (ultimo - penultimo) / penultimo;
      }
    }
    s := Stats(a.categoriaNome, a.total, media, maxMensal, tendencia, a.count);
  }

  /** The second loop: the statistics entry of every category, in any order. */
  method Montar(acc: map<string, Acc>, porMes: map<string, map<string, real>>, meses: seq<string>)
    returns (estatisticas: map<string, Stats>)
    requires forall i :: 0 <= i < |meses| ==> meses[i] in porMes
    ensures estatisticas == StatsMap(acc, porMes, meses)
  {
    estatisticas := map[];
    var pending := acc.Keys;
    while pending != {}
      invariant pending <= acc.Keys
      invariant estatisticas.Keys == acc.Keys - pending
      invariant forall c :: c in estatisticas ==> estatisticas[c] == StatsOf(acc, porMes, meses, c)
      decreases pending
    {
      var c :| c in pending;
      var s := EstatisticaDe(acc, porMes, meses, c);
      estatisticas := estatisticas[c := s];
      pending := pending - {c};
    }
    ghost var expected := StatsMap(acc, porMes, meses);
    assert estatisticas.Keys == expected.Keys;
    forall c | c in estatisticas
      ensures estatisticas[c] == expected[c]
    {
    }
  }

  /** `_calcular_estatisticas_por_categoria`: both loops, then one entry per category. */
  method CalcularEstatisticas(despesas: seq<Despesa>) returns (estatisticas: map<string, Stats>)
    requires Dated(despesas)
    ensures estatisticas == Estatisticas(Lancamentos(despesas))
  {
    var ls := Lancar(despesas);
    var acc, porMes := Agrupar(ls);
    var meses := SortedIds(porMes.Keys);
    estatisticas := Montar(acc, porMes, meses);
  }

  /** The entry of a category in the statistics, spelled out. */
  lemma EstatisticasEntry(xs: seq<Lanc>, c: string)
    requires c in Estatisticas(xs)
    ensures PorMes(xs).Keys == Months(xs)
    ensures c in Accumulate(xs)
    ensures Estatisticas(xs)[c] == StatsOf(Accumulate(xs), PorMes(xs), Sorted(PorMes(xs).Keys), c)
  {
    PorMesKeysAreMonths(xs);
  }

  /** A month's entry read with `.get(c, 0)` is the category's month total. */
  lemma GetOrIsMonthTotal(xs: seq<Lanc>, k: string, c: string)
    requires k in PorMes(xs)
    ensures GetOr(PorMes(xs)[k], c) == MonthTotal(xs, k, c)
  {
    PorMesIsPerMonth(xs, k, c);
    if c !in PorMes(xs)[k] {
      MonthTotalWithoutSpending(xs, k, c);
    }
  }

  /** A category's statistics hold the name of its first expense, its total and its number of expenses. */
  lemma EstatisticasTotals(xs: seq<Lanc>, c: string)
    requires c in Estatisticas(xs)
    ensures var s := Estatisticas(xs)[c];
      s.count == |Of(xs, c)| && s.count >= 1 && s.total == Total(Of(xs, c)) &&
      s.categoriaNome == Of(xs, c)[0].categoriaNome
  {
    EstatisticasEntry(xs, c);
    AccumulateIsPerCategory(xs, c);
  }

  /**
   * The monthly mean divides the category's total by the number of distinct
   * months of all the expenses, not only of the category's.
   */
  lemma EstatisticasMedia(xs: seq<Lanc>, c: string)
    requires c in Estatisticas(xs)
    ensures |Months(xs)| >= 1
    ensures Estatisticas(xs)[c].mediaMensal == Estatisticas(xs)[c].total / (|Months(xs)| as real)
  {
    EstatisticasEntry(xs, c);
    AccumulateIsPerCategory(xs, c);
    var d := Of(xs, c)[0];
    assert d in xs by { OfIsSubset(xs, c, 0); }
    var i :| 0 <= i < |xs| && xs[i] == d;
    assert xs[i].mes in Months(xs);
    SortedLength(Months(xs));
  }

  /** The running maximum over all the months is the category's largest month total, or 0. */
  lemma MaxMensalIsLargestMonth(xs: seq<Lanc>, c: string)
    ensures var r := MaxMensalOver(PorMes(xs), Sorted(PorMes(xs).Keys), c);
      r >= 0.0 && (forall k :: k in Months(xs) ==> MonthTotal(xs, k, c) <= r) &&
      (r == 0.0 || exists k :: k in Months(xs) && r == MonthTotal(xs, k, c))
  {
    PorMesKeysAreMonths(xs);
    var pm := PorMes(xs);
    var meses := Sorted(pm.Keys);
    var r := MaxMensalOver(pm, meses, c);
    forall k | k in Months(xs)
      ensures MonthTotal(xs, k, c) <= r
    {
      var j :| 0 <= j < |meses| && meses[j] == k;
      GetOrIsMonthTotal(xs, k, c);
    }
    if r != 0.0 {
      var j :| 0 <= j < |meses| && meses[j] in pm && c in pm[meses[j]] && r == pm[meses[j]][c];
      GetOrIsMonthTotal(xs, meses[j], c);
    }
  }

  /** `max_mensal` is the largest month total of the category, and 0 when none is positive. */
  lemma EstatisticasMaxMensal(xs: seq<Lanc>, c: string)
    requires c in Estatisticas(xs)
    ensures var s := Estatisticas(xs)[c];
      s.maxMensal >= 0.0 && (forall k :: k in Months(xs) ==> MonthTotal(xs, k, c) <= s.maxMensal) &&
      (s.maxMensal == 0.0 || exists k :: k in Months(xs) && s.maxMensal == MonthTotal(xs, k, c))
  {
    EstatisticasEntry(xs, c);
    MaxMensalIsLargestMonth(xs, c);
  }

  /** The trend read from the dictionary is the one read from the month totals. */
  lemma TendenciaIsLatestMonths(xs: seq<Lanc>, c: string)
    ensures PorMes(xs).Keys == Months(xs)
    ensures var ms := Sorted(Months(xs)); var t := Tendencia(PorMes(xs), ms, c);
      (|ms| < 2 ==> t == 0.0) &&
      (|ms| >= 2 ==>
         t == Trend(MonthTotal(xs, ms[|ms| - 1], c), MonthTotal(xs, ms[|ms| - 2], c)))
  {
    PorMesKeysAreMonths(xs);
    var ms := Sorted(Months(xs));
    var pm := PorMes(xs);
    assert forall i :: 0 <= i < |ms| ==> ms[i] in pm by {
      forall i | 0 <= i < |ms|
        ensures ms[i] in pm
      {
        assert ms[i] in Months(xs);
      }
    }
    if |ms| < 2 {
      TendenciaBelowTwo(pm, ms, c);
    } else {
      var ultimo, penultimo := ms[|ms| - 1], ms[|ms| - 2];
      assert GetOr(pm[ultimo], c) == MonthTotal(xs, ultimo, c) by {
        GetOrIsMonthTotal(xs, ultimo, c);
      }
      assert GetOr(pm[penultimo], c) == MonthTotal(xs, penultimo, c) by {
        GetOrIsMonthTotal(xs, penultimo, c);
      }
      TendenciaOfLastTwo(pm, ms, c, MonthTotal(xs, ultimo, c), MonthTotal(xs, penultimo, c));
    }
  }

  /** With fewer than two months there is no trend. */
  lemma TendenciaBelowTwo(pm: map<string, map<string, real>>, ms: seq<string>, c: string)
    requires |ms| < 2 && forall i :: 0 <= i < |ms| ==> ms[i] in pm
    ensures Tendencia(pm, ms, c) == 0.0
  {
  }

  /** With two or more months, the trend compares the category's amounts in the last two. */
  lemma TendenciaOfLastTwo(pm: map<string, map<string, real>>, ms: seq<string>, c: string, u: real, p: real)
    requires |ms| >= 2 && forall i :: 0 <= i < |ms| ==> ms[i] in pm
    requires GetOr(pm[ms[|ms| - 1]], c) == u && GetOr(pm[ms[|ms| - 2]], c) == p
    ensures Tendencia(pm, ms, c) == Trend(u, p)
  {
  }

  /** The trend compares the category's totals in the two globally latest months. */
  lemma EstatisticasTendencia(xs: seq<Lanc>, c: string)
    requires c in Estatisticas(xs)
    ensures var s := Estatisticas(xs)[c]; var ms := Sorted(Months(xs));
      (|ms| < 2 ==> s.tendencia == 0.0) &&
      (|ms| >= 2 ==> s.tendencia == Trend(MonthTotal(xs, ms[|ms| - 1], c), MonthTotal(xs, ms[|ms| - 2], c)))
  {
    EstatisticasEntry(xs, c);
    TendenciaIsLatestMonths(xs, c);
  }

  /** Members of a filtered list come from the list. */
  lemma {:induction false} OfIsSubset(xs: seq<Lanc>, c: string, j: int)
    requires 0 <= j < |Of(xs, c)|
    ensures Of(xs, c)[j] in xs
  {
    var p := xs[..|xs| - 1];
    if j < |Of(p, c)| {
      OfIsSubset(p, c, j);
      assert Of(xs, c)[j] == Of(p, c)[j];
      assert forall x :: x in p ==> x in xs;
    }
  }

  /** A set's ascending listing has one entry per element. */
  lemma SortedLength(xs: set<string>)
    ensures |Sorted(xs)| == |xs|
  {
    var s := Sorted(xs);
    assert forall i, j :: 0 <= i < j < |s| ==> s[i] != s[j] by {
      forall i, j | 0 <= i < j < |s|
        ensures s[i] != s[j]
      {
        StrLtIrreflexive(s[i]);
      }
    }
    DistinctCard(s, xs);
  }

  /** A repetition-free listing of a set is as long as the set is large. */
  lemma {:induction false} DistinctCard(s: seq<string>, xs: set<string>)
    requires forall i, j :: 0 <= i < j < |s| ==> s[i] != s[j]
    requires forall x :: x in s <==> x in xs
    ensures |s| == |xs|
    decreases |s|
  {
    if s != [] {
      var rest := s[1..];
      assert forall x :: x in rest <==> x in xs - {s[0]} by {
        forall x
          ensures x in rest <==> x in xs - {s[0]}
        {
          if x in rest {
            var k :| 0 <= k < |rest| && rest[k] == x;
            assert s[k + 1] == x;
          }
          if x in xs - {s[0]} {
            var k :| 0 <= k < |s| && s[k] == x;
            assert k != 0;
            assert rest[k - 1] == x;
          }
        }
      }
      DistinctCard(rest, xs - {s[0]});
    } else {
      assert forall x :: x !in xs;
    }
  }

  // ---------------------------------------------------------------------
  // Projection, confidence and savings target

  /** Python's `min(a, b)`: `a` unless `b` is smaller. */
  function Min(a: real, b: real): (r: real)
    ensures r <= a && r <= b && (r == a || r == b)
  {
    if b < a then b else a
  }

  /** `max(min(t, 0.3), -0.3)`: the trend limited to 30% either way. */
  function LimitarTendencia(t: real): (r: real)
    ensures -0.3 <= r <= 0.3
    ensures -0.3 <= t <= 0.3 ==> r == t
    ensures t > 0.3 ==> r == 0.3
    ensures t < -0.3 ==> r == -0.3
  {
    Max(Min(t, 0.3), -0.3)
  }

  /**
   * `_calcular_valor_previsto` before rounding: the mean adjusted by the
   * limited trend, and with fewer than 3 expenses at least 80% of the
   * largest month.
   */
  function ValorPrevisto(s: Stats): real
  {
    var comTendencia := s.mediaMensal * (1.0 + LimitarTendencia(s.tendencia));
    if s.count < 3 then Max(comTendencia, s.maxMensal * 0.8) else comTendencia
  }

  /**
   * The projection stays within 30% of a non-negative mean when there are 3
   * or more expenses, never falls below 70% of it, and with fewer expenses
   * covers 80% of the largest month.
   */
  lemma ValorPrevistoBounds(s: Stats)
    ensures s.mediaMensal >= 0.0 ==> ValorPrevisto(s) >= 0.7 * s.mediaMensal
    ensures s.mediaMensal >= 0.0 && s.count >= 3 ==> ValorPrevisto(s) <= 1.3 * s.mediaMensal
    ensures s.count < 3 ==> ValorPrevisto(s) >= 0.8 * s.maxMensal
    ensures s.count >= 3 && -0.3 <= s.tendencia <= 0.3 ==>
      ValorPrevisto(s) == s.mediaMensal * (1.0 + s.tendencia)
  {
    var t := LimitarTendencia(s.tendencia);
    var m := s.mediaMensal;
    if m >= 0.0 {
      assert m * (1.0 + t) - 0.7 * m == m * (0.3 + t);
      MulNonNegative(m, 0.3 + t);
      assert 1.3 * m - m * (1.0 + t) == m * (0.3 - t);
      MulNonNegative(m, 0.3 - t);
    }
  }

  lemma MulNonNegative(a: real, b: real)
    requires a >= 0.0 && b >= 0.0
    ensures a * b >= 0.0
  {
  }

  /**
   * `_calcular_confianca`. The statistics never carry the list of amounts,
   * so the consistency factor is always the neutral 0.5.
   */
  function Confianca(count: nat): (r: real)
    ensures 0.0 <= r <= 0.85
    ensures r == 0.0 <==> count == 0
    ensures count >= 10 ==> r == 0.85
  {
    var base := Min(count as real / 10.0, 1.0);
    if count == 0 then 0.0
    else if count == 1 then 0.3
    else Min(base * 0.7 + 0.5 * 0.3, 1.0)
  }

  /** From two expenses on, more expenses never lower the confidence. */
  lemma ConfiancaMonotone(m: nat, n: nat)
    requires 2 <= m <= n
    ensures Confianca(m) <= Confianca(n)
  {
  }

  /** A single expense scores higher than two: 0.3 against 0.29. */
  lemma OneExpenseOutranksTwo()
    ensures Confianca(1) == 0.3 && Confianca(2) == 0.29
  {
  }

  /** The categories with the lower 5% savings target. */
  const Essenciais: seq<string> := ["alimentação", "moradia", "saúde", "transporte"]

  /** The savings target: 5% for the essential categories, compared lower-cased, and 15% otherwise. */
  function MetaEconomia(nome: string): real
  {
    if Lower(nome) in Essenciais then 0.05 else 0.15
  }

  /** Lower-casing an upper-cased letter gives the letter lower-cased. */
  lemma LowerUpperChar(c: char)
    ensures LowerChar(UpperChar(c)) == LowerChar(c)
  {
  }

  /** The savings target does not depend on letter case. */
  lemma MetaEconomiaIgnoresCase(nome: string)
    ensures MetaEconomia(Upper(nome)) == MetaEconomia(nome)
    ensures MetaEconomia(nome) == 0.05 || MetaEconomia(nome) == 0.15
  {
    forall i | 0 <= i < |nome|
      ensures Lower(Upper(nome))[i] == Lower(nome)[i]
    {
      LowerUpperChar(nome[i]);
    }
    assert Lower(Upper(nome)) == Lower(nome);
  }

  /** A name that lower-cases to an essential category gets the 5% target, whatever its case. */
  lemma EssentialTarget(nome: string, i: nat)
    requires i < |Essenciais| && Lower(nome) == Essenciais[i]
    ensures MetaEconomia(nome) == 0.05 && MetaEconomia(Upper(nome)) == 0.05
  {
    MetaEconomiaIgnoresCase(nome);
  }

  /** Income categories get no forecast: their name lower-cased is "renda" or "receitas". */
  predicate CategoriaDeReceita(nome: string)
  {
    Lower(nome) == "renda" || Lower(nome) == "receitas"
  }

  // ---------------------------------------------------------------------
  // Forecast budgets

  /** The statistics used for a category without expenses in the window. */
  function SemHistorico(nome: string): Stats
  {
    Stats(nome, 0.0, 0.0, 0.0, 0.0, 0)
  }

  /** `estatisticas.get(categoria.id, <empty statistics>)`. */
  function StatsFor(est: map<string, Stats>, categoriaId: string, cat: Categoria): Stats
  {
    if categoriaId in est then est[categoriaId] else SemHistorico(cat.nome)
  }

  /** The forecast budget of one category. */
  function Previsto(userId: string, categoriaId: string, cat: Categoria, s: Stats, mes: int, ano: int): Budget
  {
    Budget(userId, categoriaId, cat.nome, ValorPrevisto(s), 0.0, "mensal", mes, ano,
           true, Confianca(s.count), MetaEconomia(cat.nome),
           "Histórico de " + IntToString(s.count) + " transações")
  }

  /** A category without expenses in the window is forecast at 0 with no confidence. */
  lemma NoHistoryForecastsZero(userId: string, categoriaId: string, cat: Categoria, mes: int, ano: int)
    ensures var b := Previsto(userId, categoriaId, cat, SemHistorico(cat.nome), mes, ano);
      b.limite == 0.0 && b.confianca == 0.0 && b.fonteDados == "Histórico de 0 transações"
  {
  }

  /** The forecasts for the categories `ids`, in that order, skipping income categories. */
  function Previstos(cats: map<string, Categoria>, ids: seq<string>, est: map<string, Stats>,
                     userId: string, mes: int, ano: int): (r: seq<Budget>)
    requires forall i :: 0 <= i < |ids| ==> ids[i] in cats
    ensures |r| <= |ids|
  {
    if ids == [] then []
    else
      var id := ids[|ids| - 1];
      Previstos(cats, ids[..|ids| - 1], est, userId, mes, ano) +
      (if CategoriaDeReceita(cats[id].nome) then []
       else [Previsto(userId, id, cats[id], StatsFor(est, id, cats[id]), mes, ano)])
  }

  /** The forecasts of the first `i + 1` categories: those of the first `i`, then the `i`-th's. */
  lemma PrevistosStep(cats: map<string, Categoria>, ids: seq<string>, est: map<string, Stats>,
                      userId: string, mes: int, ano: int, i: int)
    requires forall j :: 0 <= j < |ids| ==> ids[j] in cats
    requires 0 <= i < |ids|
    ensures Previstos(cats, ids[..i + 1], est, userId, mes, ano) ==
      Previstos(cats, ids[..i], est, userId, mes, ano) +
      (if CategoriaDeReceita(cats[ids[i]].nome) then []
       else [Previsto(userId, ids[i], cats[ids[i]], StatsFor(est, ids[i], cats[ids[i]]), mes, ano)])
  {
    assert ids[..i + 1][..i] == ids[..i] && ids[..i + 1][i] == ids[i];
  }

  /** `_gerar_orcamentos_previstos`: one forecast per category of the registry, in id order. */
  method GerarOrcamentosPrevistos(db: Db, userId: string, est: map<string, Stats>, mes: int, ano: int)
    returns (orcamentos: seq<Budget>)
    ensures orcamentos == Previstos(db.categorias, Sorted(db.categorias.Keys), est, userId, mes, ano)
  {
    var ids := SortedIds(db.categorias.Keys);
    orcamentos := [];
    for i := 0 to |ids|
      invariant orcamentos == Previstos(db.categorias, ids[..i], est, userId, mes, ano)
    {
      PrevistosStep(db.categorias, ids, est, userId, mes, ano, i);
      var cat := db.categorias[ids[i]];
      if !CategoriaDeReceita(cat.nome) {
        var s := StatsFor(est, ids[i], cat);
        orcamentos := orcamentos + [Previsto(userId, ids[i], cat, s, mes, ano)];
      }
    }
    assert ids[..|ids|] == ids;
  }

  /** What a single forecast holds, whatever its statistics. */
  lemma PrevistoFields(userId: string, categoriaId: string, cat: Categoria, s: Stats, mes: int, ano: int)
    ensures var b := Previsto(userId, categoriaId, cat, s, mes, ano);
      b.userId == userId && b.categoriaId == categoriaId && b.categoriaNome == cat.nome &&
      b.mes == mes && b.ano == ano && b.isPrevisao && b.gastoAtual == 0.0 && b.periodo == "mensal" &&
      0.0 <= b.confianca <= 0.85
  {
  }

  /**
   * `b` is an unspent monthly forecast of `userId` for the target month, with
   * a confidence of at most 0.85, for a non-income category among `ids`.
   */
  predicate PrevisaoDe(b: Budget, cats: map<string, Categoria>, ids: seq<string>, userId: string, mes: int, ano: int)
  {
    b.userId == userId && b.mes == mes && b.ano == ano && b.isPrevisao &&
    b.gastoAtual == 0.0 && b.periodo == "mensal" && 0.0 <= b.confianca <= 0.85 &&
    b.categoriaId in ids && b.categoriaId in cats && !CategoriaDeReceita(cats[b.categoriaId].nome) &&
    b.categoriaNome == cats[b.categoriaId].nome
  }

  /**
   * Every forecast is an unspent monthly forecast of the user for the target
   * month, with a confidence of at most 0.85, for a non-income category of
   * `ids`.
   */
  lemma {:induction false} PrevistosFields(cats: map<string, Categoria>, ids: seq<string>, est: map<string, Stats>,
                                           userId: string, mes: int, ano: int)
    requires forall i :: 0 <= i < |ids| ==> ids[i] in cats
    ensures forall b :: b in Previstos(cats, ids, est, userId, mes, ano) ==>
      PrevisaoDe(b, cats, ids, userId, mes, ano)
  {
    if ids != [] {
      var p := ids[..|ids| - 1];
      var id := ids[|ids| - 1];
      PrevistosFields(cats, p, est, userId, mes, ano);
      var rp := Previstos(cats, p, est, userId, mes, ano);
      var tail := if CategoriaDeReceita(cats[id].nome) then []
                  else [Previsto(userId, id, cats[id], StatsFor(est, id, cats[id]), mes, ano)];
      assert Previstos(cats, ids, est, userId, mes, ano) == rp + tail;
      forall b | b in rp
        ensures PrevisaoDe(b, cats, ids, userId, mes, ano)
      {
        assert PrevisaoDe(b, cats, p, userId, mes, ano);
        var k :| 0 <= k < |p| && p[k] == b.categoriaId;
        assert ids[k] == p[k];
      }
      if !CategoriaDeReceita(cats[id].nome) {
        PrevistoFields(userId, id, cats[id], StatsFor(est, id, cats[id]), mes, ano);
      }
    }
  }

  /** Over categories in increasing id order, the forecasts follow that order, at most one per category. */
  lemma {:induction false} PrevistosOrdered(cats: map<string, Categoria>, ids: seq<string>, est: map<string, Stats>,
                                            userId: string, mes: int, ano: int)
    requires forall i :: 0 <= i < |ids| ==> ids[i] in cats
    requires StrictlySorted(ids)
    ensures forall i, j :: 0 <= i < j < |Previstos(cats, ids, est, userId, mes, ano)| ==>
      StrLt(Previstos(cats, ids, est, userId, mes, ano)[i].categoriaId,
            Previstos(cats, ids, est, userId, mes, ano)[j].categoriaId)
  {
    if ids != [] {
      var p := ids[..|ids| - 1];
      var id := ids[|ids| - 1];
      assert forall i :: 0 <= i < |p| ==> p[i] == ids[i];
      PrevistosOrdered(cats, p, est, userId, mes, ano);
      PrevistosFields(cats, p, est, userId, mes, ano);
      var rp := Previstos(cats, p, est, userId, mes, ano);
      if !CategoriaDeReceita(cats[id].nome) {
        var b := Previsto(userId, id, cats[id], StatsFor(est, id, cats[id]), mes, ano);
        var r := rp + [b];
        assert Previstos(cats, ids, est, userId, mes, ano) == r;
        forall i | 0 <= i < |rp|
          ensures StrLt(rp[i].categoriaId, id)
        {
          assert rp[i] in rp;
          assert PrevisaoDe(rp[i], cats, p, userId, mes, ano);
          var k :| 0 <= k < |p| && p[k] == rp[i].categoriaId;
          assert ids[k] == p[k];
        }
        assert forall i, j :: 0 <= i < j < |r| ==> StrLt(r[i].categoriaId, r[j].categoriaId) by {
          forall i, j | 0 <= i < j < |r|
            ensures StrLt(r[i].categoriaId, r[j].categoriaId)
          {
            if j == |rp| {
              assert r[i] == rp[i];
            } else {
              assert r[i] == rp[i] && r[j] == rp[j];
            }
          }
        }
      }
    }
  }

  /** Every non-income category of `ids` has a forecast. */
  lemma {:induction false} PrevistosCover(cats: map<string, Categoria>, ids: seq<string>, est: map<string, Stats>,
                                          userId: string, mes: int, ano: int)
    requires forall i :: 0 <= i < |ids| ==> ids[i] in cats
    ensures forall id :: id in ids && !CategoriaDeReceita(cats[id].nome) ==>
      exists b :: b in Previstos(cats, ids, est, userId, mes, ano) && b.categoriaId == id
  {
    if ids != [] {
      var p := ids[..|ids| - 1];
      var id := ids[|ids| - 1];
      PrevistosCover(cats, p, est, userId, mes, ano);
      var rp := Previstos(cats, p, est, userId, mes, ano);
      var r := Previstos(cats, ids, est, userId, mes, ano);
      var tail := if CategoriaDeReceita(cats[id].nome) then []
                  else [Previsto(userId, id, cats[id], StatsFor(est, id, cats[id]), mes, ano)];
      assert r == rp + tail;
      forall x | x in ids && !CategoriaDeReceita(cats[x].nome)
        ensures exists b :: b in r && b.categoriaId == x
      {
        if x in p {
          var b :| b in rp && b.categoriaId == x;
          assert b in r;
        } else {
          assert forall j :: 0 <= j < |p| ==> ids[j] == p[j];
          assert x == id;
          assert r[|rp|] in r && r[|rp|].categoriaId == id;
        }
      }
    }
  }

  // ---------------------------------------------------------------------
  // The forecast for a target month

  /**
   * The end of the history window: `datetime(ano, mes, 1) - timedelta(days=1)`,
   * midnight of the last day of the previous month.
   */
  function JanelaFim(ano: int, mes: int): (d: DateTime)
    requires 1 <= mes <= 12
    ensures ValidDate(d) && Lt(d, FirstOfMonth(ano, mes))
  {
    PreviousDay(FirstOfMonth(ano, mes))
  }

  /** The window ends on the last day of the previous month, at midnight. */
  lemma JanelaFimIsPreviousMonthsLastMidnight(ano: int, mes: int)
    requires 1 <= mes <= 12
    ensures var prev := if mes == 1 then (ano - 1, 12) else (ano, mes - 1);
      JanelaFim(ano, mes) == DateTime(prev.0, prev.1, DaysInMonth(prev.0, prev.1), 0)
  {
  }

  /**
   * The start of the history window, `data_fim - timedelta(days=30 * n)`:
   * back from the end for a non-negative count, forward past it otherwise.
   */
  function JanelaInicio(fim: DateTime, mesesHistorico: int): (d: DateTime)
    requires ValidDate(fim)
    ensures ValidDate(d)
    ensures mesesHistorico >= 0 ==> Le(d, fim)
    ensures mesesHistorico <= 0 ==> Le(fim, d)
  {
    if mesesHistorico >= 0 then SubtractDays(fim, 30 * mesesHistorico) else AddDays(fim, -30 * mesesHistorico)
  }

  /**
   * How the window arithmetic fails: `datetime(ano, mes, 1)` needs a month in
   * 1..12 and a year `datetime` can hold, and both the day before it and the
   * start of the window must stay within those years.
   */
  function JanelaError(ano: int, mes: int, mesesHistorico: int): (e: Option<Error>)
    ensures e.None? <==>
      1 <= mes <= 12 && MinYear <= ano <= MaxYear && !(ano == MinYear && mes == 1) &&
      MinYear <= JanelaInicio(JanelaFim(ano, mes), mesesHistorico).year <= MaxYear
    ensures e.Some? ==> (e.value.ValueError? <==> !(1 <= mes <= 12 && MinYear <= ano <= MaxYear))
  {
    if !(1 <= mes <= 12) then Some(ValueError("month must be in 1..12"))
    else if !(MinYear <= ano <= MaxYear) then Some(ValueError("year " + IntToString(ano) + " is out of range"))
    else if ano == MinYear && mes == 1 then Some(OverflowError("date value out of range"))
    else
      var inicio := JanelaInicio(JanelaFim(ano, mes), mesesHistorico);
      if !(MinYear <= inicio.year <= MaxYear) then Some(OverflowError("date value out of range"))
      else None
  }

  /** `gerar_previsao_orcamento`. */
  method GerarPrevisaoOrcamento(db: Db, userId: string, mesAlvo: int, anoAlvo: int, mesesHistorico: int)
    returns (r: Result<seq<Budget>>)
    ensures JanelaError(anoAlvo, mesAlvo, mesesHistorico).Some? ==>
      r == Err(JanelaError(anoAlvo, mesAlvo, mesesHistorico).value)
    ensures JanelaError(anoAlvo, mesAlvo, mesesHistorico).None? && mesesHistorico >= 0 ==>
      var fim := JanelaFim(anoAlvo, mesAlvo);
      var despesas := Historico(db.despesas, userId, JanelaInicio(fim, mesesHistorico), fim);
      r == Ok(Previstos(db.categorias, Sorted(db.categorias.Keys), Estatisticas(Lancamentos(despesas)),
                        userId, mesAlvo, anoAlvo))
    ensures JanelaError(anoAlvo, mesAlvo, mesesHistorico).None? && mesesHistorico < 0 ==>
      r == Ok(Previstos(db.categorias, Sorted(db.categorias.Keys), map[], userId, mesAlvo, anoAlvo))
  {
    var bad := JanelaError(anoAlvo, mesAlvo, mesesHistorico);
    if bad.Some? {
      return Err(bad.value);
    }
    var fim := JanelaFim(anoAlvo, mesAlvo);
    var est: map<string, Stats>;
    if mesesHistorico >= 0 {
      var despesas := ObterDespesasPeriodo(db, userId, JanelaInicio(fim, mesesHistorico), fim);
      est := CalcularEstatisticas(despesas);
    } else {
      // The window starts after it ends: the query finds nothing.
      est := CalcularEstatisticas([]);
      NoExpensesNoStatistics();
    }
    var orcamentos := GerarOrcamentosPrevistos(db, userId, est, mesAlvo, anoAlvo);
    r := Ok(orcamentos);
  }

  /** Without expenses there are no statistics. */
  lemma NoExpensesNoStatistics()
    ensures Estatisticas(Lancamentos([])) == map[]
  {
    assert Lancamentos([]) == [];
    assert Accumulate([]) == map[];
  }

  // ---------------------------------------------------------------------
  // Storing the forecasts

  /**
   * One step of `aplicar_previsao` as written: unless a budget exists for
   * the category and period and replacing was not asked for, the forecast
   * is created under a fresh store-generated id.
   */
  function SalvarAsWritten(budgets: map<string, Budget>, userId: string, o: Budget,
                           substituir: bool, freshId: string): (map<string, Budget>, Option<Budget>)
  {
    var saved := o.(isPrevisao := true);
    if BudgetIds(budgets, userId, o.categoriaId, o.ano, o.mes) != {} && !substituir then (budgets, None)
    else (budgets[freshId := saved], Some(saved))
  }

  /** As written, asking to replace adds one more budget for the period instead of replacing it. */
  lemma ReplaceAsWrittenDuplicates(budgets: map<string, Budget>, userId: string, o: Budget, freshId: string)
    requires freshId !in budgets && o.userId == userId
    requires BudgetIds(budgets, userId, o.categoriaId, o.ano, o.mes) != {}
    ensures var ids := BudgetIds(budgets, userId, o.categoriaId, o.ano, o.mes);
      var after := SalvarAsWritten(budgets, userId, o, true, freshId).0;
      BudgetIds(after, userId, o.categoriaId, o.ano, o.mes) == ids + {freshId} &&
      |BudgetIds(after, userId, o.categoriaId, o.ano, o.mes)| == |ids| + 1
  {
  }

  /**
   * One step corrected: replacing overwrites the budget the lookup finds,
   * and a forecast without a budget for its period is created.
   */
  ghost function Salvar(budgets: map<string, Budget>, userId: string, o: Budget,
                        substituir: bool, freshId: string): (map<string, Budget>, Option<Budget>)
  {
    var ids := BudgetIds(budgets, userId, o.categoriaId, o.ano, o.mes);
    var saved := o.(isPrevisao := true);
    if ids == {} then (budgets[freshId := saved], Some(saved))
    else if !substituir then (budgets, None)
    else
      LeastExists(ids);
      var id :| IsLeast(id, ids);
      (budgets[id := saved], Some(saved))
  }

  /**
   * Corrected, a step leaves exactly one budget for a period that had none,
   * and the same budgets for a period that had some.
   */
  lemma SalvarKeepsBudgetIds(budgets: map<string, Budget>, userId: string, o: Budget,
                             substituir: bool, freshId: string)
    requires freshId !in budgets && o.userId == userId
    ensures var ids := BudgetIds(budgets, userId, o.categoriaId, o.ano, o.mes);
      var after := Salvar(budgets, userId, o, substituir, freshId).0;
      BudgetIds(after, userId, o.categoriaId, o.ano, o.mes) == (if ids == {} then {freshId} else ids)
  {
  }

  /** All the steps, threading the store from one forecast to the next. */
  ghost function SalvarTodos(budgets: map<string, Budget>, userId: string, os: seq<Budget>,
                             substituir: bool, freshIds: seq<string>): (map<string, Budget>, seq<Budget>)
    requires |freshIds| == |os|
    decreases |os|
  {
    if os == [] then (budgets, [])
    else
      var (b1, salvo) := Salvar(budgets, userId, os[0], substituir, freshIds[0]);
      var (b2, rest) := SalvarTodos(b1, userId, os[1..], substituir, freshIds[1..]);
      (b2, (if salvo.Some? then [salvo.value] else []) + rest)
  }

  /** The loop body of `aplicar_previsao`: look the period up, then save. */
  method SalvarUm(db: Db, userId: string, o: Budget, substituir: bool, freshId: string)
    returns (salvo: Option<Budget>)
    modifies db`budgets
    ensures (db.budgets, salvo) == Salvar(old(db.budgets), userId, o, substituir, freshId)
  {
    var existente := GetByCategoriaPeriodo(db, userId, o.categoriaId, o.ano, o.mes);
    salvo := SalvarPasso(db, userId, o, substituir, freshId, existente);
  }

  /** `aplicar_previsao`, with the corrected replacing step. */
  method AplicarPrevisao(db: Db, userId: string, os: seq<Budget>, substituir: bool, freshIds: seq<string>)
    returns (resultados: seq<Budget>)
    requires |freshIds| == |os|
    modifies db`budgets
    ensures (db.budgets, resultados) == SalvarTodos(old(db.budgets), userId, os, substituir, freshIds)
  {
    ghost var final := SalvarTodos(db.budgets, userId, os, substituir, freshIds);
    resultados := [];
    assert os[0..] == os && freshIds[0..] == freshIds;
    for i := 0 to |os|
      invariant SalvarTodos(db.budgets, userId, os[i..], substituir, freshIds[i..]).0 == final.0
      invariant resultados + SalvarTodos(db.budgets, userId, os[i..], substituir, freshIds[i..]).1 == final.1
    {
      resultados := SalvarSeguinte(db, userId, os, substituir, freshIds, i, resultados);
    }
    assert os[|os|..] == [] && freshIds[|os|..] == [];
    assert SalvarTodos(db.budgets, userId, [], substituir, []) == (db.budgets, []);
    assert db.budgets == final.0;
    assert resultados == final.1;
  }

  /** One turn of the loop of `aplicar_previsao`: saves the `i`-th forecast and collects it if saved. */
  method SalvarSeguinte(db: Db, userId: string, os: seq<Budget>, substituir: bool, freshIds: seq<string>,
                        i: int, resultados: seq<Budget>)
    returns (resultados': seq<Budget>)
    requires |freshIds| == |os| && 0 <= i < |os|
    modifies db`budgets
    ensures SalvarTodos(db.budgets, userId, os[i + 1..], substituir, freshIds[i + 1..]).0 ==
      SalvarTodos(old(db.budgets), userId, os[i..], substituir, freshIds[i..]).0
    ensures resultados' + SalvarTodos(db.budgets, userId, os[i + 1..], substituir, freshIds[i + 1..]).1 ==
      resultados + SalvarTodos(old(db.budgets), userId, os[i..], substituir, freshIds[i..]).1
  {
    SalvarTodosStep(db.budgets, userId, os, substituir, freshIds, i);
    var salvo := SalvarUm(db, userId, os[i], substituir, freshIds[i]);
    ghost var rest := SalvarTodos(db.budgets, userId, os[i + 1..], substituir, freshIds[i + 1..]).1;
    resultados' := resultados;
    if salvo.Some? {
      assert resultados + ([salvo.value] + rest) == (resultados + [salvo.value]) + rest;
      resultados' := resultados + [salvo.value];
    }
  }

  /** Saving from the `i`-th forecast on: the `i`-th, then the rest from the store it leaves. */
  lemma SalvarTodosStep(budgets: map<string, Budget>, userId: string, os: seq<Budget>,
                        substituir: bool, freshIds: seq<string>, i: int)
    requires |freshIds| == |os| && 0 <= i < |os|
    ensures var (b1, salvo) := Salvar(budgets, userId, os[i], substituir, freshIds[i]);
      var (b2, rest) := SalvarTodos(b1, userId, os[i + 1..], substituir, freshIds[i + 1..]);
      SalvarTodos(budgets, userId, os[i..], substituir, freshIds[i..]) ==
        (b2, (if salvo.Some? then [salvo.value] else []) + rest)
  {
    assert os[i..][0] == os[i] && os[i..][1..] == os[i + 1..];
    assert freshIds[i..][0] == freshIds[i] && freshIds[i..][1..] == freshIds[i + 1..];
  }

  /** The saving step, given the result of the lookup. */
  method SalvarPasso(db: Db, userId: string, o: Budget, substituir: bool, freshId: string, existente: Option<string>)
    returns (salvo: Option<Budget>)
    requires existente.None? <==> BudgetIds(db.budgets, userId, o.categoriaId, o.ano, o.mes) == {}
    requires existente.Some? ==> IsLeast(existente.value, BudgetIds(db.budgets, userId, o.categoriaId, o.ano, o.mes))
    modifies db`budgets
    ensures (db.budgets, salvo) == Salvar(old(db.budgets), userId, o, substituir, freshId)
  {
    var ids := BudgetIds(db.budgets, userId, o.categoriaId, o.ano, o.mes);
    if existente.Some? && !substituir {
      return None;
    }
    var saved := o.(isPrevisao := true);
    if existente.Some? {
      forall id | IsLeast(id, ids)
        ensures id == existente.value
      {
        LeastUnique(id, existente.value, ids);
      }
      db.budgets := db.budgets[existente.value := saved];
    } else {
      db.budgets := db.budgets[freshId := saved];
    }
    salvo := Some(saved);
  }

  /** `extended` keeps every budget of `base`, unchanged. */
  ghost predicate Extends(extended: map<string, Budget>, base: map<string, Budget>)
  {
    forall k :: k in base ==> k in extended && extended[k] == base[k]
  }

  /** The store already holds a budget for the user, category and period of `o`. */
  ghost predicate Covered(budgets: map<string, Budget>, userId: string, o: Budget)
  {
    BudgetIds(budgets, userId, o.categoriaId, o.ano, o.mes) != {}
  }

  /** A store that keeps every budget keeps every period covered. */
  lemma ExtendsKeepsCovered(extended: map<string, Budget>, base: map<string, Budget>, userId: string, o: Budget)
    requires Extends(extended, base) && Covered(base, userId, o)
    ensures Covered(extended, userId, o)
  {
    var id :| id in BudgetIds(base, userId, o.categoriaId, o.ano, o.mes);
    assert id in BudgetIds(extended, userId, o.categoriaId, o.ano, o.mes);
  }

  /**
   * Without replacing, storing the user's forecasts under fresh ids keeps
   * every stored budget and leaves each forecast's period covered.
   */
  lemma {:induction false} SalvarTodosSemSubstituir(budgets: map<string, Budget>, userId: string, os: seq<Budget>,
                                                    freshIds: seq<string>)
    requires |freshIds| == |os|
    requires forall i, j :: 0 <= i < j < |freshIds| ==> freshIds[i] != freshIds[j]
    requires forall i :: 0 <= i < |freshIds| ==> freshIds[i] !in budgets
    requires forall o :: o in os ==> o.userId == userId
    ensures Extends(SalvarTodos(budgets, userId, os, false, freshIds).0, budgets)
    ensures forall o :: o in os ==> Covered(SalvarTodos(budgets, userId, os, false, freshIds).0, userId, o)
    decreases |os|
  {
    if os != [] {
      var o := os[0];
      var b1 := Salvar(budgets, userId, o, false, freshIds[0]).0;
      assert Extends(b1, budgets);
      assert Covered(b1, userId, o) by {
        if !Covered(budgets, userId, o) {
          assert freshIds[0] in BudgetIds(b1, userId, o.categoriaId, o.ano, o.mes);
        }
      }
      assert forall i :: 0 <= i < |freshIds[1..]| ==> freshIds[1..][i] == freshIds[i + 1];
      SalvarTodosSemSubstituir(b1, userId, os[1..], freshIds[1..]);
      var after := SalvarTodos(budgets, userId, os, false, freshIds).0;
      assert after == SalvarTodos(b1, userId, os[1..], false, freshIds[1..]).0;
      ExtendsKeepsCovered(after, b1, userId, o);
      forall x | x in os
        ensures Covered(after, userId, x)
      {
        if x != o {
          assert x in os[1..];
        }
      }
    }
  }

  /** Without replacing, forecasts whose periods are all covered change nothing and return nothing. */
  lemma {:induction false} SalvarTodosCoveredIsNoop(budgets: map<string, Budget>, userId: string, os: seq<Budget>,
                                                    freshIds: seq<string>)
    requires |freshIds| == |os|
    requires forall o :: o in os ==> Covered(budgets, userId, o)
    ensures SalvarTodos(budgets, userId, os, false, freshIds) == (budgets, [])
  {
    if os != [] {
      assert os[0] in os;
      assert Salvar(budgets, userId, os[0], false, freshIds[0]) == (budgets, None);
      assert forall o :: o in os[1..] ==> o in os;
      SalvarTodosCoveredIsNoop(budgets, userId, os[1..], freshIds[1..]);
      var rest := SalvarTodos(budgets, userId, os[1..], false, freshIds[1..]);
      var nothing: seq<Budget> := [];
      assert SalvarTodos(budgets, userId, os, false, freshIds) == (rest.0, nothing + rest.1);
      assert rest.1 == nothing && nothing + rest.1 == nothing;
    }
  }

  /** Applying the same forecasts a second time without replacing stores and returns nothing. */
  lemma ApplyingTwiceWithoutReplacingAddsNothing(budgets: map<string, Budget>, userId: string, os: seq<Budget>,
                                                 freshIds: seq<string>, moreIds: seq<string>)
    requires |freshIds| == |os| && |moreIds| == |os|
    requires forall i, j :: 0 <= i < j < |freshIds| ==> freshIds[i] != freshIds[j]
    requires forall i :: 0 <= i < |freshIds| ==> freshIds[i] !in budgets
    requires forall o :: o in os ==> o.userId == userId
    ensures var once := SalvarTodos(budgets, userId, os, false, freshIds).0;
      SalvarTodos(once, userId, os, false, moreIds) == (once, [])
  {
    SalvarTodosSemSubstituir(budgets, userId, os, freshIds);
    var once := SalvarTodos(budgets, userId, os, false, freshIds).0;
    SalvarTodosCoveredIsNoop(once, userId, os, moreIds);
  }
}
