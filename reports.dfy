/**
 * The reports screen's data hook (`useReportsData`): the chart series
 * filled bucket by bucket, the per-category list sorted by total, the two
 * totals and the guards that decide which insights are shown.
 *
 * Dates are what `new Date(t.data)` yields: an instant in milliseconds and
 * its calendar year, month and day, or nothing when the text is not a date
 * (every comparison with such a date is false).  "Now" is a parameter.
 */
module Reports {
  import opened Common

  /** The calendar day of a valid date. */
  type Dia = d: int | 1 <= d <= 31 witness 1

  /** A valid JavaScript date: its instant and the year, month and day the getters return. */
  datatype Instante = Instante(ms: int, ano: int, mes: int, dia: Dia)

  /** A transaction as the report reads it; `icone` is "" when absent. */
  datatype Transacao = Transacao(tipo: string, categoria: string, valor: real, icone: string,
                                 quando: Option<Instante>)

  /** Milliseconds in a day: `1000 * 60 * 60 * 24`. */
  const DayMs: int := 86400000

  // ---------------------------------------------------------------------
  // Totals (`processTransactionData`)

  /** `transactions.filter(t => t.tipo === tipo).reduce((sum, t) => sum + Number(t.valor), 0)`. */
  function TotalTipo(ts: seq<Transacao>, tipo: string): real
  {
    if ts == [] then 0.0
    else TotalTipo(ts[..|ts| - 1], tipo) + (if ts[|ts| - 1].tipo == tipo then ts[|ts| - 1].valor else 0.0)
  }

  /** The sum of every transaction's amount. */
  function TotalAll(ts: seq<Transacao>): real
  {
    if ts == [] then 0.0 else TotalAll(ts[..|ts| - 1]) + ts[|ts| - 1].valor
  }

  /** The amounts of the transactions that are neither 'despesa' nor 'ganho'. */
  function TotalOutros(ts: seq<Transacao>): real
  {
    if ts == [] then 0.0
    else
      var t := ts[|ts| - 1];
      TotalOutros(ts[..|ts| - 1]) + (if t.tipo != "despesa" && t.tipo != "ganho" then t.valor else 0.0)
  }

  /** The two totals and the rest split the whole sum: each transaction counts exactly once. */
  lemma {:induction false} TotalsPartition(ts: seq<Transacao>)
    ensures TotalTipo(ts, "despesa") + TotalTipo(ts, "ganho") + TotalOutros(ts) == TotalAll(ts)
  {
    if ts != [] {
      TotalsPartition(ts[..|ts| - 1]);
    }
  }

  /** A 'salario' transaction (or any other tipo) adds to neither total. */
  lemma SalarioInNeitherTotal(ts: seq<Transacao>, t: Transacao)
    requires t.tipo != "despesa" && t.tipo != "ganho"
    ensures TotalTipo(ts + [t], "despesa") == TotalTipo(ts, "despesa")
    ensures TotalTipo(ts + [t], "ganho") == TotalTipo(ts, "ganho")
  {
    assert (ts + [t])[..|ts|] == ts;
  }

  // ---------------------------------------------------------------------
  // Chart series (`prepareChartData`)

  /** The number of buckets of each period: 7 days, 4 weeks, 3, 12 or 24 months; none otherwise. */
  function SeriesLength(period: string): nat
  {
    if period == "week" then 7
    else if period == "month" then 4
    else if period == "quarter" then 3
    else if period == "year" then 12
    else if period == "all" then 24
    else 0
  }

  /** `Math.min(a, b)` on integers. */
  function MinInt(a: int, b: int): int
  {
    if a <= b then a else b
  }

  /** The bucket a transaction dated `quando` falls in, if any. */
  function Bucket(period: string, hoje: Instante, quando: Option<Instante>): (r: Option<nat>)
    ensures r.Some? ==> r.value < SeriesLength(period)
  {
    if quando.None? then None
    else
      var d := quando.value;
      if period == "week" then
        var daysDiff := (hoje.ms - d.ms) / DayMs;
        if 0 <= daysDiff < 7 then Some(6 - daysDiff) else None
      else if period == "month" then
        if d.mes == hoje.mes && d.ano == hoje.ano then Some(MinInt((d.dia - 1) / 7, 3)) else None
      else if period == "quarter" || period == "year" || period == "all" then
        var n := SeriesLength(period);
        var monthsDiff := (hoje.ano - d.ano) * 12 + (hoje.mes - d.mes);
        if 0 <= monthsDiff < n then Some(n - 1 - monthsDiff) else None
      else None
  }

  /** The month view: a transaction of the current month and year lands in week min(⌊(day−1)/7⌋, 3); no other does. */
  lemma MonthBucketRule(hoje: Instante, quando: Option<Instante>)
    ensures var b := Bucket("month", hoje, quando);
      (b.Some? <==> quando.Some? && quando.value.mes == hoje.mes && quando.value.ano == hoje.ano) &&
      (b.Some? ==> b.value <= 3 && b.value == MinInt((quando.value.dia - 1) / 7, 3))
  {
  }

  /** The month view: days 1–7 are week one and days 22 onwards all share the fourth week. */
  lemma MonthBucketEdges(hoje: Instante, d: Instante)
    requires d.mes == hoje.mes && d.ano == hoje.ano
    ensures d.dia <= 7 ==> Bucket("month", hoje, Some(d)) == Some(0)
    ensures d.dia >= 22 ==> Bucket("month", hoje, Some(d)) == Some(3)
  {
  }

  /** The week view: a transaction less than a day old is in the last bucket. */
  lemma WeekTodayIsLast(hoje: Instante, d: Instante)
    requires 0 <= hoje.ms - d.ms < DayMs
    ensures Bucket("week", hoje, Some(d)) == Some(6)
  {
  }

  /** The amount of bucket `i` of the expense series (`despesa`) or of the income series (every other tipo). */
  function SeriesTotal(ts: seq<Transacao>, period: string, hoje: Instante, i: nat, despesa: bool): real
  {
    if ts == [] then 0.0
    else
      var t := ts[|ts| - 1];
      SeriesTotal(ts[..|ts| - 1], period, hoje, i, despesa) +
        (if Bucket(period, hoje, t.quando) == Some(i) && (t.tipo == "despesa") == despesa then t.valor else 0.0)
  }

  /** The amount of every transaction in bucket `i`, whatever its tipo. */
  function BucketTotal(ts: seq<Transacao>, period: string, hoje: Instante, i: nat): real
  {
    if ts == [] then 0.0
    else
      var t := ts[|ts| - 1];
      BucketTotal(ts[..|ts| - 1], period, hoje, i) + (if Bucket(period, hoje, t.quando) == Some(i) then t.valor else 0.0)
  }

  /** Each transaction in a bucket goes to exactly one of the two series. */
  lemma {:induction false} SeriesSplitBucket(ts: seq<Transacao>, period: string, hoje: Instante, i: nat)
    ensures SeriesTotal(ts, period, hoje, i, true) + SeriesTotal(ts, period, hoje, i, false) ==
            BucketTotal(ts, period, hoje, i)
  {
    if ts != [] {
      SeriesSplitBucket(ts[..|ts| - 1], period, hoje, i);
    }
  }

  /** A 'salario' in the period raises the income series although it is in neither total. */
  lemma SalarioInIncomeSeries(ts: seq<Transacao>, period: string, hoje: Instante, t: Transacao, i: nat)
    requires t.tipo == "salario" && Bucket(period, hoje, t.quando) == Some(i)
    ensures SeriesTotal(ts + [t], period, hoje, i, false) == SeriesTotal(ts, period, hoje, i, false) + t.valor
    ensures SeriesTotal(ts + [t], period, hoje, i, true) == SeriesTotal(ts, period, hoje, i, true)
    ensures TotalTipo(ts + [t], "ganho") == TotalTipo(ts, "ganho")
  {
    assert (ts + [t])[..|ts|] == ts;
  }

  /** The chart: nothing for no transactions, otherwise the two series. */
  datatype Chart = NoChart | Chart(despesas: seq<real>, ganhos: seq<real>)

  /**
   * `prepareChartData`: both series start at zero, one slot per bucket of the
   * period, and each transaction in the period adds its amount to its slot.
   */
  method PrepareChartData(ts: seq<Transacao>, period: string, hoje: Instante) returns (c: Chart)
    ensures ts == [] <==> c == NoChart
    ensures c.Chart? ==> |c.despesas| == SeriesLength(period) && |c.ganhos| == SeriesLength(period)
    ensures c.Chart? ==> forall i :: 0 <= i < SeriesLength(period) ==>
      c.despesas[i] == SeriesTotal(ts, period, hoje, i, true) &&
      c.ganhos[i] == SeriesTotal(ts, period, hoje, i, false)
  {
    if ts == [] {
      return NoChart;
    }
    var n := SeriesLength(period);
    var despesas := new real[n](_ => 0.0);
    var ganhos := new real[n](_ => 0.0);
    for k := 0 to |ts|
      invariant forall i :: 0 <= i < n ==>
        despesas[i] == SeriesTotal(ts[..k], period, hoje, i, true) &&
        ganhos[i] == SeriesTotal(ts[..k], period, hoje, i, false)
    {
      SeriesStep(ts, period, hoje, k);
      var t := ts[k];
      var b := Bucket(period, hoje, t.quando);
      if b.Some? {
        if t.tipo == "despesa" {
          despesas[b.value] := despesas[b.value] + t.valor;
        } else {
          ganhos[b.value] := ganhos[b.value] + t.valor;
        }
      }
    }
    assert ts[..|ts|] == ts;
    c := Chart(despesas[..], ganhos[..]);
  }

  /** One more transaction adds its amount to its own bucket of its own series. */
  lemma SeriesStep(ts: seq<Transacao>, period: string, hoje: Instante, k: nat)
    requires k < |ts|
    ensures forall i: nat, despesa: bool {:trigger SeriesTotal(ts[..k + 1], period, hoje, i, despesa)} ::
      SeriesTotal(ts[..k + 1], period, hoje, i, despesa) ==
        SeriesTotal(ts[..k], period, hoje, i, despesa) +
        (if Bucket(period, hoje, ts[k].quando) == Some(i) && (ts[k].tipo == "despesa") == despesa then ts[k].valor else 0.0)
  {
    assert ts[..k + 1][..k] == ts[..k];
  }

  // ---------------------------------------------------------------------
  // Categories (`prepareCategoryData`)

  /** One entry of the category list; the rounded percentage is left out. */
  datatype CategoryStat = CategoryStat(categoria: string, icone: string, total: real, count: nat)

  /** `t.icone || 'help-circle-outline'`. */
  function IconeOr(icone: string): string
  {
    if icone == "" then "help-circle-outline" else icone
  }

  /** The dictionary the `forEach` fills: the first transaction of a category creates its entry, each adds to it. */
  function Group(ts: seq<Transacao>): map<string, CategoryStat>
  {
    if ts == [] then map[]
    else
      var g := Group(ts[..|ts| - 1]);
      var t := ts[|ts| - 1];
      var e := if t.categoria in g then g[t.categoria] else CategoryStat(t.categoria, IconeOr(t.icone), 0.0, 0);
      g[t.categoria := e.(total := e.total + t.valor, count := e.count + 1)]
  }

  /** The categories in the order they first appear: the dictionary's key order. */
  function Categorias(ts: seq<Transacao>): seq<string>
  {
    if ts == [] then []
    else
      var p := Categorias(ts[..|ts| - 1]);
      var c := ts[|ts| - 1].categoria;
      if c in p then p else p + [c]
  }

  /** How many transactions have category `c`. */
  function CountOf(ts: seq<Transacao>, c: string): nat
  {
    if ts == [] then 0
    else CountOf(ts[..|ts| - 1], c) + (if ts[|ts| - 1].categoria == c then 1 else 0)
  }

  /** The amounts of the transactions with category `c`, added up. */
  function TotalOf(ts: seq<Transacao>, c: string): real
  {
    if ts == [] then 0.0
    else TotalOf(ts[..|ts| - 1], c) + (if ts[|ts| - 1].categoria == c then ts[|ts| - 1].valor else 0.0)
  }

  /** Some transaction has category `c`. */
  predicate Occurs(ts: seq<Transacao>, c: string)
  {
    exists t :: t in ts && t.categoria == c
  }

  /** Some entry names category `c`. */
  predicate HasEntry(r: seq<CategoryStat>, c: string)
  {
    exists s :: s in r && s.categoria == c
  }

  /** Each category is listed once. */
  lemma {:induction false} CategoriasDistinct(ts: seq<Transacao>)
    ensures Distinct(Categorias(ts))
  {
    if ts != [] {
      CategoriasDistinct(ts[..|ts| - 1]);
    }
  }

  /** The categories listed are exactly those that occur. */
  lemma {:induction false} CategoriasOccur(ts: seq<Transacao>)
    ensures forall c :: c in Categorias(ts) <==> Occurs(ts, c)
  {
    if ts != [] {
      var init := ts[..|ts| - 1];
      CategoriasOccur(init);
      assert forall x :: x in ts <==> x in init || x == ts[|ts| - 1];
    }
  }

  /** The dictionary's keys are the listed categories. */
  lemma {:induction false} GroupKeys(ts: seq<Transacao>)
    ensures forall c :: c in Group(ts) <==> c in Categorias(ts)
  {
    if ts != [] {
      GroupKeys(ts[..|ts| - 1]);
    }
  }

  /** Each entry of the dictionary counts and sums exactly its own category. */
  lemma {:induction false} GroupEntries(ts: seq<Transacao>, c: string)
    requires c in Group(ts)
    ensures Group(ts)[c].categoria == c && Group(ts)[c].count == CountOf(ts, c) && Group(ts)[c].total == TotalOf(ts, c)
  {
    var init := ts[..|ts| - 1];
    var t := ts[|ts| - 1];
    if c in Group(init) {
      GroupEntries(init, c);
    } else {
      GroupKeys(init);
      CategoriasOccur(init);
      AbsentCategory(init, c);
    }
  }

  /** A category that does not occur has no transactions and no amount. */
  lemma {:induction false} AbsentCategory(ts: seq<Transacao>, c: string)
    requires forall t :: t in ts ==> t.categoria != c
    ensures CountOf(ts, c) == 0 && TotalOf(ts, c) == 0.0
  {
    if ts != [] {
      var init := ts[..|ts| - 1];
      assert forall t :: t in init ==> t in ts;
      AbsentCategory(init, c);
    }
  }

  /** `Object.values(categories)`: the entries in key order. */
  function ValuesOf(order: seq<string>, g: map<string, CategoryStat>): (vs: seq<CategoryStat>)
    requires forall c :: c in order ==> c in g
    ensures |vs| == |order|
    ensures forall j :: 0 <= j < |order| ==> vs[j] == g[order[j]]
  {
    if order == [] then [] else [g[order[0]]] + ValuesOf(order[1..], g)
  }

  /** The entries before sorting. */
  function Values(ts: seq<Transacao>): seq<CategoryStat>
  {
    GroupKeys(ts);
    ValuesOf(Categorias(ts), Group(ts))
  }

  /** The loop of `prepareCategoryData` over the transactions. */
  method Agrupar(ts: seq<Transacao>) returns (order: seq<string>, cats: map<string, CategoryStat>)
    ensures order == Categorias(ts) && cats == Group(ts)
  {
    order := [];
    cats := map[];
    for k := 0 to |ts|
      invariant order == Categorias(ts[..k]) && cats == Group(ts[..k])
    {
      var t := ts[k];
      assert ts[..k + 1][..k] == ts[..k];
      GroupKeys(ts[..k]);
      if t.categoria !in cats {
        cats := cats[t.categoria := CategoryStat(t.categoria, IconeOr(t.icone), 0.0, 0)];
        order := order + [t.categoria];
      }
      var e := cats[t.categoria];
      cats := cats[t.categoria := e.(total := e.total + t.valor, count := e.count + 1)];
    }
    assert ts[..|ts|] == ts;
  }

  predicate SortedDesc(xs: seq<CategoryStat>)
  {
    forall i, j :: 0 <= i < j < |xs| ==> xs[i].total >= xs[j].total
  }

  /** Places `x` after every entry with at least its total: the stable descending insertion. */
  function Insert(x: CategoryStat, ys: seq<CategoryStat>): (r: seq<CategoryStat>)
    ensures multiset(r) == multiset(ys) + multiset{x}
  {
    if ys == [] then [x]
    else if ys[0].total >= x.total then
      assert ys == [ys[0]] + ys[1..];
      [ys[0]] + Insert(x, ys[1..])
    else [x] + ys
  }

  lemma {:induction false} InsertSorted(x: CategoryStat, ys: seq<CategoryStat>)
    requires SortedDesc(ys)
    ensures SortedDesc(Insert(x, ys))
  {
    if ys == [] {
    } else if ys[0].total >= x.total {
      var rest := Insert(x, ys[1..]);
      InsertSorted(x, ys[1..]);
      forall z | z in rest
        ensures z.total <= ys[0].total
      {
        assert z in multiset(rest);
        if z != x {
          assert z in multiset(ys[1..]);
        }
      }
      SortedCons(ys[0], rest);
    } else {
      SortedCons(x, ys);
    }
  }

  /** An entry at least as large as every entry of a sorted list can go in front of it. */
  lemma SortedCons(y: CategoryStat, rest: seq<CategoryStat>)
    requires SortedDesc(rest) && forall z :: z in rest ==> z.total <= y.total
    ensures SortedDesc([y] + rest)
  {
    var r := [y] + rest;
    forall i, j | 0 <= i < j < |r|
      ensures r[i].total >= r[j].total
    {
      assert r[j] == rest[j - 1];
      if i > 0 {
        assert r[i] == rest[i - 1];
      }
    }
  }

  /** `.sort((a, b) => b.total - a.total)`: the entries by total, largest first. */
  function SortDesc(xs: seq<CategoryStat>): (r: seq<CategoryStat>)
    ensures multiset(r) == multiset(xs) && SortedDesc(r)
  {
    if xs == [] then []
    else
      var init := xs[..|xs| - 1];
      assert xs == init + [xs[|xs| - 1]];
      InsertSorted(xs[|xs| - 1], SortDesc(init));
      Insert(xs[|xs| - 1], SortDesc(init))
  }

  /** `prepareCategoryData`: [] for no transactions; otherwise the grouped entries, largest total first. */
  method PrepareCategoryData(ts: seq<Transacao>) returns (r: seq<CategoryStat>)
    ensures ts == [] ==> r == []
    ensures r == SortDesc(Values(ts))
    ensures multiset(r) == multiset(Values(ts)) && SortedDesc(r)
  {
    if ts == [] {
      return [];
    }
    var order, cats := Agrupar(ts);
    GroupKeys(ts);
    r := SortDesc(ValuesOf(order, cats));
  }

  predicate DistinctCategorias(vs: seq<CategoryStat>)
  {
    forall i, j :: 0 <= i < j < |vs| ==> vs[i].categoria != vs[j].categoria
  }

  /** The entries before sorting name distinct categories and hold each one's count and total. */
  lemma ValuesMeaning(ts: seq<Transacao>)
    ensures DistinctCategorias(Values(ts))
    ensures forall s :: s in Values(ts) ==> s.count == CountOf(ts, s.categoria) && s.total == TotalOf(ts, s.categoria)
    ensures forall c :: Occurs(ts, c) <==> HasEntry(Values(ts), c)
  {
    var order := Categorias(ts);
    var g := Group(ts);
    GroupKeys(ts);
    CategoriasDistinct(ts);
    CategoriasOccur(ts);
    var vs := Values(ts);
    forall j | 0 <= j < |vs|
      ensures vs[j].categoria == order[j] && vs[j].count == CountOf(ts, order[j]) && vs[j].total == TotalOf(ts, order[j])
    {
      GroupEntries(ts, order[j]);
    }
    forall c | Occurs(ts, c)
      ensures HasEntry(vs, c)
    {
      var j :| 0 <= j < |order| && order[j] == c;
      assert vs[j] in vs;
    }
  }

  /**
   * Each category that occurs has exactly one entry in the sorted list, and
   * that entry holds the category's count and total.
   */
  lemma CategoryEntries(ts: seq<Transacao>)
    ensures forall c :: Occurs(ts, c) <==> HasEntry(SortDesc(Values(ts)), c)
    ensures forall s :: s in SortDesc(Values(ts)) ==>
      s.count == CountOf(ts, s.categoria) && s.total == TotalOf(ts, s.categoria)
    ensures DistinctCategorias(SortDesc(Values(ts)))
  {
    var vs := Values(ts);
    var r := SortDesc(vs);
    ValuesMeaning(ts);
    forall s
      ensures s in r <==> s in vs
    {
      assert s in r <==> s in multiset(r);
      assert s in vs <==> s in multiset(vs);
    }
    PermutationKeepsDistinct(r, vs);
  }

  /** Reordering entries with distinct categories keeps them distinct. */
  lemma PermutationKeepsDistinct(r: seq<CategoryStat>, vs: seq<CategoryStat>)
    requires multiset(r) == multiset(vs) && DistinctCategorias(vs)
    ensures DistinctCategorias(r)
  {
    forall i, j | 0 <= i < j < |r|
      ensures r[i].categoria != r[j].categoria
    {
      if r[i].categoria == r[j].categoria {
        assert r[i] in multiset(vs) && r[j] in multiset(vs);
        var p :| 0 <= p < |vs| && vs[p] == r[i];
        var q :| 0 <= q < |vs| && vs[q] == r[j];
        assert p == q;
        TwiceInMultiset(r, i, j);
        OnceInMultiset(vs, p);
        assert false;
      }
    }
  }

  lemma TwiceInMultiset(r: seq<CategoryStat>, i: nat, j: nat)
    requires i < j < |r| && r[i] == r[j]
    ensures multiset(r)[r[j]] >= 2
  {
    assert r == r[..j] + [r[j]] + r[j + 1..];
    assert r[i] in r[..j];
  }

  lemma OnceInMultiset(vs: seq<CategoryStat>, p: nat)
    requires p < |vs| && DistinctCategorias(vs)
    ensures multiset(vs)[vs[p]] == 1
  {
    var x := vs[p];
    assert vs == vs[..p] + [x] + vs[p + 1..];
    assert x !in vs[..p] by {
      forall k | 0 <= k < p ensures vs[..p][k] != x { assert vs[k].categoria != vs[p].categoria; }
    }
    assert x !in vs[p + 1..] by {
      forall k | p < k < |vs| ensures vs[k] != x { assert vs[p].categoria != vs[k].categoria; }
    }
  }

  function SumCounts(xs: seq<CategoryStat>): nat
  {
    if xs == [] then 0 else xs[0].count + SumCounts(xs[1..])
  }

  /** The counts of all entries add up to the number of transactions. */
  lemma CountsSumToLength(ts: seq<Transacao>)
    ensures SumCounts(SortDesc(Values(ts))) == |ts|
  {
    var order := Categorias(ts);
    GroupKeys(ts);
    CategoriasDistinct(ts);
    CategoriasOccur(ts);
    forall c | c in order
      ensures Group(ts)[c].count == CountOf(ts, c)
    {
      GroupEntries(ts, c);
    }
    SumCountsIsCountOver(order, Group(ts), ts);
    CountOverAll(order, ts);
    SumCountsPermutation(SortDesc(Values(ts)), Values(ts));
  }

  /** The transactions of the listed categories, counted category by category. */
  function CountOver(cs: seq<string>, ts: seq<Transacao>): nat
  {
    if cs == [] then 0 else CountOf(ts, cs[0]) + CountOver(cs[1..], ts)
  }

  lemma {:induction false} SumCountsIsCountOver(order: seq<string>, g: map<string, CategoryStat>, ts: seq<Transacao>)
    requires forall c :: c in order ==> c in g && g[c].count == CountOf(ts, c)
    ensures SumCounts(ValuesOf(order, g)) == CountOver(order, ts)
  {
    if order != [] {
      assert ValuesOf(order, g)[1..] == ValuesOf(order[1..], g);
      SumCountsIsCountOver(order[1..], g, ts);
    }
  }

  /** How often `c` is listed. */
  function Occurrences(cs: seq<string>, c: string): nat
  {
    if cs == [] then 0 else (if cs[0] == c then 1 else 0) + Occurrences(cs[1..], c)
  }

  lemma {:induction false} OccursOnce(cs: seq<string>, c: string)
    requires Distinct(cs) && c in cs
    ensures Occurrences(cs, c) == 1
  {
    if cs[0] == c {
      NotOccurring(cs[1..], c);
    } else {
      OccursOnce(cs[1..], c);
    }
  }

  lemma {:induction false} NotOccurring(cs: seq<string>, c: string)
    requires c !in cs
    ensures Occurrences(cs, c) == 0
  {
    if cs != [] {
      NotOccurring(cs[1..], c);
    }
  }

  /** One more transaction adds one to the count of each listing of its category. */
  lemma {:induction false} CountOverSnoc(cs: seq<string>, ts: seq<Transacao>)
    requires ts != []
    ensures CountOver(cs, ts) == CountOver(cs, ts[..|ts| - 1]) + Occurrences(cs, ts[|ts| - 1].categoria)
  {
    if cs != [] {
      CountOverSnoc(cs[1..], ts);
    }
  }

  /** Counting over a duplicate-free list of every category that occurs counts each transaction once. */
  lemma {:induction false} CountOverAll(cs: seq<string>, ts: seq<Transacao>)
    requires Distinct(cs) && forall t :: t in ts ==> t.categoria in cs
    ensures CountOver(cs, ts) == |ts|
  {
    if ts == [] {
      ZeroCountOver(cs);
    } else {
      var init := ts[..|ts| - 1];
      assert forall t :: t in init ==> t in ts;
      CountOverAll(cs, init);
      CountOverSnoc(cs, ts);
      OccursOnce(cs, ts[|ts| - 1].categoria);
    }
  }

  lemma {:induction false} ZeroCountOver(cs: seq<string>)
    ensures CountOver(cs, []) == 0
  {
    if cs != [] {
      ZeroCountOver(cs[1..]);
    }
  }

  /** Reordering the entries does not change the sum of the counts. */
  lemma {:induction false} SumCountsPermutation(xs: seq<CategoryStat>, ys: seq<CategoryStat>)
    requires multiset(xs) == multiset(ys)
    ensures SumCounts(xs) == SumCounts(ys)
    decreases |xs|
  {
    if xs == [] {
      assert |ys| == |multiset(ys)| == 0;
    } else {
      var x := xs[0];
      assert x in multiset(ys);
      var i :| 0 <= i < |ys| && ys[i] == x;
      var rest := ys[..i] + ys[i + 1..];
      MultisetRemove(ys, i);
      assert xs == [x] + xs[1..];
      assert multiset(xs[1..]) == multiset(xs) - multiset{x};
      SumCountsPermutation(xs[1..], rest);
      SumCountsRemove(ys, i);
    }
  }

  lemma MultisetRemove(ys: seq<CategoryStat>, i: nat)
    requires i < |ys|
    ensures multiset(ys[..i] + ys[i + 1..]) == multiset(ys) - multiset{ys[i]}
  {
    assert ys == ys[..i] + [ys[i]] + ys[i + 1..];
  }

  lemma {:induction false} SumCountsRemove(ys: seq<CategoryStat>, i: nat)
    requires i < |ys|
    ensures SumCounts(ys) == SumCounts(ys[..i] + ys[i + 1..]) + ys[i].count
  {
    if i > 0 {
      var rest := ys[..i] + ys[i + 1..];
      var tail := ys[1..][..i - 1] + ys[1..][i..];
      assert rest == [ys[0]] + tail;
      assert rest[1..] == tail;
      assert ys[1..][i - 1] == ys[i];
      SumCountsRemove(ys[1..], i - 1);
      assert SumCounts(rest) == ys[0].count + SumCounts(tail);
      assert SumCounts(ys) == ys[0].count + SumCounts(ys[1..]);
    } else {
      assert ys[..0] + ys[1..] == ys[1..];
    }
  }

  // ---------------------------------------------------------------------
  // Insights (`generateInsights`)

  /** `resumo.comparativo_mes_anterior`. */
  datatype Comparativo = Comparativo(percentualVariacao: real, direcao: string)

  /**
   * The insights the guards let through.  The ratio is the unrounded
   * percentage; the daily average is None when a 'despesa' has no valid date.
   */
  datatype Insight =
    | TopCategory(categoria: string, icone: string)
    | ExpenseIncomeRatio(percentual: real)
    | DailyAverage(media: Option<real>)
    | SpendingTrend(aumento: bool, variacao: real)

  function Despesas(ts: seq<Transacao>): (ds: seq<Transacao>)
    ensures forall t :: t in ds <==> t in ts && t.tipo == "despesa"
  {
    if ts == [] then []
    else Despesas(ts[..|ts| - 1]) + (if ts[|ts| - 1].tipo == "despesa" then [ts[|ts| - 1]] else [])
  }

  /** `Math.max(1, Math.ceil(ms / DayMs))`: the days the expenses span, at least one. */
  function SpanDays(ms: int): (d: int)
    ensures d >= 1
  {
    var c := -((-ms) / DayMs);
    if c >= 1 then c else 1
  }

  /** The earliest and latest instant among dated transactions; None if one is undated. */
  function Span(ds: seq<Transacao>): Option<(int, int)>
    requires ds != []
  {
    if exists t :: t in ds && t.quando.None? then None
    else Some((MinMs(ds), MaxMs(ds)))
  }

  function MinMs(ds: seq<Transacao>): int
    requires ds != [] && forall t :: t in ds ==> t.quando.Some?
  {
    var m := ds[0].quando.value.ms;
    if |ds| == 1 then m
    else
      var r := MinMs(ds[1..]);
      if m <= r then m else r
  }

  function MaxMs(ds: seq<Transacao>): int
    requires ds != [] && forall t :: t in ds ==> t.quando.Some?
  {
    var m := ds[0].quando.value.ms;
    if |ds| == 1 then m
    else
      var r := MaxMs(ds[1..]);
      if m >= r then m else r
  }

  /** Which of the four insights an entry is, in the order they are pushed. */
  function Kind(s: Insight): nat
  {
    match s
    case TopCategory(_, _) => 0
    case ExpenseIncomeRatio(_) => 1
    case DailyAverage(_) => 2
    case SpendingTrend(_, _) => 3
  }

  /** Is an insight of kind `k` shown? */
  predicate Shows(r: seq<Insight>, k: nat)
  {
    exists i :: 0 <= i < |r| && Kind(r[i]) == k
  }

  lemma ShowsConcat(a: seq<Insight>, b: seq<Insight>, k: nat)
    ensures Shows(a + b, k) <==> Shows(a, k) || Shows(b, k)
  {
    if Shows(a + b, k) {
      var i :| 0 <= i < |a + b| && Kind((a + b)[i]) == k;
      if i >= |a| {
        assert b[i - |a|] == (a + b)[i];
      }
    }
    if Shows(a, k) {
      var i :| 0 <= i < |a| && Kind(a[i]) == k;
      assert (a + b)[i] == a[i];
    }
    if Shows(b, k) {
      var i :| 0 <= i < |b| && Kind(b[i]) == k;
      assert (a + b)[|a| + i] == b[i];
    }
  }

  /** Every ratio insight in `r` relates the two totals as a percentage. */
  predicate RatiosMatch(r: seq<Insight>, despesas: real, ganhos: real)
  {
    forall i :: 0 <= i < |r| && r[i].ExpenseIncomeRatio? ==> ganhos > 0.0 && r[i].percentual * ganhos == despesas * 100.0
  }

  lemma RatiosMatchConcat(a: seq<Insight>, b: seq<Insight>, despesas: real, ganhos: real)
    requires RatiosMatch(a, despesas, ganhos) && RatiosMatch(b, despesas, ganhos)
    ensures RatiosMatch(a + b, despesas, ganhos)
  {
    forall i | 0 <= i < |a + b| && (a + b)[i].ExpenseIncomeRatio?
      ensures ganhos > 0.0 && (a + b)[i].percentual * ganhos == despesas * 100.0
    {
      if i >= |a| {
        assert (a + b)[i] == b[i - |a|];
      }
    }
  }

  /** The first push: the top category, when the list is not empty. */
  function TopPart(categories: seq<CategoryStat>): (p: seq<Insight>)
    ensures forall k :: Shows(p, k) <==> categories != [] && k == 0
    ensures forall d, g :: RatiosMatch(p, d, g)
  {
    if categories == [] then []
    else
      var p := [TopCategory(categories[0].categoria, categories[0].icone)];
      assert Kind(p[0]) == 0;
      p
  }

  /** `Math.round((totalDespesas / totalGanhos) * 100)` without the rounding. */
  function Ratio(despesas: real, ganhos: real): (p: real)
    requires ganhos > 0.0
    ensures p * ganhos == despesas * 100.0
  {
    despesas / ganhos * 100.0
  }

  /** The second push: the expense/income ratio, when the income total is positive. */
  function RatioPart(ts: seq<Transacao>): (p: seq<Insight>)
    ensures forall k :: Shows(p, k) <==> TotalTipo(ts, "ganho") > 0.0 && k == 1
    ensures RatiosMatch(p, TotalTipo(ts, "despesa"), TotalTipo(ts, "ganho"))
  {
    var totalGanhos := TotalTipo(ts, "ganho");
    if totalGanhos > 0.0 then
      var p := [ExpenseIncomeRatio(Ratio(TotalTipo(ts, "despesa"), totalGanhos))];
      assert Kind(p[0]) == 1;
      p
    else []
  }

  /** The third push: the daily average, when there is an expense. */
  function MediaPart(ts: seq<Transacao>): (p: seq<Insight>)
    ensures forall k :: Shows(p, k) <==> Despesas(ts) != [] && k == 2
    ensures forall d, g :: RatiosMatch(p, d, g)
  {
    var ds := Despesas(ts);
    if ds == [] then []
    else
      var span := Span(ds);
      var p := [DailyAverage(if span.None? then None else Some(TotalTipo(ts, "despesa") / SpanDays(span.value.1 - span.value.0) as real))];
      assert Kind(p[0]) == 2;
      p
  }

  /** The fourth push: the trend, when the summary carries a comparison. */
  function TrendPart(comparativo: Option<Comparativo>): (p: seq<Insight>)
    ensures forall k :: Shows(p, k) <==> comparativo.Some? && k == 3
    ensures forall d, g :: RatiosMatch(p, d, g)
  {
    if comparativo.None? then []
    else
      var p := [SpendingTrend(comparativo.value.direcao == "aumento", comparativo.value.percentualVariacao)];
      assert Kind(p[0]) == 3;
      p
  }

  /** `generateInsights`: nothing for no transactions, otherwise the four guarded pushes in order. */
  function GenerateInsights(ts: seq<Transacao>, categories: seq<CategoryStat>, comparativo: Option<Comparativo>)
    : seq<Insight>
  {
    if ts == [] then []
    else TopPart(categories) + RatioPart(ts) + MediaPart(ts) + TrendPart(comparativo)
  }

  /**
   * No insight for no transactions; otherwise the top category exactly when
   * the list is non-empty, the ratio exactly when the income total is
   * positive (and then it is the expense total as a percentage of it), the
   * daily average exactly when there is an expense, and the trend exactly
   * when the summary carries a comparison.
   */
  lemma InsightGuards(ts: seq<Transacao>, categories: seq<CategoryStat>, comparativo: Option<Comparativo>)
    ensures ts == [] ==> GenerateInsights(ts, categories, comparativo) == []
    ensures var r := GenerateInsights(ts, categories, comparativo);
      (Shows(r, 0) <==> ts != [] && categories != []) &&
      (Shows(r, 1) <==> ts != [] && TotalTipo(ts, "ganho") > 0.0) &&
      (Shows(r, 2) <==> Despesas(ts) != []) &&
      (Shows(r, 3) <==> ts != [] && comparativo.Some?)
  {
    if ts != [] {
      var a, b, c, d := TopPart(categories), RatioPart(ts), MediaPart(ts), TrendPart(comparativo);
      assert GenerateInsights(ts, categories, comparativo) == a + b + c + d;
      forall k: nat | k <= 3
        ensures Shows(a + b + c + d, k) <==> Shows(a, k) || Shows(b, k) || Shows(c, k) || Shows(d, k)
      {
        ShowsConcat(a, b, k);
        ShowsConcat(a + b, c, k);
        ShowsConcat(a + b + c, d, k);
      }
    } else {
      assert Despesas(ts) == [];
    }
  }

  /** A ratio insight, when shown, is the expense total as a percentage of the income total. */
  lemma InsightRatio(ts: seq<Transacao>, categories: seq<CategoryStat>, comparativo: Option<Comparativo>)
    ensures RatiosMatch(GenerateInsights(ts, categories, comparativo), TotalTipo(ts, "despesa"), TotalTipo(ts, "ganho"))
  {
    if ts != [] {
      var a, b, c, d := TopPart(categories), RatioPart(ts), MediaPart(ts), TrendPart(comparativo);
      var dt, gt := TotalTipo(ts, "despesa"), TotalTipo(ts, "ganho");
      RatiosMatchConcat(a, b, dt, gt);
      RatiosMatchConcat(a + b, c, dt, gt);
      RatiosMatchConcat(a + b + c, d, dt, gt);
    }
  }
}
