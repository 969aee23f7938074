/**
 * The monthly summary (`ResumoMensalService.atualizar_resumo`): the month's
 * expenses and incomes are fetched, summed overall and per category, the
 * opening balance is looked up, the two balance equations are filled in and
 * the record is written back under `{user}_{ano}_{mes:02d}`.
 */
module MonthlySummary {
  import opened Common
  import opened Calendar
  import opened DateOrder
  import opened Entities
  import opened Store
  import opened Balances
  import Records

  /** What the summary reads off an expense or an income: its category and amount. */
  datatype Entry = Entry(categoriaId: string, valor: real)

  /** `sum(x.valor for x in xs)`. */
  function SumValor(es: seq<Entry>): real
  {
    if es == [] then 0.0 else SumValor(es[..|es| - 1]) + es[|es| - 1].valor
  }

  /** The amount stored under `k`, 0.0 when there is none. */
  function Get(m: map<string, real>, k: string): real
  {
    if k in m then m[k] else 0.0
  }

  /** The entries of category `c`, in order. */
  function OfCategoria(es: seq<Entry>, c: string): (r: seq<Entry>)
    ensures forall e :: e in r <==> e in es && e.categoriaId == c
  {
    if es == [] then []
    else OfCategoria(es[..|es| - 1], c) + (if es[|es| - 1].categoriaId == c then [es[|es| - 1]] else [])
  }

  /**
   * The per-category dictionary the summary fills: one key per category
   * that occurs, holding the running sum of its amounts.
   */
  function PorCategoria(es: seq<Entry>): map<string, real>
  {
    if es == [] then map[]
    else
      var m := PorCategoria(es[..|es| - 1]);
      var e := es[|es| - 1];
      m[e.categoriaId := Get(m, e.categoriaId) + e.valor]
  }

  /** The dictionary has one key per category that occurs, and no other. */
  lemma {:induction false} PorCategoriaKeys(es: seq<Entry>)
    ensures forall c :: c in PorCategoria(es) <==> exists e :: e in es && e.categoriaId == c
  {
    if es != [] {
      var init := es[..|es| - 1];
      var e := es[|es| - 1];
      PorCategoriaKeys(init);
      assert es == init + [e];
      assert forall x :: x in es <==> x in init || x == e;
    }
  }

  /** Each category's entry is the total of that category's amounts. */
  lemma {:induction false} PorCategoriaIsCategoryTotal(es: seq<Entry>, c: string)
    ensures Get(PorCategoria(es), c) == SumValor(OfCategoria(es, c))
  {
    if es != [] {
      PorCategoriaIsCategoryTotal(es[..|es| - 1], c);
      var rest := OfCategoria(es[..|es| - 1], c);
      if es[|es| - 1].categoriaId == c {
        assert OfCategoria(es, c)[..|OfCategoria(es, c)| - 1] == rest;
      } else {
        assert OfCategoria(es, c) == rest;
      }
    }
  }

  /** The amounts of `m` under the keys `ks`, added up. */
  function SumAt(m: map<string, real>, ks: seq<string>): real
  {
    if ks == [] then 0.0 else Get(m, ks[0]) + SumAt(m, ks[1..])
  }

  predicate Distinct(ks: seq<string>)
  {
    forall i, j :: 0 <= i < j < |ks| ==> ks[i] != ks[j]
  }

  lemma {:induction false} SumAtUnchanged(m: map<string, real>, ks: seq<string>, k: string, v: real)
    requires k !in ks
    ensures SumAt(m[k := v], ks) == SumAt(m, ks)
  {
    if ks != [] {
      SumAtUnchanged(m, ks[1..], k, v);
    }
  }

  lemma {:induction false} SumAtAdd(m: map<string, real>, ks: seq<string>, k: string, v: real)
    requires Distinct(ks) && k in ks
    ensures SumAt(m[k := Get(m, k) + v], ks) == SumAt(m, ks) + v
  {
    if ks[0] == k {
      assert k !in ks[1..];
      SumAtUnchanged(m, ks[1..], k, Get(m, k) + v);
    } else {
      SumAtAdd(m, ks[1..], k, v);
    }
  }

  /**
   * The per-category dictionary adds up to the overall total, read over any
   * listing of its categories without repetitions.
   */
  lemma {:induction false} PorCategoriaSumsToTotal(es: seq<Entry>, ks: seq<string>)
    requires Distinct(ks)
    requires forall e :: e in es ==> e.categoriaId in ks
    ensures SumAt(PorCategoria(es), ks) == SumValor(es)
  {
    if es == [] {
      SumAtEmpty(ks);
    } else {
      var init := es[..|es| - 1];
      var e := es[|es| - 1];
      assert forall x :: x in init ==> x in es;
      PorCategoriaSumsToTotal(init, ks);
      SumAtAdd(PorCategoria(init), ks, e.categoriaId, e.valor);
    }
  }

  lemma {:induction false} SumAtEmpty(ks: seq<string>)
    ensures SumAt(map[], ks) == 0.0
  {
    if ks != [] {
      SumAtEmpty(ks[1..]);
    }
  }

  /** The loop that fills a per-category dictionary. */
  method Tally(es: seq<Entry>) returns (porCategoria: map<string, real>)
    ensures porCategoria == PorCategoria(es)
  {
    porCategoria := map[];
    for i := 0 to |es|
      invariant porCategoria == PorCategoria(es[..i])
    {
      var e := es[i];
      assert es[..i + 1][..i] == es[..i];
      if e.categoriaId in porCategoria {
        porCategoria := porCategoria[e.categoriaId := porCategoria[e.categoriaId] + e.valor];
      } else {
        porCategoria := porCategoria[e.categoriaId := e.valor];
      }
    }
    assert es[..|es|] == es;
  }

  /** A date filter `inicio <= data <= fim`; a missing date never matches. */
  predicate Within(data: Option<DateTime>, inicio: DateTime, fim: DateTime)
  {
    data.Some? && Le(inicio, data.value) && Le(data.value, fim)
  }

  /** The entries of the expenses `ids` of `m` dated within the bounds, in the order of `ids`. */
  function DespesaEntries(m: map<string, Despesa>, ids: seq<string>, inicio: DateTime, fim: DateTime)
    : (r: seq<Entry>)
    requires forall i :: 0 <= i < |ids| ==> ids[i] in m
    ensures |r| <= |ids|
  {
    if ids == [] then []
    else
      var d := m[ids[|ids| - 1]];
      DespesaEntries(m, ids[..|ids| - 1], inicio, fim) +
      (if Within(d.data, inicio, fim) then [Entry(d.categoriaId, d.valor)] else [])
  }

  /** The entries of the incomes `ids` of `m` belonging to `userId` and dated within the bounds. */
  function ReceitaEntries(m: map<string, Receita>, userId: string, ids: seq<string>,
                          inicio: DateTime, fim: DateTime): (r: seq<Entry>)
    requires forall i :: 0 <= i < |ids| ==> ids[i] in m
    ensures |r| <= |ids|
  {
    if ids == [] then []
    else
      var x := m[ids[|ids| - 1]];
      ReceitaEntries(m, userId, ids[..|ids| - 1], inicio, fim) +
      (if x.userId == userId && Within(x.data, inicio, fim) then [Entry(x.categoriaId, x.valor)] else [])
  }

  /** The dates of the expenses of `m` within the bounds: what the range query selects and sorts on. */
  function DespesaDates(m: map<string, Despesa>, inicio: DateTime, fim: DateTime): (date: map<string, DateTime>)
    ensures date.Keys <= m.Keys
    ensures forall id :: id in date <==> id in m && Within(m[id].data, inicio, fim)
    ensures forall id :: id in date ==> m[id].data == Some(date[id])
  {
    map id | id in m && Within(m[id].data, inicio, fim) :: m[id].data.value
  }

  /** The dates of the incomes of `userId` within the bounds. */
  function ReceitaDates(m: map<string, Receita>, userId: string, inicio: DateTime, fim: DateTime)
    : (date: map<string, DateTime>)
    ensures date.Keys <= m.Keys
    ensures forall id :: id in date <==> id in m && m[id].userId == userId && Within(m[id].data, inicio, fim)
    ensures forall id :: id in date ==> m[id].data == Some(date[id])
  {
    map id | id in m && m[id].userId == userId && Within(m[id].data, inicio, fim) :: m[id].data.value
  }

  /**
   * The expense query of the month: the user's expenses dated within the
   * bounds, streamed by date and then by id.
   */
  ghost function DespesasNoPeriodo(db: map<string, map<string, Despesa>>, userId: string,
                                   inicio: DateTime, fim: DateTime): seq<Entry>
  {
    var m := if userId in db then db[userId] else map[];
    DespesaEntries(m, ByDateListing(DespesaDates(m, inicio, fim)), inicio, fim)
  }

  /** The income query of the month, streamed by date and then by id. */
  ghost function ReceitasNoPeriodo(receitas: map<string, Receita>, userId: string,
                                   inicio: DateTime, fim: DateTime): seq<Entry>
  {
    ReceitaEntries(receitas, userId, ByDateListing(ReceitaDates(receitas, userId, inicio, fim)), inicio, fim)
  }

  /** `DespesaService.get_by_periodo`. */
  method FetchDespesas(db: Db, userId: string, inicio: DateTime, fim: DateTime) returns (es: seq<Entry>)
    ensures es == DespesasNoPeriodo(db.despesas, userId, inicio, fim)
  {
    var m := db.DespesasOf(userId);
    var ids := SortedByDate(DespesaDates(m, inicio, fim));
    es := DespesaEntries(m, ids, inicio, fim);
  }

  /** `ReceitaService.get_by_periodo`. */
  method FetchReceitas(db: Db, userId: string, inicio: DateTime, fim: DateTime) returns (es: seq<Entry>)
    ensures es == ReceitasNoPeriodo(db.receitas, userId, inicio, fim)
  {
    var ids := SortedByDate(ReceitaDates(db.receitas, userId, inicio, fim));
    es := ReceitaEntries(db.receitas, userId, ids, inicio, fim);
  }

  /** The record the recomputation starts from: the stored one, or a fresh one with every default. */
  function Base(rs: map<string, ResumoMensal>, userId: string, ano: int, mes: int): (r: ResumoMensal)
    ensures UserMonthKey(userId, ano, mes) !in rs ==>
      r == ResumoMensal(userId, ano, mes, 0.0, 0.0, 0.0, 0.0, map[], map[], 0.0, 0.0)
  {
    var id := UserMonthKey(userId, ano, mes);
    if id in rs then rs[id]
    else ResumoMensal(userId, ano, mes, 0.0, 0.0, 0.0, 0.0, map[], map[], 0.0, 0.0)
  }

  /**
   * The recomputed record: totals and per-category dictionaries from the
   * fetched lists, the given opening balance, and the two balance equations;
   * everything else is kept from `base`.
   */
  function Recompute(base: ResumoMensal, despesas: seq<Entry>, receitas: seq<Entry>, saldoInicial: real)
    : (r: ResumoMensal)
    ensures r.totalDespesas == SumValor(despesas) && r.totalReceitas == SumValor(receitas)
    ensures r.despesasPorCategoria == PorCategoria(despesas) && r.receitasPorCategoria == PorCategoria(receitas)
    ensures r.saldoInicial == saldoInicial
    ensures r.saldoFinal == r.saldoInicial + r.totalReceitas - r.totalDespesas
    ensures r.economiaReal == r.totalReceitas - r.totalDespesas
    ensures r.userId == base.userId && r.ano == base.ano && r.mes == base.mes
    ensures r.metaEconomia == base.metaEconomia
  {
    var totalDespesas := SumValor(despesas);
    var totalReceitas := SumValor(receitas);
    base.(totalDespesas := totalDespesas, totalReceitas := totalReceitas,
          despesasPorCategoria := PorCategoria(despesas), receitasPorCategoria := PorCategoria(receitas),
          saldoInicial := saldoInicial,
          saldoFinal := saldoInicial + totalReceitas - totalDespesas,
          economiaReal := totalReceitas - totalDespesas)
  }

  /** Fills the totals, the per-category dictionaries and the balances of `base`. */
  method RecomputeRecord(base: ResumoMensal, despesas: seq<Entry>, receitas: seq<Entry>, saldoInicial: real)
    returns (novo: ResumoMensal)
    ensures novo == Recompute(base, despesas, receitas, saldoInicial)
  {
    var porDespesa := Tally(despesas);
    var porReceita := Tally(receitas);
    var totalDespesas := SumValor(despesas);
    var totalReceitas := SumValor(receitas);
    novo := base.(totalDespesas := totalDespesas, totalReceitas := totalReceitas,
                  despesasPorCategoria := porDespesa, receitasPorCategoria := porReceita,
                  saldoInicial := saldoInicial,
                  saldoFinal := saldoInicial + totalReceitas - totalDespesas,
                  economiaReal := totalReceitas - totalDespesas);
  }

  /** The closing balance moves from the opening one by exactly the month's savings. */
  lemma ClosingMinusOpeningIsSavings(base: ResumoMensal, despesas: seq<Entry>, receitas: seq<Entry>, saldoInicial: real)
    ensures var r := Recompute(base, despesas, receitas, saldoInicial);
      r.saldoFinal - r.saldoInicial == r.economiaReal
  {
  }

  // ---------------------------------------------------------------------
  // The opening balance

  /**
   * The opening-balance lookup as written: a query on the summary's own
   * collection for documents of the user whose `data` field is at or before
   * `bound`, over the stored documents as dictionaries.
   */
  function QueryDataUpTo(docs: seq<Records.Instance>, userId: string, bound: DateTime)
    : (r: seq<Records.Instance>)
    ensures forall x :: x in r ==> x in docs && "data" in x.attrs
  {
    if docs == [] then []
    else
      var x := docs[|docs| - 1];
      QueryDataUpTo(docs[..|docs| - 1], userId, bound) +
      (if "user_id" in x.attrs && x.attrs["user_id"] == Records.VStr(userId) &&
          "data" in x.attrs && x.attrs["data"].VTime? && Le(x.attrs["data"].t, bound)
       then [x] else [])
  }

  /**
   * A monthly summary document has no `data` field, so the lookup finds
   * nothing whatever the collection holds: the opening balance is always 0.0.
   */
  lemma {:induction false} MonthlyRecordsHaveNoDate(docs: seq<Records.Instance>, userId: string, bound: DateTime)
    requires forall x :: x in docs ==> x.kind == Records.ResumoMensalKind && x.WellFormed()
    ensures QueryDataUpTo(docs, userId, bound) == []
  {
    if docs != [] {
      var x := docs[|docs| - 1];
      assert x in docs;
      assert "data" !in x.attrs by {
        MonthlyFieldsHaveNoDate();
      }
      MonthlyRecordsHaveNoDate(docs[..|docs| - 1], userId, bound);
    }
  }

  /** `ResumoMensal` declares no `data` field. */
  lemma MonthlyFieldsHaveNoDate()
    ensures "data" !in Records.Fields(Records.ResumoMensalKind)
  {
    assert "data" !in Records.OwnDefaults(Records.ResumoMensalKind);
    assert "data" !in Records.BaseDefaults();
  }

  /** The balance snapshots do carry the `data` field the lookup filters on. */
  lemma SnapshotsHaveDate()
    ensures "data" in Records.Fields(Records.SaldoKind)
  {
  }

  /** The opening balance as written: the head of the stably date-sorted query result, 0.0 when it is empty. */
  function OpeningAsWritten(anteriores: seq<Saldo>): (v: real)
    ensures anteriores == [] ==> v == 0.0
    ensures anteriores != [] ==>
      exists i :: 0 <= i < |anteriores| && v == anteriores[i].valor &&
        forall j :: 0 <= j < |anteriores| ==> Le(SortKey(anteriores[j]), SortKey(anteriores[i]))
  {
    if anteriores == [] then 0.0 else anteriores[HeadIndex(anteriores)].valor
  }

  /** The index of the first snapshot with the latest sort key. */
  function HeadIndex(xs: seq<Saldo>): (i: nat)
    requires xs != []
    ensures i < |xs|
    ensures forall j :: 0 <= j < |xs| ==> Le(SortKey(xs[j]), SortKey(xs[i]))
    ensures forall j :: 0 <= j < i ==> Lt(SortKey(xs[j]), SortKey(xs[i]))
  {
    if |xs| == 1 then 0
    else
      var h := HeadIndex(xs[1..]) + 1;
      LeTotal(SortKey(xs[0]), SortKey(xs[h]));
      if Le(SortKey(xs[h]), SortKey(xs[0])) then
        assert forall j :: 1 <= j < |xs| ==> Le(SortKey(xs[j]), SortKey(xs[0])) by {
          forall j | 1 <= j < |xs|
            ensures Le(SortKey(xs[j]), SortKey(xs[0]))
          {
            assert xs[j] == xs[1..][j - 1];
            LeTransitive(SortKey(xs[j]), SortKey(xs[h]), SortKey(xs[0]));
          }
        }
        0
      else
        assert forall j :: 0 <= j < h ==> Lt(SortKey(xs[j]), SortKey(xs[h])) by {
          forall j | 0 <= j < h
            ensures Lt(SortKey(xs[j]), SortKey(xs[h]))
          {
            if j > 0 {
              assert xs[j] == xs[1..][j - 1];
            }
          }
        }
        h
  }

  /** The snapshots of `userId` dated strictly before `inicio`. */
  function SnapshotsBefore(saldos: map<string, Saldo>, userId: string, inicio: DateTime): (ids: set<string>)
    ensures ids <= saldos.Keys
    ensures forall id :: id in ids <==>
      id in saldos && saldos[id].userId == userId && saldos[id].data.Some? && Lt(saldos[id].data.value, inicio)
  {
    set id | id in saldos && saldos[id].userId == userId && saldos[id].data.Some? && Lt(saldos[id].data.value, inicio)
  }

  // ---------------------------------------------------------------------
  // Writing the record back

  /**
   * The write-back as written: the record always carries its composite id,
   * so it is always an update, which fails on a document that does not exist.
   */
  function WriteBackAsWritten(rs: map<string, ResumoMensal>, id: string, r: ResumoMensal)
    : (out: Result<map<string, ResumoMensal>>)
    ensures id in rs <==> out.Ok?
    ensures out.Ok? ==> out.value == rs[id := r]
  {
    if id in rs then Ok(rs[id := r]) else Err(NotFound("resumos_mensais/" + id))
  }

  /** As written, no monthly summary is ever created: a successful write-back leaves the set of ids as it was. */
  lemma WriteBackAsWrittenNeverCreates(rs: map<string, ResumoMensal>, id: string, r: ResumoMensal)
    ensures WriteBackAsWritten(rs, id, r).Ok? ==> WriteBackAsWritten(rs, id, r).value.Keys == rs.Keys
  {
  }

  /** The first recomputation for a user and month, on an empty collection, fails. */
  lemma FirstMonthlySummaryFails(userId: string, ano: int, mes: int, r: ResumoMensal)
    ensures WriteBackAsWritten(map[], UserMonthKey(userId, ano, mes), r).Err?
  {
  }

  /** The corrected write-back: the record is stored under its id, created or replaced. */
  function WriteBack(rs: map<string, ResumoMensal>, id: string, r: ResumoMensal)
    : (out: map<string, ResumoMensal>)
    ensures id in out && out[id] == r
    ensures forall k :: k != id ==> (k in out <==> k in rs) && (k in rs ==> out[k] == rs[k])
  {
    rs[id := r]
  }

  // ---------------------------------------------------------------------
  // The recomputation

  /**
   * How the month's date arithmetic fails: `datetime(ano, mes, 1)` needs a
   * month in 1..12 and a year `datetime` can hold, the first of the next
   * month must exist too, and so must the day before the first of the month.
   */
  function BoundsError(ano: int, mes: int): (e: Option<Error>)
    ensures e.None? <==>
      1 <= mes <= 12 && MinYear <= ano && NextMonth(ano, mes).0 <= MaxYear && !(ano == MinYear && mes == 1)
    ensures e.Some? && !(1 <= mes <= 12 && MinYear <= ano <= MaxYear) ==> e.value.ValueError?
    ensures e.Some? && 1 <= mes <= 12 && MinYear <= ano ==> (e.value.OverflowError? <==> ano == MinYear && mes == 1)
  {
    if !(1 <= mes <= 12) then Some(ValueError("month must be in 1..12"))
    else if !(MinYear <= ano <= MaxYear) then Some(ValueError("year " + IntToString(ano) + " is out of range"))
    else if mes == 12 && ano == MaxYear then Some(ValueError("year " + IntToString(ano + 1) + " is out of range"))
    else if ano == MinYear && mes == 1 then Some(OverflowError("date value out of range"))
    else None
  }

  /** A stored monthly summary as the document `to_dict` writes for it. */
  function MonthlyDoc(id: string, r: ResumoMensal): (x: Records.Instance)
    ensures x.kind == Records.ResumoMensalKind && x.WellFormed()
  {
    Records.FromDict(Records.ResumoMensalKind,
      map["user_id" := Records.VStr(r.userId), "ano" := Records.VInt(r.ano), "mes" := Records.VInt(r.mes),
          "total_receitas" := Records.VReal(r.totalReceitas), "total_despesas" := Records.VReal(r.totalDespesas),
          "saldo_inicial" := Records.VReal(r.saldoInicial), "saldo_final" := Records.VReal(r.saldoFinal),
          "receitas_por_categoria" := AmountsDoc(r.receitasPorCategoria),
          "despesas_por_categoria" := AmountsDoc(r.despesasPorCategoria),
          "meta_economia" := Records.VReal(r.metaEconomia), "economia_real" := Records.VReal(r.economiaReal)],
      id)
  }

  function AmountsDoc(m: map<string, real>): Records.Value
  {
    Records.VMap(map k | k in m :: Records.VReal(m[k]))
  }

  /** A lookup result read for the two attributes the opening balance uses, `valor` and `data`. */
  function ReadSnapshot(x: Records.Instance): (s: Saldo)
    ensures "data" in x.attrs && x.attrs["data"].VTime? ==> s.data == Some(x.attrs["data"].t)
  {
    Saldo("",
          if "valor" in x.attrs && x.attrs["valor"].VReal? then x.attrs["valor"].r else 0.0,
          if "data" in x.attrs && x.attrs["data"].VTime? then Some(x.attrs["data"].t) else None,
          "", "", 0.0, "")
  }

  /**
   * The opening-balance lookup as written: the monthly summaries of the
   * store, as documents, queried for a `data` at or before the day before
   * `inicio`; the result, always empty, opens the month at 0.0.
   */
  method OpeningLookupAsWritten(db: Db, userId: string, inicio: DateTime) returns (saldoInicial: real)
    requires ValidDate(inicio)
    ensures saldoInicial == 0.0
  {
    var rs := db.resumosMensais;
    var ids := SortedIds(rs.Keys);
    var docs := seq(|ids|, i requires 0 <= i < |ids| => MonthlyDoc(ids[i], rs[ids[i]]));
    var anteriores := QueryDataUpTo(docs, userId, PreviousDay(inicio));
    MonthlyRecordsHaveNoDate(docs, userId, PreviousDay(inicio));
    saldoInicial := OpeningAsWritten(seq(|anteriores|, i requires 0 <= i < |anteriores| => ReadSnapshot(anteriores[i])));
  }

  /**
   * `atualizar_resumo` as written: month bounds ending at midnight of the
   * last day, the opening balance taken from the lookup on the summary's own
   * collection, which finds nothing, and a write-back that is always an update.
   */
  method AtualizarResumoMensalAsWritten(db: Db, userId: string, ano: int, mes: int)
    returns (r: Result<ResumoMensal>)
    modifies db`resumosMensais
    ensures BoundsError(ano, mes).Some? ==>
      r == Err(BoundsError(ano, mes).value) && db.resumosMensais == old(db.resumosMensais)
    ensures BoundsError(ano, mes).None? ==>
      var id := UserMonthKey(userId, ano, mes);
      var novo := Recompute(Base(old(db.resumosMensais), userId, ano, mes),
                            DespesasNoPeriodo(db.despesas, userId, FirstOfMonth(ano, mes), MonthEndAsWritten(ano, mes)),
                            ReceitasNoPeriodo(db.receitas, userId, FirstOfMonth(ano, mes), MonthEndAsWritten(ano, mes)),
                            0.0);
      (id in old(db.resumosMensais) ==> r == Ok(novo) && db.resumosMensais == old(db.resumosMensais)[id := novo]) &&
      (id !in old(db.resumosMensais) ==> r.Err? && r.error.NotFound? && db.resumosMensais == old(db.resumosMensais))
    ensures r.Ok? ==> r.value.saldoInicial == 0.0
  {
    var bad := BoundsError(ano, mes);
    if bad.Some? {
      return Err(bad.value);
    }
    var id := UserMonthKey(userId, ano, mes);
    var base := Base(db.resumosMensais, userId, ano, mes);
    var inicio := FirstOfMonth(ano, mes);
    var fim := MonthEndAsWritten(ano, mes);
    var despesas := FetchDespesas(db, userId, inicio, fim);
    var receitas := FetchReceitas(db, userId, inicio, fim);
    var saldoInicial := OpeningLookupAsWritten(db, userId, inicio);
    var novo := RecomputeRecord(base, despesas, receitas, saldoInicial);
    var out := WriteBackAsWritten(db.resumosMensais, id, novo);
    if out.Err? {
      return Err(out.error);
    }
    db.resumosMensais := out.value;
    r := Ok(novo);
  }

  /**
   * `atualizar_resumo` corrected: the month runs to the last microsecond of its
   * last day, the opening balance is the user's latest balance snapshot
   * dated before the month, and the record is created or replaced. The
   * date arithmetic fails as in the source.
   */
  method AtualizarResumoMensal(db: Db, userId: string, ano: int, mes: int) returns (r: Result<ResumoMensal>)
    modifies db`resumosMensais
    ensures BoundsError(ano, mes).Some? ==>
      r == Err(BoundsError(ano, mes).value) && db.resumosMensais == old(db.resumosMensais)
    ensures BoundsError(ano, mes).None? ==>
      var id := UserMonthKey(userId, ano, mes);
      var novo := Recompute(Base(old(db.resumosMensais), userId, ano, mes),
                            DespesasNoPeriodo(db.despesas, userId, FirstOfMonth(ano, mes), MonthEnd(ano, mes)),
                            ReceitasNoPeriodo(db.receitas, userId, FirstOfMonth(ano, mes), MonthEnd(ano, mes)),
                            HeadValue(db.saldos, SnapshotsBefore(db.saldos, userId, FirstOfMonth(ano, mes))));
      r == Ok(novo) && db.resumosMensais == WriteBack(old(db.resumosMensais), id, novo)
  {
    var bad := BoundsError(ano, mes);
    if bad.Some? {
      return Err(bad.value);
    }
    var id := UserMonthKey(userId, ano, mes);
    var base := Base(db.resumosMensais, userId, ano, mes);
    var inicio := FirstOfMonth(ano, mes);
    var fim := MonthEnd(ano, mes);
    var despesas := FetchDespesas(db, userId, inicio, fim);
    var receitas := FetchReceitas(db, userId, inicio, fim);
    // Every snapshot before the month is dated, so its sort never raises.
    var head := HeadValor(db, SnapshotsBefore(db.saldos, userId, inicio));
    var saldoInicial := head.value;
    var novo := RecomputeRecord(base, despesas, receitas, saldoInicial);
    db.resumosMensais := WriteBack(db.resumosMensais, id, novo);
    r := Ok(novo);
  }

  /**
   * A snapshot from the previous month is the corrected opening balance,
   * where the lookup as written gives 0.0.
   */
  lemma OpeningBalanceExample()
    ensures var s := Saldo("u", 100.0, Some(DateTime(2024, 1, 15, 0)), "receita", "r1", 0.0, "");
      HeadValue(map["s1" := s], SnapshotsBefore(map["s1" := s], "u", FirstOfMonth(2024, 2))) == 100.0 &&
      OpeningAsWritten([]) == 0.0
  {
    var s := Saldo("u", 100.0, Some(DateTime(2024, 1, 15, 0)), "receita", "r1", 0.0, "");
    var saldos := map["s1" := s];
    var ids := SnapshotsBefore(saldos, "u", FirstOfMonth(2024, 2));
    assert ids == {"s1"};
    assert IsLatest(saldos, ids, "s1");
    forall id | IsLatest(saldos, ids, id)
      ensures id == "s1"
    {
    }
  }
}
