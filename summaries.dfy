/**
 * The per-(user, category, year, month) spend summaries
 * (`resumos_categorias`): the upsert that adds an amount and the reversal
 * that takes it back out, floored at zero.
 */
module Summaries {
  import opened Calendar
  import opened Entities
  import opened Store

  /** The summary total stored under `k`, reading an absent summary as 0. */
  function Total(rs: map<string, ResumoPorCategoria>, k: string): real
  {
    if k in rs then rs[k].valorTotal else 0.0
  }

  /** Python's `max(0, x)`. */
  function Max0(x: real): (r: real)
    ensures r >= 0.0 && r >= x
    ensures r == x || r == 0.0
  {
    if x < 0.0 then 0.0 else x
  }

  /**
   * The summary upsert: the summary of (user, category, month of `data`)
   * is created holding `valor`, or has `valor` added to its total.
   */
  function AddToSummary(rs: map<string, ResumoPorCategoria>, userId: string, categoriaId: string,
                        categoriaNome: string, data: DateTime, valor: real)
    : (r: map<string, ResumoPorCategoria>)
    ensures var k := CategoryMonthKey(userId, categoriaId, data.year, data.month);
      k in r && Total(r, k) == Total(rs, k) + valor &&
      (k !in rs ==> r[k] == ResumoPorCategoria(userId, categoriaId, categoriaNome, valor, data.month, data.year)) &&
      (k in rs ==> r[k] == rs[k].(valorTotal := rs[k].valorTotal + valor))
    ensures forall k :: k != CategoryMonthKey(userId, categoriaId, data.year, data.month) ==>
      (k in r <==> k in rs) && (k in rs ==> r[k] == rs[k])
  {
    var k := CategoryMonthKey(userId, categoriaId, data.year, data.month);
    if k in rs then rs[k := rs[k].(valorTotal := rs[k].valorTotal + valor)]
    else rs[k := ResumoPorCategoria(userId, categoriaId, categoriaNome, valor, data.month, data.year)]
  }

  /**
   * The reversal: an existing summary under `k` becomes max(0, total - valor);
   * an absent one stays absent.
   */
  function SubtractFromSummary(rs: map<string, ResumoPorCategoria>, k: string, valor: real)
    : (r: map<string, ResumoPorCategoria>)
    ensures r.Keys == rs.Keys
    ensures k in rs ==> r[k] == rs[k].(valorTotal := Max0(rs[k].valorTotal - valor))
    ensures forall k' :: k' != k && k' in rs ==> r[k'] == rs[k']
  {
    if k in rs then rs[k := rs[k].(valorTotal := Max0(rs[k].valorTotal - valor))] else rs
  }

  /** The summary id of an expense dated `data`. */
  function KeyAt(userId: string, categoriaId: string, data: DateTime): string
  {
    CategoryMonthKey(userId, categoriaId, data.year, data.month)
  }

  /** Reversing an amount that was added restores every non-negative total. */
  lemma AddThenSubtractRestores(rs: map<string, ResumoPorCategoria>, userId: string, categoriaId: string,
                                categoriaNome: string, data: DateTime, valor: real, k: string)
    requires Total(rs, KeyAt(userId, categoriaId, data)) >= 0.0
    ensures var after := SubtractFromSummary(
              AddToSummary(rs, userId, categoriaId, categoriaNome, data, valor),
              KeyAt(userId, categoriaId, data), valor);
            Total(after, k) == Total(rs, k)
  {
  }

  /** Every total in a map of summaries is non-negative. */
  predicate NonNegative(rs: map<string, ResumoPorCategoria>)
  {
    forall k :: k in rs ==> rs[k].valorTotal >= 0.0
  }

  /** Reversals keep totals non-negative, and so do additions of non-negative amounts. */
  lemma NonNegativePreserved(rs: map<string, ResumoPorCategoria>, userId: string, categoriaId: string,
                             categoriaNome: string, data: DateTime, valor: real, k: string)
    requires NonNegative(rs)
    ensures NonNegative(SubtractFromSummary(rs, k, valor))
    ensures valor >= 0.0 ==> NonNegative(AddToSummary(rs, userId, categoriaId, categoriaNome, data, valor))
  {
  }

  /**
   * `ResumoPorCategoriaService.atualizar_resumo`: the upsert, run as one
   * atomic step; returns the summary as stored.
   */
  method AtualizarResumo(db: Db, userId: string, categoriaId: string, categoriaNome: string,
                         valor: real, data: DateTime)
    returns (resumo: ResumoPorCategoria)
    modifies db`resumos
    ensures db.resumos == AddToSummary(old(db.resumos), userId, categoriaId, categoriaNome, data, valor)
    ensures resumo == db.resumos[KeyAt(userId, categoriaId, data)]
    ensures resumo.valorTotal == Total(old(db.resumos), KeyAt(userId, categoriaId, data)) + valor
  {
    var k := CategoryMonthKey(userId, categoriaId, data.year, data.month);
    if k in db.resumos {
      var atual := db.resumos[k];
      resumo := atual.(valorTotal := atual.valorTotal + valor);
    } else {
      resumo := ResumoPorCategoria(userId, categoriaId, categoriaNome, valor, data.month, data.year);
    }
    db.resumos := db.resumos[k := resumo];
  }
}
