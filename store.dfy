/**
 * The document store behind the backend services: one map from document
 * id to record per collection. Expenses live in per-user sub-collections
 * (`usuarios/{uid}/despesas/{id}`); every other collection is global.
 */
module Store {
  import opened Entities

  /**
   * Why an operation was refused: a `ValueError` raised by the service or by
   * `datetime`, an `OverflowError` from date arithmetic leaving the years
   * `datetime` can hold, a `TypeError` from comparing a naive `datetime`
   * with a timezone-aware one, or the store's NotFound.
   */
  datatype Error = ValueError(message: string) | OverflowError(message: string) | TypeError(message: string)
                 | NotFound(path: string)

  datatype Result<T> = Ok(value: T) | Err(error: Error)

  class Db {
    var categorias: map<string, Categoria>
    var resumos: map<string, ResumoPorCategoria>
    var despesas: map<string, map<string, Despesa>>
    var receitas: map<string, Receita>
    var saldos: map<string, Saldo>
    var budgets: map<string, Budget>
    var resumosMensais: map<string, ResumoMensal>

    constructor()
      ensures categorias == map[] && resumos == map[] && despesas == map[]
      ensures receitas == map[] && saldos == map[] && budgets == map[] && resumosMensais == map[]
    {
      categorias := map[];
      resumos := map[];
      despesas := map[];
      receitas := map[];
      saldos := map[];
      budgets := map[];
      resumosMensais := map[];
    }

    /** The expense sub-collection of one user (empty when the user has none). */
    function DespesasOf(userId: string): (m: map<string, Despesa>)
      reads this
      ensures userId !in despesas ==> m == map[]
    {
      if userId in despesas then despesas[userId] else map[]
    }
  }

  /** The expense sub-collections after one user's collection became `m`. */
  function WithUserDespesas(all: map<string, map<string, Despesa>>, userId: string,
                            m: map<string, Despesa>): (r: map<string, map<string, Despesa>>)
    ensures userId in r && r[userId] == m
    ensures forall u :: u != userId ==> (u in r <==> u in all) && (u in all ==> r[u] == all[u])
  {
    all[userId := m]
  }
}
