/**
 * Budgets (`budgets`): lookup of a user's budget for a category and month,
 * the spend update after a new expense, and the rule that raises an alert
 * once spending reaches 80% of the limit.
 */
module Budgets {
  import opened Common
  import opened Entities
  import opened Store

  /** Ids of the budgets of (user, category, year, month): the four-clause query. */
  function BudgetIds(budgets: map<string, Budget>, userId: string, categoriaId: string, ano: int, mes: int)
    : (ids: set<string>)
    ensures ids <= budgets.Keys
    ensures forall id :: id in ids <==>
      id in budgets && budgets[id].userId == userId && budgets[id].categoriaId == categoriaId &&
      budgets[id].ano == ano && budgets[id].mes == mes
  {
    set id | id in budgets && budgets[id].userId == userId && budgets[id].categoriaId == categoriaId &&
             budgets[id].ano == ano && budgets[id].mes == mes
  }

  /** `BudgetService.get_by_categoria_periodo`: the first matching budget in document-id order. */
  method GetByCategoriaPeriodo(db: Db, userId: string, categoriaId: string, ano: int, mes: int)
    returns (r: Option<string>)
    ensures r.None? <==> BudgetIds(db.budgets, userId, categoriaId, ano, mes) == {}
    ensures r.Some? ==> IsLeast(r.value, BudgetIds(db.budgets, userId, categoriaId, ano, mes))
  {
    r := LeastOf(BudgetIds(db.budgets, userId, categoriaId, ano, mes));
  }

  /**
   * `BudgetService.atualizar_gasto_atual`: None when there is no budget for
   * the period; otherwise the first one has `valor` added to its spend.
   */
  method AtualizarGastoAtual(db: Db, userId: string, categoriaId: string, valor: real, ano: int, mes: int)
    returns (r: Option<Budget>)
    modifies db`budgets
    ensures var ids := BudgetIds(old(db.budgets), userId, categoriaId, ano, mes);
      (ids == {} ==> r.None? && db.budgets == old(db.budgets)) &&
      (ids != {} ==>
         exists id :: IsLeast(id, ids) &&
           r == Some(old(db.budgets)[id].(gastoAtual := old(db.budgets)[id].gastoAtual + valor)) &&
           db.budgets == old(db.budgets)[id := r.value])
  {
    var found := GetByCategoriaPeriodo(db, userId, categoriaId, ano, mes);
    if found.None? {
      return None;
    }
    var b := db.budgets[found.value];
    var atualizado := b.(gastoAtual := b.gastoAtual + valor);
    db.budgets := db.budgets[found.value := atualizado];
    r := Some(atualizado);
  }

  /** The share of the limit already spent, in percent. */
  function Percentual(b: Budget): real
    requires b.limite > 0.0
  {
    (b.gastoAtual / b.limite) * 100.0
  }

  /** The alert rule: a positive limit and spend at 80% of it or more. */
  predicate ShouldAlert(b: Budget)
  {
    b.limite > 0.0 && b.gastoAtual >= 0.8 * b.limite
  }

  /** The rule is the same as "the percentage shown in the alert is at least 80". */
  lemma ShouldAlertIffPercentAtLeast80(b: Budget)
    ensures ShouldAlert(b) <==> b.limite > 0.0 && Percentual(b) >= 80.0
  {
    if b.limite > 0.0 {
      assert Percentual(b) == b.gastoAtual * (100.0 / b.limite);
      assert Percentual(b) >= 80.0 <==> b.gastoAtual * 100.0 >= 80.0 * b.limite by {
        assert Percentual(b) * b.limite == b.gastoAtual * 100.0;
      }
    }
  }

  /** Spending more never switches an alert off. */
  lemma AlertStaysOn(b: Budget, valor: real)
    requires ShouldAlert(b) && valor >= 0.0
    ensures ShouldAlert(b.(gastoAtual := b.gastoAtual + valor))
  {
  }

  /**
   * The budget step of `IntegrationService.registrar_nova_despesa`: when the
   * expense's category has a budget for the month, its spend is updated and
   * the alert percentage is returned if the rule fires.
   */
  method AtualizarOrcamentoComAlerta(db: Db, userId: string, categoriaId: string, valor: real, ano: int, mes: int)
    returns (orcamento: Option<Budget>, alerta: Option<real>)
    modifies db`budgets
    ensures var ids := BudgetIds(old(db.budgets), userId, categoriaId, ano, mes);
      (ids == {} ==> orcamento.None? && db.budgets == old(db.budgets)) &&
      (ids != {} ==>
         exists id :: IsLeast(id, ids) &&
           orcamento == Some(old(db.budgets)[id].(gastoAtual := old(db.budgets)[id].gastoAtual + valor)) &&
           db.budgets == old(db.budgets)[id := orcamento.value])
    ensures alerta.Some? <==> orcamento.Some? && ShouldAlert(orcamento.value)
    ensures alerta.Some? ==> alerta.value == Percentual(orcamento.value) && alerta.value >= 80.0
  {
    orcamento := AtualizarGastoAtual(db, userId, categoriaId, valor, ano, mes);
    alerta := None;
    if orcamento.Some? && ShouldAlert(orcamento.value) {
      ShouldAlertIffPercentAtLeast80(orcamento.value);
      alerta := Some(Percentual(orcamento.value));
    }
  }
}
