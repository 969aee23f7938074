/**
 * The Redux reducers of the mobile app (`transacoes`, `resumo`, `relatorios`
 * and `categorias` slices of the store). Each is a pure function from the
 * previous slice (absent on the store's first call) and an action to the next
 * slice; every action reaches every reducer, so each one must leave its slice
 * alone on the actions it does not handle.
 */
module Reducers {
  import opened Common

  /** A JSON value as the API returns it; transactions are kept in this form. */
  datatype Json =
    | JNull
    | JBool(b: bool)
    | JNum(n: real)
    | JStr(s: string)
    | JArr(elems: seq<Json>)
    | JObj(fields: map<string, Json>)

  /** The `periodo` object of a report; `null` fields are None. */
  datatype Periodo = Periodo(tipo: Option<string>, dataInicio: Option<string>, dataFim: Option<string>)

  /** The payload of FETCH_RESUMO_SUCCESS: a key is Some when the payload object carries it. */
  datatype ResumoPayload = ResumoPayload(
    saldo: Option<real>, totalDespesas: Option<real>, totalGanhos: Option<real>,
    transacoesRecentes: Option<seq<Json>>, loading: Option<bool>, error: Option<Option<string>>)

  /** The payload of FETCH_RELATORIO_SUCCESS, key by key. */
  datatype RelatorioPayload = RelatorioPayload(
    periodo: Option<Periodo>, transacoes: Option<seq<Json>>, totalDespesas: Option<real>,
    totalGanhos: Option<real>, saldoPeriodo: Option<real>, categorias: Option<map<string, Json>>,
    loading: Option<bool>, error: Option<Option<string>>)

  /** The payload of SET_CATEGORIAS, key by key. */
  datatype CategoriasPayload = CategoriasPayload(
    despesas: Option<seq<string>>, ganhos: Option<seq<string>>, salarios: Option<seq<string>>)

  /**
   * The actions the four reducers react to; `Other` is any other action type
   * (the auth actions, ADD_TRANSACAO_REQUEST, Redux's own init action, ...).
   * A failure's message is None when the payload is `undefined` or `null`.
   */
  datatype Action =
    | FetchTransacoesRequest
    | FetchTransacoesSuccess(transacoes: seq<Json>)
    | FetchTransacoesFailure(message: Option<string>)
    | AddTransacaoSuccess(transacao: Json)
    | FetchResumoRequest
    | FetchResumoSuccess(resumo: ResumoPayload)
    | FetchResumoFailure(message: Option<string>)
    | FetchRelatorioRequest
    | FetchRelatorioSuccess(relatorio: RelatorioPayload)
    | FetchRelatorioFailure(message: Option<string>)
    | SetCategorias(listas: CategoriasPayload)
    | AddCategoria(tipo: string, categoria: string)
    | Other(name: string)

  /** The default parameter `state = initialState`. */
  function Or<T>(state: Option<T>, initial: T): T
  {
    if state.Some? then state.value else initial
  }

  /** `{...state, key: value}` for one key the payload may or may not carry. */
  function Pick<T>(key: Option<T>, current: T): T
  {
    if key.Some? then key.value else current
  }

  // ---------------------------------------------------------------- transacoes

  datatype TransacoesState = TransacoesState(items: seq<Json>, loading: bool, error: Option<string>)

  const TransacoesInicial: TransacoesState := TransacoesState([], false, None)

  predicate HandledByTransacoes(a: Action)
  {
    a.FetchTransacoesRequest? || a.FetchTransacoesSuccess? || a.FetchTransacoesFailure? ||
    a.AddTransacaoSuccess?
  }

  function TransacoesReducer(state: Option<TransacoesState>, action: Action): (r: TransacoesState)
    ensures var s := Or(state, TransacoesInicial);
      action.FetchTransacoesRequest? ==> r.loading && r.error.None? && r.items == s.items
    ensures action.FetchTransacoesSuccess? ==>
      r.items == action.transacoes && !r.loading && r.error.None?
    ensures var s := Or(state, TransacoesInicial);
      action.FetchTransacoesFailure? ==> !r.loading && r.error == action.message && r.items == s.items
    ensures var s := Or(state, TransacoesInicial);
      action.AddTransacaoSuccess? ==>
        |r.items| == |s.items| + 1 && r.items[0] == action.transacao && r.items[1..] == s.items &&
        r.loading == s.loading && r.error == s.error
    ensures !HandledByTransacoes(action) ==> r == Or(state, TransacoesInicial)
  {
    var s := Or(state, TransacoesInicial);
    match action
    case FetchTransacoesRequest => s.(loading := true, error := None)
    case FetchTransacoesSuccess(xs) => s.(items := xs, loading := false, error := None)
    case FetchTransacoesFailure(m) => s.(loading := false, error := m)
    case AddTransacaoSuccess(t) => s.(items := [t] + s.items)
    case _ => s
  }

  /** The store's first call, with no action of this slice, yields the empty list, idle and without error. */
  lemma TransacoesStart(name: string)
    ensures TransacoesReducer(None, Other(name)) == TransacoesState([], false, None)
  {
  }

  /** Added transactions come out newest first: two adds put the second in front of the first. */
  lemma {:induction false} TransacoesNewestFirst(s: TransacoesState, t1: Json, t2: Json)
    ensures TransacoesReducer(Some(TransacoesReducer(Some(s), AddTransacaoSuccess(t1))), AddTransacaoSuccess(t2)).items
      == [t2, t1] + s.items
  {
    var s1 := TransacoesReducer(Some(s), AddTransacaoSuccess(t1));
    var s2 := TransacoesReducer(Some(s1), AddTransacaoSuccess(t2));
    assert s1.items == [t1] + s.items;
    assert s2.items == [t2] + s1.items;
  }

  /** A failed fetch after a request keeps the list already shown and clears the spinner. */
  lemma TransacoesFailedFetchKeepsItems(s: TransacoesState, m: Option<string>)
    ensures var r := TransacoesReducer(Some(TransacoesReducer(Some(s), FetchTransacoesRequest)), FetchTransacoesFailure(m));
      r.items == s.items && !r.loading && r.error == m
  {
  }

  // ---------------------------------------------------------------- resumo

  datatype ResumoState = ResumoState(
    saldo: real, totalDespesas: real, totalGanhos: real, transacoesRecentes: seq<Json>,
    loading: bool, error: Option<string>)

  const ResumoInicial: ResumoState := ResumoState(0.0, 0.0, 0.0, [], false, None)

  predicate HandledByResumo(a: Action)
  {
    a.FetchResumoRequest? || a.FetchResumoSuccess? || a.FetchResumoFailure?
  }

  /** The data fields of `r` equal those of `s`. */
  predicate SameResumoData(r: ResumoState, s: ResumoState)
  {
    r.saldo == s.saldo && r.totalDespesas == s.totalDespesas && r.totalGanhos == s.totalGanhos &&
    r.transacoesRecentes == s.transacoesRecentes
  }

  /** Each data field of `r` is the payload's when the payload carries that key, else the one of `s`. */
  predicate ResumoDataMerged(r: ResumoState, s: ResumoState, p: ResumoPayload)
  {
    (p.saldo.Some? ==> r.saldo == p.saldo.value) && (p.saldo.None? ==> r.saldo == s.saldo) &&
    (p.totalDespesas.Some? ==> r.totalDespesas == p.totalDespesas.value) &&
    (p.totalDespesas.None? ==> r.totalDespesas == s.totalDespesas) &&
    (p.totalGanhos.Some? ==> r.totalGanhos == p.totalGanhos.value) &&
    (p.totalGanhos.None? ==> r.totalGanhos == s.totalGanhos) &&
    (p.transacoesRecentes.Some? ==> r.transacoesRecentes == p.transacoesRecentes.value) &&
    (p.transacoesRecentes.None? ==> r.transacoesRecentes == s.transacoesRecentes)
  }

  function ResumoReducer(state: Option<ResumoState>, action: Action): (r: ResumoState)
    ensures var s := Or(state, ResumoInicial);
      action.FetchResumoRequest? ==> r.loading && r.error.None? && SameResumoData(r, s)
    ensures var s := Or(state, ResumoInicial);
      action.FetchResumoSuccess? ==> !r.loading && r.error.None? && ResumoDataMerged(r, s, action.resumo)
    ensures var s := Or(state, ResumoInicial);
      action.FetchResumoFailure? ==> !r.loading && r.error == action.message && SameResumoData(r, s)
    ensures !HandledByResumo(action) ==> r == Or(state, ResumoInicial)
  {
    var s := Or(state, ResumoInicial);
    match action
    case FetchResumoRequest => s.(loading := true, error := None)
    case FetchResumoSuccess(p) =>
      var merged := ResumoState(
        Pick(p.saldo, s.saldo), Pick(p.totalDespesas, s.totalDespesas), Pick(p.totalGanhos, s.totalGanhos),
        Pick(p.transacoesRecentes, s.transacoesRecentes), Pick(p.loading, s.loading), Pick(p.error, s.error));
      merged.(loading := false, error := None)
    case FetchResumoFailure(m) => s.(loading := false, error := m)
    case _ => s
  }

  /** The store's first call yields a zero balance and totals, no recent transactions, idle, no error. */
  lemma ResumoStart(name: string)
    ensures ResumoReducer(None, Other(name)) == ResumoState(0.0, 0.0, 0.0, [], false, None)
  {
  }

  /** `loading` and `error` keys in a success payload have no effect: the reducer overrides both. */
  lemma ResumoSuccessIgnoresStatusKeys(s: ResumoState, p: ResumoPayload)
    ensures ResumoReducer(Some(s), FetchResumoSuccess(p))
      == ResumoReducer(Some(s), FetchResumoSuccess(p.(loading := None, error := None)))
  {
  }

  /** A payload carrying the four data keys (as the fetch action always builds it) makes the result independent of the previous state. */
  lemma ResumoFullPayloadReplaces(s1: ResumoState, s2: ResumoState, p: ResumoPayload)
    requires p.saldo.Some? && p.totalDespesas.Some? && p.totalGanhos.Some? && p.transacoesRecentes.Some?
    ensures ResumoReducer(Some(s1), FetchResumoSuccess(p)) == ResumoReducer(Some(s2), FetchResumoSuccess(p))
  {
  }

  /** Request then failure keeps the summary on screen and records the error. */
  lemma ResumoFailedFetchKeepsData(s: ResumoState, m: Option<string>)
    ensures var r := ResumoReducer(Some(ResumoReducer(Some(s), FetchResumoRequest)), FetchResumoFailure(m));
      SameResumoData(r, s) && !r.loading && r.error == m
  {
  }

  // ---------------------------------------------------------------- relatorios

  datatype RelatorioState = RelatorioState(
    periodo: Periodo, transacoes: seq<Json>, totalDespesas: real, totalGanhos: real,
    saldoPeriodo: real, categorias: map<string, Json>, loading: bool, error: Option<string>)

  const RelatorioInicial: RelatorioState :=
    RelatorioState(Periodo(None, None, None), [], 0.0, 0.0, 0.0, map[], false, None)

  predicate HandledByRelatorios(a: Action)
  {
    a.FetchRelatorioRequest? || a.FetchRelatorioSuccess? || a.FetchRelatorioFailure?
  }

  /** The data fields of `r` equal those of `s`. */
  predicate SameRelatorioData(r: RelatorioState, s: RelatorioState)
  {
    r.periodo == s.periodo && r.transacoes == s.transacoes && r.totalDespesas == s.totalDespesas &&
    r.totalGanhos == s.totalGanhos && r.saldoPeriodo == s.saldoPeriodo && r.categorias == s.categorias
  }

  /** Each data field of `r` is the payload's when the payload carries that key, else the one of `s`. */
  predicate RelatorioDataMerged(r: RelatorioState, s: RelatorioState, p: RelatorioPayload)
  {
    (p.periodo.Some? ==> r.periodo == p.periodo.value) && (p.periodo.None? ==> r.periodo == s.periodo) &&
    (p.transacoes.Some? ==> r.transacoes == p.transacoes.value) &&
    (p.transacoes.None? ==> r.transacoes == s.transacoes) &&
    (p.totalDespesas.Some? ==> r.totalDespesas == p.totalDespesas.value) &&
    (p.totalDespesas.None? ==> r.totalDespesas == s.totalDespesas) &&
    (p.totalGanhos.Some? ==> r.totalGanhos == p.totalGanhos.value) &&
    (p.totalGanhos.None? ==> r.totalGanhos == s.totalGanhos) &&
    (p.saldoPeriodo.Some? ==> r.saldoPeriodo == p.saldoPeriodo.value) &&
    (p.saldoPeriodo.None? ==> r.saldoPeriodo == s.saldoPeriodo) &&
    (p.categorias.Some? ==> r.categorias == p.categorias.value) &&
    (p.categorias.None? ==> r.categorias == s.categorias)
  }

  function RelatoriosReducer(state: Option<RelatorioState>, action: Action): (r: RelatorioState)
    ensures var s := Or(state, RelatorioInicial);
      action.FetchRelatorioRequest? ==> r.loading && r.error.None? && SameRelatorioData(r, s)
    ensures var s := Or(state, RelatorioInicial);
      action.FetchRelatorioSuccess? ==> !r.loading && r.error.None? && RelatorioDataMerged(r, s, action.relatorio)
    ensures var s := Or(state, RelatorioInicial);
      action.FetchRelatorioFailure? ==> !r.loading && r.error == action.message && SameRelatorioData(r, s)
    ensures !HandledByRelatorios(action) ==> r == Or(state, RelatorioInicial)
  {
    var s := Or(state, RelatorioInicial);
    match action
    case FetchRelatorioRequest => s.(loading := true, error := None)
    case FetchRelatorioSuccess(p) =>
      var merged := RelatorioState(
        Pick(p.periodo, s.periodo), Pick(p.transacoes, s.transacoes), Pick(p.totalDespesas, s.totalDespesas),
        Pick(p.totalGanhos, s.totalGanhos), Pick(p.saldoPeriodo, s.saldoPeriodo),
        Pick(p.categorias, s.categorias), Pick(p.loading, s.loading), Pick(p.error, s.error));
      merged.(loading := false, error := None)
    case FetchRelatorioFailure(m) => s.(loading := false, error := m)
    case _ => s
  }

  /** The store's first call yields an empty report over an unset period, idle, no error. */
  lemma RelatoriosStart(name: string)
    ensures RelatoriosReducer(None, Other(name))
      == RelatorioState(Periodo(None, None, None), [], 0.0, 0.0, 0.0, map[], false, None)
  {
  }

  /** `loading` and `error` keys in a success payload have no effect. */
  lemma RelatoriosSuccessIgnoresStatusKeys(s: RelatorioState, p: RelatorioPayload)
    ensures RelatoriosReducer(Some(s), FetchRelatorioSuccess(p))
      == RelatoriosReducer(Some(s), FetchRelatorioSuccess(p.(loading := None, error := None)))
  {
  }

  /** Request then failure keeps the report on screen and records the error. */
  lemma RelatoriosFailedFetchKeepsData(s: RelatorioState, m: Option<string>)
    ensures var r := RelatoriosReducer(Some(RelatoriosReducer(Some(s), FetchRelatorioRequest)), FetchRelatorioFailure(m));
      SameRelatorioData(r, s) && !r.loading && r.error == m
  {
  }

  // ---------------------------------------------------------------- categorias

  datatype CategoriasState = CategoriasState(despesas: seq<string>, ganhos: seq<string>, salarios: seq<string>)

  const CategoriasInicial: CategoriasState := CategoriasState([], [], [])

  /** The three `tipo` values a category list exists for. */
  predicate KnownTipo(tipo: string)
  {
    tipo == "despesa" || tipo == "ganho" || tipo == "salario"
  }

  /** The list of the state that belongs to `tipo`. */
  function Lista(s: CategoriasState, tipo: string): seq<string>
    requires KnownTipo(tipo)
  {
    if tipo == "despesa" then s.despesas else if tipo == "ganho" then s.ganhos else s.salarios
  }

  /** The list a SET_CATEGORIAS payload carries for `tipo`, if it carries that key. */
  function ListaDe(p: CategoriasPayload, tipo: string): Option<seq<string>>
    requires KnownTipo(tipo)
  {
    if tipo == "despesa" then p.despesas else if tipo == "ganho" then p.ganhos else p.salarios
  }

  function CategoriasReducer(state: Option<CategoriasState>, action: Action): (r: CategoriasState)
    ensures action.SetCategorias? ==> forall t | KnownTipo(t) ::
      Lista(r, t) == Pick(ListaDe(action.listas, t), Lista(Or(state, CategoriasInicial), t))
    ensures action.AddCategoria? && KnownTipo(action.tipo) ==>
      Lista(r, action.tipo) == Lista(Or(state, CategoriasInicial), action.tipo) + [action.categoria] &&
      forall t | KnownTipo(t) && t != action.tipo :: Lista(r, t) == Lista(Or(state, CategoriasInicial), t)
    ensures action.AddCategoria? && !KnownTipo(action.tipo) ==> r == Or(state, CategoriasInicial)
    ensures !action.SetCategorias? && !action.AddCategoria? ==> r == Or(state, CategoriasInicial)
  {
    var s := Or(state, CategoriasInicial);
    match action
    case SetCategorias(p) =>
      CategoriasState(Pick(p.despesas, s.despesas), Pick(p.ganhos, s.ganhos), Pick(p.salarios, s.salarios))
    case AddCategoria(tipo, categoria) =>
      if tipo == "despesa" then s.(despesas := s.despesas + [categoria])
      else if tipo == "ganho" then s.(ganhos := s.ganhos + [categoria])
      else if tipo == "salario" then s.(salarios := s.salarios + [categoria])
      else s
    case _ => s
  }

  /** The store's first call yields three empty lists. */
  lemma CategoriasStart(name: string)
    ensures CategoriasReducer(None, Other(name)) == CategoriasState([], [], [])
  {
  }

  /**
   * The reducer does not deduplicate: adding a category already in the list
   * leaves that list with a repeated entry. The guard in front of the action
   * is what keeps lists duplicate-free.
   */
  lemma AddCategoriaRepeats(s: CategoriasState, tipo: string, categoria: string)
    requires KnownTipo(tipo) && categoria in Lista(s, tipo)
    ensures !Distinct(Lista(CategoriasReducer(Some(s), AddCategoria(tipo, categoria)), tipo))
  {
    var xs := Lista(s, tipo);
    var ys := Lista(CategoriasReducer(Some(s), AddCategoria(tipo, categoria)), tipo);
    var i :| 0 <= i < |xs| && xs[i] == categoria;
    assert ys[i] == ys[|xs|] == categoria;
  }
}
