/**
 * The category actions of the mobile app: `carregarCategorias` loads the
 * three category lists from device storage (or their defaults) into the
 * store, and `adicionarCategoria` refuses an unknown tipo or a category
 * already listed, and otherwise stores the extended list and dispatches
 * ADD_CATEGORIA.
 */
module CategoriaActions {
  import opened Common
  import opened Reducers

  /** The storage key under which each tipo's list is kept. */
  function Chave(tipo: string): (k: string)
    requires KnownTipo(tipo)
    ensures IsPrefix("@VicCoin:categorias", k)
  {
    if tipo == "despesa" then "@VicCoin:categoriasDespesas"
    else if tipo == "ganho" then "@VicCoin:categoriasGanhos"
    else "@VicCoin:categoriasSalario"
  }

  /** The three lists never share a storage key. */
  lemma ChaveInjective(t1: string, t2: string)
    requires KnownTipo(t1) && KnownTipo(t2) && t1 != t2
    ensures Chave(t1) != Chave(t2)
  {
    assert Chave(t1)[19] != Chave(t2)[19];
  }

  const DespesasPadrao: seq<string> :=
    ["Alimentação", "Transporte", "Moradia", "Saúde", "Educação", "Lazer", "Supermercado", "Vestuário", "Outras"]
  const GanhosPadrao: seq<string> := ["Freelance", "Investimentos", "Vendas", "Presentes", "Outras"]
  const SalariosPadrao: seq<string> := ["Mensal", "Quinzenal", "Semanal", "Bônus", "Participação", "Outras"]

  /** The list used for `tipo` when storage holds none. */
  function Padrao(tipo: string): seq<string>
    requires KnownTipo(tipo)
  {
    if tipo == "despesa" then DespesasPadrao else if tipo == "ganho" then GanhosPadrao else SalariosPadrao
  }

  /** No default list repeats a category. */
  lemma PadraoDistinct(tipo: string)
    requires KnownTipo(tipo)
    ensures Distinct(Padrao(tipo))
  {
    var xs := Padrao(tipo);
    forall i, j | 0 <= i < j < |xs|
      ensures xs[i] != xs[j]
    {
    }
  }

  /**
   * The SET_CATEGORIAS payload of `carregarCategorias`: every key is present,
   * with the stored list where there is one and the default otherwise.
   */
  function Carregadas(storage: map<string, seq<string>>): (p: CategoriasPayload)
    ensures forall t | KnownTipo(t) ::
      ListaDe(p, t) == Some(if Chave(t) in storage then storage[Chave(t)] else Padrao(t))
  {
    var pick := (t: string) requires KnownTipo(t) =>
      if Chave(t) in storage then storage[Chave(t)] else Padrao(t);
    CategoriasPayload(Some(pick("despesa")), Some(pick("ganho")), Some(pick("salario")))
  }

  const JaExiste: string := "Esta categoria já existe"
  const TipoInvalido: string := "Tipo de categoria inválido"

  /** What `adicionarCategoria` decides before touching storage. */
  datatype Guard = Refuse(message: string) | Write(chave: string, lista: seq<string>)

  /** The tipo and duplicate guards of `adicionarCategoria`. */
  function Verificar(s: CategoriasState, tipo: string, categoria: string): (g: Guard)
    ensures g == Refuse(TipoInvalido) <==> !KnownTipo(tipo)
    ensures g == Refuse(JaExiste) <==> KnownTipo(tipo) && categoria in Lista(s, tipo)
    ensures g.Refuse? || g.Write?
    ensures g.Write? ==> KnownTipo(tipo) && g.chave == Chave(tipo) && g.lista == Lista(s, tipo) + [categoria]
  {
    if !KnownTipo(tipo) then Refuse(TipoInvalido)
    else if categoria in Lista(s, tipo) then Refuse(JaExiste)
    else Write(Chave(tipo), Lista(s, tipo) + [categoria])
  }

  /** The list written to storage is the list the reducer produces for the dispatched action. */
  lemma StoredEqualsReduced(s: CategoriasState, tipo: string, categoria: string)
    requires Verificar(s, tipo, categoria).Write?
    ensures Verificar(s, tipo, categoria).lista
      == Lista(CategoriasReducer(Some(s), AddCategoria(tipo, categoria)), tipo)
  {
  }

  /** Every list of the state is duplicate-free. */
  predicate AllDistinct(s: CategoriasState)
  {
    Distinct(s.despesas) && Distinct(s.ganhos) && Distinct(s.salarios)
  }

  lemma AppendFresh(xs: seq<string>, x: string)
    requires Distinct(xs) && x !in xs
    ensures Distinct(xs + [x])
  {
    var ys := xs + [x];
    forall i, j | 0 <= i < j < |ys|
      ensures ys[i] != ys[j]
    {
      assert ys[i] == xs[i];
      if j < |xs| {
        assert ys[j] == xs[j];
      }
    }
  }

  /** The guard together with the reducer keeps duplicate-free lists duplicate-free. */
  lemma GuardKeepsDistinct(s: CategoriasState, tipo: string, categoria: string)
    requires AllDistinct(s) && Verificar(s, tipo, categoria).Write?
    ensures AllDistinct(CategoriasReducer(Some(s), AddCategoria(tipo, categoria)))
  {
    var r := CategoriasReducer(Some(s), AddCategoria(tipo, categoria));
    AppendFresh(Lista(s, tipo), categoria);
    assert Lista(r, tipo) == Lista(s, tipo) + [categoria];
    assert r.despesas == Lista(r, "despesa") && r.ganhos == Lista(r, "ganho") && r.salarios == Lista(r, "salario");
    assert s.despesas == Lista(s, "despesa") && s.ganhos == Lista(s, "ganho") && s.salarios == Lista(s, "salario");
  }

  /** Loading from empty storage gives the defaults, which are duplicate-free. */
  lemma CarregarEmptyStorage(s: CategoriasState)
    ensures var r := CategoriasReducer(Some(s), SetCategorias(Carregadas(map[])));
      r == CategoriasState(DespesasPadrao, GanhosPadrao, SalariosPadrao) && AllDistinct(r)
  {
    var r := CategoriasReducer(Some(s), SetCategorias(Carregadas(map[])));
    assert r.despesas == Lista(r, "despesa") == Padrao("despesa");
    assert r.ganhos == Lista(r, "ganho") == Padrao("ganho");
    assert r.salarios == Lista(r, "salario") == Padrao("salario");
    PadraoDistinct("despesa");
    PadraoDistinct("ganho");
    PadraoDistinct("salario");
  }

  /** What a thunk returns to the screen: `{success: true}` or `{success: false, message}`. */
  datatype Outcome = Success | Failure(message: string)

  /**
   * The device as the two thunks see it: its storage (lists kept decoded),
   * the `categorias` slice of the Redux store and the actions dispatched so
   * far.
   */
  class App {
    var storage: map<string, seq<string>>
    var categorias: CategoriasState
    var dispatched: seq<Action>

    /** A store is created over whatever storage the device already holds. */
    constructor(saved: map<string, seq<string>>)
      ensures storage == saved && dispatched == []
      ensures categorias == CategoriasReducer(None, Other("@@INIT")) && categorias == CategoriasInicial
    {
      storage := saved;
      categorias := CategoriasReducer(None, Other("@@INIT"));
      dispatched := [];
    }

    /** `dispatch`: record the action and run the slice's reducer on it. */
    method Dispatch(a: Action)
      modifies this`categorias, this`dispatched
      ensures dispatched == old(dispatched) + [a]
      ensures categorias == CategoriasReducer(Some(old(categorias)), a)
    {
      dispatched := dispatched + [a];
      categorias := CategoriasReducer(Some(categorias), a);
    }

    /** `carregarCategorias`: each list from storage, or its default, replaces the one in the store. */
    method CarregarCategorias() returns (o: Outcome)
      modifies this`categorias, this`dispatched
      ensures o == Success
      ensures dispatched == old(dispatched) + [SetCategorias(Carregadas(storage))]
      ensures forall t | KnownTipo(t) ::
        Lista(categorias, t) == if Chave(t) in storage then storage[Chave(t)] else Padrao(t)
    {
      var p := Carregadas(storage);
      Dispatch(SetCategorias(p));
      o := Success;
    }

    /**
     * `adicionarCategoria`: a refused category changes nothing; an accepted
     * one is appended to its list in storage, ADD_CATEGORIA is dispatched,
     * and the store's list ends equal to the stored one.
     */
    method AdicionarCategoria(tipo: string, categoria: string) returns (o: Outcome)
      modifies this
      ensures var g := Verificar(old(categorias), tipo, categoria);
        g.Refuse? ==> (o == Failure(g.message) &&
          storage == old(storage) && categorias == old(categorias) && dispatched == old(dispatched))
      ensures var g := Verificar(old(categorias), tipo, categoria);
        g.Write? ==> (o == Success &&
          storage == old(storage)[Chave(tipo) := Lista(old(categorias), tipo) + [categoria]] &&
          dispatched == old(dispatched) + [AddCategoria(tipo, categoria)] &&
          Lista(categorias, tipo) == storage[Chave(tipo)] &&
          forall t | KnownTipo(t) && t != tipo :: Lista(categorias, t) == Lista(old(categorias), t))
      ensures AllDistinct(old(categorias)) ==> AllDistinct(categorias)
    {
      var g := Verificar(categorias, tipo, categoria);
      if g.Refuse? {
        return Failure(g.message);
      }
      if AllDistinct(categorias) {
        GuardKeepsDistinct(categorias, tipo, categoria);
      }
      storage := storage[g.chave := g.lista];
      Dispatch(AddCategoria(tipo, categoria));
      o := Success;
    }
  }
}
