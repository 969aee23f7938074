/**
 * The document records of the backend (the dataclasses derived from
 * FirestoreModel) seen as field-to-value dictionaries: their declared
 * fields and defaults, and the `to_dict` / `from_dict` conversions the
 * services use to write documents and to read them back.
 */
module Records {
  import opened Calendar

  /** A value a document field can hold. */
  datatype Value =
    | VNull
    | VStr(s: string)
    | VInt(i: int)
    | VReal(r: real)
    | VBool(b: bool)
    | VTime(t: DateTime)
    | VList(items: seq<Value>)
    | VMap(entries: map<string, Value>)

  /** The dataclasses of the document model. */
  datatype Kind =
    | UserKind | CategoriaKind | DespesaKind | BudgetKind | SubscriptionKind
    | NotificationKind | ReportKind | ResumoPorCategoriaKind | ReceitaKind
    | ConfiguracaoFinanceiraKind | SaldoKind | ResumoMensalKind

  /** The fields every record inherits, all defaulting to None. */
  function BaseDefaults(): map<string, Value>
  {
    map["id" := VNull, "created_at" := VNull, "updated_at" := VNull,
        "created_by" := VNull, "updated_by" := VNull]
  }

  /** The fields each dataclass declares on top of the base ones, with their defaults. */
  function OwnDefaults(k: Kind): map<string, Value>
  {
    match k
    case UserKind =>
      map["name" := VStr(""), "email" := VStr(""), "profile_picture_url" := VStr(""),
          "settings" := VMap(map[])]
    case CategoriaKind =>
      map["nome" := VStr(""), "descricao" := VStr(""), "cor" := VStr("#000000"),
          "icone" := VStr(""), "limite_mensal" := VReal(0.0), "ordem" := VInt(0)]
    case DespesaKind =>
      map["descricao" := VStr(""), "data" := VNull,
          "categoria_id" := VStr(""), "categoria_nome" := VStr(""),
          "metodo_pagamento" := VStr(""), "observacoes" := VStr(""),
          "comprovante_url" := VStr(""), "tags" := VList([]),
          "recorrente" := VBool(false), "parcelado" := VBool(false), "user_id" := VStr(""),
          "numero_parcelas" := VInt(1), "parcela_atual" := VInt(1), "valor" := VReal(0.0)]
    case BudgetKind =>
      map["user_id" := VStr(""), "categoria_id" := VStr(""), "categoria_nome" := VStr(""),
          "limite" := VReal(0.0), "gasto_atual" := VReal(0.0), "periodo" := VStr("mensal"),
          "mes" := VInt(0), "ano" := VInt(0), "is_previsao" := VBool(false),
          "confianca" := VReal(0.0), "meta_economia" := VReal(0.0), "fonte_dados" := VStr("")]
    case SubscriptionKind =>
      map["user_id" := VStr(""), "nome_servico" := VStr(""), "valor" := VReal(0.0),
          "data_renovacao" := VNull, "frequencia" := VStr("mensal"),
          "categoria_id" := VStr(""), "categoria_nome" := VStr(""), "ativa" := VBool(true)]
    case NotificationKind =>
      map["user_id" := VStr(""), "mensagem" := VStr(""), "tipo" := VStr(""),
          "lida" := VBool(false), "data" := VNull]
    case ReportKind =>
      map["user_id" := VStr(""), "tipo" := VStr(""), "data_geracao" := VNull,
          "dados" := VMap(map[]), "periodo_inicio" := VNull, "periodo_fim" := VNull]
    case ResumoPorCategoriaKind =>
      map["user_id" := VStr(""), "categoria_id" := VStr(""), "categoria_nome" := VStr(""),
          "valor_total" := VReal(0.0), "mes" := VInt(0), "ano" := VInt(0)]
    case ReceitaKind =>
      map["user_id" := VStr(""), "tipo" := VStr(""), "valor" := VReal(0.0), "data" := VNull,
          "descricao" := VStr(""), "recorrente" := VBool(false), "frequencia" := VStr(""),
          "data_proxima" := VNull, "categoria_id" := VStr(""), "categoria_nome" := VStr(""),
          "comprovante_url" := VStr("")]
    case ConfiguracaoFinanceiraKind =>
      map["user_id" := VStr(""), "valor_salario_base" := VReal(0.0),
          "mostrar_previsao_fluxo" := VBool(true), "categorias_receitas" := VList([]),
          "notificar_saldo_baixo" := VBool(true), "limite_saldo_alerta" := VReal(100.0),
          "data_salario" := VInt(5)]
    case SaldoKind =>
      map["user_id" := VStr(""), "valor" := VReal(0.0), "data" := VNull,
          "tipo_movimentacao" := VStr(""), "referencia_id" := VStr(""),
          "saldo_anterior" := VReal(0.0), "descricao" := VStr("")]
    case ResumoMensalKind =>
      map["user_id" := VStr(""), "ano" := VInt(0), "mes" := VInt(0),
          "total_receitas" := VReal(0.0), "total_despesas" := VReal(0.0),
          "saldo_inicial" := VReal(0.0), "saldo_final" := VReal(0.0),
          "receitas_por_categoria" := VMap(map[]), "despesas_por_categoria" := VMap(map[]),
          "meta_economia" := VReal(0.0), "economia_real" := VReal(0.0)]
  }

  /** The declared fields of a dataclass and their defaults. */
  function Defaults(k: Kind): (m: map<string, Value>)
    ensures BaseDefaults().Keys <= m.Keys
    ensures forall f :: f in BaseDefaults() ==> m[f] == VNull
  {
    OwnDefaults(k) + BaseDefaults()
  }

  function Fields(k: Kind): set<string> { Defaults(k).Keys }

  /** A dataclass instance: one value for each declared field. */
  datatype Instance = Instance(kind: Kind, attrs: map<string, Value>)
  {
    predicate WellFormed() { attrs.Keys == Fields(kind) }
  }

  /**
   * `to_dict`: every attribute that is not None or is a declared field.
   * Since an instance holds exactly its declared fields, nothing is dropped,
   * None-valued fields included.
   */
  function ToDict(x: Instance): (d: map<string, Value>)
    requires x.WellFormed()
    ensures d.Keys == Fields(x.kind)
    ensures forall f :: f in d ==> d[f] == x.attrs[f]
  {
    map f | f in x.attrs && (x.attrs[f] != VNull || f in Fields(x.kind)) :: x.attrs[f]
  }

  /** The caller's dictionary after `from_dict` stored a non-empty doc id into it. */
  function WithDocId(data: map<string, Value>, docId: string): (d: map<string, Value>)
    ensures docId != "" ==> d == data["id" := VStr(docId)]
    ensures docId == "" ==> d == data
  {
    if docId != "" then data["id" := VStr(docId)] else data
  }

  /**
   * `cls.from_dict(data, doc_id)`: unknown keys are dropped, missing
   * fields take their defaults, and a non-empty doc id overrides `id`.
   */
  function FromDict(k: Kind, data: map<string, Value>, docId: string): (x: Instance)
    ensures x.kind == k && x.WellFormed()
    ensures forall f :: f in Fields(k) && f in data && !(f == "id" && docId != "") ==> x.attrs[f] == data[f]
    ensures forall f :: f in Fields(k) && f !in data && !(f == "id" && docId != "") ==> x.attrs[f] == Defaults(k)[f]
    ensures docId != "" ==> x.attrs["id"] == VStr(docId)
  {
    Instance(k, Fill(Defaults(k), WithDocId(data, docId)))
  }

  /** The declared fields, each from `given` when it is there and from `defaults` otherwise. */
  function Fill(defaults: map<string, Value>, given: map<string, Value>): (m: map<string, Value>)
    ensures m.Keys == defaults.Keys
    ensures forall f :: f in m ==> m[f] == if f in given then given[f] else defaults[f]
  {
    map f | f in defaults :: if f in given then given[f] else defaults[f]
  }

  /** A key that is not a declared field never reaches the instance. */
  lemma FromDictDropsUnknown(k: Kind, data: map<string, Value>, docId: string, f: string)
    requires f in data && f !in Fields(k)
    ensures f !in FromDict(k, data, docId).attrs
  {
  }

  /** Reading back what `to_dict` wrote reproduces the instance. */
  lemma FromDictToDict(x: Instance)
    requires x.WellFormed()
    ensures FromDict(x.kind, ToDict(x), "") == x
  {
    var y := FromDict(x.kind, ToDict(x), "");
    assert y.attrs == x.attrs;
  }

  /** Read back under a document id, the instance differs only in `id`. */
  lemma FromDictToDictWithId(x: Instance, docId: string)
    requires x.WellFormed() && docId != ""
    ensures FromDict(x.kind, ToDict(x), docId) == Instance(x.kind, x.attrs["id" := VStr(docId)])
  {
    var y := FromDict(x.kind, ToDict(x), docId);
    var expected := x.attrs["id" := VStr(docId)];
    assert "id" in BaseDefaults();
    assert y.attrs.Keys == expected.Keys;
    forall f | f in y.attrs
      ensures y.attrs[f] == expected[f]
    {
      if f != "id" {
        assert f in ToDict(x);
      }
    }
    assert y.attrs == expected;
  }

  /** An empty document gives the declared default of every field. */
  lemma EmptyDocDefault(k: Kind, f: string)
    requires f in Fields(k)
    ensures FromDict(k, map[], "").attrs[f] == Defaults(k)[f]
  {
  }

  /** A field a dataclass declares itself takes its own default. */
  lemma OwnDefault(k: Kind, f: string)
    requires f in OwnDefaults(k) && f !in BaseDefaults()
    ensures f in Fields(k) && Defaults(k)[f] == OwnDefaults(k)[f]
  {
  }

  /** An empty document gives an expense worth 0.0 in one instalment, the first. */
  lemma DespesaDefaults()
    ensures var x := FromDict(DespesaKind, map[], "");
            x.attrs["valor"] == VReal(0.0) && x.attrs["numero_parcelas"] == VInt(1) &&
            x.attrs["parcela_atual"] == VInt(1)
  {
    var own := OwnDefaults(DespesaKind);
    assert own["valor"] == VReal(0.0) && own["numero_parcelas"] == VInt(1) && own["parcela_atual"] == VInt(1);
    OwnDefault(DespesaKind, "valor");
    OwnDefault(DespesaKind, "numero_parcelas");
    OwnDefault(DespesaKind, "parcela_atual");
    EmptyDocDefault(DespesaKind, "valor");
    EmptyDocDefault(DespesaKind, "numero_parcelas");
    EmptyDocDefault(DespesaKind, "parcela_atual");
  }

  /** An empty document gives financial settings with salary day 5 and a low-balance threshold of 100.0. */
  lemma ConfiguracaoFinanceiraDefaults()
    ensures var x := FromDict(ConfiguracaoFinanceiraKind, map[], "");
            x.attrs["data_salario"] == VInt(5) && x.attrs["limite_saldo_alerta"] == VReal(100.0)
  {
    var own := OwnDefaults(ConfiguracaoFinanceiraKind);
    assert own["data_salario"] == VInt(5) && own["limite_saldo_alerta"] == VReal(100.0);
    OwnDefault(ConfiguracaoFinanceiraKind, "data_salario");
    OwnDefault(ConfiguracaoFinanceiraKind, "limite_saldo_alerta");
    EmptyDocDefault(ConfiguracaoFinanceiraKind, "data_salario");
    EmptyDocDefault(ConfiguracaoFinanceiraKind, "limite_saldo_alerta");
  }
}
