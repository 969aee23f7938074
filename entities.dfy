/**
 * The records the ledger services read and write, with the fields those
 * services use, and the composite document ids built from
 * `"{user}_{category}_{year}_{month:02d}"` and `"{user}_{year}_{month:02d}"`.
 */
module Entities {
  import opened Common
  import opened Calendar

  datatype Categoria = Categoria(
    nome: string, descricao: string, cor: string, icone: string,
    limiteMensal: real, ordem: int)

  /** `Categoria(nome=nome)`: every other field at its declared default. */
  function NewCategoria(nome: string): (c: Categoria)
    ensures c.nome == nome && c.cor == "#000000" && c.limiteMensal == 0.0 && c.ordem == 0
  {
    Categoria(nome, "", "#000000", "", 0.0, 0)
  }

  /** An expense. `data` is None until the store fills in its timestamp. */
  datatype Despesa = Despesa(
    descricao: string, valor: real, data: Option<DateTime>,
    categoriaId: string, categoriaNome: string, metodoPagamento: string,
    observacoes: string, tags: seq<string>, recorrente: bool, parcelado: bool,
    numeroParcelas: int, parcelaAtual: int, userId: string)

  datatype ResumoPorCategoria = ResumoPorCategoria(
    userId: string, categoriaId: string, categoriaNome: string,
    valorTotal: real, mes: int, ano: int)
  {
    function IdComposto(): string { CategoryMonthKey(userId, categoriaId, ano, mes) }
  }

  datatype Budget = Budget(
    userId: string, categoriaId: string, categoriaNome: string,
    limite: real, gastoAtual: real, periodo: string, mes: int, ano: int,
    isPrevisao: bool, confianca: real, metaEconomia: real, fonteDados: string)
  {
    function IdComposto(): string { CategoryMonthKey(userId, categoriaId, ano, mes) }
  }

  /** A balance snapshot. */
  datatype Saldo = Saldo(
    userId: string, valor: real, data: Option<DateTime>, tipoMovimentacao: string,
    referenciaId: string, saldoAnterior: real, descricao: string)

  datatype Receita = Receita(
    userId: string, tipo: string, valor: real, data: Option<DateTime>,
    descricao: string, categoriaId: string, categoriaNome: string)

  datatype ResumoMensal = ResumoMensal(
    userId: string, ano: int, mes: int,
    totalReceitas: real, totalDespesas: real, saldoInicial: real, saldoFinal: real,
    receitasPorCategoria: map<string, real>, despesasPorCategoria: map<string, real>,
    metaEconomia: real, economiaReal: real)
  {
    function IdComposto(): string { UserMonthKey(userId, ano, mes) }
  }

  // ---------------------------------------------------------------------
  // Composite ids

  /** `f"{user_id}_{categoria_id}_{ano}_{mes:02d}"`. */
  function CategoryMonthKey(userId: string, categoriaId: string, ano: int, mes: int): (k: string)
    ensures IsPrefix(userId + "_" + categoriaId + "_", k)
  {
    userId + "_" + categoriaId + "_" + IntToString(ano) + "_" + Pad2(mes)
  }

  /** `f"{user_id}_{ano}_{mes:02d}"`. */
  function UserMonthKey(userId: string, ano: int, mes: int): (k: string)
    ensures IsPrefix(userId + "_", k)
  {
    userId + "_" + IntToString(ano) + "_" + Pad2(mes)
  }

  predicate NoUnderscore(s: string) { '_' !in s }

  lemma IntToStringNoUnderscore(i: int)
    ensures NoUnderscore(IntToString(i)) && NoUnderscore(Pad2(i))
  {
  }

  lemma IntToStringInjective(i: int, j: int)
    requires IntToString(i) == IntToString(j)
    ensures i == j
  {
    if i < 0 && j < 0 {
      assert NatToString(-i) == IntToString(i)[1..] == NatToString(-j);
      NatToStringInjective(-i, -j);
    } else if i >= 0 && j >= 0 {
      NatToStringInjective(i, j);
    }
  }

  /** Position of the last `c` in `s`, or -1. */
  function LastIndexOf(s: string, c: char): (i: int)
    ensures -1 <= i < |s|
    ensures i >= 0 ==> s[i] == c
    ensures forall j :: i < j < |s| ==> s[j] != c
  {
    if s == [] then -1
    else if s[|s| - 1] == c then |s| - 1
    else LastIndexOf(s[..|s| - 1], c)
  }

  lemma LastIndexOfSplit(a: string, b: string, c: char)
    requires c !in b
    ensures LastIndexOf(a + [c] + b, c) == |a|
  {
    var s := a + [c] + b;
    var i := LastIndexOf(s, c);
    assert s[|a|] == c;
    assert i >= |a|;
  }

  lemma TakeUntilSplit(a: string, b: string, c: char)
    requires c !in a
    ensures TakeUntil(a + [c] + b, c) == a
  {
    var s := a + [c] + b;
    assert s[..|a|] == a && s[|a|] == c;
  }

  /** Splitting at the last separator: the part after it is separator-free. */
  lemma SplitAtLast(a: string, b: string, a': string, b': string, c: char)
    requires a + [c] + b == a' + [c] + b'
    requires c !in b && c !in b'
    ensures a == a' && b == b'
  {
    var s := a + [c] + b;
    LastIndexOfSplit(a, b, c);
    LastIndexOfSplit(a', b', c);
    assert a == s[..|a|] == a';
    assert b == s[|a| + 1..] == b';
  }

  /** Splitting at the first separator: the part before it is separator-free. */
  lemma SplitAtFirst(a: string, b: string, a': string, b': string, c: char)
    requires a + [c] + b == a' + [c] + b'
    requires c !in a && c !in a'
    ensures a == a' && b == b'
  {
    var s := a + [c] + b;
    TakeUntilSplit(a, b, c);
    TakeUntilSplit(a', b', c);
    assert b == s[|a| + 1..] == b';
  }

  /**
   * Equal category-month ids have the same year and month, and the same
   * "{user}_{category}" head, whatever the ids contain.
   */
  lemma CategoryMonthKeyDeterminesPeriod(u: string, c: string, ano: int, mes: int,
                                         u': string, c': string, ano': int, mes': int)
    requires 0 <= mes < 100 && 0 <= mes' < 100
    requires CategoryMonthKey(u, c, ano, mes) == CategoryMonthKey(u', c', ano', mes')
    ensures ano == ano' && mes == mes'
    ensures u + "_" + c == u' + "_" + c'
  {
    IntToStringNoUnderscore(ano);
    IntToStringNoUnderscore(ano');
    IntToStringNoUnderscore(mes);
    IntToStringNoUnderscore(mes');
    var head := u + "_" + c + "_" + IntToString(ano);
    var head' := u' + "_" + c' + "_" + IntToString(ano');
    assert head + ['_'] + Pad2(mes) == CategoryMonthKey(u, c, ano, mes);
    assert head' + ['_'] + Pad2(mes') == CategoryMonthKey(u', c', ano', mes');
    SplitAtLast(head, Pad2(mes), head', Pad2(mes'), '_');
    Pad2Injective(mes, mes');
    assert (u + "_" + c) + ['_'] + IntToString(ano) == head;
    assert (u' + "_" + c') + ['_'] + IntToString(ano') == head';
    SplitAtLast(u + "_" + c, IntToString(ano), u' + "_" + c', IntToString(ano'), '_');
    IntToStringInjective(ano, ano');
  }

  /** When user ids carry no '_' (as generated ids do not), the id determines every part. */
  lemma CategoryMonthKeyInjective(u: string, c: string, ano: int, mes: int,
                                  u': string, c': string, ano': int, mes': int)
    requires NoUnderscore(u) && NoUnderscore(u')
    requires 0 <= mes < 100 && 0 <= mes' < 100
    requires CategoryMonthKey(u, c, ano, mes) == CategoryMonthKey(u', c', ano', mes')
    ensures u == u' && c == c' && ano == ano' && mes == mes'
  {
    CategoryMonthKeyDeterminesPeriod(u, c, ano, mes, u', c', ano', mes');
    assert u + ['_'] + c == u + "_" + c;
    assert u' + ['_'] + c' == u' + "_" + c';
    SplitAtFirst(u, c, u', c', '_');
  }

  /** With a '_' inside an id, two different (user, category) pairs share a summary id. */
  lemma CategoryMonthKeyAmbiguous()
    ensures CategoryMonthKey("a_b", "c", 2024, 1) == CategoryMonthKey("a", "b_c", 2024, 1)
  {
  }

  /** A monthly-summary id determines its user (when '_'-free), year and month. */
  lemma UserMonthKeyInjective(u: string, ano: int, mes: int, u': string, ano': int, mes': int)
    requires NoUnderscore(u) && NoUnderscore(u')
    requires 0 <= mes < 100 && 0 <= mes' < 100
    requires UserMonthKey(u, ano, mes) == UserMonthKey(u', ano', mes')
    ensures u == u' && ano == ano' && mes == mes'
  {
    IntToStringNoUnderscore(ano);
    IntToStringNoUnderscore(ano');
    IntToStringNoUnderscore(mes);
    IntToStringNoUnderscore(mes');
    var head := u + "_" + IntToString(ano);
    var head' := u' + "_" + IntToString(ano');
    assert head + ['_'] + Pad2(mes) == UserMonthKey(u, ano, mes);
    assert head' + ['_'] + Pad2(mes') == UserMonthKey(u', ano', mes');
    SplitAtLast(head, Pad2(mes), head', Pad2(mes'), '_');
    Pad2Injective(mes, mes');
    assert u + ['_'] + IntToString(ano) == head;
    assert u' + ['_'] + IntToString(ano') == head';
    SplitAtFirst(u, IntToString(ano), u', IntToString(ano'), '_');
    IntToStringInjective(ano, ano');
  }

  /** The month is zero-padded: January of 2024 for user "u" is "u_2024_01". */
  lemma UserMonthKeyExample()
    ensures UserMonthKey("u", 2024, 1) == "u_2024_01"
  {
  }
}
