/**
 * The expense service's three transactions: create an expense (resolving
 * its category and adding it to the spend summary), update it (moving its
 * amount between summaries) and delete it (taking its amount back out).
 * Each transaction is one atomic method; the effect on the summaries is a
 * function of the old summaries, so that sequences of operations can be
 * reasoned about.
 */
module Expenses {
  import opened Common
  import opened Calendar
  import opened Entities
  import opened Store
  import opened Categories
  import opened Summaries

  /** A stored date, or `now` when the expense has none. */
  function DateOr(data: Option<DateTime>, now: DateTime): (r: DateTime)
    ensures data.Some? ==> r == data.value
    ensures data.None? ==> r == now
  {
    if data.Some? then data.value else now
  }

  /**
   * The expense as written by `create_with_categoria`: resolved category,
   * owner set, and a missing date replaced by the store's timestamp.
   */
  function StoredDespesa(d: Despesa, userId: string, res: Resolution, now: DateTime): (s: Despesa)
    ensures s.data == Some(DateOr(d.data, now)) && s.userId == userId
    ensures s.categoriaId == res.categoriaId && s.categoriaNome == res.categoriaNome
    ensures s.valor == d.valor && s.descricao == d.descricao && s.tags == d.tags
  {
    d.(categoriaId := res.categoriaId, categoriaNome := res.categoriaNome, userId := userId,
       data := Some(DateOr(d.data, now)))
  }

  // ---------------------------------------------------------------------
  // Effects on the summaries

  /** Creation as written: the summary month is always that of `now`. */
  function CreateEffectAsWritten(rs: map<string, ResumoPorCategoria>, userId: string,
                                 stored: Despesa, now: DateTime): (r: map<string, ResumoPorCategoria>)
    ensures Total(r, KeyAt(userId, stored.categoriaId, now)) ==
            Total(rs, KeyAt(userId, stored.categoriaId, now)) + stored.valor
  {
    AddToSummary(rs, userId, stored.categoriaId, stored.categoriaNome, now, stored.valor)
  }

  /** Creation with the summary month taken from the expense's own (stored) date. */
  function CreateEffect(rs: map<string, ResumoPorCategoria>, userId: string, stored: Despesa)
    : (r: map<string, ResumoPorCategoria>)
    requires stored.data.Some?
    ensures Total(r, KeyAt(userId, stored.categoriaId, stored.data.value)) ==
            Total(rs, KeyAt(userId, stored.categoriaId, stored.data.value)) + stored.valor
  {
    AddToSummary(rs, userId, stored.categoriaId, stored.categoriaNome, stored.data.value, stored.valor)
  }

  /** Deletion: the amount leaves the summary of the expense's date (or of `now`). */
  function DeleteEffect(rs: map<string, ResumoPorCategoria>, userId: string, stored: Despesa, now: DateTime)
    : (r: map<string, ResumoPorCategoria>)
    ensures r.Keys == rs.Keys
  {
    SubtractFromSummary(rs, KeyAt(userId, stored.categoriaId, DateOr(stored.data, now)), stored.valor)
  }

  /** Whether an update touches the summaries at all. */
  predicate Changed(before: Despesa, after: Despesa, categoriaAlterada: bool)
  {
    before.valor != after.valor || categoriaAlterada || before.data != after.data
  }

  /**
   * Update as written: the old amount leaves the old summary, and the new
   * amount is added only when the category or date changed or the key differs.
   */
  function UpdateEffectAsWritten(rs: map<string, ResumoPorCategoria>, userId: string,
                                 before: Despesa, after: Despesa, categoriaAlterada: bool, now: DateTime)
    : (r: map<string, ResumoPorCategoria>)
    ensures !Changed(before, after, categoriaAlterada) ==> r == rs
  {
    if !Changed(before, after, categoriaAlterada) then rs
    else
      var oldKey := KeyAt(userId, before.categoriaId, DateOr(before.data, now));
      var newKey := KeyAt(userId, after.categoriaId, DateOr(after.data, now));
      var reversed := SubtractFromSummary(rs, oldKey, before.valor);
      if categoriaAlterada || before.data != after.data || oldKey != newKey then
        AddToSummary(reversed, userId, after.categoriaId, after.categoriaNome, DateOr(after.data, now), after.valor)
      else reversed
  }

  /** Update as intended: whenever it touches the summaries, the new amount is added back. */
  function UpdateEffect(rs: map<string, ResumoPorCategoria>, userId: string,
                        before: Despesa, after: Despesa, categoriaAlterada: bool, now: DateTime)
    : (r: map<string, ResumoPorCategoria>)
    ensures !Changed(before, after, categoriaAlterada) ==> r == rs
    ensures Changed(before, after, categoriaAlterada) ==>
      KeyAt(userId, after.categoriaId, DateOr(after.data, now)) in r
  {
    if !Changed(before, after, categoriaAlterada) then rs
    else
      var oldKey := KeyAt(userId, before.categoriaId, DateOr(before.data, now));
      AddToSummary(SubtractFromSummary(rs, oldKey, before.valor),
                   userId, after.categoriaId, after.categoriaNome, DateOr(after.data, now), after.valor)
  }

  // ---------------------------------------------------------------------
  // What the effects promise

  /** Creating an expense and deleting it again leaves every summary total as it was. */
  lemma CreateThenDeleteRestores(rs: map<string, ResumoPorCategoria>, userId: string,
                                 stored: Despesa, now: DateTime, k: string)
    requires stored.data.Some?
    requires Total(rs, KeyAt(userId, stored.categoriaId, stored.data.value)) >= 0.0
    ensures Total(DeleteEffect(CreateEffect(rs, userId, stored), userId, stored, now), k) == Total(rs, k)
  {
    AddThenSubtractRestores(rs, userId, stored.categoriaId, stored.categoriaNome, stored.data.value, stored.valor, k);
  }

  /**
   * As written, an expense dated in another month than `now` is added to the
   * current month's summary but later taken out of its own month's: the
   * current month keeps the amount after the expense is gone.
   */
  lemma CreateThenDeleteAsWrittenLeavesResidue()
    ensures var now := DateTime(2024, 3, 5, 0);
            var stored := Despesa("mercado", 10.0, Some(DateTime(2024, 1, 10, 0)), "c1", "Alimentação",
                                  "pix", "", [], false, false, 1, 1, "u1");
            var after := DeleteEffect(CreateEffectAsWritten(map[], "u1", stored, now), "u1", stored, now);
            Total(after, KeyAt("u1", "c1", now)) == 10.0 && Total(map[], KeyAt("u1", "c1", now)) == 0.0
  {
    var now := DateTime(2024, 3, 5, 0);
    assert KeyAt("u1", "c1", now) == "u1_c1_2024_03";
    assert KeyAt("u1", "c1", DateTime(2024, 1, 10, 0)) == "u1_c1_2024_01";
  }

  /**
   * The intended update moves the amount: with the old amount counted in
   * the old summary, each total changes by exactly -old at the old key and
   * +new at the new key.
   */
  lemma UpdateMovesAmount(rs: map<string, ResumoPorCategoria>, userId: string,
                          before: Despesa, after: Despesa, categoriaAlterada: bool, now: DateTime, k: string)
    requires Changed(before, after, categoriaAlterada)
    requires var oldKey := KeyAt(userId, before.categoriaId, DateOr(before.data, now));
             oldKey in rs && rs[oldKey].valorTotal >= before.valor
    ensures var oldKey := KeyAt(userId, before.categoriaId, DateOr(before.data, now));
            var newKey := KeyAt(userId, after.categoriaId, DateOr(after.data, now));
            Total(UpdateEffect(rs, userId, before, after, categoriaAlterada, now), k) ==
              Total(rs, k) - (if k == oldKey then before.valor else 0.0) + (if k == newKey then after.valor else 0.0)
  {
  }

  /**
   * As written, editing only the amount takes the old amount out of the
   * summary and never adds the new one: a summary of 50.0 holding one
   * expense of 50.0 edited to 80.0 ends at 0.0 instead of 80.0.
   */
  lemma AmountOnlyEditAsWrittenDropsAmount()
    ensures var now := DateTime(2024, 3, 5, 0);
            var before := Despesa("aluguel", 50.0, Some(DateTime(2024, 3, 1, 0)), "c1", "Moradia",
                                  "pix", "", [], false, false, 1, 1, "u1");
            var after := before.(valor := 80.0);
            var k := KeyAt("u1", "c1", DateTime(2024, 3, 1, 0));
            var rs := map[k := ResumoPorCategoria("u1", "c1", "Moradia", 50.0, 3, 2024)];
            Total(UpdateEffectAsWritten(rs, "u1", before, after, false, now), k) == 0.0 &&
            Total(UpdateEffect(rs, "u1", before, after, false, now), k) == 80.0
  {
  }

  // ---------------------------------------------------------------------
  // The order of a transaction's reads and writes

  /** A step of a transaction body: a read through the transaction, or a write it buffers until commit. */
  datatype TxStep = TxRead(path: string) | TxWrite(path: string)

  /**
   * The client serves a transaction's reads only while no write is
   * buffered: a read issued after a write raises, and nothing is committed.
   */
  predicate ReadsBeforeWrites(steps: seq<TxStep>)
  {
    forall i, j :: 0 <= i < j < |steps| && steps[i].TxWrite? ==> steps[j].TxWrite?
  }

  predicate AllReads(steps: seq<TxStep>) { forall i :: 0 <= i < |steps| ==> steps[i].TxRead? }

  predicate AllWrites(steps: seq<TxStep>) { forall i :: 0 <= i < |steps| ==> steps[i].TxWrite? }

  lemma AllReadsConcat(a: seq<TxStep>, b: seq<TxStep>)
    requires AllReads(a) && AllReads(b)
    ensures AllReads(a + b)
  {
    forall i | 0 <= i < |a + b|
      ensures (a + b)[i].TxRead?
    {
      if i >= |a| {
        assert (a + b)[i] == b[i - |a|];
      }
    }
  }

  lemma AllWritesConcat(a: seq<TxStep>, b: seq<TxStep>)
    requires AllWrites(a) && AllWrites(b)
    ensures AllWrites(a + b)
  {
    forall i | 0 <= i < |a + b|
      ensures (a + b)[i].TxWrite?
    {
      if i >= |a| {
        assert (a + b)[i] == b[i - |a|];
      }
    }
  }

  function DespesaPath(userId: string, id: string): string { "usuarios/" + userId + "/despesas/" + id }

  function ResumoPath(key: string): string { "resumos_categorias/" + key }

  /** The category step's read through the transaction: the document of a given id. */
  function CategoriaReads(categoriaId: string): (steps: seq<TxStep>)
    ensures AllReads(steps)
  {
    if categoriaId != "" then [TxRead("categorias/" + categoriaId)] else []
  }

  /**
   * The category step's write: the new category, when neither the id nor the
   * name finds one. The lookup by name runs outside the transaction.
   */
  function CategoriaWrites(cats: map<string, Categoria>, categoriaId: string, categoriaNome: string,
                           freshId: string): (steps: seq<TxStep>)
    ensures AllWrites(steps)
    ensures steps != [] <==>
      !(categoriaId != "" && categoriaId in cats) && categoriaNome != "" && NamedIds(cats, categoriaNome) == {}
  {
    if !(categoriaId != "" && categoriaId in cats) && categoriaNome != "" && NamedIds(cats, categoriaNome) == {}
    then [TxWrite("categorias/" + freshId)]
    else []
  }

  /**
   * `create_with_categoria` as written: the category step, the expense's
   * write, and only then the read of the summary it adds to.
   */
  function CreateStepsAsWritten(cats: map<string, Categoria>, d: Despesa, userId: string,
                                freshCategoriaId: string, freshDespesaId: string, resumoKey: string)
    : seq<TxStep>
  {
    CategoriaReads(d.categoriaId) + CategoriaWrites(cats, d.categoriaId, d.categoriaNome, freshCategoriaId) +
    [TxWrite(DespesaPath(userId, freshDespesaId)), TxRead(ResumoPath(resumoKey)), TxWrite(ResumoPath(resumoKey))]
  }

  /** As written, every creation reads the summary after writing the expense, so the client raises. */
  lemma CreateAsWrittenReadsAfterWrite(cats: map<string, Categoria>, d: Despesa, userId: string,
                                       freshCategoriaId: string, freshDespesaId: string, resumoKey: string)
    ensures !ReadsBeforeWrites(CreateStepsAsWritten(cats, d, userId, freshCategoriaId, freshDespesaId, resumoKey))
  {
    var steps := CreateStepsAsWritten(cats, d, userId, freshCategoriaId, freshDespesaId, resumoKey);
    var n := |CategoriaReads(d.categoriaId) + CategoriaWrites(cats, d.categoriaId, d.categoriaNome, freshCategoriaId)|;
    assert steps[n].TxWrite? && steps[n + 1].TxRead?;
  }

  /** `create_with_categoria` with its reads first: the category and the summary, then every write. */
  function CreateSteps(cats: map<string, Categoria>, d: Despesa, userId: string,
                       freshCategoriaId: string, freshDespesaId: string, resumoKey: string)
    : seq<TxStep>
  {
    CategoriaReads(d.categoriaId) + [TxRead(ResumoPath(resumoKey))] +
    CategoriaWrites(cats, d.categoriaId, d.categoriaNome, freshCategoriaId) +
    [TxWrite(DespesaPath(userId, freshDespesaId)), TxWrite(ResumoPath(resumoKey))]
  }

  /** A run of reads followed by a run of writes is accepted by the client. */
  lemma ReadsThenWrites(rd: seq<TxStep>, wr: seq<TxStep>)
    requires AllReads(rd) && AllWrites(wr)
    ensures ReadsBeforeWrites(rd + wr)
  {
    var steps := rd + wr;
    forall i, j | 0 <= i < j < |steps| && steps[i].TxWrite?
      ensures steps[j].TxWrite?
    {
      assert i >= |rd|;
      assert steps[j] == wr[j - |rd|];
    }
  }

  /** The reordered creation never reads after a write. */
  lemma CreateStepsReadFirst(cats: map<string, Categoria>, d: Despesa, userId: string,
                             freshCategoriaId: string, freshDespesaId: string, resumoKey: string)
    ensures ReadsBeforeWrites(CreateSteps(cats, d, userId, freshCategoriaId, freshDespesaId, resumoKey))
  {
    var rd := CategoriaReads(d.categoriaId) + [TxRead(ResumoPath(resumoKey))];
    var wr := CategoriaWrites(cats, d.categoriaId, d.categoriaNome, freshCategoriaId) +
                  [TxWrite(DespesaPath(userId, freshDespesaId)), TxWrite(ResumoPath(resumoKey))];
    ReadsThenWrites(rd, wr);
    assert CreateSteps(cats, d, userId, freshCategoriaId, freshDespesaId, resumoKey) == rd + wr;
  }

  /** The category step of an update runs only for a changed, non-empty category. */
  predicate ResolvesAgain(d: Despesa, before: Despesa)
  {
    (before.categoriaId != d.categoriaId || before.categoriaNome != d.categoriaNome) &&
    (d.categoriaId != "" || d.categoriaNome != "")
  }

  /** The summary steps of `update_with_categoria` after the expense's write, as written. */
  function UpdateSummaryStepsAsWritten(rs: map<string, ResumoPorCategoria>, userId: string,
                                       before: Despesa, after: Despesa, categoriaAlterada: bool, now: DateTime)
    : (steps: seq<TxStep>)
    ensures steps == [] <==> !Changed(before, after, categoriaAlterada)
    ensures steps != [] ==> steps[0].TxRead?
  {
    if !Changed(before, after, categoriaAlterada) then []
    else
      var oldKey := KeyAt(userId, before.categoriaId, DateOr(before.data, now));
      var newKey := KeyAt(userId, after.categoriaId, DateOr(after.data, now));
      [TxRead(ResumoPath(oldKey))] + (if oldKey in rs then [TxWrite(ResumoPath(oldKey))] else []) +
      (if categoriaAlterada || before.data != after.data || oldKey != newKey
       then [TxRead(ResumoPath(newKey)), TxWrite(ResumoPath(newKey))] else [])
  }

  /**
   * `update_with_categoria` as written: the category step when it runs, the
   * expense's write, then the summaries' reads and writes. `after` is the
   * expense once its category is resolved.
   */
  function UpdateStepsAsWritten(cats: map<string, Categoria>, rs: map<string, ResumoPorCategoria>,
                                userId: string, despesaId: string, d: Despesa, before: Despesa, after: Despesa,
                                freshCategoriaId: string, now: DateTime): seq<TxStep>
  {
    var categoriaAlterada := before.categoriaId != d.categoriaId || before.categoriaNome != d.categoriaNome;
    (if ResolvesAgain(d, before)
     then CategoriaReads(d.categoriaId) + CategoriaWrites(cats, d.categoriaId, d.categoriaNome, freshCategoriaId)
     else []) +
    [TxWrite(DespesaPath(userId, despesaId))] +
    UpdateSummaryStepsAsWritten(rs, userId, before, after, categoriaAlterada, now)
  }

  /**
   * As written, an update commits exactly when it leaves the summaries alone:
   * a changed amount, category or date makes it read a summary after
   * writing the expense, and the client raises.
   */
  lemma UpdateAsWrittenCommitsIff(cats: map<string, Categoria>, rs: map<string, ResumoPorCategoria>,
                                  userId: string, despesaId: string, d: Despesa, before: Despesa, after: Despesa,
                                  freshCategoriaId: string, now: DateTime)
    ensures var categoriaAlterada := before.categoriaId != d.categoriaId || before.categoriaNome != d.categoriaNome;
      ReadsBeforeWrites(UpdateStepsAsWritten(cats, rs, userId, despesaId, d, before, after, freshCategoriaId, now))
      <==> !Changed(before, after, categoriaAlterada)
  {
    var categoriaAlterada := before.categoriaId != d.categoriaId || before.categoriaNome != d.categoriaNome;
    var cat := if ResolvesAgain(d, before)
      then CategoriaReads(d.categoriaId) + CategoriaWrites(cats, d.categoriaId, d.categoriaNome, freshCategoriaId)
      else [];
    var tail := UpdateSummaryStepsAsWritten(rs, userId, before, after, categoriaAlterada, now);
    var steps := UpdateStepsAsWritten(cats, rs, userId, despesaId, d, before, after, freshCategoriaId, now);
    assert steps == cat + [TxWrite(DespesaPath(userId, despesaId))] + tail;
    if Changed(before, after, categoriaAlterada) {
      assert steps[|cat|].TxWrite? && steps[|cat| + 1].TxRead?;
    } else {
      // A category step implies a changed category, so only the expense's write remains.
      assert steps == [TxWrite(DespesaPath(userId, despesaId))];
    }
  }

  /** The summaries `update_with_categoria` reads, and what it writes to them. */
  function UpdateSummaryReads(userId: string, before: Despesa, after: Despesa, categoriaAlterada: bool, now: DateTime)
    : (steps: seq<TxStep>)
    ensures AllReads(steps)
  {
    if !Changed(before, after, categoriaAlterada) then []
    else [TxRead(ResumoPath(KeyAt(userId, before.categoriaId, DateOr(before.data, now)))),
          TxRead(ResumoPath(KeyAt(userId, after.categoriaId, DateOr(after.data, now))))]
  }

  function UpdateSummaryWrites(userId: string, before: Despesa, after: Despesa, categoriaAlterada: bool, now: DateTime)
    : (steps: seq<TxStep>)
    ensures AllWrites(steps)
  {
    if !Changed(before, after, categoriaAlterada) then []
    else [TxWrite(ResumoPath(KeyAt(userId, before.categoriaId, DateOr(before.data, now)))),
          TxWrite(ResumoPath(KeyAt(userId, after.categoriaId, DateOr(after.data, now))))]
  }

  /** `update_with_categoria` with its reads first: the category and both summaries, then every write. */
  function UpdateSteps(cats: map<string, Categoria>, userId: string, despesaId: string,
                       d: Despesa, before: Despesa, after: Despesa, freshCategoriaId: string, now: DateTime)
    : seq<TxStep>
  {
    var categoriaAlterada := before.categoriaId != d.categoriaId || before.categoriaNome != d.categoriaNome;
    var again := ResolvesAgain(d, before);
    (if again then CategoriaReads(d.categoriaId) else []) +
    UpdateSummaryReads(userId, before, after, categoriaAlterada, now) +
    (if again then CategoriaWrites(cats, d.categoriaId, d.categoriaNome, freshCategoriaId) else []) +
    [TxWrite(DespesaPath(userId, despesaId))] +
    UpdateSummaryWrites(userId, before, after, categoriaAlterada, now)
  }

  /** The reordered update never reads after a write, whatever changed. */
  lemma UpdateStepsReadFirst(cats: map<string, Categoria>, userId: string, despesaId: string,
                             d: Despesa, before: Despesa, after: Despesa, freshCategoriaId: string, now: DateTime)
    ensures ReadsBeforeWrites(UpdateSteps(cats, userId, despesaId, d, before, after, freshCategoriaId, now))
  {
    var categoriaAlterada := before.categoriaId != d.categoriaId || before.categoriaNome != d.categoriaNome;
    var again := ResolvesAgain(d, before);
    var catR := if again then CategoriaReads(d.categoriaId) else [];
    var sumR := UpdateSummaryReads(userId, before, after, categoriaAlterada, now);
    var catW := if again then CategoriaWrites(cats, d.categoriaId, d.categoriaNome, freshCategoriaId) else [];
    var sumW := UpdateSummaryWrites(userId, before, after, categoriaAlterada, now);
    var own := [TxWrite(DespesaPath(userId, despesaId))];
    AllReadsConcat(catR, sumR);
    AllWritesConcat(catW, own);
    AllWritesConcat(catW + own, sumW);
    ReadsThenWrites(catR + sumR, catW + own + sumW);
    assert UpdateSteps(cats, userId, despesaId, d, before, after, freshCategoriaId, now) ==
      (catR + sumR) + (catW + own + sumW);
  }

  // ---------------------------------------------------------------------
  // The transactions

  /**
   * `create_with_categoria`, corrected: refuses an empty user id before
   * writing anything; otherwise resolves the category, stores the expense
   * under `freshDespesaId` and adds its amount to the summary of its own
   * month (CreateEffect), as the transaction does once its reads come first
   * (CreateSteps).
   */
  method CreateWithCategoria(db: Db, d: Despesa, userId: string, now: DateTime,
                             freshCategoriaId: string, freshDespesaId: string)
    returns (r: Result<(string, Despesa, Resolution, ResumoPorCategoria)>)
    requires freshCategoriaId !in db.categorias && freshCategoriaId != ""
    requires freshDespesaId !in db.DespesasOf(userId)
    modifies db`categorias, db`despesas, db`resumos
    ensures userId == "" ==>
      r.Err? && r.error.ValueError? &&
      db.categorias == old(db.categorias) && db.despesas == old(db.despesas) && db.resumos == old(db.resumos)
    ensures userId != "" ==> r.Ok?
    ensures r.Ok? ==>
      var (id, stored, res, resumo) := r.value;
      id == freshDespesaId &&
      Resolved(old(db.categorias), db.categorias, d.categoriaId, d.categoriaNome, freshCategoriaId, res) &&
      stored == StoredDespesa(d, userId, res, now) &&
      db.despesas == WithUserDespesas(old(db.despesas), userId, old(db.DespesasOf(userId))[id := stored]) &&
      db.resumos == CreateEffect(old(db.resumos), userId, stored) &&
      resumo == db.resumos[KeyAt(userId, stored.categoriaId, stored.data.value)]
  {
    if userId == "" {
      return Err(ValueError("O ID do usuário é obrigatório"));
    }
    var res := ResolveCategoria(db, d.categoriaId, d.categoriaNome, freshCategoriaId);
    var stored := StoredDespesa(d, userId, res, now);
    db.despesas := WithUserDespesas(db.despesas, userId, db.DespesasOf(userId)[freshDespesaId := stored]);
    var resumo := AtualizarResumo(db, userId, stored.categoriaId, stored.categoriaNome, stored.valor, stored.data.value);
    r := Ok((freshDespesaId, stored, res, resumo));
  }

  /** The category step of `update_with_categoria`: a changed, non-empty category is resolved again. */
  method CategoriaForUpdate(db: Db, d: Despesa, categoriaAlterada: bool, freshCategoriaId: string)
    returns (after: Despesa)
    requires freshCategoriaId !in db.categorias && freshCategoriaId != ""
    modifies db`categorias
    ensures after == d.(categoriaId := after.categoriaId, categoriaNome := after.categoriaNome)
    ensures categoriaAlterada && (d.categoriaId != "" || d.categoriaNome != "") ==>
      exists res :: Resolved(old(db.categorias), db.categorias, d.categoriaId, d.categoriaNome, freshCategoriaId, res) &&
                    after.categoriaId == res.categoriaId && after.categoriaNome == res.categoriaNome
    ensures !(categoriaAlterada && (d.categoriaId != "" || d.categoriaNome != "")) ==>
      after == d && db.categorias == old(db.categorias)
  {
    after := d;
    if categoriaAlterada && (d.categoriaId != "" || d.categoriaNome != "") {
      var res := ResolveCategoria(db, d.categoriaId, d.categoriaNome, freshCategoriaId);
      after := after.(categoriaId := res.categoriaId, categoriaNome := res.categoriaNome);
    }
  }

  /**
   * `update_with_categoria`, corrected: refuses an empty user or expense id;
   * an expense that is not stored cannot be updated and nothing is written.
   * Otherwise a changed category is resolved again, the expense is
   * overwritten, and the summaries change only if the amount, category or
   * date changed (UpdateEffect), as the transaction does once its reads
   * come first (UpdateSteps).
   */
  method UpdateWithCategoria(db: Db, despesaId: string, d: Despesa, before: Despesa,
                             userId: string, now: DateTime, freshCategoriaId: string)
    returns (r: Result<Despesa>)
    requires freshCategoriaId !in db.categorias && freshCategoriaId != ""
    modifies db`categorias, db`despesas, db`resumos
    ensures r.Err? ==>
      db.categorias == old(db.categorias) && db.despesas == old(db.despesas) && db.resumos == old(db.resumos)
    ensures userId == "" || despesaId == "" ==> r.Err? && r.error.ValueError?
    ensures userId != "" && despesaId != "" && despesaId !in old(db.DespesasOf(userId)) ==>
      r.Err? && r.error.NotFound?
    ensures userId != "" && despesaId != "" && despesaId in old(db.DespesasOf(userId)) ==> r.Ok?
    ensures r.Ok? ==>
      var after := r.value;
      var categoriaAlterada := before.categoriaId != d.categoriaId || before.categoriaNome != d.categoriaNome;
      after.userId == userId &&
      after == d.(categoriaId := after.categoriaId, categoriaNome := after.categoriaNome, userId := userId) &&
      (categoriaAlterada && (d.categoriaId != "" || d.categoriaNome != "") ==>
        exists res :: Resolved(old(db.categorias), db.categorias, d.categoriaId, d.categoriaNome, freshCategoriaId, res) &&
                      after.categoriaId == res.categoriaId && after.categoriaNome == res.categoriaNome) &&
      (!(categoriaAlterada && (d.categoriaId != "" || d.categoriaNome != "")) ==>
        after.categoriaId == d.categoriaId && after.categoriaNome == d.categoriaNome &&
        db.categorias == old(db.categorias)) &&
      db.despesas == WithUserDespesas(old(db.despesas), userId, old(db.DespesasOf(userId))[despesaId := after]) &&
      db.resumos == UpdateEffect(old(db.resumos), userId, before, after, categoriaAlterada, now)
  {
    if userId == "" {
      return Err(ValueError("O ID do usuário é obrigatório"));
    }
    if despesaId == "" {
      return Err(ValueError("O ID da despesa é obrigatório"));
    }
    if despesaId !in db.DespesasOf(userId) {
      return Err(NotFound("usuarios/" + userId + "/despesas/" + despesaId));
    }
    var categoriaAlterada := before.categoriaId != d.categoriaId || before.categoriaNome != d.categoriaNome;
    var after := CategoriaForUpdate(db, d, categoriaAlterada, freshCategoriaId);
    after := after.(userId := userId);
    db.despesas := WithUserDespesas(db.despesas, userId, db.DespesasOf(userId)[despesaId := after]);
    db.resumos := UpdateEffect(db.resumos, userId, before, after, categoriaAlterada, now);
    r := Ok(after);
  }

  /**
   * `delete_with_update_resumo`: refuses empty ids; a missing expense gives
   * false with no writes; otherwise its amount leaves its summary (floored
   * at 0), the expense is removed, and the result is true.
   */
  method DeleteWithUpdateResumo(db: Db, userId: string, despesaId: string, now: DateTime)
    returns (r: Result<bool>)
    modifies db`despesas, db`resumos
    ensures userId == "" || despesaId == "" ==>
      r.Err? && r.error.ValueError? && db.despesas == old(db.despesas) && db.resumos == old(db.resumos)
    ensures userId != "" && despesaId != "" && despesaId !in old(db.DespesasOf(userId)) ==>
      r == Ok(false) && db.despesas == old(db.despesas) && db.resumos == old(db.resumos)
    ensures userId != "" && despesaId != "" && despesaId in old(db.DespesasOf(userId)) ==>
      r == Ok(true) &&
      db.despesas == WithUserDespesas(old(db.despesas), userId, old(db.DespesasOf(userId)) - {despesaId}) &&
      db.resumos == DeleteEffect(old(db.resumos), userId, old(db.DespesasOf(userId))[despesaId], now)
  {
    if userId == "" || despesaId == "" {
      return Err(ValueError("IDs de usuário e despesa são obrigatórios"));
    }
    var mine := db.DespesasOf(userId);
    if despesaId !in mine {
      return Ok(false);
    }
    var stored := mine[despesaId];
    db.resumos := DeleteEffect(db.resumos, userId, stored, now);
    db.despesas := WithUserDespesas(db.despesas, userId, mine - {despesaId});
    r := Ok(true);
  }
}
