/**
 * The expense search (`DespesaService.pesquisa_avancada`): the store-side
 * filters on category, date range, payment method and the two flags, then
 * the in-memory filters on amount range, tags and free text, each one
 * narrowing the list the previous one left.
 */
module Search {
  import opened Common
  import opened Calendar
  import opened DateOrder
  import opened Entities
  import opened Store

  /** A stored expense with its document id. */
  datatype Doc = Doc(id: string, despesa: Despesa)

  /**
   * The filters dictionary. A string filter whose value is empty counts as
   * absent, as the source tests it for truthiness; `recorrente` and
   * `parcelado` apply whenever the key is present, even when false. Those
   * two filters are booleans: a key present with the value None, which the
   * source would compare against and so match nothing, is not modelled.
   */
  datatype Filtros = Filtros(
    categoriaId: Option<string>,
    dataInicio: Option<DateTime>,
    dataFim: Option<DateTime>,
    metodoPagamento: Option<string>,
    recorrente: Option<bool>,
    parcelado: Option<bool>,
    valorMin: Option<real>,
    valorMax: Option<real>,
    tags: seq<string>,
    texto: Option<string>)

  predicate Truthy(s: Option<string>) { s.Some? && s.value != "" }

  /** The documents of `xs` that satisfy `p`, in order. */
  function Where(xs: seq<Doc>, p: Doc -> bool): (r: seq<Doc>)
    ensures |r| <= |xs|
    ensures forall x :: x in r <==> x in xs && p(x)
  {
    if xs == [] then []
    else (if p(xs[0]) then [xs[0]] else []) + Where(xs[1..], p)
  }

  /** Narrowing twice is narrowing once by both conditions. */
  lemma {:induction false} WhereWhere(xs: seq<Doc>, p: Doc -> bool, q: Doc -> bool)
    ensures Where(Where(xs, p), q) == Where(xs, x => p(x) && q(x))
  {
    if xs != [] {
      WhereWhere(xs[1..], p, q);
      if p(xs[0]) {
        assert Where(xs, p) == [xs[0]] + Where(xs[1..], p);
        assert Where(xs, p)[1..] == Where(xs[1..], p);
      } else {
        assert Where(xs, p) == Where(xs[1..], p);
      }
    }
  }

  /** `ys` keeps some of the elements of `xs`, in their order. */
  predicate IsSubsequence<T(==)>(ys: seq<T>, xs: seq<T>)
  {
    if ys == [] then true
    else if xs == [] then false
    else if ys[0] == xs[0] then IsSubsequence(ys[1..], xs[1..])
    else IsSubsequence(ys, xs[1..])
  }

  lemma {:induction false} WhereIsSubsequence(xs: seq<Doc>, p: Doc -> bool)
    ensures IsSubsequence(Where(xs, p), xs)
  {
    if xs != [] {
      WhereIsSubsequence(xs[1..], p);
      var ys := Where(xs, p);
      if p(xs[0]) {
        assert ys == [xs[0]] + Where(xs[1..], p);
        assert ys[1..] == Where(xs[1..], p);
      } else {
        assert ys == Where(xs[1..], p);
        if ys != [] {
          assert ys[0] in ys;
        }
      }
    }
  }

  /** Does any requested tag appear among the expense's tags? */
  predicate SharesTag(tags: seq<string>, wanted: seq<string>)
  {
    exists t :: t in wanted && t in tags
  }

  /** The executable form of SharesTag. */
  function AnyTagIn(tags: seq<string>, wanted: seq<string>): (b: bool)
    ensures b <==> SharesTag(tags, wanted)
  {
    if wanted == [] then false
    else wanted[0] in tags || AnyTagIn(tags, wanted[1..])
  }

  /** The text filter: a case-insensitive substring of the description or the notes. */
  ghost predicate MentionsText(d: Despesa, texto: string)
  {
    (d.descricao != "" && Contains(Lower(d.descricao), Lower(texto))) ||
    (d.observacoes != "" && Contains(Lower(d.observacoes), Lower(texto)))
  }

  /** Every supplied filter, stated all at once. */
  ghost predicate Matches(d: Despesa, f: Filtros)
  {
    (Truthy(f.categoriaId) ==> d.categoriaId == f.categoriaId.value) &&
    (f.dataInicio.Some? ==> d.data.Some? && Le(f.dataInicio.value, d.data.value)) &&
    (f.dataFim.Some? ==> d.data.Some? && Le(d.data.value, f.dataFim.value)) &&
    (Truthy(f.metodoPagamento) ==> d.metodoPagamento == f.metodoPagamento.value) &&
    (f.recorrente.Some? ==> d.recorrente == f.recorrente.value) &&
    (f.parcelado.Some? ==> d.parcelado == f.parcelado.value) &&
    (f.valorMin.Some? ==> d.valor >= f.valorMin.value) &&
    (f.valorMax.Some? ==> d.valor <= f.valorMax.value) &&
    (f.tags != [] ==> SharesTag(d.tags, f.tags)) &&
    (Truthy(f.texto) ==> MentionsText(d, f.texto.value))
  }

  /**
   * The ten filter stages in the order the search applies them: stages
   * 0 to 5 are the store-side query clauses, 6 to 9 the in-memory filters.
   */
  const Stages: nat := 10

  /** Is stage `k` switched on by the filters? */
  predicate Active(f: Filtros, k: nat)
  {
    match k
    case 0 => Truthy(f.categoriaId)
    case 1 => f.dataInicio.Some?
    case 2 => f.dataFim.Some?
    case 3 => Truthy(f.metodoPagamento)
    case 4 => f.recorrente.Some?
    case 5 => f.parcelado.Some?
    case 6 => f.valorMin.Some?
    case 7 => f.valorMax.Some?
    case 8 => f.tags != []
    case 9 => Truthy(f.texto)
    case _ => false
  }

  /** Does the expense get through stage `k`? A stage that is off lets everything through. */
  predicate Passes(f: Filtros, k: nat, d: Despesa)
  {
    match k
    case 0 => Truthy(f.categoriaId) ==> d.categoriaId == f.categoriaId.value
    case 1 => f.dataInicio.Some? ==> d.data.Some? && Le(f.dataInicio.value, d.data.value)
    case 2 => f.dataFim.Some? ==> d.data.Some? && Le(d.data.value, f.dataFim.value)
    case 3 => Truthy(f.metodoPagamento) ==> d.metodoPagamento == f.metodoPagamento.value
    case 4 => f.recorrente.Some? ==> d.recorrente == f.recorrente.value
    case 5 => f.parcelado.Some? ==> d.parcelado == f.parcelado.value
    case 6 => f.valorMin.Some? ==> d.valor >= f.valorMin.value
    case 7 => f.valorMax.Some? ==> d.valor <= f.valorMax.value
    case 8 => f.tags != [] ==> AnyTagIn(d.tags, f.tags)
    case 9 => Truthy(f.texto) ==>
      (d.descricao != "" && Includes(Lower(d.descricao), Lower(f.texto.value))) ||
      (d.observacoes != "" && Includes(Lower(d.observacoes), Lower(f.texto.value)))
    case _ => true
  }

  /** One stage: a `where` clause or a list comprehension when it is on, nothing otherwise. */
  function Step(xs: seq<Doc>, f: Filtros, k: nat): seq<Doc>
  {
    if Active(f, k) then Where(xs, (x: Doc) => Passes(f, k, x.despesa)) else xs
  }

  /** A stage keeps exactly the documents that pass it; one that is off passes everything. */
  lemma StepKeepsPassing(xs: seq<Doc>, f: Filtros, k: nat)
    ensures forall x :: x in Step(xs, f, k) <==> x in xs && Passes(f, k, x.despesa)
  {
  }

  /** The first `n` stages, applied in order. */
  function Run(docs: seq<Doc>, f: Filtros, n: nat): seq<Doc>
  {
    if n == 0 then docs else Step(Run(docs, f, n - 1), f, n - 1)
  }

  /** A document survives the first `n` stages exactly when it passes each of them. */
  lemma {:induction false} RunKeepsPassing(docs: seq<Doc>, f: Filtros, n: nat)
    ensures forall x :: x in Run(docs, f, n) <==> x in docs && forall k :: 0 <= k < n ==> Passes(f, k, x.despesa)
  {
    if n > 0 {
      var prev := Run(docs, f, n - 1);
      assert Run(docs, f, n) == Step(prev, f, n - 1);
      RunKeepsPassing(docs, f, n - 1);
      StepKeepsPassing(prev, f, n - 1);
      forall x
        ensures x in Run(docs, f, n) <==> x in docs && forall k :: 0 <= k < n ==> Passes(f, k, x.despesa)
      {
        assert (forall k :: 0 <= k < n ==> Passes(f, k, x.despesa)) <==>
          (forall k :: 0 <= k < n - 1 ==> Passes(f, k, x.despesa)) && Passes(f, n - 1, x.despesa);
      }
    }
  }

  /** Passing every stage is matching every supplied filter. */
  lemma PassesAllIffMatches(f: Filtros, d: Despesa)
    ensures (forall k :: 0 <= k < Stages ==> Passes(f, k, d)) <==> Matches(d, f)
  {
    assert Passes(f, 0, d) && Passes(f, 1, d) && Passes(f, 2, d) && Passes(f, 3, d) && Passes(f, 4, d) &&
           Passes(f, 5, d) && Passes(f, 6, d) && Passes(f, 7, d) && Passes(f, 8, d) && Passes(f, 9, d)
       <==> Matches(d, f);
  }

  /** `pesquisa_avancada` over the documents the store streams, in that order. */
  function PesquisaAvancada(docs: seq<Doc>, f: Filtros): (r: seq<Doc>)
    ensures forall x :: x in r <==> x in docs && Matches(x.despesa, f)
  {
    var r := Run(docs, f, Stages);
    RunKeepsPassing(docs, f, Stages);
    assert forall x :: x in r <==> x in docs && Matches(x.despesa, f) by {
      forall x: Doc { PassesAllIffMatches(f, x.despesa); }
    }
    r
  }

  /** The result keeps the streamed order: it is a subsequence of the documents. */
  lemma PesquisaKeepsOrder(docs: seq<Doc>, f: Filtros)
    ensures IsSubsequence(PesquisaAvancada(docs, f), docs)
  {
    RunIsSubsequence(docs, f, Stages);
  }

  lemma {:induction false} RunIsSubsequence(docs: seq<Doc>, f: Filtros, n: nat)
    ensures IsSubsequence(Run(docs, f, n), docs)
  {
    if n == 0 {
      SubsequenceReflexive(docs);
    } else {
      RunIsSubsequence(docs, f, n - 1);
      StepKeepsSubsequence(Run(docs, f, n - 1), docs, f, n - 1);
    }
  }

  lemma StepKeepsSubsequence(xs: seq<Doc>, docs: seq<Doc>, f: Filtros, k: nat)
    requires IsSubsequence(xs, docs)
    ensures IsSubsequence(Step(xs, f, k), docs)
  {
    StepIsSubsequence(xs, f, k);
    SubsequenceTransitive(Step(xs, f, k), xs, docs);
  }

  lemma StepIsSubsequence(xs: seq<Doc>, f: Filtros, k: nat)
    ensures IsSubsequence(Step(xs, f, k), xs)
  {
    if Active(f, k) {
      WhereIsSubsequence(xs, (x: Doc) => Passes(f, k, x.despesa));
    } else {
      SubsequenceReflexive(xs);
    }
  }

  lemma {:induction false} SubsequenceReflexive<T>(xs: seq<T>)
    ensures IsSubsequence(xs, xs)
  {
    if xs != [] {
      SubsequenceReflexive(xs[1..]);
    }
  }

  lemma {:induction false} SubsequenceTransitive<T>(zs: seq<T>, ys: seq<T>, xs: seq<T>)
    requires IsSubsequence(zs, ys) && IsSubsequence(ys, xs)
    ensures IsSubsequence(zs, xs)
    decreases |xs|
  {
    if zs != [] && ys != [] && xs != [] {
      if ys[0] == xs[0] {
        if zs[0] == ys[0] {
          SubsequenceTransitive(zs[1..], ys[1..], xs[1..]);
        } else {
          SubsequenceTransitive(zs, ys[1..], xs[1..]);
        }
      } else {
        SubsequenceTransitive(zs, ys, xs[1..]);
        SubsequenceCons(zs, xs);
      }
    }
  }

  /** Putting an element in front of the sequence keeps a subsequence one. */
  lemma {:induction false} SubsequenceCons<T>(zs: seq<T>, xs: seq<T>)
    requires xs != [] && IsSubsequence(zs, xs[1..])
    ensures IsSubsequence(zs, xs)
    decreases |xs|, 0
  {
    if zs != [] && zs[0] == xs[0] {
      SubsequenceDropHead(zs, xs[1..]);
    }
  }

  /** Leaving out the first element of a subsequence keeps it one. */
  lemma {:induction false} SubsequenceDropHead<T>(zs: seq<T>, xs: seq<T>)
    requires zs != [] && IsSubsequence(zs, xs)
    ensures IsSubsequence(zs[1..], xs)
    decreases |xs|, 1
  {
    assert xs != [];
    if zs[0] == xs[0] {
      assert IsSubsequence(zs[1..], xs[1..]);
      SubsequenceCons(zs[1..], xs);
    } else {
      assert IsSubsequence(zs, xs[1..]);
      SubsequenceDropHead(zs, xs[1..]);
      SubsequenceCons(zs[1..], xs);
    }
  }

  /** The documents of a collection in the order the store streams them: ascending document id. */
  ghost function Streamed(m: map<string, Despesa>): (docs: seq<Doc>)
  {
    var ids := Sorted(m.Keys);
    seq(|ids|, i requires 0 <= i < |ids| => Doc(ids[i], m[ids[i]]))
  }

  /** The user's expenses in the order the store streams them. */
  method Stream(db: Db, userId: string) returns (docs: seq<Doc>)
    ensures docs == Streamed(db.DespesasOf(userId))
    ensures forall i, j :: 0 <= i < j < |docs| ==> StrLt(docs[i].id, docs[j].id)
    ensures forall i :: 0 <= i < |docs| ==>
      docs[i].id in db.DespesasOf(userId) && docs[i].despesa == db.DespesasOf(userId)[docs[i].id]
    ensures forall id :: id in db.DespesasOf(userId) ==> exists i :: 0 <= i < |docs| && docs[i].id == id
  {
    var mine := db.DespesasOf(userId);
    var ids := SortedIds(mine.Keys);
    docs := seq(|ids|, i requires 0 <= i < |ids| => Doc(ids[i], mine[ids[i]]));
    forall id | id in mine
      ensures exists i :: 0 <= i < |docs| && docs[i].id == id
    {
      var i :| 0 <= i < |ids| && ids[i] == id;
      assert docs[i].id == id;
    }
  }

  /** A date filter is supplied, so the query carries a range clause on `data`. */
  predicate RangeQuery(f: Filtros) { f.dataInicio.Some? || f.dataFim.Some? }

  /** The dates of the dated expenses of `m`: the documents a range query on `data` can return. */
  function DatesOf(m: map<string, Despesa>): (date: map<string, DateTime>)
    ensures date.Keys <= m.Keys
    ensures forall id :: id in date <==> id in m && m[id].data.Some?
    ensures forall id :: id in date ==> m[id].data == Some(date[id])
  {
    map id | id in m && m[id].data.Some? :: m[id].data.value
  }

  /** The documents are streamed by date and then by id, as a range query on `data` streams them. */
  predicate DateSorted(docs: seq<Doc>)
  {
    forall i, j :: 0 <= i < j < |docs| ==>
      docs[i].despesa.data.Some? && docs[j].despesa.data.Some? &&
      KeyLt(docs[i].despesa.data.value, docs[i].id, docs[j].despesa.data.value, docs[j].id)
  }

  /** The dated expenses of a collection in the order a range query on `data` streams them. */
  ghost function StreamedByDate(m: map<string, Despesa>): (docs: seq<Doc>)
  {
    var ids := ByDateListing(DatesOf(m));
    seq(|ids|, i requires 0 <= i < |ids| => Doc(ids[i], m[ids[i]]))
  }

  /** The user's dated expenses in the order a range query on `data` streams them. */
  method StreamByDate(db: Db, userId: string) returns (docs: seq<Doc>)
    ensures docs == StreamedByDate(db.DespesasOf(userId))
    ensures DateSorted(docs)
    ensures forall i :: 0 <= i < |docs| ==>
      docs[i].id in db.DespesasOf(userId) && docs[i].despesa == db.DespesasOf(userId)[docs[i].id]
    ensures forall id :: id in db.DespesasOf(userId) && db.DespesasOf(userId)[id].data.Some? ==>
      exists i :: 0 <= i < |docs| && docs[i].id == id
  {
    var mine := db.DespesasOf(userId);
    var date := DatesOf(mine);
    var ids := SortedByDate(date);
    docs := seq(|ids|, i requires 0 <= i < |ids| => Doc(ids[i], mine[ids[i]]));
    forall i, j | 0 <= i < j < |docs|
      ensures docs[i].despesa.data.Some? && docs[j].despesa.data.Some? &&
        KeyLt(docs[i].despesa.data.value, docs[i].id, docs[j].despesa.data.value, docs[j].id)
    {
      assert KeyLt(date[ids[i]], ids[i], date[ids[j]], ids[j]);
    }
    forall id | id in mine && mine[id].data.Some?
      ensures exists i :: 0 <= i < |docs| && docs[i].id == id
    {
      assert id in date;
      var i :| 0 <= i < |ids| && ids[i] == id;
      assert docs[i].id == id;
    }
  }

  /** What the query streams before the in-memory filters: by date when a date filter is supplied, else by id. */
  ghost function QueryStream(m: map<string, Despesa>, f: Filtros): seq<Doc>
  {
    if RangeQuery(f) then StreamedByDate(m) else Streamed(m)
  }

  /**
   * The search against the store: every matching expense of the user,
   * in document-id order, or by date and then id when a date filter is supplied.
   */
  method Pesquisar(db: Db, userId: string, f: Filtros) returns (r: seq<Doc>)
    ensures r == PesquisaAvancada(QueryStream(db.DespesasOf(userId), f), f)
    ensures !RangeQuery(f) ==> forall i, j :: 0 <= i < j < |r| ==> StrLt(r[i].id, r[j].id)
    ensures RangeQuery(f) ==> DateSorted(r)
    ensures forall x :: x in r <==>
      x.id in db.DespesasOf(userId) && x.despesa == db.DespesasOf(userId)[x.id] && Matches(x.despesa, f)
  {
    var docs;
    if RangeQuery(f) {
      docs := StreamByDate(db, userId);
    } else {
      docs := Stream(db, userId);
    }
    r := PesquisaAvancada(docs, f);
    PesquisaKeepsOrder(docs, f);
    if RangeQuery(f) {
      DateSortedSubsequence(r, docs);
    } else {
      SortedSubsequence(r, docs);
    }
    forall x: Doc | x.id in db.DespesasOf(userId) && x.despesa == db.DespesasOf(userId)[x.id] && Matches(x.despesa, f)
      ensures x in r
    {
      var i :| 0 <= i < |docs| && docs[i].id == x.id;
      assert docs[i] == x;
    }
  }

  /** `a` occurs in `xs` strictly before an occurrence of `b`. */
  ghost predicate PairIn<T>(xs: seq<T>, a: T, b: T)
  {
    exists k, l :: 0 <= k < l < |xs| && xs[k] == a && xs[l] == b
  }

  lemma PairInTail<T>(xs: seq<T>, a: T, b: T)
    requires xs != [] && PairIn(xs[1..], a, b)
    ensures PairIn(xs, a, b)
  {
    var k, l :| 0 <= k < l < |xs[1..]| && xs[1..][k] == a && xs[1..][l] == b;
    assert xs[k + 1] == a && xs[l + 1] == b;
  }

  lemma PairInHead<T>(xs: seq<T>, b: T)
    requires xs != [] && b in xs[1..]
    ensures PairIn(xs, xs[0], b)
  {
    var l :| 0 <= l < |xs[1..]| && xs[1..][l] == b;
    assert xs[l + 1] == b;
  }

  /** A subsequence keeps the relative order of the elements it keeps. */
  lemma {:induction false} SubsequencePairs<T>(ys: seq<T>, xs: seq<T>)
    requires IsSubsequence(ys, xs)
    ensures forall i, j :: 0 <= i < j < |ys| ==> PairIn(xs, ys[i], ys[j])
    decreases |xs|
  {
    if ys == [] || xs == [] {
    } else if ys[0] == xs[0] {
      var ys', xs' := ys[1..], xs[1..];
      SubsequencePairs(ys', xs');
      SubsequenceMembers(ys', xs');
      forall i, j | 0 <= i < j < |ys|
        ensures PairIn(xs, ys[i], ys[j])
      {
        assert ys[j] == ys'[j - 1];
        if i == 0 {
          var l :| 0 <= l < |xs'| && xs'[l] == ys'[j - 1];
          PairInHead(xs, ys[j]);
        } else {
          assert ys[i] == ys'[i - 1];
          PairInTail(xs, ys[i], ys[j]);
        }
      }
    } else {
      SubsequencePairs(ys, xs[1..]);
      forall i, j | 0 <= i < j < |ys|
        ensures PairIn(xs, ys[i], ys[j])
      {
        PairInTail(xs, ys[i], ys[j]);
      }
    }
  }

  /** A subsequence of an id-sorted list is id-sorted. */
  lemma SortedSubsequence(ys: seq<Doc>, xs: seq<Doc>)
    requires IsSubsequence(ys, xs)
    requires forall i, j :: 0 <= i < j < |xs| ==> StrLt(xs[i].id, xs[j].id)
    ensures forall i, j :: 0 <= i < j < |ys| ==> StrLt(ys[i].id, ys[j].id)
  {
    SubsequencePairs(ys, xs);
    forall i, j | 0 <= i < j < |ys|
      ensures StrLt(ys[i].id, ys[j].id)
    {
      var k, l :| 0 <= k < l < |xs| && xs[k] == ys[i] && xs[l] == ys[j];
    }
  }

  /** A subsequence of a date-sorted list is date-sorted. */
  lemma DateSortedSubsequence(ys: seq<Doc>, xs: seq<Doc>)
    requires IsSubsequence(ys, xs)
    requires DateSorted(xs)
    ensures DateSorted(ys)
  {
    SubsequencePairs(ys, xs);
    forall i, j | 0 <= i < j < |ys|
      ensures ys[i].despesa.data.Some? && ys[j].despesa.data.Some? &&
        KeyLt(ys[i].despesa.data.value, ys[i].id, ys[j].despesa.data.value, ys[j].id)
    {
      var a, b := ys[i], ys[j];
      var k, l :| 0 <= k < l < |xs| && xs[k] == a && xs[l] == b;
    }
  }

  lemma {:induction false} SubsequenceMembers<T>(ys: seq<T>, xs: seq<T>)
    requires IsSubsequence(ys, xs)
    ensures forall j :: 0 <= j < |ys| ==> exists k :: 0 <= k < |xs| && xs[k] == ys[j]
    decreases |xs|
  {
    if ys != [] && xs != [] {
      if ys[0] == xs[0] {
        SubsequenceMembers(ys[1..], xs[1..]);
        forall j | 0 < j < |ys|
          ensures exists k :: 0 <= k < |xs| && xs[k] == ys[j]
        {
          assert ys[j] == ys[1..][j - 1];
          var k :| 0 <= k < |xs[1..]| && xs[1..][k] == ys[j];
          assert xs[k + 1] == ys[j];
        }
        assert xs[0] == ys[0];
      } else {
        SubsequenceMembers(ys, xs[1..]);
        forall j | 0 <= j < |ys|
          ensures exists k :: 0 <= k < |xs| && xs[k] == ys[j]
        {
          var k :| 0 <= k < |xs[1..]| && xs[1..][k] == ys[j];
          assert xs[k + 1] == ys[j];
        }
      }
    }
  }
}
