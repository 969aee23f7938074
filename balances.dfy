/**
 * Balance snapshots (`saldos`): every movement appends a snapshot holding
 * the balance after it, and the current balance is the value of the
 * snapshot that comes first when the user's snapshots, streamed in
 * document-id order, are stably sorted on their date, newest first. An
 * undated snapshot sorts on the naive `datetime.min`, and the store's dates
 * are timezone-aware, so the sort raises TypeError as soon as it has to
 * compare the two kinds.
 */
module Balances {
  import opened Common
  import opened Calendar
  import opened Entities
  import opened Store

  /** `datetime.min`: the sort key of a snapshot without a date. */
  const MinDate := DateTime(1, 1, 1, 0)

  /** The key the snapshots are sorted on. */
  function SortKey(s: Saldo): DateTime
  {
    if s.data.Some? then s.data.value else MinDate
  }

  /** Two snapshots whose keys can be compared: both dated or both undated. */
  predicate Comparable(a: Saldo, b: Saldo) { a.data.Some? == b.data.Some? }

  /**
   * `ids` holds a dated and an undated snapshot. Two snapshots adjacent in
   * any sorted result have been compared, and some adjacent pair is of the
   * two kinds, so every sort of such a list raises.
   */
  predicate MixedDates(saldos: map<string, Saldo>, ids: set<string>)
    requires ids <= saldos.Keys
  {
    exists a, b :: a in ids && b in ids && saldos[a].data.Some? && saldos[b].data.None?
  }

  /** Ids of the snapshots of `userId`: the query on `user_id`. */
  function SnapshotsOf(saldos: map<string, Saldo>, userId: string): (ids: set<string>)
    ensures ids <= saldos.Keys
    ensures forall id :: id in ids <==> id in saldos && saldos[id].userId == userId
  {
    set id | id in saldos && saldos[id].userId == userId
  }

  /**
   * Snapshot `a` is placed no later than `b` by the stable descending sort:
   * it has the later key, or the same key and was streamed first.
   */
  predicate Precedes(saldos: map<string, Saldo>, a: string, b: string)
    requires a in saldos && b in saldos
  {
    var ka := SortKey(saldos[a]);
    var kb := SortKey(saldos[b]);
    Lt(kb, ka) || (ka == kb && StrLe(a, b))
  }

  /** `id` heads the sorted list of the snapshots `ids`. */
  predicate IsLatest(saldos: map<string, Saldo>, ids: set<string>, id: string)
    requires ids <= saldos.Keys
  {
    id in ids && forall k :: k in ids ==> Precedes(saldos, id, k)
  }

  /** The head of the sorted list is determined. */
  lemma LatestUnique(saldos: map<string, Saldo>, ids: set<string>, a: string, b: string)
    requires ids <= saldos.Keys
    requires IsLatest(saldos, ids, a) && IsLatest(saldos, ids, b)
    ensures a == b
  {
    assert Precedes(saldos, a, b) && Precedes(saldos, b, a);
    var ka := SortKey(saldos[a]);
    var kb := SortKey(saldos[b]);
    if Lt(kb, ka) {
      LeAntisymmetric(ka, kb);
    } else if Lt(ka, kb) {
      LeAntisymmetric(ka, kb);
    } else if a != b {
      StrLtAsymmetric(a, b);
    }
  }

  /** A snapshot with a later key than the best so far precedes everything walked. */
  lemma LaterKeyTakesOver(saldos: map<string, Saldo>, s: seq<string>, best: int, i: int)
    requires forall j :: 0 <= j < |s| ==> s[j] in saldos
    requires 0 <= best < i < |s|
    requires forall j :: 0 <= j < i ==> Precedes(saldos, s[best], s[j])
    requires Lt(SortKey(saldos[s[best]]), SortKey(saldos[s[i]]))
    ensures forall j :: 0 <= j <= i ==> Precedes(saldos, s[i], s[j])
  {
    var kb, ki := SortKey(saldos[s[best]]), SortKey(saldos[s[i]]);
    forall j | 0 <= j < i
      ensures Precedes(saldos, s[i], s[j])
    {
      var kj := SortKey(saldos[s[j]]);
      assert Le(kj, kb);
      LeTransitive(kj, kb, ki);
      if kj == ki {
        LeAntisymmetric(kb, ki);
      }
    }
  }

  /** A snapshot without a later key than the best so far, streamed after it, does not take over. */
  lemma EarlierStaysAhead(saldos: map<string, Saldo>, s: seq<string>, best: int, i: int)
    requires forall j :: 0 <= j < |s| ==> s[j] in saldos
    requires forall a, b :: 0 <= a < b < |s| ==> StrLt(s[a], s[b])
    requires 0 <= best < i < |s|
    requires forall j :: 0 <= j < i ==> Precedes(saldos, s[best], s[j])
    requires !Lt(SortKey(saldos[s[best]]), SortKey(saldos[s[i]]))
    ensures forall j :: 0 <= j <= i ==> Precedes(saldos, s[best], s[j])
  {
    LeTotal(SortKey(saldos[s[best]]), SortKey(saldos[s[i]]));
    assert StrLt(s[best], s[i]);
  }

  /**
   * The head of the sorted list, found the way the source finds it: walk the
   * snapshots in stream order and keep the first one with the latest key.
   * Comparing a dated key with an undated one raises.
   */
  method Latest(db: Db, ids: set<string>) returns (r: Result<Option<string>>)
    requires ids <= db.saldos.Keys
    ensures r.Err? <==> MixedDates(db.saldos, ids)
    ensures r.Err? ==> r.error.TypeError?
    ensures r.Ok? ==> (r.value.None? <==> ids == {})
    ensures r.Ok? && r.value.Some? ==> IsLatest(db.saldos, ids, r.value.value)
  {
    var streamed := SortedIds(ids);
    if |streamed| == 0 {
      assert forall x :: x !in ids;
      return Ok(None);
    }
    var best := 0;
    var i := 1;
    assert forall j :: 0 <= j < |streamed| ==> streamed[j] in db.saldos by {
      forall j | 0 <= j < |streamed|
        ensures streamed[j] in db.saldos
      {
        assert streamed[j] in ids;
      }
    }
    while i < |streamed|
      invariant 1 <= i <= |streamed| && 0 <= best < i
      invariant forall j :: 0 <= j < i ==> Precedes(db.saldos, streamed[best], streamed[j])
      invariant forall j :: 0 <= j < i ==> Comparable(db.saldos[streamed[j]], db.saldos[streamed[0]])
    {
      var a, b := streamed[best], streamed[i];
      if !Comparable(db.saldos[a], db.saldos[b]) {
        assert a in ids && b in ids;
        if db.saldos[a].data.Some? {
          assert MixedDates(db.saldos, ids) by { assert db.saldos[b].data.None?; }
        } else {
          assert MixedDates(db.saldos, ids) by { assert db.saldos[b].data.Some? && db.saldos[a].data.None?; }
        }
        return Err(TypeError("can't compare offset-naive and offset-aware datetimes"));
      }
      if Lt(SortKey(db.saldos[a]), SortKey(db.saldos[b])) {
        LaterKeyTakesOver(db.saldos, streamed, best, i);
        best := i;
      } else {
        EarlierStaysAhead(db.saldos, streamed, best, i);
      }
      i := i + 1;
    }
    r := Ok(Some(streamed[best]));
    forall k | k in ids
      ensures Precedes(db.saldos, streamed[best], k)
      ensures Comparable(db.saldos[k], db.saldos[streamed[0]])
    {
      var j :| 0 <= j < |streamed| && streamed[j] == k;
    }
  }

  /** The value of the head of the sorted list of snapshots `ids`; 0.0 when there are none. */
  ghost function HeadValue(saldos: map<string, Saldo>, ids: set<string>): real
    requires ids <= saldos.Keys
  {
    if exists id :: IsLatest(saldos, ids, id) then
      var id :| IsLatest(saldos, ids, id);
      saldos[id].valor
    else 0.0
  }

  /** The current balance of `userId`. */
  ghost function Balance(saldos: map<string, Saldo>, userId: string): real
  {
    HeadValue(saldos, SnapshotsOf(saldos, userId))
  }

  /** Sorts the snapshots `ids` and reads the head's value, 0.0 when the list is empty. */
  method HeadValor(db: Db, ids: set<string>) returns (r: Result<real>)
    requires ids <= db.saldos.Keys
    ensures r.Err? <==> MixedDates(db.saldos, ids)
    ensures r.Err? ==> r.error.TypeError?
    ensures r.Ok? ==> r.value == HeadValue(db.saldos, ids)
    ensures ids == {} ==> r == Ok(0.0)
    ensures r.Ok? && ids != {} ==> exists id :: IsLatest(db.saldos, ids, id) && r.value == db.saldos[id].valor
  {
    var head := Latest(db, ids);
    if head.Err? {
      return Err(head.error);
    }
    if head.value.None? {
      return Ok(0.0);
    }
    var id := head.value.value;
    r := Ok(db.saldos[id].valor);
    forall other | IsLatest(db.saldos, ids, other)
      ensures other == id
    {
      LatestUnique(db.saldos, ids, other, id);
    }
  }

  /** `SaldoService.get_saldo_atual`. */
  method GetSaldoAtual(db: Db, userId: string) returns (r: Result<real>)
    ensures r.Err? <==> MixedDates(db.saldos, SnapshotsOf(db.saldos, userId))
    ensures r.Err? ==> r.error.TypeError?
    ensures r.Ok? ==> r.value == Balance(db.saldos, userId)
    ensures SnapshotsOf(db.saldos, userId) == {} ==> r == Ok(0.0)
    ensures r.Ok? && SnapshotsOf(db.saldos, userId) != {} ==>
      exists id :: IsLatest(db.saldos, SnapshotsOf(db.saldos, userId), id) && r.value == db.saldos[id].valor
  {
    r := HeadValor(db, SnapshotsOf(db.saldos, userId));
  }

  /** The balance after a movement of kind `tipo`: income adds, expense subtracts, anything else sets. */
  function NovoSaldo(atual: real, tipo: string, valor: real): (r: real)
    ensures tipo == "receita" ==> r - atual == valor
    ensures tipo == "despesa" ==> atual - r == valor
    ensures tipo != "receita" && tipo != "despesa" ==> r == valor
  {
    if tipo == "receita" then atual + valor
    else if tipo == "despesa" then atual - valor
    else valor
  }

  /** An income followed by an expense of the same amount leaves the balance where it was. */
  lemma ReceitaThenDespesaRestores(atual: real, valor: real)
    ensures NovoSaldo(NovoSaldo(atual, "receita", valor), "despesa", valor) == atual
  {
  }

  /**
   * `SaldoService.registrar_movimentacao`: appends a snapshot under the
   * store-generated `freshId`, dated `now`, recording the balance before
   * and after the movement. Reading the current balance raises when the
   * user has both dated and undated snapshots, and then nothing is written.
   */
  method RegistrarMovimentacao(db: Db, userId: string, valor: real, tipo: string,
                               referenciaId: string, descricao: string, now: DateTime, freshId: string)
    returns (r: Result<Saldo>)
    requires freshId !in db.saldos
    modifies db`saldos
    ensures r.Err? <==> MixedDates(old(db.saldos), SnapshotsOf(old(db.saldos), userId))
    ensures r.Err? ==> r.error.TypeError? && db.saldos == old(db.saldos)
    ensures r.Ok? ==>
      var saldo := r.value;
      saldo.userId == userId && saldo.data == Some(now) && saldo.tipoMovimentacao == tipo &&
      saldo.referenciaId == referenciaId && saldo.descricao == descricao &&
      saldo.saldoAnterior == Balance(old(db.saldos), userId) &&
      saldo.valor == NovoSaldo(saldo.saldoAnterior, tipo, valor) &&
      db.saldos == old(db.saldos)[freshId := saldo]
  {
    var atual := GetSaldoAtual(db, userId);
    if atual.Err? {
      return Err(atual.error);
    }
    var novo := NovoSaldo(atual.value, tipo, valor);
    var saldo := Saldo(userId, novo, Some(now), tipo, referenciaId, atual.value, descricao);
    db.saldos := db.saldos[freshId := saldo];
    r := Ok(saldo);
  }

  /**
   * A snapshot dated after every earlier snapshot of its user becomes the
   * current balance: reading the balance back after a movement gives the
   * new balance, and the read succeeds when the earlier snapshots were dated.
   */
  lemma NewSnapshotIsCurrent(saldos: map<string, Saldo>, freshId: string, s: Saldo)
    requires freshId !in saldos && s.data.Some?
    requires forall id :: id in saldos && saldos[id].userId == s.userId ==> Lt(SortKey(saldos[id]), s.data.value)
    ensures Balance(saldos[freshId := s], s.userId) == s.valor
    ensures (forall id :: id in saldos && saldos[id].userId == s.userId ==> saldos[id].data.Some?) ==>
      !MixedDates(saldos[freshId := s], SnapshotsOf(saldos[freshId := s], s.userId))
  {
    var after := saldos[freshId := s];
    var ids := SnapshotsOf(after, s.userId);
    forall k | k in ids
      ensures Precedes(after, freshId, k)
    {
      if k != freshId {
        assert k in saldos && saldos[k].userId == s.userId;
        StrLtTotal(freshId, k);
      }
    }
    assert IsLatest(after, ids, freshId);
    forall id | IsLatest(after, ids, id)
      ensures id == freshId
    {
      LatestUnique(after, ids, id, freshId);
    }
  }

  /**
   * A dated snapshot recorded beside an undated one of the same user makes
   * the balance unreadable.
   */
  lemma DatedBesideUndatedMixes(saldos: map<string, Saldo>, freshId: string, s: Saldo, undated: string)
    requires freshId !in saldos && s.data.Some?
    requires undated in saldos && saldos[undated].userId == s.userId && saldos[undated].data.None?
    ensures MixedDates(saldos[freshId := s], SnapshotsOf(saldos[freshId := s], s.userId))
  {
    var after := saldos[freshId := s];
    assert freshId in SnapshotsOf(after, s.userId) && undated in SnapshotsOf(after, s.userId);
    assert after[freshId].data.Some? && after[undated].data.None?;
  }

  /** Once unreadable, a user's balance stays so whatever snapshot is added. */
  lemma MixedPersists(saldos: map<string, Saldo>, freshId: string, s: Saldo, userId: string)
    requires freshId !in saldos
    requires MixedDates(saldos, SnapshotsOf(saldos, userId))
    ensures MixedDates(saldos[freshId := s], SnapshotsOf(saldos[freshId := s], userId))
  {
    var after := saldos[freshId := s];
    var a, b :| a in SnapshotsOf(saldos, userId) && b in SnapshotsOf(saldos, userId) &&
      saldos[a].data.Some? && saldos[b].data.None?;
    assert a in SnapshotsOf(after, userId) && b in SnapshotsOf(after, userId);
    assert after[a] == saldos[a] && after[b] == saldos[b];
  }

  /** A snapshot of one user leaves every other user's balance alone, readable or not. */
  lemma OtherUserUnaffected(saldos: map<string, Saldo>, freshId: string, s: Saldo, userId: string)
    requires freshId !in saldos && userId != s.userId
    ensures Balance(saldos[freshId := s], userId) == Balance(saldos, userId)
    ensures MixedDates(saldos[freshId := s], SnapshotsOf(saldos[freshId := s], userId)) ==
      MixedDates(saldos, SnapshotsOf(saldos, userId))
  {
    var after := saldos[freshId := s];
    assert SnapshotsOf(after, userId) == SnapshotsOf(saldos, userId);
    var ids := SnapshotsOf(saldos, userId);
    forall id | IsLatest(saldos, ids, id) || IsLatest(after, ids, id)
      ensures IsLatest(saldos, ids, id) && IsLatest(after, ids, id)
    {
    }
    if exists id :: IsLatest(saldos, ids, id) {
      var head :| IsLatest(saldos, ids, head);
      forall id | IsLatest(saldos, ids, id)
        ensures id == head
      {
        LatestUnique(saldos, ids, id, head);
      }
    }
  }
}
