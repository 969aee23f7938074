/**
 * The order in which the store streams the result of a query with a range
 * filter on `data`: ascending date first, then ascending document id among
 * documents of the same date. Queries with equality filters alone stream in
 * document-id order (Common.SortedIds).
 */
module DateOrder {
  import opened Common
  import opened Calendar

  /** Document `a` dated `da` is streamed before document `b` dated `db`. */
  predicate KeyLt(da: DateTime, a: string, db: DateTime, b: string)
  {
    Lt(da, db) || (da == db && StrLt(a, b))
  }

  lemma KeyLtIrreflexive(d: DateTime, a: string)
    ensures !KeyLt(d, a, d, a)
  {
    StrLtIrreflexive(a);
  }

  lemma KeyLtTransitive(da: DateTime, a: string, db: DateTime, b: string, dc: DateTime, c: string)
    requires KeyLt(da, a, db, b) && KeyLt(db, b, dc, c)
    ensures KeyLt(da, a, dc, c)
  {
    if Lt(da, db) && Lt(db, dc) {
      LeTransitive(da, db, dc);
      if da == dc {
        LeAntisymmetric(da, db);
      }
    } else if !Lt(da, db) && !Lt(db, dc) {
      StrLtTransitive(a, b, c);
    }
  }

  /** Two different documents are always streamed in one order or the other. */
  lemma KeyLtTotal(da: DateTime, a: string, db: DateTime, b: string)
    requires a != b
    ensures KeyLt(da, a, db, b) || KeyLt(db, b, da, a)
  {
    LeTotal(da, db);
    StrLtTotal(a, b);
  }

  lemma KeyLtAsymmetric(da: DateTime, a: string, db: DateTime, b: string)
    requires KeyLt(da, a, db, b)
    ensures !KeyLt(db, b, da, a)
  {
    if KeyLt(db, b, da, a) {
      KeyLtTransitive(da, a, db, b, da, a);
      KeyLtIrreflexive(da, a);
    }
  }

  /** `ids` are documents of `date`, each streamed before the ones after it. */
  predicate ByDate(date: map<string, DateTime>, ids: seq<string>)
  {
    (forall i :: 0 <= i < |ids| ==> ids[i] in date) &&
    forall i, j :: 0 <= i < j < |ids| ==> KeyLt(date[ids[i]], ids[i], date[ids[j]], ids[j])
  }

  /** `m` is the document of `xs` streamed first. */
  predicate IsEarliest(date: map<string, DateTime>, m: string, xs: set<string>)
    requires xs <= date.Keys
  {
    m in xs && forall x :: x in xs && x != m ==> KeyLt(date[m], m, date[x], x)
  }

  /** Every non-empty set of documents has one streamed first. */
  lemma {:induction false} EarliestExists(date: map<string, DateTime>, xs: set<string>)
    requires xs != {} && xs <= date.Keys
    ensures exists m :: IsEarliest(date, m, xs)
    decreases xs
  {
    var x :| x in xs;
    if xs == {x} {
      assert IsEarliest(date, x, xs);
    } else {
      EarliestExists(date, xs - {x});
      var m :| IsEarliest(date, m, xs - {x});
      KeyLtTotal(date[m], m, date[x], x);
      if KeyLt(date[x], x, date[m], m) {
        forall y | y in xs && y != x
          ensures KeyLt(date[x], x, date[y], y)
        {
          if y != m {
            KeyLtTransitive(date[x], x, date[m], m, date[y], y);
          }
        }
        assert IsEarliest(date, x, xs);
      } else {
        assert IsEarliest(date, m, xs);
      }
    }
  }

  /** The documents of `xs` in the order the store streams them. */
  ghost function Listing(date: map<string, DateTime>, xs: set<string>): (r: seq<string>)
    requires xs <= date.Keys
    ensures ByDate(date, r)
    ensures forall x :: x in r <==> x in xs
    decreases xs
  {
    if xs == {} then []
    else
      EarliestExists(date, xs);
      var m :| IsEarliest(date, m, xs);
      var rest := Listing(date, xs - {m});
      assert forall j :: 0 <= j < |rest| ==> KeyLt(date[m], m, date[rest[j]], rest[j]) by {
        forall j | 0 <= j < |rest|
          ensures KeyLt(date[m], m, date[rest[j]], rest[j])
        {
          assert rest[j] in xs - {m};
        }
      }
      [m] + rest
  }

  /** The result of a range query over the documents dated by `date`. */
  ghost function ByDateListing(date: map<string, DateTime>): (r: seq<string>)
    ensures ByDate(date, r)
    ensures forall x :: x in r <==> x in date
  {
    Listing(date, date.Keys)
  }

  /** A set of documents has exactly one listing in stream order. */
  lemma {:induction false} ByDateUnique(date: map<string, DateTime>, a: seq<string>, b: seq<string>)
    requires ByDate(date, a) && ByDate(date, b)
    requires forall x :: x in a <==> x in b
    ensures a == b
    decreases |a|
  {
    assert a == [] <==> b == [] by {
      if a != [] {
        assert a[0] in b;
      }
      if b != [] {
        assert b[0] in a;
      }
    }
    if a != [] {
      assert a[0] == b[0] by {
        assert a[0] in b && b[0] in a;
        var i :| 0 <= i < |b| && b[i] == a[0];
        var j :| 0 <= j < |a| && a[j] == b[0];
        if a[0] != b[0] {
          assert KeyLt(date[b[0]], b[0], date[a[0]], a[0]);
          KeyLtAsymmetric(date[b[0]], b[0], date[a[0]], a[0]);
        }
      }
      forall x
        ensures x in a[1..] <==> x in b[1..]
      {
        if x in a[1..] {
          var i :| 1 <= i < |a| && a[i] == x;
          KeyLtIrreflexive(date[x], x);
          assert x in a && x in b;
          var k :| 0 <= k < |b| && b[k] == x;
          assert k != 0;
          assert b[1..][k - 1] == x;
        }
        if x in b[1..] {
          var i :| 1 <= i < |b| && b[i] == x;
          KeyLtIrreflexive(date[x], x);
          assert x in b && x in a;
          var k :| 0 <= k < |a| && a[k] == x;
          assert k != 0;
          assert a[1..][k - 1] == x;
        }
      }
      ByDateUnique(date, a[1..], b[1..]);
      assert a == [a[0]] + a[1..] && b == [b[0]] + b[1..];
    }
  }

  /** The document of the non-empty `xs` streamed first. */
  method EarliestOf(date: map<string, DateTime>, xs: set<string>) returns (m: string)
    requires xs != {} && xs <= date.Keys
    ensures IsEarliest(date, m, xs)
  {
    m :| m in xs;
    var rest := xs - {m};
    while rest != {}
      invariant rest <= xs && m in xs - rest
      invariant IsEarliest(date, m, xs - rest)
      decreases rest
    {
      var x :| x in rest;
      KeyLtTotal(date[m], m, date[x], x);
      if KeyLt(date[x], x, date[m], m) {
        forall y | y in xs - rest && y != x
          ensures KeyLt(date[x], x, date[y], y)
        {
          if y != m {
            KeyLtTransitive(date[x], x, date[m], m, date[y], y);
          }
        }
        m := x;
      }
      rest := rest - {x};
    }
  }

  /** Lists the documents dated by `date` in stream order: earliest first, repeatedly. */
  method SortedByDate(date: map<string, DateTime>) returns (ids: seq<string>)
    ensures ids == ByDateListing(date)
    ensures ByDate(date, ids)
    ensures forall x :: x in ids <==> x in date
  {
    ids := [];
    var rest := date.Keys;
    while rest != {}
      invariant rest <= date.Keys
      invariant forall x :: x in ids <==> x in date.Keys - rest
      invariant ByDate(date, ids)
      invariant forall i, y :: 0 <= i < |ids| && y in rest ==> KeyLt(date[ids[i]], ids[i], date[y], y)
      decreases rest
    {
      var x := EarliestOf(date, rest);
      ids := ids + [x];
      rest := rest - {x};
    }
    ByDateUnique(date, ids, ByDateListing(date));
  }
}
