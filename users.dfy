/**
 * The user record of the authentication backend: a plain object whose
 * attributes are `uid`, `email`, `nome`, `saldo` and any extra keyword
 * argument, stored in the `users` collection without its `uid`.
 */
module Users {
  import opened Common
  import opened Records

  /** The attributes every user is constructed with. */
  const Known: set<string> := {"uid", "email", "nome", "saldo"}

  /** The stored fields `from_dict` reads by name. */
  const Named: set<string> := {"email", "nome", "saldo"}

  /** An optional argument: its value when passed, `default` otherwise. */
  function Arg(v: Option<Value>, default: Value): (r: Value)
    ensures v.Some? ==> r == v.value
    ensures v.None? ==> r == default
  {
    if v.Some? then v.value else default
  }

  /** `dict.get(key, default)`. */
  function GetOr(d: map<string, Value>, key: string, default: Value): (r: Value)
    ensures key in d ==> r == d[key]
    ensures key !in d ==> r == default
  {
    if key in d then d[key] else default
  }

  /** The document `to_dict` writes for the attributes `attrs`: all of them except `uid`. */
  function Stored(attrs: map<string, Value>): (d: map<string, Value>)
    ensures d.Keys == attrs.Keys - {"uid"}
    ensures forall k :: k in d ==> d[k] == attrs[k]
  {
    map k | k in attrs && k != "uid" :: attrs[k]
  }

  /**
   * The attributes `from_dict(d, uid)` gives: `email` and `nome` from the
   * document (None when missing), `saldo` from it or 0.0, `uid` from the
   * argument, and then every other key of the document, a stored `uid`
   * included.
   */
  function Loaded(d: map<string, Value>, uid: Value): (attrs: map<string, Value>)
    ensures attrs.Keys == Known + d.Keys
    ensures attrs["uid"] == GetOr(d, "uid", uid)
    ensures attrs["email"] == GetOr(d, "email", VNull) && attrs["nome"] == GetOr(d, "nome", VNull)
    ensures attrs["saldo"] == GetOr(d, "saldo", VReal(0.0))
    ensures forall k :: k in d ==> attrs[k] == d[k]
  {
    Initial(Some(uid), Some(GetOr(d, "email", VNull)), Some(GetOr(d, "nome", VNull)),
            Some(GetOr(d, "saldo", VReal(0.0))))
    + map k | k in d && k !in Named :: d[k]
  }

  /** The four attributes the constructor sets from its named parameters. */
  function Initial(uid: Option<Value>, email: Option<Value>, nome: Option<Value>, saldo: Option<Value>)
    : (attrs: map<string, Value>)
    ensures attrs.Keys == Known
  {
    map["uid" := Arg(uid, VNull), "email" := Arg(email, VNull), "nome" := Arg(nome, VNull),
        "saldo" := Arg(saldo, VReal(0.0))]
  }

  /** Reading back what `to_dict` wrote, under the user's `uid`, gives the same attributes. */
  lemma LoadedStored(attrs: map<string, Value>)
    requires Known <= attrs.Keys
    ensures Loaded(Stored(attrs), attrs["uid"]) == attrs
  {
    assert Loaded(Stored(attrs), attrs["uid"]).Keys == attrs.Keys;
  }

  /** A user as an object with mutable attributes (`__dict__`). */
  class User {
    var attrs: map<string, Value>

    ghost predicate Valid()
      reads this
    {
      Known <= attrs.Keys
    }

    /**
     * `User(uid, email, nome, saldo, **kwargs)`: a missing argument is None
     * (`saldo` 0.0), and every extra keyword becomes an attribute. The
     * extra keywords cannot be named like the four parameters.
     */
    constructor (uid: Option<Value>, email: Option<Value>, nome: Option<Value>, saldo: Option<Value>,
                 kwargs: map<string, Value>)
      requires kwargs.Keys !! Known
      ensures Valid()
      ensures attrs.Keys == Known + kwargs.Keys
      ensures attrs["uid"] == Arg(uid, VNull) && attrs["email"] == Arg(email, VNull)
      ensures attrs["nome"] == Arg(nome, VNull) && attrs["saldo"] == Arg(saldo, VReal(0.0))
      ensures forall k :: k in kwargs ==> attrs[k] == kwargs[k]
      ensures attrs == Initial(uid, email, nome, saldo) + kwargs
    {
      attrs := Initial(uid, email, nome, saldo);
      new;
      SetAttrs(kwargs);
    }

    /** `to_dict`: `email`, `nome` and `saldo` first, then every other attribute but `uid`. */
    method ToDict() returns (d: map<string, Value>)
      requires Valid()
      ensures d == Stored(attrs)
      ensures "uid" !in d && Named <= d.Keys
    {
      d := map["email" := attrs["email"], "nome" := attrs["nome"], "saldo" := attrs["saldo"]];
      var pending := attrs.Keys;
      while pending != {}
        invariant pending <= attrs.Keys
        invariant d.Keys == Named + (attrs.Keys - pending - Known)
        invariant forall k :: k in d ==> d[k] == attrs[k]
        decreases pending
      {
        var k :| k in pending;
        if k !in Known {
          d := d[k := attrs[k]];
        }
        pending := pending - {k};
      }
      assert d.Keys == Stored(attrs).Keys;
    }
    /** `setattr(user, key, value)` for every entry of `extra`, in any order. */
    method SetAttrs(extra: map<string, Value>)
      modifies this
      ensures attrs == old(attrs) + extra
    {
      var pending := extra.Keys;
      while pending != {}
        invariant pending <= extra.Keys
        invariant attrs.Keys == old(attrs).Keys + (extra.Keys - pending)
        invariant forall k :: k in attrs ==> attrs[k] == if k in extra && k !in pending then extra[k] else old(attrs)[k]
        decreases pending
      {
        var k :| k in pending;
        attrs := attrs[k := extra[k]];
        pending := pending - {k};
      }
      var expected := old(attrs) + extra;
      assert attrs.Keys == expected.Keys;
      forall k | k in attrs
        ensures attrs[k] == expected[k]
      {
      }
    }
  }

  /**
   * `User.from_dict(d, uid)`: None without a document; otherwise a new
   * user built from the named fields, then given every other key.
   */
  method FromDict(d: Option<map<string, Value>>, uid: Value) returns (u: User?)
    ensures d.None? <==> u == null
    ensures u != null ==> fresh(u) && u.Valid() && u.attrs == Loaded(d.value, uid)
  {
    if d.None? {
      return null;
    }
    var doc := d.value;
    u := new User(Some(uid), Some(GetOr(doc, "email", VNull)), Some(GetOr(doc, "nome", VNull)),
                  Some(GetOr(doc, "saldo", VReal(0.0))), map[]);
    u.SetAttrs(map k | k in doc && k !in Named :: doc[k]);
    assert Initial(Some(uid), Some(GetOr(doc, "email", VNull)), Some(GetOr(doc, "nome", VNull)),
                   Some(GetOr(doc, "saldo", VReal(0.0)))) + map[] ==
           Initial(Some(uid), Some(GetOr(doc, "email", VNull)), Some(GetOr(doc, "nome", VNull)),
                   Some(GetOr(doc, "saldo", VReal(0.0))));
  }
}
