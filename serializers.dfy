/**
 * The checks on registration and login requests, and the JSON form of a
 * user (`UserSerializer`). Request fields are JSON values: a missing field
 * is reported by name, a present one is checked only when it is truthy.
 */
module Serializers {
  import opened Common
  import opened Records
  import opened Users

  /** A validation outcome: the validated data, the `ValidationError`'s messages, or a `TypeError`. */
  datatype Checked = Passed(data: map<string, Value>) | Rejected(errors: map<string, string>) | TypeError

  const Obrigatorio := "Este campo é obrigatório."
  const EmailInvalido := "Email inválido."
  const SenhaCurta := "A senha deve ter pelo menos 6 caracteres."

  const RegistrationFields: seq<string> := ["email", "password", "nome"]
  const LoginFields: seq<string> := ["email", "password"]

  /** Python truthiness of a JSON value. */
  predicate Truthy(v: Value)
  {
    match v
    case VNull => false
    case VStr(s) => s != ""
    case VInt(i) => i != 0
    case VReal(r) => r != 0.0
    case VBool(b) => b
    case VTime(_) => true
    case VList(items) => items != []
    case VMap(entries) => entries != map[]
  }

  /** `'@' in v`: a substring test on text, membership on a list or a dict; None where Python raises. */
  function HasAt(v: Value): (r: Option<bool>)
    ensures v.VStr? ==> r == Some('@' in v.s)
  {
    match v
    case VStr(s) => Some('@' in s)
    case VList(items) => Some(VStr("@") in items)
    case VMap(entries) => Some("@" in entries)
    case _ => None
  }

  /** `len(v)`; None where Python raises. */
  function Len(v: Value): (r: Option<nat>)
    ensures v.VStr? ==> r == Some(|v.s|)
  {
    match v
    case VStr(s) => Some(|s|)
    case VList(items) => Some(|items|)
    case VMap(entries) => Some(|entries|)
    case _ => None
  }

  /** One "required" message for each of `fields` absent from `data`. */
  function Missing(data: map<string, Value>, fields: seq<string>): (errors: map<string, string>)
    ensures forall f :: f in errors <==> f in fields && f !in data
    ensures forall f :: f in errors ==> errors[f] == Obrigatorio
  {
    map f | f in fields && f !in data :: Obrigatorio
  }

  /** The format checks on present fields: a message per bad field, or None where Python raises. */
  function FormatErrors(email: Value, password: Value): (r: Option<map<string, string>>)
    ensures r.Some? ==> r.value.Keys <= {"email", "password"}
  {
    var at := if Truthy(email) then HasAt(email) else Some(true);
    var len := if Truthy(password) then Len(password) else Some(6);
    if at.None? || len.None? then None
    else
      Some((if at.value then map[] else map["email" := EmailInvalido]) +
           (if len.value >= 6 then map[] else map["password" := SenhaCurta]))
  }

  /** `validate_registration`. */
  function Registration(data: map<string, Value>): Checked
  {
    var missing := Missing(data, RegistrationFields);
    if missing != map[] then Rejected(missing)
    else
      var errors := FormatErrors(data["email"], data["password"]);
      if errors.None? then TypeError
      else if errors.value != map[] then Rejected(errors.value)
      else Passed(map["email" := data["email"], "password" := data["password"], "nome" := data["nome"]])
  }

  /** The "required" messages for `fields`, added field by field. */
  method MissingFields(data: map<string, Value>, fields: seq<string>) returns (errors: map<string, string>)
    ensures errors == Missing(data, fields)
  {
    errors := map[];
    for i := 0 to |fields|
      invariant errors == Missing(data, fields[..i])
    {
      if fields[i] !in data {
        errors := errors[fields[i] := Obrigatorio];
      }
      assert errors == Missing(data, fields[..i + 1]);
    }
    assert fields[..|fields|] == fields;
  }

  /** The format checks of `validate_registration`, one field after the other. */
  method CheckFormat(email: Value, password: Value) returns (r: Option<map<string, string>>)
    ensures r == FormatErrors(email, password)
  {
    var emailErrors: map<string, string> := map[];
    if Truthy(email) {
      var at := HasAt(email);
      if at.None? {
        return None;
      }
      if !at.value {
        emailErrors := map["email" := EmailInvalido];
      }
    }
    var passwordErrors: map<string, string> := map[];
    if Truthy(password) {
      var len := Len(password);
      if len.None? {
        return None;
      }
      if len.value < 6 {
        passwordErrors := map["password" := SenhaCurta];
      }
    }
    r := Some(emailErrors + passwordErrors);
  }

  /** `validate_registration`, filling the error dictionary field by field. */
  method ValidateRegistration(data: map<string, Value>) returns (r: Checked)
    ensures r == Registration(data)
  {
    var errors := MissingFields(data, RegistrationFields);
    if errors != map[] {
      return Rejected(errors);
    }
    var formato := CheckFormat(data["email"], data["password"]);
    if formato.None? {
      return TypeError;
    }
    if formato.value != map[] {
      return Rejected(formato.value);
    }
    r := Passed(map["email" := data["email"], "password" := data["password"], "nome" := data["nome"]]);
  }

  /** With a field missing, the error lists exactly the missing fields and no format is checked. */
  lemma RegistrationReportsMissing(data: map<string, Value>)
    requires exists f :: f in RegistrationFields && f !in data
    ensures Registration(data).Rejected?
    ensures forall f :: f in Registration(data).errors <==> f in RegistrationFields && f !in data
    ensures forall f :: f in Registration(data).errors ==> Registration(data).errors[f] == Obrigatorio
  {
    var f :| f in RegistrationFields && f !in data;
    assert f in Missing(data, RegistrationFields);
  }

  /**
   * For text fields: the request passes iff the email is empty or holds an
   * '@' and the password is empty or has at least 6 characters; otherwise
   * both problems are reported together.
   */
  lemma RegistrationOfText(data: map<string, Value>, email: string, password: string)
    requires "email" in data && "password" in data && "nome" in data
    requires data["email"] == VStr(email) && data["password"] == VStr(password)
    ensures var emailOk := email == "" || '@' in email;
      var passwordOk := password == "" || |password| >= 6;
      (Registration(data).Passed? <==> emailOk && passwordOk) &&
      (!(emailOk && passwordOk) ==>
         Registration(data) == Rejected((if emailOk then map[] else map["email" := EmailInvalido]) +
                                        (if passwordOk then map[] else map["password" := SenhaCurta])))
  {
    assert Missing(data, RegistrationFields) == map[];
  }

  /** Empty email and password pass the format checks. */
  lemma EmptyCredentialsPass(nome: Value)
    ensures Registration(map["email" := VStr(""), "password" := VStr(""), "nome" := nome]).Passed?
  {
    var data := map["email" := VStr(""), "password" := VStr(""), "nome" := nome];
    assert Missing(data, RegistrationFields) == map[];
  }

  /** "joao" and "123" are reported together: no '@' and a short password. */
  lemma BothFormatErrorsTogether(nome: Value)
    ensures Registration(map["email" := VStr("joao"), "password" := VStr("123"), "nome" := nome]) ==
      Rejected(map["email" := EmailInvalido, "password" := SenhaCurta])
  {
    var data := map["email" := VStr("joao"), "password" := VStr("123"), "nome" := nome];
    assert Missing(data, RegistrationFields) == map[];
    RegistrationOfText(data, "joao", "123");
    assert '@' !in "joao";
  }

  /** A validated registration holds exactly email, password and nome, as sent. */
  lemma RegistrationKeepsFields(data: map<string, Value>)
    requires Registration(data).Passed?
    ensures Registration(data).data.Keys == {"email", "password", "nome"}
    ensures forall f :: f in Registration(data).data ==> f in data && Registration(data).data[f] == data[f]
  {
    assert "email" !in Missing(data, RegistrationFields);
    assert "password" !in Missing(data, RegistrationFields);
    assert "nome" !in Missing(data, RegistrationFields);
  }

  /** `validate_login`: only presence is checked, and the credentials come back unchanged. */
  method ValidateLogin(data: map<string, Value>) returns (r: Checked)
    ensures r.Rejected? <==> "email" !in data || "password" !in data
    ensures r.Rejected? ==> r.errors == Missing(data, LoginFields)
    ensures !r.Rejected? ==> r == Passed(map["email" := data["email"], "password" := data["password"]])
  {
    var errors := MissingFields(data, LoginFields);
    if errors != map[] {
      assert "email" !in data || "password" !in data by {
        var f :| f in errors;
      }
      return Rejected(errors);
    }
    assert "email" !in errors && "password" !in errors;
    r := Passed(map["email" := data["email"], "password" := data["password"]]);
  }

  /** The JSON form of a user's attributes: all of them except `password_hash`. */
  function Serialized(attrs: map<string, Value>): (d: map<string, Value>)
    ensures d.Keys == attrs.Keys - {"password_hash"}
    ensures forall k :: k in d ==> d[k] == attrs[k]
  {
    map k | k in attrs && k != "password_hash" :: attrs[k]
  }

  /** The JSON form is the stored document plus `uid`, without `password_hash`. */
  lemma SerializedIsStoredWithUid(attrs: map<string, Value>)
    requires Known <= attrs.Keys
    ensures Serialized(attrs) == (Stored(attrs) - {"password_hash"})["uid" := attrs["uid"]]
  {
    assert Serialized(attrs).Keys == ((Stored(attrs) - {"password_hash"})["uid" := attrs["uid"]]).Keys;
  }

  /**
   * `serialize`: None for no user; otherwise uid, email, nome and saldo,
   * then every other attribute except `password_hash`.
   */
  method Serialize(u: User?) returns (r: Option<map<string, Value>>)
    requires u != null ==> u.Valid()
    ensures u == null <==> r.None?
    ensures u != null ==> r == Some(Serialized(u.attrs))
    ensures u != null ==> Known <= r.value.Keys && "password_hash" !in r.value
  {
    if u == null {
      return None;
    }
    var d := map["uid" := u.attrs["uid"], "email" := u.attrs["email"], "nome" := u.attrs["nome"],
                 "saldo" := u.attrs["saldo"]];
    var pending := u.attrs.Keys;
    while pending != {}
      invariant pending <= u.attrs.Keys
      invariant d.Keys == Known + (u.attrs.Keys - pending - Known - {"password_hash"})
      invariant forall k :: k in d ==> d[k] == u.attrs[k]
      decreases pending
    {
      var k :| k in pending;
      if k !in Known && k != "password_hash" {
        d := d[k := u.attrs[k]];
      }
      pending := pending - {k};
    }
    assert d.Keys == Serialized(u.attrs).Keys;
    assert d == Serialized(u.attrs);
    r := Some(d);
  }
}
