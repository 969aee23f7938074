/**
 * The profile screens: the initials shown in place of a photo, the header's
 * defaults, the CPF, phone and birth-date input masks of the edit form, and
 * the checks run before the edited profile is saved.
 */
module Profile {
  import opened Common
  import opened Calendar
  import opened Formatters

  // ---------------------------------------------------------------------
  // Initials

  /** `s.charAt(0)`: the first character, or '' for ''. */
  function First(s: string): (r: string)
    ensures |r| <= 1 && (s != [] ==> r == [s[0]])
  {
    if s == [] then [] else [s[0]]
  }

  /**
   * `iniciais` / `getInitials`: '?' for an empty name; the uppercased first
   * character of a name without spaces; otherwise the uppercased first
   * characters of the first and the last space-separated pieces.
   */
  function Initials(nome: string): (r: string)
    ensures |r| <= 2
    ensures nome == [] ==> r == "?"
  {
    if nome == [] then "?"
    else
      var parts := Split(nome, ' ');
      if |parts| == 1 then Upper(First(parts[0]))
      else Upper(First(parts[0]) + First(parts[|parts| - 1]))
  }

  /** Splitting joined pieces gives the pieces back. */
  lemma {:induction false} SplitJoined(parts: seq<string>, sep: char)
    requires |parts| >= 1
    requires forall i :: 0 <= i < |parts| ==> sep !in parts[i]
    ensures Split(Join(parts, sep), sep) == parts
  {
    if |parts| == 1 {
      SplitWithout(parts[0], sep);
    } else {
      SplitJoined(parts[1..], sep);
      SplitAfter(parts[0], Join(parts[1..], sep), sep);
    }
  }

  /** A name without spaces gives its first letter, uppercased. */
  lemma InitialsOfOneWord(nome: string)
    requires nome != [] && ' ' !in nome
    ensures Initials(nome) == [UpperChar(nome[0])]
  {
    SplitWithout(nome, ' ');
  }

  lemma InitialsFromParts(nome: string, parts: seq<string>)
    requires nome != [] && Split(nome, ' ') == parts && |parts| >= 2
    requires parts[0] != [] && parts[|parts| - 1] != []
    ensures Initials(nome) == [UpperChar(parts[0][0]), UpperChar(parts[|parts| - 1][0])]
  {
    var pair := First(parts[0]) + First(parts[|parts| - 1]);
    assert pair == [parts[0][0], parts[|parts| - 1][0]];
  }

  /** Words separated by single spaces give the first letters of the first and last words. */
  lemma InitialsOfWords(words: seq<string>)
    requires |words| >= 2
    requires forall i :: 0 <= i < |words| ==> words[i] != [] && ' ' !in words[i]
    ensures Initials(Join(words, ' ')) == [UpperChar(words[0][0]), UpperChar(words[|words| - 1][0])]
  {
    var nome := Join(words, ' ');
    SplitJoined(words, ' ');
    assert nome == words[0] + [' '] + Join(words[1..], ' ');
    InitialsFromParts(nome, words);
  }

  /** "Maria da Silva" shows "MS". */
  lemma InitialsExample()
    ensures Initials("Maria da Silva") == "MS"
  {
    var words := ["Maria", "da", "Silva"];
    assert Join(words, ' ') == "Maria da Silva" by {
      assert Join(words[2..], ' ') == "Silva";
      assert Join(words[1..], ' ') == "da" + [' '] + "Silva";
    }
    InitialsOfWords(words);
  }

  /** The user as the header receives it; `None` is a missing field. */
  datatype HeaderUser = HeaderUser(nome: Option<string>, email: Option<string>, fotoUrl: Option<string>)

  datatype HeaderView = HeaderView(nome: string, email: string, fotoUrl: Option<string>, initials: string)

  /** `v || fallback` on a string field. */
  function OrElse(v: Option<string>, fallback: string): (r: string)
    ensures v.Some? && v.value != "" ==> r == v.value
    ensures (v.None? || v.value == "") ==> r == fallback
  {
    if v.Some? && v.value != "" then v.value else fallback
  }

  /** `ProfileHeader`: the shown name, email, photo and initials. */
  function Header(user: HeaderUser): (r: HeaderView)
    ensures r.nome == OrElse(user.nome, "Usuário") && r.email == OrElse(user.email, "usuario@exemplo.com")
    ensures r.fotoUrl == (if user.fotoUrl.Some? && user.fotoUrl.value != "" then user.fotoUrl else None)
    ensures r.initials == Initials(r.nome)
  {
    var nome := OrElse(user.nome, "Usuário");
    HeaderView(nome, OrElse(user.email, "usuario@exemplo.com"),
               if user.fotoUrl.Some? && user.fotoUrl.value != "" then user.fotoUrl else None,
               Initials(nome))
  }

  /** A user with no name is shown as "Usuário", with initial "U". */
  lemma AnonymousHeader()
    ensures Header(HeaderUser(None, None, None)) == HeaderView("Usuário", "usuario@exemplo.com", None, "U")
  {
    assert ' ' !in "Usuário";
    InitialsOfOneWord("Usuário");
  }

  // ---------------------------------------------------------------------
  // Input masks

  /** `s.slice(i, j)` for 0 <= i <= j: the bounds are clamped to the length. */
  function Slice(s: string, i: nat, j: nat): (r: string)
    requires i <= j
    ensures |r| <= j - i
  {
    if |s| <= i then [] else if |s| <= j then s[i..] else s[i..j]
  }

  /** The first `n` characters, or all of them. */
  function Take(s: string, n: nat): (r: string)
    ensures |r| == if |s| <= n then |s| else n
    ensures IsPrefix(r, s)
  {
    if |s| <= n then s else s[..n]
  }

  /** `formatarCPF`: ddd.ddd.ddd-dd, as far as the digits go. */
  function FormatCpf(valor: string): string
  {
    CpfLayout(DigitsOf(valor))
  }

  function CpfLayout(d: string): (r: string)
    ensures |d| >= 11 ==> |r| == 14 && r[3] == '.' && r[7] == '.' && r[11] == '-'
    ensures r == [] <==> d == []
  {
    if |d| <= 3 then d
    else if |d| <= 6 then d[..3] + "." + d[3..]
    else if |d| <= 9 then d[..3] + "." + d[3..6] + "." + d[6..]
    else d[..3] + "." + d[3..6] + "." + d[6..9] + "-" + Slice(d, 9, 11)
  }

  /** `formatarTelefone`: (dd) dddd-dddd up to ten digits, (dd) ddddd-dddd from eleven. */
  function FormatPhone(valor: string): (r: string)
    ensures |r| >= 1 && r[0] == '('
  {
    PhoneLayout(DigitsOf(valor))
  }

  function PhoneLayout(d: string): (r: string)
    ensures |r| >= 1 && r[0] == '('
    ensures |d| == 10 ==> |r| == 14 && r[3] == ')' && r[4] == ' ' && r[9] == '-'
    ensures |d| >= 11 ==> |r| == 15 && r[3] == ')' && r[4] == ' ' && r[10] == '-'
  {
    if |d| <= 2 then "(" + d
    else if |d| <= 6 then "(" + d[..2] + ") " + d[2..]
    else if |d| <= 10 then "(" + d[..2] + ") " + d[2..6] + "-" + d[6..]
    else "(" + d[..2] + ") " + d[2..7] + "-" + Slice(d, 7, 11)
  }

  /** `formatarData`: dd/mm/yyyy, as far as the digits go. */
  function FormatDate(valor: string): string
  {
    DateLayout(DigitsOf(valor))
  }

  function DateLayout(d: string): (r: string)
    ensures |d| >= 8 ==> |r| == 10 && r[2] == '/' && r[5] == '/'
    ensures |d| < 8 ==> |r| < 10
  {
    if |d| <= 2 then d
    else if |d| <= 4 then d[..2] + "/" + d[2..]
    else d[..2] + "/" + d[2..4] + "/" + Slice(d, 4, 8)
  }

  lemma DigitsOfPunctuation()
    ensures DigitsOf(".") == [] && DigitsOf("-") == [] && DigitsOf("/") == []
    ensures DigitsOf("(") == [] && DigitsOf(") ") == []
  {
    DigitsOfNone(".");
    DigitsOfNone("-");
    DigitsOfNone("/");
    DigitsOfNone("(");
    DigitsOfNone(") ");
  }

  lemma DigitsOfSlices(d: string)
    requires AllDigits(d)
    ensures forall i, j :: 0 <= i <= j <= |d| ==> AllDigits(d[i..j])
  {
  }

  /** The CPF mask keeps the first eleven digits typed and adds only punctuation. */
  lemma CpfKeepsDigits(valor: string)
    ensures DigitsOf(FormatCpf(valor)) == Take(DigitsOf(valor), 11)
  {
    var d := DigitsOf(valor);
    DigitsOfPunctuation();
    DigitsOfSlices(d);
    if |d| <= 3 {
      DigitsOfAllDigits(d);
    } else {
      DigitsOfAllDigits(d[..3]);
      if |d| <= 6 {
        DigitsOfAppended(d[..3], ".", d[3..]);
        assert d[..3] + d[3..] == d;
      } else if |d| <= 9 {
        DigitsOfAppended(d[..3], ".", d[3..6]);
        DigitsOfAppended(d[..3] + "." + d[3..6], ".", d[6..]);
        assert d[..3] + d[3..6] + d[6..] == d;
      } else {
        var tail := Slice(d, 9, 11);
        DigitsOfAppended(d[..3], ".", d[3..6]);
        DigitsOfAppended(d[..3] + "." + d[3..6], ".", d[6..9]);
        DigitsOfAppended(d[..3] + "." + d[3..6] + "." + d[6..9], "-", tail);
        assert d[..3] + d[3..6] + d[6..9] + tail == Take(d, 11);
      }
    }
  }

  /** Digit runs `x`, `y` after the punctuation `p` and `q` are the digits of the text. */
  lemma DigitsOfTwoRuns(p: string, x: string, q: string, y: string)
    requires DigitsOf(p) == [] && DigitsOf(q) == [] && AllDigits(x) && AllDigits(y)
    ensures DigitsOf(p + x + q + y) == x + y
  {
    DigitsOfAppended(p + x, q, y);
    DigitsOfConcat(p, x);
    DigitsOfAllDigits(x);
  }

  lemma PhoneUpToTen(d: string)
    requires AllDigits(d) && 6 < |d| <= 10
    ensures DigitsOf(PhoneLayout(d)) == d
  {
    DigitsOfPunctuation();
    DigitsOfTwoRuns("(", d[..2], ") ", d[2..6]);
    DigitsOfAppended("(" + d[..2] + ") " + d[2..6], "-", d[6..]);
    assert d[..2] + d[2..6] + d[6..] == d;
  }

  lemma PhoneFromEleven(d: string)
    requires AllDigits(d) && |d| > 10
    ensures DigitsOf(PhoneLayout(d)) == Take(d, 11)
  {
    DigitsOfPunctuation();
    var tail := Slice(d, 7, 11);
    DigitsOfTwoRuns("(", d[..2], ") ", d[2..7]);
    DigitsOfAppended("(" + d[..2] + ") " + d[2..7], "-", tail);
    assert d[..2] + d[2..7] + tail == Take(d, 11);
  }

  /** The phone mask keeps the first eleven digits typed and adds only punctuation. */
  lemma PhoneKeepsDigits(valor: string)
    ensures DigitsOf(FormatPhone(valor)) == Take(DigitsOf(valor), 11)
  {
    var d := DigitsOf(valor);
    DigitsOfPunctuation();
    if |d| <= 2 {
      DigitsOfConcat("(", d);
      DigitsOfAllDigits(d);
    } else if |d| <= 6 {
      DigitsOfTwoRuns("(", d[..2], ") ", d[2..]);
      assert d[..2] + d[2..] == d;
    } else if |d| <= 10 {
      PhoneUpToTen(d);
    } else {
      PhoneFromEleven(d);
    }
  }


  /** The date mask keeps the first eight digits typed and adds only '/'. */
  lemma DateKeepsDigits(valor: string)
    ensures DigitsOf(FormatDate(valor)) == Take(DigitsOf(valor), 8)
  {
    var d := DigitsOf(valor);
    DigitsOfPunctuation();
    DigitsOfSlices(d);
    if |d| <= 2 {
      DigitsOfAllDigits(d);
    } else {
      DigitsOfAllDigits(d[..2]);
      if |d| <= 4 {
        DigitsOfAppended(d[..2], "/", d[2..]);
        assert d[..2] + d[2..] == d;
      } else {
        var tail := Slice(d, 4, 8);
        DigitsOfAppended(d[..2], "/", d[2..4]);
        DigitsOfAppended(d[..2] + "/" + d[2..4], "/", tail);
        assert d[..2] + d[2..4] + tail == Take(d, 8);
      }
    }
  }

  /** Masking the masked text again changes nothing, for each of the three masks. */
  lemma MasksIdempotent(valor: string)
    ensures FormatCpf(FormatCpf(valor)) == FormatCpf(valor)
    ensures FormatPhone(FormatPhone(valor)) == FormatPhone(valor)
    ensures FormatDate(FormatDate(valor)) == FormatDate(valor)
  {
    var d := DigitsOf(valor);
    CpfKeepsDigits(valor);
    PhoneKeepsDigits(valor);
    DateKeepsDigits(valor);
    if |d| > 11 {
      var e := d[..11];
      assert e[..3] == d[..3] && e[3..6] == d[3..6] && e[6..9] == d[6..9] && e[..2] == d[..2] && e[2..7] == d[2..7];
      assert Slice(e, 9, 11) == Slice(d, 9, 11) && Slice(e, 7, 11) == Slice(d, 7, 11);
    }
    if |d| > 8 {
      var e := d[..8];
      assert e[..2] == d[..2] && e[2..4] == d[2..4] && Slice(e, 4, 8) == Slice(d, 4, 8);
    }
  }

  // ---------------------------------------------------------------------
  // Validation before saving

  const NomeObrigatorio := "Nome é obrigatório"
  const EmailObrigatorio := "Email é obrigatório"
  const EmailInvalido := "Email inválido"
  const CpfInvalido := "CPF inválido"
  const TelefoneInvalido := "Telefone inválido"
  const DataInvalida := "Data inválida"

  /** `/\S+@\S+\.\S+/.test(s)`: somewhere a non-space, '@', non-spaces, '.', and a non-space. */
  predicate MatchesEmail(s: string)
  {
    exists at, dot :: 0 < at < |s| && at + 1 < dot < |s| - 1 &&
      s[at] == '@' && s[dot] == '.' && !IsSpace(s[at - 1]) && !IsSpace(s[dot + 1]) &&
      NoSpaceBetween(s, at, dot)
  }

  /** No white space strictly between positions `i` and `j`. */
  predicate NoSpaceBetween(s: string, i: int, j: int)
    requires 0 <= i && j <= |s|
  {
    forall k :: i < k < j ==> !IsSpace(s[k])
  }

  lemma EmailNeedsAtAndDot(s: string)
    ensures MatchesEmail(s) ==> '@' in s && '.' in s
  {
  }

  lemma EmailExample()
    ensures MatchesEmail("ana@viccoin.com")
    ensures !MatchesEmail("ana@viccoin")
  {
    var s := "ana@viccoin.com";
    assert s[3] == '@' && s[11] == '.' && s[2] == 'a' && s[12] == 'c';
    assert forall k :: 3 < k < 11 ==> !IsSpace(s[k]);
    assert '.' !in "ana@viccoin";
  }

  /** `dataRegex`: two digits, '/', two digits, '/', four digits, and nothing else. */
  predicate DateShape(s: string)
  {
    |s| == 10 && s[2] == '/' && s[5] == '/' &&
    AllDigits(s[..2]) && AllDigits(s[3..5]) && AllDigits(s[6..])
  }

  /** The day `new Date(ano, mes - 1, dia)` is meant to be, at local midnight. */
  function BirthDate(s: string): DateTime
    requires DateShape(s)
  {
    DateTime(ParseNat(s[6..]), ParseNat(s[3..5]), ParseNat(s[..2]), 0)
  }

  /**
   * The date checks on a well-shaped text: `new Date` gives back the same
   * day, month and year (no roll-over, and not a year below 100, which
   * JavaScript reads as 1900 onwards), and the day is not after `now`.
   */
  predicate BirthDateAccepted(s: string, now: DateTime)
    requires DateShape(s)
  {
    BirthDate(s).year >= 100 && ValidDate(BirthDate(s)) && !Lt(now, BirthDate(s))
  }

  predicate BirthDateError(s: string, now: DateTime)
  {
    s != "" && !(DateShape(s) && BirthDateAccepted(s, now))
  }

  predicate CpfError(cpf: string)
  {
    cpf != "" && |DigitsOf(cpf)| != 11
  }

  /** `telefone && telefone.replace(/\D/g, '').length < 10`. */
  predicate PhoneErrorAsWritten(telefone: string)
  {
    telefone != "" && |DigitsOf(telefone)| < 10
  }

  /** The phone check as intended: only a phone number that has digits is checked. */
  predicate PhoneError(telefone: string)
  {
    DigitsOf(telefone) != [] && |DigitsOf(telefone)| < 10
  }

  /**
   * Typing a phone number and erasing it leaves "(" in the field, which the
   * check as written rejects although no phone was given.
   */
  lemma ClearedPhoneBlocksSaveAsWritten()
    ensures FormatPhone("") == "(" && PhoneErrorAsWritten(FormatPhone(""))
  {
    DigitsOfPunctuation();
  }

  /** With the intended check, a masked phone is rejected exactly when it has one to nine digits. */
  lemma MaskedPhoneChecked(text: string)
    ensures PhoneError(FormatPhone(text)) <==> 0 < |DigitsOf(text)| < 10
    ensures !PhoneError(FormatPhone(""))
  {
    PhoneKeepsDigits(text);
    PhoneKeepsDigits("");
  }

  /** A masked CPF is rejected exactly when it has one to ten digits. */
  lemma MaskedCpfChecked(text: string)
    ensures CpfError(FormatCpf(text)) <==> 0 < |DigitsOf(text)| < 11
  {
    CpfKeepsDigits(text);
  }

  /** A masked birth date has the required shape exactly when eight digits or more were typed. */
  lemma MaskedDateShape(text: string)
    ensures DateShape(FormatDate(text)) <==> |DigitsOf(text)| >= 8
  {
    var d := DigitsOf(text);
    if |d| >= 8 {
      DigitsOfSlices(d);
      var r := FormatDate(text);
      assert r == d[..2] + "/" + d[2..4] + "/" + d[4..8];
      assert r[..2] == d[..2] && r[3..5] == d[2..4] && r[6..] == d[4..8];
    }
  }

  /** `validarFormulario`'s error object, keyed by field. */
  function ProfileErrors(nome: string, email: string, cpf: string, telefone: string,
                         dataNascimento: string, now: DateTime): (r: map<string, string>)
    ensures "nome" in r <==> Trim(nome) == ""
    ensures "email" in r <==> Trim(email) == "" || !MatchesEmail(email)
    ensures "cpf" in r <==> CpfError(cpf)
    ensures "telefone" in r <==> PhoneError(telefone)
    ensures "dataNascimento" in r <==> BirthDateError(dataNascimento, now)
    ensures r.Keys <= {"nome", "email", "cpf", "telefone", "dataNascimento"}
    ensures "nome" in r ==> r["nome"] == NomeObrigatorio
    ensures "email" in r ==> r["email"] == (if Trim(email) == "" then EmailObrigatorio else EmailInvalido)
    ensures "cpf" in r ==> r["cpf"] == CpfInvalido
    ensures "telefone" in r ==> r["telefone"] == TelefoneInvalido
    ensures "dataNascimento" in r ==> r["dataNascimento"] == DataInvalida
  {
    ErrorMap(Trim(nome) == "", Trim(email) == "", !MatchesEmail(email), CpfError(cpf),
             PhoneError(telefone), BirthDateError(dataNascimento, now))
  }

  /** The error object for the outcome of each check. */
  function ErrorMap(noNome: bool, noEmail: bool, badEmail: bool, badCpf: bool, badPhone: bool, badDate: bool)
    : (r: map<string, string>)
    ensures "nome" in r <==> noNome
    ensures "email" in r <==> noEmail || badEmail
    ensures "cpf" in r <==> badCpf
    ensures "telefone" in r <==> badPhone
    ensures "dataNascimento" in r <==> badDate
    ensures r.Keys <= {"nome", "email", "cpf", "telefone", "dataNascimento"}
    ensures "nome" in r ==> r["nome"] == NomeObrigatorio
    ensures "email" in r ==> r["email"] == (if noEmail then EmailObrigatorio else EmailInvalido)
    ensures "cpf" in r ==> r["cpf"] == CpfInvalido
    ensures "telefone" in r ==> r["telefone"] == TelefoneInvalido
    ensures "dataNascimento" in r ==> r["dataNascimento"] == DataInvalida
  {
    var m1: map<string, string> := if noNome then map["nome" := NomeObrigatorio] else map[];
    var m2 := if noEmail then m1["email" := EmailObrigatorio]
              else if badEmail then m1["email" := EmailInvalido] else m1;
    var m3 := if badCpf then m2["cpf" := CpfInvalido] else m2;
    var m4 := if badPhone then m3["telefone" := TelefoneInvalido] else m3;
    if badDate then m4["dataNascimento" := DataInvalida] else m4
  }

  /** The user the edit form starts from; `None` is a missing field. */
  datatype ProfileUser = ProfileUser(nome: Option<string>, email: Option<string>, telefone: Option<string>,
                                     cpf: Option<string>, dataNascimento: Option<string>, fotoUrl: Option<string>)

  /** The edit-profile form. */
  class ProfileForm {
    var nome: string
    var email: string
    var telefone: string
    var cpf: string
    var dataNascimento: string
    var foto: Option<string>
    var errors: map<string, string>

    /** The form starts from the stored user, '' (null for the photo) where a field is missing. */
    constructor(user: ProfileUser)
      ensures nome == OrElse(user.nome, "") && email == OrElse(user.email, "")
      ensures telefone == OrElse(user.telefone, "") && cpf == OrElse(user.cpf, "")
      ensures dataNascimento == OrElse(user.dataNascimento, "")
      ensures foto == (if user.fotoUrl.Some? && user.fotoUrl.value != "" then user.fotoUrl else None)
      ensures errors == map[]
    {
      nome := OrElse(user.nome, "");
      email := OrElse(user.email, "");
      telefone := OrElse(user.telefone, "");
      cpf := OrElse(user.cpf, "");
      dataNascimento := OrElse(user.dataNascimento, "");
      foto := if user.fotoUrl.Some? && user.fotoUrl.value != "" then user.fotoUrl else None;
      errors := map[];
    }

    /** The phone field's `onChangeText`. */
    method ChangeTelefone(text: string)
      modifies this`telefone
      ensures telefone == FormatPhone(text)
    {
      telefone := FormatPhone(text);
    }

    /** The CPF field's `onChangeText`. */
    method ChangeCpf(text: string)
      modifies this`cpf
      ensures cpf == FormatCpf(text)
    {
      cpf := FormatCpf(text);
    }

    /** The birth-date field's `onChangeText`. */
    method ChangeDataNascimento(text: string)
      modifies this`dataNascimento
      ensures dataNascimento == FormatDate(text)
    {
      dataNascimento := FormatDate(text);
    }

    /** `validarFormulario`: records the errors and reports whether there are none. */
    method Validar(now: DateTime) returns (ok: bool)
      modifies this`errors
      ensures errors == ProfileErrors(nome, email, cpf, telefone, dataNascimento, now)
      ensures ok <==> errors == map[]
    {
      errors := ProfileErrors(nome, email, cpf, telefone, dataNascimento, now);
      ok := errors == map[];
    }
  }

  /** The form saves exactly when the name is set, the email well formed, and each optional field passes. */
  lemma ProfileSavesIff(nome: string, email: string, cpf: string, telefone: string,
                        dataNascimento: string, now: DateTime)
    ensures ProfileErrors(nome, email, cpf, telefone, dataNascimento, now) == map[] <==>
      Trim(nome) != "" && Trim(email) != "" && MatchesEmail(email) &&
      !CpfError(cpf) && !PhoneError(telefone) && !BirthDateError(dataNascimento, now)
  {
    var r := ProfileErrors(nome, email, cpf, telefone, dataNascimento, now);
    if r != map[] {
      var k :| k in r;
    }
  }
}
