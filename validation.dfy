/**
  Validation of the Patient entity (Clinique2000_Core/Models/Patient.cs).

  Every data-annotation attribute becomes a predicate over the bound value of
  its property. A value is None when model binding produced null, which is also
  what an empty form field becomes (MVC converts empty strings to null).
*/
module Validation {
  import opened Common

  /** The Patient entity, with the properties model binding fills.
      The navigation properties User and PatientsACharge carry [ValidateNever]
      and are not part of the bound value. */
  datatype Patient = Patient(
    patientId: int,
    nom: Option<string>,
    prenom: Option<string>,
    genre: Option<string>,
    nam: Option<string>,
    codePostal: Option<string>,
    dateDeNaissance: Option<Date>,
    age: Option<int>,
    userId: Option<string>)

  /** The validated properties; Genre carries no attribute. UserIdField is the
      UserId property: a non-nullable string in a project with nullable
      annotations (Genre is the one `string?`), which MVC validates as if it
      carried [Required]. */
  datatype Field = Nom | Prenom | Genre | NAM | CodePostal | DateDeNaissance | Age | UserIdField

  /** The kinds of validation rule that can reject a property. Unbound is the
      model-binding error of a value type whose form field gives no value: for
      DateTime and int MVC reports that error, and [Required] never fires. */
  datatype Rule = Required | StringLength | RegularExpression | BirthDateRule | Unbound

  // ---------------------------------------------------------------- characters

  predicate IsAsciiLetter(c: char)
  {
    'A' <= c <= 'Z' || 'a' <= c <= 'z'
  }

  /** `\d`, read as the ASCII digits only. */
  predicate IsDigit(c: char)
  {
    '0' <= c <= '9'
  }

  /** char.IsWhiteSpace restricted to ASCII: space, tab, LF, VT, FF, CR. */
  predicate IsWhiteSpace(c: char)
  {
    c == ' ' || '\t' <= c <= '\r'
  }

  /** The character classes the patterns use: `[A-Za-z]`, `\d` and a literal space. */
  datatype CharClass = Letter | Digit | Space

  predicate InClass(c: char, k: CharClass)
  {
    match k
    case Letter => IsAsciiLetter(c)
    case Digit => IsDigit(c)
    case Space => c == ' '
  }

  /** `k{n}` as a sequence of n positions of class k. */
  function Repeat(k: CharClass, n: nat): (shape: seq<CharClass>)
    ensures |shape| == n && forall i :: 0 <= i < n ==> shape[i] == k
  {
    seq(n, _ => k)
  }

  /** Every character of s is in class k (`k*`). */
  function AllIn(s: string, k: CharClass): (b: bool)
    ensures b <==> forall i :: 0 <= i < |s| ==> InClass(s[i], k)
  {
    if s == [] then true else InClass(s[0], k) && AllIn(s[1..], k)
  }

  /** s matches a pattern made of single-character classes, position by position. */
  function MatchesShape(s: string, shape: seq<CharClass>): (b: bool)
    ensures b <==> |s| == |shape| && forall i :: 0 <= i < |s| ==> InClass(s[i], shape[i])
  {
    if |s| != |shape| then false
    else if s == [] then true
    else InClass(s[0], shape[0]) && MatchesShape(s[1..], shape[1..])
  }

  // ------------------------------------------------------------------ patterns

  /** The three regular expressions of Patient.cs. */
  datatype Regex = NameRegex | NamRegex | PostalCodeRegex

  const NamShape: seq<CharClass> := Repeat(Letter, 4) + Repeat(Digit, 8)
  const PostalCodeShape: seq<CharClass> := [Letter, Digit, Letter, Space, Digit, Letter, Digit]

  /** Whether the whole of s matches re (the attribute anchors the match at both ends). */
  function Matches(re: Regex, s: string): bool
  {
    match re
    case NameRegex => |s| >= 2 && MatchesShape(s[..2], Repeat(Letter, 2)) && AllIn(s[2..], Letter)
    case NamRegex => MatchesShape(s, NamShape)
    case PostalCodeRegex => MatchesShape(s, PostalCodeShape)
  }

  // ---------------------------------------------------------------- attributes

  /** [Required] on a string: null, empty and white-space-only values fail. */
  predicate RequiredHolds(v: Option<string>)
  {
    v.Some? && exists i :: 0 <= i < |v.value| && !IsWhiteSpace(v.value[i])
  }

  /** [StringLength(max, MinimumLength = min)]: null passes. */
  predicate StringLengthHolds(v: Option<string>, min: nat, max: nat)
  {
    v.None? || min <= |v.value| <= max
  }

  /** [RegularExpression(re)]: null and the empty string pass. */
  predicate RegularExpressionHolds(v: Option<string>, re: Regex)
  {
    v.None? || v.value == [] || Matches(re, v.value)
  }

  /** The rules that reject one string property, given its three attributes. */
  function StringErrors(v: Option<string>, min: nat, max: nat, re: Regex): set<Rule>
  {
    (if RequiredHolds(v) then {} else {Required})
    + (if StringLengthHolds(v, min, max) then {} else {StringLength})
    + (if RegularExpressionHolds(v, re) then {} else {RegularExpression})
  }

  /** DateDeNaissance and Age are value types: a value that could not be bound
      (None) is a binding error. birthDateOk is the verdict of
      [ValiderDateDeNaissance], whose code is not part of this model. */
  function BirthDateErrors(v: Option<Date>, birthDateOk: bool): set<Rule>
  {
    if v.None? then {Unbound} else if birthDateOk then {} else {BirthDateRule}
  }

  function AgeErrors(v: Option<int>): set<Rule>
  {
    if v.None? then {Unbound} else {}
  }

  /** The rules that reject field f of p. */
  function FieldErrors(p: Patient, f: Field, birthDateOk: bool): set<Rule>
  {
    match f
    case Nom => StringErrors(p.nom, 2, 25, NameRegex)
    case Prenom => StringErrors(p.prenom, 2, 25, NameRegex)
    case Genre => {}
    case NAM => StringErrors(p.nam, 0, 12, NamRegex)
    case CodePostal => StringErrors(p.codePostal, 7, 7, PostalCodeRegex)
    case DateDeNaissance => BirthDateErrors(p.dateDeNaissance, birthDateOk)
    case Age => AgeErrors(p.age)
    case UserIdField => if RequiredHolds(p.userId) then {} else {Required}
  }

  /** ModelState's error entries for p: the fields that fail, with the failing rules. */
  function Errors(p: Patient, birthDateOk: bool): map<Field, set<Rule>>
  {
    map f | f in AllFields && FieldErrors(p, f, birthDateOk) != {} :: FieldErrors(p, f, birthDateOk)
  }

  const AllFields: set<Field> := {Nom, Prenom, Genre, NAM, CodePostal, DateDeNaissance, Age, UserIdField}

  /** ModelState.IsValid after binding p. */
  predicate IsValid(p: Patient, birthDateOk: bool)
  {
    Errors(p, birthDateOk) == map[]
  }
}

/** Properties of the Patient validators. */
module ValidationProperties {
  import opened Common
  import opened Validation

  /** A NAM is exactly four ASCII letters followed by eight digits. */
  predicate IsNam(s: string)
  {
    |s| == 12
    && (forall i :: 0 <= i < 4 ==> IsAsciiLetter(s[i]))
    && (forall i :: 4 <= i < 12 ==> IsDigit(s[i]))
  }

  /** A Canadian postal code: letter, digit, letter, space, digit, letter, digit. */
  predicate IsPostalCode(s: string)
  {
    |s| == 7
    && IsAsciiLetter(s[0]) && IsDigit(s[1]) && IsAsciiLetter(s[2]) && s[3] == ' '
    && IsDigit(s[4]) && IsAsciiLetter(s[5]) && IsDigit(s[6])
  }

  /** A name: two to twenty-five ASCII letters. */
  predicate IsName(s: string)
  {
    2 <= |s| <= 25 && forall i :: 0 <= i < |s| ==> IsAsciiLetter(s[i])
  }

  /** A string whose first character is not white space passes [Required]. */
  lemma NotBlank(s: string)
    requires |s| > 0 && !IsWhiteSpace(s[0])
    ensures RequiredHolds(Some(s))
  {
    assert 0 <= 0 < |s| && !IsWhiteSpace(s[0]);
  }

  lemma NamAcceptedIff(p: Patient, birthDateOk: bool)
    ensures FieldErrors(p, NAM, birthDateOk) == {} <==> p.nam.Some? && IsNam(p.nam.value)
    ensures FieldErrors(p, NAM, birthDateOk) == {} ==> |p.nam.value| == 12 && StringLengthHolds(p.nam, 0, 12)
  {
    if p.nam.Some? && IsNam(p.nam.value) {
      var s := p.nam.value;
      assert forall i :: 0 <= i < |s| ==> InClass(s[i], NamShape[i]);
      NotBlank(s);
    }
  }

  lemma PostalCodeAcceptedIff(p: Patient, birthDateOk: bool)
    ensures FieldErrors(p, CodePostal, birthDateOk) == {} <==> p.codePostal.Some? && IsPostalCode(p.codePostal.value)
    ensures FieldErrors(p, CodePostal, birthDateOk) == {} ==> |p.codePostal.value| == 7
  {
    if p.codePostal.Some? && IsPostalCode(p.codePostal.value) {
      NotBlank(p.codePostal.value);
    }
  }

  /** Nom and Prenom obey the same three attributes. */
  lemma NameAcceptedIff(p: Patient, birthDateOk: bool)
    ensures FieldErrors(p, Nom, birthDateOk) == {} <==> p.nom.Some? && IsName(p.nom.value)
    ensures FieldErrors(p, Prenom, birthDateOk) == {} <==> p.prenom.Some? && IsName(p.prenom.value)
  {
    forall v: Option<string> | v.Some? && IsName(v.value)
      ensures StringErrors(v, 2, 25, NameRegex) == {}
    {
      var s := v.value;
      assert s == s[..2] + s[2..];
      assert forall i :: 0 <= i < |s[2..]| ==> s[2..][i] == s[i + 2];
      NotBlank(s);
    }
    forall v: Option<string> | StringErrors(v, 2, 25, NameRegex) == {}
      ensures v.Some? && IsName(v.value)
    {
      var s := v.value;
      assert forall i :: 2 <= i < |s| ==> s[i] == s[2..][i - 2];
    }
  }

  /** A missing string is rejected by [Required] alone: the other attributes let
      null through. A missing DateDeNaissance or Age is a binding error only,
      whatever the date validator says. */
  lemma MissingRejectedOnlyByRequired(p: Patient, birthDateOk: bool)
    ensures p.nom.None? ==> FieldErrors(p, Nom, birthDateOk) == {Required}
    ensures p.prenom.None? ==> FieldErrors(p, Prenom, birthDateOk) == {Required}
    ensures p.nam.None? ==> FieldErrors(p, NAM, birthDateOk) == {Required}
    ensures p.codePostal.None? ==> FieldErrors(p, CodePostal, birthDateOk) == {Required}
    ensures p.userId.None? ==> FieldErrors(p, UserIdField, birthDateOk) == {Required}
    ensures p.dateDeNaissance.None? ==> FieldErrors(p, DateDeNaissance, birthDateOk) == {Unbound}
    ensures p.age.None? ==> FieldErrors(p, Age, birthDateOk) == {Unbound}
  {
  }

  /** An empty or white-space-only string. */
  predicate IsBlank(s: string)
  {
    forall i :: 0 <= i < |s| ==> IsWhiteSpace(s[i])
  }

  /** A blank string fails [Required] for every required string property,
      the implicitly required UserId included. */
  lemma BlankRejected(p: Patient, birthDateOk: bool)
    ensures p.nom.Some? && IsBlank(p.nom.value) ==> Required in FieldErrors(p, Nom, birthDateOk)
    ensures p.prenom.Some? && IsBlank(p.prenom.value) ==> Required in FieldErrors(p, Prenom, birthDateOk)
    ensures p.nam.Some? && IsBlank(p.nam.value) ==> Required in FieldErrors(p, NAM, birthDateOk)
    ensures p.codePostal.Some? && IsBlank(p.codePostal.value) ==> Required in FieldErrors(p, CodePostal, birthDateOk)
    ensures p.userId.Some? && IsBlank(p.userId.value) ==> FieldErrors(p, UserIdField, birthDateOk) == {Required}
  {
  }

  /** Genre has no attribute and never fails; Age is only required to be present,
      whatever DateDeNaissance says. */
  lemma GenreAndAgeUnchecked(p: Patient, birthDateOk: bool)
    ensures FieldErrors(p, Genre, birthDateOk) == {}
    ensures p.age.Some? ==> FieldErrors(p, Age, birthDateOk) == {}
  {
  }

  /** ModelState is valid exactly when no field fails. */
  lemma IsValidIff(p: Patient, birthDateOk: bool)
    ensures IsValid(p, birthDateOk) <==> forall f :: FieldErrors(p, f, birthDateOk) == {}
  {
    if !forall f :: FieldErrors(p, f, birthDateOk) == {} {
      var f :| FieldErrors(p, f, birthDateOk) != {};
      assert f in AllFields;
      assert f in Errors(p, birthDateOk);
    }
  }

  /** Each field's verdict depends on its own value only. */
  lemma FieldsIndependent(p: Patient, q: Patient, f: Field, birthDateOk: bool)
    requires f == Nom ==> p.nom == q.nom
    requires f == Prenom ==> p.prenom == q.prenom
    requires f == NAM ==> p.nam == q.nam
    requires f == CodePostal ==> p.codePostal == q.codePostal
    requires f == DateDeNaissance ==> p.dateDeNaissance == q.dateDeNaissance
    requires f == Age ==> p.age == q.age
    requires f == UserIdField ==> p.userId == q.userId
    ensures FieldErrors(p, f, birthDateOk) == FieldErrors(q, f, birthDateOk)
  {
  }

  /** The example of the NAM error message is accepted; a NAM written with spaces,
      as the seed data writes them, fails both the pattern and the length. */
  lemma NamExamples(p: Patient, birthDateOk: bool)
    ensures FieldErrors(p.(nam := Some("ABCD12345678")), NAM, birthDateOk) == {}
    ensures FieldErrors(p.(nam := Some("EASC 2342 4332")), NAM, birthDateOk) == {StringLength, RegularExpression}
  {
    NamAcceptedIff(p.(nam := Some("ABCD12345678")), birthDateOk);
    NotBlank("EASC 2342 4332");
    assert !InClass("EASC 2342 4332"[4], NamShape[4]);
  }

  lemma PostalCodeExample(p: Patient, birthDateOk: bool)
    ensures FieldErrors(p.(codePostal := Some("A1A 1A1")), CodePostal, birthDateOk) == {}
  {
    PostalCodeAcceptedIff(p.(codePostal := Some("A1A 1A1")), birthDateOk);
  }
}
