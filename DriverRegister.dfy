/** The three-step driver-registration sheet: the form record, the per-step
    validator with its e-mail pattern, the Brazilian phone mask, and the
    wizard object whose handlers update `step`, `formData` and `errors`. */
module DriverRegister {
  import opened JsText

  /** The keys of the form record (`keyof FormData`). */
  datatype Field = Name | Email | Phone | Vehicle | Status | Location

  /** The form record: six text fields. */
  datatype FormData = FormData(
    name: string, email: string, phone: string,
    vehicle: string, status: string, location: string)
  {
    /** `formData[f]`. */
    function Get(f: Field): string {
      match f
      case Name => name
      case Email => email
      case Phone => phone
      case Vehicle => vehicle
      case Status => status
      case Location => location
    }

    /** `{ ...formData, [f]: v }`: field `f` becomes `v`, every other field
        keeps its value. */
    function With(f: Field, v: string): (r: FormData)
      ensures r.Get(f) == v
      ensures forall g :: g != f ==> r.Get(g) == Get(g)
    {
      match f
      case Name => this.(name := v)
      case Email => this.(email := v)
      case Phone => this.(phone := v)
      case Vehicle => this.(vehicle := v)
      case Status => this.(status := v)
      case Location => this.(location := v)
    }
  }

  /** The state the sheet opens with and is reset to after a submit. */
  const InitialForm := FormData("", "", "", "", "Ativo", "")

  const TotalSteps := 3

  const NameRequired := "Nome é obrigatório"
  const EmailRequired := "E-mail é obrigatório"
  const EmailInvalid := "E-mail inválido"
  const PhoneRequired := "Telefone é obrigatório"
  const VehicleRequired := "Veículo é obrigatório"
  const LocationRequired := "Localização é obrigatória"

  // ---------------------------------------------------------------------
  // The e-mail pattern /\S+@\S+\.\S+/, tested without anchors

  /** An '@' at `a` and a '.' at `d`, with a non-space character just before
      the '@', only non-space characters between them (at least one), and a
      non-space character just after the '.'. */
  predicate EmailAt(s: string, a: int, d: int) {
    && 0 < a && a + 1 < d && d + 1 < |s|
    && s[a] == '@' && s[d] == '.'
    && !IsWhitespace(s[a - 1]) && !IsWhitespace(s[d + 1])
    && forall k :: a < k < d ==> !IsWhitespace(s[k])
  }

  /** `/\S+@\S+\.\S+/.test(s)`, decided by the shortest possible match. */
  predicate EmailShaped(s: string) {
    exists a, d :: 0 <= a < |s| && 0 <= d < |s| && EmailAt(s, a, d)
  }

  /** One or more characters of the class `\S`. */
  ghost predicate NonSpaceRun(t: string) {
    |t| > 0 && forall i :: 0 <= i < |t| ==> !IsWhitespace(t[i])
  }

  /** `t` as a whole splits as `\S+`, '@', `\S+`, '.', `\S+` at `a` and `d`. */
  ghost predicate WholeEmailAt(t: string, a: int, d: int) {
    && 0 < a < d < |t| - 1
    && t[a] == '@' && t[d] == '.'
    && NonSpaceRun(t[..a]) && NonSpaceRun(t[a + 1..d]) && NonSpaceRun(t[d + 1..])
  }

  /** The reference reading of an unanchored `test`: some substring `s[i..j]`
      belongs to the language of the pattern. */
  ghost predicate MatchesBetween(s: string, i: int, j: int)
    requires 0 <= i <= j <= |s|
  {
    exists a, d :: 0 <= a < j - i && 0 <= d < j - i && WholeEmailAt(s[i..j], a, d)
  }

  ghost predicate RegexTest(s: string) {
    exists i, j :: 0 <= i <= j <= |s| && MatchesBetween(s, i, j)
  }

  /** The shortest-match check decides the pattern exactly. */
  lemma EmailShapedIsRegexTest(s: string)
    ensures EmailShaped(s) <==> RegexTest(s)
  {
    if EmailShaped(s) {
      var a, d :| 0 <= a < |s| && 0 <= d < |s| && EmailAt(s, a, d);
      ShortestMatchIsMatch(s, a, d);
    }
    if RegexTest(s) {
      var i, j :| 0 <= i <= j <= |s| && MatchesBetween(s, i, j);
      var a, d :| 0 <= a < j - i && 0 <= d < j - i && WholeEmailAt(s[i..j], a, d);
      MatchHasShortestMatch(s, i, j, a, d);
    }
  }

  /** The shortest match around `a` and `d` is the substring `s[a - 1..d + 2]`. */
  lemma ShortestMatchIsMatch(s: string, a: int, d: int)
    requires EmailAt(s, a, d)
    ensures MatchesBetween(s, a - 1, d + 2)
  {
    var t := s[a - 1..d + 2];
    assert |t| == d - a + 3;
    assert t[..1] == [s[a - 1]];
    var middle := t[2..d - a + 1];
    forall k | 0 <= k < |middle| ensures !IsWhitespace(middle[k]) {
      assert middle[k] == t[k + 2] == s[a + 1 + k];
    }
    assert t[d - a + 2..] == [s[d + 1]];
    assert WholeEmailAt(t, 1, d - a + 1);
  }

  /** Any substring in the language contains a shortest match. */
  lemma MatchHasShortestMatch(s: string, i: int, j: int, a: int, d: int)
    requires 0 <= i <= j <= |s| && WholeEmailAt(s[i..j], a, d)
    ensures EmailAt(s, i + a, i + d)
  {
    var t := s[i..j];
    var before, middle, after := t[..a], t[a + 1..d], t[d + 1..];
    assert s[i + a - 1] == before[a - 1];
    assert s[i + d + 1] == after[0];
    forall k | i + a < k < i + d ensures !IsWhitespace(s[k]) {
      assert s[k] == t[k - i] == middle[k - i - a - 1];
    }
  }

  // ---------------------------------------------------------------------
  // validateStep

  /** The fields step `n` checks; the status is never checked. */
  function StepFields(n: int): set<Field> {
    if n == 1 then {Name, Email}
    else if n == 2 then {Phone, Vehicle}
    else if n == 3 then {Location}
    else {}
  }

  /** Whether field `g` of `f` fails its check: required fields must not be
      blank, and the e-mail must in addition match the pattern. */
  predicate Invalid(f: FormData, g: Field) {
    match g
    case Name => IsBlank(f.name)
    case Email => IsBlank(f.email) || !EmailShaped(f.email)
    case Phone => IsBlank(f.phone)
    case Vehicle => IsBlank(f.vehicle)
    case Status => false
    case Location => IsBlank(f.location)
  }

  /** The error object `validateStep(n)` builds from the current form: an
      entry for each field of step `n` that fails its check, with the
      message for that failure, and nothing else. */
  function StepErrors(f: FormData, n: int): (r: map<Field, string>)
    ensures Name in r <==> n == 1 && IsBlank(f.name)
    ensures Email in r <==> n == 1 && (IsBlank(f.email) || !EmailShaped(f.email))
    ensures Phone in r <==> n == 2 && IsBlank(f.phone)
    ensures Vehicle in r <==> n == 2 && IsBlank(f.vehicle)
    ensures Location in r <==> n == 3 && IsBlank(f.location)
    ensures Status !in r
    ensures Name in r ==> r[Name] == NameRequired
    ensures Email in r ==> r[Email] == if IsBlank(f.email) then EmailRequired else EmailInvalid
    ensures Phone in r ==> r[Phone] == PhoneRequired
    ensures Vehicle in r ==> r[Vehicle] == VehicleRequired
    ensures Location in r ==> r[Location] == LocationRequired
  {
    if n == 1 then
      var e := if IsBlank(f.name) then map[Name := NameRequired] else map[];
      if IsBlank(f.email) then e[Email := EmailRequired]
      else if !EmailShaped(f.email) then e[Email := EmailInvalid]
      else e
    else if n == 2 then
      var e := if IsBlank(f.phone) then map[Phone := PhoneRequired] else map[];
      if IsBlank(f.vehicle) then e[Vehicle := VehicleRequired] else e
    else if n == 3 then
      if IsBlank(f.location) then map[Location := LocationRequired] else map[]
    else
      map[]
  }

  /** Every message `validateStep` stores is non-empty, so a stored error is
      always truthy. */
  lemma StepErrorsNonEmpty(f: FormData, n: int)
    ensures forall g :: g in StepErrors(f, n) ==> StepErrors(f, n)[g] != ""
  {
  }

  /** Step `n` passes exactly when none of its fields is invalid. */
  lemma StepPassesIff(f: FormData, n: int)
    ensures StepErrors(f, n) == map[] <==> forall g :: g in StepFields(n) ==> !Invalid(f, g)
  {
    var r := StepErrors(f, n);
    if r != map[] {
      var g :| g in r;
      assert g in StepFields(n) && Invalid(f, g);
    }
  }

  /** What step `n` reports depends only on the fields it checks. */
  lemma StepErrorsLocal(f: FormData, f': FormData, n: int)
    requires forall g :: g in StepFields(n) ==> f.Get(g) == f'.Get(g)
    ensures StepErrors(f, n) == StepErrors(f', n)
  {
    if n == 1 {
      assert f.name == f'.name && f.email == f'.email by {
        assert f.Get(Name) == f'.Get(Name) && f.Get(Email) == f'.Get(Email);
      }
    } else if n == 2 {
      assert f.phone == f'.phone && f.vehicle == f'.vehicle by {
        assert f.Get(Phone) == f'.Get(Phone) && f.Get(Vehicle) == f'.Get(Vehicle);
      }
    } else if n == 3 {
      assert f.location == f'.location by {
        assert f.Get(Location) == f'.Get(Location);
      }
    }
  }

  /** The form as first opened passes no step. */
  lemma InitialFormFailsEveryStep(n: int)
    requires 1 <= n <= TotalSteps
    ensures StepErrors(InitialForm, n).Keys == StepFields(n)
    ensures n == 1 ==> StepErrors(InitialForm, n)[Email] == EmailRequired
  {
  }

  // ---------------------------------------------------------------------
  // formatPhone

  /** `(DD) DDDDD-DDDD` from eleven digits: the area code in parentheses,
      a space, five digits, a hyphen and four digits. */
  function PhoneMask(d: string): (r: string)
    requires |d| == 11
    ensures |r| == 15
    ensures r[0] == '(' && r[3] == ')' && r[4] == ' ' && r[10] == '-'
    ensures r[1..3] == d[..2] && r[5..10] == d[2..7] && r[11..] == d[7..]
  {
    "(" + d[..2] + ") " + d[2..7] + "-" + d[7..]
  }

  /** `d.replace(/(\d{2})(\d{5})(\d{4})/, '($1) $2-$3')` on a string of
      digits: the leftmost run of eleven digits starts at index 0. */
  function ReplacePhonePattern(d: string): (r: string)
    requires AllDigits(d)
    ensures |d| < 11 ==> r == d
    ensures |d| >= 11 ==> |r| == |d| + 4 && r[..15] == PhoneMask(d[..11]) && r[15..] == d[11..]
  {
    if |d| >= 11 then PhoneMask(d[..11]) + d[11..] else d
  }

  /** `formatPhone(value)`. */
  function FormatPhone(value: string): (r: string)
    ensures |Digits(value)| == 11 ==> r == PhoneMask(Digits(value))
    ensures |Digits(value)| < 11 ==> r == Digits(value)
    ensures |Digits(value)| > 11 ==> r == value
  {
    var numbers := Digits(value);
    if |numbers| <= 11 then
      assert |numbers| == 11 ==> numbers[11..] == [] && numbers[..11] == numbers;
      ReplacePhonePattern(numbers)
    else
      value
  }

  /** The mask adds punctuation only: its digits are the eleven it was given. */
  lemma PhoneMaskDigits(d: string)
    requires |d| == 11 && AllDigits(d)
    ensures Digits(PhoneMask(d)) == d
  {
    var p1, p2, p3 := d[..2], d[2..7], d[7..];
    assert PhoneMask(d) == ['('] + (p1 + ([')'] + ([' '] + (p2 + (['-'] + p3)))));
    DigitsOfMaskTail(p2, p3);
    DigitsOfMaskHead(p1, p2 + (['-'] + p3));
    assert p1 + p2 + p3 == d;
  }

  /** The digits of `DDDDD-DDDD` are the two groups joined. */
  lemma DigitsOfMaskTail(p2: string, p3: string)
    requires AllDigits(p2) && AllDigits(p3)
    ensures Digits(p2 + (['-'] + p3)) == p2 + p3
  {
    DigitsSkip('-', p3);
    DigitsAppend(p2, ['-'] + p3);
  }

  /** The digits of `(DD) rest` are the area code followed by those of `rest`. */
  lemma DigitsOfMaskHead(p1: string, rest: string)
    requires AllDigits(p1)
    ensures Digits(['('] + (p1 + ([')'] + ([' '] + rest)))) == p1 + Digits(rest)
  {
    DigitsSkip(' ', rest);
    DigitsSkip(')', [' '] + rest);
    DigitsAppend(p1, [')'] + ([' '] + rest));
    DigitsSkip('(', p1 + ([')'] + ([' '] + rest)));
  }

  /** A character that is not a digit contributes nothing to `Digits`. */
  lemma DigitsSkip(c: char, s: string)
    requires !IsAsciiDigit(c)
    ensures Digits([c] + s) == Digits(s)
  {
    assert ([c] + s)[1..] == s;
  }

  /** Formatting never changes which digits the value holds. */
  lemma FormatPhoneKeepsDigits(value: string)
    ensures Digits(FormatPhone(value)) == Digits(value)
  {
    var d := Digits(value);
    if |d| == 11 {
      PhoneMaskDigits(d);
    }
  }

  /** Formatting a formatted value changes nothing, so re-running the input
      handler on its own output is harmless. */
  lemma FormatPhoneIdempotent(value: string)
    ensures FormatPhone(FormatPhone(value)) == FormatPhone(value)
  {
    FormatPhoneKeepsDigits(value);
  }

  /** A formatted eleven-digit number has the punctuation at fixed places. */
  lemma FormatPhoneLayout(value: string)
    requires |Digits(value)| == 11
    ensures var r := FormatPhone(value);
      && r[0] == '(' && r[3] == ')' && r[4] == ' ' && r[10] == '-'
      && r[1..3] == Digits(value)[..2]
      && r[5..10] == Digits(value)[2..7]
      && r[11..] == Digits(value)[7..]
  {
  }

  // ---------------------------------------------------------------------
  // The wizard component

  /** The `DriverRegister` component: the wizard's step, the form, the
      current errors, and the `open` flag it reports to its parent through
      `onOpenChange`. */
  class DriverRegisterForm {
    var step: int
    var formData: FormData
    var errors: map<Field, string>
    var sheetOpen: bool

    /** The step stays within 1..3 and every stored error message is
        non-empty (so the truthiness test `errors[field]` is membership). */
    ghost predicate Valid()
      reads this
    {
      && 1 <= step <= TotalSteps
      && forall g :: g in errors ==> errors[g] != ""
    }

    constructor (open: bool)
      ensures Valid()
      ensures step == 1 && formData == InitialForm && errors == map[]
      ensures sheetOpen == open
    {
      step := 1;
      formData := InitialForm;
      errors := map[];
      sheetOpen := open;
    }

    /** `validateStep(n)`: replaces `errors` with step `n`'s errors and
        reports whether there were none. */
    method ValidateStep(n: int) returns (ok: bool)
      requires Valid()
      modifies this`errors
      ensures Valid()
      ensures errors == StepErrors(formData, n)
      ensures ok <==> errors == map[]
    {
      var f := formData;
      var newErrors: map<Field, string> := map[];
      if n == 1 {
        if IsBlank(f.name) { newErrors := newErrors[Name := NameRequired]; }
        if IsBlank(f.email) { newErrors := newErrors[Email := EmailRequired]; }
        else if !EmailShaped(f.email) { newErrors := newErrors[Email := EmailInvalid]; }
        assert newErrors == StepErrors(f, n);
      } else if n == 2 {
        if IsBlank(f.phone) { newErrors := newErrors[Phone := PhoneRequired]; }
        if IsBlank(f.vehicle) { newErrors := newErrors[Vehicle := VehicleRequired]; }
        assert newErrors == StepErrors(f, n);
      } else if n == 3 {
        if IsBlank(f.location) { newErrors := newErrors[Location := LocationRequired]; }
        assert newErrors == StepErrors(f, n);
      }
      StepErrorsNonEmpty(f, n);
      errors := newErrors;
      ok := |newErrors| == 0;
    }

    /** `nextStep`: validates the current step and advances by one when it
        passes and the last step has not been reached. */
    method NextStep()
      requires Valid()
      modifies this`step, this`errors
      ensures Valid()
      ensures errors == StepErrors(formData, old(step))
      ensures step == if errors == map[] && old(step) < TotalSteps then old(step) + 1 else old(step)
    {
      var ok := ValidateStep(step);
      if ok && step < TotalSteps {
        step := step + 1;
      }
    }

    /** `prevStep`: goes back one step unless on the first. */
    method PrevStep()
      requires Valid()
      modifies this`step
      ensures Valid()
      ensures step == if old(step) > 1 then old(step) - 1 else old(step)
    {
      if step > 1 {
        step := step - 1;
      }
    }

    /** `handleInputChange(field, value)`: sets that one field and drops its
        error, if it had one. */
    method HandleInputChange(field: Field, value: string)
      requires Valid()
      modifies this`formData, this`errors
      ensures Valid()
      ensures formData == old(formData).With(field, value)
      ensures errors == old(errors) - {field}
    {
      formData := formData.With(field, value);
      if field in errors && errors[field] != "" {
        errors := errors - {field};
      }
    }

    /** `handlePhoneChange(value)`: stores the formatted phone number. */
    method HandlePhoneChange(value: string)
      requires Valid()
      modifies this`formData, this`errors
      ensures Valid()
      ensures formData == old(formData).With(Phone, FormatPhone(value))
      ensures errors == old(errors) - {Phone}
    {
      var formatted := FormatPhone(value);
      HandleInputChange(Phone, formatted);
    }

    /** `handleSubmit`: validates step 3 only; on success closes the sheet
        and resets the wizard to its initial state, otherwise only the errors
        change. */
    method HandleSubmit()
      requires Valid()
      modifies this
      ensures Valid()
      ensures var e := StepErrors(old(formData), 3);
        if e == map[] then
          step == 1 && formData == InitialForm && errors == map[] && !sheetOpen
        else
          errors == e && step == old(step) && formData == old(formData) && sheetOpen == old(sheetOpen)
    {
      var ok := ValidateStep(3);
      if ok {
        sheetOpen := false;
        step := 1;
        formData := InitialForm;
        errors := map[];
      }
    }
  }
}
