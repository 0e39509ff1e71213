/** The public booking request form: its fields, the budget and duration
    inputs, the ordered validation that fills the error dictionary, and the
    submit step that stores a pending request. */
module BookingForm {
  import opened Types
  import opened Lists
  import opened Strings
  import opened Storage

  /** The form's state object. */
  datatype FormData = FormData(
    clientName: string,
    clientEmail: string,
    clientPhone: string,
    eventDate: string,
    eventType: string,
    venue: string,
    duration: int,
    guests: int,
    budget: string,
    message: string)

  /** The state the form starts in. */
  const InitialForm := FormData("", "", "", "", "", "", 60, 50, "", "")

  /** The named inputs of the form; the guest count has no input. */
  datatype Field = ClientName | ClientEmail | ClientPhone | EventDate | EventType
                 | Venue | Duration | Budget | Message

  const NameRequired := "Nome é obrigatório"
  const EmailRequired := "Email é obrigatório"
  const PhoneRequired := "Telefone é obrigatório"
  const DateRequired := "Data do evento é obrigatória"
  const TypeRequired := "Tipo de evento é obrigatório"
  const VenueRequired := "Local é obrigatório"
  const DurationRequired := "Duração é obrigatória"
  const BudgetRequired := "Orçamento é obrigatório"
  const DateInPast := "A data do evento não pode ser no passado"
  const DateTaken := "Esta data já está reservada. Por favor escolha outra data."
  const EmailInvalid := "Por favor insira um email válido"
  const BudgetInvalid := "Orçamento deve conter apenas números (máximo 5 dígitos)"

  // ---------------------------------------------------------------------
  // Budget

  /** `/^\d{1,5}$/`. */
  predicate BudgetValid(s: string) {
    1 <= |s| <= 5 && AllDigits(s)
  }

  /** `value.replace(/\D/g, '').slice(0, 5)`: the digits of the input, at
      most the first five. */
  function SanitizeBudget(v: string): (r: string)
    ensures AllDigits(r) && |r| <= 5
    ensures forall c :: c in r ==> c in v
    ensures |r| <= |Filter(v, IsDigit)| && r == Filter(v, IsDigit)[..|r|]
    ensures |r| == 5 || r == Filter(v, IsDigit)
  {
    var digits := Filter(v, IsDigit);
    if |digits| <= 5 then digits else digits[..5]
  }

  /** Typing into the budget input one character at a time: an empty input
      stores nothing, a digit is appended while fewer than five are held,
      and anything else leaves the stored value as it was. */
  lemma SanitizeTyped(v: string, c: char)
    ensures SanitizeBudget("") == ""
    ensures SanitizeBudget(v + [c]) ==
      if IsDigit(c) && |SanitizeBudget(v)| < 5 then SanitizeBudget(v) + [c] else SanitizeBudget(v)
  {
    FilterAppend(v, [c], IsDigit);
    assert Filter([c], IsDigit) == if IsDigit(c) then [c] else [];
    var d := Filter(v, IsDigit);
    if |d| >= 5 {
      assert (d + Filter([c], IsDigit))[..5] == d[..5];
    }
  }

  /** A budget that already matches the pattern passes through unchanged. */
  lemma SanitizeKeepsValid(v: string)
    requires BudgetValid(v)
    ensures SanitizeBudget(v) == v
  {
    FilterKeepsAll(v, IsDigit);
  }

  /** Sanitising twice is sanitising once. */
  lemma SanitizeIdempotent(v: string)
    ensures SanitizeBudget(SanitizeBudget(v)) == SanitizeBudget(v)
  {
    var r := SanitizeBudget(v);
    FilterKeepsAll(r, IsDigit);
  }

  /** What the budget input stores is either empty or matches the pattern,
      and is never blank unless empty: through the input, the only budget
      error `validateForm` can raise is the required one. */
  lemma SanitizedBudgetPasses(v: string)
    ensures SanitizeBudget(v) == "" || BudgetValid(SanitizeBudget(v))
    ensures IsBlank(SanitizeBudget(v)) <==> SanitizeBudget(v) == ""
  {
    var r := SanitizeBudget(v);
    if r != "" {
      assert IsDigit(r[0]) && !IsWhitespace(r[0]);
    }
  }

  // ---------------------------------------------------------------------
  // Duration

  /** The run of decimal digits `s` starts with. */
  function LeadingDigits(s: string): (r: string)
    ensures AllDigits(r) && |r| <= |s| && r == s[..|r|]
    ensures |r| < |s| ==> !IsDigit(s[|r|])
  {
    if s == [] || !IsDigit(s[0]) then [] else [s[0]] + LeadingDigits(s[1..])
  }

  /** `parseInt(value)` on the selected option; no digits gives `NaN`,
      which the form treats like 0 (both are falsy). */
  function ParseDuration(v: string): (n: int)
    ensures n >= 0
  {
    var d := LeadingDigits(v);
    if d == [] then 0 else DigitsValue(d)
  }

  lemma {:induction false} LeadingDigitsOfDigits(s: string)
    requires AllDigits(s)
    ensures LeadingDigits(s) == s
  {
    if s != [] {
      LeadingDigitsOfDigits(s[1..]);
    }
  }

  /** Every option value reads back as the number it was written from, so
      the 45, 60 and 90 minute options give those durations. */
  lemma ParseDurationOfOption(n: nat)
    ensures ParseDuration(NatToString(n)) == n
  {
    LeadingDigitsOfDigits(NatToString(n));
    NatToStringRoundTrip(n);
  }

  // ---------------------------------------------------------------------
  // Email

  /** A character `[^\s@]` accepts. */
  predicate Plain(c: char) {
    !IsWhitespace(c) && c != '@'
  }

  predicate AllPlain(t: string) {
    forall k :: 0 <= k < |t| ==> Plain(t[k])
  }

  /** `s` is `a@b.c` with the `@` at `i`, the dot at `j`, and `a`, `b`, `c`
      non-empty runs of plain characters. */
  predicate SplitAt(s: string, i: int, j: int) {
    0 < i && i + 1 < j < |s| - 1 && s[i] == '@' && s[j] == '.'
    && AllPlain(s[..i]) && AllPlain(s[i + 1..j]) && AllPlain(s[j + 1..])
  }

  /** `/^[^\s@]+@[^\s@]+\.[^\s@]+$/.test(s)`, read as the pattern says. */
  ghost predicate EmailPattern(s: string) {
    exists i, j :: SplitAt(s, i, j)
  }

  /** The domain after the `@`: plain characters with a dot that is neither
      first nor last. */
  predicate DomainValid(d: string) {
    AllPlain(d) && exists j | 0 < j < |d| - 1 :: d[j] == '.'
  }

  /** The check the form makes: a plain name before the first `@`, and a
      valid domain after it. An accepted address is at least five
      characters long (`a@b.c`) and holds no whitespace. */
  predicate EmailValid(s: string)
    ensures EmailValid(s) ==> |s| >= 5 && forall k :: 0 <= k < |s| ==> !IsWhitespace(s[k])
  {
    var at := IndexOf(s, "@");
    0 < at && AllPlain(s[..at]) && DomainValid(s[at + 1..])
  }

  lemma EmailValidGivesPattern(s: string)
    requires EmailValid(s)
    ensures EmailPattern(s)
  {
    var at := IndexOf(s, "@");
    var d := s[at + 1..];
    var k :| 0 < k < |d| - 1 && d[k] == '.';
    assert s[at..at + 1] == "@";
    assert s[at] == '@';
    assert s[at + 1..at + 1 + k] == d[..k];
    assert s[at + 1 + k + 1..] == d[k + 1..];
    assert SplitAt(s, at, at + 1 + k);
  }

  /** In a string the pattern splits at `i`, the first `@` is at `i`. */
  lemma FirstAtOfSplit(s: string, i: int, j: int)
    requires SplitAt(s, i, j)
    ensures IndexOf(s, "@") == i
  {
    assert OccursAt(s, "@", i) by { assert s[i..i + 1] == [s[i]]; }
    forall k | 0 <= k < i ensures !OccursAt(s, "@", k) {
      assert s[..i][k] == s[k];
      assert k + 1 <= |s| ==> s[k..k + 1][0] == s[k];
    }
    var r := IndexOf(s, "@");
    assert r != -1 && !(r < i) && !(i < r);
  }

  lemma PatternGivesEmailValid(s: string)
    requires EmailPattern(s)
    ensures EmailValid(s)
  {
    var i, j :| SplitAt(s, i, j);
    FirstAtOfSplit(s, i, j);
    var d := s[i + 1..];
    var dot := j - i - 1;
    assert d[dot] == '.';
    forall k | 0 <= k < |d| ensures Plain(d[k]) {
      if k < dot {
        assert d[k] == s[i + 1..j][k];
      } else if k > dot {
        assert d[k] == s[j + 1..][k - dot - 1];
      }
    }
  }

  /** The left-to-right check accepts exactly the strings the pattern
      matches. */
  lemma EmailValidIffPattern(s: string)
    ensures EmailValid(s) <==> EmailPattern(s)
  {
    if EmailValid(s) {
      EmailValidGivesPattern(s);
    }
    if EmailPattern(s) {
      PatternGivesEmailValid(s);
    }
  }

  /** A valid email splits into the local part, the domain name and the
      suffix, each non-empty and plain; and any such parts make one. */
  lemma EmailParts(a: string, b: string, c: string)
    requires |a| > 0 && |b| > 0 && |c| > 0 && AllPlain(a) && AllPlain(b) && AllPlain(c)
    ensures EmailValid(a + "@" + b + "." + c)
  {
    var s := a + "@" + b + "." + c;
    assert s[..|a|] == a;
    assert s[|a| + 1..|a| + 1 + |b|] == b;
    assert s[|a| + 1 + |b| + 1..] == c;
    assert SplitAt(s, |a|, |a| + 1 + |b|);
    EmailValidIffPattern(s);
  }

  // ---------------------------------------------------------------------
  // Validation

  const AllFields: set<Field> :=
    {ClientName, ClientEmail, ClientPhone, EventDate, EventType, Venue, Duration, Budget, Message}

  /** The message `validateForm` leaves for one field. Names, phones, venues
      and budgets need more than whitespace, the date and the type need
      only be non-empty, the duration non-zero; the booked message beats the
      past one, which beats the required one; a malformed email or budget
      replaces its required message; the message field is never checked. */
  ghost function FieldError(f: FormData, datePast: bool, dateBooked: bool, k: Field): Option<string> {
    match k
    case ClientName => if IsBlank(f.clientName) then Some(NameRequired) else None
    case ClientEmail =>
      if f.clientEmail != "" && !EmailPattern(f.clientEmail) then Some(EmailInvalid)
      else if IsBlank(f.clientEmail) then Some(EmailRequired)
      else None
    case ClientPhone => if IsBlank(f.clientPhone) then Some(PhoneRequired) else None
    case EventDate =>
      if f.eventDate == "" then Some(DateRequired)
      else if dateBooked then Some(DateTaken)
      else if datePast then Some(DateInPast)
      else None
    case EventType => if f.eventType == "" then Some(TypeRequired) else None
    case Venue => if IsBlank(f.venue) then Some(VenueRequired) else None
    case Duration => if f.duration == 0 then Some(DurationRequired) else None
    case Budget =>
      if f.budget != "" && !BudgetValid(f.budget) then Some(BudgetInvalid)
      else if IsBlank(f.budget) then Some(BudgetRequired)
      else None
    case Message => None
  }

  /** The error dictionary, field by field. */
  ghost function ErrorsFor(f: FormData, datePast: bool, dateBooked: bool): map<Field, string> {
    map k | k in AllFields && FieldError(f, datePast, dateBooked, k).Some? :: FieldError(f, datePast, dateBooked, k).value
  }

  /** The outcomes of `validateForm`'s tests, in the order it makes them. */
  datatype Tests = Tests(
    nameBlank: bool, emailBlank: bool, phoneBlank: bool, dateEmpty: bool, typeEmpty: bool,
    venueBlank: bool, durationZero: bool, budgetBlank: bool,
    datePast: bool, dateTaken: bool, emailBad: bool, budgetBad: bool)

  /** The tests as the form makes them on `f`. */
  ghost function TestsOf(f: FormData, datePast: bool, dateBooked: bool): Tests {
    Tests(IsBlank(f.clientName), IsBlank(f.clientEmail), IsBlank(f.clientPhone), f.eventDate == "",
          f.eventType == "", IsBlank(f.venue), f.duration == 0, IsBlank(f.budget),
          f.eventDate != "" && datePast, f.eventDate != "" && dateBooked,
          f.clientEmail != "" && !EmailPattern(f.clientEmail), f.budget != "" && !BudgetValid(f.budget))
  }

  /** The first eight assignments to `newErrors`: the required fields. */
  function RequiredErrors(t: Tests): map<Field, string> {
    var e0: map<Field, string> := map[];
    var e1 := if t.nameBlank then e0[ClientName := NameRequired] else e0;
    var e2 := if t.emailBlank then e1[ClientEmail := EmailRequired] else e1;
    var e3 := if t.phoneBlank then e2[ClientPhone := PhoneRequired] else e2;
    var e4 := if t.dateEmpty then e3[EventDate := DateRequired] else e3;
    var e5 := if t.typeEmpty then e4[EventType := TypeRequired] else e4;
    var e6 := if t.venueBlank then e5[Venue := VenueRequired] else e5;
    var e7 := if t.durationZero then e6[Duration := DurationRequired] else e6;
    if t.budgetBlank then e7[Budget := BudgetRequired] else e7
  }

  lemma RequiredEmail(t: Tests)
    ensures ClientEmail in RequiredErrors(t) <==> t.emailBlank
    ensures ClientEmail in RequiredErrors(t) ==> RequiredErrors(t)[ClientEmail] == EmailRequired
  {
  }

  lemma RequiredName(t: Tests)
    ensures ClientName in RequiredErrors(t) <==> t.nameBlank
    ensures ClientName in RequiredErrors(t) ==> RequiredErrors(t)[ClientName] == NameRequired
  {
  }

  /** `validateForm`'s assignments to `newErrors`, in order: each test that
      fires sets its field's message, a later one replacing an earlier one. */
  function Fill(t: Tests): map<Field, string> {
    var e8 := RequiredErrors(t);
    var e9 := if t.datePast then e8[EventDate := DateInPast] else e8;
    var e10 := if t.dateTaken then e9[EventDate := DateTaken] else e9;
    var e11 := if t.emailBad then e10[ClientEmail := EmailInvalid] else e10;
    if t.budgetBad then e11[Budget := BudgetInvalid] else e11
  }

  /** Field by field, the message left by the last test that fired. */
  lemma FillName(t: Tests)
    ensures ClientName in Fill(t) <==> t.nameBlank
    ensures ClientName in Fill(t) ==> Fill(t)[ClientName] == NameRequired
  {
    RequiredName(t);
  }

  lemma FillPhone(t: Tests)
    ensures ClientPhone in Fill(t) <==> t.phoneBlank
    ensures ClientPhone in Fill(t) ==> Fill(t)[ClientPhone] == PhoneRequired
  {
  }

  lemma FillType(t: Tests)
    ensures EventType in Fill(t) <==> t.typeEmpty
    ensures EventType in Fill(t) ==> Fill(t)[EventType] == TypeRequired
  {
  }

  lemma FillVenue(t: Tests)
    ensures Venue in Fill(t) <==> t.venueBlank
    ensures Venue in Fill(t) ==> Fill(t)[Venue] == VenueRequired
  {
  }

  lemma FillDuration(t: Tests)
    ensures Duration in Fill(t) <==> t.durationZero
    ensures Duration in Fill(t) ==> Fill(t)[Duration] == DurationRequired
    ensures Message !in Fill(t)
  {
  }

  /** For the date, the email and the budget a later test's message
      replaces an earlier one. */
  lemma FillDate(t: Tests)
    ensures EventDate in Fill(t) <==> t.dateEmpty || t.datePast || t.dateTaken
    ensures EventDate in Fill(t) ==>
      Fill(t)[EventDate] == if t.dateTaken then DateTaken else if t.datePast then DateInPast else DateRequired
  {
  }

  lemma FillEmail(t: Tests)
    ensures ClientEmail in Fill(t) <==> t.emailBlank || t.emailBad
    ensures ClientEmail in Fill(t) ==> Fill(t)[ClientEmail] == if t.emailBad then EmailInvalid else EmailRequired
  {
    RequiredEmail(t);
  }

  lemma FillBudget(t: Tests)
    ensures Budget in Fill(t) <==> t.budgetBlank || t.budgetBad
    ensures Budget in Fill(t) ==> Fill(t)[Budget] == if t.budgetBad then BudgetInvalid else BudgetRequired
  {
  }

  /** Filling the dictionary in source order gives, field by field, the
      messages `FieldError` names: the overwrites resolve as described. */
  lemma FillIsErrorsFor(f: FormData, datePast: bool, dateBooked: bool)
    ensures Fill(TestsOf(f, datePast, dateBooked)) == ErrorsFor(f, datePast, dateBooked)
  {
    var e := Fill(TestsOf(f, datePast, dateBooked));
    FillAgrees(f, datePast, dateBooked, ClientName);
    FillAgrees(f, datePast, dateBooked, ClientEmail);
    FillAgrees(f, datePast, dateBooked, ClientPhone);
    FillAgrees(f, datePast, dateBooked, EventDate);
    FillAgrees(f, datePast, dateBooked, EventType);
    FillAgrees(f, datePast, dateBooked, Venue);
    FillAgrees(f, datePast, dateBooked, Duration);
    FillAgrees(f, datePast, dateBooked, Budget);
    FillAgrees(f, datePast, dateBooked, Message);
    SameErrors(e, f, datePast, dateBooked);
  }

  lemma FillAgrees(f: FormData, datePast: bool, dateBooked: bool, k: Field)
    ensures Agrees(Fill(TestsOf(f, datePast, dateBooked)), f, datePast, dateBooked, k)
  {
    var t := TestsOf(f, datePast, dateBooked);
    match k {
      case ClientName => FillName(t);
      case ClientPhone => FillPhone(t);
      case EventType => FillType(t);
      case Venue => FillVenue(t);
      case Duration => FillDuration(t);
      case Message => FillDuration(t);
      case EventDate => FillDate(t);
      case ClientEmail =>
        FillEmail(t);
        if f.clientEmail == "" {
          assert IsBlank(f.clientEmail);
        }
      case Budget =>
        FillBudget(t);
        if f.budget == "" {
          assert IsBlank(f.budget);
        }
    }
  }

  /** `e` holds exactly the message `FieldError` gives field `k`, if any. */
  ghost predicate Agrees(e: map<Field, string>, f: FormData, datePast: bool, dateBooked: bool, k: Field) {
    && (k in e <==> FieldError(f, datePast, dateBooked, k).Some?)
    && (k in e ==> e[k] == FieldError(f, datePast, dateBooked, k).value)
  }

  /** A dictionary that agrees with `FieldError` on every field is the
      error dictionary. */
  lemma SameErrors(e: map<Field, string>, f: FormData, datePast: bool, dateBooked: bool)
    requires Agrees(e, f, datePast, dateBooked, ClientName) && Agrees(e, f, datePast, dateBooked, ClientEmail)
    requires Agrees(e, f, datePast, dateBooked, ClientPhone) && Agrees(e, f, datePast, dateBooked, EventDate)
    requires Agrees(e, f, datePast, dateBooked, EventType) && Agrees(e, f, datePast, dateBooked, Venue)
    requires Agrees(e, f, datePast, dateBooked, Duration) && Agrees(e, f, datePast, dateBooked, Budget)
    requires Agrees(e, f, datePast, dateBooked, Message)
    ensures e == ErrorsFor(f, datePast, dateBooked)
  {
    var r := ErrorsFor(f, datePast, dateBooked);
    forall k ensures (k in e <==> k in r) && (k in e ==> e[k] == r[k]) {
      match k {
        case ClientName => case ClientEmail => case ClientPhone => case EventDate => case EventType =>
        case Venue => case Duration => case Budget => case Message =>
      }
      assert Agrees(e, f, datePast, dateBooked, k);
    }
    assert e.Keys == r.Keys;
  }

  /** `validateForm()` answers true exactly when every required field is
      filled, the date is neither past nor booked, and the email and budget
      match their patterns. */
  lemma ValidIff(f: FormData, datePast: bool, dateBooked: bool)
    ensures ErrorsFor(f, datePast, dateBooked) == map[] <==>
      && !IsBlank(f.clientName) && !IsBlank(f.clientPhone) && !IsBlank(f.venue)
      && f.eventType != "" && f.duration != 0
      && f.eventDate != "" && !datePast && !dateBooked
      && EmailPattern(f.clientEmail) && BudgetValid(f.budget)
  {
    var e := ErrorsFor(f, datePast, dateBooked);
    if EmailPattern(f.clientEmail) {
      var i, j :| SplitAt(f.clientEmail, i, j);
      assert f.clientEmail[..i][0] == f.clientEmail[0];
      assert !IsWhitespace(f.clientEmail[0]);
    } else if f.clientEmail == "" {
      assert ClientEmail in e;
    }
    if BudgetValid(f.budget) {
      assert !IsWhitespace(f.budget[0]);
    } else if f.budget == "" {
      assert Budget in e;
    }
    if e != map[] {
      var k :| k in e;
    } else {
      assert ClientName !in e && ClientPhone !in e && Venue !in e && EventType !in e;
      assert Duration !in e && EventDate !in e && ClientEmail !in e && Budget !in e;
    }
  }

  /** The request `handleSubmit` stores: the form's fields, pending, no
      proposal sent. */
  function RequestOf(f: FormData, id: string, now: int): (b: Booking)
    ensures b.status == Pending && !b.proposalSent && b.proposalAmount == None
    ensures b.id == id && b.createdAt == now
    ensures EditFormOf(b) == EditForm(f.clientName, f.clientEmail, f.clientPhone, f.eventType,
                                      f.venue, f.duration, f.budget, f.message)
    ensures b.eventDate == f.eventDate && b.guests == f.guests
  {
    Booking(id, f.clientName, f.clientEmail, f.clientPhone, f.eventDate, f.eventType, f.venue,
            f.duration, f.guests, f.budget, f.message, Pending, false, None, now)
  }

  /** A request never books its date: after the append, a date is booked in
      the merged view exactly when it was before. */
  lemma RequestBooksNothing(user: seq<Booking>, f: FormData, id: string, now: int, date: string)
    ensures HasBookedOn(Merged(user + [RequestOf(f, id, now)]), date) <==> HasBookedOn(Merged(user), date)
  {
    var x := RequestOf(f, id, now);
    var tail := DedupFrom([x], SeedIds + IdsOf(user));
    MergedAppend(user, [x]);
    HasBookedOnAppend(Merged(user), tail, date);
    forall b | b in tail ensures b.status == Pending {
      assert b in [x];
    }
  }

  /** `!value.trim()`. */
  method TrimsToNothing(value: string) returns (blank: bool)
    ensures blank <==> IsBlank(value)
  {
    blank := Trim(value) == "";
    TrimEmptyIffBlank(value);
  }

  /** `emailRegex.test(email)`. */
  method CheckEmail(email: string) returns (ok: bool)
    ensures ok <==> EmailPattern(email)
  {
    ok := EmailValid(email);
    EmailValidIffPattern(email);
  }

  /** `validateForm`'s tests, each made as the form makes it. */
  method RunTests(f: FormData, datePast: bool, booked: bool) returns (t: Tests)
    ensures t == TestsOf(f, datePast, booked)
  {
    var nameBlank := TrimsToNothing(f.clientName);
    var emailBlank := TrimsToNothing(f.clientEmail);
    var phoneBlank := TrimsToNothing(f.clientPhone);
    var venueBlank := TrimsToNothing(f.venue);
    var budgetBlank := TrimsToNothing(f.budget);
    var emailOk := CheckEmail(f.clientEmail);
    t := Tests(nameBlank, emailBlank, phoneBlank, f.eventDate == "", f.eventType == "",
               venueBlank, f.duration == 0, budgetBlank,
               f.eventDate != "" && datePast, f.eventDate != "" && booked,
               f.clientEmail != "" && !emailOk, f.budget != "" && !BudgetValid(f.budget));
  }

  /** `Object.keys(e).length === 0` holds of the empty dictionary only. */
  lemma NoKeysIsEmpty(e: map<Field, string>)
    ensures |e.Keys| == 0 <==> e == map[]
  {
    if |e.Keys| == 0 {
      assert forall k :: k !in e.Keys;
    }
  }

  class FormView {
    const store: WebStore
    var form: FormData
    var errors: map<Field, string>

    constructor (store: WebStore)
      ensures this.store == store && form == InitialForm && errors == map[]
    {
      this.store := store;
      form := InitialForm;
      errors := map[];
    }

    /** `validateForm()`: the past-date test is the `datePast` input, the
        booked test asks the store. */
    method ValidateForm(datePast: bool) returns (valid: bool)
      modifies this`errors
      ensures errors == ErrorsFor(form, datePast, store.IsDateBooked(form.eventDate))
      ensures valid <==> errors == map[]
    {
      var f := form;
      var booked := store.IsDateBooked(f.eventDate);
      var t := RunTests(f, datePast, booked);
      var newErrors := Fill(t);
      FillIsErrorsFor(f, datePast, booked);
      errors := newErrors;
      valid := |errors.Keys| == 0;
      NoKeysIsEmpty(errors);
    }

    /** `handleInputChange`: the budget is sanitised, the duration parsed,
        any other field taken as typed; a field's non-empty error is
        blanked. */
    method HandleInputChange(field: Field, value: string)
      modifies this`form, this`errors
      ensures form == match field
        case ClientName => old(form).(clientName := value)
        case ClientEmail => old(form).(clientEmail := value)
        case ClientPhone => old(form).(clientPhone := value)
        case EventDate => old(form).(eventDate := value)
        case EventType => old(form).(eventType := value)
        case Venue => old(form).(venue := value)
        case Duration => old(form).(duration := ParseDuration(value))
        case Budget => old(form).(budget := SanitizeBudget(value))
        case Message => old(form).(message := value)
      ensures field in old(errors) && old(errors)[field] != "" ==> errors == old(errors)[field := ""]
      ensures !(field in old(errors) && old(errors)[field] != "") ==> errors == old(errors)
      ensures field !in errors || errors[field] == ""
    {
      match field {
        case ClientName => form := form.(clientName := value);
        case ClientEmail => form := form.(clientEmail := value);
        case ClientPhone => form := form.(clientPhone := value);
        case EventDate => form := form.(eventDate := value);
        case EventType => form := form.(eventType := value);
        case Venue => form := form.(venue := value);
        case Duration => form := form.(duration := ParseDuration(value));
        case Budget => form := form.(budget := SanitizeBudget(value));
        case Message => form := form.(message := value);
      }
      if field in errors && errors[field] != "" {
        errors := errors[field := ""];
      }
    }

    /** `handleSubmit`: a form that fails validation stores nothing; one
        that passes appends exactly one pending request. */
    method HandleSubmit(id: string, now: int, datePast: bool) returns (submitted: bool)
      modifies this`errors, store`user
      ensures submitted <==> ErrorsFor(form, datePast, HasBookedOn(Merged(old(store.user)), form.eventDate)) == map[]
      ensures submitted ==> store.user == old(store.user) + [RequestOf(form, id, now)]
      ensures !submitted ==> store.user == old(store.user)
      ensures errors == ErrorsFor(form, datePast, HasBookedOn(Merged(old(store.user)), form.eventDate))
    {
      submitted := ValidateForm(datePast);
      if !submitted {
        return;
      }
      store.AddBooking(RequestOf(form, id, now));
    }
  }
}
