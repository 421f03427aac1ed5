/**
 * The two-step booking wizard: trip details (departure date, traveller count), then
 * contact details (name, email, phone), then submission of the booking data.
 * Dates are whole day numbers; `today` is the day the check runs on.
 */
module BookingModal {
  import opened Options
  import opened Strings
  import Seqs
  import opened Types

  /** The departure-date input: empty, a calendar day, or text `Date` cannot parse. */
  datatype DateInput = Blank | OnDay(day: int) | Unparsable

  datatype BookingForm = BookingForm(
    departureDate: DateInput,
    numTravelers: int,
    contactName: string,
    contactEmail: string,
    contactPhone: string,
    specialRequests: string)

  const InitialForm := BookingForm(Blank, 1, "", "", "", "")

  // Error keys are the form's field names.
  const DepartureKey := "departure_date"
  const TravelersKey := "num_travelers"
  const NameKey := "contact_name"
  const EmailKey := "contact_email"
  const PhoneKey := "contact_phone"
  const SpecialRequestsKey := "special_requests"

  const SelectDateMessage := "Please select a departure date"
  const FutureDateMessage := "Departure date must be in the future"
  const AtLeastOneMessage := "At least 1 traveler required"
  const NameMessage := "Name is required"
  const EmailMessage := "Valid email is required"
  const PhoneMessage := "Valid phone number is required (9-15 digits)"

  function SeatsMessage(seatsAvailable: int): string {
    "Only " + IntToDecimal(seatsAvailable) + " seats available"
  }

  // ---------------------------------------------------------------- step 1

  /**
   * The date check: a date must be given and must not lie before today's midnight.
   * A date that does not parse compares false with today and so passes.
   */
  predicate DepartureAccepted(d: DateInput, today: int) {
    match d
    case Blank => false
    case OnDay(day) => day >= today
    case Unparsable => true
  }

  predicate TravelersAccepted(numTravelers: int, seatsAvailable: int) {
    1 <= numTravelers <= seatsAvailable
  }

  /** Step 1 passes exactly when both checks pass. */
  predicate Step1Ok(form: BookingForm, today: int, seatsAvailable: int) {
    DepartureAccepted(form.departureDate, today) && TravelersAccepted(form.numTravelers, seatsAvailable)
  }

  function DepartureMessage(d: DateInput): string {
    if d.Blank? then SelectDateMessage else FutureDateMessage
  }

  /**
   * What the step-1 error map holds: one entry per failed check, and for the traveller
   * count the seats message whenever the count exceeds the seats (it is written last).
   */
  ghost predicate Step1Report(form: BookingForm, today: int, seatsAvailable: int, e: map<string, string>) {
    && e.Keys <= {DepartureKey, TravelersKey}
    && (DepartureKey in e <==> !DepartureAccepted(form.departureDate, today))
    && (DepartureKey in e ==> e[DepartureKey] == DepartureMessage(form.departureDate))
    && (TravelersKey in e <==> !TravelersAccepted(form.numTravelers, seatsAvailable))
    && (TravelersKey in e ==>
          e[TravelersKey] == if form.numTravelers > seatsAvailable then SeatsMessage(seatsAvailable) else AtLeastOneMessage)
  }

  /** `validateStep1`'s error map, filled field by field. */
  method Step1Errors(form: BookingForm, today: int, seatsAvailable: int) returns (newErrors: map<string, string>)
    ensures Step1Report(form, today, seatsAvailable, newErrors)
    ensures newErrors == map[] <==> Step1Ok(form, today, seatsAvailable)
  {
    newErrors := map[];
    match form.departureDate {
      case Blank =>
        newErrors := newErrors[DepartureKey := SelectDateMessage];
      case OnDay(day) =>
        if day < today {
          newErrors := newErrors[DepartureKey := FutureDateMessage];
        }
      case Unparsable =>
    }
    if form.numTravelers < 1 {
      newErrors := newErrors[TravelersKey := AtLeastOneMessage];
    }
    if form.numTravelers > seatsAvailable {
      newErrors := newErrors[TravelersKey := SeatsMessage(seatsAvailable)];
    }
    assert DepartureKey != TravelersKey;
    assert newErrors == map[] <==> DepartureKey !in newErrors && TravelersKey !in newErrors;
  }

  /** The step-1 report pins the error map down completely. */
  lemma Step1ReportUnique(form: BookingForm, today: int, seatsAvailable: int, e1: map<string, string>, e2: map<string, string>)
    requires Step1Report(form, today, seatsAvailable, e1)
    requires Step1Report(form, today, seatsAvailable, e2)
    ensures e1 == e2
  {
  }

  /** A departure today is accepted; only earlier days are rejected. */
  lemma TodayIsAccepted(today: int)
    ensures DepartureAccepted(OnDay(today), today)
    ensures !DepartureAccepted(OnDay(today - 1), today)
  {
  }

  // ---------------------------------------------------------------- step 2

  predicate NameGiven(name: string) {
    Trim(name) != ""
  }

  /** The pattern `^\S+@\S+\.\S+$`: non-blank runs around an '@' and a later '.'. */
  predicate EmailPatternMatches(s: string) {
    exists at, dot | 0 < at < |s| && 0 < dot < |s| ::
      && at + 1 < dot && dot + 1 < |s| && s[at] == '@' && s[dot] == '.'
      && NoWhitespace(s[..at]) && NoWhitespace(s[at + 1..dot]) && NoWhitespace(s[dot + 1..])
  }

  predicate EmailAccepted(email: string) {
    email != "" && EmailPatternMatches(email)
  }

  /** A phone is accepted when, with every non-digit removed, it matches `^\d{9,15}$`. */
  predicate PhoneAccepted(phone: string) {
    phone != "" && DigitRun(Digits(phone), 9, 15)
  }

  predicate Step2Ok(form: BookingForm) {
    NameGiven(form.contactName) && EmailAccepted(form.contactEmail) && PhoneAccepted(form.contactPhone)
  }

  /** What the step-2 error map holds: one entry, with its message, per failed check. */
  ghost predicate Step2Report(form: BookingForm, e: map<string, string>) {
    && e.Keys <= {NameKey, EmailKey, PhoneKey}
    && (NameKey in e <==> !NameGiven(form.contactName))
    && (EmailKey in e <==> !EmailAccepted(form.contactEmail))
    && (PhoneKey in e <==> !PhoneAccepted(form.contactPhone))
    && (NameKey in e ==> e[NameKey] == NameMessage)
    && (EmailKey in e ==> e[EmailKey] == EmailMessage)
    && (PhoneKey in e ==> e[PhoneKey] == PhoneMessage)
  }

  /** `validateStep2`'s error map, filled field by field. */
  method Step2Errors(form: BookingForm) returns (newErrors: map<string, string>)
    ensures Step2Report(form, newErrors)
    ensures newErrors == map[] <==> Step2Ok(form)
  {
    newErrors := map[];
    if Trim(form.contactName) == "" {
      newErrors := newErrors[NameKey := NameMessage];
    }
    if form.contactEmail == "" || !EmailPatternMatches(form.contactEmail) {
      newErrors := newErrors[EmailKey := EmailMessage];
    }
    if form.contactPhone == "" || !DigitRun(Digits(form.contactPhone), 9, 15) {
      newErrors := newErrors[PhoneKey := PhoneMessage];
    }
    assert newErrors == map[] <==> NameKey !in newErrors && EmailKey !in newErrors && PhoneKey !in newErrors;
  }

  /** The name check passes exactly when the name has a character other than white space. */
  lemma NameGivenIff(name: string)
    ensures NameGiven(name) <==> exists i :: 0 <= i < |name| && !IsWhitespace(name[i])
  {
    TrimEmptyIff(name);
  }

  /** An accepted email is free of white space and has an '@' followed later by a '.'. */
  lemma EmailShape(s: string)
    requires EmailAccepted(s)
    ensures NoWhitespace(s) && '@' in s && '.' in s && |s| >= 5
  {
  }


  /** Every address of the form local@domain.tld with non-blank parts is accepted. */
  lemma EmailAcceptsParts(local: string, domain: string, tld: string)
    requires local != "" && domain != "" && tld != ""
    requires NoWhitespace(local) && NoWhitespace(domain) && NoWhitespace(tld)
    ensures EmailAccepted(local + "@" + domain + "." + tld)
  {
    var s := local + "@" + domain + "." + tld;
    var at, dot := |local|, |local| + 1 + |domain|;
    assert s[..at] == local;
    assert s[at + 1..dot] == domain;
    assert s[dot + 1..] == tld;
    assert s[at] == '@' && s[dot] == '.';
  }

  /** The phone check is a pure length check on the digits. */
  lemma PhoneAcceptedIff(phone: string)
    ensures PhoneAccepted(phone) <==> 9 <= |Digits(phone)| <= 15
  {
  }

  /** Spaces, dashes, brackets or any other non-digits inserted into a phone never change the outcome. */
  lemma PhoneIgnoresSeparators(before: string, separators: string, after: string)
    requires forall i :: 0 <= i < |separators| ==> !IsDigit(separators[i])
    ensures PhoneAccepted(before + separators + after) <==> PhoneAccepted(before + after)
  {
    Seqs.FilterAppend(IsDigit, before + separators, after);
    Seqs.FilterAppend(IsDigit, before, separators);
    Seqs.FilterAppend(IsDigit, before, after);
    Seqs.FilterKeeps(IsDigit, separators);
    assert Digits(separators) == [];
    PhoneAcceptedIff(before + separators + after);
    PhoneAcceptedIff(before + after);
  }

  // ---------------------------------------------------------------- submission

  /** The data sent to the API on submission. */
  datatype BookingPayload = BookingPayload(
    packageId: int,
    departureDate: DateInput,
    numTravelers: int,
    contactName: string,
    contactEmail: string,
    contactPhone: string,
    specialRequests: string)

  /** The form with the package id added and the phone reduced to its digits. */
  function Payload(packageId: int, form: BookingForm): (p: BookingPayload)
    ensures p.packageId == packageId && p.departureDate == form.departureDate && p.numTravelers == form.numTravelers
    ensures p.contactName == form.contactName && p.contactEmail == form.contactEmail
    ensures p.specialRequests == form.specialRequests
    ensures p.contactPhone == Digits(form.contactPhone)
    ensures forall i :: 0 <= i < |p.contactPhone| ==> IsDigit(p.contactPhone[i])
    ensures Seqs.IsSubseq(p.contactPhone, form.contactPhone)
    ensures forall c :: multiset(p.contactPhone)[c] == if IsDigit(c) then multiset(form.contactPhone)[c] else 0
  {
    Seqs.FilterIsSubseq(IsDigit, form.contactPhone);
    Seqs.FilterKeeps(IsDigit, form.contactPhone);
    BookingPayload(packageId, form.departureDate, form.numTravelers, form.contactName, form.contactEmail,
                   Digits(form.contactPhone), form.specialRequests)
  }

  /** A phone that passed step 2 is submitted as 9 to 15 digits. */
  lemma SubmittedPhoneLength(packageId: int, form: BookingForm)
    requires PhoneAccepted(form.contactPhone)
    ensures DigitRun(Payload(packageId, form).contactPhone, 9, 15)
  {
  }

  // ---------------------------------------------------------------- editing

  /** A change event from one of the inputs. */
  datatype Edit =
    | SetDepartureDate(date: DateInput)
    | SetNumTravelers(n: int)
    | SetContactName(name: string)
    | SetContactEmail(email: string)
    | SetContactPhone(phone: string)
    | SetSpecialRequests(text: string)

  /** The name of the input an edit comes from, which is also its error key. */
  function FieldName(edit: Edit): string {
    match edit
    case SetDepartureDate(_) => DepartureKey
    case SetNumTravelers(_) => TravelersKey
    case SetContactName(_) => NameKey
    case SetContactEmail(_) => EmailKey
    case SetContactPhone(_) => PhoneKey
    case SetSpecialRequests(_) => SpecialRequestsKey
  }

  /** `{ ...formData, [name]: value }`. */
  function ApplyEdit(form: BookingForm, edit: Edit): BookingForm {
    match edit
    case SetDepartureDate(d) => form.(departureDate := d)
    case SetNumTravelers(n) => form.(numTravelers := n)
    case SetContactName(s) => form.(contactName := s)
    case SetContactEmail(s) => form.(contactEmail := s)
    case SetContactPhone(s) => form.(contactPhone := s)
    case SetSpecialRequests(s) => form.(specialRequests := s)
  }

  /**
   * Editing a field blanks that field's error (the key stays, with an empty message)
   * and leaves every other error as it was.
   */
  function ClearError(errors: map<string, string>, name: string): (r: map<string, string>)
    ensures r.Keys == errors.Keys
    ensures name in errors ==> r[name] == ""
    ensures forall k :: k in errors && k != name ==> r[k] == errors[k]
  {
    if name in errors && errors[name] != "" then errors[name := ""] else errors
  }

  /** An edit touches exactly its own field of the form. */
  lemma EditTouchesOneField(form: BookingForm, edit: Edit)
    ensures var f := ApplyEdit(form, edit);
            && (FieldName(edit) != DepartureKey ==> f.departureDate == form.departureDate)
            && (FieldName(edit) != TravelersKey ==> f.numTravelers == form.numTravelers)
            && (FieldName(edit) != NameKey ==> f.contactName == form.contactName)
            && (FieldName(edit) != EmailKey ==> f.contactEmail == form.contactEmail)
            && (FieldName(edit) != PhoneKey ==> f.contactPhone == form.contactPhone)
            && (FieldName(edit) != SpecialRequestsKey ==> f.specialRequests == form.specialRequests)
  {
  }

  // ---------------------------------------------------------------- the component

  /** The wizard's component state: the step shown, the form and the error messages. */
  class Wizard {
    const pkg: TourPackage
    var step: int
    var form: BookingForm
    var errors: map<string, string>

    ghost predicate Valid()
      reads this
    {
      step == 1 || step == 2
    }

    constructor (pkg: TourPackage)
      ensures Valid()
      ensures this.pkg == pkg && step == 1 && form == InitialForm && errors == map[]
    {
      this.pkg := pkg;
      step := 1;
      form := InitialForm;
      errors := map[];
    }

    /** `handleChange`. */
    method HandleChange(edit: Edit)
      requires Valid()
      modifies this
      ensures Valid() && step == old(step)
      ensures form == ApplyEdit(old(form), edit)
      ensures errors == ClearError(old(errors), FieldName(edit))
    {
      form := ApplyEdit(form, edit);
      if FieldName(edit) in errors && errors[FieldName(edit)] != "" {
        errors := errors[FieldName(edit) := ""];
      }
    }

    /** `validateStep1`: replaces the errors by the step-1 report and says whether it is empty. */
    method ValidateStep1(today: int) returns (ok: bool)
      modifies this`errors
      ensures Step1Report(form, today, pkg.seatsAvailable, errors)
      ensures ok <==> Step1Ok(form, today, pkg.seatsAvailable)
      ensures ok <==> errors == map[]
    {
      var newErrors := Step1Errors(form, today, pkg.seatsAvailable);
      errors := newErrors;
      ok := |newErrors| == 0;
    }

    /** `validateStep2`: replaces the errors by the step-2 report and says whether it is empty. */
    method ValidateStep2() returns (ok: bool)
      modifies this`errors
      ensures Step2Report(form, errors)
      ensures ok <==> Step2Ok(form)
      ensures ok <==> errors == map[]
    {
      var newErrors := Step2Errors(form);
      errors := newErrors;
      ok := |newErrors| == 0;
    }

    /** `handleNext`: from step 1, validate and advance only on success; elsewhere do nothing. */
    method HandleNext(today: int)
      requires Valid()
      modifies this
      ensures Valid() && form == old(form)
      ensures old(step) == 1 ==> Step1Report(form, today, pkg.seatsAvailable, errors)
      ensures old(step) == 1 ==> (step == 2 <==> Step1Ok(form, today, pkg.seatsAvailable))
      ensures old(step) == 1 && !Step1Ok(form, today, pkg.seatsAvailable) ==> step == 1
      ensures old(step) != 1 ==> step == old(step) && errors == old(errors)
    {
      if step == 1 {
        var ok := ValidateStep1(today);
        if ok {
          step := 2;
        }
      }
    }

    /** The Back button. */
    method Back()
      requires Valid()
      modifies this`step
      ensures Valid() && step == 1
    {
      step := 1;
    }

    /**
     * `handleSubmit` up to the API call: validate step 2 and, only when it passes,
     * produce the booking data to send.
     */
    method HandleSubmit() returns (payload: Option<BookingPayload>)
      modifies this`errors
      ensures Step2Report(form, errors)
      ensures payload.Some? <==> Step2Ok(form)
      ensures payload.Some? ==> payload.value == Payload(pkg.id, form)
    {
      var ok := ValidateStep2();
      if !ok {
        return None;
      }
      payload := Some(Payload(pkg.id, form));
    }
  }
}
