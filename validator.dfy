/**
 * Structural and business preconditions on a create request
 * (`CustomerRequestValidator.validateCreate`).
 *
 * The guards run in a fixed order and the first one that fails decides the
 * outcome: presence of the request, its type, document type and document
 * number (IllegalArgument); then the name rule of the customer type
 * (IllegalState); then the format bound to the document type, checked on the
 * trimmed number (IllegalState). The regular expressions of the source become
 * the character-class predicates `IsDni`, `IsRuc` and `IsCe`.
 */
module Validator {
  import opened Outcomes
  import opened Text
  import opened Domain
  import opened Requests

  const MsgNullRequest: string := "request es nulo"
  const MsgTypeRequired: string := "type es obligatorio"
  const MsgDocumentTypeRequired: string := "documentType es obligatorio"
  const MsgDocumentNumberRequired: string := "documentNumber es obligatorio"
  const MsgPersonalNames: string := "firstName y lastName son obligatorios para PERSONAL"
  const MsgBusinessName: string := "businessName es obligatorio para BUSINESS"
  const MsgDni: string := "DNI debe tener 8 dígitos"
  const MsgRuc: string := "RUC debe tener 11 dígitos"
  const MsgCe: string := "CE debe ser alfanumérico de 9 a 12 caracteres"

  /** `hasTextBetween`: present, and its trimmed length lies in [min, max] and is not zero. */
  predicate HasTextBetween(v: Option<string>, min: nat, max: nat)
  {
    v.Some? && var s := Trim(v.value); s != [] && min <= |s| <= max
  }

  predicate AllDigits(s: string) { forall i :: 0 <= i < |s| ==> IsDigit(s[i]) }

  /** `^\d{8}$` */
  predicate IsDni(s: string) { |s| == 8 && AllDigits(s) }

  /** `^\d{11}$` */
  predicate IsRuc(s: string) { |s| == 11 && AllDigits(s) }

  predicate IsCeChar(c: char) { IsLetter(c) || IsDigit(c) || c == '-' }

  /** `^[A-Za-z0-9-]{9,12}$` */
  predicate IsCe(s: string) { 9 <= |s| <= 12 && forall i :: 0 <= i < |s| ==> IsCeChar(s[i]) }

  predicate MatchesFormat(dt: DocumentType, number: string)
  {
    match dt
    case DNI => IsDni(number)
    case RUC => IsRuc(number)
    case CE => IsCe(number)
  }

  /** The presence guards: request, type, document type and a non-blank document number. */
  predicate Present(r: Option<CreateFields>)
  {
    && r.Some?
    && r.value.customerType.Some?
    && r.value.documentType.Some?
    && r.value.documentNumber.Some? && HasText(r.value.documentNumber.value)
  }

  /** The name rule of the request's customer type. */
  predicate NamesValid(f: CreateFields)
    requires f.customerType.Some?
  {
    match f.customerType.value
    case PERSONAL => HasTextBetween(f.firstName, 1, 60) && HasTextBetween(f.lastName, 1, 60)
    case BUSINESS => HasTextBetween(f.businessName, 2, 120)
  }

  /** The document-format rule, on the trimmed number. */
  predicate DocumentValid(f: CreateFields)
    requires f.documentType.Some? && f.documentNumber.Some?
  {
    MatchesFormat(f.documentType.value, Trim(f.documentNumber.value))
  }

  /** The name block: the rule of the request's customer type. */
  function NameCheck(f: CreateFields): Outcome
    requires f.customerType.Some?
  {
    if f.customerType.value == PERSONAL then
      if !(HasTextBetween(f.firstName, 1, 60) && HasTextBetween(f.lastName, 1, 60)) then
        Fail(IllegalState(MsgPersonalNames))
      else Pass
    else if f.customerType.value == BUSINESS then
      if !HasTextBetween(f.businessName, 2, 120) then Fail(IllegalState(MsgBusinessName))
      else Pass
    else Pass
  }

  /** The format block, on the trimmed number. */
  function FormatCheck(dt: DocumentType, num: string): Outcome
  {
    if dt == DNI && !IsDni(num) then Fail(IllegalState(MsgDni))
    else if dt == RUC && !IsRuc(num) then Fail(IllegalState(MsgRuc))
    else if dt == CE && !IsCe(num) then Fail(IllegalState(MsgCe))
    else Pass
  }

  function ValidateCreate(r: Option<CreateFields>): (o: Outcome)
    ensures o.Pass? <==> Present(r) && NamesValid(r.value) && DocumentValid(r.value)
    ensures o.Fail? ==> (o.error.IllegalArgument? <==> !Present(r))
    ensures o.Fail? ==> o.error.IllegalArgument? || o.error.IllegalState?
  {
    if r.None? then Fail(IllegalArgument(MsgNullRequest))
    else
      var f := r.value;
      if f.customerType.None? then Fail(IllegalArgument(MsgTypeRequired))
      else if f.documentType.None? then Fail(IllegalArgument(MsgDocumentTypeRequired))
      else if f.documentNumber.None? || !HasText(f.documentNumber.value) then
        Fail(IllegalArgument(MsgDocumentNumberRequired))
      else
        NameOutcome(f);
        FormatOutcome(f.documentType.value, Trim(f.documentNumber.value));
        if NameCheck(f).Fail? then NameCheck(f)
        else FormatCheck(f.documentType.value, Trim(f.documentNumber.value))
  }

  /** The message of the first presence guard that fails. */
  function MissingMessage(r: Option<CreateFields>): string
  {
    if r.None? then MsgNullRequest
    else if r.value.customerType.None? then MsgTypeRequired
    else if r.value.documentType.None? then MsgDocumentTypeRequired
    else MsgDocumentNumberRequired
  }

  function NameMessage(t: CustomerType): string
  {
    match t
    case PERSONAL => MsgPersonalNames
    case BUSINESS => MsgBusinessName
  }

  function FormatMessage(dt: DocumentType): string
  {
    match dt
    case DNI => MsgDni
    case RUC => MsgRuc
    case CE => MsgCe
  }

  /** A missing field is reported whatever the names and the number look like. */
  lemma MissingGuard(r: Option<CreateFields>)
    requires !Present(r)
    ensures ValidateCreate(r) == Fail(IllegalArgument(MissingMessage(r)))
  {
  }

  /** A name failure is reported whatever the number looks like. */
  lemma NameGuard(f: CreateFields)
    requires Present(Some(f)) && !NamesValid(f)
    ensures ValidateCreate(Some(f)) == Fail(IllegalState(NameMessage(f.customerType.value)))
  {
  }

  /** A blank document number is reported as missing, not as malformed. */
  lemma BlankNumberIsMissing(f: CreateFields)
    requires f.customerType.Some? && f.documentType.Some?
    requires f.documentNumber.Some? && Trim(f.documentNumber.value) == []
    ensures ValidateCreate(Some(f)) == Fail(IllegalArgument(MsgDocumentNumberRequired))
  {
    HasTextIffTrimNonEmpty(f.documentNumber.value);
  }

  /** No format message reads like a name message: their lengths already differ. */
  lemma MessagesDistinct(dt: DocumentType)
    ensures FormatMessage(dt) != MsgPersonalNames && FormatMessage(dt) != MsgBusinessName
  {
    assert |MsgPersonalNames| == 51 && |MsgBusinessName| == 41;
    match dt
    case DNI => assert |MsgDni| == 24;
    case RUC => assert |MsgRuc| == 25;
    case CE => assert |MsgCe| == 45;
  }

  /** A person passes the name rule iff both trimmed names have 1 to 60 characters. */
  lemma PersonalNameRule(f: CreateFields)
    requires Present(Some(f)) && f.customerType == Some(PERSONAL)
    ensures ValidateCreate(Some(f)) != Fail(IllegalState(MsgPersonalNames)) <==>
      (f.firstName.Some? && 1 <= |Trim(f.firstName.value)| <= 60 &&
       f.lastName.Some? && 1 <= |Trim(f.lastName.value)| <= 60)
  {
    if NamesValid(f) {
      FormatDecides(f);
      MessagesDistinct(f.documentType.value);
    } else {
      NameGuard(f);
    }
  }

  /** A business passes the name rule iff its trimmed name has 2 to 120 characters. */
  lemma BusinessNameRule(f: CreateFields)
    requires Present(Some(f)) && f.customerType == Some(BUSINESS)
    ensures ValidateCreate(Some(f)) != Fail(IllegalState(MsgBusinessName)) <==>
      (f.businessName.Some? && 2 <= |Trim(f.businessName.value)| <= 120)
  {
    if NamesValid(f) {
      FormatDecides(f);
      MessagesDistinct(f.documentType.value);
    } else {
      NameGuard(f);
    }
  }

  /** Once presence and names pass, the outcome is decided by the format of the trimmed number alone. */
  lemma FormatDecides(f: CreateFields)
    requires Present(Some(f)) && NamesValid(f)
    ensures ValidateCreate(Some(f)) ==
      if MatchesFormat(f.documentType.value, Trim(f.documentNumber.value)) then Pass
      else Fail(IllegalState(FormatMessage(f.documentType.value)))
  {
    NameOutcome(f);
    FormatOutcome(f.documentType.value, Trim(f.documentNumber.value));
  }

  /** The name block in terms of the rule it checks. */
  lemma NameOutcome(f: CreateFields)
    requires f.customerType.Some?
    ensures NameCheck(f) ==
      if NamesValid(f) then Pass else Fail(IllegalState(NameMessage(f.customerType.value)))
  {
  }

  /** The format block in terms of the pattern it checks. */
  lemma FormatOutcome(dt: DocumentType, num: string)
    ensures FormatCheck(dt, num) ==
      if MatchesFormat(dt, num) then Pass else Fail(IllegalState(FormatMessage(dt)))
  {
    match dt
    case DNI =>
    case RUC =>
    case CE =>
  }

  // ------------------------------------------------------ concrete documents

  lemma DniExamples()
    ensures IsDni("12345678")
    ensures !IsDni("1234567") && !IsDni("123456789") && !IsDni("12A45678")
  {
    var bad := "12A45678";
    assert !IsDigit(bad[2]);
  }

  lemma RucExamples()
    ensures IsRuc("20123456789")
    ensures !IsRuc("2012345678")
  {
  }

  lemma CeExamples()
    ensures IsCe("ABC1234-9") && IsCe("A1B2C3D4E5F6")
    ensures !IsCe("A1B2C3D4") && !IsCe("A1B2C3D4E5F6G") && !IsCe("A1B2C3D4*")
  {
    var bad := "A1B2C3D4*";
    assert !IsCeChar(bad[8]);
  }

  /** The request every test starts from: a person, a DNI, names "Ada" and "Lovelace". */
  function AdaRequest(number: string): CreateFields
  {
    CreateFields(Some(PERSONAL), Some(DNI), Some(number), Some("Ada"), Some("Lovelace"),
                 None, None, None, None, None)
  }

  /** The names of `AdaRequest` pass the rule for persons. */
  lemma AdaNamesValid(number: string)
    ensures NamesValid(AdaRequest(number))
  {
    var ada, love := "Ada", "Lovelace";
    assert Trim(ada) == ada by { assert Trimmed(ada); TrimFacts(ada); }
    assert Trim(love) == love by { assert Trimmed(love); TrimFacts(love); }
  }

  lemma PaddedDniTrimmed()
    ensures Trim(" 12345678 ") == "12345678"
  {
    var dni := "12345678";
    var padded := [' '] + dni + [' '];
    assert padded == " 12345678 ";
    assert dni[0] == '1' && dni[7] == '8';
    TrimPadded(dni);
  }

  /** A person request with a well-formed DNI is accepted, however the number is padded. */
  lemma AdaWithDni(number: string)
    requires HasText(number) && IsDni(Trim(number))
    ensures ValidateCreate(Some(AdaRequest(number))) == Pass
  {
    AdaNamesValid(number);
    FormatDecides(AdaRequest(number));
  }

  /** " 12345678 " is accepted as a DNI. */
  lemma PaddedDniAccepted()
    ensures ValidateCreate(Some(AdaRequest(" 12345678 "))) == Pass
  {
    var padded := " 12345678 ";
    PaddedDniTrimmed();
    DniExamples();
    HasTextIffTrimNonEmpty(padded);
    AdaWithDni(padded);
  }

  /** A DNI whose trimmed number holds a non-digit anywhere ("12A45678") is refused with the DNI message. */
  lemma NonDigitInDniRefused(f: CreateFields, i: nat)
    requires Present(Some(f)) && NamesValid(f) && f.documentType == Some(DNI)
    requires i < |Trim(f.documentNumber.value)| && !IsDigit(Trim(f.documentNumber.value)[i])
    ensures ValidateCreate(Some(f)) == Fail(IllegalState(MsgDni))
  {
    FormatDecides(f);
  }
}
