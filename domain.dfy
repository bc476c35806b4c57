/**
 * The customer entity.
 *
 * A `CustomerRecord` is a customer document as the store holds it: store-
 * assigned id, classification and document kept as the enum value strings,
 * optional contact and address data, lifecycle flags and timestamps. A
 * `Customer` is the mutable object the service loads from the store and
 * changes through setters before saving it back; `Snapshot()` is the
 * document that saving it would write.
 *
 * The bodies of `Customer.defaultSegment()`, `refreshDisplayName()` and
 * `validateSegment()` are not part of this model; `DefaultSegment`,
 * `DisplayNameOf` and `SegmentCheck` below STATE the rules they are meant to
 * enforce (STANDARD; "first last" or the business name; no VIP business and
 * no PYME person).
 */
module Domain {
  import opened Outcomes
  import opened Text

  /** Store-assigned identifier. */
  type Id = nat

  /** A point in time; only its order matters here. */
  type Instant = int

  datatype CustomerType = PERSONAL | BUSINESS
  datatype CustomerSegment = STANDARD | VIP | PYME
  datatype DocumentType = DNI | RUC | CE

  /** `getValue()` of the generated enums. */
  function TypeValue(t: CustomerType): string
  {
    match t
    case PERSONAL => "PERSONAL"
    case BUSINESS => "BUSINESS"
  }

  function SegmentValue(s: CustomerSegment): string
  {
    match s
    case STANDARD => "STANDARD"
    case VIP => "VIP"
    case PYME => "PYME"
  }

  function DocumentValue(d: DocumentType): string
  {
    match d
    case DNI => "DNI"
    case RUC => "RUC"
    case CE => "CE"
  }

  datatype AddressFields = AddressFields(
    line1: Option<string>,
    city: Option<string>,
    district: Option<string>,
    country: Option<string>)

  /** A customer document, field for field as the mapper and the service use it. */
  datatype CustomerRecord = CustomerRecord(
    id: Option<Id>,
    customerType: Option<string>,
    segment: Option<string>,
    firstName: Option<string>,
    lastName: Option<string>,
    businessName: Option<string>,
    email: Option<string>,
    documentType: Option<string>,
    documentNumber: Option<string>,
    phone: Option<string>,
    addressLine1: Option<string>,
    addressCity: Option<string>,
    addressDistrict: Option<string>,
    addressCountry: Option<string>,
    active: Option<bool>,
    createdAt: Option<Instant>,
    deletedAt: Option<Instant>,
    displayName: Option<string>)

  /** The segment every new customer starts in. */
  function DefaultSegment(): string
  {
    SegmentValue(STANDARD)
  }

  /** The trimmed value, as a one-element list, when it has text. */
  function NonBlank(v: Option<string>): seq<string>
  {
    if v.Some? && HasText(v.value) then [Trim(v.value)] else []
  }

  /**
   * The derived display name: "firstName lastName" for a person (either part
   * may be missing), the business name for a business, and null when the name
   * fields that count are all blank.
   */
  function DisplayNameOf(c: CustomerRecord): Option<string>
  {
    if c.customerType == Some(TypeValue(PERSONAL)) then
      var parts := NonBlank(c.firstName) + NonBlank(c.lastName);
      if parts == [] then None else Some(Join(parts))
    else if c.customerType == Some(TypeValue(BUSINESS)) then
      if NonBlank(c.businessName) == [] then None else Some(Trim(c.businessName.value))
    else
      None
  }

  /** The type/segment compatibility rule: no VIP business, no PYME person. */
  predicate SegmentAllowed(customerType: Option<string>, segment: Option<string>)
  {
    && !(customerType == Some(TypeValue(BUSINESS)) && segment == Some(SegmentValue(VIP)))
    && !(customerType == Some(TypeValue(PERSONAL)) && segment == Some(SegmentValue(PYME)))
  }

  const MsgSegmentMismatch: string := "segment no permitido para el type"

  function SegmentCheck(c: CustomerRecord): (o: Outcome)
    ensures o.Pass? <==> SegmentAllowed(c.customerType, c.segment)
  {
    if SegmentAllowed(c.customerType, c.segment) then Pass
    else Fail(Unprocessable(MsgSegmentMismatch))
  }

  /** "Ada" and "Lovelace" are displayed as "Ada Lovelace". */
  lemma DisplayNamePersonExample(c: CustomerRecord)
    ensures DisplayNameOf(c.(customerType := Some(TypeValue(PERSONAL)), firstName := Some("Ada"), lastName := Some("Lovelace")))
            == Some("Ada Lovelace")
  {
    DisplayNameOfTrimmedPerson(c, "Ada", "Lovelace");
    assert "Ada" + " " + "Lovelace" == "Ada Lovelace" by {
      assert "Ada" + " " == "Ada ";
      assert "Ada " + "Lovelace" == "Ada Lovelace";
    }
  }

  /** The business "Acme Inc" is displayed as "Acme Inc". */
  lemma DisplayNameBusinessExample(c: CustomerRecord)
    ensures DisplayNameOf(c.(customerType := Some(TypeValue(BUSINESS)), businessName := Some("Acme Inc")))
            == Some("Acme Inc")
  {
    DisplayNameOfTrimmedBusiness(c, "Acme Inc");
  }

  /** A person whose only name is blank has no display name. */
  lemma DisplayNameBlankExample(c: CustomerRecord)
    ensures DisplayNameOf(c.(customerType := Some(TypeValue(PERSONAL)), firstName := Some("  "), lastName := None)) == None
  {
    var blank := "  ";
    assert !HasText(blank) by {
      forall i | 0 <= i < |blank| ensures IsSpace(blank[i]) {}
    }
  }

  /** Two names without surrounding whitespace are displayed as written, joined by one space. */
  lemma DisplayNameOfTrimmedPerson(c: CustomerRecord, first: string, last: string)
    requires first != [] && !IsSpace(first[0]) && !IsSpace(first[|first| - 1])
    requires last != [] && !IsSpace(last[0]) && !IsSpace(last[|last| - 1])
    ensures DisplayNameOf(c.(customerType := Some(TypeValue(PERSONAL)), firstName := Some(first), lastName := Some(last)))
            == Some(first + " " + last)
  {
    TrimmedWord(first);
    TrimmedWord(last);
    DisplayNameOfPerson(c.(customerType := Some(TypeValue(PERSONAL)), firstName := Some(first), lastName := Some(last)));
  }

  /** A business name without surrounding whitespace is displayed as written. */
  lemma DisplayNameOfTrimmedBusiness(c: CustomerRecord, name: string)
    requires name != [] && !IsSpace(name[0]) && !IsSpace(name[|name| - 1])
    ensures DisplayNameOf(c.(customerType := Some(TypeValue(BUSINESS)), businessName := Some(name))) == Some(name)
  {
    TrimmedWord(name);
    DisplayNameOfBusiness(c.(customerType := Some(TypeValue(BUSINESS)), businessName := Some(name)));
  }

  /** A business with a non-blank name is displayed as its trimmed name. */
  lemma DisplayNameOfBusiness(c: CustomerRecord)
    requires c.customerType == Some(TypeValue(BUSINESS))
    requires c.businessName.Some? && HasText(c.businessName.value)
    ensures DisplayNameOf(c) == Some(Trim(c.businessName.value))
  {
  }

  /** A person with both names present is displayed as the two trimmed names joined by one space. */
  lemma DisplayNameOfPerson(c: CustomerRecord)
    requires c.customerType == Some(TypeValue(PERSONAL))
    requires c.firstName.Some? && HasText(c.firstName.value)
    requires c.lastName.Some? && HasText(c.lastName.value)
    ensures DisplayNameOf(c) == Some(Trim(c.firstName.value) + " " + Trim(c.lastName.value))
  {
    var f, l := Trim(c.firstName.value), Trim(c.lastName.value);
    var parts := NonBlank(c.firstName) + NonBlank(c.lastName);
    assert parts == [f] + [l];
    assert parts[1..] == [l];
    assert Join(parts[1..]) == l;
    assert Join(parts) == f + " " + l;
  }

  /** The loaded, mutable form of a customer document. */
  class Customer {
    var id: Option<Id>
    var customerType: Option<string>
    var segment: Option<string>
    var firstName: Option<string>
    var lastName: Option<string>
    var businessName: Option<string>
    var email: Option<string>
    var documentType: Option<string>
    var documentNumber: Option<string>
    var phone: Option<string>
    var addressLine1: Option<string>
    var addressCity: Option<string>
    var addressDistrict: Option<string>
    var addressCountry: Option<string>
    var active: Option<bool>
    var createdAt: Option<Instant>
    var deletedAt: Option<Instant>
    var displayName: Option<string>

    /** The document that saving this object writes. */
    function Snapshot(): CustomerRecord
      reads this
    {
      CustomerRecord(id, customerType, segment, firstName, lastName, businessName, email,
                     documentType, documentNumber, phone, addressLine1, addressCity,
                     addressDistrict, addressCountry, active, createdAt, deletedAt, displayName)
    }

    /** Reading a document from the store yields a fresh object holding it. */
    constructor Load(d: CustomerRecord)
      ensures Snapshot() == d
    {
      id, customerType, segment := d.id, d.customerType, d.segment;
      firstName, lastName, businessName := d.firstName, d.lastName, d.businessName;
      email, documentType, documentNumber, phone := d.email, d.documentType, d.documentNumber, d.phone;
      addressLine1, addressCity := d.addressLine1, d.addressCity;
      addressDistrict, addressCountry := d.addressDistrict, d.addressCountry;
      active, createdAt, deletedAt, displayName := d.active, d.createdAt, d.deletedAt, d.displayName;
    }

    method RefreshDisplayName()
      modifies this
      ensures Snapshot() == old(Snapshot()).(displayName := DisplayNameOf(old(Snapshot())))
      ensures displayName == DisplayNameOf(Snapshot())
    {
      displayName := DisplayNameOf(Snapshot());
    }

    /** Throws Unprocessable when the segment is not allowed for the type; changes nothing. */
    method ValidateSegment() returns (o: Outcome)
      ensures o.Pass? <==> SegmentAllowed(customerType, segment)
      ensures o.Fail? ==> o.error.Unprocessable?
    {
      o := SegmentCheck(Snapshot());
    }
  }
}
