/**
 * Conversions between requests, customer documents and responses
 * (`CustomerMapper`).
 *
 * The document keeps type, segment and document type as the enums' value
 * strings; reading them back goes through the enums' `fromValue`, which
 * rejects an unknown string with `IllegalArgument("Unexpected value '...'")`.
 */
module Mapper {
  import opened Outcomes
  import opened Domain
  import opened Requests

  // ------------------------------------------------------- enum <-> string

  function AsTypeString(e: Option<CustomerType>): Option<string>
  {
    if e.None? then None else Some(TypeValue(e.value))
  }

  function AsSegmentString(e: Option<CustomerSegment>): Option<string>
  {
    if e.None? then None else Some(SegmentValue(e.value))
  }

  function AsDocString(e: Option<DocumentType>): Option<string>
  {
    if e.None? then None else Some(DocumentValue(e.value))
  }

  function Unexpected(s: string): Failure
  {
    IllegalArgument("Unexpected value '" + s + "'")
  }

  function ToTypeEnum(s: Option<string>): (r: Result<Option<CustomerType>>)
    ensures s.None? ==> r == Ok(None)
    ensures s.Some? ==> (r.Ok? <==> exists e :: TypeValue(e) == s.value)
    ensures r.Ok? && r.value.Some? ==> TypeValue(r.value.value) == s.value
    ensures r.Err? ==> r.error == Unexpected(s.value)
  {
    if s.None? then Ok(None)
    else if s.value == TypeValue(PERSONAL) then Ok(Some(PERSONAL))
    else if s.value == TypeValue(BUSINESS) then Ok(Some(BUSINESS))
    else Err(Unexpected(s.value))
  }

  function ToSegmentEnum(s: Option<string>): (r: Result<Option<CustomerSegment>>)
    ensures s.None? ==> r == Ok(None)
    ensures s.Some? ==> (r.Ok? <==> exists e :: SegmentValue(e) == s.value)
    ensures r.Ok? && r.value.Some? ==> SegmentValue(r.value.value) == s.value
    ensures r.Err? ==> r.error == Unexpected(s.value)
  {
    if s.None? then Ok(None)
    else if s.value == SegmentValue(STANDARD) then Ok(Some(STANDARD))
    else if s.value == SegmentValue(VIP) then Ok(Some(VIP))
    else if s.value == SegmentValue(PYME) then Ok(Some(PYME))
    else Err(Unexpected(s.value))
  }

  function ToDocEnum(s: Option<string>): (r: Result<Option<DocumentType>>)
    ensures s.None? ==> r == Ok(None)
    ensures s.Some? ==> (r.Ok? <==> exists e :: DocumentValue(e) == s.value)
    ensures r.Ok? && r.value.Some? ==> DocumentValue(r.value.value) == s.value
    ensures r.Err? ==> r.error == Unexpected(s.value)
  {
    if s.None? then Ok(None)
    else if s.value == DocumentValue(DNI) then Ok(Some(DNI))
    else if s.value == DocumentValue(RUC) then Ok(Some(RUC))
    else if s.value == DocumentValue(CE) then Ok(Some(CE))
    else Err(Unexpected(s.value))
  }

  /** Enum to string and back gives the enum (or null) again. */
  lemma EnumRoundTrip(t: Option<CustomerType>, s: Option<CustomerSegment>, d: Option<DocumentType>)
    ensures ToTypeEnum(AsTypeString(t)) == Ok(t)
    ensures ToSegmentEnum(AsSegmentString(s)) == Ok(s)
    ensures ToDocEnum(AsDocString(d)) == Ok(d)
  {
  }

  /** A string that reads back as an enum is that enum's value string. */
  lemma StringRoundTrip(ts: Option<string>, ss: Option<string>, ds: Option<string>)
    ensures ToTypeEnum(ts).Ok? ==> AsTypeString(ToTypeEnum(ts).value) == ts
    ensures ToSegmentEnum(ss).Ok? ==> AsSegmentString(ToSegmentEnum(ss).value) == ss
    ensures ToDocEnum(ds).Ok? ==> AsDocString(ToDocEnum(ds).value) == ds
  {
  }

  // ------------------------------------------------------------ toDomain

  /** `toDomain`: a new, id-less document from a create request, stamped `now`. */
  function ToDomain(f: CreateFields, now: Instant): (c: CustomerRecord)
    ensures c.id.None? && c.segment == Some(SegmentValue(STANDARD))
    ensures c.customerType == AsTypeString(f.customerType)
    ensures c.documentType == AsDocString(f.documentType) && c.documentNumber == f.documentNumber
    ensures c.firstName == f.firstName && c.lastName == f.lastName && c.businessName == f.businessName
    ensures c.email == f.email && c.phone == f.phone
    ensures c.active == (if f.active.None? then Some(true) else f.active)
    ensures f.address.None? ==>
      c.addressLine1.None? && c.addressCity.None? && c.addressDistrict.None? && c.addressCountry.None?
    ensures f.address.Some? ==>
      AddressFields(c.addressLine1, c.addressCity, c.addressDistrict, c.addressCountry) == f.address.value
    ensures c.createdAt == Some(now) && c.deletedAt.None?
    ensures c.displayName == DisplayNameOf(c)
  {
    var a := f.address;
    var built := CustomerRecord(
      None, AsTypeString(f.customerType), Some(DefaultSegment()),
      f.firstName, f.lastName, f.businessName, f.email,
      AsDocString(f.documentType), f.documentNumber, f.phone,
      if a.Some? then a.value.line1 else None,
      if a.Some? then a.value.city else None,
      if a.Some? then a.value.district else None,
      if a.Some? then a.value.country else None,
      if f.active.None? then Some(true) else f.active,
      Some(now), None, None);
    built.(displayName := DisplayNameOf(built))
  }

  // ---------------------------------------------------------- applyUpdate

  /** The fields `applyUpdate` writes, before the segment check and the display-name refresh. */
  function Overwritten(d: CustomerRecord, u: UpdateFields): CustomerRecord
  {
    var a := u.address;
    d.(customerType := AsTypeString(u.customerType),
       segment := AsSegmentString(u.segment),
       firstName := u.firstName, lastName := u.lastName, businessName := u.businessName,
       email := u.email,
       documentType := AsDocString(u.documentType), documentNumber := u.documentNumber,
       phone := u.phone,
       addressLine1 := if a.Some? then a.value.line1 else None,
       addressCity := if a.Some? then a.value.city else None,
       addressDistrict := if a.Some? then a.value.district else None,
       addressCountry := if a.Some? then a.value.country else None,
       active := u.active)
  }

  /**
   * Every request field replaces the stored one, null included; a missing
   * address clears all four address fields; id and timestamps stay.
   */
  lemma OverwriteIsFullReplace(d: CustomerRecord, u: UpdateFields)
    ensures var r := Overwritten(d, u);
      && r.id == d.id && r.createdAt == d.createdAt && r.deletedAt == d.deletedAt
      && r.displayName == d.displayName
      && r.customerType == AsTypeString(u.customerType) && r.segment == AsSegmentString(u.segment)
      && r.firstName == u.firstName && r.lastName == u.lastName && r.businessName == u.businessName
      && r.email == u.email && r.phone == u.phone
      && r.documentType == AsDocString(u.documentType) && r.documentNumber == u.documentNumber
      && r.active == u.active
      && (u.address.None? ==>
            r.addressLine1.None? && r.addressCity.None? && r.addressDistrict.None? && r.addressCountry.None?)
      && (u.address.Some? ==>
            AddressFields(r.addressLine1, r.addressCity, r.addressDistrict, r.addressCountry) == u.address.value)
  {
  }

  /** A full replace: the stored document before the update has no influence beyond identity and timestamps. */
  lemma OverwriteForgetsOldFields(d1: CustomerRecord, d2: CustomerRecord, u: UpdateFields)
    requires d1.id == d2.id && d1.createdAt == d2.createdAt && d1.deletedAt == d2.deletedAt
    requires d1.displayName == d2.displayName
    ensures Overwritten(d1, u) == Overwritten(d2, u)
  {
  }

  /**
   * `applyUpdate`: overwrites the loaded customer with the request, then
   * checks the segment rule (failing with Unprocessable, fields already
   * overwritten) and only on success refreshes the display name.
   */
  method ApplyUpdate(target: Customer, u: UpdateFields) returns (o: Outcome)
    modifies target
    ensures var w := Overwritten(old(target.Snapshot()), u);
            && (o.Pass? <==> SegmentAllowed(w.customerType, w.segment))
            && (o.Fail? ==> o.error.Unprocessable? && target.Snapshot() == w)
            && (o.Pass? ==> target.Snapshot() == w.(displayName := DisplayNameOf(w)))
  {
    Overwrite(target, u);
    o := target.ValidateSegment();
    if o.Fail? {
      return;
    }
    target.RefreshDisplayName();
  }

  /** The setter calls of `applyUpdate`. */
  method Overwrite(target: Customer, u: UpdateFields)
    modifies target
    ensures target.Snapshot() == Overwritten(old(target.Snapshot()), u)
  {
    OverwriteProfile(target, u);
    OverwriteAddress(target, u.address);
    target.active := u.active;
  }

  method OverwriteProfile(target: Customer, u: UpdateFields)
    modifies target
    ensures target.Snapshot() == old(target.Snapshot()).(
      customerType := AsTypeString(u.customerType), segment := AsSegmentString(u.segment),
      firstName := u.firstName, lastName := u.lastName, businessName := u.businessName,
      email := u.email, documentType := AsDocString(u.documentType),
      documentNumber := u.documentNumber, phone := u.phone)
  {
    target.customerType := AsTypeString(u.customerType);
    target.segment := AsSegmentString(u.segment);
    target.firstName, target.lastName, target.businessName := u.firstName, u.lastName, u.businessName;
    target.email := u.email;
    target.documentType, target.documentNumber := AsDocString(u.documentType), u.documentNumber;
    target.phone := u.phone;
  }

  /** The four address setters: the request's address fields, or null for all four when it has none. */
  method OverwriteAddress(target: Customer, a: Option<AddressFields>)
    modifies target
    ensures target.Snapshot() == old(target.Snapshot()).(
      addressLine1 := if a.Some? then a.value.line1 else None,
      addressCity := if a.Some? then a.value.city else None,
      addressDistrict := if a.Some? then a.value.district else None,
      addressCountry := if a.Some? then a.value.country else None)
  {
    if a.Some? {
      target.addressLine1, target.addressCity := a.value.line1, a.value.city;
      target.addressDistrict, target.addressCountry := a.value.district, a.value.country;
    } else {
      target.addressLine1, target.addressCity, target.addressDistrict, target.addressCountry := None, None, None, None;
    }
  }

  // --------------------------------------------------------- responses

  datatype CustomerResponse = CustomerResponse(
    id: Option<Id>,
    createdAt: Option<Instant>,
    displayName: Option<string>,
    customerType: Option<CustomerType>,
    segment: Option<CustomerSegment>,
    firstName: Option<string>,
    lastName: Option<string>,
    businessName: Option<string>,
    email: Option<string>,
    documentType: Option<DocumentType>,
    documentNumber: Option<string>,
    phone: Option<string>,
    address: AddressFields,
    active: Option<bool>)

  datatype EligibilityResponse = EligibilityResponse(
    customerId: Option<Id>,
    customerType: Option<CustomerType>,
    profile: Option<CustomerSegment>,
    hasActiveCreditCard: bool)

  /** `toApi`: the document as a response; the address object is always present. */
  function ToApi(d: CustomerRecord): (r: Result<CustomerResponse>)
    ensures r.Ok? <==> ToTypeEnum(d.customerType).Ok? && ToSegmentEnum(d.segment).Ok? && ToDocEnum(d.documentType).Ok?
    ensures r.Ok? ==>
      && AsTypeString(r.value.customerType) == d.customerType
      && AsSegmentString(r.value.segment) == d.segment
      && AsDocString(r.value.documentType) == d.documentType
      && r.value.id == d.id && r.value.createdAt == d.createdAt && r.value.displayName == d.displayName
      && r.value.firstName == d.firstName && r.value.lastName == d.lastName
      && r.value.businessName == d.businessName && r.value.email == d.email
      && r.value.documentNumber == d.documentNumber && r.value.phone == d.phone
      && r.value.address == AddressFields(d.addressLine1, d.addressCity, d.addressDistrict, d.addressCountry)
      && r.value.active == d.active
    ensures r.Err? ==>
      r.error == (if ToTypeEnum(d.customerType).Err? then ToTypeEnum(d.customerType).error
                  else if ToSegmentEnum(d.segment).Err? then ToSegmentEnum(d.segment).error
                  else ToDocEnum(d.documentType).error)
  {
    var t :- ToTypeEnum(d.customerType);
    var s :- ToSegmentEnum(d.segment);
    var dt :- ToDocEnum(d.documentType);
    StringRoundTrip(d.customerType, d.segment, d.documentType);
    Ok(CustomerResponse(
      d.id, d.createdAt, d.displayName, t, s,
      d.firstName, d.lastName, d.businessName, d.email, dt, d.documentNumber, d.phone,
      AddressFields(d.addressLine1, d.addressCity, d.addressDistrict, d.addressCountry),
      d.active))
  }

  /** `toEligibility`: id, type and segment (as profile); no credit-card data is consulted. */
  function ToEligibility(d: CustomerRecord): (r: Result<EligibilityResponse>)
    ensures r.Ok? <==> ToTypeEnum(d.customerType).Ok? && ToSegmentEnum(d.segment).Ok?
    ensures r.Ok? ==>
      && r.value.customerId == d.id
      && AsTypeString(r.value.customerType) == d.customerType
      && AsSegmentString(r.value.profile) == d.segment
      && !r.value.hasActiveCreditCard
  {
    var t :- ToTypeEnum(d.customerType);
    var s :- ToSegmentEnum(d.segment);
    StringRoundTrip(d.customerType, d.segment, None);
    Ok(EligibilityResponse(d.id, t, s, false))
  }

  /** `flux.map(toApi)`, collected: every document mapped, or the first failure. */
  function AllToApi(ds: seq<CustomerRecord>): (r: Result<seq<CustomerResponse>>)
    ensures r.Ok? <==> forall i :: 0 <= i < |ds| ==> ToApi(ds[i]).Ok?
    ensures r.Ok? ==> |r.value| == |ds| && forall i :: 0 <= i < |ds| ==> r.value[i] == ToApi(ds[i]).value
  {
    if ds == [] then Ok([])
    else
      var head :- ToApi(ds[0]);
      var tail :- AllToApi(ds[1..]);
      Ok([head] + tail)
  }

  /** A freshly built document always maps to a response carrying the request's data. */
  lemma ToApiOfToDomain(f: CreateFields, now: Instant)
    ensures ToApi(ToDomain(f, now)).Ok?
    ensures var r := ToApi(ToDomain(f, now)).value;
      && r.customerType == f.customerType && r.documentType == f.documentType
      && r.segment == Some(STANDARD) && r.active == (if f.active.None? then Some(true) else f.active)
  {
    EnumRoundTrip(f.customerType, Some(STANDARD), f.documentType);
  }
}
