/**
 * The request bodies of create (POST) and full update (PUT).
 *
 * They are mutable objects with setters, and the sanitizer rewrites them in
 * place, so each is a class; `Fields()` is the value the object holds at a
 * given moment, which is what the validator and the mapper read. A null
 * field is `None`; a missing address is a null `address` reference.
 */
module Requests {
  import opened Outcomes
  import opened Domain

  class Address {
    var line1: Option<string>
    var city: Option<string>
    var district: Option<string>
    var country: Option<string>

    function Fields(): AddressFields
      reads this
    {
      AddressFields(line1, city, district, country)
    }
  }

  function AddressOf(a: Address?): Option<AddressFields>
    reads a
  {
    if a == null then None else Some(a.Fields())
  }

  /** What a create request holds. A create request has no segment. */
  datatype CreateFields = CreateFields(
    customerType: Option<CustomerType>,
    documentType: Option<DocumentType>,
    documentNumber: Option<string>,
    firstName: Option<string>,
    lastName: Option<string>,
    businessName: Option<string>,
    email: Option<string>,
    phone: Option<string>,
    address: Option<AddressFields>,
    active: Option<bool>)

  class CreateRequest {
    var customerType: Option<CustomerType>
    var documentType: Option<DocumentType>
    var documentNumber: Option<string>
    var firstName: Option<string>
    var lastName: Option<string>
    var businessName: Option<string>
    var email: Option<string>
    var phone: Option<string>
    var address: Address?
    var active: Option<bool>

    function Fields(): CreateFields
      reads this, address
    {
      CreateFields(customerType, documentType, documentNumber, firstName, lastName,
                   businessName, email, phone, AddressOf(address), active)
    }
  }

  /** What a full-update request holds; here the segment is part of the payload. */
  datatype UpdateFields = UpdateFields(
    customerType: Option<CustomerType>,
    segment: Option<CustomerSegment>,
    firstName: Option<string>,
    lastName: Option<string>,
    businessName: Option<string>,
    email: Option<string>,
    documentType: Option<DocumentType>,
    documentNumber: Option<string>,
    phone: Option<string>,
    address: Option<AddressFields>,
    active: Option<bool>)

  class UpdateRequest {
    var customerType: Option<CustomerType>
    var segment: Option<CustomerSegment>
    var firstName: Option<string>
    var lastName: Option<string>
    var businessName: Option<string>
    var email: Option<string>
    var documentType: Option<DocumentType>
    var documentNumber: Option<string>
    var phone: Option<string>
    var address: Address?
    var active: Option<bool>

    function Fields(): UpdateFields
      reads this, address
    {
      UpdateFields(customerType, segment, firstName, lastName, businessName, email,
                   documentType, documentNumber, phone, AddressOf(address), active)
    }
  }
}
