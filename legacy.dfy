/**
 * The older customer service (`com.nttdata.api.CustomerService`) and the
 * store it uses.
 *
 * It differs from the engine on purpose: no sanitizing or validation, a
 * duplicate check on the document number alone, `active` false unless the
 * request says true, a PATCH-like update where only non-null request fields
 * overwrite, and a hard delete. Its repository has no unique index.
 */
module Legacy {
  import opened Outcomes
  import opened Domain

  const MsgDocumentExists: string := "Document already exists"
  const MsgCustomerNotFound: string := "Customer not found"

  datatype LegacyAddress = LegacyAddress(line1: Option<string>, city: Option<string>, country: Option<string>)

  /** The legacy request body (`CustomerRequest`). */
  datatype LegacyRequest = LegacyRequest(
    firstName: Option<string>,
    lastName: Option<string>,
    email: Option<string>,
    documentNumber: Option<string>,
    customerType: Option<CustomerType>,
    phone: Option<string>,
    address: Option<LegacyAddress>,
    active: Option<bool>)

  /** The legacy customer document. */
  datatype LegacyRecord = LegacyRecord(
    id: Option<Id>,
    firstName: Option<string>,
    lastName: Option<string>,
    email: Option<string>,
    documentNumber: Option<string>,
    customerType: Option<CustomerType>,
    phone: Option<string>,
    addressLine1: Option<string>,
    city: Option<string>,
    country: Option<string>,
    active: Option<bool>)

  datatype LegacyResponse = LegacyResponse(
    id: Option<Id>,
    firstName: Option<string>,
    lastName: Option<string>,
    email: Option<string>,
    documentNumber: Option<string>,
    customerType: CustomerType,
    phone: Option<string>,
    address: LegacyAddress,
    active: Option<bool>)

  /** `toEntity`: a new document; active only when the request says exactly true. */
  function ToEntity(r: LegacyRequest): (c: LegacyRecord)
    ensures c.id.None?
    ensures c.active == Some(r.active == Some(true))
    ensures c.firstName == r.firstName && c.lastName == r.lastName && c.email == r.email
    ensures c.documentNumber == r.documentNumber && c.customerType == r.customerType && c.phone == r.phone
    ensures r.address.None? ==> c.addressLine1.None? && c.city.None? && c.country.None?
    ensures r.address.Some? ==> LegacyAddress(c.addressLine1, c.city, c.country) == r.address.value
  {
    var a := r.address;
    LegacyRecord(None, r.firstName, r.lastName, r.email, r.documentNumber, r.customerType, r.phone,
                 if a.Some? then a.value.line1 else None,
                 if a.Some? then a.value.city else None,
                 if a.Some? then a.value.country else None,
                 Some(r.active == Some(true)))
  }

  /** `toResponse`: fails on a document without type, since the type is dereferenced. */
  function ToResponse(c: LegacyRecord): (r: Result<LegacyResponse>)
    ensures r.Err? <==> c.customerType.None?
    ensures r.Err? ==> r.error == NullPointer
    ensures r.Ok? ==>
      && r.value.id == c.id && Some(r.value.customerType) == c.customerType
      && r.value.firstName == c.firstName && r.value.lastName == c.lastName && r.value.email == c.email
      && r.value.documentNumber == c.documentNumber && r.value.phone == c.phone
      && r.value.address == LegacyAddress(c.addressLine1, c.city, c.country)
      && r.value.active == c.active
  {
    if c.customerType.None? then Err(NullPointer)
    else Ok(LegacyResponse(c.id, c.firstName, c.lastName, c.email, c.documentNumber, c.customerType.value,
                           c.phone, LegacyAddress(c.addressLine1, c.city, c.country), c.active))
  }

  function AllToResponse(cs: seq<LegacyRecord>): (r: Result<seq<LegacyResponse>>)
    ensures r.Ok? <==> forall i :: 0 <= i < |cs| ==> cs[i].customerType.Some?
    ensures r.Ok? ==> |r.value| == |cs| && forall i :: 0 <= i < |cs| ==> r.value[i] == ToResponse(cs[i]).value
  {
    if cs == [] then Ok([])
    else
      var head :- ToResponse(cs[0]);
      var tail :- AllToResponse(cs[1..]);
      Ok([head] + tail)
  }

  // ---------------------------------------------------------- partial merge

  /** The stored value, unless the request carries one. */
  function Pick<T>(stored: Option<T>, requested: Option<T>): Option<T>
  {
    if requested.Some? then requested else stored
  }

  /** What the null-guarded setters of legacy `update` leave in the document. */
  function Merged(d: LegacyRecord, r: LegacyRequest): LegacyRecord
  {
    var a := r.address;
    d.(firstName := Pick(d.firstName, r.firstName),
       lastName := Pick(d.lastName, r.lastName),
       email := Pick(d.email, r.email),
       documentNumber := Pick(d.documentNumber, r.documentNumber),
       customerType := Pick(d.customerType, r.customerType),
       phone := Pick(d.phone, r.phone),
       addressLine1 := if a.Some? then Pick(d.addressLine1, a.value.line1) else d.addressLine1,
       city := if a.Some? then Pick(d.city, a.value.city) else d.city,
       country := if a.Some? then Pick(d.country, a.value.country) else d.country,
       active := Pick(d.active, r.active))
  }

  /**
   * Only non-null request values overwrite; every other field, the id
   * included, keeps its stored value; merging the same request twice is
   * merging it once.
   */
  lemma MergeKeepsWhatIsNull(d: LegacyRecord, r: LegacyRequest)
    ensures var m := Merged(d, r);
      && m.id == d.id
      && (r.firstName.None? ==> m.firstName == d.firstName) && (r.firstName.Some? ==> m.firstName == r.firstName)
      && (r.lastName.None? ==> m.lastName == d.lastName) && (r.lastName.Some? ==> m.lastName == r.lastName)
      && (r.email.None? ==> m.email == d.email) && (r.email.Some? ==> m.email == r.email)
      && (r.documentNumber.None? ==> m.documentNumber == d.documentNumber)
      && (r.documentNumber.Some? ==> m.documentNumber == r.documentNumber)
      && (r.customerType.None? ==> m.customerType == d.customerType)
      && (r.customerType.Some? ==> m.customerType == r.customerType)
      && (r.phone.None? ==> m.phone == d.phone) && (r.phone.Some? ==> m.phone == r.phone)
      && (r.active.None? ==> m.active == d.active) && (r.active.Some? ==> m.active == r.active)
      && (r.address.None? ==> m.addressLine1 == d.addressLine1 && m.city == d.city && m.country == d.country)
      && Merged(m, r) == m
  {
  }

  /** With an address present, only its non-null line1/city/country overwrite. */
  lemma MergeAddress(d: LegacyRecord, r: LegacyRequest)
    requires r.address.Some?
    ensures var m := Merged(d, r); var a := r.address.value;
      && m.addressLine1 == (if a.line1.Some? then a.line1 else d.addressLine1)
      && m.city == (if a.city.Some? then a.city else d.city)
      && m.country == (if a.country.Some? then a.country else d.country)
  {
  }

  /** An all-null request changes nothing. */
  lemma MergeEmpty(d: LegacyRecord)
    ensures Merged(d, LegacyRequest(None, None, None, None, None, None, None, None)) == d
  {
  }

  /** The loaded legacy entity that update changes through setters. */
  class LegacyCustomer {
    var id: Option<Id>
    var firstName: Option<string>
    var lastName: Option<string>
    var email: Option<string>
    var documentNumber: Option<string>
    var customerType: Option<CustomerType>
    var phone: Option<string>
    var addressLine1: Option<string>
    var city: Option<string>
    var country: Option<string>
    var active: Option<bool>

    function Snapshot(): LegacyRecord
      reads this
    {
      LegacyRecord(id, firstName, lastName, email, documentNumber, customerType, phone,
                   addressLine1, city, country, active)
    }

    constructor Load(d: LegacyRecord)
      ensures Snapshot() == d
    {
      id, firstName, lastName, email := d.id, d.firstName, d.lastName, d.email;
      documentNumber, customerType, phone := d.documentNumber, d.customerType, d.phone;
      addressLine1, city, country, active := d.addressLine1, d.city, d.country, d.active;
    }

    /** The guarded setter calls of legacy `update`. */
    method Merge(r: LegacyRequest)
      modifies this
      ensures Snapshot() == Merged(old(Snapshot()), r)
    {
      MergeProfile(r);
      MergeContact(r);
    }

    /** The name, email and document setters. */
    method MergeProfile(r: LegacyRequest)
      modifies this
      ensures Snapshot() == old(Snapshot()).(
        firstName := Pick(old(firstName), r.firstName),
        lastName := Pick(old(lastName), r.lastName),
        email := Pick(old(email), r.email),
        documentNumber := Pick(old(documentNumber), r.documentNumber),
        customerType := Pick(old(customerType), r.customerType))
    {
      if r.firstName.Some? { firstName := r.firstName; }
      if r.lastName.Some? { lastName := r.lastName; }
      if r.email.Some? { email := r.email; }
      if r.documentNumber.Some? { documentNumber := r.documentNumber; }
      if r.customerType.Some? { customerType := r.customerType; }
    }

    /** The phone, address and active setters. */
    method MergeContact(r: LegacyRequest)
      modifies this
      ensures var a := r.address;
        Snapshot() == old(Snapshot()).(
          phone := Pick(old(phone), r.phone),
          addressLine1 := if a.Some? then Pick(old(addressLine1), a.value.line1) else old(addressLine1),
          city := if a.Some? then Pick(old(city), a.value.city) else old(city),
          country := if a.Some? then Pick(old(country), a.value.country) else old(country),
          active := Pick(old(active), r.active))
    {
      if r.phone.Some? { phone := r.phone; }
      if r.address.Some? {
        var a := r.address.value;
        if a.line1.Some? { addressLine1 := a.line1; }
        if a.city.Some? { city := a.city; }
        if a.country.Some? { country := a.country; }
      }
      if r.active.Some? { active := r.active; }
    }
  }

  // ------------------------------------------------------------------ store

  datatype LegacyFilter = AnyType | OfType(customerType: CustomerType) | ActiveNumber(documentNumber: Option<string>)

  predicate LegacyMatches(f: LegacyFilter, c: LegacyRecord)
  {
    match f
    case AnyType => true
    case OfType(t) => c.customerType == Some(t)
    case ActiveNumber(dn) => c.active == Some(true) && c.documentNumber == dn
  }

  /** The documents with keys in [lo, hi) that match `f`, in ascending key order. */
  function LegacyScan(m: map<Id, LegacyRecord>, f: LegacyFilter, lo: nat, hi: nat): (r: seq<LegacyRecord>)
    ensures forall i :: 0 <= i < |r| ==> LegacyMatches(f, r[i]) && r[i] in m.Values
    decreases hi - lo
  {
    if lo >= hi then []
    else (if lo in m && LegacyMatches(f, m[lo]) then [m[lo]] else []) + LegacyScan(m, f, lo + 1, hi)
  }

  lemma {:induction false} LegacyScanComplete(m: map<Id, LegacyRecord>, f: LegacyFilter, lo: nat, hi: nat, k: Id)
    requires k in m && lo <= k < hi && LegacyMatches(f, m[k])
    ensures m[k] in LegacyScan(m, f, lo, hi)
    decreases hi - lo
  {
    if k > lo {
      LegacyScanComplete(m, f, lo + 1, hi, k);
    }
  }

  /** The legacy collection: no unique index, hard delete. */
  class LegacyStore {
    var records: map<Id, LegacyRecord>
    var nextId: nat

    ghost predicate Valid()
      reads this
    {
      forall k :: k in records ==> records[k].id == Some(k) && k < nextId
    }

    constructor ()
      ensures Valid() && records == map[] && nextId == 0
    {
      records := map[];
      nextId := 0;
    }

    function Get(id: Id): (r: Option<LegacyRecord>)
      reads this
      ensures r.Some? <==> id in records
      ensures r.Some? ==> r.value == records[id]
    {
      if id in records then Some(records[id]) else None
    }

    function Find(f: LegacyFilter): seq<LegacyRecord>
      reads this
    {
      LegacyScan(records, f, 0, nextId)
    }

    /** Under the invariant, a document is found exactly when some stored document matches. */
    lemma FindIff(f: LegacyFilter)
      requires Valid()
      ensures Find(f) != [] <==> exists k :: k in records && LegacyMatches(f, records[k])
      ensures forall k :: k in records && LegacyMatches(f, records[k]) ==> records[k] in Find(f)
    {
      forall k | k in records && LegacyMatches(f, records[k]) ensures records[k] in Find(f) {
        LegacyScanComplete(records, f, 0, nextId, k);
      }
      if Find(f) != [] {
        var c := Find(f)[0];
        assert c in records.Values;
        var k :| k in records && records[k] == c;
      }
    }

    /** Upsert; a document without id gets the next one. Nothing refuses the write. */
    method Save(c: LegacyRecord) returns (stored: LegacyRecord)
      requires Valid()
      modifies this
      ensures Valid()
      ensures var key := if c.id.Some? then c.id.value else old(nextId);
              stored == c.(id := Some(key)) && records == old(records)[key := stored]
    {
      var key := if c.id.Some? then c.id.value else nextId;
      stored := c.(id := Some(key));
      records := records[key := stored];
      if key >= nextId {
        nextId := key + 1;
      }
    }

    method Remove(id: Id)
      requires Valid()
      modifies this
      ensures Valid() && records == old(records) - {id} && nextId == old(nextId)
    {
      records := records - {id};
    }
  }

  // ---------------------------------------------------------------- service

  class LegacyCustomerService {
    const repo: LegacyStore

    constructor (repo: LegacyStore)
      ensures this.repo == repo
    {
      this.repo := repo;
    }

    /** `create`: refuse a document number some active customer has; otherwise store the request. */
    method Create(r: Option<LegacyRequest>) returns (res: Result<LegacyResponse>)
      requires repo.Valid()
      modifies repo
      ensures repo.Valid()
      ensures r.None? ==> res == Err(NullPointer) && repo.records == old(repo.records)
      ensures r.Some? ==>
        var taken := exists k :: k in old(repo.records) && LegacyMatches(ActiveNumber(r.value.documentNumber), old(repo.records)[k]);
        && (taken ==> res == Err(IllegalState(MsgDocumentExists)) && repo.records == old(repo.records))
        && (!taken ==>
              var stored := ToEntity(r.value).(id := Some(old(repo.nextId)));
              repo.records == old(repo.records)[old(repo.nextId) := stored] && res == ToResponse(stored))
    {
      if r.None? {
        return Err(NullPointer);
      }
      var query := ActiveNumber(r.value.documentNumber);
      repo.FindIff(query);
      if repo.Find(query) != [] {
        return Err(IllegalState(MsgDocumentExists));
      }
      var stored := repo.Save(ToEntity(r.value));
      res := ToResponse(stored);
    }

    /** `findAll`: every document for a null type, otherwise the documents of that type. */
    function FindAll(t: Option<CustomerType>): (r: Result<seq<LegacyResponse>>)
      reads repo
      ensures var ds := repo.Find(if t.None? then AnyType else OfType(t.value));
        && (r.Ok? <==> forall i :: 0 <= i < |ds| ==> ds[i].customerType.Some?)
        && (r.Ok? ==> |r.value| == |ds| && forall i :: 0 <= i < |ds| ==> r.value[i] == ToResponse(ds[i]).value)
    {
      AllToResponse(repo.Find(if t.None? then AnyType else OfType(t.value)))
    }

    /** Without a type every stored document is listed; with one, exactly those of that type. */
    lemma FindAllSelects(t: Option<CustomerType>)
      requires repo.Valid()
      ensures var f := if t.None? then AnyType else OfType(t.value);
        && (forall i :: 0 <= i < |repo.Find(f)| ==> t.None? || repo.Find(f)[i].customerType == t)
        && (forall k :: k in repo.records && (t.None? || repo.records[k].customerType == t) ==>
              repo.records[k] in repo.Find(f))
        && (FindAll(t).Ok? ==> |FindAll(t).value| == |repo.Find(f)|)
    {
      var f := if t.None? then AnyType else OfType(t.value);
      repo.FindIff(f);
    }

    function FindById(id: Id): (r: Result<LegacyResponse>)
      reads repo
      ensures id !in repo.records ==> r == Err(IllegalArgument(MsgCustomerNotFound))
      ensures id in repo.records ==> r == ToResponse(repo.records[id])
    {
      var found := repo.Get(id);
      if found.None? then Err(IllegalArgument(MsgCustomerNotFound)) else ToResponse(found.value)
    }

    /** `update`: merge the non-null request fields into the stored document and save it. */
    method Update(id: Id, r: Option<LegacyRequest>) returns (res: Result<LegacyResponse>)
      requires repo.Valid()
      modifies repo
      ensures repo.Valid()
      ensures id !in old(repo.records) ==>
        res == Err(IllegalArgument(MsgCustomerNotFound)) && repo.records == old(repo.records)
      ensures id in old(repo.records) && r.None? ==> res == Err(NullPointer) && repo.records == old(repo.records)
      ensures id in old(repo.records) && r.Some? ==>
        var merged := Merged(old(repo.records)[id], r.value);
        repo.records == old(repo.records)[id := merged] && res == ToResponse(merged) && FindById(id) == res
    {
      var found := repo.Get(id);
      if found.None? {
        return Err(IllegalArgument(MsgCustomerNotFound));
      }
      if r.None? {
        return Err(NullPointer);
      }
      var db := new LegacyCustomer.Load(found.value);
      db.Merge(r.value);
      var stored := repo.Save(db.Snapshot());
      res := ToResponse(stored);
    }

    /** `delete`: removes the document, or fails when there is none. */
    method Delete(id: Id) returns (o: Outcome)
      requires repo.Valid()
      modifies repo
      ensures repo.Valid()
      ensures id in old(repo.records) ==> o == Pass && repo.records == old(repo.records) - {id}
      ensures id !in old(repo.records) ==>
        o == Fail(IllegalArgument(MsgCustomerNotFound)) && repo.records == old(repo.records)
      ensures FindById(id) == Err(IllegalArgument(MsgCustomerNotFound))
    {
      if id !in repo.records {
        return Fail(IllegalArgument(MsgCustomerNotFound));
      }
      repo.Remove(id);
      o := Pass;
    }
  }
}
