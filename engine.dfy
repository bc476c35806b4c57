/**
 * The customer business rules (`CustomerServiceImpl`), over the store of
 * `Store`.
 *
 * Each reactive pipeline becomes a sequential method (or, for the read-only
 * ones, a function) that returns either a value or the `Failure` the pipeline
 * would signal. The current time is a parameter.
 */
module Engine {
  import opened Outcomes
  import opened Domain
  import opened Requests
  import opened Validator
  import opened Sanitizer
  import opened Sorting
  import opened Mapper
  import opened Store

  const MsgNotFound: string := "Cliente no encontrado"
  const MsgActiveExists: string := "Ya existe un cliente activo con ese documento"
  const MsgIndexOnCreate: string := "Documento duplicado (índice único)"
  const MsgSegmentRequired: string := "segment es obligatorio en PUT"
  const MsgOtherActive: string := "Ya existe otro cliente activo con ese documento"
  const MsgIndexOnUpdate: string := "Documento ya existe (índice único)"
  const MsgNoActive: string := "No existe cliente activo con ese documento"
  const MsgSeveralActive: string := "Más de un cliente activo con el mismo documento"

  const DefaultSize: nat := 20
  const MaxSize: nat := 100

  // ------------------------------------------------------------------ list

  /** A null or negative page is page 0. */
  function EffectivePage(page: Option<int>): (p: nat)
    ensures page.None? || page.value < 0 ==> p == 0
    ensures page.Some? && page.value >= 0 ==> p == page.value
  {
    if page.None? || page.value < 0 then 0 else page.value
  }

  /** A null size is 20; any other is clamped into [1, 100]. */
  function EffectiveSize(size: Option<int>): (s: nat)
    ensures 1 <= s <= MaxSize
    ensures size.None? ==> s == DefaultSize
    ensures size.Some? && 1 <= size.value <= MaxSize ==> s == size.value
    ensures size.Some? && size.value < 1 ==> s == 1
    ensures size.Some? && size.value > MaxSize ==> s == MaxSize
  {
    if size.None? then DefaultSize
    else if size.value < 1 then 1
    else if size.value > MaxSize then MaxSize
    else size.value
  }

  /** `skip(skip).take(take)` */
  function Page<T>(s: seq<T>, skip: nat, take: nat): (r: seq<T>)
    ensures |r| == if skip >= |s| then 0 else if |s| - skip < take then |s| - skip else take
    ensures forall i :: 0 <= i < |r| ==> r[i] == s[skip + i]
  {
    if skip >= |s| then []
    else if |s| - skip < take then s[skip..]
    else s[skip..skip + take]
  }

  /** Three matches, size 2: page 0 holds two, page 1 holds one, page 2 none. */
  lemma PageExample<T>(s: seq<T>)
    requires |s| == 3
    ensures Page(s, EffectivePage(Some(0)) * EffectiveSize(Some(2)), EffectiveSize(Some(2))) == s[..2]
    ensures Page(s, EffectivePage(Some(1)) * EffectiveSize(Some(2)), EffectiveSize(Some(2))) == [s[2]]
    ensures Page(s, EffectivePage(Some(2)) * EffectiveSize(Some(2)), EffectiveSize(Some(2))) == []
  {
  }

  /** The finder `list` picks: by type and segment, by one of them, or all. */
  function ListFilter(t: Option<CustomerType>, s: Option<CustomerSegment>): Filter
  {
    if t.Some? && s.Some? then OfTypeAndSegment(TypeValue(t.value), SegmentValue(s.value))
    else if t.Some? then OfType(TypeValue(t.value))
    else if s.Some? then OfSegment(SegmentValue(s.value))
    else All
  }

  /** A criterion constrains the listing exactly when its argument is non-null. */
  lemma ListFilterMatches(t: Option<CustomerType>, s: Option<CustomerSegment>, c: CustomerRecord)
    ensures Matches(ListFilter(t, s), c) <==>
      (t.None? || c.customerType == AsTypeString(t)) && (s.None? || c.segment == AsSegmentString(s))
  {
  }

  /** A slice of a sorted sequence is sorted. */
  lemma PageSorted(spec: Spec, s: seq<CustomerRecord>, skip: nat, take: nat)
    requires Sorted(spec, s)
    ensures Sorted(spec, Page(s, skip, take))
  {
    var r := Page(s, skip, take);
    forall i | 0 < i < |r| ensures InOrder(spec, r[i - 1], r[i]) {
      assert r[i - 1] == s[skip + i - 1] && r[i] == s[skip + i];
    }
  }

  /** A page of the sorted documents is sorted and holds only documents of the input. */
  lemma SortedPage(spec: Spec, found: seq<CustomerRecord>, skip: nat, n: nat)
    ensures Sorted(spec, Page(SortRecords(spec, found), skip, n))
    ensures forall i :: 0 <= i < |Page(SortRecords(spec, found), skip, n)| ==>
      Page(SortRecords(spec, found), skip, n)[i] in found
  {
    var sorted := SortRecords(spec, found);
    SortRecordsCorrect(spec, found);
    PageSorted(spec, sorted, skip, n);
    var ds := Page(sorted, skip, n);
    forall i | 0 <= i < |ds| ensures ds[i] in found {
      assert ds[i] == sorted[skip + i];
      assert sorted[skip + i] in multiset(found);
    }
  }

  // ------------------------------------------------------------- create

  /** What the save of create or update reports: duplicate-key failures become Conflict. */
  function SavedResponse(saved: Result<CustomerRecord>, msg: string): (r: Result<CustomerResponse>)
    ensures saved.Ok? ==> r == ToApi(saved.value)
    ensures saved.Err? && saved.error == DuplicateKey ==> r == Err(Conflict(msg))
    ensures saved.Err? && saved.error != DuplicateKey ==> r == Err(saved.error)
  {
    if saved.Ok? then ToApi(saved.value)
    else if saved.error == DuplicateKey then Err(Conflict(msg))
    else Err(saved.error)
  }

  /** What the save of delete reports. */
  function SavedOutcome(saved: Result<CustomerRecord>): (o: Outcome)
    ensures o.Pass? <==> saved.Ok?
    ensures o.Fail? ==> o.error == saved.error
  {
    if saved.Ok? then Pass else Fail(saved.error)
  }

  /** Some stored document matches `f`. */
  ghost predicate AnyMatch(m: map<Id, CustomerRecord>, f: Filter)
  {
    exists k :: k in m && Matches(f, m[k])
  }

  /** The document update checks for uniqueness: request values, falling back to the stored ones. */
  function CheckedDocument(found: CustomerRecord, u: UpdateFields): (Option<string>, Option<string>)
  {
    (if u.documentType.Some? then AsDocString(u.documentType) else found.documentType,
     if u.documentNumber.Some? then u.documentNumber else found.documentNumber)
  }

  /** The document as update writes it. */
  function UpdatedRecord(found: CustomerRecord, u: UpdateFields): CustomerRecord
  {
    var w := Overwritten(found, u);
    w.(displayName := DisplayNameOf(w))
  }

  /** `delete`: an inactive customer is left alone, any other is marked inactive and stamped. */
  function SoftDeleted(m: map<Id, CustomerRecord>, id: Id, now: Instant): map<Id, CustomerRecord>
  {
    if id !in m || m[id].active == Some(false) then m
    else m[id := m[id].(active := Some(false), deletedAt := Some(now))]
  }

  /** Deleting twice is deleting once: the second call finds the customer inactive. */
  lemma SoftDeleteIdempotent(m: map<Id, CustomerRecord>, id: Id, t1: Instant, t2: Instant)
    ensures SoftDeleted(SoftDeleted(m, id, t1), id, t2) == SoftDeleted(m, id, t1)
  {
  }

  /** A soft delete only touches the flag and the deletion time of one customer. */
  lemma SoftDeleteFrame(m: map<Id, CustomerRecord>, id: Id, now: Instant)
    ensures SoftDeleted(m, id, now).Keys == m.Keys
    ensures forall k :: k in m && k != id ==> SoftDeleted(m, id, now)[k] == m[k]
    ensures id in m ==> SoftDeleted(m, id, now)[id].active == Some(false)
    ensures id in m && m[id].active != Some(false) ==>
      SoftDeleted(m, id, now)[id] == m[id].(active := Some(false), deletedAt := Some(now))
  {
  }

  class CustomerService {
    const repo: CustomerStore

    constructor (repo: CustomerStore)
      ensures this.repo == repo
    {
      this.repo := repo;
    }

    /** The documents one page of `list` shows, before mapping. */
    function Listed(t: Option<CustomerType>, s: Option<CustomerSegment>, page: Option<int>,
                    size: Option<int>, sort: Option<string>, direction: Option<string>): seq<CustomerRecord>
      reads repo
    {
      var n := EffectiveSize(size);
      Page(SortRecords(Parse(sort, direction), repo.Find(ListFilter(t, s))), EffectivePage(page) * n, n)
    }

    /** `list`: the listed page, mapped; it fails iff some listed document does not map. */
    function List(t: Option<CustomerType>, s: Option<CustomerSegment>, page: Option<int>,
                  size: Option<int>, sort: Option<string>, direction: Option<string>): (r: Result<seq<CustomerResponse>>)
      reads repo
      ensures var ds := Listed(t, s, page, size, sort, direction);
        && (r.Ok? <==> forall i :: 0 <= i < |ds| ==> ToApi(ds[i]).Ok?)
        && (r.Ok? ==> |r.value| == |ds| && forall i :: 0 <= i < |ds| ==> r.value[i] == ToApi(ds[i]).value)
    {
      AllToApi(Listed(t, s, page, size, sort, direction))
    }

    /**
     * A page of `list` holds at most `size` documents, all stored, all
     * matching the non-null criteria, in the order the whitelisted sort asks
     * for; on success the responses are those documents, mapped.
     */
    lemma ListPage(t: Option<CustomerType>, s: Option<CustomerSegment>, page: Option<int>,
                   size: Option<int>, sort: Option<string>, direction: Option<string>)
      ensures var ds := Listed(t, s, page, size, sort, direction);
        && |ds| <= EffectiveSize(size)
        && Sorted(Parse(sort, direction), ds)
        && (forall i :: 0 <= i < |ds| ==>
              && ds[i] in repo.records.Values
              && (t.None? || ds[i].customerType == AsTypeString(t))
              && (s.None? || ds[i].segment == AsSegmentString(s)))
        && var r := List(t, s, page, size, sort, direction);
           r.Ok? ==> |r.value| == |ds| && forall i :: 0 <= i < |ds| ==> r.value[i] == ToApi(ds[i]).value
    {
      var found := repo.Find(ListFilter(t, s));
      var n := EffectiveSize(size);
      var ds := Listed(t, s, page, size, sort, direction);
      SortedPage(Parse(sort, direction), found, EffectivePage(page) * n, n);
      forall i | 0 <= i < |ds|
        ensures (t.None? || ds[i].customerType == AsTypeString(t)) && (s.None? || ds[i].segment == AsSegmentString(s))
      {
        ListFilterMatches(t, s, ds[i]);
      }
    }

    function GetById(id: Id): (r: Result<CustomerResponse>)
      reads repo
      ensures id !in repo.records ==> r == Err(NotFound(MsgNotFound))
      ensures id in repo.records ==> r == ToApi(repo.records[id])
    {
      var found := repo.Get(id);
      if found.None? then Err(NotFound(MsgNotFound)) else ToApi(found.value)
    }

    /**
     * `create`: sanitize, validate, refuse a document some active customer
     * already has, then store the new customer under the next id.
     */
    method Create(r: CreateRequest?, now: Instant) returns (res: Result<CustomerResponse>)
      requires repo.Valid()
      modifies repo, r, if r != null then r.address else null
      ensures repo.Valid()
      ensures r == null ==> res == Err(IllegalArgument(MsgNullRequest)) && repo.records == old(repo.records)
      ensures r != null ==> r.address == old(r.address) && r.Fields() == SanitizedCreate(old(r.Fields()))
      ensures r != null ==>
        var f := r.Fields();
        var v := ValidateCreate(Some(f));
        && (v.Fail? ==> res == Err(v.error) && repo.records == old(repo.records))
        && (v.Pass? ==>
              var taken := AnyMatch(old(repo.records), ActiveDocument(AsDocString(f.documentType), f.documentNumber));
              && (taken ==> res == Err(Conflict(MsgActiveExists)) && repo.records == old(repo.records))
              && (!taken ==>
                    var stored := ToDomain(f, now).(id := Some(old(repo.nextId)));
                    && old(repo.nextId) !in old(repo.records)
                    && repo.records == old(repo.records)[old(repo.nextId) := stored]
                    && res == ToApi(stored) && res.Ok?
                    && GetById(old(repo.nextId)) == res))
    {
      SanitizeCreate(r);
      var input := if r == null then None else Some(r.Fields());
      var v := ValidateCreate(input);
      if v.Fail? {
        return Err(v.error);
      }
      var f := input.value;
      var query := ActiveDocument(AsDocString(f.documentType), f.documentNumber);
      repo.ExistsIff(query);
      if repo.Exists(query) {
        return Err(Conflict(MsgActiveExists));
      }
      NoActiveHolderNoClash(repo.records, repo.nextId, ToDomain(f, now).(id := Some(repo.nextId)));
      res := Register(f, now);
    }

    /**
     * The insert at the end of `create`. When the store already holds an
     * active customer with the document (another `create` won the race after
     * the pre-check), the index refuses the write and the DuplicateKey failure
     * becomes Conflict.
     */
    method Register(f: CreateFields, now: Instant) returns (res: Result<CustomerResponse>)
      requires repo.Valid()
      modifies repo
      ensures repo.Valid()
      ensures var stored := ToDomain(f, now).(id := Some(old(repo.nextId)));
        && old(repo.nextId) !in old(repo.records)
        && (Clashes(old(repo.records), old(repo.nextId), stored) ==>
              res == Err(Conflict(MsgIndexOnCreate)) && repo.records == old(repo.records))
        && (!Clashes(old(repo.records), old(repo.nextId), stored) ==>
              && repo.records == old(repo.records)[old(repo.nextId) := stored]
              && res == ToApi(stored) && res.Ok?
              && GetById(old(repo.nextId)) == res)
    {
      var entity := ToDomain(f, now);
      ToApiOfToDomain(f, now);
      var saved := repo.Save(entity);
      res := SavedResponse(saved, MsgIndexOnCreate);
    }

    /**
     * `update` (PUT): the customer must exist, the request must be non-null
     * and carry a segment, and no other active customer may hold the checked
     * document; then the customer is overwritten, segment-checked and saved.
     */
    method Update(id: Id, r: Option<UpdateFields>) returns (res: Result<CustomerResponse>)
      requires repo.Valid()
      modifies repo
      ensures repo.Valid()
      ensures id !in old(repo.records) ==> res == Err(NotFound(MsgNotFound)) && repo.records == old(repo.records)
      ensures id in old(repo.records) && r.None? ==> res == Err(NullPointer) && repo.records == old(repo.records)
      ensures id in old(repo.records) && r.Some? && r.value.segment.None? ==>
        res == Err(Unprocessable(MsgSegmentRequired)) && repo.records == old(repo.records)
      ensures id in old(repo.records) && r.Some? && r.value.segment.Some? ==>
        var found := old(repo.records)[id];
        var doc := CheckedDocument(found, r.value);
        var dup := AnyMatch(old(repo.records), ActiveDocumentExcept(doc.0, doc.1, id));
        var w := Overwritten(found, r.value);
        var stored := UpdatedRecord(found, r.value);
        && (dup ==> res == Err(Conflict(MsgOtherActive)) && repo.records == old(repo.records))
        && (!dup && !SegmentAllowed(w.customerType, w.segment) ==>
              res.Err? && res.error.Unprocessable? && repo.records == old(repo.records))
        && (!dup && SegmentAllowed(w.customerType, w.segment) && Clashes(old(repo.records), id, stored) ==>
              res == Err(Conflict(MsgIndexOnUpdate)) && repo.records == old(repo.records))
        && (!dup && SegmentAllowed(w.customerType, w.segment) && !Clashes(old(repo.records), id, stored) ==>
              repo.records == old(repo.records)[id := stored] && res == ToApi(stored) && GetById(id) == res)
    {
      var found := repo.Get(id);
      if found.None? {
        return Err(NotFound(MsgNotFound));
      }
      if r.None? {
        return Err(NullPointer);
      }
      var u := r.value;
      var doc := CheckedDocument(found.value, u);
      if u.segment.None? {
        return Err(Unprocessable(MsgSegmentRequired));
      }
      var query := ActiveDocumentExcept(doc.0, doc.1, id);
      repo.ExistsIff(query);
      if repo.Exists(query) {
        return Err(Conflict(MsgOtherActive));
      }
      var entity := new Customer.Load(found.value);
      var o := ApplyUpdate(entity, u);
      if o.Fail? {
        return Err(o.error);
      }
      var saved := repo.Save(entity.Snapshot());
      res := SavedResponse(saved, MsgIndexOnUpdate);
    }

    /** `delete`: a soft delete; deleting an inactive customer succeeds without a write. */
    method Delete(id: Id, now: Instant) returns (o: Outcome)
      requires repo.Valid()
      modifies repo
      ensures repo.Valid()
      ensures id !in old(repo.records) ==> o == Fail(NotFound(MsgNotFound)) && repo.records == old(repo.records)
      ensures id in old(repo.records) ==> o == Pass && repo.records == SoftDeleted(old(repo.records), id, now)
    {
      var found := repo.Get(id);
      if found.None? {
        return Fail(NotFound(MsgNotFound));
      }
      var c := new Customer.Load(found.value);
      if c.active == Some(false) {
        return Pass;
      }
      c.active := Some(false);
      c.deletedAt := Some(now);
      var saved := repo.Save(c.Snapshot());
      o := SavedOutcome(saved);
    }

    /** `getEligibility`: none, several or exactly one active customer with the document. */
    function GetEligibility(dt: Option<DocumentType>, dn: Option<string>): (r: Result<EligibilityResponse>)
      reads repo
      ensures repo.Find(ActiveDocument(AsDocString(dt), dn)) == [] ==> r == Err(NotFound(MsgNoActive))
      ensures |repo.Find(ActiveDocument(AsDocString(dt), dn))| > 1 ==> r == Err(Conflict(MsgSeveralActive))
      ensures |repo.Find(ActiveDocument(AsDocString(dt), dn))| == 1 ==>
        r == ToEligibility(repo.Find(ActiveDocument(AsDocString(dt), dn))[0])
    {
      var found := repo.Find(ActiveDocument(AsDocString(dt), dn));
      if |found| == 0 then Err(NotFound(MsgNoActive))
      else if |found| > 1 then Err(Conflict(MsgSeveralActive))
      else ToEligibility(found[0])
    }

    /**
     * On a store that keeps its index, eligibility fails with NotFound exactly
     * when no active customer has the document, never reports several, and
     * otherwise describes the one that has it.
     */
    lemma EligibilityUnderIndex(dt: Option<DocumentType>, dn: Option<string>)
      requires repo.Valid()
      ensures var q := ActiveDocument(AsDocString(dt), dn);
        && (GetEligibility(dt, dn) == Err(NotFound(MsgNoActive)) <==> !AnyMatch(repo.records, q))
        && GetEligibility(dt, dn) != Err(Conflict(MsgSeveralActive))
        && forall k :: k in repo.records && Matches(q, repo.records[k]) ==>
             GetEligibility(dt, dn) == ToEligibility(repo.records[k])
    {
      var q := ActiveDocument(AsDocString(dt), dn);
      AtMostOneActive(repo.records, AsDocString(dt), dn, 0, repo.nextId);
      repo.ExistsIff(q);
      forall k | k in repo.records && Matches(q, repo.records[k])
        ensures GetEligibility(dt, dn) == ToEligibility(repo.records[k])
      {
        ScanComplete(repo.records, q, 0, repo.nextId, k);
      }
      if repo.Find(q) != [] {
        var e := ToEligibility(repo.Find(q)[0]);
        assert e.Err? ==> e.error.IllegalArgument?;
      }
    }

    /** `getByDocumentNumber`: the one active customer with that number, whatever its document type. */
    function GetByDocumentNumber(dn: Option<string>): (r: Result<CustomerResponse>)
      reads repo
      ensures repo.Find(ActiveNumber(dn)) == [] ==> r == Err(NotFound(MsgNotFound))
      ensures |repo.Find(ActiveNumber(dn))| > 1 ==> r == Err(IncorrectResultSize)
      ensures |repo.Find(ActiveNumber(dn))| == 1 ==> r == ToApi(repo.Find(ActiveNumber(dn))[0])
    {
      var one :- repo.FindOne(ActiveNumber(dn));
      if one.None? then Err(NotFound(MsgNotFound)) else ToApi(one.value)
    }
  }
}
