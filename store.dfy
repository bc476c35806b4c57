/**
 * The customer collection behind the service (`CustomerRepository` with the
 * partial unique index `ux_doc_active_true` of `MongoIndexesInitializer`).
 *
 * The store is a map from id to customer document. Finders scan it in
 * ascending id order; `Save` is an upsert that assigns the next id to a new
 * document and refuses, with `DuplicateKey`, any write that would leave two
 * documents with `active == true` and the same (documentType, documentNumber).
 * That index rule is the store's invariant `UniqueActive`.
 */
module Store {
  import opened Outcomes
  import opened Domain
  import opened Sorting

  /** The derived queries the services use. A null criterion matches a null field. */
  datatype Filter =
    | All                                                           // findAll
    | OfType(customerType: string)                                  // findByType
    | OfSegment(segment: string)                                    // findBySegment
    | OfTypeAndSegment(customerType: string, segment: string)       // findByTypeAndSegment
    | ActiveDocument(documentType: Option<string>, documentNumber: Option<string>)
                                                                    // ...ByDocumentTypeAndDocumentNumberAndActiveIsTrue
    | ActiveDocumentExcept(documentType: Option<string>, documentNumber: Option<string>, id: Id)
                                                                    // ...AndActiveIsTrueAndIdNot
    | ActiveNumber(documentNumber: Option<string>)                  // findByDocumentNumberAndActiveIsTrue

  predicate SameDocument(a: CustomerRecord, b: CustomerRecord)
  {
    a.documentType == b.documentType && a.documentNumber == b.documentNumber
  }

  predicate IsActive(c: CustomerRecord) { c.active == Some(true) }

  predicate Matches(f: Filter, c: CustomerRecord)
  {
    match f
    case All => true
    case OfType(t) => c.customerType == Some(t)
    case OfSegment(s) => c.segment == Some(s)
    case OfTypeAndSegment(t, s) => c.customerType == Some(t) && c.segment == Some(s)
    case ActiveDocument(dt, dn) => IsActive(c) && c.documentType == dt && c.documentNumber == dn
    case ActiveDocumentExcept(dt, dn, id) =>
      IsActive(c) && c.documentType == dt && c.documentNumber == dn && c.id != Some(id)
    case ActiveNumber(dn) => IsActive(c) && c.documentNumber == dn
  }

  /** The partial unique index: no two active documents share a document type and number. */
  ghost predicate UniqueActive(m: map<Id, CustomerRecord>)
  {
    forall a, b :: a in m && b in m && a != b && IsActive(m[a]) && IsActive(m[b]) ==> !SameDocument(m[a], m[b])
  }

  /** Writing `c` under `key` would break the index. */
  predicate Clashes(m: map<Id, CustomerRecord>, key: Id, c: CustomerRecord)
  {
    IsActive(c) && exists k :: k in m && k != key && IsActive(m[k]) && SameDocument(m[k], c)
  }

  // ------------------------------------------------------------ scanning

  /** Keys in [lo, hi) whose document matches `f`. */
  ghost function MatchingKeys(m: map<Id, CustomerRecord>, f: Filter, lo: nat, hi: nat): set<Id>
  {
    set k | k in m && lo <= k < hi && Matches(f, m[k])
  }

  /** The documents with keys in [lo, hi) that match `f`, in ascending key order. */
  function Scan(m: map<Id, CustomerRecord>, f: Filter, lo: nat, hi: nat): (r: seq<CustomerRecord>)
    ensures forall i :: 0 <= i < |r| ==> Matches(f, r[i]) && r[i] in m.Values
    decreases hi - lo
  {
    if lo >= hi then []
    else (if lo in m && Matches(f, m[lo]) then [m[lo]] else []) + Scan(m, f, lo + 1, hi)
  }

  /** Every matching document in range is found. */
  lemma {:induction false} ScanComplete(m: map<Id, CustomerRecord>, f: Filter, lo: nat, hi: nat, k: Id)
    requires k in m && lo <= k < hi && Matches(f, m[k])
    ensures m[k] in Scan(m, f, lo, hi)
    decreases hi - lo
  {
    if k > lo {
      ScanComplete(m, f, lo + 1, hi, k);
    }
  }

  /** One result per matching key. */
  lemma {:induction false} ScanCount(m: map<Id, CustomerRecord>, f: Filter, lo: nat, hi: nat)
    ensures |Scan(m, f, lo, hi)| == |MatchingKeys(m, f, lo, hi)|
    decreases hi - lo
  {
    if lo < hi {
      ScanCount(m, f, lo + 1, hi);
      var rest := MatchingKeys(m, f, lo + 1, hi);
      if lo in m && Matches(f, m[lo]) {
        assert MatchingKeys(m, f, lo, hi) == {lo} + rest;
        assert lo !in rest;
      } else {
        assert MatchingKeys(m, f, lo, hi) == rest;
      }
    } else {
      assert MatchingKeys(m, f, lo, hi) == {};
    }
  }

  /** Under the index, at most one active document carries a given document. */
  lemma AtMostOneActive(m: map<Id, CustomerRecord>, dt: Option<string>, dn: Option<string>, lo: nat, hi: nat)
    requires UniqueActive(m)
    ensures |Scan(m, ActiveDocument(dt, dn), lo, hi)| <= 1
  {
    ScanCount(m, ActiveDocument(dt, dn), lo, hi);
    var keys := MatchingKeys(m, ActiveDocument(dt, dn), lo, hi);
    forall a, b | a in keys && b in keys
      ensures a == b
    {
      assert Matches(ActiveDocument(dt, dn), m[a]) && Matches(ActiveDocument(dt, dn), m[b]);
    }
    AllEqualAtMostOne(keys);
  }

  /** A document no active stored customer shares cannot break the index, under any key. */
  lemma NoActiveHolderNoClash(m: map<Id, CustomerRecord>, key: Id, c: CustomerRecord)
    requires !exists k :: k in m && Matches(ActiveDocument(c.documentType, c.documentNumber), m[k])
    ensures !Clashes(m, key, c)
  {
  }

  lemma AllEqualAtMostOne(s: set<Id>)
    requires forall a, b :: a in s && b in s ==> a == b
    ensures |s| <= 1
  {
    if s != {} {
      var a :| a in s;
      assert s == {a};
    }
  }

  // ------------------------------------------------------------- ordering

  /** What a sort property reads from a document; Mongo orders null first, then numbers, then strings. */
  datatype SortKey = Missing | Num(n: int) | Text(s: string)

  function KeyOf(c: CustomerRecord, property: string): SortKey
  {
    var text := if property == "firstName" then c.firstName
                else if property == "lastName" then c.lastName
                else c.businessName;
    if property == "createdAt" then
      (if c.createdAt.None? then Missing else Num(c.createdAt.value))
    else if text.None? then Missing
    else Text(text.value)
  }

  /** Lexicographic order on Unicode code points (Dafny characters). */
  predicate StrLeq(a: string, b: string)
  {
    a == [] || (b != [] && (a[0] < b[0] || (a[0] == b[0] && StrLeq(a[1..], b[1..]))))
  }

  predicate KeyLeq(a: SortKey, b: SortKey)
  {
    match a
    case Missing => true
    case Num(x) => b.Text? || (b.Num? && x <= b.n)
    case Text(x) => b.Text? && StrLeq(x, b.s)
  }

  lemma {:induction false} StrLeqTotal(a: string, b: string)
    ensures StrLeq(a, b) || StrLeq(b, a)
  {
    if a != [] && b != [] && a[0] == b[0] {
      StrLeqTotal(a[1..], b[1..]);
    }
  }

  lemma {:induction false} StrLeqTransitive(a: string, b: string, c: string)
    requires StrLeq(a, b) && StrLeq(b, c)
    ensures StrLeq(a, c)
  {
    if a != [] && a[0] == b[0] && b[0] == c[0] {
      StrLeqTransitive(a[1..], b[1..], c[1..]);
    }
  }

  lemma KeyLeqTotal(a: SortKey, b: SortKey)
    ensures KeyLeq(a, b) || KeyLeq(b, a)
  {
    if a.Text? && b.Text? {
      StrLeqTotal(a.s, b.s);
    }
  }

  lemma KeyLeqTransitive(a: SortKey, b: SortKey, c: SortKey)
    requires KeyLeq(a, b) && KeyLeq(b, c)
    ensures KeyLeq(a, c)
  {
    if a.Text? {
      StrLeqTransitive(a.s, b.s, c.s);
    }
  }

  /** `x` may come before `y` in the order `spec` asks for. */
  predicate InOrder(spec: Spec, x: CustomerRecord, y: CustomerRecord)
  {
    var kx, ky := KeyOf(x, spec.property), KeyOf(y, spec.property);
    if spec.direction == Asc then KeyLeq(kx, ky) else KeyLeq(ky, kx)
  }

  lemma InOrderTotal(spec: Spec, x: CustomerRecord, y: CustomerRecord)
    ensures InOrder(spec, x, y) || InOrder(spec, y, x)
  {
    KeyLeqTotal(KeyOf(x, spec.property), KeyOf(y, spec.property));
  }

  predicate Sorted(spec: Spec, s: seq<CustomerRecord>)
  {
    forall i :: 0 < i < |s| ==> InOrder(spec, s[i - 1], s[i])
  }

  function Insert(spec: Spec, x: CustomerRecord, s: seq<CustomerRecord>): (r: seq<CustomerRecord>)
    ensures |r| == |s| + 1
    ensures r[0] == x || (s != [] && r[0] == s[0])
  {
    if s == [] || InOrder(spec, x, s[0]) then [x] + s
    else [s[0]] + Insert(spec, x, s[1..])
  }

  /** Insertion sort; documents with equal keys keep their scan order. */
  function SortRecords(spec: Spec, s: seq<CustomerRecord>): seq<CustomerRecord>
  {
    if s == [] then [] else Insert(spec, s[0], SortRecords(spec, s[1..]))
  }

  lemma {:induction false} InsertSorted(spec: Spec, x: CustomerRecord, s: seq<CustomerRecord>)
    requires Sorted(spec, s)
    ensures Sorted(spec, Insert(spec, x, s))
  {
    if s != [] && !InOrder(spec, x, s[0]) {
      InOrderTotal(spec, x, s[0]);
      var rest := Insert(spec, x, s[1..]);
      InsertSorted(spec, x, s[1..]);
      assert InOrder(spec, s[0], rest[0]) by {
        if rest[0] != x {
          assert InOrder(spec, s[0], s[1]);
        }
      }
      var r := [s[0]] + rest;
      assert Insert(spec, x, s) == r;
      forall i | 0 < i < |r| ensures InOrder(spec, r[i - 1], r[i]) {
        if i > 1 {
          assert r[i - 1] == rest[i - 2] && r[i] == rest[i - 1];
        }
      }
    }
  }

  lemma {:induction false} InsertPermutes(spec: Spec, x: CustomerRecord, s: seq<CustomerRecord>)
    ensures multiset(Insert(spec, x, s)) == multiset(s) + multiset{x}
  {
    if s != [] && !InOrder(spec, x, s[0]) {
      InsertPermutes(spec, x, s[1..]);
      assert s == [s[0]] + s[1..];
    }
  }

  /** The sort yields its input reordered, in the requested order. */
  lemma {:induction false} SortRecordsCorrect(spec: Spec, s: seq<CustomerRecord>)
    ensures Sorted(spec, SortRecords(spec, s))
    ensures multiset(SortRecords(spec, s)) == multiset(s)
  {
    if s != [] {
      SortRecordsCorrect(spec, s[1..]);
      InsertSorted(spec, s[0], SortRecords(spec, s[1..]));
      InsertPermutes(spec, s[0], SortRecords(spec, s[1..]));
      assert s == [s[0]] + s[1..];
    }
  }

  /** Adjacent order extends to any two positions. */
  lemma {:induction false} SortedPairwise(spec: Spec, s: seq<CustomerRecord>, i: nat, j: nat)
    requires Sorted(spec, s) && i <= j < |s|
    ensures InOrder(spec, s[i], s[j])
    decreases j - i
  {
    var ki, kj := KeyOf(s[i], spec.property), KeyOf(s[j], spec.property);
    if i == j {
      if spec.direction == Asc { assert KeyLeq(ki, kj) by { KeyLeqTotal(ki, kj); } }
      else { assert KeyLeq(kj, ki) by { KeyLeqTotal(kj, ki); } }
    } else {
      SortedPairwise(spec, s, i + 1, j);
      var k1 := KeyOf(s[i + 1], spec.property);
      if spec.direction == Asc {
        KeyLeqTransitive(ki, k1, kj);
      } else {
        KeyLeqTransitive(kj, k1, ki);
      }
    }
  }

  // ---------------------------------------------------------------- store

  class CustomerStore {
    var records: map<Id, CustomerRecord>
    var nextId: nat

    /** Every document is stored under its own id, below the next id, and the index holds. */
    ghost predicate Valid()
      reads this
    {
      && (forall k :: k in records ==> records[k].id == Some(k) && k < nextId)
      && UniqueActive(records)
    }

    constructor ()
      ensures Valid() && records == map[] && nextId == 0
    {
      records := map[];
      nextId := 0;
    }

    function Get(id: Id): (r: Option<CustomerRecord>)
      reads this
      ensures r.Some? <==> id in records
      ensures r.Some? ==> r.value == records[id]
    {
      if id in records then Some(records[id]) else None
    }

    /** The documents matching `f`, in id order. */
    function Find(f: Filter): seq<CustomerRecord>
      reads this
    {
      Scan(records, f, 0, nextId)
    }

    /** `existsBy...`: some document matches. */
    predicate Exists(f: Filter)
      reads this
    {
      Find(f) != []
    }

    /** A Mono finder: none, exactly one, or more than one (`IncorrectResultSize`). */
    function FindOne(f: Filter): (r: Result<Option<CustomerRecord>>)
      reads this
      ensures r.Err? <==> |Find(f)| > 1
      ensures r.Err? ==> r.error == IncorrectResultSize
      ensures r == Ok(None) <==> Find(f) == []
      ensures r.Ok? && r.value.Some? ==> Find(f) == [r.value.value]
    {
      var found := Find(f);
      if |found| == 0 then Ok(None)
      else if |found| == 1 then Ok(Some(found[0]))
      else Err(IncorrectResultSize)
    }

    /** Under the invariant, `Exists` is exactly "some stored document matches". */
    lemma ExistsIff(f: Filter)
      requires Valid()
      ensures Exists(f) <==> exists k :: k in records && Matches(f, records[k])
    {
      if k :| k in records && Matches(f, records[k]) {
        ScanComplete(records, f, 0, nextId, k);
      }
      if Exists(f) {
        var c := Find(f)[0];
        assert c in records.Values;
        var k :| k in records && records[k] == c;
      }
    }

    /**
     * `save`: a document without id is inserted under the next id, one with
     * an id replaces (or creates) the document stored under it; the write is
     * refused with `DuplicateKey`, changing nothing, when it would break the
     * index.
     */
    method Save(c: CustomerRecord) returns (r: Result<CustomerRecord>)
      requires Valid()
      modifies this
      ensures Valid()
      ensures var key := if c.id.Some? then c.id.value else old(nextId);
              var stored := c.(id := Some(key));
              && (r.Ok? <==> !Clashes(old(records), key, stored))
              && (r.Ok? ==> r.value == stored && records == old(records)[key := stored])
              && (r.Err? ==> r.error == DuplicateKey && records == old(records))
      ensures nextId >= old(nextId)
    {
      var key := if c.id.Some? then c.id.value else nextId;
      var stored := c.(id := Some(key));
      if Clashes(records, key, stored) {
        return Err(DuplicateKey);
      }
      records := records[key := stored];
      if key >= nextId {
        nextId := key + 1;
      }
      r := Ok(stored);
    }
  }
}
