/**
 * The sort whitelist of the list endpoint (`SortingUtil`): an untrusted
 * property name and direction become a `Spec` that only ever names one of the
 * four sortable fields.
 */
module Sorting {
  import opened Outcomes
  import opened Text

  datatype Direction = Asc | Desc

  datatype Spec = Spec(property: string, direction: Direction)

  const DefaultProperty: string := "createdAt"

  /** The fields a caller may sort by. */
  const Allowed: set<string> := {"createdAt", "firstName", "lastName", "businessName"}

  /** `"desc".equalsIgnoreCase(direction)`, with ASCII case folding. */
  predicate IsDescending(direction: Option<string>)
  {
    direction.Some? && Lower(direction.value) == "desc"
  }

  function Parse(sort: Option<string>, direction: Option<string>): (spec: Spec)
    ensures spec.property in Allowed
    ensures sort.Some? && sort.value in Allowed ==> spec.property == sort.value
    ensures !(sort.Some? && sort.value in Allowed) ==> spec.property == DefaultProperty
    ensures spec.direction == Desc <==> IsDescending(direction)
  {
    var property := if sort.Some? && sort.value in Allowed then sort.value else DefaultProperty;
    var dir := if IsDescending(direction) then Desc else Asc;
    Spec(property, dir)
  }

  function DirectionName(d: Direction): string
  {
    match d
    case Asc => "asc"
    case Desc => "desc"
  }

  /** A parsed spec, written back as request parameters, parses to itself. */
  lemma ParseStable(sort: Option<string>, direction: Option<string>)
    ensures var spec := Parse(sort, direction);
      Parse(Some(spec.property), Some(DirectionName(spec.direction))) == spec
  {
    var desc, asc := "desc", "asc";
    assert Lower(desc) == desc by { LowerOfNoUpper(desc); }
    assert Lower(asc) == asc by { LowerOfNoUpper(asc); }
  }

  /** Matching is case-sensitive for the field and case-insensitive for the direction. */
  lemma ParseExamples()
    ensures Parse(Some("CreatedAt"), None) == Spec("createdAt", Asc)
    ensures Parse(Some("lastName"), Some("DESC")) == Spec("lastName", Desc)
    ensures Parse(Some("password"), Some("descending")) == Spec("createdAt", Asc)
    ensures Parse(None, Some("dEsC")) == Spec("createdAt", Desc)
  {
    var upper, mixed := "DESC", "dEsC";
    assert Lower(upper) == "desc" by {
      assert Lower(upper)[0] == 'd' && Lower(upper)[1] == 'e' && Lower(upper)[2] == 's' && Lower(upper)[3] == 'c';
    }
    assert Lower(mixed) == "desc" by {
      assert Lower(mixed)[0] == 'd' && Lower(mixed)[1] == 'e' && Lower(mixed)[2] == 's' && Lower(mixed)[3] == 'c';
    }
    var camel := "CreatedAt";
    assert camel != "createdAt" by { assert camel[0] != "createdAt"[0]; }
    assert camel !in Allowed;
    assert |Lower("descending")| == 10;
  }
}
