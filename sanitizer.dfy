/**
 * Text clean-up of incoming requests (`RequestSanitizer`).
 *
 * `NormalizeSpaces` trims and collapses every run of whitespace to one space;
 * `TitleCase` does the same on the lower-cased text and then upper-cases the
 * first character of every word. `Sanitize` rewrites a create or an update
 * request in place with these rules: names title-cased, business name and
 * address line space-normalised, document number and phone trimmed, e-mail
 * trimmed and lower-cased, city/district/country title-cased.
 */
module Sanitizer {
  import opened Outcomes
  import opened Text
  import opened Domain
  import opened Requests

  // ------------------------------------------------------------ the two rules

  function NormalizeSpaces(v: Option<string>): Option<string>
  {
    if v.None? then None else Some(Join(Words(Trim(v.value))))
  }

  /** `Character.toUpperCase(t.charAt(0)) + t.substring(1)` */
  function Capitalize(w: string): string
  {
    if w == [] then [] else [UpperChar(w[0])] + w[1..]
  }

  function CapitalizeAll(ws: seq<string>): (r: seq<string>)
    ensures |r| == |ws|
    ensures forall i :: 0 <= i < |ws| ==> r[i] == Capitalize(ws[i])
  {
    seq(|ws|, i requires 0 <= i < |ws| => Capitalize(ws[i]))
  }

  function TitleCase(v: Option<string>): Option<string>
  {
    if v.None? then None else Some(Join(CapitalizeAll(Words(Lower(Trim(v.value))))))
  }

  /** A title-cased word: non-empty, no whitespace, first character not lower-case, the rest without upper case. */
  predicate TitleWord(w: string)
  {
    IsWord(w) && !IsLower(w[0]) && NoUpper(w[1..])
  }

  // ---------------------------------------------------------- their properties

  /**
   * `normalizeSpaces` keeps null, and otherwise yields text with no whitespace
   * at either end, no two whitespace characters side by side, only plain
   * spaces, and the same non-whitespace characters in the same order, cut
   * into the same words: every inner run of whitespace becomes one space.
   */
  lemma NormalizeSpacesShape(v: Option<string>)
    ensures NormalizeSpaces(v).None? <==> v.None?
    ensures v.Some? ==>
      var r := NormalizeSpaces(v).value;
      SingleSpaced(r) && Trimmed(r) && Letters(r) == Letters(v.value)
    ensures v.Some? ==> Words(NormalizeSpaces(v).value) == Words(Trim(v.value))
  {
    if v.Some? {
      var ws := Words(Trim(v.value));
      WordsOfJoin(ws);
      JoinSingleSpaced(ws);
      LettersOfJoin(ws);
      ConcatOfWords(Trim(v.value));
      TrimKeepsLetters(v.value);
    }
  }

  /** A space-normalised text is left as it is by a second normalisation. */
  lemma NormalizeSpacesIdempotent(v: Option<string>)
    ensures NormalizeSpaces(NormalizeSpaces(v)) == NormalizeSpaces(v)
  {
    if v.Some? {
      var ws := Words(Trim(v.value));
      var r := Join(ws);
      JoinSingleSpaced(ws);
      TrimFacts(r);
      WordsOfJoin(ws);
    }
  }

  lemma CapitalizeWord(w: string)
    requires IsWord(w) && NoUpper(w)
    ensures TitleWord(Capitalize(w))
    ensures Lower(Capitalize(w)) == w
  {
    var c := Capitalize(w);
    assert c[1..] == w[1..];
    assert forall i :: 0 <= i < |c| ==> Lower(c)[i] == w[i];
  }

  /** The words of lower-cased text, with each capitalised. */
  lemma CapitalizedWords(ws: seq<string>)
    requires AllWords(ws)
    requires forall i :: 0 <= i < |ws| ==> NoUpper(ws[i])
    ensures AllWords(CapitalizeAll(ws))
    ensures forall i :: 0 <= i < |ws| ==> TitleWord(CapitalizeAll(ws)[i])
    ensures LowerAll(CapitalizeAll(ws)) == ws
  {
    forall i | 0 <= i < |ws|
      ensures TitleWord(CapitalizeAll(ws)[i]) && Lower(CapitalizeAll(ws)[i]) == ws[i]
    {
      CapitalizeWord(ws[i]);
    }
  }

  /** The lower-cased, trimmed words `titleCase` capitalises. */
  lemma LowerWords(s: string)
    ensures AllWords(Words(Lower(Trim(s))))
    ensures forall i :: 0 <= i < |Words(Lower(Trim(s)))| ==> NoUpper(Words(Lower(Trim(s)))[i])
  {
    LowerIdempotent(Trim(s));
    WordsFromNoUpper(Lower(Trim(s)));
  }

  /**
   * `titleCase` keeps null, and otherwise yields single-spaced text whose
   * every word starts with a character that is not lower case and continues
   * without upper case.
   */
  lemma TitleCaseShape(v: Option<string>)
    ensures TitleCase(v).None? <==> v.None?
    ensures v.Some? ==>
      var r := TitleCase(v).value;
      SingleSpaced(r) && Trimmed(r) &&
      forall i :: 0 <= i < |Words(r)| ==> TitleWord(Words(r)[i])
  {
    if v.Some? {
      var ws := Words(Lower(Trim(v.value)));
      LowerWords(v.value);
      CapitalizedWords(ws);
      JoinSingleSpaced(CapitalizeAll(ws));
      WordsOfJoin(CapitalizeAll(ws));
    }
  }

  /** `titleCase` differs from `normalizeSpaces` only in letter case. */
  lemma TitleCaseOnlyChangesCase(v: Option<string>)
    requires v.Some?
    ensures Lower(TitleCase(v).value) == NormalizeSpaces(Some(Lower(v.value))).value
  {
    var ws := Words(Lower(Trim(v.value)));
    LowerWords(v.value);
    CapitalizedWords(ws);
    LowerJoin(CapitalizeAll(ws));
    LowerTrim(v.value);
  }

  /** A title-cased text is left as it is by a second title-casing. */
  lemma TitleCaseIdempotent(v: Option<string>)
    ensures TitleCase(TitleCase(v)) == TitleCase(v)
  {
    if v.Some? {
      var ws := Words(Lower(Trim(v.value)));
      var caps := CapitalizeAll(ws);
      var r := Join(caps);
      LowerWords(v.value);
      CapitalizedWords(ws);
      JoinSingleSpaced(caps);
      TrimFacts(r);
      LowerJoin(caps);
      WordsOfJoin(ws);
    }
  }

  /** An inner run of whitespace between two words collapses to one space ("Acme   Inc" becomes "Acme Inc"). */
  lemma NormalizeSpacesCollapses(a: string, gap: string, b: string)
    requires IsWord(a) && IsWord(b) && gap != []
    requires forall i :: 0 <= i < |gap| ==> IsSpace(gap[i])
    ensures NormalizeSpaces(Some(a + gap + b)) == Some(a + " " + b)
  {
    var t := a + gap + b;
    calc {
      NormalizeSpaces(Some(t));
      Some(Join(Words(Trim(t))));
      { TrimOfWordGapWord(a, gap, b); }
      Some(Join(Words(t)));
      { WordsOfTwo(a, gap, b); }
      Some(Join([a, b]));
      { JoinTwo(a, b); }
      Some(a + " " + b);
    }
  }

  // ---------------------------------------------- the per-field rules of sanitize

  function TrimOnly(v: Option<string>): Option<string>
  {
    if v.None? then None else Some(Trim(v.value))
  }

  function TrimLower(v: Option<string>): Option<string>
  {
    if v.None? then None else Some(Lower(Trim(v.value)))
  }

  function SanitizedAddress(a: Option<AddressFields>): Option<AddressFields>
  {
    if a.None? then None
    else Some(AddressFields(NormalizeSpaces(a.value.line1), TitleCase(a.value.city),
                            TitleCase(a.value.district), TitleCase(a.value.country)))
  }

  /** What `sanitize(CustomerCreateRequest)` leaves in the request. */
  function SanitizedCreate(f: CreateFields): CreateFields
  {
    f.(firstName := TitleCase(f.firstName),
       lastName := TitleCase(f.lastName),
       businessName := NormalizeSpaces(f.businessName),
       documentNumber := TrimOnly(f.documentNumber),
       phone := TrimOnly(f.phone),
       email := TrimLower(f.email),
       address := SanitizedAddress(f.address))
  }

  /** What `sanitize(CustomerUpdateRequest)` leaves in the request. */
  function SanitizedUpdate(f: UpdateFields): UpdateFields
  {
    f.(firstName := TitleCase(f.firstName),
       lastName := TitleCase(f.lastName),
       businessName := NormalizeSpaces(f.businessName),
       documentNumber := TrimOnly(f.documentNumber),
       phone := TrimOnly(f.phone),
       email := TrimLower(f.email),
       address := SanitizedAddress(f.address))
  }

  method SanitizeAddress(a: Address)
    modifies a
    ensures a.Fields() == SanitizedAddress(Some(old(a.Fields()))).value
  {
    a.line1 := NormalizeSpaces(a.line1);
    a.city := TitleCase(a.city);
    a.district := TitleCase(a.district);
    a.country := TitleCase(a.country);
  }

  /** Rewrites a create request in place; a null request is left alone. */
  method SanitizeCreate(r: CreateRequest?)
    modifies r, if r != null then r.address else null
    ensures r != null ==> r.address == old(r.address) && r.Fields() == SanitizedCreate(old(r.Fields()))
  {
    if r == null {
      return;
    }
    SanitizeCreateNames(r);
    SanitizeCreateContact(r);
    var a := r.address;
    if a != null {
      SanitizeAddress(a);
    }
  }

  /** The name fields of `sanitize`. */
  method SanitizeCreateNames(r: CreateRequest)
    modifies r
    ensures r.address == old(r.address)
    ensures r.Fields() == old(r.Fields()).(firstName := TitleCase(old(r.firstName)),
      lastName := TitleCase(old(r.lastName)), businessName := NormalizeSpaces(old(r.businessName)))
  {
    r.firstName := TitleCase(r.firstName);
    r.lastName := TitleCase(r.lastName);
    r.businessName := NormalizeSpaces(r.businessName);
  }

  /** The document number, phone and e-mail fields of `sanitize`, each rewritten only when present. */
  method SanitizeCreateContact(r: CreateRequest)
    modifies r
    ensures r.address == old(r.address)
    ensures r.Fields() == old(r.Fields()).(documentNumber := TrimOnly(old(r.documentNumber)),
      phone := TrimOnly(old(r.phone)), email := TrimLower(old(r.email)))
  {
    TrimCreateNumber(r);
    TrimCreatePhone(r);
    TrimCreateEmail(r);
  }

  method TrimCreateNumber(r: CreateRequest)
    modifies r
    ensures r.address == old(r.address)
    ensures r.Fields() == old(r.Fields()).(documentNumber := TrimOnly(old(r.documentNumber)))
  {
    if r.documentNumber.Some? {
      r.documentNumber := Some(Trim(r.documentNumber.value));
    }
  }

  method TrimCreatePhone(r: CreateRequest)
    modifies r
    ensures r.address == old(r.address)
    ensures r.Fields() == old(r.Fields()).(phone := TrimOnly(old(r.phone)))
  {
    if r.phone.Some? {
      r.phone := Some(Trim(r.phone.value));
    }
  }

  method TrimCreateEmail(r: CreateRequest)
    modifies r
    ensures r.address == old(r.address)
    ensures r.Fields() == old(r.Fields()).(email := TrimLower(old(r.email)))
  {
    if r.email.Some? {
      r.email := Some(Lower(Trim(r.email.value)));
    }
  }


  /** Rewrites an update request in place; a null request is left alone. */
  method SanitizeUpdate(r: UpdateRequest?)
    modifies r, if r != null then r.address else null
    ensures r != null ==> r.address == old(r.address) && r.Fields() == SanitizedUpdate(old(r.Fields()))
  {
    if r == null {
      return;
    }
    SanitizeUpdateNames(r);
    SanitizeUpdateContact(r);
    var a := r.address;
    if a != null {
      SanitizeAddress(a);
    }
  }

  /** The name fields of `sanitize`. */
  method SanitizeUpdateNames(r: UpdateRequest)
    modifies r
    ensures r.address == old(r.address)
    ensures r.Fields() == old(r.Fields()).(firstName := TitleCase(old(r.firstName)),
      lastName := TitleCase(old(r.lastName)), businessName := NormalizeSpaces(old(r.businessName)))
  {
    r.firstName := TitleCase(r.firstName);
    r.lastName := TitleCase(r.lastName);
    r.businessName := NormalizeSpaces(r.businessName);
  }

  /** The document number, phone and e-mail fields of `sanitize`, each rewritten only when present. */
  method SanitizeUpdateContact(r: UpdateRequest)
    modifies r
    ensures r.address == old(r.address)
    ensures r.Fields() == old(r.Fields()).(documentNumber := TrimOnly(old(r.documentNumber)),
      phone := TrimOnly(old(r.phone)), email := TrimLower(old(r.email)))
  {
    TrimUpdateNumber(r);
    TrimUpdatePhone(r);
    TrimUpdateEmail(r);
  }

  method TrimUpdateNumber(r: UpdateRequest)
    modifies r
    ensures r.address == old(r.address)
    ensures r.Fields() == old(r.Fields()).(documentNumber := TrimOnly(old(r.documentNumber)))
  {
    if r.documentNumber.Some? {
      r.documentNumber := Some(Trim(r.documentNumber.value));
    }
  }

  method TrimUpdatePhone(r: UpdateRequest)
    modifies r
    ensures r.address == old(r.address)
    ensures r.Fields() == old(r.Fields()).(phone := TrimOnly(old(r.phone)))
  {
    if r.phone.Some? {
      r.phone := Some(Trim(r.phone.value));
    }
  }

  method TrimUpdateEmail(r: UpdateRequest)
    modifies r
    ensures r.address == old(r.address)
    ensures r.Fields() == old(r.Fields()).(email := TrimLower(old(r.email)))
  {
    if r.email.Some? {
      r.email := Some(Lower(Trim(r.email.value)));
    }
  }


  // ------------------------------------------------- properties of sanitize

  /** The text fields both request kinds share. */
  datatype TextFields = TextFields(
    firstName: Option<string>, lastName: Option<string>, businessName: Option<string>,
    documentNumber: Option<string>, phone: Option<string>, email: Option<string>,
    address: Option<AddressFields>)

  function CreateText(f: CreateFields): TextFields
  {
    TextFields(f.firstName, f.lastName, f.businessName, f.documentNumber, f.phone, f.email, f.address)
  }

  function UpdateText(f: UpdateFields): TextFields
  {
    TextFields(f.firstName, f.lastName, f.businessName, f.documentNumber, f.phone, f.email, f.address)
  }

  /**
   * Both sanitizers apply the same rule to every shared field, and neither
   * touches type, document type, segment or the active flag.
   */
  lemma SanitizersAgree(c: CreateFields, u: UpdateFields)
    requires CreateText(c) == UpdateText(u)
    ensures CreateText(SanitizedCreate(c)) == UpdateText(SanitizedUpdate(u))
    ensures SanitizedCreate(c).(firstName := c.firstName, lastName := c.lastName,
              businessName := c.businessName, documentNumber := c.documentNumber,
              phone := c.phone, email := c.email, address := c.address) == c
    ensures SanitizedUpdate(u).(firstName := u.firstName, lastName := u.lastName,
              businessName := u.businessName, documentNumber := u.documentNumber,
              phone := u.phone, email := u.email, address := u.address) == u
  {
  }

  /** Document number and phone are trimmed and keep their case; e-mail is trimmed and lower-cased. */
  lemma TrimRules(v: Option<string>)
    ensures TrimOnly(v).None? <==> v.None?
    ensures TrimLower(v).None? <==> v.None?
    ensures v.Some? ==> Trimmed(TrimOnly(v).value) && Letters(TrimOnly(v).value) == Letters(v.value)
    ensures v.Some? ==> Trimmed(TrimLower(v).value) && NoUpper(TrimLower(v).value)
    ensures v.Some? ==> TrimLower(v).value == Lower(TrimOnly(v).value)
  {
    if v.Some? {
      var t := Trim(v.value);
      assert TrimOnly(v).value == t && TrimLower(v).value == Lower(t);
      TrimFacts(v.value);
      TrimKeepsLetters(v.value);
      LowerKeepsTrimmed(t);
      LowerIdempotent(t);
    }
  }

  lemma TrimOnlyIdempotent(v: Option<string>)
    ensures TrimOnly(TrimOnly(v)) == TrimOnly(v)
  {
    if v.Some? {
      TrimIdempotent(v.value);
    }
  }

  lemma TrimLowerIdempotent(v: Option<string>)
    ensures TrimLower(TrimLower(v)) == TrimLower(v)
  {
    if v.Some? {
      var t := Trim(v.value);
      TrimFacts(v.value);
      LowerKeepsTrimmed(t);
      TrimFacts(Lower(t));
      assert Trim(Lower(t)) == Lower(t);
      LowerIdempotent(t);
    }
  }

  lemma SanitizedAddressIdempotent(a: Option<AddressFields>)
    ensures SanitizedAddress(SanitizedAddress(a)) == SanitizedAddress(a)
  {
    if a.Some? {
      NormalizeSpacesIdempotent(a.value.line1);
      TitleCaseIdempotent(a.value.city);
      TitleCaseIdempotent(a.value.district);
      TitleCaseIdempotent(a.value.country);
    }
  }

  /** Sanitizing an already sanitized request changes nothing. */
  lemma SanitizeCreateIdempotent(f: CreateFields)
    ensures SanitizedCreate(SanitizedCreate(f)) == SanitizedCreate(f)
  {
    TitleCaseIdempotent(f.firstName);
    TitleCaseIdempotent(f.lastName);
    NormalizeSpacesIdempotent(f.businessName);
    TrimOnlyIdempotent(f.documentNumber);
    TrimOnlyIdempotent(f.phone);
    TrimLowerIdempotent(f.email);
    SanitizedAddressIdempotent(f.address);
  }

  lemma SanitizeUpdateIdempotent(f: UpdateFields)
    ensures SanitizedUpdate(SanitizedUpdate(f)) == SanitizedUpdate(f)
  {
    TitleCaseIdempotent(f.firstName);
    TitleCaseIdempotent(f.lastName);
    NormalizeSpacesIdempotent(f.businessName);
    TrimOnlyIdempotent(f.documentNumber);
    TrimOnlyIdempotent(f.phone);
    TrimLowerIdempotent(f.email);
    SanitizedAddressIdempotent(f.address);
  }
}
