# Customer service business rules, in Dafny

This project models the business-rule core of a customer REST service. The
service stores personal and business customers in a document store and
identifies each customer by a document: a DNI (8 digits), a RUC (11 digits) or
a CE (9 to 12 letters, digits or dashes). The model covers:

- **Validator** — the create-request validator. It runs a fixed chain of guards:
  presence, then the name rule of the customer type, then the document format.
  The first guard that fails decides the error.
- **Sanitizer** — the request sanitizer. It trims, collapses whitespace, title-cases
  names and places, and lower-cases e-mails. It rewrites create and update
  requests, and their addresses, in place.
- **Sorting** — the sort whitelist of the list endpoint.
- **Mapper** — the mapper between requests, stored documents and responses.
  This covers `toDomain`, the full-replace `applyUpdate`, `toApi`,
  `toEligibility` and the enum/string helpers.
- **Engine** — the customer engine (`CustomerServiceImpl`):
  - paging and filtering of `list`;
  - check-then-save on `create` and `update`, with duplicate-key failures
    turned into Conflict;
  - the mandatory segment on `update`;
  - the idempotent soft delete;
  - the none/one/many rule of `getEligibility`;
  - `getById` and `getByDocumentNumber`.
- **Store** — the customer collection. It is a map from id to document with a
  deterministic scan. Its `Save` enforces the partial unique index
  `ux_doc_active_true`: at most one *active* document per (documentType,
  documentNumber).
- **Legacy** — the older `com.nttdata.api.CustomerService`:
  - its own store, with no index and a hard delete;
  - a duplicate check on the document number alone;
  - `active` false unless the request says true;
  - a PATCH-like update in which only non-null request fields overwrite.

The other modules are shared:

- **Outcomes** — `Option`, `Result`, `Outcome` and `Failure`. Each Java
  exception or reactive error signal becomes a `Failure` constructor.
- **Text** — ASCII character classes, `Trim`, `Lower`, and `Words`/`Join`
  (the split-on-whitespace and join-with-one-space pipeline).
- **Domain** — the enums, the stored `CustomerRecord`, and the mutable
  `Customer` entity that the service loads, changes and saves.
- **Requests** — the request objects as classes, each with a value snapshot
  `Fields()`.

How the model is shaped:

- **Values and objects.** Objects the source changes through setters are classes
  with `modifies` clauses, and their methods state the new state against the old
  one. Everything else is a datatype and a function.
- **Time.** `Instant.now()` is a `now` parameter.
- **Ids.** Ids are naturals, and the store hands them out.
- **Reactive pipelines.** Each `Mono`/`Flux` pipeline is a sequential method,
  or a function when it only reads. Its result is the value, or the `Failure`
  the pipeline would signal.

## Model

| member | source | states |
|---|---|---|
| Text.HasTextIffTrimNonEmpty | src/main/java/com/nttdata/config/CustomerRequestValidator.java:23 | A text "has text" exactly when trimming leaves something, so the blank-number guard and the trimmed format check agree on what blank means |
| Text.TrimIdempotent | src/main/java/com/nttdata/service/RequestSanitizer.java:39 | Trimming a trimmed text changes nothing |
| Validator.ValidateCreate | src/main/java/com/nttdata/config/CustomerRequestValidator.java:13-48 | Passes iff the request is present with type, document type and a non-blank number, the names are valid and the trimmed number has the right format; a failure is IllegalArgument exactly when something is missing, IllegalState otherwise, and nothing else |
| Validator.MissingGuard | src/main/java/com/nttdata/config/CustomerRequestValidator.java:14-25 | Whatever else the request holds, a null request, type, document type or blank number fails with IllegalArgument and the message of the first missing one |
| Validator.NameGuard | src/main/java/com/nttdata/config/CustomerRequestValidator.java:27-35 | With everything present, a name failure is reported (IllegalState, the type's message) whatever the document number looks like |
| Validator.BlankNumberIsMissing | src/main/java/com/nttdata/config/CustomerRequestValidator.java:23-25 | A whitespace-only number is reported as missing, never as malformed |
| Validator.PersonalNameRule | src/main/java/com/nttdata/config/CustomerRequestValidator.java:27-30 | A PERSONAL request escapes the names error iff both names are present with trimmed length in [1, 60] |
| Validator.BusinessNameRule | src/main/java/com/nttdata/config/CustomerRequestValidator.java:31-35 | A BUSINESS request escapes the business-name error iff the name is present with trimmed length in [2, 120] |
| Validator.FormatDecides | src/main/java/com/nttdata/config/CustomerRequestValidator.java:37-47 | Once presence and names pass, the result is Pass iff the trimmed number matches its type's pattern, otherwise that type's format error |
| Validator.DniExamples | src/main/java/com/nttdata/config/CustomerRequestValidator.java:55 | "12345678" is a DNI; "1234567", "123456789" and "12A45678" are not |
| Validator.RucExamples | src/main/java/com/nttdata/config/CustomerRequestValidator.java:56 | "20123456789" is a RUC; a 10-digit number is not |
| Validator.CeExamples | src/main/java/com/nttdata/config/CustomerRequestValidator.java:57 | 9- and 12-character CEs pass; an 8-character one, a 13-character one and one containing '*' fail |
| Validator.AdaNamesValid | src/main/java/com/nttdata/config/CustomerRequestValidator.java:28 | "Ada" / "Lovelace" pass the person name rule |
| Validator.PaddedDniTrimmed | src/main/java/com/nttdata/config/CustomerRequestValidator.java:37 | " 12345678 " trims to "12345678" |
| Validator.AdaWithDni | src/main/java/com/nttdata/config/CustomerRequestValidator.java:37-41 | The "Ada Lovelace" person request passes whenever its number has text and trims to eight digits, whatever whitespace surrounds it |
| Validator.PaddedDniAccepted | src/main/java/com/nttdata/config/CustomerRequestValidator.java:37-41 | A person request with DNI " 12345678 " passes validation, because the format is checked on the trimmed number |
| Validator.NonDigitInDniRefused | src/main/java/com/nttdata/config/CustomerRequestValidator.java:39-41 | Once presence and names pass, a DNI whose trimmed number has a non-digit at any position fails with the DNI message |
| Sanitizer.NormalizeSpacesShape | src/main/java/com/nttdata/service/RequestSanitizer.java:25-30 | `normalizeSpaces` is null exactly on null; otherwise the result has no whitespace at either end, no two whitespace characters side by side, the non-whitespace characters of the input in order, and exactly the words of the trimmed input: every inner run of whitespace becomes one space |
| Sanitizer.NormalizeSpacesIdempotent | src/main/java/com/nttdata/service/RequestSanitizer.java:25-30 | Normalising twice equals normalising once |
| Sanitizer.NormalizeSpacesCollapses | src/main/java/com/nttdata/service/RequestSanitizer.java:27-29 | Two words with any run of whitespace between them come out separated by exactly one space |
| Sanitizer.CapitalizeWord | src/main/java/com/nttdata/service/RequestSanitizer.java:21 | Capitalising a lower-case word gives a word whose first character is not lower case, with no upper case after it, and lower-cases back to the word |
| Sanitizer.TitleCaseShape | src/main/java/com/nttdata/service/RequestSanitizer.java:17-23 | `titleCase` is null exactly on null; otherwise the result is trimmed and single-spaced, and every word of it is non-empty, starts with a character that is not lower case and has no upper case after it |
| Sanitizer.TitleCaseOnlyChangesCase | src/main/java/com/nttdata/service/RequestSanitizer.java:19-22 | Lower-casing the title-cased text gives the space-normalised lower-cased input: only letter case differs from `normalizeSpaces` |
| Sanitizer.TitleCaseIdempotent | src/main/java/com/nttdata/service/RequestSanitizer.java:17-23 | Title-casing twice equals title-casing once |
| Sanitizer.SanitizeAddress | src/main/java/com/nttdata/service/RequestSanitizer.java:48-54 | The address object's line1 is space-normalised and city, district and country are title-cased, in place |
| Sanitizer.SanitizeCreate | src/main/java/com/nttdata/service/RequestSanitizer.java:32-55 | A non-null create request, and its address if any, hold `SanitizedCreate` of their old contents, and the address reference is unchanged; a null request is left alone |
| Sanitizer.SanitizeCreateNames | src/main/java/com/nttdata/service/RequestSanitizer.java:35-37 | Names are title-cased and the business name is space-normalised; nothing else changes |
| Sanitizer.SanitizeCreateContact | src/main/java/com/nttdata/service/RequestSanitizer.java:38-46 | Document number and phone are trimmed and the e-mail is trimmed and lower-cased, each only when present; nothing else changes |
| Sanitizer.TrimCreateNumber | src/main/java/com/nttdata/service/RequestSanitizer.java:38-40 | The document number, when present, is trimmed; nothing else changes |
| Sanitizer.TrimCreatePhone | src/main/java/com/nttdata/service/RequestSanitizer.java:41-43 | The phone, when present, is trimmed; nothing else changes |
| Sanitizer.TrimCreateEmail | src/main/java/com/nttdata/service/RequestSanitizer.java:44-46 | The e-mail, when present, is trimmed and lower-cased; nothing else changes |
| Sanitizer.SanitizeUpdate | src/main/java/com/nttdata/service/RequestSanitizer.java:57-81 | A non-null update request, and its address if any, hold `SanitizedUpdate` of their old contents; a null request is left alone |
| Sanitizer.SanitizeUpdateNames | src/main/java/com/nttdata/service/RequestSanitizer.java:60-62 | As for create: names title-cased, business name space-normalised, nothing else changes |
| Sanitizer.SanitizeUpdateContact | src/main/java/com/nttdata/service/RequestSanitizer.java:64-72 | As for create: number and phone trimmed, e-mail trimmed and lower-cased, only when present |
| Sanitizer.TrimUpdateNumber | src/main/java/com/nttdata/service/RequestSanitizer.java:64-66 | The document number, when present, is trimmed; nothing else changes |
| Sanitizer.TrimUpdatePhone | src/main/java/com/nttdata/service/RequestSanitizer.java:67-69 | The phone, when present, is trimmed; nothing else changes |
| Sanitizer.TrimUpdateEmail | src/main/java/com/nttdata/service/RequestSanitizer.java:70-72 | The e-mail, when present, is trimmed and lower-cased; nothing else changes |
| Sanitizer.SanitizersAgree | src/main/java/com/nttdata/service/RequestSanitizer.java:57-81 | Create and update sanitizing give the same result on the same text fields, and neither touches type, document type, segment or active |
| Sanitizer.TrimRules | src/main/java/com/nttdata/service/RequestSanitizer.java:38-46 | Null stays null; number and phone come out trimmed with all their non-whitespace characters in order; the e-mail comes out trimmed with no upper case, and is exactly the lower-cased trimmed value |
| Sanitizer.TrimOnlyIdempotent | src/main/java/com/nttdata/service/RequestSanitizer.java:39 | Trimming a number or phone twice equals once |
| Sanitizer.TrimLowerIdempotent | src/main/java/com/nttdata/service/RequestSanitizer.java:45 | The e-mail rule applied twice equals once |
| Sanitizer.SanitizedAddressIdempotent | src/main/java/com/nttdata/service/RequestSanitizer.java:48-54 | Sanitizing a sanitized address changes nothing |
| Sanitizer.SanitizeCreateIdempotent | src/main/java/com/nttdata/service/RequestSanitizer.java:32-55 | Sanitizing a sanitized create request changes nothing |
| Sanitizer.SanitizeUpdateIdempotent | src/main/java/com/nttdata/service/RequestSanitizer.java:57-81 | Sanitizing a sanitized update request changes nothing |
| Sorting.Parse | src/main/java/com/nttdata/service/SortingUtil.java:22-26 | The property is always one of the four whitelisted fields; a whitelisted request is kept, anything else (null included) becomes createdAt; the direction is DESC iff the text is "desc" ignoring case |
| Sorting.ParseStable | src/main/java/com/nttdata/service/SortingUtil.java:22-26 | A parsed spec, written back as parameters, parses to itself |
| Sorting.ParseExamples | src/main/java/com/nttdata/service/SortingUtil.java:10-11 | "CreatedAt" is not whitelisted (matching is case-sensitive); "DESC" and "dEsC" are descending; "descending" is not |
| Domain.SegmentCheck | src/main/java/com/nttdata/mapper/CustomerMapper.java:65 | Stated rule for `validateSegment` (its body is not part of this model): passes exactly on the pairs `SegmentAllowed` names, i.e. no VIP business and no PYME person; the contract restates the rule, and its use is in `Mapper.ApplyUpdate` and `Engine.CustomerService.Update` |
| Domain.DisplayNameOfPerson | src/main/java/com/nttdata/mapper/CustomerMapper.java:66 | Stated rule for `refreshDisplayName`: a person with both names is displayed as the trimmed names joined by one space |
| Domain.DisplayNameOfBusiness | src/main/java/com/nttdata/mapper/CustomerMapper.java:66 | Stated rule: a business whose name has text is displayed as its trimmed name |
| Domain.DisplayNameOfTrimmedPerson | src/main/java/com/nttdata/mapper/CustomerMapper.java:66 | Stated rule: two names with no surrounding whitespace are displayed as written, joined by one space |
| Domain.DisplayNameOfTrimmedBusiness | src/main/java/com/nttdata/mapper/CustomerMapper.java:66 | Stated rule: a business name with no surrounding whitespace is displayed as written |
| Domain.DisplayNamePersonExample | src/main/java/com/nttdata/mapper/CustomerMapper.java:66 | Stated rule: "Ada" and "Lovelace" are displayed as "Ada Lovelace" |
| Domain.DisplayNameBusinessExample | src/main/java/com/nttdata/mapper/CustomerMapper.java:66 | Stated rule: the business "Acme Inc" is displayed as "Acme Inc" |
| Domain.DisplayNameBlankExample | src/main/java/com/nttdata/mapper/CustomerMapper.java:66 | Stated rule: a person whose only name is blank has no display name (null) |
| Domain.Customer.RefreshDisplayName | src/main/java/com/nttdata/mapper/CustomerMapper.java:66 | Only the display name changes, to the stated rule's value |
| Domain.Customer.ValidateSegment | src/main/java/com/nttdata/mapper/CustomerMapper.java:65 | Passes iff the segment is allowed for the type, otherwise Unprocessable; changes nothing |
| Mapper.ToTypeEnum | src/main/java/com/nttdata/mapper/CustomerMapper.java:109 | Null gives null; a string is accepted iff it is the value of some type, and then gives that type; anything else fails with IllegalArgument "Unexpected value '…'" |
| Mapper.ToSegmentEnum | src/main/java/com/nttdata/mapper/CustomerMapper.java:110 | The same for segments |
| Mapper.ToDocEnum | src/main/java/com/nttdata/mapper/CustomerMapper.java:111 | The same for document types |
| Mapper.EnumRoundTrip | src/main/java/com/nttdata/mapper/CustomerMapper.java:105-111 | toXEnum(asString(e)) == e for every enum and for null |
| Mapper.StringRoundTrip | src/main/java/com/nttdata/mapper/CustomerMapper.java:105-111 | A string that reads back as an enum is written back as itself |
| Mapper.ToDomain | src/main/java/com/nttdata/mapper/CustomerMapper.java:14-37 | A new document has no id, segment STANDARD, the request's data, active true when the request's active is null, null address fields when there is no address, createdAt now, no deletedAt, and the derived display name |
| Mapper.OverwriteIsFullReplace | src/main/java/com/nttdata/mapper/CustomerMapper.java:40-64 | Every request field replaces the stored one, null included; no address clears all four address fields; id, createdAt, deletedAt and display name stay |
| Mapper.OverwriteForgetsOldFields | src/main/java/com/nttdata/mapper/CustomerMapper.java:40-64 | Two documents sharing id, timestamps and display name are overwritten to the same result: nothing else of the old document survives |
| Mapper.ApplyUpdate | src/main/java/com/nttdata/mapper/CustomerMapper.java:40-67 | The entity is overwritten; the outcome passes iff the new type/segment pair is allowed; on failure (Unprocessable) the entity keeps the overwritten fields and its old display name, on success the display name is refreshed |
| Mapper.Overwrite | src/main/java/com/nttdata/mapper/CustomerMapper.java:41-64 | The setter calls leave exactly the overwritten document in the entity |
| Mapper.OverwriteProfile | src/main/java/com/nttdata/mapper/CustomerMapper.java:41-49 | Type, segment, names, e-mail, document and phone take the request's values; nothing else changes |
| Mapper.OverwriteAddress | src/main/java/com/nttdata/mapper/CustomerMapper.java:51-62 | The four address fields take the request address's values, or all become null; nothing else changes |
| Mapper.ToApi | src/main/java/com/nttdata/mapper/CustomerMapper.java:70-93 | Succeeds iff type, segment and document type read back as enums, and then copies every field, with the address object always present; otherwise fails with the first failing conversion, in type, segment, document order |
| Mapper.ToEligibility | src/main/java/com/nttdata/mapper/CustomerMapper.java:95-101 | customerId = id, type = type, profile = segment, hasActiveCreditCard = false; fails iff type or segment does not read back |
| Mapper.AllToApi | src/main/java/com/nttdata/service/impl/CustomerServiceImpl.java:65-68 | Mapping a sequence succeeds iff every element maps, and then gives the mapped elements in order |
| Mapper.ToApiOfToDomain | src/main/java/com/nttdata/mapper/CustomerMapper.java:14-37 | A freshly built document always maps, with the request's type and document type, segment STANDARD and the defaulted active flag |
| Store.Scan | src/main/java/com/nttdata/service/impl/CustomerServiceImpl.java:55-63 | A finder returns only stored documents that match its criteria |
| Store.ScanComplete | src/main/java/com/nttdata/service/impl/CustomerServiceImpl.java:55-63 | Every stored matching document is returned |
| Store.AtMostOneActive | src/main/java/com/nttdata/config/MongoIndexesInitializer.java:23-28 | Under the partial unique index, the finder by active document returns at most one document |
| Store.SortRecordsCorrect | src/main/java/com/nttdata/service/impl/CustomerServiceImpl.java:52 | The sort returns a permutation of its input, ordered by the requested property and direction |
| Store.SortedPairwise | src/main/java/com/nttdata/service/impl/CustomerServiceImpl.java:52 | In a sorted result every earlier document may precede every later one |
| Store.CustomerStore.Get | src/main/java/com/nttdata/service/impl/CustomerServiceImpl.java:93 | `findById` finds the document iff the id is stored |
| Store.CustomerStore.FindOne | src/main/java/com/nttdata/service/impl/CustomerServiceImpl.java:156 | A single-result finder gives nothing, the one match, or IncorrectResultSize when several match |
| Store.CustomerStore.ExistsIff | src/main/java/com/nttdata/service/impl/CustomerServiceImpl.java:77 | `existsBy…` is true iff some stored document matches |
| Store.CustomerStore.Save | src/main/java/com/nttdata/config/MongoIndexesInitializer.java:23-28 | An upsert under the document's id or the next id; refused with DuplicateKey, changing nothing, exactly when it would leave two active documents with the same document; keeps the index |
| Engine.EffectivePage | src/main/java/com/nttdata/service/impl/CustomerServiceImpl.java:48 | A null or negative page is 0, any other page is kept |
| Engine.EffectiveSize | src/main/java/com/nttdata/service/impl/CustomerServiceImpl.java:49 | A null size is 20; any other size is clamped into [1, 100] |
| Engine.Page | src/main/java/com/nttdata/service/impl/CustomerServiceImpl.java:64-67 | skip/take: at most `take` elements, those at positions skip, skip+1, … of the input |
| Engine.PageExample | src/main/java/com/nttdata/service/impl/CustomerServiceImpl.java:64-67 | Three matches with size 2: page 0 holds two, page 1 one, page 2 none |
| Engine.ListFilterMatches | src/main/java/com/nttdata/service/impl/CustomerServiceImpl.java:55-63 | The chosen finder constrains type and segment exactly for the non-null arguments |
| Engine.PageSorted | src/main/java/com/nttdata/service/impl/CustomerServiceImpl.java:64-67 | A page of a sorted sequence is sorted |
| Engine.SortedPage | src/main/java/com/nttdata/service/impl/CustomerServiceImpl.java:51-67 | A page of the sorted finder result is sorted and holds only documents the finder returned |
| Engine.SavedResponse | src/main/java/com/nttdata/service/impl/CustomerServiceImpl.java:86-87 | A saved document is mapped; DuplicateKey becomes Conflict with the operation's message; other failures pass through |
| Engine.SavedOutcome | src/main/java/com/nttdata/service/impl/CustomerServiceImpl.java:134 | Delete succeeds iff its save does |
| Engine.SoftDeleteIdempotent | src/main/java/com/nttdata/service/impl/CustomerServiceImpl.java:129-131 | Deleting twice leaves the same store as deleting once |
| Engine.SoftDeleteFrame | src/main/java/com/nttdata/service/impl/CustomerServiceImpl.java:129-134 | A soft delete keeps the ids and every other customer; the customer ends inactive, and one that was not inactive changes only in active := false and deletedAt := now |
| Engine.CustomerService.List | src/main/java/com/nttdata/service/impl/CustomerServiceImpl.java:41-69 | `list` succeeds iff every document on the page maps, and then returns the page's documents mapped in order; which documents those are (bounded, sorted, matching) is stated by `Engine.CustomerService.ListPage` |
| Engine.CustomerService.ListPage | src/main/java/com/nttdata/service/impl/CustomerServiceImpl.java:41-69 | A page holds at most the effective size of documents, all stored, all matching the non-null criteria, in the whitelisted sort order; on success the responses are those documents mapped |
| Engine.CustomerService.GetById | src/main/java/com/nttdata/service/impl/CustomerServiceImpl.java:92-96 | NotFound "Cliente no encontrado" for an unknown id, otherwise the stored document mapped |
| Engine.CustomerService.Create | src/main/java/com/nttdata/service/impl/CustomerServiceImpl.java:72-88 | The request is sanitized in place; a validation failure is returned with the store unchanged; an active customer with the same document gives Conflict with the store unchanged; otherwise exactly one document (`toDomain`, next id) is added and returned mapped, and reads back by id; the index is kept |
| Engine.CustomerService.Register | src/main/java/com/nttdata/service/impl/CustomerServiceImpl.java:82-87 | The save step of `create`: when writing the new document would put a second active customer on the same document (a concurrent create got there first), the index refuses it and the result is Conflict "Documento duplicado (índice único)" with the store unchanged; otherwise exactly the new document is added under the next id and returned mapped |
| Engine.CustomerService.Update | src/main/java/com/nttdata/service/impl/CustomerServiceImpl.java:99-122 | Unknown id gives NotFound; a null request gives NullPointer; no segment gives Unprocessable; another active customer with the checked document (request values, falling back to stored ones) gives Conflict; a segment-rule failure gives Unprocessable; an index clash of the written document gives Conflict; every failure leaves the store unchanged; otherwise the overwritten document replaces the old one and is returned mapped |
| Engine.CustomerService.Delete | src/main/java/com/nttdata/service/impl/CustomerServiceImpl.java:125-136 | Unknown id gives NotFound with the store unchanged; otherwise success, with the store soft-deleted as `SoftDeleted` says (inactive customers untouched) |
| Engine.CustomerService.GetEligibility | src/main/java/com/nttdata/service/impl/CustomerServiceImpl.java:139-152 | No active customer with the document gives NotFound "No existe cliente activo con ese documento"; more than one gives Conflict "Más de un cliente activo con el mismo documento"; exactly one gives its `toEligibility` |
| Engine.CustomerService.EligibilityUnderIndex | src/main/java/com/nttdata/service/impl/CustomerServiceImpl.java:139-152 | On a store keeping its index, NotFound exactly when no active customer has the document, never the several-customers Conflict, and otherwise `toEligibility` of the one that has it |
| Engine.CustomerService.GetByDocumentNumber | src/main/java/com/nttdata/service/impl/CustomerServiceImpl.java:155-159 | No active match gives NotFound; several (across document types) give IncorrectResultSize; exactly one is returned mapped |
| Legacy.ToEntity | src/main/java/com/nttdata/api/CustomerService.java:65-80 | No id; active is true exactly when the request says true (null gives false); request data copied; null address fields without an address |
| Legacy.ToResponse | src/main/java/com/nttdata/api/CustomerService.java:82-100 | Fails with NullPointer exactly when the document has no type; otherwise copies every field, with the address object always present |
| Legacy.AllToResponse | src/main/java/com/nttdata/api/CustomerService.java:26-29 | Mapping succeeds iff every document has a type, and then gives the mapped documents in order |
| Legacy.MergeKeepsWhatIsNull | src/main/java/com/nttdata/api/CustomerService.java:41-52 | Each field takes the request's value when it is non-null and keeps the stored one otherwise; the id stays; no address keeps the address fields; merging the same request again changes nothing |
| Legacy.MergeAddress | src/main/java/com/nttdata/api/CustomerService.java:47-51 | With an address present, only its non-null line1, city and country overwrite |
| Legacy.MergeEmpty | src/main/java/com/nttdata/api/CustomerService.java:41-52 | An all-null request changes nothing |
| Legacy.LegacyCustomer.Merge | src/main/java/com/nttdata/api/CustomerService.java:41-52 | The guarded setter calls leave exactly the merged document in the entity |
| Legacy.LegacyCustomer.MergeProfile | src/main/java/com/nttdata/api/CustomerService.java:41-45 | Names, e-mail, document number and type are overwritten only by non-null values; nothing else changes |
| Legacy.LegacyCustomer.MergeContact | src/main/java/com/nttdata/api/CustomerService.java:46-52 | Phone, the address subfields (only with an address) and active are overwritten only by non-null values; nothing else changes |
| Legacy.LegacyScan | src/main/java/com/nttdata/api/CustomerService.java:27 | A legacy finder returns only stored documents that match its criteria |
| Legacy.LegacyScanComplete | src/main/java/com/nttdata/api/CustomerService.java:27 | Every stored matching document is returned by a legacy finder |
| Legacy.LegacyStore.Get | src/main/java/com/nttdata/api/CustomerService.java:32 | `findById` finds the document iff the id is stored |
| Legacy.LegacyStore.FindIff | src/main/java/com/nttdata/api/CustomerService.java:20 | The legacy finders return a document iff some stored document matches, and return every one that does |
| Legacy.LegacyStore.Save | src/main/java/com/nttdata/api/CustomerService.java:53 | An upsert under the document's id or the next id; nothing refuses the write |
| Legacy.LegacyStore.Remove | src/main/java/com/nttdata/api/CustomerService.java:61 | `deleteById` removes exactly that id |
| Legacy.LegacyCustomerService.Create | src/main/java/com/nttdata/api/CustomerService.java:19-24 | A null request gives NullPointer; an active customer with the same number gives IllegalState "Document already exists" and saves nothing; otherwise exactly the new entity is stored under the next id and its response (NullPointer when it has no type) returned |
| Legacy.LegacyCustomerService.FindAll | src/main/java/com/nttdata/api/CustomerService.java:26-29 | `findAll` succeeds iff every selected document has a type, and then returns their responses in order; which documents are selected is stated by `Legacy.LegacyCustomerService.FindAllSelects` |
| Legacy.LegacyCustomerService.FindAllSelects | src/main/java/com/nttdata/api/CustomerService.java:26-29 | Without a type every stored document is listed; with one, exactly the documents of that type |
| Legacy.LegacyCustomerService.FindById | src/main/java/com/nttdata/api/CustomerService.java:31-35 | IllegalArgument "Customer not found" for an unknown id, otherwise the stored document's response |
| Legacy.LegacyCustomerService.Update | src/main/java/com/nttdata/api/CustomerService.java:37-56 | Unknown id gives IllegalArgument with the store unchanged; a null request gives NullPointer with the store unchanged; otherwise the merged document replaces the stored one and its response is returned |
| Legacy.LegacyCustomerService.Delete | src/main/java/com/nttdata/api/CustomerService.java:58-63 | An existing id is removed and nothing else changes; an unknown id fails with IllegalArgument "Customer not found" and leaves the store unchanged; afterwards the id is not found |

## Left out

- **Reactive execution.** `Mono`/`Flux` scheduling and concurrency are not modelled. Each pipeline runs as one sequential step. Two creates racing for the same document are modelled only through their outcome: `Engine.CustomerService.Register`, the save step of `create`, may meet a store that already holds an active customer with the document, and then the index refuses the write and the result is Conflict "Documento duplicado (índice único)". Within one sequential `Create` the pre-check rules this out.
- **Partial streams.** A `Flux` that fails part-way is modelled as a failure of the whole list (`Mapper.AllToApi`, `Legacy.AllToResponse`). The elements emitted before the error are not modelled.
- **Whitespace.** The model uses one whitespace predicate: space and `\t`…`\r`. The source uses three different ones:
  - `String.trim` drops every character up to `' '`;
  - `\s` in the patterns;
  - `StringUtils.hasText` uses `Character.isWhitespace`.
  Other control characters are whitespace for some of these and not for others. The model does not capture this.
- **Case.** Case mapping is ASCII only. `toLowerCase`, `toUpperCase` and `equalsIgnoreCase` use Unicode case in Java.
- **String length.** Lengths count Dafny characters, not UTF-16 code units.
- **Regular expressions.** The patterns are rewritten as character predicates. The Java regex engine is not modelled.
- **Rules whose code is not part of this model.** The bodies of `Customer.defaultSegment()`, `refreshDisplayName()` and `validateSegment()` are not part of this model. `Domain.DefaultSegment`, `Domain.DisplayNameOf` and `Domain.SegmentCheck` state the intended rules instead:
  - new customers start in STANDARD;
  - the display name is "first last" for a person and the business name for a business;
  - a business may not be VIP and a person may not be PYME.

  The mismatch message `MsgSegmentMismatch` is the model's own text.
- **Generated enums.** The enums' `fromValue` is taken to reject an unknown string with IllegalArgument "Unexpected value '…'". That is the generator's convention; the generated classes are not part of this model.
- **Legacy type enum.** The legacy `CustomerResponse.TypeEnum` and `CustomerRequest.TypeEnum` are taken to share their values. Legacy `toResponse` then keeps the type unchanged.
- **Store order.** Finders return documents in ascending id order. The sort is a stable insertion sort, so documents with equal keys keep that order. Mongo's order for equal keys is not specified.
- **Sort keys.** A missing value sorts before numbers, and numbers before strings. Strings compare by Unicode code point, not by UTF-16 code unit. Collation is not modelled.
- **Ids and time.** Ids are naturals handed out by the store, not ObjectId strings. Instants are integers, and the UTC `OffsetDateTime` rendering in `toApi` is the identity.
- **Exceptions.** Exceptions thrown synchronously become `Failure` results of the operation. This covers `validateCreate`, `applyUpdate` and `toApi`. It also covers legacy `create` with a null request: `r.getDocumentNumber()` throws NullPointerException to the caller before any `Mono` exists, and `Legacy.LegacyCustomerService.Create` returns `Err(NullPointer)` instead.
- **Transport.** JSON null-omission, HTTP status mapping, the controllers and the OpenAPI route are not modelled. The index initializer's fire-and-forget `subscribe()` is not modelled either. Its index definition is only the rule `Store.CustomerStore.Save` enforces.
- **Legacy entity.** `com.nttdata.customers.domain.Customer`, the entity of the legacy service, is not part of this model. `Legacy.LegacyRecord` follows the fields its setters use, which are those of `src/main/java/com/nttdata/domain/Customer.java`.
- Engine.CustomerService.Update: on a segment-rule failure the contract names only the error kind, Unprocessable, not its message, since the body of `validateSegment()` is not part of this model.
