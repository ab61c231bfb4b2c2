# Person enrichment service: a Dafny model

This project models the core of a small Go web service. The service takes a
person's name, surname and patronymic. It looks up the person's likely age,
gender and nationality from three external name-inference services, at the
same time. It then stores the enriched person and exposes the records through
a CRUD API.

The model has three parts. Each is written as immutable datatypes and pure
functions.

- **Enrichment fan-in** (`addition.dfy`, module `Addition`). Three workers
  each send at most one message: a value on the channel of their kind, or an
  error on the shared error channel. A worker whose lookup never ends sends
  nothing, because the HTTP client has no timeout. The nationality worker
  panics when the country list is empty. The merge loop reads at most three
  messages. It stores each value in the field of its own kind and returns
  `(0, "", "", err)` on the first error. Goroutine scheduling becomes an
  input: a *schedule*, the order in which the three workers act (send their
  message or, for the nationality worker, possibly panic). What
  each HTTP lookup yields for a URL becomes a `Network` parameter.
- **Person service** (`person_service.dfy`, module `PersonService`). It is
  written against an abstract `Store`, a bundle of fallible operations whose
  outcomes are given and not computed. The enrichment is a parameter of type
  `Enricher`, which always returns; an enrichment that blocks or crashes is
  not carried up to this layer. Each operation returns its result together with the list of
  calls it made, so "the store is never called" can be stated.
- **Controllers** (`controllers.dfy`, module `Controllers`). This part covers
  the query-string defaults and filters of the listing, and the path-id check
  (`strconv.ParseUint(s, 10, 32)`). It also covers the status code of every
  handler outcome and the person-to-response projection. Go's `strconv`
  parsers are modelled in `strconv.dfy` (module `Strconv`). Shared records
  are in `models.dfy`, and `Option`/`Result` are in `wrappers.dfy`.

Three behaviours of the code are easy to miss:

- **Empty country list.** An empty country list is not checked:
  `Country[0]` panics (addition.go:153). An unrecovered panic in a goroutine
  ends the process, in every arrival order (`Addition.GetAdditionAsync`).
  The panic happens in the nationality worker's place in the arrival order.
  A lookup error that arrives before it still ends the merge loop, so the
  call returns that error and the process dies afterwards
  (`ReturnsThenCrashes`, `Addition.EnrichmentErrorBeforePanic`). With no
  earlier error, the process dies before the call returns (`Crashes`,
  `Addition.EnrichmentPanicFirst`).
- **HTTP status codes.** No lookup checks the response's status code
  (addition.go:100-115). An error body that decodes counts as a decoded
  answer. For example, a nationality error body without a `country` field
  decodes to an empty list and takes the panic path. The model covers
  this because `Network` may return any `Fetch` for any URL.
- **Nationality filter key.** The handler's swagger documentation names the
  filter `nationality`. The code reads the query key `nation`
  (`Controllers.NationalityKeyIgnored`).

## Model

| member | source | states |
|---|---|---|
| `Addition.LookupURL` | internal/addition/addition.go:100 | each lookup URL is the base URL, then `/?name=`, then the raw name with no escaping; the name reads back verbatim from the URL |
| `Addition.NewAddition` | internal/addition/addition.go:41-43 | each worker queries the base URL configured for its own service: age from the agify URL, gender from the genderize URL, nationality from the nationalize URL |
| `Addition.AgeWorker` | internal/addition/addition.go:99-116 | the age worker never panics; it sends nothing iff its lookup never ends, and otherwise sends exactly one message: the decoded age, or the error of the GET, read or decode step that failed |
| `Addition.GenderWorker` | internal/addition/addition.go:118-135 | the gender worker never panics; it sends nothing iff its lookup never ends, and otherwise sends exactly one message: the decoded gender, or the error of the step that failed |
| `Addition.NationWorker` | internal/addition/addition.go:137-154 | the nationality worker sends nothing iff its lookup never ends; it panics exactly when the decoded list is empty; otherwise it sends the `country_id` of the first country, or the error of the step that failed |
| `Addition.Receive` | internal/addition/addition.go:158-166 | each iteration of the merge loop never yields a crash, and an error reply carries zero values only |
| `Addition.Merge` | internal/addition/addition.go:155-167 | the merge loop never exposes partial values next to an error |
| `Addition.MergeFirstError` | internal/addition/addition.go:163-164 | the earliest error among the first three arrivals decides the reply, `(0, "", "", err)`, whatever values arrived before it |
| `Addition.MergeOutcome` | internal/addition/addition.go:158-167 | the merge succeeds iff three messages arrive and none is an error; it blocks iff fewer than three arrive and none is an error |
| `Addition.MergeReadsAtMostThree` | internal/addition/addition.go:158 | messages after the third are never read |
| `Addition.MergeAttribution` | internal/addition/addition.go:159-162 | in every arrival order of the three value messages, each value lands in the field of its own kind |
| `Addition.GetAdditionAsync` | internal/addition/addition.go:89-168 | for every arrival order, the process dies exactly when the country list decodes empty (line 153); when the call returns before the process dies, it returns an error; an error reply carries zero values only |
| `Addition.EnrichmentPanicFirst` | internal/addition/addition.go:137-166 | with an empty country list and no failed lookup scheduled before the nationality worker, the process dies before the call returns |
| `Addition.EnrichmentErrorBeforePanic` | internal/addition/addition.go:99-166 | with an empty country list, the earliest failed lookup scheduled before the nationality worker decides the returned error, `(0, "", "", err)`, and the process dies afterwards |
| `Addition.EnrichmentAllOrNothing` | internal/addition/addition.go:89-168 | blocks exactly when no lookup failed, some lookup never ends and the country list is not empty; succeeds iff all three lookups succeed, and then returns exactly the three looked-up values with a nil error; a failure carries no value |
| `Addition.EnrichmentFirstFailure` | internal/addition/addition.go:99-164 | when no worker panics, the error returned is the one of the earliest failed lookup in arrival order, even if another lookup never ends |
| `Addition.EnrichmentScheduleIndependent` | internal/addition/addition.go:155-167 | whether the process dies, whether the invocation blocks or succeeds, and what a success returns, do not depend on the arrival order; whether the call returns before a panic does depend on it |
| `PersonService.CreatePerson` | services/person_service.go:19-42 | enrichment is asked about the request's name first; on its failure the wrapped error is returned and the store's Create is never called; otherwise a record with the request's names, the enriched facts and `IsActive = true` is created; a Create error is returned unchanged; a Create success returns the created record with the key the store assigned |
| `PersonService.GetPerson` | services/person_service.go:44-50 | one GetByID call with the same id; its person or error is returned unchanged |
| `PersonService.GetAllPersons` | services/person_service.go:52-63 | one GetAll call with the same arguments; its list or error is returned unchanged |
| `PersonService.DeletePerson` | services/person_service.go:98-104 | one Delete call with the same id; fails iff the store does, with the store's error |
| `PersonService.ApplyPatch` | services/person_service.go:71-88 | each present patch field replaces its stored field; only named fields may change; the id and `IsActive` never change |
| `PersonService.UpdatePerson` | services/person_service.go:65-96 | a GetByID failure is returned unchanged with no Update call; otherwise the patched record is saved and returned, or the Update error is returned unchanged |
| `PersonService.PatchChangesExactly` | services/person_service.go:71-88 | a field changes iff the patch names it and its patch value differs from the stored one |
| `PersonService.EmptyPatchIsIdentity` | services/person_service.go:71-88 | a patch that names no field leaves the record unchanged |
| `PersonService.PatchIdempotent` | services/person_service.go:71-88 | applying a patch twice equals applying it once |
| `PersonService.PatchesCompose` | services/person_service.go:71-88 | two patches in a row equal one patch in which the later one wins on every field both name |
| `PersonService.UpdateWithNoChangesSavesRecord` | services/person_service.go:65-90 | an update that names no field still saves, and it writes back the fetched record unchanged |
| `Strconv.ParseUint` | internal/controllers/controllers.go:167 | `ParseUint(s, 10, bits)` succeeds iff `s` is a non-empty string of ASCII digits whose value fits the width, and then yields that value; a syntax error yields 0 and a range error yields the maximum; a digit run too large for the width is a range error |
| `Strconv.AccumulateMeaning` | internal/controllers/controllers.go:167 | the left-to-right digit loop computes the place-value reading and succeeds iff every character is a digit and the value fits |
| `Strconv.Atoi` | internal/controllers/controllers.go:79-80 | `Atoi` succeeds iff the string is an optional sign followed by digits whose value fits in `int64`, and then yields that value; a syntax error yields 0; a range error yields the nearest `int64` bound; every well-formed number outside `int64` is a range error with that bound |
| `Strconv.AtoiShortNonNumeric` | internal/controllers/controllers.go:79-80 | a string of at most 19 characters that is not a decimal integer is a syntax error with value 0 |
| `Controllers.TextFilter` | internal/controllers/controllers.go:105-120 | a text filter is set iff its query value is non-empty, and then holds that value verbatim |
| `Controllers.AgeBound` | internal/controllers/controllers.go:90-103 | an age bound is set iff its value is an optional sign and digits within `int64`, and then holds that number; an empty or malformed value leaves it unset, because the parse error drops it |
| `Controllers.PageBound` | internal/controllers/controllers.go:79-80 | a page bound always lies within `int64`; a numeric value, or else the numeric default when the key is absent, gives its number; a present, well-formed number outside `int64` gives the nearest bound; a present but non-numeric value of at most 19 characters gives 0, because the parse error is discarded; a longer one gives 0 or the nearest bound |
| `Controllers.ParseListQuery` | internal/controllers/controllers.go:79-120 | `limit` defaults to 10 and `offset` to 0 when absent and take the numeric value when numeric; the age bounds are present iff their values are numeric; each text filter is present iff its value is non-empty, and then equals it verbatim; nationality comes from key `nation` |
| `Controllers.NationalityKeyIgnored` | internal/controllers/controllers.go:88 | the documented query key `nationality` has no effect on the listing arguments |
| `Controllers.ParsePathID` | internal/controllers/controllers.go:167-172 | a path id is accepted iff it is a non-empty string of ASCII digits with a value below 2^32, and then yields that value |
| `Controllers.ToResponse` | internal/controllers/controllers.go:48-57 | each field of the response holds the person's field of the same name, including gender and nationality, which the two records declare in opposite order |
| `Controllers.ResponseRoundTrip` | internal/controllers/controllers.go:48-57 | the response copies every modelled person field to the field of the same name, so the person reads back from it |
| `Controllers.ToResponses` | internal/controllers/controllers.go:139-151 | the list response has the service result's length and order, and each entry reads back as the person at that position |
| `Controllers.CreatePersonHandler` | internal/controllers/controllers.go:35-60 | a bind error gives 400 with nothing else called; a service error gives 500; a success gives 200 with the created person |
| `Controllers.GetAllPersonsHandler` | internal/controllers/controllers.go:78-154 | the store is asked for exactly the listing the query describes; a failure gives 500 with the store's error; a success gives 200 with the persons in the store's order |
| `Controllers.GetPersonHandler` | internal/controllers/controllers.go:166-193 | an invalid id gives 400 "invalid ID" with no service call; a lookup failure gives 404 "person not found"; a success gives 200 |
| `Controllers.UpdatePersonHandler` | internal/controllers/controllers.go:206-240 | an invalid id gives 400 "invalid ID" before the body is considered; a bind error gives 400; in both cases nothing is called; a service error gives 500; a success gives 200 with the saved person |
| `Controllers.DeletePersonHandler` | internal/controllers/controllers.go:254-270 | an invalid id gives 400 "invalid ID" with no service call; a store error gives 500; a success gives 200 with the deletion message |
| `Controllers.EnrichmentFailureIsServerError` | internal/controllers/controllers.go:42-46 | an enrichment failure surfaces as 500 with the wrapped error, and no Create call is made |

## Left out

- Goroutines and unbuffered channels are not modelled as such. Interleaving is represented only by the arrival order of the messages, and a lookup that never ends by a worker that sends nothing. After an early error the merge loop returns, so nothing reads the channels any more. The workers still running then block forever on their unbuffered send (addition.go:94-97, 102-153). This goroutine leak is not modelled: the model describes what the invocation returns, not what it leaves behind.
- `net/http` GET, `io.ReadAll` and `encoding/json` decoding are not modelled. They are foreign code. Each lookup's outcome is an abstract `Fetch` value, given per URL by the `Network` parameter.
- The commented-out sequential variant of the enrichment is not modelled, because it is dead code.
- The storage layer is modelled as the opaque `Store`, with the SQL semantics left to the database. Nothing about its results is assumed. Two quirks are therefore not assumed away: its by-id lookup ignores the id, so `getByID(id)` may return another person, and its listing ignores the patronymic filter. Its ILIKE matching, LIMIT/OFFSET paging and soft delete are not modelled.
- JSON binding and the `binding:"required"` validation are not modelled. A request body arrives already decoded, as a `Result`.
- `PersonService.CreatePerson`: the service is modelled only for an enrichment that returns. `Enricher` is a total function from a name to the four returned values. The invocation can also block forever on a lookup that never ends, or the process can die on an empty country list (`Addition.EnrichmentAllOrNothing`, `Addition.GetAdditionAsync`). A blocked call gets no Create call and no response. When the process dies before the call returns (`Addition.EnrichmentPanicFirst`), there is again no Create call and no response. When an error returns before the panic (`Addition.EnrichmentErrorBeforePanic`), the service returns the wrapped error with no Create call, as modelled. The handler may then answer 500 before the process dies. `CreatePerson` and `Controllers.CreatePersonHandler` say nothing about the blocked and the died-first cases.
- Logging, swagger annotations and routing are not modelled. Neither is JSON encoding of responses, including `omitempty`, which hides a zero age or an empty gender in the output. These are framework plumbing.
- Configuration and environment loading, the database connection and migration, and the sentinel error values are not modelled. `Addition.Config` keeps only the three lookup URLs.
- Error message text is not modelled. Errors are opaque. The service's wrapping of an enrichment error is the constructor `EnrichmentFailed`.
- The timestamps of the embedded database model are not modelled. Only the primary key is kept, so the response projection drops nothing of the modelled `Person`.
- Fixed integer widths are modelled only for parsing. Ages are unbounded `int` and ids are `nat`. The 32- and 64-bit limits appear only in `ParseUint` and `Atoi`, where they decide acceptance and the clamped values.
- `Strconv.Atoi` assumes a 64-bit `int`. Its fast path for short strings agrees with `ParseInt(s, 10, 64)` and is not modelled separately. `ParseUint` is modelled for base 10 and widths 32 and 64 only, which are the only ones used.
- `Controllers.PageBound`: the malformed case is stated only for values of at most 19 characters. A longer malformed value can behave differently: a long digit run before a stray character is a range error, and `limit` or `offset` then takes the clamped `int64` bound, not 0. For such values the contracts of `Strconv.Atoi` and `PageBound` say only that the result is 0 or the nearest `int64` bound, not which.
- The query string is a map from key to its first value. Repeated keys and percent-decoding are not modelled.
- `PersonService.GetAllPersons`: the argument reordering between the service and the store is not modelled. The same named record flows through both layers, so the claim is that the record is passed unchanged, not that each position matches.
