/** The HTTP handlers (internal/controllers/controllers.go) with the framework
    taken out: request decoding arrives as a `Result`, the query string as a
    map from key to its first value, the path id as the raw segment, and the
    answer is a status code and a body. Each handler also reports the calls
    made on its behalf, so that "the service is not called" can be stated. */
module Controllers {
  import opened Wrappers
  import opened Models
  import opened Strconv
  import opened PersonService

  const StatusOK := 200
  const StatusBadRequest := 400
  const StatusNotFound := 404
  const StatusInternalServerError := 500

  /** The JSON body of an answer. `ErrorOf` carries an error's own text,
      `ErrorText` a fixed message. */
  datatype Body =
    | PersonJson(person: PersonResponse)
    | PersonListJson(persons: seq<PersonResponse>)
    | ErrorOf(error: Error)
    | ErrorText(text: string)
    | MessageText(message: string)

  datatype Response = Response(status: int, body: Body)

  /** A handler's answer together with the calls made on its behalf. */
  datatype Handled = Handled(response: Response, calls: seq<Call>)

  // ---------------------------------------------------------------------------
  // Response projection

  /** The response of a person: every field is copied to the field of the
      same name, whatever its position in either record. */
  function ToResponse(p: Person): (r: PersonResponse)
    ensures r.id == p.id && r.isActive == p.isActive
    ensures r.name == p.name && r.surname == p.surname && r.patronymic == p.patronymic
    ensures r.age == p.age && r.gender == p.gender && r.nationality == p.nationality
  {
    PersonResponse(p.id, p.name, p.surname, p.patronymic, p.age, p.gender, p.nationality, p.isActive)
  }

  /** Reads a person back from its response. */
  function FromResponse(r: PersonResponse): Person {
    Person(r.id, r.name, r.surname, r.patronymic, r.age, r.nationality, r.gender, r.isActive)
  }

  /** The projection drops nothing of a person: each field is copied to the
      field of the same name. */
  lemma ResponseRoundTrip(p: Person)
    ensures FromResponse(ToResponse(p)) == p
  {
  }

  /** The list answer: one response per person, in the same order, each
      reading back as that person. */
  function ToResponses(ps: seq<Person>): (rs: seq<PersonResponse>)
    ensures |rs| == |ps|
    ensures forall i | 0 <= i < |ps| :: FromResponse(rs[i]) == ps[i]
  {
    seq(|ps|, i requires 0 <= i < |ps| => ToResponse(ps[i]))
  }

  // ---------------------------------------------------------------------------
  // Query string of the listing

  /** The query string: each key with its first value. */
  type Query = map<string, string>

  /** gin's `DefaultQuery`: the value if the key is present, even when empty;
      the default otherwise. */
  function DefaultQuery(q: Query, key: string, default: string): string {
    if key in q then q[key] else default
  }

  /** gin's `Query`: the value, or the empty string when the key is absent. */
  function QueryValue(q: Query, key: string): string {
    DefaultQuery(q, key, "")
  }

  /** A text filter: absent when its value is empty. */
  function TextFilter(v: string): (r: Option<string>)
    ensures r.Some? <==> v != ""
    ensures r.Some? ==> r.value == v
  {
    if v == "" then None else Some(v)
  }

  /** An age bound: absent when its value is empty or not an `int`. */
  function AgeBound(v: string): (r: Option<int>)
    ensures r.Some? <==> FitsInt64(v)
    ensures r.Some? ==> r.value == SignedValue(v)
  {
    if v == "" then None
    else
      var parsed := Atoi(v);
      if parsed.err.None? then Some(parsed.value) else None
  }

  /** `limit` and `offset` keep `Atoi`'s value even when it reports an error:
      a present but malformed value becomes 0, provided it is short enough (at
      most 19 characters) that no digit run overflows first; an empty value
      counts as malformed. A well-formed number outside `int64` becomes the
      nearest bound. */
  function PageBound(q: Query, key: string, default: string): (r: int)
    ensures MinInt64 <= r <= MaxInt64
    ensures IsInt64(q, key) ==> r == SignedValue(q[key])
    ensures key in q && IsDecimalInt(q[key]) && !FitsInt64(q[key]) ==> r == Int64Bound(q[key])
    ensures key in q && |q[key]| <= 19 && !IsDecimalInt(q[key]) ==> r == 0
    ensures key in q && !IsDecimalInt(q[key]) ==> r == 0 || r == Int64Bound(q[key])
    ensures key !in q && FitsInt64(default) ==> r == SignedValue(default)
  {
    var v := DefaultQuery(q, key, default);
    AtoiShortNonNumeric(v);
    Atoi(v).value
  }

  /** The query value under `key` reads as an `int64`. */
  predicate IsInt64(q: Query, key: string) {
    key in q && FitsInt64(q[key])
  }

  /** Listing arguments from the query string. The nationality filter is read
      from key "nation". */
  function ParseListQuery(q: Query): (args: ListArgs)
    ensures "limit" !in q ==> args.limit == 10
    ensures "offset" !in q ==> args.offset == 0
    ensures IsInt64(q, "limit") ==> args.limit == SignedValue(q["limit"])
    ensures IsInt64(q, "offset") ==> args.offset == SignedValue(q["offset"])
    ensures args.minAge.Some? <==> IsInt64(q, "min_age")
    ensures args.minAge.Some? ==> args.minAge.value == SignedValue(q["min_age"])
    ensures args.maxAge.Some? <==> IsInt64(q, "max_age")
    ensures args.maxAge.Some? ==> args.maxAge.value == SignedValue(q["max_age"])
    ensures args.name.Some? <==> "name" in q && q["name"] != ""
    ensures args.name.Some? ==> args.name.value == q["name"]
    ensures args.surname.Some? <==> "surname" in q && q["surname"] != ""
    ensures args.surname.Some? ==> args.surname.value == q["surname"]
    ensures args.patronymic.Some? <==> "patronymic" in q && q["patronymic"] != ""
    ensures args.patronymic.Some? ==> args.patronymic.value == q["patronymic"]
    ensures args.gender.Some? <==> "gender" in q && q["gender"] != ""
    ensures args.gender.Some? ==> args.gender.value == q["gender"]
    ensures args.nationality.Some? <==> "nation" in q && q["nation"] != ""
    ensures args.nationality.Some? ==> args.nationality.value == q["nation"]
  {
    ListArgs(
      PageBound(q, "limit", "10"),
      PageBound(q, "offset", "0"),
      TextFilter(QueryValue(q, "name")),
      TextFilter(QueryValue(q, "surname")),
      TextFilter(QueryValue(q, "patronymic")),
      AgeBound(QueryValue(q, "min_age")),
      AgeBound(QueryValue(q, "max_age")),
      TextFilter(QueryValue(q, "gender")),
      TextFilter(QueryValue(q, "nation")))
  }

  /** The documented key "nationality" is never read. */
  lemma NationalityKeyIgnored(q: Query, v: string)
    ensures ParseListQuery(q["nationality" := v]) == ParseListQuery(q - {"nationality"})
  {
    var q1, q2 := q["nationality" := v], q - {"nationality"};
    forall key | key != "nationality"
      ensures DefaultQuery(q1, key, "") == DefaultQuery(q2, key, "")
      ensures DefaultQuery(q1, key, "10") == DefaultQuery(q2, key, "10")
      ensures DefaultQuery(q1, key, "0") == DefaultQuery(q2, key, "0")
    {
    }
  }

  // ---------------------------------------------------------------------------
  // Path id

  /** A path id the handlers accept: ASCII digits only, at least one, with a
      value that fits in 32 bits. */
  predicate IsValidPathID(s: string) {
    |s| > 0 && AllDigits(s) && DecimalValue(s) <= MaxUint32
  }

  /** `strconv.ParseUint(s, 10, 32)`, reduced to whether it succeeded. */
  function ParsePathID(s: string): (id: Option<nat>)
    ensures id.Some? <==> IsValidPathID(s)
    ensures id.Some? ==> id.value == DecimalValue(s)
  {
    var parsed := ParseUint(s, Bits32);
    if parsed.err.None? then Some(parsed.value) else None
  }

  const InvalidID := Response(StatusBadRequest, ErrorText("invalid ID"))

  // ---------------------------------------------------------------------------
  // Handlers

  /** POST /persons: a body that does not bind is 400 with nothing else done;
      a service failure is 500; success is 200 with the created person. */
  function CreatePersonHandler(body: Result<CreatePersonRequest, Error>, enrich: Enricher, store: Store): (h: Handled)
    ensures body.Failure? ==> h == Handled(Response(StatusBadRequest, ErrorOf(body.error)), [])
    ensures body.Success? ==>
      var served := CreatePerson(body.value, enrich, store);
      && h.calls == served.calls
      && (h.response.status == StatusInternalServerError <==> served.result.Failure?)
      && (h.response.status == StatusOK <==> served.result.Success?)
      && (served.result.Failure? ==> h.response.body == ErrorOf(served.result.error))
      && (served.result.Success? ==> h.response.body == PersonJson(ToResponse(served.result.value)))
  {
    match body
    case Failure(e) => Handled(Response(StatusBadRequest, ErrorOf(e)), [])
    case Success(req) =>
      var served := CreatePerson(req, enrich, store);
      match served.result
      case Failure(e) => Handled(Response(StatusInternalServerError, ErrorOf(e)), served.calls)
      case Success(p) => Handled(Response(StatusOK, PersonJson(ToResponse(p))), served.calls)
  }

  /** GET /persons: the listing asked of the store is the one the query
      describes; a failure is 500; success is 200 with the persons in the
      store's order. */
  function GetAllPersonsHandler(q: Query, store: Store): (h: Handled)
    ensures h.calls == [GetAllCall(ParseListQuery(q))]
    ensures h.response.status == StatusInternalServerError <==> store.getAll(ParseListQuery(q)).Failure?
    ensures h.response.status == StatusOK <==> store.getAll(ParseListQuery(q)).Success?
    ensures store.getAll(ParseListQuery(q)).Success? ==>
      h.response.body == PersonListJson(ToResponses(store.getAll(ParseListQuery(q)).value))
    ensures store.getAll(ParseListQuery(q)).Failure? ==>
      h.response.body == ErrorOf(store.getAll(ParseListQuery(q)).error)
  {
    var served := GetAllPersons(ParseListQuery(q), store);
    match served.result
    case Failure(e) => Handled(Response(StatusInternalServerError, ErrorOf(e)), served.calls)
    case Success(ps) => Handled(Response(StatusOK, PersonListJson(ToResponses(ps))), served.calls)
  }

  /** GET /persons/{id}: a bad id is 400 "invalid ID" and the store is not
      asked; any lookup failure is 404; success is 200. */
  function GetPersonHandler(path: string, store: Store): (h: Handled)
    ensures !IsValidPathID(path) ==> h == Handled(InvalidID, [])
    ensures IsValidPathID(path) ==>
      var id := DecimalValue(path);
      && h.calls == [GetByIDCall(id)]
      && (store.getByID(id).Failure? ==> h.response == Response(StatusNotFound, ErrorText("person not found")))
      && (store.getByID(id).Success? ==> h.response == Response(StatusOK, PersonJson(ToResponse(store.getByID(id).value))))
  {
    match ParsePathID(path)
    case None => Handled(InvalidID, [])
    case Some(id) =>
      var served := GetPerson(id, store);
      match served.result
      case Failure(_) => Handled(Response(StatusNotFound, ErrorText("person not found")), served.calls)
      case Success(p) => Handled(Response(StatusOK, PersonJson(ToResponse(p))), served.calls)
  }

  /** PUT /persons/{id}: the id is checked before the body; either being bad
      is 400 with nothing else done; a service failure is 500; success is 200
      with the saved person. */
  function UpdatePersonHandler(path: string, body: Result<UpdatePersonRequest, Error>, store: Store): (h: Handled)
    ensures !IsValidPathID(path) ==> h == Handled(InvalidID, [])
    ensures IsValidPathID(path) && body.Failure? ==>
      h == Handled(Response(StatusBadRequest, ErrorOf(body.error)), [])
    ensures IsValidPathID(path) && body.Success? ==>
      var served := UpdatePerson(DecimalValue(path), body.value, store);
      && h.calls == served.calls
      && (h.response.status == StatusInternalServerError <==> served.result.Failure?)
      && (h.response.status == StatusOK <==> served.result.Success?)
      && (served.result.Failure? ==> h.response.body == ErrorOf(served.result.error))
      && (served.result.Success? ==> h.response.body == PersonJson(ToResponse(served.result.value)))
  {
    match ParsePathID(path)
    case None => Handled(InvalidID, [])
    case Some(id) =>
      match body
      case Failure(e) => Handled(Response(StatusBadRequest, ErrorOf(e)), [])
      case Success(upd) =>
        var served := UpdatePerson(id, upd, store);
        match served.result
        case Failure(e) => Handled(Response(StatusInternalServerError, ErrorOf(e)), served.calls)
        case Success(p) => Handled(Response(StatusOK, PersonJson(ToResponse(p))), served.calls)
  }

  /** DELETE /persons/{id}: a bad id is 400 "invalid ID" and the store is not
      asked; a store failure is 500 with its error; success is 200. */
  function DeletePersonHandler(path: string, store: Store): (h: Handled)
    ensures !IsValidPathID(path) ==> h == Handled(InvalidID, [])
    ensures IsValidPathID(path) ==>
      var id := DecimalValue(path);
      && h.calls == [DeleteCall(id)]
      && (store.delete(id).Some? ==> h.response == Response(StatusInternalServerError, ErrorOf(store.delete(id).value)))
      && (store.delete(id).None? ==> h.response == Response(StatusOK, MessageText("person deleted successfully")))
  {
    match ParsePathID(path)
    case None => Handled(InvalidID, [])
    case Some(id) =>
      var served := DeletePerson(id, store);
      match served.result
      case Failure(e) => Handled(Response(StatusInternalServerError, ErrorOf(e)), served.calls)
      case Success(_) => Handled(Response(StatusOK, MessageText("person deleted successfully")), served.calls)
  }

  /** An enrichment failure surfaces as 500 and nothing is stored. */
  lemma EnrichmentFailureIsServerError(req: CreatePersonRequest, enrich: Enricher, store: Store)
    requires enrich(req.name).err.Some?
    ensures var h := CreatePersonHandler(Success(req), enrich, store);
      && h.response == Response(StatusInternalServerError, ErrorOf(EnrichmentFailed(enrich(req.name).err.value)))
      && forall c | c in h.calls :: !c.CreateCall?
  {
  }
}
