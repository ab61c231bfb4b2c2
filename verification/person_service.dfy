/** The person service (services/person_service.go), written against an
    abstract store. The store is a bundle of fallible operations whose
    outcomes are given, not computed: nothing is assumed about what a store
    returns. In particular `getByID` need not return the person with the
    requested id (the storage layer's lookup ignores its argument).

    Each operation also reports the calls it made, in order, so that "the
    store is not called" and "the arguments are passed on unchanged" can be
    stated. */
module PersonService {
  import opened Wrappers
  import opened Models
  import Addition

  /** The arguments of a listing: page bounds and the optional filters, `None`
      being a nil pointer. */
  datatype ListArgs = ListArgs(
    limit: int,
    offset: int,
    name: Option<string>,
    surname: Option<string>,
    patronymic: Option<string>,
    minAge: Option<int>,
    maxAge: Option<int>,
    gender: Option<string>,
    nationality: Option<string>)

  /** The store. `create` yields the primary key it assigned; `update` and
      `delete` yield their error, if any. */
  datatype Store = Store(
    create: Person -> Result<nat, Error>,
    getByID: nat -> Result<Person, Error>,
    getAll: ListArgs -> Result<seq<Person>, Error>,
    update: Person -> Option<Error>,
    delete: nat -> Option<Error>)

  /** A call the service makes to a collaborator. */
  datatype Call =
    | EnrichCall(name: string)
    | CreateCall(person: Person)
    | GetByIDCall(id: nat)
    | GetAllCall(args: ListArgs)
    | UpdateCall(person: Person)
    | DeleteCall(id: nat)

  /** An operation's outcome together with the calls it made. */
  datatype Served<T> = Served(result: Result<T, Error>, calls: seq<Call>)

  /** The enrichment as the service sees it: a name in, the four values of
      `GetAdditionAsync` out. Only invocations that return are covered; one
      that blocks or crashes never reaches the service's next step. */
  type Enricher = string -> Addition.Reply

  /** `p` is the record a create request turns into once enriched: the
      request's names, the looked-up facts, and active. */
  predicate IsEnrichedRecord(p: Person, req: CreatePersonRequest, reply: Addition.Reply) {
    && p.name == req.name
    && p.surname == req.surname
    && p.patronymic == req.patronymic
    && p.age == reply.age
    && p.gender == reply.gender
    && p.nationality == reply.nationality
    && p.isActive
  }

  /** Creation enriches the request's name first. A failed enrichment is
      reported (wrapped) and nothing is stored; otherwise the enriched record
      is stored, and the stored record, with the key the store assigned, is
      returned, unless the store fails, whose error is then returned as is. */
  function CreatePerson(req: CreatePersonRequest, enrich: Enricher, store: Store): (r: Served<Person>)
    ensures |r.calls| >= 1 && r.calls[0] == EnrichCall(req.name)
    ensures enrich(req.name).err.Some? ==>
      r == Served(Failure(EnrichmentFailed(enrich(req.name).err.value)), [EnrichCall(req.name)])
    ensures enrich(req.name).err.None? ==>
      |r.calls| == 2 && r.calls[1].CreateCall? && r.calls[1].person.id == 0
      && IsEnrichedRecord(r.calls[1].person, req, enrich(req.name))
    ensures enrich(req.name).err.None? && store.create(r.calls[1].person).Failure? ==>
      r.result == Failure(store.create(r.calls[1].person).error)
    ensures enrich(req.name).err.None? && store.create(r.calls[1].person).Success? ==>
      r.result == Success(r.calls[1].person.(id := store.create(r.calls[1].person).value))
    ensures r.result.Success? ==>
      && enrich(req.name).err.None?
      && store.create(r.calls[1].person) == Success(r.result.value.id)
      && IsEnrichedRecord(r.result.value, req, enrich(req.name))
  {
    var reply := enrich(req.name);
    if reply.err.Some? then
      Served(Failure(EnrichmentFailed(reply.err.value)), [EnrichCall(req.name)])
    else
      var person := Person(0, req.name, req.surname, req.patronymic, reply.age, reply.nationality, reply.gender, true);
      var calls := [EnrichCall(req.name), CreateCall(person)];
      match store.create(person)
      case Failure(e) => Served(Failure(e), calls)
      case Success(id) => Served(Success(person.(id := id)), calls)
  }

  /** A lookup passes the id to the store and hands back its answer, person
      or error, untouched. */
  function GetPerson(id: nat, store: Store): (r: Served<Person>)
    ensures r.calls == [GetByIDCall(id)]
    ensures r.result == store.getByID(id)
  {
    match store.getByID(id)
    case Failure(e) => Served(Failure(e), [GetByIDCall(id)])
    case Success(p) => Served(Success(p), [GetByIDCall(id)])
  }

  /** A listing passes its arguments to the store and hands back its answer
      untouched. */
  function GetAllPersons(args: ListArgs, store: Store): (r: Served<seq<Person>>)
    ensures r.calls == [GetAllCall(args)]
    ensures r.result == store.getAll(args)
  {
    match store.getAll(args)
    case Failure(e) => Served(Failure(e), [GetAllCall(args)])
    case Success(ps) => Served(Success(ps), [GetAllCall(args)])
  }

  /** A deletion passes the id to the store and fails exactly when the store
      does, with the store's error. */
  function DeletePerson(id: nat, store: Store): (r: Served<()>)
    ensures r.calls == [DeleteCall(id)]
    ensures r.result.Failure? <==> store.delete(id).Some?
    ensures r.result.Failure? ==> r.result.error == store.delete(id).value
  {
    match store.delete(id)
    case Some(e) => Served(Failure(e), [DeleteCall(id)])
    case None => Served(Success(()), [DeleteCall(id)])
  }

  /** The patch that names no field. */
  const NoChanges := UpdatePersonRequest(None, None, None, None, None, None)

  /** The patchable fields of a person. */
  datatype Field = NameField | SurnameField | PatronymicField | AgeField | GenderField | NationalityField

  /** The fields a patch names. */
  function NamedFields(upd: UpdatePersonRequest): set<Field> {
    (if upd.name.Some? then {NameField} else {})
    + (if upd.surname.Some? then {SurnameField} else {})
    + (if upd.patronymic.Some? then {PatronymicField} else {})
    + (if upd.age.Some? then {AgeField} else {})
    + (if upd.gender.Some? then {GenderField} else {})
    + (if upd.nationality.Some? then {NationalityField} else {})
  }

  /** The patchable fields in which two records differ. */
  function ChangedFields(p: Person, q: Person): set<Field> {
    (if p.name != q.name then {NameField} else {})
    + (if p.surname != q.surname then {SurnameField} else {})
    + (if p.patronymic != q.patronymic then {PatronymicField} else {})
    + (if p.age != q.age then {AgeField} else {})
    + (if p.gender != q.gender then {GenderField} else {})
    + (if p.nationality != q.nationality then {NationalityField} else {})
  }

  /** A stored record with the patch laid over it: each named field takes
      the patch's value, every other field keeps its stored value, and the key
      and the active flag are never touched. */
  function ApplyPatch(p: Person, upd: UpdatePersonRequest): (q: Person)
    ensures q.id == p.id && q.isActive == p.isActive
    ensures upd.name.Some? ==> q.name == upd.name.value
    ensures upd.surname.Some? ==> q.surname == upd.surname.value
    ensures upd.patronymic.Some? ==> q.patronymic == upd.patronymic.value
    ensures upd.age.Some? ==> q.age == upd.age.value
    ensures upd.gender.Some? ==> q.gender == upd.gender.value
    ensures upd.nationality.Some? ==> q.nationality == upd.nationality.value
    ensures ChangedFields(p, q) <= NamedFields(upd)
  {
    p.(name := upd.name.GetOr(p.name),
       surname := upd.surname.GetOr(p.surname),
       patronymic := upd.patronymic.GetOr(p.patronymic),
       age := upd.age.GetOr(p.age),
       gender := upd.gender.GetOr(p.gender),
       nationality := upd.nationality.GetOr(p.nationality))
  }

  /** An update fetches the record, lays the patch over it and saves the
      result. A failed fetch is returned as is and nothing is saved; a failed
      save is returned as is; otherwise the saved record is returned. */
  function UpdatePerson(id: nat, upd: UpdatePersonRequest, store: Store): (r: Served<Person>)
    ensures store.getByID(id).Failure? ==>
      r == Served(Failure(store.getByID(id).error), [GetByIDCall(id)])
    ensures store.getByID(id).Success? ==>
      var saved := ApplyPatch(store.getByID(id).value, upd);
      && r.calls == [GetByIDCall(id), UpdateCall(saved)]
      && (store.update(saved).Some? ==> r.result == Failure(store.update(saved).value))
      && (store.update(saved).None? ==> r.result == Success(saved))
  {
    match store.getByID(id)
    case Failure(e) => Served(Failure(e), [GetByIDCall(id)])
    case Success(p) =>
      var saved := ApplyPatch(p, upd);
      match store.update(saved)
      case Some(e) => Served(Failure(e), [GetByIDCall(id), UpdateCall(saved)])
      case None => Served(Success(saved), [GetByIDCall(id), UpdateCall(saved)])
  }

  // ---------------------------------------------------------------------------
  // Properties of patching

  /** Exactly the named fields whose patch value differs from the stored one
      change. */
  lemma PatchChangesExactly(p: Person, upd: UpdatePersonRequest, f: Field)
    ensures f in ChangedFields(p, ApplyPatch(p, upd)) <==>
      f in NamedFields(upd) && match f
        case NameField => upd.name.value != p.name
        case SurnameField => upd.surname.value != p.surname
        case PatronymicField => upd.patronymic.value != p.patronymic
        case AgeField => upd.age.value != p.age
        case GenderField => upd.gender.value != p.gender
        case NationalityField => upd.nationality.value != p.nationality
  {
  }

  /** A patch naming no field leaves the record as it was. */
  lemma EmptyPatchIsIdentity(p: Person)
    ensures ApplyPatch(p, NoChanges) == p
  {
  }

  /** Applying the same patch twice is applying it once. */
  lemma PatchIdempotent(p: Person, upd: UpdatePersonRequest)
    ensures ApplyPatch(ApplyPatch(p, upd), upd) == ApplyPatch(p, upd)
  {
  }

  /** Two patches in a row are one patch in which the second wins wherever
      both name a field. */
  lemma PatchesCompose(p: Person, first: UpdatePersonRequest, second: UpdatePersonRequest)
    ensures ApplyPatch(ApplyPatch(p, first), second) == ApplyPatch(p, UpdatePersonRequest(
      if second.name.Some? then second.name else first.name,
      if second.surname.Some? then second.surname else first.surname,
      if second.patronymic.Some? then second.patronymic else first.patronymic,
      if second.age.Some? then second.age else first.age,
      if second.gender.Some? then second.gender else first.gender,
      if second.nationality.Some? then second.nationality else first.nationality))
  {
  }

  /** An update naming no field still saves: it writes back the fetched
      record unchanged. */
  lemma UpdateWithNoChangesSavesRecord(id: nat, store: Store)
    requires store.getByID(id).Success?
    ensures UpdatePerson(id, NoChanges, store).calls
         == [GetByIDCall(id), UpdateCall(store.getByID(id).value)]
  {
    EmptyPatchIsIdentity(store.getByID(id).value);
  }
}
