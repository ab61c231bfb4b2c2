/** The records exchanged between the HTTP layer, the person service and the
    store (models/person.go, models/requests.go) and the opaque errors that
    travel with them. */
module Models {
  import opened Wrappers

  /** Errors are opaque: only where they come from matters, never their text.
      `EnrichmentFailed` is the wrapping the person service puts around an
      enrichment error before handing it on. */
  datatype Error =
    | Opaque(text: string)
    | EnrichmentFailed(cause: Error)

  /** A stored person. Of the embedded database bookkeeping only the primary
      key is kept; the timestamps are not part of this model. */
  datatype Person = Person(
    id: nat,
    name: string,
    surname: string,
    patronymic: string,
    age: int,
    nationality: string,
    gender: string,
    isActive: bool)

  /** Body of a create request. */
  datatype CreatePersonRequest = CreatePersonRequest(
    name: string,
    surname: string,
    patronymic: string)

  /** Body of an update request: every field is optional, `None` meaning the
      field was absent from the JSON body. */
  datatype UpdatePersonRequest = UpdatePersonRequest(
    name: Option<string>,
    surname: Option<string>,
    patronymic: Option<string>,
    age: Option<int>,
    gender: Option<string>,
    nationality: Option<string>)

  /** What the API returns for one person. */
  datatype PersonResponse = PersonResponse(
    id: nat,
    name: string,
    surname: string,
    patronymic: string,
    age: int,
    gender: string,
    nationality: string,
    isActive: bool)
}
