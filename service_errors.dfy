/** The exceptions the backend services raise, as values. */
module ServiceErrors {
  import opened Common

  datatype ServiceError =
    | ResourceNotFound(message: string)
    | DatabaseFailure(message: string)
    /** validateSelfOrAdmin refused the current user. */
    | Forbidden
    /** A repository reference to a missing or null id failed when used. */
    | InvalidReference

  const NotFoundText: string := "Recurso não encontrado"
  const IntegrityText: string := "falha de integridade referencial"

  /** "Recurso não encontrado " followed by the id, as ProductService words it. */
  function NotFoundFor(id: int): (message: string)
    ensures NotFoundText + " " <= message
    ensures |message| > |NotFoundText| + 1 && message[|NotFoundText| + 1..] == IntToString(id)
  {
    NotFoundText + " " + IntToString(id)
  }

  /** Distinct ids give distinct messages. */
  lemma NotFoundForInjective(a: int, b: int)
    ensures NotFoundFor(a) == NotFoundFor(b) ==> a == b
  {
    if NotFoundFor(a) == NotFoundFor(b) {
      assert IntToString(a) == NotFoundFor(a)[|NotFoundText| + 1..];
      IntToStringInjective(a, b);
    }
  }
}
