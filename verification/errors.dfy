/** The error values the user resource meets and how a "not found" error is
    recognised.  Each of the three elastic client libraries has its own
    error type (`*elastic7.Error`, `*elastic6.Error`, `*elastic5.Error`);
    every other error is a plain `errors.New`/`fmt.Errorf` value. */
module Errors {

  /** The client library an `ElasticError` comes from. */
  datatype Library = Elastic7 | Elastic6 | Elastic5

  /** What a library error carries: the HTTP status and the server's reason. */
  datatype Detail = Detail(status: int, reason: string)

  datatype Error =
    | ElasticError(lib: Library, detail: Detail)
    | Plain(msg: string)

  /** Returned by every elasticv5 adapter. */
  const UNSUPPORTED_IN_V5: Error := Plain("unsupported in elasticv5 client")

  /** Returned by a dispatcher for a client of no known library. */
  const UNHANDLED_CLIENT_TYPE: Error := Plain("unhandled client type")

  /** `fmt.Errorf("Body Error : %s", body)` when `json.Marshal` failed and
      left `body` empty. */
  const BODY_ERROR: Error := Plain("Body Error : ")

  /** The libraries' own `IsNotFound` functions, left uninterpreted: the
      model holds for any choice of them. */
  datatype NotFoundPredicates = NotFoundPredicates(
    v7: Detail -> bool,
    v6: Detail -> bool,
    v5: Detail -> bool)

  /** The classification the Read and Delete handlers apply: the error is one
      of the three library error types and that library's `IsNotFound`
      accepts it.  The test is by the error's type, not by the client that
      produced it. */
  predicate IsNotFound(err: Error, p: NotFoundPredicates)
    ensures IsNotFound(err, p) ==> err.ElasticError?
    ensures err.ElasticError? && err.lib == Elastic7 ==> (IsNotFound(err, p) <==> p.v7(err.detail))
    ensures err.ElasticError? && err.lib == Elastic6 ==> (IsNotFound(err, p) <==> p.v6(err.detail))
    ensures err.ElasticError? && err.lib == Elastic5 ==> (IsNotFound(err, p) <==> p.v5(err.detail))
  {
    match err
    case ElasticError(Elastic7, d) => p.v7(d)
    case ElasticError(Elastic6, d) => p.v6(d)
    case ElasticError(Elastic5, d) => p.v5(d)
    case Plain(_) => false
  }

  /** The constant errors of this core are plain errors, so no library
      predicate can call them "not found". */
  lemma ConstantErrorsAreNeverNotFound(p: NotFoundPredicates)
    ensures !IsNotFound(UNSUPPORTED_IN_V5, p)
    ensures !IsNotFound(UNHANDLED_CLIENT_TYPE, p)
    ensures !IsNotFound(BODY_ERROR, p)
  {
  }
}
