/** The JSON response shapes shared by the remote service and the local stand-in. */
module Wire {

  /** A diagnostic as the compiler tool reports it; passed through, never decomposed. */
  datatype Diagnostic = Diagnostic(text: string)

  /** One entry of a `serverErrors` list: `{"code": …, "error": …}`. */
  datatype ServerError = ServerError(code: int, error: string)

  /** A response body: either the server-error batch alone, or the compiled code with its
      diagnostics. Being one datatype, a response never carries both shapes. */
  datatype Response =
    | ServerErrors(serverErrors: seq<ServerError>)
    | Success(compiledCode: string, errors: seq<Diagnostic>, warnings: seq<Diagnostic>)
}
