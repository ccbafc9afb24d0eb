/**
 * What the api/ handlers share: the JSON reply, the upstream outcome handed
 * to a handler in place of the awaited HTTP call, the credentials every
 * request carries, and the contract every handler keeps (405 first, then
 * 400 for missing fields, no upstream call unless both pass, `success`
 * exactly on 200).
 */
module Http {

  import opened Wrappers

  const Post := "POST"
  const MethodNotAllowed := "Method not allowed"
  const MissingParameters := "Faltan parámetros requeridos"

  /** A JSON reply: its HTTP status, the `success` flag, `message` when sent, and the endpoint's data on success. */
  datatype Reply<T> = Reply(status: nat, success: bool, message: Option<string>, data: Option<T>)

  /** A failed upstream call: an HTTP error response (with the values of its body's `errors` object and its `errorMessages`, when present), or no response at all. */
  datatype UpstreamError =
    | HttpError(status: int, errors: Option<seq<string>>, errorMessages: Option<seq<string>>)
    | NoResponse(message: string)

  /** The outcome of the awaited upstream call. */
  datatype Upstream<T> = Ok(data: T) | Err(error: UpstreamError)

  /** A handler's exchange: the upstream call it made, if any, and its reply. */
  datatype Exchange<C, T> = Exchange(call: Option<C>, reply: Reply<T>)

  /** The fields every request body carries; an absent field is the empty string. */
  datatype Credentials = Credentials(url: string, email: string, token: string, projectKey: string)

  /** `url && email && token && projectKey`. */
  predicate Complete(c: Credentials) {
    c.url != "" && c.email != "" && c.token != "" && c.projectKey != ""
  }

  /** The `user:password` text that the Basic Authorization header carries base64-encoded. */
  function BasicUser(email: string, token: string): string {
    email + ":" + token
  }

  /** An upstream HTTP error of the given status. */
  predicate FailedWith<T>(u: Upstream<T>, status: int) {
    u.Err? && u.error.HttpError? && u.error.status == status
  }

  /** A rejection, before any upstream call or after a failed one. */
  function Reject<T>(status: nat, message: string): (r: Reply<T>)
    ensures !r.success && r.data.None?
  {
    Reply(status, false, Some(message), None)
  }

  /** The guards every handler runs first: the verb, then the required fields. */
  function Guard<T>(verb: string, complete: bool, missing: string): (r: Option<Reply<T>>)
    ensures r.None? <==> verb == Post && complete
    ensures verb != Post ==> r == Some(Reject(405, MethodNotAllowed))
    ensures verb == Post && !complete ==> r == Some(Reject(400, missing))
  {
    if verb != Post then Some(Reject(405, MethodNotAllowed))
    else if !complete then Some(Reject(400, missing))
    else None
  }

  /** The contract all handlers keep. */
  predicate Conforms<C, T>(verb: string, complete: bool, x: Exchange<C, T>) {
    && (x.reply.status == 405 <==> verb != Post)
    && (verb != Post ==> x.reply.message == Some(MethodNotAllowed))
    && (verb == Post && !complete ==> x.reply.status == 400)
    && (x.call.Some? <==> verb == Post && complete)
    && (x.reply.success <==> x.reply.status == 200)
    && (x.reply.success <==> x.reply.data.Some?)
  }
}
