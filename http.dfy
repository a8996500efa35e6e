/**
 * What an API handler answers: a body, or the status code of the HTTPException it raises (an
 * uncaught Python exception inside a handler becomes status 500). Also the token dependency that
 * hands the handlers their `current_user_id`.
 */
module Http {
  import opened Util

  datatype Reply<T> = Done(body: T) | Fail(status: int)

  const BadRequest: int := 400
  const Unauthorized: int := 401
  const Forbidden: int := 403
  const NotFound: int := 404
  const Unprocessable: int := 422
  const ServerError: int := 500

  /** What a client's `response.ok` tests: a status in the 200 range. */
  predicate IsOk(status: int) { 200 <= status <= 299 }

  /**
   * `get_current_user_id`: the user id the decoded token carries. `claim` is None when the token does
   * not decode; a missing or falsy id is refused like a bad token, with 401.
   */
  function CurrentUserId(claim: Option<int>): (r: Reply<int>)
    ensures r.Done? <==> claim.Some? && claim.value != 0
    ensures r.Done? ==> r.body == claim.value
    ensures r.Fail? ==> r.status == Unauthorized
  {
    if claim.None? || claim.value == 0 then Fail(Unauthorized) else Done(claim.value)
  }
}
