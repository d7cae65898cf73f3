/** The connector's Graph client: what `query` makes of one HTTP exchange, through the
    SDK's `Do` and the checks of `doRequest`. */
module GraphClient {
  import opened Wrappers

  /** One exchange: no usable response, or a status with the body decoded, if it decodes. */
  datatype Http<+T> = NoResponse | Response(status: int, body: Option<T>)

  /** What a caller of `query` can tell apart: a value, an error that is `ErrNotFound`, any other error. */
  datatype Reply<+T> = Answer(value: T) | Missing | Broken

  const NOT_FOUND := 404

  /** The statuses the SDK turns into errors of their own. */
  const NAMED_FAILURES := {408, 429, 502, 503, NOT_FOUND, 401, 403, 409, 501}

  /** The SDK's `Do` returns an error. */
  predicate DoFails<T>(http: Http<T>) {
    || http.NoResponse?
    || http.status in NAMED_FAILURES
    || 500 <= http.status <= 599
    || http.status < 200 || http.status >= 300
    || http.body.None?
  }

  /** `query` on a request that expects a result: the checks of `doRequest` in their order. */
  function Query<T>(http: Http<T>): Reply<T> {
    if DoFails(http) then Broken
    else if http.status < 200 || http.status >= 300 then Broken
    else if http.status == NOT_FOUND then Missing
    else if http.status != 200 && http.status != 204 && http.status != 201 then Broken
    else Answer(http.body.value)
  }

  /** No exchange makes `query` return `ErrNotFound`: the test for it comes after the tests
      that a 404 has already failed. A value is returned for exactly three statuses. */
  lemma QueryMeaning<T>(http: Http<T>)
    ensures Query(http) != Missing
    ensures Query(http).Answer? <==> http.Response? && http.status in {200, 201, 204} && http.body.Some?
    ensures Query(http).Answer? ==> Some(Query(http).value) == http.body
  {
  }
}
