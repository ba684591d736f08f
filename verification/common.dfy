/** Values shared by every page of the dashboard: optional values, the outcome
    of a request to the backend, and JavaScript's notion of a "truthy" string. */
module Common {

  datatype Option<T> = None | Some(value: T)

  /** What an awaited backend call yields: the response body, or a rejection
      whose response may carry a `detail` message. */
  datatype Response<T> = Ok(data: T) | Failed(detail: Option<string>)

  /** A summary card: a title and a displayed value. */
  datatype Kpi = Kpi(title: string, value: string)

  /** A string used as a JavaScript condition: `null`/`undefined` and `''` are false. */
  predicate Truthy(s: Option<string>) {
    s.Some? && s.value != ""
  }

  /** `err.response?.data?.detail || fallback`: the message a page shows for a failed request. */
  function DetailOr(detail: Option<string>, fallback: string): (msg: string)
    ensures Truthy(detail) ==> msg == detail.value
    ensures !Truthy(detail) ==> msg == fallback
    ensures fallback != "" ==> msg != ""
  {
    if Truthy(detail) then detail.value else fallback
  }

  function Max(a: int, b: int): (m: int)
    ensures m >= a && m >= b && (m == a || m == b)
  {
    if a >= b then a else b
  }

  function Min(a: int, b: int): (m: int)
    ensures m <= a && m <= b && (m == a || m == b)
  {
    if a <= b then a else b
  }
}
