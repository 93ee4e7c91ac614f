/** Types shared by the screens: optional values, the outcome of a call to the
    hosted authentication service, URL query parameters, and the status of the
    e-mail callback pages. */
module Common {

  datatype Option<+T> = None | Some(value: T)

  /** What a call to the authentication service (sign in, sign up, verify a
      one-time code, send a reset e-mail, update the password) reports back:
      success, or an error object carrying a message that may be empty. */
  datatype ProviderResult = Ok | Err(message: string)

  /** The text shown for a failed call: `err.message || fallback`. An empty
      message is falsy in JavaScript, so the fallback is shown instead. */
  function ErrorText(message: string, fallback: string): (r: string)
    ensures message != "" ==> r == message
    ensures message == "" ==> r == fallback
  {
    if message != "" then message else fallback
  }

  /** URL query parameters: `searchParams.get(key)` is `null` for a missing key. */
  type QueryParams = map<string, string>

  function Param(q: QueryParams, key: string): (r: Option<string>)
    ensures r.Some? <==> key in q
    ensures r.Some? ==> r.value == q[key]
  {
    if key in q then Some(q[key]) else None
  }

  /** JavaScript truthiness of `string | null`: neither null nor the empty string. */
  predicate Truthy(s: Option<string>)
  {
    s.Some? && s.value != ""
  }

  /** The three statuses of the e-mail callback pages. */
  datatype PageStatus = Loading | Success | Error
}
