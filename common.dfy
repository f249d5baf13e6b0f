/** Values shared by every component: optional values and the outcome of an
    HTTP request, as the components see it after `await`. */
module Common {

  datatype Option<+T> = None | Some(value: T)

  /** The outcome of one `axios`/`fetch` call. `Failed` stands for a rejected
      promise or a body that could not be used; `serverError` is the `error`
      field of the response body when the server sent one. */
  datatype Response<+T> = Ok(body: T) | Failed(serverError: Option<string>)

  /** The outcome of a form's client-side validation: the message shown in
      place of sending, or the request body that is sent. */
  datatype Checked<+T> = Rejected(message: string) | Accepted(request: T)

  /** `error.response?.data?.error || fallback`: the server's message when it
      sent a non-empty one, otherwise the component's own fallback text. */
  function ErrorMessage(serverError: Option<string>, fallback: string): (msg: string)
    ensures serverError.Some? && serverError.value != "" ==> msg == serverError.value
    ensures serverError.None? || serverError.value == "" ==> msg == fallback
  {
    match serverError
    case Some(e) => if e != "" then e else fallback
    case None => fallback
  }

  /** The value of key `k` of a form object; a missing key reads as the
      empty string, which is just as falsy as `undefined`. */
  function Get(m: map<string, string>, k: string): (v: string)
    ensures k in m ==> v == m[k]
    ensures k !in m ==> v == ""
  {
    if k in m then m[k] else ""
  }
}
