/** The error text the pages show when a backend call fails. */
module PageErrors {
  import opened JsText
  import ApiClient
  import opened AuthContext

  /** `error?.data?.message || error?.message || fallback`: the pages' error text.
      A JSON body's message wins, then the error's own message. */
  function ErrorText(e: RequestError, fallback: string): (r: string)
    ensures fallback != "" ==> r != ""
    ensures e.HttpFailure? && e.http.data.JsonBody? && Present(e.http.data.message) ==>
      r == e.http.data.message.value
    ensures e.HttpFailure? && !(e.http.data.JsonBody? && Present(e.http.data.message)) ==>
      r == (if e.http.message != "" then e.http.message else fallback)
    ensures e.NetworkFailure? ==> r == (if e.message != "" then e.message else fallback)
  {
    match e
    case HttpFailure(h) =>
      if h.data.JsonBody? && Present(h.data.message) then h.data.message.value
      else if h.message != "" then h.message
      else fallback
    case NetworkFailure(m) =>
      if m != "" then m else fallback
  }

  /** For an error that `parseResponse` raised, the text is always the message the
      server sent, or `parseResponse`'s own fallback: the page's fallback never shows. */
  lemma HttpErrorTextIsServerText(resp: ApiClient.Response, fallback: string)
    requires ApiClient.ParseResponse(resp).Err?
    ensures var e := HttpFailure(ApiClient.ParseResponse(resp).error);
      ErrorText(e, fallback) == ApiClient.ParseResponse(resp).error.message
  {
  }
}
