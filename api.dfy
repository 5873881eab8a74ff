/** The REST client's pure parts: base-URL normalisation, URL building and the
    decision between returning a response body and raising an HTTP error. */
module ApiClient {
  import opened JsText

  /** The fallback base URL: a proxy path in development, the fixed origin otherwise. */
  function DefaultBaseUrl(isDev: bool): (r: string)
    ensures r != "" && (StartsWith(r, "/") || StartsWith(r, "https://"))
  {
    if isDev then "/api" else "https://api.hjun.kr"
  }

  /** `s.replace(/\/$/, "")`: at most one trailing slash goes. */
  function StripTrailingSlash(s: string): (r: string)
    ensures EndsWith(s, "/") ==> r == s[..|s| - 1]
    ensures !EndsWith(s, "/") ==> r == s
  {
    if s != [] && s[|s| - 1] == '/' then s[..|s| - 1] else s
  }

  function LowerChar(c: char): char {
    if 'A' <= c <= 'Z' then (c as int + 32) as char else c
  }

  /** `s` begins with `p` when ASCII letters are compared without case, which is
      all a case-insensitive regular expression without the `u` flag does to
      these letters; `p` is written in lower case. */
  predicate PrefixIgnoringCase(s: string, p: string) {
    |p| <= |s| && forall i :: 0 <= i < |p| ==> LowerChar(s[i]) == p[i]
  }

  /** `s` equals the lower-case `p` up to the case of ASCII letters. */
  predicate EqualsIgnoringCase(s: string, p: string) {
    |s| == |p| && PrefixIgnoringCase(s, p)
  }

  /** `/^https?:\/\//i`: an `http://` or `https://` prefix in any letter case. */
  predicate HasHttpScheme(s: string) {
    PrefixIgnoringCase(s, "http://") || PrefixIgnoringCase(s, "https://")
  }

  /** The three branches of `normalizeBaseUrl` for a trimmed, non-empty input. */
  function NormalizeTrimmed(input: string): (r: string)
    requires input != ""
    ensures r != ""
  {
    if StartsWith(input, "/") then
      var stripped := StripTrailingSlash(input);
      if stripped == "" then "/" else stripped
    else if HasHttpScheme(input) then
      StripTrailingSlash(input)
    else
      StripTrailingSlash("https://" + input)
  }

  /** The three branches stated on the input: a path keeps its leading "/" and
      loses one trailing slash ("/" itself stays), an http(s) URL loses one
      trailing slash, anything else gets "https://" first. */
  lemma NormalizeTrimmedCases(input: string)
    requires input != ""
    ensures var r := NormalizeTrimmed(input);
      (StartsWith(input, "/") ==>
        StartsWith(r, "/") && (if input == "/" then r == "/" else r == StripTrailingSlash(input)))
      && (!StartsWith(input, "/") && HasHttpScheme(input) ==> r == StripTrailingSlash(input))
      && (!StartsWith(input, "/") && !HasHttpScheme(input) ==>
            r == "https://" + StripTrailingSlash(input))
  {
    if StartsWith(input, "/") {
      var stripped := StripTrailingSlash(input);
      if stripped != "" {
        assert stripped[..1] == input[..1];
      }
    } else if !HasHttpScheme(input) {
      StripAfterPrefix("https://", input);
    }
  }

  /** Only the last character can go, so a prefix is untouched. */
  lemma StripAfterPrefix(p: string, s: string)
    requires s != ""
    ensures StripTrailingSlash(p + s) == p + StripTrailingSlash(s)
  {
    if s[|s| - 1] == '/' {
      assert (p + s)[..|p + s| - 1] == p + s[..|s| - 1];
    }
  }

  /** `normalizeBaseUrl(raw)`: the default for a missing or blank value, otherwise
      the trimmed value through the three branches above. */
  function NormalizeBaseUrl(raw: Option<string>, isDev: bool): (r: string)
    ensures r != ""
    ensures Trim(raw.GetOr("")) == "" ==> r == DefaultBaseUrl(isDev)
    ensures Trim(raw.GetOr("")) != "" ==> r == NormalizeTrimmed(Trim(raw.GetOr("")))
  {
    var input := Trim(raw.GetOr(""));
    if input == "" then DefaultBaseUrl(isDev) else NormalizeTrimmed(input)
  }

  /** An exact lower-case prefix is also a prefix without case. */
  lemma ExactPrefixIgnoringCase(s: string, p: string)
    requires StartsWith(s, p)
    requires forall i :: 0 <= i < |p| ==> !('A' <= p[i] <= 'Z')
    ensures PrefixIgnoringCase(s, p)
  {
    assert forall i :: 0 <= i < |p| ==> s[i] == s[..|p|][i] == p[i];
  }

  /** Dropping a trailing slash keeps an http(s) scheme unless the value is a bare
      scheme. */
  lemma StripKeepsScheme(t: string)
    requires HasHttpScheme(t)
    ensures var r := StripTrailingSlash(t);
      HasHttpScheme(r) || EqualsIgnoringCase(r, "http:/") || EqualsIgnoringCase(r, "https:/")
  {
    var r := StripTrailingSlash(t);
    assert forall i :: 0 <= i < |r| ==> r[i] == t[i];
    if PrefixIgnoringCase(t, "https://") && |t| == 8 {
      assert EqualsIgnoringCase(r, "https:/");
    } else if PrefixIgnoringCase(t, "https://") {
      assert PrefixIgnoringCase(r, "https://");
    } else if |t| == 7 {
      assert EqualsIgnoringCase(r, "http:/");
    } else {
      assert PrefixIgnoringCase(r, "http://");
    }
  }

  /** Every base URL the client can end up with is a root-relative path or keeps an
      http(s) scheme; the only exceptions are a configured value that is a bare
      scheme, which loses its final slash (`http:/`, `https:/`). */
  lemma NormalizedIsRootedOrAbsolute(raw: Option<string>, isDev: bool)
    ensures var r := NormalizeBaseUrl(raw, isDev);
      StartsWith(r, "/") || HasHttpScheme(r)
      || EqualsIgnoringCase(r, "http:/") || EqualsIgnoringCase(r, "https:/")
  {
    var r := NormalizeBaseUrl(raw, isDev);
    var t := Trim(raw.GetOr(""));
    if t == "" {
      if !isDev {
        ExactPrefixIgnoringCase(r, "https://");
      }
    } else if StartsWith(t, "/") {
      NormalizeTrimmedCases(t);
    } else if HasHttpScheme(t) {
      NormalizeTrimmedCases(t);
      StripKeepsScheme(t);
    } else {
      NormalizeTrimmedCases(t);
      assert r[..8] == "https://";
      ExactPrefixIgnoringCase(r, "https://");
    }
  }

  /** Only one trailing slash is removed, so normalising twice can differ from
      normalising once: a path ending in "//", such as "/a//", loses one slash
      each time. */
  lemma NormalizeNotIdempotent(s: string)
    requires |s| >= 3 && s[0] == '/' && s[|s| - 2] == '/' && s[|s| - 1] == '/'
    ensures var once := NormalizeBaseUrl(Some(s), false);
      once == s[..|s| - 1]
      && NormalizeBaseUrl(Some(once), false) == s[..|s| - 2]
      && NormalizeBaseUrl(Some(once), false) != once
  {
    NormalizeRooted(s);
    var once := s[..|s| - 1];
    NormalizeRooted(once);
    assert once[..|once| - 1] == s[..|s| - 2];
  }

  /** A configured value with nothing to trim goes straight to the three branches. */
  lemma NormalizeUntrimmed(s: string, isDev: bool)
    requires s != [] && Trimmed(s)
    ensures NormalizeBaseUrl(Some(s), isDev) == NormalizeTrimmed(s)
  {
    TrimFixesTrimmed(s);
    assert Some(s).GetOr("") == s;
  }

  /** A root-relative path ending in "/" loses exactly that slash. */
  lemma NormalizeRooted(s: string)
    requires |s| >= 2 && s[0] == '/' && s[|s| - 1] == '/'
    ensures NormalizeBaseUrl(Some(s), false) == s[..|s| - 1]
  {
    assert s[..1] == "/";
    assert StartsWith(s, "/") && s != "/";
    NormalizeTrimmedCases(s);
    NormalizeUntrimmed(s, false);
  }

  /** `buildUrl(path)`: an error unless `path` starts with "/"; otherwise the base
      followed by the path. */
  function BuildUrl(base: string, path: string): (r: Result<string, string>)
    ensures r.Ok? <==> StartsWith(path, "/")
    ensures r.Ok? ==> (|r.value| == |base| + |path|
                       && r.value[..|base|] == base && r.value[|base|..] == path)
  {
    if !StartsWith(path, "/") then Err("API path must start with '/'")
    else Ok(base + path)
  }

  datatype Result<+T, +E> = Ok(value: T) | Err(error: E)

  /** A response body: parsed JSON (of which only `message` matters) or raw text. */
  datatype Body = JsonBody(message: Option<string>) | TextBody(text: string)

  /** What `fetch` hands back: the status, the content type, and the body as it
      reads when parsed as JSON and when read as text. */
  datatype Response = Response(status: int, contentType: Option<string>,
                               jsonMessage: Option<string>, text: string)

  /** The error `parseResponse` throws: message, `status` and `data`. */
  datatype HttpError = HttpError(message: string, status: int, data: Body)

  const FALLBACK_MESSAGE: string := "요청을 처리하지 못했습니다."

  /** `response.ok`. */
  predicate IsOk(status: int) {
    200 <= status <= 299
  }

  predicate IsJson(contentType: Option<string>) {
    contentType.Some? && Contains(contentType.value, "application/json")
  }

  /** The body as `parseResponse` reads it. */
  function ReadBody(resp: Response): (b: Body)
    ensures b.JsonBody? <==> IsJson(resp.contentType)
  {
    if IsJson(resp.contentType) then JsonBody(resp.jsonMessage) else TextBody(resp.text)
  }

  /** `parseResponse(response)`: the body for a 2xx status, an error otherwise. */
  function ParseResponse(resp: Response): (r: Result<Body, HttpError>)
    ensures r.Ok? <==> IsOk(resp.status)
    ensures r.Ok? ==> r.value == ReadBody(resp)
    ensures r.Err? ==> r.error.status == resp.status && r.error.data == ReadBody(resp)
    ensures r.Err? ==> r.error.message != ""
    ensures r.Err? && IsJson(resp.contentType) && Present(resp.jsonMessage)
            ==> r.error.message == resp.jsonMessage.value
    ensures r.Err? && !(IsJson(resp.contentType) && Present(resp.jsonMessage))
            ==> r.error.message == FALLBACK_MESSAGE
  {
    var data := ReadBody(resp);
    if !IsOk(resp.status) then
      var message := if data.JsonBody? && Present(data.message) then data.message.value
                     else FALLBACK_MESSAGE;
      Err(HttpError(message, resp.status, data))
    else Ok(data)
  }
}
