/** The REST client (`src/lib/apiClient.ts`): the module-level bearer token
    kept in step with `localStorage`, how a request's URL and headers are
    built, and how a response becomes a value or an error message. The
    network itself is left out: a response is an input. */
module ApiClient {
  import opened Wrappers
  import opened Strings
  import opened Js
  import opened WebStorage

  const TokenKey := "renttrack_token"
  const DefaultBaseUrl := "http://localhost:8080/api"
  const AuthorizationHeader := "Authorization"

  /** `import.meta.env.VITE_API_BASE_URL || "http://localhost:8080/api"`. */
  function ApiBaseUrl(env: Option<string>): (r: string)
    ensures Truthy(env) ==> r == env.value
    ensures !Truthy(env) ==> r == DefaultBaseUrl
  {
    Or(env, DefaultBaseUrl)
  }

  /** The headers `fetchJson` sends: the caller's, plus `Authorization: Bearer <token>`
      when the token is a non-empty string, overriding a caller's own value. */
  function RequestHeaders(callerHeaders: map<string, string>, token: Option<string>): (h: map<string, string>)
    ensures AuthorizationHeader in h <==> AuthorizationHeader in callerHeaders || Truthy(token)
    ensures Truthy(token) ==> h[AuthorizationHeader] == "Bearer " + token.value
    ensures forall k :: k in h && k != AuthorizationHeader <==> k in callerHeaders && k != AuthorizationHeader
    ensures forall k :: k in callerHeaders && (k != AuthorizationHeader || !Truthy(token)) ==> h[k] == callerHeaders[k]
  {
    if Truthy(token) then callerHeaders[AuthorizationHeader := "Bearer " + token.value] else callerHeaders
  }

  /** A response body as `res.json()` sees it. */
  datatype Body = Invalid | ObjectBody(fields: Object) | OtherBody(v: Value)

  datatype Response = Response(status: int, body: Body)

  /** `Response.ok`. */
  predicate IsOk(status: int) {
    200 <= status <= 299
  }

  /** `HTTP <status>`, the message used when the body says nothing. */
  function HttpMessage(status: int): string {
    "HTTP " + IntToString(status)
  }

  /** The status can be read back from the fallback message. */
  lemma HttpMessageStatus(status: int)
    ensures StartsWith(HttpMessage(status), "HTTP ")
    ensures NumberOf(HttpMessage(status)[5..]) == Finite(status)
  {
    assert HttpMessage(status)[5..] == IntToString(status);
    NumberOfIntToString(status);
  }

  /** A string field of an error body, when the body is a JSON object. */
  function BodyText(body: Body, key: string): Option<string> {
    if body.ObjectBody? then StrField(body.fields, key) else None
  }

  /** The message `fetchJson` throws for a non-ok response:
      `data.error || data.message || "HTTP <status>"`. */
  function ErrorMessage(status: int, body: Body): string {
    Or(BodyText(body, "error"), Or(BodyText(body, "message"), HttpMessage(status)))
  }

  /** The message `uploadDocument` throws: the same fields tried the other
      way round, `data.message || data.error || "HTTP <status>"`. */
  function UploadErrorMessage(status: int, body: Body): string {
    Or(BodyText(body, "message"), Or(BodyText(body, "error"), HttpMessage(status)))
  }

  /** The error-message choice: the first non-empty string field in precedence
      order, else the status line; a body that is not a JSON object always
      gives the status line. */
  lemma ErrorMessageChoice(status: int, body: Body)
    ensures !body.ObjectBody? ==>
      ErrorMessage(status, body) == HttpMessage(status) && UploadErrorMessage(status, body) == HttpMessage(status)
    ensures Truthy(BodyText(body, "error")) ==> ErrorMessage(status, body) == BodyText(body, "error").value
    ensures !Truthy(BodyText(body, "error")) && Truthy(BodyText(body, "message")) ==>
      ErrorMessage(status, body) == BodyText(body, "message").value
    ensures Truthy(BodyText(body, "message")) ==> UploadErrorMessage(status, body) == BodyText(body, "message").value
    ensures !Truthy(BodyText(body, "error")) && !Truthy(BodyText(body, "message")) ==>
      ErrorMessage(status, body) == HttpMessage(status) && UploadErrorMessage(status, body) == HttpMessage(status)
  {
  }

  /** The two helpers pick the same message unless the body carries two
      different non-empty `error` and `message` strings. */
  lemma ErrorMessagesDiffer(status: int, body: Body)
    ensures ErrorMessage(status, body) != UploadErrorMessage(status, body) <==>
      Truthy(BodyText(body, "error")) && Truthy(BodyText(body, "message"))
      && BodyText(body, "error").value != BodyText(body, "message").value
  {
  }

  /** What a request settles to. */
  datatype FetchResult = Data(body: Body) | NoContent | HttpError(message: string) | BadJson

  /** `fetchJson`'s treatment of a response: non-ok responses throw the chosen
      message, 204 yields `null`, anything else is the parsed body. */
  function FetchJson(resp: Response): (r: FetchResult)
    ensures r.HttpError? <==> !IsOk(resp.status)
    ensures r.HttpError? ==> r.message == ErrorMessage(resp.status, resp.body)
    ensures r == NoContent <==> resp.status == 204
    ensures r == BadJson <==> IsOk(resp.status) && resp.status != 204 && resp.body.Invalid?
    ensures IsOk(resp.status) && resp.status != 204 && !resp.body.Invalid? ==> r == Data(resp.body)
    ensures r.Data? ==> IsOk(resp.status) && resp.status != 204 && r.body == resp.body
  {
    if !IsOk(resp.status) then HttpError(ErrorMessage(resp.status, resp.body))
    else if resp.status == 204 then NoContent
    else if resp.body.Invalid? then BadJson
    else Data(resp.body)
  }

  /** `uploadDocument`'s treatment of a response: no special case for 204. */
  function UploadResult(resp: Response): (r: FetchResult)
    ensures r.HttpError? <==> !IsOk(resp.status)
    ensures r.HttpError? ==> r.message == UploadErrorMessage(resp.status, resp.body)
    ensures r != NoContent
    ensures r == BadJson <==> IsOk(resp.status) && resp.body.Invalid?
    ensures IsOk(resp.status) && !resp.body.Invalid? ==> r == Data(resp.body)
  {
    if !IsOk(resp.status) then HttpError(UploadErrorMessage(resp.status, resp.body))
    else if resp.body.Invalid? then BadJson
    else Data(resp.body)
  }

  /** The module state of `apiClient.ts`: `authToken`, initialised from storage
      when the module loads, and the base URL. */
  class Client {
    var authToken: Option<string>
    const storage: Storage
    const baseUrl: string

    constructor (storage: Storage, env: Option<string>)
      ensures this.storage == storage && baseUrl == ApiBaseUrl(env)
      ensures authToken == storage.GetItem(TokenKey)
    {
      this.storage := storage;
      baseUrl := ApiBaseUrl(env);
      authToken := storage.GetItem(TokenKey);
    }

    /** The token field and the stored token key agree. */
    predicate InSync()
      reads this, storage
    {
      authToken == storage.GetItem(TokenKey)
    }

    /** `setToken(token)`: field and storage key both become `token`. */
    method SetToken(token: string)
      modifies this, storage
      ensures authToken == Some(token)
      ensures storage.items == old(storage.items)[TokenKey := token]
      ensures InSync()
    {
      authToken := Some(token);
      storage.SetItem(TokenKey, token);
    }

    /** `clearToken()`: field nulled and storage key removed. */
    method ClearToken()
      modifies this, storage
      ensures authToken == None
      ensures storage.items == old(storage.items) - {TokenKey}
      ensures InSync()
    {
      authToken := None;
      storage.RemoveItem(TokenKey);
    }

    /** `${API_BASE_URL}${path}`. */
    function Url(path: string): (url: string)
      reads this
      ensures StartsWith(url, baseUrl) && url[|baseUrl|..] == path
    {
      baseUrl + path
    }

    /** The headers of a request made now. */
    function Headers(callerHeaders: map<string, string>): map<string, string>
      reads this
    {
      RequestHeaders(callerHeaders, authToken)
    }

    /** `uploadDocument` posts to `/uploads` with only the Authorization header. */
    function UploadHeaders(): (h: map<string, string>)
      reads this
      ensures h.Keys == if Truthy(authToken) then {AuthorizationHeader} else {}
      ensures Truthy(authToken) ==> h[AuthorizationHeader] == "Bearer " + authToken.value
    {
      RequestHeaders(map[], authToken)
    }
  }
}
