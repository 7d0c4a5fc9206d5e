/**
 * The browser's gateway to the remote service (frontend/api.js): the session
 * token kept in memory and mirrored into durable storage, the `Authorization`
 * header, the request URLs with their optional `month` query, the reaction to a
 * 401 response and the error results of `login` and `signup`.
 *
 * The network itself is not modelled: a call is given the status the server
 * answered with, and returns the request it issued.
 */
module Api {
  import opened Wrappers
  import opened Text

  const ApiUrl := "http://127.0.0.1:8000"

  /** The durable-storage key under which the token is kept. */
  const TokenKey := "token"

  const AuthorizationHeader := "Authorization"
  const BearerPrefix := "Bearer "

  /** JavaScript truthiness of a string that may be `null`: neither `null` nor `""`. */
  predicate Truthy(s: Option<string>) {
    s.Some? && s.value != ""
  }

  /** `res.ok`: a status in the 2xx range. */
  predicate IsOk(status: int) {
    200 <= status < 300
  }

  /** The body of a successful `/login` response: `{ access_token, token_type }`. */
  datatype TokenPayload = TokenPayload(accessToken: string, tokenType: string)

  /** The body of a successful `/signup` response. */
  datatype CreatedUser = CreatedUser(id: int, email: string)

  /** The expense form's fields as `createExpense` sends them. */
  datatype Draft = Draft(amount: int, category: string, description: string, date: string, kind: string)

  /** The authenticated calls of the gateway, with their arguments. */
  datatype Endpoint =
    | ListExpenses(month: Option<string>)       // fetchExpenses
    | CreateExpense(draft: Draft)               // createExpense
    | DeleteExpense(id: nat)                    // deleteExpenseById
    | Summary(month: Option<string>)            // fetchSummary
    | SummaryByCategory(month: Option<string>)  // fetchSummaryByCategory
    | SummaryByMonth                            // fetchSummaryByMonth

  /** What a call sends: the HTTP method, the URL and the headers. */
  datatype Request = Request(verb: string, url: string, headers: map<string, string>)

  function Verb(ep: Endpoint): string {
    match ep
    case CreateExpense(_) => "POST"
    case DeleteExpense(_) => "DELETE"
    case _ => "GET"
  }

  function Path(ep: Endpoint): string {
    match ep
    case ListExpenses(_) => "/expenses"
    case CreateExpense(_) => "/expenses"
    case DeleteExpense(id) => "/expenses/" + DecimalString(id)
    case Summary(_) => "/summary"
    case SummaryByCategory(_) => "/summary/category"
    case SummaryByMonth => "/summary/month"
  }

  /** The month filter a call passes on; the month summary takes none. */
  function MonthArgument(ep: Endpoint): Option<string> {
    match ep
    case ListExpenses(m) => m
    case Summary(m) => m
    case SummaryByCategory(m) => m
    case _ => None
  }

  /** The URL of a call to `path` with an optional month filter. */
  function MonthUrl(path: string, month: Option<string>): (url: string)
    ensures StartsWith(url, ApiUrl + path)
    ensures Truthy(month) <==> |url| > |ApiUrl + path|
    ensures Truthy(month) ==> url[|ApiUrl + path|..] == "?month=" + month.value
  {
    ApiUrl + path + if Truthy(month) then "?month=" + month.value else ""
  }

  /** `null` and the empty string both leave the query parameter out. */
  lemma FalsyMonthsAgree(path: string)
    ensures MonthUrl(path, None) == MonthUrl(path, Some("")) == ApiUrl + path
  {
  }

  /** The token carried by an `Authorization` value of the bearer scheme (section 2.1 of RFC 6750). */
  function BearerToken(value: string): Option<string> {
    if StartsWith(value, BearerPrefix) then Some(value[|BearerPrefix|..]) else None
  }

  /** `login`: any status outside 2xx throws "Login failed"; otherwise the token payload. */
  function Login(status: int, payload: TokenPayload): (r: Result<TokenPayload, string>)
    ensures r.Ok? <==> IsOk(status)
    ensures r.Ok? ==> r.value == payload
    ensures r.Err? ==> r.error == "Login failed"
  {
    if !IsOk(status) then Err("Login failed") else Ok(payload)
  }

  /**
   * The `detail` of an error body: missing or `null`, a string (what an
   * `HTTPException` sends), or a list of `count` objects (what FastAPI sends
   * when request validation fails, for instance on a malformed e-mail address).
   */
  datatype Detail = NoDetail | TextDetail(text: string) | ErrorList(count: nat)

  /** `String(list)` for a list of `n` plain objects: their "[object Object]" texts joined by commas. */
  function ObjectListString(n: nat): (s: string)
    ensures s == "" <==> n == 0
    ensures n > 0 ==> StartsWith(s, "[object Object]")
  {
    if n == 0 then ""
    else if n == 1 then "[object Object]"
    else
      var init := ObjectListString(n - 1);
      assert (init + ",[object Object]")[..15] == init[..15];
      init + ",[object Object]"
  }

  /**
   * The message of `new Error(err.detail || "Signup failed")`. A non-empty
   * string is its own message; a missing or empty one gives the fallback; a
   * list is truthy even when empty and turns into its string form, which is
   * empty only for the empty list.
   */
  function SignupMessage(detail: Detail): (m: string)
    ensures detail.TextDetail? && detail.text != "" ==> m == detail.text
    ensures detail.NoDetail? || detail == TextDetail("") ==> m == "Signup failed"
    ensures detail.ErrorList? && detail.count > 0 ==> StartsWith(m, "[object Object]")
    ensures m == "" <==> detail == ErrorList(0)
  {
    match detail
    case NoDetail => "Signup failed"
    case TextDetail(text) => if text != "" then text else "Signup failed"
    case ErrorList(count) => ObjectListString(count)
  }

  /** `signup`: a status outside 2xx throws with the message of the answer's `detail`. */
  function Signup(status: int, detail: Detail, created: CreatedUser): (r: Result<CreatedUser, string>)
    ensures r.Ok? <==> IsOk(status)
    ensures r.Ok? ==> r.value == created
    ensures r.Err? ==> r.error == SignupMessage(detail)
  {
    if !IsOk(status) then Err(SignupMessage(detail)) else Ok(created)
  }

  /** The module-level `token`, its copy in `localStorage`, and the page reloads requested. */
  class Session {
    var token: Option<string>
    var storage: map<string, string>
    /** How many times `window.location.reload()` has been requested. */
    var pageReloads: nat

    /** The token in memory and the durable entry agree. */
    ghost predicate Valid()
      reads this
    {
      && (TokenKey in storage ==> token == Some(storage[TokenKey]))
      && (Truthy(token) ==> TokenKey in storage)
    }

    /** Module start: the in-memory token is read once from storage. */
    constructor (storage: map<string, string>)
      ensures Valid()
      ensures this.storage == storage
      ensures token == if TokenKey in storage then Some(storage[TokenKey]) else None
      ensures pageReloads == 0
    {
      this.storage := storage;
      token := if TokenKey in storage then Some(storage[TokenKey]) else None;
      pageReloads := 0;
    }

    /** `getToken()`: a token that counts as present is the one durable storage holds. */
    function GetToken(): (t: Option<string>)
      reads this
      ensures Valid() && Truthy(t) ==> TokenKey in storage && storage[TokenKey] == t.value
    {
      token
    }

    /** `setToken(t)`: keeps `t` in memory; stores it when truthy, removes the entry otherwise. */
    method SetToken(newToken: Option<string>)
      modifies this
      ensures Valid()
      ensures GetToken() == newToken
      ensures storage == if Truthy(newToken) then old(storage)[TokenKey := newToken.value]
                         else old(storage) - {TokenKey}
      ensures pageReloads == old(pageReloads)
    {
      token := newToken;
      if Truthy(token) {
        storage := storage[TokenKey := token.value];
      } else {
        storage := storage - {TokenKey};
      }
    }

    /** `logout()`: `setToken(null)`. */
    method Logout()
      modifies this
      ensures Valid()
      ensures GetToken() == None && TokenKey !in storage
      ensures storage == old(storage) - {TokenKey}
      ensures pageReloads == old(pageReloads)
    {
      SetToken(None);
    }

    /** `authHeaders()`: a bearer `Authorization` header exactly when a token is present. */
    function AuthHeaders(): (h: map<string, string>)
      reads this
      ensures h.Keys <= {AuthorizationHeader}
      ensures AuthorizationHeader in h <==> Truthy(token)
      ensures AuthorizationHeader in h ==> BearerToken(h[AuthorizationHeader]) == token
    {
      if Truthy(token) then map[AuthorizationHeader := BearerPrefix + token.value] else map[]
    }

    /**
     * One authenticated call: the request is built with the token held when the
     * call starts; a 401 answer logs out and requests a page reload, any other
     * answer leaves the session alone.
     */
    method Send(ep: Endpoint, status: int) returns (req: Request)
      modifies this
      ensures req.verb == Verb(ep)
      ensures req.url == MonthUrl(Path(ep), MonthArgument(ep))
      ensures req.headers == (if ep.CreateExpense? then map["Content-Type" := "application/json"] else map[])
                             + old(AuthHeaders())
      ensures status == 401 ==> token == None && storage == old(storage) - {TokenKey}
                                && pageReloads == old(pageReloads) + 1
      ensures status != 401 ==> token == old(token) && storage == old(storage)
                                && pageReloads == old(pageReloads)
    {
      var url := ApiUrl + Path(ep);
      var month := MonthArgument(ep);
      if Truthy(month) {
        url := url + "?month=" + month.value;
      }
      var headers := AuthHeaders();
      if ep.CreateExpense? {
        headers := map["Content-Type" := "application/json"] + headers;
      }
      req := Request(Verb(ep), url, headers);
      if status == 401 {
        Logout();
        pageReloads := pageReloads + 1;
      }
    }
  }
}
