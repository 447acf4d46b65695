// GitHub sign-in (`GitHubAuth` in github/auth.py): the authorization-code
// flow of section 4.1 of RFC 6749. The application sends the browser to
// GitHub's authorize URL with a fresh `state`, a local server takes the
// redirect back and keeps its `code` when the `state` matches (section
// 10.12 of RFC 6749), and the code is exchanged for an access token, which
// then fetches the user's profile.
//
// The random state, the ports that can be bound, the requests the local
// server receives before the wait ends and GitHub's two answers are
// parameters; the browser, the progress dialog and the threads are not
// modelled.
module GitHubAuthentication {
  import opened Wrappers
  import opened Text
  import opened JsonData
  import opened UrlEncoding
  import Settings

  const AuthorizeBase := "https://github.com/login/oauth/authorize"

  /** The parameters of the authorize URL, in the order the source's dictionary lists them. */
  function AuthorizeParams(clientId: string, redirectUri: string, scope: string, state: string): seq<(string, string)>
  {
    [("client_id", clientId), ("redirect_uri", redirectUri), ("scope", scope), ("state", state), ("response_type", "code")]
  }

  /** `f"{base_url}?{urlencode(params)}"`. */
  function AuthorizeUrl(clientId: string, redirectUri: string, scope: string, state: string): string
  {
    AuthorizeBase + "?" + UrlEncode(AuthorizeParams(clientId, redirectUri, scope, state))
  }

  /** A text parameter as a query carries it: present exactly when it is not empty. */
  function Given(v: string): Option<string>
  {
    if v == [] then None else Some(v)
  }

  /**
   * What GitHub reads from the authorize URL: `response_type=code`, and the
   * client id, redirect URI, scope and state as given (each one that is not
   * empty), per section 4.1.1 of RFC 6749.
   */
  lemma AuthorizeUrlCarriesParams(clientId: string, redirectUri: string, scope: string, state: string)
    ensures var ps := ParseQsl(QueryOf(AuthorizeUrl(clientId, redirectUri, scope, state)));
      FirstValue(ps, "response_type") == Some("code") &&
      FirstValue(ps, "client_id") == Given(clientId) &&
      FirstValue(ps, "redirect_uri") == Given(redirectUri) &&
      FirstValue(ps, "scope") == Given(scope) &&
      FirstValue(ps, "state") == Given(state)
  {
    var params := AuthorizeParams(clientId, redirectUri, scope, state);
    AuthorizeQuery(clientId, redirectUri, scope, state);
    AuthorizeNamesDistinct(clientId, redirectUri, scope, state);
    FieldOf(params, 0);
    FieldOf(params, 1);
    FieldOf(params, 2);
    FieldOf(params, 3);
    FieldOf(params, 4);
  }

  lemma AuthorizeQuery(clientId: string, redirectUri: string, scope: string, state: string)
    ensures ParseQsl(QueryOf(AuthorizeUrl(clientId, redirectUri, scope, state))) == NonBlank(AuthorizeParams(clientId, redirectUri, scope, state))
  {
    var params := AuthorizeParams(clientId, redirectUri, scope, state);
    QueryOfEncoded(AuthorizeBase, params);
    ParseEncoded(params);
  }

  /** No two parameters share a name. */
  predicate DistinctNames(params: seq<(string, string)>)
  {
    forall j, k | 0 <= j < k < |params| :: params[j].0 != params[k].0
  }

  lemma AuthorizeNamesDistinct(clientId: string, redirectUri: string, scope: string, state: string)
    ensures DistinctNames(AuthorizeParams(clientId, redirectUri, scope, state))
  {
    var params := AuthorizeParams(clientId, redirectUri, scope, state);
    forall j, k | 0 <= j < k < |params|
      ensures params[j].0 != params[k].0
    {
      assert "scope"[1] != "state"[1];
      if j == 0 {
      } else if j == 1 {
      } else if j == 2 {
      } else {
      }
    }
  }

  /** Among parameters with distinct names, each one's name reads back its value when it has one. */
  lemma {:induction false} FieldOf(params: seq<(string, string)>, i: int)
    requires 0 <= i < |params| && DistinctNames(params)
    ensures FirstValue(NonBlank(params), params[i].0) == Given(params[i].1)
  {
    var name := params[i].0;
    if i == 0 {
      if params[0].1 == [] {
        forall j | 0 <= j < |params[1..]|
          ensures params[1..][j].0 != name
        {
          assert params[1..][j] == params[j + 1];
        }
        Absent(params[1..], name);
      }
    } else {
      assert params[1..][i - 1] == params[i];
      assert params[0].0 != name;
      FieldOf(params[1..], i - 1);
    }
  }

  lemma {:induction false} Absent(params: seq<(string, string)>, name: string)
    requires forall j | 0 <= j < |params| :: params[j].0 != name
    ensures FirstValue(NonBlank(params), name) == None
  {
    if params != [] {
      Absent(params[1..], name);
    }
  }

  // ------------------------------------------------------------ the redirect back

  datatype CallbackReply = Rejected(status: int, reason: string) | Accepted(code: string)

  /**
   * The callback handler's decision on a request path: 400 when the query's
   * first `state` (or '' without one) differs from the stored state, 400
   * when there is no code, and the code otherwise.
   */
  function CallbackDecision(expected: Option<string>, path: string): (r: CallbackReply)
    ensures expected.None? ==> r == Rejected(400, "Invalid state parameter")
    ensures r.Accepted? ==> r.code != [] && expected == Some(FirstValue(ParseQsl(QueryOf(path)), "state").GetOr(""))
  {
    var params := ParseQsl(QueryOf(path));
    var returned := FirstValue(params, "state").GetOr("");
    if expected != Some(returned) then Rejected(400, "Invalid state parameter")
    else
      var code := FirstValue(params, "code").GetOr("");
      if code == [] then Rejected(400, "No authorization code received") else Accepted(code)
  }

  /** The path GitHub redirects the browser to: the callback path with the code and the state, per section 4.1.2 of RFC 6749. */
  function RedirectPath(path: string, code: string, state: string): string
  {
    path + "?" + UrlEncode([("code", code), ("state", state)])
  }

  /**
   * A redirect is accepted exactly when it brings back the stored state and
   * a code, and then the code kept is the one GitHub sent.
   */
  lemma CallbackAcceptsOwnState(path: string, expected: string, code: string, state: string)
    requires '?' !in path && '#' !in path
    ensures CallbackDecision(Some(expected), RedirectPath(path, code, state)).Accepted? <==> expected == state && code != []
    ensures CallbackDecision(Some(expected), RedirectPath(path, code, state)).Accepted? ==>
      CallbackDecision(Some(expected), RedirectPath(path, code, state)).code == code
  {
    var params := [("code", code), ("state", state)];
    QueryOfEncoded(path, params);
    ParseEncoded(params);
    assert "code" != "state";
    FieldOf(params, 0);
    FieldOf(params, 1);
  }

  /** The code held after the wait's requests: a code already held stops the wait, otherwise each accepted request stores its code. */
  function CodeAfter(state: Option<string>, requests: seq<string>, code: Option<string>): Option<string>
    decreases |requests|
  {
    if HasCode(code) || requests == [] then code
    else
      var d := CallbackDecision(state, requests[0]);
      CodeAfter(state, requests[1..], if d.Accepted? then Some(d.code) else code)
  }

  /** `if self.auth_code`. */
  predicate HasCode(code: Option<string>)
  {
    code.Some? && code.value != []
  }

  /** Whether the request at `i` is accepted under `state`. */
  predicate AcceptedAt(state: Option<string>, requests: seq<string>, i: int)
    requires 0 <= i < |requests|
  {
    CallbackDecision(state, requests[i]).Accepted?
  }

  /** Starting without a code, the wait ends with the code of the first request accepted. */
  lemma {:induction false} WaitTakesFirstAccepted(state: Option<string>, requests: seq<string>, code: Option<string>, i: int)
    requires !HasCode(code) && 0 <= i < |requests| && AcceptedAt(state, requests, i)
    requires forall j | 0 <= j < i :: !AcceptedAt(state, requests, j)
    ensures CodeAfter(state, requests, code) == Some(CallbackDecision(state, requests[i]).code)
  {
    if i > 0 {
      assert !AcceptedAt(state, requests, 0);
      forall j | 0 <= j < i - 1
        ensures !AcceptedAt(state, requests[1..], j)
      {
        assert !AcceptedAt(state, requests, j + 1);
        assert requests[1..][j] == requests[j + 1];
      }
      assert requests[1..][i - 1] == requests[i];
      WaitTakesFirstAccepted(state, requests[1..], code, i - 1);
    }
  }

  /** When no request is accepted, the wait ends with the code it started with, so without one. */
  lemma {:induction false} WaitWithoutAcceptedKeepsCode(state: Option<string>, requests: seq<string>, code: Option<string>)
    requires !HasCode(code)
    requires forall j | 0 <= j < |requests| :: !AcceptedAt(state, requests, j)
    ensures CodeAfter(state, requests, code) == code
  {
    if requests != [] {
      assert !AcceptedAt(state, requests, 0);
      forall j | 0 <= j < |requests| - 1
        ensures !AcceptedAt(state, requests[1..], j)
      {
        assert !AcceptedAt(state, requests, j + 1);
        assert requests[1..][j] == requests[j + 1];
      }
      WaitWithoutAcceptedKeepsCode(state, requests[1..], code);
    }
  }

  /** GitHub's redirect with the state sent and a code ends the wait with that code. */
  lemma RedirectEndsWait(path: string, state: string, code: string)
    requires '?' !in path && '#' !in path && code != []
    ensures CodeAfter(Some(state), [RedirectPath(path, code, state)], None) == Some(code)
  {
    CallbackAcceptsOwnState(path, state, code, state);
  }

  // ------------------------------------------------------------ GitHub's answers

  /** An HTTP exchange with GitHub: the status and the decoded JSON body, or an exception (no connection, a body that is not JSON). */
  datatype Reply = Answered(status: int, body: Json) | Raised(error: string)

  /** Values the log line's `[:20]` can slice: text, lists, and anything not truthy (which is not sliced). */
  predicate Sliceable(j: Json)
  {
    !Truthy(j) || j.JStr? || j.JList?
  }

  /** The token exchange stores the answer's `access_token` once a 200 answer is a JSON object. */
  predicate StoresToken(reply: Reply)
  {
    reply.Answered? && reply.status == 200 && reply.body.JObj?
  }

  /** `_exchange_code_for_token` succeeds: a 200 JSON object without `error`, whose token (if any) the log line can slice. */
  predicate TokenAccepted(reply: Reply)
  {
    StoresToken(reply) && Sliceable(Opt(reply.body.fields, "access_token")) && "error" !in reply.body.fields
  }

  /** Some port from `start` to `start + 9` can be bound. */
  predicate PortFree(start: int, free: set<int>)
  {
    exists p | start <= p < start + 10 :: p in free
  }

  function PortError(start: int): string
  {
    "No available port found in range " + IntText(start) + "-" + IntText(start + 9)
  }

  /** A text setting as read; any other value reads as empty. */
  function TextSetting(v: Settings.Value): string
  {
    if v.Leaf? && v.atom.AStr? then v.atom.s else ""
  }

  class GitHubAuth {
    const clientId: string
    const clientSecret: string
    const redirectUri: string
    const scope: string
    /** The state sent with the last authorize URL. */
    var state: Option<string>
    var authCode: Option<string>
    var accessToken: Json
    var userData: Json
    /** The port of the running callback server, if any. */
    var serverPort: Option<int>

    /** Reads the OAuth client settings under `github.`; nothing is held yet. */
    constructor (settings: Settings.Settings)
      requires settings.Valid()
      ensures clientId == TextSetting(settings.ValueUnder(["github", "client_id"], Settings.S("")))
      ensures clientSecret == TextSetting(settings.ValueUnder(["github", "client_secret"], Settings.S("")))
      ensures redirectUri == TextSetting(settings.ValueUnder(["github", "redirect_uri"], Settings.S("http://localhost:8080/callback")))
      ensures scope == TextSetting(settings.ValueUnder(["github", "scope"], Settings.S("read:user repo")))
      ensures state == None && authCode == None && accessToken == JNull && userData == JNull && serverPort == None
    {
      clientId := TextSetting(settings.ValueUnder(["github", "client_id"], Settings.S("")));
      clientSecret := TextSetting(settings.ValueUnder(["github", "client_secret"], Settings.S("")));
      redirectUri := TextSetting(settings.ValueUnder(["github", "redirect_uri"], Settings.S("http://localhost:8080/callback")));
      scope := TextSetting(settings.ValueUnder(["github", "scope"], Settings.S("read:user repo")));
      state := None;
      authCode := None;
      accessToken := JNull;
      userData := JNull;
      serverPort := None;
    }

    /** `is_configured`. */
    predicate IsConfigured()
    {
      clientId != [] && clientSecret != []
    }

    /** `is_authenticated`. */
    predicate IsAuthenticated()
      reads this
    {
      Truthy(accessToken) && Truthy(userData)
    }

    /** `get_user_info`: the user data, or an empty object when there is none. */
    function UserInfo(): (r: Json)
      reads this
      ensures Truthy(r) <==> Truthy(userData)
      ensures Truthy(r) ==> r == userData
    {
      if Truthy(userData) then userData else JObj(map[])
    }

    /**
     * `get_authorization_url`, with `token` the value `secrets.token_urlsafe`
     * draws: ValueError when unconfigured; otherwise the token becomes the
     * state and the URL carries it.
     */
    method GetAuthorizationUrl(token: string) returns (r: Result<string>)
      modifies this`state
      ensures !IsConfigured() ==> r == Failure("GitHub OAuth is not configured. Please set client_id and client_secret.") && state == old(state)
      ensures IsConfigured() ==> state == Some(token) && r == Success(AuthorizeUrl(clientId, redirectUri, scope, token))
    {
      if !IsConfigured() {
        return Failure("GitHub OAuth is not configured. Please set client_id and client_secret.");
      }
      state := Some(token);
      var params := [("client_id", clientId), ("redirect_uri", redirectUri), ("scope", scope), ("state", token), ("response_type", "code")];
      r := Success(AuthorizeBase + "?" + UrlEncode(params));
    }

    /**
     * The part of `authenticate` that builds the authorize URL for the
     * browser; opening the browser is not modelled, so what remains is the
     * new state.
     */
    method SendToGitHub(token: string)
      requires IsConfigured()
      modifies this`state
      ensures state == Some(token)
    {
      var url := GetAuthorizationUrl(token);
    }

    /**
     * The callback handler's `do_GET` as intended: decides on the request
     * and, when it accepts, stores the code.
     */
    method HandleCallback(path: string) returns (r: CallbackReply)
      modifies this`authCode
      ensures r == CallbackDecision(state, path)
      ensures authCode == if r.Accepted? then Some(r.code) else old(authCode)
    {
      r := CallbackDecision(state, path);
      if r.Accepted? {
        authCode := Some(r.code);
      }
    }

    /**
     * `do_GET` as written: its first statement reads `self.logger` on the
     * handler, which only `log_message` assigns, so every request raises
     * AttributeError before the state is looked at and no code is stored.
     */
    method HandleCallbackAsWritten(path: string) returns (r: Result<CallbackReply>)
      ensures r == Failure("AttributeError: 'CallbackHandler' object has no attribute 'logger'")
    {
      r := Failure("AttributeError: 'CallbackHandler' object has no attribute 'logger'");
    }

    /** `_find_available_port`: the first port from `start` to `start + 9` that can be bound, tried in order. */
    method FindAvailablePort(start: int, free: set<int>) returns (r: Result<int>)
      ensures r.Success? <==> PortFree(start, free)
      ensures r.Success? ==> start <= r.value < start + 10 && r.value in free && forall q | start <= q < r.value :: q !in free
      ensures r.Failure? ==> r.error == PortError(start)
    {
      var port := start;
      while port < start + 10
        invariant start <= port <= start + 10
        invariant forall q | start <= q < port :: q !in free
      {
        if port in free {
          return Success(port);
        }
        port := port + 1;
      }
      return Failure(PortError(start));
    }

    /** `_start_callback_server`: the server listens on the first free port from 8080, or RuntimeError. */
    method StartCallbackServer(free: set<int>) returns (r: Result<int>)
      modifies this`serverPort
      ensures r.Success? <==> PortFree(8080, free)
      ensures serverPort == if r.Success? then Some(r.value) else old(serverPort)
    {
      r := FindAvailablePort(8080, free);
      if r.Success? {
        serverPort := Some(r.value);
      }
    }

    /** `_stop_callback_server`. */
    method StopCallbackServer()
      modifies this`serverPort
      ensures serverPort == None
    {
      serverPort := None;
    }

    /**
     * `_wait_for_authentication` with the intended handler: the requests the
     * server handles until a code is held; TimeoutError when none is.
     */
    method WaitForAuthentication(requests: seq<string>) returns (r: Result<()>)
      modifies this`authCode
      ensures authCode == CodeAfter(state, requests, old(authCode))
      ensures r.Success? <==> HasCode(authCode)
      ensures r.Failure? ==> r.error == "Authentication timeout - no authorization code received"
    {
      var i := 0;
      while i < |requests| && !HasCode(authCode)
        invariant 0 <= i <= |requests|
        invariant CodeAfter(state, requests, old(authCode)) == CodeAfter(state, requests[i..], authCode)
      {
        assert requests[i..][1..] == requests[i + 1..];
        var _ := HandleCallback(requests[i]);
        i := i + 1;
      }
      if !HasCode(authCode) {
        return Failure("Authentication timeout - no authorization code received");
      }
      return Success(());
    }

    /** `_wait_for_authentication` as written: every request fails in the handler, so only a code already held ends the wait. */
    method WaitForAuthenticationAsWritten(requests: seq<string>) returns (r: Result<()>)
      ensures r.Success? <==> HasCode(authCode)
      ensures r.Failure? ==> r.error == "Authentication timeout - no authorization code received"
    {
      var i := 0;
      while i < |requests| && !HasCode(authCode)
        invariant 0 <= i <= |requests|
      {
        var _ := HandleCallbackAsWritten(requests[i]);
        i := i + 1;
      }
      if !HasCode(authCode) {
        return Failure("Authentication timeout - no authorization code received");
      }
      return Success(());
    }

    /**
     * `_exchange_code_for_token` with GitHub's answer: False without a code;
     * a 200 JSON object's `access_token` is stored, and the exchange succeeds
     * when it holds no `error`.
     */
    method ExchangeCodeForToken(reply: Reply) returns (ok: bool)
      modifies this`accessToken
      ensures ok <==> HasCode(authCode) && TokenAccepted(reply)
      ensures accessToken == if HasCode(authCode) && StoresToken(reply) then Opt(reply.body.fields, "access_token") else old(accessToken)
    {
      if !HasCode(authCode) {
        return false;
      }
      if reply.Raised? || reply.status != 200 || !reply.body.JObj? {
        return false;
      }
      accessToken := Opt(reply.body.fields, "access_token");
      if !Sliceable(accessToken) {
        // the log line's `[:20]` raises TypeError, which the handler turns into False
        return false;
      }
      if "error" in reply.body.fields {
        return false;
      }
      return true;
    }

    /**
     * `_get_user_data` with GitHub's answer: False without a token; a 200
     * answer is stored as the user data and counts when it is a JSON object.
     */
    method GetUserData(reply: Reply) returns (ok: bool)
      modifies this`userData
      ensures ok <==> Truthy(accessToken) && Sliceable(accessToken) && reply.Answered? && reply.status == 200 && reply.body.JObj?
      ensures userData == if Truthy(accessToken) && Sliceable(accessToken) && reply.Answered? && reply.status == 200 then reply.body else old(userData)
    {
      if !Truthy(accessToken) || !Sliceable(accessToken) {
        return false;
      }
      if reply.Raised? || reply.status != 200 {
        return false;
      }
      userData := reply.body;
      // `.get('login')` on anything but an object raises, and the handler turns that into False
      ok := reply.body.JObj?;
    }

    /**
     * The `try` block of `authenticate` with the intended callback handler:
     * True exactly when a port is free, the wait ends with a code and the
     * code is exchanged for a token. The user data is fetched after the
     * exchange, but its outcome does not change the result.
     */
    method SignIn(token: string, free: set<int>, requests: seq<string>, tokenReply: Reply, userReply: Reply)
      returns (ok: bool)
      requires IsConfigured()
      modifies this`state, this`authCode, this`accessToken, this`userData, this`serverPort
      ensures PortFree(8080, free) ==> state == Some(token) && authCode == CodeAfter(Some(token), requests, old(authCode))
      ensures ok <==> PortFree(8080, free) && HasCode(CodeAfter(Some(token), requests, old(authCode))) && TokenAccepted(tokenReply)
    {
      var started := StartCallbackServer(free);
      if started.Failure? {
        return false;
      }
      SendToGitHub(token);
      var waited := WaitForAuthentication(requests);
      if waited.Failure? {
        return false;
      }
      ok := Complete(tokenReply, userReply);
    }

    /** The steps of `authenticate` after the code arrives: the exchange, then the user data when the exchange succeeded. */
    method Complete(tokenReply: Reply, userReply: Reply) returns (ok: bool)
      requires HasCode(authCode)
      modifies this`accessToken, this`userData
      ensures ok <==> TokenAccepted(tokenReply)
    {
      ok := ExchangeCodeForToken(tokenReply);
      if ok {
        var _ := GetUserData(userReply);
      }
    }

    /**
     * `authenticate` with the intended callback handler: ValueError when
     * unconfigured; otherwise the outcome of the sign-in, with the server
     * stopped however it ends.
     */
    method Authenticate(token: string, free: set<int>, requests: seq<string>, tokenReply: Reply, userReply: Reply)
      returns (r: Result<bool>)
      modifies this`state, this`authCode, this`accessToken, this`userData, this`serverPort
      ensures !IsConfigured() ==> r == Failure("GitHub OAuth is not configured") && state == old(state) && authCode == old(authCode) && serverPort == old(serverPort)
      ensures IsConfigured() ==> r.Success? && serverPort == None
      ensures IsConfigured() && PortFree(8080, free) ==> state == Some(token) && authCode == CodeAfter(Some(token), requests, old(authCode))
      ensures r == Success(true) <==> IsConfigured() && PortFree(8080, free) && HasCode(CodeAfter(Some(token), requests, old(authCode))) && TokenAccepted(tokenReply)
    {
      if !IsConfigured() {
        return Failure("GitHub OAuth is not configured");
      }
      var ok := SignIn(token, free, requests, tokenReply, userReply);
      StopCallbackServer();
      return Success(ok);
    }

    /**
     * `authenticate` as written: the callback handler fails on every
     * request, so a sign-in that does not start with a code already held
     * never succeeds.
     */
    method AuthenticateAsWritten(token: string, free: set<int>, requests: seq<string>, tokenReply: Reply, userReply: Reply)
      returns (r: Result<bool>)
      modifies this`state, this`authCode, this`accessToken, this`userData, this`serverPort
      ensures !IsConfigured() ==> r == Failure("GitHub OAuth is not configured")
      ensures !HasCode(old(authCode)) ==> r != Success(true)
      ensures authCode == old(authCode)
    {
      if !IsConfigured() {
        return Failure("GitHub OAuth is not configured");
      }
      var started := StartCallbackServer(free);
      if started.Failure? {
        StopCallbackServer();
        return Success(false);
      }
      SendToGitHub(token);
      var waited := WaitForAuthenticationAsWritten(requests);
      if waited.Failure? {
        StopCallbackServer();
        return Success(false);
      }
      var ok := Complete(tokenReply, userReply);
      StopCallbackServer();
      return Success(ok);
    }

    /** `logout`: every credential is cleared, so the user is no longer authenticated and the user info is empty. */
    method Logout()
      modifies this`accessToken, this`userData, this`authCode, this`state
      ensures accessToken == JNull && userData == JNull && authCode == None && state == None
      ensures !IsAuthenticated() && UserInfo() == JObj(map[])
    {
      accessToken := JNull;
      userData := JNull;
      authCode := None;
      state := None;
    }

    /** `refresh_token`: GitHub OAuth apps cannot refresh a token, so this always answers False. */
    method RefreshToken() returns (ok: bool)
      ensures !ok
    {
      ok := false;
    }
  }
}
