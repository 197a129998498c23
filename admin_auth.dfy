/**
 * Admin authentication: a fixed-credential login that issues a signed
 * token, the token check, and the request guard that lets a handler run
 * only for a request bearing an admin token. Signing and verifying tokens
 * are the JWT library's business and are inputs here.
 */
module AdminAuth {
  import opened Wrappers

  datatype Credentials = Credentials(email: string, password: string)

  const DefaultCredentials: Credentials := Credentials("admin@tastevision.com", "admin123")

  /** `process.env.X || fallback`: an unset or empty variable gives the fallback. */
  function EnvOr(variable: Option<string>, fallback: string): (r: string)
    ensures variable.None? || variable == Some("") ==> r == fallback
    ensures variable.Some? && variable.value != "" ==> r == variable.value
    ensures r == "" ==> fallback == ""
  {
    if variable.Some? && variable.value != "" then variable.value else fallback
  }

  /** `ADMIN_CREDENTIALS`, from `ADMIN_EMAIL` and `ADMIN_PASSWORD`. */
  function ConfiguredCredentials(adminEmail: Option<string>, adminPassword: Option<string>): (c: Credentials)
    ensures adminEmail.None? || adminEmail == Some("") ==> c.email == "admin@tastevision.com"
    ensures adminPassword.None? || adminPassword == Some("") ==> c.password == "admin123"
    ensures adminEmail.Some? && adminEmail.value != "" ==> c.email == adminEmail.value
    ensures adminPassword.Some? && adminPassword.value != "" ==> c.password == adminPassword.value
  {
    Credentials(EnvOr(adminEmail, DefaultCredentials.email), EnvOr(adminPassword, DefaultCredentials.password))
  }

  /** The payload of a token, as decoded: either field may be absent. */
  datatype Claims = Claims(email: Option<string>, role: Option<string>)

  /** `{ success: true, token }`, `{ success: false, error }`, or the exception `jwt.sign` raised. */
  datatype LoginResult = LoggedIn(token: string) | Rejected(error: string) | SigningThrew

  /**
   * `authenticateAdmin`; `sign` stands for `jwt.sign` with the server key and a
   * 24-hour expiry (None: it threw, as it does when `SUPABASE_SERVICE_ROLE_KEY`
   * is unset). Nothing catches that exception.
   */
  function AuthenticateAdmin(config: Credentials, email: string, password: string, sign: Claims -> Option<string>): (r: LoginResult)
    ensures r.Rejected? <==> !(email == config.email && password == config.password)
    ensures r.Rejected? ==> r.error == "Invalid credentials"
    // with the right credentials the outcome is the signer's: a token for `{email, role: 'admin'}`, or its exception
    ensures r.LoggedIn? <==>
              email == config.email && password == config.password && sign(Claims(Some(email), Some("admin"))).Some?
    ensures r.LoggedIn? ==> r.token == sign(Claims(Some(email), Some("admin"))).value
    ensures r.SigningThrew? <==>
              email == config.email && password == config.password && sign(Claims(Some(email), Some("admin"))).None?
  {
    if email == config.email && password == config.password then
      match sign(Claims(Some(email), Some("admin")))
      case Some(token) => LoggedIn(token)
      case None => SigningThrew
    else Rejected("Invalid credentials")
  }

  /**
   * `verifyAdminToken`; `verify` stands for `jwt.verify` with the server key
   * (None: it threw, for a bad signature or an expired token). Never throws.
   */
  predicate VerifyAdminToken(token: string, verify: string -> Option<Claims>): (ok: bool)
    // a token the library rejects is refused, not an error
    ensures verify(token).None? ==> !ok
    // a decoded token is accepted exactly for the admin role; the email plays no part
    ensures verify(token).Some? ==> (ok <==> verify(token).value.role == Some("admin"))
  {
    verify(token).Some? && verify(token).value.role == Some("admin")
  }

  /** `pattern` occurs in `s` at `j`. */
  predicate OccursAt(s: string, pattern: string, j: nat) {
    j + |pattern| <= |s| && s[j..j + |pattern|] == pattern
  }

  /** The first occurrence of `pattern` in `s` (`indexOf`). */
  function FindFirst(s: string, pattern: string): (r: Option<nat>)
    decreases |s|
    ensures r.Some? ==> OccursAt(s, pattern, r.value) && forall j: nat :: j < r.value ==> !OccursAt(s, pattern, j)
    ensures r.None? ==> forall j: nat :: !OccursAt(s, pattern, j)
  {
    if |s| < |pattern| then None
    else if s[..|pattern|] == pattern then Some(0)
    else
      var r := FindFirst(s[1..], pattern);
      assert forall j: nat :: 1 <= j ==> (OccursAt(s, pattern, j) <==> OccursAt(s[1..], pattern, j - 1)) by {
        forall j: nat | 1 <= j ensures OccursAt(s, pattern, j) <==> OccursAt(s[1..], pattern, j - 1) {
          if j + |pattern| <= |s| {
            assert s[1..][j - 1..j - 1 + |pattern|] == s[j..j + |pattern|];
          }
        }
      }
      assert !OccursAt(s, pattern, 0);
      match r
      case None => None
      case Some(k) => Some(k + 1)
  }

  /** `s.replace(pattern, replacement)` with a string pattern: only the first occurrence is replaced. */
  function ReplaceFirst(s: string, pattern: string, replacement: string): (r: string)
    ensures FindFirst(s, pattern).None? ==> r == s
    ensures FindFirst(s, pattern).Some? ==>
              var i := FindFirst(s, pattern).value;
              r == s[..i] + replacement + s[i + |pattern|..]
  {
    match FindFirst(s, pattern)
    case None => s
    case Some(i) => s[..i] + replacement + s[i + |pattern|..]
  }

  /** `req.headers.authorization?.replace('Bearer ', '')`. */
  function BearerToken(authorization: Option<string>): (r: Option<string>)
    ensures r.None? <==> authorization.None?
    // the header comes through unchanged exactly when `Bearer ` occurs nowhere in it
    ensures authorization.Some? ==>
              (r.value == authorization.value <==> forall j: nat :: !OccursAt(authorization.value, "Bearer ", j))
    // otherwise exactly those seven characters go
    ensures authorization.Some? && r.value != authorization.value ==> |r.value| == |authorization.value| - 7
    // and the seven that go are the first occurrence of `Bearer `, wherever it stands
    ensures authorization.Some? && FindFirst(authorization.value, "Bearer ").Some? ==>
              var i := FindFirst(authorization.value, "Bearer ").value;
              r.value == authorization.value[..i] + authorization.value[i + 7..]
  {
    match authorization
    case None => None
    case Some(header) => Some(ReplaceFirst(header, "Bearer ", ""))
  }

  datatype Request = Request(authorization: Option<string>)

  /** The guard's test: a token is present, non-empty, and verifies as an admin token. */
  predicate Admits(req: Request, verify: string -> Option<Claims>) {
    var token := BearerToken(req.authorization);
    token.Some? && token.value != "" && VerifyAdminToken(token.value, verify)
  }

  /** The wrapped handler's answer: the 401 `{ error: 'Unauthorized' }`, or whatever the handler returns. */
  datatype Reply<R> = Unauthorized | Handled(response: R)

  /** `requireAdminAuth(handler)` applied to a request. */
  function RequireAdminAuth<R>(handler: Request -> R, req: Request, verify: string -> Option<Claims>): (r: Reply<R>)
    // the handler runs exactly when the guard admits the request, and its answer is passed through
    ensures r.Handled? <==> Admits(req, verify)
    ensures r.Handled? ==> r.response == handler(req)
    // a missing header or an empty token is refused without consulting the verifier
    ensures (req.authorization.None? || req.authorization == Some("Bearer ") || req.authorization == Some(""))
              ==> r == Unauthorized
  {
    if Admits(req, verify) then Handled(handler(req)) else Unauthorized
  }

  /** A header `Bearer <t>` yields exactly `t`. */
  lemma BearerPrefixStripped(t: string)
    ensures BearerToken(Some("Bearer " + t)) == Some(t)
  {
    var h := "Bearer " + t;
    assert h[..7] == "Bearer ";
    assert FindFirst(h, "Bearer ") == Some(0);
    assert h[..0] + "" + h[7..] == t;
  }

  /** A header without `Bearer ` anywhere is taken as the token itself. */
  lemma RawHeaderIsToken(header: string)
    requires forall j: nat :: !OccursAt(header, "Bearer ", j)
    ensures BearerToken(Some(header)) == Some(header)
  {
  }

  /**
   * The removal is of the first occurrence, not of a prefix: in
   * `Token Bearer abc` the middle `Bearer ` goes, giving `Token abc`.
   */
  lemma FirstOccurrenceNotPrefix(before: string, after: string)
    requires forall k :: 0 <= k < |before| ==> before[k] != 'B'
    ensures BearerToken(Some(before + "Bearer " + after)) == Some(before + after)
  {
    var h := before + "Bearer " + after;
    var n := |before|;
    assert h[n..n + 7] == "Bearer ";
    assert OccursAt(h, "Bearer ", n);
    forall j: nat | j < n
      ensures !OccursAt(h, "Bearer ", j)
    {
      assert h[j] == before[j];
      if j + 7 <= |h| {
        assert h[j..j + 7][0] == h[j];
      }
    }
    assert FindFirst(h, "Bearer ") == Some(n);
    assert h[..n] + "" + h[n + 7..] == before + after;
  }

  /**
   * Login then guard: when the JWT library verifies what it signed, the
   * token from a successful login, sent as `Bearer <token>`, gets its
   * request through.
   */
  lemma LoginTokenAdmitted(config: Credentials, sign: Claims -> Option<string>, verify: string -> Option<Claims>)
    requires sign(Claims(Some(config.email), Some("admin"))).Some?
    requires var token := sign(Claims(Some(config.email), Some("admin"))).value;
             token != "" && verify(token) == Some(Claims(Some(config.email), Some("admin")))
    ensures var login := AuthenticateAdmin(config, config.email, config.password, sign);
            login.LoggedIn? && Admits(Request(Some("Bearer " + login.token)), verify)
  {
    var login := AuthenticateAdmin(config, config.email, config.password, sign);
    BearerPrefixStripped(login.token);
  }
}
