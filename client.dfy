/**
 * The portal client of client/client.go: a session that logs in with an
 * anti-forgery token and an optional one-time code, keeps the bearer token,
 * renews it when its `exp` claim comes within one refresh interval, and
 * sends the certificate operations through the authenticated transport.
 *
 * `Decide`, `LoginSpec` and `PrepareSpec` are the specification of one login
 * attempt and of one freshness check; the class `Client` runs them step by
 * step on its fields and is proved to end where they say.
 */
module Client {
  import opened Wrappers
  import opened Foreign
  import opened Models
  import opened Http
  import opened Helper

  const LoginPath := "/api/User/Login"
  const LoginPathTotp := "/api/User/Login2FA"
  const CheckMatchingOrganizationPath := "/api/ServerCertificate/CheckMachingOrganization"
  const GetCertificatePath := "/api/Certificate/GetCertificate"
  const CheckDomainNamesPath := "/api/ServerCertificate/CheckDomainNames"
  const RequestCertificatePath := "/api/ServerCertificate/RequestServerCertificate"
  const PendingReviewsPath := "/api/OrganizationValidatorSSL/GetSSLReviewableTransactions"
  const UpdateReviewsPath := "/api/OrganizationValidatorSSL/UpdateReviews"

  /** Fifteen minutes, in seconds. */
  const RefreshInterval: Time := 15 * 60

  datatype ClientOption = WithDebug(debug: bool)

  /** The periodic job `NewClient` schedules; it captures the credentials. */
  datatype RefreshJob = RefreshJob(user: string, password: string, totpSeed: string)

  /** How creating the scheduler and its job went. */
  datatype Scheduling = Started | NewSchedulerFailed(error: Error) | NewJobFailed(error: Error)

  /** The fields of a client that logins change, and the debug flag they read. */
  datatype ClientState = ClientState(client: Option<Transport>, currentToken: string, debug: bool)

  /** A client state, the portal's log and the error returned, after an operation. */
  datatype Effect = Effect(state: ClientState, log: Log, err: Option<Error>)

  datatype Decision = Abort(error: Error) | Keep | LogIn

  /** The second factor of a login: none (`login`) or a TOTP seed and the time to derive the code at (`loginTotp`). */
  datatype Factor = PasswordOnly | Totp(seed: string, at: Time)

  // ---------------------------------------------------------------------------
  // strings.Trim(s, "\"")

  /** `s` without its leading `"` characters. */
  function TrimLeft(s: string): string {
    if |s| > 0 && s[0] == '"' then TrimLeft(s[1..]) else s
  }

  /** `s` without its trailing `"` characters. */
  function TrimRight(s: string): string {
    if |s| > 0 && s[|s| - 1] == '"' then TrimRight(s[..|s| - 1]) else s
  }

  /** The response body with every leading and trailing `"` removed. */
  function TrimQuotes(s: string): string {
    TrimRight(TrimLeft(s))
  }

  /** TrimLeft keeps a suffix, cuts only quotes, and leaves no quote in front. */
  lemma {:induction false} TrimLeftCutsLeadingQuotes(s: string)
    ensures var r := TrimLeft(s);
      |r| <= |s| && r == s[|s| - |r|..] && (r == [] || r[0] != '"') &&
      forall k :: 0 <= k < |s| - |r| ==> s[k] == '"'
  {
    if |s| > 0 && s[0] == '"' {
      TrimLeftCutsLeadingQuotes(s[1..]);
      var r := TrimLeft(s);
      assert s[1..][|s| - 1 - |r|..] == s[|s| - |r|..];
      forall k | 1 <= k < |s| - |r|
        ensures s[k] == '"'
      {
        assert s[k] == s[1..][k - 1];
      }
    }
  }

  /** TrimRight keeps a prefix, cuts only quotes, and leaves no quote at the end. */
  lemma {:induction false} TrimRightCutsTrailingQuotes(s: string)
    ensures var r := TrimRight(s);
      |r| <= |s| && r == s[..|r|] && (r == [] || r[|r| - 1] != '"') &&
      forall k :: |r| <= k < |s| ==> s[k] == '"'
  {
    if |s| > 0 && s[|s| - 1] == '"' {
      var t := s[..|s| - 1];
      TrimRightCutsTrailingQuotes(t);
      var r := TrimRight(s);
      assert t[..|r|] == s[..|r|];
      forall k | |r| <= k < |s| - 1
        ensures s[k] == '"'
      {
        assert s[k] == t[k];
      }
    }
  }

  /**
   * TrimQuotes keeps a contiguous middle part of `s`, removes only quote
   * characters, and leaves no quote at either end.
   */
  lemma TrimQuotesShape(s: string)
    ensures exists i, j :: (0 <= i <= j <= |s| && TrimQuotes(s) == s[i..j] &&
      (forall k :: 0 <= k < i ==> s[k] == '"') && (forall k :: j <= k < |s| ==> s[k] == '"'))
    ensures TrimQuotes(s) == [] || (TrimQuotes(s)[0] != '"' && TrimQuotes(s)[|TrimQuotes(s)| - 1] != '"')
  {
    var l := TrimLeft(s);
    TrimLeftCutsLeadingQuotes(s);
    var i := |s| - |l|;
    var m := TrimRight(l);
    TrimRightCutsTrailingQuotes(l);
    var j := i + |m|;
    assert m == s[i..j];
    forall k | j <= k < |s|
      ensures s[k] == '"'
    {
      assert s[k] == l[k - i];
    }
    if m != [] {
      assert m[0] == l[0];
    }
  }

  /** A JSON string literal whose content has no quote at either end yields its content back. */
  lemma {:induction false} TrimQuotesOfLiteral(t: string)
    requires t == [] || (t[0] != '"' && t[|t| - 1] != '"')
    ensures TrimQuotes("\"" + t + "\"") == t
  {
    var q := "\"" + t + "\"";
    var u := t + "\"";
    assert q[0] == '"' && q[1..] == u;
    assert TrimLeft(q) == TrimLeft(u);
    if t == [] {
      assert u[1..] == [];
      assert TrimLeft(u) == TrimLeft([]) == [];
    } else {
      assert u[0] == t[0];
      assert TrimLeft(u) == u;
      assert u[|u| - 1] == '"' && u[..|u| - 1] == t;
      assert TrimRight(u) == TrimRight(t) == t;
    }
  }

  /** Trimming twice is trimming once. */
  lemma TrimQuotesIdempotent(s: string)
    ensures TrimQuotes(TrimQuotes(s)) == TrimQuotes(s)
  {
    var r := TrimQuotes(s);
    TrimQuotesShape(s);
    if r != [] {
      assert TrimLeft(r) == r;
      assert TrimRight(r) == r;
    }
  }

  // ---------------------------------------------------------------------------
  // prepareClient: the freshness rule

  /**
   * Whether `prepareClient` fails, keeps the session or logs in. A non-empty
   * token must parse and carry a readable expiry; a login is due when there is
   * no transport, no token, or the expiry is strictly before now plus the
   * refresh interval (an already expired token is a special case of the latter).
   */
  function Decide(client: Option<Transport>, token: string, lib: Libraries, now: Time): (d: Decision)
    ensures d.Abort? <==> token != "" && !lib.parseToken(token).Expires?
    ensures d.Abort? ==> d.error == lib.parseToken(token).error
    ensures d.LogIn? <==> (token == "" ||
      (lib.parseToken(token).Expires? && (client.None? || lib.parseToken(token).at < now + RefreshInterval)))
  {
    var renew :=
      if token != "" then
        match lib.parseToken(token)
        case Malformed(e) => Err(e)
        case ExpiryUnreadable(e) => Err(e)
        case Expires(exp) => Ok(exp < now || exp < now + RefreshInterval)
      else Ok(false);
    if renew.Err? then Abort(renew.error)
    else if client.None? || token == "" || renew.value then LogIn
    else Keep
  }

  // ---------------------------------------------------------------------------
  // login / loginTotp

  /** The JSON login body: email and password, and the one-time code when there is one. */
  function Credentials(user: string, password: string, code: Option<string>): (m: map<string, string>)
    ensures m.Keys == if code.Some? then {"email", "password", "token"} else {"email", "password"}
    ensures m["email"] == user && m["password"] == password
    ensures code.Some? ==> m["token"] == code.value
  {
    if code.Some? then map["email" := user, "password" := password, "token" := code.value]
    else map["email" := user, "password" := password]
  }

  /** The login POST: fresh transport, anti-forgery token as a request header, JSON body. */
  function LoginRequest(verificationToken: string, path: string, body: map<string, string>): Request {
    Request(Post, BaseURL + path, Fresh.authorization, Some(verificationToken), JsonFields(body))
  }

  /**
   * From the login POST on: store the trimmed token once it parses, then fetch a
   * second anti-forgery token with the bearer token set, and only then install
   * the new transport.
   */
  function SubmitSpec(o: Oracle, lib: Libraries, s: ClientState, log: Log,
                      verificationToken: string, path: string, body: map<string, string>): (e: Effect)
    ensures |e.log| <= |log| + 2 && log + [LoginRequest(verificationToken, path, body)] <= e.log
    ensures |e.log| == |log| + 1 ==> e.state == s && e.err.Some?
    // the login goes on past the POST iff the POST succeeds and its trimmed reply parses;
    // otherwise the error is the POST's or the parser's
    ensures var reply := o.login(log, LoginRequest(verificationToken, path, body));
      (|e.log| == |log| + 2 <==> reply.Ok? && !lib.parseToken(TrimQuotes(reply.value)).Malformed?) &&
      (reply.Err? ==> e.err == Some(reply.error)) &&
      (reply.Ok? && lib.parseToken(TrimQuotes(reply.value)).Malformed? ==>
         e.err == Some(lib.parseToken(TrimQuotes(reply.value)).error))
    ensures |e.log| == |log| + 2 ==>
      o.login(log, e.log[|log|]).Ok? &&
      e.state.currentToken == TrimQuotes(o.login(log, e.log[|log|]).value) &&
      !lib.parseToken(e.state.currentToken).Malformed?
    // the second request fetches the landing page with the new bearer token only; the
    // transport installed on success carries the anti-forgery token that fetch scraped
    ensures |e.log| == |log| + 2 ==>
      var get := e.log[|log| + 1];
      var scraped := VerificationTokenOf(o.page(log + [LoginRequest(verificationToken, path, body)], get));
      get == LandingPageRequest(Transport(Some(e.state.currentToken), None, false)) &&
      (e.err.None? <==> scraped.Ok?) &&
      (scraped.Err? ==> e.err == Some(scraped.error)) &&
      (scraped.Ok? ==> e.state.client == Some(Transport(Some(e.state.currentToken), Some(scraped.value), s.debug)))
    ensures e.err.Some? ==> e.state.client == s.client
    ensures e.err.None? ==> (|e.log| == |log| + 2 && e.state.client.Some? &&
      e.state.client.value.authorization == Some(e.state.currentToken) && e.state.client.value.debug == s.debug)
    ensures e.state.debug == s.debug
  {
    var post := LoginRequest(verificationToken, path, body);
    var log1 := log + [post];
    match o.login(log, post)
    case Err(err) => Effect(s, log1, Some(err))
    case Ok(text) =>
      var candidate := TrimQuotes(text);
      if lib.parseToken(candidate).Malformed? then Effect(s, log1, Some(lib.parseToken(candidate).error))
      else
        var r := Transport(Some(candidate), Fresh.verificationToken, Fresh.debug);
        var get := LandingPageRequest(r);
        var s1 := s.(currentToken := candidate);
        match VerificationTokenOf(o.page(log1, get))
        case Err(err) => Effect(s1, log1 + [get], Some(err))
        case Ok(t) => Effect(s1.(client := Some(Transport(Some(candidate), Some(t), s.debug))), log1 + [get], None)
  }

  /**
   * A login once the first anti-forgery token `vt` is known: derive the
   * one-time code if there is a second factor, then submit.
   */
  function LoginWithToken(o: Oracle, lib: Libraries, s: ClientState, log: Log, vt: string, user: string,
                          password: string, factor: Factor): (e: Effect)
    ensures |e.log| <= |log| + 2 && log <= e.log
    ensures |e.log| > |log| ==>
      var post := e.log[|log|];
      post.url == BaseURL + (if factor.Totp? then LoginPathTotp else LoginPath) &&
      post.authorization.None? && post.verificationToken == Some(vt) && post.body.JsonFields? &&
      post.body.fields.Keys == (if factor.Totp? then {"email", "password", "token"} else {"email", "password"}) &&
      post.body.fields["email"] == user && post.body.fields["password"] == password
    // the one-time code sent is the one generated from the seed at the factor's time;
    // when generation fails nothing is sent and its error is returned
    ensures factor.Totp? && lib.generateCode(factor.seed, factor.at).Err? ==>
      e == Effect(s, log, Some(lib.generateCode(factor.seed, factor.at).error))
    // the request sent is exactly the login POST: endpoint, anti-forgery header and credentials
    ensures |e.log| > |log| ==>
      (factor.Totp? ==> lib.generateCode(factor.seed, factor.at).Ok?) &&
      e.log[|log|] == LoginRequest(vt, if factor.Totp? then LoginPathTotp else LoginPath,
                                   Credentials(user, password, if factor.Totp? then Some(lib.generateCode(factor.seed, factor.at).value) else None))
    ensures factor.Totp? && |e.log| > |log| ==>
      lib.generateCode(factor.seed, factor.at).Ok? &&
      e.log[|log|].body.fields["token"] == lib.generateCode(factor.seed, factor.at).value
    // the POST is sent unless code generation failed; the login goes on past it iff it
    // succeeds and its trimmed reply parses, and otherwise fails with the POST's or the parser's error
    ensures (factor.PasswordOnly? || lib.generateCode(factor.seed, factor.at).Ok?) ==> |e.log| > |log|
    ensures |e.log| > |log| ==>
      var reply := o.login(log, e.log[|log|]);
      (|e.log| == |log| + 2 <==> reply.Ok? && !lib.parseToken(TrimQuotes(reply.value)).Malformed?) &&
      (reply.Err? ==> e.err == Some(reply.error)) &&
      (reply.Ok? && lib.parseToken(TrimQuotes(reply.value)).Malformed? ==>
         e.err == Some(lib.parseToken(TrimQuotes(reply.value)).error))
    ensures |e.log| < |log| + 2 ==> e.state == s && e.err.Some?
    ensures |e.log| == |log| + 2 ==>
      o.login(log, e.log[|log|]).Ok? &&
      e.state.currentToken == TrimQuotes(o.login(log, e.log[|log|]).value) &&
      !lib.parseToken(e.state.currentToken).Malformed?
    ensures |e.log| == |log| + 2 ==>
      var get := e.log[|log| + 1];
      var scraped := VerificationTokenOf(o.page(log + [e.log[|log|]], get));
      get == LandingPageRequest(Transport(Some(e.state.currentToken), None, false)) &&
      (e.err.None? <==> scraped.Ok?) &&
      (scraped.Err? ==> e.err == Some(scraped.error)) &&
      (scraped.Ok? ==> e.state.client == Some(Transport(Some(e.state.currentToken), Some(scraped.value), s.debug)))
    ensures e.err.Some? ==> e.state.client == s.client
    ensures e.err.None? ==> (|e.log| == |log| + 2 && e.state.client.Some? &&
      e.state.client.value.authorization == Some(e.state.currentToken) && e.state.client.value.debug == s.debug)
    ensures e.state.debug == s.debug
  {
    match factor
    case PasswordOnly =>
      SubmitSpec(o, lib, s, log, vt, LoginPath, Credentials(user, password, None))
    case Totp(seed, now) =>
      match lib.generateCode(seed, now)
      case Err(err) => Effect(s, log, Some(err))
      case Ok(code) => SubmitSpec(o, lib, s, log, vt, LoginPathTotp, Credentials(user, password, Some(code)))
  }

  /** One login attempt from state `s`: `login` for `PasswordOnly`, `loginTotp` for `Totp`. */
  function LoginSpec(o: Oracle, lib: Libraries, s: ClientState, log: Log, user: string, password: string,
                     factor: Factor): (e: Effect)
    // the first request is an unauthenticated fetch of the landing page; at most three requests
    ensures |e.log| <= |log| + 3 && log + [LandingPageRequest(Fresh)] <= e.log
    // the second is the POST to the endpoint the second factor selects, with exactly these fields
    ensures |e.log| >= |log| + 2 ==>
      var post := e.log[|log| + 1];
      var first := VerificationTokenOf(o.page(log, LandingPageRequest(Fresh)));
      post.url == BaseURL + (if factor.Totp? then LoginPathTotp else LoginPath) &&
      post.authorization.None? && first.Ok? && post.verificationToken == Some(first.value) &&
      post.body.JsonFields? &&
      post.body.fields.Keys == (if factor.Totp? then {"email", "password", "token"} else {"email", "password"}) &&
      post.body.fields["email"] == user && post.body.fields["password"] == password &&
      (factor.Totp? ==> lib.generateCode(factor.seed, factor.at).Ok? &&
                        post.body.fields["token"] == lib.generateCode(factor.seed, factor.at).value)
    // the second request is exactly the login POST, with the anti-forgery token of the first page
    ensures |e.log| >= |log| + 2 ==>
      var first := VerificationTokenOf(o.page(log, LandingPageRequest(Fresh)));
      first.Ok? && (factor.Totp? ==> lib.generateCode(factor.seed, factor.at).Ok?) &&
      e.log[|log| + 1] ==
        LoginRequest(first.value, if factor.Totp? then LoginPathTotp else LoginPath,
                     Credentials(user, password, if factor.Totp? then Some(lib.generateCode(factor.seed, factor.at).value) else None))
    // a failed first fetch, or a failed code generation, ends the login after that fetch with its error
    ensures var first := VerificationTokenOf(o.page(log, LandingPageRequest(Fresh)));
      (first.Err? ==> e == Effect(s, log + [LandingPageRequest(Fresh)], Some(first.error))) &&
      (first.Ok? && factor.Totp? && lib.generateCode(factor.seed, factor.at).Err? ==>
         e == Effect(s, log + [LandingPageRequest(Fresh)], Some(lib.generateCode(factor.seed, factor.at).error)))
    // the POST is sent once the first fetch and the code succeed; the login goes on past it iff it
    // succeeds and its trimmed reply parses, and otherwise fails with the POST's or the parser's error
    ensures (VerificationTokenOf(o.page(log, LandingPageRequest(Fresh))).Ok? &&
             (factor.PasswordOnly? || lib.generateCode(factor.seed, factor.at).Ok?)) ==> |e.log| >= |log| + 2
    ensures |e.log| >= |log| + 2 ==>
      var reply := o.login(log + [LandingPageRequest(Fresh)], e.log[|log| + 1]);
      (|e.log| == |log| + 3 <==> reply.Ok? && !lib.parseToken(TrimQuotes(reply.value)).Malformed?) &&
      (reply.Err? ==> e.err == Some(reply.error)) &&
      (reply.Ok? && lib.parseToken(TrimQuotes(reply.value)).Malformed? ==>
         e.err == Some(lib.parseToken(TrimQuotes(reply.value)).error))
    // any failure before the token has parsed leaves both fields as they were
    ensures |e.log| < |log| + 3 ==> e.state == s && e.err.Some?
    // the token stored is the trimmed response body, and it parses
    ensures |e.log| == |log| + 3 ==>
      o.login(log + [LandingPageRequest(Fresh)], e.log[|log| + 1]).Ok? &&
      e.state.currentToken == TrimQuotes(o.login(log + [LandingPageRequest(Fresh)], e.log[|log| + 1]).value) &&
      !lib.parseToken(e.state.currentToken).Malformed?
    // the third request fetches the landing page with the new bearer token; the transport
    // installed on success carries the anti-forgery token that fetch scraped
    ensures |e.log| == |log| + 3 ==>
      var get := e.log[|log| + 2];
      var scraped := VerificationTokenOf(o.page(e.log[..|log| + 2], get));
      get == LandingPageRequest(Transport(Some(e.state.currentToken), None, false)) &&
      (e.err.None? <==> scraped.Ok?) &&
      (scraped.Err? ==> e.err == Some(scraped.error)) &&
      (scraped.Ok? ==> e.state.client == Some(Transport(Some(e.state.currentToken), Some(scraped.value), s.debug)))
    // the transport changes only on success, and then carries the stored token
    ensures e.err.Some? ==> e.state.client == s.client
    ensures e.err.None? ==> (|e.log| == |log| + 3 && e.state.client.Some? &&
      e.state.client.value.authorization == Some(e.state.currentToken) && e.state.client.value.debug == s.debug)
    ensures e.state.debug == s.debug
  {
    var get := LandingPageRequest(Fresh);
    var log1 := log + [get];
    match VerificationTokenOf(o.page(log, get))
    case Err(err) => Effect(s, log1, Some(err))
    case Ok(vt) =>
      LoginWithToken(o, lib, s, log1, vt, user, password, factor)
  }

  /** The login `prepareClient` chooses: `loginTotp` at `now` iff the seed is non-empty. */
  function SecondFactor(totpSeed: string, now: Time): Factor {
    if totpSeed != "" then Totp(totpSeed, now) else PasswordOnly
  }

  /** `prepareClient` from state `s` at time `now`. */
  function PrepareSpec(o: Oracle, lib: Libraries, s: ClientState, log: Log, user: string, password: string,
                       totpSeed: string, now: Time): (e: Effect)
    // a login is performed (it starts with a request) iff the decision says so
    ensures e.log != log <==> Decide(s.client, s.currentToken, lib, now).LogIn?
    ensures Decide(s.client, s.currentToken, lib, now).LogIn? ==>
      e == LoginSpec(o, lib, s, log, user, password, SecondFactor(totpSeed, now))
    // otherwise nothing changes, and the error is the token's parse or expiry error
    ensures !Decide(s.client, s.currentToken, lib, now).LogIn? ==> e.state == s && e.log == log
    ensures Decide(s.client, s.currentToken, lib, now).Abort? ==> e.err == Some(lib.parseToken(s.currentToken).error)
    ensures Decide(s.client, s.currentToken, lib, now).Keep? ==> e.err.None?
    // on success there is a transport
    ensures e.err.None? ==> e.state.client.Some?
  {
    match Decide(s.client, s.currentToken, lib, now)
    case Abort(err) => Effect(s, log, Some(err))
    case Keep => Effect(s, log, None)
    case LogIn => LoginSpec(o, lib, s, log, user, password, SecondFactor(totpSeed, now))
  }

  /**
   * Right after a successful `prepareClient`, a second one at the same time does
   * nothing, provided the token now held expires no earlier than one refresh
   * interval ahead.
   */
  lemma PrepareTwiceIsPrepareOnce(o: Oracle, lib: Libraries, s: ClientState, log: Log, user: string,
                                  password: string, totpSeed: string, now: Time)
    requires var e := PrepareSpec(o, lib, s, log, user, password, totpSeed, now);
      e.err.None? && e.state.currentToken != "" &&
      lib.parseToken(e.state.currentToken).Expires? && lib.parseToken(e.state.currentToken).at >= now + RefreshInterval
    ensures var e := PrepareSpec(o, lib, s, log, user, password, totpSeed, now);
      PrepareSpec(o, lib, e.state, e.log, user, password, totpSeed, now) == e
  {
  }

  /**
   * A login that stores a new token and then fails to fetch the second
   * anti-forgery token leaves the old transport in place; while the new token
   * is fresh, later `prepareClient` calls do not log in, so requests keep
   * carrying the previous bearer token.
   */
  lemma StaleTransportAfterPartialLogin(o: Oracle, lib: Libraries, s: ClientState, log: Log, user: string,
                                        password: string, factor: Factor, later: Time)
    requires s.client.Some? && s.client.value.authorization == Some(s.currentToken)
    requires var e := LoginSpec(o, lib, s, log, user, password, factor);
      e.err.Some? && e.state.currentToken != s.currentToken && e.state.currentToken != "" &&
      lib.parseToken(e.state.currentToken).Expires? && lib.parseToken(e.state.currentToken).at >= later + RefreshInterval
    ensures var e := LoginSpec(o, lib, s, log, user, password, factor);
      e.state.client == s.client &&
      e.state.client.value.authorization != Some(e.state.currentToken) &&
      PrepareSpec(o, lib, e.state, e.log, user, password, if factor.Totp? then factor.seed else "", later) ==
        Effect(e.state, e.log, None)
  {
  }

  /**
   * A stored token whose expiry cannot be read (it parsed, so a login stored it)
   * makes every later `prepareClient` fail without logging in.
   */
  lemma UnreadableExpiryBlocksRenewal(o: Oracle, lib: Libraries, s: ClientState, log: Log, user: string,
                                      password: string, totpSeed: string, now: Time)
    requires s.currentToken != "" && lib.parseToken(s.currentToken).ExpiryUnreadable?
    ensures PrepareSpec(o, lib, s, log, user, password, totpSeed, now) ==
      Effect(s, log, Some(lib.parseToken(s.currentToken).error))
  {
  }

  // ---------------------------------------------------------------------------
  // Request construction

  /** One `{domain}` record per domain name, in order. */
  function DomainDtos(domains: seq<string>): (dtos: seq<Domain>)
    ensures |dtos| == |domains|
    ensures forall i :: 0 <= i < |domains| ==> dtos[i].domain == domains[i]
  {
    if domains == [] then [] else [Domain(domains[0])] + DomainDtos(domains[1..])
  }

  /** The append loop that builds the request body of both domain checks. */
  method BuildDomainDtos(domains: seq<string>) returns (dtos: seq<Domain>)
    ensures dtos == DomainDtos(domains)
  {
    dtos := [];
    for i := 0 to |domains|
      invariant |dtos| == i
      invariant forall k :: 0 <= k < i ==> dtos[k] == Domain(domains[k])
    {
      dtos := dtos + [Domain(domains[i])];
    }
  }

  function AuthenticatedPost(t: Transport, path: string, body: Body): Request {
    Request(Post, BaseURL + path, t.authorization, t.verificationToken, body)
  }

  function CheckDomainNamesRequest(t: Transport, domains: seq<string>): Request {
    AuthenticatedPost(t, CheckDomainNamesPath, JsonDomains(DomainDtos(domains)))
  }

  /** The organization check starts from a nil slice, so no domains serialise as `null`. */
  function CheckMatchingOrganizationRequest(t: Transport, domains: seq<string>): Request {
    AuthenticatedPost(t, CheckMatchingOrganizationPath,
                      if domains == [] then JsonNull else JsonDomains(DomainDtos(domains)))
  }

  function CertificateRequestForm(domainJson: string, csr: string, transactionType: string): map<string, string> {
    map["domains" := domainJson, "domainsString" := domainJson, "csr" := csr, "isManualCsr" := "true",
        "consentSameKey" := "true", "transactionType" := transactionType, "duration" := "1"]
  }

  function RequestCertificateRequest(t: Transport, domainJson: string, csr: string, transactionType: string): Request {
    AuthenticatedPost(t, RequestCertificatePath, Multipart(CertificateRequestForm(domainJson, csr, transactionType)))
  }

  function PendingReviewsRequest(t: Transport): Request {
    AuthenticatedPost(t, PendingReviewsPath, JsonReviewQuery(ReviewRequest(0, "Pending", [])))
  }

  function ApprovalForm(id: string, message: string, value: string): map<string, string> {
    map["reviewId" := id, "isValid" := "true", "informApplicant" := "true",
        "reviewMessage" := message, "reviewValue" := value]
  }

  function ApproveRequestRequest(t: Transport, id: string, message: string, value: string): Request {
    AuthenticatedPost(t, UpdateReviewsPath, Multipart(ApprovalForm(id, message, value)))
  }

  function GetCertificateRequest(t: Transport, id: string): Request {
    AuthenticatedPost(t, GetCertificatePath, JsonFields(map["id" := id]))
  }

  // ---------------------------------------------------------------------------
  // The client

  class Client {
    var client: Option<Transport>
    var scheduler: Option<RefreshJob>
    var currentToken: string
    var debug: bool

    /** `Client{}`. */
    constructor ()
      ensures client.None? && scheduler.None? && currentToken == "" && !debug
    {
      client := None;
      scheduler := None;
      currentToken := "";
      debug := false;
    }

    function Snapshot(): ClientState
      reads this
    {
      ClientState(client, currentToken, debug)
    }

    /** The options in order; the last `WithDebug` wins. */
    method ApplyOptions(options: seq<ClientOption>)
      modifies this`debug
      ensures debug == if options == [] then old(debug) else options[|options| - 1].debug
    {
      for i := 0 to |options|
        invariant debug == if i == 0 then old(debug) else options[i - 1].debug
      {
        debug := options[i].debug;
      }
    }

    /** The common tail of `login` and `loginTotp`, from the POST on. */
    method Submit(verificationToken: string, path: string, body: map<string, string>, lib: Libraries, portal: Portal)
      returns (err: Option<Error>)
      modifies this`client, this`currentToken, portal
      ensures Effect(Snapshot(), portal.log, err) ==
        SubmitSpec(portal.answers, lib, old(Snapshot()), old(portal.log), verificationToken, path, body)
    {
      ghost var s0, log0 := Snapshot(), portal.log;
      var r := Fresh;
      var req := LoginRequest(verificationToken, path, body);
      var resp := portal.PostText(req);
      if resp.Err? {
        return Some(resp.error);
      }
      var tokenResp := TrimQuotes(resp.value);
      if lib.parseToken(tokenResp).Malformed? {
        return Some(lib.parseToken(tokenResp).error);
      }
      currentToken := tokenResp;
      r := r.(authorization := Some(currentToken));
      ghost var log1 := portal.log;
      assert log1 == log0 + [req];
      var token := GetVerificationToken(r, portal);
      assert token == VerificationTokenOf(portal.answers.page(log1, LandingPageRequest(r)));
      if token.Err? {
        return Some(token.error);
      }
      r := r.(verificationToken := Some(token.value), debug := debug);
      client := Some(r);
      assert Snapshot() == s0.(currentToken := tokenResp).(client := Some(Transport(Some(tokenResp), Some(token.value), s0.debug)));
      return None;
    }

    method LoginTotp(user: string, password: string, totpSeed: string, now: Time, lib: Libraries, portal: Portal)
      returns (err: Option<Error>)
      modifies this`client, this`currentToken, portal
      ensures Effect(Snapshot(), portal.log, err) ==
        LoginSpec(portal.answers, lib, old(Snapshot()), old(portal.log), user, password, Totp(totpSeed, now))
    {
      var r := Fresh;
      var verificationToken := GetVerificationToken(r, portal);
      if verificationToken.Err? {
        return Some(verificationToken.error);
      }
      var otp := lib.generateCode(totpSeed, now);
      if otp.Err? {
        return Some(otp.error);
      }
      err := Submit(verificationToken.value, LoginPathTotp, Credentials(user, password, Some(otp.value)), lib, portal);
    }

    method Login(user: string, password: string, lib: Libraries, portal: Portal) returns (err: Option<Error>)
      modifies this`client, this`currentToken, portal
      ensures Effect(Snapshot(), portal.log, err) ==
        LoginSpec(portal.answers, lib, old(Snapshot()), old(portal.log), user, password, PasswordOnly)
    {
      var r := Fresh;
      var verificationToken := GetVerificationToken(r, portal);
      if verificationToken.Err? {
        return Some(verificationToken.error);
      }
      err := Submit(verificationToken.value, LoginPath, Credentials(user, password, None), lib, portal);
    }

    method PrepareClient(user: string, password: string, totpSeed: string, now: Time, lib: Libraries, portal: Portal)
      returns (err: Option<Error>)
      modifies this`client, this`currentToken, portal
      ensures Effect(Snapshot(), portal.log, err) ==
        PrepareSpec(portal.answers, lib, old(Snapshot()), old(portal.log), user, password, totpSeed, now)
    {
      var renew := false;
      if currentToken != "" {
        var claims := lib.parseToken(currentToken);
        if claims.Malformed? {
          return Some(claims.error);
        }
        if claims.ExpiryUnreadable? {
          return Some(claims.error);
        }
        var exp := claims.at;
        if exp < now || exp < now + RefreshInterval {
          renew := true;
        }
      }
      if client.None? || currentToken == "" || renew {
        if totpSeed != "" {
          err := LoginTotp(user, password, totpSeed, now, lib, portal);
        } else {
          err := Login(user, password, lib, portal);
        }
        return;
      }
      return None;
    }

    /** One run of the refresh job: `prepareClient` with the captured credentials; errors are only logged. */
    method RefreshTick(now: Time, lib: Libraries, portal: Portal)
      requires scheduler.Some?
      modifies this`client, this`currentToken, portal
      ensures var job := scheduler.value;
        var e := PrepareSpec(portal.answers, lib, old(Snapshot()), old(portal.log), job.user, job.password, job.totpSeed, now);
        Snapshot() == e.state && portal.log == e.log
    {
      var job := scheduler.value;
      var _ := PrepareClient(job.user, job.password, job.totpSeed, now, lib, portal);
    }

    method CheckMatchingOrganization(domains: seq<string>, portal: Portal)
      returns (res: Fallible<seq<OrganizationResponse>>)
      requires client.Some?
      modifies portal
      ensures portal.log == old(portal.log) + [CheckMatchingOrganizationRequest(client.value, domains)]
      ensures res == portal.answers.organizations(old(portal.log), CheckMatchingOrganizationRequest(client.value, domains))
      // one `{domain}` record per domain, in order (a nil list when there are none)
      ensures var body := portal.log[|old(portal.log)|].body;
        (domains == [] ==> body == JsonNull) &&
        (domains != [] ==> body.JsonDomains? && |body.items| == |domains| &&
                           forall i :: 0 <= i < |domains| ==> body.items[i].domain == domains[i])
    {
      var domainDto: seq<Domain> := [];
      if domains != [] {
        domainDto := BuildDomainDtos(domains);
      }
      var req := AuthenticatedPost(client.value, CheckMatchingOrganizationPath,
                                   if domains == [] then JsonNull else JsonDomains(domainDto));
      res := portal.PostOrganizations(req);
    }

    method GetCertificate(id: string, portal: Portal) returns (res: Fallible<CertificateResponse>)
      requires client.Some?
      modifies portal
      ensures portal.log == old(portal.log) + [GetCertificateRequest(client.value, id)]
      ensures res == portal.answers.certificate(old(portal.log), GetCertificateRequest(client.value, id))
      ensures portal.log[|old(portal.log)|].body == JsonFields(map["id" := id])
    {
      res := portal.PostCertificate(GetCertificateRequest(client.value, id));
    }

    method CheckDomainNames(domains: seq<string>, portal: Portal) returns (res: Fallible<seq<DomainResponse>>)
      requires client.Some?
      modifies portal
      ensures portal.log == old(portal.log) + [CheckDomainNamesRequest(client.value, domains)]
      ensures res == portal.answers.domains(old(portal.log), CheckDomainNamesRequest(client.value, domains))
      // one `{domain}` record per domain, in order, sent with the session's credentials
      ensures var req := portal.log[|old(portal.log)|];
        req.authorization == client.value.authorization && req.body.JsonDomains? &&
        |req.body.items| == |domains| && forall i :: 0 <= i < |domains| ==> req.body.items[i].domain == domains[i]
    {
      var domainDto := BuildDomainDtos(domains);
      res := portal.PostDomains(AuthenticatedPost(client.value, CheckDomainNamesPath, JsonDomains(domainDto)));
    }

    method RequestCertificate(domains: seq<DomainResponse>, csr: string, transactionType: string,
                              lib: Libraries, portal: Portal) returns (res: Fallible<CertificateRequestResponse>)
      requires client.Some?
      modifies portal
      ensures portal.log == old(portal.log) + [RequestCertificateRequest(client.value, lib.marshal(domains), csr, transactionType)]
      ensures res == portal.answers.requested(old(portal.log),
                       RequestCertificateRequest(client.value, lib.marshal(domains), csr, transactionType))
      // seven form fields: the serialised list twice, csr and type verbatim, fixed flags
      ensures var form := portal.log[|old(portal.log)|].body.form;
        form.Keys == {"domains", "domainsString", "csr", "isManualCsr", "consentSameKey", "transactionType", "duration"} &&
        form["domains"] == form["domainsString"] == lib.marshal(domains) &&
        form["csr"] == csr && form["transactionType"] == transactionType &&
        form["isManualCsr"] == form["consentSameKey"] == "true" && form["duration"] == "1"
    {
      var domainJson := lib.marshal(domains);
      res := portal.PostRequested(RequestCertificateRequest(client.value, domainJson, csr, transactionType));
    }

    method GetPendingReviews(portal: Portal) returns (res: Fallible<seq<ReviewResponse>>)
      requires client.Some?
      modifies portal
      ensures portal.log == old(portal.log) + [PendingReviewsRequest(client.value)]
      ensures res == portal.answers.reviews(old(portal.log), PendingReviewsRequest(client.value))
      ensures portal.log[|old(portal.log)|].body.query == ReviewRequest(0, "Pending", [])
    {
      res := portal.PostReviews(PendingReviewsRequest(client.value));
    }

    method ApproveRequest(id: string, message: string, value: string, portal: Portal) returns (err: Option<Error>)
      requires client.Some?
      modifies portal
      ensures portal.log == old(portal.log) + [ApproveRequestRequest(client.value, id, message, value)]
      ensures err == portal.answers.approval(old(portal.log), ApproveRequestRequest(client.value, id, message, value))
      ensures var form := portal.log[|old(portal.log)|].body.form;
        form.Keys == {"reviewId", "isValid", "informApplicant", "reviewMessage", "reviewValue"} &&
        form["isValid"] == form["informApplicant"] == "true" &&
        form["reviewId"] == id && form["reviewMessage"] == message && form["reviewValue"] == value
    {
      err := portal.PostNoResult(ApproveRequestRequest(client.value, id, message, value));
    }
  }

  /**
   * `NewClient`: apply the options, run `prepareClient` once, and only if that
   * succeeds create the scheduler and its refresh job.
   */
  method NewClient(user: string, password: string, totpSeed: string, options: seq<ClientOption>,
                   now: Time, lib: Libraries, scheduling: Scheduling, portal: Portal)
    returns (c: Client?, err: Option<Error>)
    modifies portal
    ensures (c == null) <==> err.Some?
    ensures var debug := if options == [] then false else options[|options| - 1].debug;
      var e := PrepareSpec(portal.answers, lib, ClientState(None, "", debug), old(portal.log), user, password, totpSeed, now);
      portal.log == e.log &&
      (e.err.Some? ==> err == e.err) &&
      (e.err.None? && !scheduling.Started? ==> err == Some(scheduling.error)) &&
      (e.err.None? && scheduling.Started? ==> c != null)
    ensures c != null ==>
      fresh(c) && c.client.Some? && c.scheduler == Some(RefreshJob(user, password, totpSeed)) &&
      var debug := if options == [] then false else options[|options| - 1].debug;
      c.Snapshot() ==
        PrepareSpec(portal.answers, lib, ClientState(None, "", debug), old(portal.log), user, password, totpSeed, now).state
  {
    var client := new Client();
    client.ApplyOptions(options);
    ghost var debug := if options == [] then false else options[|options| - 1].debug;
    assert client.Snapshot() == ClientState(None, "", debug);
    ghost var e := PrepareSpec(portal.answers, lib, client.Snapshot(), portal.log, user, password, totpSeed, now);
    err := client.PrepareClient(user, password, totpSeed, now, lib, portal);
    assert Effect(client.Snapshot(), portal.log, err) == e;
    if err.Some? {
      return null, err;
    }
    if !scheduling.Started? {
      return null, Some(scheduling.error);
    }
    client.scheduler := Some(RefreshJob(user, password, totpSeed));
    return client, None;
  }
}
