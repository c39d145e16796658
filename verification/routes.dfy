/** The Node server's token persistence and its three routes: initiate
    (`/auth/:provider`), callback (`/oauth/callback/:provider`) and status
    (`/status/:provider`). */
module Routes {
  import opened Basics
  import opened Json
  import opened TokenStore
  import opened AuthUrls
  import FormEncoding
  import Decimal
  import Oracle

  /** The redacted copy of a stored row that the status route returns. */
  datatype StatusBody = StatusBody(
    provider: string,
    accessToken: Value,
    refreshToken: bool,
    expiresIn: Value,
    expiresAt: Stamp,
    scope: Value,
    obtainedAt: int,
    raw: TokenMap)

  /** What a route sends back (the confirmation page's HTML is not modelled). */
  datatype Response =
    | Redirect(location: string)
    | Plain(status: nat, message: string)
    | Confirmation(provider: string)
    | NotFound(error: string)
    | StatusJson(out: StatusBody)

  function StatusCode(r: Response): nat
  {
    match r
    case Redirect(_) => 302
    case Plain(status, _) => status
    case Confirmation(_) => 200
    case NotFound(_) => 404
    case StatusJson(_) => 200
  }

  // ---------- saveTokenToBigQuery ----------

  /** A JavaScript Date holds at most 8.64e15 ms either side of the epoch;
      outside that `toISOString` throws a RangeError. */
  const MaxDateSeconds := 8_640_000_000_000

  predicate JsDateInRange(t: int)
  {
    -MaxDateSeconds <= t <= MaxDateSeconds
  }

  datatype SaveError = InvalidTime | InsertRejected

  /** `tokenData.expires_in || tokenData.expires || null`. */
  function StoredExpiresIn(td: TokenMap): (v: Value)
    ensures v == Null || JsTruthy(v)
    ensures v == Null <==> !JsTruthy(Get(td, "expires_in")) && !JsTruthy(Get(td, "expires"))
    ensures JsTruthy(Get(td, "expires_in")) ==> v == Get(td, "expires_in")
    ensures !JsTruthy(Get(td, "expires_in")) && JsTruthy(Get(td, "expires")) ==> v == Get(td, "expires")
  {
    JsOr(JsOr(Get(td, "expires_in"), Get(td, "expires")), Null)
  }

  /** `stored` is what `given || null` leaves: the given value when truthy,
      null otherwise. */
  predicate TruthyOrNull(stored: Value, given: Value)
  {
    if JsTruthy(given) then stored == given else stored == Null
  }

  /** The row `saveTokenToBigQuery` inserts, or the RangeError that building
      it raises when the expiry (or the clock) is not a valid Date. */
  function JsTokenRow(provider: string, td: TokenMap, now: int): (r: Result<Row, SaveError>)
    ensures r.Ok? <==>
              && JsDateInRange(now)
              && (|| StoredExpiresIn(td) == Null
                  || (&& Seconds(StoredExpiresIn(td)).Some?
                      && JsDateInRange(now + Seconds(StoredExpiresIn(td)).value)))
    ensures r.Err? ==> r.error == InvalidTime
    ensures r.Ok? ==> Consistent(r.value)
    ensures r.Ok? ==> && r.value.provider == provider
                      && r.value.obtainedAt == now
                      && r.value.expiresIn == StoredExpiresIn(td)
                      && r.value.raw == td
    ensures r.Ok? ==> && TruthyOrNull(r.value.accessToken, Get(td, "access_token"))
                      && TruthyOrNull(r.value.refreshToken, Get(td, "refresh_token"))
                      && TruthyOrNull(r.value.scope, Get(td, "scope"))
  {
    var expiresIn := StoredExpiresIn(td);
    var expiresAt :=
      if expiresIn == Null then Ok(NoStamp)
      else match Seconds(expiresIn)
        case None => Err(InvalidTime)
        case Some(n) => if JsDateInRange(now + n) then Ok(At(DateTime(now + n, true))) else Err(InvalidTime);
    if expiresAt.Err? || !JsDateInRange(now) then Err(InvalidTime)
    else
      Ok(Row(provider,
             JsOr(Get(td, "access_token"), Null),
             JsOr(Get(td, "refresh_token"), Null),
             expiresIn,
             expiresAt.value,
             JsOr(Get(td, "scope"), Null),
             now,
             td))
  }

  /** `saveTokenToBigQuery(provider, tokenData)` at clock reading `now`:
      builds the row and inserts it, one row per call. */
  method SaveToken(table: TokenTable, provider: string, td: TokenMap, now: int, accepted: bool)
    returns (res: Result<(), SaveError>)
    modifies table
    ensures var r := JsTokenRow(provider, td, now);
            && (res.Ok? <==> r.Ok? && accepted)
            && (r.Err? ==> res == Err(r.error))
            && (r.Ok? && !accepted ==> res == Err(InsertRejected))
            && table.rows == old(table.rows) + (if res.Ok? then [r.value] else [])
    ensures old(table.Valid()) ==> table.Valid()
  {
    var expiresIn := JsOr(JsOr(Get(td, "expires_in"), Get(td, "expires")), Null);
    var expiresAt := NoStamp;
    if expiresIn != Null {
      var seconds := Seconds(expiresIn);
      if seconds.None? || !JsDateInRange(now + seconds.value) {
        return Err(InvalidTime);
      }
      expiresAt := At(DateTime(now + seconds.value, true));
    }
    if !JsDateInRange(now) {
      return Err(InvalidTime);
    }
    var row := Row(provider,
                   JsOr(Get(td, "access_token"), Null),
                   JsOr(Get(td, "refresh_token"), Null),
                   expiresIn,
                   expiresAt,
                   JsOr(Get(td, "scope"), Null),
                   now,
                   td);
    var ok := table.Insert(row, accepted);
    res := if ok then Ok(()) else Err(InsertRejected);
  }

  // ---------- GET /auth/:provider ----------

  /** `state-${provider}-${Date.now()}`: the provider and the clock reading
      can both be read back from the token. */
  function StateToken(provider: string, nowMs: int): (s: string)
    ensures var prefix := "state-" + provider + "-";
            && |s| > |prefix|
            && s[..|prefix|] == prefix
            && Decimal.ParseInt(s[|prefix|..]) == Some(nowMs)
  {
    var prefix := "state-" + provider + "-";
    var digits := Decimal.IntToString(nowMs);
    Decimal.ParseIntToString(nowMs);
    assert (prefix + digits)[|prefix|..] == digits;
    prefix + digits
  }

  /** The initiate route at clock reading `nowMs` (milliseconds). */
  method Initiate(env: Env, provider: string, nowMs: int) returns (resp: Response)
    ensures ProviderNamed(provider).None? ==> resp == Plain(400, "Unknown provider")
    ensures ProviderNamed(provider).Some? ==>
              resp == Redirect(AuthUrl(env, ProviderNamed(provider).value, StateToken(provider, nowMs)))
    ensures resp.Redirect? ==>
              CarriesState(resp.location, AuthBase(env, ProviderNamed(provider).value), StateToken(provider, nowMs))
  {
    var state := StateToken(provider, nowMs);
    var authUrl;
    if provider == "sage" {
      assert ProviderNamed(provider) == Some(Sage);
      authUrl := SageAuthUrl(env, state);
      AuthUrlCarriesState(env, Sage, state);
    } else if provider == "ebay" {
      assert ProviderNamed(provider) == Some(Ebay);
      authUrl := EbayAuthUrl(env, state);
      AuthUrlCarriesState(env, Ebay, state);
    } else if provider == "amazon" {
      assert ProviderNamed(provider) == Some(Amazon);
      authUrl := AmazonAuthUrl(env, state);
      AuthUrlCarriesState(env, Amazon, state);
    } else {
      return Plain(400, "Unknown provider");
    }
    resp := Redirect(authUrl);
  }

  // ---------- code -> token exchangers ----------

  /** How the client proves its identity to the token endpoint. */
  datatype ClientAuth = InForm | Basic(user: string, password: string)

  /** One form-encoded POST to a provider's token endpoint. */
  datatype ExchangeRequest = ExchangeRequest(url: string, form: seq<(string, string)>, auth: ClientAuth)

  function ExchangeRequestFor(env: Env, p: Provider, code: string): (req: ExchangeRequest)
    ensures |req.form| >= 3
    ensures req.form[..2] == [("grant_type", "authorization_code"), ("code", code)]
    ensures req.auth.Basic? <==> p == Ebay
    ensures p == Ebay ==>
              && req.auth == Basic(EnvText(env, "EBAY_CLIENT_ID"), EnvText(env, "EBAY_CLIENT_SECRET"))
              && forall i :: 0 <= i < |req.form| ==> req.form[i].0 != "client_id" && req.form[i].0 != "client_secret"
    ensures p == Sage ==> ("client_secret", EnvText(env, "SAGE_CLIENT_SECRET")) in req.form
    ensures p == Amazon ==> ("client_secret", EnvText(env, "AMZ_CLIENT_SECRET")) in req.form
  {
    match p
    case Sage =>
      ExchangeRequest(EnvText(env, "SAGE_TOKEN_URL"),
                      [ ("grant_type", "authorization_code"),
                        ("code", code),
                        ("client_id", EnvText(env, "SAGE_CLIENT_ID")),
                        ("client_secret", EnvText(env, "SAGE_CLIENT_SECRET")),
                        ("redirect_uri", SageRedirectUri(env)) ],
                      InForm)
    case Ebay =>
      ExchangeRequest(EnvText(env, "EBAY_TOKEN_URL"),
                      [ ("grant_type", "authorization_code"),
                        ("code", code),
                        ("redirect_uri", EnvText(env, "EBAY_REDIRECT_URI")) ],
                      Basic(EnvText(env, "EBAY_CLIENT_ID"), EnvText(env, "EBAY_CLIENT_SECRET")))
    case Amazon =>
      ExchangeRequest(EnvText(env, "AMZ_TOKEN_URL"),
                      [ ("grant_type", "authorization_code"),
                        ("code", code),
                        ("client_id", EnvText(env, "AMZ_CLIENT_ID")),
                        ("client_secret", EnvText(env, "AMZ_CLIENT_SECRET")),
                        ("redirect_uri", EnvText(env, "AMZ_REDIRECT_URI")) ],
                      InForm)
  }

  /** Where each exchange posts and what else its form carries: every form
      ends with its provider's redirect URI, and the providers that
      authenticate in the form send their client id with the secret. */
  lemma ExchangeRequestTargets(env: Env, p: Provider, code: string)
    ensures var req := ExchangeRequestFor(env, p, code);
            && |req.form| >= 3
            && (p == Sage ==>
                  && req.url == EnvText(env, "SAGE_TOKEN_URL")
                  && ("client_id", EnvText(env, "SAGE_CLIENT_ID")) in req.form
                  && req.form[|req.form| - 1] == ("redirect_uri", SageRedirectUri(env)))
            && (p == Ebay ==>
                  && req.url == EnvText(env, "EBAY_TOKEN_URL")
                  && req.form[|req.form| - 1] == ("redirect_uri", EnvText(env, "EBAY_REDIRECT_URI")))
            && (p == Amazon ==>
                  && req.url == EnvText(env, "AMZ_TOKEN_URL")
                  && ("client_id", EnvText(env, "AMZ_CLIENT_ID")) in req.form
                  && req.form[|req.form| - 1] == ("redirect_uri", EnvText(env, "AMZ_REDIRECT_URI")))
  {
  }

  /** The redirect URI an exchange sends is the one the authorisation URL
      for the same provider carried, as the providers require. */
  lemma RedirectUriAgrees(env: Env, p: Provider, state: string, code: string)
    ensures var req := ExchangeRequestFor(env, p, code);
            |req.form| >= 1 && AuthParams(env, p, state)[2] == req.form[|req.form| - 1]
  {
    ExchangeRequestTargets(env, p, code);
  }

  // ---------- GET /oauth/callback/:provider ----------

  /** The callback's query parameters (absent when not in the URL). */
  datatype CallbackQuery = CallbackQuery(code: Option<string>, error: Option<string>, errorDescription: Option<string>)

  /** A query parameter that is present and non-empty, i.e. truthy. */
  predicate Given(o: Option<string>)
  {
    o.Some? && o.value != ""
  }

  /** The provider's own description of the error when it sent one, its
      error code otherwise, after naming the provider. */
  function ProviderErrorMessage(provider: string, q: CallbackQuery): (m: string)
    requires Given(q.error)
    ensures var prefix := "Error from " + provider + ": ";
            var detail := if Given(q.errorDescription) then q.errorDescription.value else q.error.value;
            && |m| == |prefix| + |detail|
            && m[..|prefix|] == prefix
            && m[|prefix|..] == detail
            && |detail| > 0
  {
    "Error from " + provider + ": " + (if Given(q.errorDescription) then q.errorDescription.value else q.error.value)
  }

  function Failed(provider: string): Response
  {
    Plain(500, "Failed to exchange code or save tokens for " + provider + ".")
  }

  /** What one callback does: the response, the exchange request it sends
      (if any) and the row it saves (if any). */
  datatype CallbackTrace = CallbackTrace(response: Response, exchange: Option<ExchangeRequest>, saved: Option<Row>)

  /** The callback's decision table. `answer` is the provider's token
      endpoint, `now` the clock, `accepted` the warehouse's verdict. */
  function Callback(env: Env, provider: string, q: CallbackQuery,
                    answer: ExchangeRequest -> Option<TokenMap>, now: int, accepted: bool): (t: CallbackTrace)
    // 1. a provider error wins over everything, even a present code
    ensures Given(q.error) ==>
              t == CallbackTrace(Plain(400, ProviderErrorMessage(provider, q)), None, None)
    // 2. then a missing code
    ensures !Given(q.error) && !Given(q.code) ==>
              t == CallbackTrace(Plain(400, "Missing ?code in callback"), None, None)
    // 3. then an unknown provider, still before any exchange
    ensures !Given(q.error) && Given(q.code) && ProviderNamed(provider).None? ==>
              t == CallbackTrace(Plain(400, "Unknown provider"), None, None)
    // 4. otherwise exactly one exchange, with that provider's request
    ensures t.exchange.Some? <==> !Given(q.error) && Given(q.code) && ProviderNamed(provider).Some?
    ensures t.exchange.Some? ==> t.exchange.value == ExchangeRequestFor(env, ProviderNamed(provider).value, q.code.value)
    // 5. a row is saved only after the exchange succeeded, and it is that payload's row
    ensures t.saved.Some? <==>
              && t.exchange.Some?
              && answer(t.exchange.value).Some?
              && JsTokenRow(provider, answer(t.exchange.value).value, now).Ok?
              && accepted
    ensures t.saved.Some? ==> JsTokenRow(provider, answer(t.exchange.value).value, now) == Ok(t.saved.value)
    // 6. the confirmation page appears iff the row was saved; any other failure after the checks is a 500
    ensures t.response.Confirmation? <==> t.saved.Some?
    ensures t.saved.Some? ==> t.response == Confirmation(provider)
    ensures t.exchange.Some? && t.saved.None? ==> t.response == Failed(provider)
    ensures StatusCode(t.response) == 400 <==> t.exchange.None?
  {
    if Given(q.error) then
      CallbackTrace(Plain(400, ProviderErrorMessage(provider, q)), None, None)
    else if !Given(q.code) then
      CallbackTrace(Plain(400, "Missing ?code in callback"), None, None)
    else
      match ProviderNamed(provider)
      case None => CallbackTrace(Plain(400, "Unknown provider"), None, None)
      case Some(p) =>
        var req := ExchangeRequestFor(env, p, q.code.value);
        Exchanged(provider, req, answer(req), now, accepted)
  }

  /** The part of the callback inside its `try`: the exchange `req` got
      `reply`; save the token and confirm, or fail with a 500. */
  function Exchanged(provider: string, req: ExchangeRequest, reply: Option<TokenMap>,
                     now: int, accepted: bool): CallbackTrace
  {
    match reply
    case None => CallbackTrace(Failed(provider), Some(req), None)
    case Some(td) =>
      match JsTokenRow(provider, td, now)
      case Err(_) => CallbackTrace(Failed(provider), Some(req), None)
      case Ok(row) =>
        if accepted then CallbackTrace(Confirmation(provider), Some(req), Some(row))
        else CallbackTrace(Failed(provider), Some(req), None)
  }

  /** The callback route against a provider endpoint and the token table. */
  method HandleCallback(table: TokenTable, api: Oracle.Endpoint<ExchangeRequest, Option<TokenMap>>,
                        env: Env, provider: string, q: CallbackQuery, now: int, accepted: bool)
    returns (resp: Response)
    modifies table, api
    ensures var t := Callback(env, provider, q, api.answer, now, accepted);
            && resp == t.response
            && api.received == old(api.received) + AsSeq(t.exchange)
            && table.rows == old(table.rows) + AsSeq(t.saved)
    ensures old(table.Valid()) ==> table.Valid()
  {
    if Given(q.error) {
      return Plain(400, ProviderErrorMessage(provider, q));
    }
    if !Given(q.code) {
      return Plain(400, "Missing ?code in callback");
    }
    var code := q.code.value;
    var p: Provider;
    if provider == "sage" {
      p := Sage;
    } else if provider == "ebay" {
      p := Ebay;
    } else if provider == "amazon" {
      p := Amazon;
    } else {
      return Plain(400, "Unknown provider");
    }
    assert ProviderNamed(provider) == Some(p);
    resp := ExchangeAndSave(table, api, provider, ExchangeRequestFor(env, p, code), now, accepted);
  }

  /** The callback's `try` block against the endpoint and the table. */
  method ExchangeAndSave(table: TokenTable, api: Oracle.Endpoint<ExchangeRequest, Option<TokenMap>>,
                         provider: string, req: ExchangeRequest, now: int, accepted: bool)
    returns (resp: Response)
    modifies table, api
    ensures var t := Exchanged(provider, req, api.answer(req), now, accepted);
            && resp == t.response
            && api.received == old(api.received) + [req]
            && table.rows == old(table.rows) + AsSeq(t.saved)
    ensures old(table.Valid()) ==> table.Valid()
  {
    var tokenData := api.Post(req);
    if tokenData.None? {
      return Failed(provider);
    }
    var saved := SaveToken(table, provider, tokenData.value, now, accepted);
    if saved.Err? {
      return Failed(provider);
    }
    resp := Confirmation(provider);
  }

  // ---------- GET /status/:provider ----------

  const Redacted := "REDACTED"

  /** The status route's copy of a row: the access token never leaves the
      server, the refresh token collapses to a presence flag. */
  function Redact(row: Row): (out: StatusBody)
    ensures out.accessToken == Str(Redacted) || out.accessToken == Null
    ensures out.accessToken == Str(Redacted) <==> JsTruthy(row.accessToken)
    ensures out.refreshToken <==> JsTruthy(row.refreshToken)
    ensures && out.provider == row.provider
            && out.expiresIn == row.expiresIn
            && out.expiresAt == row.expiresAt
            && out.scope == row.scope
            && out.obtainedAt == row.obtainedAt
            && out.raw == row.raw
  {
    StatusBody(row.provider,
               if JsTruthy(row.accessToken) then Str(Redacted) else Null,
               JsTruthy(row.refreshToken),
               row.expiresIn,
               row.expiresAt,
               row.scope,
               row.obtainedAt,
               row.raw)
  }

  /** The status route over a snapshot of the table; `queryOk` is false when
      the warehouse query fails. */
  function Status(rows: seq<Row>, provider: string, queryOk: bool): (resp: Response)
    ensures !queryOk ==> resp == Plain(500, "Failed to query BigQuery")
    ensures queryOk ==> (resp.NotFound? <==> forall i :: 0 <= i < |rows| ==> rows[i].provider != provider)
    ensures queryOk && LatestOf(rows, provider).Some? ==>
              resp == StatusJson(Redact(LatestOf(rows, provider).value)) && StatusCode(resp) == 200
    ensures resp.NotFound? ==> resp.error == "no token found for provider" && StatusCode(resp) == 404
    ensures resp.StatusJson? ==> queryOk && LatestOf(rows, provider).Some?
                                 && resp.out == Redact(LatestOf(rows, provider).value)
  {
    if !queryOk then Plain(500, "Failed to query BigQuery")
    else match LatestOf(rows, provider)
      case None => NotFound("no token found for provider")
      case Some(row) => StatusJson(Redact(row))
  }

  /** A successful callback whose clock is not behind the provider's earlier
      rows makes the status route report the row it just saved. */
  lemma StatusAfterCallback(rows: seq<Row>, env: Env, provider: string, q: CallbackQuery,
                            answer: ExchangeRequest -> Option<TokenMap>, now: int, accepted: bool)
    requires forall i :: 0 <= i < |rows| && rows[i].provider == provider ==> rows[i].obtainedAt <= now
    requires Callback(env, provider, q, answer, now, accepted).saved.Some?
    ensures var saved := Callback(env, provider, q, answer, now, accepted).saved.value;
            Status(rows + [saved], provider, true) == StatusJson(Redact(saved))
  {
    var saved := Callback(env, provider, q, answer, now, accepted).saved.value;
    LatestAfterAppend(rows, saved);
  }

  /** A callback for one provider leaves every other provider's status as
      it was. */
  lemma StatusOfOtherProvider(rows: seq<Row>, env: Env, provider: string, other: string, q: CallbackQuery,
                              answer: ExchangeRequest -> Option<TokenMap>, now: int, accepted: bool)
    requires other != provider
    ensures var t := Callback(env, provider, q, answer, now, accepted);
            Status(rows + AsSeq(t.saved), other, true) == Status(rows, other, true)
  {
    var t := Callback(env, provider, q, answer, now, accepted);
    if t.saved.Some? {
      LatestOfOtherProvider(rows, t.saved.value, other);
    } else {
      assert rows + AsSeq(t.saved) == rows;
    }
  }
}
