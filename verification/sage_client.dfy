/** The Python Sage client: deciding whether the stored token is still good,
    refreshing it when not, and the headers for Sage API calls. */
module SageClient {
  import opened Basics
  import opened Json
  import opened TokenStore
  import opened BigQueryTokens
  import Oracle

  const SageProvider := "sage"

  /** A token counts as expired this many seconds before its expiry. */
  const RefreshMargin := 60

  /** `_is_token_valid(expires_at)` at clock reading `now` (tz-aware UTC).
      The margin is subtracted first: from a string that raises TypeError,
      and a datetime less than the margin after 0001-01-01 overflows. Then a
      naive datetime cannot be compared with the aware clock (TypeError). */
  function IsTokenValid(expiresAt: Stamp, now: int): (r: Result<bool, PyError>)
    ensures expiresAt == NoStamp ==> r == Ok(false)
    ensures r == Ok(true) <==>
              && expiresAt.At? && expiresAt.time.aware
              && expiresAt.time.secs - RefreshMargin >= MinTimestamp
              && expiresAt.time.secs - RefreshMargin > now
    ensures r == Err(OverflowError) <==> expiresAt.At? && expiresAt.time.secs - RefreshMargin < MinTimestamp
    ensures r == Err(TypeError) <==>
              || expiresAt.Text?
              || (expiresAt.At? && !expiresAt.time.aware && expiresAt.time.secs - RefreshMargin >= MinTimestamp)
    ensures r.Err? ==> r.error == TypeError || r.error == OverflowError
  {
    match expiresAt
    case NoStamp => Ok(false)
    case Text(_) => Err(TypeError)
    case At(t) =>
      if t.secs - RefreshMargin < MinTimestamp then Err(OverflowError)
      else if !t.aware then Err(TypeError)
      else Ok(t.secs - RefreshMargin > now)
  }

  /** The configuration the client reads from the environment. */
  datatype SageConfig = SageConfig(tokenUrl: string, clientId: Option<string>, clientSecret: Option<string>)

  /** One form POST to the Sage token endpoint. */
  datatype RefreshRequest = RefreshRequest(url: string, form: seq<(string, Value)>)

  /** `_refresh_sage_token(refresh_token)`'s request. The HTTP library leaves
      out a form field whose value is None, so an unset client id or secret
      is simply not sent. */
  function RefreshRequestFor(cfg: SageConfig, refreshToken: Value): (req: RefreshRequest)
    ensures req.url == cfg.tokenUrl
    ensures |req.form| >= 2
    ensures req.form[..2] == [("grant_type", Str("refresh_token")), ("refresh_token", refreshToken)]
    ensures cfg.clientId.Some? ==> ("client_id", Str(cfg.clientId.value)) in req.form
    ensures cfg.clientId.None? ==> forall i :: 0 <= i < |req.form| ==> req.form[i].0 != "client_id"
    ensures cfg.clientSecret.Some? ==> ("client_secret", Str(cfg.clientSecret.value)) in req.form
    ensures cfg.clientSecret.None? ==> forall i :: 0 <= i < |req.form| ==> req.form[i].0 != "client_secret"
  {
    RefreshRequest(
      cfg.tokenUrl,
      [("grant_type", Str("refresh_token")), ("refresh_token", refreshToken)]
      + (if cfg.clientId.Some? then [("client_id", Str(cfg.clientId.value))] else [])
      + (if cfg.clientSecret.Some? then [("client_secret", Str(cfg.clientSecret.value))] else []))
  }

  /** The refresh response as stored: when it has no `refresh_token` key the
      old (truthy) refresh token is put in. */
  function WithRefreshToken(response: TokenMap, refreshToken: Value): (m: TokenMap)
    requires PyTruthy(refreshToken)
    ensures "refresh_token" in m
    ensures "refresh_token" in response ==> m == response
    ensures "refresh_token" !in response ==> m == response["refresh_token" := refreshToken]
  {
    if "refresh_token" !in response && PyTruthy(refreshToken) then response["refresh_token" := refreshToken]
    else response
  }

  /** What one call does: its result, the refresh request it sends (if any)
      and the row it appends (if any). */
  datatype SageTrace = SageTrace(result: Result<Value, PyError>, refresh: Option<RefreshRequest>, saved: Option<Row>)

  /** `get_valid_sage_access_token()` over a snapshot of the table. `checkTime`
      is the clock `_is_token_valid` reads, `insertTime` the one `insert_token`
      reads; `answer` is the Sage token endpoint and `accepted` the
      warehouse's verdict on the insert. */
  function SageAccessToken(cfg: SageConfig, rows: seq<Row>, parse: string -> Option<DateTime>, checkTime: int,
                           answer: RefreshRequest -> Option<TokenMap>, insertTime: int, accepted: bool): (t: SageTrace)
    // no stored row: an error, and nothing else happens
    ensures LatestOf(rows, SageProvider).None? ==> t == SageTrace(Err(NoSageToken), None, None)
    // a token more than the margin away from expiry is returned as stored
    ensures var latest := LatestRecord(rows, SageProvider, parse);
            latest.Some? && IsTokenValid(latest.value.expiresAt, checkTime) == Ok(true) ==>
              t == SageTrace(Ok(latest.value.accessToken), None, None)
    // an expiry `_is_token_valid` raises on passes its error on, before any refresh
    ensures var latest := LatestRecord(rows, SageProvider, parse);
            latest.Some? && IsTokenValid(latest.value.expiresAt, checkTime).Err? ==>
              t == SageTrace(Err(IsTokenValid(latest.value.expiresAt, checkTime).error), None, None)
    // expired and no refresh token: an error, no refresh, no insert
    ensures var latest := LatestRecord(rows, SageProvider, parse);
            latest.Some? && IsTokenValid(latest.value.expiresAt, checkTime) == Ok(false)
            && !PyTruthy(latest.value.refreshToken) ==>
              t == SageTrace(Err(NoRefreshToken), None, None)
    // a refresh happens exactly for an expired token with a refresh token, and sends it
    ensures var latest := LatestRecord(rows, SageProvider, parse);
            t.refresh.Some? <==>
              && latest.Some?
              && IsTokenValid(latest.value.expiresAt, checkTime) == Ok(false)
              && PyTruthy(latest.value.refreshToken)
    ensures t.refresh.Some? ==>
              t.refresh.value == RefreshRequestFor(cfg, LatestRecord(rows, SageProvider, parse).value.refreshToken)
    // after a refresh: a failed call raises and saves nothing; an answer is
    // stored as exactly one "sage" row (if it builds and is accepted) and its
    // access token is returned, or KeyError after the append when it has none
    ensures t.refresh.Some? && answer(t.refresh.value).None? ==>
              t == SageTrace(Err(HttpError), t.refresh, None)
    ensures t.refresh.Some? && answer(t.refresh.value).Some? ==>
              var oldRefresh := LatestRecord(rows, SageProvider, parse).value.refreshToken;
              var response := answer(t.refresh.value).value;
              var built := PyTokenRow(SageProvider, WithRefreshToken(response, oldRefresh), insertTime);
              && (built.Err? ==> t == SageTrace(Err(built.error), t.refresh, None))
              && (built.Ok? && !accepted ==> t == SageTrace(Err(InsertFailed), t.refresh, None))
              && (built.Ok? && accepted ==>
                    && t.saved == Some(built.value)
                    && t.result == (if "access_token" in response then Ok(response["access_token"])
                                    else Err(KeyError("access_token"))))
    // the appended row is a "sage" row of the response, carrying the old refresh token when the response has none
    ensures t.saved.Some? ==>
              && t.refresh.Some?
              && answer(t.refresh.value).Some?
              && accepted
              && var oldRefresh := LatestRecord(rows, SageProvider, parse).value.refreshToken;
                 var response := answer(t.refresh.value).value;
                 && t.saved.value.provider == SageProvider
                 && t.saved.value.obtainedAt == insertTime
                 && t.saved.value.refreshToken == (if "refresh_token" in response then response["refresh_token"] else oldRefresh)
                 && PyTokenRow(SageProvider, WithRefreshToken(response, oldRefresh), insertTime) == Ok(t.saved.value)
    // after a refresh, success means a row was appended and the response's access token is returned
    ensures t.refresh.Some? && t.result.Ok? ==>
              && t.saved.Some?
              && "access_token" in answer(t.refresh.value).value
              && t.result.value == answer(t.refresh.value).value["access_token"]
  {
    match LatestRecord(rows, SageProvider, parse)
    case None => SageTrace(Err(NoSageToken), None, None)
    case Some(row) =>
      match IsTokenValid(row.expiresAt, checkTime)
      case Err(e) => SageTrace(Err(e), None, None)
      case Ok(valid) =>
        if valid then SageTrace(Ok(row.accessToken), None, None)
        else if !PyTruthy(row.refreshToken) then SageTrace(Err(NoRefreshToken), None, None)
        else
          var req := RefreshRequestFor(cfg, row.refreshToken);
          match answer(req)
          case None => SageTrace(Err(HttpError), Some(req), None)
          case Some(response) =>
            var newData := WithRefreshToken(response, row.refreshToken);
            match PyTokenRow(SageProvider, newData, insertTime)
            case Err(e) => SageTrace(Err(e), Some(req), None)
            case Ok(newRow) =>
              if !accepted then SageTrace(Err(InsertFailed), Some(req), None)
              else if "access_token" in newData then SageTrace(Ok(newData["access_token"]), Some(req), Some(newRow))
              else SageTrace(Err(KeyError("access_token")), Some(req), Some(newRow))
  }

  /** `get_valid_sage_access_token()` against the table and the Sage token
      endpoint. */
  method GetValidSageAccessToken(table: TokenTable, sage: Oracle.Endpoint<RefreshRequest, Option<TokenMap>>,
                                 cfg: SageConfig, parse: string -> Option<DateTime>,
                                 checkTime: int, insertTime: int, accepted: bool)
    returns (res: Result<Value, PyError>)
    modifies table, sage
    ensures var t := SageAccessToken(cfg, old(table.rows), parse, checkTime, sage.answer, insertTime, accepted);
            && res == t.result
            && sage.received == old(sage.received) + AsSeq(t.refresh)
            && table.rows == old(table.rows) + AsSeq(t.saved)
    ensures old(table.Valid()) ==> table.Valid()
  {
    var row := GetLatestToken(table, SageProvider, parse);
    if row.None? {
      return Err(NoSageToken);
    }
    var expiresAt := row.value.expiresAt;
    var refreshToken := row.value.refreshToken;
    var valid := IsTokenValid(expiresAt, checkTime);
    if valid.Err? {
      return Err(valid.error);
    }
    if valid.value {
      return Ok(row.value.accessToken);
    }
    if !PyTruthy(refreshToken) {
      return Err(NoRefreshToken);
    }
    var response := sage.Post(RefreshRequestFor(cfg, refreshToken));
    if response.None? {
      return Err(HttpError);
    }
    var newData := response.value;
    if "refresh_token" !in newData && PyTruthy(refreshToken) {
      newData := newData["refresh_token" := refreshToken];
    }
    var inserted := InsertToken(table, SageProvider, newData, insertTime, accepted);
    if inserted.Err? {
      return Err(inserted.error);
    }
    if "access_token" !in newData {
      return Err(KeyError("access_token"));
    }
    res := Ok(newData["access_token"]);
  }

  /** A token obtained by a refresh is handed out again, with no second
      refresh and no new row, by any later call whose clock is still more
      than the margin before its expiry (a clock reading is a datetime, so
      it lies in the years 1..9999), provided the refresh's clock was not
      behind the earlier "sage" rows. */
  lemma RefreshedTokenIsReused(cfg: SageConfig, rows: seq<Row>, parse: string -> Option<DateTime>, checkTime: int,
                               answer: RefreshRequest -> Option<TokenMap>, insertTime: int, accepted: bool,
                               laterCheck: int, laterAnswer: RefreshRequest -> Option<TokenMap>,
                               laterInsert: int, laterAccepted: bool)
    requires forall i :: 0 <= i < |rows| && rows[i].provider == SageProvider ==> rows[i].obtainedAt <= insertTime
    requires InDatetimeRange(laterCheck)
    requires var t := SageAccessToken(cfg, rows, parse, checkTime, answer, insertTime, accepted);
             && t.saved.Some? && t.result.Ok?
             && t.saved.value.expiresAt.At?
             && t.saved.value.expiresAt.time.secs - RefreshMargin > laterCheck
    ensures var t := SageAccessToken(cfg, rows, parse, checkTime, answer, insertTime, accepted);
            SageAccessToken(cfg, rows + [t.saved.value], parse, laterCheck, laterAnswer, laterInsert, laterAccepted)
              == SageTrace(t.result, None, None)
  {
    var t := SageAccessToken(cfg, rows, parse, checkTime, answer, insertTime, accepted);
    var saved := t.saved.value;
    LatestAfterAppend(rows, saved);
    ConsistentRowNeedsNoNormalising(saved, parse);
    assert LatestRecord(rows + [saved], SageProvider, parse) == Some(saved);
    assert IsTokenValid(saved.expiresAt, laterCheck) == Ok(true);
  }

  /** On a table only this system wrote, the latest "sage" row's expiry is
      absent or tz-aware, so `_is_token_valid` never raises TypeError on it,
      and it raises at all only for an expiry within the margin of year 1:
      a TypeError can only come from a refreshed payload. */
  lemma StoredExpiryIsComparable(cfg: SageConfig, rows: seq<Row>, parse: string -> Option<DateTime>, checkTime: int,
                                 answer: RefreshRequest -> Option<TokenMap>, insertTime: int, accepted: bool)
    requires AllConsistent(rows)
    ensures var latest := LatestRecord(rows, SageProvider, parse);
            latest.Some? ==>
              && IsTokenValid(latest.value.expiresAt, checkTime) != Err(TypeError)
              && (IsTokenValid(latest.value.expiresAt, checkTime).Ok? <==>
                    !latest.value.expiresAt.At? || latest.value.expiresAt.time.secs - RefreshMargin >= MinTimestamp)
    ensures var t := SageAccessToken(cfg, rows, parse, checkTime, answer, insertTime, accepted);
            t.result == Err(TypeError) ==> t.refresh.Some?
  {
    LatestRecordOfConsistent(rows, SageProvider, parse);
  }

  /** `get_sage_headers()` for the token it obtained; `str()` of the token
      goes after "Bearer ". */
  function SageHeaders(token: Value): (h: seq<(string, string)>)
    ensures |h| == 2 && h[1] == ("Accept", "application/json")
    ensures h[0].0 == "Authorization" && |h[0].1| >= 7 && h[0].1[..7] == "Bearer "
    ensures token.Str? ==> h[0].1 == "Bearer " + token.s
  {
    [("Authorization", "Bearer " + PyStr(token)), ("Accept", "application/json")]
  }

  method GetSageHeaders(table: TokenTable, sage: Oracle.Endpoint<RefreshRequest, Option<TokenMap>>,
                        cfg: SageConfig, parse: string -> Option<DateTime>,
                        checkTime: int, insertTime: int, accepted: bool)
    returns (res: Result<seq<(string, string)>, PyError>)
    modifies table, sage
    ensures var t := SageAccessToken(cfg, old(table.rows), parse, checkTime, sage.answer, insertTime, accepted);
            && (t.result.Ok? ==> res == Ok(SageHeaders(t.result.value)))
            && (t.result.Err? ==> res == Err(t.result.error))
            && sage.received == old(sage.received) + AsSeq(t.refresh)
            && table.rows == old(table.rows) + AsSeq(t.saved)
    ensures old(table.Valid()) ==> table.Valid()
  {
    var token := GetValidSageAccessToken(table, sage, cfg, parse, checkTime, insertTime, accepted);
    if token.Err? {
      return Err(token.error);
    }
    res := Ok(SageHeaders(token.value));
  }
}
