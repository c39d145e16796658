/** The Python side of the token table: `insert_token` and
    `get_latest_token`. */
module BigQueryTokens {
  import opened Basics
  import opened Json
  import opened TokenStore

  /** The exceptions the Python token code lets escape. */
  datatype PyError =
    | ValueError            // int() of a string that is not a number
    | TypeError             // int() of a container; a datetime compared with a str or a naive datetime
    | OutOfRange            // fromtimestamp() outside the years 1..9999
    | InsertFailed          // RuntimeError: insert_rows reported errors
    | NoSageToken           // RuntimeError: no row for "sage"
    | NoRefreshToken        // RuntimeError: expired and nothing to refresh with
    | HttpError             // raise_for_status() on the refresh call
    | KeyError(key: string) // a missing key read with []
    | AttributeError        // `.get` on something that is not a dict
    | OverflowError         // a datetime moved before 0001-01-01

  /** The seconds of 0001-01-01T00:00:00Z and 9999-12-31T23:59:59Z. */
  const MinTimestamp := -62135596800
  const MaxTimestamp := 253402300799

  predicate InDatetimeRange(t: int)
  {
    MinTimestamp <= t <= MaxTimestamp
  }

  /** What `int(v)` raises when `v` is not a number. */
  function IntError(v: Value): PyError
  {
    if v.Str? then ValueError else TypeError
  }

  /** The row `insert_token(provider, token_data)` appends at clock reading
      `now`, or the exception computing `expires_at` raises. */
  function PyTokenRow(provider: string, data: TokenMap, now: int): (r: Result<Row, PyError>)
    ensures r.Ok? <==>
              || Get(data, "expires_in") == Null
              || (&& Seconds(Get(data, "expires_in")).Some?
                  && InDatetimeRange(now + Seconds(Get(data, "expires_in")).value))
    ensures r.Err? ==> r.error == (if Seconds(Get(data, "expires_in")).None?
                                   then IntError(Get(data, "expires_in")) else OutOfRange)
    ensures r.Ok? ==> Consistent(r.value)
    ensures r.Ok? ==> && r.value.provider == provider
                      && r.value.obtainedAt == now
                      && r.value.accessToken == Get(data, "access_token")
                      && r.value.refreshToken == Get(data, "refresh_token")
                      && r.value.expiresIn == Get(data, "expires_in")
                      && r.value.scope == Get(data, "scope")
                      && r.value.raw == data
  {
    var expiresIn := Get(data, "expires_in");
    var expiresAt :=
      if expiresIn == Null then Ok(NoStamp)
      else match Seconds(expiresIn)
        case None => Err(IntError(expiresIn))
        case Some(n) => if InDatetimeRange(now + n) then Ok(At(DateTime(now + n, true))) else Err(OutOfRange);
    match expiresAt
    case Err(e) => Err(e)
    case Ok(stamp) =>
      Ok(Row(provider,
             Get(data, "access_token"),
             Get(data, "refresh_token"),
             expiresIn,
             stamp,
             Get(data, "scope"),
             now,
             data))
  }

  /** `insert_token`: appends exactly one row, or raises and appends none. */
  method InsertToken(table: TokenTable, provider: string, data: TokenMap, now: int, accepted: bool)
    returns (res: Result<(), PyError>)
    modifies table
    ensures var r := PyTokenRow(provider, data, now);
            && (res.Ok? <==> r.Ok? && accepted)
            && (r.Err? ==> res == Err(r.error))
            && (r.Ok? && !accepted ==> res == Err(InsertFailed))
            && table.rows == old(table.rows) + (if res.Ok? then [r.value] else [])
    ensures old(table.Valid()) ==> table.Valid()
  {
    var expiresIn := Get(data, "expires_in");
    var expiresAt := NoStamp;
    if expiresIn != Null {
      var seconds := Seconds(expiresIn);
      if seconds.None? {
        return Err(IntError(expiresIn));
      }
      var timestamp := now + seconds.value;
      if !InDatetimeRange(timestamp) {
        return Err(OutOfRange);
      }
      expiresAt := At(DateTime(timestamp, true));
    }
    var row := Row(provider,
                   Get(data, "access_token"),
                   Get(data, "refresh_token"),
                   Get(data, "expires_in"),
                   expiresAt,
                   Get(data, "scope"),
                   now,
                   data);
    var ok := table.Insert(row, accepted);
    if !ok {
      return Err(InsertFailed);
    }
    res := Ok(());
  }

  /** The `expires_at` that `get_latest_token` hands out. `parse` stands for
      `datetime.fromisoformat`, which yields nothing when it raises. */
  function Normalized(s: Stamp, parse: string -> Option<DateTime>): (r: Stamp)
    ensures r == NoStamp <==> s == NoStamp
    ensures r.At? ==> r.time.aware
    ensures s.At? && s.time.aware ==> r == s
    ensures s.At? && !s.time.aware ==> r == At(DateTime(s.time.secs, true))
    ensures s.Text? && parse(s.text).None? ==> r == s
    ensures s.Text? && parse(s.text).Some? ==> r == At(DateTime(parse(s.text).value.secs, true))
  {
    match s
    case NoStamp => NoStamp
    case Text(text) =>
      (match parse(text)
       case None => s
       case Some(t) => At(DateTime(t.secs, true)))
    case At(t) => At(DateTime(t.secs, true))
  }

  /** The successive type checks of `get_latest_token` on `expires_at`. */
  method NormalizeExpiresAt(s: Stamp, parse: string -> Option<DateTime>) returns (r: Stamp)
    ensures r == Normalized(s, parse)
  {
    r := s;
    if r != NoStamp {
      if r.Text? {
        var parsed := parse(r.text);
        if parsed.Some? {
          r := At(parsed.value);
        }
      }
      if r.At? && !r.time.aware {
        r := At(DateTime(r.time.secs, true));
      }
    }
  }

  /** A row written by either writer of this system already carries a
      tz-aware `expires_at` (or none), so reading it back changes nothing. */
  lemma ConsistentRowNeedsNoNormalising(row: Row, parse: string -> Option<DateTime>)
    requires Consistent(row)
    ensures Normalized(row.expiresAt, parse) == row.expiresAt
  {
  }

  /** What `get_latest_token(provider)` returns over a snapshot of the table:
      nothing when no row has that provider, otherwise the latest row with
      only its `expires_at` normalised. */
  function LatestRecord(rows: seq<Row>, provider: string, parse: string -> Option<DateTime>): (r: Option<Row>)
    ensures r.None? <==> forall i :: 0 <= i < |rows| ==> rows[i].provider != provider
    ensures r.Some? ==>
              && (exists i :: 0 <= i < |rows| && rows[i].provider == provider
                              && r.value == rows[i].(expiresAt := Normalized(rows[i].expiresAt, parse)))
              && (forall i :: 0 <= i < |rows| && rows[i].provider == provider ==>
                                rows[i].obtainedAt <= r.value.obtainedAt)
  {
    match LatestOf(rows, provider)
    case None => None
    case Some(row) => Some(row.(expiresAt := Normalized(row.expiresAt, parse)))
  }

  /** On a table only this system wrote, reading the latest row back
      changes nothing about it. */
  lemma LatestRecordOfConsistent(rows: seq<Row>, provider: string, parse: string -> Option<DateTime>)
    requires AllConsistent(rows)
    ensures LatestRecord(rows, provider, parse) == LatestOf(rows, provider)
  {
    if LatestOf(rows, provider).Some? {
      var row := LatestOf(rows, provider).value;
      var i :| 0 <= i < |rows| && rows[i] == row;
      ConsistentRowNeedsNoNormalising(row, parse);
    }
  }

  method GetLatestToken(table: TokenTable, provider: string, parse: string -> Option<DateTime>)
    returns (record: Option<Row>)
    ensures record == LatestRecord(table.rows, provider, parse)
    ensures table.Valid() ==> record == LatestOf(table.rows, provider)
  {
    if table.Valid() {
      LatestRecordOfConsistent(table.rows, provider, parse);
    }
    var latest := LatestOf(table.rows, provider);
    if latest.None? {
      return None;
    }
    var row := latest.value;
    var expiresAt := NormalizeExpiresAt(row.expiresAt, parse);
    record := Some(Row(row.provider, row.accessToken, row.refreshToken, row.expiresIn,
                       expiresAt, row.scope, row.obtainedAt, row.raw));
  }
}
