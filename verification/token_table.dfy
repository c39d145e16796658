/** The append-only warehouse table of token rows shared by the Node server
    and the Python client. */
module TokenStore {
  import opened Basics
  import opened Json

  /** A point in time in whole seconds; `aware` is false for a naive
      (zone-less) datetime, whose seconds are a wall-clock reading. */
  datatype DateTime = DateTime(secs: int, aware: bool)

  /** An `expires_at` cell as the warehouse client hands it back: null, a
      string, or a datetime. */
  datatype Stamp = NoStamp | Text(text: string) | At(time: DateTime)

  /** One row per token event; `raw` is the provider's payload itself (its
      serialised form is not modelled). */
  datatype Row = Row(
    provider: string,
    accessToken: Value,
    refreshToken: Value,
    expiresIn: Value,
    expiresAt: Stamp,
    scope: Value,
    obtainedAt: int,
    raw: TokenMap)

  /** The derivation every writer of this system keeps: `expires_at` is
      absent iff `expires_in` is, and otherwise lies `expires_in` seconds
      after `obtained_at`. */
  predicate Consistent(row: Row)
  {
    if row.expiresIn == Null then row.expiresAt == NoStamp
    else
      Seconds(row.expiresIn).Some?
      && row.expiresAt == At(DateTime(row.obtainedAt + Seconds(row.expiresIn).value, true))
  }

  predicate AllConsistent(rows: seq<Row>)
  {
    forall i :: 0 <= i < |rows| ==> Consistent(rows[i])
  }

  /** The most recent row for `provider`: greatest `obtained_at`, and among
      rows with equal `obtained_at` the one appended last. */
  function LatestOf(rows: seq<Row>, provider: string): (r: Option<Row>)
    ensures r.None? <==> forall i :: 0 <= i < |rows| ==> rows[i].provider != provider
    ensures r.Some? ==> r.value in rows && r.value.provider == provider
    ensures r.Some? ==> forall i :: 0 <= i < |rows| && rows[i].provider == provider ==>
                          rows[i].obtainedAt <= r.value.obtainedAt
  {
    if rows == [] then None
    else
      var last := rows[|rows| - 1];
      var earlier := LatestOf(rows[..|rows| - 1], provider);
      if last.provider != provider then earlier
      else if earlier.Some? && earlier.value.obtainedAt > last.obtainedAt then earlier
      else Some(last)
  }

  /** A row no older than every row of its provider becomes that provider's
      latest once appended. */
  lemma LatestAfterAppend(rows: seq<Row>, row: Row)
    requires forall i :: 0 <= i < |rows| && rows[i].provider == row.provider ==>
               rows[i].obtainedAt <= row.obtainedAt
    ensures LatestOf(rows + [row], row.provider) == Some(row)
  {
    assert (rows + [row])[..|rows|] == rows;
  }

  /** Appending a row leaves every other provider's latest row unchanged. */
  lemma LatestOfOtherProvider(rows: seq<Row>, row: Row, provider: string)
    requires provider != row.provider
    ensures LatestOf(rows + [row], provider) == LatestOf(rows, provider)
  {
    assert (rows + [row])[..|rows|] == rows;
  }

  /** The warehouse table. Rows are only ever appended. */
  class TokenTable {
    var rows: seq<Row>

    /** Every row in the table was written by this system's writers. */
    ghost predicate Valid()
      reads this
    {
      AllConsistent(rows)
    }

    constructor ()
      ensures rows == [] && Valid()
    {
      rows := [];
    }

    /** A single-row insert; `accepted` is the warehouse's verdict. A
        rejected insert leaves the table as it was. */
    method Insert(row: Row, accepted: bool) returns (ok: bool)
      modifies this
      ensures ok == accepted
      ensures rows == if accepted then old(rows) + [row] else old(rows)
      ensures old(Valid()) && Consistent(row) ==> Valid()
    {
      ok := accepted;
      if accepted {
        rows := rows + [row];
      }
    }
  }
}
