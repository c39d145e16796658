# Multi-provider OAuth token hub — Dafny model

This project models the core of a small token hub. A Node/Express server runs
the OAuth authorization-code flow for Sage, eBay and Amazon. It stores every
token it obtains as a new row of a BigQuery table and has a status route that
reports the latest row per provider, with the access token redacted. A Python
client reads the latest Sage row, refreshes the token when it is within 60
seconds of expiry, and appends the refreshed token as a new row. A Python
loader turns a Sage contacts response into rows of a contacts table.

Modules:

- `Basics`: `Option`, `Result`, and `AsSeq`, which turns an optional item into a sequence of at most one.
- `Oracle`: `Endpoint`, a remote HTTP endpoint modelled as a fixed answer function. It records every request posted to it.
- `Decimal`: decimal text of integers and the digit-string parser used for expiry coercion.
- `Json`: the loose JSON/Python value of token payloads. It covers JavaScript and Python truthiness, JavaScript `||`, Python `dict.get` and `str()`, and the number coercion of `expires_in`.
- `FormEncoding`: `application/x-www-form-urlencoded` serialisation of query parameters, as `URLSearchParams` does it.
- `TokenStore`: the token row, the append-only token table, and "the latest row for a provider".
- `AuthUrls`: the three authorization URL builders.
- `Routes`: the JavaScript row builder and insert, and the `/auth`, `/oauth/callback` and `/status` routes.
- `BigQueryTokens`: the Python `insert_token` and `get_latest_token`.
- `SageClient`: token validity, refresh, and Sage API headers.
- `SagePipeline`: the contacts loader.

Clocks, the HTTP endpoints and the warehouse's verdict on an insert are
parameters. Clocks are integer seconds, or milliseconds for the state token.
An endpoint is an `Oracle.Endpoint` or an answer function. The warehouse
verdict is an `accepted` flag. Every operation is proved against a
specification function. Lemmas then relate operations to one another: a saved
token is what `/status` reports next, and a refreshed token is reused without
a second refresh.

## Model

| member | source | states |
|---|---|---|
| Decimal.ParseIntToString | python/bigquery_tokens.py:73 | The decimal text of any integer parses back to that integer. Numeric-string expiries therefore coerce to the number they spell. |
| Decimal.IntToStringCanonical | python/bigquery_tokens.py:73 | Every integer's decimal text is canonical: an optional `-`, no superfluous leading zero, never `-0`. |
| Decimal.CanonicalDigits | python/bigquery_tokens.py:73 | Digits with no superfluous leading zero are exactly the decimal text of the number they spell. |
| Decimal.ParseIntCanonical | python/bigquery_tokens.py:73 | A canonical text parses, and the integer it parses to is written back as the same text. With `ParseIntToString`, canonical texts and integers correspond one to one. |
| FormEncoding.FormEncode | server.js:67-75 | A form-encoded component contains only unreserved characters, `+` and `%`. |
| FormEncoding.Field | server.js:67-75 | An encoded `name=value` field never contains `&` or `?`. |
| FormEncoding.Query | server.js:67-75 | A serialised parameter list contains no `?`. |
| FormEncoding.QueryFields | server.js:67-75 | Splitting a serialised query at `&` gives back exactly the encoded fields, one per parameter, in order. |
| AuthUrls.ProviderNamed | server.js:175-183 | Exactly the names "sage", "ebay" and "amazon" are providers, each mapped to its own provider. |
| AuthUrls.AuthParams | server.js:63-98 | Each builder sends five parameters. `response_type=code` and `client_id` come first. `redirect_uri` and `scope` follow, then `state` with the given state. |
| AuthUrls.Joined | server.js:74-75 | Joining a base, a separator and a query keeps the base as a prefix and puts the separator right after it. Its `?` count grows only by the separator's. Its fields after the separator are the encoded parameters. |
| AuthUrls.SageAuthUrl | server.js:63-76 | The Sage URL starts with its base, followed by `&` when the base already holds a `?` and `?` otherwise. It holds exactly one `?` when the base had none and exactly the base's `?`s when it had some, so no second `?` appears. |
| AuthUrls.EbayAuthUrl | server.js:78-87 | The eBay URL is its base followed by `?`, whatever the base holds. It has exactly one `?` more than the base, so a base that already has a query gets a second `?`. |
| AuthUrls.AmazonAuthUrl | server.js:89-98 | The Amazon URL is its base followed by `?`. It has exactly one `?` more than the base. |
| AuthUrls.AuthUrlFields | server.js:63-98 | Every authorization URL is its base, one separator, and a query whose `&`-separated fields are exactly the encoded parameters of `AuthParams`, in order. |
| AuthUrls.AuthUrlCarriesState | server.js:170-185 | Every authorization URL starts with its base and carries the state as its last query field. |
| Routes.StoredExpiresIn | server.js:35 | The stored expiry is `expires_in` if truthy, else `expires` if truthy, else null. |
| Json.SecondsOfCanonicalText | server.js:39-41 | A canonical string `expires_in` (no `+`, no superfluous leading zero) coerces to `n` iff it is the decimal text of `n`. The same coercion stands for `int(expires_in)` at python/bigquery_tokens.py:73. |
| Routes.JsTokenRow | server.js:33-57 | A row is built exactly when the clock and the expiry are within the JavaScript date range. It is consistent: no expiry has no `expires_at`, otherwise `expires_at` is `obtained_at` plus the coerced seconds. It carries the provider and the clock. The tokens and the scope are the truthy given value or null. `raw` is the payload. |
| Routes.SaveToken | server.js:33-57 | Appends exactly the row `JsTokenRow` describes when that row exists and the warehouse accepts it. Otherwise the table is unchanged and the error is reported. The table's consistency invariant is kept. |
| Routes.StateToken | server.js:172 | The state is `state-<provider>-` followed by the millisecond clock, which parses back from the token. |
| Routes.Initiate | server.js:170-186 | Unknown providers get 400 "Unknown provider". Known providers get a redirect to their authorization URL whose state is `state-<provider>-<ms>`, and that URL carries the state. |
| Routes.ExchangeRequestFor | server.js:102-165 | Each code exchange posts `grant_type=authorization_code` and the code first. eBay alone uses Basic authentication and keeps the client credentials out of the form. Sage and Amazon send the client secret in the form. |
| Routes.ExchangeRequestTargets | server.js:102-165 | Each exchange posts to its own provider's token URL, and its form ends with `redirect_uri`. For Sage that is the callback under the public base URL; eBay and Amazon use their configured redirect URIs. Sage and Amazon also send the client id in the form. |
| Routes.RedirectUriAgrees | server.js:102-165 | The redirect URI an exchange sends is the one the same provider's authorisation URL carried (server.js:63-98). |
| Routes.ProviderErrorMessage | server.js:193-197 | The message names the provider, then gives the provider's error description when one was sent and its error code otherwise. The detail is never empty. |
| Routes.Callback | server.js:189-233 | The callback checks run in order: a provider error, then a missing code, then an unknown provider. Each gives 400 with no exchange. Otherwise exactly one exchange with that provider's request is made. A row is saved iff the exchange answered, the row could be built and the insert was accepted. The confirmation page appears iff a row was saved. Every later failure is 500. |
| Routes.HandleCallback | server.js:189-233 | The route's response, the requests it posts and the rows it appends are exactly those of `Callback`. The table invariant is kept. |
| Routes.ExchangeAndSave | server.js:202-232 | The route's `try` block posts exactly the one exchange request. It appends the row of the answered payload when that row builds and is accepted, and then confirms. Every other outcome is the 500 failure with the table unchanged. The table invariant is kept. |
| Routes.Redact | server.js:254-265 | The status copy shows "REDACTED" iff the stored access token is truthy, else null. It shows the refresh token only as a truthiness flag. All other fields are copied unchanged. |
| Routes.Status | server.js:236-272 | A failed query gives 500. A successful query gives 404 iff no row has the provider, and otherwise 200 with the redacted latest row. |
| Routes.StatusAfterCallback | server.js:189-272 | After a successful callback whose clock is not behind the provider's earlier rows, `/status` reports the row just saved, redacted. |
| Routes.StatusOfOtherProvider | server.js:189-272 | A callback for one provider never changes another provider's status. |
| TokenStore.LatestOf | server.js:239-254 | There is no latest row iff no row has the provider. Otherwise it is a row of that provider with the greatest `obtained_at`. |
| TokenStore.LatestAfterAppend | python/bigquery_tokens.py:16-35 | A row appended with an `obtained_at` not behind its provider's earlier rows becomes that provider's latest row. |
| TokenStore.LatestOfOtherProvider | python/bigquery_tokens.py:16-35 | Appending a row leaves every other provider's latest row unchanged. |
| TokenStore.TokenTable.Insert | python/bigquery_tokens.py:87-89 | An accepted insert appends exactly the row. A rejected one changes nothing. Appending a consistent row keeps every row consistent. |
| BigQueryTokens.PyTokenRow | python/bigquery_tokens.py:62-85 | A row is built iff `expires_in` is missing or null, or coerces with `int()` to seconds inside the datetime range. Its error is ValueError for a bad string, TypeError for other values, and out-of-range otherwise. The row is consistent, and each field is the payload's value for its key (None when missing). |
| BigQueryTokens.InsertToken | python/bigquery_tokens.py:62-89 | Appends exactly the row `PyTokenRow` describes when it exists and the warehouse accepts it. Otherwise it raises and leaves the table unchanged. The table invariant is kept. |
| BigQueryTokens.Normalized | python/bigquery_tokens.py:37-48 | Normalising keeps "no expiry" as no expiry. It always yields a tz-aware time when it yields a time. It keeps aware times, marks naive times as UTC, parses ISO strings, and leaves unparsable strings as they are. |
| BigQueryTokens.NormalizeExpiresAt | python/bigquery_tokens.py:37-48 | The type checks applied in sequence give the normalised stamp. |
| BigQueryTokens.ConsistentRowNeedsNoNormalising | python/bigquery_tokens.py:37-48 | A row either writer stores reads back with its `expires_at` unchanged. |
| BigQueryTokens.LatestRecordOfConsistent | python/bigquery_tokens.py:37-48 | When every row is consistent, as the writers at server.js:38-42 and python/bigquery_tokens.py:70-74 keep it, reading back the latest row changes nothing. |
| BigQueryTokens.LatestRecord | python/bigquery_tokens.py:11-59 | The record is None iff no row has the provider. Otherwise it is one of that provider's rows with the greatest `obtained_at`, with only `expires_at` normalised. |
| BigQueryTokens.GetLatestToken | python/bigquery_tokens.py:11-59 | Reading the table returns exactly `LatestRecord` of its rows. On a table whose rows are all consistent, that is the latest row unchanged. |
| SageClient.IsTokenValid | python/sage_client.py:18-23 | No expiry means invalid. A datetime expiry less than 60 seconds after 0001-01-01 raises OverflowError when the margin is subtracted. Otherwise an aware expiry is valid iff it is more than 60 seconds after the clock, and a string or naive expiry raises TypeError. |
| SageClient.RefreshRequestFor | python/sage_client.py:26-42 | The refresh posts `grant_type=refresh_token` and the refresh token first. The client id and secret are sent iff they are configured. |
| SageClient.WithRefreshToken | python/sage_client.py:69-71 | The stored refresh data always holds a refresh token. It is the response's own when present, else the old one. |
| SageClient.SageAccessToken | python/sage_client.py:45-75 | No Sage row is an error with no side effect. An expiry the validity check raises on passes that error (TypeError or OverflowError) on, before any refresh. A still-valid token is returned as stored, with no refresh. An expired token without a refresh token is an error without a refresh. A refresh is sent iff the token is expired and a refresh token exists, and it sends that token. A failed refresh call raises HttpError and saves nothing. An answered refresh whose row cannot be built raises that error, and a rejected insert raises InsertFailed; neither saves anything. Otherwise exactly one "sage" row of the response is appended, carrying the old refresh token when the response has none. The response's access token is returned, or KeyError is raised after the append when it has none. |
| SageClient.GetValidSageAccessToken | python/sage_client.py:45-75 | The result, the refresh requests posted and the rows appended are exactly those of `SageAccessToken`. The table invariant is kept. |
| SageClient.RefreshedTokenIsReused | python/sage_client.py:45-75 | After a successful refresh, a later call whose clock is still more than the margin before the new expiry returns the same token. It sends no refresh and appends no row. The later clock is a datetime, so it lies in the years 1..9999. |
| SageClient.StoredExpiryIsComparable | python/sage_client.py:18-23 | On a table whose rows are all consistent, the latest Sage expiry is absent or tz-aware, so the validity check never raises TypeError on it. It raises at all only for an expiry less than 60 seconds after 0001-01-01. A TypeError can only come after a refresh. |
| SageClient.SageHeaders | python/sage_client.py:78-86 | There are two headers. Authorization is "Bearer " followed by the token, and Accept is `application/json`. |
| SageClient.GetSageHeaders | python/sage_client.py:78-86 | The headers are built from the token `SageAccessToken` yields, and its error is passed through. Its effects are those of obtaining the token. |
| SagePipeline.ItemsOf | python/run_sage_pipeline.py:17 | The contact list is `$items` when truthy, else `items`. It is truthy iff either of them is. |
| SagePipeline.ContactOf | python/run_sage_pipeline.py:24-35 | A contact row copies id, name and contact type. Its email is the address of an email object, and null otherwise. |
| SagePipeline.MapContacts | python/run_sage_pipeline.py:22-35 | The loop succeeds iff every item is a dict, and then gives one row per item, in order. Otherwise it fails with AttributeError. |
| SagePipeline.NotAListError | python/run_sage_pipeline.py:23-25 | Iterating a truthy non-list raises AttributeError for strings and dicts and TypeError for numbers and booleans. |
| SagePipeline.Contacts | python/run_sage_pipeline.py:22-35 | A list of dicts gives one contact row per item, in order. |
| SagePipeline.ContactTable.InsertRows | python/run_sage_pipeline.py:37-42 | An accepted batch is appended whole. A rejected one reports errors and changes nothing. |
| SagePipeline.LoadToWarehouse | python/run_sage_pipeline.py:9-42 | A falsy list loads nothing. A truthy non-list or a non-dict item raises and leaves the table unchanged. Otherwise the contacts' rows are appended when accepted and the count is reported. Rejected inserts are reported, not raised. |

## Left out

- Credentials, the BigQuery client set-up and the environment file loading are left out. Configuration is a map of environment variables (`Env`) or a `SageConfig`.
- The HTML confirmation page is reduced to `Confirmation(provider)`. Static files and the server start-up are not modelled.
- The Basic authentication header is modelled as the client id and secret pair, not their base64 text. Request headers other than authentication (Content-Type, Accept, timeouts) are not modelled.
- The `expires_at` column is taken to be a BigQuery TIMESTAMP column, so the ISO text that server.js:41 writes reads back as a tz-aware datetime. BigQueryTokens.ConsistentRowNeedsNoNormalising, BigQueryTokens.LatestRecordOfConsistent and SageClient.StoredExpiryIsComparable hold only under that assumption. With a STRING column the text would come back as a string, and `_is_token_valid` would raise TypeError on it.
- ISO 8601 formatting of timestamps is not modelled. Times are integer seconds. Millisecond and fractional-second precision of the JavaScript and Python clocks is dropped.
- `raw` is kept as the payload itself. Its serialisation (`JSON.stringify` or Python `str`) is not modelled.
- Json.Seconds: the coercion of `expires_in` covers numbers, booleans and ASCII decimal digit strings with an optional `-` or `+` sign. The following are treated as failures: surrounding whitespace, a whitespace-only string (which `Number()` reads as 0), Python's `_` digit separators, non-ASCII decimal digits that `int()` accepts, fractions, exponents, `0x`/`0b`/`0o` prefixes and array coercions of `Number()`/`int()`. Floats are not modelled.
- Json.Seconds: `int()` of a digit string longer than 4300 digits raises ValueError in Python. The model reads it, so `insert_token` fails with OutOfRange instead.
- Json.PyStr: `str()` of lists and dicts is a placeholder. Only None, booleans, integers and strings are rendered exactly.
- Ties in `obtained_at` are resolved in favour of the later-appended row. The warehouse does not specify an order among ties.
- A failing warehouse query on the Python read path and a failing `get_table` are not modelled. Only the status route's query failure is a parameter.
- Per-row partial failures of `insert_rows` are not modelled. A batch is accepted or rejected as a whole.
- Express query values that are arrays are not modelled. Callback query parameters are single strings or absent.
- Token endpoint responses that are not JSON objects are not modelled. An endpoint answers a map or fails.
- `fetch_sage_customers` and the pipeline's `main` are not part of this model: they are plain HTTP calls and printing.
- Concurrency between overlapping callbacks or refreshes is not modelled. Each operation runs on its own against a snapshot of the table.
