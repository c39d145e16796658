/** The authorisation-URL builders of the Node server, one per provider. */
module AuthUrls {
  import opened Basics
  import opened FormEncoding

  /** `process.env`: the variables that are set. */
  type Env = map<string, string>

  datatype Provider = Sage | Ebay | Amazon

  /** The provider named in a route, if it is one the server knows. */
  function ProviderNamed(name: string): (p: Option<Provider>)
    ensures p == Some(Sage) <==> name == "sage"
    ensures p == Some(Ebay) <==> name == "ebay"
    ensures p == Some(Amazon) <==> name == "amazon"
  {
    if name == "sage" then Some(Sage)
    else if name == "ebay" then Some(Ebay)
    else if name == "amazon" then Some(Amazon)
    else None
  }

  /** `${process.env.NAME}`: an unset variable is rendered as "undefined",
      both in a template literal and as a URLSearchParams value. */
  function EnvText(env: Env, name: string): string
  {
    if name in env then env[name] else "undefined"
  }

  /** `process.env.NAME || fallback`: unset and empty both fall back. */
  function EnvOr(env: Env, name: string, fallback: string): string
  {
    if name in env && env[name] != "" then env[name] else fallback
  }

  const DefaultSageAuthUrl := "https://oauth.accounting.sage.com/authorize"
  const DefaultSageScope := "full_access"

  function SageRedirectUri(env: Env): string
  {
    EnvText(env, "PUBLIC_BASE_URL") + "/oauth/callback/sage"
  }

  function SageBase(env: Env): string
  {
    EnvOr(env, "SAGE_AUTH_URL", DefaultSageAuthUrl)
  }

  function SageParams(env: Env, state: string): seq<(string, string)>
  {
    [ ("response_type", "code"),
      ("client_id", EnvText(env, "SAGE_CLIENT_ID")),
      ("redirect_uri", SageRedirectUri(env)),
      ("scope", EnvOr(env, "SAGE_SCOPE", DefaultSageScope)),
      ("state", state) ]
  }

  /** The Sage base may already carry a query, so the separator is chosen:
      `&` after a base that holds a `?`, `?` otherwise. Either way the URL
      never gains a second `?`: it holds exactly one when the base had none,
      and exactly the base's when it had some. */
  function SageAuthUrl(env: Env, state: string): (url: string)
    ensures var base := SageBase(env);
            && |url| > |base|
            && url[..|base|] == base
            && url[|base|] == (if '?' in base then '&' else '?')
            && Count('?', url) == (if '?' in base then Count('?', base) else 1)
  {
    var base := SageBase(env);
    var separator := if '?' in base then '&' else '?';
    Joined(base, separator, SageParams(env, state));
    CountAbsent('?', base);
    base + [separator] + Query(SageParams(env, state))
  }

  function EbayParams(env: Env, state: string): seq<(string, string)>
  {
    [ ("client_id", EnvText(env, "EBAY_CLIENT_ID")),
      ("response_type", "code"),
      ("redirect_uri", EnvText(env, "EBAY_REDIRECT_URI")),
      ("scope", EnvText(env, "EBAY_SCOPE")),
      ("state", state) ]
  }

  /** eBay always appends `?` and the query, whatever its base holds: a base
      that already has a query ends up with a second `?`. */
  function EbayAuthUrl(env: Env, state: string): (url: string)
    ensures var base := EnvText(env, "EBAY_AUTH_URL");
            && |url| > |base|
            && url[..|base|] == base
            && url[|base|] == '?'
            && Count('?', url) == Count('?', base) + 1
  {
    Joined(EnvText(env, "EBAY_AUTH_URL"), '?', EbayParams(env, state));
    EnvText(env, "EBAY_AUTH_URL") + "?" + Query(EbayParams(env, state))
  }

  function AmazonParams(env: Env, state: string): seq<(string, string)>
  {
    [ ("client_id", EnvText(env, "AMZ_CLIENT_ID")),
      ("response_type", "code"),
      ("redirect_uri", EnvText(env, "AMZ_REDIRECT_URI")),
      ("scope", EnvText(env, "AMZ_SCOPE")),
      ("state", state) ]
  }

  /** Amazon, like eBay, always appends `?` and the query. */
  function AmazonAuthUrl(env: Env, state: string): (url: string)
    ensures var base := EnvText(env, "AMZ_AUTH_URL");
            && |url| > |base|
            && url[..|base|] == base
            && url[|base|] == '?'
            && Count('?', url) == Count('?', base) + 1
  {
    Joined(EnvText(env, "AMZ_AUTH_URL"), '?', AmazonParams(env, state));
    EnvText(env, "AMZ_AUTH_URL") + "?" + Query(AmazonParams(env, state))
  }

  /** The builder the initiate route picks for each provider. */
  function AuthUrl(env: Env, p: Provider, state: string): string
  {
    match p
    case Sage => SageAuthUrl(env, state)
    case Ebay => EbayAuthUrl(env, state)
    case Amazon => AmazonAuthUrl(env, state)
  }

  function AuthBase(env: Env, p: Provider): string
  {
    match p
    case Sage => SageBase(env)
    case Ebay => EnvText(env, "EBAY_AUTH_URL")
    case Amazon => EnvText(env, "AMZ_AUTH_URL")
  }

  function AuthParams(env: Env, p: Provider, state: string): (ps: seq<(string, string)>)
    ensures |ps| == 5
    ensures || (ps[0] == ("response_type", "code") && ps[1].0 == "client_id")
            || (ps[0].0 == "client_id" && ps[1] == ("response_type", "code"))
    ensures ps[2].0 == "redirect_uri" && ps[3].0 == "scope" && ps[4] == ("state", state)
  {
    match p
    case Sage => SageParams(env, state)
    case Ebay => EbayParams(env, state)
    case Amazon => AmazonParams(env, state)
  }

  /** Base, one separator, then a query: the whole starts with the base and
      the separator, its `?` count is the base's plus one when the separator
      is `?`, and what follows the separator splits at `&` into exactly the
      query's fields. */
  lemma {:induction false} Joined(base: string, sep: char, ps: seq<(string, string)>)
    requires |ps| >= 1
    ensures var url := base + [sep] + Query(ps);
            && |url| > |base|
            && url[..|base|] == base
            && url[|base|] == sep
            && Count('?', url) == Count('?', base) + (if sep == '?' then 1 else 0)
            && Split(url[|base| + 1..], '&') == Fields(ps)
  {
    var q := Query(ps);
    var url := base + [sep] + q;
    CountConcat('?', base, [sep]);
    CountConcat('?', base + [sep], q);
    CountAbsent('?', q);
    assert Count('?', [sep]) == (if sep == '?' then 1 else 0) + Count('?', []);
    assert url[..|base|] == base;
    assert url[|base| + 1..] == q;
    QueryFields(ps);
  }

  /** The separator each builder places between its base and its query. */
  function Separator(env: Env, p: Provider): char
  {
    if p == Sage && '?' in SageBase(env) then '&' else '?'
  }

  lemma UrlShape(env: Env, p: Provider, state: string)
    ensures AuthUrl(env, p, state) == AuthBase(env, p) + [Separator(env, p)] + Query(AuthParams(env, p, state))
  {
  }

  /** `url` is `base`, one separator, and a query whose `&`-separated
      fields are exactly the encoded `ps`. */
  predicate QueryAfter(url: string, base: string, ps: seq<(string, string)>)
  {
    && |url| > |base|
    && url[..|base|] == base
    && Split(url[|base| + 1..], '&') == Fields(ps)
  }

  /** Every URL starts with its provider's base, followed by one separator
      and a query whose fields are exactly the encoded parameters of
      `AuthParams`, in order. */
  lemma AuthUrlFields(env: Env, p: Provider, state: string)
    ensures QueryAfter(AuthUrl(env, p, state), AuthBase(env, p), AuthParams(env, p, state))
  {
    UrlShape(env, p, state);
    Joined(AuthBase(env, p), Separator(env, p), AuthParams(env, p, state));
  }

  /** `url` is `base`, one separator, and a query of five fields whose last
      is the encoded `state`. */
  predicate CarriesState(url: string, base: string, state: string)
  {
    && |url| > |base|
    && url[..|base|] == base
    && var fields := Split(url[|base| + 1..], '&');
       |fields| == 5 && fields[4] == Field(("state", state))
  }

  lemma AuthUrlCarriesState(env: Env, p: Provider, state: string)
    ensures CarriesState(AuthUrl(env, p, state), AuthBase(env, p), state)
  {
    AuthUrlFields(env, p, state);
    StateFieldLast(AuthUrl(env, p, state), AuthBase(env, p), AuthParams(env, p, state), state);
  }

  /** A query of five parameters ending in `state` carries that state. */
  lemma StateFieldLast(url: string, base: string, ps: seq<(string, string)>, state: string)
    requires QueryAfter(url, base, ps)
    requires |ps| == 5 && ps[4] == ("state", state)
    ensures CarriesState(url, base, state)
  {
    assert Fields(ps)[4] == Field(ps[4]);
  }
}
