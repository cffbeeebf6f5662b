/** The exporter's configuration, read once from the environment: the API
    host for the account's region, the endpoint paths, the request quota and
    the checks made before an export starts. */
module Config {
  import opened Wrappers
  import opened Json
  import opened Text

  const EU_V3 := "https://api.eu.mailgun.net/v3"
  const US_V3 := "https://api.mailgun.net/v3"
  const EU_V4 := "https://api.eu.mailgun.net/v4"
  const US_V4 := "https://api.mailgun.net/v4"

  const DEFAULT_REGION := "US"
  const DEFAULT_RATE_LIMIT := 300
  const DEFAULT_FORMAT := "json"
  const DEFAULT_OUTPUT_DIR := "./exports"

  const API_KEY_REQUIRED := "MAILGUN_API_KEY is required"
  const DOMAIN_REQUIRED := "MAILGUN_DOMAIN is required"

  /** The process environment: every variable that is set, with its text. */
  type Env = map<string, string>

  /** `process.env[name]`: the variable's text, or `undefined`. */
  function EnvValue(env: Env, name: string): (v: Value)
    ensures v.Str? <==> name in env
    ensures !v.Str? ==> v == Undefined
  {
    if name in env then Str(env[name]) else Undefined
  }

  /** `process.env[name] || fallback` for a variable holding text. */
  function EnvOr(env: Env, name: string, fallback: string): (s: string)
    ensures name in env && env[name] != "" ==> s == env[name]
    ensures name !in env || env[name] == "" ==> s == fallback
  {
    if name in env && env[name] != "" then env[name] else fallback
  }

  datatype Settings = Settings(
    apiKey: Value, domain: Value, region: string, sendingKey: Value,
    rateLimit: int, exportFormat: string, outputDir: string,
    dateFrom: Value, dateTo: Value, debug: bool)

  /** The configuration object built from the environment. */
  function FromEnv(env: Env): (c: Settings)
    ensures c.apiKey == EnvValue(env, "MAILGUN_API_KEY")
    ensures c.domain == EnvValue(env, "MAILGUN_DOMAIN")
    ensures c.region == EnvOr(env, "MAILGUN_REGION", DEFAULT_REGION)
    ensures c.rateLimit == RateLimit(EnvValue(env, "RATE_LIMIT"))
    ensures c.exportFormat == EnvOr(env, "EXPORT_FORMAT", DEFAULT_FORMAT)
    ensures c.outputDir == EnvOr(env, "OUTPUT_DIR", DEFAULT_OUTPUT_DIR)
    ensures c.debug <==> "DEBUG" in env && env["DEBUG"] == "true"
  {
    Settings(
      EnvValue(env, "MAILGUN_API_KEY"), EnvValue(env, "MAILGUN_DOMAIN"),
      EnvOr(env, "MAILGUN_REGION", DEFAULT_REGION), EnvValue(env, "MAILGUN_SENDING_KEY"),
      RateLimit(EnvValue(env, "RATE_LIMIT")),
      EnvOr(env, "EXPORT_FORMAT", DEFAULT_FORMAT), EnvOr(env, "OUTPUT_DIR", DEFAULT_OUTPUT_DIR),
      EnvValue(env, "DATE_FROM"), EnvValue(env, "DATE_TO"),
      EnvValue(env, "DEBUG") == Str("true"))
  }

  // ---------------------------------------------------------------- hosts

  predicate IsEu(region: string) {
    Upper(region) == "EU"
  }

  /** The v3 API host of the account's region. */
  function BaseUrl(region: string): (url: string)
    ensures url == EU_V3 <==> IsEu(region)
    ensures url == US_V3 <==> !IsEu(region)
  {
    if IsEu(region) then EU_V3 else US_V3
  }

  /** The v4 API host of the account's region. */
  function BaseUrlV4(region: string): (url: string)
    ensures url == EU_V4 <==> IsEu(region)
    ensures url == US_V4 <==> !IsEu(region)
  {
    if IsEu(region) then EU_V4 else US_V4
  }

  /** The region is matched without regard to letter case, and both API
      versions always point at the same region's host. */
  lemma RegionIgnoresCase(a: string, b: string)
    requires Upper(a) == Upper(b)
    ensures BaseUrl(a) == BaseUrl(b) && BaseUrlV4(a) == BaseUrlV4(b)
    ensures BaseUrlV4(a) == BaseUrl(a)[..|BaseUrl(a)| - 1] + "4"
  {
  }

  /** Written in any letter case, "eu" selects the EU hosts; a region left
      unset selects the US hosts. */
  lemma RegionDefaults(env: Env)
    ensures "MAILGUN_REGION" !in env ==> BaseUrl(FromEnv(env).region) == US_V3
    ensures BaseUrl("eu") == EU_V3 && BaseUrl("Eu") == EU_V3 && BaseUrl("EU") == EU_V3
  {
    assert Upper("US") == "US";
    assert Upper("eu") == "EU";
    assert Upper("Eu") == "EU";
    assert Upper("EU") == "EU";
  }

  // ---------------------------------------------------------------- endpoints

  const EVENTS := "/events"
  const DOMAINS := "/domains"
  const LISTS := "/lists"
  const ROUTES := "/routes"
  const IP_POOLS := "/ips/pools"
  const IP_WARMUP := "/ips/warmup"
  const SUBACCOUNTS := "/accounts/subaccounts"

  /** The endpoints that live under one sending domain. */
  datatype DomainResource =
    | Bounces | Complaints | Unsubscribes | Whitelists | Templates
    | Webhooks | Stats | SmtpCredentials | IpAllowlist

  function ResourceName(r: DomainResource): string {
    match r
    case Bounces => "bounces"
    case Complaints => "complaints"
    case Unsubscribes => "unsubscribes"
    case Whitelists => "whitelists"
    case Templates => "templates"
    case Webhooks => "webhooks"
    case Stats => "stats"
    case SmtpCredentials => "credentials"
    case IpAllowlist => "ips"
  }

  /** The endpoint builders `bounces(domain)`, `templates(domain)`, ...:
      `/${domain}/<resource>`. */
  function DomainPath(domain: string, r: DomainResource): (path: string)
    ensures StartsWith(path, "/") && EndsWith(path, "/" + ResourceName(r))
  {
    "/" + domain + "/" + ResourceName(r)
  }

  /** `listMembers(list)`: `/lists/${list}/members`. */
  function ListMembersPath(list: string): (path: string)
    ensures StartsWith(path, LISTS + "/") && EndsWith(path, "/members")
  {
    LISTS + "/" + list + "/members"
  }

  /** The resource a path segment names, if any. */
  function ResourceNamed(name: string): (r: Option<DomainResource>)
    ensures r.Some? ==> ResourceName(r.value) == name
  {
    if name == "bounces" then Some(Bounces)
    else if name == "complaints" then Some(Complaints)
    else if name == "unsubscribes" then Some(Unsubscribes)
    else if name == "whitelists" then Some(Whitelists)
    else if name == "templates" then Some(Templates)
    else if name == "webhooks" then Some(Webhooks)
    else if name == "stats" then Some(Stats)
    else if name == "credentials" then Some(SmtpCredentials)
    else if name == "ips" then Some(IpAllowlist)
    else None
  }

  /** Reads a domain endpoint path back: the domain is the first segment,
      the resource the rest. */
  function SplitDomainPath(path: string): Option<(string, DomainResource)> {
    if |path| == 0 || path[0] != '/' then None
    else
      var k := IndexOf(path, '/', 1);
      if k == |path| then None
      else
        match ResourceNamed(path[k + 1..])
        case Some(r) => Some((path[1..k], r))
        case None => None
  }

  /** Every domain endpoint path names its domain and its resource: for a
      domain name without '/', the path reads back to both. */
  lemma DomainPathRoundTrip(domain: string, r: DomainResource)
    requires '/' !in domain
    ensures SplitDomainPath(DomainPath(domain, r)) == Some((domain, r))
  {
    var path := DomainPath(domain, r);
    assert path[1..|domain| + 1] == domain;
    assert path[|domain| + 1] == '/';
    assert forall j :: 1 <= j < |domain| + 1 ==> path[j] == domain[j - 1];
    IndexOfFirst(path, |domain| + 1);
    assert path[|domain| + 2..] == ResourceName(r);
    ResourceNameRoundTrip(r);
  }

  lemma IndexOfFirst(path: string, k: nat)
    requires 1 <= k < |path| && path[k] == '/'
    requires forall j :: 1 <= j < k ==> path[j] != '/'
    ensures IndexOf(path, '/', 1) == k
  {
  }

  lemma ResourceNameRoundTrip(r: DomainResource)
    ensures ResourceNamed(ResourceName(r)) == Some(r)
  {
    match r {
      case Bounces =>
      case Complaints =>
      case Unsubscribes =>
      case Whitelists =>
      case Templates =>
      case Webhooks =>
      case Stats =>
      case SmtpCredentials =>
      case IpAllowlist =>
    }
  }

  /** Different domains or different resources never share a path. */
  lemma DomainPathsDistinct(d1: string, r1: DomainResource, d2: string, r2: DomainResource)
    requires '/' !in d1 && '/' !in d2
    requires (d1, r1) != (d2, r2)
    ensures DomainPath(d1, r1) != DomainPath(d2, r2)
  {
    DomainPathRoundTrip(d1, r1);
    DomainPathRoundTrip(d2, r2);
  }

  /** Reads a list-members path back to the list address. */
  function ListOfMembersPath(path: string): Option<string> {
    if |path| >= |LISTS + "/"| + |"/members"| && StartsWith(path, LISTS + "/") && EndsWith(path, "/members")
    then Some(path[|LISTS + "/"|..|path| - |"/members"|])
    else None
  }

  lemma ListMembersRoundTrip(list: string)
    ensures ListOfMembersPath(ListMembersPath(list)) == Some(list)
  {
    var path := ListMembersPath(list);
    assert path[|LISTS + "/"|..|path| - |"/members"|] == list;
  }

  // ---------------------------------------------------------------- rate limit

  /** The value of a digit in bases up to 36, or 36 for any other character. */
  function DigitValue(c: char): (d: nat)
    ensures d <= 36
  {
    if '0' <= c <= '9' then c as int - '0' as int
    else if 'a' <= c <= 'z' then c as int - 'a' as int + 10
    else if 'A' <= c <= 'Z' then c as int - 'A' as int + 10
    else 36
  }

  /** The number of leading characters that are `\s` white space. */
  function Spaces(s: string): (k: nat)
    ensures k <= |s|
  {
    if s != [] && IsSpace(s[0]) then 1 + Spaces(s[1..]) else 0
  }

  /** The number of leading characters that are digits in `radix`. */
  function DigitRun(s: string, radix: nat): (k: nat)
    ensures k <= |s|
    ensures forall i :: 0 <= i < k ==> DigitValue(s[i]) < radix
    ensures k < |s| ==> DigitValue(s[k]) >= radix
  {
    if s != [] && DigitValue(s[0]) < radix then 1 + DigitRun(s[1..], radix) else 0
  }

  /** The number the digits spell in `radix`, most significant first. */
  function DigitsValue(digits: string, radix: nat): nat {
    if digits == [] then 0
    else DigitsValue(digits[..|digits| - 1], radix) * radix
         + (if DigitValue(digits[|digits| - 1]) < radix then DigitValue(digits[|digits| - 1]) else 0)
  }

  /** `parseInt(s)` with no radix: leading white space and one sign are
      skipped, a `0x`/`0X` prefix selects base 16, and the longest run of
      digits is read; `None` stands for `NaN` (no digit at all). */
  function ParseInt(s: string): Option<int> {
    var t := s[Spaces(s)..];
    if |t| > 0 && t[0] == '-' then
      match Magnitude(t[1..])
      case Some(n) => Some(0 - n as int)
      case None => None
    else if |t| > 0 && t[0] == '+' then Widen(Magnitude(t[1..]))
    else Widen(Magnitude(t))
  }

  function Widen(m: Option<nat>): (r: Option<int>)
    ensures r.Some? <==> m.Some?
    ensures r.Some? ==> r.value == m.value
  {
    match m
    case Some(n) => Some(n)
    case None => None
  }

  /** The unsigned part of `parseInt`: the radix prefix and the digit run. */
  function Magnitude(u: string): Option<nat> {
    var hex := |u| >= 2 && u[0] == '0' && (u[1] == 'x' || u[1] == 'X');
    var radix := if hex then 16 else 10;
    var w := if hex then u[2..] else u;
    var k := DigitRun(w, radix);
    if k == 0 then None else Some(DigitsValue(w[..k], radix))
  }

  /** `parseInt(process.env.RATE_LIMIT) || 300`: `NaN` and 0 fall back. */
  function RateLimit(v: Value): (limit: int)
    ensures limit != 0
    ensures !v.Str? ==> limit == DEFAULT_RATE_LIMIT
    ensures v.Str? && ParseInt(v.s).None? ==> limit == DEFAULT_RATE_LIMIT
    ensures v.Str? && ParseInt(v.s).Some? && ParseInt(v.s).value != 0 ==> limit == ParseInt(v.s).value
  {
    match v
    case Str(s) =>
      (match ParseInt(s)
       case Some(n) => if n != 0 then n else DEFAULT_RATE_LIMIT
       case None => DEFAULT_RATE_LIMIT)
    case _ => DEFAULT_RATE_LIMIT
  }

  lemma DigitCharValue(d: nat)
    requires d < 10
    ensures DigitValue(DigitChar(d)) == d
  {
    assert "0123456789"[d] as int == '0' as int + d by {
      if d == 0 {} else if d == 1 {} else if d == 2 {} else if d == 3 {} else if d == 4 {}
      else if d == 5 {} else if d == 6 {} else if d == 7 {} else if d == 8 {} else {}
    }
  }

  /** Reading back the decimal text of a number gives the number. */
  lemma {:induction false} DecimalRoundTrip(n: nat)
    ensures DigitsValue(NatToString(n), 10) == n
    decreases n
  {
    var s := NatToString(n);
    var last := s[|s| - 1];
    if n < 10 {
      assert s == [DigitChar(n)];
      assert s[..|s| - 1] == [];
      DigitCharValue(n);
    } else {
      DecimalRoundTrip(n / 10);
      assert s == NatToString(n / 10) + [DigitChar(n % 10)];
      assert s[..|s| - 1] == NatToString(n / 10);
      assert last == DigitChar(n % 10);
      DigitCharValue(n % 10);
    }
  }

  lemma AllDigitsRun(s: string)
    requires forall i :: 0 <= i < |s| ==> '0' <= s[i] <= '9'
    ensures DigitRun(s, 10) == |s|
  {
    if s != [] {
      AllDigitsRun(s[1..]);
    }
  }

  lemma MagnitudeOfDigits(digits: string)
    requires |digits| > 0
    requires forall i :: 0 <= i < |digits| ==> '0' <= digits[i] <= '9'
    ensures Magnitude(digits) == Some(DigitsValue(digits, 10))
  {
    AllDigitsRun(digits);
    assert digits[..|digits|] == digits;
    if |digits| >= 2 {
      assert !(digits[1] == 'x' || digits[1] == 'X');
    }
  }

  /** `parseInt` reads back the decimal text of any integer. */
  lemma ParseIntRoundTrip(n: int)
    ensures ParseInt(IntToString(n)) == Some(n)
  {
    var m: nat := if n < 0 then -n else n;
    var digits := NatToString(m);
    DecimalRoundTrip(m);
    MagnitudeOfDigits(digits);
    var s := IntToString(n);
    assert s[0] == '-' || '0' <= s[0] <= '9';
    assert !IsSpace(s[0]);
    assert s[Spaces(s)..] == s;
    if n < 0 {
      assert s[1..] == digits;
    } else {
      assert s == digits;
    }
  }

  /** A quota set in the environment as the text of a non-zero integer is
      taken as written; unset, empty or unreadable text gives 300. */
  lemma RateLimitFromEnv(env: Env, n: int)
    ensures "RATE_LIMIT" in env && env["RATE_LIMIT"] == IntToString(n) && n != 0 ==> FromEnv(env).rateLimit == n
    ensures "RATE_LIMIT" !in env ==> FromEnv(env).rateLimit == DEFAULT_RATE_LIMIT
    ensures "RATE_LIMIT" in env && env["RATE_LIMIT"] == "" ==> FromEnv(env).rateLimit == DEFAULT_RATE_LIMIT
  {
    var v := EnvValue(env, "RATE_LIMIT");
    assert FromEnv(env).rateLimit == RateLimit(v);
    if "RATE_LIMIT" in env {
      assert v == Str(env["RATE_LIMIT"]);
      if env["RATE_LIMIT"] == IntToString(n) {
        ParseIntRoundTrip(n);
      }
    }
  }

  // ---------------------------------------------------------------- validation

  /** `validate()`: the API key is checked first, then the domain. */
  function Validate(c: Settings): (r: Result<bool, string>)
    ensures r == Err(API_KEY_REQUIRED) <==> !Truthy(c.apiKey)
    ensures r == Err(DOMAIN_REQUIRED) <==> Truthy(c.apiKey) && !Truthy(c.domain)
    ensures r == Ok(true) <==> Truthy(c.apiKey) && Truthy(c.domain)
  {
    if !Truthy(c.apiKey) then Err(API_KEY_REQUIRED)
    else if !Truthy(c.domain) then Err(DOMAIN_REQUIRED)
    else Ok(true)
  }

  /** The variable is set to non-empty text. */
  predicate HasText(env: Env, name: string) {
    name in env && env[name] != ""
  }

  /** An environment without an API key is refused for the key, whatever it
      says about the domain; with a key, a missing or empty domain is refused. */
  lemma ValidateFromEnv(env: Env)
    ensures !HasText(env, "MAILGUN_API_KEY") ==> Validate(FromEnv(env)) == Err(API_KEY_REQUIRED)
    ensures HasText(env, "MAILGUN_API_KEY") && !HasText(env, "MAILGUN_DOMAIN") ==> Validate(FromEnv(env)) == Err(DOMAIN_REQUIRED)
    ensures Validate(FromEnv(env)).Ok? <==> HasText(env, "MAILGUN_API_KEY") && HasText(env, "MAILGUN_DOMAIN")
  {
  }
}
