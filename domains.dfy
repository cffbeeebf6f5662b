/** Sending domains: the domain, SMTP-credential and IP-allowlist records,
    the five per-domain fetches merged per domain, and the domain statistics. */
module Domains {
  import opened Wrappers
  import opened Json
  import opened Tally
  import opened Pagination

  const MASKED := "***MASKED***"
  const ACTIVE := "active"

  // ---------------------------------------------------------------- records

  datatype Verification = Verification(isVerified: bool, spfValid: Value, dkimValid: Value, skipVerification: Value)

  datatype Connection = Connection(requireTls: Value, skipVerification: Value)

  /** A processed domain. `tracking` is the object of the three tracking
      flags; in an enriched domain it is replaced by the fetched settings. */
  datatype DomainRecord = DomainRecord(
    name: Value, kind: Value, state: Value, createdAt: Value, smtpLogin: Value, smtpPassword: Value,
    verification: Verification, spamAction: Value, tracking: Value, connection: Connection,
    webScheme: Value, webPrefix: Value, inboundDnsSubdomain: Value, raw: Value)

  /** `flag || false`. */
  function FlagOr(v: Value): (r: Value)
    ensures Truthy(r) <==> Truthy(v)
    ensures !Truthy(r) ==> r == Bool(false)
  {
    Or(v, Bool(false))
  }

  /** The tracking object of a processed domain. */
  function TrackingFlags(domain: Value): Value {
    Obj([("clicks", FlagOr(Get(domain, "tracking_clicks"))),
         ("opens", FlagOr(Get(domain, "tracking_opens"))),
         ("unsubscribes", FlagOr(Get(domain, "tracking_unsubscribes")))])
  }

  /** `processDomain(domain)` as written: `raw` is the response object itself. */
  function ProcessDomainAsWritten(domain: Value): (d: DomainRecord)
    ensures d.verification.isVerified <==> Get(domain, "state") == Str(ACTIVE)
    ensures d.smtpPassword == (if Truthy(Get(domain, "smtp_password")) then Str(MASKED) else Null)
    ensures d.tracking == TrackingFlags(domain)
    ensures Truthy(d.connection.requireTls) <==> Truthy(Get(domain, "require_tls"))
    ensures Truthy(d.connection.skipVerification) <==> Truthy(Get(domain, "skip_verification"))
    ensures !Truthy(d.connection.requireTls) ==> d.connection.requireTls == Bool(false)
    ensures !Truthy(d.connection.skipVerification) ==> d.connection.skipVerification == Bool(false)
    ensures d.raw == domain
  {
    DomainRecord(
      Get(domain, "name"), Get(domain, "type"), Get(domain, "state"), Get(domain, "created_at"),
      Get(domain, "smtp_login"), if Truthy(Get(domain, "smtp_password")) then Str(MASKED) else Null,
      Verification(Get(domain, "state") == Str(ACTIVE), Get(domain, "spf_valid"), Get(domain, "dkim_valid"),
                   Get(domain, "skip_verification")),
      Get(domain, "spam_action"), TrackingFlags(domain),
      Connection(FlagOr(Get(domain, "require_tls")), FlagOr(Get(domain, "skip_verification"))),
      Get(domain, "web_scheme"), Get(domain, "web_prefix"), Get(domain, "inbound_dns_subdomain"),
      domain)
  }

  /** Each tracking flag of a fresh record is truthy exactly when the
      response's flag is, and is `false` otherwise. */
  lemma TrackingDefaults(domain: Value)
    ensures var t := TrackingFlags(domain);
            Get(t, "clicks") == FlagOr(Get(domain, "tracking_clicks"))
            && Get(t, "opens") == FlagOr(Get(domain, "tracking_opens"))
            && Get(t, "unsubscribes") == FlagOr(Get(domain, "tracking_unsubscribes"))
  {
    var fields := TrackingFlags(domain).fields;
    assert fields[1..][1..] == [fields[2]];
    assert Lookup(fields, "clicks") == Some(fields[0].1);
    assert Lookup(fields, "opens") == Lookup(fields[1..], "opens") == Some(fields[1].1);
    assert Lookup(fields, "unsubscribes") == Lookup(fields[1..][1..], "unsubscribes") == Some(fields[2].1);
  }

  /** The record exported as written still carries the SMTP password the
      masked field hides: `raw` is the untouched response object, and the
      domain listing hands it on as it is. */
  lemma RawKeepsPassword(responses: DomainResponses)
    ensures var domain := Obj([("name", Str("mg.example.com")), ("smtp_password", Str("secret"))]);
            var r := FetchAllDomainData(Ok([domain]), responses);
            r.Ok? && |r.value| == 1
            && r.value[0].domain.smtpPassword == Str(MASKED)
            && Get(r.value[0].domain.raw, "smtp_password") == Str("secret")
  {
    var domain := Obj([("name", Str("mg.example.com")), ("smtp_password", Str("secret"))]);
    assert Readable([domain][0]);
  }

  /** A response object with every `smtp_password` property masked. */
  function MaskPassword(fields: Props<Value>): (r: Props<Value>)
    ensures |r| == |fields| && Names(r) == Names(fields)
    ensures forall i :: 0 <= i < |r| ==> r[i].1 == (if fields[i].0 == "smtp_password" then Str(MASKED) else fields[i].1)
  {
    if fields == [] then []
    else [(fields[0].0, if fields[0].0 == "smtp_password" then Str(MASKED) else fields[0].1)] + MaskPassword(fields[1..])
  }

  /** No clear password: nothing, or the mask, under `smtp_password`. */
  predicate HidesPassword(v: Value) {
    Get(v, "smtp_password") == Undefined || Get(v, "smtp_password") == Str(MASKED)
  }

  /** A response object with its password masked: it hides the password
      and reads as before under every other name. */
  function MaskedRaw(v: Value): (m: Value)
    ensures HidesPassword(m)
    ensures forall key :: key != "smtp_password" ==> Get(m, key) == Get(v, key)
  {
    match v
    case Obj(fields) =>
      MaskedLookup(fields, "smtp_password");
      MaskedLookups(fields);
      Obj(MaskPassword(fields))
    case _ => v
  }

  lemma MaskedLookups(fields: Props<Value>)
    ensures forall key :: key != "smtp_password" ==> Lookup(MaskPassword(fields), key) == Lookup(fields, key)
  {
    forall key | key != "smtp_password"
      ensures Lookup(MaskPassword(fields), key) == Lookup(fields, key)
    {
      MaskedLookup(fields, key);
    }
  }

  /** A record with its `raw` response masked and every other field as it was. */
  function MaskRecord(d: DomainRecord): (m: DomainRecord)
    ensures m.(raw := d.raw) == d
    ensures HidesPassword(m.raw)
    ensures forall key :: key != "smtp_password" ==> Get(m.raw, key) == Get(d.raw, key)
  {
    d.(raw := MaskedRaw(d.raw))
  }

  /** `processDomain(domain)` with the password masked in `raw` too: every
      field as written but `raw`, and `raw` the response with no clear
      password and every other property unchanged. */
  function ProcessDomain(domain: Value): (d: DomainRecord)
    ensures d.(raw := domain) == ProcessDomainAsWritten(domain)
    ensures HidesPassword(d.raw)
    ensures forall key :: key != "smtp_password" ==> Get(d.raw, key) == Get(domain, key)
  {
    MaskRecord(ProcessDomainAsWritten(domain))
  }

  lemma {:induction false} MaskedLookup(fields: Props<Value>, key: string)
    ensures Lookup(MaskPassword(fields), key) ==
            if key == "smtp_password" && Lookup(fields, key).Some? then Some(Str(MASKED)) else Lookup(fields, key)
  {
    if fields != [] {
      MaskedLookup(fields[1..], key);
    }
  }

  datatype SmtpCredential = SmtpCredential(login: Value, createdAt: Value, mailbox: Value, state: Value, password: string)

  /** `processSMTPCredential(credential)`: the password is always the mask. */
  function ProcessSmtpCredential(credential: Value): (c: SmtpCredential)
    ensures c.password == MASKED
    ensures c.login == Get(credential, "login")
  {
    SmtpCredential(Get(credential, "login"), Get(credential, "created_at"), Get(credential, "mailbox"),
                   Get(credential, "state"), MASKED)
  }

  /** A credential's record does not depend on any password it carries. */
  lemma CredentialIgnoresPassword(fields: Props<Value>, password: Value)
    ensures ProcessSmtpCredential(Obj([("password", password)] + fields)) == ProcessSmtpCredential(Obj(fields))
  {
    var with := [("password", password)] + fields;
    assert with[1..] == fields;
  }

  datatype IpEntry = IpEntry(address: Value, createdAt: Value, comment: Value)

  /** `processIPAllowlist(ipEntry)`: the comment defaults to "". */
  function ProcessIpAllowlist(entry: Value): (e: IpEntry)
    ensures Truthy(Get(entry, "comment")) ==> e.comment == Get(entry, "comment")
    ensures !Truthy(Get(entry, "comment")) ==> e.comment == Str("")
  {
    IpEntry(Get(entry, "address"), Get(entry, "created_at"), Or(Get(entry, "comment"), Str("")))
  }

  // ---------------------------------------------------------------- fetches

  /** `fetchDomainDetails(name)`: the `domain` field or the body, processed
      as written; a failure, or a body without properties, rejects. */
  function DomainDetails(response: Result<Value, PageError>): (d: Option<DomainRecord>)
    ensures d.Some? <==> response.Ok? && Readable(response.value)
    ensures d.Some? ==> d.value.raw == Or(Get(response.value, "domain"), response.value)
  {
    match response
    case Ok(body) => if Readable(body) then Some(ProcessDomainAsWritten(Or(Get(body, "domain"), body))) else None
    case Err(_) => None
  }

  /** `fetchDomainDNS(name)`: the body as it is, or `null` on failure. */
  function DomainDns(response: Result<Value, PageError>): (v: Value)
    ensures response.Ok? ==> v == response.value
    ensures response.Err? ==> v == Null
  {
    match response
    case Ok(body) => body
    case Err(_) => Null
  }

  /** What the API answers, per domain name, to the five requests. */
  datatype DomainResponses = DomainResponses(
    details: string -> Result<Value, PageError>, tracking: string -> Result<Value, PageError>,
    dns: string -> Result<Value, PageError>, credentials: string -> Result<seq<Value>, PageError>,
    ips: string -> Result<seq<Value>, PageError>)

  /** An enriched domain: the processed domain with `tracking` replaced by
      the fetched settings, and the other four fetches beside it. */
  datatype EnrichedDomain = EnrichedDomain(domain: DomainRecord, details: Option<DomainRecord>, dns: Value,
                                           smtpCredentials: seq<SmtpCredential>, ipAllowlist: seq<IpEntry>)

  function EnrichDomain(domain: DomainRecord, responses: DomainResponses): (e: EnrichedDomain)
    ensures e.domain == domain.(tracking := e.domain.tracking)
    ensures e.details.None? <==> responses.details(ToString(domain.name)).Err?
                                 || !Readable(responses.details(ToString(domain.name)).value)
    ensures e.domain.tracking.Null? <==> responses.tracking(ToString(domain.name)).Err?
                                         || !Readable(responses.tracking(ToString(domain.name)).value)
    ensures responses.dns(ToString(domain.name)).Err? ==> e.dns == Null
    ensures Fetched(responses.credentials(ToString(domain.name)), ProcessSmtpCredential).Err? ==> e.smtpCredentials == []
    ensures Fetched(responses.ips(ToString(domain.name)), ProcessIpAllowlist).Err? ==> e.ipAllowlist == []
    ensures var n := ToString(domain.name);
            && e.details == DomainDetails(responses.details(n))
            && e.domain.tracking == FieldOrBody(responses.tracking(n), "tracking")
            && e.dns == DomainDns(responses.dns(n))
            && (Fetched(responses.credentials(n), ProcessSmtpCredential).Ok? ==>
                  e.smtpCredentials == Fetched(responses.credentials(n), ProcessSmtpCredential).value)
            && (Fetched(responses.ips(n), ProcessIpAllowlist).Ok? ==>
                  e.ipAllowlist == Fetched(responses.ips(n), ProcessIpAllowlist).value)
  {
    var name := ToString(domain.name);
    EnrichedDomain(
      domain.(tracking := FieldOrBody(responses.tracking(name), "tracking")),
      DomainDetails(responses.details(name)),
      DomainDns(responses.dns(name)),
      Fetched(responses.credentials(name), ProcessSmtpCredential).GetOr([]),
      Fetched(responses.ips(name), ProcessIpAllowlist).GetOr([]))
  }

  /** `fetchAllDomainData()`: a failed domain listing fails the whole call;
      otherwise one entry per domain, in order, each with its own fetches.
      Each domain is processed as written, so its `raw` is the listed
      response itself. */
  function FetchAllDomainData(domains: Result<seq<Value>, PageError>, responses: DomainResponses)
    : (r: Result<seq<EnrichedDomain>, PageError>)
    ensures r.Ok? <==> Fetched(domains, ProcessDomainAsWritten).Ok?
    ensures r.Ok? ==> |r.value| == |domains.value|
    ensures r.Ok? ==> forall i :: 0 <= i < |r.value| ==>
              r.value[i].domain == ProcessDomainAsWritten(domains.value[i]).(tracking := r.value[i].domain.tracking)
              && r.value[i].domain.raw == domains.value[i]
    ensures r.Ok? ==> forall i :: 0 <= i < |r.value| ==>
              r.value[i] == EnrichDomain(ProcessDomainAsWritten(domains.value[i]), responses)
  {
    match Fetched(domains, ProcessDomainAsWritten)
    case Err(e) => Err(e)
    case Ok(records) => Ok(seq(|records|, i requires 0 <= i < |records| => EnrichDomain(records[i], responses)))
  }

  /** An entry with the `raw` of its domain and of its details masked. */
  function MaskEntry(e: EnrichedDomain): EnrichedDomain {
    e.(domain := MaskRecord(e.domain), details := if e.details.Some? then Some(MaskRecord(e.details.value)) else None)
  }

  /** `fetchAllDomainData()` with every `raw` masked: the same outcome and
      the same entries, each domain now processed by `ProcessDomain`, and
      no clear password left in the domain or its details. */
  function FetchAllDomainDataMasked(domains: Result<seq<Value>, PageError>, responses: DomainResponses)
    : (r: Result<seq<EnrichedDomain>, PageError>)
    ensures r.Ok? <==> FetchAllDomainData(domains, responses).Ok?
    ensures r.Ok? ==> |r.value| == |domains.value|
    ensures r.Ok? ==> forall i :: 0 <= i < |r.value| ==>
              r.value[i].domain == ProcessDomain(domains.value[i]).(tracking := r.value[i].domain.tracking)
              && HidesPassword(r.value[i].domain.raw)
              && (r.value[i].details.Some? ==> HidesPassword(r.value[i].details.value.raw))
  {
    match FetchAllDomainData(domains, responses)
    case Err(e) => Err(e)
    case Ok(entries) => Ok(seq(|entries|, i requires 0 <= i < |entries| => MaskEntry(entries[i])))
  }

  /** A domain's entry depends only on the answers for its own name, so a
      failing sub-fetch leaves the other domains and the other sub-fetches
      untouched. */
  lemma DomainFailureIsolated(domains: Result<seq<Value>, PageError>, r1: DomainResponses, r2: DomainResponses, i: nat)
    requires FetchAllDomainData(domains, r1).Ok? && i < |domains.value|
    requires var n := ToString(Get(domains.value[i], "name"));
             r1.details(n) == r2.details(n) && r1.tracking(n) == r2.tracking(n) && r1.dns(n) == r2.dns(n)
             && r1.credentials(n) == r2.credentials(n) && r1.ips(n) == r2.ips(n)
    ensures FetchAllDomainData(domains, r2).Ok?
    ensures FetchAllDomainData(domains, r1).value[i] == FetchAllDomainData(domains, r2).value[i]
  {
  }

  // ---------------------------------------------------------------- getDomainStats

  /** The per-domain conditions `getDomainStats` counts. */
  datatype Flag =
    | Verified | SpfValid | DkimValid
    | ClicksEnabled | OpensEnabled | UnsubscribesEnabled
    | RequireTls | SkipVerification

  predicate Has(d: DomainRecord, f: Flag) {
    match f
    case Verified => d.verification.isVerified
    case SpfValid => Truthy(d.verification.spfValid)
    case DkimValid => Truthy(d.verification.dkimValid)
    case ClicksEnabled => Truthy(Get(d.tracking, "clicks"))
    case OpensEnabled => Truthy(Get(d.tracking, "opens"))
    case UnsubscribesEnabled => Truthy(Get(d.tracking, "unsubscribes"))
    case RequireTls => Truthy(d.connection.requireTls)
    case SkipVerification => Truthy(d.connection.skipVerification)
  }

  /** The number of domains with the flag. */
  function CountFlag(domains: seq<DomainRecord>, f: Flag): (n: nat)
    ensures n <= |domains|
  {
    if domains == [] then 0
    else CountFlag(domains[..|domains| - 1], f) + (if Has(domains[|domains| - 1], f) then 1 else 0)
  }

  function StateKeys(domains: seq<DomainRecord>): (ks: seq<string>)
    ensures |ks| == |domains|
  {
    if domains == [] then [] else StateKeys(domains[..|domains| - 1]) + [ToString(domains[|domains| - 1].state)]
  }

  function TypeKeys(domains: seq<DomainRecord>): (ks: seq<string>)
    ensures |ks| == |domains|
  {
    if domains == [] then [] else TypeKeys(domains[..|domains| - 1]) + [ToString(domains[|domains| - 1].kind)]
  }

  datatype DomainStats = DomainStats(
    total: nat, byState: Counts, byType: Counts,
    verified: nat, spfValid: nat, dkimValid: nat,
    clicksEnabled: nat, opensEnabled: nat, unsubscribesEnabled: nat,
    requireTls: nat, skipVerification: nat)

  /** What `getDomainStats(domains)` returns. */
  function DomainStatsOf(domains: seq<DomainRecord>): DomainStats {
    DomainStats(|domains|, TallyOf(StateKeys(domains)), TallyOf(TypeKeys(domains)),
                CountFlag(domains, Verified), CountFlag(domains, SpfValid), CountFlag(domains, DkimValid),
                CountFlag(domains, ClicksEnabled), CountFlag(domains, OpensEnabled),
                CountFlag(domains, UnsubscribesEnabled),
                CountFlag(domains, RequireTls), CountFlag(domains, SkipVerification))
  }

  /** The state counts and the type counts each add up to the number of
      domains, one property per distinct value, and no counter exceeds it. */
  lemma DomainStatsBounds(domains: seq<DomainRecord>, key: string)
    ensures var s := DomainStatsOf(domains);
            Total(s.byState) == s.total && Total(s.byType) == s.total
            && DistinctNames(s.byState) && DistinctNames(s.byType)
            && CountOf(s.byState, key) == Occurrences(StateKeys(domains), key)
            && CountOf(s.byType, key) == Occurrences(TypeKeys(domains), key)
            && s.verified <= s.total && s.spfValid <= s.total && s.dkimValid <= s.total
            && s.clicksEnabled <= s.total && s.opensEnabled <= s.total && s.unsubscribesEnabled <= s.total
            && s.requireTls <= s.total && s.skipVerification <= s.total
  {
    TallyOfCounts(StateKeys(domains), key);
    TallyOfCounts(TypeKeys(domains), key);
  }

  /** For processed domains the verified count is the number of domains in
      the "active" state, which is at most the "active" entry of `byState`
      (an array `["active"]` also prints as "active"). */
  lemma {:induction false} VerifiedAreActive(domains: seq<DomainRecord>)
    requires forall i :: 0 <= i < |domains| ==> (domains[i].verification.isVerified <==> domains[i].state == Str(ACTIVE))
    ensures DomainStatsOf(domains).verified <= CountOf(DomainStatsOf(domains).byState, ACTIVE)
  {
    TallyOfCounts(StateKeys(domains), ACTIVE);
    VerifiedWithinOccurrences(domains);
  }

  lemma {:induction false} VerifiedWithinOccurrences(domains: seq<DomainRecord>)
    requires forall i :: 0 <= i < |domains| ==> (domains[i].verification.isVerified <==> domains[i].state == Str(ACTIVE))
    ensures CountFlag(domains, Verified) <= Occurrences(StateKeys(domains), ACTIVE)
  {
    if domains != [] {
      var init := domains[..|domains| - 1];
      assert forall i :: 0 <= i < |init| ==> init[i] == domains[i];
      VerifiedWithinOccurrences(init);
      assert StateKeys(domains)[..|domains| - 1] == StateKeys(init);
    }
  }

  /** Every domain processed from a response satisfies the premise above. */
  lemma ProcessedVerification(domain: Value)
    ensures ProcessDomainAsWritten(domain).verification.isVerified <==> ProcessDomainAsWritten(domain).state == Str(ACTIVE)
  {
  }

  /** One for a domain that has the flag, zero otherwise. */
  function Inc(d: DomainRecord, f: Flag): (n: nat)
    ensures n == 1 <==> Has(d, f)
    ensures n <= 1
  {
    if Has(d, f) then 1 else 0
  }

  lemma CountFlagStep(domains: seq<DomainRecord>, i: nat, f: Flag)
    requires i < |domains|
    ensures CountFlag(domains[..i + 1], f) == CountFlag(domains[..i], f) + Inc(domains[i], f)
  {
    assert domains[..i + 1][..i] == domains[..i];
  }

  lemma TallyStep(domains: seq<DomainRecord>, i: nat)
    requires i < |domains|
    ensures TallyOf(StateKeys(domains[..i + 1])) == Bump(TallyOf(StateKeys(domains[..i])), ToString(domains[i].state))
    ensures TallyOf(TypeKeys(domains[..i + 1])) == Bump(TallyOf(TypeKeys(domains[..i])), ToString(domains[i].kind))
  {
    assert domains[..i + 1][..i] == domains[..i];
    var ks := StateKeys(domains[..i + 1]);
    assert ks[..|ks| - 1] == StateKeys(domains[..i]);
    var ts := TypeKeys(domains[..i + 1]);
    assert ts[..|ts| - 1] == TypeKeys(domains[..i]);
  }

  /** `getDomainStats(domains)`: every counter bumped in one pass, each
      under the condition `Has` names. */
  method GetDomainStats(domains: seq<DomainRecord>) returns (stats: DomainStats)
    ensures stats == DomainStatsOf(domains)
  {
    var byState: Counts, byType: Counts := [], [];
    var verified, spfValid, dkimValid := 0, 0, 0;
    var clicks, opens, unsubscribes := 0, 0, 0;
    var requireTls, skipVerification := 0, 0;
    for i := 0 to |domains|
      invariant byState == TallyOf(StateKeys(domains[..i])) && byType == TallyOf(TypeKeys(domains[..i]))
      invariant verified == CountFlag(domains[..i], Verified)
      invariant spfValid == CountFlag(domains[..i], SpfValid) && dkimValid == CountFlag(domains[..i], DkimValid)
      invariant clicks == CountFlag(domains[..i], ClicksEnabled) && opens == CountFlag(domains[..i], OpensEnabled)
      invariant unsubscribes == CountFlag(domains[..i], UnsubscribesEnabled)
      invariant requireTls == CountFlag(domains[..i], RequireTls)
      invariant skipVerification == CountFlag(domains[..i], SkipVerification)
    {
      var d := domains[i];
      TallyStep(domains, i);
      byState := Bump(byState, ToString(d.state));
      byType := Bump(byType, ToString(d.kind));
      verified := verified + Inc(d, Verified);
      spfValid := spfValid + Inc(d, SpfValid);
      dkimValid := dkimValid + Inc(d, DkimValid);
      clicks := clicks + Inc(d, ClicksEnabled);
      opens := opens + Inc(d, OpensEnabled);
      unsubscribes := unsubscribes + Inc(d, UnsubscribesEnabled);
      requireTls := requireTls + Inc(d, RequireTls);
      skipVerification := skipVerification + Inc(d, SkipVerification);
      CountFlagStep(domains, i, Verified);
      CountFlagStep(domains, i, SpfValid);
      CountFlagStep(domains, i, DkimValid);
      CountFlagStep(domains, i, ClicksEnabled);
      CountFlagStep(domains, i, OpensEnabled);
      CountFlagStep(domains, i, UnsubscribesEnabled);
      CountFlagStep(domains, i, RequireTls);
      CountFlagStep(domains, i, SkipVerification);
    }
    assert domains[..|domains|] == domains;
    stats := DomainStats(|domains|, byState, byType, verified, spfValid, dkimValid,
                         clicks, opens, unsubscribes, requireTls, skipVerification);
  }
}
