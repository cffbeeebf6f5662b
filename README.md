# mailgun-export, modelled in Dafny

A model of the command-line exporter `mailgun-export`. The exporter reads every kind of
account data from the Mailgun API: events, suppressions, domains, mailing lists, templates
and statistics. It maps each record to a flat export record, derives summary statistics,
and writes the result as JSON and CSV files. The model covers the exporter's own logic:

- **The request engine.**
  - `Pagination` follows continuation links page by page and collects every batch.
  - It retries a failed request with exponential backoff.
  - It builds query strings.
  - The HTTP transport is a scripted sequence of outcomes, and `sleep` is a recorded delay on a virtual clock (`Clock`).
- **The rate limiter** (`RateLimiting`): a sliding one-minute window of request timestamps, kept in a class whose methods update it in place.
- **Configuration** (`Config`): the region's API hosts, the endpoint paths, the request quota read from the environment, and `validate`.
- **The six services.**
  - Modules: `Events`, `Suppressions`, `Domains`, `Lists`, `Templates` and `Stats`.
  - Their record mappers, with their fixed defaults.
  - The merges of per-item sub-fetches, where a failed sub-fetch becomes `null` or `[]` and its siblings still complete.
  - The statistics computed over the records, as loops proved against specification functions.
- **The file exporter** (`FileExport`):
  - file names;
  - the choice between the JSON and CSV outputs;
  - the CSV guard;
  - the depth-bounded flattening of nested records into columns.

  A `FileExporter` object holds the directories and files it has written.
- **The `export` command** (`Exporter`):
  - the plan of data types;
  - the dispatch to the services;
  - the result recorded per type, where a failing type is recorded and the run goes on;
  - the closing summary.

Shared modules:

- `Wrappers`: `Option` and `Result`, standing for `null` and for a thrown error.
- `Json`: JavaScript values with truthiness, `a || b`, property reads, `String` and `JSON.stringify`.
- `Text`: the string built-ins the exporter calls.
- `Tally`: insertion-ordered counter objects `{key: count}`.
- `Numbers`: `Math.round`, `toFixed(2)` and `String` of a two-decimal number, computed on exact rationals.

Every API response a service reads is a parameter of the model. Each is either `Ok` with the
parsed body or `Err` with the message of the error the request throws. A service's result is
therefore a function of those responses.

Three points in the code differ from the natural reading of its design:

- `export` runs `validate()` before it applies `--domain`, so a domain given only on the command line does not satisfy validation (`Exporter.ValidationPrecedesOverride`).
- In the domain merge, the enriched domain's `tracking` key overrides the processed `tracking` flags. It holds the tracking response, or `null` when that fetch fails (`Domains.EnrichDomain`).
- `getBounceDescription` walks an object whose keys are integer-like. JavaScript visits such keys in ascending numeric order, not in the order they are written (`Suppressions.DescribedCodes`).

The model follows the code in each of these cases. Where a corrected version is also given (see Findings), it is a separate member beside the one that models the code as written, and the exporter's own calls use the latter.

## Model

| member | source | states |
|---|---|---|
| Pagination.Next | mailgun-export/src/utils/pagination.js:54-58 | a request past the end of the scripted responses fails with a connection reset |
| Pagination.Transport.Get | mailgun-export/src/utils/pagination.js:54-58 | each `axios.get` answers with the next scripted outcome and records the URL requested |
| Pagination.BackoffFormula | mailgun-export/src/utils/pagination.js:64 | the delay before retry `attempt` is `retryDelay * 2^(attempt-1)` |
| Pagination.RetryStep | mailgun-export/src/utils/pagination.js:62-78 | a failure with retries left sleeps the backoff and retries; a response, or a failure with none left, ends the run with that outcome |
| Pagination.RetryUntil | mailgun-export/src/utils/pagination.js:52-80 | failures up to the first response, or up to the last allowed attempt, give that outcome after exactly the backoffs of the earlier attempts |
| Pagination.RetryShape | mailgun-export/src/utils/pagination.js:52-80 | a retry run makes between 1 and `retryCount + 1` requests, sleeps once less than it requests, every earlier request failed, and a final failure means every retry was used |
| Pagination.RetryStopsAtResponse | mailgun-export/src/utils/pagination.js:60 | a response is returned as soon as it arrives |
| Pagination.DefaultBackoff | mailgun-export/src/utils/pagination.js:7-8 | with the defaults, four failures give four requests, sleeps of 1000, 2000 and 4000 ms, and the last error rethrown |
| Pagination.RetryIgnoresErrorKind | mailgun-export/src/utils/pagination.js:66-72 | a 429, a connection error and any other failure are retried alike: only where responses arrive matters |
| Pagination.Spread | mailgun-export/src/utils/pagination.js:25-27 | spreading an array gives its items, a string its characters, anything else throws |
| Pagination.BatchItems | mailgun-export/src/utils/pagination.js:24-31 | a page adds its `items` when truthy, else the array body, else the body itself; a missing body or a non-iterable `items` throws |
| Pagination.NextUrlChoice | mailgun-export/src/utils/pagination.js:82-94 | the next link is `paging.next` when truthy, else `links.next` when truthy, else `null` |
| Pagination.Paginate | mailgun-export/src/utils/pagination.js:11-50 | no page is fetched exactly when the URL is falsy; no more pages than requests, and one URL recorded per request |
| Pagination.PageBodyFields | mailgun-export/src/utils/pagination.js:24-34 | a page body with `items` and `paging.next` gives its items and that link, or `null` when the link is empty |
| Pagination.CollectsEveryPage | mailgun-export/src/utils/pagination.js:16-49 | over a chain of pages whose last link is empty, the result is every page's items in page order, one request per page, the first at the given URL and each later one at the previous page's link |
| Pagination.SinglePage | mailgun-export/src/utils/pagination.js:34 | a first page without a next link ends the loop after one request, at the given URL, with that page's items |
| Pagination.FailingPageDiscardsItems | mailgun-export/src/utils/pagination.js:42-45 | a page that fails on every attempt makes the whole fetch throw its last error, after one request for the first page and one per attempt at its link; earlier pages' items are lost |
| Pagination.PaginateStep | mailgun-export/src/utils/pagination.js:16-45 | one turn: a request failure or an unreadable body ends the run with that error, a readable page prepends its items to the rest of the run |
| Pagination.PaginateGo | mailgun-export/src/utils/pagination.js:24-35 | a turn that reads a page goes on from that page's next link after the requests it used |
| Pagination.KeptParamsExact | mailgun-export/src/utils/pagination.js:103-107 | the query gets exactly the parameters that are neither `undefined` nor `null`, each with its string form |
| Pagination.BuildUrl | mailgun-export/src/utils/pagination.js:101-109 | the URL keeps its base and query and appends the kept parameters in key order |
| Pagination.LoopStart | mailgun-export/src/utils/pagination.js:12-14 | the loop starts with nothing collected and the whole run ahead |
| Pagination.LoopAdvance | mailgun-export/src/utils/pagination.js:20-35 | a turn that reads a page keeps the loop invariant and moves strictly forward |
| Pagination.LoopFails | mailgun-export/src/utils/pagination.js:42-45 | a turn that throws ends the whole run with that error |
| Pagination.LoopEnd | mailgun-export/src/utils/pagination.js:16-49 | a falsy next link means the collected items are the whole result |
| Pagination.PaginationHelper.constructor | mailgun-export/src/utils/pagination.js:3-9 | the helper retries 3 times from 1000 ms |
| Pagination.PaginationHelper.MakeRequestWithRetry | mailgun-export/src/utils/pagination.js:52-80 | the outcome, requests and sleeps are exactly those of the retry specification, and the clock advances by the sleeps |
| Pagination.PaginationHelper.ExecuteRequest | mailgun-export/src/utils/pagination.js:20-22 | the limiter records the time read on entry; the clock moves by the limiter's sleep, then by the backoffs; the URL is requested once per attempt, and the outcome is that of the retry specification |
| Pagination.PaginationHelper.FetchPage | mailgun-export/src/utils/pagination.js:19-45 | one turn of the loop: the page's items or the error it throws, its next link, one admission and one URL per attempt; a page that is read keeps the loop invariant, a page that throws ends the whole run with its error |
| Pagination.PaginationHelper.FetchAllPages | mailgun-export/src/utils/pagination.js:11-50 | the result, the requests and the URLs requested, in order, are those of the page-loop specification, where each page after the first is requested at the previous page's link; one limiter admission per page |
| Clock.VirtualClock.Sleep | mailgun-export/src/utils/rateLimiter.js:32-34 | sleeping `ms` moves the clock forward by exactly `ms` and records the sleep |
| RateLimiting.Above | mailgun-export/src/utils/rateLimiter.js:15 | the filter keeps exactly the timestamps later than the bound, and never grows the list |
| RateLimiting.Prune | mailgun-export/src/utils/rateLimiter.js:11-15 | after pruning, exactly the timestamps within the last 60000 ms remain |
| RateLimiting.Oldest | mailgun-export/src/utils/rateLimiter.js:19 | `Math.min` of the window is one of its timestamps and no later than any other |
| RateLimiting.WaitTime | mailgun-export/src/utils/rateLimiter.js:19-20 | the wait is finite exactly when the window holds a timestamp; an empty window, which a quota of 0 or less can reach, gives `Math.min()`, that is, an infinite wait |
| RateLimiting.TimerDelay | mailgun-export/src/utils/rateLimiter.js:32-34 | a positive wait sleeps at least 1 ms, and exactly the wait when a Node.js timer can hold it; a longer or infinite wait fires after 1 ms |
| RateLimiting.SleepWithinOneMinute | mailgun-export/src/utils/rateLimiter.js:18-26 | with a non-empty window at the quota, the limiter sleeps more than 0 and at most 60000 ms, and wakes exactly when the oldest timestamp leaves the window |
| RateLimiting.NoQuotaAlwaysSleeps | mailgun-export/src/utils/rateLimiter.js:18-26 | with a quota of 0 or less every call sleeps: 1 ms on an empty window, otherwise until the oldest timestamp leaves the window |
| RateLimiting.Step | mailgun-export/src/utils/rateLimiter.js:10-30 | one call keeps the pruned list plus the time read before the sleep, and the request goes out no earlier than that time |
| RateLimiting.PreSleepStampExceedsQuota | mailgun-export/src/utils/rateLimiter.js:10-30 | with a quota of 1, three calls at 0, 1 and 60000 ms put two requests inside one minute: recording the pre-sleep time breaks the quota |
| RateLimiting.StepAtWake | mailgun-export/src/utils/rateLimiter.js:10-30 | the corrected call records the time the request actually goes out |
| RateLimiting.StepAtWakeKeepsQuota | mailgun-export/src/utils/rateLimiter.js:18-29 | with the corrected stamp and a quota of at least 1, one more call keeps every one-minute window within the quota |
| RateLimiting.RunAtWake | mailgun-export/src/utils/rateLimiter.js:10-30 | a run of corrected calls issues one request per call, after the requests already issued |
| RateLimiting.RunAtWakeKeepsQuota | mailgun-export/src/utils/rateLimiter.js:18-29 | after any number of corrected calls, with any pauses between them, no one-minute window holds more requests than a quota of at least 1 |
| RateLimiting.RoomAtWake | mailgun-export/src/utils/rateLimiter.js:18-26 | when the corrected call issues its request, fewer than the quota lie in the minute before it |
| RateLimiting.RateLimiter.constructor | mailgun-export/src/utils/rateLimiter.js:4-8 | the limiter starts with no timestamps, the given quota unchecked (300 by default) and 10 concurrency slots |
| RateLimiting.RateLimiter.WaitIfNeeded | mailgun-export/src/utils/rateLimiter.js:10-30 | the list becomes the pruned list plus the time read on entry; the clock advances by exactly the wait, and only when the window is full |
| RateLimiting.RateLimiter.GetStatus | mailgun-export/src/utils/rateLimiter.js:45-55 | requests in the last minute, the remaining quota floored at 0 and never above a non-negative quota, and the configured quota; nothing changes |
| RateLimiting.StatusPredictsSleep | mailgun-export/src/utils/rateLimiter.js:18-52 | for any quota, the status shows requests remaining exactly when a call at that moment would not sleep |
| Config.EnvValue | mailgun-export/src/config/mailgun.config.js:5-6 | a variable reads as its text when set and as `undefined` otherwise |
| Config.EnvOr | mailgun-export/src/config/mailgun.config.js:7 | `process.env[name]` or else the fallback: the variable when set to non-empty text, the fallback otherwise |
| Config.FromEnv | mailgun-export/src/config/mailgun.config.js:3-43 | each setting comes from its variable with its default: region US, quota 300, format json, directory ./exports, debug only for exactly "true" |
| Config.BaseUrl | mailgun-export/src/config/mailgun.config.js:11-15 | the EU v3 host exactly when the upper-cased region is "EU", the US v3 host otherwise |
| Config.BaseUrlV4 | mailgun-export/src/config/mailgun.config.js:17-21 | the EU v4 host exactly when the upper-cased region is "EU", the US v4 host otherwise |
| Config.RegionIgnoresCase | mailgun-export/src/config/mailgun.config.js:11-21 | regions equal up to case select the same hosts, and v4 is always the v3 host with the version changed |
| Config.RegionDefaults | mailgun-export/src/config/mailgun.config.js:7-14 | "eu" in any case selects the EU host; an unset region selects the US host |
| Config.DomainPath | mailgun-export/src/config/mailgun.config.js:54-86 | every per-domain endpoint is `/<domain>/<resource>` |
| Config.ListMembersPath | mailgun-export/src/config/mailgun.config.js:61 | the list-members endpoint is `/lists/<list>/members` |
| Config.DomainPathRoundTrip | mailgun-export/src/config/mailgun.config.js:54-86 | a per-domain path reads back to its domain and its resource |
| Config.ResourceNameRoundTrip | mailgun-export/src/config/mailgun.config.js:54-86 | each resource segment reads back to the resource it names |
| Config.DomainPathsDistinct | mailgun-export/src/config/mailgun.config.js:54-86 | different domains or different resources never share an endpoint path |
| Config.ListMembersRoundTrip | mailgun-export/src/config/mailgun.config.js:61 | the list-members path reads back to the list address |
| Config.RateLimit | mailgun-export/src/config/mailgun.config.js:32 | `parseInt(RATE_LIMIT)` or else 300: the parsed number unless it is NaN or 0, which give 300; the quota is never 0 |
| Config.ParseIntRoundTrip | mailgun-export/src/config/mailgun.config.js:32 | `parseInt` reads back the decimal text of any integer |
| Config.RateLimitFromEnv | mailgun-export/src/config/mailgun.config.js:32 | a non-zero integer in RATE_LIMIT is taken as written; an unset or empty variable gives 300 |
| Config.Validate | mailgun-export/src/config/mailgun.config.js:90-98 | the key is checked first, then the domain; both truthy exactly when validation passes |
| Config.ValidateFromEnv | mailgun-export/src/config/mailgun.config.js:90-98 | an environment without a key is refused for the key whatever the domain; with a key, a missing domain is refused; both set passes |
| Pagination.Fetched | mailgun-export/src/services/domains.service.js:14-15 | `fetchAllPages(url)` then `.map(process)`: succeeds exactly when paging succeeds and every item has readable properties, and then maps each item in order |
| Pagination.FieldOrBody | mailgun-export/src/services/domains.service.js:49-59 | `response.data.<field>` or else `response.data`, with failures caught as `null`: the field when truthy, else the body; `null` exactly when the request failed or the body cannot be read |
| Domains.FlagOr | mailgun-export/src/services/domains.service.js:171-173 | a flag defaulted to `false` is truthy exactly when the flag is, and `false` otherwise |
| Domains.ProcessDomainAsWritten | mailgun-export/src/services/domains.service.js:149-192 | verified exactly when the state is "active"; the password field masked when set, else `null`; flags defaulted to `false`; `raw` is the response object itself |
| Domains.TrackingDefaults | mailgun-export/src/services/domains.service.js:170-174 | each tracking flag of a processed domain is the response's flag or `false` |
| Domains.RawKeepsPassword | mailgun-export/src/services/domains.service.js:110-192 | the domain data fetched as written masks `smtpPassword` but still exports the clear password under `raw` |
| Domains.MaskPassword | mailgun-export/src/services/domains.service.js:156 | the same properties in the same order, with only `smtp_password` replaced by the mask |
| Domains.MaskedRaw | mailgun-export/src/services/domains.service.js:149-192 | a masked response has no clear password and reads as before under every other name |
| Domains.ProcessDomain | mailgun-export/src/services/domains.service.js:149-192 | every field as written except `raw`, which holds no clear password and keeps every other property of the response |
| Domains.ProcessSmtpCredential | mailgun-export/src/services/domains.service.js:194-203 | the login is kept and the password is always the mask |
| Domains.CredentialIgnoresPassword | mailgun-export/src/services/domains.service.js:200-201 | a credential's record does not depend on any password the API sends |
| Domains.ProcessIpAllowlist | mailgun-export/src/services/domains.service.js:205-211 | the comment is kept when truthy and defaults to "" |
| Domains.DomainDetails | mailgun-export/src/services/domains.service.js:26-42 | the details are present exactly when the request succeeded with a readable body; their `raw` is the `domain` field or the body as fetched |
| Domains.DomainDns | mailgun-export/src/services/domains.service.js:62-78 | the DNS body as fetched, or `null` when the request failed |
| Domains.EnrichDomain | mailgun-export/src/services/domains.service.js:121-136 | the domain keeps every field but `tracking`; the details are the processed details response, the tracking `response.data.tracking || response.data`, the DNS body, and the processed credentials and allowlist; each of the five fetches that fails gives `null` or `[]` in its own place only |
| Domains.FetchAllDomainData | mailgun-export/src/services/domains.service.js:110-147 | the whole call fails exactly when the domain listing does; otherwise one entry per domain, in order, each the listed response processed as written (so `raw` is the response itself) and enriched from the five answers for its own name |
| Domains.FetchAllDomainDataMasked | mailgun-export/src/services/domains.service.js:110-147 | the same outcome and entries, with each domain processed by the corrected `processDomain`, and no clear password in the `raw` of a domain or of its details |
| Domains.DomainFailureIsolated | mailgun-export/src/services/domains.service.js:121-136 | a domain's entry depends only on its own five responses: failures elsewhere leave it unchanged |
| Domains.CountFlag | mailgun-export/src/services/domains.service.js:243-254 | no counter exceeds the number of domains |
| Domains.DomainStatsBounds | mailgun-export/src/services/domains.service.js:214-258 | state and type counts each add up to the total, one property per distinct value, each the number of domains with that value; every flag counter is at most the total |
| Domains.VerifiedAreActive | mailgun-export/src/services/domains.service.js:243 | no more domains are verified than have state "active" |
| Domains.ProcessedVerification | mailgun-export/src/services/domains.service.js:160 | a processed domain is verified exactly when its state is "active" |
| Domains.GetDomainStats | mailgun-export/src/services/domains.service.js:214-258 | the single pass yields exactly the statistics of the domain list |
| Events.WithDateLookup | mailgun-export/src/services/events.service.js:19-24 | a set date overrides its parameter with its UTC text; an unset date leaves the parameters as they were |
| Events.ParamsLookup | mailgun-export/src/services/events.service.js:13-29 | each parameter reads as the configured date where one is set, otherwise as the options over the default page size |
| Events.EventParamsMeaning | mailgun-export/src/services/events.service.js:13-29 | `limit` comes first, the options' own limit or 300; `begin`/`end` are the configured dates when set, else the options'; every other parameter, `event` included, is the options' own |
| Events.WithDateAppends | mailgun-export/src/services/events.service.js:19-24 | a date not yet in the query is appended after the existing parameters |
| Events.TypeParams | mailgun-export/src/services/events.service.js:10-54 | the parameters of a per-type fetch are the page size, the type, then the date range where configured |
| Events.EventTypeQuery | mailgun-export/src/services/events.service.js:10-54 | the query string of a per-type fetch is `limit=300`, `event=<type>`, then `begin` and `end` where configured, in that order |
| Events.FetchEvents | mailgun-export/src/services/events.service.js:10-49 | succeeds exactly when paging succeeds and every event is readable, and then yields every event processed, in order; any failure is rethrown |
| Events.OrEmpty | mailgun-export/src/services/events.service.js:73-78 | a caught failure stands for no events |
| Events.EventTypesDistinct | mailgun-export/src/services/events.service.js:57-68 | the ten event types are distinct, so each gets its own property |
| Events.FetchEachType | mailgun-export/src/services/events.service.js:72-79 | one property per type, in order, holding that type's events, or none when its fetch failed |
| Events.FetchAllEventTypes | mailgun-export/src/services/events.service.js:56-82 | one property per listed event type, in the listed order, each that type's events or `[]` on failure |
| Events.ProcessEvent | mailgun-export/src/services/events.service.js:84-161 | `raw` is the event; campaigns, tags and user variables default to `[]`, `[]` and `{}`; storage and geolocation are `null` exactly when the event has none |
| Events.ProcessedEventFields | mailgun-export/src/services/events.service.js:84-161 | the defaulted fields are never falsy, and the fields the statistics read are the raw event's own |
| Events.RangeBounds | mailgun-export/src/services/events.service.js:170-199 | both ends are `null` exactly when no event has a timestamp; otherwise earliest ≤ latest and every timestamp lies between them |
| Events.RangeAttained | mailgun-export/src/services/events.service.js:193-198 | each end is the timestamp of some event |
| Events.TruthyKeysCount | mailgun-export/src/services/events.service.js:181-188 | no more keys than events, and as many exactly when every event has the field |
| Events.EventStatsTotals | mailgun-export/src/services/events.service.js:164-203 | type counts add up to the total; status and domain counts add up to at most the total, to exactly it when every event has a code or domain; each count is the number of events with that key |
| Events.GetEventStats | mailgun-export/src/services/events.service.js:164-203 | the single pass yields exactly the statistics of the event list |
| Suppressions.ClassifyBounceType | mailgun-export/src/services/suppressions.service.js:179-195 | "permanent" exactly when the code is truthy and its text starts with 5, "temporary" exactly when it starts with 4, "unknown" otherwise |
| Suppressions.AnyIncludedMeansSome | mailgun-export/src/services/suppressions.service.js:204-210 | `some(c => codeStr.includes(c))` holds exactly when one of the codes occurs in the text |
| Suppressions.GetBounceSeverity | mailgun-export/src/services/suppressions.service.js:197-215 | one of four levels: "unknown" exactly for a falsy code, "high" exactly when a 55x code occurs in its text, "medium" exactly when no 55x code but a 45x code does, "low" otherwise |
| Suppressions.FirstDescriptionIsFirstMatch | mailgun-export/src/services/suppressions.service.js:232-236 | the description found is that of the earliest entry whose code occurs in the text, and none exactly when no code occurs |
| Suppressions.FirstDescriptionFound | mailgun-export/src/services/suppressions.service.js:232-236 | a description is found exactly when some described code occurs in the text |
| Suppressions.GetBounceDescription | mailgun-export/src/services/suppressions.service.js:217-239 | "Unknown bounce reason" for a falsy code; otherwise the description of the first table code found in the code's text, or "SMTP Error Code: " and the code when none is found |
| Suppressions.DescribedCodes | mailgun-export/src/services/suppressions.service.js:218-227 | the description table, in its visiting order, covers exactly the medium codes and then the high codes |
| Suppressions.SeverityAgreesWithDescription | mailgun-export/src/services/suppressions.service.js:197-239 | for a truthy code, the severity is high or medium exactly when a description is found; otherwise the description is "SMTP Error Code: <code>" |
| Suppressions.NumericBounceType | mailgun-export/src/services/suppressions.service.js:182-192 | a numeric code from 400 to 599 is temporary below 500 and permanent from 500 |
| Suppressions.ProcessBounce | mailgun-export/src/services/suppressions.service.js:120-135 | the bounce keeps its raw object and code, and its type, severity and description are those the code gives |
| Suppressions.ProcessComplaint | mailgun-export/src/services/suppressions.service.js:137-150 | the complaint type is never falsy, the source is "feedback_loop" and the severity "high" |
| Suppressions.ProcessUnsubscribe | mailgun-export/src/services/suppressions.service.js:152-165 | tags, method and source default to `[]`, "unknown" and "manual", so none is falsy |
| Suppressions.ProcessWhitelist | mailgun-export/src/services/suppressions.service.js:167-177 | the address falls back to `value`; type and reason default to "address" and "manual" |
| Suppressions.FetchAllSuppressions | mailgun-export/src/services/suppressions.service.js:84-118 | each of the four lists is its own fetch processed, or `[]` when that fetch throws |
| Suppressions.FailureIsolated | mailgun-export/src/services/suppressions.service.js:89-115 | a failing list becomes `[]` and leaves the other three as they were |
| Suppressions.GroupKey | mailgun-export/src/services/suppressions.service.js:267 | a falsy value is counted under "unknown" |
| Suppressions.GroupKeys | mailgun-export/src/services/suppressions.service.js:266-270 | one key per item, in order |
| Suppressions.GroupByCounts | mailgun-export/src/services/suppressions.service.js:265-271 | the groups add up to the number of items, one property per distinct key, each counting the items with that key |
| Suppressions.FalsyCountedAsUnknown | mailgun-export/src/services/suppressions.service.js:267 | the "unknown" group counts at least every falsy value |
| Suppressions.CountBounceType | mailgun-export/src/services/suppressions.service.js:246-247 | a filtered count never exceeds the number of bounces |
| Suppressions.PermanentAndTemporaryDisjoint | mailgun-export/src/services/suppressions.service.js:246-247 | permanent and temporary bounces together never outnumber the bounces |
| Suppressions.SuppressionStatsConsistent | mailgun-export/src/services/suppressions.service.js:242-263 | permanent plus temporary is at most the bounce total, and each grouping adds up to its list's total |
| Numbers.RoundHalfUp | mailgun-export/src/services/stats.service.js:234 | `Math.round`: the integer within half of the value, halves rounded up |
| Numbers.RoundedAverage | mailgun-export/src/services/stats.service.js:234 | `Math.round(total / n)` computed exactly: the nearest integer to the quotient, halves rounded up |
| Numbers.Hundredths | mailgun-export/src/services/stats.service.js:191 | `toFixed(2)` keeps the sign of the value |
| Numbers.Round2Close | mailgun-export/src/services/stats.service.js:191 | `parseFloat(x.toFixed(2))` moves a value by at most half a hundredth |
| Numbers.Round2OfHundredths | mailgun-export/src/services/stats.service.js:191 | rounding a value that already has two decimals leaves it alone |
| Stats.Index | mailgun-export/src/services/stats.service.js:203-212 | every metric has its place among the totals' keys |
| Stats.CalculateRate | mailgun-export/src/services/stats.service.js:189-192 | 0 whenever the denominator is 0 or the numerator is 0, and never negative for counts |
| Stats.RateAtMostHundred | mailgun-export/src/services/stats.service.js:189-192 | a rate lies between 0 and 100 when the part does not exceed the whole |
| Stats.SumOfAppend | mailgun-export/src/services/stats.service.js:215-219 | summing a metric over two runs of rows adds up |
| Stats.AllMetricsListed | mailgun-export/src/services/stats.service.js:203-212 | the totals have a key for every metric |
| Stats.TotalsOf | mailgun-export/src/services/stats.service.js:203-219 | the totals have exactly the eight metric keys |
| Stats.AveragesOf | mailgun-export/src/services/stats.service.js:232-235 | the averages have exactly the eight metric keys |
| Stats.Halves | mailgun-export/src/services/stats.service.js:251-253 | the two halves split the rows in order, the first with `floor(n / 2)` rows |
| Stats.CalculateTrends | mailgun-export/src/services/stats.service.js:248-273 | no trends below 4 rows; from 4 rows on, exactly one trend for each of accepted, delivered, failed, opened and clicked |
| Stats.AggregatesMeaning | mailgun-export/src/services/stats.service.js:194-246 | with at least one row, each total is its metric summed over the rows and each average that total over the row count, rounded half up |
| Stats.CompareAverages | mailgun-export/src/services/stats.service.js:259-262 | the sign of the difference of two averages, decided without division |
| Stats.TrendLabel | mailgun-export/src/services/stats.service.js:248-273 | from 4 rows on, each trend is "up", "down" or "stable" exactly as the second half's average is above, below or equal to the first half's |
| Stats.AddRow | mailgun-export/src/services/stats.service.js:216-218 | every metric's total grows by the row's counter, and the keys stay the same |
| Stats.SumTotals | mailgun-export/src/services/stats.service.js:215-219 | the nested loop yields every metric summed over all rows |
| Stats.AveragesLoop | mailgun-export/src/services/stats.service.js:232-235 | the loop yields every metric's rounded average |
| Stats.CalculateAggregates | mailgun-export/src/services/stats.service.js:194-246 | the totals, overall rates, averages and trends of the rows; with no rows, empty objects and no rates |
| Stats.ProcessStats | mailgun-export/src/services/stats.service.js:151-187 | one row per stats entry when `stats` is an array, none otherwise; the aggregates are those of the rows; it throws exactly for a missing body or a missing entry |
| Stats.ProcessedRowCounters | mailgun-export/src/services/stats.service.js:162-171 | each row counter is the entry's `<metric>.total`, 0 when missing |
| Stats.Select | mailgun-export/src/services/stats.service.js:276-344 | the insights of one category never outnumber all the insights |
| Stats.SelectAppend | mailgun-export/src/services/stats.service.js:284-338 | selecting a category distributes over the pushes in order |
| Stats.SelectTrends | mailgun-export/src/services/stats.service.js:331-341 | trend insights all belong to the trends category |
| Stats.GenerateInsights | mailgun-export/src/services/stats.service.js:276-344 | no insights without rates; otherwise each category holds exactly what its own threshold rule yields: delivery below 95 or above 98, opens below 15 or above 25, complaints above 0.1, bounces above 2, trends beyond 20% |
| Stats.InsightsByCategory | mailgun-export/src/services/stats.service.js:282-341 | each category of the insights is exactly its own rule's output, in order |
| Stats.SplitCategory | mailgun-export/src/services/stats.service.js:282-341 | selecting one category from all the insights gives that category's rule alone |
| Stats.SelectRule | mailgun-export/src/services/stats.service.js:282-341 | each rule yields insights of its own category only |
| Stats.SelectOne | mailgun-export/src/services/stats.service.js:283-328 | a rule that pushes at most one insight contributes only to its own category |
| Stats.EmptyStatsBreakInsights | mailgun-export/src/services/stats.service.js:194-283 | for an empty stats list the insights as written throw, where the corrected version gives none |
| Stats.GenerateInsightsAsWritten | mailgun-export/src/services/stats.service.js:276-344 | no insights without aggregates; throws exactly when the aggregates lack overall rates; otherwise exactly the corrected insights |
| Stats.InsightsDefinedForNonEmptyStats | mailgun-export/src/services/stats.service.js:194-344 | with at least one row the insights as written never throw |
| Templates.CreatedAt | mailgun-export/src/services/templates.service.js:146 | `createdAt` when truthy, else `created_at` |
| Templates.ProcessTemplate | mailgun-export/src/services/templates.service.js:142-155 | the template keeps its raw object and name; the version count defaults to 0 |
| Templates.ProcessTemplateDetails | mailgun-export/src/services/templates.service.js:157-174 | the details keep their raw object; without a `version` object the version fields are `undefined` |
| Templates.SumLengths | mailgun-export/src/services/templates.service.js:209-215 | the sum is a number exactly when every truthy field has a length; otherwise it is NaN |
| Templates.SumOfFour | mailgun-export/src/services/templates.service.js:212-215 | the size adds the four fields' lengths in turn |
| Templates.UnitIndex | mailgun-export/src/services/templates.service.js:263 | `floor(log(bytes) / log(1024))` computed exactly: the largest `i` with `1024^i <= bytes` |
| Templates.FormatBytesSmall | mailgun-export/src/services/templates.service.js:258-266 | 0 reads "0 Bytes"; fewer than 1024 bytes read as the whole number followed by " Bytes" |
| Templates.CalculateTemplateSize | mailgun-export/src/services/templates.service.js:209-222 | the size, its kilobytes to two decimals and its readable text are those of the summed lengths of the truthy content fields |
| Templates.SizeMatchesContent | mailgun-export/src/services/templates.service.js:209-230 | when every content field is text or absent, the size is the joined content's length less its three separators |
| Templates.FirstMatch | mailgun-export/src/services/templates.service.js:233-235 | the first position at or after the start where the text occurs, and none before it |
| Templates.HasTemplateVariables | mailgun-export/src/services/templates.service.js:224-236 | true exactly when the joined content has a `{{` with a `}}` somewhere after it |
| Templates.SkipSpaces | mailgun-export/src/services/templates.service.js:247 | `\s*` skips exactly the white space that follows |
| Templates.NameEnd | mailgun-export/src/services/templates.service.js:247 | `[^}\s]+` stops at the first `}` or white space |
| Templates.VariableAt | mailgun-export/src/services/templates.service.js:247 | a match at a position is a `{{`, a non-empty name, and a closing `}}` after it |
| Templates.Exec | mailgun-export/src/services/templates.service.js:251 | each `exec` match ends after the position it starts from, so the loop ends |
| Templates.CountTemplateVariables | mailgun-export/src/services/templates.service.js:238-256 | the count is the number of distinct names the successive matches capture |
| Templates.CountedVariablesAreHandlebars | mailgun-export/src/services/templates.service.js:224-256 | a version with a counted variable always has Handlebars syntax |
| Templates.ProcessTemplateVersion | mailgun-export/src/services/templates.service.js:176-207 | the version keeps its raw object, tag, engine and the four content fields; headers default to `{}` and mjml to `false`; its size is that of its content, and a counted variable implies `hasVariables` |
| Templates.FromResponse | mailgun-export/src/services/templates.service.js:74 | `response.data.template` or else `response.data`, processed: succeeds exactly when the request did and the body is readable |
| Templates.VersionEntriesAsWritten | mailgun-export/src/services/templates.service.js:99-116 | as written, one entry per listed version: its content, or `null` when the content fetch failed |
| Templates.VersionEntries | mailgun-export/src/services/templates.service.js:99-116 | one entry per listed version, never `null`: the content where it was fetched, otherwise the listed version marked with the error |
| Templates.Enrich | mailgun-export/src/services/templates.service.js:118-123 | the template with its processed details (`null` exactly when that fetch fails), its entries, and a version count equal to the number of entries |
| Templates.EnrichAsWritten | mailgun-export/src/services/templates.service.js:88-126 | one template as written: its processed details or `null` when that fetch fails, and one entry per listed version, its content or `null` where the content fetch failed, counted in the version count |
| Templates.EnrichTemplate | mailgun-export/src/services/templates.service.js:88-126 | the corrected template: the same details and number of versions as written, and each entry the version's content, or the listed version with the error where the content fetch failed, never `null` |
| Templates.FetchAllTemplatesWithVersionsAsWritten | mailgun-export/src/services/templates.service.js:82-140 | fails exactly when the template listing does; otherwise one enriched template per listed template, in order |
| Templates.FetchAllTemplatesWithVersions | mailgun-export/src/services/templates.service.js:82-140 | the same, with failed contents kept as the listed version plus the error |
| Templates.AllVersionsCount | mailgun-export/src/services/templates.service.js:272-288 | the versions of all templates number the sum of their counts |
| Templates.RowsOfCount | mailgun-export/src/services/templates.service.js:274-286 | one template's rows succeed exactly when it has no `null` version, then one row per version in order; otherwise reading `tag` of `null` throws |
| Templates.ContentRowsCount | mailgun-export/src/services/templates.service.js:269-291 | the export succeeds exactly when no template has a `null` version, and then has one row per version |
| Templates.ExtractTemplateContent | mailgun-export/src/services/templates.service.js:269-291 | the nested loop returns or throws exactly as the content-rows specification says |
| Templates.PrefixErrorPropagates | mailgun-export/src/services/templates.service.js:275-278 | one `null` version anywhere makes the whole extraction throw |
| Templates.TallyVersionsBounds | mailgun-export/src/services/templates.service.js:316-346 | the per-version counters succeed exactly without a `null` version; content-type and variable counters never exceed the versions; engine counts tally the truthy engines |
| Templates.TallyFailsAtNull | mailgun-export/src/services/templates.service.js:318 | reading `engine` of a `null` version throws, and only that throws |
| Templates.TallyCounts | mailgun-export/src/services/templates.service.js:318-345 | html, text and both are counted at most once per version, and engines one key per truthy engine |
| Templates.Summarize | mailgun-export/src/services/templates.service.js:351-358 | with no versions the averages are 0 and "0 Bytes"; otherwise the variable average is `toFixed(2)` text |
| Templates.TemplateStatsBounds | mailgun-export/src/services/templates.service.js:294-361 | the statistics succeed exactly without `null` versions; then they count every template and version, and no counter exceeds the versions |
| Templates.AllVersionsNoMissing | mailgun-export/src/services/templates.service.js:312-316 | all versions are non-`null` exactly when each template's are |
| Templates.CountVersions | mailgun-export/src/services/templates.service.js:316-346 | the inner loop extends the tally by exactly the template's versions |
| Templates.GetTemplateStats | mailgun-export/src/services/templates.service.js:294-361 | the loops return or throw exactly as the statistics specification says |
| Templates.TallyStep | mailgun-export/src/services/templates.service.js:316-345 | one more version adds its counts to the tally |
| Templates.TallyMissingStops | mailgun-export/src/services/templates.service.js:318 | a `null` version stops the tally with the error |
| Templates.TallyErrorSpreads | mailgun-export/src/services/templates.service.js:312-348 | a tally that fails on the first templates fails the whole statistics |
| Templates.FailedVersionBreaksExport | mailgun-export/src/services/templates.service.js:63-113 | a failed version content makes both the content export and the statistics as written throw; with the listed version kept, both succeed |
| Templates.OneTemplate | mailgun-export/src/services/templates.service.js:269-361 | for one template, content export and statistics succeed exactly when it has no `null` version |
| Lists.ProcessListMember | mailgun-export/src/services/lists.service.js:135-155 | the status is "subscribed" exactly when `subscribed` is truthy and "unsubscribed" otherwise; `vars` defaults to `{}` and the opt-in flag to `false` |
| Lists.MembersUrl | mailgun-export/src/services/lists.service.js:29-37 | the members endpoint of the list, asking for subscribed members only unless unsubscribed ones are included, 100 per page |
| Lists.EnrichList | mailgun-export/src/services/lists.service.js:85-90 | the list with its members (`[]` when their fetch failed), its statistics, and a member count equal to the members kept |
| Lists.FetchAllListsWithMembers | mailgun-export/src/services/lists.service.js:70-107 | fails exactly when the list listing does; otherwise one entry per list, in order, with the processed members fetched for its own address (or none when that fails), its own statistics response, and a member count equal to its members |
| Lists.ListFailureIsolated | mailgun-export/src/services/lists.service.js:76-104 | a list's entry depends only on its own two fetches; a failed members fetch leaves no members and a count of 0 |
| Lists.ByDomainMeaning | mailgun-export/src/services/lists.service.js:113 | the filter throws exactly when some address is not text, and otherwise keeps exactly the lists whose address ends in `@domain` |
| Lists.ByDomainAppend | mailgun-export/src/services/lists.service.js:113 | the filter keeps the lists' order |
| Lists.FetchListsByDomain | mailgun-export/src/services/lists.service.js:109-114 | every list returned has a text address ending in `@domain`, and the listing itself succeeded |
| Lists.MembersPartition | mailgun-export/src/services/lists.service.js:201-202 | every member is counted once, as subscribed or as unsubscribed |
| Lists.ListsPartition | mailgun-export/src/services/lists.service.js:199-203 | subscribed plus unsubscribed members add up to all members of all lists |
| Lists.DistributionBounds | mailgun-export/src/services/lists.service.js:189-211 | the minimum stays at its initial `Infinity` exactly when no list has members; otherwise minimum and maximum bound every member count and are attained by some list |
| Lists.AccessKeys | mailgun-export/src/services/lists.service.js:224 | one access-level key per list |
| Lists.ListStatsMeaning | mailgun-export/src/services/lists.service.js:182-241 | subscribed plus unsubscribed equals the members; access levels add up to the lists, each counting its lists; the variable names are distinct and exactly those seen; min ≤ max, both 0 without members |
| Lists.MaxZeroWithoutMembers | mailgun-export/src/services/lists.service.js:191-211 | without any members array the maximum stays 0 |
| Lists.CollectKeys | mailgun-export/src/services/lists.service.js:216-218 | adding the keys one by one gives the set of keys so far in insertion order |
| Lists.CollectMemberKeys | mailgun-export/src/services/lists.service.js:214-220 | the variable names of every member with truthy `vars` are added |
| Lists.AddList | mailgun-export/src/services/lists.service.js:197-225 | one pass of the callback yields the running statistics of the lists seen plus this one |
| Lists.AddListWithoutMembers | mailgun-export/src/services/lists.service.js:199-224 | a list without a members array only adds to its access level's count |
| Lists.AddListWithMembers | mailgun-export/src/services/lists.service.js:199-224 | a list with members adds them to every counter, to the bounds and to the variable names, and counts its access level |
| Lists.GetListStats | mailgun-export/src/services/lists.service.js:182-241 | the loop returns exactly the list statistics, with the average rounded and the `Infinity` minimum replaced by 0 |
| Lists.DomainOfAddress | mailgun-export/src/services/lists.service.js:266 | `split('@')[1]` of an address with one '@' is the text after it |
| Lists.DomainKey | mailgun-export/src/services/lists.service.js:266-269 | a member adds at most one domain |
| Lists.OptedInIn | mailgun-export/src/services/lists.service.js:263 | the opted-in count never exceeds the members |
| Lists.SubscribedAtMostMembers | mailgun-export/src/services/lists.service.js:262 | the subscribed count never exceeds the members |
| Lists.RateWithinPercent | mailgun-export/src/services/lists.service.js:280 | an empty list rates 0; otherwise the rate is between 0 and 100, and "100.00" when every member counts |
| Lists.MembersFoldCounts | mailgun-export/src/services/lists.service.js:261-277 | the members pass throws exactly when an address is not text; otherwise it bumps each variable name and each domain once per occurrence, and leaves the rates alone |
| Lists.EngagementMeaning | mailgun-export/src/services/lists.service.js:244-293 | the analysis throws exactly when some member address is not text; otherwise the variable usage and domain distribution tally every occurrence, and each rate entry counts at most its list's members |
| Lists.EngagementStep | mailgun-export/src/services/lists.service.js:252-290 | one more list keeps the analysis's meaning |
| Lists.StepTallies | mailgun-export/src/services/lists.service.js:266-276 | one more list's members extend both tallies by their own keys and domains |
| Lists.StepRates | mailgun-export/src/services/lists.service.js:279-289 | the two rate entries a list adds count at most its members |
| Lists.VariablesAgree | mailgun-export/src/services/lists.service.js:216-275 | the variable names of the list statistics are exactly the properties of the engagement's variable usage, in the same order |
| Lists.TallyKeys | mailgun-export/src/services/lists.service.js:273-275 | counting keys into an object bumps each key once per occurrence |
| Lists.ScanMembers | mailgun-export/src/services/lists.service.js:261-277 | the inner loop returns or throws as the members pass specifies, with the subscribed and opted-in counts |
| Lists.GetMemberEngagementStats | mailgun-export/src/services/lists.service.js:244-293 | the loop returns or throws exactly as the engagement specification says |
| FileExport.Stamp | mailgun-export/src/utils/fileExporter.js:20 | the time part is the timestamp given when truthy, else the clock's reading |
| FileExport.GenerateFileName | mailgun-export/src/utils/fileExporter.js:19-22 | every file name starts with "mailgun_" and ends with "." and the format |
| FileExport.LastIndexOf | mailgun-export/src/utils/fileExporter.js:159 | the last position of the character, or -1, with none after it |
| FileExport.FileNameRoundTrip | mailgun-export/src/utils/fileExporter.js:19-22 | a name made for a type without `_` and a format without `.` reads back to its type, time part and format |
| FileExport.ParseRoundTrip | mailgun-export/src/utils/fileExporter.js:156-159 | reading back a name splits at the first `_` after the prefix and at the last `.` |
| FileExport.FirstSeparator | mailgun-export/src/utils/fileExporter.js:156-158 | the first `_` after a type without one is the one that ends it |
| FileExport.LastSeparator | mailgun-export/src/utils/fileExporter.js:159 | the last `.` before a format without one is the one that starts it |
| FileExport.TotalRecords | mailgun-export/src/utils/fileExporter.js:33 | an array's length, 1 for anything else |
| FileExport.ExportPaths | mailgun-export/src/utils/fileExporter.js:71-85 | the JSON path first for "json" and "both", then the CSV path for "csv" and "both" when the data is a non-empty array; nothing for any other format |
| FileExport.ExportFilesArePaths | mailgun-export/src/utils/fileExporter.js:71-85 | a file is written exactly when its path is returned |
| FileExport.ExportPathsDistinct | mailgun-export/src/utils/fileExporter.js:74-82 | with "both", the two files written are different files |
| FileExport.Entries | mailgun-export/src/utils/fileExporter.js:94-96 | `for...in` visits exactly the object's own keys in order |
| FileExport.FlattenDistinct | mailgun-export/src/utils/fileExporter.js:87-112 | a flattened object has no repeated column |
| FileExport.FlattenEntriesDistinct | mailgun-export/src/utils/fileExporter.js:94-109 | the properties visited so far give no repeated column |
| FileExport.FlattenPrefixed | mailgun-export/src/utils/fileExporter.js:97-104 | every column of an object flattened below the depth limit starts with the prefix given |
| FileExport.FlattenEntriesPrefixed | mailgun-export/src/utils/fileExporter.js:97-104 | the same for the properties visited so far |
| FileExport.LeafColumnsAt | mailgun-export/src/utils/fileExporter.js:97-107 | one column per property, under `prefix + name`, in property order |
| FileExport.FlattenOneLevel | mailgun-export/src/utils/fileExporter.js:87-112 | an object without nesting below the limit gets one column per property, in order: "" for null and undefined, JSON text for arrays, the string form otherwise |
| FileExport.OneLevelPrefix | mailgun-export/src/utils/fileExporter.js:94-109 | the same for every prefix of the properties |
| FileExport.FlattenAtLimit | mailgun-export/src/utils/fileExporter.js:88-90 | a nested object met one level above the depth limit becomes one column, `prefix + key` (the child prefix without its trailing `_`), holding its JSON text |
| FileExport.NestedUnderPrefix | mailgun-export/src/utils/fileExporter.js:103-104 | a nested object below the limit is flattened under `prefix + key + "_"`, one level deeper |
| FileExport.FlattenEntriesStep | mailgun-export/src/utils/fileExporter.js:96-107 | one more property either assigns its nested columns or sets its own column |
| FileExport.FlattenObject | mailgun-export/src/utils/fileExporter.js:87-112 | the loop returns exactly the flattening specification's columns |
| FileExport.HeadersMeaning | mailgun-export/src/utils/fileExporter.js:58 | the header row has no repeats and holds exactly the columns that occur in some record |
| FileExport.AllNamesMembers | mailgun-export/src/utils/fileExporter.js:58 | `flatMap(Object.keys)` holds exactly the columns of the records |
| FileExport.FlattenEach | mailgun-export/src/utils/fileExporter.js:55 | every item flattened from the top, in order |
| FileExport.FileExporter.constructor | mailgun-export/src/utils/fileExporter.js:7-9 | the exporter writes into the given directory, over the given directories and files |
| FileExport.FileExporter.EnsureOutputDir | mailgun-export/src/utils/fileExporter.js:11-17 | afterwards the output directory exists; no file changes |
| FileExport.FileExporter.ExportJSON | mailgun-export/src/utils/fileExporter.js:24-41 | writes the document with time, type, record count and data at the generated path, and makes the directory |
| FileExport.FileExporter.ExportCSV | mailgun-export/src/utils/fileExporter.js:43-69 | nothing written and no directory made unless the data is a non-empty array; otherwise the header row and the flattened records at the generated path |
| FileExport.FileExporter.ExportJsonPart | mailgun-export/src/utils/fileExporter.js:74-77 | for "json" and "both", the JSON document's path, with that one file added; for any other format, no path and no file |
| FileExport.FileExporter.ExportCsvPart | mailgun-export/src/utils/fileExporter.js:79-82 | for "csv" and "both" with a non-empty array, the CSV table's path, with that one file added; otherwise no path and no file |
| FileExport.FileExporter.ExportData | mailgun-export/src/utils/fileExporter.js:71-85 | returns exactly the paths of the files written; adds exactly those files and leaves every other file as it was |
| Exporter.SelectedSnoc | mailgun-export/src/index.js:255-260 | the selected types of one more type are the earlier ones plus that type when its option is set |
| Exporter.SelectsOwnOption | mailgun-export/src/index.js:255-260 | each data type is selected by its own option and no other |
| Exporter.SelectedAllTypes | mailgun-export/src/index.js:254-260 | the selected types are the pushes of the six options, in the order of the `if`s |
| Exporter.AddIfSelected | mailgun-export/src/index.js:255 | `push` appends the type exactly when its option is set |
| Exporter.GetExportOptions | mailgun-export/src/index.js:249-268 | the list built option by option is the export plan |
| Exporter.SelectedMembers | mailgun-export/src/index.js:254-260 | a type is selected exactly when it is listed and its option is set |
| Exporter.SelectedDistinct | mailgun-export/src/index.js:254-260 | selection never repeats a type |
| Exporter.PlanMeaning | mailgun-export/src/index.js:249-268 | the plan is never empty, never repeats a type, and holds a type exactly when it is known and `--all` is given, nothing is selected, or its option is set |
| Exporter.NothingSelectedMeansAll | mailgun-export/src/index.js:262-265 | no type option means every type, in the fixed order |
| Exporter.IndexOf | mailgun-export/src/index.js:225 | the position found holds the type looked up |
| Exporter.ExportDataType | mailgun-export/src/index.js:224-247 | a known type reads its own service; any other name fails with "Unknown data type: " and the name |
| Exporter.PlannedTypesAreKnown | mailgun-export/src/index.js:115-129 | every planned type is known, so the unknown-type error never happens in a run |
| Exporter.RecordCount | mailgun-export/src/index.js:135 | an array's length, the key count of another truthy value, 0 for a falsy one |
| Exporter.RecordCountAgreement | mailgun-export/src/index.js:135 | the summary's count equals the JSON file's `totalRecords` exactly for arrays and for truthy values with one key |
| Exporter.Override | mailgun-export/src/index.js:103-106 | each truthy option replaces its setting; every other setting is kept |
| Exporter.ResultFor | mailgun-export/src/index.js:129-152 | a failing service gives a failure with no records, no files, "0s" and its message; a success gives the record count and exactly the exported paths |
| Exporter.FilesFor | mailgun-export/src/index.js:129-130 | a failing service writes no file; a succeeding one writes a file exactly at each path `exportData` returns |
| Exporter.RunFilesKeys | mailgun-export/src/index.js:124-153 | the run writes a file at a path exactly when one of its types writes one there |
| Exporter.RunFilesAreRecorded | mailgun-export/src/index.js:124-153 | the run writes a file at a path exactly when some type's recorded result lists that path |
| Exporter.ExportOne | mailgun-export/src/index.js:125-152 | one iteration records the result of the type's outcome and keeps the output directory; a failing service writes no file, a succeeding one adds exactly the files `exportData` writes |
| Exporter.HandleExport | mailgun-export/src/index.js:98-153 | an invalid configuration fails with its message before anything else; otherwise the exporter uses the overridden directory, every planned type is recorded, in plan order, with the result of its own service under the overridden settings, and the files written are those of the planned types in order |
| Exporter.ExportAll | mailgun-export/src/index.js:124-153 | the results are keyed by exactly the planned types, in order, each with the result its fetched data gives; the exporter's files are the old ones plus each type's files in plan order |
| Exporter.ValidationPrecedesOverride | mailgun-export/src/index.js:99-103 | with an API key, validation fails exactly without a configured domain, even when `--domain` would have supplied one |
| Exporter.StatusesPartition | mailgun-export/src/index.js:289-290 | successes and failures together count every result |
| Exporter.FailuresAddNothing | mailgun-export/src/index.js:143-290 | failed types add no records and no files and are all counted as failures |
| Exporter.ShowExportSummary | mailgun-export/src/index.js:270-296 | the totals are the sums of records and files over the results, and success and error counts split the results |
| Tally.BumpCounts | mailgun-export/src/services/suppressions.service.js:268 | one more count under a key raises that key's count and the total by one, touches no other count, and keeps one property per key |
| Tally.PutCounts | mailgun-export/src/services/suppressions.service.js:268 | storing a count under a key changes that key's count alone |
| Tally.AbsentCountsZero | mailgun-export/src/services/suppressions.service.js:268 | a key never counted reads as 0, the default the counter starts from |
| Tally.TallyOfCounts | mailgun-export/src/services/suppressions.service.js:265-271 | a tally has one property per distinct key, its counts add up to the number of items, and each count is that key's number of occurrences |
| Tally.BumpAllAppend | mailgun-export/src/services/suppressions.service.js:266-270 | counting two runs of keys in turn is counting them together, and counting onto an empty object is the tally |
| Tally.AddKeysContents | mailgun-export/src/services/lists.service.js:194-217 | an insertion-ordered set keeps its earlier members in place, never repeats, and holds exactly the earlier members and the added keys |
| Tally.AddKeysAppend | mailgun-export/src/services/lists.service.js:217 | adding two runs of keys in turn is adding them together |
| Tally.TallyNames | mailgun-export/src/services/suppressions.service.js:268 | a counter object lists its keys in the order they were first counted, as an insertion-ordered set would |
| Tally.AssignNames | mailgun-export/src/utils/fileExporter.js:104 | `Object.assign` adds each new property name at the end, as an insertion-ordered set does |
| Numbers.Fixed2 | mailgun-export/src/services/templates.service.js:219 | `toFixed(2)` text always ends in a point and exactly two decimals |
| Numbers.DecimalStringWhole | mailgun-export/src/services/templates.service.js:265 | the text of a whole number has no decimals |
| Numbers.DecimalStringPoint | mailgun-export/src/services/templates.service.js:265 | the text of a number of hundredths has a decimal point exactly when the number is not whole |

## Left out

- HTTP transport (axios), the `Authorization` header with its base64 encoding (`authHeaders`), and the `URL` parser: every response is a parameter, and `buildUrl` is modelled as the query string it appends.
- Console output, colours and `process.exit`: they do not change the exported data.
- The `pLimit(10)` slot pool of `RateLimiter.execute` and the `Promise.allSettled` fan-outs. The pool is one slot that runs the retries of a page in turn. The fan-outs are sequential merges of per-task results, which gives the same outcome because the tasks share no state.
- Floating point. Rates, averages and percentages are exact rationals rounded as `toFixed(2)` rounds them; binary rounding artefacts are not modelled.
- Numbers in `Json` are integers. Fractional, NaN and infinite values of response fields are not modelled.
- Date formatting (`formatDate`, `moment`, `toISOString`) and clock readings: the formatted texts and the measured durations are parameters.
- File system errors in `exportJSON`, `exportCSV` and `ensureOutputDir`: writes always succeed. `path.join` normalisation is not modelled; a path is its directory and name.
- The CSV writer's rendering: the model stops at the header row and the flattened records it is given.
- `createSummaryReport` and `getExportStats`: file I/O that does not feed the exported data. Only the file-name round trip that `getExportStats` relies on is proved.
- `exportMembersByList` in `lists.service.js`: nothing in the exporter calls it.
- The statistics fetches of `stats.service.js` (`fetchStats`, `fetchStatsByTag`, `fetchAllTagStats`, `fetchEngagementStats`, `fetchDeliveryStats`, `fetchComprehensiveStats`): the HTTP wiring around the statistics. Their processed rows are modelled from `processStats` on.
- The message texts of insights: they need number formatting. Thrown errors keep the message of the failed response; `Unknown data type: ` and the two `validate` messages are modelled exactly.
- The Commander wiring of `index.js`, and the `events`, `stats`, `status` and `test` commands.
- The `export` command's `--output` default, which always overrides `OUTPUT_DIR`: the option is a parameter.
- The configuration object is mutated in place by `export`. The model gives the overridden settings as a new `Config.Settings` value, because nothing else reads the old one.
- The per-item `catch` blocks around `Promise.allSettled` in the merges: `allSettled` never rejects, so no modelled step reaches them.
- JavaScript property order for integer-like keys is modelled only where the exporter depends on it (the bounce description table). Elsewhere objects keep insertion order, and names of response objects are assumed distinct.
- Strings are sequences of characters, not UTF-16 code units: `length` and `toUpperCase` are exact only for ASCII text.
- The page loop stops only at a falsy link or a thrown error. Against a server whose links never run out, `fetchAllPages` keeps requesting and never returns. The scripted transport is finite and answers every request past its end with a connection reset (`Pagination.Next`), so every modelled page loop ends; an endless chain of links is not modelled.
- Node.js timers: `setTimeout` fires a delay above 2147483647 ms, `Infinity` included, after 1 ms. This is what `sleep` does with the limiter's infinite wait at a quota of 0 or less (`RateLimiting.TimerDelay`). The warning Node.js prints then is not modelled.
- The demo web server and the debugging scripts beside the exporter: they are not part of the exporter.
- Events.GetEventStats: timestamps are integers; a non-numeric or fractional `timestamp` is not modelled.
- FileExport.Flatten: requires `depth < maxDepth` or an object argument. The exporter only calls it with those, and only ever with the default limit of 3.
- Templates.FormatBytes: only `formatBytes(0)` and sizes below 1024 are stated. Larger sizes need `Math.log` and `parseFloat` of a float text.
- Stats.NumberOr0: a counter read as `x || 0` is an integer, and a counter that is not a number reads as 0. In the source a truthy string total such as "5" survives `|| 0`, and the summing loop then joins it as text.
- Lists.ByDomain: a list whose address is not text fails with `list.address.endsWith is not a function`. For a `null` or `undefined` address JavaScript's message is `Cannot read properties of null (reading 'endsWith')`, with `undefined` where it applies.
- Lists.MemberStep: a member whose address is not text fails with `member.address.split is not a function`. For a `null` or `undefined` address JavaScript's message names `split` in the same `Cannot read properties of …` form.
- Numbers.Fixed2: the contract states the shape of the text (exactly two decimals after a point), not its digits.

## Findings

| source | as written | input that shows it | evidently intended | confidence | as-written member | corrected member |
|---|---|---|---|---|---|---|
| mailgun-export/src/services/stats.service.js:194-283 | for an empty statistics list, `calculateAggregates` returns aggregates without `overallRates`, and `generateInsights` then reads `aggregates.overallRates.deliveryRate`, which throws a TypeError | a statistics response with no rows | no insights for empty statistics | high, not executed | Stats.EmptyStatsBreakInsights | Stats.GenerateInsights |
| mailgun-export/src/services/templates.service.js:63-113 | `fetchTemplateVersion` catches its own error and returns `null`, so the merge's catch that keeps the listed version is never reached; the `null` entry then makes `extractTemplateContent` (`version.tag`) and `getTemplateStats` (`version.engine`) throw | a template with one version whose content request fails | a failed content fetch keeps the listed version with the error, and the exports go on | high, not executed | Templates.FailedVersionBreaksExport | Templates.EnrichTemplate |
| mailgun-export/src/utils/rateLimiter.js:10-30 | the limiter records the time read before its sleep, not the time the request goes out | quota 1 per minute, calls at 0, 1 and 60000 ms: requests go out at 0, 60000 and 60001 ms, two within one minute | at most the quota of requests in any one-minute window | medium, not executed | RateLimiting.PreSleepStampExceedsQuota | RateLimiting.RunAtWakeKeepsQuota |
| mailgun-export/src/services/domains.service.js:110-192 | `smtpPassword` is masked, but `raw` is the untouched response object, so the clear `smtp_password` is exported | a domain response with `smtp_password: "secret"` | the exported record holds no clear password | medium, not executed | Domains.RawKeepsPassword | Domains.FetchAllDomainDataMasked |
