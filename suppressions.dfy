/** `services/suppressions.service.js`: the four suppression lists (bounces,
    complaints, unsubscribes, whitelists), the per-record mappers, the bounce
    classification by SMTP code, and the statistics over them. */
module Suppressions {
  import opened Wrappers
  import opened Json
  import opened Text
  import opened Tally
  import opened Pagination

  datatype Bounce = Bounce(address: Value, code: Value, error: Value, createdAt: Value,
                           bounceType: string, severity: string, description: string, raw: Value)

  datatype Complaint = Complaint(address: Value, createdAt: Value, complaintType: Value,
                                 source: string, severity: string, raw: Value)

  datatype Unsubscribe = Unsubscribe(address: Value, createdAt: Value, tags: Value,
                                     unsubscribeMethod: Value, source: Value, raw: Value)

  datatype WhitelistEntry = WhitelistEntry(address: Value, entryType: Value, createdAt: Value,
                                           reason: Value, raw: Value)

  /** The object `fetchAllSuppressions` returns; all four keys are always set. */
  datatype SuppressionLists = SuppressionLists(bounces: seq<Bounce>, complaints: seq<Complaint>,
                                               unsubscribes: seq<Unsubscribe>, whitelists: seq<WhitelistEntry>)

  const HIGH_SEVERITY_CODES: seq<string> := ["550", "551", "552", "553", "554"]
  const MEDIUM_SEVERITY_CODES: seq<string> := ["450", "451", "452"]

  /** The description table, in the order `Object.entries` visits it: its
      keys are integer-like, so they come in ascending numeric order. */
  const BOUNCE_DESCRIPTIONS: seq<(string, string)> := [
    ("450", "Requested mail action not taken: mailbox unavailable"),
    ("451", "Requested action aborted: local error in processing"),
    ("452", "Requested action not taken: insufficient system storage"),
    ("550", "Mailbox unavailable or does not exist"),
    ("551", "User not local; please try another path"),
    ("552", "Requested mail action aborted: exceeded storage allocation"),
    ("553", "Requested action not taken: mailbox name not allowed"),
    ("554", "Transaction failed")
  ]

  /** `classifyBounceType(code)`: by the first character of `code.toString()`. */
  function ClassifyBounceType(code: Value): (t: string)
    ensures t in {"permanent", "temporary", "unknown"}
    ensures t == "permanent" <==> Truthy(code) && StartsWith(ToString(code), "5")
    ensures t == "temporary" <==> Truthy(code) && StartsWith(ToString(code), "4")
  {
    if !Truthy(code) then "unknown"
    else
      var codeStr := ToString(code);
      if StartsWith(codeStr, "5") then "permanent"
      else if StartsWith(codeStr, "4") then "temporary"
      else "unknown"
  }

  /** `codes.some(c => s.includes(c))`. */
  function AnyIncluded(s: string, codes: seq<string>): bool {
    codes != [] && (Includes(s, codes[0]) || AnyIncluded(s, codes[1..]))
  }

  /** `some` finds a code exactly when one of the codes occurs in `s`. */
  lemma {:induction false} AnyIncludedMeansSome(s: string, codes: seq<string>)
    ensures AnyIncluded(s, codes) <==> exists i :: 0 <= i < |codes| && Includes(s, codes[i])
  {
    if codes != [] {
      AnyIncludedMeansSome(s, codes[1..]);
      assert forall i :: 1 <= i < |codes| ==> codes[i] == codes[1..][i - 1];
    }
  }

  /** `getBounceSeverity(code)`. */
  function GetBounceSeverity(code: Value): (sev: string)
    ensures sev in {"high", "medium", "low", "unknown"}
    ensures sev == "unknown" <==> !Truthy(code)
    ensures sev == "high" <==> Truthy(code) && AnyIncluded(ToString(code), HIGH_SEVERITY_CODES)
    ensures sev == "medium" <==> Truthy(code) && !AnyIncluded(ToString(code), HIGH_SEVERITY_CODES)
                                 && AnyIncluded(ToString(code), MEDIUM_SEVERITY_CODES)
  {
    if !Truthy(code) then "unknown"
    else
      var codeStr := ToString(code);
      if AnyIncluded(codeStr, HIGH_SEVERITY_CODES) then "high"
      else if AnyIncluded(codeStr, MEDIUM_SEVERITY_CODES) then "medium"
      else "low"
  }

  /** The description of the first table entry whose code `s` includes. */
  function FirstDescription(s: string, table: seq<(string, string)>): Option<string> {
    if table == [] then None
    else if Includes(s, table[0].0) then Some(table[0].1)
    else FirstDescription(s, table[1..])
  }

  /** The search returns the description of the earliest entry whose code
      occurs in `s`, and nothing when no code does. */
  lemma {:induction false} FirstDescriptionIsFirstMatch(s: string, table: seq<(string, string)>)
    ensures FirstDescription(s, table).None? <==> forall j :: 0 <= j < |table| ==> !Includes(s, table[j].0)
    ensures FirstDescription(s, table).Some?
            ==> exists j :: 0 <= j < |table| && Includes(s, table[j].0)
                            && FirstDescription(s, table).value == table[j].1
                            && forall k :: 0 <= k < j ==> !Includes(s, table[k].0)
  {
    if table != [] && !Includes(s, table[0].0) {
      var rest := FirstDescription(s, table[1..]);
      FirstDescriptionIsFirstMatch(s, table[1..]);
      assert forall j :: 1 <= j < |table| ==> table[j] == table[1..][j - 1];
      if rest.Some? {
        var j :| 0 <= j < |table[1..]| && Includes(s, table[1..][j].0) && rest.value == table[1..][j].1
                 && forall k :: 0 <= k < j ==> !Includes(s, table[1..][k].0);
        assert Includes(s, table[j + 1].0) && rest.value == table[j + 1].1;
        assert forall k :: 0 <= k < j + 1 ==> !Includes(s, table[k].0);
      }
    } else if table != [] {
      assert Includes(s, table[0].0) && FirstDescription(s, table).value == table[0].1;
    }
  }

  /** `getBounceDescription(code)`: a falsy code has no reason; otherwise the
      description of the first listed code found in the code's text, or the
      code itself when none is found. */
  function GetBounceDescription(code: Value): (d: string)
    ensures !Truthy(code) ==> d == "Unknown bounce reason"
    ensures Truthy(code) && !AnyIncluded(ToString(code), Names(BOUNCE_DESCRIPTIONS))
            ==> d == "SMTP Error Code: " + ToString(code)
    ensures Truthy(code) && AnyIncluded(ToString(code), Names(BOUNCE_DESCRIPTIONS))
            ==> exists j :: 0 <= j < |BOUNCE_DESCRIPTIONS| && Includes(ToString(code), BOUNCE_DESCRIPTIONS[j].0)
                            && d == BOUNCE_DESCRIPTIONS[j].1
                            && forall k :: 0 <= k < j ==> !Includes(ToString(code), BOUNCE_DESCRIPTIONS[k].0)
  {
    if !Truthy(code) then "Unknown bounce reason"
    else
      var s := ToString(code);
      FirstDescriptionFound(s, BOUNCE_DESCRIPTIONS);
      FirstDescriptionIsFirstMatch(s, BOUNCE_DESCRIPTIONS);
      match FirstDescription(s, BOUNCE_DESCRIPTIONS)
      case Some(d) => d
      case None => "SMTP Error Code: " + s
  }

  lemma {:induction false} AnyIncludedConcat(s: string, a: seq<string>, b: seq<string>)
    ensures AnyIncluded(s, a + b) <==> AnyIncluded(s, a) || AnyIncluded(s, b)
  {
    if a == [] {
      assert a + b == b;
    } else {
      assert (a + b)[0] == a[0];
      assert (a + b)[1..] == a[1..] + b;
      AnyIncludedConcat(s, a[1..], b);
    }
  }

  lemma {:induction false} FirstDescriptionFound(s: string, table: seq<(string, string)>)
    ensures FirstDescription(s, table).Some? <==> AnyIncluded(s, Names(table))
  {
    if table != [] {
      assert Names(table)[0] == table[0].0;
      assert Names(table)[1..] == Names(table[1..]);
      FirstDescriptionFound(s, table[1..]);
    }
  }

  /** The table describes exactly the medium codes, then the high codes. */
  lemma DescribedCodes()
    ensures Names(BOUNCE_DESCRIPTIONS) == MEDIUM_SEVERITY_CODES + HIGH_SEVERITY_CODES
  {
    var codes := MEDIUM_SEVERITY_CODES + HIGH_SEVERITY_CODES;
    assert codes == ["450", "451", "452", "550", "551", "552", "553", "554"];
    NamesAre(BOUNCE_DESCRIPTIONS, codes);
  }

  /** A table whose entries are keyed by `codes`, in order, has those names. */
  lemma NamesAre(table: seq<(string, string)>, codes: seq<string>)
    requires |table| == |codes| && forall i :: 0 <= i < |table| ==> table[i].0 == codes[i]
    ensures Names(table) == codes
  {
  }

  /** Severity and description agree: a code rates "high" or "medium" exactly
      when the description comes from the table, because the table's keys
      are exactly the high and medium codes. */
  lemma SeverityAgreesWithDescription(code: Value)
    requires Truthy(code)
    ensures GetBounceSeverity(code) in {"high", "medium"}
            <==> FirstDescription(ToString(code), BOUNCE_DESCRIPTIONS).Some?
    ensures FirstDescription(ToString(code), BOUNCE_DESCRIPTIONS).None?
            ==> GetBounceDescription(code) == "SMTP Error Code: " + ToString(code)
  {
    var s := ToString(code);
    DescribedCodes();
    FirstDescriptionFound(s, BOUNCE_DESCRIPTIONS);
    AnyIncludedConcat(s, MEDIUM_SEVERITY_CODES, HIGH_SEVERITY_CODES);
  }

  lemma ThreeDigits(n: nat)
    requires 100 <= n < 1000
    ensures NatToString(n) == [DigitChar(n / 100), DigitChar(n / 10 % 10), DigitChar(n % 10)]
  {
    assert NatToString(n / 10) == NatToString(n / 10 / 10) + [DigitChar(n / 10 % 10)];
    assert n / 10 / 10 == n / 100;
  }

  /** Numeric SMTP codes: 4xx are temporary failures and 5xx permanent ones. */
  lemma NumericBounceType(n: int)
    requires 400 <= n < 600
    ensures ClassifyBounceType(Num(n)) == if n >= 500 then "permanent" else "temporary"
  {
    ThreeDigits(n);
    var s := ToString(Num(n));
    assert s[..1] == [DigitChar(n / 100)];
  }

  /** `processBounce(bounce)`; reading a field of `null` or `undefined` throws,
      which `Fetched` below accounts for. */
  function ProcessBounce(bounce: Value): (b: Bounce)
    ensures b.raw == bounce && b.code == Get(bounce, "code")
    ensures b.bounceType == ClassifyBounceType(b.code)
    ensures b.severity == GetBounceSeverity(b.code)
    ensures b.description == GetBounceDescription(b.code)
  {
    var code := Get(bounce, "code");
    Bounce(Get(bounce, "address"), code, Get(bounce, "error"), Get(bounce, "created_at"),
           ClassifyBounceType(code), GetBounceSeverity(code), GetBounceDescription(code), bounce)
  }

  /** `processComplaint(complaint)`. */
  function ProcessComplaint(complaint: Value): (c: Complaint)
    ensures c.raw == complaint
    ensures Truthy(c.complaintType)
    ensures c.source == "feedback_loop" && c.severity == "high"
  {
    Complaint(Get(complaint, "address"), Get(complaint, "created_at"),
              Or(Get(complaint, "type"), Str("unknown")), "feedback_loop", "high", complaint)
  }

  /** `processUnsubscribe(unsubscribe)`. */
  function ProcessUnsubscribe(unsubscribe: Value): (u: Unsubscribe)
    ensures u.raw == unsubscribe
    ensures Truthy(u.tags) && Truthy(u.unsubscribeMethod) && Truthy(u.source)
    ensures !Truthy(Get(unsubscribe, "tags")) ==> u.tags == Arr([])
    ensures !Truthy(Get(unsubscribe, "method")) ==> u.unsubscribeMethod == Str("unknown")
    ensures !Truthy(Get(unsubscribe, "source")) ==> u.source == Str("manual")
  {
    Unsubscribe(Get(unsubscribe, "address"), Get(unsubscribe, "created_at"),
                Or(Get(unsubscribe, "tags"), Arr([])), Or(Get(unsubscribe, "method"), Str("unknown")),
                Or(Get(unsubscribe, "source"), Str("manual")), unsubscribe)
  }

  /** `processWhitelist(whitelist)`: the address falls back to `value`. */
  function ProcessWhitelist(whitelist: Value): (w: WhitelistEntry)
    ensures w.raw == whitelist
    ensures Truthy(Get(whitelist, "address")) ==> w.address == Get(whitelist, "address")
    ensures !Truthy(Get(whitelist, "address")) ==> w.address == Get(whitelist, "value")
    ensures !Truthy(Get(whitelist, "type")) ==> w.entryType == Str("address")
    ensures !Truthy(Get(whitelist, "reason")) ==> w.reason == Str("manual")
    ensures Truthy(w.entryType) && Truthy(w.reason)
  {
    WhitelistEntry(Or(Get(whitelist, "address"), Get(whitelist, "value")),
                   Or(Get(whitelist, "type"), Str("address")), Get(whitelist, "created_at"),
                   Or(Get(whitelist, "reason"), Str("manual")), whitelist)
  }

  /** `fetchAllSuppressions()`: each list is fetched on its own, and one
      that throws becomes `[]` without stopping the others. */
  function FetchAllSuppressions(bounces: Result<seq<Value>, PageError>, complaints: Result<seq<Value>, PageError>,
                                unsubscribes: Result<seq<Value>, PageError>, whitelists: Result<seq<Value>, PageError>)
    : (s: SuppressionLists)
    ensures s.bounces == Fetched(bounces, ProcessBounce).GetOr([])
    ensures s.complaints == Fetched(complaints, ProcessComplaint).GetOr([])
    ensures s.unsubscribes == Fetched(unsubscribes, ProcessUnsubscribe).GetOr([])
    ensures s.whitelists == Fetched(whitelists, ProcessWhitelist).GetOr([])
  {
    SuppressionLists(Fetched(bounces, ProcessBounce).GetOr([]), Fetched(complaints, ProcessComplaint).GetOr([]),
                     Fetched(unsubscribes, ProcessUnsubscribe).GetOr([]), Fetched(whitelists, ProcessWhitelist).GetOr([]))
  }

  /** A failing list does not disturb its siblings: replacing one fetch by a
      failure empties that list and leaves the other three as they were. */
  lemma FailureIsolated(bounces: Result<seq<Value>, PageError>, complaints: Result<seq<Value>, PageError>,
                        unsubscribes: Result<seq<Value>, PageError>, whitelists: Result<seq<Value>, PageError>,
                        e: PageError)
    ensures var s := FetchAllSuppressions(bounces, complaints, unsubscribes, whitelists);
            var f := FetchAllSuppressions(Err(e), complaints, unsubscribes, whitelists);
            f.bounces == [] && f.complaints == s.complaints
            && f.unsubscribes == s.unsubscribes && f.whitelists == s.whitelists
  {
  }

  /** The key a `groupBy` counts an item under: `item[key] || 'unknown'`,
      converted to a property name. */
  function GroupKey(v: Value): (k: string)
    ensures !Truthy(v) ==> k == "unknown"
  {
    ToString(Or(v, Str("unknown")))
  }

  function GroupKeys(values: seq<Value>): (ks: seq<string>)
    ensures |ks| == |values|
    ensures forall i :: 0 <= i < |values| ==> ks[i] == GroupKey(values[i])
  {
    if values == [] then [] else GroupKeys(values[..|values| - 1]) + [GroupKey(values[|values| - 1])]
  }

  /** `groupBy(array, key)`, given the values `array.map(item => item[key])`. */
  function GroupBy(values: seq<Value>): Counts {
    TallyOf(GroupKeys(values))
  }

  /** The groups add up to the number of items, one property per distinct
      key, each counting the items with that key. */
  lemma GroupByCounts(values: seq<Value>, key: string)
    ensures DistinctNames(GroupBy(values))
    ensures Total(GroupBy(values)) == |values|
    ensures CountOf(GroupBy(values), key) == Occurrences(GroupKeys(values), key)
  {
    TallyOfCounts(GroupKeys(values), key);
  }

  function CountFalsy(values: seq<Value>): nat {
    if values == [] then 0
    else CountFalsy(values[..|values| - 1]) + (if Truthy(values[|values| - 1]) then 0 else 1)
  }

  /** Every falsy value is counted under "unknown". */
  lemma {:induction false} FalsyCountedAsUnknown(values: seq<Value>)
    ensures CountOf(GroupBy(values), "unknown") >= CountFalsy(values)
  {
    if values != [] {
      var init := values[..|values| - 1];
      FalsyCountedAsUnknown(init);
      assert GroupKeys(values)[..|values| - 1] == GroupKeys(init);
      TallyOfCounts(GroupKeys(values), "unknown");
      TallyOfCounts(GroupKeys(init), "unknown");
    }
  }

  function CountBounceType(bounces: seq<Bounce>, t: string): (n: nat)
    ensures n <= |bounces|
  {
    if bounces == [] then 0
    else (if bounces[0].bounceType == t then 1 else 0) + CountBounceType(bounces[1..], t)
  }

  /** `array.map(f)`, for the field a `groupBy` reads. */
  function Column<R>(rows: seq<R>, f: R -> Value): (vs: seq<Value>)
    ensures |vs| == |rows|
    ensures forall i :: 0 <= i < |rows| ==> vs[i] == f(rows[i])
  {
    if rows == [] then [] else [f(rows[0])] + Column(rows[1..], f)
  }

  function SeverityOf(b: Bounce): Value { Str(b.severity) }
  function ComplaintTypeOf(c: Complaint): Value { c.complaintType }
  function MethodOf(u: Unsubscribe): Value { u.unsubscribeMethod }
  function EntryTypeOf(w: WhitelistEntry): Value { w.entryType }

  datatype BounceStats = BounceStats(total: nat, permanent: nat, temporary: nat, bySeverity: Counts)
  datatype GroupStats = GroupStats(total: nat, groups: Counts)
  datatype SuppressionStats = SuppressionStats(bounces: BounceStats, complaints: GroupStats,
                                               unsubscribes: GroupStats, whitelists: GroupStats)

  /** `getSuppressionStats(suppressions)`. */
  function GetSuppressionStats(s: SuppressionLists): SuppressionStats {
    SuppressionStats(
      BounceStats(|s.bounces|, CountBounceType(s.bounces, "permanent"), CountBounceType(s.bounces, "temporary"),
                  GroupBy(Column(s.bounces, SeverityOf))),
      GroupStats(|s.complaints|, GroupBy(Column(s.complaints, ComplaintTypeOf))),
      GroupStats(|s.unsubscribes|, GroupBy(Column(s.unsubscribes, MethodOf))),
      GroupStats(|s.whitelists|, GroupBy(Column(s.whitelists, EntryTypeOf))))
  }

  lemma {:induction false} PermanentAndTemporaryDisjoint(bounces: seq<Bounce>)
    ensures CountBounceType(bounces, "permanent") + CountBounceType(bounces, "temporary") <= |bounces|
  {
    if bounces != [] {
      PermanentAndTemporaryDisjoint(bounces[1..]);
    }
  }

  /** Permanent and temporary bounces never outnumber the bounces, and
      every grouping adds up to its list's total. */
  lemma SuppressionStatsConsistent(s: SuppressionLists)
    ensures var st := GetSuppressionStats(s);
            st.bounces.permanent + st.bounces.temporary <= st.bounces.total
            && Total(st.bounces.bySeverity) == st.bounces.total
            && Total(st.complaints.groups) == st.complaints.total
            && Total(st.unsubscribes.groups) == st.unsubscribes.total
            && Total(st.whitelists.groups) == st.whitelists.total
  {
    var st := GetSuppressionStats(s);
    PermanentAndTemporaryDisjoint(s.bounces);
    GroupByCounts(Column(s.bounces, SeverityOf), "");
    GroupByCounts(Column(s.complaints, ComplaintTypeOf), "");
    GroupByCounts(Column(s.unsubscribes, MethodOf), "");
    GroupByCounts(Column(s.whitelists, EntryTypeOf), "");
  }
}
