/** Mailing lists: the list and member records, the member and statistics
    fetches merged per list, the filter by domain, and the two summaries
    computed over lists with their members. */
module Lists {
  import opened Wrappers
  import opened Json
  import opened Text
  import opened Numbers
  import opened Tally
  import opened Pagination
  import Config

  // ---------------------------------------------------------------- records

  datatype ListRecord = ListRecord(address: Value, name: Value, description: Value, accessLevel: Value,
                                   createdAt: Value, membersCount: Value, replyPreference: Value, raw: Value)

  /** `processList(list)`: the API's snake_case fields renamed. */
  function ProcessList(list: Value): ListRecord {
    ListRecord(Get(list, "address"), Get(list, "name"), Get(list, "description"), Get(list, "access_level"),
               Get(list, "created_at"), Get(list, "members_count"), Get(list, "reply_preference"), list)
  }

  datatype Subscription = Subscription(status: string, optedIn: Value, optedInAt: Value)

  datatype Member = Member(address: Value, name: Value, subscribed: Value, subscribedAt: Value,
                           vars: Value, subscription: Subscription, raw: Value)

  const SUBSCRIBED := "subscribed"
  const UNSUBSCRIBED := "unsubscribed"

  /** `processListMember(member)`: the status follows the truthiness of
      `subscribed`, the variables default to an empty object and the opt-in
      flag to `false`. */
  function ProcessListMember(member: Value): (m: Member)
    ensures m.subscribed == Get(member, "subscribed") && m.raw == member
    ensures m.subscription.status == SUBSCRIBED <==> Truthy(m.subscribed)
    ensures m.subscription.status == UNSUBSCRIBED <==> !Truthy(m.subscribed)
    ensures Truthy(m.vars)
    ensures Truthy(Get(member, "vars")) ==> m.vars == Get(member, "vars")
    ensures !Truthy(Get(member, "vars")) ==> m.vars == Obj([])
    ensures Truthy(m.subscription.optedIn) <==> Truthy(Get(member, "opted_in"))
    ensures !Truthy(m.subscription.optedIn) ==> m.subscription.optedIn == Bool(false)
  {
    var subscribed := Get(member, "subscribed");
    Member(Get(member, "address"), Get(member, "name"), subscribed, Get(member, "subscribed_at"),
           Or(Get(member, "vars"), Obj([])),
           Subscription(if Truthy(subscribed) then SUBSCRIBED else UNSUBSCRIBED,
                        Or(Get(member, "opted_in"), Bool(false)), Get(member, "opted_in_at")),
           member)
  }

  // ---------------------------------------------------------------- fetches

  /** The members URL: only subscribed members unless unsubscribed ones are
      asked for, 100 per page. */
  method MembersUrl(baseUrl: string, list: string, includeUnsubscribed: bool) returns (url: Url)
    ensures url.base == baseUrl + Config.ListMembersPath(list)
    ensures url.query == (if includeUnsubscribed then [] else [("subscribed", "yes")]) + [("limit", "100")]
  {
    var params := [("subscribed", if includeUnsubscribed then Undefined else Str("yes")), ("limit", Num(100))];
    assert ToString(Num(100)) == "100";
    assert params[1..][1..] == [];
    assert KeptParams(params[1..]) == [("limit", "100")] + KeptParams([]);
    assert KeptParams(params) == (if includeUnsubscribed then [] else [("subscribed", "yes")]) + KeptParams(params[1..]);
    url := BuildUrl(Url(baseUrl + Config.ListMembersPath(list), []), params);
  }

  datatype EnrichedList = EnrichedList(list: ListRecord, members: seq<Member>, stats: Value, memberCount: nat)

  /** One list with the settled outcomes of its two fetches: a failed members
      fetch leaves no members and a count of 0. */
  function EnrichList(list: ListRecord, members: Result<seq<Member>, PageError>, stats: Value): (e: EnrichedList)
    ensures e.list == list && e.stats == stats
    ensures e.memberCount == |e.members|
    ensures members.Ok? ==> e.members == members.value
    ensures members.Err? ==> e.members == []
  {
    match members
    case Ok(ms) => EnrichedList(list, ms, stats, |ms|)
    case Err(_) => EnrichedList(list, [], stats, 0)
  }

  /** What the API answers, per list address, to the members fetch (all its
      pages) and to the statistics request. */
  datatype ListResponses = ListResponses(members: string -> Result<seq<Value>, PageError>,
                                         stats: string -> Result<Value, PageError>)

  function EnrichedAt(list: ListRecord, responses: ListResponses): EnrichedList {
    var address := ToString(list.address);
    EnrichList(list, Fetched(responses.members(address), ProcessListMember), FieldOrBody(responses.stats(address), "stats"))
  }

  /** `fetchAllListsWithMembers()`: a failed list fetch fails the whole call;
      otherwise every list appears once, in order, with its own fetches. */
  function FetchAllListsWithMembers(lists: Result<seq<Value>, PageError>, responses: ListResponses)
    : (r: Result<seq<EnrichedList>, PageError>)
    ensures r.Ok? <==> Fetched(lists, ProcessList).Ok?
    ensures r.Ok? ==> |r.value| == |lists.value|
    ensures r.Ok? ==> forall i :: 0 <= i < |r.value| ==>
              r.value[i].list == ProcessList(lists.value[i]) && r.value[i].memberCount == |r.value[i].members|
    ensures r.Ok? ==> forall i :: 0 <= i < |r.value| ==>
              var a := ToString(Get(lists.value[i], "address"));
              r.value[i] == EnrichList(ProcessList(lists.value[i]), Fetched(responses.members(a), ProcessListMember),
                                       FieldOrBody(responses.stats(a), "stats"))
  {
    match Fetched(lists, ProcessList)
    case Err(e) => Err(e)
    case Ok(records) => Ok(seq(|records|, i requires 0 <= i < |records| => EnrichedAt(records[i], responses)))
  }

  /** A list's entry depends only on the answers for its own address: when
      its members fetch fails it still appears, with no members, and the
      other lists are untouched. */
  lemma ListFailureIsolated(lists: Result<seq<Value>, PageError>, r1: ListResponses, r2: ListResponses, i: nat)
    requires FetchAllListsWithMembers(lists, r1).Ok?
    requires i < |lists.value|
    requires var a := ToString(Get(lists.value[i], "address"));
             r1.members(a) == r2.members(a) && r1.stats(a) == r2.stats(a)
    ensures FetchAllListsWithMembers(lists, r2).Ok?
    ensures FetchAllListsWithMembers(lists, r1).value[i] == FetchAllListsWithMembers(lists, r2).value[i]
    ensures r1.members(ToString(Get(lists.value[i], "address"))).Err? ==>
              FetchAllListsWithMembers(lists, r1).value[i].members == []
              && FetchAllListsWithMembers(lists, r1).value[i].memberCount == 0
  {
  }

  const ENDS_WITH_NOT_A_FUNCTION := "list.address.endsWith is not a function"

  /** `lists.filter(list => list.address.endsWith('@' + domain))`: a list
      whose address is not text throws. */
  function ByDomain(lists: seq<ListRecord>, domain: string): Result<seq<ListRecord>, PageError> {
    if lists == [] then Ok([])
    else
      var init := lists[..|lists| - 1];
      var last := lists[|lists| - 1];
      match ByDomain(init, domain)
      case Err(e) => Err(e)
      case Ok(kept) =>
        if !last.address.Str? then Err(TypeError(ENDS_WITH_NOT_A_FUNCTION))
        else Ok(kept + (if EndsWith(last.address.s, "@" + domain) then [last] else []))
  }

  /** The filter fails exactly when some list's address is not text, and
      otherwise keeps exactly the lists whose address ends in `@domain`. */
  lemma {:induction false} ByDomainMeaning(lists: seq<ListRecord>, domain: string)
    ensures ByDomain(lists, domain).Ok? <==> forall i :: 0 <= i < |lists| ==> lists[i].address.Str?
    ensures ByDomain(lists, domain).Err? ==> ByDomain(lists, domain).error == TypeError(ENDS_WITH_NOT_A_FUNCTION)
    ensures ByDomain(lists, domain).Ok? ==>
              forall l :: l in ByDomain(lists, domain).value <==> l in lists && EndsWith(l.address.s, "@" + domain)
  {
    if lists != [] {
      var init := lists[..|lists| - 1];
      var last := lists[|lists| - 1];
      ByDomainMeaning(init, domain);
      assert lists == init + [last];
      assert forall i :: 0 <= i < |init| ==> init[i] == lists[i];
    }
  }

  /** The filter keeps the lists' order: filtering two runs of lists one
      after the other is filtering them together. */
  lemma {:induction false} ByDomainAppend(a: seq<ListRecord>, b: seq<ListRecord>, domain: string)
    requires ByDomain(a + b, domain).Ok?
    ensures ByDomain(a, domain).Ok? && ByDomain(b, domain).Ok?
    ensures ByDomain(a + b, domain).value == ByDomain(a, domain).value + ByDomain(b, domain).value
  {
    if b == [] {
      assert a + b == a;
    } else {
      var init := b[..|b| - 1];
      var last := b[|b| - 1];
      assert (a + b)[..|a + b| - 1] == a + init;
      assert (a + b)[|a + b| - 1] == last;
      ByDomainAppend(a, init, domain);
      var kept := if EndsWith(last.address.s, "@" + domain) then [last] else [];
      assert ByDomain(a + b, domain).value == ByDomain(a + init, domain).value + kept;
      assert ByDomain(b, domain).value == ByDomain(init, domain).value + kept;
      assert ByDomain(a, domain).value + ByDomain(init, domain).value + kept
          == ByDomain(a, domain).value + (ByDomain(init, domain).value + kept);
    }
  }

  /** `fetchListsByDomain(domain)`. */
  function FetchListsByDomain(lists: Result<seq<Value>, PageError>, domain: string): (r: Result<seq<ListRecord>, PageError>)
    ensures r.Ok? ==> Fetched(lists, ProcessList).Ok?
    ensures r.Ok? ==> forall l :: l in r.value ==> l.address.Str? && EndsWith(l.address.s, "@" + domain)
  {
    match Fetched(lists, ProcessList)
    case Err(e) => Err(e)
    case Ok(records) => ByDomainMeaning(records, domain); ByDomain(records, domain)
  }

  // ---------------------------------------------------------------- getListStats

  /** A list as the summaries read it: its address, its access level and,
      when it carries one, its array of members. */
  datatype MemberList = MemberList(address: Value, accessLevel: Value, members: Option<seq<Member>>)

  /** An enriched list always carries a members array. */
  function Summary(e: EnrichedList): MemberList {
    MemberList(e.list.address, e.list.accessLevel, Some(e.members))
  }

  function MembersOf(l: MemberList): seq<Member> {
    l.members.GetOr([])
  }

  /** `members.filter(m => m.subscribed).length`. */
  function SubscribedIn(ms: seq<Member>): nat {
    if ms == [] then 0 else SubscribedIn(ms[..|ms| - 1]) + (if Truthy(ms[|ms| - 1].subscribed) then 1 else 0)
  }

  /** `members.filter(m => !m.subscribed).length`. */
  function UnsubscribedIn(ms: seq<Member>): nat {
    if ms == [] then 0 else UnsubscribedIn(ms[..|ms| - 1]) + (if Truthy(ms[|ms| - 1].subscribed) then 0 else 1)
  }

  /** Every member is counted exactly once, as subscribed or as unsubscribed. */
  lemma {:induction false} MembersPartition(ms: seq<Member>)
    ensures SubscribedIn(ms) + UnsubscribedIn(ms) == |ms|
  {
    if ms != [] {
      MembersPartition(ms[..|ms| - 1]);
    }
  }

  function TotalMembers(lists: seq<MemberList>): nat {
    if lists == [] then 0 else TotalMembers(lists[..|lists| - 1]) + |MembersOf(lists[|lists| - 1])|
  }

  function TotalSubscribed(lists: seq<MemberList>): nat {
    if lists == [] then 0 else TotalSubscribed(lists[..|lists| - 1]) + SubscribedIn(MembersOf(lists[|lists| - 1]))
  }

  function TotalUnsubscribed(lists: seq<MemberList>): nat {
    if lists == [] then 0 else TotalUnsubscribed(lists[..|lists| - 1]) + UnsubscribedIn(MembersOf(lists[|lists| - 1]))
  }

  lemma {:induction false} ListsPartition(lists: seq<MemberList>)
    ensures TotalSubscribed(lists) + TotalUnsubscribed(lists) == TotalMembers(lists)
  {
    if lists != [] {
      ListsPartition(lists[..|lists| - 1]);
      MembersPartition(MembersOf(lists[|lists| - 1]));
    }
  }

  /** The smallest member count among the lists with members; `None`
      stands for the initial `Infinity`. */
  function MinMembers(lists: seq<MemberList>): Option<nat> {
    if lists == [] then None
    else
      var last := lists[|lists| - 1];
      match (MinMembers(lists[..|lists| - 1]), last.members)
      case (m, None) => m
      case (None, Some(ms)) => Some(|ms|)
      case (Some(m), Some(ms)) => Some(if |ms| < m then |ms| else m)
  }

  /** The largest member count, starting from 0. */
  function MaxMembers(lists: seq<MemberList>): nat {
    if lists == [] then 0
    else
      var last := lists[|lists| - 1];
      var m := MaxMembers(lists[..|lists| - 1]);
      if last.members.Some? && |last.members.value| > m then |last.members.value| else m
  }

  /** The minimum and maximum are attained by some list with members and
      bound every such list; with no such list the minimum is undefined. */
  lemma {:induction false} DistributionBounds(lists: seq<MemberList>)
    ensures MinMembers(lists).None? <==> forall i :: 0 <= i < |lists| ==> lists[i].members.None?
    ensures forall i :: 0 <= i < |lists| && lists[i].members.Some? ==>
              MinMembers(lists).Some? && MinMembers(lists).value <= |lists[i].members.value| <= MaxMembers(lists)
    ensures MinMembers(lists).Some? ==>
              exists i :: 0 <= i < |lists| && lists[i].members.Some? && |lists[i].members.value| == MinMembers(lists).value
    ensures MaxMembers(lists) > 0 ==>
              exists i :: 0 <= i < |lists| && lists[i].members.Some? && |lists[i].members.value| == MaxMembers(lists)
  {
    if lists != [] {
      var init := lists[..|lists| - 1];
      DistributionBounds(init);
      assert forall i :: 0 <= i < |init| ==> init[i] == lists[i];
      var n := |lists| - 1;
      if MinMembers(init).Some? && MinMembers(lists).value != MinMembers(init).value {
        assert |lists[n].members.value| == MinMembers(lists).value;
      }
      if MaxMembers(lists) != MaxMembers(init) {
        assert |lists[n].members.value| == MaxMembers(lists);
      }
    }
  }

  /** The variable names a member carries: the keys of `vars` when truthy. */
  function VarKeys(m: Member): seq<string> {
    if Truthy(m.vars) then Keys(m.vars) else []
  }

  function MemberKeys(ms: seq<Member>): seq<string> {
    if ms == [] then [] else MemberKeys(ms[..|ms| - 1]) + VarKeys(ms[|ms| - 1])
  }

  /** Every variable name of every member of every list, in visiting order. */
  function ListKeys(lists: seq<MemberList>): seq<string> {
    if lists == [] then [] else ListKeys(lists[..|lists| - 1]) + MemberKeys(MembersOf(lists[|lists| - 1]))
  }

  /** The access-level keys, `String(list.accessLevel)`, one per list. */
  function AccessKeys(lists: seq<MemberList>): (ks: seq<string>)
    ensures |ks| == |lists|
  {
    if lists == [] then [] else AccessKeys(lists[..|lists| - 1]) + [ToString(lists[|lists| - 1].accessLevel)]
  }

  datatype Distribution = Distribution(min: nat, max: nat, average: int)

  datatype ListStats = ListStats(totalLists: nat, totalMembers: nat, totalSubscribed: nat, totalUnsubscribed: nat,
                                 byAccessLevel: Counts, memberDistribution: Distribution,
                                 customVariables: seq<string>)

  /** What `getListStats(lists)` returns. */
  function ListStatsOf(lists: seq<MemberList>): ListStats {
    ListStats(|lists|, TotalMembers(lists), TotalSubscribed(lists), TotalUnsubscribed(lists),
              TallyOf(AccessKeys(lists)),
              Distribution(MinMembers(lists).GetOr(0), MaxMembers(lists),
                           if |lists| > 0 then RoundedAverage(TotalMembers(lists), |lists|) else 0),
              AddKeys([], ListKeys(lists)))
  }

  /** The list statistics are consistent: subscribed and unsubscribed
      members partition the members, the access-level counts add up to the
      number of lists, the custom variables are the distinct variable names
      seen, and the distribution's minimum never exceeds its maximum. */
  lemma ListStatsMeaning(lists: seq<MemberList>, level: string)
    ensures var s := ListStatsOf(lists);
            s.totalSubscribed + s.totalUnsubscribed == s.totalMembers
            && Total(s.byAccessLevel) == s.totalLists && DistinctNames(s.byAccessLevel)
            && CountOf(s.byAccessLevel, level) == Occurrences(AccessKeys(lists), level)
            && Distinct(s.customVariables)
            && (forall k :: k in s.customVariables <==> k in ListKeys(lists))
            && s.memberDistribution.min <= s.memberDistribution.max
            && ((forall i :: 0 <= i < |lists| ==> lists[i].members.None?) ==>
                  s.memberDistribution.min == 0 && s.memberDistribution.max == 0)
  {
    ListsPartition(lists);
    TallyOfCounts(AccessKeys(lists), level);
    AddKeysContents([], ListKeys(lists));
    DistributionBounds(lists);
    if MinMembers(lists).Some? {
      var i :| 0 <= i < |lists| && lists[i].members.Some? && |lists[i].members.value| == MinMembers(lists).value;
    }
    if forall i :: 0 <= i < |lists| ==> lists[i].members.None? {
      MaxZeroWithoutMembers(lists);
    }
  }

  lemma {:induction false} MaxZeroWithoutMembers(lists: seq<MemberList>)
    requires forall i :: 0 <= i < |lists| ==> lists[i].members.None?
    ensures MaxMembers(lists) == 0
  {
    if lists != [] {
      MaxZeroWithoutMembers(lists[..|lists| - 1]);
    }
  }

  /** `set.add(key)` for every key in turn. */
  method CollectKeys(seen: seq<string>, keys: seq<string>) returns (r: seq<string>)
    ensures r == AddKeys(seen, keys)
  {
    r := seen;
    for k := 0 to |keys|
      invariant r == AddKeys(seen, keys[..k])
    {
      assert keys[..k + 1][..k] == keys[..k];
      if keys[k] !in r {
        r := r + [keys[k]];
      }
    }
    assert keys[..|keys|] == keys;
  }

  /** Adds the variable names of every member with truthy `vars`. */
  method CollectMemberKeys(seen: seq<string>, ms: seq<Member>) returns (r: seq<string>)
    ensures r == AddKeys(seen, MemberKeys(ms))
  {
    r := seen;
    for j := 0 to |ms|
      invariant r == AddKeys(seen, MemberKeys(ms[..j]))
    {
      assert ms[..j + 1][..j] == ms[..j];
      if Truthy(ms[j].vars) {
        r := CollectKeys(r, Keys(ms[j].vars));
      }
      AddKeysAppend(seen, MemberKeys(ms[..j]), VarKeys(ms[j]));
    }
    assert ms[..|ms|] == ms;
  }

  /** The `stats` object while `getListStats` runs: counters, the smallest
      and largest member count seen (`None` standing for `Infinity`) and the
      set of variable names. */
  datatype Running = Running(totalMembers: nat, totalSubscribed: nat, totalUnsubscribed: nat, byAccessLevel: Counts,
                             min: Option<nat>, max: nat, customVariables: seq<string>)

  /** The running statistics after the given lists. */
  function RunningOf(seen: seq<MemberList>): Running {
    Running(TotalMembers(seen), TotalSubscribed(seen), TotalUnsubscribed(seen), TallyOf(AccessKeys(seen)),
            MinMembers(seen), MaxMembers(seen), AddKeys([], ListKeys(seen)))
  }

  /** The `forEach` callback of `getListStats`: one more list counted. */
  method AddList(ghost seen: seq<MemberList>, running: Running, list: MemberList) returns (next: Running)
    requires running == RunningOf(seen)
    ensures next == RunningOf(seen + [list])
  {
    match list.members
    case None =>
      AddListWithoutMembers(seen, list);
      next := running.(byAccessLevel := Bump(running.byAccessLevel, ToString(list.accessLevel)));
    case Some(ms) =>
      AddListWithMembers(seen, list, ms);
      var customVariables := CollectMemberKeys(running.customVariables, ms);
      next := Running(running.totalMembers + |ms|,
                      running.totalSubscribed + SubscribedIn(ms),
                      running.totalUnsubscribed + UnsubscribedIn(ms),
                      Bump(running.byAccessLevel, ToString(list.accessLevel)),
                      if running.min.None? || |ms| < running.min.value then Some(|ms|) else running.min,
                      if |ms| > running.max then |ms| else running.max,
                      customVariables);
  }

  /** A list without a members array only adds to its access level's count. */
  lemma AddListWithoutMembers(seen: seq<MemberList>, l: MemberList)
    requires l.members.None?
    ensures RunningOf(seen + [l]) == RunningOf(seen).(byAccessLevel := Bump(RunningOf(seen).byAccessLevel, ToString(l.accessLevel)))
  {
    var lists := seen + [l];
    assert lists[..|lists| - 1] == seen;
    AccessKeysSnoc(seen, l);
    assert MemberKeys(MembersOf(l)) == [];
    assert ListKeys(lists) == ListKeys(seen) + [];
    assert ListKeys(seen) + [] == ListKeys(seen);
  }

  /** A list with members adds them to every counter, the bounds and the
      variable names, and counts its access level. */
  lemma AddListWithMembers(seen: seq<MemberList>, l: MemberList, ms: seq<Member>)
    requires l.members == Some(ms)
    ensures var (r, r') := (RunningOf(seen), RunningOf(seen + [l]));
            && r'.totalMembers == r.totalMembers + |ms|
            && r'.totalSubscribed == r.totalSubscribed + SubscribedIn(ms)
            && r'.totalUnsubscribed == r.totalUnsubscribed + UnsubscribedIn(ms)
            && r'.byAccessLevel == Bump(r.byAccessLevel, ToString(l.accessLevel))
            && r'.min == (if r.min.None? || |ms| < r.min.value then Some(|ms|) else r.min)
            && r'.max == (if |ms| > r.max then |ms| else r.max)
            && r'.customVariables == AddKeys(r.customVariables, MemberKeys(ms))
  {
    var lists := seen + [l];
    assert lists[..|lists| - 1] == seen;
    assert MembersOf(l) == ms;
    AccessKeysSnoc(seen, l);
    AddKeysAppend([], ListKeys(seen), MemberKeys(ms));
  }

  lemma AccessKeysSnoc(seen: seq<MemberList>, l: MemberList)
    ensures TallyOf(AccessKeys(seen + [l])) == Bump(TallyOf(AccessKeys(seen)), ToString(l.accessLevel))
  {
    var lists := seen + [l];
    assert lists[..|lists| - 1] == seen;
    var keys := AccessKeys(seen);
    assert AccessKeys(lists) == keys + [ToString(l.accessLevel)];
    assert (keys + [ToString(l.accessLevel)])[..|keys|] == keys;
  }

  /** `getListStats(lists)`: the running statistics updated list by list,
      then the average and the `Infinity` minimum replaced by 0. */
  method GetListStats(lists: seq<MemberList>) returns (stats: ListStats)
    ensures stats == ListStatsOf(lists)
  {
    var running := Running(0, 0, 0, [], None, 0, []);
    for i := 0 to |lists|
      invariant running == RunningOf(lists[..i])
    {
      assert lists[..i + 1] == lists[..i] + [lists[i]];
      running := AddList(lists[..i], running, lists[i]);
    }
    assert lists[..|lists|] == lists;
    var average := if |lists| > 0 then RoundedAverage(running.totalMembers, |lists|) else 0;
    stats := ListStats(|lists|, running.totalMembers, running.totalSubscribed, running.totalUnsubscribed,
                       running.byAccessLevel, Distribution(running.min.GetOr(0), running.max, average),
                       running.customVariables);
  }

  // ---------------------------------------------------------------- getMemberEngagementStats

  /** `address.split('@')[1]`: the text between the first '@' and the next
      one (or the end); `None` when there is no '@'. */
  function DomainOf(address: string): Option<string> {
    var at := IndexOf(address, '@', 0);
    if at == |address| then None else Some(address[at + 1..IndexOf(address, '@', at + 1)])
  }

  /** An address with one '@' yields the text after it. */
  lemma DomainOfAddress(local: string, domain: string)
    requires '@' !in local && '@' !in domain
    ensures DomainOf(local + "@" + domain) == Some(domain)
  {
    var a := local + "@" + domain;
    assert a[|local|] == '@';
    assert forall j :: 0 <= j < |local| ==> a[j] == local[j];
    assert forall j :: |local| < j < |a| ==> a[j] == domain[j - |local| - 1];
    IndexOfFrom(a, '@', 0, |local|);
    IndexOfFrom(a, '@', |local| + 1, |a|);
    assert a[|local| + 1..|a|] == domain;
  }

  lemma IndexOfFrom(s: string, c: char, from: nat, k: nat)
    requires from <= k <= |s|
    requires k < |s| ==> s[k] == c
    requires forall j :: from <= j < k ==> s[j] != c
    ensures IndexOf(s, c, from) == k
  {
  }

  /** The domain counted for a member: one key when the domain is truthy. */
  function DomainKey(address: string): (ks: seq<string>)
    ensures |ks| <= 1
  {
    match DomainOf(address)
    case Some(d) => if d != "" then [d] else []
    case None => []
  }

  function OptedInIn(ms: seq<Member>): (n: nat)
    ensures n <= |ms|
  {
    if ms == [] then 0 else OptedInIn(ms[..|ms| - 1]) + (if Truthy(ms[|ms| - 1].subscription.optedIn) then 1 else 0)
  }

  lemma {:induction false} SubscribedAtMostMembers(ms: seq<Member>)
    ensures SubscribedIn(ms) <= |ms|
  {
    MembersPartition(ms);
  }

  datatype RateEntry = RateEntry(rate: Value, count: nat, total: nat)

  /** `total > 0 ? (count / total * 100).toFixed(2) : 0`. */
  function Rate(count: nat, total: nat): Value {
    if total > 0 then Str(Fixed2(count as real / total as real * 100.0)) else Num(0)
  }

  /** A rate is a percentage: between 0 and 100 hundredths-exact, and exactly
      "100.00" when every member counts. */
  lemma RateWithinPercent(count: nat, total: nat)
    requires count <= total
    ensures total == 0 ==> Rate(count, total) == Num(0)
    ensures total > 0 ==> 0 <= Hundredths(count as real / total as real * 100.0) <= 10000
    ensures total > 0 && count == total ==> Rate(count, total) == Str("100.00")
  {
    if total > 0 {
      var x := count as real / total as real;
      RatioWithinOne(count, total);
      HundredthsOfPercent(x * 100.0);
      if count == total {
        DivideBySelf(total as real);
        Fixed2OfHundred();
      }
    }
  }

  lemma RatioWithinOne(count: nat, total: nat)
    requires count <= total && total > 0
    ensures 0.0 <= count as real / total as real <= 1.0
  {
    var x := count as real / total as real;
    assert x * total as real == count as real;
  }

  lemma HundredthsOfPercent(y: real)
    requires 0.0 <= y <= 100.0
    ensures 0 <= Hundredths(y) <= 10000
  {
    assert Hundredths(y) == RoundHalfUp(y * 100.0);
  }

  lemma Fixed2OfHundred()
    ensures Fixed2(100.0) == "100.00"
  {
    assert Hundredths(100.0) == 10000;
    assert NatToString(100) == "100";
    assert TwoDigits(0) == "00";
  }

  lemma DivideBySelf(t: real)
    requires t > 0.0
    ensures t / t == 1.0
  {
  }

  datatype Engagement = Engagement(subscriptionRates: Props<RateEntry>, optInRates: Props<RateEntry>,
                                   customVariableUsage: Counts, domainDistribution: Counts)

  const SPLIT_NOT_A_FUNCTION := "member.address.split is not a function"

  /** One member's contribution: its domain and its variable names counted;
      an address that is not text throws. */
  function MemberStep(e: Engagement, m: Member): Result<Engagement, string> {
    if !m.address.Str? then Err(SPLIT_NOT_A_FUNCTION)
    else Ok(e.(domainDistribution := BumpAll(e.domainDistribution, DomainKey(m.address.s)),
               customVariableUsage := BumpAll(e.customVariableUsage, VarKeys(m))))
  }

  function MembersFold(e: Engagement, ms: seq<Member>): Result<Engagement, string> {
    if ms == [] then Ok(e)
    else match MembersFold(e, ms[..|ms| - 1])
      case Err(err) => Err(err)
      case Ok(e1) => MemberStep(e1, ms[|ms| - 1])
  }

  /** One list's contribution: its members, then its two rate entries keyed
      by `String(list.address)`. Lists without a members array are skipped. */
  function ListEngagement(e: Engagement, l: MemberList): Result<Engagement, string> {
    match l.members
    case None => Ok(e)
    case Some(ms) =>
      match MembersFold(e, ms)
      case Err(err) => Err(err)
      case Ok(e1) =>
        var key := ToString(l.address);
        var subscribed := SubscribedIn(ms);
        var optedIn := OptedInIn(ms);
        Ok(e1.(subscriptionRates := Put(e1.subscriptionRates, key, RateEntry(Rate(subscribed, |ms|), subscribed, |ms|)),
               optInRates := Put(e1.optInRates, key, RateEntry(Rate(optedIn, |ms|), optedIn, |ms|))))
  }

  const NO_ENGAGEMENT := Engagement([], [], [], [])

  /** What `getMemberEngagementStats(lists)` returns or throws. */
  function EngagementOf(lists: seq<MemberList>): Result<Engagement, string> {
    if lists == [] then Ok(NO_ENGAGEMENT)
    else match EngagementOf(lists[..|lists| - 1])
      case Err(err) => Err(err)
      case Ok(e) => ListEngagement(e, lists[|lists| - 1])
  }

  predicate AddressesAreText(ms: seq<Member>) {
    forall j :: 0 <= j < |ms| ==> ms[j].address.Str?
  }

  /** Every member of every list has a text address. */
  predicate AllAddressesText(lists: seq<MemberList>) {
    forall i :: 0 <= i < |lists| ==> AddressesAreText(MembersOf(lists[i]))
  }

  lemma AllAddressesTextSnoc(init: seq<MemberList>, last: MemberList)
    ensures AllAddressesText(init + [last]) <==> AllAddressesText(init) && AddressesAreText(MembersOf(last))
  {
    var lists := init + [last];
    assert lists[|init|] == last;
    assert forall i :: 0 <= i < |init| ==> lists[i] == init[i];
  }

  /** The domains counted, one per member whose domain is truthy. */
  function MemberDomains(ms: seq<Member>): seq<string>
    requires AddressesAreText(ms)
  {
    if ms == [] then [] else MemberDomains(ms[..|ms| - 1]) + DomainKey(ms[|ms| - 1].address.s)
  }

  function ListDomains(lists: seq<MemberList>): seq<string>
    requires AllAddressesText(lists)
  {
    if lists == [] then [] else ListDomains(lists[..|lists| - 1]) + MemberDomains(MembersOf(lists[|lists| - 1]))
  }

  /** Every rate entry counts at most its list's members. */
  predicate RatesBounded(rates: Props<RateEntry>) {
    forall i :: 0 <= i < |rates| ==> rates[i].1.count <= rates[i].1.total
  }

  lemma {:induction false} PutKeepsBounded(rates: Props<RateEntry>, key: string, entry: RateEntry)
    requires RatesBounded(rates) && entry.count <= entry.total
    ensures RatesBounded(Put(rates, key, entry))
  {
    if rates != [] && rates[0].0 != key {
      PutKeepsBounded(rates[1..], key, entry);
    }
  }

  lemma {:induction false} MembersFoldCounts(e: Engagement, ms: seq<Member>)
    ensures MembersFold(e, ms).Ok? <==> AddressesAreText(ms)
    ensures MembersFold(e, ms).Err? ==> MembersFold(e, ms).error == SPLIT_NOT_A_FUNCTION
    ensures MembersFold(e, ms).Ok? ==>
              var r := MembersFold(e, ms).value;
              r.customVariableUsage == BumpAll(e.customVariableUsage, MemberKeys(ms))
              && r.domainDistribution == BumpAll(e.domainDistribution, MemberDomains(ms))
              && r.subscriptionRates == e.subscriptionRates && r.optInRates == e.optInRates
  {
    if ms != [] {
      var init := ms[..|ms| - 1];
      MembersFoldCounts(e, init);
      assert forall j :: 0 <= j < |init| ==> init[j] == ms[j];
      if MembersFold(e, ms).Ok? {
        var last := ms[|ms| - 1];
        BumpAllAppend(e.customVariableUsage, MemberKeys(init), VarKeys(last));
        BumpAllAppend(e.domainDistribution, MemberDomains(init), DomainKey(last.address.s));
      }
    }
  }

  /** The engagement summary fails exactly when some member's address is not
      text; otherwise the variable usage is the tally of every variable name
      seen, the domain distribution the tally of the members' domains, and
      each rate entry counts at most its list's members. */
  lemma {:induction false} EngagementMeaning(lists: seq<MemberList>)
    ensures EngagementOf(lists).Ok? <==> AllAddressesText(lists)
    ensures EngagementOf(lists).Err? ==> EngagementOf(lists).error == SPLIT_NOT_A_FUNCTION
    ensures EngagementOf(lists).Ok? ==>
              var e := EngagementOf(lists).value;
              e.customVariableUsage == TallyOf(ListKeys(lists))
              && e.domainDistribution == TallyOf(ListDomains(lists))
              && RatesBounded(e.subscriptionRates) && RatesBounded(e.optInRates)
  {
    if lists != [] {
      var init := lists[..|lists| - 1];
      var last := lists[|lists| - 1];
      EngagementMeaning(init);
      assert lists == init + [last];
      AllAddressesTextSnoc(init, last);
      if EngagementOf(init).Ok? {
        assert EngagementOf(lists) == ListEngagement(EngagementOf(init).value, last);
        EngagementStep(init, last);
      } else {
        assert EngagementOf(lists) == EngagementOf(init);
      }
    }
  }

  lemma EngagementStep(init: seq<MemberList>, last: MemberList)
    requires AllAddressesText(init)
    requires EngagementOf(init).Ok?
    requires var e := EngagementOf(init).value;
             e.customVariableUsage == TallyOf(ListKeys(init))
             && e.domainDistribution == TallyOf(ListDomains(init))
             && RatesBounded(e.subscriptionRates) && RatesBounded(e.optInRates)
    ensures ListEngagement(EngagementOf(init).value, last).Ok? <==> AddressesAreText(MembersOf(last))
    ensures ListEngagement(EngagementOf(init).value, last).Err? ==>
              ListEngagement(EngagementOf(init).value, last).error == SPLIT_NOT_A_FUNCTION
    ensures ListEngagement(EngagementOf(init).value, last).Ok? ==>
              var e := ListEngagement(EngagementOf(init).value, last).value;
              var lists := init + [last];
              assert lists[..|lists| - 1] == init;
              e.customVariableUsage == TallyOf(ListKeys(lists))
              && e.domainDistribution == TallyOf(ListDomains(lists))
              && RatesBounded(e.subscriptionRates) && RatesBounded(e.optInRates)
  {
    var e := EngagementOf(init).value;
    var ms := MembersOf(last);
    var lists := init + [last];
    assert lists[..|lists| - 1] == init;
    MembersFoldCounts(e, ms);
    if AddressesAreText(ms) {
      StepTallies(init, last, e);
      StepRates(e, last);
    }
  }

  lemma StepTallies(init: seq<MemberList>, last: MemberList, e: Engagement)
    requires AllAddressesText(init)
    requires AddressesAreText(MembersOf(last))
    requires e.customVariableUsage == TallyOf(ListKeys(init)) && e.domainDistribution == TallyOf(ListDomains(init))
    ensures var lists := init + [last];
            var r := BumpAll(e.customVariableUsage, MemberKeys(MembersOf(last)));
            var d := BumpAll(e.domainDistribution, MemberDomains(MembersOf(last)));
            assert lists[..|lists| - 1] == init;
            r == TallyOf(ListKeys(lists)) && d == TallyOf(ListDomains(lists))
  {
    var ms := MembersOf(last);
    var lists := init + [last];
    assert lists[..|lists| - 1] == init;
    assert ListKeys(lists) == ListKeys(init) + MemberKeys(ms);
    assert ListDomains(lists) == ListDomains(init) + MemberDomains(ms);
    BumpAllAppend([], ListKeys(init), MemberKeys(ms));
    BumpAllAppend([], ListDomains(init), MemberDomains(ms));
    BumpAllAppend([], ListKeys(lists), []);
    BumpAllAppend([], ListDomains(lists), []);
  }

  lemma StepRates(e: Engagement, last: MemberList)
    requires AddressesAreText(MembersOf(last))
    requires RatesBounded(e.subscriptionRates) && RatesBounded(e.optInRates)
    ensures ListEngagement(e, last).Ok?
    ensures RatesBounded(ListEngagement(e, last).value.subscriptionRates)
    ensures RatesBounded(ListEngagement(e, last).value.optInRates)
  {
    var ms := MembersOf(last);
    MembersFoldCounts(e, ms);
    if last.members.Some? {
      var e1 := MembersFold(e, ms).value;
      SubscribedAtMostMembers(ms);
      PutKeepsBounded(e1.subscriptionRates, ToString(last.address),
                      RateEntry(Rate(SubscribedIn(ms), |ms|), SubscribedIn(ms), |ms|));
      PutKeepsBounded(e1.optInRates, ToString(last.address),
                      RateEntry(Rate(OptedInIn(ms), |ms|), OptedInIn(ms), |ms|));
    }
  }

  /** The variable names the list statistics report are exactly the
      properties of the engagement's variable usage, in the same order. */
  lemma VariablesAgree(lists: seq<MemberList>)
    requires EngagementOf(lists).Ok?
    ensures Names(EngagementOf(lists).value.customVariableUsage) == ListStatsOf(lists).customVariables
  {
    EngagementMeaning(lists);
    TallyNames(ListKeys(lists));
  }

  /** Counts the keys into a counter object, one `(t[k] || 0) + 1` each. */
  method TallyKeys(t: Counts, keys: seq<string>) returns (r: Counts)
    ensures r == BumpAll(t, keys)
  {
    r := t;
    for k := 0 to |keys|
      invariant r == BumpAll(t, keys[..k])
    {
      assert keys[..k + 1][..k] == keys[..k];
      r := Bump(r, keys[k]);
    }
    assert keys[..|keys|] == keys;
  }

  /** The inner `members.forEach` of one list. */
  method ScanMembers(e: Engagement, ms: seq<Member>) returns (r: Result<Engagement, string>, subscribed: nat, optedIn: nat)
    ensures r == MembersFold(e, ms)
    ensures r.Ok? ==> subscribed == SubscribedIn(ms) && optedIn == OptedInIn(ms)
  {
    var acc := e;
    subscribed, optedIn := 0, 0;
    for j := 0 to |ms|
      invariant MembersFold(e, ms[..j]) == Ok(acc)
      invariant subscribed == SubscribedIn(ms[..j]) && optedIn == OptedInIn(ms[..j])
    {
      var m := ms[j];
      assert ms[..j + 1][..j] == ms[..j];
      if Truthy(m.subscribed) {
        subscribed := subscribed + 1;
      }
      if Truthy(m.subscription.optedIn) {
        optedIn := optedIn + 1;
      }
      if !m.address.Str? {
        MembersFoldCounts(e, ms);
        return Err(SPLIT_NOT_A_FUNCTION), subscribed, optedIn;
      }
      var domains := acc.domainDistribution;
      match DomainOf(m.address.s) {
        case Some(d) =>
          if d != "" {
            assert [d][..0] == [];
            domains := Bump(domains, d);
          }
        case None =>
      }
      assert domains == BumpAll(acc.domainDistribution, DomainKey(m.address.s));
      var usage := acc.customVariableUsage;
      if Truthy(m.vars) {
        usage := TallyKeys(usage, Keys(m.vars));
      }
      acc := acc.(domainDistribution := domains, customVariableUsage := usage);
    }
    assert ms[..|ms|] == ms;
    r := Ok(acc);
  }

  /** `getMemberEngagementStats(lists)`. */
  method GetMemberEngagementStats(lists: seq<MemberList>) returns (r: Result<Engagement, string>)
    ensures r == EngagementOf(lists)
  {
    var e := NO_ENGAGEMENT;
    for i := 0 to |lists|
      invariant EngagementOf(lists[..i]) == Ok(e)
    {
      var list := lists[i];
      assert lists[..i + 1][..i] == lists[..i];
      if list.members.Some? {
        var ms := list.members.value;
        var scanned, subscribed, optedIn := ScanMembers(e, ms);
        if scanned.Err? {
          MembersFoldCounts(e, ms);
          EngagementMeaning(lists);
          assert !AddressesAreText(MembersOf(lists[i]));
          return scanned;
        }
        var key := ToString(list.address);
        e := scanned.value;
        e := e.(subscriptionRates := Put(e.subscriptionRates, key, RateEntry(Rate(subscribed, |ms|), subscribed, |ms|)),
                optInRates := Put(e.optInRates, key, RateEntry(Rate(optedIn, |ms|), optedIn, |ms|)));
      }
    }
    assert lists[..|lists|] == lists;
    r := Ok(e);
  }
}
