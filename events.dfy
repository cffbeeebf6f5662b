/** The events service: the query `fetchEvents` sends, the record
    `processEvent` makes of each event, the fetch of every event type with its
    fallback to an empty list, and the counts `getEventStats` derives. */
module Events {
  import opened Wrappers
  import opened Json
  import opened Tally
  import opened Pagination
  import Config

  // ------------------------------------------------------------ fetchEvents

  /** The page size `fetchEvents` asks for unless the options say otherwise. */
  const DEFAULT_LIMIT := 300

  /** `if (date) params[name] = formatDate(date)`. */
  function WithDate(params: Props<Value>, name: string, date: Value, utc: Value -> string): Props<Value> {
    if Truthy(date) then Put(params, name, Str(utc(date))) else params
  }

  lemma WithDateLookup(params: Props<Value>, name: string, date: Value, utc: Value -> string, key: string)
    ensures params != [] ==> WithDate(params, name, date, utc) != [] && WithDate(params, name, date, utc)[0].0 == params[0].0
    ensures Lookup(WithDate(params, name, date, utc), key)
            == if Truthy(date) && key == name then Some(Str(utc(date))) else Lookup(params, key)
  {
    if Truthy(date) {
      PutLookup(params, name, Str(utc(date)), key);
      if params != [] {
        PutKeepsFirst(params, name, Str(utc(date)));
      }
    }
  }

  /** The `params` object `fetchEvents(options)` builds: `limit: 300`
      overridden by the options, `begin` and `end` from the configured date
      range when it is set (formatted by `utc`, the `toUTCString` of the date),
      and the options' own `event` spread again. */
  function EventParams(options: Props<Value>, dateFrom: Value, dateTo: Value, utc: Value -> string): Props<Value> {
    var params := WithDate(WithDate(Assign([("limit", Num(DEFAULT_LIMIT))], options), "begin", dateFrom, utc), "end", dateTo, utc);
    var event := Lookup(options, "event").GetOr(Undefined);
    if Truthy(event) then Put(params, "event", event) else params
  }

  /** Reading one parameter: the date range where it is set, otherwise the
      options over the default. */
  lemma ParamsLookup(options: Props<Value>, dateFrom: Value, dateTo: Value, utc: Value -> string, key: string)
    requires DistinctNames(options)
    ensures Lookup(EventParams(options, dateFrom, dateTo, utc), key)
            == if Truthy(dateTo) && key == "end" then Some(Str(utc(dateTo)))
               else if Truthy(dateFrom) && key == "begin" then Some(Str(utc(dateFrom)))
               else Lookup(Assign([("limit", Num(DEFAULT_LIMIT))], options), key)
  {
    var spread := Assign([("limit", Num(DEFAULT_LIMIT))], options);
    var withBegin := WithDate(spread, "begin", dateFrom, utc);
    var params := WithDate(withBegin, "end", dateTo, utc);
    WithDateLookup(spread, "begin", dateFrom, utc, key);
    WithDateLookup(withBegin, "end", dateTo, utc, key);
    var event := Lookup(options, "event").GetOr(Undefined);
    if Truthy(event) {
      PutLookup(params, "event", event, key);
      WithDateLookup(spread, "begin", dateFrom, utc, "event");
      WithDateLookup(withBegin, "end", dateTo, utc, "event");
      AssignLookup([("limit", Num(DEFAULT_LIMIT))], options, "event");
    }
  }

  lemma ParamsFirst(options: Props<Value>, dateFrom: Value, dateTo: Value, utc: Value -> string)
    ensures EventParams(options, dateFrom, dateTo, utc) != [] && EventParams(options, dateFrom, dateTo, utc)[0].0 == "limit"
  {
    var spread := Assign([("limit", Num(DEFAULT_LIMIT))], options);
    AssignKeepsFirst([("limit", Num(DEFAULT_LIMIT))], options);
    var withBegin := WithDate(spread, "begin", dateFrom, utc);
    WithDateLookup(spread, "begin", dateFrom, utc, "limit");
    var params := WithDate(withBegin, "end", dateTo, utc);
    WithDateLookup(withBegin, "end", dateTo, utc, "limit");
    var event := Lookup(options, "event").GetOr(Undefined);
    if Truthy(event) {
      PutKeepsFirst(params, "event", event);
    }
  }

  /** `limit` is 300 unless the options set it, and comes first; `begin` and
      `end` come from the date range exactly when it is set; every other
      parameter, `event` included, is the options' own. */
  lemma EventParamsMeaning(options: Props<Value>, dateFrom: Value, dateTo: Value, utc: Value -> string, key: string)
    requires DistinctNames(options)
    ensures var p := EventParams(options, dateFrom, dateTo, utc);
            && p != [] && p[0].0 == "limit"
            && Lookup(p, "limit") == (if Lookup(options, "limit").Some? then Lookup(options, "limit") else Some(Num(DEFAULT_LIMIT)))
            && Lookup(p, "begin") == (if Truthy(dateFrom) then Some(Str(utc(dateFrom))) else Lookup(options, "begin"))
            && Lookup(p, "end") == (if Truthy(dateTo) then Some(Str(utc(dateTo))) else Lookup(options, "end"))
            && (key != "limit" && key != "begin" && key != "end" ==> Lookup(p, key) == Lookup(options, key))
  {
    ParamsFirst(options, dateFrom, dateTo, utc);
    var base := [("limit", Num(DEFAULT_LIMIT))];
    ParamsLookup(options, dateFrom, dateTo, utc, "limit");
    AssignLookup(base, options, "limit");
    ParamsLookup(options, dateFrom, dateTo, utc, "begin");
    AssignLookup(base, options, "begin");
    ParamsLookup(options, dateFrom, dateTo, utc, "end");
    AssignLookup(base, options, "end");
    ParamsLookup(options, dateFrom, dateTo, utc, key);
    AssignLookup(base, options, key);
  }

  lemma {:induction false} KeptParamsAppend(a: Props<Value>, b: Props<Value>)
    ensures KeptParams(a + b) == KeptParams(a) + KeptParams(b)
  {
    if a != [] {
      assert (a + b)[0] == a[0];
      assert (a + b)[1..] == a[1..] + b;
      KeptParamsAppend(a[1..], b);
      var first := if Present(a[0].1) then [(a[0].0, ToString(a[0].1))] else [];
      assert KeptParams(a + b) == first + KeptParams(a[1..] + b);
      assert KeptParams(a) == first + KeptParams(a[1..]);
    } else {
      assert a + b == b;
    }
  }

  /** The parameter a set date adds, as a list of at most one pair. */
  function DateParam(name: string, date: Value, utc: Value -> string): Props<Value> {
    if Truthy(date) then [(name, Str(utc(date)))] else []
  }

  /** Setting a date the query does not have yet appends it. */
  lemma WithDateAppends(params: Props<Value>, name: string, date: Value, utc: Value -> string)
    requires name !in Names(params)
    ensures WithDate(params, name, date, utc) == params + DateParam(name, date, utc)
  {
    if Truthy(date) {
      PutAppends(params, name, Str(utc(date)));
    }
  }

  lemma TypeParams(t: string, dateFrom: Value, dateTo: Value, utc: Value -> string)
    requires t != ""
    ensures EventParams([("event", Str(t))], dateFrom, dateTo, utc)
            == [("limit", Num(DEFAULT_LIMIT)), ("event", Str(t))] + DateParam("begin", dateFrom, utc) + DateParam("end", dateTo, utc)
  {
    var head := [("limit", Num(DEFAULT_LIMIT)), ("event", Str(t))];
    var option := [("event", Str(t))];
    assert Put([("limit", Num(DEFAULT_LIMIT))], "event", Str(t)) == head;
    assert Assign([("limit", Num(DEFAULT_LIMIT))], option) == head;
    assert Names(head) == ["limit", "event"];
    WithDateAppends(head, "begin", dateFrom, utc);
    var withBegin := head + DateParam("begin", dateFrom, utc);
    NamesAppend(head, DateParam("begin", dateFrom, utc));
    assert Truthy(dateFrom) ==> Names(DateParam("begin", dateFrom, utc)) == ["begin"];
    WithDateAppends(withBegin, "end", dateTo, utc);
    var params := withBegin + DateParam("end", dateTo, utc);
    assert Lookup(option, "event").GetOr(Undefined) == Str(t);
    PutSecondUnchanged(params, "event", Str(t));
  }

  /** The query of `fetchEventsByType(t)`: the page size, the type, then the
      date range where one is configured, in that order. */
  lemma EventTypeQuery(t: string, dateFrom: Value, dateTo: Value, utc: Value -> string)
    requires t != ""
    ensures KeptParams(EventParams([("event", Str(t))], dateFrom, dateTo, utc))
            == [("limit", "300"), ("event", t)]
               + (if Truthy(dateFrom) then [("begin", utc(dateFrom))] else [])
               + (if Truthy(dateTo) then [("end", utc(dateTo))] else [])
  {
    TypeParams(t, dateFrom, dateTo, utc);
    var head := [("limit", Num(DEFAULT_LIMIT)), ("event", Str(t))];
    KeptParamsAppend(head + DateParam("begin", dateFrom, utc), DateParam("end", dateTo, utc));
    KeptParamsAppend(head, DateParam("begin", dateFrom, utc));
    assert ToString(Num(DEFAULT_LIMIT)) == "300";
    assert KeptParams(head) == [("limit", "300"), ("event", t)];
  }

  /** The URL `fetchEvents(options)` requests its first page from. */
  function EventsUrl(settings: Config.Settings, options: Props<Value>, utc: Value -> string): Url {
    Url(Config.BaseUrl(settings.region) + Config.EVENTS,
        KeptParams(EventParams(options, settings.dateFrom, settings.dateTo, utc)))
  }

  /** `fetchEvents(options)`: build the URL, page through it with
      `fetchAllPages` and process every event; any failure is rethrown. */
  method FetchEvents(settings: Config.Settings, options: Props<Value>, utc: Value -> string,
                     fetchAllPages: Url -> Result<seq<Value>, PageError>)
    returns (events: Result<seq<Event>, PageError>)
    ensures events.Ok? <==> fetchAllPages(EventsUrl(settings, options, utc)).Ok?
                            && forall i :: 0 <= i < |fetchAllPages(EventsUrl(settings, options, utc)).value| ==>
                                 Readable(fetchAllPages(EventsUrl(settings, options, utc)).value[i])
    ensures events == Fetched(fetchAllPages(EventsUrl(settings, options, utc)), ProcessEvent)
  {
    var params := EventParams(options, settings.dateFrom, settings.dateTo, utc);
    var url := BuildUrl(Url(Config.BaseUrl(settings.region) + Config.EVENTS, []), params);
    assert url == EventsUrl(settings, options, utc);
    events := Fetched(fetchAllPages(url), ProcessEvent);
  }

  // ----------------------------------------------------- fetchAllEventTypes

  /** The event types `fetchAllEventTypes` asks for, in order. */
  const EVENT_TYPES: seq<string> := [
    "accepted", "rejected", "delivered", "failed", "opened",
    "clicked", "unsubscribed", "complained", "stored", "temporary_failed"
  ]

  /** A caught failure stands for no events. */
  function OrEmpty(events: Result<seq<Event>, PageError>): (r: seq<Event>)
    ensures events.Ok? ==> r == events.value
    ensures events.Err? ==> r == []
  {
    match events
    case Ok(es) => es
    case Err(_) => []
  }

  lemma EventTypesDistinct()
    ensures Distinct(EVENT_TYPES)
  {
  }

  /** The events stored under type `t`: those `fetchEventsByType(t)`
      returns, or none when it throws. */
  function TypeEvents(settings: Config.Settings, utc: Value -> string,
                      fetchAllPages: Url -> Result<seq<Value>, PageError>, t: string): seq<Event> {
    OrEmpty(Fetched(fetchAllPages(EventsUrl(settings, [("event", Str(t))], utc)), ProcessEvent))
  }

  /** The loop of `fetchAllEventTypes()` over a list of distinct types: one
      property per type, in order, holding that type's events, or none when
      its fetch failed. */
  method FetchEachType(types: seq<string>, settings: Config.Settings, utc: Value -> string,
                       fetchAllPages: Url -> Result<seq<Value>, PageError>)
    returns (all: Props<seq<Event>>)
    requires Distinct(types)
    ensures Names(all) == types
    ensures forall i :: 0 <= i < |all| ==> all[i].1 == TypeEvents(settings, utc, fetchAllPages, types[i])
  {
    all := [];
    for i := 0 to |types|
      invariant |all| == i && Names(all) == types[..i]
      invariant forall j :: 0 <= j < i ==> all[j].1 == TypeEvents(settings, utc, fetchAllPages, types[j])
    {
      var eventType := types[i];
      var events := FetchEvents(settings, [("event", Str(eventType))], utc, fetchAllPages);
      var value := OrEmpty(events);
      DistinctFresh(types, i);
      PutAppends(all, eventType, value);
      NamesAppend(all, [(eventType, value)]);
      assert Names([(eventType, value)]) == [eventType];
      all := Put(all, eventType, value);
      assert types[..i + 1] == types[..i] + [eventType];
    }
    assert types[..|types|] == types;
  }

  /** `fetchAllEventTypes()`: the loop above over the listed event types. */
  method FetchAllEventTypes(settings: Config.Settings, utc: Value -> string,
                            fetchAllPages: Url -> Result<seq<Value>, PageError>)
    returns (all: Props<seq<Event>>)
    ensures Names(all) == EVENT_TYPES
    ensures forall i :: 0 <= i < |all| ==> all[i].1 == TypeEvents(settings, utc, fetchAllPages, EVENT_TYPES[i])
  {
    EventTypesDistinct();
    all := FetchEachType(EVENT_TYPES, settings, utc, fetchAllPages);
  }

  // ----------------------------------------------------------- processEvent

  datatype Message = Message(messageId: Value, subject: Value, sender: Value, to: Value, size: Value)
  datatype DeliveryStatus = DeliveryStatus(description: Value, code: Value, reason: Value, severity: Value)
  datatype Tracking = Tracking(userAgent: Value, clientType: Value, clientName: Value, clientOs: Value,
                               deviceType: Value, country: Value, region: Value, city: Value, url: Value)
  datatype Smtp = Smtp(envelope: Value, routes: Value)
  datatype Flags = Flags(isAuthenticated: Value, isSystemTest: Value, isTestMode: Value)
  datatype Storage = Storage(url: Value, key: Value)
  datatype Geolocation = Geolocation(country: Value, region: Value, city: Value)

  /** The record `processEvent` returns; `storage` and `geolocation` are
      `null` (`None`) when the event has none. */
  datatype Event = Event(
    id: Value, timestamp: Value, event: Value,
    message: Message, recipient: Value, recipientDomain: Value,
    deliveryStatus: DeliveryStatus, tracking: Tracking,
    campaigns: Value, tags: Value, userVariables: Value,
    smtp: Smtp, flags: Flags,
    storage: Option<Storage>, geolocation: Option<Geolocation>,
    raw: Value)

  /** `processEvent(event)`. Optional chaining `a?.b` is `Get`, which reads
      `undefined` through anything that is not an object. */
  function ProcessEvent(event: Value): (e: Event)
    ensures e.raw == event
    ensures Truthy(Get(event, "campaigns")) ==> e.campaigns == Get(event, "campaigns")
    ensures !Truthy(Get(event, "campaigns")) ==> e.campaigns == Arr([])
    ensures Truthy(Get(event, "tags")) ==> e.tags == Get(event, "tags")
    ensures !Truthy(Get(event, "tags")) ==> e.tags == Arr([])
    ensures Truthy(Get(event, "user-variables")) ==> e.userVariables == Get(event, "user-variables")
    ensures !Truthy(Get(event, "user-variables")) ==> e.userVariables == Obj([])
    ensures e.storage.None? <==> !Truthy(Get(event, "storage"))
    ensures e.geolocation.None? <==> !Truthy(Get(event, "geolocation"))
  {
    var headers := Get(Get(event, "message"), "headers");
    var storage := Get(event, "storage");
    var geolocation := Get(event, "geolocation");
    Event(
      Get(event, "id"), Get(event, "timestamp"), Get(event, "event"),
      Message(Get(headers, "message-id"), Get(headers, "subject"), Get(headers, "from"), Get(headers, "to"),
              Get(Get(event, "message"), "size")),
      Get(event, "recipient"), Get(event, "recipient-domain"),
      DeliveryStatus(Get(event, "description"), Get(event, "code"), Get(event, "reason"), Get(event, "severity")),
      Tracking(Get(event, "user-agent"), Get(event, "client-type"), Get(event, "client-name"),
               Get(event, "client-os"), Get(event, "device-type"), Get(event, "country"),
               Get(event, "region"), Get(event, "city"), Get(event, "url")),
      Or(Get(event, "campaigns"), Arr([])), Or(Get(event, "tags"), Arr([])),
      Or(Get(event, "user-variables"), Obj([])),
      Smtp(Get(event, "envelope"), Get(event, "routes")),
      Flags(Get(Get(event, "flags"), "is-authenticated"), Get(Get(event, "flags"), "is-system-test"),
            Get(Get(event, "flags"), "is-test-mode")),
      if Truthy(storage) then Some(Storage(Get(storage, "url"), Get(storage, "key"))) else None,
      if Truthy(geolocation) then Some(Geolocation(Get(geolocation, "country"), Get(geolocation, "region"),
                                                   Get(geolocation, "city"))) else None,
      event)
  }

  /** The defaults make the list and map fields never falsy, and the fields
      `getEventStats` reads are the raw event's own. */
  lemma ProcessedEventFields(event: Value)
    ensures var e := ProcessEvent(event);
            && Truthy(e.campaigns) && Truthy(e.tags) && Truthy(e.userVariables)
            && e.event == Get(e.raw, "event") && e.timestamp == Get(e.raw, "timestamp")
            && e.deliveryStatus.code == Get(e.raw, "code")
            && e.recipientDomain == Get(e.raw, "recipient-domain")
  {
  }

  // ---------------------------------------------------------- getEventStats

  /** The moment `new Date(event.timestamp * 1000)` denotes, in milliseconds,
      for an event whose timestamp is a non-zero number. */
  function TimeOf(e: Event): Option<int> {
    if Truthy(e.timestamp) && e.timestamp.Num? then Some(e.timestamp.n * 1000) else None
  }

  datatype TimeRange = TimeRange(earliest: Option<int>, latest: Option<int>)

  /** One timestamp taken into the range: it replaces a missing or later
      earliest and a missing or earlier latest. */
  function Extend(r: TimeRange, t: int): TimeRange {
    TimeRange(if r.earliest.None? || t < r.earliest.value then Some(t) else r.earliest,
              if r.latest.None? || t > r.latest.value then Some(t) else r.latest)
  }

  function RangeOf(events: seq<Event>): TimeRange {
    if events == [] then TimeRange(None, None)
    else
      var r := RangeOf(events[..|events| - 1]);
      match TimeOf(events[|events| - 1])
      case None => r
      case Some(t) => Extend(r, t)
  }

  /** Both ends are null exactly when no event has a timestamp; otherwise
      earliest ≤ latest and every timestamp lies between them. */
  lemma {:induction false} RangeBounds(events: seq<Event>)
    ensures var r := RangeOf(events);
            && (r.earliest.None? <==> r.latest.None?)
            && (r.earliest.None? <==> forall i :: 0 <= i < |events| ==> TimeOf(events[i]).None?)
            && (r.earliest.Some? ==> r.earliest.value <= r.latest.value)
            && (forall i :: 0 <= i < |events| && TimeOf(events[i]).Some? ==>
                  r.earliest.Some? && r.earliest.value <= TimeOf(events[i]).value <= r.latest.value)
  {
    if events != [] {
      var init := events[..|events| - 1];
      assert forall i :: 0 <= i < |init| ==> init[i] == events[i];
      RangeBounds(init);
    }
  }

  /** Each end is the timestamp of some event. */
  lemma {:induction false} RangeAttained(events: seq<Event>)
    ensures var r := RangeOf(events);
            && (r.earliest.Some? ==> exists i :: 0 <= i < |events| && TimeOf(events[i]) == r.earliest)
            && (r.latest.Some? ==> exists i :: 0 <= i < |events| && TimeOf(events[i]) == r.latest)
  {
    if events != [] {
      var init := events[..|events| - 1];
      assert forall i :: 0 <= i < |init| ==> init[i] == events[i];
      RangeAttained(init);
    }
  }

  function TypeKeys(events: seq<Event>): (ks: seq<string>)
    ensures |ks| == |events|
  {
    if events == [] then [] else TypeKeys(events[..|events| - 1]) + [ToString(events[|events| - 1].event)]
  }

  function CodeOf(e: Event): Value { e.deliveryStatus.code }
  function RecipientDomainOf(e: Event): Value { e.recipientDomain }

  /** The keys of the events whose `field` is truthy, as strings. */
  function TruthyKeys(events: seq<Event>, field: Event -> Value): seq<string> {
    if events == [] then []
    else
      var e := events[|events| - 1];
      TruthyKeys(events[..|events| - 1], field) + (if Truthy(field(e)) then [ToString(field(e))] else [])
  }

  /** One key per event with a truthy field: never more than the events, and
      as many exactly when every event has one. */
  lemma {:induction false} TruthyKeysCount(events: seq<Event>, field: Event -> Value)
    ensures |TruthyKeys(events, field)| <= |events|
    ensures |TruthyKeys(events, field)| == |events| <==> forall i :: 0 <= i < |events| ==> Truthy(field(events[i]))
  {
    if events != [] {
      var init := events[..|events| - 1];
      assert forall i :: 0 <= i < |init| ==> init[i] == events[i];
      TruthyKeysCount(init, field);
    }
  }

  datatype EventStats = EventStats(total: nat, byType: Counts, byStatus: Counts,
                                   byRecipientDomain: Counts, timeRange: TimeRange)

  /** What `getEventStats(events)` returns. */
  function EventStatsOf(events: seq<Event>): EventStats {
    EventStats(|events|, TallyOf(TypeKeys(events)), TallyOf(TruthyKeys(events, CodeOf)),
               TallyOf(TruthyKeys(events, RecipientDomainOf)), RangeOf(events))
  }

  /** The type counts add up to the total; the status and domain counts add
      up to at most the total, to the total exactly when every event has a
      code (a recipient domain); each count is its key's number of
      occurrences. */
  lemma EventStatsTotals(events: seq<Event>, key: string)
    ensures var s := EventStatsOf(events);
            && Total(s.byType) == s.total
            && Total(s.byStatus) <= s.total && Total(s.byRecipientDomain) <= s.total
            && (Total(s.byStatus) == s.total <==> forall i :: 0 <= i < |events| ==> Truthy(events[i].deliveryStatus.code))
            && (Total(s.byRecipientDomain) == s.total <==> forall i :: 0 <= i < |events| ==> Truthy(events[i].recipientDomain))
            && DistinctNames(s.byType) && DistinctNames(s.byStatus) && DistinctNames(s.byRecipientDomain)
            && CountOf(s.byType, key) == Occurrences(TypeKeys(events), key)
            && CountOf(s.byStatus, key) == Occurrences(TruthyKeys(events, CodeOf), key)
            && CountOf(s.byRecipientDomain, key) == Occurrences(TruthyKeys(events, RecipientDomainOf), key)
  {
    TallyOfCounts(TypeKeys(events), key);
    TallyOfCounts(TruthyKeys(events, CodeOf), key);
    TallyOfCounts(TruthyKeys(events, RecipientDomainOf), key);
    TruthyKeysCount(events, CodeOf);
    TruthyKeysCount(events, RecipientDomainOf);
  }

  lemma StatsStep(events: seq<Event>, i: nat)
    requires i < |events|
    ensures TallyOf(TypeKeys(events[..i + 1])) == Bump(TallyOf(TypeKeys(events[..i])), ToString(events[i].event))
    ensures RangeOf(events[..i + 1]) == match TimeOf(events[i]) case None => RangeOf(events[..i]) case Some(t) => Extend(RangeOf(events[..i]), t)
  {
    assert events[..i + 1][..i] == events[..i];
    var ks := TypeKeys(events[..i + 1]);
    assert ks[..|ks| - 1] == TypeKeys(events[..i]);
  }

  lemma TruthyStep(events: seq<Event>, i: nat, field: Event -> Value)
    requires i < |events|
    ensures TallyOf(TruthyKeys(events[..i + 1], field))
            == if Truthy(field(events[i])) then Bump(TallyOf(TruthyKeys(events[..i], field)), ToString(field(events[i])))
               else TallyOf(TruthyKeys(events[..i], field))
  {
    assert events[..i + 1][..i] == events[..i];
    var ks := TruthyKeys(events[..i], field);
    if Truthy(field(events[i])) {
      assert (ks + [ToString(field(events[i]))])[..|ks|] == ks;
    } else {
      assert ks + [] == ks;
    }
  }

  /** `getEventStats(events)`: one pass counting by type, by status code and
      by recipient domain, and widening the time range. */
  method GetEventStats(events: seq<Event>) returns (stats: EventStats)
    ensures stats == EventStatsOf(events)
  {
    var byType: Counts, byStatus: Counts, byRecipientDomain: Counts := [], [], [];
    var earliest: Option<int>, latest: Option<int> := None, None;
    for i := 0 to |events|
      invariant byType == TallyOf(TypeKeys(events[..i]))
      invariant byStatus == TallyOf(TruthyKeys(events[..i], CodeOf))
      invariant byRecipientDomain == TallyOf(TruthyKeys(events[..i], RecipientDomainOf))
      invariant TimeRange(earliest, latest) == RangeOf(events[..i])
    {
      var event := events[i];
      StatsStep(events, i);
      TruthyStep(events, i, CodeOf);
      TruthyStep(events, i, RecipientDomainOf);
      byType := Bump(byType, ToString(event.event));
      if Truthy(event.deliveryStatus.code) {
        byStatus := Bump(byStatus, ToString(event.deliveryStatus.code));
      }
      if Truthy(event.recipientDomain) {
        byRecipientDomain := Bump(byRecipientDomain, ToString(event.recipientDomain));
      }
      if Truthy(event.timestamp) && event.timestamp.Num? {
        var timestamp := event.timestamp.n * 1000;
        if earliest.None? || timestamp < earliest.value {
          earliest := Some(timestamp);
        }
        if latest.None? || timestamp > latest.value {
          latest := Some(timestamp);
        }
      }
    }
    assert events[..|events|] == events;
    stats := EventStats(|events|, byType, byStatus, byRecipientDomain, TimeRange(earliest, latest));
  }
}
