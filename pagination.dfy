/** The paging and retry engine of `utils/pagination.js`. The HTTP transport is
    a scripted sequence of outcomes; `sleep` is a recorded delay on the virtual
    clock. */
module Pagination {
  import opened Wrappers
  import opened Json
  import opened Clock
  import opened RateLimiting

  const RETRY_COUNT: nat := 3
  const RETRY_DELAY_MS: nat := 1000

  /** What a failed `axios.get` carries: the HTTP status if a response came
      back, the socket error code, and the message. */
  datatype RequestError = RequestError(status: Option<int>, code: string, message: string)

  /** One `axios.get` outcome: the parsed response body, or a thrown error. */
  datatype Outcome = Response(body: Value) | Failed(error: RequestError)

  /** Why `fetchAllPages` throws: a request that failed on every attempt, or a
      `TypeError` raised while reading a response body. */
  datatype PageError = Request(error: RequestError) | TypeError(message: string)

  /** The error every request gets once the scripted server has nothing more
      to say. This bounds every modelled page loop: a real server could keep
      sending links forever. */
  const NO_RESPONSE := RequestError(None, "ECONNRESET", "socket hang up")

  /** The outcome of the request numbered `i` (from 0). */
  function Next(script: seq<Outcome>, i: nat): (o: Outcome)
    ensures i >= |script| ==> o == Failed(NO_RESPONSE)
  {
    if i < |script| then script[i] else Failed(NO_RESPONSE)
  }

  /** The scripted server: request number `served` gets `Next(script, served)`. */
  class Transport {
    const script: seq<Outcome>
    var served: nat
    /** The URL of every request, in order. */
    var requested: seq<Value>

    constructor (script: seq<Outcome>)
      ensures this.script == script && served == 0 && requested == []
    {
      this.script := script;
      served := 0;
      requested := [];
    }

    method Get(url: Value) returns (o: Outcome)
      modifies this
      ensures o == Next(script, old(served))
      ensures served == old(served) + 1
      ensures requested == old(requested) + [url]
    {
      o := Next(script, served);
      served := served + 1;
      requested := requested + [url];
    }
  }

  function Pow2(n: nat): (p: nat)
    ensures p >= 1
  {
    if n == 0 then 1 else 2 * Pow2(n - 1)
  }

  /** The delay before retrying after failed attempt `attempt` (from 1):
      the base delay, doubled for every earlier retry. */
  function Backoff(retryDelay: nat, attempt: nat): nat
    requires attempt >= 1
  {
    if attempt == 1 then retryDelay else 2 * Backoff(retryDelay, attempt - 1)
  }

  /** The delay is `retryDelay * Math.pow(2, attempt - 1)`. */
  lemma {:induction false} BackoffFormula(retryDelay: nat, attempt: nat)
    requires attempt >= 1
    ensures Backoff(retryDelay, attempt) == retryDelay * Pow2(attempt - 1)
  {
    if attempt > 1 {
      BackoffFormula(retryDelay, attempt - 1);
      assert retryDelay * Pow2(attempt - 1) == 2 * (retryDelay * Pow2(attempt - 2));
    }
  }

  function Sum(xs: seq<nat>): nat {
    if xs == [] then 0 else xs[0] + Sum(xs[1..])
  }

  function Repeat<T>(x: T, n: nat): (r: seq<T>)
    ensures |r| == n
    ensures forall i :: 0 <= i < n ==> r[i] == x
  {
    if n == 0 then [] else Repeat(x, n - 1) + [x]
  }

  /** What `makeRequestWithRetry` does from attempt number `attempt`: the
      outcome it ends with, how many requests it makes, and its sleeps. */
  datatype RetryRun = RetryRun(outcome: Outcome, attempts: nat, delays: seq<nat>)

  function RetrySpec(script: seq<Outcome>, pos: nat, attempt: nat, retryCount: nat, retryDelay: nat): RetryRun
    requires attempt >= 1
    decreases retryCount + 1 - attempt
  {
    match Next(script, pos)
    case Response(_) => RetryRun(Next(script, pos), 1, [])
    case Failed(e) =>
      if attempt <= retryCount then
        var rest := RetrySpec(script, pos + 1, attempt + 1, retryCount, retryDelay);
        RetryRun(rest.outcome, rest.attempts + 1, [Backoff(retryDelay, attempt)] + rest.delays)
      else RetryRun(Failed(e), 1, [])
  }

  /** One attempt of a retry run, unfolded: a failure with retries left
      sleeps the backoff and goes on; anything else ends the run. */
  lemma RetryStep(script: seq<Outcome>, pos: nat, attempt: nat, retryCount: nat, retryDelay: nat)
    requires attempt >= 1
    ensures var r := RetrySpec(script, pos, attempt, retryCount, retryDelay);
            var rest := RetrySpec(script, pos + 1, attempt + 1, retryCount, retryDelay);
            (Next(script, pos).Failed? && attempt <= retryCount
             ==> r == RetryRun(rest.outcome, rest.attempts + 1, [Backoff(retryDelay, attempt)] + rest.delays))
            && (!(Next(script, pos).Failed? && attempt <= retryCount) ==> r == RetryRun(Next(script, pos), 1, []))
  {
  }

  /** The backoffs slept before attempts `lo + 1` to `hi`. */
  function Backoffs(retryDelay: nat, lo: nat, hi: nat): (r: seq<nat>)
    requires 1 <= lo <= hi
    ensures |r| == hi - lo
    decreases hi - lo
  {
    if lo == hi then [] else [Backoff(retryDelay, lo)] + Backoffs(retryDelay, lo + 1, hi)
  }

  lemma {:induction false} BackoffsSnoc(retryDelay: nat, lo: nat, hi: nat)
    requires 1 <= lo <= hi
    ensures Backoffs(retryDelay, lo, hi + 1) == Backoffs(retryDelay, lo, hi) + [Backoff(retryDelay, hi)]
    decreases hi - lo
  {
    if lo < hi {
      BackoffsSnoc(retryDelay, lo + 1, hi);
    }
  }

  lemma SumSnoc(xs: seq<nat>, x: nat)
    ensures Sum(xs + [x]) == Sum(xs) + x
  {
    if xs != [] {
      assert (xs + [x])[1..] == xs[1..] + [x];
      SumSnoc(xs[1..], x);
    }
  }

  /** A retry run that fails on every request before the one numbered
      `last` and stops there (a response, or no retries left) ends with
      that request's outcome, after the backoffs of every attempt before. */
  lemma {:induction false} RetryUntil(script: seq<Outcome>, start: nat, attempt: nat, last: nat,
                                      retryCount: nat, retryDelay: nat)
    requires 1 <= attempt <= last <= retryCount + 1
    requires forall i :: start + attempt - 1 <= i < start + last - 1 ==> Next(script, i).Failed?
    requires Next(script, start + last - 1).Response? || last == retryCount + 1
    ensures RetrySpec(script, start + attempt - 1, attempt, retryCount, retryDelay)
            == RetryRun(Next(script, start + last - 1), last - attempt + 1, Backoffs(retryDelay, attempt, last))
    decreases last - attempt
  {
    RetryStep(script, start + attempt - 1, attempt, retryCount, retryDelay);
    if attempt < last {
      assert Next(script, start + attempt - 1).Failed?;
      RetryUntil(script, start, attempt + 1, last, retryCount, retryDelay);
    }
  }

  /** The shape of a retry run: between one and `retryCount + 1` requests in
      all, every request but the last one failed, the run ends with the last
      request's outcome, it sleeps once before each retry, and a run that
      ends in failure has used up every retry. */
  lemma {:induction false} RetryShape(script: seq<Outcome>, pos: nat, attempt: nat, retryCount: nat, retryDelay: nat)
    requires 1 <= attempt <= retryCount + 1
    ensures var r := RetrySpec(script, pos, attempt, retryCount, retryDelay);
            1 <= r.attempts <= retryCount + 2 - attempt
            && |r.delays| == r.attempts - 1
            && r.outcome == Next(script, pos + r.attempts - 1)
            && (forall i :: pos <= i < pos + r.attempts - 1 ==> Next(script, i).Failed?)
            && (r.outcome.Failed? ==> r.attempts == retryCount + 2 - attempt)
            && (forall i :: 0 <= i < |r.delays| ==> r.delays[i] == Backoff(retryDelay, attempt + i))
    decreases retryCount + 1 - attempt
  {
    var r := RetrySpec(script, pos, attempt, retryCount, retryDelay);
    if Next(script, pos).Failed? && attempt <= retryCount {
      RetryShape(script, pos + 1, attempt + 1, retryCount, retryDelay);
      var rest := RetrySpec(script, pos + 1, attempt + 1, retryCount, retryDelay);
      assert r.delays == [Backoff(retryDelay, attempt)] + rest.delays;
    }
  }

  /** A response ends the run as soon as it arrives, whatever failed before. */
  lemma RetryStopsAtResponse(script: seq<Outcome>, pos: nat, attempt: nat, retryCount: nat, retryDelay: nat)
    requires 1 <= attempt <= retryCount + 1
    ensures RetrySpec(script, pos, attempt, retryCount, retryDelay).attempts >= 1
    ensures RetrySpec(script, pos, attempt, retryCount, retryDelay).outcome.Response?
            ==> pos + RetrySpec(script, pos, attempt, retryCount, retryDelay).attempts <= |script|
  {
    RetryShape(script, pos, attempt, retryCount, retryDelay);
  }

  /** With the defaults (3 retries from 1000 ms), four failures in a row give
      four requests, sleeps of 1000, 2000 and 4000 ms, and the last error. */
  lemma DefaultBackoff(script: seq<Outcome>, pos: nat)
    requires forall i :: pos <= i < pos + 4 ==> Next(script, i).Failed?
    ensures RetrySpec(script, pos, 1, RETRY_COUNT, RETRY_DELAY_MS)
            == RetryRun(Next(script, pos + 3), 4, [1000, 2000, 4000])
  {
    assert Next(script, pos).Failed?;
    assert Next(script, pos + 1).Failed?;
    assert Next(script, pos + 2).Failed?;
    assert Next(script, pos + 3).Failed?;
  }

  /** Two scripts that have the same responses at the same places. */
  ghost predicate SameResponses(s1: seq<Outcome>, s2: seq<Outcome>) {
    forall i: nat :: (Next(s1, i).Response? || Next(s2, i).Response?) ==> Next(s1, i) == Next(s2, i)
  }

  /** Every error is retried alike: the HTTP status or socket code of a
      failure changes neither the number of requests nor the sleeps, nor
      the response the run ends with. */
  lemma {:induction false} RetryIgnoresErrorKind(s1: seq<Outcome>, s2: seq<Outcome>, pos: nat, attempt: nat, retryCount: nat, retryDelay: nat)
    requires attempt >= 1
    requires SameResponses(s1, s2)
    ensures var r1 := RetrySpec(s1, pos, attempt, retryCount, retryDelay);
            var r2 := RetrySpec(s2, pos, attempt, retryCount, retryDelay);
            r1.attempts == r2.attempts && r1.delays == r2.delays
            && r1.outcome.Response? == r2.outcome.Response?
            && (r1.outcome.Response? ==> r1.outcome == r2.outcome)
    decreases retryCount + 1 - attempt
  {
    assert Next(s1, pos).Response? <==> Next(s2, pos).Response?;
    if Next(s1, pos).Failed? && attempt <= retryCount {
      RetryIgnoresErrorKind(s1, s2, pos + 1, attempt + 1, retryCount, retryDelay);
    }
  }

  /** `[...v]` inside `push`: arrays give their elements, strings their
      characters, and anything else is not iterable. */
  function Spread(v: Value): (r: Result<seq<Value>, string>)
    ensures v.Arr? ==> r == Ok(v.items)
    ensures v.Str? ==> r.Ok? && |r.value| == |v.s|
    ensures (v.Arr? || v.Str?) <==> r.Ok?
  {
    match v
    case Arr(items) => Ok(items)
    case Str(s) => Ok(seq(|s|, i requires 0 <= i < |s| => Str([s[i]])))
    case _ => Err("is not iterable")
  }

  /** The items one page contributes: `data.items` when truthy, else the
      body itself when it is an array, else the body as a single item.
      Reading `items` of a `null` or missing body throws. */
  function Batch(body: Value): Result<seq<Value>, string> {
    if body.Null? || body.Undefined? then Err("Cannot read properties of " + ToString(body) + " (reading 'items')")
    else if Truthy(Get(body, "items")) then Spread(Get(body, "items"))
    else if body.Arr? then Ok(body.items)
    else Ok([body])
  }

  /** A page always contributes its items, unless the body is missing: an
      items array in order, an array body as it is, any other body whole. */
  lemma BatchItems(body: Value)
    ensures Batch(body).Err? <==> body.Null? || body.Undefined? || (Truthy(Get(body, "items")) && !Get(body, "items").Arr? && !Get(body, "items").Str?)
    ensures Get(body, "items").Arr? && Truthy(Get(body, "items")) ==> Batch(body) == Ok(Get(body, "items").items)
    ensures !Truthy(Get(body, "items")) && body.Arr? ==> Batch(body) == Ok(body.items)
    ensures !Truthy(Get(body, "items")) && !body.Arr? && !body.Null? && !body.Undefined? ==> Batch(body) == Ok([body])
  {
  }

  /** `getNextUrl(data)`: `paging.next` when set, else `links.next` when set,
      else `null`. */
  function NextUrl(body: Value): Value {
    var paging := Get(body, "paging");
    var links := Get(body, "links");
    if Truthy(paging) && Truthy(Get(paging, "next")) then Get(paging, "next")
    else if Truthy(links) && Truthy(Get(links, "next")) then Get(links, "next")
    else Null
  }

  /** The next link: `paging.next` when set, else `links.next` when set,
      else none; the guards on `paging` and `links` themselves add nothing,
      since a link can only be read from an object. */
  lemma NextUrlChoice(body: Value)
    ensures Truthy(Get(Get(body, "paging"), "next")) ==> NextUrl(body) == Get(Get(body, "paging"), "next")
    ensures !Truthy(Get(Get(body, "paging"), "next"))
            ==> NextUrl(body) == (if Truthy(Get(Get(body, "links"), "next")) then Get(Get(body, "links"), "next") else Null)
    ensures Truthy(NextUrl(body)) || NextUrl(body) == Null
  {
  }

  /** What `fetchAllPages` does from request number `pos` with continuation
      `next`: its result, the requests it makes, the pages it starts, and the
      URL of every request in order. */
  datatype PageRun = PageRun(result: Result<seq<Value>, PageError>, consumed: nat, pages: nat, urls: seq<Value>)

  /** What one page's outcome gives the loop: the items it adds, or the
      error that makes `fetchAllPages` throw. */
  function PageItems(o: Outcome): (r: Result<seq<Value>, PageError>)
    ensures r.Ok? <==> o.Response? && Batch(o.body).Ok?
    ensures r.Ok? ==> r.value == Batch(o.body).value
  {
    match o
    case Failed(e) => Err(Request(e))
    case Response(body) =>
      match Batch(body)
      case Err(m) => Err(TypeError(m))
      case Ok(items) => Ok(items)
  }

  function Prepend(items: seq<Value>, r: Result<seq<Value>, PageError>): Result<seq<Value>, PageError> {
    if r.Ok? then Ok(items + r.value) else r
  }

  function Paginate(script: seq<Outcome>, pos: nat, next: Value, retryCount: nat, retryDelay: nat): (run: PageRun)
    ensures !Truthy(next) <==> run.pages == 0
    ensures run.pages <= run.consumed && |run.urls| == run.consumed
    decreases |script| - pos
  {
    if !Truthy(next) then PageRun(Ok([]), 0, 0, [])
    else
      var t := RetrySpec(script, pos, 1, retryCount, retryDelay);
      RetryStopsAtResponse(script, pos, 1, retryCount, retryDelay);
      match t.outcome
      case Failed(e) => PageRun(Err(Request(e)), t.attempts, 1, Repeat(next, t.attempts))
      case Response(body) =>
        match Batch(body)
        case Err(m) => PageRun(Err(TypeError(m)), t.attempts, 1, Repeat(next, t.attempts))
        case Ok(items) =>
          var rest := Paginate(script, pos + t.attempts, NextUrl(body), retryCount, retryDelay);
          PageRun(Prepend(items, rest.result), t.attempts + rest.consumed, 1 + rest.pages,
                  Repeat(next, t.attempts) + rest.urls)
  }

  /** A page body with `items` and a `paging.next` link, the shape the
      loop reads first; an empty link ends the chain. */
  function PageBody(items: seq<Value>, next: string): Value {
    Obj([("items", Arr(items)), ("paging", Obj([("next", Str(next))]))])
  }

  /** What the loop reads from such a body: its items, and the next link
      unless it is empty. */
  lemma PageBodyFields(items: seq<Value>, next: string)
    ensures Get(PageBody(items, next), "items") == Arr(items)
    ensures Batch(PageBody(items, next)) == Ok(items)
    ensures NextUrl(PageBody(items, next)) == (if next == "" then Null else Str(next))
  {
    var paging := Obj([("next", Str(next))]);
    var fields := [("items", Arr(items)), ("paging", paging)];
    assert "items"[0] != "paging"[0] && "links"[0] != "items"[0] && "links"[0] != "paging"[0];
    assert Lookup(fields, "items") == Some(Arr(items));
    assert fields[1..] == [("paging", paging)];
    assert Lookup(fields[1..], "paging") == Some(paging);
    assert Lookup(fields, "paging") == Some(paging);
    assert Lookup([("next", Str(next))], "next") == Some(Str(next));
    assert Get(paging, "next") == Str(next);
    assert fields[1..][1..] == [];
    assert Lookup(fields[1..], "links") == None;
    assert Get(PageBody(items, next), "links") == Undefined;
  }

  function Concat(pages: seq<seq<Value>>): seq<Value> {
    if pages == [] then [] else pages[0] + Concat(pages[1..])
  }

  /** The URLs a chain of pages is requested at: the first URL, then each
      page's link in turn, up to the last page, whose link is empty. */
  function ChainUrls(first: string, links: seq<string>): seq<Value>
    requires |links| >= 1
    decreases |links|
  {
    if |links| == 1 then [Str(first)] else [Str(first)] + ChainUrls(links[0], links[1..])
  }

  /** Each page's items, in page order: against a server that answers every
      request with the next page of a chain whose last link is empty, the
      result is the concatenation of all the pages, fetched one request each,
      the first at the URL given and every later one at the previous page's
      link. */
  lemma {:induction false} CollectsEveryPage(script: seq<Outcome>, pos: nat, first: string,
                                             pages: seq<seq<Value>>, links: seq<string>,
                                             retryCount: nat, retryDelay: nat)
    requires |pages| == |links| >= 1
    requires first != ""
    requires forall i :: 0 <= i < |links| - 1 ==> links[i] != ""
    requires links[|links| - 1] == ""
    requires pos + |pages| <= |script|
    requires forall i :: 0 <= i < |pages| ==> script[pos + i] == Response(PageBody(pages[i], links[i]))
    ensures Paginate(script, pos, Str(first), retryCount, retryDelay)
            == PageRun(Ok(Concat(pages)), |pages|, |pages|, ChainUrls(first, links))
    decreases |pages|
  {
    var body := PageBody(pages[0], links[0]);
    PageBodyFields(pages[0], links[0]);
    ServedPage(script, pos, Str(first), pages[0], links[0], retryCount, retryDelay);
    var rest := Paginate(script, pos + 1, NextUrl(body), retryCount, retryDelay);
    if |pages| == 1 {
      assert rest == PageRun(Ok([]), 0, 0, []);
      assert Concat(pages) == pages[0] + Concat([]);
      assert [Str(first)] + [] == [Str(first)];
    } else {
      assert NextUrl(body) == Str(links[0]);
      forall i | 0 <= i < |pages| - 1
        ensures script[(pos + 1) + i] == Response(PageBody(pages[1..][i], links[1..][i]))
      {
        assert script[pos + (i + 1)] == Response(PageBody(pages[i + 1], links[i + 1]));
      }
      CollectsEveryPage(script, pos + 1, links[0], pages[1..], links[1..], retryCount, retryDelay);
    }
  }

  /** A page served at the first attempt is one request at `url`, followed
      by the run from its link. */
  lemma ServedPage(script: seq<Outcome>, pos: nat, url: Value, items: seq<Value>, link: string,
                   retryCount: nat, retryDelay: nat)
    requires Truthy(url)
    requires pos < |script| && script[pos] == Response(PageBody(items, link))
    ensures var rest := Paginate(script, pos + 1, NextUrl(PageBody(items, link)), retryCount, retryDelay);
            Paginate(script, pos, url, retryCount, retryDelay)
            == PageRun(Prepend(items, rest.result), 1 + rest.consumed, 1 + rest.pages, [url] + rest.urls)
  {
    var body := PageBody(items, link);
    assert Repeat(url, 1) == [url];
    assert Next(script, pos) == Response(body);
    PageBodyFields(items, link);
    RetryStep(script, pos, 1, retryCount, retryDelay);
    assert RetrySpec(script, pos, 1, retryCount, retryDelay) == RetryRun(Response(body), 1, []);
    PaginateStep(script, pos, url, retryCount, retryDelay);
  }

  /** A first response without any continuation link stops the loop after
      exactly one page. */
  lemma SinglePage(script: seq<Outcome>, pos: nat, url: Value, retryCount: nat, retryDelay: nat)
    requires Truthy(url)
    requires pos < |script| && script[pos].Response?
    requires Batch(script[pos].body).Ok?
    requires !Truthy(NextUrl(script[pos].body))
    ensures Paginate(script, pos, url, retryCount, retryDelay)
            == PageRun(Ok(Batch(script[pos].body).value), 1, 1, [url])
  {
    assert Repeat(url, 1) == [url];
    assert Next(script, pos) == script[pos];
    assert Batch(script[pos].body).value + [] == Batch(script[pos].body).value;
  }

  /** An error on any page is rethrown: once the first page succeeds, the
      second page failing on every attempt makes the whole run fail with
      that page's last error, and the first page's items are not returned. */
  lemma FailingPageDiscardsItems(script: seq<Outcome>, first: string, next: string, items: seq<Value>,
                                 retryCount: nat, retryDelay: nat)
    requires first != "" && next != ""
    requires |script| >= 1 && script[0] == Response(PageBody(items, next))
    requires forall i :: 1 <= i <= retryCount + 1 ==> Next(script, i).Failed?
    ensures Paginate(script, 0, Str(first), retryCount, retryDelay)
            == PageRun(Err(Request(Next(script, retryCount + 1).error)), retryCount + 2, 2,
                       [Str(first)] + Repeat(Str(next), retryCount + 1))
  {
    assert Repeat(Str(first), 1) == [Str(first)];
    var body := PageBody(items, next);
    assert Next(script, 0) == Response(body);
    PageBodyFields(items, next);
    RetryShape(script, 1, 1, retryCount, retryDelay);
    var t := RetrySpec(script, 1, 1, retryCount, retryDelay);
    assert t.outcome == Next(script, t.attempts);
  }

  /** One turn of the page loop, unfolded. */
  lemma PaginateStep(script: seq<Outcome>, pos: nat, next: Value, retryCount: nat, retryDelay: nat)
    requires Truthy(next)
    ensures var t := RetrySpec(script, pos, 1, retryCount, retryDelay);
            var run := Paginate(script, pos, next, retryCount, retryDelay);
            t.attempts >= 1
            && (t.outcome.Failed? ==> run == PageRun(Err(Request(t.outcome.error)), t.attempts, 1, Repeat(next, t.attempts)))
            && (t.outcome.Response? && Batch(t.outcome.body).Err?
                ==> run == PageRun(Err(TypeError(Batch(t.outcome.body).error)), t.attempts, 1, Repeat(next, t.attempts)))
            && (t.outcome.Response? && Batch(t.outcome.body).Ok?
                ==> pos + t.attempts <= |script|
                    && var rest := Paginate(script, pos + t.attempts, NextUrl(t.outcome.body), retryCount, retryDelay);
                    run == PageRun(Prepend(Batch(t.outcome.body).value, rest.result), t.attempts + rest.consumed, 1 + rest.pages,
                                   Repeat(next, t.attempts) + rest.urls))
  {
    RetryShape(script, pos, 1, retryCount, retryDelay);
    RetryStopsAtResponse(script, pos, 1, retryCount, retryDelay);
  }

  /** A turn that reads a page goes on from the next link. */
  lemma PaginateGo(script: seq<Outcome>, pos: nat, next: Value, retryCount: nat, retryDelay: nat,
                    body: Value, items: seq<Value>, attempts: nat)
    requires Truthy(next)
    requires RetrySpec(script, pos, 1, retryCount, retryDelay).outcome == Response(body)
    requires RetrySpec(script, pos, 1, retryCount, retryDelay).attempts == attempts
    requires Batch(body) == Ok(items)
    ensures pos < pos + attempts <= |script|
    ensures var rest := Paginate(script, pos + attempts, NextUrl(body), retryCount, retryDelay);
            Paginate(script, pos, next, retryCount, retryDelay)
            == PageRun(Prepend(items, rest.result), attempts + rest.consumed, 1 + rest.pages,
                       Repeat(next, attempts) + rest.urls)
  {
    RetryStopsAtResponse(script, pos, 1, retryCount, retryDelay);
  }

  lemma PrependTwice(a: seq<Value>, b: seq<Value>, r: Result<seq<Value>, PageError>)
    ensures Prepend(a, Prepend(b, r)) == Prepend(a + b, r)
  {
    if r.Ok? {
      assert a + (b + r.value) == (a + b) + r.value;
    }
  }

  /** A URL as `new URL(baseUrl)` holds it: everything before the query, and
      the query's name/value pairs in order. */
  datatype Url = Url(base: string, query: seq<(string, string)>)

  /** A parameter `buildUrl` keeps: anything but `undefined` and `null`. */
  predicate Present(v: Value) {
    !v.Undefined? && !v.Null?
  }

  /** The query pairs `buildUrl` appends, values converted by `String(v)`. */
  function KeptParams(params: Props<Value>): seq<(string, string)> {
    if params == [] then []
    else (if Present(params[0].1) then [(params[0].0, ToString(params[0].1))] else [])
         + KeptParams(params[1..])
  }

  /** Exactly the present parameters are appended, each under its own name
      with its value's string form. */
  lemma {:induction false} KeptParamsExact(params: Props<Value>)
    ensures forall p :: p in KeptParams(params)
              ==> exists v :: (p.0, v) in params && Present(v) && p.1 == ToString(v)
    ensures forall k, v :: (k, v) in params && Present(v) ==> (k, ToString(v)) in KeptParams(params)
    ensures |KeptParams(params)| <= |params|
  {
    if params != [] {
      KeptParamsExact(params[1..]);
      assert forall q :: q in params[1..] ==> q in params;
      assert forall q :: q in params ==> q == params[0] || q in params[1..];
    }
  }

  /** `buildUrl(baseUrl, params)`: append each present parameter in key
      order; nothing else changes. */
  method BuildUrl(baseUrl: Url, params: Props<Value>) returns (url: Url)
    ensures url.base == baseUrl.base
    ensures url.query == baseUrl.query + KeptParams(params)
  {
    url := baseUrl;
    var i := 0;
    while i < |params|
      invariant 0 <= i <= |params|
      invariant url.base == baseUrl.base
      invariant url.query + KeptParams(params[i..]) == baseUrl.query + KeptParams(params)
    {
      assert params[i..][1..] == params[i + 1..];
      var (key, value) := params[i];
      if value != Undefined && value != Null {
        url := url.(query := url.query + [(key, ToString(value))]);
      }
      i := i + 1;
    }
  }

  /** The state of the page loop in `fetchAllPages` after `pages` pages and
      `done` requests at the URLs `urls`: what is left to do from request
      `pos` with link `next`, joined to the items collected and the URLs
      requested so far, is the whole run. */
  ghost predicate LoopState(whole: PageRun, script: seq<Outcome>, pos: nat, next: Value,
                            allData: seq<Value>, pages: nat, done: nat, urls: seq<Value>,
                            retryCount: nat, retryDelay: nat)
  {
    whole == JoinRun(allData, pages, done, urls, Paginate(script, pos, next, retryCount, retryDelay))
  }

  /** The items, pages, requests and URLs so far, followed by the rest of a run. */
  function JoinRun(allData: seq<Value>, pages: nat, done: nat, urls: seq<Value>, rest: PageRun): PageRun {
    PageRun(Prepend(allData, rest.result), done + rest.consumed, pages + rest.pages, urls + rest.urls)
  }

  lemma LoopStart(script: seq<Outcome>, start: nat, url: Value, retryCount: nat, retryDelay: nat)
    ensures LoopState(Paginate(script, start, url, retryCount, retryDelay), script, start, url, [], 0, 0, [],
                      retryCount, retryDelay)
  {
    var whole := Paginate(script, start, url, retryCount, retryDelay);
    if whole.result.Ok? {
      assert [] + whole.result.value == whole.result.value;
    }
    assert [] + whole.urls == whole.urls;
  }

  /** One turn of the loop that reads a page keeps the loop's state. */
  lemma LoopAdvance(whole: PageRun, script: seq<Outcome>, pos: nat, next: Value,
                    allData: seq<Value>, pages: nat, done: nat, urls: seq<Value>, retryCount: nat, retryDelay: nat,
                    body: Value, items: seq<Value>, attempts: nat,
                    pos': nat, next': Value, allData': seq<Value>, pages': nat, done': nat, urls': seq<Value>)
    requires Truthy(next)
    requires LoopState(whole, script, pos, next, allData, pages, done, urls, retryCount, retryDelay)
    requires RetrySpec(script, pos, 1, retryCount, retryDelay).outcome == Response(body)
    requires RetrySpec(script, pos, 1, retryCount, retryDelay).attempts == attempts
    requires Batch(body) == Ok(items)
    requires pos' == pos + attempts && next' == NextUrl(body) && allData' == allData + items
    requires pages' == pages + 1 && done' == done + attempts && urls' == urls + Repeat(next, attempts)
    ensures pos < pos' <= |script|
    ensures LoopState(whole, script, pos', next', allData', pages', done', urls', retryCount, retryDelay)
  {
    PaginateGo(script, pos, next, retryCount, retryDelay, body, items, attempts);
    var rest := Paginate(script, pos', next', retryCount, retryDelay);
    var page := PageRun(Prepend(items, rest.result), attempts + rest.consumed, 1 + rest.pages,
                        Repeat(next, attempts) + rest.urls);
    assert Paginate(script, pos, next, retryCount, retryDelay) == page;
    JoinRuns(allData, pages, done, urls, items, attempts, Repeat(next, attempts), rest);
    assert whole == JoinRun(allData, pages, done, urls, page);
  }

  /** Joining the run so far to one page and then the rest is joining the
      run so far with that page added to the rest. */
  lemma JoinRuns(allData: seq<Value>, pages: nat, done: nat, urls: seq<Value>,
                 items: seq<Value>, attempts: nat, pageUrls: seq<Value>, rest: PageRun)
    ensures JoinRun(allData, pages, done, urls,
                 PageRun(Prepend(items, rest.result), attempts + rest.consumed, 1 + rest.pages, pageUrls + rest.urls))
            == JoinRun(allData + items, pages + 1, done + attempts, urls + pageUrls, rest)
  {
    PrependTwice(allData, items, rest.result);
    assert urls + (pageUrls + rest.urls) == (urls + pageUrls) + rest.urls;
  }

  /** A turn whose request fails for good, or whose body cannot be read,
      ends the whole run with that error. */
  lemma LoopFails(whole: PageRun, script: seq<Outcome>, pos: nat, next: Value,
                  allData: seq<Value>, pages: nat, done: nat, urls: seq<Value>, retryCount: nat, retryDelay: nat)
    requires Truthy(next)
    requires LoopState(whole, script, pos, next, allData, pages, done, urls, retryCount, retryDelay)
    ensures var t := RetrySpec(script, pos, 1, retryCount, retryDelay);
            PageItems(t.outcome).Err?
            ==> whole == PageRun(Err(PageItems(t.outcome).error), done + t.attempts, pages + 1, urls + Repeat(next, t.attempts))
  {
    PaginateStep(script, pos, next, retryCount, retryDelay);
  }

  /** A loop that stops because there is no next link has done the whole run. */
  lemma LoopEnd(whole: PageRun, script: seq<Outcome>, pos: nat, next: Value,
                allData: seq<Value>, pages: nat, done: nat, urls: seq<Value>, retryCount: nat, retryDelay: nat)
    requires !Truthy(next)
    requires LoopState(whole, script, pos, next, allData, pages, done, urls, retryCount, retryDelay)
    ensures whole == PageRun(Ok(allData), done, pages, urls)
  {
    assert allData + [] == allData;
    assert urls + [] == urls;
  }

  /** The helper with its collaborators: the limiter every page passes,
      the clock both of them sleep on, and the transport. */
  class PaginationHelper {
    const rateLimiter: RateLimiter
    const clock: VirtualClock
    const transport: Transport
    const retryCount: nat
    const retryDelay: nat

    constructor (rateLimiter: RateLimiter, clock: VirtualClock, transport: Transport)
      ensures this.rateLimiter == rateLimiter && this.clock == clock && this.transport == transport
      ensures retryCount == RETRY_COUNT && retryDelay == RETRY_DELAY_MS
    {
      this.rateLimiter := rateLimiter;
      this.clock := clock;
      this.transport := transport;
      retryCount := RETRY_COUNT;
      retryDelay := RETRY_DELAY_MS;
    }

    /** `makeRequestWithRetry(url)`: request, and on any failure sleep the
        backoff and try again, at most `retryCount` times. */
    method MakeRequestWithRetry(url: Value) returns (outcome: Outcome)
      modifies transport, clock
      ensures var r := RetrySpec(transport.script, old(transport.served), 1, retryCount, retryDelay);
              outcome == r.outcome
              && transport.served == old(transport.served) + r.attempts
              && transport.requested == old(transport.requested) + Repeat(url, r.attempts)
              && clock.sleeps == old(clock.sleeps) + r.delays
              && clock.now == old(clock.now) + Sum(r.delays)
    {
      ghost var start, script := transport.served, transport.script;
      ghost var requested0, sleeps0, now0 := transport.requested, clock.sleeps, clock.now;
      var attempt := 1;
      outcome := transport.Get(url);
      while outcome.Failed? && attempt <= retryCount
        invariant 1 <= attempt <= retryCount + 1
        invariant transport.served == start + attempt
        invariant outcome == Next(script, start + attempt - 1)
        invariant forall i :: start <= i < start + attempt - 1 ==> Next(script, i).Failed?
        invariant transport.requested == requested0 + Repeat(url, attempt)
        invariant clock.sleeps == sleeps0 + Backoffs(retryDelay, 1, attempt)
        invariant clock.now == now0 + Sum(Backoffs(retryDelay, 1, attempt))
        decreases retryCount + 1 - attempt
      {
        var delay := Backoff(retryDelay, attempt);
        BackoffsSnoc(retryDelay, 1, attempt);
        SumSnoc(Backoffs(retryDelay, 1, attempt), delay);
        clock.Sleep(delay);
        attempt := attempt + 1;
        outcome := transport.Get(url);
      }
      RetryUntil(script, start, 1, attempt, retryCount, retryDelay);
    }

    /** `rateLimiter.execute(() => makeRequestWithRetry(url))`: one limiter
        admission, stamped with the time before any wait, then the request
        with all its retries after the limiter's sleep. */
    method ExecuteRequest(url: Value) returns (outcome: Outcome)
      modifies rateLimiter, clock, transport
      ensures rateLimiter.requestTimes == Prune(old(rateLimiter.requestTimes), old(clock.now)) + [old(clock.now)]
      ensures rateLimiter.admissions == old(rateLimiter.admissions) + [old(clock.now)]
      ensures var w := SleepFor(Prune(old(rateLimiter.requestTimes), old(clock.now)), old(clock.now),
                                rateLimiter.requestsPerMinute);
              var r := RetrySpec(transport.script, old(transport.served), 1, retryCount, retryDelay);
              outcome == r.outcome
              && transport.served == old(transport.served) + r.attempts
              && transport.requested == old(transport.requested) + Repeat(url, r.attempts)
              && clock.sleeps == old(clock.sleeps) + (if w > 0 then [w] else []) + r.delays
              && clock.now == old(clock.now) + w + Sum(r.delays)
      ensures clock.now >= old(clock.now)
    {
      rateLimiter.WaitIfNeeded(clock);
      outcome := MakeRequestWithRetry(url);
    }

    /** One turn of the page loop: the page's request through the limiter,
        then its items (or the error they throw) and its next link. Given
        the loop's state before the turn, it also states the loop's state
        after it, or the whole run's error. */
    method FetchPage(url: Value, ghost whole: PageRun, ghost allData: seq<Value>, ghost pages: nat,
                     ghost done: nat, ghost urls: seq<Value>)
      returns (page: Result<seq<Value>, PageError>, link: Value, ghost attempts: nat)
      requires Truthy(url)
      requires LoopState(whole, transport.script, transport.served, url, allData, pages, done, urls,
                         retryCount, retryDelay)
      modifies rateLimiter, clock, transport
      ensures var t := RetrySpec(transport.script, old(transport.served), 1, retryCount, retryDelay);
              page == PageItems(t.outcome)
              && (page.Ok? ==> link == NextUrl(t.outcome.body))
              && attempts == t.attempts
      ensures transport.served == old(transport.served) + attempts
      ensures transport.requested == old(transport.requested) + Repeat(url, attempts)
      ensures |rateLimiter.admissions| == |old(rateLimiter.admissions)| + 1
      ensures clock.now >= old(clock.now)
      ensures page.Err? ==> whole == PageRun(Err(page.error), done + attempts, pages + 1, urls + Repeat(url, attempts))
      ensures page.Ok? ==> old(transport.served) < transport.served <= |transport.script|
                           && LoopState(whole, transport.script, transport.served, link, allData + page.value,
                                        pages + 1, done + attempts, urls + Repeat(url, attempts),
                                        retryCount, retryDelay)
    {
      ghost var pos := transport.served;
      ghost var t := RetrySpec(transport.script, pos, 1, retryCount, retryDelay);
      LoopFails(whole, transport.script, pos, url, allData, pages, done, urls, retryCount, retryDelay);
      var response := ExecuteRequest(url);
      attempts := t.attempts;
      page := PageItems(response);
      link := if response.Response? then NextUrl(response.body) else Null;
      if page.Ok? {
        LoopAdvance(whole, transport.script, pos, url, allData, pages, done, urls, retryCount, retryDelay,
                    t.outcome.body, page.value, attempts, transport.served, link, allData + page.value,
                    pages + 1, done + attempts, urls + Repeat(url, attempts));
      }
    }

    /** `fetchAllPages(url)`: one limiter admission per page, the page's
        request with retries, its items appended, then on to the next link. */
    method FetchAllPages(url: Value) returns (result: Result<seq<Value>, PageError>)
      modifies rateLimiter, clock, transport
      ensures var run := Paginate(transport.script, old(transport.served), url, retryCount, retryDelay);
              result == run.result
              && transport.served == old(transport.served) + run.consumed
              && transport.requested == old(transport.requested) + run.urls
              && |rateLimiter.admissions| == |old(rateLimiter.admissions)| + run.pages
      ensures clock.now >= old(clock.now)
    {
      ghost var script := transport.script;
      ghost var start := transport.served;
      ghost var requested0 := transport.requested;
      ghost var urls: seq<Value> := [];
      ghost var admitted := |rateLimiter.admissions|;
      ghost var whole := Paginate(script, start, url, retryCount, retryDelay);
      var allData: seq<Value> := [];
      var nextUrl := url;
      ghost var pages, done := 0, 0;
      LoopStart(script, start, url, retryCount, retryDelay);
      while Truthy(nextUrl)
        invariant transport.script == script
        invariant clock.now >= old(clock.now)
        invariant transport.served == start + done
        invariant transport.requested == requested0 + urls
        invariant LoopState(whole, script, transport.served, nextUrl, allData, pages, done, urls, retryCount, retryDelay)
        invariant |rateLimiter.admissions| == admitted + pages
        decreases |script| - transport.served
      {
        var page, link, attempts := FetchPage(nextUrl, whole, allData, pages, done, urls);
        if page.Err? {
          result := Err(page.error);
          return;
        }
        pages, done, urls := pages + 1, done + attempts, urls + Repeat(nextUrl, attempts);
        allData := allData + page.value;
        nextUrl := link;
      }
      LoopEnd(whole, script, transport.served, nextUrl, allData, pages, done, urls, retryCount, retryDelay);
      result := Ok(allData);
    }
  }

  /** `fetchAllPages(url)` followed by `.map(process)`: an error from paging,
      or an item whose properties cannot be read, makes the fetch throw. */
  function Fetched<R>(page: Result<seq<Value>, PageError>, process: Value -> R): (r: Result<seq<R>, PageError>)
    ensures r.Ok? <==> page.Ok? && forall i :: 0 <= i < |page.value| ==> Readable(page.value[i])
    ensures r.Ok? ==> |r.value| == |page.value|
                      && forall i :: 0 <= i < |r.value| ==> r.value[i] == process(page.value[i])
  {
    match page
    case Err(e) => Err(e)
    case Ok(items) =>
      if forall i :: 0 <= i < |items| ==> Readable(items[i])
      then Ok(seq(|items|, i requires 0 <= i < |items| => process(items[i])))
      else Err(TypeError("Cannot read properties of null"))
  }

  /** `response.data.<field> || response.data` for a single request whose
      failure is caught and read as `null`; a body without properties throws
      on the read and is caught the same way. */
  function FieldOrBody(response: Result<Value, PageError>, field: string): (v: Value)
    ensures v.Null? <==> response.Err? || !Readable(response.value)
    ensures !v.Undefined?
    ensures response.Ok? && Truthy(Get(response.value, field)) ==> v == Get(response.value, field)
    ensures response.Ok? && Readable(response.value) && !Truthy(Get(response.value, field)) ==> v == response.value
  {
    match response
    case Err(_) => Null
    case Ok(body) => if Readable(body) then Or(Get(body, field), body) else Null
  }
}
