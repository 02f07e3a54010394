/**
 * PolygonPaginator: a per-instance rate limiter and the fetch loop that
 * follows `next_url` cursors and retries on HTTP 429.
 *
 * The HTTP exchange is an injected queue of responses (`server`), each
 * carrying the clock reading taken when it arrived, in integer
 * milliseconds; `asyncio.sleep` is a recorded `Slept` event.
 */
module Polygon {
  import opened Common

  /** Requests allowed before the paginator sleeps (MAX_QUERY_PER_MINUTE). */
  const MaxQueryPerMinute: int := 4
  /** The longest sleep, one quota window, in seconds. */
  const FullWindowSeconds: int := 60
  const MillisPerSecond: int := 1000
  /** The query parameter that carries the credential. */
  const ApiKeyParam: string := "apiKey"

  type Params = map<string, string>

  /** One element of `query_time_log`. */
  datatype LogEntry = LogEntry(requestId: Option<string>, timestamp: int)

  /** What one `requests.get` returns, reduced to what the loop reads. */
  datatype Response = Response(
    status: int,
    requestId: Option<string>,
    nextUrl: Option<string>,
    body: string,
    receivedAt: int)

  /** The externally visible effects, in order. */
  datatype Event = Slept(seconds: int) | Requested(url: string, params: Params)

  /** How `query_all` ends: normally, by `raise_for_status`, because no response came, or by an AttributeError. */
  datatype Outcome = Finished | HttpError(status: int) | ConnectionFailed | MissingAttribute

  /** The paginator's fields, with the effects so far and the responses still to come. */
  datatype PagerState = PagerState(
    count: int,
    log: seq<LogEntry>,
    results: seq<string>,
    events: seq<Event>,
    server: seq<Response>)

  /** The limiter's invariant: the counter counts the log and never passes the limit. */
  ghost predicate Accounted(s: PagerState)
  {
    s.count == |s.log| && 0 <= s.count <= MaxQueryPerMinute
  }

  /** Python truthiness of `response.get("next_url")`. */
  predicate Present(url: Option<string>)
  {
    url.Some? && url.value != ""
  }

  /**
   * `_api_sleep_time`: a full window unless at least three requests are
   * logged, else the span from the first to the last, rounded up to whole
   * seconds and capped at a full window.
   */
  function SleepTime(log: seq<LogEntry>): (seconds: int)
    ensures seconds <= FullWindowSeconds
    ensures |log| <= 2 ==> seconds == FullWindowSeconds
  {
    if |log| > 2 then
      Min(CeilDiv(log[|log| - 1].timestamp - log[0].timestamp, MillisPerSecond), FullWindowSeconds)
    else
      FullWindowSeconds
  }

  /** Sleep and reset when the counter reached the limit or an overload was signalled. */
  function Throttle(s: PagerState, overload: bool): PagerState
  {
    if s.count >= MaxQueryPerMinute || overload then
      s.(count := 0, log := [], events := s.events + [Slept(SleepTime(s.log))])
    else
      s
  }

  function Send(s: PagerState, url: string, params: Params): PagerState
  {
    s.(events := s.events + [Requested(url, params)])
  }

  function Entry(r: Response): LogEntry
  {
    LogEntry(r.requestId, r.receivedAt)
  }

  /** Take the next response and log it; its status is not looked at yet. */
  function Record(s: PagerState): PagerState
    requires s.server != []
  {
    s.(server := s.server[1..], log := s.log + [Entry(s.server[0])], count := s.count + 1)
  }

  /** Where one pass of query_all's body leaves off: returning, or calling itself again. */
  datatype Next =
    | Stop(state: PagerState, outcome: Outcome)
    | Continue(state: PagerState, url: string, payload: Params, overload: bool)

  /** One pass of query_all's body, up to the recursive call it makes, if any. */
  function Step(s: PagerState, url: string, payload: Params, overload: bool, apiKey: string): (n: Next)
    ensures n.Continue? ==> |n.state.server| < |s.server|
  {
    var params := payload[ApiKeyParam := apiKey];
    var sent := Send(Throttle(s, overload), url, params);
    if sent.server == [] then Stop(sent, ConnectionFailed)
    else
      var response := sent.server[0];
      var logged := Record(sent);
      if response.status == 200 then
        var stored := logged.(results := logged.results + [response.body]);
        if Present(response.nextUrl) then Continue(stored, response.nextUrl.value, map[], false)
        else Stop(stored, Finished)
      else if response.status == 429 then
        Continue(logged, url, params, true)
      else if 400 <= response.status < 600 then
        Stop(logged, HttpError(response.status))
      else
        Stop(logged, Finished)
  }

  /** `query_all(url, payload, overload)`, with the effects it has and how it ends. */
  function Fetch(s: PagerState, url: string, payload: Params, overload: bool, apiKey: string): (PagerState, Outcome)
    decreases |s.server|
  {
    match Step(s, url, payload, overload, apiKey)
    case Stop(r, outcome) => (r, outcome)
    case Continue(next, nextUrl, nextPayload, nextOverload) => Fetch(next, nextUrl, nextPayload, nextOverload, apiKey)
  }

  /** The bodies of the 200 responses, in order. */
  function OkBodies(rs: seq<Response>): seq<string>
  {
    if rs == [] then []
    else (if rs[0].status == 200 then [rs[0].body] else []) + OkBodies(rs[1..])
  }

  function Entries(rs: seq<Response>): (es: seq<LogEntry>)
    ensures |es| == |rs| && forall i :: 0 <= i < |rs| ==> es[i] == Entry(rs[i])
  {
    seq(|rs|, i requires 0 <= i < |rs| => Entry(rs[i]))
  }

  /** The urls requested, in order. */
  function RequestedUrls(es: seq<Event>): seq<string>
  {
    if es == [] then []
    else (if es[0].Requested? then [es[0].url] else []) + RequestedUrls(es[1..])
  }

  ghost predicate IsSuffix<T>(a: seq<T>, b: seq<T>)
  {
    |a| <= |b| && a == b[|b| - |a|..]
  }

  lemma {:induction false} RequestedUrlsAppend(a: seq<Event>, b: seq<Event>)
    ensures RequestedUrls(a + b) == RequestedUrls(a) + RequestedUrls(b)
  {
    if a != [] {
      assert (a + b)[0] == a[0];
      assert (a + b)[1..] == a[1..] + b;
      RequestedUrlsAppend(a[1..], b);
    } else {
      assert a + b == b;
    }
  }

  /** With three or more samples the sleep is the sampled span rounded up, capped at a full window. */
  lemma SleepTimeAdapts(log: seq<LogEntry>)
    requires |log| > 2
    ensures var span := log[|log| - 1].timestamp - log[0].timestamp;
            var q := SleepTime(log);
            && (q < FullWindowSeconds ==> (q - 1) * MillisPerSecond < span <= q * MillisPerSecond)
            && (q == FullWindowSeconds <==> span > (FullWindowSeconds - 1) * MillisPerSecond)
  {
  }

  ghost predicate NonDecreasing(log: seq<LogEntry>)
  {
    forall i, j :: 0 <= i <= j < |log| ==> log[i].timestamp <= log[j].timestamp
  }

  /** On a clock that does not run backwards the sleep lies within one window. */
  lemma SleepTimeWithinWindow(log: seq<LogEntry>)
    requires NonDecreasing(log)
    ensures 0 <= SleepTime(log) <= FullWindowSeconds
  {
    if |log| > 2 {
      assert log[0].timestamp <= log[|log| - 1].timestamp;
    }
  }

  /** Three samples spread over five seconds give a five-second sleep. */
  lemma SleepTimeFiveSeconds(log: seq<LogEntry>, t: int)
    requires |log| >= 3 && log[0].timestamp == t && log[|log| - 1].timestamp == t + 5 * MillisPerSecond
    ensures SleepTime(log) == 5
  {
  }

  lemma SuffixChain<T>(r: seq<T>, t: seq<T>, s: seq<T>, c: seq<T>)
    requires IsSuffix(r, t + c) && IsSuffix(t, s)
    ensures IsSuffix(r, s + c)
  {
    assert (s + c)[|s + c| - |t + c|..] == t + c;
  }

  lemma StepEvents(s: PagerState, url: string, payload: Params, overload: bool, apiKey: string)
    ensures Step(s, url, payload, overload, apiKey).state.events
         == Send(Throttle(s, overload), url, payload[ApiKeyParam := apiKey]).events
  {
  }

  lemma StepAccounting(s: PagerState, url: string, payload: Params, overload: bool, apiKey: string)
    requires Accounted(s)
    ensures Accounted(Step(s, url, payload, overload, apiKey).state)
  {
  }

  lemma StepNoResponse(s: PagerState, url: string, payload: Params, overload: bool, apiKey: string)
    requires s.server == []
    ensures var n := Step(s, url, payload, overload, apiKey);
            && n == Stop(n.state, ConnectionFailed)
            && n.state.server == [] && n.state.results == s.results && IsSuffix(n.state.log, s.log)
  {
  }

  lemma StepResults(s: PagerState, url: string, payload: Params, overload: bool, apiKey: string)
    requires s.server != []
    ensures Step(s, url, payload, overload, apiKey).state.server == s.server[1..]
    ensures Step(s, url, payload, overload, apiKey).state.results == s.results + OkBodies(s.server[..1])
  {
    assert OkBodies(s.server[..1]) == if s.server[0].status == 200 then [s.server[0].body] else [];
  }

  /**
   * Every response is logged and counted before its status is looked at:
   * the log after one pass is the (possibly reset) log plus exactly one
   * entry, and the counter grows by one.
   */
  lemma StepLog(s: PagerState, url: string, payload: Params, overload: bool, apiKey: string)
    requires s.server != []
    ensures var n := Step(s, url, payload, overload, apiKey);
            && n.state.log == Throttle(s, overload).log + [Entry(s.server[0])]
            && n.state.count == Throttle(s, overload).count + 1
            && IsSuffix(n.state.log, s.log + [Entry(s.server[0])])
  {
    var n := Step(s, url, payload, overload, apiKey);
    var logged := Record(Send(Throttle(s, overload), url, payload[ApiKeyParam := apiKey]));
    assert n.state.log == logged.log && n.state.count == logged.count;
    ThrottleSuffix(s, overload, Entry(s.server[0]));
  }

  /** The throttle keeps the log or clears it, so what follows it extends a suffix of the old log. */
  lemma ThrottleSuffix(s: PagerState, overload: bool, e: LogEntry)
    ensures IsSuffix(Throttle(s, overload).log + [e], s.log + [e])
  {
    if Throttle(s, overload).log == [] {
      assert (s.log + [e])[|s.log|..] == [e];
    }
  }

  /** A 429 is logged and counted like any response, then the same url and parameters are sent again with the overload flag. */
  lemma StepOnTooManyRequests(s: PagerState, url: string, payload: Params, overload: bool, apiKey: string)
    requires s.server != [] && s.server[0].status == 429
    ensures var n := Step(s, url, payload, overload, apiKey);
            && n.Continue? && n.url == url && n.payload == payload[ApiKeyParam := apiKey] && n.overload
            && n.state.server == s.server[1..] && n.state.results == s.results
            && n.state.log == Throttle(s, overload).log + [Entry(s.server[0])]
            && n.state.count == Throttle(s, overload).count + 1
  {
  }

  /** `r` is `s` after taking a prefix of its responses and storing the 200 bodies among them. */
  ghost predicate Consumed(s: PagerState, r: PagerState)
  {
    && |r.server| <= |s.server|
    && r.server == s.server[|s.server| - |r.server|..]
    && r.results == s.results + OkBodies(s.server[..|s.server| - |r.server|])
  }

  /** The log of `r` is the tail of that of `s` followed by an entry for each response taken. */
  ghost predicate Logged(s: PagerState, r: PagerState)
  {
    |r.server| <= |s.server| && IsSuffix(r.log, s.log + Entries(s.server[..|s.server| - |r.server|]))
  }

  lemma NothingTaken(s: PagerState)
    ensures Consumed(s, s) && Logged(s, s)
  {
    assert s.server[..0] == [];
    assert s.log + Entries([]) == s.log;
  }

  lemma EntriesAppend(a: seq<Response>, b: seq<Response>)
    ensures Entries(a + b) == Entries(a) + Entries(b)
  {
  }

  /** Taking one response and then a prefix of the rest takes a prefix of the whole. */
  lemma ConsumedStep(s: PagerState, t: PagerState, r: PagerState)
    requires s.server != [] && t.server == s.server[1..] && t.results == s.results + OkBodies(s.server[..1])
    requires Consumed(t, r)
    ensures Consumed(s, r)
  {
    var m := |t.server| - |r.server|;
    assert s.server[..m + 1][1..] == t.server[..m];
    assert OkBodies(s.server[..1]) + OkBodies(t.server[..m]) == OkBodies(s.server[..m + 1]);
  }

  /** Logging one response and then a run of further ones logs the whole run. */
  lemma LoggedStep(s: PagerState, t: PagerState, r: PagerState)
    requires s.server != [] && t.server == s.server[1..] && IsSuffix(t.log, s.log + [Entry(s.server[0])])
    requires Logged(t, r)
    ensures Logged(s, r)
  {
    var m := |t.server| - |r.server|;
    assert s.server[..m + 1] == [s.server[0]] + t.server[..m];
    EntriesAppend([s.server[0]], t.server[..m]);
    SuffixChain(r.log, t.log, s.log + [Entry(s.server[0])], Entries(t.server[..m]));
  }

  lemma FetchStops(s: PagerState, url: string, payload: Params, overload: bool, apiKey: string)
    requires Step(s, url, payload, overload, apiKey).Stop?
    ensures var n := Step(s, url, payload, overload, apiKey);
            Fetch(s, url, payload, overload, apiKey) == (n.state, n.outcome)
  {
  }

  lemma FetchContinues(s: PagerState, url: string, payload: Params, overload: bool, apiKey: string)
    requires Step(s, url, payload, overload, apiKey).Continue?
    ensures var n := Step(s, url, payload, overload, apiKey);
            Fetch(s, url, payload, overload, apiKey) == Fetch(n.state, n.url, n.payload, n.overload, apiKey)
  {
  }

  /** query_all keeps the counter equal to the log's length and within the limit. */
  lemma {:induction false} FetchKeepsAccounting(s: PagerState, url: string, payload: Params, overload: bool, apiKey: string)
    requires Accounted(s)
    ensures Accounted(Fetch(s, url, payload, overload, apiKey).0)
    decreases |s.server|
  {
    var n := Step(s, url, payload, overload, apiKey);
    StepAccounting(s, url, payload, overload, apiKey);
    if n.Continue? {
      FetchKeepsAccounting(n.state, n.url, n.payload, n.overload, apiKey);
      FetchContinues(s, url, payload, overload, apiKey);
    } else {
      FetchStops(s, url, payload, overload, apiKey);
    }
  }

  /**
   * query_all consumes a prefix of the responses and stores the body of
   * every 200 among them, in order, and nothing else.
   */
  lemma {:induction false} FetchConsumes(s: PagerState, url: string, payload: Params, overload: bool, apiKey: string)
    ensures Consumed(s, Fetch(s, url, payload, overload, apiKey).0)
    decreases |s.server|
  {
    var n := Step(s, url, payload, overload, apiKey);
    if s.server == [] {
      StepNoResponse(s, url, payload, overload, apiKey);
      FetchStops(s, url, payload, overload, apiKey);
      NothingTaken(s);
    } else {
      StepResults(s, url, payload, overload, apiKey);
      if n.Stop? {
        FetchStops(s, url, payload, overload, apiKey);
        NothingTaken(n.state);
        ConsumedStep(s, n.state, n.state);
      } else {
        FetchConsumes(n.state, n.url, n.payload, n.overload, apiKey);
        FetchContinues(s, url, payload, overload, apiKey);
        ConsumedStep(s, n.state, Fetch(n.state, n.url, n.payload, n.overload, apiKey).0);
      }
    }
  }

  /** query_all only appends events. */
  lemma {:induction false} FetchAppendsEvents(s: PagerState, url: string, payload: Params, overload: bool, apiKey: string)
    ensures s.events <= Fetch(s, url, payload, overload, apiKey).0.events
    decreases |s.server|
  {
    var n := Step(s, url, payload, overload, apiKey);
    StepEvents(s, url, payload, overload, apiKey);
    if n.Continue? {
      FetchAppendsEvents(n.state, n.url, n.payload, n.overload, apiKey);
      FetchContinues(s, url, payload, overload, apiKey);
    } else {
      FetchStops(s, url, payload, overload, apiKey);
    }
  }

  /** The log query_all leaves is the tail of the old log followed by one entry per response it took. */
  lemma {:induction false} FetchLogsResponses(s: PagerState, url: string, payload: Params, overload: bool, apiKey: string)
    ensures Logged(s, Fetch(s, url, payload, overload, apiKey).0)
    decreases |s.server|
  {
    var n := Step(s, url, payload, overload, apiKey);
    if s.server == [] {
      StepNoResponse(s, url, payload, overload, apiKey);
      FetchStops(s, url, payload, overload, apiKey);
      assert Entries(s.server[..0]) == [];
    } else {
      StepResults(s, url, payload, overload, apiKey);
      StepLog(s, url, payload, overload, apiKey);
      if n.Stop? {
        FetchStops(s, url, payload, overload, apiKey);
        NothingTaken(n.state);
        LoggedStep(s, n.state, n.state);
      } else {
        FetchLogsResponses(n.state, n.url, n.payload, n.overload, apiKey);
        FetchContinues(s, url, payload, overload, apiKey);
        LoggedStep(s, n.state, Fetch(n.state, n.url, n.payload, n.overload, apiKey).0);
      }
    }
  }

  /** `r` took at least one response of `s`, and its log ends with the entry of the last one taken. */
  ghost predicate EndsWithLast(s: PagerState, r: PagerState)
  {
    && |r.server| < |s.server| && r.log != []
    && r.log[|r.log| - 1] == Entry(s.server[|s.server| - |r.server| - 1])
  }

  lemma StepEndsWithLast(s: PagerState, url: string, payload: Params, overload: bool, apiKey: string)
    requires s.server != []
    ensures EndsWithLast(s, Step(s, url, payload, overload, apiKey).state)
  {
    var n := Step(s, url, payload, overload, apiKey);
    StepLog(s, url, payload, overload, apiKey);
    StepResults(s, url, payload, overload, apiKey);
    assert |s.server| - |n.state.server| - 1 == 0;
  }

  /** Taking one response and then some further ones ends with the last of the further ones. */
  lemma LastStep(s: PagerState, t: PagerState, r: PagerState)
    requires s.server != [] && t.server == s.server[1..] && EndsWithLast(t, r)
    ensures EndsWithLast(s, r)
  {
    var m := |t.server| - |r.server| - 1;
    assert t.server[m] == s.server[m + 1];
  }

  /**
   * Unless query_all ended for want of a response, it took at least one,
   * and its log ends with the entry of the last response it took, whatever
   * that response's status.
   */
  lemma {:induction false} FetchLogsLast(s: PagerState, url: string, payload: Params, overload: bool, apiKey: string)
    ensures Fetch(s, url, payload, overload, apiKey).1 != ConnectionFailed ==>
              EndsWithLast(s, Fetch(s, url, payload, overload, apiKey).0)
    decreases |s.server|
  {
    var n := Step(s, url, payload, overload, apiKey);
    if s.server == [] {
      StepNoResponse(s, url, payload, overload, apiKey);
      FetchStops(s, url, payload, overload, apiKey);
    } else if n.Stop? {
      StepEndsWithLast(s, url, payload, overload, apiKey);
      FetchStops(s, url, payload, overload, apiKey);
    } else {
      StepResults(s, url, payload, overload, apiKey);
      FetchLogsLast(n.state, n.url, n.payload, n.overload, apiKey);
      FetchContinues(s, url, payload, overload, apiKey);
      if Fetch(s, url, payload, overload, apiKey).1 != ConnectionFailed {
        LastStep(s, n.state, Fetch(s, url, payload, overload, apiKey).0);
      }
    }
  }

  /** The responses open with a chain of k pages: all 200, each but the last naming a next page. */
  ghost predicate PageChain(rs: seq<Response>, k: int)
  {
    && 1 <= k <= |rs|
    && (forall i :: 0 <= i < k ==> rs[i].status == 200)
    && (forall i :: 0 <= i < k - 1 ==> Present(rs[i].nextUrl))
    && !Present(rs[k - 1].nextUrl)
  }

  function Bodies(rs: seq<Response>): (bs: seq<string>)
    ensures |bs| == |rs| && forall i :: 0 <= i < |rs| ==> bs[i] == rs[i].body
  {
    seq(|rs|, i requires 0 <= i < |rs| => rs[i].body)
  }

  function NextUrls(rs: seq<Response>): (us: seq<string>)
    requires forall i :: 0 <= i < |rs| ==> Present(rs[i].nextUrl)
    ensures |us| == |rs| && forall i :: 0 <= i < |rs| ==> Present(rs[i].nextUrl) && us[i] == rs[i].nextUrl.value
  {
    seq(|rs|, i requires 0 <= i < |rs| && Present(rs[i].nextUrl) => rs[i].nextUrl.value)
  }

  /** One pass over a 200 response stores its body, requests once, and goes on exactly when it names a next page. */
  lemma StepOnPage(s: PagerState, url: string, payload: Params, overload: bool, apiKey: string)
    requires s.server != [] && s.server[0].status == 200
    ensures var n := Step(s, url, payload, overload, apiKey);
            && n.state.server == s.server[1..]
            && n.state.results == s.results + [s.server[0].body]
            && RequestedUrls(n.state.events) == RequestedUrls(s.events) + [url]
            && (Present(s.server[0].nextUrl) ==> n == Continue(n.state, s.server[0].nextUrl.value, map[], false))
            && (!Present(s.server[0].nextUrl) ==> n == Stop(n.state, Finished))
  {
    var params := payload[ApiKeyParam := apiKey];
    var throttled := Throttle(s, overload);
    RequestedUrlsAppend(throttled.events, [Requested(url, params)]);
    if s.events != throttled.events {
      RequestedUrlsAppend(s.events, [Slept(SleepTime(s.log))]);
    }
  }

  /** Joining the first page to a chain of k - 1 further pages. */
  lemma ChainPrefix(rs: seq<Response>, k: int, res: seq<string>, urls: seq<string>, url: string,
                    ures: seq<string>, uurls: seq<string>)
    requires 1 < k <= |rs| && forall i :: 0 <= i < k - 1 ==> Present(rs[i].nextUrl)
    requires Present(rs[0].nextUrl)
    requires ures == res + [rs[0].body] + Bodies(rs[1..][..k - 1])
    requires uurls == urls + [url] + [rs[0].nextUrl.value] + NextUrls(rs[1..][..k - 2])
    ensures ures == res + Bodies(rs[..k])
    ensures uurls == urls + [url] + NextUrls(rs[..k - 1])
  {
    assert Bodies(rs[..k]) == [rs[0].body] + Bodies(rs[1..][..k - 1]);
    assert NextUrls(rs[..k - 1]) == [rs[0].nextUrl.value] + NextUrls(rs[1..][..k - 2]);
  }

  lemma PageChainTail(rs: seq<Response>, k: int)
    requires PageChain(rs, k) && k > 1
    ensures PageChain(rs[1..], k - 1) && Present(rs[0].nextUrl)
  {
  }

  /**
   * A chain of k pages takes exactly k requests, to the given url and then
   * to each page's next_url, and stores the k bodies in page order.
   */
  lemma {:induction false} FollowsPageChain(s: PagerState, url: string, payload: Params, overload: bool, apiKey: string, k: int)
    requires PageChain(s.server, k)
    ensures var (r, outcome) := Fetch(s, url, payload, overload, apiKey);
            && outcome == Finished
            && r.server == s.server[k..]
            && r.results == s.results + Bodies(s.server[..k])
            && RequestedUrls(r.events) == RequestedUrls(s.events) + [url] + NextUrls(s.server[..k - 1])
    decreases k
  {
    StepOnPage(s, url, payload, overload, apiKey);
    var n := Step(s, url, payload, overload, apiKey);
    var t := n.state;
    if k > 1 {
      PageChainTail(s.server, k);
      var next := s.server[0].nextUrl.value;
      FollowsPageChain(t, next, map[], false, apiKey, k - 1);
      var r := Fetch(t, next, map[], false, apiKey).0;
      FetchContinues(s, url, payload, overload, apiKey);
      ChainPrefix(s.server, k, s.results, RequestedUrls(s.events), url, r.results, RequestedUrls(r.events));
    } else {
      FetchStops(s, url, payload, overload, apiKey);
      assert s.server[..k] == [s.server[0]];
    }
  }

  /** HTTP 429 then a final page: one retry of the same request after an overload sleep. */
  lemma RetriesOnceAfterTooManyRequests(s: PagerState, url: string, payload: Params, apiKey: string)
    requires Accounted(s) && s.count < MaxQueryPerMinute
    requires |s.server| >= 2 && s.server[0].status == 429
    requires s.server[1].status == 200 && !Present(s.server[1].nextUrl)
    ensures var (r, outcome) := Fetch(s, url, payload, false, apiKey);
            var params := payload[ApiKeyParam := apiKey];
            && outcome == Finished
            && r.results == s.results + [s.server[1].body]
            && r.events == s.events + [Requested(url, params),
                                       Slept(SleepTime(s.log + [Entry(s.server[0])])),
                                       Requested(url, params)]
            && r.log == [Entry(s.server[1])] && r.count == 1
            && r.server == s.server[2..]
  {
    var params := payload[ApiKeyParam := apiKey];
    var logged := Record(Send(s, url, params));
    assert params[ApiKeyParam := apiKey] == params;
    assert Step(s, url, payload, false, apiKey) == Continue(logged, url, params, true);
    var retried := Record(Send(Throttle(logged, true), url, params));
    assert Step(logged, url, params, true, apiKey)
        == Stop(retried.(results := retried.results + [s.server[1].body]), Finished);
  }

  /** A client or server error status raises, after logging the response and storing nothing. */
  lemma ErrorStatusRaises(s: PagerState, url: string, payload: Params, overload: bool, apiKey: string)
    requires s.server != [] && s.server[0].status != 429 && 400 <= s.server[0].status < 600
    ensures var (r, outcome) := Fetch(s, url, payload, overload, apiKey);
            && outcome == HttpError(s.server[0].status)
            && r.results == s.results
            && r.server == s.server[1..]
            && r.log == Throttle(s, overload).log + [Entry(s.server[0])]
            && r.count == Throttle(s, overload).count + 1
  {
  }

  /** Any other status that is neither 200 nor 429 ends the loop quietly, storing nothing. */
  lemma OtherStatusEndsQuietly(s: PagerState, url: string, payload: Params, overload: bool, apiKey: string)
    requires s.server != [] && s.server[0].status != 200 && s.server[0].status != 429
    requires !(400 <= s.server[0].status < 600)
    ensures var (r, outcome) := Fetch(s, url, payload, overload, apiKey);
            outcome == Finished && r.results == s.results && r.server == s.server[1..]
  {
  }

  /**
   * The first effect of query_all is a sleep exactly when the counter has
   * reached the limit or an overload is signalled, and that sleep is
   * computed from the log as it was.
   */
  lemma ThrottlesWhenDue(s: PagerState, url: string, payload: Params, overload: bool, apiKey: string)
    ensures var r := Fetch(s, url, payload, overload, apiKey).0;
            && |r.events| > |s.events|
            && (r.events[|s.events|].Slept? <==> s.count >= MaxQueryPerMinute || overload)
            && (s.count >= MaxQueryPerMinute || overload ==> r.events[|s.events|] == Slept(SleepTime(s.log)))
  {
    var n := Step(s, url, payload, overload, apiKey);
    StepEvents(s, url, payload, overload, apiKey);
    if n.Continue? {
      FetchAppendsEvents(n.state, n.url, n.payload, n.overload, apiKey);
      FetchContinues(s, url, payload, overload, apiKey);
    } else {
      FetchStops(s, url, payload, overload, apiKey);
    }
  }

  /**
   * The paginator object. Its methods change the fields in place;
   * `server` supplies the responses and `events` records sleeps and requests.
   */
  class Paginator {
    var queryCount: int
    var queryTimeLog: seq<LogEntry>
    var results: seq<string>
    var events: seq<Event>
    var server: seq<Response>
    const apiKey: string

    function State(): PagerState
      reads this
    {
      PagerState(queryCount, queryTimeLog, results, events, server)
    }

    ghost predicate Valid()
      reads this
    {
      Accounted(State())
    }

    constructor (apiKey: string, server: seq<Response>)
      ensures Valid()
      ensures State() == PagerState(0, [], [], [], server) && this.apiKey == apiKey
    {
      this.apiKey := apiKey;
      this.server := server;
      queryCount := 0;
      queryTimeLog := [];
      results := [];
      events := [];
    }

    /** `query_all`: throttle if due, send, log, then store and follow, retry, or raise. */
    method QueryAll(url: string, payload: Params, overload: bool) returns (outcome: Outcome)
      requires Valid()
      modifies this
      ensures Valid()
      ensures (State(), outcome) == Fetch(old(State()), url, payload, overload, apiKey)
      decreases |server|
    {
      var params := payload[ApiKeyParam := apiKey];
      if queryCount >= MaxQueryPerMinute || overload {
        events := events + [Slept(SleepTime(queryTimeLog))];
        queryCount := 0;
        queryTimeLog := [];
      }
      events := events + [Requested(url, params)];
      if server == [] {
        return ConnectionFailed;
      }
      var response := server[0];
      server := server[1..];
      queryTimeLog := queryTimeLog + [Entry(response)];
      queryCount := queryCount + 1;
      if response.status == 200 {
        results := results + [response.body];
        if Present(response.nextUrl) {
          outcome := QueryAll(response.nextUrl.value, map[], false);
        } else {
          outcome := Finished;
        }
      } else if response.status == 429 {
        outcome := QueryAll(url, params, true);
      } else if 400 <= response.status < 600 {
        outcome := HttpError(response.status);
      } else {
        outcome := Finished;
      }
    }
  }

  /**
   * query_all as written: `response.get(...)` is called on a requests
   * Response, which has no `get`, so every call raises AttributeError right
   * after the request is sent, before anything is logged or stored.
   */
  function FetchAsWritten(s: PagerState, url: string, payload: Params, overload: bool, apiKey: string): (r: (PagerState, Outcome))
    ensures r.0.results == s.results && r.0.log == Throttle(s, overload).log
    ensures r.1 == MissingAttribute || r.1 == ConnectionFailed
  {
    var sent := Send(Throttle(s, overload), url, payload[ApiKeyParam := apiKey]);
    if sent.server == [] then (sent, ConnectionFailed)
    else (sent.(server := sent.server[1..]), MissingAttribute)
  }

  /** On a first page with status 200, the code as written stores nothing where the intended loop stores the page. */
  lemma AsWrittenDropsFirstPage(s: PagerState, url: string, payload: Params, overload: bool, apiKey: string)
    requires s.server != [] && s.server[0].status == 200
    ensures |Fetch(s, url, payload, overload, apiKey).0.results| > |s.results|
    ensures Fetch(s, url, payload, overload, apiKey).0.results[|s.results|] == s.server[0].body
    ensures FetchAsWritten(s, url, payload, overload, apiKey).0.results == s.results
    ensures FetchAsWritten(s, url, payload, overload, apiKey).1 == MissingAttribute
  {
    var n := Step(s, url, payload, overload, apiKey);
    StepResults(s, url, payload, overload, apiKey);
    assert OkBodies(s.server[..1]) == [s.server[0].body];
    if n.Continue? {
      FetchConsumes(n.state, n.url, n.payload, n.overload, apiKey);
      FetchContinues(s, url, payload, overload, apiKey);
    } else {
      FetchStops(s, url, payload, overload, apiKey);
    }
  }
}
