/**
 * The Wix REST client policy of wix_client.py: credential resolution in the constructor, request
 * headers, the bounded retry loop of `_request`, the payloads of `list_events` and
 * `create_ticket_definition`, and the title search. The network is not modelled: a request sees
 * the outcome of each attempt as a given function of the attempt number.
 */
module WixApi {
  import opened Wrappers
  import opened Text
  import opened Config

  // ----- events as the Wix listing returns them -----

  /** The members of a listed Wix event that the tools read; each may be absent. */
  datatype WixEvent = WixEvent(
    id: Option<string>,
    title: Option<string>,
    startDate: Option<string>,   // dateAndTimeSettings.startDate
    status: Option<string>)

  /** `event.get('title', '')`. */
  function TitleOf(e: WixEvent): string {
    e.title.GetOr("")
  }

  /** `event.get('dateAndTimeSettings', {}).get('startDate', '')`. */
  function StartOf(e: WixEvent): string {
    e.startDate.GetOr("")
  }

  // ----- constructor -----

  /** `os.getenv(name)`. */
  function Getenv(env: map<string, string>, name: string): Option<string> {
    if name in env then Some(env[name]) else None
  }

  /** Python `a or b` on optional strings. */
  function OrElse(a: Option<string>, b: Option<string>): (r: Option<string>)
    ensures Present(a) ==> r == a
    ensures !Present(a) ==> r == b
  {
    if Present(a) then a else b
  }

  datatype Mode = Development | Production

  /** The credentials a client ends up with, and the mode they were read in. */
  datatype ClientSettings = ClientSettings(apiKey: Option<string>, siteId: Option<string>,
                                           accountId: Option<string>, mode: Mode)

  /**
   * The credential resolution of `__init__`: development mode is asked for by `use_dev`, or by
   * ENV_MODE=development when `use_dev` is None; it is used only when DEV_WIX_API_KEY is set. In
   * either mode an explicit argument wins over the environment.
   */
  function ResolveSettings(apiKey: Option<string>, siteId: Option<string>, accountId: Option<string>,
                           useDev: Option<bool>, env: map<string, string>): (s: ClientSettings)
    ensures s.mode == Development <==>
      (if useDev.Some? then useDev.value else Getenv(env, "ENV_MODE") == Some("development"))
      && Present(Getenv(env, "DEV_WIX_API_KEY"))
    ensures Present(apiKey) ==> s.apiKey == apiKey
    ensures Present(siteId) ==> s.siteId == siteId
    ensures Present(accountId) ==> s.accountId == accountId
    ensures !Present(apiKey) ==>
      s.apiKey == Getenv(env, if s.mode == Development then "DEV_WIX_API_KEY" else "WIX_API_KEY")
  {
    var envMode := Getenv(env, "ENV_MODE").GetOr("production");
    var useDevMode := if useDev.Some? then useDev.value else envMode == "development";
    if useDevMode && Present(Getenv(env, "DEV_WIX_API_KEY")) then
      ClientSettings(OrElse(apiKey, Getenv(env, "DEV_WIX_API_KEY")),
                     OrElse(siteId, Getenv(env, "DEV_WIX_SITE_ID")),
                     OrElse(accountId, Getenv(env, "DEV_WIX_ACCOUNT_ID")),
                     Development)
    else
      ClientSettings(OrElse(apiKey, Getenv(env, "WIX_API_KEY")),
                     OrElse(siteId, Getenv(env, "WIX_SITE_ID")),
                     OrElse(accountId, Getenv(env, "WIX_ACCOUNT_ID")),
                     Production)
  }

  /** A client never holds a development key it was not given: with DEV_WIX_API_KEY unset the mode is production. */
  lemma NoDevKeyMeansProduction(apiKey: Option<string>, siteId: Option<string>, accountId: Option<string>,
                                useDev: Option<bool>, env: map<string, string>)
    requires "DEV_WIX_API_KEY" !in env || env["DEV_WIX_API_KEY"] == ""
    ensures ResolveSettings(apiKey, siteId, accountId, useDev, env).mode == Production
  {
  }

  // ----- requests -----

  /** The response of a request that went through, left abstract. */
  datatype Response = Response(status: int, body: string)

  /** What one attempt of `requests.request(...)` plus `raise_for_status()` comes to. */
  datatype Attempt =
    | Succeeded(response: Response)
    | HttpFailure(status: int)   // HTTPError with this status code
    | TimedOut                   // requests.exceptions.Timeout
    | ConnectionFailed           // requests.exceptions.ConnectionError

  /** Why `_request` raises: the exception of an attempt, or the fallback after the loop. */
  datatype RequestFailure = Raised(attempt: Attempt) | Exhausted

  /** One run of `_request`: its outcome, the seconds slept between attempts, and the attempts made. */
  datatype RequestRun = RequestRun(result: Result<Response, RequestFailure>, sleeps: seq<nat>, attempts: nat)

  const MaxRetries: nat := 3

  /** Rate limiting (429), timeouts and connection errors are retried while attempts remain. */
  predicate Retryable(a: Attempt) {
    a == HttpFailure(429) || a.TimedOut? || a.ConnectionFailed?
  }

  function Pow2(n: nat): (p: nat)
    ensures p >= 1
  {
    if n == 0 then 1 else 2 * Pow2(n - 1)
  }

  /** The sleep before retrying after attempt `attempt`: 2**attempt seconds, none after a timeout. */
  function Backoff(a: Attempt, attempt: nat): seq<nat> {
    if a.TimedOut? then [] else [Pow2(attempt)]
  }

  /** The run of `_request` from attempt `attempt` on. */
  function RequestFrom(outcomes: nat -> Attempt, attempt: nat): (run: RequestRun)
    requires attempt < MaxRetries
    ensures attempt < run.attempts <= MaxRetries
    decreases MaxRetries - attempt
  {
    var a := outcomes(attempt);
    if a.Succeeded? then RequestRun(Ok(a.response), [], attempt + 1)
    else if Retryable(a) && attempt < MaxRetries - 1 then
      var rest := RequestFrom(outcomes, attempt + 1);
      rest.(sleeps := Backoff(a, attempt) + rest.sleeps)
    else RequestRun(Err(Raised(a)), [], attempt + 1)
  }

  /**
   * A run ends on its last attempt: with that attempt's response, or raising that attempt's error,
   * which is not retried unless it was the third; every earlier attempt was retried.
   */
  lemma {:induction false} RequestOutcome(outcomes: nat -> Attempt, attempt: nat)
    requires attempt < MaxRetries
    ensures var run := RequestFrom(outcomes, attempt);
      var last := outcomes(run.attempts - 1);
      && (run.result.Ok? ==> last == Succeeded(run.result.value))
      && (run.result.Err? ==> run.result.error == Raised(last) && !last.Succeeded?)
      && (run.result.Err? && run.attempts < MaxRetries ==> !Retryable(last))
      && (forall j :: attempt <= j < run.attempts - 1 ==> Retryable(outcomes(j)))
    decreases MaxRetries - attempt
  {
    var a := outcomes(attempt);
    if !a.Succeeded? && Retryable(a) && attempt < MaxRetries - 1 {
      RequestOutcome(outcomes, attempt + 1);
    }
  }

  /**
   * `_request`: up to three attempts. A success is returned at once; an HTTP error other than 429
   * is raised at once; 429s and connection errors sleep 2**attempt seconds and timeouts retry at
   * once, until the third attempt, whose error is raised.
   */
  method Request(outcomes: nat -> Attempt) returns (run: RequestRun)
    ensures run == RequestFrom(outcomes, 0)
  {
    var sleeps: seq<nat> := [];
    var attempt: nat := 0;
    while attempt < MaxRetries
      invariant attempt < MaxRetries
      invariant RequestFrom(outcomes, 0).result == RequestFrom(outcomes, attempt).result
      invariant RequestFrom(outcomes, 0).attempts == RequestFrom(outcomes, attempt).attempts
      invariant RequestFrom(outcomes, 0).sleeps == sleeps + RequestFrom(outcomes, attempt).sleeps
      decreases MaxRetries - attempt
    {
      var a := outcomes(attempt);
      if a.Succeeded? {
        return RequestRun(Ok(a.response), sleeps, attempt + 1);
      }
      if a.HttpFailure? {
        if a.status == 429 && attempt < MaxRetries - 1 {
          RetryStep(outcomes, attempt, sleeps);
          sleeps := sleeps + [Pow2(attempt)];
          attempt := attempt + 1;
          continue;
        }
        return RequestRun(Err(Raised(a)), sleeps, attempt + 1);
      }
      if a.TimedOut? {
        if attempt < MaxRetries - 1 {
          RetryStep(outcomes, attempt, sleeps);
          attempt := attempt + 1;
          continue;
        }
        return RequestRun(Err(Raised(a)), sleeps, attempt + 1);
      }
      if attempt < MaxRetries - 1 {
        RetryStep(outcomes, attempt, sleeps);
        sleeps := sleeps + [Pow2(attempt)];
        attempt := attempt + 1;
        continue;
      }
      return RequestRun(Err(Raised(a)), sleeps, attempt + 1);
    }
    return RequestRun(Err(Exhausted), sleeps, attempt);
  }

  /** A retried attempt hands the run on to the next attempt, after its backoff. */
  lemma RetryStep(outcomes: nat -> Attempt, attempt: nat, sleeps: seq<nat>)
    requires attempt < MaxRetries - 1 && Retryable(outcomes(attempt))
    ensures var next := RequestFrom(outcomes, attempt + 1);
      && RequestFrom(outcomes, attempt).result == next.result
      && RequestFrom(outcomes, attempt).attempts == next.attempts
      && sleeps + RequestFrom(outcomes, attempt).sleeps == sleeps + Backoff(outcomes(attempt), attempt) + next.sleeps
  {
  }

  /** The first attempt that succeeds is the one returned, and every earlier attempt was retried. */
  lemma FirstSuccessReturned(outcomes: nat -> Attempt, k: nat)
    requires k < MaxRetries && outcomes(k).Succeeded?
    requires forall j :: 0 <= j < k ==> Retryable(outcomes(j))
    ensures RequestFrom(outcomes, 0).result == Ok(outcomes(k).response)
    ensures RequestFrom(outcomes, 0).attempts == k + 1
  {
    if k > 0 {
      assert Retryable(outcomes(0));
      if k > 1 {
        assert Retryable(outcomes(1));
      }
    }
  }

  /** An HTTP error other than 429 is raised on the attempt it happens, without sleeping. */
  lemma OtherHttpErrorNotRetried(outcomes: nat -> Attempt, status: int)
    requires outcomes(0) == HttpFailure(status) && status != 429
    ensures RequestFrom(outcomes, 0) == RequestRun(Err(Raised(HttpFailure(status))), [], 1)
  {
  }

  /** Every sleep is 1 or 2 seconds, in increasing order: the 4-second step is never taken. */
  lemma SleepsAreBackoff(outcomes: nat -> Attempt)
    ensures RequestFrom(outcomes, 0).sleeps in {[], [1], [2], [1, 2]}
  {
    LaterSleeps(outcomes);
    var a := outcomes(0);
    var later := RequestFrom(outcomes, 1).sleeps;
    var sleeps := RequestFrom(outcomes, 0).sleeps;
    if !a.Succeeded? && Retryable(a) {
      assert sleeps == Backoff(a, 0) + later;
      if a.TimedOut? {
        assert sleeps == later;
      } else if later == [] {
        assert sleeps == [1];
      } else {
        assert sleeps == [1, 2];
      }
    } else {
      assert RequestFrom(outcomes, 0).sleeps == [];
    }
  }

  /** From the second attempt on, the only possible sleep is the 2-second one. */
  lemma LaterSleeps(outcomes: nat -> Attempt)
    ensures RequestFrom(outcomes, 1).sleeps in {[], [2]}
  {
    var a := outcomes(1);
    if !a.Succeeded? && Retryable(a) {
      assert RequestFrom(outcomes, 1).sleeps == Backoff(a, 1) + RequestFrom(outcomes, 2).sleeps;
      assert RequestFrom(outcomes, 2).sleeps == [];
      assert Pow2(1) == 2;
      if !a.TimedOut? {
        assert RequestFrom(outcomes, 1).sleeps == [2];
      }
    } else {
      assert RequestFrom(outcomes, 1).sleeps == [];
    }
  }

  /** Persistent rate limiting sleeps 1 s and then 2 s, and raises the third 429. */
  lemma RateLimitedThrice(outcomes: nat -> Attempt)
    requires forall j :: 0 <= j < MaxRetries ==> outcomes(j) == HttpFailure(429)
    ensures RequestFrom(outcomes, 0) == RequestRun(Err(Raised(HttpFailure(429))), [1, 2], 3)
  {
    assert outcomes(0) == HttpFailure(429) && outcomes(1) == HttpFailure(429) && outcomes(2) == HttpFailure(429);
    assert Pow2(1) == 2;
  }

  /** Timeouts retry without sleeping; the third one is raised. */
  lemma TimedOutThrice(outcomes: nat -> Attempt)
    requires forall j :: 0 <= j < MaxRetries ==> outcomes(j) == TimedOut
    ensures RequestFrom(outcomes, 0) == RequestRun(Err(Raised(TimedOut)), [], 3)
  {
    assert outcomes(0) == TimedOut && outcomes(1) == TimedOut && outcomes(2) == TimedOut;
  }

  // ----- the client -----

  /** A constructed client: both required credentials are present. */
  class WixClient {
    const apiKey: string
    const siteId: string
    const accountId: Option<string>
    const mode: Mode
    const baseUrl: string

    constructor (s: ClientSettings)
      requires Present(s.apiKey) && Present(s.siteId)
      ensures apiKey == s.apiKey.value && siteId == s.siteId.value
      ensures accountId == s.accountId && mode == s.mode
      ensures baseUrl == "https://www.wixapis.com"
    {
      apiKey := s.apiKey.value;
      siteId := s.siteId.value;
      accountId := s.accountId;
      mode := s.mode;
      baseUrl := "https://www.wixapis.com";
    }

    /** `_headers`: authorization, site id and content type; the account id only when it is set. */
    function Headers(contentType: string): (h: map<string, string>)
      ensures "Authorization" in h && h["Authorization"] == apiKey
      ensures "wix-site-id" in h && h["wix-site-id"] == siteId
      ensures "Content-Type" in h && h["Content-Type"] == contentType
      ensures "wix-account-id" in h <==> Present(accountId)
      ensures "wix-account-id" in h ==> h["wix-account-id"] == accountId.value
      ensures |h.Keys| == if Present(accountId) then 4 else 3
    {
      var base := map["Authorization" := apiKey, "wix-site-id" := siteId, "Content-Type" := contentType];
      if Present(accountId) then base["wix-account-id" := accountId.value] else base
    }
  }

  const MissingCredentials := "WIX_API_KEY and WIX_SITE_ID are required"

  /** `WixClient(...)`: resolves the credentials and raises ValueError unless API key and site id are both set. */
  method NewClient(apiKey: Option<string>, siteId: Option<string>, accountId: Option<string>,
                   useDev: Option<bool>, env: map<string, string>) returns (r: Result<WixClient, string>)
    ensures var s := ResolveSettings(apiKey, siteId, accountId, useDev, env);
      && (r.Ok? <==> Present(s.apiKey) && Present(s.siteId))
      && (r.Err? ==> r.error == MissingCredentials)
      && (r.Ok? ==> fresh(r.value) && r.value.apiKey == s.apiKey.value && r.value.siteId == s.siteId.value
                    && r.value.accountId == s.accountId && r.value.mode == s.mode)
  {
    var s := ResolveSettings(apiKey, siteId, accountId, useDev, env);
    if !(Present(s.apiKey) && Present(s.siteId)) {
      return Err(MissingCredentials);
    }
    var client := new WixClient(s);
    return Ok(client);
  }

  // ----- payloads -----

  /** The `query` of `list_events`: paging, and a status equality filter when one is given. */
  datatype EventsQuery = EventsQuery(limit: int, offset: int, statusEq: Option<string>)

  /** `list_events`' query building; `include_drafts` plays no part in it. */
  method ListEventsQuery(limit: int, offset: int, includeDrafts: bool, statusFilter: Option<string>)
    returns (query: EventsQuery)
    ensures query.limit == limit && query.offset == offset
    ensures query.statusEq.Some? <==> Present(statusFilter)
    ensures query.statusEq.Some? ==> query.statusEq == statusFilter
  {
    query := EventsQuery(limit, offset, None);
    if Present(statusFilter) {
      query := query.(statusEq := statusFilter);
    }
  }

  /** The `ticketDefinition` body `create_ticket_definition` posts. */
  datatype TicketDefinition = TicketDefinition(
    eventId: Option<string>,
    name: string,
    limitPerCheckout: nat,
    price: real,              // sent as str(price), which is not modelled
    currency: string,
    feeType: string,
    limited: Option<bool>,
    quantity: Option<int>)

  /** Python truthiness of an optional count: set and non-zero. */
  predicate CountGiven(n: Option<int>) {
    n.Some? && n.value != 0
  }

  /**
   * `create_ticket_definition`'s payload: at most 10 per checkout, a fixed price in the currency,
   * fees added at checkout, and a limited quantity only when a capacity is given.
   */
  method TicketPayload(eventId: Option<string>, ticketName: string, price: real, capacity: Option<int>,
                       currency: string) returns (t: TicketDefinition)
    ensures t.eventId == eventId && t.name == ticketName && t.price == price && t.currency == currency
    ensures t.limitPerCheckout == 10 && t.feeType == "FEE_ADDED_AT_CHECKOUT"
    ensures t.limited.Some? <==> CountGiven(capacity)
    ensures t.limited.Some? ==> t.limited.value
    ensures t.quantity == if CountGiven(capacity) then capacity else None
  {
    t := TicketDefinition(eventId, ticketName, 10, price, currency, "FEE_ADDED_AT_CHECKOUT", None, None);
    if CountGiven(capacity) {
      t := t.(limited := Some(true), quantity := capacity);
    }
  }

  /** The currency `create_ticket_definition` uses when none is given. */
  const DefaultCurrency := "CAD"

  // ----- title search -----

  /** Case-insensitive title containment, as `search_events_by_title` tests it. */
  predicate TitleMatches(e: WixEvent, query: string) {
    Contains(Lower(TitleOf(e)), Lower(query))
  }

  /** `search_events_by_title` over the listed events: the matching ones, in listing order. */
  function SearchEventsByTitle(events: seq<WixEvent>, query: string): (r: seq<WixEvent>)
    ensures |r| <= |events|
    ensures forall e :: e in r <==> e in events && TitleMatches(e, query)
  {
    if events == [] then []
    else (if TitleMatches(events[0], query) then [events[0]] else []) + SearchEventsByTitle(events[1..], query)
  }

  /** The search keeps listing order: searching two runs of events concatenates their results. */
  lemma {:induction false} SearchAppend(a: seq<WixEvent>, b: seq<WixEvent>, query: string)
    ensures SearchEventsByTitle(a + b, query) == SearchEventsByTitle(a, query) + SearchEventsByTitle(b, query)
  {
    if a != [] {
      SearchAppend(a[1..], b, query);
      assert (a + b)[1..] == a[1..] + b;
    } else {
      assert a + b == b;
    }
  }

  /** The search result starts with the first matching event. */
  lemma {:induction false} SearchHead(events: seq<WixEvent>, query: string, k: nat)
    requires k < |events| && TitleMatches(events[k], query)
    requires forall j :: 0 <= j < k ==> !TitleMatches(events[j], query)
    ensures SearchEventsByTitle(events, query) != []
    ensures SearchEventsByTitle(events, query)[0] == events[k]
  {
    if k > 0 {
      SearchHead(events[1..], query, k - 1);
    }
  }

  /** `get_event_by_title`: the first listed event whose title matches, or None when none does. */
  function GetEventByTitle(events: seq<WixEvent>, query: string): (r: Option<WixEvent>)
    ensures r.None? <==> forall e :: e in events ==> !TitleMatches(e, query)
    ensures r.Some? ==> exists k :: (0 <= k < |events| && events[k] == r.value && TitleMatches(r.value, query)
                                     && forall j :: 0 <= j < k ==> !TitleMatches(events[j], query))
  {
    var results := SearchEventsByTitle(events, query);
    if results == [] then None
    else
      FirstMatchIsHead(events, query);
      Some(results[0])
  }

  lemma FirstMatchIsHead(events: seq<WixEvent>, query: string)
    requires SearchEventsByTitle(events, query) != []
    ensures exists k :: (0 <= k < |events| && events[k] == SearchEventsByTitle(events, query)[0]
                         && TitleMatches(events[k], query) && forall j :: 0 <= j < k ==> !TitleMatches(events[j], query))
  {
    var e := SearchEventsByTitle(events, query)[0];
    assert e in events && TitleMatches(e, query);
    var k :| 0 <= k < |events| && TitleMatches(events[k], query);
    while k > 0 && !(forall j :: 0 <= j < k ==> !TitleMatches(events[j], query))
      invariant 0 <= k < |events| && TitleMatches(events[k], query)
      decreases k
    {
      var j :| 0 <= j < k && TitleMatches(events[j], query);
      k := j;
    }
    SearchHead(events, query, k);
  }
}
