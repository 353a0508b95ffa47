/** Ashare_data/client.py: the HTTP client for an Ashare-compatible API.
    Query dictionaries, URL construction, the `__post_init__` checks and the
    retry loop shared by the synchronous and asynchronous request paths. */
module Client {
  import opened Wrappers
  import opened Payload
  import Text
  import RateLimiter

  // ---------------------------------------------------------------------
  // Query dictionaries
  // ---------------------------------------------------------------------

  /** A `Dict[str, Any]` in insertion order. */
  type Params = seq<(string, Json)>

  /** A Python dict never holds one key twice. */
  predicate UniqueKeys(m: Params) {
    forall i, j :: 0 <= i < j < |m| ==> m[i].0 != m[j].0
  }

  /** `d[key] = value`: a present key keeps its position and takes the new
      value, a new key goes last. */
  function Put(m: Params, key: string, value: Json): (r: Params)
    ensures |m| <= |r| <= |m| + 1
    ensures forall i :: 0 <= i < |m| ==> r[i].0 == m[i].0
    ensures |r| == |m| + 1 <==> forall i :: 0 <= i < |m| ==> m[i].0 != key
    ensures |r| == |m| + 1 ==> r[|m|] == (key, value)
    ensures UniqueKeys(m) ==> UniqueKeys(r)
  {
    if m == [] then [(key, value)]
    else if m[0].0 == key then [(key, value)] + m[1..]
    else
      var rest := Put(m[1..], key, value);
      assert forall i :: 1 <= i < |m| ==> m[i] == m[1..][i - 1];
      [m[0]] + rest
  }

  /** After `d[key] = value` the key maps to the new value and every other
      key keeps its old one. */
  lemma {:induction false} PutLookup(m: Params, key: string, value: Json, k: string)
    ensures Lookup(Put(m, key, value), k) == if k == key then Some(value) else Lookup(m, k)
  {
    if m != [] {
      if m[0].0 == key {
        assert ([(key, value)] + m[1..])[1..] == m[1..];
      } else {
        var rest := Put(m[1..], key, value);
        assert ([m[0]] + rest)[1..] == rest;
        PutLookup(m[1..], key, value, k);
      }
    }
  }

  /** `d.update(other)`: every pair of `other`, in order, put into `d`. */
  function Update(m: Params, other: Params): (r: Params)
    ensures UniqueKeys(m) ==> UniqueKeys(r)
    ensures |m| <= |r| && forall i :: 0 <= i < |m| ==> r[i].0 == m[i].0
    decreases |other|
  {
    if other == [] then m else Update(Put(m, other[0].0, other[0].1), other[1..])
  }

  /** The rest of a dict is a dict, and none of its keys is the first one. */
  lemma TailUnique(m: Params)
    requires UniqueKeys(m) && m != []
    ensures UniqueKeys(m[1..])
    ensures forall j :: 0 <= j < |m| - 1 ==> m[1..][j].0 != m[0].0
  {
    var tail := m[1..];
    forall i, j | 0 <= i < j < |tail| ensures tail[i].0 != tail[j].0 {
      assert tail[i] == m[i + 1] && tail[j] == m[j + 1];
    }
    forall j | 0 <= j < |tail| ensures tail[j].0 != m[0].0 {
      assert tail[j] == m[j + 1];
    }
  }

  /** After `d.update(other)`, a key of `other` maps to its value there and
      every other key keeps its old value. */
  lemma {:induction false} UpdateLookup(m: Params, other: Params, key: string)
    requires UniqueKeys(other)
    ensures Lookup(Update(m, other), key)
         == (if Lookup(other, key).Some? then Lookup(other, key) else Lookup(m, key))
    decreases |other|
  {
    if other != [] {
      var tail := other[1..];
      TailUnique(other);
      PutLookup(m, other[0].0, other[0].1, key);
      UpdateLookup(Put(m, other[0].0, other[0].1), tail, key);
      if key == other[0].0 {
        assert Lookup(tail, key).None?;
      }
    }
  }

  /** Updating a dict with one that shares none of its keys appends the new
      pairs' keys in their order. */
  lemma {:induction false} UpdateKeysFrom(m: Params, other: Params)
    requires UniqueKeys(m) && UniqueKeys(other)
    requires forall i, j :: 0 <= i < |m| && 0 <= j < |other| ==> m[i].0 != other[j].0
    ensures |Update(m, other)| == |m| + |other|
    ensures forall i :: |m| <= i < |Update(m, other)| ==> Update(m, other)[i].0 == other[i - |m|].0
    decreases |other|
  {
    if other != [] {
      var tail := other[1..];
      var m1 := Put(m, other[0].0, other[0].1);
      TailUnique(other);
      assert |m1| == |m| + 1;
      forall i, j | 0 <= i < |m1| && 0 <= j < |tail| ensures m1[i].0 != tail[j].0 {
        assert tail[j] == other[j + 1];
      }
      UpdateKeysFrom(m1, tail);
      var r := Update(m1, tail);
      assert Update(m, other) == r;
      forall i | |m| <= i < |r| ensures r[i].0 == other[i - |m|].0 {
        if i == |m| {
          assert r[i].0 == m1[|m|].0;
        } else {
          assert r[i].0 == tail[i - |m1|].0;
          assert tail[i - |m1|] == other[i - |m|];
        }
      }
    }
  }

  /** Updating an empty dict with a dict copies it: `dict(other)`. */
  lemma UpdateEmpty(other: Params)
    requires UniqueKeys(other)
    ensures Update([], other) == other
  {
    var r := Update([], other);
    forall key ensures Lookup(r, key) == Lookup(other, key) {
      UpdateLookup([], other, key);
    }
    UpdateKeysFrom([], other);
    forall i | 0 <= i < |r| ensures r[i] == other[i] {
      SameKeyOrder(r, other, i);
    }
  }

  /** Two dicts with the same keys at each position and the same lookups
      agree pair by pair. */
  lemma SameKeyOrder(a: Params, b: Params, i: nat)
    requires UniqueKeys(a) && UniqueKeys(b) && |a| == |b| && i < |a|
    requires forall k :: 0 <= k < |a| ==> a[k].0 == b[k].0
    requires forall key :: Lookup(a, key) == Lookup(b, key)
    ensures a[i] == b[i]
  {
    LookupAt(a, i);
    LookupAt(b, i);
  }

  /** In a dict without repeated keys, the lookup of a key is its own pair. */
  lemma LookupAt(m: Params, i: nat)
    requires UniqueKeys(m) && i < |m|
    ensures Lookup(m, m[i].0) == Some(m[i].1)
  {
    var v := Lookup(m, m[i].0).value;
    var k :| 0 <= k < |m| && m[k] == (m[i].0, v);
    assert k == i;
  }

  /** `_merge_params`: an empty dict, updated with the client's default
      parameters when there are any, then with the call's parameters when
      there are any. */
  function MergeParams(defaults: Option<Params>, params: Option<Params>): (r: Params)
    requires defaults.Some? ==> UniqueKeys(defaults.value)
    requires params.Some? ==> UniqueKeys(params.value)
    ensures UniqueKeys(r)
  {
    var merged := if defaults.Some? && defaults.value != [] then Update([], defaults.value) else [];
    if params.Some? && params.value != [] then Update(merged, params.value) else merged
  }

  /** What a value is looked up in when it may be missing or empty. */
  function Given(d: Option<Params>): Params {
    if d.Some? then d.value else []
  }

  /** A merged query carries the call's value for every key the call gives,
      the default value for every other key the defaults give, and nothing
      else. */
  lemma MergeLookup(defaults: Option<Params>, params: Option<Params>, key: string)
    requires defaults.Some? ==> UniqueKeys(defaults.value)
    requires params.Some? ==> UniqueKeys(params.value)
    ensures Lookup(MergeParams(defaults, params), key)
         == (if Lookup(Given(params), key).Some? then Lookup(Given(params), key)
             else Lookup(Given(defaults), key))
  {
    if defaults.Some? && defaults.value != [] {
      UpdateLookup([], defaults.value, key);
    }
    if params.Some? && params.value != [] {
      var merged := if defaults.Some? && defaults.value != [] then Update([], defaults.value) else [];
      UpdateLookup(merged, params.value, key);
    }
  }

  /** The defaults come first, in their own order, and are copied whole. */
  lemma MergeKeepsDefaultsFirst(defaults: Params, params: Option<Params>)
    requires UniqueKeys(defaults)
    requires params.Some? ==> UniqueKeys(params.value)
    ensures |defaults| <= |MergeParams(Some(defaults), params)|
    ensures forall i :: 0 <= i < |defaults| ==> MergeParams(Some(defaults), params)[i].0 == defaults[i].0
  {
    if defaults != [] {
      UpdateEmpty(defaults);
    }
  }

  // ---------------------------------------------------------------------
  // Queries and URLs
  // ---------------------------------------------------------------------

  /** Optional call parameters: a truthy mapping updates the query. */
  function WithParams(query: Params, params: Option<Params>): Params {
    if params.Some? && params.value != [] then Update(query, params.value) else query
  }

  /** The query of `fetch_stock_list`. */
  function StockListQuery(market: string, params: Option<Params>): Params {
    WithParams([("market", JStr(market))], params)
  }

  /** The query of `fetch_daily_kline`: the symbol, then a date bound only
      when it is given and non-empty, then the call's parameters. */
  function DailyKlineQuery(symbol: string, startDate: Option<string>, endDate: Option<string>,
                           params: Option<Params>): Params
  {
    WithParams(DateBound(DateBound([("symbol", JStr(symbol))], "start_date", startDate), "end_date", endDate), params)
  }

  /** `query[key] = bound` when the bound is given and non-empty. */
  function DateBound(query: Params, key: string, bound: Option<string>): Params {
    if bound.Some? && bound.value != [] then Put(query, key, JStr(bound.value)) else query
  }

  lemma DateBoundLookup(query: Params, key: string, bound: Option<string>, k: string)
    ensures Lookup(DateBound(query, key, bound), k)
         == if k == key && bound.Some? && bound.value != [] then Some(JStr(bound.value)) else Lookup(query, k)
  {
    if bound.Some? && bound.value != [] {
      PutLookup(query, key, JStr(bound.value), k);
    }
  }

  lemma WithParamsLookup(query: Params, params: Option<Params>, k: string)
    requires params.Some? ==> UniqueKeys(params.value)
    ensures Lookup(WithParams(query, params), k)
         == if Lookup(Given(params), k).Some? then Lookup(Given(params), k) else Lookup(query, k)
  {
    if params.Some? && params.value != [] {
      UpdateLookup(query, params.value, k);
    }
  }

  /** The market goes out as given unless the call's parameters name a
      market of their own, and every call parameter is sent. */
  lemma StockListQueryContents(market: string, params: Option<Params>, key: string)
    requires params.Some? ==> UniqueKeys(params.value)
    ensures Lookup(StockListQuery(market, params), key)
         == (if Lookup(Given(params), key).Some? then Lookup(Given(params), key)
             else if key == "market" then Some(JStr(market))
             else None)
  {
    WithParamsLookup([("market", JStr(market))], params, key);
  }

  /** A date bound is sent exactly when it is non-empty or the call's
      parameters carry it, and the call's parameters win. */
  lemma DailyKlineQueryContents(symbol: string, startDate: Option<string>, endDate: Option<string>,
                                params: Option<Params>, key: string)
    requires params.Some? ==> UniqueKeys(params.value)
    ensures Lookup(DailyKlineQuery(symbol, startDate, endDate, params), key)
         == (if Lookup(Given(params), key).Some? then Lookup(Given(params), key)
             else if key == "symbol" then Some(JStr(symbol))
             else if key == "start_date" && startDate.Some? && startDate.value != [] then Some(JStr(startDate.value))
             else if key == "end_date" && endDate.Some? && endDate.value != [] then Some(JStr(endDate.value))
             else None)
  {
    var q0 := [("symbol", JStr(symbol))];
    var q1 := DateBound(q0, "start_date", startDate);
    var q2 := DateBound(q1, "end_date", endDate);
    assert Lookup(q0, key) == if key == "symbol" then Some(JStr(symbol)) else None;
    DateBoundLookup(q0, "start_date", startDate, key);
    DateBoundLookup(q1, "end_date", endDate, key);
    WithParamsLookup(q2, params, key);
  }

  /** `_build_url`: an absolute `http://` or `https://` endpoint is used as
      it is; any other is joined to the base address with one slash. */
  function BuildUrl(baseUrl: string, endpoint: string): (r: string)
    ensures Text.StartsWith(endpoint, "http://") || Text.StartsWith(endpoint, "https://") ==> r == endpoint
    ensures !(Text.StartsWith(endpoint, "http://") || Text.StartsWith(endpoint, "https://")) ==>
      && |r| == |baseUrl| + 1 + |endpoint| - (if Text.StartsWith(endpoint, "/") then 1 else 0)
      && r[..|baseUrl|] == baseUrl && r[|baseUrl|] == '/'
      && r[|baseUrl| + 1..] == (if Text.StartsWith(endpoint, "/") then endpoint[1..] else endpoint)
  {
    if Text.StartsWith(endpoint, "http://") || Text.StartsWith(endpoint, "https://") then endpoint
    else
      var path := if Text.StartsWith(endpoint, "/") then endpoint else "/" + endpoint;
      assert path[1..] == (if Text.StartsWith(endpoint, "/") then endpoint[1..] else endpoint);
      baseUrl + path
  }

  /** With the base address as `__post_init__` leaves it (trailing slashes
      stripped), a relative endpoint with at most one leading slash meets
      the base at exactly one slash, whether or not either side wrote it. */
  lemma SingleSlashJoin(rawBase: string, endpoint: string)
    requires !(Text.StartsWith(endpoint, "http://") || Text.StartsWith(endpoint, "https://"))
    requires !Text.StartsWith(endpoint, "//")
    ensures var base := Text.TrimTrailing(rawBase, '/');
      var r := BuildUrl(base, endpoint);
      && r[|base|] == '/'
      && (base == [] || r[|base| - 1] != '/')
      && (|base| + 1 < |r| ==> r[|base| + 1] != '/')
  {
    var base := Text.TrimTrailing(rawBase, '/');
    var r := BuildUrl(base, endpoint);
    if |base| + 1 < |r| {
      var tail := r[|base| + 1..];
      assert r[|base| + 1] == tail[0];
      if Text.StartsWith(endpoint, "/") {
        assert tail[0] == endpoint[1];
        assert endpoint[..2] == [endpoint[0], endpoint[1]];
      } else {
        assert tail[0] == endpoint[0];
        assert endpoint[..1] == [endpoint[0]];
      }
    }
    if base != [] {
      assert r[|base| - 1] == r[..|base|][|base| - 1];
    }
  }

  // ---------------------------------------------------------------------
  // The retry loop
  // ---------------------------------------------------------------------

  /** What the loop does, in order: wait for the rate limit, send attempt
      `n`, sleep between attempts. */
  datatype Step = Throttle | Send(attempt: nat) | Pause(seconds: real)

  /** `AshareClientError`, with its message. */
  datatype ClientError = ClientError(message: string)

  /** The message raised when the last attempt fails. */
  function FailureMessage(verb: string, url: string): string {
    verb + " " + url + " failed after retries"
  }

  /** The seconds slept after failed attempt `n`: `backoff_factor * 2**n`. */
  function Delay(backoff: real, n: nat): real {
    backoff * RateLimiter.Pow2(n) as real
  }

  /** The steps of one attempt: the throttle when a rate limit is set, then
      the request. */
  function Sent(throttled: bool, attempt: nat): seq<Step> {
    (if throttled then [Throttle] else []) + [Send(attempt)]
  }

  /** One attempt sends once, sleeps never, and throttles once when a rate
      limit is set. */
  lemma SentSteps(throttled: bool, attempt: nat)
    ensures SendsOf(Sent(throttled, attempt)) == [attempt] && PausesOf(Sent(throttled, attempt)) == []
    ensures ThrottlesOf(Sent(throttled, attempt)) == if throttled then 1 else 0
  {
    StepsAppend(if throttled then [Throttle] else [], [Send(attempt)]);
    OneStep(Send(attempt));
    if throttled {
      OneStep(Throttle);
    }
  }

  lemma OneStep(s: Step)
    ensures SendsOf([s]) == if s.Send? then [s.attempt] else []
    ensures PausesOf([s]) == if s.Pause? then [s.seconds] else []
    ensures ThrottlesOf([s]) == if s.Throttle? then 1 else 0
  {
    assert [s][1..] == [];
  }

  /** The sleep between two attempts, skipped when the delay is not positive. */
  function PauseFor(delay: real): seq<Step> {
    if delay > 0.0 then [Pause(delay)] else []
  }

  /** The pause sleeps `delay` seconds when that is positive, and does
      nothing else. */
  lemma PauseForSteps(delay: real)
    ensures SendsOf(PauseFor(delay)) == [] && ThrottlesOf(PauseFor(delay)) == 0
    ensures PausesOf(PauseFor(delay)) == if delay > 0.0 then [delay] else []
  {
    if delay > 0.0 {
      OneStep(Pause(delay));
    }
  }

  /** `_request_sync` / `_request_async` from attempt `attempt` on: the
      result and the steps taken. `outcome(n)` is what attempt `n` of the
      exchange raises or returns. */
  function RequestFrom<T, E>(attempt: nat, maxRetries: nat, backoff: real, throttled: bool,
                             outcome: nat -> Attempt<T, E>, message: string)
    : (Attempt<T, ClientError>, seq<Step>)
    requires attempt <= maxRetries
    decreases maxRetries - attempt
  {
    match outcome(attempt)
    case Returned(v) => (Returned(v), Sent(throttled, attempt))
    case Threw(_) =>
      if attempt == maxRetries then (Threw(ClientError(message)), Sent(throttled, attempt))
      else
        var rest := RequestFrom(attempt + 1, maxRetries, backoff, throttled, outcome, message);
        (rest.0, Sent(throttled, attempt) + PauseFor(Delay(backoff, attempt)) + rest.1)
  }

  /** The attempts sent, in order. */
  function SendsOf(steps: seq<Step>): (r: seq<nat>)
    ensures |r| <= |steps|
  {
    if steps == [] then []
    else (if steps[0].Send? then [steps[0].attempt] else []) + SendsOf(steps[1..])
  }

  /** The sleeps taken, in order. */
  function PausesOf(steps: seq<Step>): (r: seq<real>)
    ensures |r| <= |steps|
  {
    if steps == [] then []
    else (if steps[0].Pause? then [steps[0].seconds] else []) + PausesOf(steps[1..])
  }

  /** How many times the rate limit was applied. */
  function ThrottlesOf(steps: seq<Step>): nat {
    if steps == [] then 0 else (if steps[0].Throttle? then 1 else 0) + ThrottlesOf(steps[1..])
  }

  lemma StepsAppend(a: seq<Step>, b: seq<Step>)
    ensures SendsOf(a + b) == SendsOf(a) + SendsOf(b)
    ensures PausesOf(a + b) == PausesOf(a) + PausesOf(b)
    ensures ThrottlesOf(a + b) == ThrottlesOf(a) + ThrottlesOf(b)
  {
    SendsAppend(a, b);
    PausesAppend(a, b);
    ThrottlesAppend(a, b);
  }

  lemma {:induction false} SendsAppend(a: seq<Step>, b: seq<Step>)
    ensures SendsOf(a + b) == SendsOf(a) + SendsOf(b)
  {
    if a == [] {
      assert a + b == b;
    } else {
      assert (a + b)[0] == a[0];
      assert (a + b)[1..] == a[1..] + b;
      SendsAppend(a[1..], b);
    }
  }

  lemma {:induction false} PausesAppend(a: seq<Step>, b: seq<Step>)
    ensures PausesOf(a + b) == PausesOf(a) + PausesOf(b)
  {
    if a == [] {
      assert a + b == b;
    } else {
      assert (a + b)[0] == a[0];
      assert (a + b)[1..] == a[1..] + b;
      PausesAppend(a[1..], b);
    }
  }

  lemma {:induction false} ThrottlesAppend(a: seq<Step>, b: seq<Step>)
    ensures ThrottlesOf(a + b) == ThrottlesOf(a) + ThrottlesOf(b)
  {
    if a == [] {
      assert a + b == b;
    } else {
      assert (a + b)[0] == a[0];
      assert (a + b)[1..] == a[1..] + b;
      ThrottlesAppend(a[1..], b);
    }
  }

  /** The counts over one failed, retried attempt followed by the rest. */
  lemma RetriedSteps(throttled: bool, attempt: nat, delay: real, rest: seq<Step>)
    ensures var steps := Sent(throttled, attempt) + PauseFor(delay) + rest;
      && SendsOf(steps) == [attempt] + SendsOf(rest)
      && PausesOf(steps) == (if delay > 0.0 then [delay] else []) + PausesOf(rest)
      && ThrottlesOf(steps) == (if throttled then 1 else 0) + ThrottlesOf(rest)
  {
    SentSteps(throttled, attempt);
    PauseForSteps(delay);
    StepsAppend(Sent(throttled, attempt), PauseFor(delay));
    StepsAppend(Sent(throttled, attempt) + PauseFor(delay), rest);
  }

  /** The attempt the loop stops at: the first one from `attempt` on that
      returns, or the last one allowed. */
  function LastAttempt<T, E>(attempt: nat, maxRetries: nat, outcome: nat -> Attempt<T, E>): (n: nat)
    requires attempt <= maxRetries
    ensures attempt <= n <= maxRetries
    decreases maxRetries - attempt
  {
    if outcome(attempt).Returned? || attempt == maxRetries then attempt
    else LastAttempt(attempt + 1, maxRetries, outcome)
  }

  /** The loop stops at the first attempt that returns: every attempt
      before it failed, and it is the last one allowed whenever it failed
      too. */
  lemma {:induction false} LastAttemptIsFirstSuccess<T, E>(attempt: nat, maxRetries: nat,
                                                           outcome: nat -> Attempt<T, E>)
    requires attempt <= maxRetries
    ensures var last := LastAttempt(attempt, maxRetries, outcome);
      && (forall n :: attempt <= n < last ==> outcome(n).Threw?)
      && (outcome(last).Threw? ==> last == maxRetries)
    decreases maxRetries - attempt
  {
    if !(outcome(attempt).Returned? || attempt == maxRetries) {
      LastAttemptIsFirstSuccess(attempt + 1, maxRetries, outcome);
    }
  }

  /** The attempt numbers `lo`, ..., `hi - 1`. */
  function Range(lo: nat, hi: nat): (r: seq<nat>)
    ensures lo <= hi ==> |r| == hi - lo
    ensures forall i :: 0 <= i < |r| ==> r[i] == lo + i
    decreases hi - lo
  {
    if lo >= hi then [] else [lo] + Range(lo + 1, hi)
  }

  /** The backoff delays after attempts `lo`, ..., `hi - 1`. */
  function Delays(backoff: real, lo: nat, hi: nat): (r: seq<real>)
    ensures lo <= hi ==> |r| == hi - lo
    ensures forall i :: 0 <= i < |r| ==> r[i] == Delay(backoff, lo + i)
    decreases hi - lo
  {
    if lo >= hi then [] else [Delay(backoff, lo)] + Delays(backoff, lo + 1, hi)
  }

  /** One failed attempt that is not the last: its steps, then the rest. */
  lemma Retries<T, E>(attempt: nat, maxRetries: nat, backoff: real, throttled: bool,
                      outcome: nat -> Attempt<T, E>, message: string)
    requires attempt < maxRetries && outcome(attempt).Threw?
    ensures var rest := RequestFrom(attempt + 1, maxRetries, backoff, throttled, outcome, message);
      RequestFrom(attempt, maxRetries, backoff, throttled, outcome, message)
        == (rest.0, Sent(throttled, attempt) + PauseFor(Delay(backoff, attempt)) + rest.1)
    ensures LastAttempt(attempt, maxRetries, outcome) == LastAttempt(attempt + 1, maxRetries, outcome)
  {
  }

  /** The attempt the loop stops at: its steps, and the call's result. */
  lemma Stops<T, E>(attempt: nat, maxRetries: nat, backoff: real, throttled: bool,
                    outcome: nat -> Attempt<T, E>, message: string)
    requires attempt <= maxRetries && (outcome(attempt).Returned? || attempt == maxRetries)
    ensures RequestFrom(attempt, maxRetries, backoff, throttled, outcome, message)
         == (if outcome(attempt).Returned? then Returned(outcome(attempt).value) else Threw(ClientError(message)),
             Sent(throttled, attempt))
    ensures LastAttempt(attempt, maxRetries, outcome) == attempt
  {
  }

  /** Attempts `attempt` up to the last one are sent, in order. */
  lemma {:induction false} RequestSends<T, E>(attempt: nat, maxRetries: nat, backoff: real, throttled: bool,
                                              outcome: nat -> Attempt<T, E>, message: string)
    requires attempt <= maxRetries
    ensures SendsOf(RequestFrom(attempt, maxRetries, backoff, throttled, outcome, message).1)
         == Range(attempt, LastAttempt(attempt, maxRetries, outcome) + 1)
    decreases maxRetries - attempt
  {
    if outcome(attempt).Threw? && attempt < maxRetries {
      RequestSends(attempt + 1, maxRetries, backoff, throttled, outcome, message);
      RetrySends(attempt, maxRetries, backoff, throttled, outcome, message);
    } else {
      Stops(attempt, maxRetries, backoff, throttled, outcome, message);
      SentSteps(throttled, attempt);
      assert Range(attempt, attempt + 1) == [attempt] + Range(attempt + 1, attempt + 1);
    }
  }

  /** A retried attempt is sent before the attempts that follow it. */
  lemma RetrySends<T, E>(attempt: nat, maxRetries: nat, backoff: real, throttled: bool,
                         outcome: nat -> Attempt<T, E>, message: string)
    requires attempt < maxRetries && outcome(attempt).Threw?
    requires SendsOf(RequestFrom(attempt + 1, maxRetries, backoff, throttled, outcome, message).1)
          == Range(attempt + 1, LastAttempt(attempt + 1, maxRetries, outcome) + 1)
    ensures SendsOf(RequestFrom(attempt, maxRetries, backoff, throttled, outcome, message).1)
         == Range(attempt, LastAttempt(attempt, maxRetries, outcome) + 1)
  {
    var last := LastAttempt(attempt, maxRetries, outcome);
    var steps := RequestFrom(attempt, maxRetries, backoff, throttled, outcome, message).1;
    var rest := RequestFrom(attempt + 1, maxRetries, backoff, throttled, outcome, message).1;
    assert SendsOf(steps) == [attempt] + SendsOf(rest) by {
      Retries(attempt, maxRetries, backoff, throttled, outcome, message);
      RetriedSteps(throttled, attempt, Delay(backoff, attempt), rest);
    }
    assert last == LastAttempt(attempt + 1, maxRetries, outcome) by {
      Retries(attempt, maxRetries, backoff, throttled, outcome, message);
    }
    assert Range(attempt, last + 1) == [attempt] + Range(attempt + 1, last + 1);
  }

  /** Every attempt sent is preceded by a throttle when a rate limit is set,
      and none is otherwise. */
  lemma {:induction false} RequestThrottles<T, E>(attempt: nat, maxRetries: nat, backoff: real, throttled: bool,
                                                  outcome: nat -> Attempt<T, E>, message: string)
    requires attempt <= maxRetries
    ensures ThrottlesOf(RequestFrom(attempt, maxRetries, backoff, throttled, outcome, message).1)
         == (if throttled then LastAttempt(attempt, maxRetries, outcome) + 1 - attempt else 0)
    decreases maxRetries - attempt
  {
    if outcome(attempt).Threw? && attempt < maxRetries {
      var rest := RequestFrom(attempt + 1, maxRetries, backoff, throttled, outcome, message).1;
      Retries(attempt, maxRetries, backoff, throttled, outcome, message);
      RequestThrottles(attempt + 1, maxRetries, backoff, throttled, outcome, message);
      RetriedSteps(throttled, attempt, Delay(backoff, attempt), rest);
    } else {
      Stops(attempt, maxRetries, backoff, throttled, outcome, message);
      SentSteps(throttled, attempt);
    }
  }

  /** The sleeps between attempts follow the doubling backoff when the
      factor is positive and never happen otherwise; none follows the last
      attempt. */
  lemma {:induction false} RequestPauses<T, E>(attempt: nat, maxRetries: nat, backoff: real, throttled: bool,
                                               outcome: nat -> Attempt<T, E>, message: string)
    requires attempt <= maxRetries
    ensures PausesOf(RequestFrom(attempt, maxRetries, backoff, throttled, outcome, message).1)
         == (if backoff > 0.0 then Delays(backoff, attempt, LastAttempt(attempt, maxRetries, outcome)) else [])
    decreases maxRetries - attempt
  {
    var last := LastAttempt(attempt, maxRetries, outcome);
    if outcome(attempt).Threw? && attempt < maxRetries {
      var rest := RequestFrom(attempt + 1, maxRetries, backoff, throttled, outcome, message).1;
      var delay := Delay(backoff, attempt);
      Retries(attempt, maxRetries, backoff, throttled, outcome, message);
      RequestPauses(attempt + 1, maxRetries, backoff, throttled, outcome, message);
      RetriedSteps(throttled, attempt, delay, rest);
      PowPositive(attempt);
      if backoff > 0.0 {
        assert delay > 0.0;
        assert Delays(backoff, attempt, last) == [delay] + Delays(backoff, attempt + 1, last);
      } else {
        assert delay <= 0.0;
      }
    } else {
      Stops(attempt, maxRetries, backoff, throttled, outcome, message);
      SentSteps(throttled, attempt);
      assert Delays(backoff, attempt, attempt) == [];
    }
  }

  /** The call returns what the last attempt returned, or raises the client
      error whose message names the method and URL. */
  lemma {:induction false} RequestResult<T, E>(attempt: nat, maxRetries: nat, backoff: real, throttled: bool,
                                               outcome: nat -> Attempt<T, E>, message: string)
    requires attempt <= maxRetries
    ensures var r := RequestFrom(attempt, maxRetries, backoff, throttled, outcome, message).0;
      var last := LastAttempt(attempt, maxRetries, outcome);
      && (r.Returned? <==> outcome(last).Returned?)
      && (r.Returned? ==> r.value == outcome(last).value)
      && (r.Threw? ==> r.error == ClientError(message))
    decreases maxRetries - attempt
  {
    if outcome(attempt).Threw? && attempt < maxRetries {
      Retries(attempt, maxRetries, backoff, throttled, outcome, message);
      RequestResult(attempt + 1, maxRetries, backoff, throttled, outcome, message);
    } else {
      Stops(attempt, maxRetries, backoff, throttled, outcome, message);
    }
  }

  /** The call raises exactly when every attempt from `attempt` up to
      `max_retries` fails, and then all `max_retries + 1 - attempt` of them
      were sent. */
  lemma RequestFailsIff<T, E>(attempt: nat, maxRetries: nat, backoff: real, throttled: bool,
                              outcome: nat -> Attempt<T, E>, message: string)
    requires attempt <= maxRetries
    ensures var res := RequestFrom(attempt, maxRetries, backoff, throttled, outcome, message);
      && (res.0.Threw? <==> forall n :: attempt <= n <= maxRetries ==> outcome(n).Threw?)
      && (res.0.Threw? ==> |SendsOf(res.1)| == maxRetries + 1 - attempt)
  {
    RequestSends(attempt, maxRetries, backoff, throttled, outcome, message);
    RequestResult(attempt, maxRetries, backoff, throttled, outcome, message);
    LastAttemptIsFirstSuccess(attempt, maxRetries, outcome);
  }

  lemma Regroup(a: seq<Step>, b: seq<Step>, c: seq<Step>, d: seq<Step>)
    ensures a + (b + c + d) == (a + b + c) + d
  {
  }

  lemma PowPositive(n: nat)
    ensures RateLimiter.Pow2(n) >= 1
  {
  }

  /** What attempt `n` of a request for `url` with `query` raises or returns. */
  function Outcomes(exchange: (string, Params, nat) -> Exchange, url: string, query: Params)
    : nat -> Attempt<Json, NetError>
  {
    (n: nat) => Receive(exchange(url, query, n))
  }

  /** The attempt loop of `_request_sync` and `_request_async` for a built
      URL: throttle when a rate limit is set, send, return the payload or,
      on an HTTP error or a body that is not JSON, raise after the last
      attempt and sleep `backoff_factor * 2**attempt` seconds otherwise. */
  method RetryLoop(verb: string, url: string, maxRetries: nat, backoff: real, throttled: bool,
                   outcome: nat -> Attempt<Json, NetError>)
    returns (r: Attempt<Json, ClientError>, steps: seq<Step>)
    ensures (r, steps) == RequestFrom(0, maxRetries, backoff, throttled, outcome, FailureMessage(verb, url))
  {
    ghost var message := FailureMessage(verb, url);
    ghost var whole := RequestFrom(0, maxRetries, backoff, throttled, outcome, message);
    var attempt := 0;
    steps := [];
    assert whole.1 == steps + whole.1;
    while true
      invariant 0 <= attempt <= maxRetries
      invariant whole.0 == RequestFrom(attempt, maxRetries, backoff, throttled, outcome, message).0
      invariant whole.1 == steps + RequestFrom(attempt, maxRetries, backoff, throttled, outcome, message).1
      decreases maxRetries - attempt
    {
      ghost var before := steps;
      if throttled {
        steps := steps + [Throttle];
      }
      steps := steps + [Send(attempt)];
      assert steps == before + Sent(throttled, attempt);
      var answer := outcome(attempt);
      if answer.Returned? || attempt == maxRetries {
        Stops(attempt, maxRetries, backoff, throttled, outcome, message);
      }
      if answer.Returned? {
        return Returned(answer.value), steps;
      }
      if attempt == maxRetries {
        return Threw(ClientError(verb + " " + url + " failed after retries")), steps;
      }
      var delay := Delay(backoff, attempt);
      if delay > 0.0 {
        steps := steps + [Pause(delay)];
      }
      assert steps == before + Sent(throttled, attempt) + PauseFor(delay);
      Retries(attempt, maxRetries, backoff, throttled, outcome, message);
      Regroup(before, Sent(throttled, attempt), PauseFor(delay),
              RequestFrom(attempt + 1, maxRetries, backoff, throttled, outcome, message).1);
      attempt := attempt + 1;
    }
  }

  // ---------------------------------------------------------------------
  // The client
  // ---------------------------------------------------------------------

  /** `AshareClient`: the dataclass fields the request path reads. Headers,
      the timeout and the transport are passed to httpx unchanged and are not
      modelled; neither are the throttling clocks and locks. */
  class AshareClient {
    var baseUrl: string
    var defaultParams: Option<Params>
    var maxRetries: int
    var backoffFactor: real
    var rateLimitPerSecond: Option<real>

    /** The dataclass `__init__`: the fields as given. */
    constructor (baseUrl: string, defaultParams: Option<Params>, maxRetries: int,
                 backoffFactor: real, rateLimitPerSecond: Option<real>)
      ensures this.baseUrl == baseUrl && this.defaultParams == defaultParams
      ensures this.maxRetries == maxRetries && this.backoffFactor == backoffFactor
      ensures this.rateLimitPerSecond == rateLimitPerSecond
    {
      this.baseUrl := baseUrl;
      this.defaultParams := defaultParams;
      this.maxRetries := maxRetries;
      this.backoffFactor := backoffFactor;
      this.rateLimitPerSecond := rateLimitPerSecond;
    }

    /** What `__post_init__` establishes when it does not raise. */
    predicate Valid()
      reads this
    {
      && maxRetries >= 0
      && (rateLimitPerSecond.Some? ==> rateLimitPerSecond.value > 0.0)
      && (baseUrl == [] || baseUrl[|baseUrl| - 1] != '/')
      && (defaultParams.Some? ==> UniqueKeys(defaultParams.value))
    }

    /** `__post_init__`: trailing slashes come off the base address (before
      either check), then a negative retry count is refused, then a rate
      limit that is given but not positive. A mapping of defaults is copied
      into a dict, which leaves its contents as they were. */
    method PostInit() returns (error: Option<string>)
      requires defaultParams.Some? ==> UniqueKeys(defaultParams.value)
      modifies this
      ensures baseUrl == Text.TrimTrailing(old(baseUrl), '/')
      ensures defaultParams == old(defaultParams)
      ensures maxRetries == old(maxRetries) && backoffFactor == old(backoffFactor)
      ensures rateLimitPerSecond == old(rateLimitPerSecond)
      ensures error == (if maxRetries < 0 then Some("max_retries must be >= 0")
                        else if rateLimitPerSecond.Some? && rateLimitPerSecond.value <= 0.0
                        then Some("rate_limit_per_second must be positive when provided")
                        else None)
      ensures error.None? <==> Valid()
    {
      baseUrl := Text.TrimTrailing(baseUrl, '/');
      if defaultParams.Some? && defaultParams.value != [] {
        UpdateEmpty(defaultParams.value);
        defaultParams := Some(Update([], defaultParams.value));
      }
      if maxRetries < 0 {
        return Some("max_retries must be >= 0");
      }
      if rateLimitPerSecond.Some? && rateLimitPerSecond.value <= 0.0 {
        return Some("rate_limit_per_second must be positive when provided");
      }
      return None;
    }

    /** `_min_interval` is non-zero, so the loop throttles, exactly when a
      non-zero rate is set. */
    predicate Throttled()
      reads this
    {
      rateLimitPerSecond.Some? && rateLimitPerSecond.value != 0.0
    }

    /** `_request_sync` and `_request_async`: merge the query, build the URL,
      then try up to `max_retries + 1` times. `exchange(url, query, n)` is
      what the network answers to attempt `n`; the throttling before each
      attempt and the sleeps between attempts appear in `steps`. */
    method Request(verb: string, endpoint: string, params: Option<Params>,
                   exchange: (string, Params, nat) -> Exchange)
      returns (r: Attempt<Json, ClientError>, steps: seq<Step>)
      requires Valid()
      requires params.Some? ==> UniqueKeys(params.value)
      ensures var url := BuildUrl(baseUrl, endpoint);
        (r, steps) == RequestFrom(0, maxRetries, backoffFactor, Throttled(),
                                  Outcomes(exchange, url, MergeParams(defaultParams, params)),
                                  FailureMessage(verb, url))
    {
      var query := MergeParams(defaultParams, params);
      var url := BuildUrl(baseUrl, endpoint);
      var throttled := rateLimitPerSecond.Some? && rateLimitPerSecond.value != 0.0;
      r, steps := RetryLoop(verb, url, maxRetries, backoffFactor, throttled, Outcomes(exchange, url, query));
    }

    /** `fetch_stock_list` and `fetch_stock_list_async`: GET `/stocks`. */
    method FetchStockList(market: string, params: Option<Params>,
                          exchange: (string, Params, nat) -> Exchange)
      returns (r: Attempt<Json, ClientError>, steps: seq<Step>)
      requires Valid()
      requires params.Some? ==> UniqueKeys(params.value)
      ensures var url := BuildUrl(baseUrl, "/stocks");
        var query := MergeParams(defaultParams, Some(StockListQuery(market, params)));
        (r, steps) == RequestFrom(0, maxRetries, backoffFactor, Throttled(),
                                  Outcomes(exchange, url, query), FailureMessage("GET", url))
    {
      var query := StockListQuery(market, params);
      if params.Some? && params.value != [] {
        assert UniqueKeys([("market", JStr(market))]);
      }
      r, steps := Request("GET", "/stocks", Some(query), exchange);
    }

    /** `fetch_daily_kline` and `fetch_daily_kline_async`: GET `/daily-kline`. */
    method FetchDailyKline(symbol: string, startDate: Option<string>, endDate: Option<string>,
                           params: Option<Params>, exchange: (string, Params, nat) -> Exchange)
      returns (r: Attempt<Json, ClientError>, steps: seq<Step>)
      requires Valid()
      requires params.Some? ==> UniqueKeys(params.value)
      ensures var url := BuildUrl(baseUrl, "/daily-kline");
        var query := MergeParams(defaultParams, Some(DailyKlineQuery(symbol, startDate, endDate, params)));
        (r, steps) == RequestFrom(0, maxRetries, backoffFactor, Throttled(),
                                  Outcomes(exchange, url, query), FailureMessage("GET", url))
    {
      var query := DailyKlineQuery(symbol, startDate, endDate, params);
      assert UniqueKeys([("symbol", JStr(symbol))]);
      r, steps := Request("GET", "/daily-kline", Some(query), exchange);
    }
  }

  /** Constructing a client: the dataclass fields, then `__post_init__`; a
      refused configuration raises `ValueError` with its message. */
  method NewAshareClient(baseUrl: string, defaultParams: Option<Params>, maxRetries: int,
                         backoffFactor: real, rateLimitPerSecond: Option<real>)
    returns (r: Result<AshareClient, string>)
    requires defaultParams.Some? ==> UniqueKeys(defaultParams.value)
    ensures r.Ok? <==> maxRetries >= 0 && (rateLimitPerSecond.Some? ==> rateLimitPerSecond.value > 0.0)
    ensures maxRetries < 0 ==> r == Err("max_retries must be >= 0")
    ensures maxRetries >= 0 && rateLimitPerSecond.Some? && rateLimitPerSecond.value <= 0.0 ==>
              r == Err("rate_limit_per_second must be positive when provided")
    ensures r.Ok? ==>
      && fresh(r.value) && r.value.Valid()
      && r.value.baseUrl == Text.TrimTrailing(baseUrl, '/') && r.value.defaultParams == defaultParams
      && r.value.maxRetries == maxRetries && r.value.backoffFactor == backoffFactor
      && r.value.rateLimitPerSecond == rateLimitPerSecond
  {
    var client := new AshareClient(baseUrl, defaultParams, maxRetries, backoffFactor, rateLimitPerSecond);
    var error := client.PostInit();
    if error.Some? {
      return Err(error.value);
    }
    return Ok(client);
  }

  // ---------------------------------------------------------------------
  // The client's documented behaviour
  // ---------------------------------------------------------------------

  /** With the default settings (two retries), one failed exchange followed
      by a good one gives the good payload after two calls. */
  lemma RetryThenSucceed<T, E>(backoff: real, outcome: nat -> Attempt<T, E>, message: string)
    requires outcome(0).Threw? && outcome(1).Returned?
    ensures var res := RequestFrom(0, 2, backoff, false, outcome, message);
      res.0 == Returned(outcome(1).value) && SendsOf(res.1) == [0, 1]
  {
    RequestSends(0, 2, backoff, false, outcome, message);
    RequestResult(0, 2, backoff, false, outcome, message);
    assert LastAttempt(0, 2, outcome) == 1;
    assert Range(0, 2) == [0] + Range(1, 2);
  }

  /** A server that always answers with an error status exhausts the
      attempts: `max_retries + 1` calls, then `AshareClientError`. */
  lemma AlwaysFailingRaises(maxRetries: nat, backoff: real, throttled: bool, status: int, message: string)
    requires !IsSuccess(status)
    ensures var res := RequestFrom(0, maxRetries, backoff, throttled,
                                   (n: nat) => Receive(Response(status, None)), message);
      res.0 == Threw(ClientError(message)) && |SendsOf(res.1)| == maxRetries + 1
  {
    RequestResult(0, maxRetries, backoff, throttled, (n: nat) => Receive(Response(status, None)), message);
    RequestFailsIff(0, maxRetries, backoff, throttled, (n: nat) => Receive(Response(status, None)), message);
  }

  /** A body that is not JSON is retried like an HTTP error and ends in
      `AshareClientError` when it never parses. */
  lemma InvalidJsonRaises(maxRetries: nat, backoff: real, throttled: bool, message: string)
    ensures var res := RequestFrom(0, maxRetries, backoff, throttled,
                                   (n: nat) => Receive(Response(200, None)), message);
      res.0 == Threw(ClientError(message)) && |SendsOf(res.1)| == maxRetries + 1
  {
    RequestResult(0, maxRetries, backoff, throttled, (n: nat) => Receive(Response(200, None)), message);
    RequestFailsIff(0, maxRetries, backoff, throttled, (n: nat) => Receive(Response(200, None)), message);
  }
}
