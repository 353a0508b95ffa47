/** providers/base.py, providers/eastmoney.py and providers/qq.py: the bar
    record, the two payload parsers, and `fetch_daily` as one acquire of the
    limiter followed by the retried request and the parse. */
module Providers {
  import opened Wrappers
  import opened Payload
  import opened Dates
  import Text
  import RateLimiter

  /** `ProviderResult`: one daily bar. `raw` is the whole decoded payload. */
  datatype Bar = Bar(symbol: string, tradeDate: Day,
                     open: real, high: real, low: real, close: real,
                     volume: real, turnover: real, raw: Json)

  /** The query parameters of one GET, in insertion order. */
  type Query = seq<(string, Json)>

  /** What the pipeline cannot compute itself. `net(endpoint, query, k)` is
      what the network answers to the k-th attempt (1-based) of that
      request; `parseFloat` is Python's `float(str)`; `isoDate` is
      `date.strftime("%Y-%m-%d")`. */
  datatype World = World(net: (string, Query, nat) -> Exchange,
                         parseFloat: string -> Option<real>,
                         isoDate: Day -> string)

  /** Why a provider call raised instead of returning. */
  datatype Failure =
    | Request(error: NetError)   // the last retried request error
    | RetryGaveUp                // RuntimeError: the retry loop never ran
    | Crash                      // AttributeError/TypeError/ValueError outside the parser's `try`

  /** What `fetch_daily` does: return a bar, return `None`, or raise. */
  datatype Answer = Found(bar: Bar) | Absent | Failed(failure: Failure)

  datatype Source = QQ | EastMoney

  /** The fields of `Settings` a provider reads. */
  datatype Settings = Settings(qqEndpoint: string, eastmoneyEndpoint: string,
                               maxRequestsPerSecond: int,
                               retryAttempts: int, retryBaseDelay: real)

  // ---------------------------------------------------------------------
  // EastMoney
  // ---------------------------------------------------------------------

  /** `isinstance(row, str) and row.startswith(prefix)`. */
  predicate IsMatch(row: Json, prefix: string) {
    row.JStr? && Text.StartsWith(row.s, prefix)
  }

  /** The first string row that starts with `prefix`. */
  function FirstMatch(rows: seq<Json>, prefix: string): (r: Option<string>)
    ensures r.None? <==> forall j :: 0 <= j < |rows| ==> !IsMatch(rows[j], prefix)
    ensures r.Some? ==> exists i :: 0 <= i < |rows| && rows[i] == JStr(r.value) && IsMatch(rows[i], prefix)
                                    && forall j :: 0 <= j < i ==> !IsMatch(rows[j], prefix)
  {
    if rows == [] then None
    else if IsMatch(rows[0], prefix) then Some(rows[0].s)
    else
      var r := FirstMatch(rows[1..], prefix);
      assert forall j :: 1 <= j < |rows| ==> rows[j] == rows[1..][j - 1];
      r
  }

  /** The `for row in klines` search of `EastMoneyProvider._parse_payload`. */
  method FindRow(rows: seq<Json>, prefix: string) returns (target: Option<string>)
    ensures target == FirstMatch(rows, prefix)
  {
    target := None;
    var i := 0;
    while i < |rows|
      invariant 0 <= i <= |rows|
      invariant FirstMatch(rows, prefix) == FirstMatch(rows[i..], prefix)
    {
      if IsMatch(rows[i], prefix) {
        target := Some(rows[i].s);
        return;
      }
      assert rows[i..][1..] == rows[i + 1..];
      i := i + 1;
    }
  }

  /** `float()` applied to each of the given strings. */
  function ParseAll(pieces: seq<string>, parseFloat: string -> Option<real>): (r: Option<seq<real>>)
    ensures r.Some? <==> forall k :: 0 <= k < |pieces| ==> parseFloat(pieces[k]).Some?
    ensures r.Some? ==> |r.value| == |pieces|
                        && forall k :: 0 <= k < |pieces| ==> r.value[k] == parseFloat(pieces[k]).value
  {
    if pieces == [] then Some([])
    else
      var head := parseFloat(pieces[0]);
      var tail := ParseAll(pieces[1..], parseFloat);
      assert forall k :: 1 <= k < |pieces| ==> pieces[k] == pieces[1..][k - 1];
      if head.Some? && tail.Some? then Some([head.value] + tail.value) else None
  }

  /** The row fields after the date: `open, close, high, low, volume,
      turnover` in that order; anything after the seventh field is ignored. */
  function KlineBar(symbol: string, date: Day, row: string, payload: Json,
                    parseFloat: string -> Option<real>): (r: Option<Bar>)
    ensures |Text.Split(row, ',')| < 7 ==> r.None?
  {
    var pieces := Text.Split(row, ',');
    if |pieces| < 7 then None
    else
      match ParseAll(pieces[1..7], parseFloat)
      case None => None
      case Some(v) => Some(Bar(symbol, date, v[0], v[2], v[3], v[1], v[4], v[5], payload))
  }

  /** `EastMoneyProvider._parse_payload`. */
  function EastMoneyParse(symbol: string, date: Day, payload: Json, w: World): (r: Answer)
    ensures r.Found? ==> r.bar.symbol == symbol && r.bar.tradeDate == date && r.bar.raw == payload
    ensures r.Failed? ==> r.failure == Crash
  {
    if !payload.JObj? then Failed(Crash)
    else
      var data := OrEmptyDict(GetOr(payload.fields, "data", JNull));
      if !data.JObj? then Failed(Crash)
      else
        var klines := GetOr(data.fields, "klines", JNull);
        if !Truthy(klines) then Absent
        else match Iterate(klines)
          case None => Failed(Crash)
          case Some(rows) => EastMoneyRows(symbol, date, rows, payload, w)
  }

  /** The row search and the bar built from the matching row. */
  function EastMoneyRows(symbol: string, date: Day, rows: seq<Json>, payload: Json, w: World): (r: Answer)
    ensures r.Found? ==> r.bar.symbol == symbol && r.bar.tradeDate == date && r.bar.raw == payload
    ensures !r.Failed?
  {
    match FirstMatch(rows, w.isoDate(date))
    case None => Absent
    case Some(target) =>
      match KlineBar(symbol, date, target, payload, w.parseFloat)
      case None => Absent
      case Some(bar) => Found(bar)
  }

  /** A payload `{"data": {"klines": rows}}` with a non-empty list of rows
      goes straight to the row search. */
  lemma EastMoneyPayloadRows(symbol: string, date: Day, rows: seq<Json>, w: World)
    requires rows != []
    ensures var payload := JObj([("data", JObj([("klines", JArr(rows))]))]);
      EastMoneyParse(symbol, date, payload, w) == EastMoneyRows(symbol, date, rows, payload, w)
  {
    var payload := JObj([("data", JObj([("klines", JArr(rows))]))]);
    var data := JObj([("klines", JArr(rows))]);
    assert GetOr(payload.fields, "data", JNull) == data;
    assert OrEmptyDict(data) == data;
    assert GetOr(data.fields, "klines", JNull) == JArr(rows);
    assert Truthy(JArr(rows)) && Iterate(JArr(rows)) == Some(rows);
  }

  /** The parser as written, with the row search as a loop. */
  method ParseEastMoney(symbol: string, date: Day, payload: Json, w: World) returns (r: Answer)
    ensures r == EastMoneyParse(symbol, date, payload, w)
  {
    if !payload.JObj? {
      return Failed(Crash);
    }
    var data := OrEmptyDict(GetOr(payload.fields, "data", JNull));
    if !data.JObj? {
      return Failed(Crash);
    }
    var klines := GetOr(data.fields, "klines", JNull);
    if !Truthy(klines) {
      return Absent;
    }
    var rows := Iterate(klines);
    if rows.None? {
      return Failed(Crash);
    }
    var target := FindRow(rows.value, w.isoDate(date));
    if target.None? {
      return Absent;
    }
    var bar := KlineBar(symbol, date, target.value, payload, w.parseFloat);
    r := if bar.Some? then Found(bar.value) else Absent;
  }

  /** A payload `{"data": {"klines": rows}}` whose rows before the target do
      not match, and whose target row is the requested date followed by six
      or more comma-free fields that all parse: the bar maps field 1 to open,
      2 to close, 3 to high, 4 to low, 5 to volume and 6 to turnover, and
      any further field is ignored. */
  lemma EastMoneyFieldMapping(symbol: string, date: Day, w: World,
                              before: seq<Json>, fields: seq<string>, after: seq<Json>)
    requires |fields| >= 7 && fields[0] == w.isoDate(date)
    requires forall p :: p in fields ==> ',' !in p
    requires forall k :: 1 <= k < 7 ==> w.parseFloat(fields[k]).Some?
    requires forall j :: 0 <= j < |before| ==> !IsMatch(before[j], w.isoDate(date))
    ensures var payload := JObj([("data", JObj([("klines", JArr(before + [JStr(Text.Join(fields, ','))] + after))]))]);
      EastMoneyParse(symbol, date, payload, w)
      == Found(Bar(symbol, date,
                   w.parseFloat(fields[1]).value, w.parseFloat(fields[3]).value,
                   w.parseFloat(fields[4]).value, w.parseFloat(fields[2]).value,
                   w.parseFloat(fields[5]).value, w.parseFloat(fields[6]).value, payload))
  {
    var iso := w.isoDate(date);
    var row := Text.Join(fields, ',');
    var rows := before + [JStr(row)] + after;
    var payload := JObj([("data", JObj([("klines", JArr(rows))]))]);
    EastMoneyPayloadRows(symbol, date, rows, w);
    JoinStartsWithFirst(fields, ',');
    assert rows[|before|] == JStr(row);
    FirstMatchAt(rows, iso, |before|);
    Text.JoinSplit(fields, ',');
    KlineFields(symbol, date, row, fields, payload, w.parseFloat);
  }

  lemma KlineFields(symbol: string, date: Day, row: string, fields: seq<string>, payload: Json,
                    parseFloat: string -> Option<real>)
    requires |fields| >= 7 && Text.Split(row, ',') == fields
    requires forall k :: 1 <= k < 7 ==> parseFloat(fields[k]).Some?
    ensures KlineBar(symbol, date, row, payload, parseFloat)
         == Some(Bar(symbol, date, parseFloat(fields[1]).value, parseFloat(fields[3]).value,
                     parseFloat(fields[4]).value, parseFloat(fields[2]).value,
                     parseFloat(fields[5]).value, parseFloat(fields[6]).value, payload))
  {
    var six := fields[1..7];
    assert forall k :: 0 <= k < 6 ==> six[k] == fields[k + 1];
    var v := ParseAll(six, parseFloat);
    assert v.Some?;
  }

  /** The first match is found at the earliest matching index. */
  lemma FirstMatchAt(rows: seq<Json>, prefix: string, i: nat)
    requires i < |rows| && IsMatch(rows[i], prefix)
    requires forall j :: 0 <= j < i ==> !IsMatch(rows[j], prefix)
    ensures FirstMatch(rows, prefix) == Some(rows[i].s)
  {
    var r := FirstMatch(rows, prefix);
    var m :| 0 <= m < |rows| && rows[m] == JStr(r.value) && IsMatch(rows[m], prefix)
             && forall j :: 0 <= j < m ==> !IsMatch(rows[j], prefix);
    assert m == i;
  }

  /** A joined row starts with its first field. */
  lemma JoinStartsWithFirst(pieces: seq<string>, sep: char)
    requires |pieces| >= 1
    ensures Text.StartsWith(Text.Join(pieces, sep), pieces[0])
  {
    if |pieces| > 1 {
      var j := Text.Join(pieces, sep);
      assert j == pieces[0] + ([sep] + Text.Join(pieces[1..], sep));
      assert j[..|pieces[0]|] == pieces[0];
    }
  }

  /** Malformed rows and prices make the parser return `None`, never raise:
      once the payload, its `data` and its `klines` have the shapes the
      parser reads, the only outcomes are a bar or `None`. */
  lemma EastMoneyMalformedIsAbsent(symbol: string, date: Day, payload: Json, w: World)
    requires payload.JObj?
    requires OrEmptyDict(GetOr(payload.fields, "data", JNull)).JObj?
    requires var data := OrEmptyDict(GetOr(payload.fields, "data", JNull));
      Iterate(GetOr(data.fields, "klines", JNull)).Some? || !Truthy(GetOr(data.fields, "klines", JNull))
    ensures !EastMoneyParse(symbol, date, payload, w).Failed?
  {
  }

  // ---------------------------------------------------------------------
  // QQ
  // ---------------------------------------------------------------------

  /** `bar.get(primary, bar.get(fallback))` for a dict: the primary key wins
      whenever it is present, even with a null value. */
  function FieldWithFallback(fields: seq<(string, Json)>, primary: string, fallback: Json): (r: Json)
    ensures (exists k :: 0 <= k < |fields| && fields[k].0 == primary) ==> r == Lookup(fields, primary).value
    ensures (forall k :: 0 <= k < |fields| ==> fields[k].0 != primary) ==> r == fallback
  {
    GetOr(fields, primary, fallback)
  }

  /** The dict the QQ prices are read from: the first element of a
      non-empty `diff` list, otherwise `data` itself. */
  function QQBarSource(data: seq<(string, Json)>): (b: Json)
    ensures (var diff := GetOr(data, "diff", JNull); diff.JArr? && diff.items != [] ==> b == diff.items[0])
    ensures (var diff := GetOr(data, "diff", JNull); !(diff.JArr? && diff.items != []) ==> b == JObj(data))
  {
    var diff := GetOr(data, "diff", JNull);
    if diff.JArr? && diff.items != [] then diff.items[0] else JObj(data)
  }

  /** `float(bar.get(primary, bar.get(fallback)))`. */
  function Price(bar: seq<(string, Json)>, primary: string, fallback: string, w: World): Option<real> {
    PyFloat(FieldWithFallback(bar, primary, GetOr(bar, fallback, JNull)), w.parseFloat)
  }

  /** `float(bar.get(primary, bar.get(fallback, 0)))`. */
  function Amount(bar: seq<(string, Json)>, primary: string, fallback: string, w: World): Option<real> {
    PyFloat(FieldWithFallback(bar, primary, GetOr(bar, fallback, JInt(0))), w.parseFloat)
  }

  /** `QQProvider._parse_payload`. */
  function QQParse(symbol: string, date: Day, payload: Json, w: World): (r: Answer)
    ensures r.Found? ==> r.bar.symbol == symbol && r.bar.tradeDate == date && r.bar.raw == payload
    ensures r.Failed? ==> r.failure == Crash
  {
    if !payload.JObj? then Failed(Crash)
    else
      var data := OrEmptyDict(GetOr(payload.fields, "data", JNull));
      if !Truthy(data) then Absent
      else if !data.JObj? then Failed(Crash)
      else
        var bar := QQBarSource(data.fields);
        if !bar.JObj? then Failed(Crash)
        else QQFromBar(symbol, date, bar.fields, payload, w)
  }

  /** The prices, volume and turnover read from the bar dict. */
  function QQFromBar(symbol: string, date: Day, bar: seq<(string, Json)>, payload: Json, w: World): (r: Answer)
    ensures r.Found? ==> r.bar.symbol == symbol && r.bar.tradeDate == date && r.bar.raw == payload
    ensures r.Failed? ==> r.failure == Crash
  {
    var open := Price(bar, "open", "openPrice", w);
    var high := Price(bar, "high", "highest", w);
    var low := Price(bar, "low", "lowest", w);
    var close := Price(bar, "close", "price", w);
    if open.None? || high.None? || low.None? || close.None? then Absent
    else
      var volume := Amount(bar, "volume", "vol", w);
      var turnover := Amount(bar, "turnover", "turn", w);
      if volume.None? || turnover.None? then Failed(Crash)
      else Found(Bar(symbol, date, open.value, high.value, low.value, close.value,
                     volume.value, turnover.value, payload))
  }

  /** A payload `{"data": d}` with a non-empty dict `d` whose bar source is a
      dict is read from that bar. */
  lemma QQPayloadBar(symbol: string, date: Day, d: seq<(string, Json)>, w: World)
    requires d != [] && QQBarSource(d).JObj?
    ensures var payload := JObj([("data", JObj(d))]);
      QQParse(symbol, date, payload, w) == QQFromBar(symbol, date, QQBarSource(d).fields, payload, w)
  {
    var payload := JObj([("data", JObj(d))]);
    assert Lookup(payload.fields, "data") == Some(JObj(d));
    assert GetOr(payload.fields, "data", JNull) == JObj(d);
    assert Truthy(JObj(d));
    assert OrEmptyDict(JObj(d)) == JObj(d);
  }

  /** The QQ outcome for a payload `{"data": d}` with a dict `d`: a missing
      or unparsable price gives `None`; with all four prices present, the
      bar holds them, and volume and turnover fall back to `vol`/`turn` and
      then 0; a non-numeric volume or turnover raises. */
  lemma QQOutcome(symbol: string, date: Day, d: seq<(string, Json)>, w: World)
    requires d != []
    requires QQBarSource(d).JObj?
    ensures var payload := JObj([("data", JObj(d))]);
      var b := QQBarSource(d).fields;
      var r := QQParse(symbol, date, payload, w);
      && ((Price(b, "open", "openPrice", w).None? || Price(b, "high", "highest", w).None?
           || Price(b, "low", "lowest", w).None? || Price(b, "close", "price", w).None?) ==> r == Absent)
      && (r.Found? ==>
            && Price(b, "open", "openPrice", w) == Some(r.bar.open)
            && Price(b, "high", "highest", w) == Some(r.bar.high)
            && Price(b, "low", "lowest", w) == Some(r.bar.low)
            && Price(b, "close", "price", w) == Some(r.bar.close)
            && Amount(b, "volume", "vol", w) == Some(r.bar.volume)
            && Amount(b, "turnover", "turn", w) == Some(r.bar.turnover))
      && (r.Failed? <==> Price(b, "open", "openPrice", w).Some? && Price(b, "high", "highest", w).Some?
                         && Price(b, "low", "lowest", w).Some? && Price(b, "close", "price", w).Some?
                         && (Amount(b, "volume", "vol", w).None? || Amount(b, "turnover", "turn", w).None?))
  {
    QQPayloadBar(symbol, date, d, w);
  }

  /** A bar dict with neither `volume` nor `vol` has volume 0, and one with
      neither `turnover` nor `turn` has turnover 0. */
  lemma QQAmountDefaultsToZero(bar: seq<(string, Json)>, primary: string, fallback: string, w: World)
    requires forall k :: 0 <= k < |bar| ==> bar[k].0 != primary && bar[k].0 != fallback
    ensures Amount(bar, primary, fallback, w) == Some(0.0)
  {
  }

  // ---------------------------------------------------------------------
  // Providers
  // ---------------------------------------------------------------------

  /** `rate_limiter or AsyncRateLimiter(rate=settings.max_requests_per_second, per=1)`:
      an injected limiter is used as is; otherwise one is built, which
      raises when the configured rate is not positive. */
  function ProviderLimiter(injected: Option<RateLimiter.Limiter>, maxRequestsPerSecond: int)
    : (r: Result<RateLimiter.Limiter, string>)
    ensures injected.Some? ==> r == Ok(injected.value)
    ensures injected.None? ==> (r.Ok? <==> maxRequestsPerSecond > 0)
    ensures injected.None? && r.Ok? ==> r.value == RateLimiter.Limiter(maxRequestsPerSecond, 1.0)
  {
    if injected.Some? then Ok(injected.value)
    else RateLimiter.NewRateLimiter(maxRequestsPerSecond, 1.0)
  }

  /** Every request error is an `Exception`, the default retry set. */
  predicate AnyException(e: NetError) {
    true
  }

  /** A QQ or EastMoney provider. Nothing in it changes after construction. */
  class Provider {
    const source: Source
    const priority: int
    const limiter: RateLimiter.Limiter
    const endpoint: string
    /** Whether an `httpx.AsyncClient` was passed in. */
    const hasClient: bool
    /** `_owns_client = client is None`. */
    const ownsClient: bool
    const retryAttempts: int
    const retryBaseDelay: real

    constructor (source: Source, priority: int, injectedClient: bool,
                 limiter: RateLimiter.Limiter, settings: Settings)
      ensures this.source == source && this.priority == priority && this.limiter == limiter
      ensures endpoint == (if source == QQ then settings.qqEndpoint else settings.eastmoneyEndpoint)
      ensures hasClient == injectedClient && ownsClient == !injectedClient
      ensures retryAttempts == settings.retryAttempts && retryBaseDelay == settings.retryBaseDelay
    {
      this.source := source;
      this.priority := priority;
      this.limiter := limiter;
      endpoint := if source == QQ then settings.qqEndpoint else settings.eastmoneyEndpoint;
      hasClient := injectedClient;
      ownsClient := !injectedClient;
      retryAttempts := settings.retryAttempts;
      retryBaseDelay := settings.retryBaseDelay;
    }

    function Name(): string {
      if source == QQ then "qq" else "eastmoney"
    }

    /** The parameters `_request_daily` sends. */
    function RequestQuery(symbol: string, date: Day, w: World): (q: Query)
      ensures source == EastMoney ==> q == [("fields1", JStr("f1,f2,f3,f4,f5,f6")),
                                           ("fields2", JStr("f51,f52,f53,f54,f55,f56,f57")),
                                           ("klt", JInt(101)), ("fqt", JInt(1)), ("secid", JStr(symbol))]
      ensures source == QQ ==> q == [("page", JInt(1)), ("pageSize", JInt(1)),
                                     ("reqDay", JStr(w.isoDate(date))), ("symbol", JStr(symbol))]
    {
      match source
      case EastMoney =>
        [("fields1", JStr("f1,f2,f3,f4,f5,f6")), ("fields2", JStr("f51,f52,f53,f54,f55,f56,f57")),
         ("klt", JInt(101)), ("fqt", JInt(1)), ("secid", JStr(symbol))]
      case QQ =>
        [("page", JInt(1)), ("pageSize", JInt(1)), ("reqDay", JStr(w.isoDate(date))), ("symbol", JStr(symbol))]
    }

    /** What the k-th attempt of `_request_daily` does. */
    function Outcomes(symbol: string, date: Day, w: World): nat -> Attempt<Json, NetError> {
      (k: nat) => Receive(w.net(endpoint, RequestQuery(symbol, date, w), k))
    }

    function Parse(symbol: string, date: Day, payload: Json, w: World): (r: Answer)
      ensures r.Found? ==> r.bar.symbol == symbol && r.bar.tradeDate == date && r.bar.raw == payload
    {
      if source == QQ then QQParse(symbol, date, payload, w) else EastMoneyParse(symbol, date, payload, w)
    }

    /** `fetch_daily`: acquire the limiter, run the retried request, return
        `None` for a falsy payload and parse any other. A request that keeps
        failing raises its last error. */
    function Respond(symbol: string, date: Day, w: World): (r: (Answer, seq<RateLimiter.Step>))
      ensures r.1 != [] && r.1[0] == RateLimiter.Acquire
      ensures r.0.Found? ==> r.0.bar.symbol == symbol && r.0.bar.tradeDate == date
    {
      var (res, steps) := RateLimiter.RetryFrom(1, retryAttempts, retryBaseDelay, Outcomes(symbol, date, w), AnyException);
      var answer := match res
        case Succeeded(payload) => if !Truthy(payload) then Absent else Parse(symbol, date, payload, w)
        case Propagated(e) => Failed(Request(e))
        case GaveUp => Failed(RetryGaveUp);
      (answer, [RateLimiter.Acquire] + steps)
    }

    method FetchDaily(symbol: string, date: Day, w: World) returns (a: Answer, trace: seq<RateLimiter.Step>)
      ensures (a, trace) == Respond(symbol, date, w)
    {
      trace := [RateLimiter.Acquire];
      var res, steps := RateLimiter.Retry(retryAttempts, retryBaseDelay, Outcomes(symbol, date, w), AnyException);
      trace := trace + steps;
      match res
      case Succeeded(payload) =>
        if !Truthy(payload) {
          a := Absent;
        } else if source == QQ {
          a := QQParse(symbol, date, payload, w);
        } else {
          a := ParseEastMoney(symbol, date, payload, w);
        }
      case Propagated(e) =>
        a := Failed(Request(e));
      case GaveUp =>
        a := Failed(RetryGaveUp);
    }

    /** `close`: the client is closed only when the provider owns it and it
        is set, and a provider owns its client only when none was given, so
        nothing is ever closed. */
    method Close() returns (closed: bool)
      requires ownsClient == !hasClient
      ensures closed == (ownsClient && hasClient)
      ensures !closed
    {
      closed := ownsClient && hasClient;
    }
  }

  /** A provider that gets a falsy payload (null, `{}`, `[]`, 0, "") on its
      first attempt answers `None` after exactly one request. */
  lemma FalsyPayloadIsAbsent(p: Provider, symbol: string, date: Day, w: World)
    requires p.retryAttempts >= 1
    requires var x := w.net(p.endpoint, p.RequestQuery(symbol, date, w), 1);
      x.Response? && IsSuccess(x.status) && x.body.Some? && !Truthy(x.body.value)
    ensures p.Respond(symbol, date, w) == (Absent, [RateLimiter.Acquire, RateLimiter.Call])
  {
    var outcome := p.Outcomes(symbol, date, w);
    var payload := w.net(p.endpoint, p.RequestQuery(symbol, date, w), 1).body.value;
    assert outcome(1) == Returned(payload);
    assert RateLimiter.RetryFrom(1, p.retryAttempts, p.retryBaseDelay, outcome, AnyException)
        == (RateLimiter.Succeeded(payload), [RateLimiter.Call]);
    assert [RateLimiter.Acquire] + [RateLimiter.Call] == [RateLimiter.Acquire, RateLimiter.Call];
  }

  /** `__init__`: resolve the limiter, then build the provider. */
  method NewProvider(source: Source, priority: int, injectedClient: bool,
                     injectedLimiter: Option<RateLimiter.Limiter>, settings: Settings)
    returns (r: Result<Provider, string>)
    ensures r.Err? <==> ProviderLimiter(injectedLimiter, settings.maxRequestsPerSecond).Err?
    ensures r.Ok? ==> fresh(r.value) && r.value.source == source && r.value.priority == priority
                      && r.value.limiter == ProviderLimiter(injectedLimiter, settings.maxRequestsPerSecond).value
                      && r.value.ownsClient == !injectedClient && r.value.hasClient == injectedClient
  {
    match ProviderLimiter(injectedLimiter, settings.maxRequestsPerSecond)
    case Err(msg) =>
      r := Err(msg);
    case Ok(limiter) =>
      var p := new Provider(source, priority, injectedClient, limiter, settings);
      r := Ok(p);
  }
}
