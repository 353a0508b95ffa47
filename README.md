# Ashare_data daily-bar pipeline, modelled in Dafny

Ashare_data collects daily bars (open, high, low, close, volume, turnover) for
A-share stocks. This project models the parts of it that decide what is fetched,
from where, and what ends up in the database:

- **Providers** (`Providers`). The Tencent (QQ) and EastMoney providers build
  the query for one symbol and date and run it under the retry decorator. They
  answer "no bar" for a falsy payload and otherwise parse the payload with each
  site's own field layout. The rate limiter's validation and the retry
  decorator's loop live in `RateLimiter`.
- **Fetcher** (`Fetcher`). `DailyFetcher` sorts its providers by descending
  priority. The sort is stable. The fetcher asks the providers in that order
  and skips those that raise. It cleans the first bar it gets, so that
  low <= open, close <= high.
- **Storage** (`Storage`). `SQLiteStorage` holds three keyed tables
  (securities, daily bars, adjustment factors). Each upsert is
  last-write-wins and commits once per non-empty batch. The storage also
  lists tracked symbols and finds the missing dates of a symbol.
- **Schedulers** (`DailyUpdate`, `Initializer`). The daily update fetches,
  for one date, every symbol that has no bar yet and stores each hit on its
  own. The initial load builds a trading calendar from a file or from
  weekdays. It then fetches and stores the whole history of each symbol.
- **Stock universe** (`Stocks`). The listing reads the exchange's list
  endpoint page by page. It stops at the first page with no `data` or no
  rows, and raises on the first failed request.
- **HTTP client** (`Client`). `AshareClient` merges the default query
  parameters with each call's own and builds the URL. Its request loop
  retries with exponential backoff and raises `AshareClientError` when every
  attempt has failed.

Shared pieces:
- `Payload` models JSON values, Python truthiness, `dict.get`, `float(...)`,
  `str(...)` and one HTTP exchange (`raise_for_status` followed by `json()`).
- `Text` models the string built-ins the code relies on.
- `Dates` gives the weekday of a day ordinal.

The network, the clock and the date parser are parameters (a `World` value,
an exchange function, a `parseDate` function). Every operation is therefore a
function of its inputs and of what the network would answer on each attempt.

Two behaviours of the code are worth knowing when reading the model:

- `async_retry` with `attempts <= 0` never calls the function and raises
  `RuntimeError` (utils/rate_limiter.py:47). `RateLimiter.Retry` returns
  `GaveUp` there.
- Parsing a payload can raise. The QQ provider converts volume and turnover
  outside its `try` (providers/qq.py:66-67), and EastMoney calls `.get` on
  whatever `data` holds (providers/eastmoney.py:49-50). A malformed value
  there raises. The model answers `Failed(Crash)`, and the fetcher then
  moves on to the next provider.

## Model

| member | source | states |
|---|---|---|
| RateLimiter.NewRateLimiter | utils/rate_limiter.py:15-21 | a limiter exists exactly when rate and period are both positive; otherwise the error names the first invalid argument |
| RateLimiter.Retry | utils/rate_limiter.py:37-47 | the loop's result and its trace of calls and sleeps are those of the recursive retry definition; with no attempts allowed the function is never called and the decorator gives up |
| RateLimiter.RetryUnfold | utils/rate_limiter.py:39-46 | an attempt either ends the trace with its one call, or is followed by a sleep and the next attempt with the delay doubled |
| RateLimiter.RetryEndsWithCalls | utils/rate_limiter.py:39-46 | every trace starts and ends with a call: no sleep before the first attempt or after the last |
| RateLimiter.RetryCallCount | utils/rate_limiter.py:39-46 | there are between 1 and `attempts` calls, and exactly one sleep fewer than calls |
| RateLimiter.BackoffAt | utils/rate_limiter.py:38-46 | the k-th backoff delay is `base_delay * 2^k` |
| RateLimiter.RetryBackoff | utils/rate_limiter.py:38-46 | the sleeps of a trace are the backoff sequence starting at the base delay |
| RateLimiter.RetrySleeps | utils/rate_limiter.py:38-46 | the k-th sleep lasts `base_delay * 2^k` seconds |
| RateLimiter.AlwaysFailing | utils/rate_limiter.py:39-44 | when every attempt raises, the function is called `attempts` times and the last exception propagates |
| RateLimiter.StopsAtFirstDecisive | utils/rate_limiter.py:40-44 | the first attempt that returns, or raises an exception not retried, decides the result, and no later attempt is made |
| Providers.FirstMatch | providers/eastmoney.py:54-63 | the target is the first string row that starts with the date, and is absent exactly when no row matches |
| Providers.FirstMatchAt | providers/eastmoney.py:56-61 | a matching row with no match before it is the one selected |
| Providers.FindRow | providers/eastmoney.py:54-61 | the scanning loop selects the row `FirstMatch` defines |
| Providers.ParseAll | providers/eastmoney.py:69-74 | the numbers are parsed exactly when every piece parses, each piece to its own number |
| Providers.KlineBar | providers/eastmoney.py:64-65 | a row with fewer than seven comma-separated fields gives no bar |
| Providers.KlineFields | providers/eastmoney.py:65-76 | a row whose fields parse gives the bar with open, close, high, low, volume and turnover taken from fields 1 to 6 in that order |
| Providers.EastMoneyParse | providers/eastmoney.py:48-79 | a bar found carries the requested symbol and date and the whole payload; the only failure is a crash |
| Providers.EastMoneyRows | providers/eastmoney.py:53-79 | once the kline rows are at hand, parsing never raises |
| Providers.EastMoneyPayloadRows | providers/eastmoney.py:49-52 | a payload with a non-empty `data.klines` list is parsed from those rows |
| Providers.EastMoneyFieldMapping | providers/eastmoney.py:48-76 | a payload whose first row for the date has seven parseable fields gives the bar with the fields mapped as the comment on line 53 describes |
| Providers.EastMoneyMalformedIsAbsent | providers/eastmoney.py:49-79 | when `data` and `klines` have usable shapes, a malformed row or a missing date gives no bar, never an error |
| Providers.ParseEastMoney | providers/eastmoney.py:48-79 | the imperative parser computes `EastMoneyParse` |
| Providers.FieldWithFallback | providers/qq.py:59-62 | `dict.get(primary, fallback)`: the primary field's value when the key is present, the fallback otherwise |
| Providers.QQBarSource | providers/qq.py:54-57 | the bar is the first element of a non-empty `diff` list, and the `data` dict itself otherwise |
| Providers.QQParse | providers/qq.py:47-78 | a bar found carries the requested symbol and date and the whole payload; the only failure is a crash |
| Providers.QQFromBar | providers/qq.py:58-78 | the same holds once the bar dict has been chosen |
| Providers.QQPayloadBar | providers/qq.py:48-57 | a non-empty `data` dict is parsed from the bar that `QQBarSource` chooses |
| Providers.QQOutcome | providers/qq.py:58-78 | a missing or non-numeric price gives no bar; a bar found has each price and amount from its field or its fallback; the parse raises exactly when the prices are fine but volume or turnover is not numeric |
| Providers.QQAmountDefaultsToZero | providers/qq.py:66-67 | absent volume and turnover fields are read as 0 |
| Providers.ProviderLimiter | providers/eastmoney.py:22 | an injected limiter is used as given; otherwise one allowing `max_requests_per_second` calls per second, which is an error unless that is positive |
| Providers.NewProvider | providers/eastmoney.py:20-27 | construction fails exactly when the limiter cannot be built; a provider owns its client exactly when none was injected |
| Providers.Provider.constructor | providers/base.py:42-48 | priority, limiter, retry settings, endpoint and client ownership are as given |
| Providers.Provider.RequestQuery | providers/eastmoney.py:30-36 | EastMoney asks for fields f1-f6 and f51-f57, daily klines, forward adjustment and `secid`; QQ asks for page 1 of size 1 for the ISO date and symbol (providers/qq.py:30-35) |
| Providers.Provider.Parse | providers/qq.py:68-78 | a parsed bar carries the requested symbol, date and payload, whichever site parsed it |
| Providers.Provider.Respond | providers/eastmoney.py:81-87 | every fetch acquires the limiter before anything else, and a bar found is for the requested symbol and date |
| Providers.Provider.FetchDaily | providers/qq.py:80-86 | the imperative fetch returns the answer and trace `Respond` defines |
| Providers.FalsyPayloadIsAbsent | providers/eastmoney.py:84-86 | a first attempt that returns a falsy payload gives "no bar" after one acquire and one call |
| Providers.Provider.Close | providers/eastmoney.py:89-91 | the client is closed only when the provider owns it and it is set, which never holds together |
| Fetcher.Clean | fetchers/daily.py:36-45 | the cleaned bar is ordered (low <= open, close <= high); a zero open becomes the close; high only rises and low only falls, each to an existing price; close, amounts and identity are kept |
| Fetcher.CleanIdempotent | fetchers/daily.py:36-45 | cleaning twice is cleaning once |
| Fetcher.CleanKeepsOrdered | fetchers/daily.py:38-44 | an already ordered bar with a non-zero open is left unchanged |
| Fetcher.InsertByPriority | fetchers/daily.py:20 | inserting into a descending list keeps it descending and adds one element |
| Fetcher.SortByPriority | fetchers/daily.py:20 | the sorted providers are in descending priority and as many as given |
| Fetcher.SortByPriorityPermutes | fetchers/daily.py:20 | sorting is a permutation of the providers |
| Fetcher.SortByPriorityStable | fetchers/daily.py:20 | providers of equal priority keep their given order |
| Fetcher.EqualPriorityKeepsOrder | fetchers/daily.py:20 | of two equal-priority providers, the one given first is still first after sorting |
| Fetcher.DailyFetcher.constructor | fetchers/daily.py:19-20 | the fetcher holds the providers sorted by priority |
| Fetcher.FirstBar | fetchers/daily.py:26-34 | the result is the cleaned bar of the first answer that found one, with the number of providers asked, or none after asking them all |
| Fetcher.FirstFoundSpec | fetchers/daily.py:26-34 | the fetch returns nothing exactly when no provider has a bar; otherwise the cleaned bar of the first provider that has one, no earlier provider having one, and it asks exactly up to that provider |
| Fetcher.AskInOrder | fetchers/daily.py:26-34 | the loop over providers computes the result and call count that `FirstFound` defines |
| Fetcher.DailyFetcher.Fetch | fetchers/daily.py:23-34 | the fetch returns the first-found bar in priority order |
| Fetcher.FallbackAfterFailure | fetchers/daily.py:27-33 | when the higher-priority provider raises, the lower one's bar is returned after asking both |
| Fetcher.DailyFetcher.Close | fetchers/daily.py:47-49 | every provider is closed, in priority order, and none of them closes a client |
| Storage.UpsertKeys | storage/sqlite.py:139-148 | after an upsert, a key is present exactly when it was before or some record has it |
| Storage.UpsertLastWins | storage/sqlite.py:139-148 | a key's row is the value of the last record with that key |
| Storage.UpsertUntouched | storage/sqlite.py:139-148 | keys not in the batch keep their presence and their row |
| Storage.UpsertIdempotent | storage/sqlite.py:139-148 | upserting the same batch twice gives the same table as once |
| Storage.UpsertAppend | storage/sqlite.py:136-150 | upserting two batches one after the other equals upserting their concatenation |
| Storage.SecurityRecords | storage/sqlite.py:81-90 | one record per security, keyed by symbol, carrying name, type and listing dates |
| Storage.BarRecords | storage/sqlite.py:115-128 | one record per bar, keyed by symbol and trade date, carrying prices, amounts and payload |
| Storage.FactorRecords | storage/sqlite.py:156-163 | one record per factor, keyed by symbol and trade date |
| Storage.SQLiteStorage.constructor | storage/sqlite.py:31-34 | a new store has empty tables and no commits |
| Storage.SQLiteStorage.UpsertSecurities | storage/sqlite.py:80-112 | the securities table is upserted with the records, the other tables are unchanged, and a non-empty batch commits once |
| Storage.SQLiteStorage.UpsertDailyBars | storage/sqlite.py:114-153 | the bar table is upserted with the records, the other tables are unchanged, and a non-empty batch commits once |
| Storage.SQLiteStorage.UpsertAdjustmentFactors | storage/sqlite.py:155-182 | the factor table is upserted with the records, the other tables are unchanged, and a non-empty batch commits once |
| Storage.SQLiteStorage.ListTrackedSymbols | storage/sqlite.py:184-193 | the result is every tracked symbol, once each, in ascending order |
| Storage.AscendingUnique | storage/sqlite.py:190-191 | two strictly ascending lists with the same members are equal, so `ORDER BY symbol` fixes the list |
| Storage.MissingDates | storage/sqlite.py:195-205 | a date is missing exactly when it is requested and the symbol has no bar for it; the result keeps request order and lists such a date as many times as it is requested |
| Storage.UpsertedNotMissing | storage/sqlite.py:195-205 | a date just stored for a symbol is not missing for it |
| Storage.MissingUnaffected | storage/sqlite.py:195-205 | storing bars for other symbols or dates does not change a symbol's missing dates |
| Storage.OrderedRowsPreserved | storage/sqlite.py:114-148 | storing ordered bars into a table of ordered rows keeps every row ordered |
| DailyUpdate.FirstOccurrences | scheduler/daily_update.py:37-41 | the symbols are deduplicated with none lost or added |
| DailyUpdate.FirstOccurrencesOrder | scheduler/daily_update.py:37-41 | the deduplicated symbols keep the order of their first occurrence |
| DailyUpdate.ComputeMissing | scheduler/daily_update.py:36-41 | every requested symbol is marked missing exactly when it has no bar for the date; keys follow first-occurrence order |
| DailyUpdate.Pending | scheduler/daily_update.py:26-28 | the symbols fetched are exactly those among the keys with no bar for the date |
| DailyUpdate.HitBars | scheduler/daily_update.py:29-31 | at most one bar per symbol fetched, each for the date and for a requested symbol |
| DailyUpdate.FetchAndStore | scheduler/daily_update.py:29-32 | a symbol's first-found bar is stored and committed on its own, and a miss changes nothing |
| DailyUpdate.FetchPending | scheduler/daily_update.py:26-32 | exactly the pending symbols are fetched, and their hits are stored with one commit each |
| DailyUpdate.RunDailyUpdate | scheduler/daily_update.py:13-33 | without symbols the tracked list is used; pending symbols are fetched in first-occurrence order and every hit is stored with its own commit; only the bar table changes |
| DailyUpdate.NothingToDo | scheduler/daily_update.py:26-28 | when every symbol already has its bar, nothing is fetched or committed |
| DailyUpdate.NothingPending | scheduler/daily_update.py:26-28 | when every symbol has its bar, no symbol is pending |
| DailyUpdate.HitsAreStored | scheduler/daily_update.py:29-31 | every fetched symbol that some provider answers ends with a bar for the date |
| Initializer.WeekdaysIn | scheduler/initializer.py:48-55 | the calendar holds exactly the weekdays between start and end, in increasing order |
| Initializer.CalendarFromWeekdays | scheduler/initializer.py:48-55 | the day-by-day loop builds that calendar |
| Initializer.FiveWeekdaysAWeek | scheduler/initializer.py:52-53 | every seven consecutive days hold five weekdays |
| Initializer.ParsedAt | scheduler/initializer.py:62-68 | each line is read on its own: stripped, blank lines skipped, the date parsed |
| Initializer.InRangeMembers | scheduler/initializer.py:69-70 | a date is kept exactly when some line gives it and it lies in the range |
| Initializer.FileDatesMembers | scheduler/initializer.py:58-71 | the file calendar holds exactly the in-range dates of its lines |
| Initializer.CalendarFromFile | scheduler/initializer.py:58-71 | the line-by-line loop keeps those dates in file order, at most one per line, all in range |
| Initializer.LineDateIgnoresPadding | scheduler/initializer.py:62 | surrounding whitespace does not change what a line gives |
| Initializer.LoadTradingCalendar | scheduler/initializer.py:39-45 | a present file gives the file calendar, otherwise the weekday calendar; either way every date lies in range |
| Initializer.Requests | scheduler/initializer.py:29-30 | one request per calendar date for the symbol, in calendar order |
| Initializer.FetchPlanShape | scheduler/initializer.py:27-30 | the load asks symbol by symbol and date by date: request `i*|calendar| + j` is symbol i on date j |
| Initializer.SymbolBars | scheduler/initializer.py:29-32 | at most one bar per calendar date, all for the symbol |
| Initializer.HistoryDates | scheduler/initializer.py:29-32 | every bar of a symbol's history is for a calendar date |
| Initializer.FoundInHistory | scheduler/initializer.py:29-32 | a bar found for a calendar date is in the symbol's history |
| Initializer.FetchHistory | scheduler/initializer.py:28-32 | the date loop collects the symbol's history and asks each date once, in order |
| Initializer.LoadCommits | scheduler/initializer.py:33-34 | at most one commit per symbol, each of a non-empty batch of bars |
| Initializer.LoadSymbol | scheduler/initializer.py:28-34 | one symbol's history is stored in one batch, and only when it is non-empty |
| Initializer.LoadedBarsRequested | scheduler/initializer.py:27-34 | every stored bar is for a requested symbol and a calendar date |
| Initializer.HistoryInLoad | scheduler/initializer.py:27-34 | every bar of every symbol's history is stored |
| Initializer.RunInitialLoad | scheduler/initializer.py:15-36 | the calendar is loaded, every symbol is asked on every date in order, each non-empty history is stored with one commit, and only the bar table changes |
| Initializer.LoadedIsNotMissing | scheduler/initializer.py:27-34 | after the load, a symbol and date that some provider answers is no longer missing, so the daily update skips it |
| Stocks.PageQueryContents | stocks.py:72 | page n asks for `pn = n` and `pz = 500` (`PageSize`) and then the fixed parameters |
| Stocks.ParseStock | stocks.py:32-38 | a stock parses exactly when code and name are truthy and the market is present and not null; its fields are those values, the market as `str(...)` |
| Stocks.RowParses | stocks.py:32-38 | a row with a code, a name and an integer market parses, the market in decimal |
| Stocks.MarketZeroIsKept | stocks.py:36-38 | market 0 is kept as "0" |
| Stocks.ParseRows | stocks.py:88-89 | a page's rows parse exactly when each is a dict; every stock kept has a code and a name |
| Stocks.ReadPage | stocks.py:73-89 | a failed request raises and a page goes on only with a decoded dict body |
| Stocks.EmptyDiffEnds | stocks.py:84-86 | an empty `diff` list ends the listing |
| Stocks.LastPage | stocks.py:68-93 | the listing stops at the first page that does not go on |
| Stocks.ListingAt | stocks.py:80-93 | stopping at an error raises it; stopping at an empty page returns the rows of every page before it |
| Stocks.RequestsAt | stocks.py:70-72 | request i asks for page i+1 |
| Stocks.ListPages | stocks.py:68-93 | the page loop returns that listing and asks for pages 1 to the last page read |
| Stocks.ListAllStocks | stocks.py:41-96 | the listing reads pages until the first empty one or the first error, and returns all rows read before it |
| Stocks.ReadPageAt | stocks.py:72-89 | one loop iteration reads page i as `ReadPage` defines |
| Stocks.RowsValid | stocks.py:88-89 | every stock of a page has a truthy code and name |
| Stocks.ListedRowsValid | stocks.py:88-89 | every stock listed has a truthy code and name |
| Stocks.ListPageOutcome | stocks.py:80-89 | a page of dict rows goes on with those rows parsed, and an empty one ends the listing |
| Stocks.PaginatesUntilEmpty | stocks.py:68-93 | non-empty pages followed by an empty one are all read, and their rows are returned in page order |
| Stocks.LaterPagesIgnored | stocks.py:84-86 | pages after the stopping page change neither the result nor the requests |
| Stocks.FirstPageErrorRaises | stocks.py:73-74 | an HTTP error status on page 1 raises at once |
| Client.PutLookup | Ashare_data/client.py:104-108 | after `query[key] = value` the key maps to the value and every other key is unchanged |
| Client.UpdateLookup | Ashare_data/client.py:153-154 | after `dict.update`, a key the other dict has takes its value; every other key keeps the old one |
| Client.UpdateKeysFrom | Ashare_data/client.py:153-154 | updating with new keys appends them in their order |
| Client.MergeParams | Ashare_data/client.py:149-155 | a merged query never repeats a key |
| Client.MergeLookup | Ashare_data/client.py:149-155 | the merged query has the call's value for every key the call gives, the default for every other default key, and nothing else |
| Client.MergeKeepsDefaultsFirst | Ashare_data/client.py:149-155 | the default keys come first, in their order |
| Client.DateBoundLookup | Ashare_data/client.py:105-108 | a start or end date is added only when given and non-empty |
| Client.WithParamsLookup | Ashare_data/client.py:109-110 | extra call parameters override the built query |
| Client.StockListQueryContents | Ashare_data/client.py:90-92 | the stock-list query is `market` plus the extra parameters, which win on a clash |
| Client.DailyKlineQueryContents | Ashare_data/client.py:104-110 | the kline query is the symbol, each non-empty date bound and the extra parameters, which win on a clash |
| Client.BuildUrl | Ashare_data/client.py:157-162 | an absolute URL is used as given; any other endpoint is joined to the base with exactly one `/` taken from the endpoint's leading slash |
| Client.SingleSlashJoin | Ashare_data/client.py:157-162 | with the base's trailing slashes trimmed, the join has a single slash between base and endpoint |
| Client.SentSteps | Ashare_data/client.py:196-203 | an attempt throttles once when rate-limited and sends once |
| Client.PauseForSteps | Ashare_data/client.py:208-210 | the backoff sleeps only for a positive delay |
| Client.LastAttemptIsFirstSuccess | Ashare_data/client.py:196-207 | the loop stops at the first attempt that succeeds, or at the last allowed attempt |
| Client.Retries | Ashare_data/client.py:204-210 | a failed attempt that is not the last is followed by its backoff and the next attempt |
| Client.Stops | Ashare_data/client.py:201-209 | a successful attempt returns its JSON; a failed last attempt raises the failure message |
| Client.RequestSends | Ashare_data/client.py:196-203 | attempts 0 up to the stopping attempt are each sent once, in order |
| Client.RequestThrottles | Ashare_data/client.py:196-198 | a rate-limited client throttles before every attempt and an unlimited one never does |
| Client.RequestPauses | Ashare_data/client.py:206-210 | after failed attempt n the loop sleeps `backoff_factor * 2^n` when that is positive, and never after the stopping attempt |
| Client.RequestResult | Ashare_data/client.py:196-209 | the request returns exactly when the stopping attempt succeeded, with its JSON; otherwise it raises "GET url failed after retries" |
| Client.RequestFailsIff | Ashare_data/client.py:196-209 | the request raises exactly when all `max_retries + 1` attempts fail, and then it has sent all of them |
| Client.RetryLoop | Ashare_data/client.py:192-211 | the `for` loop computes the recursive request definition |
| Client.AshareClient.constructor | Ashare_data/client.py:52-63 | the fields are as given |
| Client.AshareClient.PostInit | Ashare_data/client.py:65-74 | trailing slashes are trimmed from the base URL; a negative retry count or a non-positive rate limit is rejected, the retry count first |
| Client.NewAshareClient | Ashare_data/client.py:65-74 | construction succeeds exactly when the settings are valid, and gives a client with the trimmed base URL |
| Client.AshareClient.Request | Ashare_data/client.py:192-211 | a request sends the merged query to the built URL under the retry loop |
| Client.AshareClient.FetchStockList | Ashare_data/client.py:79-93 | the stock list is a GET of `/stocks` with the market and merged parameters |
| Client.AshareClient.FetchDailyKline | Ashare_data/client.py:95-111 | the daily kline is a GET of `/daily-kline` with the kline query merged over the defaults |
| Client.RetryThenSucceed | tests/test_client.py:9-32 | a first failure followed by a success returns the second attempt's JSON after two sends |
| Client.AlwaysFailingRaises | tests/test_client.py:71-88 | an endpoint that always answers an error status raises after `max_retries + 1` sends |
| Client.InvalidJsonRaises | tests/test_client.py:91-102 | a body that is not JSON raises after `max_retries + 1` sends |
| Text.StripSlice | scheduler/initializer.py:62 | `strip()` removes exactly the leading and trailing whitespace |
| Text.StripIdempotent | scheduler/initializer.py:62 | stripping twice is stripping once |
| Text.TrimTrailing | Ashare_data/client.py:66 | `rstrip("/")` removes exactly the trailing slashes |
| Text.SplitJoin | providers/eastmoney.py:65 | joining the pieces of `split(",")` gives back the string |
| Text.JoinSplit | providers/eastmoney.py:65 | splitting a join of comma-free pieces gives back the pieces |
| Text.InsertAscending | storage/sqlite.py:190 | inserting a new key into an ascending list keeps it ascending, with exactly one more member |
| Text.LexLessTransitive | storage/sqlite.py:190 | the key ordering used by `ORDER BY` is transitive |
| Text.LexLessTotal | storage/sqlite.py:190 | any two distinct keys are ordered one way or the other |
| Text.DecimalRoundTrip | stocks.py:38 | `str` of an integer market reads back as the same integer |
| Payload.Lookup | stocks.py:33-35 | `dict.get` finds a value exactly when the key is present, and the value is that key's |
| Payload.OrEmptyDict | providers/eastmoney.py:49 | `x or {}` keeps a truthy value and replaces any falsy one with an empty dict |
| Payload.Iterate | providers/eastmoney.py:56 | iteration yields a list's items, a dict's keys or a string's characters, and raises on anything else |
| Payload.PyFloat | providers/eastmoney.py:69-74 | `float()` takes ints and floats as they are, parses strings, and raises on null, lists and dicts |
| Payload.Receive | stocks.py:73-78 | a response yields its JSON exactly for a 2xx status with a decodable body; any other status raises its status error |
| Dates.Weekday | scheduler/initializer.py:52 | the weekday of a day lies in 0..6 |

## Left out

- The limiter's semaphore and its delayed release are not modelled. A fetch records one `Acquire` step before its attempts, so the order of acquire and call is modelled but the timing is not (utils/rate_limiter.py:20-29).
- The client's throttle is one `Throttle` step before each attempt. Its lock, its monotonic clock and the time it waits are not modelled.
- HTTP transport is not modelled. Each attempt's answer is a function of the URL, the query and the attempt number. Headers, timeouts and client reuse or closing around a request are left out.
- The async variants (`fetch_stock_list_async`, `fetch_daily_kline_async`, `_request_async`) do the same as the sync ones. They share the sync model, and concurrency is not modelled.
- The final `raise AshareClientError("Request failed")` (Ashare_data/client.py:211) cannot be reached, because the loop makes at least one attempt. The model has no such path.
- SQLite itself is not modelled: table creation, `to_thread`, and the SQL text. A table is a map, and a commit is a record of the batch written. `json.dumps` of the payload is kept as the payload value.
- Prices are real numbers, not floating point. `float()` of an integer always succeeds in the model: the `OverflowError` Python raises for an integer beyond the float range is not modelled. In the QQ provider that error would escape its `except (TypeError, ValueError)` and crash the fetch rather than give no bar.
- String-to-number parsing, date parsing (`strptime`) and ISO formatting are parameters of the model.
- Days are unbounded integer ordinals. Python's year range 1..9999 is not modelled. So `_calendar_from_weekdays` running up to `date.max` returns the weekday list in the model, while the source raises `OverflowError` when `cursor += timedelta(days=1)` steps past 9999-12-31 (scheduler/initializer.py:54).
- Stocks.ListAllStocks: modelled only for page sequences that reach a stopping page (an error or an empty page). A listing that never stops would run forever, and the model does not cover it.
- Configuration loading (`get_settings`) is replaced by a `Settings` value. Logging is not modelled.
- Providers.Provider.Close: the model cannot express a provider that owns a client it was given, so a close always does nothing. The source behaves the same way because ownership is set from `client is None`.
- Fetcher.Clean: prices cannot be `None` in the model. `float(x or 0)` on a missing volume or turnover therefore reduces to keeping the value.
