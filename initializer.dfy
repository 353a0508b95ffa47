/** scheduler/initializer.py: the trading calendar and the full-history
    bootstrap. */
module Initializer {
  import opened Wrappers
  import opened Dates
  import Text
  import opened Providers
  import opened Fetcher
  import opened Storage
  import opened DailyUpdate

  // ---------------------------------------------------------------------
  // The weekday calendar
  // ---------------------------------------------------------------------

  /** Monday to Friday from `start` to `end`, both included, ascending. */
  function WeekdaysIn(start: Day, end: Day): (r: seq<Day>)
    ensures forall d :: d in r <==> start <= d <= end && IsWeekday(d)
    ensures StrictlyIncreasing(r)
    decreases end - start
  {
    if end < start then []
    else
      var r := WeekdaysIn(start, end - 1);
      assert forall i :: 0 <= i < |r| ==> r[i] in r;
      r + (if IsWeekday(end) then [end] else [])
  }

  /** `_calendar_from_weekdays`: walk a cursor from `start` to `end`. */
  method CalendarFromWeekdays(start: Day, end: Day) returns (calendar: seq<Day>)
    ensures calendar == WeekdaysIn(start, end)
  {
    var cursor := start;
    calendar := [];
    while cursor <= end
      invariant start <= cursor && (cursor <= end + 1 || cursor == start)
      invariant calendar == WeekdaysIn(start, cursor - 1)
      decreases end - cursor
    {
      if Weekday(cursor) < 5 {
        calendar := calendar + [cursor];
      }
      cursor := cursor + 1;
    }
  }

  /** Any seven consecutive days hold exactly five weekdays. */
  lemma FiveWeekdaysAWeek(start: Day)
    ensures |WeekdaysIn(start, start + 6)| == 5
  {
    assert |WeekdaysIn(start, start + 6)|
        == Mark(start) + Mark(start + 1) + Mark(start + 2) + Mark(start + 3)
           + Mark(start + 4) + Mark(start + 5) + Mark(start + 6) by {
      assert WeekdaysIn(start, start - 1) == [];
      CountStep(start, start);
      CountStep(start, start + 1);
      CountStep(start, start + 2);
      CountStep(start, start + 3);
      CountStep(start, start + 4);
      CountStep(start, start + 5);
      CountStep(start, start + 6);
    }
    NextWeekday(start);
    NextWeekday(start + 1);
    NextWeekday(start + 2);
    NextWeekday(start + 3);
    NextWeekday(start + 4);
    NextWeekday(start + 5);
  }

  /** One for a weekday, nothing for a weekend day. */
  function Mark(d: Day): nat
  {
    if IsWeekday(d) then 1 else 0
  }

  /** The day after a Sunday is a Monday; otherwise the weekday goes up by one. */
  lemma NextWeekday(d: Day)
    ensures Weekday(d + 1) == if Weekday(d) == 6 then 0 else Weekday(d) + 1
  {
  }

  lemma CountStep(start: Day, end: Day)
    requires start <= end
    ensures |WeekdaysIn(start, end)| == |WeekdaysIn(start, end - 1)| + Mark(end)
  {
  }

  // ---------------------------------------------------------------------
  // The calendar file
  // ---------------------------------------------------------------------

  /** The date on one line of the calendar file: the line stripped of
      surrounding whitespace, skipped when blank, and read by `parseDate`
      (`strptime` with `%Y-%m-%d`, `None` where it raises `ValueError`). */
  function LineDate(line: string, parseDate: string -> Option<Day>): Option<Day>
  {
    var text := Text.Strip(line);
    if text == [] then None else parseDate(text)
  }

  /** The date read from each line of the file, in file order. */
  function Parsed(lines: seq<string>, parseDate: string -> Option<Day>): (r: seq<Option<Day>>)
    ensures |r| == |lines|
  {
    if lines == [] then []
    else Parsed(lines[..|lines| - 1], parseDate) + [LineDate(lines[|lines| - 1], parseDate)]
  }

  lemma {:induction false} ParsedAt(lines: seq<string>, parseDate: string -> Option<Day>, i: int)
    requires 0 <= i < |lines|
    ensures Parsed(lines, parseDate)[i] == LineDate(lines[i], parseDate)
  {
    if i < |lines| - 1 {
      var init := lines[..|lines| - 1];
      ParsedAt(init, parseDate, i);
      assert init[i] == lines[i];
    }
  }

  /** The dates read that fall between `start` and `end`, in order. */
  function InRange(dates: seq<Option<Day>>, start: Day, end: Day): (r: seq<Day>)
    ensures |r| <= |dates|
    ensures forall i :: 0 <= i < |r| ==> start <= r[i] <= end
  {
    if dates == [] then []
    else
      var found := dates[|dates| - 1];
      InRange(dates[..|dates| - 1], start, end)
        + (if found.Some? && start <= found.value <= end then [found.value] else [])
  }

  lemma {:induction false} InRangeMembers(dates: seq<Option<Day>>, start: Day, end: Day, d: Day)
    ensures d in InRange(dates, start, end)
        <==> exists i :: 0 <= i < |dates| && dates[i] == Some(d) && start <= d <= end
  {
    if dates != [] {
      var init := dates[..|dates| - 1];
      var last := dates[|dates| - 1];
      var tail := if last.Some? && start <= last.value <= end then [last.value] else [];
      assert InRange(dates, start, end) == InRange(init, start, end) + tail;
      InRangeMembers(init, start, end, d);
      if d in InRange(dates, start, end) {
        if d in InRange(init, start, end) {
          var i :| 0 <= i < |init| && init[i] == Some(d) && start <= d <= end;
          assert dates[i] == init[i];
        } else {
          assert d in tail;
          assert dates[|dates| - 1] == Some(d) && start <= d <= end;
        }
      }
      if exists i :: 0 <= i < |dates| && dates[i] == Some(d) && start <= d <= end {
        var i :| 0 <= i < |dates| && dates[i] == Some(d) && start <= d <= end;
        if i < |init| {
          assert init[i] == Some(d);
        } else {
          assert i == |dates| - 1;
        }
      }
    }
  }

  /** The dates of the file's lines that fall between `start` and `end`,
      in file order. */
  function FileDates(lines: seq<string>, parseDate: string -> Option<Day>, start: Day, end: Day): (r: seq<Day>)
    ensures |r| <= |lines|
    ensures forall i :: 0 <= i < |r| ==> start <= r[i] <= end
  {
    InRange(Parsed(lines, parseDate), start, end)
  }

  /** A date is in the file calendar exactly when some line holds it and it
      falls between `start` and `end`. */
  lemma FileDatesMembers(lines: seq<string>, parseDate: string -> Option<Day>, start: Day, end: Day, d: Day)
    ensures d in FileDates(lines, parseDate, start, end)
        <==> exists i :: 0 <= i < |lines| && LineDate(lines[i], parseDate) == Some(d) && start <= d <= end
  {
    var dates := Parsed(lines, parseDate);
    InRangeMembers(dates, start, end, d);
    forall i | 0 <= i < |lines|
      ensures dates[i] == LineDate(lines[i], parseDate)
    {
      ParsedAt(lines, parseDate, i);
    }
  }

  /** `_calendar_from_file` over the file's lines. */
  method CalendarFromFile(lines: seq<string>, parseDate: string -> Option<Day>, start: Day, end: Day)
    returns (dates: seq<Day>)
    ensures dates == FileDates(lines, parseDate, start, end)
  {
    dates := [];
    for i := 0 to |lines|
      invariant dates == InRange(Parsed(lines[..i], parseDate), start, end)
    {
      ReadOneLine(lines, parseDate, start, end, i);
      var line := Text.Strip(lines[i]);
      if line == [] {
        continue;
      }
      var current := parseDate(line);
      if current.None? {
        continue;
      }
      if start <= current.value <= end {
        dates := dates + [current.value];
      }
    }
    assert lines[..|lines|] == lines;
  }

  /** Reading one more line adds its date when it has one in range. */
  lemma ReadOneLine(lines: seq<string>, parseDate: string -> Option<Day>, start: Day, end: Day, i: int)
    requires 0 <= i < |lines|
    ensures var found := LineDate(lines[i], parseDate);
      InRange(Parsed(lines[..i + 1], parseDate), start, end)
        == InRange(Parsed(lines[..i], parseDate), start, end)
           + (if found.Some? && start <= found.value <= end then [found.value] else [])
  {
    var before := Parsed(lines[..i], parseDate);
    var after := before + [LineDate(lines[i], parseDate)];
    assert lines[..i + 1][..i] == lines[..i];
    assert Parsed(lines[..i + 1], parseDate) == after;
    assert after[..i] == before;
  }

  /** Surrounding whitespace on a line does not change its date. */
  lemma LineDateIgnoresPadding(line: string, parseDate: string -> Option<Day>)
    ensures LineDate(Text.Strip(line), parseDate) == LineDate(line, parseDate)
  {
    Text.StripIdempotent(line);
  }

  /** The configured calendar file as the run finds it. */
  datatype CalendarFile = NotConfigured | Missing | Present(lines: seq<string>)

  /** `load_trading_calendar`: the file's dates when a calendar file is
      configured and exists, the weekdays otherwise. */
  method LoadTradingCalendar(file: CalendarFile, parseDate: string -> Option<Day>, start: Day, end: Day)
    returns (calendar: seq<Day>)
    ensures file.Present? ==> calendar == FileDates(file.lines, parseDate, start, end)
    ensures !file.Present? ==> calendar == WeekdaysIn(start, end)
    ensures forall i :: 0 <= i < |calendar| ==> start <= calendar[i] <= end
  {
    if file.Present? {
      calendar := CalendarFromFile(file.lines, parseDate, start, end);
    } else {
      calendar := CalendarFromWeekdays(start, end);
      assert forall i :: 0 <= i < |calendar| ==> calendar[i] in calendar;
    }
  }

  // ---------------------------------------------------------------------
  // The bootstrap
  // ---------------------------------------------------------------------

  /** The `(symbol, date)` pairs asked of the fetcher for one symbol. */
  function Requests(symbol: string, calendar: seq<Day>): (r: seq<(string, Day)>)
    ensures |r| == |calendar|
    ensures forall j :: 0 <= j < |calendar| ==> r[j] == (symbol, calendar[j])
  {
    if calendar == [] then []
    else
      var init := calendar[..|calendar| - 1];
      assert forall j :: 0 <= j < |init| ==> init[j] == calendar[j];
      Requests(symbol, init) + [(symbol, calendar[|calendar| - 1])]
  }

  /** Every fetch of the run, symbol by symbol and date by date. */
  function FetchPlan(symbols: seq<string>, calendar: seq<Day>): seq<(string, Day)>
  {
    if symbols == [] then []
    else FetchPlan(symbols[..|symbols| - 1], calendar) + Requests(symbols[|symbols| - 1], calendar)
  }

  /** The position of the fetch for symbol `i` on date `j` when every
      symbol is fetched on `c` dates. */
  function Slot(i: nat, j: nat, c: nat): nat
  {
    i * c + j
  }

  /** The plan asks for every symbol on every date: the fetch at
      `Slot(i, j, |calendar|)` is symbol `i` on date `j`. */
  lemma {:induction false} FetchPlanShape(symbols: seq<string>, calendar: seq<Day>)
    ensures |FetchPlan(symbols, calendar)| == |symbols| * |calendar|
    ensures forall i, j :: 0 <= i < |symbols| && 0 <= j < |calendar| ==>
              Slot(i, j, |calendar|) < |FetchPlan(symbols, calendar)| &&
              FetchPlan(symbols, calendar)[Slot(i, j, |calendar|)] == (symbols[i], calendar[j])
  {
    if symbols != [] {
      var n := |symbols| - 1;
      var c := |calendar|;
      var init := symbols[..n];
      var prev := FetchPlan(init, calendar);
      var row := Requests(symbols[n], calendar);
      var plan := FetchPlan(symbols, calendar);
      assert plan == prev + row;
      assert |prev| == n * c by {
        FetchPlanShape(init, calendar);
      }
      RowsGrow(n, c);
      forall i, j | 0 <= i < |symbols| && 0 <= j < c
        ensures Slot(i, j, c) < |plan| && plan[Slot(i, j, c)] == (symbols[i], calendar[j])
      {
        if i < n {
          assert Slot(i, j, c) < |prev| && prev[Slot(i, j, c)] == (init[i], calendar[j]) by {
            FetchPlanShape(init, calendar);
          }
          assert symbols[i] == init[i];
        } else {
          assert Slot(i, j, c) == |prev| + j by {
            SlotOfLastRow(n, j, c);
          }
          assert row[j] == (symbols[i], calendar[j]);
        }
      }
    }
  }

  lemma RowsGrow(n: nat, c: nat)
    ensures n * c + c == (n + 1) * c
  {
  }

  lemma SlotOfLastRow(n: nat, j: nat, c: nat)
    ensures Slot(n, j, c) == n * c + j
  {
  }

  /** The bars the fetcher returns for one symbol over the calendar, in date
      order; a date with no bar contributes nothing. */
  function SymbolBars(symbol: string, calendar: seq<Day>, fetcher: DailyFetcher, w: World): (r: seq<Bar>)
    ensures |r| <= |calendar|
    ensures forall i :: 0 <= i < |r| ==> r[i].symbol == symbol
  {
    if calendar == [] then []
    else
      var last := calendar[|calendar| - 1];
      var found := FirstFound(fetcher.providers, symbol, last, w).0;
      var r := SymbolBars(symbol, calendar[..|calendar| - 1], fetcher, w) + Hits(found);
      if found.Some? then FoundCarriesSymbol(fetcher, symbol, last, w); r else r
  }

  /** Every bar of a symbol's history is for a date of the calendar. */
  lemma {:induction false} HistoryDates(symbol: string, calendar: seq<Day>, fetcher: DailyFetcher, w: World)
    ensures forall b :: b in SymbolBars(symbol, calendar, fetcher, w) ==> b.tradeDate in calendar
  {
    if calendar != [] {
      var init := calendar[..|calendar| - 1];
      var last := calendar[|calendar| - 1];
      var found := FirstFound(fetcher.providers, symbol, last, w).0;
      HistoryDates(symbol, init, fetcher, w);
      assert forall d :: d in init ==> d in calendar;
      if found.Some? {
        FoundCarriesSymbol(fetcher, symbol, last, w);
      }
    }
  }

  /** All the bars of the run, symbol by symbol. */
  function LoadedBars(symbols: seq<string>, calendar: seq<Day>, fetcher: DailyFetcher, w: World): seq<Bar>
  {
    if symbols == [] then []
    else LoadedBars(symbols[..|symbols| - 1], calendar, fetcher, w) + SymbolBars(symbols[|symbols| - 1], calendar, fetcher, w)
  }

  /** The bootstrap writes bars only for the symbols and dates it was asked
      for. */
  lemma {:induction false} LoadedBarsRequested(symbols: seq<string>, calendar: seq<Day>, fetcher: DailyFetcher, w: World)
    ensures forall b :: b in LoadedBars(symbols, calendar, fetcher, w) ==> b.symbol in symbols && b.tradeDate in calendar
  {
    if symbols != [] {
      var init := symbols[..|symbols| - 1];
      var mine := SymbolBars(symbols[|symbols| - 1], calendar, fetcher, w);
      LoadedBarsRequested(init, calendar, fetcher, w);
      HistoryDates(symbols[|symbols| - 1], calendar, fetcher, w);
      assert forall s :: s in init ==> s in symbols;
      assert forall b :: b in mine ==> b.symbol == symbols[|symbols| - 1];
    }
  }

  /** One write per symbol that got at least one bar. */
  function LoadCommits(symbols: seq<string>, calendar: seq<Day>, fetcher: DailyFetcher, w: World): (r: seq<Commit>)
    ensures |r| <= |symbols|
    ensures forall i :: 0 <= i < |r| ==> r[i].BarsCommit? && r[i].bars != []
  {
    if symbols == [] then []
    else
      var bars := SymbolBars(symbols[|symbols| - 1], calendar, fetcher, w);
      LoadCommits(symbols[..|symbols| - 1], calendar, fetcher, w) + (if bars != [] then [BarsCommit(bars)] else [])
  }

  /** The inner loop: fetch `symbol` on every date of the calendar. */
  method FetchHistory(fetcher: DailyFetcher, symbol: string, calendar: seq<Day>, w: World)
    returns (bars: seq<Bar>, asked: seq<(string, Day)>)
    ensures bars == SymbolBars(symbol, calendar, fetcher, w)
    ensures asked == Requests(symbol, calendar)
  {
    bars := [];
    asked := [];
    for j := 0 to |calendar|
      invariant bars == SymbolBars(symbol, calendar[..j], fetcher, w)
      invariant asked == Requests(symbol, calendar[..j])
    {
      HistoryStep(fetcher, symbol, calendar, j, w);
      var result, calls := fetcher.Fetch(symbol, calendar[j], w);
      asked := asked + [(symbol, calendar[j])];
      if result.Some? {
        bars := bars + [result.value];
      }
    }
    assert calendar[..|calendar|] == calendar;
  }

  lemma HistoryStep(fetcher: DailyFetcher, symbol: string, calendar: seq<Day>, j: nat, w: World)
    requires j < |calendar|
    ensures var found := FirstFound(fetcher.providers, symbol, calendar[j], w).0;
      && (found.Some? ==> SymbolBars(symbol, calendar[..j + 1], fetcher, w) == SymbolBars(symbol, calendar[..j], fetcher, w) + [found.value])
      && (found.None? ==> SymbolBars(symbol, calendar[..j + 1], fetcher, w) == SymbolBars(symbol, calendar[..j], fetcher, w))
    ensures Requests(symbol, calendar[..j + 1]) == Requests(symbol, calendar[..j]) + [(symbol, calendar[j])]
  {
    assert calendar[..j + 1][..j] == calendar[..j];
  }

  /** `run_initial_load`. Returns the calendar it used and every
      `(symbol, date)` it asked the fetcher for, in order. */
  method RunInitialLoad(storage: SQLiteStorage, fetcher: DailyFetcher, symbols: seq<string>,
                        file: CalendarFile, parseDate: string -> Option<Day>, start: Day, end: Day, w: World)
    returns (calendar: seq<Day>, asked: seq<(string, Day)>)
    modifies storage
    ensures file.Present? ==> calendar == FileDates(file.lines, parseDate, start, end)
    ensures !file.Present? ==> calendar == WeekdaysIn(start, end)
    ensures asked == FetchPlan(symbols, calendar)
    ensures storage.commits == old(storage.commits) + LoadCommits(symbols, calendar, fetcher, w)
    ensures storage.dailyBars == Upsert(old(storage.dailyBars), BarRecords(LoadedBars(symbols, calendar, fetcher, w)))
    ensures storage.securities == old(storage.securities) && storage.factors == old(storage.factors)
  {
    calendar := LoadTradingCalendar(file, parseDate, start, end);
    ghost var bars0 := storage.dailyBars;
    ghost var commits0 := storage.commits;
    asked := [];
    for i := 0 to |symbols|
      invariant asked == FetchPlan(symbols[..i], calendar)
      invariant storage.commits == commits0 + LoadCommits(symbols[..i], calendar, fetcher, w)
      invariant storage.dailyBars == Upsert(bars0, BarRecords(LoadedBars(symbols[..i], calendar, fetcher, w)))
      invariant storage.securities == old(storage.securities) && storage.factors == old(storage.factors)
    {
      SymbolStep(symbols, calendar, fetcher, w, i);
      ghost var written := storage.commits;
      ghost var stored := storage.dailyBars;
      var requests := LoadSymbol(storage, fetcher, symbols[i], calendar, w);
      asked := asked + requests;
      LoadStep(bars0, commits0, LoadedBars(symbols[..i], calendar, fetcher, w),
               LoadCommits(symbols[..i], calendar, fetcher, w), SymbolBars(symbols[i], calendar, fetcher, w),
               stored, written, storage.dailyBars, storage.commits);
    }
    assert symbols[..|symbols|] == symbols;
  }

  /** One symbol of `run_initial_load`: fetch its whole history, then write
      it in one batch when there is any. */
  method LoadSymbol(storage: SQLiteStorage, fetcher: DailyFetcher, symbol: string, calendar: seq<Day>, w: World)
    returns (asked: seq<(string, Day)>)
    modifies storage
    ensures asked == Requests(symbol, calendar)
    ensures var bars := SymbolBars(symbol, calendar, fetcher, w);
      && storage.dailyBars == Upsert(old(storage.dailyBars), BarRecords(bars))
      && storage.commits == old(storage.commits) + (if bars == [] then [] else [BarsCommit(bars)])
    ensures storage.securities == old(storage.securities) && storage.factors == old(storage.factors)
  {
    var bars;
    bars, asked := FetchHistory(fetcher, symbol, calendar, w);
    if bars != [] {
      storage.UpsertDailyBars(bars);
    }
  }

  /** The run over one more symbol: its fetches, bars and commit come after
      those of the symbols before it. */
  lemma SymbolStep(symbols: seq<string>, calendar: seq<Day>, fetcher: DailyFetcher, w: World, i: nat)
    requires i < |symbols|
    ensures FetchPlan(symbols[..i + 1], calendar) == FetchPlan(symbols[..i], calendar) + Requests(symbols[i], calendar)
    ensures LoadedBars(symbols[..i + 1], calendar, fetcher, w)
         == LoadedBars(symbols[..i], calendar, fetcher, w) + SymbolBars(symbols[i], calendar, fetcher, w)
    ensures var bars := SymbolBars(symbols[i], calendar, fetcher, w);
      LoadCommits(symbols[..i + 1], calendar, fetcher, w)
        == LoadCommits(symbols[..i], calendar, fetcher, w) + (if bars != [] then [BarsCommit(bars)] else [])
  {
    assert symbols[..i + 1][..i] == symbols[..i];
  }

  /** Writing one symbol's batch after the earlier ones. */
  lemma LoadStep(bars0: map<BarKey, BarRow>, commits0: seq<Commit>, before: seq<Bar>, done: seq<Commit>,
                 batch: seq<Bar>, bars1: map<BarKey, BarRow>, commits1: seq<Commit>,
                 bars2: map<BarKey, BarRow>, commits2: seq<Commit>)
    requires bars1 == Upsert(bars0, BarRecords(before)) && commits1 == commits0 + done
    requires bars2 == Upsert(bars1, BarRecords(batch))
    requires commits2 == commits1 + (if batch == [] then [] else [BarsCommit(batch)])
    ensures bars2 == Upsert(bars0, BarRecords(before + batch))
    ensures commits2 == commits0 + (done + (if batch != [] then [BarsCommit(batch)] else []))
  {
    UpsertAppend(bars0, BarRecords(before), BarRecords(batch));
    assert BarRecords(before) + BarRecords(batch) == BarRecords(before + batch);
  }

  /** After the bootstrap, every symbol has a stored bar on every calendar
      date for which the fetcher had one, so the daily update does not ask
      for it again. */
  lemma {:induction false} LoadedIsNotMissing(symbols: seq<string>, calendar: seq<Day>, fetcher: DailyFetcher,
                                              w: World, bars: map<BarKey, BarRow>, s: string, d: Day)
    requires s in symbols && d in calendar && FirstFound(fetcher.providers, s, d, w).0.Some?
    ensures BarKey(s, d) in Upsert(bars, BarRecords(LoadedBars(symbols, calendar, fetcher, w)))
    ensures MissingDates(Upsert(bars, BarRecords(LoadedBars(symbols, calendar, fetcher, w))), s, [d]) == []
  {
    var all := LoadedBars(symbols, calendar, fetcher, w);
    var bar := FirstFound(fetcher.providers, s, d, w).0.value;
    FoundCarriesSymbol(fetcher, s, d, w);
    FoundInHistory(s, calendar, fetcher, w, d);
    HistoryInLoad(symbols, calendar, fetcher, w, s, bar);
    var k :| 0 <= k < |all| && all[k] == bar;
    UpsertKeys(bars, BarRecords(all), BarKey(s, d));
    assert BarRecords(all)[k].0 == BarKey(s, d);
    var gaps := MissingDates(Upsert(bars, BarRecords(all)), s, [d]);
    assert forall x :: x in gaps <==> x in [];
    SameEmptiness(gaps, []);
  }

  /** A day of the calendar that is not among the earlier days is the last one. */
  lemma NotBeforeIsLast(calendar: seq<Day>, d: Day)
    requires d in calendar && d !in calendar[..|calendar| - 1]
    ensures d == calendar[|calendar| - 1]
  {
    var k :| 0 <= k < |calendar| && calendar[k] == d;
    assert forall m :: 0 <= m < |calendar| - 1 ==> calendar[..|calendar| - 1][m] == calendar[m];
    assert k == |calendar| - 1;
  }

  /** A bar the fetcher has for a calendar date is among the symbol's bars. */
  lemma {:induction false} FoundInHistory(s: string, calendar: seq<Day>, fetcher: DailyFetcher, w: World, d: Day)
    requires d in calendar && FirstFound(fetcher.providers, s, d, w).0.Some?
    ensures FirstFound(fetcher.providers, s, d, w).0.value in SymbolBars(s, calendar, fetcher, w)
  {
    var init := calendar[..|calendar| - 1];
    var last := calendar[|calendar| - 1];
    var found := FirstFound(fetcher.providers, s, last, w).0;
    var bar := FirstFound(fetcher.providers, s, d, w).0.value;
    assert SymbolBars(s, calendar, fetcher, w) == SymbolBars(s, init, fetcher, w) + Hits(found);
    if d in init {
      assert bar in SymbolBars(s, init, fetcher, w) by {
        FoundInHistory(s, init, fetcher, w, d);
      }
    } else {
      NotBeforeIsLast(calendar, d);
      assert Hits(found) == [bar];
    }
  }


  /** A symbol's bars are among the bars of a run that includes the symbol. */
  lemma {:induction false} HistoryInLoad(symbols: seq<string>, calendar: seq<Day>, fetcher: DailyFetcher,
                                         w: World, s: string, bar: Bar)
    requires s in symbols && bar in SymbolBars(s, calendar, fetcher, w)
    ensures bar in LoadedBars(symbols, calendar, fetcher, w)
  {
    var init := symbols[..|symbols| - 1];
    if s in init {
      HistoryInLoad(init, calendar, fetcher, w, s, bar);
    } else {
      var k :| 0 <= k < |symbols| && symbols[k] == s;
      assert forall m :: 0 <= m < |init| ==> init[m] == symbols[m];
      assert k == |symbols| - 1;
      assert LoadedBars(symbols, calendar, fetcher, w)
          == LoadedBars(init, calendar, fetcher, w) + SymbolBars(s, calendar, fetcher, w);
    }
  }
}
