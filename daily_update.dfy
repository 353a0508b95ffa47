/** scheduler/daily_update.py: the incremental run for one trading day. */
module DailyUpdate {
  import opened Wrappers
  import opened Dates
  import Text
  import opened Providers
  import opened Fetcher
  import opened Storage

  // ---------------------------------------------------------------------
  // The keys of the `missing_map` dict
  // ---------------------------------------------------------------------

  predicate NoDuplicates(s: seq<string>) {
    forall i, j :: 0 <= i < j < |s| ==> s[i] != s[j]
  }

  /** The keys of a dict filled in the order of `symbols`: each symbol once,
      at its first occurrence. */
  function FirstOccurrences(symbols: seq<string>): (r: seq<string>)
    ensures NoDuplicates(r)
    ensures forall x :: x in r <==> x in symbols
  {
    if symbols == [] then []
    else
      var init := symbols[..|symbols| - 1];
      var last := symbols[|symbols| - 1];
      var r := FirstOccurrences(init);
      assert forall x :: x in symbols <==> x in init || x == last;
      if last in r then r else r + [last]
  }

  /** The index of the first occurrence of `x`. */
  function FirstIndex(s: seq<string>, x: string): (i: nat)
    requires x in s
    ensures i < |s| && s[i] == x && x !in s[..i]
  {
    if s[0] == x then 0
    else
      var i := 1 + FirstIndex(s[1..], x);
      assert s[..i] == [s[0]] + s[1..][..i - 1];
      i
  }

  /** The dict keeps the order of first occurrence. */
  lemma {:induction false} FirstOccurrencesOrder(symbols: seq<string>, i: int, j: int)
    requires 0 <= i < j < |FirstOccurrences(symbols)|
    ensures FirstIndex(symbols, FirstOccurrences(symbols)[i]) < FirstIndex(symbols, FirstOccurrences(symbols)[j])
  {
    var init := symbols[..|symbols| - 1];
    var last := symbols[|symbols| - 1];
    var r := FirstOccurrences(init);
    var x := FirstOccurrences(symbols)[i];
    var y := FirstOccurrences(symbols)[j];
    assert x in init;
    FirstIndexPrefix(symbols, init, x);
    if j < |r| {
      FirstOccurrencesOrder(init, i, j);
      FirstIndexPrefix(symbols, init, y);
    } else {
      assert y == last && last !in init;
      var k := FirstIndex(symbols, y);
      assert forall m :: 0 <= m < |init| ==> symbols[m] == init[m] && init[m] != y;
      assert k == |symbols| - 1;
    }
  }

  /** A first occurrence inside a prefix is the first occurrence overall. */
  lemma FirstIndexPrefix(s: seq<string>, prefix: seq<string>, x: string)
    requires prefix <= s && x in prefix
    ensures FirstIndex(s, x) == FirstIndex(prefix, x)
  {
    var i := FirstIndex(prefix, x);
    var k := FirstIndex(s, x);
    assert forall m :: 0 <= m < i ==> s[m] == prefix[m] && prefix[..i][m] != x;
    assert s[i] == x;
    assert forall m :: 0 <= m < k ==> s[..k][m] != x;
  }

  // ---------------------------------------------------------------------
  // The run
  // ---------------------------------------------------------------------

  /** The symbols of `keys` with no stored bar for `date`, in order. */
  function Pending(keys: seq<string>, bars: map<BarKey, BarRow>, date: Day): (r: seq<string>)
    ensures forall s :: s in r <==> s in keys && BarKey(s, date) !in bars
    ensures |r| <= |keys|
  {
    if keys == [] then []
    else
      var init := keys[..|keys| - 1];
      var last := keys[|keys| - 1];
      assert forall s :: s in keys <==> s in init || s == last;
      Pending(init, bars, date) + (if BarKey(last, date) !in bars then [last] else [])
  }

  /** The bars the fetcher returns for `symbols` on `date`, in order; a
      symbol with no bar contributes nothing. */
  function HitBars(symbols: seq<string>, fetcher: DailyFetcher, date: Day, w: World): (r: seq<Bar>)
    ensures |r| <= |symbols|
    ensures forall i :: 0 <= i < |r| ==> r[i].tradeDate == date && r[i].symbol in symbols
  {
    if symbols == [] then []
    else
      var init := symbols[..|symbols| - 1];
      var last := symbols[|symbols| - 1];
      var found := FirstFound(fetcher.providers, last, date, w).0;
      var r := HitBars(init, fetcher, date, w) + (if found.Some? then [found.value] else []);
      assert forall s :: s in init ==> s in symbols;
      if found.Some? then FoundCarriesSymbol(fetcher, last, date, w); r else r
  }

  /** One single-bar write per bar. */
  function SingleCommits(bars: seq<Bar>): (r: seq<Commit>)
    ensures |r| == |bars|
  {
    seq(|bars|, i requires 0 <= i < |bars| => BarsCommit([bars[i]]))
  }

  /** `_compute_missing`: the dict from each symbol, in order of first
      occurrence, to whether `trade_date` is missing for it. */
  method ComputeMissing(storage: SQLiteStorage, symbols: seq<string>, date: Day)
    returns (keys: seq<string>, missing: map<string, bool>)
    ensures keys == FirstOccurrences(symbols)
    ensures forall s :: s in missing <==> s in symbols
    ensures forall s :: s in missing ==> (missing[s] <==> BarKey(s, date) !in storage.dailyBars)
  {
    keys := [];
    missing := map[];
    for i := 0 to |symbols|
      invariant keys == FirstOccurrences(symbols[..i])
      invariant forall s :: s in missing <==> s in symbols[..i]
      invariant forall s :: s in missing ==> (missing[s] <==> BarKey(s, date) !in storage.dailyBars)
    {
      assert symbols[..i + 1][..i] == symbols[..i];
      var gaps := storage.MissingDailyDates(symbols[i], [date]);
      assert gaps != [] <==> date in gaps;
      if symbols[i] !in missing {
        keys := keys + [symbols[i]];
      }
      missing := missing[symbols[i] := gaps != []];
    }
    assert symbols[..|symbols|] == symbols;
  }

  /** `run_daily_update`. `symbols` is `None` when no list is passed.
      Returns the symbols the run used and the ones it fetched. */
  method RunDailyUpdate(storage: SQLiteStorage, fetcher: DailyFetcher, date: Day,
                        symbols: Option<seq<string>>, w: World)
    returns (used: seq<string>, fetched: seq<string>)
    modifies storage
    ensures symbols.Some? ==> used == symbols.value
    ensures symbols.None? ==> Text.StrictlyAscending(used) && forall s :: s in used <==> s in old(storage.securities)
    ensures fetched == Pending(FirstOccurrences(used), old(storage.dailyBars), date)
    ensures storage.commits == old(storage.commits) + SingleCommits(HitBars(fetched, fetcher, date, w))
    ensures storage.dailyBars == Upsert(old(storage.dailyBars), BarRecords(HitBars(fetched, fetcher, date, w)))
    ensures storage.securities == old(storage.securities) && storage.factors == old(storage.factors)
  {
    if symbols.None? {
      used := storage.ListTrackedSymbols();
    } else {
      used := symbols.value;
    }
    var keys, missing := ComputeMissing(storage, used, date);
    fetched := FetchPending(storage, fetcher, keys, missing, date, w);
  }

  /** The loop of `run_daily_update`: fetch each key marked missing and
      write each bar that comes back on its own. */
  method FetchPending(storage: SQLiteStorage, fetcher: DailyFetcher, keys: seq<string>,
                      missing: map<string, bool>, date: Day, w: World)
    returns (fetched: seq<string>)
    requires forall s :: s in keys ==> s in missing && (missing[s] <==> BarKey(s, date) !in storage.dailyBars)
    modifies storage
    ensures fetched == Pending(keys, old(storage.dailyBars), date)
    ensures storage.commits == old(storage.commits) + SingleCommits(HitBars(fetched, fetcher, date, w))
    ensures storage.dailyBars == Upsert(old(storage.dailyBars), BarRecords(HitBars(fetched, fetcher, date, w)))
    ensures storage.securities == old(storage.securities) && storage.factors == old(storage.factors)
  {
    ghost var bars0 := storage.dailyBars;
    ghost var commits0 := storage.commits;
    ghost var hits: seq<Bar> := [];
    fetched := [];
    for i := 0 to |keys|
      invariant forall s :: s in keys ==> s in missing && (missing[s] <==> BarKey(s, date) !in bars0)
      invariant fetched == Pending(keys[..i], bars0, date)
      invariant hits == HitBars(fetched, fetcher, date, w)
      invariant storage.commits == commits0 + SingleCommits(hits)
      invariant storage.dailyBars == Upsert(bars0, BarRecords(hits))
      invariant storage.securities == old(storage.securities) && storage.factors == old(storage.factors)
    {
      PendingStep(keys, i, bars0, date);
      var symbol := keys[i];
      if missing[symbol] {
        ghost var written := storage.commits;
        ghost var stored := storage.dailyBars;
        var bar := FetchAndStore(storage, fetcher, symbol, date, w);
        HitStep(fetched, symbol, fetcher, date, w);
        WriteStep(bars0, commits0, hits, Hits(bar), stored, written, storage.dailyBars, storage.commits);
        hits := hits + Hits(bar);
        fetched := fetched + [symbol];
      }
    }
    assert keys[..|keys|] == keys;
  }

  lemma PendingStep(keys: seq<string>, i: nat, bars: map<BarKey, BarRow>, date: Day)
    requires i < |keys|
    ensures BarKey(keys[i], date) in bars ==> Pending(keys[..i + 1], bars, date) == Pending(keys[..i], bars, date)
    ensures BarKey(keys[i], date) !in bars ==> Pending(keys[..i + 1], bars, date) == Pending(keys[..i], bars, date) + [keys[i]]
  {
    assert keys[..i + 1][..i] == keys[..i];
    assert Pending(keys[..i], bars, date) + [] == Pending(keys[..i], bars, date);
  }

  lemma HitStep(fetched: seq<string>, symbol: string, fetcher: DailyFetcher, date: Day, w: World)
    ensures var found := FirstFound(fetcher.providers, symbol, date, w).0;
      HitBars(fetched + [symbol], fetcher, date, w)
      == HitBars(fetched, fetcher, date, w) + Hits(found)
  {
    assert (fetched + [symbol])[..|fetched|] == fetched;
  }

  /** The bar of an answer as a batch: empty when nothing came back. */
  function Hits(bar: Option<Bar>): (r: seq<Bar>)
    ensures |r| <= 1 && (r != [] <==> bar.Some?)
    ensures bar.Some? ==> r[0] == bar.value
  {
    if bar.Some? then [bar.value] else []
  }

  /** One iteration of the loop: fetch, then write the bar if there is one. */
  method FetchAndStore(storage: SQLiteStorage, fetcher: DailyFetcher, symbol: string, date: Day, w: World)
    returns (bar: Option<Bar>)
    modifies storage
    ensures bar == FirstFound(fetcher.providers, symbol, date, w).0
    ensures storage.commits == old(storage.commits) + SingleCommits(Hits(bar))
    ensures storage.dailyBars == Upsert(old(storage.dailyBars), BarRecords(Hits(bar)))
    ensures storage.securities == old(storage.securities) && storage.factors == old(storage.factors)
  {
    var calls;
    bar, calls := fetcher.Fetch(symbol, date, w);
    if bar.Some? {
      storage.UpsertDailyBars([bar.value]);
    }
  }

  /** Writing `extra` after `before` is writing `before + extra`. */
  lemma WriteStep(bars0: map<BarKey, BarRow>, commits0: seq<Commit>, before: seq<Bar>, extra: seq<Bar>,
                  bars1: map<BarKey, BarRow>, commits1: seq<Commit>,
                  bars2: map<BarKey, BarRow>, commits2: seq<Commit>)
    requires bars1 == Upsert(bars0, BarRecords(before)) && commits1 == commits0 + SingleCommits(before)
    requires bars2 == Upsert(bars1, BarRecords(extra)) && commits2 == commits1 + SingleCommits(extra)
    ensures bars2 == Upsert(bars0, BarRecords(before + extra))
    ensures commits2 == commits0 + SingleCommits(before + extra)
  {
    assert bars2 == Upsert(bars0, BarRecords(before) + BarRecords(extra)) by {
      UpsertAppend(bars0, BarRecords(before), BarRecords(extra));
    }
    assert BarRecords(before) + BarRecords(extra) == BarRecords(before + extra) by {
      RecordsAppend(before, extra);
    }
    assert commits2 == commits0 + (SingleCommits(before) + SingleCommits(extra));
    assert SingleCommits(before) + SingleCommits(extra) == SingleCommits(before + extra) by {
      CommitsAppend(before, extra);
    }
  }

  lemma RecordsAppend(before: seq<Bar>, extra: seq<Bar>)
    ensures BarRecords(before) + BarRecords(extra) == BarRecords(before + extra)
  {
    var a, b, c := BarRecords(before), BarRecords(extra), BarRecords(before + extra);
    assert forall i :: 0 <= i < |before| ==> c[i] == a[i];
    assert forall i :: |before| <= i < |c| ==> c[i] == b[i - |before|];
  }

  lemma CommitsAppend(before: seq<Bar>, extra: seq<Bar>)
    ensures SingleCommits(before) + SingleCommits(extra) == SingleCommits(before + extra)
  {
    var a, b, c := SingleCommits(before), SingleCommits(extra), SingleCommits(before + extra);
    assert forall i :: 0 <= i < |before| ==> c[i] == a[i];
    assert forall i :: |before| <= i < |c| ==> c[i] == b[i - |before|];
  }

  /** When every symbol already has its bar, the run fetches nothing and
      writes nothing. */
  lemma NothingToDo(keys: seq<string>, bars: map<BarKey, BarRow>, date: Day, fetcher: DailyFetcher, w: World)
    requires forall s :: s in keys ==> BarKey(s, date) in bars
    ensures Pending(keys, bars, date) == []
    ensures SingleCommits(HitBars(Pending(keys, bars, date), fetcher, date, w)) == []
  {
    NothingPending(keys, bars, date);
  }

  lemma {:induction false} NothingPending(keys: seq<string>, bars: map<BarKey, BarRow>, date: Day)
    requires forall s :: s in keys ==> BarKey(s, date) in bars
    ensures Pending(keys, bars, date) == []
  {
    if keys != [] {
      var init := keys[..|keys| - 1];
      assert forall s :: s in init ==> s in keys;
      assert keys[|keys| - 1] in keys;
      NothingPending(init, bars, date);
    }
  }

  /** Every fetched symbol whose fetch returned a bar has that day's bar
      stored after the run. */
  lemma HitsAreStored(fetched: seq<string>, bars: map<BarKey, BarRow>, date: Day, fetcher: DailyFetcher,
                      w: World, s: string)
    requires s in fetched && FirstFound(fetcher.providers, s, date, w).0.Some?
    ensures BarKey(s, date) in Upsert(bars, BarRecords(HitBars(fetched, fetcher, date, w)))
  {
    var i := HitIndex(fetched, fetcher, date, w, s);
    UpsertKeys(bars, BarRecords(HitBars(fetched, fetcher, date, w)), BarKey(s, date));
    assert BarRecords(HitBars(fetched, fetcher, date, w))[i].0 == BarKey(s, date);
  }

  /** The position of a hit symbol's bar among the bars written. */
  lemma {:induction false} HitIndex(symbols: seq<string>, fetcher: DailyFetcher, date: Day, w: World, s: string)
    returns (i: nat)
    requires s in symbols && FirstFound(fetcher.providers, s, date, w).0.Some?
    ensures i < |HitBars(symbols, fetcher, date, w)|
    ensures HitBars(symbols, fetcher, date, w)[i].symbol == s
  {
    var init := symbols[..|symbols| - 1];
    var last := symbols[|symbols| - 1];
    var found := FirstFound(fetcher.providers, last, date, w).0;
    if s in init {
      i := HitIndex(init, fetcher, date, w, s);
    } else {
      assert s == last;
      FoundCarriesSymbol(fetcher, s, date, w);
      i := |HitBars(init, fetcher, date, w)|;
    }
  }

  /** The bar the fetcher returns carries the requested symbol and date. */
  lemma FoundCarriesSymbol(fetcher: DailyFetcher, s: string, date: Day, w: World)
    requires FirstFound(fetcher.providers, s, date, w).0.Some?
    ensures FirstFound(fetcher.providers, s, date, w).0.value.symbol == s
    ensures FirstFound(fetcher.providers, s, date, w).0.value.tradeDate == date
  {
    var r := FirstFound(fetcher.providers, s, date, w);
    var p := fetcher.providers[r.1 - 1];
    assert p.Respond(s, date, w).0.Found?;
  }
}
