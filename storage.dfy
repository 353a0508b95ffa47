/** storage/sqlite.py: the three tables as maps, the batched upserts, the
    sorted symbol listing and the missing-date filter. */
module Storage {
  import opened Wrappers
  import opened Dates
  import opened Payload
  import Text
  import opened Providers

  // ---------------------------------------------------------------------
  // Keyed tables and last-write-wins upserts
  // ---------------------------------------------------------------------

  /** `executemany` of `INSERT ... ON CONFLICT DO UPDATE` over `entries`, in
      order: each entry inserts its key or overwrites the row there. */
  function Upsert<K, V>(m: map<K, V>, entries: seq<(K, V)>): map<K, V> {
    if entries == [] then m
    else Upsert(m, entries[..|entries| - 1])[entries[|entries| - 1].0 := entries[|entries| - 1].1]
  }

  /** Entry `i` is the last one with its key. */
  ghost predicate LastWithKey<K, V>(entries: seq<(K, V)>, i: int) {
    0 <= i < |entries| && forall j :: i < j < |entries| ==> entries[j].0 != entries[i].0
  }

  /** The table afterwards holds the old keys and the batch's keys, and
      nothing else. */
  lemma {:induction false} UpsertKeys<K, V>(m: map<K, V>, entries: seq<(K, V)>, k: K)
    ensures k in Upsert(m, entries) <==> k in m || exists i :: 0 <= i < |entries| && entries[i].0 == k
  {
    if entries != [] {
      var init := entries[..|entries| - 1];
      UpsertKeys(m, init, k);
      assert forall i :: 0 <= i < |init| ==> init[i] == entries[i];
    }
  }

  /** Last write wins: the row under a batch key is the value of the last
      entry with that key. */
  lemma {:induction false} UpsertLastWins<K, V>(m: map<K, V>, entries: seq<(K, V)>, i: int)
    requires LastWithKey(entries, i)
    ensures entries[i].0 in Upsert(m, entries) && Upsert(m, entries)[entries[i].0] == entries[i].1
  {
    var n := |entries| - 1;
    if i < n {
      var init := entries[..n];
      assert LastWithKey(init, i);
      UpsertLastWins(m, init, i);
    }
  }

  /** Rows whose key is not in the batch are untouched. */
  lemma {:induction false} UpsertUntouched<K, V>(m: map<K, V>, entries: seq<(K, V)>, k: K)
    requires forall i :: 0 <= i < |entries| ==> entries[i].0 != k
    ensures k in Upsert(m, entries) <==> k in m
    ensures k in m ==> Upsert(m, entries)[k] == m[k]
  {
    if entries != [] {
      var init := entries[..|entries| - 1];
      UpsertUntouched(m, init, k);
    }
  }

  /** Applying the same batch twice is the same as applying it once: the
      same keys, each with the same row. */
  lemma UpsertIdempotent<K, V>(m: map<K, V>, entries: seq<(K, V)>)
    ensures forall k :: k in Upsert(Upsert(m, entries), entries) <==> k in Upsert(m, entries)
    ensures forall k :: k in Upsert(m, entries) ==> Upsert(Upsert(m, entries), entries)[k] == Upsert(m, entries)[k]
  {
    var once := Upsert(m, entries);
    var twice := Upsert(once, entries);
    forall k ensures k in twice <==> k in once {
      UpsertKeys(once, entries, k);
      UpsertKeys(m, entries, k);
    }
    forall k | k in once ensures k in twice && twice[k] == once[k] {
      UpsertKeys(once, entries, k);
      if exists i :: 0 <= i < |entries| && entries[i].0 == k {
        var i :| 0 <= i < |entries| && entries[i].0 == k;
        var last := LastIndexOf(entries, i);
        UpsertLastWins(m, entries, last);
        UpsertLastWins(once, entries, last);
      } else {
        UpsertUntouched(once, entries, k);
      }
    }
  }

  /** The index of the last entry with the same key as entry `i`. */
  ghost function LastIndexOf<K, V>(entries: seq<(K, V)>, i: int): (r: int)
    requires 0 <= i < |entries|
    ensures i <= r && LastWithKey(entries, r) && entries[r].0 == entries[i].0
    decreases |entries| - i
  {
    if exists j :: i < j < |entries| && entries[j].0 == entries[i].0 then
      var j :| i < j < |entries| && entries[j].0 == entries[i].0;
      LastIndexOf(entries, j)
    else i
  }

  /** A property every old row and every batch value has holds for every
      row afterwards. */
  lemma {:induction false} UpsertPreserves<K, V>(m: map<K, V>, entries: seq<(K, V)>, P: V -> bool)
    requires forall k :: k in m ==> P(m[k])
    requires forall i :: 0 <= i < |entries| ==> P(entries[i].1)
    ensures forall k :: k in Upsert(m, entries) ==> P(Upsert(m, entries)[k])
  {
    if entries != [] {
      UpsertPreserves(m, entries[..|entries| - 1], P);
    }
  }

  /** Two batches in a row are one batch of both, in order. */
  lemma {:induction false} UpsertAppend<K, V>(m: map<K, V>, a: seq<(K, V)>, b: seq<(K, V)>)
    ensures Upsert(Upsert(m, a), b) == Upsert(m, a + b)
    decreases |b|
  {
    if b == [] {
      assert a + b == a;
    } else {
      UpsertAppend(m, a, b[..|b| - 1]);
      assert (a + b)[..|a + b| - 1] == a + b[..|b| - 1];
    }
  }

  // ---------------------------------------------------------------------
  // Rows
  // ---------------------------------------------------------------------

  /** `Security`; a listing date of `None` is stored as NULL. */
  datatype Security = Security(symbol: string, name: string, assetType: string,
                               listedDate: Option<Day>, delistedDate: Option<Day>)

  /** The non-key columns of `securities`. */
  datatype SecurityRow = SecurityRow(name: string, assetType: string,
                                     listedDate: Option<Day>, delistedDate: Option<Day>)

  /** The primary key of `daily_bars` and `adjustment_factors`. The date
      stands for its ISO text. */
  datatype BarKey = BarKey(symbol: string, tradeDate: Day)

  /** The non-key columns of `daily_bars`; `raw` stands for its JSON text. */
  datatype BarRow = BarRow(open: real, high: real, low: real, close: real,
                           volume: real, turnover: real, raw: Json)

  /** One record of a factor batch: `(symbol, trade_date, value)`. */
  type Factor = (string, Day, real)

  function SecurityRecords(secs: seq<Security>): (r: seq<(string, SecurityRow)>)
    ensures |r| == |secs|
    ensures forall i :: 0 <= i < |secs| ==>
      r[i] == (secs[i].symbol, SecurityRow(secs[i].name, secs[i].assetType, secs[i].listedDate, secs[i].delistedDate))
  {
    seq(|secs|, i requires 0 <= i < |secs| =>
      (secs[i].symbol, SecurityRow(secs[i].name, secs[i].assetType, secs[i].listedDate, secs[i].delistedDate)))
  }

  function BarRecords(bars: seq<Bar>): (r: seq<(BarKey, BarRow)>)
    ensures |r| == |bars|
    ensures forall i :: 0 <= i < |bars| ==>
      r[i] == (BarKey(bars[i].symbol, bars[i].tradeDate),
               BarRow(bars[i].open, bars[i].high, bars[i].low, bars[i].close,
                      bars[i].volume, bars[i].turnover, bars[i].raw))
  {
    seq(|bars|, i requires 0 <= i < |bars| =>
      (BarKey(bars[i].symbol, bars[i].tradeDate),
       BarRow(bars[i].open, bars[i].high, bars[i].low, bars[i].close, bars[i].volume, bars[i].turnover, bars[i].raw)))
  }

  function FactorRecords(factors: seq<Factor>): (r: seq<(BarKey, real)>)
    ensures |r| == |factors|
    ensures forall i :: 0 <= i < |factors| ==> r[i] == (BarKey(factors[i].0, factors[i].1), factors[i].2)
  {
    seq(|factors|, i requires 0 <= i < |factors| => (BarKey(factors[i].0, factors[i].1), factors[i].2))
  }

  // ---------------------------------------------------------------------
  // Queries
  // ---------------------------------------------------------------------

  /** The dates of `dates`, in order, with no stored bar for `symbol`; a
      missing date requested several times is listed as many times. */
  function MissingDates(bars: map<BarKey, BarRow>, symbol: string, dates: seq<Day>): (r: seq<Day>)
    ensures forall d :: d in r <==> d in dates && BarKey(symbol, d) !in bars
    ensures forall d :: multiset(r)[d] == if BarKey(symbol, d) !in bars then multiset(dates)[d] else 0
    ensures IsSubsequence(r, dates)
  {
    if dates == [] then []
    else
      var rest := MissingDates(bars, symbol, dates[1..]);
      assert forall d :: d in dates <==> d == dates[0] || d in dates[1..];
      assert dates == [dates[0]] + dates[1..];
      assert multiset(dates) == multiset{dates[0]} + multiset(dates[1..]);
      if BarKey(symbol, dates[0]) !in bars then
        assert multiset([dates[0]] + rest) == multiset{dates[0]} + multiset(rest);
        [dates[0]] + rest
      else rest
  }

  /** `a` is `b` with some elements left out, order kept. */
  ghost predicate IsSubsequence<T>(a: seq<T>, b: seq<T>) {
    if a == [] then true
    else if b == [] then false
    else (a[0] == b[0] && IsSubsequence(a[1..], b[1..])) || IsSubsequence(a, b[1..])
  }

  /** Two listings of the same elements are empty together. */
  lemma SameEmptiness<T>(a: seq<T>, b: seq<T>)
    requires forall x :: x in a <==> x in b
    ensures a == [] <==> b == []
  {
    if a != [] { assert a[0] in b; }
    if b != [] { assert b[0] in a; }
  }

  /** The head of an ascending listing comes before every other element. */
  lemma FirstIsLeast(a: seq<string>, x: string)
    requires Text.StrictlyAscending(a) && x in a
    ensures x == a[0] || Text.LexLess(a[0], x)
  {
    var k :| 0 <= k < |a| && a[k] == x;
  }

  /** Two ascending listings of the same set are the same listing: the
      order `list_tracked_symbols` returns is determined by the table. */
  lemma {:induction false} AscendingUnique(a: seq<string>, b: seq<string>)
    requires Text.StrictlyAscending(a) && Text.StrictlyAscending(b)
    requires forall x :: x in a <==> x in b
    ensures a == b
  {
    SameEmptiness(a, b);
    if a != [] {
      assert a[0] in b && b[0] in a;
      FirstIsLeast(b, a[0]);
      FirstIsLeast(a, b[0]);
      Text.LexLessAsymmetric(a[0], b[0]);
      assert a[0] == b[0];
      Text.LexLessIrreflexive(a[0]);
      forall x ensures x in a[1..] <==> x in b[1..] {
        if x in a[1..] {
          var k :| 0 <= k < |a[1..]| && a[1..][k] == x;
          assert a[k + 1] == x && Text.LexLess(a[0], x);
          assert x in b;
          var m :| 0 <= m < |b| && b[m] == x;
          assert m != 0 && b[1..][m - 1] == x;
        }
        if x in b[1..] {
          var k :| 0 <= k < |b[1..]| && b[1..][k] == x;
          assert b[k + 1] == x && Text.LexLess(b[0], x);
          assert x in a;
          var m :| 0 <= m < |a| && a[m] == x;
          assert m != 0 && a[1..][m - 1] == x;
        }
      }
      AscendingUnique(a[1..], b[1..]);
      assert a == [a[0]] + a[1..] && b == [b[0]] + b[1..];
    }
  }

  // ---------------------------------------------------------------------
  // The database
  // ---------------------------------------------------------------------

  /** One committed write transaction and the records it wrote. */
  datatype Commit =
    | SecuritiesCommit(securities: seq<Security>)
    | BarsCommit(bars: seq<Bar>)
    | FactorsCommit(factors: seq<Factor>)

  /** `SQLiteStorage`: the three tables and the log of committed write
      transactions. */
  class SQLiteStorage {
    var securities: map<string, SecurityRow>
    var dailyBars: map<BarKey, BarRow>
    var factors: map<BarKey, real>
    var commits: seq<Commit>

    /** A freshly initialised, empty database. */
    constructor ()
      ensures securities == map[] && dailyBars == map[] && factors == map[] && commits == []
    {
      securities := map[];
      dailyBars := map[];
      factors := map[];
      commits := [];
    }

    /** `upsert_securities`. */
    method UpsertSecurities(secs: seq<Security>)
      modifies this
      ensures securities == Upsert(old(securities), SecurityRecords(secs))
      ensures dailyBars == old(dailyBars) && factors == old(factors)
      ensures commits == old(commits) + (if secs == [] then [] else [SecuritiesCommit(secs)])
    {
      if secs == [] {
        return;
      }
      var records := SecurityRecords(secs);
      ghost var start := securities;
      var i := 0;
      while i < |records|
        invariant 0 <= i <= |records|
        invariant securities == Upsert(start, records[..i])
        invariant dailyBars == old(dailyBars) && factors == old(factors) && commits == old(commits)
      {
        assert records[..i + 1][..i] == records[..i];
        securities := securities[records[i].0 := records[i].1];
        i := i + 1;
      }
      assert records[..i] == records;
      commits := commits + [SecuritiesCommit(secs)];
    }

    /** `upsert_daily_bars`. */
    method UpsertDailyBars(bars: seq<Bar>)
      modifies this
      ensures dailyBars == Upsert(old(dailyBars), BarRecords(bars))
      ensures securities == old(securities) && factors == old(factors)
      ensures commits == old(commits) + (if bars == [] then [] else [BarsCommit(bars)])
    {
      if bars == [] {
        return;
      }
      var records := BarRecords(bars);
      ghost var start := dailyBars;
      var i := 0;
      while i < |records|
        invariant 0 <= i <= |records|
        invariant dailyBars == Upsert(start, records[..i])
        invariant securities == old(securities) && factors == old(factors) && commits == old(commits)
      {
        assert records[..i + 1][..i] == records[..i];
        dailyBars := dailyBars[records[i].0 := records[i].1];
        i := i + 1;
      }
      assert records[..i] == records;
      commits := commits + [BarsCommit(bars)];
    }

    /** `upsert_adjustment_factors`. */
    method UpsertAdjustmentFactors(batch: seq<Factor>)
      modifies this
      ensures factors == Upsert(old(factors), FactorRecords(batch))
      ensures securities == old(securities) && dailyBars == old(dailyBars)
      ensures commits == old(commits) + (if batch == [] then [] else [FactorsCommit(batch)])
    {
      if batch == [] {
        return;
      }
      var records := FactorRecords(batch);
      ghost var start := factors;
      var i := 0;
      while i < |records|
        invariant 0 <= i <= |records|
        invariant factors == Upsert(start, records[..i])
        invariant securities == old(securities) && dailyBars == old(dailyBars) && commits == old(commits)
      {
        assert records[..i + 1][..i] == records[..i];
        factors := factors[records[i].0 := records[i].1];
        i := i + 1;
      }
      assert records[..i] == records;
      commits := commits + [FactorsCommit(batch)];
    }

    /** `list_tracked_symbols`: every symbol of `securities` once, ascending. */
    method ListTrackedSymbols() returns (r: seq<string>)
      ensures Text.StrictlyAscending(r)
      ensures forall s :: s in r <==> s in securities
    {
      r := [];
      var rest := securities.Keys;
      while rest != {}
        invariant Text.StrictlyAscending(r)
        invariant forall s :: s in r <==> s in securities && s !in rest
        invariant rest <= securities.Keys
        decreases rest
      {
        var s :| s in rest;
        r := Text.InsertAscending(r, s);
        rest := rest - {s};
      }
    }

    /** `missing_daily_dates`. */
    function MissingDailyDates(symbol: string, dates: seq<Day>): seq<Day>
      reads this
    {
      MissingDates(dailyBars, symbol, dates)
    }
  }

  /** After a bar for `(symbol, d)` is written, `d` is no longer missing
      for `symbol`. */
  lemma UpsertedNotMissing(m: map<BarKey, BarRow>, bars: seq<Bar>, i: int, dates: seq<Day>)
    requires 0 <= i < |bars|
    ensures bars[i].tradeDate !in MissingDates(Upsert(m, BarRecords(bars)), bars[i].symbol, dates)
  {
    UpsertKeys(m, BarRecords(bars), BarKey(bars[i].symbol, bars[i].tradeDate));
  }

  /** Writing bars for other symbols, or other dates, leaves the missing
      dates of a symbol as they were. */
  lemma MissingUnaffected(m: map<BarKey, BarRow>, bars: seq<Bar>, symbol: string, dates: seq<Day>)
    requires forall i :: 0 <= i < |bars| ==> bars[i].symbol != symbol || bars[i].tradeDate !in dates
    ensures MissingDates(Upsert(m, BarRecords(bars)), symbol, dates) == MissingDates(m, symbol, dates)
  {
    MissingSameOnDates(m, Upsert(m, BarRecords(bars)), symbol, dates, BarRecords(bars));
  }

  lemma {:induction false} MissingSameOnDates(m: map<BarKey, BarRow>, m': map<BarKey, BarRow>, symbol: string,
                                              dates: seq<Day>, records: seq<(BarKey, BarRow)>)
    requires m' == Upsert(m, records)
    requires forall i :: 0 <= i < |records| ==> records[i].0.symbol != symbol || records[i].0.tradeDate !in dates
    ensures MissingDates(m', symbol, dates) == MissingDates(m, symbol, dates)
  {
    if dates != [] {
      UpsertUntouched(m, records, BarKey(symbol, dates[0]));
      MissingSameOnDates(m, m', symbol, dates[1..], records);
    }
  }

  /** Bars written with their prices in order keep every stored row in
      order. */
  predicate RowOrdered(r: BarRow) {
    r.low <= r.open <= r.high && r.low <= r.close <= r.high
  }

  lemma OrderedRowsPreserved(m: map<BarKey, BarRow>, bars: seq<Bar>)
    requires forall k :: k in m ==> RowOrdered(m[k])
    requires forall i :: 0 <= i < |bars| ==> bars[i].low <= bars[i].open <= bars[i].high
                                             && bars[i].low <= bars[i].close <= bars[i].high
    ensures forall k :: k in Upsert(m, BarRecords(bars)) ==> RowOrdered(Upsert(m, BarRecords(bars))[k])
  {
    UpsertPreserves(m, BarRecords(bars), RowOrdered);
  }
}
