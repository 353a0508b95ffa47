/** fetchers/daily.py: the providers in priority order, the fallback
    `fetch`, the bar normalisation `_clean`, and `close`. */
module Fetcher {
  import opened Wrappers
  import opened Dates
  import opened Providers

  // ---------------------------------------------------------------------
  // `_clean`
  // ---------------------------------------------------------------------

  /** The price bounds every stored bar should satisfy. */
  predicate Ordered(b: Bar) {
    b.low <= b.open <= b.high && b.low <= b.close <= b.high
  }

  function Max3(a: real, b: real, c: real): (m: real)
    ensures m >= a && m >= b && m >= c
    ensures m == a || m == b || m == c
  {
    if a >= b && a >= c then a else if b >= c then b else c
  }

  function Min3(a: real, b: real, c: real): (m: real)
    ensures m <= a && m <= b && m <= c
    ensures m == a || m == b || m == c
  {
    if a <= b && a <= c then a else if b <= c then b else c
  }

  /** `_clean`: a zero open becomes the close, the high is widened and the
      low narrowed to take in the open and the close. `volume or 0` and
      `turnover or 0` leave a number as it is (a zero stays zero). */
  function Clean(b: Bar): (c: Bar)
    ensures Ordered(c)
    ensures c.close == b.close
    ensures c.open == (if b.open == 0.0 then b.close else b.open)
    ensures c.high >= b.high && (c.high == b.high || c.high == c.open || c.high == c.close)
    ensures c.low <= b.low && (c.low == b.low || c.low == c.open || c.low == c.close)
    ensures c.volume == b.volume && c.turnover == b.turnover
    ensures c.symbol == b.symbol && c.tradeDate == b.tradeDate && c.raw == b.raw
  {
    var open := if b.open == 0.0 then b.close else b.open;
    b.(open := open, high := Max3(b.high, open, b.close), low := Min3(b.low, open, b.close))
  }

  /** Cleaning a cleaned bar changes nothing. */
  lemma CleanIdempotent(b: Bar)
    ensures Clean(Clean(b)) == Clean(b)
  {
    var c := Clean(b);
    assert c.open == 0.0 ==> c.close == 0.0;
    assert Max3(c.high, c.open, c.close) == c.high;
    assert Min3(c.low, c.open, c.close) == c.low;
  }

  /** A bar that already satisfies the bounds and has a non-zero open is
      left exactly as it is. */
  lemma CleanKeepsOrdered(b: Bar)
    requires Ordered(b) && b.open != 0.0
    ensures Clean(b) == b
  {
    assert Max3(b.high, b.open, b.close) == b.high;
    assert Min3(b.low, b.open, b.close) == b.low;
  }

  // ---------------------------------------------------------------------
  // `sorted(providers, key=priority, reverse=True)`
  // ---------------------------------------------------------------------

  predicate Descending(ps: seq<Provider>) {
    forall i, j :: 0 <= i < j < |ps| ==> ps[i].priority >= ps[j].priority
  }

  /** The providers of priority `q`, in their order in `ps`. */
  function WithPriority(ps: seq<Provider>, q: int): seq<Provider> {
    if ps == [] then [] else (if ps[0].priority == q then [ps[0]] else []) + WithPriority(ps[1..], q)
  }

  /** Insert `p` before the first provider whose priority is not higher. */
  function InsertByPriority(p: Provider, s: seq<Provider>): (r: seq<Provider>)
    requires Descending(s)
    ensures Descending(r)
    ensures |r| == |s| + 1
    ensures r[0] == p || (s != [] && r[0] == s[0])
  {
    if s == [] || s[0].priority <= p.priority then
      [p] + s
    else
      [s[0]] + InsertByPriority(p, s[1..])
  }

  lemma {:induction false} InsertByPriorityPermutes(p: Provider, s: seq<Provider>)
    requires Descending(s)
    ensures multiset(InsertByPriority(p, s)) == multiset(s) + multiset{p}
  {
    var r := InsertByPriority(p, s);
    if s == [] || s[0].priority <= p.priority {
      assert r == [p] + s;
    } else {
      var rest := InsertByPriority(p, s[1..]);
      assert r == [s[0]] + rest;
      assert multiset(rest) == multiset(s[1..]) + multiset{p} by {
        InsertByPriorityPermutes(p, s[1..]);
      }
      assert multiset(s) == multiset{s[0]} + multiset(s[1..]) by {
        assert s == [s[0]] + s[1..];
      }
    }
  }

  /** `p` lands in front of the providers of its own priority, and every
      other priority keeps its providers in order. */
  lemma {:induction false} InsertByPriorityStable(p: Provider, s: seq<Provider>, q: int)
    requires Descending(s)
    ensures WithPriority(InsertByPriority(p, s), q) == (if p.priority == q then [p] else []) + WithPriority(s, q)
  {
    var r := InsertByPriority(p, s);
    if s == [] || s[0].priority <= p.priority {
      assert r == [p] + s;
      assert r[1..] == s;
    } else {
      var rest := InsertByPriority(p, s[1..]);
      assert r == [s[0]] + rest;
      assert r[1..] == rest;
      assert WithPriority(rest, q) == (if p.priority == q then [p] else []) + WithPriority(s[1..], q) by {
        InsertByPriorityStable(p, s[1..], q);
      }
      assert WithPriority(s, q) == (if s[0].priority == q then [s[0]] else []) + WithPriority(s[1..], q);
    }
  }

  /** Python's `sorted(..., key=priority, reverse=True)`. */
  function SortByPriority(ps: seq<Provider>): (r: seq<Provider>)
    ensures Descending(r)
    ensures |r| == |ps|
  {
    if ps == [] then [] else InsertByPriority(ps[0], SortByPriority(ps[1..]))
  }

  /** The sort is a permutation. */
  lemma {:induction false} SortByPriorityPermutes(ps: seq<Provider>)
    ensures multiset(SortByPriority(ps)) == multiset(ps)
  {
    if ps != [] {
      var rest := SortByPriority(ps[1..]);
      assert multiset(rest) == multiset(ps[1..]) by {
        SortByPriorityPermutes(ps[1..]);
      }
      assert multiset(InsertByPriority(ps[0], rest)) == multiset(rest) + multiset{ps[0]} by {
        InsertByPriorityPermutes(ps[0], rest);
      }
      assert multiset(ps) == multiset(ps[1..]) + multiset{ps[0]} by {
        assert ps == [ps[0]] + ps[1..];
      }
    }
  }

  /** The sort is stable: the providers of each priority appear in the
      order they were given. */
  lemma {:induction false} SortByPriorityStable(ps: seq<Provider>, q: int)
    ensures WithPriority(SortByPriority(ps), q) == WithPriority(ps, q)
  {
    if ps != [] {
      SortByPriorityStable(ps[1..], q);
      InsertByPriorityStable(ps[0], SortByPriority(ps[1..]), q);
    }
  }

  // ---------------------------------------------------------------------
  // `fetch`
  // ---------------------------------------------------------------------

  /** Whether provider `p` gives a bar for the request. */
  predicate Hit(p: Provider, symbol: string, date: Day, w: World) {
    p.Respond(symbol, date, w).0.Found?
  }

  /** What each provider answers to the request, in order. */
  function Answers(ps: seq<Provider>, symbol: string, date: Day, w: World): (r: seq<Answer>)
    ensures |r| == |ps|
    ensures forall j :: 0 <= j < |ps| ==> r[j] == ps[j].Respond(symbol, date, w).0
  {
    seq(|ps|, j requires 0 <= j < |ps| => ps[j].Respond(symbol, date, w).0)
  }

  /** The cleaned bar of the first `Found` answer from index `i` on, and the
      number of answers up to and including it (all of them when there is
      none). */
  function FirstBar(answers: seq<Answer>, i: nat): (r: (Option<Bar>, nat))
    requires i <= |answers|
    ensures i <= r.1 <= |answers|
    ensures r.0.None? <==> forall j :: i <= j < |answers| ==> !answers[j].Found?
    ensures r.0.None? ==> r.1 == |answers|
    ensures r.0.Some? ==> i < r.1 && answers[r.1 - 1].Found? && r.0.value == Clean(answers[r.1 - 1].bar)
                          && forall j :: i <= j < r.1 - 1 ==> !answers[j].Found?
    decreases |answers| - i
  {
    if i == |answers| then (None, i)
    else if answers[i].Found? then (Some(Clean(answers[i].bar)), i + 1)
    else FirstBar(answers, i + 1)
  }

  /** The cleaned bar of the first provider that gives one, and how many
      providers were asked. */
  function FirstFound(ps: seq<Provider>, symbol: string, date: Day, w: World): (Option<Bar>, nat)
  {
    FirstBar(Answers(ps, symbol, date, w), 0)
  }

  /** Providers that answer `None` or raise are passed over: the result is
      the cleaned bar of the first provider that gives one, after asking it
      and every provider before it, and nothing after asking them all when
      none does. */
  lemma FirstFoundSpec(ps: seq<Provider>, symbol: string, date: Day, w: World)
    ensures var r := FirstFound(ps, symbol, date, w);
      && r.1 <= |ps|
      && (r.0.None? <==> forall j :: 0 <= j < |ps| ==> !Hit(ps[j], symbol, date, w))
      && (r.0.None? ==> r.1 == |ps|)
      && (r.0.Some? ==> 1 <= r.1 && Hit(ps[r.1 - 1], symbol, date, w)
                        && r.0.value == Clean(ps[r.1 - 1].Respond(symbol, date, w).0.bar)
                        && forall j :: 0 <= j < r.1 - 1 ==> !Hit(ps[j], symbol, date, w))
  {
    var answers := Answers(ps, symbol, date, w);
    assert forall j :: 0 <= j < |ps| ==> (answers[j].Found? <==> Hit(ps[j], symbol, date, w));
  }

  /** `DailyFetcher`. */
  class DailyFetcher {
    /** `_providers`, fixed at construction. */
    const providers: seq<Provider>

    constructor (given: seq<Provider>)
      ensures providers == SortByPriority(given)
    {
      providers := SortByPriority(given);
    }

    /** `fetch`: ask the providers in order and return the first bar,
        cleaned; `calls` is how many providers were asked. */
    method Fetch(symbol: string, date: Day, w: World) returns (r: Option<Bar>, calls: nat)
      ensures (r, calls) == FirstFound(providers, symbol, date, w)
    {
      r, calls := AskInOrder(providers, symbol, date, w);
    }

    /** `close`: close every provider, in order. None of them closes a
        client. */
    method Close() returns (closedInOrder: seq<Provider>, anyClosed: bool)
      requires forall p :: p in providers ==> p.ownsClient == !p.hasClient
      ensures closedInOrder == providers
      ensures !anyClosed
    {
      closedInOrder := [];
      anyClosed := false;
      for i := 0 to |providers|
        invariant closedInOrder == providers[..i]
        invariant !anyClosed
      {
        var closed := providers[i].Close();
        closedInOrder := closedInOrder + [providers[i]];
        anyClosed := anyClosed || closed;
      }
    }
  }

  /** The loop of `fetch`: ask the providers in order until one gives a bar. */
  method AskInOrder(providers: seq<Provider>, symbol: string, date: Day, w: World)
    returns (r: Option<Bar>, calls: nat)
    ensures (r, calls) == FirstFound(providers, symbol, date, w)
  {
    ghost var answers := Answers(providers, symbol, date, w);
    var i := 0;
    while i < |providers|
      invariant 0 <= i <= |providers|
      invariant FirstFound(providers, symbol, date, w) == FirstBar(answers, i)
    {
      var answer, _ := providers[i].FetchDaily(symbol, date, w);
      assert answer == answers[i];
      if answer.Found? {
        return Some(Clean(answer.bar)), i + 1;
      }
      i := i + 1;
    }
    r, calls := None, i;
  }

  /** A higher-priority provider that raises is passed over, and the bar
      of the next one is returned, cleaned, after two calls; the input
      order of the providers does not matter. */
  lemma FallbackAfterFailure(low: Provider, high: Provider, symbol: string, date: Day, w: World)
    requires high.priority > low.priority
    requires high.Respond(symbol, date, w).0.Failed?
    requires low.Respond(symbol, date, w).0.Found?
    ensures FirstFound(SortByPriority([low, high]), symbol, date, w)
         == (Some(Clean(low.Respond(symbol, date, w).0.bar)), 2)
  {
    var s := SortByPriority([low, high]);
    SortByPriorityPermutes([low, high]);
    assert multiset(s) == multiset{low, high};
    assert s[0] in multiset(s) && s[1] in multiset(s);
    assert s[0] == high && s[1] == low;
    assert s[1..] == [low];
  }

  /** Providers of equal priority are asked in the order they were given. */
  lemma EqualPriorityKeepsOrder(ps: seq<Provider>, i: nat, j: nat, q: int)
    requires i < j < |ps| && ps[i].priority == q && ps[j].priority == q
    ensures InOrder(WithPriority(SortByPriority(ps), q), ps[i], ps[j])
  {
    SortByPriorityStable(ps, q);
    WithPriorityOrder(ps, i, j, q);
  }

  /** `x` occurs in `s` before an occurrence of `y`. */
  predicate InOrder(s: seq<Provider>, x: Provider, y: Provider) {
    exists a, b :: 0 <= a < b < |s| && s[a] == x && s[b] == y
  }

  /** Two providers of priority `q` keep their relative order in `WithPriority`. */
  lemma {:induction false} WithPriorityOrder(ps: seq<Provider>, i: nat, j: nat, q: int)
    requires i < j < |ps| && ps[i].priority == q && ps[j].priority == q
    ensures InOrder(WithPriority(ps, q), ps[i], ps[j])
  {
    var s := WithPriority(ps, q);
    var tail := WithPriority(ps[1..], q);
    var head := if ps[0].priority == q then [ps[0]] else [];
    assert s == head + tail;
    if i == 0 {
      WithPriorityHas(ps[1..], j - 1, q);
      var b :| 0 <= b < |tail| && tail[b] == ps[1..][j - 1];
      assert head == [ps[0]] && ps[1..][j - 1] == ps[j];
      assert s[b + 1] == tail[b];
      assert 0 <= 0 < b + 1 < |s| && s[0] == ps[i] && s[b + 1] == ps[j];

    } else {
      WithPriorityOrder(ps[1..], i - 1, j - 1, q);
      var a, b :| 0 <= a < b < |tail| && tail[a] == ps[1..][i - 1] && tail[b] == ps[1..][j - 1];
      assert ps[1..][i - 1] == ps[i] && ps[1..][j - 1] == ps[j];
      var a', b' := a + |head|, b + |head|;
      assert s[a'] == tail[a] && s[b'] == tail[b];
      assert 0 <= a' < b' < |s| && s[a'] == ps[i] && s[b'] == ps[j];
    }
  }

  lemma {:induction false} WithPriorityHas(ps: seq<Provider>, j: nat, q: int)
    requires j < |ps| && ps[j].priority == q
    ensures exists b :: 0 <= b < |WithPriority(ps, q)| && WithPriority(ps, q)[b] == ps[j]
  {
    var s := WithPriority(ps, q);
    var tail := WithPriority(ps[1..], q);
    var head := if ps[0].priority == q then [ps[0]] else [];
    assert s == head + tail;
    if j == 0 {
      assert s[0] == ps[0];
    } else {
      WithPriorityHas(ps[1..], j - 1, q);
      var b :| 0 <= b < |tail| && tail[b] == ps[1..][j - 1];
      assert s[b + |head|] == ps[j];
    }
  }
}
