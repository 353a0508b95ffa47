/** stocks.py: the paginated EastMoney universe listing. */
module Stocks {
  import opened Wrappers
  import opened Payload

  /** One listed stock. `code` and `name` are whatever the listing holds
      under `f12` and `f14` (strings in practice); `market` is `str()` of
      the `f13` value. */
  datatype Stock = Stock(code: Json, name: Json, market: string)

  const ApiUrl: string := "https://push2.eastmoney.com/api/qt/clist/get"
  const PageSize: int := 500

  /** The fixed query parameters, in insertion order. */
  const DefaultParams: seq<(string, Json)> := [
    ("po", JInt(1)),
    ("np", JInt(1)),
    ("ut", JStr("bd1d9ddb04089700cf9c27f6f7426281")),
    ("fltt", JInt(2)),
    ("invt", JInt(2)),
    ("fid", JStr("f62")),
    ("fs", JStr("m:1,m:0")),
    ("fields", JStr("f12,f13,f14"))
  ]

  /** The query for page `page`: page number and size first, then the
      fixed parameters. */
  function PageQuery(page: int): seq<(string, Json)> {
    [("pn", JInt(page)), ("pz", JInt(PageSize))] + DefaultParams
  }

  /** The query asks for page `page` of `PageSize` rows, with the fixed
      parameters after them. */
  lemma PageQueryContents(page: int)
    ensures Lookup(PageQuery(page), "pn") == Some(JInt(page))
    ensures Lookup(PageQuery(page), "pz") == Some(JInt(PageSize))
    ensures PageQuery(page)[2..] == DefaultParams
  {
    var q := PageQuery(page);
    assert q[0] == ("pn", JInt(page)) && q[1] == ("pz", JInt(PageSize));
    assert q[2..] == DefaultParams;
  }

  // ---------------------------------------------------------------------
  // One listing row
  // ---------------------------------------------------------------------

  /** `_parse_stock` on a row given as its fields: `None` when the code or
      the name is missing or falsy or the market is missing or null.
      `repr` renders the values `str()` does not render itself. */
  function ParseStock(raw: seq<(string, Json)>, repr: Json -> string): (r: Option<Stock>)
    ensures r.Some? <==>
      (Lookup(raw, "f12").Some? && Truthy(Lookup(raw, "f12").value))
      && (Lookup(raw, "f14").Some? && Truthy(Lookup(raw, "f14").value))
      && (Lookup(raw, "f13").Some? && Lookup(raw, "f13").value != JNull)
    ensures r.Some? ==> (r.value.code == Lookup(raw, "f12").value
                         && r.value.name == Lookup(raw, "f14").value
                         && r.value.market == PyStr(Lookup(raw, "f13").value, repr))
  {
    var code := GetOr(raw, "f12", JNull);
    var name := GetOr(raw, "f14", JNull);
    var market := GetOr(raw, "f13", JNull);
    if !Truthy(code) || !Truthy(name) || market == JNull then None
    else Some(Stock(code, name, PyStr(market, repr)))
  }

  /** The row shape of the listing. */
  function Row(code: string, market: int, name: string): seq<(string, Json)> {
    [("f12", JStr(code)), ("f13", JInt(market)), ("f14", JStr(name))]
  }

  /** A row with a code, a name and an integer market parses, the market
      rendered in decimal. */
  lemma RowParses(code: string, market: int, name: string, repr: Json -> string)
    requires code != [] && name != []
    ensures ParseStock(Row(code, market, name), repr) == Some(Stock(JStr(code), JStr(name), Text.DecimalString(market)))
  {
    var raw := Row(code, market, name);
    assert raw[1..] == [("f13", JInt(market)), ("f14", JStr(name))];
    assert raw[1..][1..] == [("f14", JStr(name))];
    assert Lookup(raw, "f12") == Some(JStr(code));
    assert Lookup(raw, "f13") == Some(JInt(market));
    assert Lookup(raw[1..][1..], "f14") == Some(JStr(name));
    assert Lookup(raw[1..], "f14") == Some(JStr(name));
    assert Lookup(raw, "f14") == Some(JStr(name));
  }

  /** A market of 0 is kept and rendered as "0". */
  lemma MarketZeroIsKept(code: string, name: string, repr: Json -> string)
    requires code != [] && name != []
    ensures ParseStock(Row(code, 0, name), repr) == Some(Stock(JStr(code), JStr(name), "0"))
  {
    RowParses(code, 0, name, repr);
    assert Text.DecimalString(0) == "0";
  }

  /** Why the listing raised. */
  datatype ListError =
    | Request(error: NetError)   // raise_for_status, the transport, or response.json()
    | Malformed                  // `.get` on a value that is not a dict, or a `diff` that is not iterable

  /** The rows of one page, parsed in order; rows that do not parse are
      dropped, and a row that is not a dict raises. */
  function ParseRows(items: seq<Json>, repr: Json -> string): (r: Result<seq<Stock>, ListError>)
    ensures r.Ok? <==> forall i :: 0 <= i < |items| ==> items[i].JObj?
    ensures r.Err? ==> r.error == Malformed
    ensures r.Ok? ==> |r.value| <= |items|
    ensures r.Ok? ==> forall k :: 0 <= k < |r.value| ==> Truthy(r.value[k].code) && Truthy(r.value[k].name)
  {
    if items == [] then Ok([])
    else
      var init := items[..|items| - 1];
      var last := items[|items| - 1];
      assert forall i :: 0 <= i < |init| ==> items[i] == init[i];
      match ParseRows(init, repr)
      case Err(e) => Err(e)
      case Ok(rows) =>
        if !last.JObj? then Err(Malformed)
        else
          var parsed := ParseStock(last.fields, repr);
          Ok(rows + (if parsed.Some? then [parsed.value] else []))
  }

  // ---------------------------------------------------------------------
  // One page
  // ---------------------------------------------------------------------

  /** What one page does to the loop. */
  datatype PageOutcome =
    | Rows(stocks: seq<Stock>)   // parsed rows; go on to the next page
    | End                        // no `data`, or an empty `diff`: stop
    | Fail(error: ListError)     // the page raised

  /** One turn of the loop on the exchange for its page. */
  function ReadPage(x: Exchange, repr: Json -> string): (r: PageOutcome)
    ensures Receive(x).Threw? ==> r == Fail(Request(Receive(x).error))
    ensures r.Rows? ==> Receive(x).Returned? && Receive(x).value.JObj?
  {
    match Receive(x)
    case Threw(e) => Fail(Request(e))
    case Returned(payload) =>
      if !payload.JObj? then Fail(Malformed)
      else
        var data := GetOr(payload.fields, "data", JNull);
        if data == JNull then End
        else if !data.JObj? then Fail(Malformed)
        else
          var diffs := GetOr(data.fields, "diff", JNull);
          if !Truthy(diffs) then End
          else match Iterate(diffs)
            case None => Fail(Malformed)
            case Some(items) =>
              match ParseRows(items, repr)
              case Err(e) => Fail(e)
              case Ok(rows) => Rows(rows)
  }

  /** A successful page with an empty `diff` ends the listing. */
  lemma EmptyDiffEnds(status: int, repr: Json -> string)
    requires IsSuccess(status)
    ensures ReadPage(Response(status, Some(JObj([("data", JObj([("diff", JArr([]))]))]))), repr) == End
  {
    var data := JObj([("diff", JArr([]))]);
    assert Lookup([("data", data)], "data") == Some(data);
    assert Lookup(data.fields, "diff") == Some(JArr([]));
  }

  // ---------------------------------------------------------------------
  // The listing
  // ---------------------------------------------------------------------

  /** What each page does to the loop: page `p` (from 1) is answered by
      `pages[p - 1]`. */
  function PageOutcomes(pages: seq<Exchange>, repr: Json -> string): (r: seq<PageOutcome>)
    ensures |r| == |pages|
    decreases |pages|
  {
    if pages == [] then []
    else PageOutcomes(pages[..|pages| - 1], repr) + [ReadPage(pages[|pages| - 1], repr)]
  }

  lemma {:induction false} PageOutcomeAt(pages: seq<Exchange>, repr: Json -> string, i: nat)
    requires i < |pages|
    ensures PageOutcomes(pages, repr)[i] == ReadPage(pages[i], repr)
    decreases |pages|
  {
    var init := pages[..|pages| - 1];
    if i < |init| {
      PageOutcomeAt(init, repr, i);
      assert init[i] == pages[i];
    }
  }

  /** Some page does not go on. */
  predicate Stops(outcomes: seq<PageOutcome>) {
    exists n :: 0 <= n < |outcomes| && !outcomes[n].Rows?
  }

  /** Some page ends the loop; the loop only stops at a page that ends it. */
  predicate Finishes(pages: seq<Exchange>, repr: Json -> string) {
    Stops(PageOutcomes(pages, repr))
  }

  /** The first page from index `i` on that does not go on, or
      `|outcomes|` when every one does. */
  function FirstStop(outcomes: seq<PageOutcome>, i: nat): (n: nat)
    requires i <= |outcomes|
    ensures i <= n <= |outcomes|
    ensures n < |outcomes| ==> !outcomes[n].Rows?
    ensures forall j :: i <= j < n ==> outcomes[j].Rows?
    decreases |outcomes| - i
  {
    if i == |outcomes| || !outcomes[i].Rows? then i else FirstStop(outcomes, i + 1)
  }

  /** The index of the page that ends the loop. */
  function LastPage(outcomes: seq<PageOutcome>): (n: nat)
    requires Stops(outcomes)
    ensures n < |outcomes| && !outcomes[n].Rows?
    ensures forall i :: 0 <= i < n ==> outcomes[i].Rows?
  {
    FirstStop(outcomes, 0)
  }

  /** The rows of the first `n` pages, which all go on, page after page. */
  function Collect(outcomes: seq<PageOutcome>, n: nat): (r: seq<Stock>)
    requires n <= |outcomes|
    requires forall i :: 0 <= i < n ==> outcomes[i].Rows?
  {
    if n == 0 then [] else Collect(outcomes, n - 1) + outcomes[n - 1].stocks
  }

  /** Only the first `n` pages matter to `Collect`. */
  lemma {:induction false} CollectPrefix(outcomes: seq<PageOutcome>, other: seq<PageOutcome>, n: nat)
    requires n <= |outcomes| && n <= |other|
    requires forall i :: 0 <= i < n ==> other[i] == outcomes[i] && outcomes[i].Rows?
    ensures Collect(other, n) == Collect(outcomes, n)
  {
    if n > 0 {
      CollectPrefix(outcomes, other, n - 1);
    }
  }

  /** The rows of every page before the one that ends the loop, or that
      page's error. */
  function Listing(outcomes: seq<PageOutcome>): Result<seq<Stock>, ListError>
    requires Stops(outcomes)
  {
    var n := LastPage(outcomes);
    if outcomes[n].Fail? then Err(outcomes[n].error) else Ok(Collect(outcomes, n))
  }

  /** The listing ends at the first page that does not go on: with its
      error, or with the rows of the pages before it. */
  lemma ListingAt(outcomes: seq<PageOutcome>, n: nat)
    requires n < |outcomes| && !outcomes[n].Rows?
    requires forall i :: 0 <= i < n ==> outcomes[i].Rows?
    ensures Stops(outcomes) && LastPage(outcomes) == n
    ensures outcomes[n].Fail? ==> Listing(outcomes) == Err(outcomes[n].error)
    ensures !outcomes[n].Fail? ==> Listing(outcomes) == Ok(Collect(outcomes, n))
  {
    LastPageUnique(outcomes, n);
  }

  /** The queries of the first `count` pages, in order. */
  function Requests(count: nat): (r: seq<seq<(string, Json)>>)
    ensures |r| == count
  {
    if count == 0 then [] else Requests(count - 1) + [PageQuery(count)]
  }

  /** Page `i + 1` is asked for with its own page number. */
  lemma {:induction false} RequestsAt(count: nat, i: nat)
    requires i < count
    ensures Requests(count)[i] == PageQuery(i + 1)
  {
    if i < count - 1 {
      RequestsAt(count - 1, i);
    }
  }

  /** `list_all_stocks` on the pages. */
  function ListAll(pages: seq<Exchange>, repr: Json -> string): Result<seq<Stock>, ListError>
    requires Finishes(pages, repr)
  {
    Listing(PageOutcomes(pages, repr))
  }

  /** `list_all_stocks`. Returns the queries it sent, one per page, in
      order. */
  method ListAllStocks(pages: seq<Exchange>, repr: Json -> string)
    returns (r: Result<seq<Stock>, ListError>, queries: seq<seq<(string, Json)>>)
    requires Finishes(pages, repr)
    ensures r == ListAll(pages, repr)
    ensures queries == Requests(LastPage(PageOutcomes(pages, repr)) + 1)
  {
    r, queries := ListPages(pages, repr, PageOutcomes(pages, repr));
  }

  /** The loop of `list_all_stocks`, page after page, where `outcomes` is
      what each page does. */
  method ListPages(pages: seq<Exchange>, repr: Json -> string, ghost outcomes: seq<PageOutcome>)
    returns (r: Result<seq<Stock>, ListError>, queries: seq<seq<(string, Json)>>)
    requires outcomes == PageOutcomes(pages, repr) && Stops(outcomes)
    ensures r == Listing(outcomes)
    ensures queries == Requests(LastPage(outcomes) + 1)
  {
    ghost var n := LastPage(outcomes);
    var stocks: seq<Stock> := [];
    var page := 1;
    queries := [];
    while true
      invariant 1 <= page <= n + 1
      invariant stocks == Collect(outcomes, page - 1)
      invariant queries == Requests(page - 1)
      decreases n + 1 - page
    {
      queries := queries + [PageQuery(page)];
      var outcome := ReadPageAt(pages, page - 1, repr, outcomes);
      if !outcome.Rows? {
        ListingAt(outcomes, page - 1);
        if outcome.Fail? {
          r := Err(outcome.error);
        } else {
          r := Ok(stocks);
        }
        return;
      }
      stocks := stocks + outcome.stocks;
      page := page + 1;
    }
  }

  /** Request and read page `i + 1`. */
  method ReadPageAt(pages: seq<Exchange>, i: nat, repr: Json -> string, ghost outcomes: seq<PageOutcome>)
    returns (outcome: PageOutcome)
    requires i < |pages| && outcomes == PageOutcomes(pages, repr)
    ensures outcome == outcomes[i]
  {
    outcome := ReadPage(pages[i], repr);
    PageOutcomeAt(pages, repr, i);
  }

  /** The stocks all have a truthy code and name. */
  predicate AllTruthy(stocks: seq<Stock>) {
    forall k :: 0 <= k < |stocks| ==> Truthy(stocks[k].code) && Truthy(stocks[k].name)
  }

  lemma {:induction false} CollectedRowsValid(outcomes: seq<PageOutcome>, n: nat)
    requires n <= |outcomes|
    requires forall i :: 0 <= i < n ==> outcomes[i].Rows? && AllTruthy(outcomes[i].stocks)
    ensures AllTruthy(Collect(outcomes, n))
  {
    if n > 0 {
      CollectedRowsValid(outcomes, n - 1);
      var before, more := Collect(outcomes, n - 1), outcomes[n - 1].stocks;
      assert forall k :: |before| <= k < |before + more| ==> (before + more)[k] == more[k - |before|];
    }
  }

  /** Every listed stock has a truthy code and name. */
  lemma ListedRowsValid(pages: seq<Exchange>, repr: Json -> string)
    requires Finishes(pages, repr)
    ensures ListAll(pages, repr).Ok? ==> AllTruthy(ListAll(pages, repr).value)
  {
    var outcomes := PageOutcomes(pages, repr);
    var n := LastPage(outcomes);
    forall i | 0 <= i < n
      ensures outcomes[i].Rows? && AllTruthy(outcomes[i].stocks)
    {
      PageOutcomeAt(pages, repr, i);
      RowsValid(pages[i], repr);
    }
    CollectedRowsValid(outcomes, n);
  }

  lemma RowsValid(x: Exchange, repr: Json -> string)
    requires ReadPage(x, repr).Rows?
    ensures forall k :: 0 <= k < |ReadPage(x, repr).stocks| ==>
              Truthy(ReadPage(x, repr).stocks[k].code) && Truthy(ReadPage(x, repr).stocks[k].name)
  {
  }

  /** A successful page whose `diff` is a list of dicts. */
  function ListPage(rows: seq<seq<(string, Json)>>): Exchange {
    Response(200, Some(JObj([("data", JObj([("diff", JArr(seq(|rows|, i requires 0 <= i < |rows| => JObj(rows[i]))))]))])))
  }

  /** Such a page goes on with its parsed rows when it has any and ends the
      listing when it has none. */
  lemma ListPageOutcome(rows: seq<seq<(string, Json)>>, repr: Json -> string)
    ensures rows == [] ==> ReadPage(ListPage(rows), repr) == End
    ensures rows != [] ==>
      ReadPage(ListPage(rows), repr) == Rows(ParseRows(seq(|rows|, i requires 0 <= i < |rows| => JObj(rows[i])), repr).value)
  {
    var items := seq(|rows|, i requires 0 <= i < |rows| => JObj(rows[i]));
    var data := JObj([("diff", JArr(items))]);
    assert Lookup([("data", data)], "data") == Some(data);
    assert Lookup(data.fields, "diff") == Some(JArr(items));
  }

  /** Pages that each list some rows, followed by a page that lists none:
      the listing is the rows of all the pages before the empty one, in
      page order. */
  lemma PaginatesUntilEmpty(listed: seq<seq<seq<(string, Json)>>>, repr: Json -> string)
    requires forall i :: 0 <= i < |listed| ==> listed[i] != []
    ensures var pages := seq(|listed|, i requires 0 <= i < |listed| => ListPage(listed[i])) + [ListPage([])];
      && Finishes(pages, repr) && LastPage(PageOutcomes(pages, repr)) == |listed|
      && ListAll(pages, repr) == Ok(Collect(PageOutcomes(pages, repr), |listed|))
  {
    var pages := seq(|listed|, i requires 0 <= i < |listed| => ListPage(listed[i])) + [ListPage([])];
    var outcomes := PageOutcomes(pages, repr);
    forall i | 0 <= i < |listed|
      ensures outcomes[i].Rows?
    {
      PageOutcomeAt(pages, repr, i);
      ListPageOutcome(listed[i], repr);
      AllRowsParse(listed[i], repr);
    }
    PageOutcomeAt(pages, repr, |listed|);
    ListPageOutcome([], repr);
    assert outcomes[|listed|] == End;
    LastPageUnique(outcomes, |listed|);
  }

  /** Rows that are all dicts parse without raising. */
  lemma AllRowsParse(rows: seq<seq<(string, Json)>>, repr: Json -> string)
    ensures ParseRows(seq(|rows|, i requires 0 <= i < |rows| => JObj(rows[i])), repr).Ok?
  {
  }

  /** Pages after the one that ends the loop are never looked at. */
  lemma LaterPagesIgnored(pages: seq<Exchange>, more: seq<Exchange>, repr: Json -> string)
    requires Finishes(pages, repr)
    ensures Finishes(pages + more, repr)
    ensures LastPage(PageOutcomes(pages + more, repr)) == LastPage(PageOutcomes(pages, repr))
    ensures ListAll(pages + more, repr) == ListAll(pages, repr)
  {
    var outcomes := PageOutcomes(pages, repr);
    var all := PageOutcomes(pages + more, repr);
    var n := LastPage(outcomes);
    forall i | 0 <= i < |pages|
      ensures all[i] == outcomes[i]
    {
      PageOutcomeAt(pages, repr, i);
      PageOutcomeAt(pages + more, repr, i);
      assert (pages + more)[i] == pages[i];
    }
    LastPageUnique(all, n);
    CollectPrefix(outcomes, all, n);
  }

  /** The page that ends the loop is the first page that does not go on. */
  lemma LastPageUnique(outcomes: seq<PageOutcome>, n: nat)
    requires n < |outcomes| && !outcomes[n].Rows?
    requires forall i :: 0 <= i < n ==> outcomes[i].Rows?
    ensures Stops(outcomes) && LastPage(outcomes) == n
  {
    var m := LastPage(outcomes);
  }

  /** An error status on the first page raises before anything is listed. */
  lemma FirstPageErrorRaises(pages: seq<Exchange>, status: int, body: Option<Json>, repr: Json -> string)
    requires pages != [] && pages[0] == Response(status, body) && !IsSuccess(status)
    ensures Finishes(pages, repr)
    ensures ListAll(pages, repr) == Err(Request(HttpStatus(status)))
  {
    var outcomes := PageOutcomes(pages, repr);
    PageOutcomeAt(pages, repr, 0);
    assert outcomes[0] == Fail(Request(HttpStatus(status)));
    LastPageUnique(outcomes, 0);
  }
}
