/** `DataScraper`: the coordinator that searches every engine in turn and
    stores what they return, and the pass over stored rows that fetches
    the page of each organic row not yet scraped. */
module DataScraper {
  import opened Wrappers
  import opened SearchTypes
  import opened StrategyCommon
  import opened SearchUrl
  import opened SearchQueryAdd
  import opened RequestHandler

  // --------------------------------------------------------- get_urls

  /** The engines, in the order `get_urls` searches them. */
  const EngineOrder: seq<Kind> := [Google, Bing, DuckDuckGo, Yahoo]

  /** `list_of_engine_search`: one controller per engine. */
  function Strategies(): (ss: seq<Strategy>)
    ensures |ss| == |EngineOrder| && forall i :: 0 <= i < |ss| ==> ss[i].kind == EngineOrder[i]
  {
    [EngineStrategy(Google), EngineStrategy(Bing), EngineStrategy(DuckDuckGo), EngineStrategy(Yahoo)]
  }

  /** The lists found so far, or the exception that stopped the search,
      and the engines whose search was started. */
  datatype Gathered = Gathered(result: Result<seq<seq<Entry>>, Error>, searched: seq<Kind>)

  /** The search of each engine in turn; the first exception ends it. */
  function Gather(ss: seq<Strategy>, search: Strategy -> Result<seq<Entry>, Error>): Gathered
    decreases |ss|
  {
    if ss == [] then Gathered(Success([]), [])
    else
      var g := Gather(ss[..|ss| - 1], search);
      var last := ss[|ss| - 1];
      if g.result.Failure? then g
      else match search(last)
        case Failure(e) => Gathered(Failure(e), g.searched + [last.kind])
        case Success(r) => Gathered(Success(g.result.value + [r]), g.searched + [last.kind])
  }

  function Kinds(ss: seq<Strategy>): (r: seq<Kind>)
    ensures |r| == |ss| && forall i :: 0 <= i < |ss| ==> r[i] == ss[i].kind
  {
    seq(|ss|, i requires 0 <= i < |ss| => ss[i].kind)
  }

  /** Without an exception every engine is searched, in order, and the
      lists hold one result list per engine in that order. */
  lemma {:induction false} GatherOrder(ss: seq<Strategy>, search: Strategy -> Result<seq<Entry>, Error>)
    requires Gather(ss, search).result.Success?
    ensures Gather(ss, search).searched == Kinds(ss)
    ensures |Gather(ss, search).result.value| == |ss|
    ensures forall i :: 0 <= i < |ss| ==>
      search(ss[i]) == Success(Gather(ss, search).result.value[i])
    decreases |ss|
  {
    if ss != [] {
      var init := ss[..|ss| - 1];
      GatherOrder(init, search);
      assert forall i :: 0 <= i < |init| ==> init[i] == ss[i];
    }
  }

  /** An exception in one engine's search is the outcome: the engines
      before it succeeded and none after it is searched. */
  lemma {:induction false} GatherFailure(ss: seq<Strategy>, search: Strategy -> Result<seq<Entry>, Error>)
    requires Gather(ss, search).result.Failure?
    ensures exists i ::
      0 <= i < |ss| && search(ss[i]) == Failure(Gather(ss, search).result.error) &&
      Gather(ss, search).searched == Kinds(ss[..i + 1]) &&
      (forall j :: 0 <= j < i ==> search(ss[j]).Success?)
    decreases |ss|
  {
    var init := ss[..|ss| - 1];
    var g := Gather(init, search);
    assert forall i :: 0 <= i < |init| ==> init[i] == ss[i];
    if g.result.Failure? {
      GatherFailure(init, search);
      var i :| 0 <= i < |init| &&
        search(init[i]) == Failure(g.result.error) &&
        g.searched == Kinds(init[..i + 1]) &&
        forall j :: 0 <= j < i ==> search(init[j]).Success?;
      assert init[..i + 1] == ss[..i + 1];
    } else {
      GatherOrder(init, search);
      var i := |ss| - 1;
      assert ss[..i + 1] == ss;
      assert Kinds(ss) == Kinds(init) + [ss[i].kind];
    }
  }

  /** The search fails exactly when some engine's search raises. */
  lemma GatherFailsIff(ss: seq<Strategy>, search: Strategy -> Result<seq<Entry>, Error>)
    ensures Gather(ss, search).result.Failure? <==>
      exists i :: 0 <= i < |ss| && search(ss[i]).Failure?
  {
    if Gather(ss, search).result.Failure? {
      GatherFailure(ss, search);
    } else {
      GatherOrder(ss, search);
    }
  }

  /** Once the search has failed, the remaining engines change nothing. */
  lemma {:induction false} GatherFailed(ss: seq<Strategy>, i: nat, search: Strategy -> Result<seq<Entry>, Error>)
    requires i <= |ss| && Gather(ss[..i], search).result.Failure?
    ensures Gather(ss, search) == Gather(ss[..i], search)
    decreases |ss|
  {
    if i == |ss| {
      assert ss[..i] == ss;
    } else {
      var init := ss[..|ss| - 1];
      assert init[..i] == ss[..i];
      GatherFailed(init, i, search);
    }
  }

  /** One engine's `search(keyword, url_size)`, where `fetch` gives for
      each engine what requesting and parsing a page URL yields. */
  function EngineSearch(k: Keyword, size: int, fetch: Kind -> (string -> Result<seq<Entry>, Error>)): Strategy -> Result<seq<Entry>, Error> {
    (s: Strategy) => Run(s, k, size, fetch(s.kind)).result
  }

  /** What `get_urls` answers: the lists found, or the text of the
      exception and no lists. `total` and `ads` stand for the tally the
      code prints before storing; they are not part of its JSON answer,
      which holds only `success` and `urls`. */
  datatype Response = Found(urls: seq<seq<Entry>>, total: nat, ads: nat) | Failed(error: Error)

  /** `get_urls(keyword, url_size)`: every engine, then one
      `add_search_results` of all the lists; any exception on the way
      gives the failure answer. */
  function GetUrlsSpec(keyword: string, size: int, fetch: Kind -> (string -> Result<seq<Entry>, Error>),
                       fault: Entry -> Option<Error>): Response
  {
    var g := Gather(Strategies(), EngineSearch(Str(keyword), size, fetch));
    match g.result
    case Failure(e) => Failed(e)
    case Success(lists) =>
      match AddSearch(keyword, lists, fault)
      case Failure(e) => Failed(e)
      case Success(_) => Found(lists, TotalLength(lists), CountAds(Flatten(lists)))
  }

  /** A success answer holds one list per engine in the fixed order, each
      the result of that engine's search; `total_count` is the sum of
      their lengths and `ad_promo_count` counts the ad/promo entries among
      them, so it is at most the total. */
  lemma GetUrlsFound(keyword: string, size: int, fetch: Kind -> (string -> Result<seq<Entry>, Error>),
                     fault: Entry -> Option<Error>)
    requires GetUrlsSpec(keyword, size, fetch, fault).Found?
    ensures var r := GetUrlsSpec(keyword, size, fetch, fault);
      |r.urls| == |EngineOrder| &&
      (forall i :: 0 <= i < |r.urls| ==>
        Run(Strategies()[i], Str(keyword), size, fetch(EngineOrder[i])).result == Success(r.urls[i])) &&
      r.total == |Flatten(r.urls)| && r.ads <= r.total
  {
    var ss, search := Strategies(), EngineSearch(Str(keyword), size, fetch);
    GatherOrder(ss, search);
    FlattenLength(Gather(ss, search).result.value);
  }

  /** Any exception, from an engine's search or from storing the results,
      gives the failure answer; with none the answer is a success. */
  lemma GetUrlsFailed(keyword: string, size: int, fetch: Kind -> (string -> Result<seq<Entry>, Error>),
                      fault: Entry -> Option<Error>)
    ensures GetUrlsSpec(keyword, size, fetch, fault).Failed? <==>
      (exists i :: 0 <= i < |EngineOrder| &&
        Run(Strategies()[i], Str(keyword), size, fetch(EngineOrder[i])).result.Failure?) ||
      (Gather(Strategies(), EngineSearch(Str(keyword), size, fetch)).result.Success? &&
       FirstFault(Flatten(Gather(Strategies(), EngineSearch(Str(keyword), size, fetch)).result.value), fault).Some?)
  {
    var ss := Strategies();
    GatherFailsIff(ss, EngineSearch(Str(keyword), size, fetch));
  }

  lemma TotalAppend(found: seq<seq<Entry>>, r: seq<Entry>)
    ensures TotalLength(found + [r]) == TotalLength(found) + |r|
    ensures Flatten(found + [r]) == Flatten(found) + r
  {
    assert (found + [r])[..|found|] == found;
  }

  lemma AdsStep(rs: seq<Entry>, j: nat)
    requires j < |rs|
    ensures CountAds(rs[..j + 1]) == CountAds(rs[..j]) + if rs[j].adPromo then 1 else 0
  {
    assert rs[..j + 1][..j] == rs[..j];
  }

  /** The counting loop over one engine's results: every entry adds to
      the total and every ad/promo entry to the ad count. */
  method Tally(results: seq<Entry>, total0: nat, ads0: nat) returns (total: nat, ads: nat)
    ensures total == total0 + |results| && ads == ads0 + CountAds(results)
  {
    total, ads := total0, ads0;
    for j := 0 to |results|
      invariant total == total0 + j && ads == ads0 + CountAds(results[..j])
    {
      AdsStep(results, j);
      total := total + 1;
      if results[j].adPromo {
        ads := ads + 1;
      }
    }
    assert results[..|results|] == results;
  }

  lemma GatherStep(ss: seq<Strategy>, i: nat, search: Strategy -> Result<seq<Entry>, Error>)
    requires i < |ss|
    ensures Gather(ss[..i + 1], search) ==
      var g := Gather(ss[..i], search);
      if g.result.Failure? then g
      else match search(ss[i])
        case Failure(e) => Gathered(Failure(e), g.searched + [ss[i].kind])
        case Success(r) => Gathered(Success(g.result.value + [r]), g.searched + [ss[i].kind])
  {
    assert ss[..i + 1][..i] == ss[..i];
  }

  /** One engine's `search`, through the controller's loop. */
  method SearchEngine(s: Strategy, k: Keyword, size: int, fetch: Kind -> (string -> Result<seq<Entry>, Error>))
    returns (r: Result<seq<Entry>, Error>)
    ensures r == EngineSearch(k, size, fetch)(s)
  {
    var requested;
    r, requested := GetSearchResults(s, k, size, fetch(s.kind));
  }

  /** The loop of `get_urls`. */
  method GetUrls(keyword: string, urlSize: int, fetch: Kind -> (string -> Result<seq<Entry>, Error>),
                 fault: Entry -> Option<Error>)
    returns (resp: Response, searched: seq<Kind>)
    ensures resp == GetUrlsSpec(keyword, urlSize, fetch, fault)
    ensures searched == Gather(Strategies(), EngineSearch(Str(keyword), urlSize, fetch)).searched
  {
    var engines := Strategies();
    var k := Str(keyword);
    ghost var search := EngineSearch(k, urlSize, fetch);
    var foundUrls: seq<seq<Entry>> := [];
    var adPromoCount := 0;
    var totalCount := 0;
    searched := [];
    for i := 0 to |engines|
      invariant Gather(engines[..i], search) == Gathered(Success(foundUrls), searched)
      invariant totalCount == TotalLength(foundUrls) && adPromoCount == CountAds(Flatten(foundUrls))
    {
      var curr := engines[i];
      GatherStep(engines, i, search);
      searched := searched + [curr.kind];
      var engineResults := SearchEngine(curr, k, urlSize, fetch);
      if engineResults.Failure? {
        GatherFailed(engines, i + 1, search);
        return Failed(engineResults.error), searched;
      }
      var results := engineResults.value;
      totalCount, adPromoCount := Tally(results, totalCount, adPromoCount);
      CountAdsAppend(Flatten(foundUrls), results);
      TotalAppend(foundUrls, results);
      foundUrls := foundUrls + [results];
    }
    assert engines[..|engines|] == engines;
    var added := AddSearchResults(keyword, foundUrls, fault);
    if added.Failure? {
      return Failed(added.error), searched;
    }
    resp := Found(foundUrls, totalCount, adPromoCount);
  }

  // ------------------------------------------------ the row filter

  /** A row is fetched only when it is organic and not yet scraped. */
  predicate Qualifies(row: UrlRow) {
    !row.adPromo && !row.scraped
  }

  /** One row: `get_with_fallback` of its URL, given what `requests.get`
      answers for a URL, then `add_url_html_data`, given what the
      database raises for a row. */
  function Process(row: UrlRow, fetch: string -> Result<HttpResponse, Error>, fault: UrlRow -> Option<Error>): Result<UrlData, Error> {
    match GetWithFallback(row.url, fetch(row.url))
    case Failure(e) => Failure(e)
    case Success(html) => AddUrlHtmlData(html, row, fault(row))
  }

  /** Whether a row ends up in the returned list. */
  predicate Kept(row: UrlRow, fetch: string -> Result<HttpResponse, Error>, fault: UrlRow -> Option<Error>) {
    Qualifies(row) && Process(row, fetch, fault).Success?
  }

  /** `parse_list_of_searches_and_populate_url_data(rows)`: the stored
      data of each kept row, in row order; a row that raises is passed
      over. */
  function Populate(rows: seq<UrlRow>, fetch: string -> Result<HttpResponse, Error>, fault: UrlRow -> Option<Error>): (r: seq<UrlData>)
    ensures |r| <= |rows|
    decreases |rows|
  {
    if rows == [] then []
    else
      var rest := Populate(rows[..|rows| - 1], fetch, fault);
      var row := rows[|rows| - 1];
      if Kept(row, fetch, fault) then rest + [Process(row, fetch, fault).value] else rest
  }

  /** The URLs requested: one per qualifying row, in row order. */
  function Requested(rows: seq<UrlRow>): seq<string>
    decreases |rows|
  {
    if rows == [] then []
    else
      var rest := Requested(rows[..|rows| - 1]);
      if Qualifies(rows[|rows| - 1]) then rest + [rows[|rows| - 1].url] else rest
  }

  /** The positions of the kept rows, in increasing order. */
  function Picked(rows: seq<UrlRow>, fetch: string -> Result<HttpResponse, Error>, fault: UrlRow -> Option<Error>): seq<nat>
    decreases |rows|
  {
    if rows == [] then []
    else
      var rest := Picked(rows[..|rows| - 1], fetch, fault);
      if Kept(rows[|rows| - 1], fetch, fault) then rest + [|rows| - 1] else rest
  }

  /** The returned list matches the kept rows one for one and in order:
      entry `i` is what processing row `Picked[i]` gives, the positions
      increase, and every kept row is picked. */
  lemma {:induction false} PopulateOrder(rows: seq<UrlRow>, fetch: string -> Result<HttpResponse, Error>, fault: UrlRow -> Option<Error>)
    ensures var r, p := Populate(rows, fetch, fault), Picked(rows, fetch, fault);
      |p| == |r| &&
      (forall i :: 0 <= i < |p| ==>
        (p[i] < |rows| && Kept(rows[p[i]], fetch, fault) && r[i] == Process(rows[p[i]], fetch, fault).value)) &&
      (forall i, j :: 0 <= i < j < |p| ==> p[i] < p[j]) &&
      (forall n :: 0 <= n < |rows| && Kept(rows[n], fetch, fault) ==> n in p)
    decreases |rows|
  {
    if rows != [] {
      var init := rows[..|rows| - 1];
      PopulateOrder(init, fetch, fault);
      assert forall n :: 0 <= n < |init| ==> init[n] == rows[n];
      var last := |rows| - 1;
      if Kept(rows[last], fetch, fault) {
        assert Populate(rows, fetch, fault) == Populate(init, fetch, fault) + [Process(rows[last], fetch, fault).value];
        assert Picked(rows, fetch, fault) == Picked(init, fetch, fault) + [last];
      } else {
        assert Populate(rows, fetch, fault) == Populate(init, fetch, fault);
        assert Picked(rows, fetch, fault) == Picked(init, fetch, fault);
      }
    }
  }

  /** Each returned entry carries its row's id and the count of the row's
      search term in the fetched page. */
  lemma PopulatePicked(rows: seq<UrlRow>, fetch: string -> Result<HttpResponse, Error>, fault: UrlRow -> Option<Error>)
    ensures var r, p := Populate(rows, fetch, fault), Picked(rows, fetch, fault);
      |p| == |r| &&
      forall i :: 0 <= i < |p| ==>
        p[i] < |rows| && r[i].rowId == rows[p[i]].id && r[i].count == GetCount(r[i].html, rows[p[i]].searchTerm)
  {
    PopulateOrder(rows, fetch, fault);
  }

  /** Only qualifying rows are requested, each once, in row order. */
  lemma {:induction false} RequestedQualifying(rows: seq<UrlRow>)
    ensures |Requested(rows)| <= |rows|
    ensures forall u :: u in Requested(rows) <==> exists n :: 0 <= n < |rows| && Qualifies(rows[n]) && rows[n].url == u
    decreases |rows|
  {
    if rows != [] {
      var init := rows[..|rows| - 1];
      RequestedQualifying(init);
      assert forall n :: 0 <= n < |init| ==> init[n] == rows[n];
      forall u | exists n :: 0 <= n < |rows| && Qualifies(rows[n]) && rows[n].url == u
        ensures u in Requested(rows)
      {
        var n :| 0 <= n < |rows| && Qualifies(rows[n]) && rows[n].url == u;
        if n < |init| {
          assert init[n] == rows[n];
        }
      }
    }
  }

  lemma PrefixStep<T>(s: seq<T>, i: nat)
    requires i < |s|
    ensures s[..i + 1][..i] == s[..i] && s[..i + 1][i] == s[i]
  {
  }

  /** The loop over the rows. */
  method ParseListOfSearches(rows: seq<UrlRow>, fetch: string -> Result<HttpResponse, Error>, fault: UrlRow -> Option<Error>)
    returns (results: seq<UrlData>, requested: seq<string>)
    ensures results == Populate(rows, fetch, fault)
    ensures requested == Requested(rows)
  {
    results := [];
    requested := [];
    for i := 0 to |rows|
      invariant results == Populate(rows[..i], fetch, fault)
      invariant requested == Requested(rows[..i])
    {
      var row := rows[i];
      PrefixStep(rows, i);
      if !row.adPromo && !row.scraped {
        requested := requested + [row.url];
        var html := GetWithFallback(row.url, fetch(row.url));
        if html.Failure? {
          continue;
        }
        var urlData := AddUrlHtmlData(html.value, row, fault(row));
        if urlData.Failure? {
          continue;
        }
        results := results + [urlData.value];
      }
    }
    assert rows[..|rows|] == rows;
  }
}
