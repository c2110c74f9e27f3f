/** The earlier `SearchUrls.get_search_results` (searchFilter/DataScraper):
    a number of pages fixed in advance, ten results each, stopping early
    once enough results are held, and cut to the requested count. It
    keeps every parsed result, whatever it is, so the model is generic in
    the result type `T`. */
module LegacySearchUrl {
  import opened Wrappers
  import opened Text
  import opened SearchTypes
  import opened StrategyCommon

  const ResultsPerPage := 10

  /** `num_pages`: `total // 10`, plus one when `total % 10` is not 0,
      with Python's floor division and modulo (which Dafny's `/` and `%`
      agree with for a positive divisor). It is the ceiling of a tenth of
      the total, and no page is fetched for a total of 0 or less. */
  function NumPages(total: int): (n: int)
    ensures total > 0 ==> (n - 1) * ResultsPerPage < total <= n * ResultsPerPage
    ensures total <= 0 <==> n <= 0
  {
    total / ResultsPerPage + (if total % ResultsPerPage != 0 then 1 else 0)
  }

  /** The URL of a page: the search URL with `&start=` and the offset. */
  function PageUrl(u: string, page: nat): string {
    u + "&start=" + NatToString(page * ResultsPerPage)
  }

  /** Different pages are requested under different URLs. */
  lemma PageUrlsDistinct(u: string, a: nat, b: nat)
    ensures PageUrl(u, a) == PageUrl(u, b) <==> a == b
  {
    if PageUrl(u, a) == PageUrl(u, b) {
      var p := u + "&start=";
      assert NatToString(a * ResultsPerPage) == PageUrl(u, a)[|p|..];
      assert NatToString(b * ResultsPerPage) == PageUrl(u, b)[|p|..];
      DigitsRoundTrip(a * ResultsPerPage);
      DigitsRoundTrip(b * ResultsPerPage);
    }
  }

  /** Python's `s[:n]`: a negative `n` counts from the end. */
  function SlicePrefix<T>(s: seq<T>, n: int): (r: seq<T>)
    ensures |r| <= |s| && r == s[..|r|]
    ensures n >= 0 ==> |r| == if n <= |s| then n else |s|
  {
    if n >= 0 then (if n <= |s| then s[..n] else s)
    else if |s| + n >= 0 then s[..|s| + n] else []
  }

  /** What the controller returns, or the exception it lets through, and
      the URLs it requested, in order. */
  datatype Outcome<T> = Outcome(result: Result<seq<T>, Error>, requested: seq<string>)

  function After<T>(requested: seq<string>, o: Outcome<T>): Outcome<T> {
    Outcome(o.result, requested + o.requested)
  }

  /** The pages from `page` on, with the results so far. `built` is what
      `build_search_url` gives, the same for every page; `fetch` is
      requesting a URL and parsing the answer. */
  function Collect<T>(built: Result<string, Error>, total: int, fetch: string -> Result<seq<T>, Error>,
                      results: seq<T>, page: nat, pages: int): Outcome<T>
    decreases pages - page
  {
    if page >= pages then Outcome(Success(results), [])
    else match built
      case Failure(e) => Outcome(Failure(e), [])
      case Success(u) =>
        var url := PageUrl(u, page);
        match fetch(url)
        case Failure(e) => Outcome(Failure(e), [url])
        case Success(found) =>
          var rs := results + found;
          if |rs| >= total then Outcome(Success(rs), [url])
          else After([url], Collect(built, total, fetch, rs, page + 1, pages))
  }

  /** `get_search_results(keyword, total_results)`. */
  function Search<T>(built: Result<string, Error>, total: int, fetch: string -> Result<seq<T>, Error>): Outcome<T> {
    var o := Collect(built, total, fetch, [], 0, NumPages(total));
    match o.result
    case Success(rs) => Outcome(Success(SlicePrefix(rs, total)), o.requested)
    case Failure(_) => o
  }

  /** The loop of `get_search_results`. */
  method GetSearchResults<T>(build: Keyword -> Result<string, Error>, k: Keyword, total: int,
                             fetch: string -> Result<seq<T>, Error>)
    returns (out: Result<seq<T>, Error>, requested: seq<string>)
    ensures Outcome(out, requested) == Search(build(k), total, fetch)
  {
    var results: seq<T> := [];
    var numPages := NumPages(total);
    requested := [];
    var page: nat := 0;
    ghost var whole := Collect(build(k), total, fetch, [], 0, numPages);
    while page < numPages
      invariant whole == After(requested, Collect(build(k), total, fetch, results, page, numPages))
      decreases numPages - page
    {
      ghost var here := Collect(build(k), total, fetch, results, page, numPages);
      ghost var before := requested;
      var searchUrls := build(k);
      if searchUrls.Failure? {
        assert here == Outcome(Failure(searchUrls.error), []);
        assert requested + [] == requested;
        return Failure(searchUrls.error), requested;
      }
      var url := searchUrls.value + "&start=" + NatToString(page * ResultsPerPage);
      requested := requested + [url];
      var pageResults := fetch(url);
      if pageResults.Failure? {
        assert here == Outcome(Failure(pageResults.error), [url]);
        return Failure(pageResults.error), requested;
      }
      results := results + pageResults.value;
      if |results| >= total {
        assert here == Outcome(Success(results), [url]);
        return Success(SlicePrefix(results, total)), requested;
      }
      page := page + 1;
      ghost var next := Collect(build(k), total, fetch, results, page, numPages);
      assert here == After([url], next);
      assert before + ([url] + next.requested) == requested + next.requested;
    }
    assert requested + [] == requested;
    out := Success(SlicePrefix(results, total));
  }

  // ------------------------------------------------------- properties

  /** The results of the pages requested, one after another. */
  function Joined<T>(urls: seq<string>, fetch: string -> Result<seq<T>, Error>): seq<T>
    decreases |urls|
  {
    if urls == [] then []
    else
      var last := fetch(urls[|urls| - 1]);
      Joined(urls[..|urls| - 1], fetch) + (if last.Success? then last.value else [])
  }

  lemma {:induction false} JoinedFront<T>(url: string, rest: seq<string>, fetch: string -> Result<seq<T>, Error>)
    requires fetch(url).Success?
    ensures Joined([url] + rest, fetch) == fetch(url).value + Joined(rest, fetch)
    decreases |rest|
  {
    if rest == [] {
      assert [url] + rest == [url];
      assert [url][..0] == [];
    } else {
      var init := rest[..|rest| - 1];
      JoinedFront(url, init, fetch);
      assert ([url] + rest)[..|[url] + rest| - 1] == [url] + init;
    }
  }

  /** One page that leaves the count short: its URL is requested and the
      next page follows. */
  lemma CollectUnfold<T>(built: Result<string, Error>, total: int, fetch: string -> Result<seq<T>, Error>,
                         results: seq<T>, page: nat, pages: int)
    requires page < pages && built.Success? && fetch(PageUrl(built.value, page)).Success?
    requires |results + fetch(PageUrl(built.value, page)).value| < total
    ensures Collect(built, total, fetch, results, page, pages) ==
      After([PageUrl(built.value, page)],
            Collect(built, total, fetch, results + fetch(PageUrl(built.value, page)).value, page + 1, pages))
  {
  }

  /** Page `page`, `page + 1`, ... are requested in turn, at most one per
      page left, and none when the URL cannot be built. */
  lemma {:induction false} CollectRequests<T>(built: Result<string, Error>, total: int, fetch: string -> Result<seq<T>, Error>,
                                              results: seq<T>, page: nat, pages: int)
    ensures built.Failure? ==> Collect(built, total, fetch, results, page, pages).requested == []
    ensures |Collect(built, total, fetch, results, page, pages).requested| <= if pages > page then pages - page else 0
    ensures built.Success? ==>
      forall i :: 0 <= i < |Collect(built, total, fetch, results, page, pages).requested| ==>
        Collect(built, total, fetch, results, page, pages).requested[i] == PageUrl(built.value, page + i)
    decreases pages - page
  {
    if page < pages && built.Success? {
      var url := PageUrl(built.value, page);
      if fetch(url).Success? && |results + fetch(url).value| < total {
        var rs := results + fetch(url).value;
        CollectUnfold(built, total, fetch, results, page, pages);
        CollectRequests(built, total, fetch, rs, page + 1, pages);
        var rq := Collect(built, total, fetch, rs, page + 1, pages).requested;
        forall i | 1 <= i < 1 + |rq|
          ensures ([url] + rq)[i] == PageUrl(built.value, page + i)
        {
          assert ([url] + rq)[i] == rq[i - 1];
        }
      }
    }
  }

  /** A success keeps the results so far followed by those of every page
      requested, in order and unfiltered. */
  lemma {:induction false} CollectJoined<T>(built: Result<string, Error>, total: int, fetch: string -> Result<seq<T>, Error>,
                                            results: seq<T>, page: nat, pages: int)
    requires Collect(built, total, fetch, results, page, pages).result.Success?
    ensures Collect(built, total, fetch, results, page, pages).result.value ==
      results + Joined(Collect(built, total, fetch, results, page, pages).requested, fetch)
    decreases pages - page
  {
    if page < pages {
      var url := PageUrl(built.value, page);
      var rs := results + fetch(url).value;
      if |rs| < total {
        CollectUnfold(built, total, fetch, results, page, pages);
        CollectJoined(built, total, fetch, rs, page + 1, pages);
        JoinedFront(url, Collect(built, total, fetch, rs, page + 1, pages).requested, fetch);
      } else {
        JoinedFront(url, [], fetch);
        assert [url] + [] == [url];
      }
    }
  }

  /** How many results are held once the page at index `i` of `urls` is in. */
  function HeldAfter<T>(results: seq<T>, urls: seq<string>, fetch: string -> Result<seq<T>, Error>, i: nat): nat
    requires i < |urls|
  {
    |results + Joined(urls[..i + 1], fetch)|
  }

  /** Fetching stops at the first page that brings the count to the
      total: every earlier page left it short. */
  lemma {:induction false} CollectStopsFirst<T>(built: Result<string, Error>, total: int, fetch: string -> Result<seq<T>, Error>,
                                                results: seq<T>, page: nat, pages: int)
    ensures forall i :: 0 <= i < |Collect(built, total, fetch, results, page, pages).requested| - 1 ==>
      HeldAfter(results, Collect(built, total, fetch, results, page, pages).requested, fetch, i) < total
    decreases pages - page
  {
    if page < pages && built.Success? {
      var url := PageUrl(built.value, page);
      if fetch(url).Success? && |results + fetch(url).value| < total {
        var rs := results + fetch(url).value;
        CollectUnfold(built, total, fetch, results, page, pages);
        CollectStopsFirst(built, total, fetch, rs, page + 1, pages);
        var rq := Collect(built, total, fetch, rs, page + 1, pages).requested;
        var all := [url] + rq;
        forall i | 0 <= i < |all| - 1
          ensures HeldAfter(results, all, fetch, i) < total
        {
          if i == 0 {
            assert all[..1] == [url] + [];
            JoinedFront(url, [], fetch);
          } else {
            assert all[..i + 1] == [url] + rq[..i];
            JoinedFront(url, rq[..i], fetch);
            assert HeldAfter(rs, rq, fetch, i - 1) < total;
          }
        }
      }
    }
  }

  /** A success that ends with pages still to go reached the total. */
  lemma {:induction false} CollectStopsEarly<T>(built: Result<string, Error>, total: int, fetch: string -> Result<seq<T>, Error>,
                                                results: seq<T>, page: nat, pages: int)
    requires Collect(built, total, fetch, results, page, pages).result.Success?
    requires page + |Collect(built, total, fetch, results, page, pages).requested| < pages
    ensures |Collect(built, total, fetch, results, page, pages).result.value| >= total
    decreases pages - page
  {
    var url := PageUrl(built.value, page);
    var rs := results + fetch(url).value;
    if |rs| < total {
      CollectUnfold(built, total, fetch, results, page, pages);
      CollectStopsEarly(built, total, fetch, rs, page + 1, pages);
    }
  }

  /** The answer: the first `total` of the collected results, so a prefix
      of length at most the total; nothing is requested or returned for
      a total of 0 or less. */
  lemma SearchTruncates<T>(built: Result<string, Error>, total: int, fetch: string -> Result<seq<T>, Error>)
    ensures var o := Search(built, total, fetch);
      var c := Collect(built, total, fetch, [], 0, NumPages(total));
      o.requested == c.requested &&
      (o.result.Success? <==> c.result.Success?) &&
      (o.result.Success? ==> o.result.value == c.result.value[..|o.result.value|]) &&
      (o.result.Success? && total >= 0 ==> |o.result.value| <= total) &&
      (total <= 0 ==> o == Outcome(Success([]), []))
  {
  }
}
