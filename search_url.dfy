/** `SearchUrls.get_search_results`: the pagination controller that
    fetches page after page of one engine's results, drops repeated ads,
    and stops on the target count, on a page that adds nothing, or at the
    hard guard of 250 results. */
module SearchUrl {
  import opened Wrappers
  import opened Text
  import opened SearchTypes
  import opened StrategyCommon
  import GoogleStrategy
  import BingStrategy
  import DuckDuckGoStrategy
  import YahooStrategy

  /** The loop guard: no new cycle starts once this many results are held. */
  const Guard := 250

  /** The class of the strategy a controller was built with; `Other`
      stands for any further subclass of the strategy base. */
  datatype Kind = Google | Bing | DuckDuckGo | Yahoo | Other

  /** The strategy object: its class, which decides the page parameter,
      and its `build_search_url`. */
  datatype Strategy = Strategy(kind: Kind, build: Keyword -> Result<string, Error>)

  /** The four strategies of the scraper. */
  function EngineStrategy(kind: Kind): (s: Strategy)
    requires kind != Other
    ensures s.kind == kind
  {
    match kind
    case Google => Strategy(Google, GoogleStrategy.BuildSearchUrl)
    case Bing => Strategy(Bing, BingStrategy.BuildSearchUrl)
    case DuckDuckGo => Strategy(DuckDuckGo, DuckDuckGoStrategy.BuildSearchUrl)
    case Yahoo => Strategy(Yahoo, YahooStrategy.BuildSearchUrl)
  }

  /** The page URL for the offset `start_page`, by the strategy's class. */
  function PageUrl(s: Strategy, url: string, off: nat): string {
    match s.kind
    case Google => url + "&start=" + NatToString(off)
    case Bing => url + "&first=" + NatToString(off + 1)
    case DuckDuckGo => if off == 0 then url else url + "&s=" + NatToString(off * 3)
    case Yahoo => url + "&first=" + NatToString(off + 1)
    case Other => url
  }

  /** The offset read back off a page URL of one of the four engines. */
  function PageOffset(s: Strategy, url: string, page: string): int {
    match s.kind
    case Google => if |page| < |url| + 7 then 0 else DigitsValue(page[|url| + 7..])
    case Bing => if |page| < |url| + 7 then 0 else DigitsValue(page[|url| + 7..]) - 1
    case DuckDuckGo => if |page| < |url| + 3 then 0 else DigitsValue(page[|url| + 3..]) / 3
    case Yahoo => if |page| < |url| + 7 then 0 else DigitsValue(page[|url| + 7..]) - 1
    case Other => 0
  }

  /** Each of the four engines' page URLs names its offset. */
  lemma PageUrlRoundTrip(s: Strategy, url: string, off: nat)
    requires s.kind != Other
    ensures PageOffset(s, url, PageUrl(s, url, off)) == off
  {
    var p := PageUrl(s, url, off);
    match s.kind
    case Google =>
      DigitsRoundTrip(off);
      assert p[|url| + 7..] == NatToString(off);
    case Bing =>
      DigitsRoundTrip(off + 1);
      assert p[|url| + 7..] == NatToString(off + 1);
    case Yahoo =>
      DigitsRoundTrip(off + 1);
      assert p[|url| + 7..] == NatToString(off + 1);
    case DuckDuckGo =>
      if off != 0 {
        DigitsRoundTrip(off * 3);
        assert p[|url| + 3..] == NatToString(off * 3);
      }
  }

  /** Hence two offsets never request the same page of those engines;
      any other strategy requests the same URL on every cycle. */
  lemma PageUrlsDistinct(s: Strategy, url: string, a: nat, b: nat)
    ensures s.kind != Other && a != b ==> PageUrl(s, url, a) != PageUrl(s, url, b)
    ensures s.kind == Other ==> PageUrl(s, url, a) == url
  {
    if s.kind != Other {
      PageUrlRoundTrip(s, url, a);
      PageUrlRoundTrip(s, url, b);
    }
  }

  // ------------------------------------------------- the dedup rule

  /** An entry is skipped only when it is an ad or promo whose link is
      empty or was already seen. */
  predicate Skipped(e: Entry, seen: set<string>) {
    (e.link == "" || e.link in seen) && e.adPromo
  }

  /** The links of a result list. */
  function Links(rs: seq<Entry>): set<string> {
    set i | 0 <= i < |rs| :: rs[i].link
  }

  /** The inner loop over one page: results and seen links after it. */
  function Dedup(results: seq<Entry>, seen: set<string>, page: seq<Entry>): (r: (seq<Entry>, set<string>))
    ensures |results| <= |r.0| <= |results| + |page| && r.0[..|results|] == results
    decreases |page|
  {
    if page == [] then (results, seen)
    else if Skipped(page[0], seen) then Dedup(results, seen, page[1..])
    else
      var next := Dedup(results + [page[0]], seen + {page[0].link}, page[1..]);
      assert next.0[..|results|] == (results + [page[0]])[..|results|];
      next
  }

  lemma LinksAppend(rs: seq<Entry>, e: Entry)
    ensures Links(rs + [e]) == Links(rs) + {e.link}
  {
    var rs' := rs + [e];
    assert rs'[|rs|] == e;
    forall l | l in Links(rs) ensures l in Links(rs') {
      var i :| 0 <= i < |rs| && rs[i].link == l;
      assert rs'[i] == rs[i];
    }
  }

  /** Every appended entry's link is added to the seen links. */
  lemma {:induction false} DedupLinks(results: seq<Entry>, seen: set<string>, page: seq<Entry>)
    requires seen == Links(results)
    ensures Dedup(results, seen, page).1 == Links(Dedup(results, seen, page).0)
    decreases |page|
  {
    if page != [] {
      if Skipped(page[0], seen) {
        DedupLinks(results, seen, page[1..]);
      } else {
        LinksAppend(results, page[0]);
        DedupLinks(results + [page[0]], seen + {page[0].link}, page[1..]);
      }
    }
  }

  /** Every ad or promo entry has a non-empty link that no earlier entry
      has. */
  predicate AdsFresh(rs: seq<Entry>) {
    forall i :: 0 <= i < |rs| && rs[i].adPromo ==>
      rs[i].link != "" && forall j :: 0 <= j < i ==> rs[j].link != rs[i].link
  }

  lemma AdsFreshAppend(rs: seq<Entry>, e: Entry)
    requires AdsFresh(rs) && !Skipped(e, Links(rs))
    ensures AdsFresh(rs + [e])
  {
    var rs' := rs + [e];
    forall i | 0 <= i < |rs'| && rs'[i].adPromo
      ensures rs'[i].link != "" && forall j :: 0 <= j < i ==> rs'[j].link != rs'[i].link
    {
      if i == |rs| {
        forall j | 0 <= j < i ensures rs'[j].link != rs'[i].link {
          assert rs'[j].link == rs[j].link && rs[j].link in Links(rs);
        }
      } else {
        assert rs'[i] == rs[i];
        forall j | 0 <= j < i ensures rs'[j].link != rs'[i].link {
          assert rs'[j] == rs[j];
        }
      }
    }
  }

  lemma {:induction false} DedupAdsFresh(results: seq<Entry>, seen: set<string>, page: seq<Entry>)
    requires seen == Links(results) && AdsFresh(results)
    ensures AdsFresh(Dedup(results, seen, page).0)
    decreases |page|
  {
    if page != [] {
      if Skipped(page[0], seen) {
        DedupAdsFresh(results, seen, page[1..]);
      } else {
        LinksAppend(results, page[0]);
        AdsFreshAppend(results, page[0]);
        DedupAdsFresh(results + [page[0]], seen + {page[0].link}, page[1..]);
      }
    }
  }

  /** The organic entries of a list, in order, repeats included. */
  function Organic(rs: seq<Entry>): (r: seq<Entry>)
    ensures |r| <= |rs| && forall i :: 0 <= i < |r| ==> !r[i].adPromo
  {
    if rs == [] then []
    else (if rs[0].adPromo then [] else [rs[0]]) + Organic(rs[1..])
  }

  lemma {:induction false} OrganicAppend(a: seq<Entry>, b: seq<Entry>)
    ensures Organic(a + b) == Organic(a) + Organic(b)
    decreases |a|
  {
    if a != [] {
      var h := if a[0].adPromo then [] else [a[0]];
      assert a + b != [] && (a + b)[0] == a[0] && (a + b)[1..] == a[1..] + b;
      assert Organic(a + b) == h + Organic(a[1..] + b);
      OrganicAppend(a[1..], b);
      assert Organic(a) == h + Organic(a[1..]);
    } else {
      assert a + b == b;
    }
  }

  /** No organic entry is ever dropped, repeated links included: the
      organic entries after a page are those before it followed by the
      page's own. */
  lemma {:induction false} DedupKeepsOrganic(results: seq<Entry>, seen: set<string>, page: seq<Entry>)
    ensures Organic(Dedup(results, seen, page).0) == Organic(results) + Organic(page)
    decreases |page|
  {
    if page != [] {
      var e := page[0];
      assert page == [e] + page[1..];
      OrganicAppend([e], page[1..]);
      if Skipped(e, seen) {
        DedupKeepsOrganic(results, seen, page[1..]);
      } else {
        DedupKeepsOrganic(results + [e], seen + {e.link}, page[1..]);
        OrganicAppend(results, [e]);
      }
    }
  }

  /** A page of organic entries only is kept whole. */
  lemma {:induction false} DedupAllOrganic(results: seq<Entry>, seen: set<string>, page: seq<Entry>)
    requires forall i :: 0 <= i < |page| ==> !page[i].adPromo
    ensures Dedup(results, seen, page).0 == results + page
    decreases |page|
  {
    if page != [] {
      DedupAllOrganic(results + [page[0]], seen + {page[0].link}, page[1..]);
      assert results + [page[0]] + page[1..] == results + page;
    }
  }

  /** A page adds nothing exactly when every entry on it is skipped. */
  lemma {:induction false} DedupNothing(results: seq<Entry>, seen: set<string>, page: seq<Entry>)
    ensures |Dedup(results, seen, page).0| == |results| <==> forall i :: 0 <= i < |page| ==> Skipped(page[i], seen)
    ensures |Dedup(results, seen, page).0| == |results| ==> Dedup(results, seen, page) == (results, seen)
    decreases |page|
  {
    if page != [] {
      DedupNothing(results, seen, page[1..]);
      if !Skipped(page[0], seen) {
        assert |Dedup(results + [page[0]], seen + {page[0].link}, page[1..]).0| > |results|;
      } else {
        assert forall i :: 1 <= i < |page| ==> page[i] == page[1..][i - 1];
      }
    }
  }

  /** The inner loop. */
  method KeepNew(results: seq<Entry>, seen: set<string>, page: seq<Entry>) returns (rs: seq<Entry>, sn: set<string>)
    ensures (rs, sn) == Dedup(results, seen, page)
  {
    rs, sn := results, seen;
    for j := 0 to |page|
      invariant Dedup(results, seen, page) == Dedup(rs, sn, page[j..])
    {
      var e := page[j];
      assert page[j..][1..] == page[j + 1..];
      if (e.link == "" || e.link in sn) && e.adPromo {
        continue;
      }
      sn := sn + {e.link};
      rs := rs + [e];
    }
    assert page[|page|..] == [];
  }

  // ------------------------------------------------------- the cycles

  /** What the controller returns, or the exception it lets through, and
      the URLs it requested, in order. */
  datatype Outcome = Outcome(result: Result<seq<Entry>, Error>, requested: seq<string>)

  /** The cycles from a state of the loop: the results so far, the seen
      links and the page offset. `built` is what `build_search_url` gives
      for the keyword, the same on every cycle; `fetch` is requesting a URL
      and parsing the answer with the strategy. */
  function Cycles(s: Strategy, built: Result<string, Error>, total: int, fetch: string -> Result<seq<Entry>, Error>,
                  results: seq<Entry>, seen: set<string>, off: nat): Outcome
    decreases Guard - |results|
  {
    if |results| >= Guard then Outcome(Success(results), [])
    else match built
      case Failure(e) => Outcome(Failure(e), [])
      case Success(u) =>
        var url := PageUrl(s, u, off);
        match fetch(url)
        case Failure(e) => Outcome(Failure(e), [url])
        case Success(page) =>
          var next := Dedup(results, seen, page);
          if |next.0| >= total || |next.0| == |results| then Outcome(Success(next.0), [url])
          else
            var o := Cycles(s, built, total, fetch, next.0, next.1, off + 10);
            Outcome(o.result, [url] + o.requested)
  }

  /** `get_search_results(keyword, total_results)`. */
  function Run(s: Strategy, k: Keyword, total: int, fetch: string -> Result<seq<Entry>, Error>): Outcome {
    Cycles(s, s.build(k), total, fetch, [], {}, 0)
  }

  /** An outcome with earlier requests put in front. */
  function After(requested: seq<string>, o: Outcome): Outcome {
    Outcome(o.result, requested + o.requested)
  }

  /** A cycle that neither fails nor stops leaves the rest to the cycles
      from the next page. */
  lemma CyclesContinue(s: Strategy, built: Result<string, Error>, total: int, fetch: string -> Result<seq<Entry>, Error>,
                       results: seq<Entry>, seen: set<string>, off: nat, page: seq<Entry>)
    requires |results| < Guard && built.Success? && fetch(PageUrl(s, built.value, off)) == Success(page)
    requires !(|Dedup(results, seen, page).0| >= total || |Dedup(results, seen, page).0| == |results|)
    ensures Cycles(s, built, total, fetch, results, seen, off) ==
      After([PageUrl(s, built.value, off)], Cycles(s, built, total, fetch, Dedup(results, seen, page).0, Dedup(results, seen, page).1, off + 10))
  {
  }

  lemma AfterAfter(a: seq<string>, b: seq<string>, o: Outcome)
    ensures After(a, After(b, o)) == After(a + b, o)
  {
    assert a + (b + o.requested) == a + b + o.requested;
  }

  /** The loop of `get_search_results`. */
  method GetSearchResults(s: Strategy, k: Keyword, total: int, fetch: string -> Result<seq<Entry>, Error>)
    returns (out: Result<seq<Entry>, Error>, requested: seq<string>)
    ensures Outcome(out, requested) == Run(s, k, total, fetch)
  {
    var results: seq<Entry> := [];
    var seen: set<string> := {};
    var startPage: nat := 0;
    var startingSize := 0;
    requested := [];
    while |results| < Guard
      invariant startingSize == |results|
      invariant Run(s, k, total, fetch) == After(requested, Cycles(s, s.build(k), total, fetch, results, seen, startPage))
      decreases Guard - |results|
    {
      ghost var here := Cycles(s, s.build(k), total, fetch, results, seen, startPage);
      ghost var before, here0, seen0 := requested, results, seen;
      var built := s.build(k);
      if built.Failure? {
        assert here == Outcome(Failure(built.error), []);
        return Failure(built.error), requested;
      }
      var url := PageUrl(s, built.value, startPage);
      requested := requested + [url];
      var page := fetch(url);
      if page.Failure? {
        assert here == Outcome(Failure(page.error), [url]);
        return Failure(page.error), requested;
      }
      results, seen := KeepNew(results, seen, page.value);
      if |results| >= total || startingSize == |results| {
        assert here == Outcome(Success(results), [url]);
        return Success(results), requested;
      }
      CyclesContinue(s, built, total, fetch, here0, seen0, startPage, page.value);
      startPage := startPage + 10;
      startingSize := |results|;
      AfterAfter(before, [url], Cycles(s, s.build(k), total, fetch, results, seen, startPage));
    }
    assert requested + [] == requested;
    out := Success(results);
  }

  // ------------------------------------------------------- properties

  /** The URLs requested: page offsets 0, 10, 20, ... of the built URL,
      one per cycle, and none when the URL cannot be built. */
  lemma {:induction false} CyclesRequest(s: Strategy, built: Result<string, Error>, total: int, fetch: string -> Result<seq<Entry>, Error>,
                                         results: seq<Entry>, seen: set<string>, off: nat)
    ensures var o := Cycles(s, built, total, fetch, results, seen, off);
      (built.Failure? ==>
        o.requested == [] && (o.result.Failure? <==> |results| < Guard)) &&
      (built.Success? ==>
        (|results| < Guard <==> o.requested != []) &&
        forall i :: 0 <= i < |o.requested| ==> o.requested[i] == PageUrl(s, built.value, off + 10 * i))
    decreases Guard - |results|
  {
    if |results| < Guard && built.Success? {
      var u := built.value;
      var url := PageUrl(s, u, off);
      if fetch(url).Success? {
        var next := Dedup(results, seen, fetch(url).value);
        if !(|next.0| >= total || |next.0| == |results|) {
          CyclesRequest(s, built, total, fetch, next.0, next.1, off + 10);
          var o := Cycles(s, built, total, fetch, next.0, next.1, off + 10);
          assert Cycles(s, built, total, fetch, results, seen, off) == After([url], o);
          RequestsShifted(s, u, off, o.requested);
        }
      }
    }
  }

  lemma RequestsShifted(s: Strategy, u: string, off: nat, rq: seq<string>)
    requires forall i :: 0 <= i < |rq| ==> rq[i] == PageUrl(s, u, off + 10 + 10 * i)
    ensures forall i :: 0 <= i < 1 + |rq| ==> ([PageUrl(s, u, off)] + rq)[i] == PageUrl(s, u, off + 10 * i)
  {
    forall i | 1 <= i < 1 + |rq|
      ensures ([PageUrl(s, u, off)] + rq)[i] == PageUrl(s, u, off + 10 * i)
    {
      assert ([PageUrl(s, u, off)] + rq)[i] == rq[i - 1];
      assert off + 10 + 10 * (i - 1) == off + 10 * i;
    }
  }

  /** Pagination from the start: the first page has offset 0 and each
      following cycle adds 10. */
  lemma RunRequests(s: Strategy, k: Keyword, total: int, fetch: string -> Result<seq<Entry>, Error>)
    ensures var o := Run(s, k, total, fetch);
      (s.build(k).Failure? <==> o.requested == []) &&
      (o.requested == [] ==> o.result == Failure(s.build(k).error)) &&
      forall i :: 0 <= i < |o.requested| ==> o.requested[i] == PageUrl(s, s.build(k).value, 10 * i)
  {
    CyclesRequest(s, s.build(k), total, fetch, [], {}, 0);
  }

  /** Every ad or promo entry returned has a non-empty link that differs
      from the link of every earlier entry, and what was held before is
      kept as a prefix. */
  lemma {:induction false} CyclesAdsFresh(s: Strategy, built: Result<string, Error>, total: int, fetch: string -> Result<seq<Entry>, Error>,
                                          results: seq<Entry>, seen: set<string>, off: nat)
    requires seen == Links(results) && AdsFresh(results)
    ensures var o := Cycles(s, built, total, fetch, results, seen, off);
      o.result.Success? ==> AdsFresh(o.result.value) && |results| <= |o.result.value| && o.result.value[..|results|] == results
    decreases Guard - |results|
  {
    if |results| < Guard && built.Success? {
      var url := PageUrl(s, built.value, off);
      if fetch(url).Success? {
        var page := fetch(url).value;
        var next := Dedup(results, seen, page);
        DedupLinks(results, seen, page);
        DedupAdsFresh(results, seen, page);
        if !(|next.0| >= total || |next.0| == |results|) {
          CyclesAdsFresh(s, built, total, fetch, next.0, next.1, off + 10);
          var r := Cycles(s, built, total, fetch, next.0, next.1, off + 10).result;
          if r.Success? {
            assert r.value[..|results|] == r.value[..|next.0|][..|results|];
          }
        }
      }
    }
  }

  lemma RunAdsFresh(s: Strategy, k: Keyword, total: int, fetch: string -> Result<seq<Entry>, Error>)
    ensures Run(s, k, total, fetch).result.Success? ==> AdsFresh(Run(s, k, total, fetch).result.value)
  {
    CyclesAdsFresh(s, s.build(k), total, fetch, [], {}, 0);
  }

  /** The last page fetched left the results as they were: every entry on
      it was a repeated or link-less ad. */
  predicate Stalled(page: Result<seq<Entry>, Error>, rs: seq<Entry>) {
    page.Success? && forall i :: 0 <= i < |page.value| ==> Skipped(page.value[i], Links(rs))
  }

  /** The stop rules: a returned list has reached the target, or the guard,
      or came from a last page that added nothing. */
  lemma {:induction false} CyclesStop(s: Strategy, built: Result<string, Error>, total: int, fetch: string -> Result<seq<Entry>, Error>,
                                      results: seq<Entry>, seen: set<string>, off: nat)
    requires seen == Links(results)
    ensures var o := Cycles(s, built, total, fetch, results, seen, off);
      o.result.Success? ==>
        |o.result.value| >= total || |o.result.value| >= Guard ||
        (o.requested != [] && Stalled(fetch(o.requested[|o.requested| - 1]), o.result.value))
    decreases Guard - |results|
  {
    if |results| < Guard && built.Success? {
      var url := PageUrl(s, built.value, off);
      if fetch(url).Success? {
        var page := fetch(url).value;
        var next := Dedup(results, seen, page);
        DedupLinks(results, seen, page);
        DedupNothing(results, seen, page);
        if !(|next.0| >= total || |next.0| == |results|) {
          CyclesStop(s, built, total, fetch, next.0, next.1, off + 10);
          var o := Cycles(s, built, total, fetch, next.0, next.1, off + 10);
          if o.requested != [] {
            assert ([url] + o.requested)[|o.requested|] == o.requested[|o.requested| - 1];
          }
        }
      }
    }
  }

  lemma RunStop(s: Strategy, k: Keyword, total: int, fetch: string -> Result<seq<Entry>, Error>)
    ensures var o := Run(s, k, total, fetch);
      o.result.Success? ==>
        |o.result.value| >= total || |o.result.value| >= Guard ||
        (o.requested != [] && Stalled(fetch(o.requested[|o.requested| - 1]), o.result.value))
  {
    CyclesStop(s, s.build(k), total, fetch, [], {}, 0);
  }

  /** The result is not cut to the target: a first page of organic
      entries at least as long as the target is returned whole, repeated
      links included. */
  lemma FirstPageKeptWhole(s: Strategy, k: Keyword, total: int, fetch: string -> Result<seq<Entry>, Error>, u: string, page: seq<Entry>)
    requires s.build(k) == Success(u) && fetch(PageUrl(s, u, 0)) == Success(page)
    requires forall i :: 0 <= i < |page| ==> !page[i].adPromo
    requires total <= |page|
    ensures Run(s, k, total, fetch) == Outcome(Success(page), [PageUrl(s, u, 0)])
  {
    DedupAllOrganic([], {}, page);
  }
}
