/** `DuckDuckGoSearchStrategy` (SearchEngineStrategy.py): the search URL,
    the href cleaner, the ad heuristic and `parse_results`, which scans
    the result blocks, then the explicit ad blocks (where an anchor title
    without an href raises `KeyError`), then the promotion modules. */
module DuckDuckGoStrategy {
  import opened Wrappers
  import opened Text
  import opened Dom
  import opened SearchTypes
  import opened UrlLib
  import opened StrategyCommon

  const Engine := "DuckDuckGo"
  const Host := "duckduckgo.com"
  const Base := "https://duckduckgo.com"

  function BuildSearchUrl(k: Keyword): (r: Result<string, Error>)
    ensures r.Success? <==> DecodeKeyword(k).Success?
    ensures r.Success? ==> StartsWith(r.value, "https://duckduckgo.com/html/?q=")
    ensures r.Success? ==> UnquotePlus(r.value[|"https://duckduckgo.com/html/?q="|..]) == DecodeKeyword(k).value
  {
    SearchUrl("https://duckduckgo.com/html/", "q", k)
  }

  /** The URL parses back to the HTML endpoint with the keyword as the
      value of "q". */
  lemma BuildSearchUrlParses(k: Keyword)
    requires BuildSearchUrl(k).Success?
    ensures var p := UrlParse(BuildSearchUrl(k).value, "");
      p.netloc == Host && p.path == "/html/"
      && QueryValue(p.query, "q") == (if DecodeKeyword(k).value == "" then None else Some(DecodeKeyword(k).value))
  {
    SiteFacts();
    SearchUrlRoundTrip(Host, "/html/", "q", k);
  }

  lemma SiteFacts()
    ensures IsPlainHost(Host) && StartsWith("/html/", "/") && NoneOf("/html/", {'?', '#', ';', '\t', '\r', '\n'})
    ensures IsQueryName("q") && "https://" + Host + "/html/" == "https://duckduckgo.com/html/"
    ensures Base == "https://" + Host
  {
  }

  /** `ddg_ad_indicators`, matched against the lowered class string and
      the lowered markup; all of them are lower case. */
  const AdIndicators: seq<string> := [
    "result--ad", "result__sponsored", "is-ad",
    "sponsored", "js-ad-", "module--ads",
    "adserver", "aaxads", "module--shopping", "price"]

  /** `ad_indicators`, matched against the lowered URL. */
  const UrlIndicators: seq<string> := [
    "sponsored", "advertisement", "ad-", "ads.", "adclick",
    "/aclk", "/ads/", "doubleclick", "googleadservices",
    "syndication", "adsystem"]

  /** Nested `is_likely_ad(url, text, html)`. */
  function IsLikelyAd(url: Option<string>, text: Option<string>, html: Option<string>): (r: bool)
    ensures r <==>
      || (Truthy(url) && AnyIn(UrlIndicators, Lower(url.value)))
      || (Truthy(text) && AnyIn(TextAdIndicators, Lower(text.value)))
      || (Truthy(html) && AnyIn(AdIndicators, Lower(html.value)))
  {
    LikelyAd(UrlIndicators, AdIndicators, url, text, html)
  }

  /** The result blocks pass markup that is lowered already, and
      `is_likely_ad` lowers it again; lowering twice is lowering once. */
  lemma LoweredMarkupTest(html: string)
    ensures IsLikelyAd(None, None, Some(Lower(html))) <==> html != "" && AnyIn(AdIndicators, Lower(html))
  {
    LowerTwice(html);
  }

  /** Nested `_clean_href`: None for a missing or empty href, a rooted
      href joined onto the DuckDuckGo origin, and a "/l/?uddg=" redirect
      unwrapped to its decoded target. */
  function CleanHref(href: Option<string>): Option<string> {
    if !Truthy(href) then None
    else
      var h := JoinIfRooted(Base, href.value);
      if StartsWith(h, "/l/?uddg=") then
        UddgInside(h);
        var parts := Split(h, "uddg=");
        Some(Unquote(Split(parts[1], "&")[0]))
      else Some(h)
  }

  lemma UddgInside(h: string)
    requires StartsWith(h, "/l/?uddg=")
    ensures |Split(h, "uddg=")| > 1
  {
    assert h[4..][..5] == h[..9][4..];
    StartsWithAt(h, "uddg=", 4);
    SplitParts(h, "uddg=");
  }

  /** The "/l/?uddg=" test runs after the join, so it never fires: a
      present href is only joined onto the origin, and the result is never
      rooted. */
  lemma CleanHrefNeverUnwraps(href: Option<string>)
    ensures CleanHref(href) == if Truthy(href) then Some(JoinIfRooted(Base, href.value)) else None
    ensures Truthy(href) ==> Truthy(CleanHref(href)) && !StartsWith(CleanHref(href).value, "/")
  {
    if Truthy(href) {
      SiteFacts();
      JoinedNotRooted(Host, href.value);
      NotRootedNoPrefix(JoinIfRooted(Base, href.value), "/l/?uddg=");
    }
  }

  /** Cleaning a cleaned href changes nothing. */
  lemma CleanHrefIdempotent(href: Option<string>)
    ensures CleanHref(CleanHref(href)) == CleanHref(href)
  {
    CleanHrefNeverUnwraps(href);
    if Truthy(href) {
      CleanHrefNeverUnwraps(Some(CleanHref(href).value));
    }
  }

  // ------------------------------------------------------- parse_results

  const ResultSelector := ".result, .web-result"

  const AdSelectors: seq<string> := [
    "div[data-testid=\"ad\"]", ".js-ad-link", ".js-result-sponsored", ".badge--ad", ".sponsored", ".result--ad"]

  const PromoSelectors: seq<string> := [
    "div[data-testid=\"zci\"]", ".module--carousel", ".module--tiles", ".module-answer",
    ".module-products", ".module--products", ".module--shopping"]

  /** The link of a result block: its ".result__a" anchor's href, when the
      anchor has one. */
  function ResultLink(result: Element): Option<string> {
    match Find(result, ".result__a")
    case Some(t) => if t.href.Some? then CleanHref(t.href) else None
    case None => None
  }

  /** A result block is an ad when its classes or its markup hold an
      indicator, or else when its link or title looks like an ad. */
  predicate ResultIsAd(result: Element) {
    || AnyIn(AdIndicators, ClassString(result))
    || IsLikelyAd(None, None, Some(Lower(result.html)))
    || (Truthy(ResultLink(result)) && IsLikelyAd(ResultLink(result), TextOf(Find(result, ".result__a")), None))
  }

  /** The entry a result block yields: one with a title and a link. */
  function ResultEntry(result: Element): (r: Option<Entry>)
    ensures r.Some? <==> Truthy(TextOf(Find(result, ".result__a"))) && Truthy(ResultLink(result))
    ensures r.Some? ==> Emitted(r.value, Engine, Base) && (r.value.adPromo <==> ResultIsAd(result))
  {
    var title := TextOf(Find(result, ".result__a"));
    var link := ResultLink(result);
    var desc := TextOf(Find(result, ".result__snippet"));
    if Truthy(title) && Truthy(link) then
      Some(Entry(Engine, Base, title.value, link.value, desc.GetOr(""), ResultIsAd(result)))
    else None
  }

  function ResultStep(results: seq<Entry>, result: Element): Option<Entry> {
    ResultEntry(result)
  }

  /** The title tag of an explicit ad: the ad-title anchor, else the first
      heading, else the ".result__a" anchor. */
  function AdTitleTag(item: Element): Option<Tag> {
    OrElse(Find(item, "a[data-testid=\"ad-title\"]"),
           OrElse(OrElse(Find(item, "h2"), Find(item, "h3")), Find(item, "a.result__a")))
  }

  /** The link tag: the title tag itself when it is an anchor, else the
      first anchor with an href. */
  function AdLinkTag(item: Element): (r: Option<Tag>)
    ensures r.Some? && r.value.href.None? ==> r == AdTitleTag(item) && r.value.name == "a"
  {
    var t := AdTitleTag(item);
    if t.Some? && t.value.name == "a" then t else FindWithHref(item, "a")
  }

  /** `link_tag["href"]` raises `KeyError` on a title anchor without an
      href, and the error leaves `parse_results`. */
  predicate AnchorWithoutHref(item: Element) {
    AdLinkTag(item).Some? && AdLinkTag(item).value.href.None?
  }

  function AdEntry(item: Element): (r: Result<Option<Entry>, Error>)
    ensures r.Failure? <==> AnchorWithoutHref(item)
    ensures r.Failure? ==> r.error == KeyError("href")
    ensures r.Success? && r.value.Some? ==> Emitted(r.value.value, Engine, Base) && r.value.value.adPromo
  {
    var titleTag := AdTitleTag(item);
    var linkTag := AdLinkTag(item);
    if linkTag.Some? && linkTag.value.href.None? then Failure(KeyError("href"))
    else
      var link := if linkTag.Some? then CleanHref(linkTag.value.href) else None;
      var descTag := OrElse(Find(item, "div.ad__desc"), OrElse(Find(item, "div.result__snippet"), Find(item, "p")));
      var title := TextOf(titleTag);
      var desc := TextOf(descTag);
      if Truthy(title) && Truthy(link) then
        Success(Some(Entry(Engine, Base, title.value, link.value, if Truthy(desc) then desc.value else "", true)))
      else Success(None)
  }

  /** `item.find("h2") or item.find("h3") or item.find(".module__title")`:
      the last alternative asks for a tag named ".module__title", which
      no parsed page has, so only the headings count. */
  function PromoTitleTag(item: Element): (r: Option<Tag>)
    ensures r == OrElse(Find(item, "h2"), Find(item, "h3"))
  {
    OrElse(OrElse(Find(item, "h2"), Find(item, "h3")), FindNamed(item, ".module__title"))
  }

  /** The title made from a description: its first 60 characters, with
      "..." when it was longer. */
  function FallbackTitle(desc: string): (r: string)
    ensures |desc| <= 60 ==> r == desc
    ensures |desc| > 60 ==> r == desc[..60] + "..."
    ensures |r| <= 63 && (desc != "" ==> r != "")
  {
    Prefix(desc, 60) + (if |desc| > 60 then "..." else "")
  }

  function PromoLink(item: Element): Option<string> {
    match FindWithHref(item, "a")
    case Some(t) => CleanHref(t.href)
    case None => None
  }

  function PromoDesc(item: Element): Option<string> {
    TextOf(OrElse(Find(item, "div.zci__content"), Find(item, "div.module__content")))
  }

  /** A promotion module's title: its heading's text, or, when that is
      missing or empty and the module has a link and a description, the
      fallback title made from the description. */
  function PromoTitle(item: Element): Option<string> {
    var title := TextOf(PromoTitleTag(item));
    if !Truthy(title) && Truthy(PromoLink(item)) && Truthy(PromoDesc(item)) then Some(FallbackTitle(PromoDesc(item).value))
    else title
  }

  function PromoEntry(item: Element): (r: Option<Entry>)
    ensures r.Some? <==> Truthy(PromoTitle(item)) && Truthy(PromoLink(item))
    ensures r.Some? ==> Emitted(r.value, Engine, Base) && r.value.adPromo
  {
    var title := PromoTitle(item);
    var link := PromoLink(item);
    var desc := PromoDesc(item);
    if Truthy(title) && Truthy(link) then
      Some(Entry(Engine, Base, title.value, link.value, if Truthy(desc) then desc.value else "", true))
    else None
  }

  function PromoStep(results: seq<Entry>, item: Element): Option<Entry> {
    PromoEntry(item)
  }

  /** A promotion module without a usable heading is titled by at most 63
      characters taken from its description. */
  lemma PromoFallbackTitleBounded(item: Element)
    requires !Truthy(TextOf(OrElse(Find(item, "h2"), Find(item, "h3"))))
    requires PromoEntry(item).Some?
    ensures PromoEntry(item).value.title == FallbackTitle(PromoEntry(item).value.description)
    ensures |PromoEntry(item).value.title| <= 63
  {
  }

  function ResultEntries(soup: Soup): seq<Entry> {
    Emit([], Select(soup, ResultSelector), ResultStep)
  }

  /** What `parse_results` returns, or the `KeyError` of the first
      explicit ad whose title anchor has no href. */
  function Parse(soup: Soup): Result<seq<Entry>, Error> {
    match EmitChecked(ResultEntries(soup), Gather(soup, AdSelectors), AdEntry)
    case Failure(e) => Failure(e)
    case Success(ads) => Success(Emit(ads, Gather(soup, PromoSelectors), PromoStep))
  }

  /** The parse fails exactly when one of the explicit ads has a title
      anchor without an href, and then with `KeyError`. */
  lemma ParseFails(soup: Soup)
    ensures Parse(soup).Failure? <==>
      exists i :: 0 <= i < |Gather(soup, AdSelectors)| && AnchorWithoutHref(Gather(soup, AdSelectors)[i])
    ensures Parse(soup).Failure? ==> Parse(soup).error == KeyError("href")
  {
    var ads := Gather(soup, AdSelectors);
    var r := EmitChecked(ResultEntries(soup), ads, AdEntry);
    if r.Failure? {
      FailureIsKeyError(ResultEntries(soup), ads);
    }
  }

  lemma {:induction false} FailureIsKeyError(acc: seq<Entry>, items: seq<Element>)
    requires EmitChecked(acc, items, AdEntry).Failure?
    ensures EmitChecked(acc, items, AdEntry).error == KeyError("href")
    decreases |items|
  {
    if items != [] && EmitChecked(acc, items[..|items| - 1], AdEntry).Failure? {
      FailureIsKeyError(acc, items[..|items| - 1]);
    }
  }

  /** Every entry names DuckDuckGo and has a title and a link; the result
      blocks come first, and every entry after them is flagged ad_promo. */
  lemma ParseProperties(soup: Soup)
    requires Parse(soup).Success?
    ensures forall i :: 0 <= i < |Parse(soup).value| ==> Emitted(Parse(soup).value[i], Engine, Base)
    ensures Parse(soup).value[..|ResultEntries(soup)|] == ResultEntries(soup)
    ensures forall i :: |ResultEntries(soup)| <= i < |Parse(soup).value| ==> Parse(soup).value[i].adPromo
  {
    var main := ResultEntries(soup);
    var ads := EmitChecked(main, Gather(soup, AdSelectors), AdEntry).value;
    var all := Parse(soup).value;
    var flagged := (e: Entry) => Emitted(e, Engine, Base) && e.adPromo;
    EmitKeeps([], Select(soup, ResultSelector), ResultStep, (e: Entry) => Emitted(e, Engine, Base));
    EmitCheckedKeeps(main, Gather(soup, AdSelectors), AdEntry, flagged);
    EmitKeeps(ads, Gather(soup, PromoSelectors), PromoStep, flagged);
    assert all[..|ads|] == ads;
    forall i | 0 <= i < |all| ensures Emitted(all[i], Engine, Base) {
      if i < |main| { assert all[i] == ads[i] == main[i]; }
      else if i < |ads| { assert all[i] == ads[i]; }
    }
    forall i | |main| <= i < |all| ensures all[i].adPromo {
      if i < |ads| { assert all[i] == ads[i]; }
    }
    assert all[..|main|] == ads[..|main|];
  }

  /** One result block: the class test, the markup test, then the URL
      test once there is a link. */
  method VisitResult(result: Element) returns (entry: Option<Entry>)
    ensures entry == ResultEntry(result)
  {
    var titleLink := Find(result, ".result__a");
    var descElem := Find(result, ".result__snippet");
    var classStr := Lower(Join(result.classes, " "));
    var isAd := ScanLoop(AdIndicators, classStr);
    if !isAd {
      var resultHtml := Lower(result.html);
      isAd := IsLikelyAd(None, None, Some(resultHtml));
    }
    var title := if titleLink.Some? then Some(titleLink.value.text) else None;
    var link := if titleLink.Some? && titleLink.value.href.Some? then CleanHref(titleLink.value.href) else None;
    var desc := if descElem.Some? then Some(descElem.value.text) else None;
    assert link == ResultLink(result);
    if !isAd && Truthy(link) {
      isAd := IsLikelyAd(link, title, None);
    }
    entry := None;
    if Truthy(title) && Truthy(link) {
      if desc.None? {
        desc := Some("");
      }
      entry := Some(Entry(Engine, Base, title.value, link.value, desc.value, isAd));
    }
  }

  method ScanResults(results0: seq<Element>) returns (results: seq<Entry>)
    ensures results == Emit([], results0, ResultStep)
  {
    results := [];
    for j := 0 to |results0|
      invariant results == Emit([], results0[..j], ResultStep)
    {
      var entry := VisitResult(results0[j]);
      EmitNext([], results0, j, ResultStep, entry);
      if entry.Some? {
        results := results + [entry.value];
      }
    }
    assert results0[..|results0|] == results0;
  }

  /** One explicit ad block; `link_tag["href"]` may raise. */
  method VisitAd(item: Element) returns (entry: Result<Option<Entry>, Error>)
    ensures entry == AdEntry(item)
  {
    var titleTag := Find(item, "a[data-testid=\"ad-title\"]");
    if titleTag.None? {
      titleTag := OrElse(OrElse(Find(item, "h2"), Find(item, "h3")), Find(item, "a.result__a"));
    }
    var linkTag := if titleTag.Some? && titleTag.value.name == "a" then titleTag else FindWithHref(item, "a");
    var descTag := Find(item, "div.ad__desc");
    if descTag.None? {
      descTag := OrElse(Find(item, "div.result__snippet"), Find(item, "p"));
    }
    var title := if titleTag.Some? then Some(titleTag.value.text) else None;
    if linkTag.Some? && linkTag.value.href.None? {
      return Failure(KeyError("href"));
    }
    var link := if linkTag.Some? then CleanHref(linkTag.value.href) else None;
    var desc := if descTag.Some? then Some(descTag.value.text) else None;
    entry := Success(None);
    if Truthy(title) && Truthy(link) {
      if !Truthy(desc) {
        desc := Some("");
      }
      entry := Success(Some(Entry(Engine, Base, title.value, link.value, desc.value, true)));
    }
  }

  method ScanAds(main: seq<Entry>, ads: seq<Element>) returns (results: Result<seq<Entry>, Error>)
    ensures results == EmitChecked(main, ads, AdEntry)
  {
    var acc := main;
    for j := 0 to |ads|
      invariant EmitChecked(main, ads[..j], AdEntry) == Success(acc)
    {
      var entry := VisitAd(ads[j]);
      EmitCheckedNext(main, ads, j, AdEntry, entry);
      if entry.Failure? {
        FailureStays(main, ads, j + 1);
        return Failure(entry.error);
      }
      if entry.value.Some? {
        acc := acc + [entry.value.value];
      }
    }
    assert ads[..|ads|] == ads;
    results := Success(acc);
  }

  /** Once a prefix of the items fails, the whole fold fails the same way. */
  lemma {:induction false} FailureStays(acc: seq<Entry>, items: seq<Element>, n: nat)
    requires n <= |items| && EmitChecked(acc, items[..n], AdEntry).Failure?
    ensures EmitChecked(acc, items, AdEntry) == EmitChecked(acc, items[..n], AdEntry)
    decreases |items| - n
  {
    if n < |items| {
      assert items[..n + 1][..n] == items[..n];
      FailureStays(acc, items, n + 1);
    } else {
      assert items[..n] == items;
    }
  }

  /** One promotion module. */
  method VisitPromo(item: Element) returns (entry: Option<Entry>)
    ensures entry == PromoEntry(item)
  {
    var titleTag := OrElse(OrElse(Find(item, "h2"), Find(item, "h3")), FindNamed(item, ".module__title"));
    var linkTag := FindWithHref(item, "a");
    var descTag := OrElse(Find(item, "div.zci__content"), Find(item, "div.module__content"));
    var title := if titleTag.Some? then Some(titleTag.value.text) else None;
    var link := if linkTag.Some? then CleanHref(linkTag.value.href) else None;
    var desc := if descTag.Some? then Some(descTag.value.text) else None;
    assert link == PromoLink(item) && desc == PromoDesc(item);
    if !Truthy(title) && Truthy(link) && Truthy(desc) {
      title := Some(Prefix(desc.value, 60) + (if |desc.value| > 60 then "..." else ""));
    }
    entry := None;
    if Truthy(title) && Truthy(link) {
      if !Truthy(desc) {
        desc := Some("");
      }
      entry := Some(Entry(Engine, Base, title.value, link.value, desc.value, true));
    }
  }

  method ScanPromos(withAds: seq<Entry>, promos: seq<Element>) returns (results: seq<Entry>)
    ensures results == Emit(withAds, promos, PromoStep)
  {
    results := withAds;
    for j := 0 to |promos|
      invariant results == Emit(withAds, promos[..j], PromoStep)
    {
      var entry := VisitPromo(promos[j]);
      EmitNext(withAds, promos, j, PromoStep, entry);
      if entry.Some? {
        results := results + [entry.value];
      }
    }
    assert promos[..|promos|] == promos;
  }

  /** `parse_results`: the result blocks, then the explicit ads, then the
      promotion modules. */
  method ParseResults(soup: Soup) returns (r: Result<seq<Entry>, Error>)
    ensures r == Parse(soup)
  {
    var main := ScanResults(Select(soup, ResultSelector));
    var ads := GatherAll(soup, AdSelectors);
    var withAds := ScanAds(main, ads);
    if withAds.Failure? {
      return Failure(withAds.error);
    }
    var promos := GatherAll(soup, PromoSelectors);
    var all := ScanPromos(withAds.value, promos);
    r := Success(all);
  }
}
