/** `GoogleSearchStrategy` (SearchEngineStrategy.py): the search URL, the
    href cleaner, the ad heuristics and `parse_results`, which scans the
    general result blocks, then the dedicated ad sections, then the promo
    sections, appending one entry per block that yields a title and a link. */
module GoogleStrategy {
  import opened Wrappers
  import opened Text
  import opened Dom
  import opened SearchTypes
  import opened UrlLib
  import opened StrategyCommon

  const Engine := "Google"
  const Host := "www.google.com"
  const Base := "https://www.google.com"

  function BuildSearchUrl(k: Keyword): (r: Result<string, Error>)
    ensures r.Success? <==> DecodeKeyword(k).Success?
    ensures r.Success? ==> StartsWith(r.value, "https://www.google.com/search?q=")
    ensures r.Success? ==> UnquotePlus(r.value[|"https://www.google.com/search?q="|..]) == DecodeKeyword(k).value
  {
    SearchUrl("https://www.google.com/search", "q", k)
  }

  /** The URL parses back to Google's search path with the keyword as the
      value of "q". */
  lemma BuildSearchUrlParses(k: Keyword)
    requires BuildSearchUrl(k).Success?
    ensures var p := UrlParse(BuildSearchUrl(k).value, "");
      p.netloc == Host && p.path == "/search"
      && QueryValue(p.query, "q") == (if DecodeKeyword(k).value == "" then None else Some(DecodeKeyword(k).value))
  {
    SiteFacts();
    SearchUrlRoundTrip(Host, "/search", "q", k);
  }

  lemma SiteFacts()
    ensures IsPlainHost(Host) && StartsWith("/search", "/") && NoneOf("/search", {'?', '#', ';', '\t', '\r', '\n'})
    ensures IsQueryName("q") && "https://" + Host + "/search" == "https://www.google.com/search"
  {
  }

  /** `google_ad_indicators`, matched against lowered markup. */
  const HtmlIndicators: seq<string> := [
    "adurl=", "adservingdata", "adurl?q=",
    "data-text-ad", "data-dtld=\"", "data-sokoban-container",
    "kAAxwc", "uEierd", "commercial-unit", "shopping-result",
    "sponsored-label", "DtQqvd"]

  /** The indicators of `HtmlIndicators` that are all lower case. */
  const LowerHtmlIndicators: seq<string> := [
    "adurl=", "adservingdata", "adurl?q=",
    "data-text-ad", "data-dtld=\"", "data-sokoban-container",
    "commercial-unit", "shopping-result", "sponsored-label"]

  /** `ad_indicators`, matched against the lowered URL. */
  const UrlIndicators: seq<string> := [
    "sponsored", "advertisement", "ad-", "ads.", "adclick",
    "/aclk", "/ads/", "doubleclick", "googleadservices", "shopping"]

  /** Nested `is_likely_ad(url, text, html)`. Its three mixed-case markup
      indicators are compared with lowered markup and never match, so the
      verdict is the one the lower-case indicators alone give. */
  function IsLikelyAd(url: Option<string>, text: Option<string>, html: Option<string>): (r: bool)
    ensures r == LikelyAd(UrlIndicators, LowerHtmlIndicators, url, text, html)
  {
    MixedCaseIgnored(html.GetOr(""));
    LikelyAd(UrlIndicators, HtmlIndicators, url, text, html)
  }

  lemma MixedCaseIgnored(h: string)
    ensures AnyIn(HtmlIndicators, Lower(h)) <==> AnyIn(LowerHtmlIndicators, Lower(h))
  {
    forall k | 0 <= k < |HtmlIndicators|
      ensures HtmlIndicators[k] in LowerHtmlIndicators || !Contains(Lower(h), HtmlIndicators[k])
    {
      if k == 6 || k == 7 {
        MixedCaseNeverMatches(HtmlIndicators, k, 1, h);
      } else if k == 11 {
        MixedCaseNeverMatches(HtmlIndicators, k, 0, h);
      } else {
        assert HtmlIndicators[k] == LowerHtmlIndicators[if k < 6 then k else k - 2];
      }
    }
    forall m | 0 <= m < |LowerHtmlIndicators| ensures LowerHtmlIndicators[m] in HtmlIndicators {
      assert LowerHtmlIndicators[m] == HtmlIndicators[if m < 6 then m else m + 2];
    }
    ScanWithout(HtmlIndicators, LowerHtmlIndicators, Lower(h));
  }

  /** Nested `_clean_href`: None for a missing or empty href, a rooted
      href joined onto the Google origin, and a "/url" redirect unwrapped
      to its "q" parameter. */
  function CleanHref(href: Option<string>): Option<string> {
    if !Truthy(href) then None
    else
      var h := JoinIfRooted(Base, href.value);
      if StartsWith(h, "/url") then Some(QueryValue(UrlParse(h, "").query, "q").GetOr(h))
      else Some(h)
  }

  /** The "/url" test runs after the join, so it never fires: a present
      href is only joined onto the Google origin, and the result is never
      rooted. */
  lemma CleanHrefNeverUnwraps(href: Option<string>)
    ensures CleanHref(href) == if Truthy(href) then Some(JoinIfRooted(Base, href.value)) else None
    ensures Truthy(href) ==> Truthy(CleanHref(href)) && !StartsWith(CleanHref(href).value, "/")
  {
    if Truthy(href) {
      assert Base == "https://" + Host;
      SiteFacts();
      JoinedNotRooted(Host, href.value);
      NotRootedNoPrefix(JoinIfRooted(Base, href.value), "/url");
    }
  }

  /** Cleaning a cleaned href changes nothing. */
  lemma CleanHrefIdempotent(href: Option<string>)
    ensures CleanHref(CleanHref(href)) == CleanHref(href)
  {
    CleanHrefNeverUnwraps(href);
    if Truthy(href) {
      var h := CleanHref(href).value;
      CleanHrefNeverUnwraps(Some(h));
    }
  }

  // ------------------------------------------------------- parse_results

  /** The ad sections, in the order they are gathered into `all_ads`. */
  const AdSelectors: seq<string> := [
    "div[aria-label=\"Ads\"] a.sVXRqc", ".commercial-unit-desktop-top", ".ads-fr", ".ads-ad",
    ".pla-unit", "a[data-jsarwt=\"1\"]", "[data-text-ad]", "#tads a", ".uEierd",
    "div[data-text-ad=\"1\"]", "div[jscontroller=\"U4Hp0d\"]", "#tadsb"]

  const MainSelector := "div.g, div.ULSxyf, div.MjjYud"

  const PromoSelectors: seq<string> := [
    ".xpdopen", ".kp-blk", ".VkpGBb", ".FLP8od", ".knowledge-panel", ".ifM9O", ".g-blk",
    ".related-question-pair", ".JolIg", ".ULSxyf"]

  /** A general result block is flagged as an ad when it is a shopping
      block (tested on the raw markup), when `is_likely_ad` says so, or
      when it holds a price tag. */
  predicate MainIsAd(item: Element, title: Option<string>, link: Option<string>) {
    || Contains(item.html, "uEierd") || Contains(item.html, "commercial-unit")
    || IsLikelyAd(link, title, Some(item.html))
    || Contains(item.html, "mKZH5e")
  }

  function MainLink(item: Element): Option<string> {
    match FindWithHref(item, "a")
    case Some(t) => CleanHref(t.href)
    case None => None
  }

  /** The entry a general result block yields: only a block with both a
      title and a link yields one. */
  function MainEntry(item: Element): (r: Option<Entry>)
    ensures r.Some? ==> Emitted(r.value, Engine, Base)
    ensures r.Some? <==> Truthy(TextOf(Find(item, "h3"))) && Truthy(MainLink(item))
  {
    var title := TextOf(Find(item, "h3"));
    var link := MainLink(item);
    var desc := TextOf(Find(item, "div.VwiC3b"));
    if Truthy(title) && Truthy(link) then
      Some(Entry(Engine, Base, title.value, link.value, desc.GetOr(""), MainIsAd(item, title, link)))
    else None
  }

  function MainStep(results: seq<Entry>, item: Element): Option<Entry> {
    MainEntry(item)
  }

  /** An anchor from a dedicated ad section. The "already processed" test
      looks for a `link_tag` attribute on the result dictionaries, which
      they never have, so no anchor is ever skipped. */
  function AdEntry(a: Element): (r: Option<Entry>)
    ensures r.Some? ==> Emitted(r.value, Engine, Base) && r.value.adPromo
  {
    var link := AdLink(a);
    var descTag := OrElse(Find(a, "parent div.VwiC3b"), Find(a, "parent next-sibling div.VwiC3b"));
    var desc := TextOf(descTag).GetOr("");
    if a.text != "" && Truthy(link) then Some(Entry(Engine, Base, a.text, link.value, desc, true))
    else None
  }

  function AdLink(a: Element): Option<string> {
    CleanHref(if "href" in a.attrs then Some(a.attrs["href"]) else None)
  }

  function AdStep(results: seq<Entry>, a: Element): Option<Entry> {
    AdEntry(a)
  }

  /** The title of a promo block: its heading, else the first 80
      characters of its spaced text, stripped. */
  function PromoTitle(item: Element): (r: string)
    ensures OrElse(Find(item, "h3"), Find(item, "h2")).None? ==> |r| <= 80
  {
    match OrElse(Find(item, "h3"), Find(item, "h2"))
    case Some(t) => t.text
    case None => Strip(Prefix(item.spacedText, 80))
  }

  /** A promo block yields an entry unless it is a general result block
      already scanned that has a heading and a link. */
  function PromoEntry(item: Element, scanned: seq<Element>): (r: Option<Entry>)
    ensures r.Some? ==> Emitted(r.value, Engine, Base) && r.value.adPromo
  {
    if Find(item, "h3").Some? && FindWithHref(item, "a").Some? && item in scanned then None
    else
      var link := MainLink(item);
      var title := PromoTitle(item);
      var desc := TextOf(Find(item, "div.VwiC3b"));
      if title != "" && Truthy(link) then Some(Entry(Engine, Base, title, link.value, desc.GetOr(""), true))
      else None
  }

  function PromoStep(scanned: seq<Element>): (seq<Entry>, Element) -> Option<Entry> {
    (results: seq<Entry>, item: Element) => PromoEntry(item, scanned)
  }

  function MainEntries(soup: Soup): seq<Entry> {
    Emit([], Select(soup, MainSelector), MainStep)
  }

  /** What `parse_results` returns: the general results, then the ad
      anchors, then the promos. */
  function Parse(soup: Soup): seq<Entry> {
    var ads := Emit(MainEntries(soup), Gather(soup, AdSelectors), AdStep);
    Emit(ads, Gather(soup, PromoSelectors), PromoStep(Select(soup, MainSelector)))
  }

  /** Every entry names Google and has a title and a link; the general
      results come first, and every entry after them is flagged ad_promo. */
  lemma ParseProperties(soup: Soup)
    ensures forall i :: 0 <= i < |Parse(soup)| ==> Emitted(Parse(soup)[i], Engine, Base)
    ensures Parse(soup)[..|MainEntries(soup)|] == MainEntries(soup)
    ensures forall i :: |MainEntries(soup)| <= i < |Parse(soup)| ==> Parse(soup)[i].adPromo
  {
    var main := MainEntries(soup);
    var ads := Emit(main, Gather(soup, AdSelectors), AdStep);
    var all := Parse(soup);
    var emitted := (e: Entry) => Emitted(e, Engine, Base);
    var flagged := (e: Entry) => Emitted(e, Engine, Base) && e.adPromo;
    EmitKeeps([], Select(soup, MainSelector), MainStep, emitted);
    EmitKeeps(main, Gather(soup, AdSelectors), AdStep, flagged);
    EmitKeeps(ads, Gather(soup, PromoSelectors), PromoStep(Select(soup, MainSelector)), flagged);
    assert all[..|ads|] == ads;
    forall i | 0 <= i < |all| ensures Emitted(all[i], Engine, Base) {
      if i < |main| { assert all[i] == ads[i] == main[i]; }
      else if i < |ads| { assert all[i] == ads[i]; }
    }
    forall i | |main| <= i < |all| ensures all[i].adPromo {
      if i < |ads| { assert all[i] == ads[i]; }
    }
    assert all[..|main|] == ads[..|main|];
  }

  /** A promo block without a heading is titled by at most 80 characters
      of its text. */
  lemma PromoFallbackTitleBounded(item: Element, scanned: seq<Element>)
    requires OrElse(Find(item, "h3"), Find(item, "h2")).None?
    requires PromoEntry(item, scanned).Some?
    ensures PromoEntry(item, scanned).value.title == Strip(Prefix(item.spacedText, 80))
    ensures |PromoEntry(item, scanned).value.title| <= 80
  {
  }

  /** One general result block: the shopping test on the raw markup,
      then `is_likely_ad`, then the price-tag test. */
  method VisitMain(item: Element) returns (entry: Option<Entry>)
    ensures entry == MainEntry(item)
  {
    entry := None;
    var isShopping := Contains(item.html, "uEierd") || Contains(item.html, "commercial-unit");
    var titleTag := Find(item, "h3");
    var linkTag := FindWithHref(item, "a");
    var descTag := Find(item, "div.VwiC3b");
    var title := if titleTag.Some? then Some(titleTag.value.text) else None;
    var link := if linkTag.Some? then CleanHref(linkTag.value.href) else None;
    var desc := if descTag.Some? then Some(descTag.value.text) else None;
    assert link == MainLink(item) && title == TextOf(Find(item, "h3"));
    if !Truthy(title) && !Truthy(link) {
      return;
    }
    var isAd := isShopping || IsLikelyAd(link, title, Some(item.html));
    if !isAd {
      if Contains(item.html, "mKZH5e") {
        isAd := true;
      }
    }
    if Truthy(title) && Truthy(link) {
      if desc.None? {
        desc := Some("");
      }
      entry := Some(Entry(Engine, Base, title.value, link.value, desc.value, isAd));
    }
  }

  /** The general-results loop of `parse_results`. */
  method ScanMain(scanned: seq<Element>) returns (results: seq<Entry>)
    ensures results == Emit([], scanned, MainStep)
  {
    results := [];
    for j := 0 to |scanned|
      invariant results == Emit([], scanned[..j], MainStep)
    {
      var entry := VisitMain(scanned[j]);
      EmitNext([], scanned, j, MainStep, entry);
      if entry.Some? {
        results := results + [entry.value];
      }
    }
    assert scanned[..|scanned|] == scanned;
  }

  /** One anchor of the dedicated ad sections. */
  method VisitAd(a: Element) returns (entry: Option<Entry>)
    ensures entry == AdEntry(a)
  {
    entry := None;
    var title := a.text;
    var link := CleanHref(if "href" in a.attrs then Some(a.attrs["href"]) else None);
    var descTag := Find(a, "parent div.VwiC3b");
    if descTag.None? {
      descTag := Find(a, "parent next-sibling div.VwiC3b");
    }
    var desc := if descTag.Some? then descTag.value.text else "";
    assert link == AdLink(a) && desc == TextOf(OrElse(Find(a, "parent div.VwiC3b"), Find(a, "parent next-sibling div.VwiC3b"))).GetOr("");
    if title != "" && Truthy(link) {
      entry := Some(Entry(Engine, Base, title, link.value, desc, true));
    }
  }

  /** The dedicated-ad loop of `parse_results`. */
  method ScanAds(main: seq<Entry>, allAds: seq<Element>) returns (results: seq<Entry>)
    ensures results == Emit(main, allAds, AdStep)
  {
    results := main;
    for j := 0 to |allAds|
      invariant results == Emit(main, allAds[..j], AdStep)
    {
      var entry := VisitAd(allAds[j]);
      EmitNext(main, allAds, j, AdStep, entry);
      if entry.Some? {
        results := results + [entry.value];
      }
    }
    assert allAds[..|allAds|] == allAds;
  }

  /** One promo block, skipped when it is a scanned general result with a
      heading and a link. */
  method VisitPromo(item: Element, scanned: seq<Element>) returns (entry: Option<Entry>)
    ensures entry == PromoEntry(item, scanned)
  {
    entry := None;
    if Find(item, "h3").Some? && FindWithHref(item, "a").Some? && item in scanned {
      return;
    }
    var titleTag := Find(item, "h3");
    if titleTag.None? {
      titleTag := Find(item, "h2");
    }
    var descTag := Find(item, "div.VwiC3b");
    var linkTag := FindWithHref(item, "a");
    var link := if linkTag.Some? then CleanHref(linkTag.value.href) else None;
    var title := if titleTag.Some? then titleTag.value.text else Strip(Prefix(item.spacedText, 80));
    var desc := if descTag.Some? then Some(descTag.value.text) else None;
    assert link == MainLink(item) && title == PromoTitle(item);
    if title != "" && Truthy(link) {
      entry := Some(Entry(Engine, Base, title, link.value, desc.GetOr(""), true));
    }
  }

  /** The promo loops of `parse_results`, over the matches of the promo
      selectors one after another. */
  method ScanPromos(withAds: seq<Entry>, promos: seq<Element>, scanned: seq<Element>) returns (results: seq<Entry>)
    ensures results == Emit(withAds, promos, PromoStep(scanned))
  {
    results := withAds;
    for j := 0 to |promos|
      invariant results == Emit(withAds, promos[..j], PromoStep(scanned))
    {
      var entry := VisitPromo(promos[j], scanned);
      EmitNext(withAds, promos, j, PromoStep(scanned), entry);
      if entry.Some? {
        results := results + [entry.value];
      }
    }
    assert promos[..|promos|] == promos;
  }

  /** `parse_results`: the general results, then the ad anchors gathered
      from every ad selector, then the promo blocks. */
  method ParseResults(soup: Soup) returns (results: seq<Entry>)
    ensures results == Parse(soup)
    ensures forall i :: 0 <= i < |results| ==> Emitted(results[i], Engine, Base)
  {
    var allAds := GatherAll(soup, AdSelectors);
    var scanned := Select(soup, MainSelector);
    results := ScanMain(scanned);
    results := ScanAds(results, allAds);
    var promos := GatherAll(soup, PromoSelectors);
    results := ScanPromos(results, promos, scanned);
    ParseProperties(soup);
  }
}
