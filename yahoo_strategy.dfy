/** `YahooSearchStrategy` (SearchEngineStrategy.py): the search URL, the
    href cleaner that unwraps r.search.yahoo.com redirects, the ad
    heuristic and `parse_results`, which scans every result item, then
    the ad blocks, then the promotion blocks, the last two skipping an
    item whose text is already the title of an entry. */
module YahooStrategy {
  import opened Wrappers
  import opened Text
  import opened Dom
  import opened SearchTypes
  import opened UrlLib
  import opened StrategyCommon

  const Engine := "Yahoo"
  const Host := "search.yahoo.com"
  const Base := "https://search.yahoo.com"

  function BuildSearchUrl(k: Keyword): (r: Result<string, Error>)
    ensures r.Success? <==> DecodeKeyword(k).Success?
    ensures r.Success? ==> StartsWith(r.value, "https://search.yahoo.com/search?p=")
    ensures r.Success? ==> UnquotePlus(r.value[|"https://search.yahoo.com/search?p="|..]) == DecodeKeyword(k).value
  {
    SearchUrl("https://search.yahoo.com/search", "p", k)
  }

  /** The URL parses back to /search with the keyword as the value of "p". */
  lemma BuildSearchUrlParses(k: Keyword)
    requires BuildSearchUrl(k).Success?
    ensures var u := UrlParse(BuildSearchUrl(k).value, "");
      u.netloc == Host && u.path == "/search"
      && QueryValue(u.query, "p") == (if DecodeKeyword(k).value == "" then None else Some(DecodeKeyword(k).value))
  {
    SiteFacts();
    UrlFacts();
    SearchUrlRoundTrip(Host, "/search", "p", k);
  }

  lemma SiteFacts()
    ensures IsPlainHost(Host) && StartsWith("/search", "/") && NoneOf("/search", {'?', '#', ';', '\t', '\r', '\n'})
    ensures IsQueryName("p")
  {
  }

  lemma UrlFacts()
    ensures "https://" + Host + "/search" == "https://search.yahoo.com/search"
  {
    assert "https://" + Host == Base;
  }

  /** `yahoo_ad_indicators`, matched against lowered markup. */
  const HtmlIndicators: seq<string> := [
    "ad_badge", "ad-", "adlink", "ad-focus", "adserver",
    "class=\"ad\"", "class=\"Ad\"", "shopping-result", "beacon",
    "compShoppingSummary", "AdChoices", "label=\"Ad\"", "sponsored_"]

  /** The indicators of `HtmlIndicators` that are all lower case. */
  const LowerHtmlIndicators: seq<string> := [
    "ad_badge", "ad-", "adlink", "ad-focus", "adserver",
    "class=\"ad\"", "shopping-result", "beacon", "sponsored_"]

  /** `ad_indicators`, matched against the lowered URL. */
  const UrlIndicators: seq<string> := [
    "sponsored", "advertisement", "ad-", "ads.", "adclick",
    "/aclk", "/ads/", "doubleclick", "googleadservices",
    "shopping", "yahoo.com/commerce", "price-section"]

  /** Nested `is_likely_ad(url, text, html)`. Its four mixed-case markup
      indicators are compared with lowered markup and never match. */
  function IsLikelyAd(url: Option<string>, text: Option<string>, html: Option<string>): (r: bool)
    ensures r == LikelyAd(UrlIndicators, LowerHtmlIndicators, url, text, html)
  {
    MixedCaseIgnored(html.GetOr(""));
    LikelyAd(UrlIndicators, HtmlIndicators, url, text, html)
  }

  lemma MixedCaseIgnored(h: string)
    ensures AnyIn(HtmlIndicators, Lower(h)) <==> AnyIn(LowerHtmlIndicators, Lower(h))
  {
    forall k | 0 <= k < |HtmlIndicators|
      ensures HtmlIndicators[k] in LowerHtmlIndicators || !Contains(Lower(h), HtmlIndicators[k])
    {
      if k == 6 || k == 11 {
        MixedCaseNeverMatches(HtmlIndicators, k, 7, h);
      } else if k == 9 {
        MixedCaseNeverMatches(HtmlIndicators, k, 4, h);
      } else if k == 10 {
        MixedCaseNeverMatches(HtmlIndicators, k, 0, h);
      } else {
        assert HtmlIndicators[k] == LowerHtmlIndicators[if k < 6 then k else if k < 9 then k - 1 else 8];
      }
    }
    forall m | 0 <= m < |LowerHtmlIndicators| ensures LowerHtmlIndicators[m] in HtmlIndicators {
      assert LowerHtmlIndicators[m] == HtmlIndicators[if m < 6 then m else if m < 8 then m + 1 else 12];
    }
    ScanWithout(HtmlIndicators, LowerHtmlIndicators, Lower(h));
  }

  /** Nested `_clean_href`: None for a missing or empty href, a rooted
      href joined onto the Yahoo origin, and a link through
      r.search.yahoo.com unwrapped to the decoded segment after its first
      "/RU=". */
  function CleanHref(href: Option<string>): (r: Option<string>)
    ensures r.None? <==> !Truthy(href)
  {
    if !Truthy(href) then None
    else
      var h := JoinIfRooted(Base, href.value);
      if Contains(h, "r.search.yahoo.com") then
        var parts := Split(h, "/RU=");
        if |parts| > 1 then Some(Unquote(Split(parts[1], "/")[0])) else Some(h)
      else Some(h)
  }

  /** A redirect link `a + "/RU=" + b + c`, where `a` names
      r.search.yahoo.com and holds no "/RU=", `b` holds no "/" and `c` is
      empty or starts a new path segment, is replaced by `b` decoded. */
  lemma RedirectUnwraps(a: string, b: string, c: string)
    requires StartsWith(a, "https://") && Contains(a, "r.search.yahoo.com") && !Contains(a, "/RU=")
    requires forall i :: 0 <= i < |b| ==> b[i] != '/'
    requires c == "" || c[0] == '/'
    ensures CleanHref(Some(a + "/RU=" + b + c)) == Some(Unquote(b))
  {
    var x := b + c;
    var h := a + "/RU=" + x;
    assert a + "/RU=" + b + c == h;
    RedirectSplit(a, x);
    RedirectTarget(b, c);
    CleanRedirect(h);
  }

  /** The part after the first "/RU=" of `a + "/RU=" + x`. */
  lemma RedirectSplit(a: string, x: string)
    requires StartsWith(a, "https://") && Contains(a, "r.search.yahoo.com") && !Contains(a, "/RU=")
    ensures var h := a + "/RU=" + x;
      StartsWith(h, "https://") && Contains(h, "r.search.yahoo.com")
      && |Split(h, "/RU=")| > 1 && Split(h, "/RU=")[1] == Split(x, "/RU=")[0]
  {
    var h := a + "/RU=" + x;
    assert h[..8] == a[..8];
    ContainsExtended(a, "r.search.yahoo.com", "/RU=" + x);
    assert a + ("/RU=" + x) == h;
    FirstAfter(a, "/RU=", x);
    SplitAfter(a, "/RU=", x);
  }

  lemma CleanRedirect(h: string)
    requires StartsWith(h, "https://") && Contains(h, "r.search.yahoo.com") && |Split(h, "/RU=")| > 1
    ensures CleanHref(Some(h)) == Some(Unquote(Split(Split(h, "/RU=")[1], "/")[0]))
  {
    AbsoluteNotJoined(Base, h);
  }

  lemma RedirectTarget(b: string, c: string)
    requires forall i :: 0 <= i < |b| ==> b[i] != '/'
    requires c == "" || c[0] == '/'
    ensures Split(Split(b + c, "/RU=")[0], "/")[0] == b
  {
    var t := Split(b + c, "/RU=")[0];
    SplitHeadKeeps(b, c, "/RU=");
    if |t| == |b| {
      assert t == b;
      SegmentWhole(b);
    } else {
      assert t[|b|] == c[0];
      var rest := t[|b| + 1..];
      assert t == b + "/" + rest;
      SegmentCut(b, rest);
    }
  }

  lemma SegmentWhole(b: string)
    requires forall i :: 0 <= i < |b| ==> b[i] != '/'
    ensures Split(b, "/")[0] == b
  {
    AbsentChar(b, '/');
  }

  lemma SegmentCut(b: string, rest: string)
    requires forall i :: 0 <= i < |b| ==> b[i] != '/'
    ensures Split(b + "/" + rest, "/")[0] == b
  {
    AbsentChar(b, '/');
    FirstAfter(b, "/", rest);
    SplitAfter(b, "/", rest);
  }

  /** Any other absolute link is kept as it is. */
  lemma OtherLinkKept(h: string)
    requires StartsWith(h, "https://") && !Contains(h, "r.search.yahoo.com")
    ensures CleanHref(Some(h)) == Some(h)
  {
    AbsoluteNotJoined(Base, h);
  }

  // ------------------------------------------------------- parse_results

  const ItemSelector := "#web li, #web .algo, #right .algo, div[data-beacon], .dd.algo, #main li, #right li"

  const AdSelectors: seq<string> := [
    "#web .ad", "#web [data-beacon*=\"ad\"]", ".AdBttm", ".AdTop", ".Ad-Composite",
    ".sw-Card-Bd[data-integration=\"commerce\"]"]

  const PromoSelectors: seq<string> := [
    "#web .compArticleList", "#web .compText", "#right .compText", ".compFeatured",
    ".compShoppingSummary", ".compDlink", ".compCardList", ".sw-Card"]

  /** The query for a paragraph with a class holding "s-desc",
      "fc-dustygray" or "compText". */
  const DescQuery := "p[class*=s-desc|fc-dustygray|compText]"

  /** A `data-beacon` attribute holding "Ad" or "ad". */
  predicate BeaconAd(item: Element) {
    Contains(Get(item, "data-beacon", ""), "Ad") || Contains(Get(item, "data-beacon", ""), "ad")
  }

  /** The markers set before the link is looked at: "ad" anywhere in the
      lowered class string (so a class such as "lead" counts too), an ad
      beacon, or a markup indicator. */
  predicate MarkedAd(item: Element) {
    || Contains(ClassString(item), "ad")
    || BeaconAd(item)
    || AnyIn(HtmlIndicators, Lower(item.html))
  }

  predicate IsPromo(item: Element) {
    Contains(ClassString(item), "comp")
  }

  function ItemTitle(item: Element): Option<string> {
    TextOf(Find(item, "h3"))
  }

  function ItemLink(item: Element): Option<string> {
    match FindWithHref(item, "a")
    case Some(t) => CleanHref(t.href)
    case None => None
  }

  /** The classed paragraph, else any paragraph, else the paragraph of the
      "compText" block. The last branch is dead in the source: a `p` inside
      the item's compText block is a `p` inside the item, so it is reached
      only when `item.find("p")` found nothing and then finds nothing
      either. The page model does not tie `Find(item, "div.compText p")` to
      `Find(item, "p")`, so the branch is kept as written. */
  function DescTag(item: Element): Option<Tag> {
    var d := OrElse(Find(item, DescQuery), Find(item, "p"));
    if d.None? && Find(item, "div.compText").Some? then Find(item, "div.compText p") else d
  }

  /** The verdict of the item loop, in the order the code reaches it. */
  predicate ItemIsAd(item: Element) {
    || MarkedAd(item)
    || (Truthy(ItemLink(item)) && IsLikelyAd(ItemLink(item), ItemTitle(item), Some(Lower(item.html))))
    || Contains(Lower(item.html), "compShoppingSummary")
    || Contains(Lower(item.html), "price-section")
  }

  /** What the verdict comes to: the mixed-case indicators and the
      "compShoppingSummary" test never match the lowered markup, and the
      markup test inside `is_likely_ad` repeats one already made. */
  lemma ItemVerdict(item: Element)
    ensures ItemIsAd(item) <==>
      || Contains(ClassString(item), "ad")
      || BeaconAd(item)
      || AnyIn(LowerHtmlIndicators, Lower(item.html))
      || (Truthy(ItemLink(item)) && (AnyIn(UrlIndicators, Lower(ItemLink(item).value))
           || (Truthy(ItemTitle(item)) && AnyIn(TextAdIndicators, Lower(ItemTitle(item).value)))))
      || Contains(Lower(item.html), "price-section")
  {
    MixedCaseIgnored(item.html);
    LowerTwice(item.html);
    LoweredLacksUpper(item.html, "compShoppingSummary", 4);
  }

  /** The entry an item yields: one with a title and a link, flagged
      ad_promo when the item is an ad or a "comp" block. */
  function ItemEntry(item: Element): (r: Option<Entry>)
    ensures r.Some? <==> Truthy(ItemTitle(item)) && Truthy(ItemLink(item))
    ensures r.Some? ==> Emitted(r.value, Engine, Base) && (r.value.adPromo <==> ItemIsAd(item) || IsPromo(item))
  {
    var title := ItemTitle(item);
    var link := ItemLink(item);
    var desc := TextOf(DescTag(item));
    if Truthy(title) && Truthy(link) then
      Some(Entry(Engine, Base, title.value, link.value, desc.GetOr(""), ItemIsAd(item) || IsPromo(item)))
    else None
  }

  function ItemStep(results: seq<Entry>, item: Element): Option<Entry> {
    ItemEntry(item)
  }

  /** `any(r.get("title") == item.get_text(strip=True)[:50] for r in
      results)`: the item's text, cut to 50 characters, is already an
      entry's title. */
  predicate TitleSeen(results: seq<Entry>, item: Element) {
    exists i :: 0 <= i < |results| && results[i].title == Prefix(item.text, 50)
  }

  /** An ad block not skipped yields an ad entry when titled and linked. */
  function AdEntry(results: seq<Entry>, item: Element): (r: Option<Entry>)
    ensures r.Some? <==> !TitleSeen(results, item) && Truthy(ItemTitle(item)) && Truthy(ItemLink(item))
    ensures r.Some? ==> Emitted(r.value, Engine, Base) && r.value.adPromo
  {
    if TitleSeen(results, item) then None
    else
      var title := ItemTitle(item);
      var link := ItemLink(item);
      var desc := TextOf(Find(item, "p"));
      if Truthy(title) && Truthy(link) then Some(Entry(Engine, Base, title.value, link.value, desc.GetOr(""), true))
      else None
  }

  /** The heading's (h3, else h4) text, or the link anchor's text when
      the heading is missing or empty. */
  function PromoTitle(item: Element): (r: Option<string>)
    ensures Truthy(TextOf(OrElse(Find(item, "h3"), Find(item, "h4")))) ==> r == TextOf(OrElse(Find(item, "h3"), Find(item, "h4")))
  {
    var title := TextOf(OrElse(Find(item, "h3"), Find(item, "h4")));
    var a := FindWithHref(item, "a");
    if !Truthy(title) && a.Some? then Some(a.value.text) else title
  }

  function PromoEntry(results: seq<Entry>, item: Element): (r: Option<Entry>)
    ensures r.Some? <==> !TitleSeen(results, item) && Truthy(PromoTitle(item)) && Truthy(ItemLink(item))
    ensures r.Some? ==> Emitted(r.value, Engine, Base) && r.value.adPromo
  {
    if TitleSeen(results, item) then None
    else
      var title := PromoTitle(item);
      var link := ItemLink(item);
      var desc := TextOf(Find(item, "p"));
      if Truthy(title) && Truthy(link) then Some(Entry(Engine, Base, title.value, link.value, desc.GetOr(""), true))
      else None
  }

  function MainEntries(soup: Soup): seq<Entry> {
    Emit([], Select(soup, ItemSelector), ItemStep)
  }

  function WithAds(soup: Soup): seq<Entry> {
    Emit(MainEntries(soup), Gather(soup, AdSelectors), AdEntry)
  }

  /** What `parse_results` returns. */
  function Parse(soup: Soup): seq<Entry> {
    Emit(WithAds(soup), Gather(soup, PromoSelectors), PromoEntry)
  }

  /** Every entry names Yahoo and has a title and a link; the item loop's
      entries come first, and every entry after them is flagged ad_promo. */
  lemma ParseProperties(soup: Soup)
    ensures forall i :: 0 <= i < |Parse(soup)| ==> Emitted(Parse(soup)[i], Engine, Base)
    ensures Parse(soup)[..|MainEntries(soup)|] == MainEntries(soup)
    ensures forall i :: |MainEntries(soup)| <= i < |Parse(soup)| ==> Parse(soup)[i].adPromo
  {
    var main := MainEntries(soup);
    var ads := WithAds(soup);
    var all := Parse(soup);
    var flagged := (e: Entry) => Emitted(e, Engine, Base) && e.adPromo;
    EmitKeeps([], Select(soup, ItemSelector), ItemStep, (e: Entry) => Emitted(e, Engine, Base));
    EmitKeeps(main, Gather(soup, AdSelectors), AdEntry, flagged);
    EmitKeeps(ads, Gather(soup, PromoSelectors), PromoEntry, flagged);
    assert all[..|ads|] == ads;
    forall i | 0 <= i < |all| ensures Emitted(all[i], Engine, Base) {
      if i < |main| { assert all[i] == ads[i] == main[i]; }
      else if i < |ads| { assert all[i] == ads[i]; }
    }
    forall i | |main| <= i < |all| ensures all[i].adPromo {
      if i < |ads| { assert all[i] == ads[i]; }
    }
    assert all[..|main|] == ads[..|main|];
  }

  /** The skip recognises a block met again only when its whole text, at
      most 50 characters long, is its title: then the second visit adds
      nothing. */
  lemma ShortBlockAddedOnce(results: seq<Entry>, item: Element)
    requires AdEntry(results, item).Some?
    requires |item.text| <= 50 && ItemTitle(item) == Some(item.text)
    ensures AdEntry(results + [AdEntry(results, item).value], item).None?
    ensures PromoEntry(results + [AdEntry(results, item).value], item).None?
  {
    var more := results + [AdEntry(results, item).value];
    assert more[|results|].title == Prefix(item.text, 50);
  }

  /** A block whose text, cut to 50 characters, is not its title is not
      recognised: met again (it matches two ad selectors, say), it is
      added again. */
  lemma LongerBlockAddedAgain(results: seq<Entry>, item: Element)
    requires AdEntry(results, item).Some?
    requires Prefix(item.text, 50) != ItemTitle(item).value
    ensures AdEntry(results + [AdEntry(results, item).value], item) == AdEntry(results, item)
  {
    var e := AdEntry(results, item).value;
    var more := results + [e];
    assert forall i :: 0 <= i < |results| ==> more[i] == results[i];
    assert !TitleSeen(more, item);
  }

  /** The first half of the item loop body: the flags set from the item's
      classes, beacon and markup. */
  method MarkItem(item: Element) returns (isAd: bool, isPromo: bool)
    ensures isAd == MarkedAd(item) && isPromo == IsPromo(item)
  {
    var classStr := if item.classes != [] then Lower(Join(item.classes, " ")) else "";
    isAd := Contains(classStr, "ad");
    isPromo := Contains(classStr, "comp");
    var dataBeacon := Get(item, "data-beacon", "");
    if Contains(dataBeacon, "Ad") || Contains(dataBeacon, "ad") {
      isAd := true;
    }
    var itemHtml := Lower(item.html);
    if !isAd {
      isAd := ScanLoop(HtmlIndicators, itemHtml);
    }
  }

  /** The second half: the title, link and description read off the item. */
  method ReadItem(item: Element) returns (title: Option<string>, link: Option<string>, desc: Option<string>)
    ensures title == ItemTitle(item) && link == ItemLink(item) && desc == TextOf(DescTag(item))
  {
    var titleTag := Find(item, "h3");
    var linkTag := FindWithHref(item, "a");
    var descTag := Find(item, DescQuery);
    if descTag.None? {
      descTag := Find(item, "p");
    }
    if descTag.None? {
      var compText := Find(item, "div.compText");
      if compText.Some? {
        descTag := Find(item, "div.compText p");
      }
    }
    title := if titleTag.Some? then Some(titleTag.value.text) else None;
    link := if linkTag.Some? then CleanHref(linkTag.value.href) else None;
    desc := if descTag.Some? then Some(descTag.value.text) else None;
  }

  /** The loop body for one item: mark it, read it, then the link test and
      the shopping and price tests. */
  method VisitItem(item: Element) returns (entry: Option<Entry>)
    ensures entry == ItemEntry(item)
  {
    var isAd, isPromo := MarkItem(item);
    var itemHtml := Lower(item.html);
    var title, link, desc := ReadItem(item);
    if Truthy(link) && !isAd {
      isAd := IsLikelyAd(link, title, Some(itemHtml));
    }
    assert isAd == (MarkedAd(item) || (Truthy(ItemLink(item)) && IsLikelyAd(ItemLink(item), ItemTitle(item), Some(Lower(item.html)))));
    if !isAd && Contains(itemHtml, "compShoppingSummary") {
      isAd := true;
    }
    if !isAd && Contains(itemHtml, "price-section") {
      isAd := true;
    }
    assert isAd == ItemIsAd(item);
    entry := None;
    if Truthy(title) && Truthy(link) {
      if desc.None? {
        desc := Some("");
      }
      entry := Some(Entry(Engine, Base, title.value, link.value, desc.value, isAd || isPromo));
    }
  }

  method ScanItems(items: seq<Element>) returns (results: seq<Entry>)
    ensures results == Emit([], items, ItemStep)
  {
    results := [];
    for j := 0 to |items|
      invariant results == Emit([], items[..j], ItemStep)
    {
      var entry := VisitItem(items[j]);
      EmitNext([], items, j, ItemStep, entry);
      if entry.Some? {
        results := results + [entry.value];
      }
    }
    assert items[..|items|] == items;
  }

  /** One ad block, skipped when its text prefix is a title already. */
  method VisitAd(results: seq<Entry>, item: Element) returns (entry: Option<Entry>)
    ensures entry == AdEntry(results, item)
  {
    entry := None;
    if TitleSeen(results, item) {
      return;
    }
    var titleTag := Find(item, "h3");
    var linkTag := FindWithHref(item, "a");
    var descTag := Find(item, "p");
    var title := if titleTag.Some? then Some(titleTag.value.text) else None;
    var link := if linkTag.Some? then CleanHref(linkTag.value.href) else None;
    var desc := if descTag.Some? then Some(descTag.value.text) else None;
    if Truthy(title) && Truthy(link) {
      entry := Some(Entry(Engine, Base, title.value, link.value, if Truthy(desc) then desc.value else "", true));
    }
  }

  method ScanAds(main: seq<Entry>, ads: seq<Element>) returns (results: seq<Entry>)
    ensures results == Emit(main, ads, AdEntry)
  {
    results := main;
    for j := 0 to |ads|
      invariant results == Emit(main, ads[..j], AdEntry)
    {
      var entry := VisitAd(results, ads[j]);
      EmitNext(main, ads, j, AdEntry, entry);
      if entry.Some? {
        results := results + [entry.value];
      }
    }
    assert ads[..|ads|] == ads;
  }

  /** One promotion block, skipped like an ad block; without a heading it
      is titled by its link's text. */
  method VisitPromo(results: seq<Entry>, item: Element) returns (entry: Option<Entry>)
    ensures entry == PromoEntry(results, item)
  {
    entry := None;
    if TitleSeen(results, item) {
      return;
    }
    var titleTag := OrElse(Find(item, "h3"), Find(item, "h4"));
    var linkTag := FindWithHref(item, "a");
    var descTag := Find(item, "p");
    var title := if titleTag.Some? then Some(titleTag.value.text) else None;
    if !Truthy(title) && linkTag.Some? {
      title := Some(linkTag.value.text);
    }
    var link := if linkTag.Some? then CleanHref(linkTag.value.href) else None;
    var desc := if descTag.Some? then Some(descTag.value.text) else None;
    if Truthy(title) && Truthy(link) {
      entry := Some(Entry(Engine, Base, title.value, link.value, if Truthy(desc) then desc.value else "", true));
    }
  }

  method ScanPromos(withAds: seq<Entry>, promos: seq<Element>) returns (results: seq<Entry>)
    ensures results == Emit(withAds, promos, PromoEntry)
  {
    results := withAds;
    for j := 0 to |promos|
      invariant results == Emit(withAds, promos[..j], PromoEntry)
    {
      var entry := VisitPromo(results, promos[j]);
      EmitNext(withAds, promos, j, PromoEntry, entry);
      if entry.Some? {
        results := results + [entry.value];
      }
    }
    assert promos[..|promos|] == promos;
  }

  /** `parse_results`: the items, then the ad blocks, then the promotion
      blocks. */
  method ParseResults(soup: Soup) returns (results: seq<Entry>)
    ensures results == Parse(soup)
  {
    var main := ScanItems(Select(soup, ItemSelector));
    var ads := GatherAll(soup, AdSelectors);
    var withAds := ScanAds(main, ads);
    var promos := GatherAll(soup, PromoSelectors);
    results := ScanPromos(withAds, promos);
  }
}
