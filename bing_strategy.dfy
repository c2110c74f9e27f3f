/** `BingSearchStrategy` (SearchEngineStrategy.py): the search URL, the
    `/aclick` de-tracker, the URL-and-text ad heuristic, and
    `parse_results`, which classifies every list item of the result and
    sidebar columns and keeps the titled, linked ones. */
module BingStrategy {
  import opened Wrappers
  import opened Text
  import opened Dom
  import opened SearchTypes
  import opened UrlLib
  import opened StrategyCommon

  const Engine := "Bing"
  const Host := "www.bing.com"
  const Base := "https://www.bing.com"

  function BuildSearchUrl(k: Keyword): (r: Result<string, Error>)
    ensures r.Success? <==> DecodeKeyword(k).Success?
    ensures r.Success? ==> StartsWith(r.value, "https://www.bing.com/search?q=")
    ensures r.Success? ==> UnquotePlus(r.value[|"https://www.bing.com/search?q="|..]) == DecodeKeyword(k).value
  {
    SearchUrl("https://www.bing.com/search", "q", k)
  }

  /** The URL parses back to Bing's search path with the keyword as the
      value of "q". */
  lemma BuildSearchUrlParses(k: Keyword)
    requires BuildSearchUrl(k).Success?
    ensures var p := UrlParse(BuildSearchUrl(k).value, "");
      p.netloc == Host && p.path == "/search"
      && QueryValue(p.query, "q") == (if DecodeKeyword(k).value == "" then None else Some(DecodeKeyword(k).value))
  {
    SiteFacts();
    SearchUrlRoundTrip(Host, "/search", "q", k);
  }

  lemma SiteFacts()
    ensures IsPlainHost(Host) && StartsWith("/search", "/") && NoneOf("/search", {'?', '#', ';', '\t', '\r', '\n'})
    ensures IsQueryName("q") && "https://" + Host + "/search" == "https://www.bing.com/search"
    ensures IsPlainHost(Host) && NoneOf("/aclick", {'?', '#', ';', '\t', '\r', '\n'}) && Base == "https://" + Host
  {
  }

  /** `bing_ad_indicators`, matched against the lowered class string and
      the lowered markup. */
  const AdIndicators: seq<string> := [
    "b_ad", "ad_sc", "b_adBottom", "ad_", "ads_",
    "adredir.", "adticket=", "bat.bing", "acb.msn",
    "sponsored", "advertisement", "shopping"]

  /** The indicators of `AdIndicators` that are all lower case. */
  const LowerAdIndicators: seq<string> := [
    "b_ad", "ad_sc", "ad_", "ads_",
    "adredir.", "adticket=", "bat.bing", "acb.msn",
    "sponsored", "advertisement", "shopping"]

  /** `ad_indicators`, matched against the lowered URL. */
  const UrlIndicators: seq<string> := [
    "sponsored", "advertisement", "ad-", "ads.", "adclick",
    "/aclk", "/ads/", "doubleclick", "msn.com/ads", "bing.com/aclick",
    "bat.bing.com", "microsoft.com/advertising", "promoted", "shopnow"]

  /** Nested `is_likely_ad(url, text)`: unlike the other engines it gives
      up at once when there is no URL, whatever the text says. */
  function IsLikelyAd(url: Option<string>, text: Option<string>): (r: bool)
    ensures r <==> Truthy(url) && (AnyIn(UrlIndicators, Lower(url.value))
                                   || (Truthy(text) && AnyIn(TextAdIndicators, Lower(text.value))))
  {
    if !Truthy(url) then false
    else LikelyAd(UrlIndicators, [], url, text, None)
  }

  /** "b_adBottom" holds an upper-case letter, and both scans that use the
      list look at lowered text, so it never decides anything. */
  lemma MixedCaseIgnored(s: string)
    ensures AnyIn(AdIndicators, Lower(s)) <==> AnyIn(LowerAdIndicators, Lower(s))
  {
    forall k | 0 <= k < |AdIndicators|
      ensures AdIndicators[k] in LowerAdIndicators || !Contains(Lower(s), AdIndicators[k])
    {
      if k == 2 {
        MixedCaseNeverMatches(AdIndicators, k, 4, s);
      } else {
        assert AdIndicators[k] == LowerAdIndicators[if k < 2 then k else k - 1];
      }
    }
    forall m | 0 <= m < |LowerAdIndicators| ensures LowerAdIndicators[m] in AdIndicators {
      assert LowerAdIndicators[m] == AdIndicators[if m < 2 then m else m + 1];
    }
    ScanWithout(AdIndicators, LowerAdIndicators, Lower(s));
  }

  /** The `/aclick` redirect: the decoded "u" parameter, else the decoded
      "r" parameter, of a link to www.bing.com/aclick; None for any other
      link. `parse_qs` has already percent-decoded the value once, and
      `unquote` decodes it again. */
  function Unwrap(h: string): Option<string> {
    var p := UrlParse(h, "");
    if p.netloc == "www.bing.com" && p.path == "/aclick" then
      match QueryValue(p.query, "u")
      case Some(v) => Some(Unquote(v))
      case None =>
        match QueryValue(p.query, "r")
        case Some(v) => Some(Unquote(v))
        case None => None
    else None
  }

  /** Nested `_clean_href`: None for a missing or empty href, otherwise the
      href (joined onto the Bing origin when rooted) with an `/aclick`
      redirect unwrapped. */
  function CleanHref(href: Option<string>): (r: Option<string>)
    ensures r.None? <==> !Truthy(href)
  {
    if !Truthy(href) then None
    else
      var h := JoinIfRooted(Base, href.value);
      Some(Unwrap(h).GetOr(h))
  }

  /** An absolute `/aclick` link whose query is the single field `key=v`,
      with `key` being "u" or "r", is replaced by `v` decoded twice. */
  lemma AclickUnwraps(key: string, v: string)
    requires key == "u" || key == "r"
    requires v != "" && NoneOf(v, {'&', '#', '\t', '\r', '\n'})
    ensures CleanHref(Some("https://www.bing.com/aclick?" + (key + "=" + v))) == Some(Unquote(UnquotePlus(v)))
  {
    NoneOfConcat(key + "=", v, {'#', '\t', '\r', '\n'});
    SingleFieldQuery(key, v);
    CleanAclick(key + "=" + v, key, UnquotePlus(v));
  }

  lemma CleanAclick(query: string, key: string, value: string)
    requires key == "u" || key == "r"
    requires NoneOf(query, {'#', '\t', '\r', '\n'}) && ParseQsl(query) == [(key, value)]
    ensures CleanHref(Some("https://www.bing.com/aclick?" + query)) == Some(Unquote(value))
  {
    UnwrapAclick(query, key, value);
    CleanedVia(query, Unquote(value));
  }

  lemma CleanedVia(query: string, v: string)
    requires Unwrap("https://www.bing.com/aclick?" + query) == Some(v)
    ensures CleanHref(Some("https://www.bing.com/aclick?" + query)) == Some(v)
  {
    AclickIsHttps();
    StartsWithConcat("https://www.bing.com/aclick?", query, "https://");
    AbsoluteCleaned("https://www.bing.com/aclick?" + query);
  }

  lemma AclickIsHttps()
    ensures StartsWith("https://www.bing.com/aclick?", "https://")
  {
    assert "https://www.bing.com/aclick?"[..8] == "https://";
  }

  lemma UnwrapAclick(query: string, key: string, value: string)
    requires key == "u" || key == "r"
    requires NoneOf(query, {'#', '\t', '\r', '\n'}) && ParseQsl(query) == [(key, value)]
    ensures Unwrap("https://www.bing.com/aclick?" + query) == Some(Unquote(value))
  {
    AclickParse(query);
  }

  lemma AclickParse(query: string)
    requires NoneOf(query, {'#', '\t', '\r', '\n'})
    ensures UrlParse("https://www.bing.com/aclick?" + query, "") == ParseResult("https", Host, "/aclick", "", query, "")
  {
    SiteFacts();
    HttpsFacts(Host);
    assert "https://www.bing.com/aclick?" + query == "https" + "://" + Host + "/aclick" + "?" + query;
    AbsoluteParse("https", Host, "/aclick", query, "");
  }

  /** A link to another host is kept as it is. */
  lemma OtherHostKept(host: string, path: string, query: string)
    requires IsPlainHost(host) && host != Host
    requires StartsWith(path, "/") && NoneOf(path, {'?', '#', ';', '\t', '\r', '\n'})
    requires NoneOf(query, {'#', '\t', '\r', '\n'})
    ensures var h := "https://" + host + path + "?" + query;
      CleanHref(Some(h)) == Some(h)
  {
    var h := "https://" + host + path + "?" + query;
    assert Unwrap(h) == None by {
      HttpsFacts(host);
      assert h == "https" + "://" + host + path + "?" + query;
      AbsoluteParse("https", host, path, query, "");
    }
    StartsWithConcat("https://", host, "https://");
    StartsWithConcat("https://" + host, path, "https://");
    StartsWithConcat("https://" + host + path, "?", "https://");
    StartsWithConcat("https://" + host + path + "?", query, "https://");
    AbsoluteCleaned(h);
  }

  lemma AbsoluteCleaned(h: string)
    requires StartsWith(h, "https://")
    ensures CleanHref(Some(h)) == Some(Unwrap(h).GetOr(h))
  {
    AbsoluteNotJoined(Base, h);
  }

  // ------------------------------------------------------- parse_results

  const AdSelectors: seq<string> := [
    "#b_results > li.b_ad", "li.ad", "li[data-tag=\"ad\"]", ".b_adLastChild", ".sb_add",
    ".ad_sc", "li[data-bm=\"5\"]", ".b_algoPagination + li", "#b_context .b_ad"]

  const ItemSelector := "#b_results > li, #b_context li"

  /** `any("b_ans" in c for c in cls)`. */
  predicate SomeClassHas(classes: seq<string>, p: string) {
    exists k :: 0 <= k < |classes| && Contains(classes[k], p)
  }

  /** The markers that flag an item as an ad before its link is looked
      at: being matched by an ad selector, an ad class, a `data-bm` of
      "5" or "6", a product card, or an indicator in the lowered markup. */
  predicate MarkedAd(li: Element, found: seq<Element>) {
    || li in found
    || AnyIn(AdIndicators, ClassString(li))
    || Get(li, "data-bm", "") in ["5", "6"]
    || Contains(li.html, "ProductCard") || Contains(li.html, "Products_primaryProductCard")
    || AnyIn(AdIndicators, Lower(li.html))
  }

  predicate IsPromo(li: Element) {
    SomeClassHas(li.classes, "b_ans") || Contains(ClassString(li), "b_context")
  }

  /** The "Products_primaryProductCard" test adds nothing to the
      "ProductCard" test beside it. */
  lemma ProductCardRedundant(s: string)
    ensures Contains(s, "Products_primaryProductCard") ==> Contains(s, "ProductCard")
  {
    if Contains(s, "Products_primaryProductCard") {
      ContainsPart(s, "Products_primaryProductCard", "ProductCard", 16);
    }
  }

  /** The link anchor: the first anchor with an href inside the `h2`
      when there is one, else in the item. */
  function Anchor(li: Element): Option<Tag> {
    if Find(li, "h2").Some? then FindWithHref(li, "h2 a") else FindWithHref(li, "a")
  }

  /** The heading's text when it is non-empty, else the anchor's. */
  function ItemTitle(li: Element): (r: Option<string>)
    ensures Find(li, "h2").Some? && Find(li, "h2").value.text != "" ==> r == Some(Find(li, "h2").value.text)
  {
    var h2 := Find(li, "h2");
    if h2.Some? && h2.value.text != "" then Some(h2.value.text)
    else TextOf(Anchor(li))
  }

  function ItemLink(li: Element): Option<string> {
    match Anchor(li)
    case Some(a) => CleanHref(a.href)
    case None => None
  }

  /** Pagination links and the related-searches block are not results. */
  predicate Dropped(title: string) {
    title == "Previous" || title == "Next" || StartsWith(title, "Related searches")
  }

  /** The entry an item yields: one with a title that is not dropped and
      a link. It is flagged ad_promo when the item was marked as an ad or
      a promo, or else when its link or title looks like an ad. */
  function ItemEntry(li: Element, found: seq<Element>): (r: Option<Entry>)
    ensures r.Some? <==> Truthy(ItemTitle(li)) && !Dropped(ItemTitle(li).value) && Truthy(ItemLink(li))
    ensures r.Some? ==> Emitted(r.value, Engine, Base) && !Dropped(r.value.title)
    ensures r.Some? && (MarkedAd(li, found) || IsPromo(li)) ==> r.value.adPromo
    ensures r.Some? && !MarkedAd(li, found) && !IsPromo(li) ==>
      (r.value.adPromo <==> IsLikelyAd(ItemLink(li), ItemTitle(li)))
  {
    var title := ItemTitle(li);
    var link := ItemLink(li);
    var desc := TextOf(Find(li, "p"));
    if Truthy(title) && !Dropped(title.value) && Truthy(link) then
      var adPromo := MarkedAd(li, found) || IsPromo(li) || IsLikelyAd(link, title);
      Some(Entry(Engine, Base, title.value, link.value, desc.GetOr(""), adPromo))
    else None
  }

  function ItemStep(found: seq<Element>): (seq<Entry>, Element) -> Option<Entry> {
    (results: seq<Entry>, li: Element) => ItemEntry(li, found)
  }

  /** What `parse_results` returns. */
  function Parse(soup: Soup): seq<Entry> {
    Emit([], Select(soup, ItemSelector), ItemStep(Gather(soup, AdSelectors)))
  }

  /** Every entry names Bing, has a title and a link, and is not a
      pagination or related-searches item. */
  lemma ParseProperties(soup: Soup)
    ensures forall i :: 0 <= i < |Parse(soup)| ==>
      Emitted(Parse(soup)[i], Engine, Base) && !Dropped(Parse(soup)[i].title)
  {
    var found := Gather(soup, AdSelectors);
    EmitKeeps([], Select(soup, ItemSelector), ItemStep(found),
      (e: Entry) => Emitted(e, Engine, Base) && !Dropped(e.title));
  }

  /** The first half of the loop body: the flags set from the item's
      classes, attributes and markup. */
  method MarkItem(li: Element, found: seq<Element>) returns (isAd: bool, isPromo: bool)
    ensures isAd == MarkedAd(li, found) && isPromo == IsPromo(li)
  {
    var clsStr := Lower(Join(li.classes, " "));
    isAd := li in found;
    var classHit := ScanLoop(AdIndicators, clsStr);
    isAd := isAd || classHit;
    isPromo := SomeClassHas(li.classes, "b_ans") || Contains(clsStr, "b_context");
    var dataBm := Get(li, "data-bm", "");
    if dataBm in ["5", "6"] {
      isAd := true;
    }
    if Contains(li.html, "ProductCard") || Contains(li.html, "Products_primaryProductCard") {
      isAd := true;
    }
    var htmlHit := ScanLoop(AdIndicators, Lower(li.html));
    if htmlHit {
      isAd := true;
    }
  }

  /** The second half: the title, link and description read off the item. */
  method ReadItem(li: Element) returns (title: Option<string>, link: Option<string>, desc: Option<string>)
    ensures title == ItemTitle(li) && link == ItemLink(li) && desc == TextOf(Find(li, "p"))
  {
    var h2 := Find(li, "h2");
    var a := if h2.Some? then FindWithHref(li, "h2 a") else FindWithHref(li, "a");
    var para := Find(li, "p");
    title := if h2.Some? && h2.value.text != "" then Some(h2.value.text)
             else if a.Some? then Some(a.value.text) else None;
    link := if a.Some? then CleanHref(a.value.href) else None;
    desc := if para.Some? then Some(para.value.text) else None;
  }

  /** The loop body for one item: mark it, read it, test its link, and
      keep it when it is titled, linked and not a navigation item. */
  method VisitItem(li: Element, found: seq<Element>) returns (entry: Option<Entry>)
    ensures entry == ItemEntry(li, found)
  {
    entry := None;
    var isAd, isPromo := MarkItem(li, found);
    var title, link, desc := ReadItem(li);
    var adPromo := TestLink(title, link, isAd, isPromo);
    if Truthy(title) {
      if title.value == "Previous" || title.value == "Next" || StartsWith(title.value, "Related searches") {
        return;
      }
      if Truthy(link) {
        entry := Some(Entry(Engine, Base, title.value, link.value, desc.GetOr(""), adPromo));
      }
    }
  }

  /** The link test: an item not already marked is flagged when its link
      or title looks like an ad; the flag sent on is `is_ad or is_promo`. */
  method TestLink(title: Option<string>, link: Option<string>, isAd: bool, isPromo: bool) returns (adPromo: bool)
    ensures Truthy(link) ==> (adPromo <==> isAd || isPromo || IsLikelyAd(link, title))
    ensures !Truthy(link) ==> adPromo == (isAd || isPromo)
  {
    var ad := isAd;
    if Truthy(link) && !isAd && !isPromo {
      ad := IsLikelyAd(link, title);
    }
    adPromo := ad || isPromo;
  }

  /** The loop over the items, appending each kept one. */
  method ScanItems(found: seq<Element>, items: seq<Element>) returns (results: seq<Entry>)
    ensures results == Emit([], items, ItemStep(found))
  {
    results := [];
    for j := 0 to |items|
      invariant results == Emit([], items[..j], ItemStep(found))
    {
      var entry := VisitItem(items[j], found);
      EmitNext([], items, j, ItemStep(found), entry);
      if entry.Some? {
        results := results + [entry.value];
      }
    }
    assert items[..|items|] == items;
  }

  /** `parse_results`: gather the ad selectors' matches, then scan every
      item. */
  method ParseResults(soup: Soup) returns (results: seq<Entry>)
    ensures results == Parse(soup)
    ensures forall i :: 0 <= i < |results| ==> Emitted(results[i], Engine, Base) && !Dropped(results[i].title)
  {
    var found := GatherAll(soup, AdSelectors);
    var items := Select(soup, ItemSelector);
    results := ScanItems(found, items);
    ParseProperties(soup);
  }
}
