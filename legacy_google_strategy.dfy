/** The earlier `GoogleSearchStrategy` (searchFilter/DataScraper): the same
    search URL as the current Google strategy, and a `parse_results` that
    keeps one record per result block under the `rso` container, with no
    filtering, marking a block as an ad by the text of its first `span`. */
module LegacyGoogleStrategy {
  import opened Wrappers
  import opened Text
  import opened Dom
  import opened SearchTypes
  import opened StrategyCommon
  import GoogleStrategy

  /** `build_search_url(keyword)`. */
  function BuildSearchUrl(k: Keyword): (r: Result<string, Error>)
    ensures r.Success? <==> DecodeKeyword(k).Success?
    ensures r.Success? ==> StartsWith(r.value, "https://www.google.com/search?q=")
  {
    SearchUrl("https://www.google.com/search", "q", k)
  }

  /** The earlier and the current Google strategies build the same URL. */
  lemma SameSearchUrl(k: Keyword)
    ensures BuildSearchUrl(k) == GoogleStrategy.BuildSearchUrl(k)
  {
  }

  /** One record of the earlier `parse_results`: any of title, link and
      description may be missing. */
  datatype LegacyEntry = LegacyEntry(title: Option<string>, link: Option<string>, description: Option<string>, isAd: bool)

  /** The markers that make a block an ad. */
  const AdMarkers: seq<string> := ["ad", "sponsored"]

  /** `ad_marker and ad_marker.text.strip().lower() in ["ad", "sponsored"]`. */
  predicate IsAdMarker(marker: Option<Tag>) {
    marker.Some? && Lower(Strip(marker.value.rawText)) in AdMarkers
  }

  /** The first `div#rso` and the `div.yuRUbf` blocks inside it, in
      document order. `Items` takes the blocks under any `div#rso`, which
      are the blocks inside the first one when, as an HTML id should be,
      `rso` is unique on the page. */
  const Container := "div#rso"
  const Items := "div#rso div.yuRUbf"

  /** One block: the raw `href` of its first anchor, the `.text` of its
      first `h3` and of its first `div.VwiC3b` (unstripped, unlike the
      `get_text(strip=True)` the current strategies read), and the ad
      marker. */
  function Classify(item: Element): (e: LegacyEntry)
    ensures e.link.Some? <==> Find(item, "a").Some? && Find(item, "a").value.href.Some?
    ensures e.link.Some? ==> e.link.value == Find(item, "a").value.href.value
    ensures e.title == RawTextOf(Find(item, "h3")) && e.description == RawTextOf(Find(item, "div.VwiC3b"))
    ensures e.isAd <==> IsAdMarker(Find(item, "span"))
  {
    var linkTag := Find(item, "a");
    var link := if linkTag.Some? then linkTag.value.href else None;
    LegacyEntry(RawTextOf(Find(item, "h3")), link, RawTextOf(Find(item, "div.VwiC3b")), IsAdMarker(Find(item, "span")))
  }

  /** `parse_results(html)`: nothing without the container, else one
      record per block. */
  function Parse(soup: Soup): seq<LegacyEntry> {
    if Select(soup, Container) == [] then []
    else
      var items := Select(soup, Items);
      seq(|items|, i requires 0 <= i < |items| => Classify(items[i]))
  }

  /** Without the container the result is empty; with it there is
      exactly one record per block, in document order, even when its
      title, link or description is missing. */
  lemma ParseOnePerBlock(soup: Soup)
    ensures Select(soup, Container) == [] ==> Parse(soup) == []
    ensures Select(soup, Container) != [] ==>
      |Parse(soup)| == |Select(soup, Items)| &&
      forall i :: 0 <= i < |Parse(soup)| ==> Parse(soup)[i] == Classify(Select(soup, Items)[i])
  {
  }

  /** The marker test ignores case: a marker whose text is written in
      any mix of cases is still a marker. */
  lemma AdMarkerCaseless(t: Tag)
    ensures IsAdMarker(Some(t.(rawText := Lower(t.rawText)))) == IsAdMarker(Some(t))
  {
    StripLower(t.rawText);
    LowerTwice(Strip(t.rawText));
  }

  /** The test compares the whole stripped text, so a longer text such as
      "Ads" or "Sponsored link" is not a marker. */
  lemma AdMarkerWholeText(t: Tag)
    requires IsAdMarker(Some(t))
    ensures |Strip(t.rawText)| == 2 || |Strip(t.rawText)| == 9
  {
    assert |Lower(Strip(t.rawText))| == |Strip(t.rawText)|;
    assert |AdMarkers[0]| == 2 && |AdMarkers[1]| == 9;
  }

  /** One block of the loop. */
  method VisitItem(item: Element) returns (entry: LegacyEntry)
    ensures entry == Classify(item)
  {
    var linkTag := Find(item, "a");
    var link := if linkTag.Some? then linkTag.value.href else None;
    var titleTag := Find(item, "h3");
    var title := if titleTag.Some? then Some(titleTag.value.rawText) else None;
    var descTag := Find(item, "div.VwiC3b");
    var description := if descTag.Some? then Some(descTag.value.rawText) else None;
    var isAd := false;
    var adMarker := Find(item, "span");
    if IsAdMarker(adMarker) {
      isAd := true;
    }
    entry := LegacyEntry(title, link, description, isAd);
  }

  /** The loop over the blocks. */
  method ParseResults(soup: Soup) returns (results: seq<LegacyEntry>)
    ensures results == Parse(soup)
  {
    results := [];
    var container := Select(soup, Container);
    if container == [] {
      return;
    }
    var items := Select(soup, Items);
    for i := 0 to |items|
      invariant |results| == i && forall n :: 0 <= n < i ==> results[n] == Classify(items[n])
    {
      var entry := VisitItem(items[i]);
      results := results + [entry];
    }
  }
}
