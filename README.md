# SearchEngineFilter scraping pipeline in Dafny

This project models the decision logic of SearchEngineFilter. The Django
back end sends a keyword to four search engines: Google, Bing, DuckDuckGo
and Yahoo. It reads the result pages back a page at a time and records
which results are organic and which are ads or promotions. Later it
fetches the pages those results link to and counts how often the keyword
occurs in them. The React front end (`ShowSearches`) groups the stored
results by engine, keeps the organic ones, drops repeated URLs and shows
them ten per page.

The model follows the code as written. Where the code does something
other than what it evidently means to do, the model keeps the code's
behaviour and states that behaviour as a lemma.

## Layout

Each Python or TypeScript component is one Dafny module. Helper lemmas
sit with the module that needs them.

| module | file | models |
|---|---|---|
| `Wrappers` | wrappers.dfy | `Option` and `Result` |
| `Utf8` | utf8.dfy | UTF-8 encoding, strict decoding (`bytes.decode('utf-8')`) and decoding with replacement (what `unquote` does) |
| `UrlLib` | url_lib.dfy | `quote_plus`, `unquote`, `unquote_plus`, `urlsplit`/`urlparse`, `urljoin` and `parse_qs` from Python's `urllib.parse` |
| `Text` | text.dfy | ASCII `lower`, `in` on strings, `split`, `join`, `strip`, slicing and `str(n)` |
| `Dom` | dom.dfy | a parsed page: the elements each selector matches and what `find` returns inside them |
| `SearchTypes` | search_types.dfy | the result dictionary (`Entry`) and the exceptions that travel up |
| `StrategyCommon` | strategy_common.dfy | what the four strategies share: keyword decoding, the search URL, the indicator test, the emit loops |
| `GoogleStrategy`, `BingStrategy`, `DuckDuckGoStrategy`, `YahooStrategy` | google_strategy.dfy, bing_strategy.dfy, duckduckgo_strategy.dfy, yahoo_strategy.dfy | `build_search_url`, `_clean_href`, `is_likely_ad` and `parse_results` of each engine |
| `RequestHandler` | request_handler.dfy | `_pick_wait_selectors`, `get`, `get_html_without_js`, `get_with_fallback` |
| `SearchUrl` | search_url.dfy | `SearchUrls.get_search_results`: page URLs, link dedup, stop rules and the 250 guard |
| `SearchQueryAdd` | search_query_add.dfy | `get_count`, `add_url_html_data` and the counting loops of `add_search_results` |
| `DataScraper` | data_scraper.dfy | `get_urls` and `parse_list_of_searches_and_populate_url_data` |
| `LegacySearchUrl`, `LegacyGoogleStrategy` | legacy_search_url.dfy, legacy_google_strategy.dfy | the earlier `searchFilter/DataScraper` paginator and Google strategy |
| `ShowSearchesView` | show_searches.dfy | the `ShowSearches` component: grouping, filtering, paging and the engine label |

Pure code is modelled as functions. Every loop of the source is a
`method` with a `while` or `for` loop, and each method is proved equal to
a specification function. Properties of the specification function are
then proved as lemmas. Examples: `GoogleStrategy.ParseResults` against
`Parse`, `SearchUrl.GetSearchResults` against `Run`, and
`ShowSearchesView.FilterItems` against `Filtered`. The front-end
component is a class `ShowSearchesView.ShowSearches`. Its `page` and
`selectedEngine` state are fields, and its event handlers are methods
that update them.

Some outside calls are parameters of the model:

- fetching a result page and parsing it with a strategy, a function from
  URL to parsed entries or an error;
- each HTTP request of the row filter;
- the database writes, a function saying which entry or row fails to
  persist;
- each browser step of `RequestHandler.get`, a value of type `Browser`.

## Behaviour of the code that the model keeps

- **Dedup keeps organic repeats.** The page loop skips only ad/promo results
  whose link is empty or already seen. Organic results are kept even
  when they repeat (`SearchUrl.DedupKeepsOrganic`).
- **No truncation in the current paginator.** The output is not cut to the
  requested count (`SearchUrl.FirstPageKeptWhole`). The earlier paginator
  does cut it (`LegacySearchUrl.SearchTruncates`).
- **A failure anywhere fails the whole call.** One error from any engine,
  or from storing the results, makes `get_urls` answer `success: False`.
  Engines after a failing one are not searched (`DataScraper.GetUrlsFailed`,
  `DataScraper.GatherFailure`).
- **The Google and DuckDuckGo unwrap branches never fire.** `_clean_href`
  joins a rooted href onto the origin before it tests for `/url` or
  `/l/?uddg=`, and a joined href never starts with `/`
  (`GoogleStrategy.CleanHrefNeverUnwraps`,
  `DuckDuckGoStrategy.CleanHrefNeverUnwraps`).
- **Mixed-case indicators never match.** The markup is lowered before the
  indicators are searched for. `kAAxwc`, `uEierd` and `DtQqvd` (Google),
  the mixed-case Bing and Yahoo indicators, and Yahoo's
  `compShoppingSummary` test are therefore dead
  (`GoogleStrategy.MixedCaseIgnored`, `YahooStrategy.ItemVerdict`).
- **Google never skips a dedicated ad.** The skip test looks for a
  `link_tag` attribute on the result dictionaries, and they never have
  one.
- **Two DuckDuckGo quirks.** An explicit ad whose title anchor has no
  `href` raises `KeyError` out of `parse_results`
  (`DuckDuckGoStrategy.ParseFails`). The promo lookup
  `find(".module__title")` looks for a tag with that name and never
  finds one (`DuckDuckGoStrategy.PromoTitleTag`).
- **Yahoo's "already processed" test compares prefixes.** It compares the
  first 50 characters of a block's text with earlier titles, so a block
  longer than its title is added again (`YahooStrategy.LongerBlockAddedAgain`).
- **Browser launch failure raises.** `get` starts the browser outside its
  `try`, so a launch failure raises. Every later failure returns one of
  three placeholder pages, and the browser is then always quit
  (`RequestHandler.Get`).
- **`raise_for_status` raises only for 4xx and 5xx.** It raises for a status from 400 to 599, not for
  every status outside 2xx (`RequestHandler.RaiseForStatus`).
- **An emitted description is never None.** Every entry a strategy
  emits has a string description: the field is a `string` in `Entry`.

## Model

| member | source | states |
|---|---|---|
| Utf8.EncodeChar | SearchEngineFilter/searchFilter/DataScraper/SearchEngineStrategy.py:26 | a character encodes to one to four UTF-8 octets |
| Utf8.DecodeEncode | SearchEngineFilter/searchFilter/DataScraper/SearchEngineStrategy.py:24-26 | strict UTF-8 decoding inverts encoding, and so does decoding with replacement: a `str` keyword and its UTF-8 `bytes` give the same query |
| Utf8.DecodeReplaceAscii | SearchEngineFilter/searchFilter/DataScraper/SearchEngineStrategy.py:315 | replacement decoding of ASCII octets keeps them one-for-one |
| Utf8.DecodeStep | SearchEngineFilter/searchFilter/DataScraper/SearchEngineStrategy.py:315 | each decoding step consumes at least one and at most the remaining octets |
| UrlLib.QuotePlusIsQueryValue | SearchEngineFilter/searchFilter/DataScraper/SearchEngineStrategy.py:26 | `quote_plus` output is made only of unreserved characters, `+` and `%`, so it holds no `&`, `#`, `=`, `?` or space |
| UrlLib.QuotePlusRoundTrip | SearchEngineFilter/searchFilter/DataScraper/SearchEngineStrategy.py:26 | `unquote_plus(quote_plus(s)) == s` for every string, non-ASCII included |
| UrlLib.UnquoteQuotedBytes | SearchEngineFilter/searchFilter/DataScraper/SearchEngineStrategy.py:26 | percent-decoding the quoted octets (with `+` read back as space) gives the octets back |
| UrlLib.UnquoteToBytesPlain | SearchEngineFilter/searchFilter/DataScraper/SearchEngineStrategy.py:315 | percent-decoding text without `%` maps each ASCII character to its own octet |
| UrlLib.HexRoundTrip | SearchEngineFilter/searchFilter/DataScraper/SearchEngineStrategy.py:26 | the two upper-case hex digits written for an octet read back as that octet |
| UrlLib.AsciiRun | SearchEngineFilter/searchFilter/DataScraper/SearchEngineStrategy.py:315 | `unquote` splits its input at the first non-ASCII character |
| UrlLib.LStripC0 | SearchEngineFilter/searchFilter/DataScraper/SearchEngineStrategy.py:310 | `urlsplit`'s left strip leaves no leading C0 control or space, and LStripC0Removes pins the rest |
| UrlLib.LStripC0Removes | SearchEngineFilter/searchFilter/DataScraper/SearchEngineStrategy.py:310 | the left strip leaves a suffix of the input and removes only C0 controls and spaces |
| UrlLib.FirstOf | SearchEngineFilter/searchFilter/DataScraper/SearchEngineStrategy.py:310 | the first position holding one of the delimiters, or the end |
| UrlLib.LastOf | SearchEngineFilter/searchFilter/DataScraper/SearchEngineStrategy.py:309 | the position of the last occurrence of a character, with none after it, or None exactly when the character does not occur; `_splitparams` uses it to find the last path segment |
| UrlLib.NonEmpty | SearchEngineFilter/searchFilter/DataScraper/SearchEngineStrategy.py:309 | the path segments `urljoin` keeps are non-empty, and NonEmptyKeeps and NonEmptyAppend pin which and in what order |
| UrlLib.NonEmptyKeeps | SearchEngineFilter/searchFilter/DataScraper/SearchEngineStrategy.py:309 | every non-empty segment is kept as often as it occurs, and no empty one |
| UrlLib.NonEmptyAppend | SearchEngineFilter/searchFilter/DataScraper/SearchEngineStrategy.py:309 | dropping empty segments distributes over concatenation, so the kept segments stay in order |
| UrlLib.JoinParts | SearchEngineFilter/searchFilter/DataScraper/SearchEngineStrategy.py:309 | `urljoin` takes the scheme of the reference, and its network location when it has one or else the base's |
| UrlLib.FirstValue | SearchEngineFilter/searchFilter/DataScraper/SearchEngineStrategy.py:312-315 | `parse_qs(...)[key][0]` is present exactly when some pair carries that key, and is then the value of the first such pair |
| UrlLib.OriginParse | SearchEngineFilter/searchFilter/DataScraper/SearchEngineStrategy.py:310 | `urlparse` of `scheme://host` gives that scheme and host and nothing else |
| UrlLib.RootedKeepsDefault | SearchEngineFilter/searchFilter/DataScraper/SearchEngineStrategy.py:93 | a rooted reference takes the default scheme when parsed |
| UrlLib.JoinRootedKeepsScheme | SearchEngineFilter/searchFilter/DataScraper/SearchEngineStrategy.py:93 | joining a rooted href onto an `https` origin gives an `https://` URL |
| UrlLib.AbsoluteParse | SearchEngineFilter/searchFilter/DataScraper/SearchEngineStrategy.py:310 | `urlparse` of `scheme://host/path?query` gives exactly those parts |
| UrlLib.AbsoluteSplit | SearchEngineFilter/searchFilter/DataScraper/SearchEngineStrategy.py:310 | `urlsplit` of `scheme://host/path?query` gives exactly those parts |
| UrlLib.SingleFieldQuery | SearchEngineFilter/searchFilter/DataScraper/SearchEngineStrategy.py:312 | `parse_qsl` of one `name=value` field decodes the value with `unquote_plus` |
| UrlLib.RemoveAbsent | SearchEngineFilter/searchFilter/DataScraper/SearchEngineStrategy.py:310 | removing a character that does not occur changes nothing |
| UrlLib.UnsplitStartsWithOrigin | SearchEngineFilter/searchFilter/DataScraper/SearchEngineStrategy.py:93 | `urlunsplit` with a scheme and a network location starts with `scheme://` |
| Text.Lower | SearchEngineFilter/searchFilter/DataScraper/SearchEngineStrategy.py:68 | `str.lower` on ASCII: same length, each character lowered |
| Text.LowerTwice | SearchEngineFilter/searchFilter/DataScraper/SearchEngineStrategy.py:81 | lowering is idempotent |
| Text.LoweredLacksUpper | SearchEngineFilter/searchFilter/DataScraper/SearchEngineStrategy.py:82-83 | a lowered text never contains a pattern holding an upper-case letter |
| Text.IndexOf | SearchEngineFilter/searchFilter/DataScraper/SearchEngineStrategy.py:485 | the first occurrence of a separator: it is there, and no earlier position starts one |
| Text.Split | SearchEngineFilter/searchFilter/DataScraper/SearchEngineStrategy.py:485 | `str.split(sep)` returns at least one part |
| Text.SplitParts | SearchEngineFilter/searchFilter/DataScraper/SearchEngineStrategy.py:689-690 | `split` gives more than one part exactly when the separator occurs |
| Text.SplitJoin | searchEngineFrontEnd/src/components/organization/ShowSearches.tsx:75 | splitting `join(parts, sep)` at `sep` gives the parts back when no part contains the separator |
| Text.Strip | SearchEngineFilter/searchFilter/DataScraper/SearchEngineStrategy.py:219 | `str.strip` leaves no white space at either end, and StripPart says which part of the text remains |
| Text.StripPart | SearchEngineFilter/searchFilter/DataScraper/SearchEngineStrategy.py:219 | the stripped text is a part of the input with only white space before and after it |
| Text.StripLeftRemoves | SearchEngineFilter/searchFilter/DataScraper/SearchEngineStrategy.py:219 | the left strip removes only white space |
| Text.StripRightRemoves | SearchEngineFilter/searchFilter/DataScraper/SearchEngineStrategy.py:219 | the right strip removes only white space |
| Text.StripLeft | SearchEngineFilter/searchFilter/DataScraper/SearchEngineStrategy.py:219 | the left strip is a suffix with no leading white space |
| Text.StripRight | SearchEngineFilter/searchFilter/DataScraper/SearchEngineStrategy.py:219 | the right strip is a prefix with no trailing white space |
| Text.StripLower | searchFilter/DataScraper/SearchEngineStrategy.py:45 | stripping and lowering commute |
| Text.Prefix | SearchEngineFilter/searchFilter/DataScraper/SearchEngineStrategy.py:219 | `s[:n]`: at most `n` characters, a prefix of `s`, and all of `s` when it is shorter |
| Text.NatToString | SearchEngineFilter/searchFilter/DataScraper/SearchUrl.py:25 | `str(n)` is a non-empty run of decimal digits |
| Text.DigitsRoundTrip | SearchEngineFilter/searchFilter/DataScraper/SearchUrl.py:25 | reading back the decimal digits of `str(n)` gives `n` |
| Text.ReplaceChar | SearchEngineFilter/searchFilter/DataScraper/SearchEngineStrategy.py:26 | replacing one character by another keeps the length and every other character |
| Text.RemoveChar | SearchEngineFilter/searchFilter/DataScraper/SearchEngineStrategy.py:310 | removing a character leaves no copy of it, and RemoveCharKeeps and RemoveCharAppend pin the rest |
| Text.RemoveCharKeeps | SearchEngineFilter/searchFilter/DataScraper/SearchEngineStrategy.py:310 | every other character is kept as often as it occurs |
| Text.RemoveCharAppend | SearchEngineFilter/searchFilter/DataScraper/SearchEngineStrategy.py:310 | removal distributes over concatenation, so the kept characters stay in order |
| Dom.Find | SearchEngineFilter/searchFilter/DataScraper/SearchEngineStrategy.py:129 | `element.find(query)` finds a tag exactly when the query has a match |
| Dom.FindWithHref | SearchEngineFilter/searchFilter/DataScraper/SearchEngineStrategy.py:130 | `find(..., href=True)` returns only tags with an `href` |
| Dom.FindNamed | SearchEngineFilter/searchFilter/DataScraper/SearchEngineStrategy.py:583 | `find` with a value that is not a tag name finds nothing |
| Dom.OrElse | SearchEngineFilter/searchFilter/DataScraper/SearchEngineStrategy.py:209 | `a or b` on tags: the first when present, else the second |
| Dom.TextOf | SearchEngineFilter/searchFilter/DataScraper/SearchEngineStrategy.py:133 | the `get_text(strip=True)` of a tag when there is one |
| Dom.RawTextOf | searchFilter/DataScraper/SearchEngineStrategy.py:38-41 | the `.text` of a tag when there is one |
| Dom.Gather | SearchEngineFilter/searchFilter/DataScraper/SearchEngineStrategy.py:114-119 | the ad elements collected over all selectors hold every selector's matches and nothing else, and their number is the sum of the selectors' match counts |
| Dom.GatherAll | SearchEngineFilter/searchFilter/DataScraper/SearchEngineStrategy.py:114-119 | the loop over the ad selectors collects exactly `Gather` |
| StrategyCommon.DecodeKeyword | SearchEngineFilter/searchFilter/DataScraper/SearchEngineStrategy.py:23-24 | a `str` keyword is used as is; a `bytes` keyword is UTF-8 decoded, raising `UnicodeDecodeError` exactly when it is not valid UTF-8 |
| StrategyCommon.SearchUrl | SearchEngineFilter/searchFilter/DataScraper/SearchEngineStrategy.py:21-27 | `build_search_url` fails exactly when the keyword does not decode; otherwise the URL is `base?name=` followed by a value that `unquote_plus` reads back as the keyword and that holds no `&`, `#`, `=`, `?` or space |
| StrategyCommon.BytesKeywordSameUrl | SearchEngineFilter/searchFilter/DataScraper/SearchEngineStrategy.py:23-26 | the UTF-8 bytes of a keyword give the same URL as the keyword itself |
| StrategyCommon.QuotePlusNonEmpty | SearchEngineFilter/searchFilter/DataScraper/SearchEngineStrategy.py:26 | a non-empty keyword never quotes to an empty value |
| StrategyCommon.SearchUrlRoundTrip | SearchEngineFilter/searchFilter/DataScraper/SearchEngineStrategy.py:21-27 | parsing the search URL gives back the scheme, host and path, and the query parameter is the keyword (absent when the keyword is empty, as `parse_qs` drops blank values) |
| StrategyCommon.SearchUrlValue | SearchEngineFilter/searchFilter/DataScraper/SearchEngineStrategy.py:26-27 | the URL is the base, `?`, the parameter name, `=` and `quote_plus(keyword)` |
| StrategyCommon.QueryOfKeyword | SearchEngineFilter/searchFilter/DataScraper/SearchEngineStrategy.py:26-27 | reading the parameter out of `name=quote_plus(s)` gives `s`, or nothing when `s` is empty |
| StrategyCommon.ScanIndicators | SearchEngineFilter/searchFilter/DataScraper/SearchEngineStrategy.py:69-72 | the indicator loop answers true exactly when some indicator occurs in the text |
| StrategyCommon.ScanLoop | SearchEngineFilter/searchFilter/DataScraper/SearchEngineStrategy.py:69-72 | the `for indicator in ...` loop with early return answers exactly `AnyIn` |
| StrategyCommon.LikelyAd | SearchEngineFilter/searchFilter/DataScraper/SearchEngineStrategy.py:64-87 | `is_likely_ad` holds exactly when a non-empty URL contains a URL indicator, a non-empty text contains one of the text markers, or non-empty markup contains a markup indicator, all tested on the lowered string |
| StrategyCommon.MixedCaseNeverMatches | SearchEngineFilter/searchFilter/DataScraper/SearchEngineStrategy.py:50-55 | an indicator with an upper-case letter can never occur in a lowered string |
| StrategyCommon.ScanWithout | SearchEngineFilter/searchFilter/DataScraper/SearchEngineStrategy.py:82-83 | indicators that cannot occur may be dropped without changing the verdict |
| StrategyCommon.AbsoluteNotJoined | SearchEngineFilter/searchFilter/DataScraper/SearchEngineStrategy.py:92-93 | an `https://` href is not joined |
| StrategyCommon.JoinedNotRooted | SearchEngineFilter/searchFilter/DataScraper/SearchEngineStrategy.py:92-93 | after the join, a non-empty href never starts with `/`, and a rooted one becomes `https://` |
| StrategyCommon.RootedJoinIsHttps | SearchEngineFilter/searchFilter/DataScraper/SearchEngineStrategy.py:93 | `urljoin` of a rooted href onto an engine's origin starts with `https://` |
| StrategyCommon.Emit | SearchEngineFilter/searchFilter/DataScraper/SearchEngineStrategy.py:149-161 | the appending loop keeps what was there before and adds at most one entry per element |
| StrategyCommon.EmitKeeps | SearchEngineFilter/searchFilter/DataScraper/SearchEngineStrategy.py:149-161 | a property every emitted entry has holds for every appended entry |
| StrategyCommon.EmitChecked | SearchEngineFilter/searchFilter/DataScraper/SearchEngineStrategy.py:537-567 | a loop whose step may raise succeeds exactly when no element raises, and then keeps its prefix and adds at most one entry per element |
| StrategyCommon.EmitCheckedKeeps | SearchEngineFilter/searchFilter/DataScraper/SearchEngineStrategy.py:537-567 | a property of every emitted entry holds of every appended entry of a loop that did not raise |
| GoogleStrategy.BuildSearchUrl | SearchEngineFilter/searchFilter/DataScraper/SearchEngineStrategy.py:21-27 | the URL is `https://www.google.com/search?q=` followed by the quoted keyword, failing exactly when a `bytes` keyword does not decode |
| GoogleStrategy.BuildSearchUrlParses | SearchEngineFilter/searchFilter/DataScraper/SearchEngineStrategy.py:21-27 | the URL parses back to host `www.google.com`, path `/search` and `q` = the keyword |
| GoogleStrategy.IsLikelyAd | SearchEngineFilter/searchFilter/DataScraper/SearchEngineStrategy.py:64-87 | Google's `is_likely_ad` is the common test with Google's URL and markup indicators |
| GoogleStrategy.MixedCaseIgnored | SearchEngineFilter/searchFilter/DataScraper/SearchEngineStrategy.py:50-55 | the mixed-case markup indicators (`kAAxwc`, `uEierd`, `DtQqvd`) never match the lowered markup: the test behaves as if only the lower-case ones were listed |
| GoogleStrategy.CleanHrefNeverUnwraps | SearchEngineFilter/searchFilter/DataScraper/SearchEngineStrategy.py:89-96 | `_clean_href` is None for a missing or empty href and otherwise the href joined onto the origin; a rooted `/url?q=` redirect is joined first, so the unwrap branch never fires; the `ValueError` of an invalid network location is left out |
| GoogleStrategy.CleanHrefIdempotent | SearchEngineFilter/searchFilter/DataScraper/SearchEngineStrategy.py:89-96 | cleaning a cleaned href changes nothing |
| GoogleStrategy.MainEntry | SearchEngineFilter/searchFilter/DataScraper/SearchEngineStrategy.py:125-161 | a result block yields an entry exactly when it has a non-empty `h3` text and a cleaned link; the entry names Google and its base and has a title and a link |
| GoogleStrategy.AdEntry | SearchEngineFilter/searchFilter/DataScraper/SearchEngineStrategy.py:164-193 | an element of the dedicated ad sections yields, if anything, an entry with a title, a link and `ad_promo` true |
| GoogleStrategy.PromoTitle | SearchEngineFilter/searchFilter/DataScraper/SearchEngineStrategy.py:217-220 | without `h3` or `h2` the promo title is at most 80 characters |
| GoogleStrategy.PromoEntry | SearchEngineFilter/searchFilter/DataScraper/SearchEngineStrategy.py:202-237 | a promo yields, if anything, a Google entry with a title, a link and `ad_promo` true |
| GoogleStrategy.PromoFallbackTitleBounded | SearchEngineFilter/searchFilter/DataScraper/SearchEngineStrategy.py:217-220 | the fallback title is the first 80 characters of the spaced text, stripped, so at most 80 long |
| GoogleStrategy.ParseProperties | SearchEngineFilter/searchFilter/DataScraper/SearchEngineStrategy.py:122-243 | every entry names Google, has a title and a link; the result blocks come first, and every entry after them is flagged `ad_promo` |
| GoogleStrategy.VisitMain | SearchEngineFilter/searchFilter/DataScraper/SearchEngineStrategy.py:125-161 | one result block of the main loop yields `MainEntry` |
| GoogleStrategy.ScanMain | SearchEngineFilter/searchFilter/DataScraper/SearchEngineStrategy.py:122-161 | the main loop appends exactly the entries of the result blocks, in order |
| GoogleStrategy.VisitAd | SearchEngineFilter/searchFilter/DataScraper/SearchEngineStrategy.py:168-193 | one element of the ad sections yields `AdEntry` (the skip test never holds) |
| GoogleStrategy.ScanAds | SearchEngineFilter/searchFilter/DataScraper/SearchEngineStrategy.py:164-193 | the ad loop appends exactly the entries of the ad elements after the main entries |
| GoogleStrategy.VisitPromo | SearchEngineFilter/searchFilter/DataScraper/SearchEngineStrategy.py:204-237 | one promo, skipped when it is a result block with a heading and a link, yields `PromoEntry` |
| GoogleStrategy.ScanPromos | SearchEngineFilter/searchFilter/DataScraper/SearchEngineStrategy.py:202-237 | the promo loops append exactly the entries of the promos |
| GoogleStrategy.ParseResults | SearchEngineFilter/searchFilter/DataScraper/SearchEngineStrategy.py:29-243 | `parse_results` returns `Parse(soup)` and every entry names Google with a title and a link |
| BingStrategy.BuildSearchUrl | SearchEngineFilter/searchFilter/DataScraper/SearchEngineStrategy.py:248-254 | the URL is `https://www.bing.com/search?q=` followed by the quoted keyword, failing exactly when a `bytes` keyword does not decode |
| BingStrategy.BuildSearchUrlParses | SearchEngineFilter/searchFilter/DataScraper/SearchEngineStrategy.py:248-254 | the URL parses back to host `www.bing.com`, path `/search` and `q` = the keyword |
| BingStrategy.IsLikelyAd | SearchEngineFilter/searchFilter/DataScraper/SearchEngineStrategy.py:287-303 | Bing's test: only with a non-empty URL, then a URL indicator in it or a text marker in the title |
| BingStrategy.MixedCaseIgnored | SearchEngineFilter/searchFilter/DataScraper/SearchEngineStrategy.py:274-285 | the mixed-case indicators never match a lowered string |
| BingStrategy.CleanHref | SearchEngineFilter/searchFilter/DataScraper/SearchEngineStrategy.py:305-316 | `_clean_href` returns nothing exactly for a missing or empty href; the `ValueError` of an invalid network location is left out |
| BingStrategy.AclickUnwraps | SearchEngineFilter/searchFilter/DataScraper/SearchEngineStrategy.py:305-316 | an `aclick` redirect with a `u` or `r` parameter yields its value, decoded by `parse_qs` and then by `unquote` |
| BingStrategy.CleanAclick | SearchEngineFilter/searchFilter/DataScraper/SearchEngineStrategy.py:305-316 | an `aclick` redirect whose query holds one `u` or `r` field yields that field unquoted |
| BingStrategy.OtherHostKept | SearchEngineFilter/searchFilter/DataScraper/SearchEngineStrategy.py:305-316 | a link to another host is returned unchanged |
| BingStrategy.AbsoluteCleaned | SearchEngineFilter/searchFilter/DataScraper/SearchEngineStrategy.py:305-316 | an absolute href is unwrapped when it is an `aclick` redirect and kept otherwise |
| BingStrategy.ProductCardRedundant | SearchEngineFilter/searchFilter/DataScraper/SearchEngineStrategy.py:360 | the `Products_primaryProductCard` test adds nothing to the `ProductCard` test |
| BingStrategy.ItemTitle | SearchEngineFilter/searchFilter/DataScraper/SearchEngineStrategy.py:379-380 | the title is the `h2` text when it is non-empty |
| BingStrategy.ItemEntry | SearchEngineFilter/searchFilter/DataScraper/SearchEngineStrategy.py:342-401 | an item yields an entry exactly when it has a title that is not `Previous`, `Next` or `Related searches...` and a link; the entry is flagged when the item was marked an ad or promo, and otherwise exactly when its link or title looks like an ad |
| BingStrategy.ParseProperties | SearchEngineFilter/searchFilter/DataScraper/SearchEngineStrategy.py:339-407 | every entry names Bing, has a title and a link, and is no pagination or related-searches item |
| BingStrategy.MarkItem | SearchEngineFilter/searchFilter/DataScraper/SearchEngineStrategy.py:344-370 | the marking steps compute the ad and promo flags |
| BingStrategy.ReadItem | SearchEngineFilter/searchFilter/DataScraper/SearchEngineStrategy.py:375-382 | title, link and description read off an item |
| BingStrategy.TestLink | SearchEngineFilter/searchFilter/DataScraper/SearchEngineStrategy.py:385-386 | the final URL test only runs with a link on an item not already marked |
| BingStrategy.VisitItem | SearchEngineFilter/searchFilter/DataScraper/SearchEngineStrategy.py:342-401 | one item yields `ItemEntry` |
| BingStrategy.ScanItems | SearchEngineFilter/searchFilter/DataScraper/SearchEngineStrategy.py:342-401 | the item loop appends exactly the items' entries |
| BingStrategy.ParseResults | SearchEngineFilter/searchFilter/DataScraper/SearchEngineStrategy.py:256-407 | `parse_results` returns `Parse(soup)`, every entry naming Bing with a title and a link |
| DuckDuckGoStrategy.BuildSearchUrl | SearchEngineFilter/searchFilter/DataScraper/SearchEngineStrategy.py:411-416 | the URL is `https://duckduckgo.com/html/?q=` followed by the quoted keyword, failing exactly when a `bytes` keyword does not decode |
| DuckDuckGoStrategy.BuildSearchUrlParses | SearchEngineFilter/searchFilter/DataScraper/SearchEngineStrategy.py:411-416 | the URL parses back to host `duckduckgo.com`, path `/html/` and `q` = the keyword |
| DuckDuckGoStrategy.IsLikelyAd | SearchEngineFilter/searchFilter/DataScraper/SearchEngineStrategy.py:454-477 | the test holds exactly when a URL, text or markup indicator occurs in the lowered non-empty argument |
| DuckDuckGoStrategy.LoweredMarkupTest | SearchEngineFilter/searchFilter/DataScraper/SearchEngineStrategy.py:500-502 | the markup test on the lowered result is a search for the indicators in it |
| DuckDuckGoStrategy.CleanHrefNeverUnwraps | SearchEngineFilter/searchFilter/DataScraper/SearchEngineStrategy.py:479-486 | `_clean_href` joins rooted hrefs first, so the `/l/?uddg=` unwrap never fires; the `ValueError` of an invalid network location is left out |
| DuckDuckGoStrategy.CleanHrefIdempotent | SearchEngineFilter/searchFilter/DataScraper/SearchEngineStrategy.py:479-486 | cleaning a cleaned href changes nothing |
| DuckDuckGoStrategy.ResultEntry | SearchEngineFilter/searchFilter/DataScraper/SearchEngineStrategy.py:489-525 | a result yields an entry exactly when its `.result__a` has text and a cleaned href; the flag is the class, markup and link test |
| DuckDuckGoStrategy.AdLinkTag | SearchEngineFilter/searchFilter/DataScraper/SearchEngineStrategy.py:545 | an ad's link tag without an href is its title anchor |
| DuckDuckGoStrategy.AdEntry | SearchEngineFilter/searchFilter/DataScraper/SearchEngineStrategy.py:537-567 | an explicit ad raises `KeyError('href')` exactly when its title tag is an anchor without an href; otherwise it yields, if anything, a flagged DuckDuckGo entry |
| DuckDuckGoStrategy.PromoTitleTag | SearchEngineFilter/searchFilter/DataScraper/SearchEngineStrategy.py:583 | the promo title tag is `h2` or else `h3`: `find('.module__title')` never finds a tag |
| DuckDuckGoStrategy.FallbackTitle | SearchEngineFilter/searchFilter/DataScraper/SearchEngineStrategy.py:592-594 | the fallback title is the description up to 60 characters, followed by `...` when it was longer |
| DuckDuckGoStrategy.PromoEntry | SearchEngineFilter/searchFilter/DataScraper/SearchEngineStrategy.py:580-607 | a promo yields an entry exactly when it has a title (possibly the fallback) and a link; the entry is flagged |
| DuckDuckGoStrategy.PromoFallbackTitleBounded | SearchEngineFilter/searchFilter/DataScraper/SearchEngineStrategy.py:592-594 | without a heading the title is the fallback, at most 63 characters |
| DuckDuckGoStrategy.ParseFails | SearchEngineFilter/searchFilter/DataScraper/SearchEngineStrategy.py:545 | `parse_results` raises exactly when some explicit ad has a title anchor without an href, and then it is `KeyError('href')` |
| DuckDuckGoStrategy.FailureIsKeyError | SearchEngineFilter/searchFilter/DataScraper/SearchEngineStrategy.py:553 | the only failure of the ad loop is `KeyError('href')` |
| DuckDuckGoStrategy.FailureStays | SearchEngineFilter/searchFilter/DataScraper/SearchEngineStrategy.py:537-567 | once the ad loop has raised, later ads change nothing |
| DuckDuckGoStrategy.ParseProperties | SearchEngineFilter/searchFilter/DataScraper/SearchEngineStrategy.py:489-613 | without failure every entry names DuckDuckGo with a title and a link, results come first and everything after them is flagged |
| DuckDuckGoStrategy.VisitResult | SearchEngineFilter/searchFilter/DataScraper/SearchEngineStrategy.py:489-525 | one result yields `ResultEntry` |
| DuckDuckGoStrategy.ScanResults | SearchEngineFilter/searchFilter/DataScraper/SearchEngineStrategy.py:489-525 | the results loop appends exactly the results' entries |
| DuckDuckGoStrategy.VisitAd | SearchEngineFilter/searchFilter/DataScraper/SearchEngineStrategy.py:539-567 | one explicit ad yields `AdEntry` |
| DuckDuckGoStrategy.ScanAds | SearchEngineFilter/searchFilter/DataScraper/SearchEngineStrategy.py:537-567 | the ad loop stops at the first raising ad |
| DuckDuckGoStrategy.VisitPromo | SearchEngineFilter/searchFilter/DataScraper/SearchEngineStrategy.py:581-607 | one promo yields `PromoEntry` |
| DuckDuckGoStrategy.ScanPromos | SearchEngineFilter/searchFilter/DataScraper/SearchEngineStrategy.py:580-607 | the promo loop appends exactly the promos' entries |
| DuckDuckGoStrategy.ParseResults | SearchEngineFilter/searchFilter/DataScraper/SearchEngineStrategy.py:418-613 | `parse_results` returns `Parse(soup)`, including its `KeyError` |
| YahooStrategy.BuildSearchUrl | SearchEngineFilter/searchFilter/DataScraper/SearchEngineStrategy.py:618-623 | the URL is `https://search.yahoo.com/search?p=` followed by the quoted keyword, failing exactly when a `bytes` keyword does not decode |
| YahooStrategy.BuildSearchUrlParses | SearchEngineFilter/searchFilter/DataScraper/SearchEngineStrategy.py:618-623 | the URL parses back to host `search.yahoo.com`, path `/search` and `p` = the keyword |
| YahooStrategy.IsLikelyAd | SearchEngineFilter/searchFilter/DataScraper/SearchEngineStrategy.py:658-681 | Yahoo's `is_likely_ad` is the common test with Yahoo's URL and markup indicators |
| YahooStrategy.MixedCaseIgnored | SearchEngineFilter/searchFilter/DataScraper/SearchEngineStrategy.py:645-656 | the mixed-case markup indicators never match the lowered markup |
| YahooStrategy.CleanHref | SearchEngineFilter/searchFilter/DataScraper/SearchEngineStrategy.py:683-692 | `_clean_href` returns nothing exactly for a missing or empty href; the `ValueError` of an invalid network location is left out |
| YahooStrategy.RedirectUnwraps | SearchEngineFilter/searchFilter/DataScraper/SearchEngineStrategy.py:683-692 | an `r.search.yahoo.com` redirect yields the unquoted segment after `/RU=` up to the next `/` |
| YahooStrategy.CleanRedirect | SearchEngineFilter/searchFilter/DataScraper/SearchEngineStrategy.py:689-691 | a redirect link is the unquoted first `/`-segment of the second `/RU=` part |
| YahooStrategy.RedirectTarget | SearchEngineFilter/searchFilter/DataScraper/SearchEngineStrategy.py:691 | the segment read is exactly the target written after `/RU=` |
| YahooStrategy.OtherLinkKept | SearchEngineFilter/searchFilter/DataScraper/SearchEngineStrategy.py:683-692 | a link that is not a Yahoo redirect is returned unchanged |
| YahooStrategy.ItemVerdict | SearchEngineFilter/searchFilter/DataScraper/SearchEngineStrategy.py:700-754 | an item is an ad exactly when its classes contain `ad`, its beacon says ad, its lowered markup holds an indicator, its link or title looks like an ad, or its markup holds `price-section` (the `compShoppingSummary` test never matches lowered markup) |
| YahooStrategy.ItemEntry | SearchEngineFilter/searchFilter/DataScraper/SearchEngineStrategy.py:698-770 | an item yields an entry exactly when it has a title and a link; it is flagged exactly when it is an ad or a promo |
| YahooStrategy.AdEntry | SearchEngineFilter/searchFilter/DataScraper/SearchEngineStrategy.py:782-805 | an ad element yields an entry exactly when no earlier entry has its first 50 characters as title and it has a title and a link; it is flagged |
| YahooStrategy.PromoTitle | SearchEngineFilter/searchFilter/DataScraper/SearchEngineStrategy.py:825-833 | the promo title is the `h3`/`h4` text when non-empty, else the link text |
| YahooStrategy.PromoEntry | SearchEngineFilter/searchFilter/DataScraper/SearchEngineStrategy.py:819-847 | a promo element yields an entry exactly when it is not already seen and has a title and a link; it is flagged |
| YahooStrategy.ParseProperties | SearchEngineFilter/searchFilter/DataScraper/SearchEngineStrategy.py:695-853 | every entry names Yahoo with a title and a link; the items come first and everything after them is flagged |
| YahooStrategy.ShortBlockAddedOnce | SearchEngineFilter/searchFilter/DataScraper/SearchEngineStrategy.py:785-786 | a block whose text is its title and at most 50 characters long is not added twice |
| YahooStrategy.LongerBlockAddedAgain | SearchEngineFilter/searchFilter/DataScraper/SearchEngineStrategy.py:785-786 | a block whose first 50 characters differ from its title is added again when matched again: the seen test compares a prefix of the text, not the title |
| YahooStrategy.MarkItem | SearchEngineFilter/searchFilter/DataScraper/SearchEngineStrategy.py:700-720 | the class, beacon and markup marks |
| YahooStrategy.ReadItem | SearchEngineFilter/searchFilter/DataScraper/SearchEngineStrategy.py:722-740 | title, link and description (with its fallbacks) read off an item |
| YahooStrategy.VisitItem | SearchEngineFilter/searchFilter/DataScraper/SearchEngineStrategy.py:698-770 | one item yields `ItemEntry` |
| YahooStrategy.ScanItems | SearchEngineFilter/searchFilter/DataScraper/SearchEngineStrategy.py:698-770 | the item loop appends exactly the items' entries |
| YahooStrategy.VisitAd | SearchEngineFilter/searchFilter/DataScraper/SearchEngineStrategy.py:783-805 | one ad element yields `AdEntry` against the results so far |
| YahooStrategy.ScanAds | SearchEngineFilter/searchFilter/DataScraper/SearchEngineStrategy.py:782-805 | the ad loops append exactly the ad entries |
| YahooStrategy.VisitPromo | SearchEngineFilter/searchFilter/DataScraper/SearchEngineStrategy.py:820-847 | one promo yields `PromoEntry` against the results so far |
| YahooStrategy.ScanPromos | SearchEngineFilter/searchFilter/DataScraper/SearchEngineStrategy.py:819-847 | the promo loops append exactly the promo entries |
| YahooStrategy.ParseResults | SearchEngineFilter/searchFilter/DataScraper/SearchEngineStrategy.py:625-853 | `parse_results` returns `Parse(soup)` |
| RequestHandler.SelectorsFor | SearchEngineFilter/searchFilter/DataScraper/RequestHandler.py:61-72 | Google's wait selectors when the host contains `google.`, else Bing's when it contains `bing.`, else `body` |
| RequestHandler.PageSelectors | SearchEngineFilter/searchFilter/DataScraper/RequestHandler.py:62 | the selectors are chosen on the host that `urlparse` reads off a page URL |
| RequestHandler.GoogleTestedFirst | SearchEngineFilter/searchFilter/DataScraper/RequestHandler.py:63-67 | a host containing both `google.` and `bing.` gets Google's selectors |
| RequestHandler.EngineSelectors | SearchEngineFilter/searchFilter/DataScraper/RequestHandler.py:61-72 | the four engines' hosts get Google's, Bing's, and the generic selectors |
| RequestHandler.Get | SearchEngineFilter/searchFilter/DataScraper/RequestHandler.py:17-59 | `get` raises exactly when the browser cannot start; otherwise it quits the browser and returns the page body or the placeholder page of the exception |
| RequestHandler.GetWaitsForUrl | SearchEngineFilter/searchFilter/DataScraper/RequestHandler.py:35-43 | after a successful load it waits on the selectors picked for the URL |
| RequestHandler.WaitTimeoutIgnored | SearchEngineFilter/searchFilter/DataScraper/RequestHandler.py:44-45 | a timeout while waiting changes nothing |
| RequestHandler.GetReturnsBody | SearchEngineFilter/searchFilter/DataScraper/RequestHandler.py:37-57 | when the load, the wait (or its timeout) and the script succeed, the body is returned; a load that raises returns that exception's placeholder |
| RequestHandler.PlaceholdersDistinct | SearchEngineFilter/searchFilter/DataScraper/RequestHandler.py:49-57 | the three placeholder pages are distinct |
| RequestHandler.RaiseForStatus | SearchEngineFilter/searchFilter/DataScraper/RequestHandler.py:78 | `raise_for_status` raises `HTTPError` exactly for a status from 400 to 599 |
| RequestHandler.GetWithFallback | SearchEngineFilter/searchFilter/DataScraper/RequestHandler.py:84-96 | the text is returned exactly when the request succeeds with a status outside 400..599; a `requests` failure becomes `TimeoutError(url, cause)`; other exceptions pass through |
| RequestHandler.WithoutJsAgreesWithFallback | SearchEngineFilter/searchFilter/DataScraper/RequestHandler.py:74-82 | `get_html_without_js` returns what `get_with_fallback` returns, and the empty string where that raises |
| SearchUrl.EngineStrategy | SearchEngineFilter/searchFilter/DataScraper/SearchUrl.py:24-31 | each engine class maps to its strategy |
| SearchUrl.PageUrlRoundTrip | SearchEngineFilter/searchFilter/DataScraper/SearchUrl.py:24-33 | the page offset can be read back off each engine's page URL |
| SearchUrl.PageUrlsDistinct | SearchEngineFilter/searchFilter/DataScraper/SearchUrl.py:24-33 | distinct offsets give distinct page URLs for the four engines; another strategy always fetches the same URL |
| SearchUrl.Dedup | SearchEngineFilter/searchFilter/DataScraper/SearchUrl.py:39-52 | the page loop keeps the results so far and adds at most one entry per result |
| SearchUrl.LinksAppend | SearchEngineFilter/searchFilter/DataScraper/SearchUrl.py:45 | appending an entry adds its link to the seen links |
| SearchUrl.DedupLinks | SearchEngineFilter/searchFilter/DataScraper/SearchUrl.py:39-52 | `seen_links` is exactly the set of links of the results kept |
| SearchUrl.AdsFreshAppend | SearchEngineFilter/searchFilter/DataScraper/SearchUrl.py:42-45 | an entry that is not skipped keeps every ad's link non-empty and new |
| SearchUrl.DedupAdsFresh | SearchEngineFilter/searchFilter/DataScraper/SearchUrl.py:39-52 | after the page loop no ad/promo entry has an empty link or a link of an earlier entry |
| SearchUrl.Organic | SearchEngineFilter/searchFilter/DataScraper/SearchUrl.py:42 | the organic entries are those not flagged |
| SearchUrl.DedupKeepsOrganic | SearchEngineFilter/searchFilter/DataScraper/SearchUrl.py:42-43 | every organic result is kept, duplicates included: only ads are deduplicated |
| SearchUrl.DedupAllOrganic | SearchEngineFilter/searchFilter/DataScraper/SearchUrl.py:39-52 | a page of organic results is appended whole |
| SearchUrl.DedupNothing | SearchEngineFilter/searchFilter/DataScraper/SearchUrl.py:54 | a page adds nothing exactly when every result was skipped, and then nothing changes |
| SearchUrl.KeepNew | SearchEngineFilter/searchFilter/DataScraper/SearchUrl.py:39-52 | the loop over a page computes `Dedup` |
| SearchUrl.CyclesContinue | SearchEngineFilter/searchFilter/DataScraper/SearchUrl.py:21-60 | a cycle that neither fails nor stops requests the page and continues from the next offset |
| SearchUrl.GetSearchResults | SearchEngineFilter/searchFilter/DataScraper/SearchUrl.py:15-73 | `get_search_results` returns the result and makes the requests that `Run` gives |
| SearchUrl.CyclesRequest | SearchEngineFilter/searchFilter/DataScraper/SearchUrl.py:21-60 | the cycles request the page URLs for offsets 0, 10, 20, ... in order, and request something exactly when fewer than 250 results are held |
| SearchUrl.RunRequests | SearchEngineFilter/searchFilter/DataScraper/SearchUrl.py:15-73 | a search requests nothing exactly when the URL cannot be built, and then fails with that error; the i-th request is for offset `10 * i` |
| SearchUrl.CyclesAdsFresh | SearchEngineFilter/searchFilter/DataScraper/SearchUrl.py:21-60 | every cycle keeps earlier results as a prefix and keeps the ads fresh |
| SearchUrl.RunAdsFresh | SearchEngineFilter/searchFilter/DataScraper/SearchUrl.py:15-73 | the returned results hold no ad/promo with an empty or repeated link |
| SearchUrl.CyclesStop | SearchEngineFilter/searchFilter/DataScraper/SearchUrl.py:54-55 | the cycles stop with at least `total` results, with 250, or on a page that added nothing |
| SearchUrl.RunStop | SearchEngineFilter/searchFilter/DataScraper/SearchUrl.py:21-55 | a search that succeeds stopped at `total`, at the 250 guard, or on a page that added nothing |
| SearchUrl.FirstPageKeptWhole | SearchEngineFilter/searchFilter/DataScraper/SearchUrl.py:54-55 | an organic first page of at least `total` results is returned whole, untruncated, after one request |
| LegacySearchUrl.NumPages | searchFilter/DataScraper/SearchUrl.py:18 | the page count is the ceiling of `total / 10`, and none for a total of zero or less |
| LegacySearchUrl.PageUrlsDistinct | searchFilter/DataScraper/SearchUrl.py:21-23 | distinct pages give distinct URLs |
| LegacySearchUrl.SlicePrefix | searchFilter/DataScraper/SearchUrl.py:33 | `results[:n]` is a prefix of length `min(n, len)` for `n >= 0` |
| LegacySearchUrl.GetSearchResults | searchFilter/DataScraper/SearchUrl.py:14-33 | the earlier `get_search_results` returns the result and makes the requests that `Search` gives |
| LegacySearchUrl.CollectUnfold | searchFilter/DataScraper/SearchUrl.py:20-30 | a page that does not reach `total` is requested and the loop moves to the next page |
| LegacySearchUrl.CollectRequests | searchFilter/DataScraper/SearchUrl.py:20-23 | at most `num_pages` requests, for pages 0, 1, 2, ... in order |
| LegacySearchUrl.CollectJoined | searchFilter/DataScraper/SearchUrl.py:26-27 | the results are the concatenated pages requested |
| LegacySearchUrl.CollectStopsFirst | searchFilter/DataScraper/SearchUrl.py:29-30 | before the last request fewer than `total` results were held |
| LegacySearchUrl.CollectStopsEarly | searchFilter/DataScraper/SearchUrl.py:29-30 | stopping before the last page means `total` was reached |
| LegacySearchUrl.SearchTruncates | searchFilter/DataScraper/SearchUrl.py:14-33 | the result is the collected results cut to `total`, and nothing is requested for a total of zero or less |
| LegacyGoogleStrategy.BuildSearchUrl | searchFilter/DataScraper/SearchEngineStrategy.py:18-24 | the earlier Google URL, failing exactly when a `bytes` keyword does not decode |
| LegacyGoogleStrategy.SameSearchUrl | searchFilter/DataScraper/SearchEngineStrategy.py:18-24 | the earlier and the current Google strategies build the same URL |
| LegacyGoogleStrategy.Classify | searchFilter/DataScraper/SearchEngineStrategy.py:33-53 | a block's record: the first anchor's href, the unstripped `.text` of the `h3` and of the description, and the ad marker test on the marker's stripped, lowered `.text` |
| LegacyGoogleStrategy.ParseOnePerBlock | searchFilter/DataScraper/SearchEngineStrategy.py:26-54 | nothing without the `rso` container, otherwise one record per block in order, even when fields are missing |
| LegacyGoogleStrategy.AdMarkerCaseless | searchFilter/DataScraper/SearchEngineStrategy.py:45 | the marker test ignores case |
| LegacyGoogleStrategy.AdMarkerWholeText | searchFilter/DataScraper/SearchEngineStrategy.py:45 | only the whole stripped text `ad` or `sponsored` is a marker |
| LegacyGoogleStrategy.VisitItem | searchFilter/DataScraper/SearchEngineStrategy.py:34-53 | one block yields `Classify`, reading the tags' `.text` |
| LegacyGoogleStrategy.ParseResults | searchFilter/DataScraper/SearchEngineStrategy.py:26-54 | the earlier `parse_results` returns `Parse(soup)`: one `Classify` record per block, with the unstripped `.text` title and description |
| SearchQueryAdd.Mask | SearchEngineFilter/searchFilter/DataInsertAndAccess/SearchQueryAdd.py:34-35 | the positions where the whole-word, case-blind pattern matches |
| SearchQueryAdd.ScanSound | SearchEngineFilter/searchFilter/DataInsertAndAccess/SearchQueryAdd.py:35 | the scan returns increasing, non-overlapping match positions |
| SearchQueryAdd.ScanLeftmost | SearchEngineFilter/searchFilter/DataInsertAndAccess/SearchQueryAdd.py:35 | every match position is returned or lies inside a returned match |
| SearchQueryAdd.ScanBound | SearchEngineFilter/searchFilter/DataInsertAndAccess/SearchQueryAdd.py:35 | the number of matches times the keyword length is bounded by the text length |
| SearchQueryAdd.FindAllSound | SearchEngineFilter/searchFilter/DataInsertAndAccess/SearchQueryAdd.py:35 | `re.findall` returns increasing positions where the keyword matches, non-overlapping |
| SearchQueryAdd.FindAllLeftmost | SearchEngineFilter/searchFilter/DataInsertAndAccess/SearchQueryAdd.py:35 | `re.findall` misses no match except those inside an earlier one |
| SearchQueryAdd.BoundaryCaseless | SearchEngineFilter/searchFilter/DataInsertAndAccess/SearchQueryAdd.py:34 | `\b` does not depend on case |
| SearchQueryAdd.MatchCaseless | SearchEngineFilter/searchFilter/DataInsertAndAccess/SearchQueryAdd.py:35 | a match does not depend on the case of text or keyword |
| SearchQueryAdd.FindAllCaseless | SearchEngineFilter/searchFilter/DataInsertAndAccess/SearchQueryAdd.py:35 | the matches do not depend on case |
| SearchQueryAdd.GetCount | SearchEngineFilter/searchFilter/DataInsertAndAccess/SearchQueryAdd.py:30-35 | `get_count` is 0 for an empty html or keyword and otherwise the number of whole-word matches, at most `len(html) / len(keyword)` |
| SearchQueryAdd.GetCountCaseless | SearchEngineFilter/searchFilter/DataInsertAndAccess/SearchQueryAdd.py:35 | `IGNORECASE`: lowering html and keyword does not change the count |
| SearchQueryAdd.LeadingWordCounted | SearchEngineFilter/searchFilter/DataInsertAndAccess/SearchQueryAdd.py:34-35 | a keyword standing as a whole word at the start of the html is counted |
| SearchQueryAdd.AddUrlHtmlData | SearchEngineFilter/searchFilter/DataInsertAndAccess/SearchQueryAdd.py:12-27 | the stored row carries the row id, the html and its keyword count, and fails exactly when persistence fails |
| SearchQueryAdd.FlattenLength | SearchEngineFilter/searchFilter/DataInsertAndAccess/SearchQueryAdd.py:49-50 | the nested loops visit every entry once |
| SearchQueryAdd.CountAds | SearchEngineFilter/searchFilter/DataInsertAndAccess/SearchQueryAdd.py:51-54 | the ad counter is at most the number of results |
| SearchQueryAdd.CountAdsAppend | SearchEngineFilter/searchFilter/DataInsertAndAccess/SearchQueryAdd.py:51-54 | the ad counter adds up over concatenation |
| SearchQueryAdd.FirstFault | SearchEngineFilter/searchFilter/DataInsertAndAccess/SearchQueryAdd.py:56-63 | the first persistence failure over the entries, or none exactly when none fails |
| SearchQueryAdd.AddSearchProperties | SearchEngineFilter/searchFilter/DataInsertAndAccess/SearchQueryAdd.py:39-67 | `add_search_results` succeeds exactly when no entry fails to persist; then it counts every result, bounds the ads by it, and stores one row per entry in order |
| SearchQueryAdd.AddSearchResults | SearchEngineFilter/searchFilter/DataInsertAndAccess/SearchQueryAdd.py:39-67 | the nested loops compute `AddSearch` |
| SearchQueryAdd.FaultStops | SearchEngineFilter/searchFilter/DataInsertAndAccess/SearchQueryAdd.py:49-65 | the first failing entry is the failure of the whole call |
| DataScraper.Strategies | SearchEngineFilter/searchFilter/DataScraper/DataScraper.py:102-112 | the engines are searched in the order Google, Bing, DuckDuckGo, Yahoo |
| DataScraper.GatherOrder | SearchEngineFilter/searchFilter/DataScraper/DataScraper.py:122-131 | when every search succeeds, all engines are searched in order and each engine's results are kept in its slot |
| DataScraper.GatherFailure | SearchEngineFilter/searchFilter/DataScraper/DataScraper.py:114-144 | a failed search is the first engine that raised; the engines after it are not searched |
| DataScraper.GatherFailsIff | SearchEngineFilter/searchFilter/DataScraper/DataScraper.py:122-131 | the loop fails exactly when some engine's search raises |
| DataScraper.GatherFailed | SearchEngineFilter/searchFilter/DataScraper/DataScraper.py:122-131 | once an engine raised, later engines change nothing |
| DataScraper.GetUrlsFound | SearchEngineFilter/searchFilter/DataScraper/DataScraper.py:114-139 | a successful `get_urls` answers each engine's search results; its printed tally counts every result and at most that many ads |
| DataScraper.GetUrlsFailed | SearchEngineFilter/searchFilter/DataScraper/DataScraper.py:140-144 | `get_urls` answers `success: False` exactly when some engine's search raises or storing the results fails |
| DataScraper.Tally | SearchEngineFilter/searchFilter/DataScraper/DataScraper.py:125-128 | the counting loop adds the results and the ads |
| DataScraper.SearchEngine | SearchEngineFilter/searchFilter/DataScraper/DataScraper.py:123 | one engine's `search(keyword, url_size)` |
| DataScraper.GetUrls | SearchEngineFilter/searchFilter/DataScraper/DataScraper.py:97-144 | `get_urls` answers what `GetUrlsSpec` gives, and searched the engines `Gather` lists |
| DataScraper.Populate | SearchEngineFilter/searchFilter/DataScraper/DataScraper.py:40-52 | at most one record per row |
| DataScraper.PopulateOrder | SearchEngineFilter/searchFilter/DataScraper/DataScraper.py:42-51 | the records come from the qualifying rows whose fetch and store succeed, in row order, and every such row gives one |
| DataScraper.PopulatePicked | SearchEngineFilter/searchFilter/DataScraper/DataScraper.py:44-47 | each record carries its row's id and the keyword count of its html |
| DataScraper.RequestedQualifying | SearchEngineFilter/searchFilter/DataScraper/DataScraper.py:43-45 | exactly the URLs of rows that are not ads and not yet scraped are requested |
| DataScraper.ParseListOfSearches | SearchEngineFilter/searchFilter/DataScraper/DataScraper.py:40-52 | `parse_list_of_searches_and_populate_url_data` returns `Populate` and requests `Requested` |
| ShowSearchesView.FindGroup | searchEngineFrontEnd/src/components/organization/ShowSearches.tsx:32 | looking up an engine's group gives one with that engine, or none exists |
| ShowSearchesView.Engines | searchEngineFrontEnd/src/components/organization/ShowSearches.tsx:38 | the engines list has one engine per group, in order |
| ShowSearchesView.FirstSeenFacts | searchEngineFrontEnd/src/components/organization/ShowSearches.tsx:29-38 | the engines are distinct and include every item's engine |
| ShowSearchesView.FirstSeenNonEmpty | searchEngineFrontEnd/src/components/organization/ShowSearches.tsx:29-36 | every listed engine has at least one item |
| ShowSearchesView.ByEngineUnseen | searchEngineFrontEnd/src/components/organization/ShowSearches.tsx:29-36 | an engine without items has an empty list |
| ShowSearchesView.GroupsOfSpec | searchEngineFrontEnd/src/components/organization/ShowSearches.tsx:29-38 | the groups are the engines in first-seen order, each holding its items in list order |
| ShowSearchesView.ItemInOneGroup | searchEngineFrontEnd/src/components/organization/ShowSearches.tsx:29-36 | every item lands in the group of its engine, and the groups' engines are distinct |
| ShowSearchesView.GroupBySearchEngine | searchEngineFrontEnd/src/components/organization/ShowSearches.tsx:29-36 | the `forEach` over the list builds `GroupsOf(urlList)` |
| ShowSearchesView.Organic | searchEngineFrontEnd/src/components/organization/ShowSearches.tsx:53 | only items with `ad_promo === false` remain, each an item of the input |
| ShowSearchesView.OrganicPicks | searchEngineFrontEnd/src/components/organization/ShowSearches.tsx:53 | the filter keeps exactly the positions whose `ad_promo` is `false`, in their original order |
| ShowSearchesView.OrganicKeepsAll | searchEngineFrontEnd/src/components/organization/ShowSearches.tsx:53 | every item with `ad_promo === false` is kept |
| ShowSearchesView.OrganicUrlsKept | searchEngineFrontEnd/src/components/organization/ShowSearches.tsx:53 | the kept items' URLs are exactly the URLs of the organic items |
| ShowSearchesView.FirstOfEachUrlSpec | searchEngineFrontEnd/src/components/organization/ShowSearches.tsx:54-58 | the filter keeps the first item of each URL: the URLs are the same, none repeats, and each kept item has no earlier item with its URL; the kept positions are exactly the first of each URL, in the original order |
| ShowSearchesView.FirstOfEachUrlPicks | searchEngineFrontEnd/src/components/organization/ShowSearches.tsx:54-58 | the `seen` filter keeps exactly the positions with no earlier item of the same URL, in order |
| ShowSearchesView.FilteredPicks | searchEngineFrontEnd/src/components/organization/ShowSearches.tsx:52-58 | the two filters together keep exactly the positions of the first organic item of each URL, in order |
| ShowSearchesView.FilterItems | searchEngineFrontEnd/src/components/organization/ShowSearches.tsx:50-59 | the `seen`-set filter computes `Filtered` |
| ShowSearchesView.FilteredSpec | searchEngineFrontEnd/src/components/organization/ShowSearches.tsx:50-59 | the shown items are organic items of the selected engine, with distinct URLs, whose URLs are exactly those of the engine's organic items; they are exactly the first organic item of each URL, in the engine's order |
| ShowSearchesView.SliceIndex | searchEngineFrontEnd/src/components/organization/ShowSearches.tsx:61-64 | a JavaScript slice index resolves to a position within the array |
| ShowSearchesView.PageCount | searchEngineFrontEnd/src/components/organization/ShowSearches.tsx:129 | `Math.ceil(n / 10)` pages |
| ShowSearchesView.PageOf | searchEngineFrontEnd/src/components/organization/ShowSearches.tsx:61-64 | a page holds at most 10 items: the items from `(page-1)*10` up to `page*10`, or nothing past the end |
| ShowSearchesView.PagesCover | searchEngineFrontEnd/src/components/organization/ShowSearches.tsx:61-64 | each item is on page `i/10 + 1`, within the page count, and on no other page unless it is repeated |
| ShowSearchesView.EnginesWithLink | searchEngineFrontEnd/src/components/organization/ShowSearches.tsx:66-73 | at most one engine per group |
| ShowSearchesView.EnginesWithLinkSpec | searchEngineFrontEnd/src/components/organization/ShowSearches.tsx:66-73 | an engine is listed exactly when its group holds an item with the URL, in group order |
| ShowSearchesView.EnginesWithLinkPicks | searchEngineFrontEnd/src/components/organization/ShowSearches.tsx:66-73 | the listed engines are those of exactly the groups holding the URL, in group order |
| ShowSearchesView.EnginesWithLinkOnce | searchEngineFrontEnd/src/components/organization/ShowSearches.tsx:29-73 | on the map built from a list, each engine is listed once, in first-seen order, exactly when it has an item with the URL |
| ShowSearchesView.EngineLabel | searchEngineFrontEnd/src/components/organization/ShowSearches.tsx:75 | no engine gives the empty string |
| ShowSearchesView.EngineLabelReadsBack | searchEngineFrontEnd/src/components/organization/ShowSearches.tsx:66-76 | splitting the label at `, ` gives back the engines |
| ShowSearchesView.SearchEngineWithThisLink | searchEngineFrontEnd/src/components/organization/ShowSearches.tsx:66-76 | the loop over the groups computes `EngineLabel` |
| ShowSearchesView.ShowSearches.constructor | searchEngineFrontEnd/src/components/organization/ShowSearches.tsx:18-39 | the component starts on page 1 with the first engine seen, or the empty string |
| ShowSearchesView.ShowSearches.HandlePageChange | searchEngineFrontEnd/src/components/organization/ShowSearches.tsx:22-27 | a page change sets the page and keeps the engine |
| ShowSearchesView.ShowSearches.HandleChange | searchEngineFrontEnd/src/components/organization/ShowSearches.tsx:41-44 | an engine change selects it and resets to page 1, so the first ten of its filtered items are shown |

## Left out

- I/O and timing are left out: starting Chrome, the `requests` calls,
  `time.sleep`, `random.uniform`, the debug `print`s and the HTML sample
  files that `parse_results` writes. Fetch outcomes are parameters.
- BeautifulSoup parsing and CSS selector matching are not modelled. A page is given
  as the elements each selector matches, in document order, and an element
  as its markup, texts, classes, attributes and the tag each `find`
  returns. A bs4 tag is always truthy, so a found tag is `Some`.
- The Django ORM and raw SQL are not modelled. Persistence is a parameter that says
  which write fails. `get_or_create`, the timestamps and the
  `SearchEngine`, `SearchTermMapping` and `SearchUrls` rows are reduced to
  the stored values the loops build (`StoredFor`, `UrlData`).
- `get_list_of_search_urls`, `GetSQLData.py`, `views.py`, `urls.py`,
  `models.py` and the `JsonResponse` shaping are outside this model. They are the
  request layer and persistence.
- The UI is not modelled: React rendering, `handleCardClick` (`window.open`), and
  the other components (`ScrapeUrls`, `Header`, `App`, `GetUrls`,
  `TablePopulation`).
- An `ad_promo` field that is missing or not a boolean is `None` in the
  front end's items, which never equals `false`. The time fields of the
  stored rows play no part in the logic modelled and are left out.
- The legacy `searchFilter/DataScraper/DataScraper.py` and
  `RequestHandler.py` are thin wrappers around I/O and are not modelled.
- Text handling is ASCII only. `str.lower`, the `\w` of `\b` in `get_count`,
  and `re.IGNORECASE` are modelled for ASCII letters and digits and `_`.
  Python's Unicode case mapping and Unicode word characters are not modelled.
- `urlsplit`'s three `ValueError` checks on the network location are not
  modelled:
  - an unbalanced bracket ("Invalid IPv6 URL");
  - a bracketed network location with text before `[`, text after `]`
    that does not start with `:`, or a bracketed host that is not an IP
    address (Python 3.11.4 and later), as in `https://a[b]/` or
    `https://[x]/`;
  - a non-ASCII network location whose NFKC form holds one of `/?#@:`,
    as in `https://a／b/` or `https://a℀b/`.
  The hrefs `_clean_href` receives come from the page, so such an href
  makes the source's `parse_results` raise, and `get_urls` then answers
  `success: False`. Bing raises on an absolute href through `urlparse`.
  Google, DuckDuckGo and Yahoo raise on a rooted href such as `//a[b]/x`
  or `//a／b/x` through `urljoin`. For such an href the model's
  `CleanHref` and `Parse` return a value instead.
- GoogleStrategy.CleanHrefNeverUnwraps: does not promise the `ValueError`
  that `urljoin` raises on a rooted href with an invalid network
  location (`//a[b]/x`, `//a／b/x`); the model returns the joined href,
  because `urlsplit`'s network-location checks are not modelled.
- DuckDuckGoStrategy.CleanHrefNeverUnwraps: does not promise the
  `ValueError` that `urljoin` raises on a rooted href with an invalid
  network location (`//a[b]/x`); the model returns the joined href, for
  the same reason.
- BingStrategy.CleanHref: does not promise the `ValueError` that
  `urlparse` raises on an href with an invalid network location
  (`https://a[b]/`, `https://a／b/`); the model returns a link, for the
  same reason.
- YahooStrategy.CleanHref: does not promise the `ValueError` that
  `urljoin` raises on a rooted href with an invalid network location
  (`//a[b]/x`); the model returns a link, for the same reason.
- Both paginators take fetching a page and parsing it with the strategy
  together, as one function from page URL to entries or an error. A page
  fetched twice therefore gives the same answer both times.
- The `JsonResponse` of `get_urls` is a Dafny value (`Response`): the
  lists found, or the raised `Error` standing for its text `str(e)`.
  The `total` and `ads` fields of `Found` stand for the tally the code
  only prints (`total_count`, `ad_promo_count`). They are not part of
  the JSON answer, which holds just `success` and `urls`.
- `Dom.Tag` records a tag's `get_text(strip=True)` and its `.text`
  (`get_text()`) as two given strings. How bs4 computes either from the
  tag's descendant strings is not modelled, so the model does not relate
  the two.
- The earlier Google strategy reads the result blocks as the matches of
  `div#rso div.yuRUbf`, which takes blocks under any `div#rso`. The code
  searches only inside the first `div#rso` (`soup.find` then
  `container.find_all`). The two agree when one element has the id `rso`,
  as an HTML id is meant to be unique; a page with several is not modelled.
- The cross-engine failure isolation, output truncation, cancellation and
  concurrency that the code does not have are not modelled.
