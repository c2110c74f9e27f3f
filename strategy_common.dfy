/** What the four engine strategies share: building the search URL from a
    keyword, the substring scans behind `is_likely_ad`, resolving rooted
    hrefs, and the append-as-you-go shape of every `parse_results`. */
module StrategyCommon {
  import opened Wrappers
  import opened Text
  import opened Dom
  import opened SearchTypes
  import opened UrlLib
  import Utf8

  /** `build_search_url` accepts a `str` or, through `isinstance(keyword,
      bytes)`, a `bytes` object that it decodes as UTF-8 first. */
  datatype Keyword = Str(s: string) | Bytes(b: seq<Utf8.byte>)

  /** `keyword.decode('utf-8')` for bytes; a `str` is used as it is. */
  function DecodeKeyword(k: Keyword): (r: Result<string, Error>)
    ensures k.Str? ==> r == Success(k.s)
    ensures k.Bytes? ==> (r.Success? <==> Utf8.Decode(k.b).Some?)
    ensures k.Bytes? && r.Failure? ==> r.error == UnicodeDecodeError
  {
    match k
    case Str(s) => Success(s)
    case Bytes(b) =>
      match Utf8.Decode(b)
      case Some(s) => Success(s)
      case None => Failure(UnicodeDecodeError)
  }

  predicate IsQueryName(name: string) {
    name != "" && NoneOf(name, {'&', '=', '%', '+', '#', '\t', '\r', '\n'})
  }

  /** `f"{base_url}?{name}={quote_plus(keyword)}"`. The query part is
      inert in a URL (no '&', '#', '=', '?' or space) and decodes back to
      the keyword. */
  function SearchUrl(base: string, name: string, k: Keyword): (r: Result<string, Error>)
    ensures r.Success? <==> DecodeKeyword(k).Success?
    ensures r.Failure? ==> r == Failure(DecodeKeyword(k).error)
    ensures r.Success? ==>
      var prefix := base + "?" + name + "=";
      StartsWith(r.value, prefix)
      && UnquotePlus(r.value[|prefix|..]) == DecodeKeyword(k).value
      && !Contains(r.value[|prefix|..], "&") && !Contains(r.value[|prefix|..], "#")
      && !Contains(r.value[|prefix|..], "=") && !Contains(r.value[|prefix|..], "?")
      && !Contains(r.value[|prefix|..], " ")
  {
    match DecodeKeyword(k)
    case Failure(e) => Failure(e)
    case Success(s) =>
      var prefix := base + "?" + name + "=";
      var url := prefix + QuotePlus(s);
      assert url[..|prefix|] == prefix && url[|prefix|..] == QuotePlus(s);
      QuotePlusRoundTrip(s);
      QuotePlusIsQueryValue(s);
      Success(url)
  }

  /** A bytes keyword holding the UTF-8 encoding of a text builds the
      same URL as the text itself. */
  lemma BytesKeywordSameUrl(base: string, name: string, s: string)
    ensures SearchUrl(base, name, Bytes(Utf8.Encode(s))) == SearchUrl(base, name, Str(s))
  {
    Utf8.DecodeEncode(s);
  }

  lemma HttpsFacts(host: string)
    ensures IsLowerAlpha("https") && "https" in UsesRelative && "https" in UsesNetloc && "https" in UsesParams
    ensures "https" + "://" + host == "https://" + host
  {
  }

  lemma QuotePlusNonEmpty(s: string)
    requires s != ""
    ensures QuotePlus(s) != ""
  {
    QuotePlusRoundTrip(s);
  }

  lemma QuotedNoneOf(s: string)
    ensures NoneOf(QuotePlus(s), {'&', '#', '\t', '\r', '\n'})
  {
    QuotePlusIsQueryValue(s);
  }

  /** Parsing the built URL back with `urlparse` and `parse_qs` gives the
      keyword under the query name (parse_qs drops an empty value, so the
      empty keyword gives nothing), and the path is the engine's own. */
  lemma SearchUrlRoundTrip(host: string, path: string, name: string, k: Keyword)
    requires IsPlainHost(host) && StartsWith(path, "/") && NoneOf(path, {'?', '#', ';', '\t', '\r', '\n'})
    requires IsQueryName(name)
    requires SearchUrl("https://" + host + path, name, k).Success?
    ensures var p := UrlParse(SearchUrl("https://" + host + path, name, k).value, "");
      && p.scheme == "https" && p.netloc == host && p.path == path
      && QueryValue(p.query, name) == (if DecodeKeyword(k).value == "" then None else Some(DecodeKeyword(k).value))
  {
    var s := DecodeKeyword(k).value;
    SearchUrlValue("https://" + host + path, name, k);
    KeywordUrlParse(host, path, name, s);
    QueryOfKeyword(name, s);
  }

  lemma SearchUrlValue(base: string, name: string, k: Keyword)
    requires SearchUrl(base, name, k).Success?
    ensures SearchUrl(base, name, k).value == base + "?" + (name + "=" + QuotePlus(DecodeKeyword(k).value))
  {
    var d := DecodeKeyword(k);
    var prefix := base + "?" + name + "=";
    assert SearchUrl(base, name, k) == Success(prefix + QuotePlus(d.value)) by {
      assert d.Success?;
    }
    assert prefix + QuotePlus(d.value) == base + "?" + (name + "=" + QuotePlus(d.value));
  }

  lemma KeywordUrlParse(host: string, path: string, name: string, s: string)
    requires IsPlainHost(host) && StartsWith(path, "/") && NoneOf(path, {'?', '#', ';', '\t', '\r', '\n'})
    requires IsQueryName(name)
    ensures var query := name + "=" + QuotePlus(s);
      UrlParse("https://" + host + path + "?" + query, "") == ParseResult("https", host, path, "", query, "")
  {
    var q := QuotePlus(s);
    var query := name + "=" + q;
    assert NoneOf(name + "=", {'#', '\t', '\r', '\n'});
    QuotedNoneOf(s);
    NoneOfConcat(name + "=", q, {'#', '\t', '\r', '\n'});
    HttpsFacts(host);
    assert "https" + "://" + host + path + "?" + query == "https://" + host + path + "?" + query;
    AbsoluteParse("https", host, path, query, "");
  }

  lemma QueryOfKeyword(name: string, s: string)
    requires IsQueryName(name)
    ensures QueryValue(name + "=" + QuotePlus(s), name) == if s == "" then None else Some(s)
  {
    var q := QuotePlus(s);
    QuotePlusRoundTrip(s);
    if s == "" {
      assert q == "";
      assert name + "=" + q == name + "=";
      assert ParseQsl(name + "=") == [] by {
        var f := name + "=";
        AbsentChar(f, '&');
        assert Split(f, "&") == [f];
        assert f[|name|] == '=';
        FirstOfAt(f, {'='}, |name|);
        assert f[|name| + 1..] == "";
        assert FieldsToPairs([f]) == [] + FieldsToPairs([]) by {
          assert [f][0] == f && [f][1..] == [];
        }
      }
    } else {
      QuotePlusNonEmpty(s);
      QuotedNoneOf(s);
      SingleFieldQuery(name, q);
    }
  }

  /** The body of an `is_likely_ad` loop: `True` as soon as one
      indicator occurs in `s`. */
  function ScanIndicators(indicators: seq<string>, s: string): (r: bool)
    ensures r <==> AnyIn(indicators, s)
    decreases |indicators|
  {
    if indicators == [] then false
    else if Contains(s, indicators[0]) then true
    else
      var rest := ScanIndicators(indicators[1..], s);
      assert forall k :: 1 <= k < |indicators| ==> indicators[k] == indicators[1..][k - 1];
      rest
  }

  /** `for indicator in indicators: if indicator in s: hit = True; break`. */
  method ScanLoop(indicators: seq<string>, s: string) returns (hit: bool)
    ensures hit <==> AnyIn(indicators, s)
  {
    hit := false;
    for k := 0 to |indicators|
      invariant !hit
      invariant forall m :: 0 <= m < k ==> !Contains(s, indicators[m])
    {
      if Contains(s, indicators[k]) {
        hit := true;
        break;
      }
    }
  }

  /** The text test every `is_likely_ad` makes. */
  const TextAdIndicators: seq<string> := ["ad ", "ads ", "sponsored ", "advertisement"]

  /** The shape of the Google, DuckDuckGo and Yahoo `is_likely_ad`: the
      lowered URL against the URL indicators, then the lowered nearby text
      against the text indicators, then the lowered markup against the
      engine's own indicators; a missing or empty argument is skipped. */
  function LikelyAd(urlIndicators: seq<string>, htmlIndicators: seq<string>,
                    url: Option<string>, text: Option<string>, html: Option<string>): (r: bool)
    ensures r <==>
      || (Truthy(url) && AnyIn(urlIndicators, Lower(url.value)))
      || (Truthy(text) && AnyIn(TextAdIndicators, Lower(text.value)))
      || (Truthy(html) && AnyIn(htmlIndicators, Lower(html.value)))
  {
    if Truthy(url) && ScanIndicators(urlIndicators, Lower(url.value)) then true
    else if Truthy(text) && ScanIndicators(TextAdIndicators, Lower(text.value)) then true
    else Truthy(html) && ScanIndicators(htmlIndicators, Lower(html.value))
  }

  /** An indicator holding an upper-case letter never matches lowered
      text, so it never contributes to a scan of lowered text. */
  lemma MixedCaseNeverMatches(indicators: seq<string>, k: nat, j: nat, s: string)
    requires k < |indicators| && j < |indicators[k]| && IsUpper(indicators[k][j])
    ensures !Contains(Lower(s), indicators[k])
  {
    LoweredLacksUpper(s, indicators[k], j);
  }

  /** Indicators that cannot occur in `s` do not change the verdict of
      the scan: scanning only the others gives the same answer. */
  lemma ScanWithout(ps: seq<string>, keep: seq<string>, s: string)
    requires forall m :: 0 <= m < |keep| ==> keep[m] in ps
    requires forall k :: 0 <= k < |ps| ==> ps[k] in keep || !Contains(s, ps[k])
    ensures AnyIn(ps, s) <==> AnyIn(keep, s)
  {
    if AnyIn(ps, s) {
      var k :| 0 <= k < |ps| && Contains(s, ps[k]);
      var m :| 0 <= m < |keep| && keep[m] == ps[k];
    }
    if AnyIn(keep, s) {
      var m :| 0 <= m < |keep| && Contains(s, keep[m]);
      var k :| 0 <= k < |ps| && ps[k] == keep[m];
    }
  }

  /** `" ".join(element.get("class", [])).lower()`. */
  function ClassString(e: Element): string {
    Lower(Join(e.classes, " "))
  }

  /** A string that does not start with "/" does not start with any
      rooted prefix either. */
  lemma NotRootedNoPrefix(h: string, p: string)
    requires !StartsWith(h, "/") && StartsWith(p, "/")
    ensures !StartsWith(h, p)
  {
    if |p| <= |h| {
      assert h[..|p|][..1] == h[..1];
    }
  }

  /** `if href.startswith("/"): href = urljoin(BASE, href)`. */
  function JoinIfRooted(base: string, href: string): string {
    if StartsWith(href, "/") then UrlJoin(base, href) else href
  }

  /** An absolute https link is not joined. */
  lemma AbsoluteNotJoined(base: string, h: string)
    requires StartsWith(h, "https://")
    ensures JoinIfRooted(base, h) == h
  {
    assert h[..1][0] == 'h';
  }

  /** For an https origin the joined href never starts with "/": it is
      either the href itself (not rooted) or starts with "https://". */
  lemma JoinedNotRooted(host: string, href: string)
    requires IsPlainHost(host) && href != ""
    ensures var h := JoinIfRooted("https://" + host, href);
      h != "" && !StartsWith(h, "/") && (StartsWith(href, "/") ==> StartsWith(h, "https://"))
  {
    var h := JoinIfRooted("https://" + host, href);
    if StartsWith(href, "/") {
      RootedJoinIsHttps(host, href);
      HttpsHead(h);
    } else {
      assert h == href && h[..1][0] != '/';
    }
  }

  lemma RootedJoinIsHttps(host: string, href: string)
    requires IsPlainHost(host) && StartsWith(href, "/")
    ensures StartsWith(UrlJoin("https://" + host, href), "https://")
  {
    HttpsFacts(host);
    JoinRootedKeepsScheme("https", host, "https://" + host, href, "https://");
  }

  lemma HttpsHead(h: string)
    requires StartsWith(h, "https://")
    ensures h != "" && !StartsWith(h, "/")
  {
    assert h[..1][0] == 'h';
  }

  /** The append-as-you-go loop of `parse_results` as a specification:
      the items are visited in order, and each one may append an entry
      computed from it and from the results so far. */
  function Emit(acc: seq<Entry>, items: seq<Element>, f: (seq<Entry>, Element) -> Option<Entry>): (r: seq<Entry>)
    ensures |acc| <= |r| <= |acc| + |items| && r[..|acc|] == acc
    decreases |items|
  {
    if items == [] then acc
    else
      var prev := Emit(acc, items[..|items| - 1], f);
      match f(prev, items[|items| - 1])
      case Some(e) => prev + [e]
      case None => prev
  }

  lemma EmitStep(acc: seq<Entry>, items: seq<Element>, x: Element, f: (seq<Entry>, Element) -> Option<Entry>)
    ensures Emit(acc, items + [x], f)
         == match f(Emit(acc, items, f), x) case Some(e) => Emit(acc, items, f) + [e] case None => Emit(acc, items, f)
  {
    assert (items + [x])[..|items|] == items;
  }

  /** One more turn of a section loop: the entry the step computes from
      the results so far is appended, or nothing is. */
  lemma EmitNext(acc: seq<Entry>, items: seq<Element>, j: nat, f: (seq<Entry>, Element) -> Option<Entry>,
                 entry: Option<Entry>)
    requires j < |items| && entry == f(Emit(acc, items[..j], f), items[j])
    ensures Emit(acc, items[..j + 1], f)
         == match entry case Some(e) => Emit(acc, items[..j], f) + [e] case None => Emit(acc, items[..j], f)
  {
    assert items[..j + 1] == items[..j] + [items[j]];
    EmitStep(acc, items[..j], items[j], f);
  }

  /** Whatever every single step promises of the entry it appends holds of
      every appended entry. */
  lemma {:induction false} EmitKeeps(acc: seq<Entry>, items: seq<Element>, f: (seq<Entry>, Element) -> Option<Entry>,
                                     p: Entry -> bool)
    requires forall s, x :: f(s, x).Some? ==> p(f(s, x).value)
    ensures forall i :: |acc| <= i < |Emit(acc, items, f)| ==> p(Emit(acc, items, f)[i])
    decreases |items|
  {
    if items != [] {
      EmitKeeps(acc, items[..|items| - 1], f, p);
    }
  }

  /** A section loop whose body can raise: the first failing item ends
      the whole parse with its error. */
  function EmitChecked(acc: seq<Entry>, items: seq<Element>, f: Element -> Result<Option<Entry>, Error>)
    : (r: Result<seq<Entry>, Error>)
    ensures r.Success? ==> |acc| <= |r.value| <= |acc| + |items| && r.value[..|acc|] == acc
    ensures r.Success? <==> forall i :: 0 <= i < |items| ==> f(items[i]).Success?
    decreases |items|
  {
    if items == [] then Success(acc)
    else
      var prev := EmitChecked(acc, items[..|items| - 1], f);
      assert forall i :: 0 <= i < |items| - 1 ==> items[..|items| - 1][i] == items[i];
      if prev.Failure? then prev
      else
        match f(items[|items| - 1])
        case Failure(e) => Failure(e)
        case Success(None) => prev
        case Success(Some(e)) => Success(prev.value + [e])
  }

  lemma EmitCheckedStep(acc: seq<Entry>, items: seq<Element>, x: Element, f: Element -> Result<Option<Entry>, Error>)
    requires EmitChecked(acc, items, f).Success?
    ensures EmitChecked(acc, items + [x], f)
         == match f(x)
            case Failure(e) => Failure(e)
            case Success(None) => EmitChecked(acc, items, f)
            case Success(Some(e)) => Success(EmitChecked(acc, items, f).value + [e])
  {
    assert (items + [x])[..|items|] == items;
  }

  /** One more turn of a section loop whose body can raise. */
  lemma EmitCheckedNext(acc: seq<Entry>, items: seq<Element>, j: nat, f: Element -> Result<Option<Entry>, Error>,
                        entry: Result<Option<Entry>, Error>)
    requires j < |items| && entry == f(items[j]) && EmitChecked(acc, items[..j], f).Success?
    ensures EmitChecked(acc, items[..j + 1], f)
         == match entry
            case Failure(e) => Failure(e)
            case Success(None) => EmitChecked(acc, items[..j], f)
            case Success(Some(e)) => Success(EmitChecked(acc, items[..j], f).value + [e])
  {
    assert items[..j + 1] == items[..j] + [items[j]];
    EmitCheckedStep(acc, items[..j], items[j], f);
  }

  /** What every successful step promises of its entry holds of every
      appended entry. */
  lemma {:induction false} EmitCheckedKeeps(acc: seq<Entry>, items: seq<Element>,
                                            f: Element -> Result<Option<Entry>, Error>, p: Entry -> bool)
    requires forall x :: f(x).Success? && f(x).value.Some? ==> p(f(x).value.value)
    requires EmitChecked(acc, items, f).Success?
    ensures forall i :: |acc| <= i < |EmitChecked(acc, items, f).value| ==> p(EmitChecked(acc, items, f).value[i])
    decreases |items|
  {
    if items != [] {
      EmitCheckedKeeps(acc, items[..|items| - 1], f, p);
    }
  }
}
