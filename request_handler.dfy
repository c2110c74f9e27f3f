/** `RequestHandler`: which elements the browser waits for, and how the
    outcome of a browser or HTTP fetch becomes returned text or a raised
    error. The browser and the network are not modelled: each call is
    given the outcome of every step it takes. */
module RequestHandler {
  import opened Wrappers
  import opened Text
  import opened SearchTypes
  import opened UrlLib
  import opened StrategyCommon
  import GoogleStrategy
  import BingStrategy
  import DuckDuckGoStrategy
  import YahooStrategy

  // ------------------------------------------------ wait selectors

  const GoogleWait: seq<string> := ["#tads, #taw", "div[data-text-ad]", "#rso .yuRUbf"]
  const BingWait: seq<string> := ["#b_results li.b_algo", "li.b_ad", "#b_results"]
  const GenericWait: seq<string> := ["body"]

  /** The selectors for a network location: Google's when it names
      "google.", tested first, else Bing's when it names "bing.", else
      the whole body. */
  function SelectorsFor(netloc: string): (r: seq<string>)
    ensures Contains(netloc, "google.") ==> r == GoogleWait
    ensures !Contains(netloc, "google.") && Contains(netloc, "bing.") ==> r == BingWait
    ensures !Contains(netloc, "google.") && !Contains(netloc, "bing.") ==> r == GenericWait
  {
    if Contains(netloc, "google.") then GoogleWait
    else if Contains(netloc, "bing.") then BingWait
    else GenericWait
  }

  /** `_pick_wait_selectors(url)`. */
  function PickWaitSelectors(url: string): seq<string> {
    SelectorsFor(UrlParse(url, "").netloc)
  }

  /** The selectors depend on the host of an absolute URL only. */
  lemma PageSelectors(host: string, path: string, query: string)
    requires IsPlainHost(host)
    requires StartsWith(path, "/") && NoneOf(path, {'?', '#', ';', '\t', '\r', '\n'})
    requires NoneOf(query, {'#', '\t', '\r', '\n'})
    ensures PickWaitSelectors("https://" + host + path + "?" + query) == SelectorsFor(host)
  {
    HttpsFacts(host);
    AbsoluteParse("https", host, path, query, "");
  }

  /** A host naming both "google." and "bing." is waited on as Google. */
  lemma GoogleTestedFirst(netloc: string)
    requires Contains(netloc, "google.") && Contains(netloc, "bing.")
    ensures SelectorsFor(netloc) == GoogleWait
  {
  }

  /** The engines' own hosts: Google's and Bing's get their lists, the
      DuckDuckGo and Yahoo hosts the generic one. */
  lemma EngineSelectors(netloc: string)
    ensures netloc == GoogleStrategy.Host ==> SelectorsFor(netloc) == GoogleWait
    ensures netloc == BingStrategy.Host ==> SelectorsFor(netloc) == BingWait
    ensures netloc == DuckDuckGoStrategy.Host || netloc == YahooStrategy.Host ==> SelectorsFor(netloc) == GenericWait
  {
    if netloc == GoogleStrategy.Host {
      GoogleSelectors(netloc);
    } else if netloc == BingStrategy.Host {
      BingSelectors(netloc);
    } else if netloc == DuckDuckGoStrategy.Host {
      DuckDuckGoSelectors(netloc);
    } else if netloc == YahooStrategy.Host {
      YahooSelectors(netloc);
    }
  }

  lemma GoogleSelectors(netloc: string)
    requires netloc == "www.google.com"
    ensures SelectorsFor(netloc) == GoogleWait
  {
    ContainsAt(netloc, "google.", 4);
  }

  lemma BingSelectors(netloc: string)
    requires netloc == "www.bing.com"
    ensures SelectorsFor(netloc) == BingWait
  {
    Lacks(netloc, "google.", 4, 'l');
    ContainsAt(netloc, "bing.", 4);
  }

  lemma DuckDuckGoSelectors(netloc: string)
    requires netloc == "duckduckgo.com"
    ensures SelectorsFor(netloc) == GenericWait
  {
    Lacks(netloc, "google.", 4, 'l');
    Lacks(netloc, "bing.", 0, 'b');
  }

  lemma YahooSelectors(netloc: string)
    requires netloc == "search.yahoo.com"
    ensures SelectorsFor(netloc) == GenericWait
  {
    Lacks(netloc, "google.", 0, 'g');
    Lacks(netloc, "bing.", 0, 'b');
  }

  /** One character of `p` is absent from `s`. */
  lemma Lacks(s: string, p: string, k: nat, c: char)
    requires k < |p| && p[k] == c
    requires forall i :: 0 <= i < |s| ==> s[i] != c
    ensures !Contains(s, p)
  {
    MissingChar(s, p, k);
  }

  // --------------------------------------------------- browser `get`

  /** The exception a browser step raises: Selenium's `TimeoutException`,
      another `WebDriverException`, or anything else. */
  datatype Raised = Timeout | WebDriver | OtherException

  /** What the browser does on one `get`: whether the driver fails to
      start (with its message), whether loading the page raises, whether
      waiting for the selectors raises, and what reading the body gives. */
  datatype Browser = Browser(
    launch: Option<string>,
    load: Option<Raised>,
    wait: Option<Raised>,
    script: Result<string, Raised>)

  /** The returned document or the escaping error, the selectors waited
      for (none when the page did not load), and whether the driver was
      quit. */
  datatype GetOutcome = GetOutcome(html: Result<string, Error>, waitedFor: seq<string>, quit: bool)

  /** The fixed documents returned in place of a page. */
  function Placeholder(x: Raised): string {
    match x
    case Timeout => "<html><body><p>Timeout</p></body></html>"
    case WebDriver => "<html><body><p>Error</p></body></html>"
    case OtherException => "<html><body><p>Unknown error</p></body></html>"
  }

  /** `get(url)`. Starting the driver is outside the `try`; a wait that
      times out is ignored; any later failure returns a placeholder; the
      driver is quit in `finally` once it exists. So once the driver has
      started, `get` never raises and always quits it, returning the page
      body or one of the three placeholders; only a driver that cannot
      start raises, and then nothing is quit. */
  function Get(url: string, b: Browser): (o: GetOutcome)
    ensures o.html.Failure? <==> b.launch.Some?
    ensures o.quit <==> b.launch.None?
    ensures o.html.Failure? ==> o.html.error == DriverError(b.launch.value)
    ensures o.html.Success? ==>
      (b.script.Success? && o.html.value == b.script.value) ||
      o.html.value in {Placeholder(Timeout), Placeholder(WebDriver), Placeholder(OtherException)}
  {
    if b.launch.Some? then GetOutcome(Failure(DriverError(b.launch.value)), [], false)
    else if b.load.Some? then GetOutcome(Success(Placeholder(b.load.value)), [], true)
    else
      var selectors := PickWaitSelectors(url);
      if b.wait.Some? && b.wait.value != Timeout then GetOutcome(Success(Placeholder(b.wait.value)), selectors, true)
      else match b.script
        case Success(html) => GetOutcome(Success(html), selectors, true)
        case Failure(x) => GetOutcome(Success(Placeholder(x)), selectors, true)
  }

  /** A page that loads is waited on with the selectors for its URL. */
  lemma GetWaitsForUrl(url: string, b: Browser)
    requires b.launch.None? && b.load.None?
    ensures Get(url, b).waitedFor == PickWaitSelectors(url)
  {
  }

  /** A wait that times out changes nothing: the body is read anyway. */
  lemma WaitTimeoutIgnored(url: string, b: Browser)
    ensures Get(url, b.(wait := Some(Timeout))) == Get(url, b.(wait := None))
  {
  }

  /** When the load, the wait (or its timeout) and the script succeed,
      the body is returned; a load that raises returns that exception's
      placeholder. */
  lemma GetReturnsBody(url: string, b: Browser)
    requires b.launch.None?
    ensures (b.load.None? && (b.wait.None? || b.wait == Some(Timeout)) && b.script.Success?) ==>
      Get(url, b).html == Success(b.script.value)
    ensures b.load.Some? ==> Get(url, b).html == Success(Placeholder(b.load.value))
  {
  }

  /** The three placeholders are distinct, so the returned text tells
      the failures apart. */
  lemma PlaceholdersDistinct(x: Raised, y: Raised)
    ensures Placeholder(x) == Placeholder(y) <==> x == y
  {
    if x != y {
      var px, py := Placeholder(x), Placeholder(y);
      assert px[15] != py[15] || |px| != |py|;
    }
  }

  // ------------------------------------------------- plain HTTP gets

  /** An answer from `requests.get`. */
  datatype HttpResponse = HttpResponse(status: int, text: string)

  /** `response.raise_for_status()`: client and server errors raise. */
  function RaiseForStatus(r: HttpResponse): (e: Option<Error>)
    ensures e.Some? <==> 400 <= r.status < 600
    ensures e.Some? ==> e.value == HttpError(r.status)
  {
    if 400 <= r.status < 600 then Some(HttpError(r.status)) else None
  }

  /** `get_html_without_js(url)`: the text, or "" when anything fails. */
  function GetHtmlWithoutJs(response: Result<HttpResponse, Error>): string {
    match response
    case Failure(_) => ""
    case Success(r) => if RaiseForStatus(r).Some? then "" else r.text
  }

  /** `get_with_fallback(url)`: the text, or a `TimeoutError` naming the
      URL in place of any `RequestException`; every 4xx/5xx answer
      surfaces as such a `TimeoutError` too. */
  function GetWithFallback(url: string, response: Result<HttpResponse, Error>): (r: Result<string, Error>)
    ensures r.Success? <==> response.Success? && !(400 <= response.value.status < 600)
    ensures r.Success? ==> r.value == response.value.text
    ensures response.Success? && r.Failure? ==> r.error == TimeoutError(url, HttpError(response.value.status))
    ensures response.Failure? && IsRequestException(response.error) ==> r.error == TimeoutError(url, response.error)
    ensures response.Failure? && !IsRequestException(response.error) ==> r.error == response.error
  {
    match response
    case Failure(e) => if IsRequestException(e) then Failure(TimeoutError(url, e)) else Failure(e)
    case Success(r) =>
      match RaiseForStatus(r)
      case Some(e) => Failure(TimeoutError(url, e))
      case None => Success(r.text)
  }

  /** The two plain fetches agree: the one without JavaScript returns ""
      exactly where the other raises, and the same text otherwise. */
  lemma WithoutJsAgreesWithFallback(url: string, response: Result<HttpResponse, Error>)
    ensures GetHtmlWithoutJs(response) ==
      match GetWithFallback(url, response)
      case Success(t) => t
      case Failure(_) => ""
  {
  }
}
