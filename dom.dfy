/** The parsed result page as the strategies see it. BeautifulSoup's
    selector matching is not modelled: a page is the list of elements each
    CSS selector matches, in document order, and an element is what the
    strategies read off it (its markup, its text, its classes and
    attributes, and the first descendant each `find` query returns). */
module Dom {
  import opened Wrappers

  /** A descendant returned by `find`/`select_one`: its tag name, its
      `get_text(strip=True)` (every descendant string stripped, then
      joined with nothing between them), its `.text`, which is plain
      `get_text()` (every descendant string joined as it is), and its
      `href` attribute if it has one. */
  datatype Tag = Tag(name: string, text: string, rawText: string, href: Option<string>)

  /** A matched element. `html` is `str(element)`, `text` is
      `get_text(strip=True)`, `spacedText` is `get_text(" ", strip=True)`,
      `classes` the `class` attribute as a list, `attrs` the other
      attributes, and `finds` the first match of each `find` query (a
      query made on the first match of another is written as the two
      selectors one after the other, as in "h2 a"). Two
      elements are equal when they agree on all of these, as BeautifulSoup
      compares tags by content rather than by identity. */
  datatype Element = Element(
    html: string,
    text: string,
    spacedText: string,
    classes: seq<string>,
    attrs: map<string, string>,
    finds: map<string, Tag>)

  /** `element.find(query)`: the first matching descendant, if any. */
  function Find(e: Element, query: string): (r: Option<Tag>)
    ensures r.Some? <==> query in e.finds
  {
    if query in e.finds then Some(e.finds[query]) else None
  }

  /** `element.find(query, href=True)`: the first match that carries an
      `href` attribute, which `finds` records under `query + "[href]"`. */
  function FindWithHref(e: Element, query: string): (r: Option<Tag>)
    ensures r.Some? ==> r.value.href.Some?
    ensures r.Some? <==> query + "[href]" in e.finds && e.finds[query + "[href]"].href.Some?
  {
    var key := query + "[href]";
    if key in e.finds && e.finds[key].href.Some? then Some(e.finds[key]) else None
  }

  /** A name Python's `html.parser` can give a tag: it starts with an
      ASCII letter. */
  predicate IsTagName(name: string) {
    name != "" && ('a' <= name[0] <= 'z' || 'A' <= name[0] <= 'Z')
  }

  /** `element.find(name)` with a bare string, which BeautifulSoup takes
      as a tag name rather than as a CSS selector. */
  function FindNamed(e: Element, name: string): (r: Option<Tag>)
    ensures !IsTagName(name) ==> r.None?
    ensures IsTagName(name) ==> r == Find(e, name)
  {
    if IsTagName(name) then Find(e, name) else None
  }

  /** `element.get(name, default)`. */
  function Get(e: Element, name: string, default: string): string {
    if name in e.attrs then e.attrs[name] else default
  }

  /** Python's `a or b` on two `find` results: a found tag is always truthy. */
  function OrElse(a: Option<Tag>, b: Option<Tag>): (r: Option<Tag>)
    ensures r.Some? <==> a.Some? || b.Some?
    ensures a.Some? ==> r == a
    ensures a.None? ==> r == b
  {
    if a.Some? then a else b
  }

  /** The text of an optional tag, as in `tag.get_text(strip=True) if tag else None`. */
  function TextOf(t: Option<Tag>): (r: Option<string>)
    ensures r.Some? <==> t.Some?
  {
    match t
    case Some(tag) => Some(tag.text)
    case None => None
  }

  /** The `.text` of an optional tag, as in `tag.text if tag else None`. */
  function RawTextOf(t: Option<Tag>): (r: Option<string>)
    ensures r.Some? <==> t.Some?
    ensures t.Some? ==> r.value == t.value.rawText
  {
    match t
    case Some(tag) => Some(tag.rawText)
    case None => None
  }

  /** Python truthiness of an optional string: neither None nor "". */
  predicate Truthy(s: Option<string>) {
    s.Some? && s.value != ""
  }

  /** A parsed page: the elements each selector matches. */
  datatype Soup = Soup(hits: map<string, seq<Element>>)

  /** `soup.select(selector)`. */
  function Select(soup: Soup, selector: string): seq<Element> {
    if selector in soup.hits then soup.hits[selector] else []
  }

  /** The matches of several selectors, one selector after another, as the
      strategies' `for selector in ...: for item in soup.select(selector)`
      visit them: every selector's matches are collected, nothing else is,
      and the count is the sum of the selectors' counts. */
  function Gather(soup: Soup, selectors: seq<string>): (r: seq<Element>)
    ensures forall k, e :: 0 <= k < |selectors| && e in Select(soup, selectors[k]) ==> e in r
    ensures forall e :: e in r ==> exists k :: 0 <= k < |selectors| && e in Select(soup, selectors[k])
    ensures |r| == MatchCount(soup, selectors)
    decreases |selectors|
  {
    if selectors == [] then []
    else
      var init := selectors[..|selectors| - 1];
      assert forall k :: 0 <= k < |init| ==> init[k] == selectors[k];
      Gather(soup, init) + Select(soup, selectors[|selectors| - 1])
  }

  /** The number of matches over all the selectors. */
  function MatchCount(soup: Soup, selectors: seq<string>): nat
    decreases |selectors|
  {
    if selectors == [] then 0
    else MatchCount(soup, selectors[..|selectors| - 1]) + |Select(soup, selectors[|selectors| - 1])|
  }

  lemma GatherStep(soup: Soup, selectors: seq<string>, i: nat)
    requires i < |selectors|
    ensures Gather(soup, selectors[..i + 1]) == Gather(soup, selectors[..i]) + Select(soup, selectors[i])
  {
    assert selectors[..i + 1][..i] == selectors[..i];
  }

  /** `for selector in selectors: found.extend(soup.select(selector))`. */
  method GatherAll(soup: Soup, selectors: seq<string>) returns (found: seq<Element>)
    ensures found == Gather(soup, selectors)
  {
    found := [];
    for i := 0 to |selectors|
      invariant found == Gather(soup, selectors[..i])
    {
      GatherStep(soup, selectors, i);
      found := found + Select(soup, selectors[i]);
    }
    assert selectors[..|selectors|] == selectors;
  }
}
