/** `SearchQueryAdd`: the keyword count stored with a scraped page, and
    the bookkeeping of `add_search_results`. The database is not
    modelled: a write is given as succeeding or raising. */
module SearchQueryAdd {
  import opened Wrappers
  import opened Text
  import opened SearchTypes

  // ------------------------------------------------------ get_count

  /** `\w`, on ASCII text. */
  predicate IsWordChar(c: char) {
    'a' <= c <= 'z' || 'A' <= c <= 'Z' || '0' <= c <= '9' || c == '_'
  }

  /** `\b` at position `p`: a word character on exactly one side. */
  predicate Boundary(s: string, p: nat)
    requires p <= |s|
  {
    (p > 0 && IsWordChar(s[p - 1])) != (p < |s| && IsWordChar(s[p]))
  }

  /** The pattern `\b` + the escaped keyword + `\b`, with IGNORECASE,
      matches at `i`. */
  predicate MatchAt(s: string, k: string, i: nat) {
    i + |k| <= |s| && Lower(s[i..i + |k|]) == Lower(k) && Boundary(s, i) && Boundary(s, i + |k|)
  }

  /** Where the pattern matches: one flag per position at which the
      keyword still fits. */
  function Mask(s: string, k: string): (m: seq<bool>)
    ensures |m| == if |k| <= |s| then |s| - |k| + 1 else 0
    ensures forall p :: 0 <= p < |m| ==> m[p] == MatchAt(s, k, p)
  {
    seq(if |k| <= |s| then |s| - |k| + 1 else 0, p requires p >= 0 => MatchAt(s, k, p))
  }

  /** The scan of `re.findall` over the flags: try each position from
      left to right, and after a match of width `w` go on at its end. */
  function Scan(m: seq<bool>, w: nat, i: nat): seq<nat>
    requires w > 0
    decreases |m| - i
  {
    if i >= |m| then []
    else if m[i] then [i] + Scan(m, w, i + w)
    else Scan(m, w, i + 1)
  }

  /** `re.findall` from position `i`: where each match starts. */
  function FindAll(s: string, k: string, i: nat): seq<nat>
    requires k != []
  {
    Scan(Mask(s, k), |k|, i)
  }

  /** Every position the scan reports is flagged, at or after the start,
      and each begins at least `w` after the previous one. */
  lemma {:induction false} ScanSound(m: seq<bool>, w: nat, i: nat)
    requires w > 0
    ensures forall j :: 0 <= j < |Scan(m, w, i)| ==> i <= Scan(m, w, i)[j] < |m| && m[Scan(m, w, i)[j]]
    ensures forall j :: 0 <= j < |Scan(m, w, i)| - 1 ==> Scan(m, w, i)[j] + w <= Scan(m, w, i)[j + 1]
    decreases |m| - i
  {
    if i < |m| {
      if m[i] {
        ScanSound(m, w, i + w);
        var rest := Scan(m, w, i + w);
        assert Scan(m, w, i) == [i] + rest;
        assert forall j :: 1 <= j < |rest| + 1 ==> ([i] + rest)[j] == rest[j - 1];
      } else {
        ScanSound(m, w, i + 1);
      }
    }
  }

  /** No flag is missed: a flagged position is reported, or lies inside
      the width of one reported before it. */
  lemma {:induction false} ScanLeftmost(m: seq<bool>, w: nat, i: nat)
    requires w > 0
    ensures var r := Scan(m, w, i);
      forall p :: i <= p < |m| && m[p] ==>
        p in r || exists j :: 0 <= j < |r| && r[j] < p < r[j] + w
    decreases |m| - i
  {
    var r := Scan(m, w, i);
    if i < |m| {
      if m[i] {
        ScanLeftmost(m, w, i + w);
        var rest := Scan(m, w, i + w);
        assert r == [i] + rest;
        forall p | i <= p < |m| && m[p]
          ensures p in r || exists j :: 0 <= j < |r| && r[j] < p < r[j] + w
        {
          if p == i {
            assert r[0] == p;
          } else if p < i + w {
            assert r[0] < p < r[0] + w;
          } else if p !in rest {
            var j :| 0 <= j < |rest| && rest[j] < p < rest[j] + w;
            assert r[j + 1] == rest[j];
          }
        }
      } else {
        ScanLeftmost(m, w, i + 1);
      }
    }
  }

  /** Reported positions are `w` apart, so there are at most as many as
      fit in what is left. */
  lemma {:induction false} ScanBound(m: seq<bool>, w: nat, i: nat)
    requires w > 0 && i <= |m| + w - 1
    ensures |Scan(m, w, i)| * w <= |m| + w - 1 - i
    decreases |m| - i
  {
    if i < |m| {
      if m[i] {
        ScanBound(m, w, i + w);
        var n := |Scan(m, w, i + w)|;
        assert (1 + n) * w == w + n * w;
      } else {
        ScanBound(m, w, i + 1);
      }
    }
  }

  /** Every position found is a match, and matches do not overlap. */
  lemma FindAllSound(s: string, k: string, i: nat)
    requires k != []
    ensures var r := FindAll(s, k, i);
      (forall j :: 0 <= j < |r| ==> i <= r[j] && MatchAt(s, k, r[j])) &&
      (forall j :: 0 <= j < |r| - 1 ==> r[j] + |k| <= r[j + 1])
  {
    var m := Mask(s, k);
    ScanSound(m, |k|, i);
    var r := FindAll(s, k, i);
    forall j | 0 <= j < |r|
      ensures MatchAt(s, k, r[j])
    {
      assert m[r[j]];
    }
  }

  /** No match is missed: a position where the pattern matches is found,
      or lies inside a match found before it. */
  lemma FindAllLeftmost(s: string, k: string, i: nat)
    requires k != []
    ensures var r := FindAll(s, k, i);
      forall p :: i <= p && MatchAt(s, k, p) ==>
        p in r || exists j :: 0 <= j < |r| && r[j] < p < r[j] + |k|
  {
    var m := Mask(s, k);
    ScanLeftmost(m, |k|, i);
    forall p | i <= p && MatchAt(s, k, p)
      ensures p < |m| && m[p]
    {
    }
  }

  lemma WordCharLowered(c: char)
    ensures IsWordChar(LowerChar(c)) == IsWordChar(c)
  {
  }

  lemma BoundaryCaseless(s: string, p: nat)
    requires p <= |s|
    ensures Boundary(Lower(s), p) == Boundary(s, p)
  {
    if p > 0 {
      WordCharLowered(s[p - 1]);
    }
    if p < |s| {
      WordCharLowered(s[p]);
    }
  }

  lemma MatchCaseless(s: string, k: string, i: nat)
    ensures MatchAt(Lower(s), Lower(k), i) == MatchAt(s, k, i)
  {
    if i + |k| <= |s| {
      var t := s[i..i + |k|];
      assert Lower(s)[i..i + |k|] == Lower(t);
      LowerTwice(t);
      LowerTwice(k);
      BoundaryCaseless(s, i);
      BoundaryCaseless(s, i + |k|);
    }
  }

  /** Matching ignores case: lowering the text and the keyword finds the
      same matches. */
  lemma FindAllCaseless(s: string, k: string, i: nat)
    requires k != []
    ensures FindAll(Lower(s), Lower(k), i) == FindAll(s, k, i)
  {
    var m, n := Mask(Lower(s), Lower(k)), Mask(s, k);
    forall p | 0 <= p < |m|
      ensures m[p] == n[p]
    {
      MatchCaseless(s, k, p);
    }
    assert m == n;
  }

  /** `get_count(html, keyword)`: 0 for an empty page or keyword, else
      the number of matches, which fit in the page side by side. */
  function GetCount(html: string, keyword: string): (n: nat)
    ensures html == "" || keyword == "" ==> n == 0
    ensures html != "" && keyword != "" ==> n == |FindAll(html, keyword, 0)|
    ensures n * |keyword| <= |html|
  {
    if html == "" || keyword == "" then 0
    else
      ScanBound(Mask(html, keyword), |keyword|, 0);
      |FindAll(html, keyword, 0)|
  }

  /** The count is the same whatever the case of the page or keyword. */
  lemma GetCountCaseless(html: string, keyword: string)
    ensures GetCount(Lower(html), Lower(keyword)) == GetCount(html, keyword)
  {
    if html != "" && keyword != "" {
      FindAllCaseless(html, keyword, 0);
    }
  }

  /** A page holding the keyword as a whole word, at the start with a
      non-word character after it, counts it at least once. */
  lemma LeadingWordCounted(keyword: string, rest: string)
    requires keyword != [] && IsWordChar(keyword[0]) && IsWordChar(keyword[|keyword| - 1])
    requires rest == [] || !IsWordChar(rest[0])
    ensures GetCount(keyword + rest, keyword) >= 1
  {
    var s := keyword + rest;
    assert s[0..|keyword|] == keyword;
    assert |keyword| < |s| ==> s[|keyword|] == rest[0];
    assert MatchAt(s, keyword, 0);
    assert Mask(s, keyword)[0];
  }

  // -------------------------------------------------- stored rows

  /** A `SearchUrls` row as the scraper reads it back: its id and URL,
      its ad/promo flag, whether `data_scrape_time` is set, and the term
      of its search. */
  datatype UrlRow = UrlRow(id: int, url: string, adPromo: bool, scraped: bool, searchTerm: string)

  /** A `UrlData` row: the row it belongs to, the keyword count and the
      page. */
  datatype UrlData = UrlData(rowId: int, count: nat, html: string)

  /** `add_url_html_data(html, row)`: stamps the row, counts the term in
      the page and stores the count with the page; `fault` is what the
      database raises, if anything. */
  function AddUrlHtmlData(html: string, row: UrlRow, fault: Option<Error>): (r: Result<UrlData, Error>)
    ensures r.Failure? <==> fault.Some?
    ensures r.Success? ==>
      r.value.rowId == row.id && r.value.html == html && r.value.count == GetCount(html, row.searchTerm)
  {
    match fault
    case Some(e) => Failure(e)
    case None => Success(UrlData(row.id, GetCount(html, row.searchTerm), html))
  }

  // ------------------------------------------- add_search_results

  /** The `SearchUrls` row created for an entry under a search term. */
  datatype StoredUrl = StoredUrl(url: string, desc: string, title: string, adPromo: bool, engine: string, term: string)

  function StoredFor(term: string, e: Entry): StoredUrl {
    StoredUrl(e.link, e.description, e.title, e.adPromo, e.searchEngine, term)
  }

  /** The entries of all lists, list after list. */
  function Flatten(data: seq<seq<Entry>>): (r: seq<Entry>)
    decreases |data|
  {
    if data == [] then [] else Flatten(data[..|data| - 1]) + data[|data| - 1]
  }

  /** The number of entries across all lists. */
  function TotalLength(data: seq<seq<Entry>>): nat
    decreases |data|
  {
    if data == [] then 0 else TotalLength(data[..|data| - 1]) + |data[|data| - 1]|
  }

  lemma {:induction false} FlattenLength(data: seq<seq<Entry>>)
    ensures |Flatten(data)| == TotalLength(data)
    decreases |data|
  {
    if data != [] {
      FlattenLength(data[..|data| - 1]);
    }
  }

  /** The ad/promo entries of a list, counted. */
  function CountAds(s: seq<Entry>): (n: nat)
    ensures n <= |s|
    decreases |s|
  {
    if s == [] then 0 else CountAds(s[..|s| - 1]) + (if s[|s| - 1].adPromo then 1 else 0)
  }

  lemma {:induction false} CountAdsAppend(a: seq<Entry>, b: seq<Entry>)
    ensures CountAds(a + b) == CountAds(a) + CountAds(b)
    decreases |b|
  {
    if b == [] {
      assert a + b == a;
    } else {
      var b' := b[..|b| - 1];
      CountAdsAppend(a, b');
      assert (a + b)[..|a + b| - 1] == a + b';
    }
  }

  /** What the database raises for the first entry whose writes fail. */
  function FirstFault(s: seq<Entry>, fault: Entry -> Option<Error>): (r: Option<Error>)
    ensures r.None? <==> forall i :: 0 <= i < |s| ==> fault(s[i]).None?
    ensures r.Some? ==>
      exists i :: 0 <= i < |s| && fault(s[i]) == r && (forall j :: 0 <= j < i ==> fault(s[j]).None?)
    decreases |s|
  {
    if s == [] then None
    else
      var prev := FirstFault(s[..|s| - 1], fault);
      assert forall i :: 0 <= i < |s| - 1 ==> s[..|s| - 1][i] == s[i];
      if prev.Some? then prev else fault(s[|s| - 1])
  }

  /** The printed totals and the rows kept in `obj_added`. */
  datatype Summary = Summary(totalResults: nat, totalAds: nat, added: seq<StoredUrl>)

  /** `add_search_results(search_term, data)`. */
  function AddSearch(term: string, data: seq<seq<Entry>>, fault: Entry -> Option<Error>): Result<Summary, Error> {
    var all := Flatten(data);
    match FirstFault(all, fault)
    case Some(e) => Failure(e)
    case None => Success(Summary(|all|, CountAds(all), seq(|all|, i requires 0 <= i < |all| => StoredFor(term, all[i]))))
  }

  /** The totals count every entry and every ad/promo entry, so there are
      never more ads than results, and `obj_added` holds one row per
      entry, list after list and entry after entry. A failing write
      raises the first failure. */
  lemma AddSearchProperties(term: string, data: seq<seq<Entry>>, fault: Entry -> Option<Error>)
    ensures var r := AddSearch(term, data, fault);
      (r.Success? <==> forall i :: 0 <= i < |Flatten(data)| ==> fault(Flatten(data)[i]).None?) &&
      (r.Success? ==>
        (r.value.totalResults == TotalLength(data) && r.value.totalAds <= r.value.totalResults &&
         |r.value.added| == r.value.totalResults &&
         forall i :: 0 <= i < |r.value.added| ==> r.value.added[i] == StoredFor(term, Flatten(data)[i])))
  {
    FlattenLength(data);
  }

  lemma FlattenStep(data: seq<seq<Entry>>, i: nat, j: nat)
    requires i < |data| && j < |data[i]|
    ensures Flatten(data[..i]) + data[i][..j + 1] == (Flatten(data[..i]) + data[i][..j]) + [data[i][j]]
  {
    assert data[i][..j + 1] == data[i][..j] + [data[i][j]];
  }

  lemma FlattenNext(data: seq<seq<Entry>>, i: nat)
    requires i < |data|
    ensures Flatten(data[..i + 1]) == Flatten(data[..i]) + data[i][..|data[i]|]
  {
    assert data[..i + 1][..i] == data[..i];
    assert data[i][..|data[i]|] == data[i];
  }

  lemma PrefixStep(s: seq<Entry>, e: Entry, fault: Entry -> Option<Error>)
    ensures (s + [e])[..|s|] == s && (s + [e])[|s|] == e
    ensures CountAds(s + [e]) == CountAds(s) + (if e.adPromo then 1 else 0)
    ensures FirstFault(s + [e], fault) == if FirstFault(s, fault).Some? then FirstFault(s, fault) else fault(e)
  {
    assert (s + [e])[..|s|] == s;
  }

  /** The nested loops of `add_search_results`. */
  method AddSearchResults(term: string, data: seq<seq<Entry>>, fault: Entry -> Option<Error>) returns (r: Result<Summary, Error>)
    ensures r == AddSearch(term, data, fault)
  {
    var totalAds := 0;
    var totalResults := 0;
    var objAdded: seq<StoredUrl> := [];
    ghost var done: seq<Entry> := [];
    for i := 0 to |data|
      invariant done == Flatten(data[..i])
      invariant totalResults == |done| && totalAds == CountAds(done) && FirstFault(done, fault).None?
      invariant objAdded == seq(|done|, n requires 0 <= n < |done| => StoredFor(term, done[n]))
    {
      for j := 0 to |data[i]|
        invariant done == Flatten(data[..i]) + data[i][..j]
        invariant totalResults == |done| && totalAds == CountAds(done) && FirstFault(done, fault).None?
        invariant objAdded == seq(|done|, n requires 0 <= n < |done| => StoredFor(term, done[n]))
      {
        var entry := data[i][j];
        FlattenStep(data, i, j);
        PrefixStep(done, entry, fault);
        totalResults := totalResults + 1;
        if entry.adPromo {
          totalAds := totalAds + 1;
        }
        match fault(entry)
        case Some(e) =>
          FaultStops(term, data, i, j, done, fault);
          return Failure(e);
        case None =>
        objAdded := objAdded + [StoredFor(term, entry)];
        done := done + [entry];
      }
      FlattenNext(data, i);
    }
    assert data[..|data|] == data;
    r := Success(Summary(totalResults, totalAds, objAdded));
  }

  /** A write that fails is the first failure of all the entries. */
  lemma FaultStops(term: string, data: seq<seq<Entry>>, i: nat, j: nat, done: seq<Entry>, fault: Entry -> Option<Error>)
    requires i < |data| && j < |data[i]|
    requires done == Flatten(data[..i]) + data[i][..j] && FirstFault(done, fault).None?
    requires fault(data[i][j]).Some?
    ensures AddSearch(term, data, fault) == Failure(fault(data[i][j]).value)
    ensures FirstFault(Flatten(data), fault) == fault(data[i][j])
  {
    FlattenAt(data, i, j);
    var all := Flatten(data);
    var n := |done|;
    var r := FirstFault(all, fault);
    assert forall k :: 0 <= k < n ==> all[k] == done[k];
    assert fault(all[n]).Some?;
    var m :| 0 <= m < |all| && fault(all[m]) == r && forall k :: 0 <= k < m ==> fault(all[k]).None?;
    assert m == n;
  }

  /** Where entry `j` of list `i` sits among all the entries. */
  lemma FlattenAt(data: seq<seq<Entry>>, i: nat, j: nat)
    requires i < |data| && j < |data[i]|
    ensures |Flatten(data[..i]) + data[i][..j]| < |Flatten(data)|
    ensures Flatten(data)[..|Flatten(data[..i]) + data[i][..j]|] == Flatten(data[..i]) + data[i][..j]
    ensures Flatten(data)[|Flatten(data[..i]) + data[i][..j]|] == data[i][j]
  {
    FlattenAppend(data[..i] + [data[i]], data[i + 1..]);
    FlattenAppend(data[..i], [data[i]]);
    assert data[..i] + [data[i]] + data[i + 1..] == data;
    assert Flatten([data[i]]) == data[i] by {
      assert [data[i]][..0] == [];
    }
    assert data[i] == data[i][..j] + data[i][j..];
  }

  lemma {:induction false} FlattenAppend(a: seq<seq<Entry>>, b: seq<seq<Entry>>)
    ensures Flatten(a + b) == Flatten(a) + Flatten(b)
    decreases |b|
  {
    if b == [] {
      assert a + b == a;
    } else {
      var b' := b[..|b| - 1];
      FlattenAppend(a, b');
      assert (a + b)[..|a + b| - 1] == a + b';
    }
  }
}
