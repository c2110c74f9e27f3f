/** The `ShowSearches` view of the front end: the stored results grouped
    by engine, the organic results of the selected engine with repeated
    URLs dropped, and ten of them per page. The component's state is the
    page number and the selected engine; everything else is derived from
    the list it is given on each render. */
module ShowSearchesView {
  import opened Wrappers
  import opened Text

  /** One result as the front end receives it. `adPromo` is `None` for a
      missing or non-boolean `ad_promo` field. */
  datatype Item = Item(searchEngine: string, url: string, title: string, desc: string, adPromo: Option<bool>) {
    /** `item.ad_promo === false`. */
    predicate IsOrganic() {
      adPromo == Some(false)
    }
  }

  /** One entry of `groupBySearchEngine`: an engine and its items. */
  datatype Group = Group(engine: string, items: seq<Item>)

  const ItemsPerPage := 10

  // ------------------------------------------------------- grouping

  /** `groupBySearchEngine.has(engine)` and where its entry sits. */
  function FindGroup(groups: seq<Group>, engine: string): (r: Option<nat>)
    ensures r.Some? ==> r.value < |groups| && groups[r.value].engine == engine
    ensures r.None? ==> forall j :: 0 <= j < |groups| ==> groups[j].engine != engine
    decreases |groups|
  {
    if groups == [] then None
    else if groups[|groups| - 1].engine == engine then Some(|groups| - 1)
    else FindGroup(groups[..|groups| - 1], engine)
  }

  /** One step of the `forEach`: a new entry for an engine not seen yet,
      then the item pushed onto its engine's entry. */
  function Insert(groups: seq<Group>, item: Item): seq<Group> {
    match FindGroup(groups, item.searchEngine)
    case Some(j) => groups[j := Group(groups[j].engine, groups[j].items + [item])]
    case None => groups + [Group(item.searchEngine, [item])]
  }

  /** `groupBySearchEngine` built from a list. */
  function GroupsOf(list: seq<Item>): seq<Group>
    decreases |list|
  {
    if list == [] then [] else Insert(GroupsOf(list[..|list| - 1]), list[|list| - 1])
  }

  /** The engines of a list, each once, in the order they first appear. */
  function FirstSeen(list: seq<Item>): seq<string>
    decreases |list|
  {
    if list == [] then []
    else
      var init := FirstSeen(list[..|list| - 1]);
      var e := list[|list| - 1].searchEngine;
      if e in init then init else init + [e]
  }

  /** The items of one engine, in list order. */
  function ByEngine(list: seq<Item>, engine: string): seq<Item>
    decreases |list|
  {
    if list == [] then []
    else
      var init := ByEngine(list[..|list| - 1], engine);
      if list[|list| - 1].searchEngine == engine then init + [list[|list| - 1]] else init
  }

  function Engines(groups: seq<Group>): (r: seq<string>)
    ensures |r| == |groups| && forall j :: 0 <= j < |groups| ==> r[j] == groups[j].engine
  {
    seq(|groups|, j requires 0 <= j < |groups| => groups[j].engine)
  }

  predicate Distinct(s: seq<string>) {
    forall i, j :: 0 <= i < j < |s| ==> s[i] != s[j]
  }

  /** Every engine of the list is seen, and each once. */
  lemma {:induction false} FirstSeenFacts(list: seq<Item>)
    ensures Distinct(FirstSeen(list))
    ensures forall i :: 0 <= i < |list| ==> list[i].searchEngine in FirstSeen(list)
    decreases |list|
  {
    if list != [] {
      var init := list[..|list| - 1];
      FirstSeenFacts(init);
      assert forall i :: 0 <= i < |init| ==> init[i] == list[i];
    }
  }

  /** Only engines of the list are seen, so no group is empty. */
  lemma {:induction false} FirstSeenNonEmpty(list: seq<Item>)
    ensures forall e :: e in FirstSeen(list) ==> ByEngine(list, e) != []
    decreases |list|
  {
    if list != [] {
      var init := list[..|list| - 1];
      FirstSeenNonEmpty(init);
      var e := list[|list| - 1].searchEngine;
      forall x | x in FirstSeen(list)
        ensures ByEngine(list, x) != []
      {
        if x != e {
          assert x in FirstSeen(init);
        }
      }
    }
  }

  lemma {:induction false} ByEngineUnseen(list: seq<Item>, engine: string)
    requires forall i :: 0 <= i < |list| ==> list[i].searchEngine != engine
    ensures ByEngine(list, engine) == []
    decreases |list|
  {
    if list != [] {
      ByEngineUnseen(list[..|list| - 1], engine);
    }
  }

  /** The groups keep the engines in first-seen order and, for each
      engine, its items in list order; as the engines are distinct every
      item lands in exactly one group. */
  lemma {:induction false} GroupsOfSpec(list: seq<Item>)
    ensures Engines(GroupsOf(list)) == FirstSeen(list)
    ensures forall j :: 0 <= j < |GroupsOf(list)| ==> GroupsOf(list)[j].items == ByEngine(list, GroupsOf(list)[j].engine)
    decreases |list|
  {
    if list != [] {
      GroupsOfSpec(list[..|list| - 1]);
      GroupsOfStep(list);
    } else {
      assert GroupsDescribe(GroupsOf(list), list);
    }
  }

  /** The groups described for a list: first-seen engines, each with its
      items in list order. */
  predicate GroupsDescribe(groups: seq<Group>, list: seq<Item>) {
    Engines(groups) == FirstSeen(list) &&
    forall j :: 0 <= j < |groups| ==> groups[j].items == ByEngine(list, groups[j].engine)
  }

  lemma {:induction false} GroupsOfStep(list: seq<Item>)
    requires list != [] && GroupsDescribe(GroupsOf(list[..|list| - 1]), list[..|list| - 1])
    ensures GroupsDescribe(GroupsOf(list), list)
  {
    var init := list[..|list| - 1];
    var item := list[|list| - 1];
    FirstSeenFacts(init);
    match FindGroup(GroupsOf(init), item.searchEngine)
    case Some(j) => GroupsOfFound(list, j);
    case None => GroupsOfNew(list);
  }

  /** The item's engine has its group already: the item joins it. */
  lemma {:induction false} GroupsOfFound(list: seq<Item>, j: nat)
    requires list != [] && GroupsDescribe(GroupsOf(list[..|list| - 1]), list[..|list| - 1])
    requires Distinct(FirstSeen(list[..|list| - 1]))
    requires FindGroup(GroupsOf(list[..|list| - 1]), list[|list| - 1].searchEngine) == Some(j)
    ensures GroupsDescribe(GroupsOf(list), list)
  {
    var init := list[..|list| - 1];
    var item := list[|list| - 1];
    var gs := GroupsOf(init);
    assert item.searchEngine in FirstSeen(init) by {
      assert Engines(gs)[j] == item.searchEngine;
    }
    assert GroupsOf(list) == gs[j := Group(gs[j].engine, gs[j].items + [item])];
    assert Engines(GroupsOf(list)) == Engines(gs);
    forall i | 0 <= i < |GroupsOf(list)|
      ensures GroupsOf(list)[i].items == ByEngine(list, GroupsOf(list)[i].engine)
    {
      if i != j {
        assert Engines(gs)[i] != Engines(gs)[j];
      }
    }
  }

  /** The item's engine is new: a group of its own is appended. */
  lemma {:induction false} GroupsOfNew(list: seq<Item>)
    requires list != [] && GroupsDescribe(GroupsOf(list[..|list| - 1]), list[..|list| - 1])
    requires FindGroup(GroupsOf(list[..|list| - 1]), list[|list| - 1].searchEngine).None?
    ensures GroupsDescribe(GroupsOf(list), list)
  {
    var init := list[..|list| - 1];
    var item := list[|list| - 1];
    var gs := GroupsOf(init);
    assert forall j :: 0 <= j < |gs| ==> Engines(gs)[j] != item.searchEngine;
    assert item.searchEngine !in FirstSeen(init);
    FirstSeenFacts(init);
    ByEngineUnseen(init, item.searchEngine);
    assert GroupsOf(list) == gs + [Group(item.searchEngine, [item])];
    assert Engines(GroupsOf(list)) == Engines(gs) + [item.searchEngine];
    forall i | 0 <= i < |GroupsOf(list)|
      ensures GroupsOf(list)[i].items == ByEngine(list, GroupsOf(list)[i].engine)
    {
      if i < |gs| {
        assert Engines(gs)[i] != item.searchEngine;
      }
    }
  }

  /** Each item is in the group of its own engine and in no other. */
  lemma ItemInOneGroup(list: seq<Item>, i: nat)
    requires i < |list|
    ensures exists j :: 0 <= j < |GroupsOf(list)| && GroupsOf(list)[j].engine == list[i].searchEngine
    ensures forall j, k :: 0 <= j < k < |GroupsOf(list)| ==> GroupsOf(list)[j].engine != GroupsOf(list)[k].engine
  {
    GroupsOfSpec(list);
    FirstSeenFacts(list);
    var gs := GroupsOf(list);
    assert Engines(gs) == FirstSeen(list);
    var j :| 0 <= j < |FirstSeen(list)| && FirstSeen(list)[j] == list[i].searchEngine;
    assert gs[j].engine == list[i].searchEngine;
  }

  lemma InsertStep(list: seq<Item>, i: nat)
    requires i < |list|
    ensures GroupsOf(list[..i + 1]) == Insert(GroupsOf(list[..i]), list[i])
  {
    assert list[..i + 1][..i] == list[..i];
  }

  /** The `forEach` that fills `groupBySearchEngine`. */
  method GroupBySearchEngine(urlList: seq<Item>) returns (groups: seq<Group>)
    ensures groups == GroupsOf(urlList)
  {
    groups := [];
    for i := 0 to |urlList|
      invariant groups == GroupsOf(urlList[..i])
    {
      var item := urlList[i];
      InsertStep(urlList, i);
      ghost var before := groups;
      var found := FindGroup(groups, item.searchEngine);
      if found.None? {
        groups := groups + [Group(item.searchEngine, [])];
      }
      var j := if found.Some? then found.value else |groups| - 1;
      groups := groups[j := Group(groups[j].engine, groups[j].items + [item])];
      if found.None? {
        assert [] + [item] == [item];
        assert groups == before + [Group(item.searchEngine, [item])];
      }
    }
    assert urlList[..|urlList|] == urlList;
  }

  /** `groupBySearchEngine.get(engine) ?? []`. */
  function ItemsOf(groups: seq<Group>, engine: string): seq<Item> {
    match FindGroup(groups, engine)
    case Some(j) => groups[j].items
    case None => []
  }

  // ------------------------------------------------------- filtering

  /** `r` is `s` read at the increasing positions `idx`: what a `.filter`
      keeps, in the original order. */
  predicate Picks<T(==)>(r: seq<T>, s: seq<T>, idx: seq<nat>) {
    |idx| == |r| &&
    (forall a, b :: 0 <= a < b < |idx| ==> idx[a] < idx[b]) &&
    (forall a :: 0 <= a < |idx| ==> idx[a] < |s| && s[idx[a]] == r[a])
  }

  /** One more element of `s`, kept or not. */
  lemma {:induction false} PicksSnoc<T>(r: seq<T>, s: seq<T>, idx: seq<nat>, x: T, keep: bool)
    requires Picks(r, s, idx)
    ensures keep ==> Picks(r + [x], s + [x], idx + [|s|])
    ensures !keep ==> Picks(r, s + [x], idx)
    ensures forall k :: k in (if keep then idx + [|s|] else idx) <==> k in idx || (keep && k == |s|)
    ensures |s| !in idx
  {
    var s' := s + [x];
    assert forall a :: 0 <= a < |idx| ==> s'[idx[a]] == s[idx[a]];
  }

  /** `.filter((item) => item.ad_promo === false)`. */
  function Organic(items: seq<Item>): (r: seq<Item>)
    ensures |r| <= |items|
    ensures forall k :: 0 <= k < |r| ==> r[k].IsOrganic() && r[k] in items
    decreases |items|
  {
    if items == [] then []
    else
      var init := Organic(items[..|items| - 1]);
      var last := items[|items| - 1];
      if last.IsOrganic() then init + [last] else init
  }

  /** `r` is `items` at the positions `idx`, and those are exactly the
      positions of the organic items. */
  predicate OrganicAt(r: seq<Item>, items: seq<Item>, idx: seq<nat>) {
    Picks(r, items, idx) && forall k :: 0 <= k < |items| ==> (k in idx <==> items[k].IsOrganic())
  }

  /** The filter keeps exactly the items whose `ad_promo` is `false`, in
      their original order. */
  lemma {:induction false} OrganicPicks(items: seq<Item>)
    ensures exists idx: seq<nat> :: OrganicAt(Organic(items), items, idx)
    decreases |items|
  {
    if items == [] {
      var none: seq<nat> := [];
      assert OrganicAt(Organic(items), items, none);
    } else {
      var n := |items| - 1;
      var init := items[..n];
      OrganicPicks(init);
      var idx: seq<nat> :| OrganicAt(Organic(init), init, idx);
      assert items == init + [items[n]];
      var next: seq<nat> := if items[n].IsOrganic() then idx + [n] else idx;
      OrganicStep(init, items[n], idx, Organic(init));
      assert OrganicAt(Organic(items), items, next);
    }
  }

  /** A picked position is an element of the result. */
  lemma {:induction false} PickedIn<T>(r: seq<T>, s: seq<T>, idx: seq<nat>, k: nat)
    requires Picks(r, s, idx) && k in idx
    ensures k < |s| && s[k] in r
  {
    var a :| 0 <= a < |idx| && idx[a] == k;
    assert r[a] == s[k];
  }

  /** Every item whose `ad_promo` is `false` is kept. */
  lemma {:induction false} OrganicKeepsAll(items: seq<Item>)
    ensures forall k :: 0 <= k < |items| && items[k].IsOrganic() ==> items[k] in Organic(items)
  {
    OrganicPicks(items);
    var idx: seq<nat> :| OrganicAt(Organic(items), items, idx);
    forall k | 0 <= k < |items| && items[k].IsOrganic()
      ensures items[k] in Organic(items)
    {
      PickedIn(Organic(items), items, idx, k);
    }
  }

  lemma {:induction false} OrganicStep(init: seq<Item>, last: Item, idx: seq<nat>, r: seq<Item>)
    requires OrganicAt(r, init, idx)
    ensures OrganicAt(if last.IsOrganic() then r + [last] else r, init + [last],
                      if last.IsOrganic() then idx + [|init|] else idx)
  {
    var items := init + [last];
    var keep := last.IsOrganic();
    PicksSnoc(r, init, idx, last, keep);
    var next: seq<nat> := if keep then idx + [|init|] else idx;
    forall k | 0 <= k < |items|
      ensures k in next <==> items[k].IsOrganic()
    {
      if k < |init| {
        assert items[k] == init[k];
      }
    }
  }

  /** The URLs of the organic items. */
  function OrganicUrls(items: seq<Item>): set<string> {
    set k | 0 <= k < |items| && items[k].IsOrganic() :: items[k].url
  }

  function Urls(items: seq<Item>): set<string> {
    set k | 0 <= k < |items| :: items[k].url
  }

  /** The second `.filter`, with its `seen` set: the first item of each
      URL, in order. */
  function FirstOfEachUrl(items: seq<Item>): seq<Item>
    decreases |items|
  {
    if items == [] then []
    else
      var init := FirstOfEachUrl(items[..|items| - 1]);
      var last := items[|items| - 1];
      if last.url in Urls(items[..|items| - 1]) then init else init + [last]
  }

  lemma UrlsStep(items: seq<Item>, i: nat)
    requires i < |items|
    ensures Urls(items[..i + 1]) == Urls(items[..i]) + {items[i].url}
  {
    var a, b := items[..i + 1], items[..i];
    forall u | u in Urls(a)
      ensures u in Urls(b) + {items[i].url}
    {
      var k :| 0 <= k < |a| && a[k].url == u;
      if k < i {
        assert b[k] == a[k];
      }
    }
    forall u | u in Urls(b)
      ensures u in Urls(a)
    {
      var k :| 0 <= k < |b| && b[k].url == u;
      assert a[k] == b[k];
    }
    assert a[i] == items[i];
  }

  /** The kept items have distinct URLs, between them every URL of the
      input, and each is the first item of its URL; they are exactly the
      first item of each URL, in the original order. */
  lemma {:induction false} FirstOfEachUrlSpec(items: seq<Item>)
    ensures var r := FirstOfEachUrl(items);
      Urls(r) == Urls(items) &&
      (forall a, b :: 0 <= a < b < |r| ==> r[a].url != r[b].url) &&
      (forall k :: 0 <= k < |r| ==>
        exists i :: (0 <= i < |items| && items[i] == r[k] && forall j :: 0 <= j < i ==> items[j].url != r[k].url))
    ensures exists idx: seq<nat> :: FirstAt(FirstOfEachUrl(items), items, idx)
    decreases |items|
  {
    if items != [] {
      var n := |items| - 1;
      var init := items[..n];
      var last := items[n];
      FirstOfEachUrlSpec(init);
      UrlsStep(items, n);
      assert items[..n + 1] == items;
      var ri := FirstOfEachUrl(init);
      var r := FirstOfEachUrl(items);
      assert forall i :: 0 <= i < |init| ==> init[i] == items[i];
      if last.url !in Urls(init) {
        assert r == ri + [last];
        UrlsStep(r, |ri|);
        assert r[..|ri|] == ri;
        assert forall j :: 0 <= j < n ==> items[j].url != last.url by {
          forall j | 0 <= j < n ensures items[j].url != last.url {
            assert init[j].url in Urls(init);
          }
        }
        forall a | 0 <= a < |ri|
          ensures r[a].url != last.url
        {
          assert r[a].url in Urls(ri);
        }
      }
    }
    FirstOfEachUrlPicks(items);
  }

  /** No earlier item has the same URL. */
  predicate FirstOfItsUrl(items: seq<Item>, k: nat)
    requires k < |items|
  {
    forall j :: 0 <= j < k ==> items[j].url != items[k].url
  }

  /** `r` is `items` at the positions `idx`, and those are exactly the
      positions of the first item of each URL. */
  predicate FirstAt(r: seq<Item>, items: seq<Item>, idx: seq<nat>) {
    Picks(r, items, idx) && forall k :: 0 <= k < |items| ==> (k in idx <==> FirstOfItsUrl(items, k))
  }

  /** The dedup keeps exactly the first item of each URL, in the original
      order. */
  lemma {:induction false} FirstOfEachUrlPicks(items: seq<Item>)
    ensures exists idx: seq<nat> :: FirstAt(FirstOfEachUrl(items), items, idx)
    decreases |items|
  {
    if items == [] {
      var none: seq<nat> := [];
      assert FirstAt(FirstOfEachUrl(items), items, none);
    } else {
      var n := |items| - 1;
      var init := items[..n];
      FirstOfEachUrlPicks(init);
      var idx: seq<nat> :| FirstAt(FirstOfEachUrl(init), init, idx);
      assert items == init + [items[n]];
      SeenIsNotFirst(init, items[n]);
      var next: seq<nat> := if FirstOfItsUrl(items, n) then idx + [n] else idx;
      FirstStep(init, items[n], idx, FirstOfEachUrl(init));
      assert FirstAt(FirstOfEachUrl(items), items, next);
    }
  }

  /** A URL already seen is exactly one that is not met for the first time. */
  lemma {:induction false} SeenIsNotFirst(init: seq<Item>, last: Item)
    ensures last.url in Urls(init) <==> !FirstOfItsUrl(init + [last], |init|)
  {
    var items := init + [last];
    if last.url in Urls(init) {
      var j :| 0 <= j < |init| && init[j].url == last.url;
      assert items[j] == init[j];
    } else {
      forall j | 0 <= j < |init| ensures items[j].url != last.url {
        assert items[j] == init[j];
        assert init[j].url in Urls(init);
      }
    }
  }

  lemma {:induction false} FirstStep(init: seq<Item>, last: Item, idx: seq<nat>, r: seq<Item>)
    requires FirstAt(r, init, idx)
    ensures var keep := FirstOfItsUrl(init + [last], |init|);
      FirstAt(if keep then r + [last] else r, init + [last], if keep then idx + [|init|] else idx)
  {
    var items := init + [last];
    var keep := FirstOfItsUrl(items, |init|);
    PicksSnoc(r, init, idx, last, keep);
    var next: seq<nat> := if keep then idx + [|init|] else idx;
    forall k | 0 <= k < |items|
      ensures k in next <==> FirstOfItsUrl(items, k)
    {
      if k < |init| {
        assert forall j :: 0 <= j <= k ==> items[j] == init[j];
        assert FirstOfItsUrl(init, k) <==> FirstOfItsUrl(items, k);
      }
    }
  }

  /** `filteredItems` for the selected engine. */
  function Filtered(groups: seq<Group>, selected: string): seq<Item> {
    FirstOfEachUrl(Organic(ItemsOf(groups, selected)))
  }

  lemma FirstOfEachStep(items: seq<Item>, i: nat)
    requires i < |items|
    ensures FirstOfEachUrl(items[..i + 1]) ==
      if items[i].url in Urls(items[..i]) then FirstOfEachUrl(items[..i]) else FirstOfEachUrl(items[..i]) + [items[i]]
  {
    assert items[..i + 1][..i] == items[..i];
  }

  /** The computation of `filteredItems`. */
  method FilterItems(groups: seq<Group>, selected: string) returns (items: seq<Item>)
    ensures items == Filtered(groups, selected)
  {
    var seen: set<string> := {};
    var organic := Organic(ItemsOf(groups, selected));
    items := [];
    for i := 0 to |organic|
      invariant seen == Urls(organic[..i]) && items == FirstOfEachUrl(organic[..i])
    {
      var item := organic[i];
      FirstOfEachStep(organic, i);
      UrlsStep(organic, i);
      if item.url in seen {
        continue;
      }
      seen := seen + {item.url};
      items := items + [item];
    }
    assert organic[..|organic|] == organic;
  }

  /** The item is organic and no earlier organic item has its URL. */
  predicate FirstOrganicOfUrl(items: seq<Item>, k: nat)
    requires k < |items|
  {
    items[k].IsOrganic() && forall j :: 0 <= j < k && items[j].IsOrganic() ==> items[j].url != items[k].url
  }

  /** `r` is `items` at the positions `idx`, and those are exactly the
      positions of the first organic item of each URL. */
  predicate FilteredAt(r: seq<Item>, items: seq<Item>, idx: seq<nat>) {
    Picks(r, items, idx) && forall k :: 0 <= k < |items| ==> (k in idx <==> FirstOrganicOfUrl(items, k))
  }

  /** The positions `idx` are the organic positions `i2` read at the
      positions `i1` that the dedup keeps. */
  predicate Composed(i1: seq<nat>, i2: seq<nat>, idx: seq<nat>) {
    |idx| == |i1| && forall a :: 0 <= a < |i1| ==> i1[a] < |i2| && idx[a] == i2[i1[a]]
  }

  lemma {:induction false} ComposedIsFirst(s: seq<Item>, o: seq<Item>, r: seq<Item>, i2: seq<nat>, i1: seq<nat>, idx: seq<nat>, k: nat)
    requires OrganicAt(o, s, i2) && FirstAt(r, o, i1) && Composed(i1, i2, idx)
    requires k < |s| && k in idx
    ensures FirstOrganicOfUrl(s, k)
  {
    var a :| 0 <= a < |idx| && idx[a] == k;
    var m := i1[a];
    assert m in i1;
    assert i2[m] == k && k in i2;
    forall j | 0 <= j < k && s[j].IsOrganic()
      ensures s[j].url != s[k].url
    {
      assert j in i2;
      var m' :| 0 <= m' < |i2| && i2[m'] == j;
      assert m' < m;
      assert o[m'] == s[j] && o[m] == s[k];
    }
  }

  lemma {:induction false} FirstIsComposed(s: seq<Item>, o: seq<Item>, r: seq<Item>, i2: seq<nat>, i1: seq<nat>, idx: seq<nat>, k: nat)
    requires OrganicAt(o, s, i2) && FirstAt(r, o, i1) && Composed(i1, i2, idx)
    requires k < |s| && FirstOrganicOfUrl(s, k)
    ensures k in idx
  {
    assert k in i2;
    var m :| 0 <= m < |i2| && i2[m] == k;
    forall m' | 0 <= m' < m
      ensures o[m'].url != o[m].url
    {
      assert i2[m'] < i2[m] && i2[m'] in i2;
      assert o[m'] == s[i2[m']];
    }
    assert m in i1;
    var a :| 0 <= a < |i1| && i1[a] == m;
    assert idx[a] == k;
  }

  /** Organic filter then dedup: exactly the first organic item of each
      URL, in the original order. */
  lemma {:induction false} FilteredPicks(s: seq<Item>)
    ensures exists idx: seq<nat> :: FilteredAt(FirstOfEachUrl(Organic(s)), s, idx)
  {
    var o := Organic(s);
    var r := FirstOfEachUrl(o);
    OrganicPicks(s);
    var i2: seq<nat> :| OrganicAt(o, s, i2);
    FirstOfEachUrlPicks(o);
    var i1: seq<nat> :| FirstAt(r, o, i1);
    var idx: seq<nat> := seq(|i1|, a requires 0 <= a < |i1| => i2[i1[a]]);
    assert Composed(i1, i2, idx);
    ComposedAt(s, o, r, i2, i1, idx);
  }

  lemma {:induction false} ComposedAt(s: seq<Item>, o: seq<Item>, r: seq<Item>, i2: seq<nat>, i1: seq<nat>, idx: seq<nat>)
    requires OrganicAt(o, s, i2) && FirstAt(r, o, i1) && Composed(i1, i2, idx)
    ensures FilteredAt(r, s, idx)
  {
    ComposedPicks(r, o, s, i1, i2, idx);
    forall k | 0 <= k < |s|
      ensures k in idx <==> FirstOrganicOfUrl(s, k)
    {
      if k in idx {
        ComposedIsFirst(s, o, r, i2, i1, idx, k);
      }
      if FirstOrganicOfUrl(s, k) {
        FirstIsComposed(s, o, r, i2, i1, idx, k);
      }
    }
  }

  /** Picking from a picked sequence picks at the composed positions. */
  lemma {:induction false} ComposedPicks<T>(r: seq<T>, m: seq<T>, s: seq<T>, i1: seq<nat>, i2: seq<nat>, idx: seq<nat>)
    requires Picks(r, m, i1) && Picks(m, s, i2) && Composed(i1, i2, idx)
    ensures Picks(r, s, idx)
  {
  }

  /** The organic filter keeps the URLs of all organic items. */
  lemma {:induction false} OrganicUrlsKept(s: seq<Item>)
    ensures Urls(Organic(s)) == OrganicUrls(s)
  {
    OrganicPicks(s);
    var i2: seq<nat> :| OrganicAt(Organic(s), s, i2);
    OrganicUrlsAt(s, Organic(s), i2);
    OrganicUrlsIn(s, Organic(s), i2);
  }

  lemma {:induction false} OrganicUrlsAt(s: seq<Item>, o: seq<Item>, i2: seq<nat>)
    requires OrganicAt(o, s, i2)
    ensures Urls(o) <= OrganicUrls(s)
  {
    forall u | u in Urls(o)
      ensures u in OrganicUrls(s)
    {
      var m :| 0 <= m < |o| && o[m].url == u;
      assert i2[m] in i2;
      assert s[i2[m]] == o[m];
    }
  }

  lemma {:induction false} OrganicUrlsIn(s: seq<Item>, o: seq<Item>, i2: seq<nat>)
    requires OrganicAt(o, s, i2)
    ensures OrganicUrls(s) <= Urls(o)
  {
    forall u | u in OrganicUrls(s)
      ensures u in Urls(o)
    {
      var k :| 0 <= k < |s| && s[k].IsOrganic() && s[k].url == u;
      assert k in i2;
      var m :| 0 <= m < |i2| && i2[m] == k;
      assert o[m] == s[k];
    }
  }

  /** `filteredItems` holds only organic items of the selected engine,
      with distinct URLs, between them the URL of every organic item of the
      engine; they are exactly the first organic item of each URL, in the
      engine's order. */
  lemma FilteredSpec(groups: seq<Group>, selected: string)
    ensures var r := Filtered(groups, selected);
      (forall k :: 0 <= k < |r| ==> r[k].IsOrganic() && r[k] in ItemsOf(groups, selected)) &&
      (forall a, b :: 0 <= a < b < |r| ==> r[a].url != r[b].url) &&
      Urls(r) == OrganicUrls(ItemsOf(groups, selected))
    ensures exists idx: seq<nat> :: FilteredAt(Filtered(groups, selected), ItemsOf(groups, selected), idx)
  {
    var o := Organic(ItemsOf(groups, selected));
    FirstOfEachUrlSpec(o);
    OrganicUrlsKept(ItemsOf(groups, selected));
    FilteredPicks(ItemsOf(groups, selected));
    var r := Filtered(groups, selected);
    forall k | 0 <= k < |r|
      ensures r[k].IsOrganic() && r[k] in ItemsOf(groups, selected)
    {
      var i :| 0 <= i < |o| && o[i] == r[k] && forall j :: 0 <= j < i ==> o[j].url != r[k].url;
    }
  }

  // ------------------------------------------------------ pagination

  /** An index as `Array.prototype.slice` reads it: a negative one counts
      from the end, and both are clamped to the array. */
  function SliceIndex(x: int, len: nat): (r: nat)
    ensures r <= len
  {
    if x < 0 then (if len + x < 0 then 0 else len + x) else if x > len then len else x
  }

  /** `s.slice(a, b)`. */
  function JsSlice<T>(s: seq<T>, a: int, b: int): seq<T> {
    var i, j := SliceIndex(a, |s|), SliceIndex(b, |s|);
    if i < j then s[i..j] else []
  }

  /** `Math.ceil(n / itemsPerPage)`. */
  function PageCount(n: nat): (c: nat)
    ensures n == 0 ==> c == 0
    ensures n > 0 ==> (c - 1) * ItemsPerPage < n <= c * ItemsPerPage
  {
    (n + ItemsPerPage - 1) / ItemsPerPage
  }

  /** `paginatedItems`: whatever the page number at most ten items; page
      `p` from 1 on is the `p`-th run of ten items, shorter at the end and
      empty past it. */
  function PageOf<T>(s: seq<T>, page: int): (r: seq<T>)
    ensures |r| <= ItemsPerPage
    ensures page >= 1 && (page - 1) * ItemsPerPage >= |s| ==> r == []
    ensures page >= 1 && (page - 1) * ItemsPerPage < |s| ==>
      r == s[(page - 1) * ItemsPerPage..if page * ItemsPerPage <= |s| then page * ItemsPerPage else |s|]
  {
    JsSlice(s, (page - 1) * ItemsPerPage, page * ItemsPerPage)
  }

  /** Each item is on exactly one of the pages 1 to the page count, at its
      place within that page. */
  lemma PagesCover<T>(s: seq<T>, i: nat)
    requires i < |s|
    ensures var p := i / ItemsPerPage + 1;
      1 <= p <= PageCount(|s|) && i % ItemsPerPage < |PageOf(s, p)| && PageOf(s, p)[i % ItemsPerPage] == s[i]
    ensures forall p :: 1 <= p && p != i / ItemsPerPage + 1 ==> s[i] !in PageOf(s, p) || exists k :: 0 <= k < |s| && k != i && s[k] == s[i]
  {
    var p := i / ItemsPerPage + 1;
    forall q | 1 <= q && q != p && s[i] in PageOf(s, q)
      ensures exists k :: 0 <= k < |s| && k != i && s[k] == s[i]
    {
      var m :| 0 <= m < |PageOf(s, q)| && PageOf(s, q)[m] == s[i];
      var k := (q - 1) * ItemsPerPage + m;
      assert s[k] == s[i];
    }
  }

  // ---------------------------------------------------- engine links

  /** `items.some((item) => item.url === url)`. */
  predicate HasUrl(items: seq<Item>, url: string) {
    exists k :: 0 <= k < |items| && items[k].url == url
  }

  /** The engines, in group order, having an item with that URL. */
  function EnginesWithLink(groups: seq<Group>, url: string): (r: seq<string>)
    ensures |r| <= |groups|
    decreases |groups|
  {
    if groups == [] then []
    else
      var init := EnginesWithLink(groups[..|groups| - 1], url);
      var g := groups[|groups| - 1];
      if HasUrl(g.items, url) then init + [g.engine] else init
  }

  /** `r` is the engines of `groups` at the positions `idx`, and those are
      exactly the groups having an item with the URL. */
  predicate LinkedAt(r: seq<string>, groups: seq<Group>, url: string, idx: seq<nat>) {
    Picks(r, Engines(groups), idx) && forall j :: 0 <= j < |groups| ==> (j in idx <==> HasUrl(groups[j].items, url))
  }

  lemma {:induction false} LinkedStep(init: seq<Group>, g: Group, url: string, idx: seq<nat>, r: seq<string>)
    requires LinkedAt(r, init, url, idx)
    ensures LinkedAt(if HasUrl(g.items, url) then r + [g.engine] else r, init + [g], url,
                     if HasUrl(g.items, url) then idx + [|init|] else idx)
  {
    var groups := init + [g];
    var keep := HasUrl(g.items, url);
    assert Engines(groups) == Engines(init) + [g.engine];
    PicksSnoc(r, Engines(init), idx, g.engine, keep);
    var next: seq<nat> := if keep then idx + [|init|] else idx;
    forall j | 0 <= j < |groups|
      ensures j in next <==> HasUrl(groups[j].items, url)
    {
      if j < |init| {
        assert groups[j] == init[j];
      }
    }
  }

  /** The engines named are exactly those of the groups having an item
      with the URL, in group order. */
  lemma {:induction false} EnginesWithLinkPicks(groups: seq<Group>, url: string)
    ensures exists idx: seq<nat> :: LinkedAt(EnginesWithLink(groups, url), groups, url, idx)
    decreases |groups|
  {
    if groups == [] {
      var none: seq<nat> := [];
      assert LinkedAt(EnginesWithLink(groups, url), groups, url, none);
    } else {
      var n := |groups| - 1;
      var init := groups[..n];
      EnginesWithLinkPicks(init, url);
      var idx: seq<nat> :| LinkedAt(EnginesWithLink(init, url), init, url, idx);
      assert groups == init + [groups[n]];
      var next: seq<nat> := if HasUrl(groups[n].items, url) then idx + [n] else idx;
      LinkedStep(init, groups[n], url, idx, EnginesWithLink(init, url));
      assert LinkedAt(EnginesWithLink(groups, url), groups, url, next);
    }
  }

  /** Positions picked from distinct names give distinct names. */
  lemma {:induction false} PicksDistinct(r: seq<string>, s: seq<string>, idx: seq<nat>)
    requires Picks(r, s, idx) && Distinct(s)
    ensures Distinct(r)
  {
    forall a, b | 0 <= a < b < |r|
      ensures r[a] != r[b]
    {
      assert s[idx[a]] == r[a] && s[idx[b]] == r[b];
    }
  }

  /** On the groups of a list, each engine is named at most once, in the
      order the engines first appear in the list, and exactly the engines
      having an item with the URL are named. */
  lemma {:induction false} EnginesWithLinkOnce(list: seq<Item>, url: string)
    ensures Distinct(EnginesWithLink(GroupsOf(list), url))
    ensures exists idx: seq<nat> ::
              Picks(EnginesWithLink(GroupsOf(list), url), FirstSeen(list), idx) &&
              forall j :: 0 <= j < |FirstSeen(list)| ==> (j in idx <==> HasUrl(ByEngine(list, FirstSeen(list)[j]), url))
  {
    var gs := GroupsOf(list);
    GroupsOfSpec(list);
    FirstSeenFacts(list);
    EnginesWithLinkPicks(gs, url);
    var idx: seq<nat> :| LinkedAt(EnginesWithLink(gs, url), gs, url, idx);
    PicksDistinct(EnginesWithLink(gs, url), Engines(gs), idx);
    assert forall j :: 0 <= j < |gs| ==> gs[j].items == ByEngine(list, FirstSeen(list)[j]);
  }

  /** An engine is named exactly when one of its groups has an item with
      the URL; the names are in group order. */
  lemma {:induction false} EnginesWithLinkSpec(groups: seq<Group>, url: string)
    ensures forall e :: e in EnginesWithLink(groups, url) <==>
      exists j :: 0 <= j < |groups| && groups[j].engine == e && HasUrl(groups[j].items, url)
    ensures exists idx: seq<nat> :: LinkedAt(EnginesWithLink(groups, url), groups, url, idx)
    decreases |groups|
  {
    EnginesWithLinkPicks(groups, url);
    if groups != [] {
      var init := groups[..|groups| - 1];
      EnginesWithLinkSpec(init, url);
      assert forall j :: 0 <= j < |init| ==> init[j] == groups[j];
      forall e | exists j :: 0 <= j < |groups| && groups[j].engine == e && HasUrl(groups[j].items, url)
        ensures e in EnginesWithLink(groups, url)
      {
        var j :| 0 <= j < |groups| && groups[j].engine == e && HasUrl(groups[j].items, url);
        if j < |init| {
          assert init[j] == groups[j];
        }
      }
    }
  }

  /** `searchEngineWithThisLink(url)`. */
  function EngineLabel(groups: seq<Group>, url: string): (r: string)
    ensures EnginesWithLink(groups, url) == [] ==> r == ""
  {
    Join(EnginesWithLink(groups, url), ", ")
  }

  /** The label reads back as the engine names, provided none holds ", ". */
  lemma EngineLabelReadsBack(groups: seq<Group>, url: string)
    requires EnginesWithLink(groups, url) != []
    requires forall e :: e in EnginesWithLink(groups, url) ==> !Contains(e, ", ")
    ensures Split(EngineLabel(groups, url), ", ") == EnginesWithLink(groups, url)
  {
    SplitJoin(EnginesWithLink(groups, url), ", ");
  }

  lemma EnginesStep(groups: seq<Group>, i: nat, url: string)
    requires i < |groups|
    ensures EnginesWithLink(groups[..i + 1], url) ==
      if HasUrl(groups[i].items, url) then EnginesWithLink(groups[..i], url) + [groups[i].engine] else EnginesWithLink(groups[..i], url)
  {
    assert groups[..i + 1][..i] == groups[..i];
  }

  /** The loop of `searchEngineWithThisLink`. */
  method SearchEngineWithThisLink(groups: seq<Group>, url: string) returns (joined: string)
    ensures joined == EngineLabel(groups, url)
  {
    var engines: seq<string> := [];
    for i := 0 to |groups|
      invariant engines == EnginesWithLink(groups[..i], url)
    {
      EnginesStep(groups, i, url);
      if HasUrl(groups[i].items, url) {
        engines := engines + [groups[i].engine];
      }
    }
    assert groups[..|groups|] == groups;
    joined := Join(engines, ", ");
  }

  // ------------------------------------------------------- the view

  /** The component: the list it is given, and its two pieces of state. */
  class ShowSearches {
    const urlList: seq<Item>
    var page: int
    var selectedEngine: string

    /** The first render: page 1 and the first engine, or "" without one. */
    constructor(urlList: seq<Item>)
      ensures this.urlList == urlList && page == 1
      ensures selectedEngine == if FirstSeen(urlList) != [] then FirstSeen(urlList)[0] else ""
    {
      this.urlList := urlList;
      page := 1;
      GroupsOfSpec(urlList);
      var groups := GroupBySearchEngine(urlList);
      var searchEngines := Engines(groups);
      selectedEngine := if searchEngines != [] then searchEngines[0] else "";
    }

    function Groups(): seq<Group> {
      GroupsOf(urlList)
    }

    function FilteredItems(): seq<Item>
      reads this
    {
      Filtered(Groups(), selectedEngine)
    }

    function PaginatedItems(): seq<Item>
      reads this
    {
      PageOf(FilteredItems(), page)
    }

    /** The `count` of the pagination control. */
    function Pages(): nat
      reads this
    {
      PageCount(|FilteredItems()|)
    }

    /** `handlePageChange`: the chosen page. */
    method HandlePageChange(value: int)
      modifies this
      ensures page == value && selectedEngine == old(selectedEngine)
    {
      page := value;
    }

    /** `handleChange`: the chosen engine, back on page 1. */
    method HandleChange(value: string)
      modifies this
      ensures selectedEngine == value && page == 1
      ensures FilteredItems() == Filtered(Groups(), value) && PaginatedItems() == PageOf(Filtered(Groups(), value), 1)
    {
      selectedEngine := value;
      page := 1;
    }
  }
}
