/** `LibraryEngine.getLibrariesForQuery(platform, query)`: the results of
    the platform's awesome-list scrapers, concatenated, with the first
    library of each link kept, sorted by title. What each scraper returns
    is an input. */
module LibraryEngine {
  import opened Wrappers
  import opened Js
  import opened Strings
  import Sorting

  /** A library as the engine's scrapers hand it over. The awesome-list
      scrapers build theirs without a platform (`AwesomeList.Library`); the
      `platform` tag is what the scrapers of test/library-engine.js:26 add,
      and `LibrariesKeepPlatform` is the property that test checks. With
      the real scrapers the tag is simply `undefined`. */
  datatype Library = Library(title: string, link: string, description: string, platform: string)

  datatype Scraper = AwesomeIos | AwesomeSwift | AwesomeAndroid

  /** `this.awesomeListScrapers[platform]`, in declaration order. */
  function Scrapers(platform: string): (r: Option<seq<Scraper>>)
    ensures r.Some? <==> platform == "ios" || platform == "android"
  {
    if platform == "ios" then Some([AwesomeIos, AwesomeSwift])
    else if platform == "android" then Some([AwesomeAndroid])
    else None
  }

  /** `a.concat(b)` over the batches, left to right. */
  function Concat(batches: seq<seq<Library>>): (r: seq<Library>)
    ensures forall x :: x in r <==> exists i :: 0 <= i < |batches| && x in batches[i]
    decreases |batches|
  {
    if batches == [] then []
    else
      var init := batches[..|batches| - 1];
      var r := Concat(init) + batches[|batches| - 1];
      assert forall i :: 0 <= i < |init| ==> init[i] == batches[i];
      r
  }

  /** The total number of libraries in the batches. */
  function Total(batches: seq<seq<Library>>): nat
    decreases |batches|
  {
    if batches == [] then 0 else Total(batches[..|batches| - 1]) + |batches[|batches| - 1]|
  }

  lemma {:induction false} ConcatLength(batches: seq<seq<Library>>)
    ensures |Concat(batches)| == Total(batches)
    decreases |batches|
  {
    if batches != [] {
      ConcatLength(batches[..|batches| - 1]);
    }
  }

  /** `reduce((a, b) => a.concat(b))` with no initial value: a `TypeError`
      on an empty array. */
  function Reduced(batches: seq<seq<Library>>): (r: Outcome<seq<Library>>)
    ensures r.Throws? <==> batches == []
    ensures r.Ok? ==> r.value == Concat(batches)
  {
    if batches == [] then Throws(TypeError)
    else
      assert Concat(batches[..1]) == batches[0] by {
        assert batches[..1][..0] == [];
      }
      Ok(Concat(batches))
  }

  function LinkSet(s: seq<Library>): set<string> {
    set x | x in s :: x.link
  }

  predicate DistinctLinks(s: seq<Library>) {
    forall i, j :: 0 <= i < j < |s| ==> s[i].link != s[j].link
  }

  /** No library before index `i` has the link of `s[i]`. */
  ghost predicate FirstOfLink(s: seq<Library>, i: nat)
    requires i < |s|
  {
    forall j :: 0 <= j < i ==> s[j].link != s[i].link
  }

  /** The `reduce` that appends a library unless its link is already among
      the libraries kept so far. */
  function Deduped(s: seq<Library>): (r: seq<Library>)
    ensures forall x :: x in r ==> x in s
    ensures |r| <= |s|
    ensures DistinctLinks(r)
    ensures LinkSet(r) == LinkSet(s)
    decreases |s|
  {
    if s == [] then []
    else
      var init := s[..|s| - 1];
      var kept := Deduped(init);
      var x := s[|s| - 1];
      assert s == init + [x];
      assert LinkSet(s) == LinkSet(init) + {x.link};
      if x.link in LinkSet(kept) then kept
      else
        assert LinkSet(kept + [x]) == LinkSet(kept) + {x.link};
        kept + [x]
  }

  /** The libraries kept are exactly those that are the first of their link. */
  lemma {:induction false} DedupedKeepsFirst(s: seq<Library>)
    ensures forall x :: x in Deduped(s) <==> exists i :: 0 <= i < |s| && s[i] == x && FirstOfLink(s, i)
    decreases |s|
  {
    if s != [] {
      var init := s[..|s| - 1];
      var x := s[|s| - 1];
      DedupedKeepsFirst(init);
      assert forall i :: 0 <= i < |init| ==> s[i] == init[i];
      forall y ensures y in Deduped(s) <==> exists i :: 0 <= i < |s| && s[i] == y && FirstOfLink(s, i) {
        if y in Deduped(s) {
          if y in Deduped(init) {
            var i :| 0 <= i < |init| && init[i] == y && FirstOfLink(init, i);
            assert FirstOfLink(s, i);
          } else {
            assert y == x && x.link !in LinkSet(Deduped(init));
            assert FirstOfLink(s, |s| - 1) by {
              forall j | 0 <= j < |s| - 1 ensures s[j].link != x.link {
                assert s[j] in init;
              }
            }
          }
        } else if i :| 0 <= i < |s| && s[i] == y && FirstOfLink(s, i) {
          if i < |init| {
            assert FirstOfLink(init, i);
          }
          assert false;
        }
      }
    }
  }

  /** The comparator `(a, b) => a.title > b.title ? 1 : a.title < b.title ? -1 : 0`. */
  function CompareTitles(a: Library, b: Library): int {
    if LexLess(b.title, a.title) then 1
    else if LexLess(a.title, b.title) then -1
    else 0
  }

  /** `a` may stay before `b`: the comparator does not say `a > b`. */
  predicate TitleLe(a: Library, b: Library) {
    CompareTitles(a, b) <= 0
  }

  lemma NotAboveIsLe(a: string, b: string)
    ensures !LexLess(b, a) <==> LexLe(a, b)
  {
    LexLeTotal(a, b);
    if LexLe(a, b) && LexLe(b, a) {
      LexLeAntisymmetric(a, b);
    }
  }

  lemma TitleLeIsTotalPreorder()
    ensures Sorting.TotalPreorder(TitleLe)
  {
    forall a: Library, b: Library ensures TitleLe(a, b) <==> LexLe(a.title, b.title) {
      NotAboveIsLe(a.title, b.title);
    }
    forall a: Library, b: Library ensures TitleLe(a, b) || TitleLe(b, a) {
      LexLeTotal(a.title, b.title);
    }
    forall a: Library, b: Library, c: Library | TitleLe(a, b) && TitleLe(b, c) ensures TitleLe(a, c) {
      LexLeTransitive(a.title, b.title, c.title);
    }
  }

  /** The libraries of all the platform's scrapers, in the order the
      scrapers are declared. */
  function Batches(scrapers: seq<Scraper>, scraped: Scraper -> seq<Library>): (b: seq<seq<Library>>)
    ensures |b| == |scrapers|
    ensures forall i :: 0 <= i < |b| ==> b[i] == scraped(scrapers[i])
  {
    seq(|scrapers|, i requires 0 <= i < |scrapers| => scraped(scrapers[i]))
  }

  /** `getLibrariesForQuery(platform, query)`, `scraped` being what each
      scraper emits for the query. An unknown platform has no scrapers, and
      `scrapers.map` throws. */
  function GetLibrariesForQuery(platform: string, scraped: Scraper -> seq<Library>): (r: Outcome<seq<Library>>)
    ensures r.Throws? <==> platform != "ios" && platform != "android"
  {
    match Scrapers(platform)
    case None => Throws(TypeError)
    case Some(scrapers) =>
      match Reduced(Batches(scrapers, scraped))
      case Throws(f) => Throws(f)
      case Ok(all) => Ok(Sorting.Sort(Deduped(all), TitleLe))
  }

  /** Sorting keeps the links distinct. */
  lemma SortKeepsDistinctLinks(d: seq<Library>)
    requires DistinctLinks(d)
    ensures DistinctLinks(Sorting.Sort(d, TitleLe))
  {
    var r := Sorting.Sort(d, TitleLe);
    assert Sorting.Distinct(d);
    Sorting.SortKeepsDistinct(d, TitleLe);
    Sorting.SortKeepsElements(d, TitleLe);
    forall i, j | 0 <= i < j < |r| ensures r[i].link != r[j].link {
      assert r[i] in r && r[j] in r;
      var k :| 0 <= k < |d| && d[k] == r[i];
      var l :| 0 <= l < |d| && d[l] == r[j];
      assert k != l;
    }
  }

  /** What a query returns, over all inputs: no two libraries share a
      link; they are ordered by title; every one was scraped for the
      platform; every scraped link is there, carried by the first library
      scraped with it; and there are no more than were scraped. */
  lemma LibrariesForQuery(platform: string, scraped: Scraper -> seq<Library>)
    ensures var r := GetLibrariesForQuery(platform, scraped);
      r.Ok? ==>
        var scrapers := Scrapers(platform).value;
        var all := Concat(Batches(scrapers, scraped));
        && DistinctLinks(r.value)
        && (forall i, j :: 0 <= i < j < |r.value| ==> LexLe(r.value[i].title, r.value[j].title))
        && (forall x :: x in r.value ==> exists k :: 0 <= k < |scrapers| && x in scraped(scrapers[k]))
        && LinkSet(r.value) == LinkSet(all)
        && (forall x :: x in r.value <==> exists i :: 0 <= i < |all| && all[i] == x && FirstOfLink(all, i))
        && |r.value| <= Total(Batches(scrapers, scraped))
  {
    var r := GetLibrariesForQuery(platform, scraped);
    if r.Ok? {
      var scrapers := Scrapers(platform).value;
      var batches := Batches(scrapers, scraped);
      var all := Concat(batches);
      var d := Deduped(all);
      assert r.value == Sorting.Sort(d, TitleLe);
      SortKeepsDistinctLinks(d);
      TitleLeIsTotalPreorder();
      Sorting.SortSorted(d, TitleLe);
      forall i, j | 0 <= i < j < |r.value| ensures LexLe(r.value[i].title, r.value[j].title) {
        NotAboveIsLe(r.value[i].title, r.value[j].title);
      }
      Sorting.SortKeepsElements(d, TitleLe);
      assert LinkSet(r.value) == LinkSet(d);
      DedupedKeepsFirst(all);
      ConcatLength(batches);
    }
  }

  /** When every scraper of the platform tags its libraries with the
      platform, so is every library returned. */
  lemma LibrariesKeepPlatform(platform: string, scraped: Scraper -> seq<Library>)
    requires Scrapers(platform).Some?
    requires forall k :: 0 <= k < |Scrapers(platform).value| ==>
      forall x :: x in scraped(Scrapers(platform).value[k]) ==> x.platform == platform
    ensures forall x :: x in GetLibrariesForQuery(platform, scraped).value ==> x.platform == platform
  {
    LibrariesForQuery(platform, scraped);
  }
}
