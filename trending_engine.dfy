/** `TrendingEngine.getTrendingRepos(language, limit)`: the query date, and
    what is done with the trending list once it has been fetched: the
    limit, the repo records, the language filter, the links and the sort
    by trend. The clock, the HTTP requests and the JSON parsing are inputs. */
module TrendingEngine {
  import opened Wrappers
  import opened Js
  import opened Strings
  import Sorting

  const GithubUrl := "https://github.com"

  // ---------------------------------------------------------------------
  // The query date

  /** `leftpad(n, 2, 0)`. */
  function TwoDigits(n: int): string {
    LeftPad(Decimal(n), 2, '0')
  }

  /** `[year, leftpad(month + 1, 2, 0), leftpad(date - 1, 2, 0)].join('-')`
      for the UTC year, the 0-based UTC month and the UTC day of month. */
  function DateString(year: int, month: int, date: int): string {
    Join([Decimal(year), TwoDigits(month + 1), TwoDigits(date - 1)], "-")
  }

  lemma DigitCount(n: nat)
    ensures |Decimal(n)| == if n < 10 then 1 else |Decimal(n / 10)| + 1
  {
  }

  lemma TwoDigitsOfSmall(n: int)
    requires 0 <= n < 100
    ensures |TwoDigits(n)| == 2 && AllDigits(TwoDigits(n)) && ParseDigits(TwoDigits(n)) == n
  {
    ParseDigitsOfDecimal(n);
    var d := Decimal(n);
    DigitCount(n);
    if n < 10 {
      var t := "0" + d;
      assert TwoDigits(n) == t;
      assert t[..1] == "0" && t[..1][..0] == [] && d[..0] == [];
      assert |d| == 1 && t[1] == d[0] && t[..|t| - 1] == "0";
      assert ParseDigits(d) == DigitValue(d[0]);
      assert ParseDigits(t) == 10 * ParseDigits("0") + DigitValue(t[1]);
    } else {
      DigitCount(n / 10);
      assert TwoDigits(n) == d;
    }
  }

  lemma DateParts(year: int, month: int, date: int)
    ensures DateString(year, month, date) == Decimal(year) + "-" + TwoDigits(month + 1) + "-" + TwoDigits(date - 1)
  {
    var parts := [Decimal(year), TwoDigits(month + 1), TwoDigits(date - 1)];
    assert parts[1..][1..] == [TwoDigits(date - 1)];
    assert Join(parts[1..], "-") == TwoDigits(month + 1) + "-" + TwoDigits(date - 1);
  }

  /** Where the three parts sit in `y-m-d` when `m` and `d` have two characters. */
  lemma Slices(y: string, m: string, d: string)
    requires |m| == 2 && |d| == 2
    ensures var s := y + "-" + m + "-" + d;
      var n := |s|;
      && n == |y| + 6
      && s[..n - 6] == y && s[n - 6] == '-' && s[n - 5..n - 3] == m && s[n - 3] == '-' && s[n - 2..] == d
  {
  }

  /** `year-MM-DD`: the month one more than the 0-based month, the day one
      less than the day of the month, each written with two digits. */
  lemma DateLayout(year: int, month: int, date: int)
    requires 0 <= month < 12 && 1 <= date <= 31
    ensures var s := DateString(year, month, date);
      var n := |s|;
      && n == |Decimal(year)| + 6
      && s[..n - 6] == Decimal(year) && s[n - 6] == '-' && s[n - 3] == '-'
      && AllDigits(s[n - 5..n - 3]) && ParseDigits(s[n - 5..n - 3]) == month + 1
      && AllDigits(s[n - 2..]) && ParseDigits(s[n - 2..]) == date - 1
  {
    TwoDigitsOfSmall(month + 1);
    TwoDigitsOfSmall(date - 1);
    DateParts(year, month, date);
    Slices(Decimal(year), TwoDigits(month + 1), TwoDigits(date - 1));
  }

  /** On the first of a month the day is written `00`. */
  lemma FirstOfMonthIsDayZero(year: int, month: int)
    ensures var s := DateString(year, month, 1); s[|s| - 2..] == "00"
  {
    DateParts(year, month, 1);
    assert TwoDigits(0) == "00";
  }

  // ---------------------------------------------------------------------
  // The trending list

  /** What the GitHub API says about a repo. */
  datatype Details = Details(description: Option<string>, language: Option<string>)

  /** An entry of the trending list: `repo_name`, `count` and, when the
      list carries it, `repo`. */
  datatype Trending = Trending(repoName: string, count: int, repo: Option<Details>)

  datatype Repo = Repo(name: string, trend: int, description: Option<string>, language: Option<string>, link: string)

  function Min(a: int, b: int): int {
    if a <= b then a else b
  }

  /** The end of `results.slice(0, Math.min(limit || 20, results.length))`,
      a negative end counting back from the length; `None` is an
      undefined limit. */
  function SliceEnd(n: nat, limit: Option<int>): (e: nat)
    ensures e <= n
  {
    var m := if limit.None? || limit.value == 0 then 20 else limit.value;
    var end := Min(m, n);
    if end >= 0 then end else if n + end >= 0 then n + end else 0
  }

  /** `{name: repo_name, trend: count}` with the description and language
      of `result.repo`, or else of the repo's API record. */
  function Record(t: Trending, fetch: string -> Details): Details {
    if t.repo.Some? then t.repo.value else fetch(t.repoName)
  }

  function Repos(results: seq<Trending>, limit: Option<int>, fetch: string -> Details): (r: seq<Repo>)
    ensures |r| == SliceEnd(|results|, limit)
    ensures forall i :: 0 <= i < |r| ==>
      && r[i].name == results[i].repoName && r[i].trend == results[i].count
      && r[i].description == Record(results[i], fetch).description
      && r[i].language == Record(results[i], fetch).language
  {
    var e := SliceEnd(|results|, limit);
    seq(e, i requires 0 <= i < e => var d := Record(results[i], fetch); Repo(results[i].repoName, results[i].count, d.description, d.language, ""))
  }

  /** `(repo.language || '').toLowerCase()`. */
  function LoweredLanguage(r: Repo): string {
    if r.language.Some? then ToLower(r.language.value) else ""
  }

  predicate Matches(r: Repo, language: Value) {
    StrictEquals(Str(LoweredLanguage(r)), language)
  }

  /** `repos.filter(repo => lower(repo.language) === language)`. */
  function Filtered(repos: seq<Repo>, language: Value): (r: seq<Repo>)
    ensures |r| <= |repos|
    ensures forall x :: x in r <==> x in repos && Matches(x, language)
    ensures multiset(r) <= multiset(repos)
  {
    if repos == [] then []
    else
      var rest := Filtered(repos[1..], language);
      assert repos == [repos[0]] + repos[1..];
      if Matches(repos[0], language) then [repos[0]] + rest else rest
  }

  /** The filter keeps the input order: filtering two lists one after the
      other is filtering their concatenation. */
  lemma {:induction false} FilteredAppend(a: seq<Repo>, b: seq<Repo>, language: Value)
    ensures Filtered(a + b, language) == Filtered(a, language) + Filtered(b, language)
  {
    if a != [] {
      assert (a + b)[1..] == a[1..] + b;
      FilteredAppend(a[1..], b, language);
    } else {
      assert a + b == b;
    }
  }

  /** A single repo is kept exactly when its language matches. */
  lemma FilteredOne(x: Repo, language: Value)
    ensures Filtered([x], language) == if Matches(x, language) then [x] else []
  {
    assert [x][1..] == [];
  }

  /** `repo.link = githubUrl + '/' + repo.name` on each repo. */
  function Linked(repos: seq<Repo>): (r: seq<Repo>)
    ensures |r| == |repos|
    ensures forall i :: 0 <= i < |r| ==> r[i] == repos[i].(link := GithubUrl + "/" + repos[i].name)
  {
    seq(|repos|, i requires 0 <= i < |repos| => repos[i].(link := GithubUrl + "/" + repos[i].name))
  }

  /** The comparator: the larger trend first. */
  function CompareTrends(a: Repo, b: Repo): int {
    if a.trend < b.trend then 1 else if a.trend > b.trend then -1 else 0
  }

  predicate TrendLe(a: Repo, b: Repo) {
    CompareTrends(a, b) <= 0
  }

  lemma TrendLeIsTotalPreorder()
    ensures Sorting.TotalPreorder(TrendLe)
  {
  }

  /** The repos `getTrendingRepos` emits for the fetched list `results`;
      `fetch` answers the API request of a repo the list does not describe. */
  function TrendingRepos(results: seq<Trending>, language: Value, limit: Option<int>, fetch: string -> Details): seq<Repo> {
    var repos := Repos(results, limit, fetch);
    var kept := if Truthy(language) then Filtered(repos, language) else repos;
    Sorting.Sort(Linked(kept), TrendLe)
  }

  /** No more repos than the limit lets through: 20 when it is undefined
      or 0, at most the limit when it is positive, and for a negative limit
      `slice(0, limit)` counts back from the end of the list. */
  lemma TrendingLimit(results: seq<Trending>, language: Value, limit: Option<int>, fetch: string -> Details)
    ensures var out := TrendingRepos(results, language, limit, fetch);
      && |out| <= SliceEnd(|results|, limit)
      && (limit.None? || limit.value == 0 ==> |out| <= Min(20, |results|))
      && (limit.Some? && limit.value > 0 ==> |out| <= Min(limit.value, |results|))
      && (limit.Some? && limit.value < 0 ==>
            |out| <= if |results| + limit.value >= 0 then |results| + limit.value else 0)
  {
  }

  /** Each repo emitted is one of the entries considered, with its name,
      its trend and its GitHub link; with a language, of that language. */
  lemma TrendingOrigins(results: seq<Trending>, language: Value, limit: Option<int>, fetch: string -> Details)
    ensures var out := TrendingRepos(results, language, limit, fetch);
      forall x :: x in out ==>
        && x.link == GithubUrl + "/" + x.name
        && (exists i :: 0 <= i < SliceEnd(|results|, limit) && x.name == results[i].repoName && x.trend == results[i].count)
        && (Truthy(language) ==> Str(LoweredLanguage(x)) == language)
  {
    var repos := Repos(results, limit, fetch);
    var kept := if Truthy(language) then Filtered(repos, language) else repos;
    var linked := Linked(kept);
    Sorting.SortKeepsElements(linked, TrendLe);
    forall x | x in TrendingRepos(results, language, limit, fetch)
      ensures x.link == GithubUrl + "/" + x.name
      ensures exists i :: 0 <= i < |repos| && x.name == results[i].repoName && x.trend == results[i].count
      ensures Truthy(language) ==> Str(LoweredLanguage(x)) == language
    {
      var k :| 0 <= k < |linked| && linked[k] == x;
      assert kept[k] in kept;
      var i :| 0 <= i < |repos| && repos[i] == kept[k];
    }
  }

  /** With a language, a considered repo is emitted exactly when its
      lower-cased language is that language; without one, every considered
      repo is emitted, and nothing else. */
  lemma TrendingLanguage(results: seq<Trending>, language: Value, limit: Option<int>, fetch: string -> Details)
    ensures var out := TrendingRepos(results, language, limit, fetch);
      var repos := Repos(results, limit, fetch);
      && (Truthy(language) ==> forall i :: 0 <= i < |repos| ==>
            (repos[i].(link := GithubUrl + "/" + repos[i].name) in out <==> Matches(repos[i], language)))
      && (!Truthy(language) ==> multiset(out) == multiset(Linked(repos)))
  {
    var repos := Repos(results, limit, fetch);
    var kept := if Truthy(language) then Filtered(repos, language) else repos;
    var linked := Linked(kept);
    var out := TrendingRepos(results, language, limit, fetch);
    Sorting.SortKeepsElements(linked, TrendLe);
    Sorting.SortPermutes(linked, TrendLe);
    if Truthy(language) {
      forall i | 0 <= i < |repos|
        ensures repos[i].(link := GithubUrl + "/" + repos[i].name) in out <==> Matches(repos[i], language)
      {
        LinkedMember(kept, repos[i]);
      }
    }
  }

  /** A repo with its link set is among the linked repos exactly when the
      repo is among those linked. */
  lemma LinkedMember(kept: seq<Repo>, r: Repo)
    ensures r.(link := GithubUrl + "/" + r.name) in Linked(kept) <==> exists x :: x in kept && x.(link := "") == r.(link := "")
  {
    var y := r.(link := GithubUrl + "/" + r.name);
    if y in Linked(kept) {
      var k :| 0 <= k < |kept| && Linked(kept)[k] == y;
      assert kept[k] in kept && kept[k].(link := "") == r.(link := "");
    }
    if x :| x in kept && x.(link := "") == r.(link := "") {
      var k :| 0 <= k < |kept| && kept[k] == x;
      assert Linked(kept)[k] == y;
    }
  }

  /** The repos come out by falling trend, and are the filtered ones
      reordered. */
  lemma TrendingOrder(results: seq<Trending>, language: Value, limit: Option<int>, fetch: string -> Details)
    ensures var out := TrendingRepos(results, language, limit, fetch);
      var repos := Repos(results, limit, fetch);
      && (forall i, j :: 0 <= i < j < |out| ==> out[i].trend >= out[j].trend)
      && multiset(out) == multiset(Linked(if Truthy(language) then Filtered(repos, language) else repos))
  {
    var repos := Repos(results, limit, fetch);
    var linked := Linked(if Truthy(language) then Filtered(repos, language) else repos);
    TrendLeIsTotalPreorder();
    Sorting.SortSorted(linked, TrendLe);
    Sorting.SortPermutes(linked, TrendLe);
  }
}
