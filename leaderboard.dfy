/** The leaderboard text shared by every revision of the scoring code:
    keep positive scores, group the labels by equal points, order the point
    values as STRINGS in descending order, keep the top ten groups and write
    one line per label, with the rank on a group's first line and a crown on
    the first group. The sparkline drawn by the `clark` package is a given
    function of the shown point values. */
module Leaderboard {
  import opened Js
  import opened Strings
  import Sorting

  /** One scored user: its display label and its integer score. */
  datatype Score = Score(who: string, points: int)

  const Crown := " \U{1F451}"
  const NoScores := "No scores yet"

  /** `.filter(score => score.points > 0)`. */
  function Positive(scores: seq<Score>): (r: seq<Score>)
    ensures |r| <= |scores|
    ensures forall s :: s in r <==> s in scores && s.points > 0
  {
    if scores == [] then []
    else
      var rest := Positive(scores[..|scores| - 1]);
      var last := scores[|scores| - 1];
      assert scores == scores[..|scores| - 1] + [last];
      if last.points > 0 then rest + [last] else rest
  }

  /** The labels of the scores worth `p` points, in input order. */
  function Members(scores: seq<Score>, p: int): (r: seq<string>)
    ensures |r| <= |scores|
  {
    if scores == [] then []
    else
      var last := scores[|scores| - 1];
      Members(scores[..|scores| - 1], p) + (if last.points == p then [last.who] else [])
  }

  /** Dropping the scores that are not positive leaves every positive
      group with the same labels in the same order, and no other group. */
  lemma {:induction false} PositiveKeepsGroups(scores: seq<Score>, p: int)
    ensures Members(Positive(scores), p) == if p > 0 then Members(scores, p) else []
  {
    if scores != [] {
      var init := scores[..|scores| - 1];
      var last := scores[|scores| - 1];
      var rest := Positive(init);
      PositiveKeepsGroups(init, p);
      if last.points > 0 {
        assert (rest + [last])[..|rest|] == rest;
      }
    }
  }

  /** The set of point values that occur. */
  function Points(scores: seq<Score>): set<int> {
    set s | s in scores :: s.points
  }

  /** The distinct point values, in order of first appearance. */
  function PointValues(scores: seq<Score>): (r: seq<int>)
    ensures Sorting.Distinct(r)
    ensures forall p :: p in r <==> p in Points(scores)
  {
    if scores == [] then []
    else
      var rest := PointValues(scores[..|scores| - 1]);
      var last := scores[|scores| - 1];
      assert scores == scores[..|scores| - 1] + [last];
      if last.points in rest then rest else rest + [last.points]
  }

  /** The grouping object built by the `reduce`: point value -> labels. */
  function Groups(scores: seq<Score>): (g: map<int, seq<string>>)
    ensures forall p :: p in g <==> p in PointValues(scores)
  {
    map p | p in PointValues(scores) :: Members(scores, p)
  }

  /** Extending the input by one score extends the groups by one label. */
  lemma GroupsSnoc(scores: seq<Score>, i: nat)
    requires i < |scores|
    ensures PointValues(scores[..i + 1]) ==
      if scores[i].points in PointValues(scores[..i]) then PointValues(scores[..i])
      else PointValues(scores[..i]) + [scores[i].points]
    ensures forall p :: Members(scores[..i + 1], p) == Members(scores[..i], p) + (if scores[i].points == p then [scores[i].who] else [])
  {
    assert scores[..i + 1][..i] == scores[..i];
  }

  /** The loop state after the first `i` scores of the fold. */
  ghost predicate Folded(scores: seq<Score>, i: nat, groups: map<int, seq<string>>, keys: seq<int>)
    requires i <= |scores|
  {
    && keys == PointValues(scores[..i])
    && (forall p :: p in groups <==> p in keys)
    && (forall p :: p in groups ==> groups[p] == Members(scores[..i], p))
  }

  /** One step of the fold keeps the loop state. */
  lemma FoldStep(scores: seq<Score>, i: nat, groups: map<int, seq<string>>, keys: seq<int>)
    requires i < |scores| && Folded(scores, i, groups, keys)
    ensures var s := scores[i];
      if s.points in groups then Folded(scores, i + 1, groups[s.points := groups[s.points] + [s.who]], keys)
      else Folded(scores, i + 1, groups[s.points := [s.who]], keys + [s.points])
  {
    GroupsSnoc(scores, i);
    var s := scores[i];
    var g := if s.points in groups then groups[s.points := groups[s.points] + [s.who]] else groups[s.points := [s.who]];
    var k := if s.points in groups then keys else keys + [s.points];
    assert k == PointValues(scores[..i + 1]);
    forall p | p in g ensures g[p] == Members(scores[..i + 1], p) {
      if p != s.points {
        assert g[p] == groups[p];
      } else if s.points !in groups {
        assert s.points !in PointValues(scores[..i]);
        MembersWithout(scores[..i], p);
      }
    }
  }

  /** A point value that never occurs has no members. */
  lemma {:induction false} MembersWithout(scores: seq<Score>, p: int)
    requires p !in PointValues(scores)
    ensures Members(scores, p) == []
  {
    if scores != [] {
      var init := scores[..|scores| - 1];
      assert p !in PointValues(init);
      MembersWithout(init, p);
    }
  }

  /** The fold of the source: one pass, appending each label to its group. */
  method GroupByPoints(scores: seq<Score>) returns (groups: map<int, seq<string>>, keys: seq<int>)
    ensures keys == PointValues(scores)
    ensures groups == Groups(scores)
  {
    groups := map[];
    keys := [];
    for i := 0 to |scores|
      invariant Folded(scores, i, groups, keys)
    {
      var s := scores[i];
      FoldStep(scores, i, groups, keys);
      if s.points in groups {
        groups := groups[s.points := groups[s.points] + [s.who]];
      } else {
        groups := groups[s.points := [s.who]];
        keys := keys + [s.points];
      }
    }
    assert scores[..|scores|] == scores;
    FoldedIsGroups(scores, groups, keys);
  }

  lemma FoldedIsGroups(scores: seq<Score>, groups: map<int, seq<string>>, keys: seq<int>)
    requires Folded(scores, |scores|, groups, keys)
    ensures groups == Groups(scores)
  {
    assert scores[..|scores|] == scores;
    assert forall p :: p in groups <==> p in Groups(scores);
  }

  /** Object keys compare as the decimal strings of the point values. */
  predicate KeyLe(a: int, b: int) {
    LexLe(Decimal(a), Decimal(b))
  }

  lemma KeyLeIsTotalPreorder()
    ensures Sorting.TotalPreorder(KeyLe)
  {
    forall a: int, b: int ensures KeyLe(a, b) || KeyLe(b, a) {
      LexLeTotal(Decimal(a), Decimal(b));
    }
    forall a: int, b: int, c: int | KeyLe(a, b) && KeyLe(b, c) ensures KeyLe(a, c) {
      LexLeTransitive(Decimal(a), Decimal(b), Decimal(c));
    }
  }

  /** Distinct point values have distinct keys, so the key order is
      antisymmetric. */
  lemma KeyLeIsAntisymmetric()
    ensures Sorting.Antisymmetric(KeyLe)
  {
    forall a: int, b: int | KeyLe(a, b) && KeyLe(b, a) ensures a == b {
      LexLeAntisymmetric(Decimal(a), Decimal(b));
      DecimalInjective(a, b);
    }
  }

  /** The ranking depends only on which point values occur, not on the
      order in which `Object.keys` lists them. */
  lemma RankedIgnoresKeyOrder(keys: seq<int>, others: seq<int>)
    requires Sorting.Distinct(keys) && Sorting.Distinct(others)
    requires forall p :: p in keys <==> p in others
    ensures Ranked(keys) == Ranked(others)
  {
    DistinctSameElements(keys, others);
    KeyLeIsTotalPreorder();
    KeyLeIsAntisymmetric();
    Sorting.SortIgnoresOrder(keys, others, KeyLe);
  }

  /** Two lists without repetitions and with the same elements are
      permutations of each other. */
  lemma DistinctSameElements(a: seq<int>, b: seq<int>)
    requires Sorting.Distinct(a) && Sorting.Distinct(b)
    requires forall p :: p in a <==> p in b
    ensures multiset(a) == multiset(b)
  {
    DistinctMultiset(a);
    DistinctMultiset(b);
    forall p ensures multiset(a)[p] == multiset(b)[p] {
      assert p in a <==> p in multiset(a);
      assert p in b <==> p in multiset(b);
    }
  }

  /** In a list without repetitions every element occurs once. */
  lemma {:induction false} DistinctMultiset(a: seq<int>)
    requires Sorting.Distinct(a)
    ensures forall p :: multiset(a)[p] == if p in a then 1 else 0
  {
    if a != [] {
      var init := a[..|a| - 1];
      assert a == init + [a[|a| - 1]];
      assert a[|a| - 1] !in init;
      DistinctMultiset(init);
    }
  }

  /** The ascending string sort of the keys is ordered. */
  lemma SortedKeys(keys: seq<int>)
    ensures Sorting.Sorted(Sorting.Sort(keys, KeyLe), KeyLe)
  {
    KeyLeIsTotalPreorder();
    Sorting.SortSorted(keys, KeyLe);
  }

  function Min(a: int, b: int): int {
    if a < b then a else b
  }

  /** `Object.keys(scores).sort().reverse()` cut to its first ten. */
  function Ranked(keys: seq<int>): seq<int> {
    var desc := Sorting.Reverse(Sorting.Sort(keys, KeyLe));
    desc[..Min(10, |desc|)]
  }

  /** The ranking facts that follow from the sort, stated on the key type. */
  lemma RankedFromSort(keys: seq<int>)
    requires Sorting.Distinct(keys)
    ensures |Ranked(keys)| == Min(10, |keys|)
    ensures forall i, j :: 0 <= i < j < |Ranked(keys)| ==>
      KeyLe(Ranked(keys)[j], Ranked(keys)[i]) && Ranked(keys)[j] != Ranked(keys)[i]
    ensures forall p :: p in Ranked(keys) ==> p in keys
    ensures forall p, q :: p in keys && p !in Ranked(keys) && q in Ranked(keys) ==> KeyLe(p, q)
  {
    var sorted := Sorting.Sort(keys, KeyLe);
    SortedKeys(keys);
    Sorting.SortKeepsDistinct(keys, KeyLe);
    Sorting.SortKeepsElements(keys, KeyLe);
    var k := Min(10, |keys|);
    Sorting.TopOfReversed(sorted, KeyLe, k);
    var r := Ranked(keys);
    assert r == Sorting.Reverse(sorted)[..k];
    forall p | p in r ensures p in keys {
      var i :| 0 <= i < |r| && r[i] == p;
      Sorting.IndexOfReversed(sorted, i);
    }
  }

  /** Different point values have different decimal strings. */
  lemma KeyLessOf(p: int, q: int)
    requires KeyLe(p, q) && p != q
    ensures LexLess(Decimal(p), Decimal(q))
  {
    if Decimal(p) == Decimal(q) {
      DecimalInjective(p, q);
    }
  }

  /** The shown point values are in strictly descending STRING order. */
  lemma RankedDescending(keys: seq<int>)
    requires Sorting.Distinct(keys)
    ensures forall i, j :: 0 <= i < j < |Ranked(keys)| ==> LexLess(Decimal(Ranked(keys)[j]), Decimal(Ranked(keys)[i]))
  {
    RankedFromSort(keys);
    var r := Ranked(keys);
    forall i, j | 0 <= i < j < |r| ensures LexLess(Decimal(r[j]), Decimal(r[i])) {
      KeyLessOf(r[j], r[i]);
    }
  }

  /** At most ten groups are shown, taken from the keys, and every point value
      left out sorts (as a string) below every one shown. */
  lemma RankedTopTen(keys: seq<int>)
    requires Sorting.Distinct(keys)
    ensures |Ranked(keys)| == Min(10, |keys|)
    ensures forall p :: p in Ranked(keys) ==> p in keys
    ensures forall p, q :: p in keys && p !in Ranked(keys) && q in Ranked(keys) ==> LexLess(Decimal(p), Decimal(q))
  {
    RankedFromSort(keys);
    var r := Ranked(keys);
    forall p, q | p in keys && p !in r && q in r ensures LexLess(Decimal(p), Decimal(q)) {
      KeyLessOf(p, q);
    }
  }

  /** The string order puts 9 points above 10 points. */
  lemma NineRanksAboveTen()
    ensures Ranked([10, 9]) == [9, 10]
  {
    assert Decimal(10) == "10" by {
      assert Decimal(1) == "1";
    }
    assert Decimal(9) == "9";
    assert KeyLe(10, 9) by {
      assert "10"[0] < "9"[0];
    }
    assert [10, 9][1..] == [9];
    assert Sorting.Sort([9], KeyLe) == [9] by {
      assert [9][1..] == [];
    }
    assert Sorting.Sort([10, 9], KeyLe) == [10, 9];
    assert Sorting.Reverse([10, 9]) == [9, 10];
  }

  /** `${i + 1}.`, the rank on a group's first line. */
  function RankLabel(i: nat): string {
    Decimal(i + 1) + "."
  }

  /** Line `j` of group `i` (0-based), for a label worth `p` points. */
  function Line(i: nat, j: nat, name: string, p: int): string {
    (if j == 0 then RankLabel(i) else Repeat(' ', |RankLabel(i)|))
    + " " + name + ": " + Decimal(p) + " point" + (if p > 1 then "s" else "")
    + (if i == 0 then Crown else "")
  }

  /** The lines of group `i`, one per label, in order. */
  function GroupLines(i: nat, p: int, labels: seq<string>): (r: seq<string>)
    ensures |r| == |labels|
  {
    seq(|labels|, j requires 0 <= j < |labels| => Line(i, j, labels[j], p))
  }

  /** Only a group's first line carries the rank: the others start blank. */
  lemma RankOnFirstLineOnly(i: nat, p: int, labels: seq<string>)
    ensures forall j :: 0 <= j < |labels| ==> (GroupLines(i, p, labels)[j][0] == ' ' <==> j > 0)
  {
    forall j | 0 <= j < |labels| ensures GroupLines(i, p, labels)[j][0] == ' ' <==> j > 0 {
      assert GroupLines(i, p, labels)[j] == Line(i, j, labels[j], p);
      if j == 0 {
        assert RankLabel(i)[0] == Decimal(i + 1)[0];
      } else {
        assert |RankLabel(i)| > 0;
      }
    }
  }

  /** The crown ends a line exactly when it belongs to the first group. */
  lemma CrownOnFirstGroupOnly(i: nat, p: int, labels: seq<string>)
    ensures forall j :: 0 <= j < |labels| ==> (EndsWith(GroupLines(i, p, labels)[j], Crown) <==> i == 0)
  {
    forall j | 0 <= j < |labels| ensures EndsWith(GroupLines(i, p, labels)[j], Crown) <==> i == 0 {
      var line := GroupLines(i, p, labels)[j];
      assert line == Line(i, j, labels[j], p);
      if i != 0 {
        var tail := " point" + (if p > 1 then "s" else "");
        assert EndsWith(line, tail);
        assert line[|line| - 1] == 't' || line[|line| - 1] == 's';
      }
    }
  }

  /** The table: the lines of the groups from `i` on, in rank order. */
  function Table(ranked: seq<int>, groups: map<int, seq<string>>, i: nat): seq<string>
    requires forall p :: p in ranked ==> p in groups
    decreases |ranked| - i
  {
    if i >= |ranked| then [] else GroupLines(i, ranked[i], groups[ranked[i]]) + Table(ranked, groups, i + 1)
  }

  /** The fenced table under the sparkline of the shown point values. */
  function Fenced(ranked: seq<int>, groups: map<int, seq<string>>, sparkline: seq<string> -> string): string
    requires forall p :: p in ranked ==> p in groups
  {
    sparkline(seq(|ranked|, i requires 0 <= i < |ranked| => Decimal(ranked[i])))
    + "\n```" + Join(Table(ranked, groups, 0), "\n") + "```"
  }

  /** The whole reply for a list of (label, score) pairs. */
  function Board(scores: seq<Score>, sparkline: seq<string> -> string): string {
    var pos := Positive(scores);
    if pos == [] then NoScores
    else
      RankedTopTen(PointValues(pos));
      Fenced(Ranked(PointValues(pos)), Groups(pos), sparkline)
  }

  /** The table reply always ends in a code fence, so it is never the
      "no scores" text. */
  lemma FencedIsNotNoScores(head: string, body: string)
    ensures head + "\n```" + body + "```" != NoScores
  {
    var t := head + "\n```" + body + "```";
    assert t[|t| - 1] == '`';
    assert NoScores[|NoScores| - 1] == 't';
  }

  /** "No scores yet" is the reply exactly when no score is positive. */
  lemma NoScoresIffNonePositive(scores: seq<Score>, sparkline: seq<string> -> string)
    ensures Board(scores, sparkline) == NoScores <==> forall s :: s in scores ==> s.points <= 0
  {
    var pos := Positive(scores);
    if pos != [] {
      var ranked := Ranked(PointValues(pos));
      RankedTopTen(PointValues(pos));
      var head := sparkline(seq(|ranked|, i requires 0 <= i < |ranked| => Decimal(ranked[i])));
      var body := Join(Table(ranked, Groups(pos), 0), "\n");
      assert Board(scores, sparkline) == head + "\n```" + body + "```";
      FencedIsNotNoScores(head, body);
      assert pos[0] in scores;
    } else {
      forall s | s in scores ensures s.points <= 0 {
        assert s !in pos;
      }
    }
  }

  /** `_getUserScores`' pipeline as the source runs it: the positive scores
      are folded into groups, then ranked and written out. */
  method Render(scores: seq<Score>, sparkline: seq<string> -> string) returns (text: string)
    ensures text == Board(scores, sparkline)
  {
    var pos := Positive(scores);
    if pos == [] {
      return NoScores;
    }
    var groups, keys := GroupByPoints(pos);
    var ranked := Ranked(keys);
    RankedTopTen(keys);
    var table := WriteTable(ranked, groups);
    text := sparkline(seq(|ranked|, i requires 0 <= i < |ranked| => Decimal(ranked[i])))
      + "\n```" + Join(table, "\n") + "```";
  }

  /** The table lines, built back to front. */
  method WriteTable(ranked: seq<int>, groups: map<int, seq<string>>) returns (table: seq<string>)
    requires forall p :: p in ranked ==> p in groups
    ensures table == Table(ranked, groups, 0)
  {
    table := [];
    var i := |ranked|;
    while i > 0
      invariant 0 <= i <= |ranked|
      invariant table == Table(ranked, groups, i)
    {
      i := i - 1;
      table := GroupLines(i, ranked[i], groups[ranked[i]]) + table;
    }
  }
}
