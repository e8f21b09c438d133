// The pure helpers of the simulation statistics: the score-line key, game
// closeness, the median of sorted round counts, the top score lines, and
// the chi-square test of the win split.

module Calculator {
  import opened Text
  import opened GoInt

  /** `%d-%d` of the two scores. */
  function ScoreKey(team1Score: int, team2Score: int): string
  {
    IntToString(team1Score) + "-" + IntToString(team2Score)
  }

  /** How `updateAdvancedStats` classifies a final score. */
  datatype Closeness = Close | Blowout | Ordinary

  function ClassifyGame(team1Score: int, team2Score: int): (c: Closeness)
    ensures c == Close <==> Abs(team1Score - team2Score) <= 3
    ensures c == Blowout <==> Abs(team1Score - team2Score) > 10
  {
    var diff := Abs(team1Score - team2Score);
    if diff <= 3 then Close else if diff > 10 then Blowout else Ordinary
  }

  /** Closeness depends only on the score difference, not on who won. */
  lemma ClassifySymmetric(a: int, b: int)
    ensures ClassifyGame(a, b) == ClassifyGame(b, a)
  {
  }

  predicate SortedAscending(s: seq<int>)
  {
    forall i, j :: 0 <= i < j < |s| ==> s[i] <= s[j]
  }

  /** `calculateMedian` of an ascending list: 0 when empty, the middle value, or the mean of the two middle values. */
  function Median(sorted: seq<int>): real
  {
    var n := |sorted|;
    if n == 0 then 0.0
    else if n % 2 == 0 then (sorted[n / 2 - 1] + sorted[n / 2]) as real / 2.0
    else sorted[n / 2] as real
  }

  /**
   * The median of an ascending list lies between its extremes, and at least
   * half of the values lie on each side of it.
   */
  lemma MedianBetween(sorted: seq<int>)
    requires |sorted| > 0 && SortedAscending(sorted)
    ensures sorted[0] as real <= Median(sorted) <= sorted[|sorted| - 1] as real
    ensures forall i :: 0 <= i < (|sorted| + 1) / 2 ==> sorted[i] as real <= Median(sorted)
    ensures forall i :: |sorted| / 2 <= i < |sorted| ==> Median(sorted) <= sorted[i] as real
  {
    var n := |sorted|;
    if n % 2 == 0 {
      assert sorted[n / 2 - 1] <= sorted[n / 2];
    }
  }

  /** The median of a list of equal values is that value. */
  lemma MedianOfConstant(sorted: seq<int>, v: int)
    requires |sorted| > 0 && forall i :: 0 <= i < |sorted| ==> sorted[i] == v
    ensures Median(sorted) == v as real
  {
  }

  /** A score line of the distribution: the score key, its count and its share of all games in percent. */
  datatype ScoreLine = ScoreLine(score: string, count: int, frequency: real)

  /** One line per map entry, in the map's iteration order. */
  function ToScoreLines(scores: seq<(string, int)>, totalGames: int): (lines: seq<ScoreLine>)
    requires totalGames != 0
    ensures |lines| == |scores|
    ensures forall i :: 0 <= i < |scores| ==>
      lines[i] == ScoreLine(scores[i].0, scores[i].1, scores[i].1 as real / totalGames as real * 100.0)
  {
    if scores == [] then []
    else
      var last := scores[|scores| - 1];
      ToScoreLines(scores[..|scores| - 1], totalGames) + [ScoreLine(last.0, last.1, last.1 as real / totalGames as real * 100.0)]
  }

  predicate DescendingByCount(lines: seq<ScoreLine>)
  {
    forall i, j :: 0 <= i < j < |lines| ==> lines[i].count >= lines[j].count
  }

  /** Insert a line into a list sorted by descending count, after the lines with a larger or equal count. */
  function InsertByCount(x: ScoreLine, sorted: seq<ScoreLine>): (r: seq<ScoreLine>)
    requires DescendingByCount(sorted)
    ensures DescendingByCount(r)
    ensures multiset(r) == multiset(sorted) + multiset{x}
    ensures |r| == |sorted| + 1
  {
    if sorted == [] then [x]
    else if x.count > sorted[0].count then [x] + sorted
    else
      var rest := InsertByCount(x, sorted[1..]);
      assert sorted == [sorted[0]] + sorted[1..];
      HeadDominates(sorted, x, rest);
      [sorted[0]] + rest
  }

  /** The head of a descending list has no smaller count than any line of its tail or a smaller line. */
  lemma HeadDominates(sorted: seq<ScoreLine>, x: ScoreLine, rest: seq<ScoreLine>)
    requires DescendingByCount(sorted) && sorted != [] && x.count <= sorted[0].count
    requires multiset(rest) == multiset(sorted[1..]) + multiset{x}
    ensures forall k :: 0 <= k < |rest| ==> sorted[0].count >= rest[k].count
  {
    forall k | 0 <= k < |rest|
      ensures sorted[0].count >= rest[k].count
    {
      assert rest[k] in multiset(rest);
      if rest[k] in multiset(sorted[1..]) {
        var m :| 0 <= m < |sorted[1..]| && sorted[1..][m] == rest[k];
        assert sorted[m + 1] == rest[k];
      }
    }
  }

  /** The `sort.Slice` by descending count, as an insertion sort. */
  function SortByCount(lines: seq<ScoreLine>): (r: seq<ScoreLine>)
    ensures DescendingByCount(r)
    ensures multiset(r) == multiset(lines)
    ensures |r| == |lines|
  {
    if lines == [] then []
    else
      assert lines == lines[..|lines| - 1] + [lines[|lines| - 1]];
      InsertByCount(lines[|lines| - 1], SortByCount(lines[..|lines| - 1]))
  }

  function MinNat(a: nat, b: nat): nat
  {
    if a <= b then a else b
  }

  /**
   * `analyzeScoreDistribution`: the map's entries as lines, sorted by
   * descending count, cut to the first 10.
   */
  function AnalyzeScoreDistribution(scores: seq<(string, int)>, totalGames: int): (top: seq<ScoreLine>)
    requires totalGames != 0
    ensures |top| == MinNat(|scores|, 10)
    ensures DescendingByCount(top)
    ensures multiset(top) <= multiset(ToScoreLines(scores, totalGames))
  {
    var sorted := SortByCount(ToScoreLines(scores, totalGames));
    var top := if |sorted| > 10 then sorted[..10] else sorted;
    assert sorted == top + sorted[|top|..];
    top
  }

  /** A line of the map left out of the top lines has no larger count than any line kept. */
  lemma {:induction false} TopLinesDominate(scores: seq<(string, int)>, totalGames: int, dropped: ScoreLine)
    requires totalGames != 0
    requires multiset{dropped} + multiset(AnalyzeScoreDistribution(scores, totalGames))
             <= multiset(ToScoreLines(scores, totalGames))
    ensures forall k :: 0 <= k < |AnalyzeScoreDistribution(scores, totalGames)| ==>
      AnalyzeScoreDistribution(scores, totalGames)[k].count >= dropped.count
  {
    var lines := ToScoreLines(scores, totalGames);
    var sorted := SortByCount(lines);
    var top := AnalyzeScoreDistribution(scores, totalGames);
    TopIsPrefix(scores, totalGames);
    SortedPrefixDominates(sorted, |top|, lines, dropped);
  }

  /** The top lines are the first lines of the sorted list. */
  lemma TopIsPrefix(scores: seq<(string, int)>, totalGames: int)
    requires totalGames != 0
    ensures var sorted := SortByCount(ToScoreLines(scores, totalGames));
      var top := AnalyzeScoreDistribution(scores, totalGames);
      |top| <= |sorted| && top == sorted[..|top|]
  {
  }

  /** Every line of a descending list's first n has no smaller count than a line beyond them. */
  lemma SortedPrefixDominates(sorted: seq<ScoreLine>, n: nat, lines: seq<ScoreLine>, dropped: ScoreLine)
    requires DescendingByCount(sorted) && n <= |sorted|
    requires multiset(sorted) == multiset(lines)
    requires multiset{dropped} + multiset(sorted[..n]) <= multiset(lines)
    ensures forall k :: 0 <= k < n ==> sorted[..n][k].count >= dropped.count
  {
    var rest := sorted[n..];
    assert sorted[..n] + rest == sorted;
    DroppedInRest(sorted[..n], rest, lines, dropped);
    var m :| 0 <= m < |rest| && rest[m] == dropped;
    assert sorted[n + m] == dropped;
    PrefixDominates(sorted, n, n + m);
  }

  /** A line beyond the kept lines' own copies lies in the part left out. */
  lemma DroppedInRest(top: seq<ScoreLine>, rest: seq<ScoreLine>, lines: seq<ScoreLine>, dropped: ScoreLine)
    requires multiset(top + rest) == multiset(lines)
    requires multiset{dropped} + multiset(top) <= multiset(lines)
    ensures dropped in rest
  {
    var kept := multiset{dropped} + multiset(top);
    assert kept[dropped] <= multiset(lines)[dropped];
    assert kept[dropped] == 1 + multiset(top)[dropped];
    assert multiset(top + rest) == multiset(top) + multiset(rest);
    assert multiset(lines)[dropped] == multiset(top)[dropped] + multiset(rest)[dropped];
    assert dropped in multiset(rest);
  }

  /** In a descending list every line before position n has no smaller count than the line at m ≥ n. */
  lemma PrefixDominates(sorted: seq<ScoreLine>, n: nat, m: nat)
    requires DescendingByCount(sorted) && n <= m < |sorted|
    ensures forall k :: 0 <= k < n ==> sorted[..n][k].count >= sorted[m].count
  {
  }

  /** The chi-square verdict of `calculateStatisticalSignificance`. */
  datatype Significance = InsufficientData | Significant | NotSignificant

  /**
   * `calculateStatisticalSignificance`: fewer than 30 games give 0 and
   * "insufficient_data"; otherwise the chi-square statistic against an even
   * split, significant above 3.84.
   */
  function StatisticalSignificance(team1Wins: int, team2Wins: int): (r: (real, Significance))
    ensures team1Wins + team2Wins < 30 <==> r.1 == InsufficientData
    ensures team1Wins + team2Wins < 30 ==> r.0 == 0.0
  {
    var total := team1Wins + team2Wins;
    if total < 30 then (0.0, InsufficientData)
    else
      var expected := total as real / 2.0;
      var d1 := team1Wins as real - expected;
      var d2 := team2Wins as real - expected;
      var chiSquare := d1 * d1 / expected + d2 * d2 / expected;
      (chiSquare, if chiSquare > 3.84 then Significant else NotSignificant)
  }

  /**
   * The statistic is the squared win difference over the number of games,
   * so the verdict is "significant" exactly when (w1 - w2)² > 3.84·(w1 + w2);
   * an even split is never significant.
   */
  lemma ChiSquareClosedForm(team1Wins: int, team2Wins: int)
    requires team1Wins + team2Wins >= 30
    ensures var diff := (team1Wins - team2Wins) as real;
      StatisticalSignificance(team1Wins, team2Wins).0 == diff * diff / (team1Wins + team2Wins) as real
    ensures var diff := (team1Wins - team2Wins) as real;
      (StatisticalSignificance(team1Wins, team2Wins).1 == Significant)
      <==> (diff * diff > 3.84 * (team1Wins + team2Wins) as real)
    ensures team1Wins == team2Wins ==> StatisticalSignificance(team1Wins, team2Wins).1 == NotSignificant
  {
    var total := (team1Wins + team2Wins) as real;
    var e := total / 2.0;
    var w1 := team1Wins as real;
    var w2 := team2Wins as real;
    var diff := w1 - w2;
    assert diff == (team1Wins - team2Wins) as real;
    assert StatisticalSignificance(team1Wins, team2Wins).0 == (w1 - e) * (w1 - e) / e + (w2 - e) * (w2 - e) / e;
    assert w1 - e == diff / 2.0;
    assert w2 - e == -diff / 2.0;
    HalfSquare(diff);
    HalfSquare(-diff);
    var q := diff * diff / 4.0;
    OverHalf(q, total);
    assert (w1 - e) * (w1 - e) / e + (w2 - e) * (w2 - e) / e == 4.0 * q / total;
    assert 4.0 * q == diff * diff;
    assert 4.0 * q / total == diff * diff / total;
    ScaleCompare(diff * diff, total, 3.84);
  }

  lemma HalfSquare(d: real)
    ensures (d / 2.0) * (d / 2.0) == d * d / 4.0
  {
  }

  lemma OverHalf(q: real, t: real)
    requires t > 0.0
    ensures q / (t / 2.0) + q / (t / 2.0) == 4.0 * q / t
  {
    assert q / (t / 2.0) == 2.0 * q / t;
  }

  lemma ScaleCompare(c: real, t: real, k: real)
    requires t > 0.0
    ensures c / t > k <==> c > k * t
  {
    if c / t > k {
      assert c == (c / t) * t;
      assert (c / t) * t > k * t;
    }
    if c > k * t {
      assert c / t > (k * t) / t;
    }
  }
}
