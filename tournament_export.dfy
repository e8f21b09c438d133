// The head-to-head matrix of a tournament summary: per ordered pair of
// strategies, the games won and the games played in the last series between
// them, and the rendering of each matrix cell.

module TournamentExport {
  import opened Tournament

  /** The matrix row/column names: the standings' strategies, in order. */
  function Names(rows: seq<StandingsRow>): (names: seq<string>)
    ensures |names| == |rows|
    ensures forall k :: 0 <= k < |rows| ==> names[k] == rows[k].strategy
  {
    if rows == [] then [] else Names(rows[..|rows| - 1]) + [rows[|rows| - 1].strategy]
  }

  /** `totals[a][b]` after the given series: the game count of the last series that wrote the cell, else 0. */
  function TotalsCell(names: seq<string>, series: seq<SeriesResult>, a: nat, b: nat): int
  {
    if series == [] then 0
    else
      var ser := series[|series| - 1];
      var i := IndexOf(names, ser.match_.team1Strategy);
      var j := IndexOf(names, ser.match_.team2Strategy);
      if (a == i && b == j) || (a == j && b == i) then |ser.games|
      else TotalsCell(names, series[..|series| - 1], a, b)
  }

  /**
   * `wins[a][b]` after the given series. Team 2's count is written after
   * team 1's, so it is the one left on the diagonal when both strategies map
   * to the same row.
   */
  function WinsCell(names: seq<string>, series: seq<SeriesResult>, a: nat, b: nat): int
  {
    if series == [] then 0
    else
      var ser := series[|series| - 1];
      var i := IndexOf(names, ser.match_.team1Strategy);
      var j := IndexOf(names, ser.match_.team2Strategy);
      if a == j && b == i then CountLosses(ser.games)
      else if a == i && b == j then CountWins(ser.games)
      else WinsCell(names, series[..|series| - 1], a, b)
  }

  /** The game loop of one series: team 1's and team 2's game wins. */
  method CountSeriesGames(games: seq<bool>) returns (team1Wins: int, team2Wins: int)
    ensures team1Wins == CountWins(games) && team2Wins == CountLosses(games)
    ensures team1Wins + team2Wins == |games|
  {
    team1Wins, team2Wins := 0, 0;
    var g := 0;
    while g < |games|
      invariant 0 <= g <= |games|
      invariant team1Wins == CountWins(games[..g]) && team2Wins == CountLosses(games[..g])
    {
      assert games[..g + 1][..g] == games[..g];
      if games[g] {
        team1Wins := team1Wins + 1;
      } else {
        team2Wins := team2Wins + 1;
      }
      g := g + 1;
    }
    assert games[..g] == games;
    WinsPlusLosses(games);
  }

  /**
   * The wins/totals matrices of `ExportTournamentSummary`: both start at
   * zero and every series overwrites its two symmetric cells. A series
   * naming a strategy missing from the standings uses row 0, which Go can
   * index only when the standings are non-empty.
   */
  method BuildMatrices(names: seq<string>, series: seq<SeriesResult>) returns (wins: array2<int>, totals: array2<int>)
    requires |series| > 0 ==> |names| > 0
    ensures fresh(wins) && fresh(totals)
    ensures wins.Length0 == |names| && wins.Length1 == |names|
    ensures totals.Length0 == |names| && totals.Length1 == |names|
    ensures forall a, b :: 0 <= a < |names| && 0 <= b < |names| ==>
      totals[a, b] == TotalsCell(names, series, a, b) && wins[a, b] == WinsCell(names, series, a, b)
  {
    var n := |names|;
    wins := new int[n, n]((_, _) => 0);
    totals := new int[n, n]((_, _) => 0);
    var k := 0;
    while k < |series|
      invariant 0 <= k <= |series|
      invariant forall a, b :: 0 <= a < n && 0 <= b < n ==> totals[a, b] == TotalsCell(names, series[..k], a, b)
      invariant forall a, b :: 0 <= a < n && 0 <= b < n ==> wins[a, b] == WinsCell(names, series[..k], a, b)
    {
      assert series[..k + 1][..k] == series[..k];
      WriteSeries(names, wins, totals, series[k]);
      k := k + 1;
    }
    assert series[..k] == series;
  }

  /** The body of the series loop: overwrite the series' two cells in both matrices. */
  method WriteSeries(names: seq<string>, wins: array2<int>, totals: array2<int>, ser: SeriesResult)
    requires |names| > 0 && wins != totals
    requires wins.Length0 == |names| && wins.Length1 == |names|
    requires totals.Length0 == |names| && totals.Length1 == |names|
    modifies wins, totals
    ensures var i, j := IndexOf(names, ser.match_.team1Strategy), IndexOf(names, ser.match_.team2Strategy);
      forall a, b :: 0 <= a < |names| && 0 <= b < |names| ==>
        totals[a, b] == (if (a == i && b == j) || (a == j && b == i) then |ser.games| else old(totals[a, b]))
    ensures var i, j := IndexOf(names, ser.match_.team1Strategy), IndexOf(names, ser.match_.team2Strategy);
      forall a, b :: 0 <= a < |names| && 0 <= b < |names| ==>
        wins[a, b] == (if a == j && b == i then CountLosses(ser.games)
                       else if a == i && b == j then CountWins(ser.games)
                       else old(wins[a, b]))
  {
    var i := IndexOf(names, ser.match_.team1Strategy);
    var j := IndexOf(names, ser.match_.team2Strategy);
    var team1Wins, team2Wins := CountSeriesGames(ser.games);
    var totalGames := team1Wins + team2Wins;
    totals[i, j] := totalGames;
    totals[j, i] := totalGames;
    wins[i, j] := team1Wins;
    wins[j, i] := team2Wins;
  }

  /**
   * Every off-diagonal pair of cells stays consistent: the totals are
   * symmetric and the two win counts add up to the total.
   */
  lemma {:induction false} MatrixConsistent(names: seq<string>, series: seq<SeriesResult>, a: nat, b: nat)
    requires a != b
    ensures TotalsCell(names, series, a, b) == TotalsCell(names, series, b, a)
    ensures WinsCell(names, series, a, b) + WinsCell(names, series, b, a) == TotalsCell(names, series, a, b)
  {
    if series != [] {
      var ser := series[|series| - 1];
      WinsPlusLosses(ser.games);
      MatrixConsistent(names, series[..|series| - 1], a, b);
    }
  }

  /**
   * Cells are overwritten, not accumulated: after a series between rows i
   * and j (i != j), its own counts are in the cells whatever came before.
   */
  lemma LastSeriesWins(names: seq<string>, series: seq<SeriesResult>, ser: SeriesResult)
    requires IndexOf(names, ser.match_.team1Strategy) != IndexOf(names, ser.match_.team2Strategy)
    ensures var i, j := IndexOf(names, ser.match_.team1Strategy), IndexOf(names, ser.match_.team2Strategy);
      TotalsCell(names, series + [ser], i, j) == |ser.games|
      && TotalsCell(names, series + [ser], j, i) == |ser.games|
      && WinsCell(names, series + [ser], i, j) == CountWins(ser.games)
      && WinsCell(names, series + [ser], j, i) == CountLosses(ser.games)
  {
    assert (series + [ser])[..|series|] == series;
  }

  /** What a matrix cell shows. The percentage's `%.2f` text is not modelled. */
  datatype MatrixCell = Diagonal | NoGames | Ratio(won: int, total: int, percent: real)

  function CellOf(i: nat, j: nat, w: int, t: int): (c: MatrixCell)
    ensures i == j ==> c == Diagonal
    ensures i != j && t == 0 ==> c == NoGames
    ensures i != j && t != 0 ==> c.Ratio? && c.won == w && c.total == t && c.percent * (t as real) == 100.0 * (w as real)
  {
    if i == j then Diagonal
    else if t == 0 then NoGames
    else Ratio(w, t, 100.0 * (w as real) / (t as real))
  }

  /** The fixed texts: "-" on the diagonal and "0/0 (0.00%)" for a pair that never met. */
  function FixedText(c: MatrixCell): (s: string)
    requires !c.Ratio?
    ensures c.Diagonal? ==> s == "-"
    ensures c.NoGames? ==> s == "0/0 (0.00%)"
  {
    if c.Diagonal? then "-" else "0/0 (0.00%)"
  }

  /** The header line: "strategy" and then every name, in standings order. */
  function Header(names: seq<string>): (h: seq<string>)
    ensures |h| == |names| + 1 && h[0] == "strategy" && h[1..] == names
  {
    ["strategy"] + names
  }

  /** The matrix lines below the header: one per standings row, its name then one cell per column. */
  method MatrixLines(names: seq<string>, wins: array2<int>, totals: array2<int>)
    returns (lines: seq<(string, seq<MatrixCell>)>)
    requires wins.Length0 == |names| && wins.Length1 == |names|
    requires totals.Length0 == |names| && totals.Length1 == |names|
    ensures |lines| == |names|
    ensures forall i :: 0 <= i < |names| ==> lines[i].0 == names[i] && |lines[i].1| == |names|
    ensures forall i, j :: 0 <= i < |names| && 0 <= j < |names| ==>
      lines[i].1[j] == CellOf(i, j, wins[i, j], totals[i, j])
  {
    var n := |names|;
    lines := [];
    var i := 0;
    while i < n
      invariant 0 <= i <= n && |lines| == i
      invariant forall a :: 0 <= a < i ==> lines[a].0 == names[a] && |lines[a].1| == n
      invariant forall a, b :: 0 <= a < i && 0 <= b < n ==> lines[a].1[b] == CellOf(a, b, wins[a, b], totals[a, b])
    {
      var row: seq<MatrixCell> := [];
      var j := 0;
      while j < n
        invariant 0 <= j <= n && |row| == j
        invariant forall b :: 0 <= b < j ==> row[b] == CellOf(i, b, wins[i, b], totals[i, b])
      {
        if i == j {
          row := row + [Diagonal];
        } else if totals[i, j] == 0 {
          row := row + [NoGames];
        } else {
          var wv := wins[i, j];
          var t := totals[i, j];
          row := row + [Ratio(wv, t, 100.0 * (wv as real) / (t as real))];
        }
        j := j + 1;
      }
      lines := lines + [(names[i], row)];
      i := i + 1;
    }
  }
}
