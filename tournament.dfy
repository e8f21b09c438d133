// Round-robin tournaments between strategies: the mirrored schedule, a
// best-of-N series with early stopping, and the standings table. Each game's
// result is an input (true when team 1 wins).

module Tournament {
  datatype MatchSpec = MatchSpec(team1Name: string, team1Strategy: string, team2Name: string, team2Strategy: string)

  /** The result of one series: wins per side and the individual game results. */
  datatype SeriesResult = SeriesResult(match_: MatchSpec, wins1: int, wins2: int, games: seq<bool>)

  datatype StandingsRow = StandingsRow(strategy: string, wins: int, losses: int, mapWins: int, mapLoss: int)

  /** Strategy `a` as team 1 against strategy `b`, each team named after its strategy. */
  function Pairing(a: string, b: string): MatchSpec
  {
    MatchSpec(a, a, b, b)
  }

  function Mirror(m: MatchSpec): MatchSpec
  {
    MatchSpec(m.team2Name, m.team2Strategy, m.team1Name, m.team1Strategy)
  }

  // ---------------------------------------------------------------- schedule

  /** The matches row `i` of the schedule contributes from column `j` on. */
  function PairsFrom(s: seq<string>, i: nat, j: nat): seq<MatchSpec>
    requires i < |s|
    decreases |s| - j
  {
    if j >= |s| then [] else [Pairing(s[i], s[j]), Pairing(s[j], s[i])] + PairsFrom(s, i, j + 1)
  }

  /** The schedule from row `i` on. */
  function ScheduleFrom(s: seq<string>, i: nat): seq<MatchSpec>
    decreases |s| - i
  {
    if i >= |s| then [] else PairsFrom(s, i, i + 1) + ScheduleFrom(s, i + 1)
  }

  function Schedule(s: seq<string>): seq<MatchSpec>
  {
    ScheduleFrom(s, 0)
  }

  /** `RoundRobinSchedule`: for each i < j, (i, j) followed by its mirror (j, i). */
  method RoundRobinSchedule(strategies: seq<string>) returns (matches: seq<MatchSpec>)
    ensures matches == Schedule(strategies)
    ensures |matches| == |strategies| * (|strategies| - 1)
  {
    matches := [];
    var n := |strategies|;
    var i := 0;
    while i < n
      invariant 0 <= i <= n
      invariant matches + ScheduleFrom(strategies, i) == Schedule(strategies)
    {
      ghost var before := matches;
      matches := PairRow(strategies, i, matches);
      assert before + ScheduleFrom(strategies, i) == matches + ScheduleFrom(strategies, i + 1);
      i := i + 1;
    }
    ScheduleLength(strategies, 0);
  }

  /** The inner loop of `RoundRobinSchedule`: row i against every later row, each pairing with its mirror. */
  method PairRow(strategies: seq<string>, i: nat, matches0: seq<MatchSpec>) returns (matches: seq<MatchSpec>)
    requires i < |strategies|
    ensures matches == matches0 + PairsFrom(strategies, i, i + 1)
  {
    matches := matches0;
    var j := i + 1;
    while j < |strategies|
      invariant i + 1 <= j <= |strategies|
      invariant matches + PairsFrom(strategies, i, j) == matches0 + PairsFrom(strategies, i, i + 1)
    {
      var next := matches + [Pairing(strategies[i], strategies[j])];
      next := next + [Pairing(strategies[j], strategies[i])];
      assert next + PairsFrom(strategies, i, j + 1) == matches + PairsFrom(strategies, i, j);
      matches := next;
      j := j + 1;
    }
  }

  lemma {:induction false} PairsFromLength(s: seq<string>, i: nat, j: nat)
    requires i < |s| && j <= |s|
    ensures |PairsFrom(s, i, j)| == 2 * (|s| - j)
    decreases |s| - j
  {
    if j < |s| {
      PairsFromLength(s, i, j + 1);
    }
  }

  /** The schedule has n·(n−1) matches. */
  lemma {:induction false} ScheduleLength(s: seq<string>, i: nat)
    requires i <= |s|
    ensures |ScheduleFrom(s, i)| == (|s| - i) * (|s| - i - 1)
    decreases |s| - i
  {
    if i < |s| {
      PairsFromLength(s, i, i + 1);
      ScheduleLength(s, i + 1);
      var m := |s| - i;
      assert m * (m - 1) == 2 * (m - 1) + (m - 1) * (m - 2);
    }
  }

  /** Each match at an even position is immediately followed by its mirror. */
  lemma {:induction false} ScheduleMirrored(s: seq<string>, i: nat)
    ensures |ScheduleFrom(s, i)| % 2 == 0
    ensures forall k :: 0 <= k < |ScheduleFrom(s, i)| && k % 2 == 0 ==>
      ScheduleFrom(s, i)[k + 1] == Mirror(ScheduleFrom(s, i)[k])
    decreases |s| - i
  {
    if i < |s| {
      PairsMirrored(s, i, i + 1);
      ScheduleMirrored(s, i + 1);
      MirroredConcat(PairsFrom(s, i, i + 1), ScheduleFrom(s, i + 1));
    }
  }

  /** Two lists of mirrored pairs make one when joined. */
  lemma MirroredConcat(p: seq<MatchSpec>, r: seq<MatchSpec>)
    requires |p| % 2 == 0 && forall k :: 0 <= k < |p| && k % 2 == 0 ==> p[k + 1] == Mirror(p[k])
    requires |r| % 2 == 0 && forall k :: 0 <= k < |r| && k % 2 == 0 ==> r[k + 1] == Mirror(r[k])
    ensures |p + r| % 2 == 0
    ensures forall k :: 0 <= k < |p + r| && k % 2 == 0 ==> (p + r)[k + 1] == Mirror((p + r)[k])
  {
    forall k | 0 <= k < |p + r| && k % 2 == 0
      ensures (p + r)[k + 1] == Mirror((p + r)[k])
    {
      if k >= |p| {
        var q := k - |p|;
        assert q % 2 == 0;
        assert (p + r)[k] == r[q] && (p + r)[k + 1] == r[q + 1];
      }
    }
  }

  lemma {:induction false} PairsMirrored(s: seq<string>, i: nat, j: nat)
    requires i < |s|
    ensures |PairsFrom(s, i, j)| % 2 == 0
    ensures forall k :: 0 <= k < |PairsFrom(s, i, j)| && k % 2 == 0 ==>
      PairsFrom(s, i, j)[k + 1] == Mirror(PairsFrom(s, i, j)[k])
    decreases |s| - j
  {
    if j < |s| {
      PairsMirrored(s, i, j + 1);
      var p := PairsFrom(s, i, j + 1);
      var h := [Pairing(s[i], s[j]), Pairing(s[j], s[i])];
      forall k | 0 <= k < |h + p| && k % 2 == 0
        ensures (h + p)[k + 1] == Mirror((h + p)[k])
      {
        if k >= 2 {
          assert (h + p)[k] == p[k - 2] && (h + p)[k + 1] == p[k - 1];
        }
      }
    }
  }

  /** Every scheduled match pairs two different positions of the participant list. */
  lemma {:induction false} ScheduledPairsDistinct(s: seq<string>, i: nat, m: MatchSpec)
    requires m in ScheduleFrom(s, i)
    ensures exists a, b :: 0 <= a < |s| && 0 <= b < |s| && a != b && m == Pairing(s[a], s[b])
    decreases |s| - i
  {
    if i < |s| {
      if m in PairsFrom(s, i, i + 1) {
        PairsFromDistinct(s, i, i + 1, m);
      } else {
        ScheduledPairsDistinct(s, i + 1, m);
      }
    }
  }

  lemma {:induction false} PairsFromDistinct(s: seq<string>, i: nat, j: nat, m: MatchSpec)
    requires i < j && i < |s|
    requires m in PairsFrom(s, i, j)
    ensures exists a, b :: 0 <= a < |s| && 0 <= b < |s| && a != b && m == Pairing(s[a], s[b])
    decreases |s| - j
  {
    if j < |s| {
      if m == Pairing(s[i], s[j]) {
        assert 0 <= i < |s| && 0 <= j < |s| && i != j && m == Pairing(s[i], s[j]);
      } else if m == Pairing(s[j], s[i]) {
        assert 0 <= j < |s| && 0 <= i < |s| && j != i && m == Pairing(s[j], s[i]);
      } else {
        PairsFromDistinct(s, i, j + 1, m);
      }
    }
  }

  /** With distinct participant names, no strategy ever plays itself. */
  lemma NoSelfMatch(s: seq<string>, m: MatchSpec)
    requires forall a, b :: 0 <= a < b < |s| ==> s[a] != s[b]
    requires m in Schedule(s)
    ensures m.team1Strategy != m.team2Strategy
  {
    ScheduledPairsDistinct(s, 0, m);
  }

  /** Conversely every ordered pair of different participants is scheduled. */
  lemma {:induction false} EveryPairScheduled(s: seq<string>, a: nat, b: nat)
    requires a < |s| && b < |s| && a != b
    ensures Pairing(s[a], s[b]) in Schedule(s)
  {
    var lo, hi := if a < b then a else b, if a < b then b else a;
    PairsFromContains(s, lo, lo + 1, hi);
    ScheduleFromContains(s, 0, lo);
  }

  lemma {:induction false} PairsFromContains(s: seq<string>, i: nat, j: nat, b: nat)
    requires i < |s| && j <= b < |s|
    ensures Pairing(s[i], s[b]) in PairsFrom(s, i, j) && Pairing(s[b], s[i]) in PairsFrom(s, i, j)
    decreases |s| - j
  {
    if j < b {
      PairsFromContains(s, i, j + 1, b);
    }
  }

  lemma {:induction false} ScheduleFromContains(s: seq<string>, i: nat, a: nat)
    requires i <= a < |s|
    ensures forall m :: m in PairsFrom(s, a, a + 1) ==> m in ScheduleFrom(s, i)
    decreases a - i
  {
    if i < a {
      ScheduleFromContains(s, i + 1, a);
    }
  }

  // ------------------------------------------------------------------ series

  /** `RunSeries` treats a non-positive BestOf as 3. */
  function EffectiveBestOf(bestOf: int): (n: int)
    ensures n >= 1
    ensures bestOf > 0 ==> n == bestOf
    ensures bestOf <= 0 ==> n == 3
  {
    if bestOf <= 0 then 3 else bestOf
  }

  /** Games a side must win to take the series: more than half of BestOf. */
  function Needed(bestOf: int): (k: int)
    ensures 2 * k > EffectiveBestOf(bestOf) && 2 * (k - 1) <= EffectiveBestOf(bestOf)
  {
    EffectiveBestOf(bestOf) / 2 + 1
  }

  function CountWins(games: seq<bool>): (c: nat)
    ensures c <= |games|
  {
    if games == [] then 0 else CountWins(games[..|games| - 1]) + (if games[|games| - 1] then 1 else 0)
  }

  function CountLosses(games: seq<bool>): (c: nat)
    ensures c <= |games|
  {
    if games == [] then 0 else CountLosses(games[..|games| - 1]) + (if games[|games| - 1] then 0 else 1)
  }

  lemma {:induction false} WinsPlusLosses(games: seq<bool>)
    ensures CountWins(games) + CountLosses(games) == |games|
  {
    if games != [] {
      WinsPlusLosses(games[..|games| - 1]);
    }
  }

  /** No proper prefix of the games has given either side `needed` wins. */
  ghost predicate NotDecidedBefore(games: seq<bool>, needed: int)
  {
    forall k :: 0 <= k < |games| ==> CountWins(games[..k]) < needed && CountLosses(games[..k]) < needed
  }

  /** A game played while neither side had `needed` wins leaves every proper prefix undecided. */
  lemma StillUndecided(games: seq<bool>, out: bool, needed: int)
    requires NotDecidedBefore(games, needed)
    requires CountWins(games) < needed && CountLosses(games) < needed
    ensures NotDecidedBefore(games + [out], needed)
  {
    var next := games + [out];
    forall k | 0 <= k < |next|
      ensures CountWins(next[..k]) < needed && CountLosses(next[..k]) < needed
    {
      if k < |games| {
        assert next[..k] == games[..k];
      } else {
        assert next[..k] == games;
      }
    }
  }

  /**
   * The counting and early stop of `RunSeries`. `results[g]` is whether
   * team 1 wins game g, for every game the series may play.
   */
  method RunSeries(m: MatchSpec, bestOf: int, results: seq<bool>) returns (res: SeriesResult)
    requires |results| >= EffectiveBestOf(bestOf)
    ensures res.match_ == m
    ensures res.wins1 + res.wins2 == |res.games| <= EffectiveBestOf(bestOf)
    ensures res.games == results[..|res.games|]
    ensures res.wins1 == CountWins(res.games) && res.wins2 == CountLosses(res.games)
    ensures res.wins1 <= Needed(bestOf) && res.wins2 <= Needed(bestOf)
    ensures |res.games| < EffectiveBestOf(bestOf) ==> res.wins1 == Needed(bestOf) || res.wins2 == Needed(bestOf)
    ensures NotDecidedBefore(res.games, Needed(bestOf))
  {
    var n := EffectiveBestOf(bestOf);
    var needed := n / 2 + 1;
    var games: seq<bool> := [];
    var w1, w2 := 0, 0;
    var g := 0;
    while g < n
      invariant 0 <= g <= n && games == results[..g]
      invariant w1 == CountWins(games) && w2 == CountLosses(games) && w1 + w2 == g
      invariant w1 < needed && w2 < needed
      invariant NotDecidedBefore(games, needed)
    {
      var out := results[g];
      var next := games + [out];
      assert next == results[..g + 1];
      assert next[..|next| - 1] == games;
      StillUndecided(games, out, needed);
      games := next;
      if out {
        w1 := w1 + 1;
      } else {
        w2 := w2 + 1;
      }
      g := g + 1;
      if w1 == needed || w2 == needed {
        break;
      }
    }
    WinsPlusLosses(games);
    res := SeriesResult(m, w1, w2, games);
  }

  /** With an odd BestOf every series ends with one side at exactly `Needed` wins. */
  lemma OddSeriesDecided(bestOf: int, res: SeriesResult)
    requires EffectiveBestOf(bestOf) % 2 == 1
    requires res.wins1 + res.wins2 == |res.games| <= EffectiveBestOf(bestOf)
    requires res.wins1 <= Needed(bestOf) && res.wins2 <= Needed(bestOf)
    requires |res.games| < EffectiveBestOf(bestOf) ==> res.wins1 == Needed(bestOf) || res.wins2 == Needed(bestOf)
    ensures res.wins1 == Needed(bestOf) || res.wins2 == Needed(bestOf)
    ensures res.wins1 != res.wins2
  {
  }

  // --------------------------------------------------------------- standings

  /** `idx[name]`: the last position the name was registered at, 0 when absent. */
  function IndexOf(strategies: seq<string>, name: string): (k: nat)
    ensures |strategies| > 0 ==> k < |strategies|
    ensures name in strategies ==> strategies[k] == name
    ensures name in strategies ==> forall l :: k < l < |strategies| ==> strategies[l] != name
    ensures name !in strategies ==> k == 0
  {
    if strategies == [] then 0
    else if strategies[|strategies| - 1] == name then |strategies| - 1
    else IndexOf(strategies[..|strategies| - 1], name)
  }

  function InitialRows(strategies: seq<string>): (rows: seq<StandingsRow>)
    ensures |rows| == |strategies|
  {
    if strategies == [] then [] else InitialRows(strategies[..|strategies| - 1]) + [StandingsRow(strategies[|strategies| - 1], 0, 0, 0, 0)]
  }

  lemma {:induction false} InitialRowsAt(strategies: seq<string>, k: nat)
    requires k < |strategies|
    ensures InitialRows(strategies)[k] == StandingsRow(strategies[k], 0, 0, 0, 0)
  {
    if k < |strategies| - 1 {
      InitialRowsAt(strategies[..|strategies| - 1], k);
    }
  }

  /** The four counting columns of a standings row. */
  datatype Column = Wins | Losses | MapWins | MapLoss

  function Get(r: StandingsRow, c: Column): int
  {
    match c
    case Wins => r.wins
    case Losses => r.losses
    case MapWins => r.mapWins
    case MapLoss => r.mapLoss
  }

  /** `rows[i].<column>++`. */
  function Credit(rows: seq<StandingsRow>, i: nat, c: Column): (r: seq<StandingsRow>)
    requires i < |rows|
    ensures |r| == |rows|
  {
    var row := rows[i];
    rows[i := match c
      case Wins => row.(wins := row.wins + 1)
      case Losses => row.(losses := row.losses + 1)
      case MapWins => row.(mapWins := row.mapWins + 1)
      case MapLoss => row.(mapLoss := row.mapLoss + 1)]
  }

  /** The map results of one series credited to rows i1 (team 1) and i2 (team 2). */
  function AddGames(rows: seq<StandingsRow>, i1: nat, i2: nat, games: seq<bool>): (r: seq<StandingsRow>)
    requires i1 < |rows| && i2 < |rows|
    ensures |r| == |rows|
  {
    if games == [] then rows
    else
      var before := AddGames(rows, i1, i2, games[..|games| - 1]);
      if games[|games| - 1] then Credit(Credit(before, i1, MapWins), i2, MapLoss)
      else Credit(Credit(before, i2, MapWins), i1, MapLoss)
  }

  /** One series credited to the table: the series outcome, then every map. */
  function AddSeries(strategies: seq<string>, rows: seq<StandingsRow>, sr: SeriesResult): (r: seq<StandingsRow>)
    requires |rows| == |strategies| > 0
    ensures |r| == |rows|
  {
    var i1 := IndexOf(strategies, sr.match_.team1Strategy);
    var i2 := IndexOf(strategies, sr.match_.team2Strategy);
    var a := if sr.wins1 > sr.wins2 then Credit(Credit(rows, i1, Wins), i2, Losses)
             else Credit(Credit(rows, i2, Wins), i1, Losses);
    AddGames(a, i1, i2, sr.games)
  }

  /** The standings after the given series, in order. */
  function StandingsOf(strategies: seq<string>, series: seq<SeriesResult>): (rows: seq<StandingsRow>)
    requires |series| > 0 ==> |strategies| > 0
    ensures |rows| == |strategies|
  {
    if series == [] then InitialRows(strategies)
    else AddSeries(strategies, StandingsOf(strategies, series[..|series| - 1]), series[|series| - 1])
  }

  /**
   * `ComputeStandings`: one row per strategy in input order, then each
   * series updates its two rows in place. A series naming an unregistered
   * strategy is credited to row 0, and with no rows at all Go's index panics,
   * hence the precondition.
   */
  method ComputeStandings(strategies: seq<string>, series: seq<SeriesResult>) returns (rows: seq<StandingsRow>)
    requires |series| > 0 ==> |strategies| > 0
    ensures rows == StandingsOf(strategies, series)
  {
    rows := StartRows(strategies);
    var k := 0;
    while k < |series|
      invariant 0 <= k <= |series|
      invariant rows == StandingsOf(strategies, series[..k])
    {
      assert series[..k + 1][..k] == series[..k];
      rows := CreditSeries(strategies, rows, series[k]);
      k := k + 1;
    }
    assert series[..k] == series;
  }

  /** The first loop of `ComputeStandings`: a zero row per strategy, in input order. */
  method StartRows(strategies: seq<string>) returns (rows: seq<StandingsRow>)
    ensures rows == InitialRows(strategies)
  {
    rows := [];
    var s := 0;
    while s < |strategies|
      invariant 0 <= s <= |strategies|
      invariant rows == InitialRows(strategies[..s])
    {
      assert strategies[..s + 1][..s] == strategies[..s];
      rows := rows + [StandingsRow(strategies[s], 0, 0, 0, 0)];
      s := s + 1;
    }
    assert strategies[..s] == strategies;
  }

  /** The body of `ComputeStandings`' series loop: one series updates its two rows in place. */
  method CreditSeries(strategies: seq<string>, rows0: seq<StandingsRow>, sr: SeriesResult) returns (rows: seq<StandingsRow>)
    requires |rows0| == |strategies| > 0
    ensures rows == AddSeries(strategies, rows0, sr)
  {
    rows := rows0;
    var i1 := IndexOf(strategies, sr.match_.team1Strategy);
    var i2 := IndexOf(strategies, sr.match_.team2Strategy);
    if sr.wins1 > sr.wins2 {
      rows := Credit(rows, i1, Wins);
      rows := Credit(rows, i2, Losses);
    } else {
      rows := Credit(rows, i2, Wins);
      rows := Credit(rows, i1, Losses);
    }
    rows := CreditGames(rows, i1, i2, sr.games);
  }

  /** The map loop of `ComputeStandings`: each map credits a map win and a map loss. */
  method CreditGames(rows0: seq<StandingsRow>, i1: nat, i2: nat, games: seq<bool>) returns (rows: seq<StandingsRow>)
    requires i1 < |rows0| && i2 < |rows0|
    ensures rows == AddGames(rows0, i1, i2, games)
  {
    rows := rows0;
    var g := 0;
    while g < |games|
      invariant 0 <= g <= |games| && |rows| == |rows0|
      invariant rows == AddGames(rows0, i1, i2, games[..g])
    {
      assert games[..g + 1][..g] == games[..g];
      if games[g] {
        rows := Credit(rows, i1, MapWins);
        rows := Credit(rows, i2, MapLoss);
      } else {
        rows := Credit(rows, i2, MapWins);
        rows := Credit(rows, i1, MapLoss);
      }
      g := g + 1;
    }
    assert games[..g] == games;
  }

  /** A strategy's row keeps its name through every update. */
  lemma {:induction false} StandingsNames(strategies: seq<string>, series: seq<SeriesResult>, k: nat)
    requires |series| > 0 ==> |strategies| > 0
    requires k < |strategies|
    ensures StandingsOf(strategies, series)[k].strategy == strategies[k]
  {
    if series == [] {
      InitialRowsAt(strategies, k);
    } else {
      StandingsNames(strategies, series[..|series| - 1], k);
      var sr := series[|series| - 1];
      var i1 := IndexOf(strategies, sr.match_.team1Strategy);
      var i2 := IndexOf(strategies, sr.match_.team2Strategy);
      var rows := StandingsOf(strategies, series[..|series| - 1]);
      var a := if sr.wins1 > sr.wins2 then Credit(Credit(rows, i1, Wins), i2, Losses)
               else Credit(Credit(rows, i2, Wins), i1, Losses);
      assert a[k].strategy == strategies[k];
      AddGamesKeeps(a, i1, i2, sr.games, k);
    }
  }

  /** Maps never touch a row's name or its series columns. */
  lemma {:induction false} AddGamesKeeps(rows: seq<StandingsRow>, i1: nat, i2: nat, games: seq<bool>, k: nat)
    requires i1 < |rows| && i2 < |rows| && k < |rows|
    ensures AddGames(rows, i1, i2, games)[k].strategy == rows[k].strategy
    ensures AddGames(rows, i1, i2, games)[k].wins == rows[k].wins
    ensures AddGames(rows, i1, i2, games)[k].losses == rows[k].losses
  {
    if games != [] {
      AddGamesKeeps(rows, i1, i2, games[..|games| - 1], k);
    }
  }

  // -------------------------------------------------------------- the totals

  /** The sum of one column over all rows. */
  function Total(rows: seq<StandingsRow>, c: Column): int
  {
    if rows == [] then 0 else Total(rows[..|rows| - 1], c) + Get(rows[|rows| - 1], c)
  }

  function TotalGames(series: seq<SeriesResult>): nat
  {
    if series == [] then 0 else TotalGames(series[..|series| - 1]) + |series[|series| - 1].games|
  }

  /** Crediting one cell raises that column's total by one and leaves the others. */
  lemma {:induction false} CreditTotal(rows: seq<StandingsRow>, i: nat, c: Column, d: Column)
    requires i < |rows|
    ensures Total(Credit(rows, i, c), d) == Total(rows, d) + (if c == d then 1 else 0)
  {
    var init := rows[..|rows| - 1];
    var r := Credit(rows, i, c);
    assert Get(r[i], d) == Get(rows[i], d) + (if c == d then 1 else 0);
    if i == |rows| - 1 {
      assert r[..|rows| - 1] == init;
    } else {
      assert r[..|rows| - 1] == Credit(init, i, c);
      CreditTotal(init, i, c, d);
    }
  }

  lemma {:induction false} InitialTotals(strategies: seq<string>, c: Column)
    ensures Total(InitialRows(strategies), c) == 0
  {
    if strategies != [] {
      InitialTotals(strategies[..|strategies| - 1], c);
      assert InitialRows(strategies)[..|strategies| - 1] == InitialRows(strategies[..|strategies| - 1]);
    }
  }

  /** Each map adds one map win and one map loss, and no series win or loss. */
  lemma {:induction false} AddGamesTotals(rows: seq<StandingsRow>, i1: nat, i2: nat, games: seq<bool>, d: Column)
    requires i1 < |rows| && i2 < |rows|
    ensures Total(AddGames(rows, i1, i2, games), d) == Total(rows, d) + (if d.MapWins? || d.MapLoss? then |games| else 0)
  {
    if games != [] {
      var before := AddGames(rows, i1, i2, games[..|games| - 1]);
      AddGamesTotals(rows, i1, i2, games[..|games| - 1], d);
      if games[|games| - 1] {
        CreditTotal(before, i1, MapWins, d);
        CreditTotal(Credit(before, i1, MapWins), i2, MapLoss, d);
      } else {
        CreditTotal(before, i2, MapWins, d);
        CreditTotal(Credit(before, i2, MapWins), i1, MapLoss, d);
      }
    }
  }

  /** Each series adds exactly one Win and one Loss to the table, and one map win and loss per game. */
  lemma {:induction false} AddSeriesTotals(strategies: seq<string>, rows: seq<StandingsRow>, sr: SeriesResult, d: Column)
    requires |rows| == |strategies| > 0
    ensures Total(AddSeries(strategies, rows, sr), d) == Total(rows, d) + (if d.MapWins? || d.MapLoss? then |sr.games| else 1)
  {
    var i1 := IndexOf(strategies, sr.match_.team1Strategy);
    var i2 := IndexOf(strategies, sr.match_.team2Strategy);
    var w, l := if sr.wins1 > sr.wins2 then i1 else i2, if sr.wins1 > sr.wins2 then i2 else i1;
    CreditTotal(rows, w, Wins, d);
    CreditTotal(Credit(rows, w, Wins), l, Losses, d);
    AddGamesTotals(Credit(Credit(rows, w, Wins), l, Losses), i1, i2, sr.games, d);
  }

  /**
   * Over a whole tournament: total Wins = total Losses = number of series,
   * and total MapWins = total MapLoss = number of games played.
   */
  lemma {:induction false} StandingsTotals(strategies: seq<string>, series: seq<SeriesResult>)
    requires |series| > 0 ==> |strategies| > 0
    ensures Total(StandingsOf(strategies, series), Wins) == |series|
    ensures Total(StandingsOf(strategies, series), Losses) == |series|
    ensures Total(StandingsOf(strategies, series), MapWins) == TotalGames(series)
    ensures Total(StandingsOf(strategies, series), MapLoss) == TotalGames(series)
  {
    if series == [] {
      InitialTotals(strategies, Wins);
      InitialTotals(strategies, Losses);
      InitialTotals(strategies, MapWins);
      InitialTotals(strategies, MapLoss);
    } else {
      var prev := StandingsOf(strategies, series[..|series| - 1]);
      StandingsTotals(strategies, series[..|series| - 1]);
      AddSeriesTotals(strategies, prev, series[|series| - 1], Wins);
      AddSeriesTotals(strategies, prev, series[|series| - 1], Losses);
      AddSeriesTotals(strategies, prev, series[|series| - 1], MapWins);
      AddSeriesTotals(strategies, prev, series[|series| - 1], MapLoss);
    }
  }

  /** A drawn series (equal wins) is credited as a win to team 2's row and a loss to team 1's. */
  lemma TieGoesToTeam2(strategies: seq<string>, rows: seq<StandingsRow>, sr: SeriesResult)
    requires |rows| == |strategies| > 0
    requires sr.wins1 == sr.wins2
    requires IndexOf(strategies, sr.match_.team1Strategy) != IndexOf(strategies, sr.match_.team2Strategy)
    ensures AddSeries(strategies, rows, sr)[IndexOf(strategies, sr.match_.team2Strategy)].wins
      == rows[IndexOf(strategies, sr.match_.team2Strategy)].wins + 1
    ensures AddSeries(strategies, rows, sr)[IndexOf(strategies, sr.match_.team1Strategy)].losses
      == rows[IndexOf(strategies, sr.match_.team1Strategy)].losses + 1
  {
    var i1 := IndexOf(strategies, sr.match_.team1Strategy);
    var i2 := IndexOf(strategies, sr.match_.team2Strategy);
    var a := Credit(Credit(rows, i2, Wins), i1, Losses);
    AddGamesKeeps(a, i1, i2, sr.games, i1);
    AddGamesKeeps(a, i1, i2, sr.games, i2);
  }
}
