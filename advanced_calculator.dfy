// The advanced analyzer: per game it records each round's economic edges,
// spending, half and side, adds the round to the per-round time series,
// splits the rounds into win streaks and notes comeback positions; at the
// end it counts momentum shifts, buckets rounds by advantage, counts rounds
// by half and side, orders the time series and ranks the streaks.

/** The per-round records the analyzer keeps between `ProcessGame` and `Finalize`. */
module AnalyzerRecords {
  /** One round as the half and side counts read it. */
  datatype HalfSideRound = HalfSideRound(
    gameID: string,
    roundNumber: int,
    isFirstHalf: bool,
    team1IsCT: bool,
    team1Won: bool,
    team1Funds: real,
    team1Equipment: real,
    team2Funds: real,
    team2Equipment: real)

  /** One round as the win-condition ranges, returns and correlations read it. */
  datatype WinConditionSample = WinConditionSample(
    team1Won: bool,
    fundsAdvantage: real,
    equipmentAdvantage: real,
    team1ConsecLoss: int,
    team2ConsecLoss: int,
    team1Survivors: int,
    team2Survivors: int,
    team1Spent: real,
    team2Spent: real)

  /** A position from which the eventual winner came back. */
  datatype ComebackAttempt = ComebackAttempt(
    gameID: string,
    deficitSize: int,
    startingRound: int,
    team: string,
    success: bool,
    economicAdvantageAvg: real,
    equipmentAdvantageAvg: real)
}

module AdvancedCalculator {
  import opened Reals
  import opened AdvancedAnalysisModel
  import opened AnalyzerRecords
  import AdvancedFinalize

  /** A team's figures in one round, as the analyzer reads them. */
  datatype TeamRoundData = TeamRoundData(
    funds: real,
    equipment: real,
    spent: real,
    earned: real,
    survivors: int,
    consecutiveLoss: int)

  /** The two facts of a played round the analyzer reads. */
  datatype RoundRecord = RoundRecord(isT1CT: bool, isT1Winner: bool)

  /** A finished game as the analyzer reads it: its rounds and each team's per-round figures. */
  datatype GameRecord = GameRecord(
    id: string,
    rounds: seq<RoundRecord>,
    team1Data: seq<TeamRoundData>,
    team2Data: seq<TeamRoundData>,
    halfLength: int,
    isT1Winner: bool)

  /** Both teams have figures for every round (the analyzer indexes them by round). */
  predicate WellFormed(g: GameRecord)
  {
    |g.team1Data| >= |g.rounds| && |g.team2Data| >= |g.rounds|
  }

  // What one game contributes, round by round
  // ---------------------------------------------------------------------

  function ZeroData(): TeamRoundData
  {
    TeamRoundData(0.0, 0.0, 0.0, 0.0, 0, 0)
  }

  /** Team 1's figures in round index i (zero outside the recorded rounds). */
  function T1At(g: GameRecord, i: int): TeamRoundData
  {
    if 0 <= i < |g.team1Data| then g.team1Data[i] else ZeroData()
  }

  function T2At(g: GameRecord, i: int): TeamRoundData
  {
    if 0 <= i < |g.team2Data| then g.team2Data[i] else ZeroData()
  }

  function WonAt(g: GameRecord, i: int): bool
  {
    0 <= i < |g.rounds| && g.rounds[i].isT1Winner
  }

  function CTAt(g: GameRecord, i: int): bool
  {
    0 <= i < |g.rounds| && g.rounds[i].isT1CT
  }

  /** Team 1's funds minus team 2's in round index i. */
  function EconAt(g: GameRecord, i: int): real
  {
    T1At(g, i).funds - T2At(g, i).funds
  }

  /** Team 1's equipment minus team 2's in round index i. */
  function EquipAt(g: GameRecord, i: int): real
  {
    T1At(g, i).equipment - T2At(g, i).equipment
  }

  function TeamName(team1: bool): string
  {
    if team1 then "Team1" else "Team2"
  }

  lemma TeamNames()
    ensures TeamName(true) != TeamName(false)
    ensures TeamName(true) != "" && TeamName(false) != ""
  {
    assert TeamName(true)[4] != TeamName(false)[4];
  }

  function HalfSideAt(g: GameRecord, i: int): HalfSideRound
  {
    HalfSideRound(g.id, i + 1, i + 1 <= g.halfLength, CTAt(g, i), WonAt(g, i),
                  T1At(g, i).funds, T1At(g, i).equipment, T2At(g, i).funds, T2At(g, i).equipment)
  }

  function SampleAt(g: GameRecord, i: int): WinConditionSample
  {
    WinConditionSample(WonAt(g, i), EconAt(g, i), EquipAt(g, i),
                       T1At(g, i).consecutiveLoss, T2At(g, i).consecutiveLoss,
                       T1At(g, i).survivors, T2At(g, i).survivors, T1At(g, i).spent, T2At(g, i).spent)
  }

  /** A team's spending decision in a round: funds, spending, ratio (funds floored at 1) and the round's result for it. */
  function Decision(d: TeamRoundData, won: bool, team: string): SpendingDecision
  {
    SpendingDecision(d.funds, d.spent, d.spent / Max(d.funds, 1.0), won, team)
  }

  function DecisionsAt(g: GameRecord, i: int): seq<SpendingDecision>
  {
    [Decision(T1At(g, i), WonAt(g, i), "Team1"), Decision(T2At(g, i), !WonAt(g, i), "Team2")]
  }

  /** A list as it stands after the first n rounds have each appended their values to base. */
  function EconAdvs(base: seq<real>, g: GameRecord, n: int): seq<real>
    decreases if n < 0 then 0 else n
  {
    if n <= 0 then base else EconAdvs(base, g, n - 1) + [EconAt(g, n - 1)]
  }

  function EquipAdvs(base: seq<real>, g: GameRecord, n: int): seq<real>
    decreases if n < 0 then 0 else n
  {
    if n <= 0 then base else EquipAdvs(base, g, n - 1) + [EquipAt(g, n - 1)]
  }

  function HalfSides(base: seq<HalfSideRound>, g: GameRecord, n: int): seq<HalfSideRound>
    decreases if n < 0 then 0 else n
  {
    if n <= 0 then base else HalfSides(base, g, n - 1) + [HalfSideAt(g, n - 1)]
  }

  function Samples(base: seq<WinConditionSample>, g: GameRecord, n: int): seq<WinConditionSample>
    decreases if n < 0 then 0 else n
  {
    if n <= 0 then base else Samples(base, g, n - 1) + [SampleAt(g, n - 1)]
  }

  function Decisions(base: seq<SpendingDecision>, g: GameRecord, n: int): seq<SpendingDecision>
    decreases if n < 0 then 0 else n
  {
    if n <= 0 then base else Decisions(base, g, n - 1) + DecisionsAt(g, n - 1)
  }

  /** The first n rounds keep what was recorded before and append one edge each, in round order. */
  lemma {:induction false} EdgesPerRound(econ: seq<real>, equip: seq<real>, g: GameRecord, n: nat)
    ensures |EconAdvs(econ, g, n)| == |econ| + n && |EquipAdvs(equip, g, n)| == |equip| + n
    ensures EconAdvs(econ, g, n)[..|econ|] == econ && EquipAdvs(equip, g, n)[..|equip|] == equip
    ensures forall i :: 0 <= i < n ==> EconAdvs(econ, g, n)[|econ| + i] == EconAt(g, i)
    ensures forall i :: 0 <= i < n ==> EquipAdvs(equip, g, n)[|equip| + i] == EquipAt(g, i)
  {
    if n > 0 {
      EdgesPerRound(econ, equip, g, n - 1);
      var e, q := EconAdvs(econ, g, n - 1), EquipAdvs(equip, g, n - 1);
      assert EconAdvs(econ, g, n)[..|econ|] == e[..|econ|];
      assert EquipAdvs(equip, g, n)[..|equip|] == q[..|equip|];
      forall i | 0 <= i < n
        ensures EconAdvs(econ, g, n)[|econ| + i] == EconAt(g, i)
        ensures EquipAdvs(equip, g, n)[|equip| + i] == EquipAt(g, i)
      {
        if i < n - 1 {
          assert EconAdvs(econ, g, n)[|econ| + i] == e[|econ| + i];
          assert EquipAdvs(equip, g, n)[|equip| + i] == q[|equip| + i];
        }
      }
    }
  }

  /**
   * Each round adds two spending decisions, team 1's then team 2's, with
   * opposite results: team 1's says whether team 1 won the round.
   */
  lemma {:induction false} DecisionsPerRound(base: seq<SpendingDecision>, g: GameRecord, n: nat)
    ensures |Decisions(base, g, n)| == |base| + 2 * n
    ensures Decisions(base, g, n)[..|base|] == base
    ensures forall i :: 0 <= i < n ==>
      Decisions(base, g, n)[|base| + 2 * i].team == "Team1" && Decisions(base, g, n)[|base| + 2 * i + 1].team == "Team2"
      && Decisions(base, g, n)[|base| + 2 * i].roundWon == WonAt(g, i)
      && Decisions(base, g, n)[|base| + 2 * i + 1].roundWon == !WonAt(g, i)
  {
    if n > 0 {
      DecisionsPerRound(base, g, n - 1);
      var prev := Decisions(base, g, n - 1);
      var d := Decisions(base, g, n);
      assert d == prev + DecisionsAt(g, n - 1);
      assert d[..|base|] == prev[..|base|];
      forall i | 0 <= i < n
        ensures d[|base| + 2 * i].team == "Team1" && d[|base| + 2 * i + 1].team == "Team2"
        ensures d[|base| + 2 * i].roundWon == WonAt(g, i)
        ensures d[|base| + 2 * i + 1].roundWon == !WonAt(g, i)
      {
        if i < n - 1 {
          assert d[|base| + 2 * i] == prev[|base| + 2 * i];
          assert d[|base| + 2 * i + 1] == prev[|base| + 2 * i + 1];
        } else {
          assert d[|base| + 2 * i] == DecisionsAt(g, i)[0];
          assert d[|base| + 2 * i + 1] == DecisionsAt(g, i)[1];
        }
      }
    }
  }

  /** The half-side entry of round index i: round number i + 1, in the first half when within HalfLength rounds. */
  predicate HalfSideOfRound(h: HalfSideRound, g: GameRecord, i: int)
  {
    h.roundNumber == i + 1 && (h.isFirstHalf <==> i + 1 <= g.halfLength)
    && h.team1IsCT == CTAt(g, i) && h.team1Won == WonAt(g, i)
  }

  /** The first n rounds keep what was recorded before and append one half-side entry each, in round order. */
  lemma {:induction false} HalfSidesPerRound(base: seq<HalfSideRound>, g: GameRecord, n: nat)
    ensures |HalfSides(base, g, n)| == |base| + n
    ensures HalfSides(base, g, n)[..|base|] == base
    ensures forall k :: |base| <= k < |base| + n ==> HalfSideOfRound(HalfSides(base, g, n)[k], g, k - |base|)
  {
    if n > 0 {
      HalfSidesPerRound(base, g, n - 1);
      var prev := HalfSides(base, g, n - 1);
      assert HalfSides(base, g, n)[..|base|] == prev[..|base|];
      forall k | |base| <= k < |base| + n
        ensures HalfSideOfRound(HalfSides(base, g, n)[k], g, k - |base|)
      {
        if k < |base| + n - 1 {
          assert HalfSides(base, g, n)[k] == prev[k];
        }
      }
    }
  }

  // ---------------------------------------------------------------------
  // The time series: one accumulated point per round number
  // ---------------------------------------------------------------------

  function NewPoint(roundNum: int): RoundTimePoint
  {
    RoundTimePoint(roundNum, 0.0, 0.0, 0.0, 0.0, 0.0, 0.0, 0, 0, 0.0, 0.0, 0.0, 0.0, 0.0, 0.0, 0.0, 0)
  }

  /** `updateTimeSeries` on one point: one more game, its figures added, its winner counted. */
  function Accumulate(p: RoundTimePoint, t1: TeamRoundData, t2: TeamRoundData, team1Won: bool): RoundTimePoint
  {
    p.(gamesReachedThisRound := p.gamesReachedThisRound + 1,
       team1AvgFunds := p.team1AvgFunds + t1.funds,
       team2AvgFunds := p.team2AvgFunds + t2.funds,
       team1AvgEquipment := p.team1AvgEquipment + t1.equipment,
       team2AvgEquipment := p.team2AvgEquipment + t2.equipment,
       avgEconomicAdvantage := p.avgEconomicAdvantage + (t1.funds - t2.funds),
       avgEquipmentAdvantage := p.avgEquipmentAdvantage + (t1.equipment - t2.equipment),
       team1AvgSpent := p.team1AvgSpent + t1.spent,
       team2AvgSpent := p.team2AvgSpent + t2.spent,
       team1AvgEarned := p.team1AvgEarned + t1.earned,
       team2AvgEarned := p.team2AvgEarned + t2.earned,
       team1AvgSurvivors := p.team1AvgSurvivors + t1.survivors as real,
       team2AvgSurvivors := p.team2AvgSurvivors + t2.survivors as real,
       team1Wins := if team1Won then p.team1Wins + 1 else p.team1Wins,
       team2Wins := if team1Won then p.team2Wins else p.team2Wins + 1)
  }

  function PointOf(m: map<int, RoundTimePoint>, roundNum: int): RoundTimePoint
  {
    if roundNum in m then m[roundNum] else NewPoint(roundNum)
  }

  function AddToSeries(m: map<int, RoundTimePoint>, roundNum: int, t1: TeamRoundData, t2: TeamRoundData,
                       team1Won: bool): map<int, RoundTimePoint>
  {
    m[roundNum := Accumulate(PointOf(m, roundNum), t1, t2, team1Won)]
  }

  /** The time series after the first n rounds of a game are added. */
  function SeriesAfter(m: map<int, RoundTimePoint>, g: GameRecord, n: int): map<int, RoundTimePoint>
    decreases if n < 0 then 0 else n
  {
    if n <= 0 then m else AddToSeries(SeriesAfter(m, g, n - 1), n, T1At(g, n - 1), T2At(g, n - 1), WonAt(g, n - 1))
  }

  /** Every point sits under its own round number, and every game that reached it was won by one of the teams. */
  predicate SeriesValid(m: map<int, RoundTimePoint>)
  {
    forall k :: k in m ==>
      m[k].roundNumber == k && m[k].team1Wins + m[k].team2Wins == m[k].gamesReachedThisRound
      && m[k].team1Wins >= 0 && m[k].team2Wins >= 0
  }

  /**
   * Adding a game of n rounds keeps the series valid, creates the points of
   * rounds 1..n, and counts the game once at each of them and nowhere else.
   */
  lemma {:induction false} SeriesAfterGame(m: map<int, RoundTimePoint>, g: GameRecord, n: nat)
    requires SeriesValid(m)
    ensures SeriesValid(SeriesAfter(m, g, n))
    ensures forall k :: k in SeriesAfter(m, g, n) <==> k in m || 1 <= k <= n
    ensures forall k :: k in SeriesAfter(m, g, n) ==>
      SeriesAfter(m, g, n)[k].gamesReachedThisRound
        == PointOf(m, k).gamesReachedThisRound + (if 1 <= k <= n then 1 else 0)
  {
    if n > 0 {
      SeriesAfterGame(m, g, n - 1);
    }
  }

  // ---------------------------------------------------------------------
  // Win streaks: the maximal runs of rounds won by one team
  // ---------------------------------------------------------------------

  /** A run of rounds 'start'..'start + length - 1' (1-based) won by team 1 or by team 2. */
  datatype Run = Run(team1: bool, start: int, length: int)

  /** One more round won by b (round number n): the last run grows if it is b's, else a run of b starts. */
  function Extend(rs: seq<Run>, b: bool, n: int): (r: seq<Run>)
    ensures r != [] && r[|r| - 1].team1 == b
  {
    if rs != [] && rs[|rs| - 1].team1 == b then
      rs[..|rs| - 1] + [rs[|rs| - 1].(length := rs[|rs| - 1].length + 1)]
    else rs + [Run(b, n, 1)]
  }

  /** The first n rounds split into maximal runs of one winner, as the streak tracking of `ProcessGame` finds them. */
  function RunsOf(g: GameRecord, n: int): (r: seq<Run>)
    decreases if n < 0 then 0 else n
    ensures n <= 0 <==> r == []
    ensures r != [] ==>
      var last := r[|r| - 1];
      last.team1 == WonAt(g, n - 1) && last.length >= 1 && last.start >= 1 && last.start + last.length - 1 == n
  {
    if n <= 0 then [] else Extend(RunsOf(g, n - 1), WonAt(g, n - 1), n)
  }

  function SumRunLengths(rs: seq<Run>): int
  {
    if rs == [] then 0 else SumRunLengths(rs[..|rs| - 1]) + rs[|rs| - 1].length
  }

  /** The runs tile the rounds: the first starts at round 1 and each next one right after the previous. */
  predicate Tiled(rs: seq<Run>)
  {
    (|rs| > 0 ==> rs[0].start == 1)
    && (forall k :: 0 <= k < |rs| ==> rs[k].length >= 1)
    && (forall k :: 0 <= k < |rs| - 1 ==>
          rs[k + 1].start == rs[k].start + rs[k].length && rs[k].team1 != rs[k + 1].team1)
  }

  /** The run lies within the first n rounds and every round of it was won by the run's team. */
  predicate WonThroughout(r: Run, g: GameRecord, n: int)
  {
    1 <= r.start && r.start - 1 + r.length <= n
    && forall j :: r.start - 1 <= j < r.start - 1 + r.length ==> WonAt(g, j) == r.team1
  }

  predicate Uniform(rs: seq<Run>, g: GameRecord, n: int)
  {
    forall k :: 0 <= k < |rs| ==> WonThroughout(rs[k], g, n)
  }

  lemma ExtendTiled(rs: seq<Run>, b: bool, n: int)
    requires Tiled(rs)
    requires rs == [] ==> n == 1
    requires rs != [] ==> rs[|rs| - 1].start + rs[|rs| - 1].length == n
    ensures Tiled(Extend(rs, b, n))
  {
    var r := Extend(rs, b, n);
    if rs != [] && rs[|rs| - 1].team1 == b {
      assert forall k :: 0 <= k < |r| - 1 ==> r[k] == rs[k];
    } else {
      assert forall k :: 0 <= k < |rs| ==> r[k] == rs[k];
    }
  }

  lemma ExtendUniform(rs: seq<Run>, g: GameRecord, n: int)
    requires n >= 0 && Uniform(rs, g, n)
    requires rs != [] ==> rs[|rs| - 1].start - 1 + rs[|rs| - 1].length == n
    ensures Uniform(Extend(rs, WonAt(g, n), n + 1), g, n + 1)
  {
    var r := Extend(rs, WonAt(g, n), n + 1);
    forall k | 0 <= k < |r|
      ensures WonThroughout(r[k], g, n + 1)
    {
      if k < |rs| {
        assert WonThroughout(rs[k], g, n);
      }
    }
  }

  /** The runs tile the rounds in order and consecutive runs belong to different teams. */
  lemma {:induction false} RunsTiled(g: GameRecord, n: nat)
    ensures Tiled(RunsOf(g, n))
  {
    if n > 0 {
      RunsTiled(g, n - 1);
      ExtendTiled(RunsOf(g, n - 1), WonAt(g, n - 1), n);
    }
  }

  /** Every round of a run was won by that run's team. */
  lemma {:induction false} RunsUniform(g: GameRecord, n: nat)
    ensures Uniform(RunsOf(g, n), g, n)
  {
    if n > 0 {
      RunsUniform(g, n - 1);
      ExtendUniform(RunsOf(g, n - 1), g, n - 1);
    }
  }

  /** Together the runs are exactly as long as the rounds they split. */
  lemma {:induction false} RunsLength(g: GameRecord, n: nat)
    ensures SumRunLengths(RunsOf(g, n)) == n
  {
    if n > 0 {
      var prev := RunsOf(g, n - 1);
      RunsLength(g, n - 1);
      var r := RunsOf(g, n);
      if prev != [] && prev[|prev| - 1].team1 == WonAt(g, n - 1) {
        var init := prev[..|prev| - 1];
        assert prev == init + [prev[|prev| - 1]];
        assert r == init + [r[|r| - 1]];
        SumRunLengthsAppend(init, prev[|prev| - 1]);
        SumRunLengthsAppend(init, r[|r| - 1]);
      } else {
        SumRunLengthsAppend(prev, r[|r| - 1]);
      }
    }
  }

  /**
   * The runs are maximal: they tile the rounds in order, consecutive runs
   * belong to different teams, every round of a run was won by its team,
   * and together they are exactly as long as the game.
   */
  lemma RunsPartition(g: GameRecord, n: nat)
    ensures Tiled(RunsOf(g, n)) && Uniform(RunsOf(g, n), g, n)
    ensures SumRunLengths(RunsOf(g, n)) == n
  {
    RunsTiled(g, n);
    RunsUniform(g, n);
    RunsLength(g, n);
  }

  /** The streak record of a run whose end edges are read at round index endIdx. */
  function StreakOf(g: GameRecord, r: Run, endIdx: int): StreakInfo
  {
    StreakInfo(r.length, r.start, r.start + r.length - 1,
               EconAt(g, r.start - 1), EconAt(g, endIdx), EquipAt(g, r.start - 1), EquipAt(g, endIdx),
               EconAt(g, endIdx) - EconAt(g, r.start - 1), EquipAt(g, endIdx) - EquipAt(g, r.start - 1), g.id)
  }

  /**
   * The streaks of one team among runs closed by a change of winner. Such
   * a run's end edges are read at the round that closed it, the first
   * round of the next run.
   */
  function ClosedStreaks(g: GameRecord, rs: seq<Run>, team1: bool): seq<StreakInfo>
  {
    if rs == [] then []
    else
      var r := rs[|rs| - 1];
      ClosedStreaks(g, rs[..|rs| - 1], team1) + StreakFor(g, r, r.start + r.length - 1, team1)
  }

  /**
   * The streaks `ProcessGame` records for one team: the closed runs, then
   * the final run, whose end edges are read at the game's last round.
   */
  function GameStreaks(g: GameRecord, team1: bool): seq<StreakInfo>
  {
    var rs := RunsOf(g, |g.rounds|);
    if rs == [] then []
    else
      var last := rs[|rs| - 1];
      ClosedStreaks(g, rs[..|rs| - 1], team1) + StreakFor(g, last, |g.rounds| - 1, team1)
  }

  /** Every streak spans its length: EndRound - StartRound + 1 = Length, and its changes are end minus start. */
  predicate WellShaped(s: seq<StreakInfo>)
  {
    forall k :: 0 <= k < |s| ==>
      s[k].endRound - s[k].startRound + 1 == s[k].length && s[k].length >= 1
      && s[k].economicChange == s[k].endEconomicEdge - s[k].startEconomicEdge
      && s[k].equipmentChange == s[k].endEquipmentEdge - s[k].startEquipmentEdge
  }

  /** The streak a run adds to one team's list: itself when it is that team's, nothing otherwise. */
  function StreakFor(g: GameRecord, r: Run, endIdx: int, team1: bool): seq<StreakInfo>
  {
    if r.team1 == team1 then [StreakOf(g, r, endIdx)] else []
  }

  lemma StreakForShape(g: GameRecord, r: Run, endIdx: int, team1: bool)
    requires r.length >= 1
    ensures WellShaped(StreakFor(g, r, endIdx, team1))
    ensures SumLengths(StreakFor(g, r, endIdx, team1)) + SumLengths(StreakFor(g, r, endIdx, !team1)) == r.length
  {
    assert [StreakOf(g, r, endIdx)][..0] == [];
  }

  /** The last run's streak comes last among the closed streaks. */
  lemma ClosedStreaksLast(g: GameRecord, rs: seq<Run>, team1: bool)
    requires rs != []
    ensures var r := rs[|rs| - 1];
      ClosedStreaks(g, rs, team1) == ClosedStreaks(g, rs[..|rs| - 1], team1) + StreakFor(g, r, r.start + r.length - 1, team1)
  {
  }

  lemma {:induction false} ClosedStreaksWellShaped(g: GameRecord, rs: seq<Run>, team1: bool)
    requires forall k :: 0 <= k < |rs| ==> rs[k].length >= 1
    ensures WellShaped(ClosedStreaks(g, rs, team1))
    decreases |rs|
  {
    if rs != [] {
      var r := rs[|rs| - 1];
      ClosedStreaksWellShaped(g, rs[..|rs| - 1], team1);
      StreakForShape(g, r, r.start + r.length - 1, team1);
      ClosedStreaksLast(g, rs, team1);
      WellShapedAppend(ClosedStreaks(g, rs[..|rs| - 1], team1), StreakFor(g, r, r.start + r.length - 1, team1));
    }
  }

  /** Lengths that add up on both sides of two appends still add up. */
  lemma SumLengthsAppendBoth(a1: seq<StreakInfo>, a2: seq<StreakInfo>, b1: seq<StreakInfo>, b2: seq<StreakInfo>)
    ensures SumLengths(a1 + b1) + SumLengths(a2 + b2)
            == (SumLengths(a1) + SumLengths(a2)) + (SumLengths(b1) + SumLengths(b2))
  {
    SumLengthsAppend(a1, b1);
    SumLengthsAppend(a2, b2);
  }

  lemma {:induction false} ClosedStreaksLengths(g: GameRecord, rs: seq<Run>, team1: bool)
    requires forall k :: 0 <= k < |rs| ==> rs[k].length >= 1
    ensures SumLengths(ClosedStreaks(g, rs, team1)) + SumLengths(ClosedStreaks(g, rs, !team1)) == SumRunLengths(rs)
    decreases |rs|
  {
    if rs != [] {
      var init := rs[..|rs| - 1];
      var r := rs[|rs| - 1];
      var e := r.start + r.length - 1;
      forall k | 0 <= k < |init| ensures init[k].length >= 1 {
        assert init[k] == rs[k];
      }
      ClosedStreaksLengths(g, init, team1);
      StreakForShape(g, r, e, team1);
      var a1, a2 := ClosedStreaks(g, init, team1), ClosedStreaks(g, init, !team1);
      var b1, b2 := StreakFor(g, r, e, team1), StreakFor(g, r, e, !team1);
      ClosedStreaksLast(g, rs, team1);
      ClosedStreaksLast(g, rs, !team1);
      SumLengthsAppendBoth(a1, a2, b1, b2);
      assert SumRunLengths(rs) == SumRunLengths(init) + r.length;
    }
  }

  lemma {:induction false} SumLengthsAppend(a: seq<StreakInfo>, b: seq<StreakInfo>)
    ensures SumLengths(a + b) == SumLengths(a) + SumLengths(b)
    decreases |b|
  {
    if b == [] {
      assert a + b == a;
    } else {
      assert (a + b)[..|a + b| - 1] == a + b[..|b| - 1];
      SumLengthsAppend(a, b[..|b| - 1]);
    }
  }

  lemma {:induction false} WellShapedAppend(a: seq<StreakInfo>, b: seq<StreakInfo>)
    requires WellShaped(a) && WellShaped(b)
    ensures WellShaped(a + b)
  {
    assert forall k :: |a| <= k < |a + b| ==> (a + b)[k] == b[k - |a|];
  }

  /** A game's recorded streaks split as the closed runs' streaks followed by the final run's. */
  lemma GameStreaksSplit(g: GameRecord, team1: bool)
    requires |g.rounds| > 0
    ensures var rs := RunsOf(g, |g.rounds|);
      GameStreaks(g, team1) == ClosedStreaks(g, rs[..|rs| - 1], team1) + StreakFor(g, rs[|rs| - 1], |g.rounds| - 1, team1)
  {
  }

  /** Every streak recorded for a game spans its length and its changes are end minus start. */
  lemma GameStreaksWellShaped(g: GameRecord, team1: bool)
    ensures WellShaped(GameStreaks(g, team1))
  {
    var n := |g.rounds|;
    if n > 0 {
      RunsPositive(g, n);
      ClosedAndFinalWellShaped(g, RunsOf(g, n), n - 1, team1);
    }
  }

  lemma RunsPositive(g: GameRecord, n: nat)
    ensures forall k :: 0 <= k < |RunsOf(g, n)| ==> RunsOf(g, n)[k].length >= 1
  {
    RunsTiled(g, n);
  }

  /** The closed runs' streaks followed by the final run's are well shaped. */
  lemma ClosedAndFinalWellShaped(g: GameRecord, rs: seq<Run>, e: int, team1: bool)
    requires rs != [] && forall k :: 0 <= k < |rs| ==> rs[k].length >= 1
    ensures WellShaped(ClosedStreaks(g, rs[..|rs| - 1], team1) + StreakFor(g, rs[|rs| - 1], e, team1))
  {
    var init, last := rs[..|rs| - 1], rs[|rs| - 1];
    assert forall k :: 0 <= k < |init| ==> init[k] == rs[k];
    ClosedStreaksWellShaped(g, init, team1);
    StreakForShape(g, last, e, team1);
    WellShapedAppend(ClosedStreaks(g, init, team1), StreakFor(g, last, e, team1));
  }

  /** The runs before the last all have a length, and with the last one they cover the first n rounds. */
  lemma RunsSplit(g: GameRecord, n: nat)
    requires n > 0
    ensures var rs := RunsOf(g, n);
      (forall k :: 0 <= k < |rs| ==> rs[k].length >= 1)
      && SumRunLengths(rs[..|rs| - 1]) + rs[|rs| - 1].length == n
  {
    var rs := RunsOf(g, n);
    RunsTiled(g, n);
    RunsLength(g, n);
    assert rs == rs[..|rs| - 1] + [rs[|rs| - 1]];
    SumRunLengthsAppend(rs[..|rs| - 1], rs[|rs| - 1]);
  }

  /** The length sum of a team's recorded streaks: the closed runs' part plus the final run's. */
  lemma GameStreaksLengthSplit(g: GameRecord, team1: bool)
    requires |g.rounds| > 0
    ensures var rs := RunsOf(g, |g.rounds|);
      SumLengths(GameStreaks(g, team1))
      == SumLengths(ClosedStreaks(g, rs[..|rs| - 1], team1)) + SumLengths(StreakFor(g, rs[|rs| - 1], |g.rounds| - 1, team1))
  {
    var rs := RunsOf(g, |g.rounds|);
    GameStreaksSplit(g, team1);
    SumLengthsAppend(ClosedStreaks(g, rs[..|rs| - 1], team1), StreakFor(g, rs[|rs| - 1], |g.rounds| - 1, team1));
  }

  /** For one game the lengths of the two teams' recorded streaks add up to the number of rounds. */
  lemma GameStreaksCoverRounds(g: GameRecord)
    ensures SumLengths(GameStreaks(g, true)) + SumLengths(GameStreaks(g, false)) == |g.rounds|
  {
    if |g.rounds| > 0 {
      var rs := RunsOf(g, |g.rounds|);
      var init, last := rs[..|rs| - 1], rs[|rs| - 1];
      RunsSplit(g, |g.rounds|);
      ClosedStreaksLengths(g, init, true);
      StreakForShape(g, last, |g.rounds| - 1, true);
      GameStreaksLengthSplit(g, true);
      GameStreaksLengthSplit(g, false);
    }
  }

  lemma SumRunLengthsAppend(rs: seq<Run>, r: Run)
    ensures SumRunLengths(rs + [r]) == SumRunLengths(rs) + r.length
  {
    assert (rs + [r])[..|rs|] == rs;
  }

  // ---------------------------------------------------------------------
  // Comebacks
  // ---------------------------------------------------------------------

  /** Team 1's rounds won among the first n. */
  function T1Score(g: GameRecord, n: int): int
    decreases if n < 0 then 0 else n
  {
    if n <= 0 then 0 else T1Score(g, n - 1) + (if WonAt(g, n - 1) then 1 else 0)
  }

  /** Team 2's rounds won among the first n. */
  function T2Score(g: GameRecord, n: int): int
    decreases if n < 0 then 0 else n
  {
    if n <= 0 then 0 else T2Score(g, n - 1) + (if WonAt(g, n - 1) then 0 else 1)
  }

  /** The eventual winner trails after round index i. */
  predicate WinnerTrails(g: GameRecord, i: int)
  {
    var deficit := T2Score(g, i + 1) - T1Score(g, i + 1);
    (deficit > 0 && g.isT1Winner) || (deficit < 0 && !g.isT1Winner)
  }

  /** A team's edge over the other in round indices from..|rounds|-1. */
  function EconEdgesFrom(g: GameRecord, from: int, team1: bool, upTo: int): seq<real>
    decreases if upTo < from then 0 else upTo - from
  {
    if upTo <= from then []
    else EconEdgesFrom(g, from, team1, upTo - 1) + [if team1 then EconAt(g, upTo - 1) else -EconAt(g, upTo - 1)]
  }

  function EquipEdgesFrom(g: GameRecord, from: int, team1: bool, upTo: int): seq<real>
    decreases if upTo < from then 0 else upTo - from
  {
    if upTo <= from then []
    else EquipEdgesFrom(g, from, team1, upTo - 1) + [if team1 then EquipAt(g, upTo - 1) else -EquipAt(g, upTo - 1)]
  }

  /** The comeback attempt `analyzeComebacks` records after round index i. */
  function AttemptAt(g: GameRecord, i: int): ComebackAttempt
  {
    var deficit := T2Score(g, i + 1) - T1Score(g, i + 1);
    var team1 := g.isT1Winner;
    ComebackAttempt(g.id, if team1 then deficit else -deficit, i + 1, TeamName(team1), true,
                    Mean(EconEdgesFrom(g, i, team1, |g.rounds|)), Mean(EquipEdgesFrom(g, i, team1, |g.rounds|)))
  }

  /** The attempts recorded after the first n rounds, in order. */
  function Attempts(g: GameRecord, n: int): seq<ComebackAttempt>
    decreases if n < 0 then 0 else n
  {
    if n <= 0 then [] else Attempts(g, n - 1) + (if WinnerTrails(g, n - 1) then [AttemptAt(g, n - 1)] else [])
  }

  function AttemptsOf(m: map<int, seq<ComebackAttempt>>, deficit: int): seq<ComebackAttempt>
  {
    if deficit in m then m[deficit] else []
  }

  /** The scenarios map after appending each attempt under its deficit. */
  function AddAttempts(m: map<int, seq<ComebackAttempt>>, attempts: seq<ComebackAttempt>): map<int, seq<ComebackAttempt>>
  {
    if attempts == [] then m
    else
      var a := attempts[|attempts| - 1];
      var m' := AddAttempts(m, attempts[..|attempts| - 1]);
      m'[a.deficitSize := AttemptsOf(m', a.deficitSize) + [a]]
  }

  lemma AddAttemptsStep(m: map<int, seq<ComebackAttempt>>, attempts: seq<ComebackAttempt>, a: ComebackAttempt)
    ensures AddAttempts(m, attempts + [a])
      == AddAttempts(m, attempts)[a.deficitSize := AttemptsOf(AddAttempts(m, attempts), a.deficitSize) + [a]]
  {
    assert (attempts + [a])[..|attempts|] == attempts;
  }

  /** The attempts with a given deficit, in order. */
  function WithDeficit(attempts: seq<ComebackAttempt>, deficit: int): seq<ComebackAttempt>
  {
    if attempts == [] then []
    else WithDeficit(attempts[..|attempts| - 1], deficit)
         + (if attempts[|attempts| - 1].deficitSize == deficit then [attempts[|attempts| - 1]] else [])
  }

  /** Each deficit's list grows by exactly the new attempts of that deficit, in order. */
  lemma {:induction false} AddAttemptsGroups(m: map<int, seq<ComebackAttempt>>, attempts: seq<ComebackAttempt>, deficit: int)
    ensures AttemptsOf(AddAttempts(m, attempts), deficit) == AttemptsOf(m, deficit) + WithDeficit(attempts, deficit)
    decreases |attempts|
  {
    if attempts != [] {
      AddAttemptsGroups(m, attempts[..|attempts| - 1], deficit);
    }
  }

  /**
   * Every recorded attempt is keyed by the positive size of the deficit,
   * starts at a round after which the eventual winner trailed, names the
   * eventual winner and is marked a success.
   */
  lemma {:induction false} AttemptsShape(g: GameRecord, n: nat)
    ensures forall k :: 0 <= k < |Attempts(g, n)| ==>
      var a := Attempts(g, n)[k];
      a.deficitSize > 0 && a.success && 1 <= a.startingRound <= n && WinnerTrails(g, a.startingRound - 1)
      && a.team == TeamName(g.isT1Winner) && a == AttemptAt(g, a.startingRound - 1)
  {
    if n > 0 {
      AttemptsShape(g, n - 1);
      var prev := Attempts(g, n - 1);
      var cur := Attempts(g, n);
      assert forall k :: 0 <= k < |prev| ==> cur[k] == prev[k];
    }
  }

  /**
   * Every deficit in the scenarios map is positive and has a non-empty list
   * of attempts, each filed under its own deficit and marked a success.
   */
  predicate ScenariosSucceed(m: map<int, seq<ComebackAttempt>>)
  {
    forall d :: d in m ==>
      d > 0 && m[d] != [] && forall k :: 0 <= k < |m[d]| ==> m[d][k].success && m[d][k].deficitSize == d
  }

  /** Filing successful attempts under their positive deficits keeps the map's shape. */
  lemma {:induction false} ScenariosAfterAttempts(m: map<int, seq<ComebackAttempt>>, attempts: seq<ComebackAttempt>)
    requires ScenariosSucceed(m)
    requires forall k :: 0 <= k < |attempts| ==> attempts[k].success && attempts[k].deficitSize > 0
    ensures ScenariosSucceed(AddAttempts(m, attempts))
    decreases |attempts|
  {
    if attempts != [] {
      var init := attempts[..|attempts| - 1];
      var a := attempts[|attempts| - 1];
      assert forall k :: 0 <= k < |init| ==> init[k] == attempts[k];
      ScenariosAfterAttempts(m, init);
      var prior := AddAttempts(m, init);
      var grown := AttemptsOf(prior, a.deficitSize) + [a];
      assert forall k :: 0 <= k < |grown| - 1 ==> grown[k] == AttemptsOf(prior, a.deficitSize)[k];
    }
  }

  /** A game keeps the scenarios map's shape. */
  lemma ScenariosAfterGame(m: map<int, seq<ComebackAttempt>>, g: GameRecord)
    requires ScenariosSucceed(m)
    ensures ScenariosSucceed(AddAttempts(m, Attempts(g, |g.rounds|)))
  {
    AttemptsShape(g, |g.rounds|);
    ScenariosAfterAttempts(m, Attempts(g, |g.rounds|));
  }

  /**
   * Since only successful comebacks are ever filed, the success rate of
   * every deficit in the comeback statistics is 1, over a positive number of
   * attempts.
   */
  lemma ComebacksAlwaysSucceed(m: map<int, seq<ComebackAttempt>>, d: int)
    requires ScenariosSucceed(m) && d in m
    ensures AdvancedFinalize.ScenarioOf(m[d]).attempts > 0
    ensures AdvancedFinalize.ScenarioOf(m[d]).successes == AdvancedFinalize.ScenarioOf(m[d]).attempts
    ensures AdvancedFinalize.ScenarioOf(m[d]).successRate == 1.0
  {
    AdvancedFinalize.ScenarioRates(m[d]);
  }

  /** The comeback statistics of a map of successful attempts all have rate 1. */
  lemma AllComebacksSucceed(m: map<int, seq<ComebackAttempt>>, stats: map<int, ComebackScenario>)
    requires ScenariosSucceed(m)
    requires forall d :: d in stats ==> d in m && stats[d] == AdvancedFinalize.ScenarioOf(m[d])
    ensures forall d :: d in stats ==> stats[d].successRate == 1.0
  {
    forall d | d in stats
      ensures stats[d].successRate == 1.0
    {
      ComebacksAlwaysSucceed(m, d);
    }
  }

  /** An attempt is recorded after round i exactly when the eventual winner trails after round i. */
  lemma {:induction false} AttemptsWhenTrailing(g: GameRecord, n: nat)
    ensures forall i :: 0 <= i < n ==> (WinnerTrails(g, i) <==> AttemptAt(g, i) in Attempts(g, n))
  {
    if n > 0 {
      AttemptsWhenTrailing(g, n - 1);
      AttemptsShape(g, n);
      var prev := Attempts(g, n - 1);
      var cur := Attempts(g, n);
      forall i | 0 <= i < n
        ensures WinnerTrails(g, i) <==> AttemptAt(g, i) in cur
      {
        if WinnerTrails(g, i) {
          if i < n - 1 {
            var k :| 0 <= k < |prev| && prev[k] == AttemptAt(g, i);
            assert cur[k] == prev[k];
          } else {
            assert cur[|cur| - 1] == AttemptAt(g, i);
          }
        }
        if AttemptAt(g, i) in cur {
          var k :| 0 <= k < |cur| && cur[k] == AttemptAt(g, i);
          assert cur[k].startingRound == i + 1;
        }
      }
    }
  }

  // ---------------------------------------------------------------------
  // The analyzer
  // ---------------------------------------------------------------------

  /** The team of the open streak: "Team1", "Team2", or "" before the first round. */
  datatype StreakTeam = NoTeam | Team1 | Team2

  function TeamOf(team1: bool): StreakTeam
  {
    if team1 then Team1 else Team2
  }

  /** The open streak of `ProcessGame`: its length, its team ("" before the first round), first round and start edges. */
  datatype StreakTracker = StreakTracker(length: int, team: StreakTeam, startRound: int, startEcon: real, startEquip: real)

  /** After the first i rounds the tracker holds the last run of the winners so far. */
  ghost predicate Tracks(g: GameRecord, i: int, t: StreakTracker)
    requires 0 <= i <= |g.rounds|
  {
    var rs := RunsOf(g, i);
    if i == 0 then t.length == 0 && t.team == NoTeam
    else
      var last := rs[|rs| - 1];
      t.length == last.length && t.team == TeamOf(last.team1) && t.startRound == last.start
      && t.startEcon == EconAt(g, last.start - 1) && t.startEquip == EquipAt(g, last.start - 1)
  }

  /** The streaks of one team closed within the first i rounds. */
  ghost function ClosedSoFar(g: GameRecord, i: int, team1: bool): seq<StreakInfo>
    requires 0 <= i <= |g.rounds|
  {
    var rs := RunsOf(g, i);
    if rs == [] then [] else ClosedStreaks(g, rs[..|rs| - 1], team1)
  }

  /** A round whose winner differs from the open run's closes that run, whose end edges are this round's. */
  lemma ClosedSoFarStep(g: GameRecord, i: int, team1: bool)
    requires 0 <= i < |g.rounds|
    ensures i == 0 ==> ClosedSoFar(g, i + 1, team1) == []
    ensures i > 0 ==>
      var rs := RunsOf(g, i);
      var last := rs[|rs| - 1];
      ClosedSoFar(g, i + 1, team1)
        == ClosedSoFar(g, i, team1) + (if last.team1 == g.rounds[i].isT1Winner then [] else StreakFor(g, last, i, team1))
  {
    var rs := RunsOf(g, i);
    var rs' := RunsOf(g, i + 1);
    var b := g.rounds[i].isT1Winner;
    if i == 0 {
      assert rs == [];
    } else {
      var last := rs[|rs| - 1];
      if last.team1 == b {
        assert rs'[..|rs'| - 1] == rs[..|rs| - 1];
      } else {
        assert rs'[..|rs'| - 1] == rs;
      }
    }
  }

  /** The record `recordStreak` makes of the open streak when round index i closes it. */
  function ClosingRecord(g: GameRecord, t: StreakTracker, i: int): StreakInfo
  {
    StreakInfo(t.length, t.startRound, i, t.startEcon, EconAt(g, i), t.startEquip, EquipAt(g, i),
               EconAt(g, i) - t.startEcon, EquipAt(g, i) - t.startEquip, g.id)
  }

  /** What round index i closes for one team's list: the open streak, when the round's winner is another team. */
  function NewlyClosed(g: GameRecord, i: int, t: StreakTracker, team1: bool): seq<StreakInfo>
  {
    if t.team != TeamOf(WonAt(g, i)) && t.length > 0 && (t.team == Team1) == team1
    then [ClosingRecord(g, t, i)] else []
  }

  lemma AppendAssoc<T>(a: seq<T>, b: seq<T>, c: seq<T>)
    ensures a + (b + c) == (a + b) + c
  {
  }

  /** Before round index i > 0 the tracker names the open run's team. */
  lemma TrackedTeam(g: GameRecord, i: int, t: StreakTracker)
    requires 0 <= i <= |g.rounds| && Tracks(g, i, t)
    ensures i == 0 ==> t.team == NoTeam && t.length == 0
    ensures i > 0 ==>
      var rs := RunsOf(g, i);
      var last := rs[|rs| - 1];
      t.length >= 1 && t.team == TeamOf(last.team1)
  {
  }

  /** A round won by the open streak's team extends it and closes nothing. */
  lemma TrackSame(g: GameRecord, i: int, t: StreakTracker)
    requires 0 <= i < |g.rounds| && Tracks(g, i, t) && t.team == TeamOf(g.rounds[i].isT1Winner)
    ensures Tracks(g, i + 1, t.(length := t.length + 1))
  {
    TrackedTeam(g, i, t);
    assert RunsOf(g, i)[|RunsOf(g, i)| - 1].team1 == WonAt(g, i);
    ExtendLastRun(g, i);
  }

  /** A round won by the open streak's team is won by the last run's team. */
  lemma SameTeamWins(g: GameRecord, i: int, t: StreakTracker)
    requires 0 <= i < |g.rounds| && Tracks(g, i, t) && t.team == TeamOf(g.rounds[i].isT1Winner)
    ensures i > 0 && RunsOf(g, i)[|RunsOf(g, i)| - 1].team1 == WonAt(g, i)
  {
    TrackedTeam(g, i, t);
  }

  lemma SameRunClosed(g: GameRecord, i: int, t: StreakTracker, team1: bool)
    requires 0 < i < |g.rounds| && t.team == TeamOf(g.rounds[i].isT1Winner)
    requires RunsOf(g, i)[|RunsOf(g, i)| - 1].team1 == WonAt(g, i)
    ensures ClosedSoFar(g, i + 1, team1) == ClosedSoFar(g, i, team1) + NewlyClosed(g, i, t, team1)
  {
    ClosedSoFarStep(g, i, team1);
    assert NewlyClosed(g, i, t, team1) == [];
  }

  /** A round won by the last run's team lengthens that run by one. */
  lemma ExtendLastRun(g: GameRecord, i: int)
    requires 0 < i < |g.rounds|
    requires RunsOf(g, i)[|RunsOf(g, i)| - 1].team1 == WonAt(g, i)
    ensures var rs := RunsOf(g, i);
      var rs' := RunsOf(g, i + 1);
      |rs'| == |rs| && rs'[|rs'| - 1] == rs[|rs| - 1].(length := rs[|rs| - 1].length + 1)
  {
  }

  /**
   * A round won by the other team (or the first round) closes the open
   * streak, adding its record to its team's list, and opens one here.
   */
  lemma TrackNew(g: GameRecord, i: int, t: StreakTracker)
    requires 0 <= i < |g.rounds| && Tracks(g, i, t) && t.team != TeamOf(g.rounds[i].isT1Winner)
    ensures Tracks(g, i + 1, StreakTracker(1, TeamOf(g.rounds[i].isT1Winner), i + 1, EconAt(g, i), EquipAt(g, i)))
  {
    TrackedTeam(g, i, t);
    if i > 0 {
      var rs := RunsOf(g, i);
      assert rs[|rs| - 1].team1 != WonAt(g, i);
    }
    OpenNewRun(g, i);
  }

  /** The streaks closed by a round that opens a new run. */
  lemma NewRunClosed(g: GameRecord, i: int, t: StreakTracker, team1: bool)
    requires 0 <= i < |g.rounds| && Tracks(g, i, t) && t.team != TeamOf(g.rounds[i].isT1Winner)
    ensures ClosedSoFar(g, i + 1, team1) == ClosedSoFar(g, i, team1) + NewlyClosed(g, i, t, team1)
  {
    TrackedTeam(g, i, t);
    ClosedSoFarStep(g, i, team1);
    if i > 0 {
      var rs := RunsOf(g, i);
      var last := rs[|rs| - 1];
      assert last.team1 != WonAt(g, i);
      ClosingRecordOfRun(g, i, t, team1);
      assert NewlyClosed(g, i, t, team1) == StreakFor(g, last, i, team1);
    } else {
      assert NewlyClosed(g, i, t, team1) == [];
    }
  }

  /** The tracker after round index i: the open streak extended, or a new one opened at this round. */
  function NextTracker(g: GameRecord, i: int, t: StreakTracker): StreakTracker
  {
    if t.team == TeamOf(WonAt(g, i)) then t.(length := t.length + 1)
    else StreakTracker(1, TeamOf(WonAt(g, i)), i + 1, EconAt(g, i), EquipAt(g, i))
  }

  /** One round of streak tracking keeps the tracker on the last run and adds what the round closes. */
  lemma TrackStep(g: GameRecord, i: int, t: StreakTracker)
    requires 0 <= i < |g.rounds| && Tracks(g, i, t)
    ensures Tracks(g, i + 1, NextTracker(g, i, t))
    ensures ClosedSoFar(g, i + 1, true) == ClosedSoFar(g, i, true) + NewlyClosed(g, i, t, true)
    ensures ClosedSoFar(g, i + 1, false) == ClosedSoFar(g, i, false) + NewlyClosed(g, i, t, false)
  {
    if t.team == TeamOf(g.rounds[i].isT1Winner) {
      SameTeamWins(g, i, t);
      TrackSame(g, i, t);
      SameRunClosed(g, i, t, true);
      SameRunClosed(g, i, t, false);
    } else {
      TrackNew(g, i, t);
      NewRunClosed(g, i, t, true);
      NewRunClosed(g, i, t, false);
    }
  }

  /** The record closing the open streak is the one of the last run so far. */
  lemma ClosingRecordOfRun(g: GameRecord, i: int, t: StreakTracker, team1: bool)
    requires 0 < i <= |g.rounds| && Tracks(g, i, t)
    ensures var rs := RunsOf(g, i);
      StreakFor(g, rs[|rs| - 1], i, team1) == (if (t.team == Team1) == team1 then [ClosingRecord(g, t, i)] else [])
  {
    TrackedTeam(g, i, t);
  }

  /** A round won by the other team than the last run's (or the first round) opens a run of one round. */
  lemma OpenNewRun(g: GameRecord, i: int)
    requires 0 <= i < |g.rounds|
    requires i > 0 ==> RunsOf(g, i)[|RunsOf(g, i)| - 1].team1 != WonAt(g, i)
    ensures RunsOf(g, i + 1) == RunsOf(g, i) + [Run(WonAt(g, i), i + 1, 1)]
  {
  }

  /** What the end of the game adds to one team's list: the open streak, with the last round's edges. */
  function FinalClosed(g: GameRecord, t: StreakTracker, team1: bool): seq<StreakInfo>
  {
    var n := |g.rounds|;
    if t.length > 0 && (t.team == Team1) == team1 then
      [StreakInfo(t.length, t.startRound, n, t.startEcon, EconAt(g, n - 1), t.startEquip, EquipAt(g, n - 1),
                  EconAt(g, n - 1) - t.startEcon, EquipAt(g, n - 1) - t.startEquip, g.id)]
    else []
  }

  /** The streaks closed during the game and the one still open at its end are the game's streaks. */
  lemma FinalStreaks(g: GameRecord, t: StreakTracker, team1: bool)
    requires |g.rounds| > 0 && Tracks(g, |g.rounds|, t)
    ensures GameStreaks(g, team1) == ClosedSoFar(g, |g.rounds|, team1) + FinalClosed(g, t, team1)
  {
    TrackedTeam(g, |g.rounds|, t);
    var rs := RunsOf(g, |g.rounds|);
    assert StreakFor(g, rs[|rs| - 1], |g.rounds| - 1, team1) == FinalClosed(g, t, team1);
  }

  /** The tracker after the first n rounds, starting empty. */
  function TrackerAfter(g: GameRecord, n: int): StreakTracker
    decreases if n < 0 then 0 else n
  {
    if n <= 0 then StreakTracker(0, NoTeam, 1, 0.0, 0.0) else NextTracker(g, n - 1, TrackerAfter(g, n - 1))
  }

  /** After any number of rounds the tracker describes the last run. */
  lemma {:induction false} TrackerAfterTracks(g: GameRecord, n: nat)
    requires n <= |g.rounds|
    ensures Tracks(g, n, TrackerAfter(g, n))
  {
    if n > 0 {
      var i := n - 1;
      var t := TrackerAfter(g, i);
      TrackerAfterTracks(g, i);
      if t.team == TeamOf(g.rounds[i].isT1Winner) {
        TrackSame(g, i, t);
      } else {
        TrackNew(g, i, t);
      }
      assert TrackerAfter(g, n) == NextTracker(g, i, t);
    }
  }

  /** What round index n closes, as the tracker after n rounds sees it, extends the closed runs' streaks. */
  lemma ClosedAfterStep(g: GameRecord, n: nat, team1: bool)
    requires n < |g.rounds|
    ensures ClosedSoFar(g, n + 1, team1) == ClosedSoFar(g, n, team1) + NewlyClosed(g, n, TrackerAfter(g, n), team1)
  {
    TrackerAfterTracks(g, n);
    TrackStep(g, n, TrackerAfter(g, n));
  }

  /** Closing the streak still open after the last round completes the game's streaks. */
  lemma StreaksAfterGame(base: seq<StreakInfo>, g: GameRecord, team1: bool)
    requires |g.rounds| > 0
    ensures (base + ClosedSoFar(g, |g.rounds|, team1)) + FinalClosed(g, TrackerAfter(g, |g.rounds|), team1)
            == base + GameStreaks(g, team1)
  {
    var n := |g.rounds|;
    TrackerAfterTracks(g, n);
    FinalStreaks(g, TrackerAfter(g, n), team1);
    AppendAssoc(base, ClosedSoFar(g, n, team1), FinalClosed(g, TrackerAfter(g, n), team1));
  }

  class AdvancedAnalyzer {
    var economicAdvantages: seq<real>
    var equipmentAdvantages: seq<real>
    var roundDataMap: map<int, RoundTimePoint>
    var comebackScenarios: map<int, seq<ComebackAttempt>>
    var halfSideRounds: seq<HalfSideRound>
    var winConditionSamples: seq<WinConditionSample>
    /** The analysis' spending decisions and win streaks, which `ProcessGame` appends to. */
    var spendingDecisions: seq<SpendingDecision>
    var team1WinStreaks: seq<StreakInfo>
    var team2WinStreaks: seq<StreakInfo>

    /** `NewAdvancedAnalyzer`: nothing recorded. */
    constructor ()
      ensures economicAdvantages == [] && equipmentAdvantages == []
      ensures roundDataMap == map[] && comebackScenarios == map[]
      ensures halfSideRounds == [] && winConditionSamples == [] && spendingDecisions == []
      ensures team1WinStreaks == [] && team2WinStreaks == []
      ensures Ready()
    {
      economicAdvantages := [];
      equipmentAdvantages := [];
      roundDataMap := map[];
      comebackScenarios := map[];
      halfSideRounds := [];
      winConditionSamples := [];
      spendingDecisions := [];
      team1WinStreaks := [];
      team2WinStreaks := [];
    }

    /**
     * What `Finalize` relies on, which the constructor sets up and
     * `ProcessGame` keeps: one economic and one equipment edge per round,
     * each time-series point counting its games, and only successful
     * comebacks filed.
     */
    ghost predicate Ready()
      reads this
    {
      |economicAdvantages| == |equipmentAdvantages| && SeriesValid(roundDataMap) && ScenariosSucceed(comebackScenarios)
    }

    /**
     * `Finalize`: the momentum, the win conditions, the comeback
     * statistics, the half/side effects, the averaged time series and the
     * streak analysis, computed from everything recorded; the streak lists
     * are left sorted longest first. The map iteration orders of the
     * comebacks and the time series are given.
     */
    method Finalize(comebackOrder: seq<int>, roundOrder: seq<int>) returns (a: AdvancedAnalysis)
      requires Ready()
      requires AdvancedFinalize.IterationOrder(comebackOrder, comebackScenarios)
      requires AdvancedFinalize.IterationOrder(roundOrder, roundDataMap)
      modifies this`team1WinStreaks, this`team2WinStreaks
      ensures a.economicMomentum == AdvancedFinalize.MomentumOf(economicAdvantages, equipmentAdvantages, winConditionSamples)
      ensures a.winConditions == AdvancedFinalize.WinConditionsOf(winConditionSamples)
      ensures forall d :: d in a.comebacksByDeficit <==> d in comebackScenarios
      ensures forall d :: d in a.comebacksByDeficit ==>
                a.comebacksByDeficit[d] == AdvancedFinalize.ScenarioOf(comebackScenarios[d])
                && a.comebacksByDeficit[d].successRate == 1.0
      ensures a.halfSideEffects == AdvancedFinalize.HalfSideOf(halfSideRounds)
      ensures |a.timeSeries| == |roundOrder| && AdvancedFinalize.SeriesListOf(roundDataMap, a.timeSeries)
      ensures a.spendingDecisions == spendingDecisions
      ensures AdvancedFinalize.SummaryOf(old(team1WinStreaks), a.team1Streaks) && team1WinStreaks == a.team1Streaks.sorted
      ensures AdvancedFinalize.SummaryOf(old(team2WinStreaks), a.team2Streaks) && team2WinStreaks == a.team2Streaks.sorted
      ensures AdvancedFinalize.ImpactListOf(AdvancedFinalize.ImpactTableOf(team1WinStreaks, team2WinStreaks),
                                            a.streakEconomicImpact)
      ensures Ready()
    {
      var momentum, winConditions, comebacks, halfSide, series := FinalStatistics(comebackOrder, roundOrder);
      var summary1, summary2, impacts := AdvancedFinalize.FinalizeStreakAnalysis(team1WinStreaks, team2WinStreaks);
      team1WinStreaks := summary1.sorted;
      team2WinStreaks := summary2.sorted;
      a := AdvancedAnalysis(momentum, winConditions, comebacks, halfSide, series, spendingDecisions,
                            summary1, summary2, impacts);
    }

    /**
     * The steps of `Finalize` before the streak analysis, which read the
     * recorded data and change nothing.
     */
    method FinalStatistics(comebackOrder: seq<int>, roundOrder: seq<int>)
      returns (momentum: EconomicMomentum, winConditions: WinConditions, comebacks: map<int, ComebackScenario>,
               halfSide: HalfSideAnalysis, series: seq<RoundTimePoint>)
      requires Ready()
      requires AdvancedFinalize.IterationOrder(comebackOrder, comebackScenarios)
      requires AdvancedFinalize.IterationOrder(roundOrder, roundDataMap)
      ensures momentum == AdvancedFinalize.MomentumOf(economicAdvantages, equipmentAdvantages, winConditionSamples)
      ensures winConditions == AdvancedFinalize.WinConditionsOf(winConditionSamples)
      ensures forall d :: d in comebacks <==> d in comebackScenarios
      ensures forall d :: d in comebacks ==>
                comebacks[d] == AdvancedFinalize.ScenarioOf(comebackScenarios[d]) && comebacks[d].successRate == 1.0
      ensures halfSide == AdvancedFinalize.HalfSideOf(halfSideRounds)
      ensures |series| == |roundOrder| && AdvancedFinalize.SeriesListOf(roundDataMap, series)
    {
      momentum := AdvancedFinalize.CalculateEconomicMomentum(economicAdvantages, equipmentAdvantages,
                                                             winConditionSamples);
      winConditions := AdvancedFinalize.CalculateWinConditions(winConditionSamples);
      comebacks := AdvancedFinalize.CalculateComebackStats(comebackScenarios, comebackOrder);
      AllComebacksSucceed(comebackScenarios, comebacks);
      halfSide := AdvancedFinalize.CalculateHalfSideEffects(halfSideRounds);
      series := AdvancedFinalize.FinalizeTimeSeries(roundDataMap, roundOrder);
    }

    /** The per-round records of `ProcessGame` for round index i, including `updateTimeSeries`. */
    method RecordRound(g: GameRecord, i: int)
      requires WellFormed(g) && 0 <= i < |g.rounds|
      modifies this`economicAdvantages, this`equipmentAdvantages, this`roundDataMap
      modifies this`halfSideRounds, this`winConditionSamples, this`spendingDecisions
      ensures economicAdvantages == old(economicAdvantages) + [EconAt(g, i)]
      ensures equipmentAdvantages == old(equipmentAdvantages) + [EquipAt(g, i)]
      ensures roundDataMap == AddToSeries(old(roundDataMap), i + 1, T1At(g, i), T2At(g, i), WonAt(g, i))
      ensures halfSideRounds == old(halfSideRounds) + [HalfSideAt(g, i)]
      ensures winConditionSamples == old(winConditionSamples) + [SampleAt(g, i)]
      ensures spendingDecisions == old(spendingDecisions) + DecisionsAt(g, i)
    {
      var round := g.rounds[i];
      var team1Data := g.team1Data[i];
      var team2Data := g.team2Data[i];
      var economicAdvantage := team1Data.funds - team2Data.funds;
      var equipmentAdvantage := team1Data.equipment - team2Data.equipment;
      economicAdvantages := economicAdvantages + [economicAdvantage];
      equipmentAdvantages := equipmentAdvantages + [equipmentAdvantage];
      UpdateTimeSeries(i + 1, team1Data, team2Data, round.isT1Winner);
      halfSideRounds := halfSideRounds + [HalfSideRound(g.id, i + 1, i + 1 <= g.halfLength, round.isT1CT,
                                                        round.isT1Winner, team1Data.funds, team1Data.equipment,
                                                        team2Data.funds, team2Data.equipment)];
      winConditionSamples := winConditionSamples + [
        WinConditionSample(round.isT1Winner, economicAdvantage, equipmentAdvantage,
                           team1Data.consecutiveLoss, team2Data.consecutiveLoss,
                           team1Data.survivors, team2Data.survivors, team1Data.spent, team2Data.spent)];
      spendingDecisions := spendingDecisions + [
        SpendingDecision(team1Data.funds, team1Data.spent, team1Data.spent / Max(team1Data.funds, 1.0),
                         round.isT1Winner, "Team1"),
        SpendingDecision(team2Data.funds, team2Data.spent, team2Data.spent / Max(team2Data.funds, 1.0),
                         !round.isT1Winner, "Team2")];
    }

    /** `updateTimeSeries`: the point of this round number, created if missing, accumulates the round. */
    method UpdateTimeSeries(roundNum: int, team1Data: TeamRoundData, team2Data: TeamRoundData, team1Won: bool)
      modifies this`roundDataMap
      ensures roundDataMap == AddToSeries(old(roundDataMap), roundNum, team1Data, team2Data, team1Won)
    {
      if roundNum !in roundDataMap {
        roundDataMap := roundDataMap[roundNum := NewPoint(roundNum)];
      }
      var point := roundDataMap[roundNum];
      roundDataMap := roundDataMap[roundNum := Accumulate(point, team1Data, team2Data, team1Won)];
    }

    /** `recordStreak`: the streak goes to team 1's list when the team is "Team1", else to team 2's. */
    method RecordStreak(gameID: string, team: StreakTeam, length: int, startRound: int, endRound: int,
                        startEcon: real, endEcon: real, startEquip: real, endEquip: real)
      modifies this`team1WinStreaks, this`team2WinStreaks
      ensures var info := StreakInfo(length, startRound, endRound, startEcon, endEcon, startEquip, endEquip,
                                     endEcon - startEcon, endEquip - startEquip, gameID);
        if team == Team1 then team1WinStreaks == old(team1WinStreaks) + [info] && team2WinStreaks == old(team2WinStreaks)
        else team2WinStreaks == old(team2WinStreaks) + [info] && team1WinStreaks == old(team1WinStreaks)
    {
      var info := StreakInfo(length, startRound, endRound, startEcon, endEcon, startEquip, endEquip,
                             endEcon - startEcon, endEquip - startEquip, gameID);
      if team == Team1 {
        team1WinStreaks := team1WinStreaks + [info];
      } else {
        team2WinStreaks := team2WinStreaks + [info];
      }
    }

    /**
     * `ProcessGame`: every round adds its edges, its time-series point, its
     * half-side entry, its win-condition sample and two spending decisions;
     * the maximal runs of one winner are recorded as that team's streaks;
     * and the comeback positions of the eventual winner are filed by
     * deficit. A game without rounds changes nothing.
     */
    method ProcessGame(g: GameRecord)
      requires WellFormed(g)
      modifies this
      ensures economicAdvantages == EconAdvs(old(economicAdvantages), g, |g.rounds|)
      ensures equipmentAdvantages == EquipAdvs(old(equipmentAdvantages), g, |g.rounds|)
      ensures roundDataMap == SeriesAfter(old(roundDataMap), g, |g.rounds|)
      ensures halfSideRounds == HalfSides(old(halfSideRounds), g, |g.rounds|)
      ensures winConditionSamples == Samples(old(winConditionSamples), g, |g.rounds|)
      ensures spendingDecisions == Decisions(old(spendingDecisions), g, |g.rounds|)
      ensures team1WinStreaks == old(team1WinStreaks) + GameStreaks(g, true)
      ensures team2WinStreaks == old(team2WinStreaks) + GameStreaks(g, false)
      ensures comebackScenarios == AddAttempts(old(comebackScenarios), Attempts(g, |g.rounds|))
      ensures old(Ready()) ==> Ready()
    {
      if |g.rounds| == 0 {
        return;
      }
      ProcessRounds(g);
      if old(Ready()) {
        EdgesPerRound(old(economicAdvantages), old(equipmentAdvantages), g, |g.rounds|);
        SeriesAfterGame(old(roundDataMap), g, |g.rounds|);
        ScenariosAfterGame(old(comebackScenarios), g);
      }
    }

    /** `ProcessGame` on a game with rounds: the round loop, the final streak, then the comebacks. */
    method ProcessRounds(g: GameRecord)
      requires WellFormed(g) && |g.rounds| > 0
      modifies this
      ensures economicAdvantages == EconAdvs(old(economicAdvantages), g, |g.rounds|)
      ensures equipmentAdvantages == EquipAdvs(old(equipmentAdvantages), g, |g.rounds|)
      ensures roundDataMap == SeriesAfter(old(roundDataMap), g, |g.rounds|)
      ensures halfSideRounds == HalfSides(old(halfSideRounds), g, |g.rounds|)
      ensures winConditionSamples == Samples(old(winConditionSamples), g, |g.rounds|)
      ensures spendingDecisions == Decisions(old(spendingDecisions), g, |g.rounds|)
      ensures team1WinStreaks == old(team1WinStreaks) + GameStreaks(g, true)
      ensures team2WinStreaks == old(team2WinStreaks) + GameStreaks(g, false)
      ensures comebackScenarios == AddAttempts(old(comebackScenarios), Attempts(g, |g.rounds|))
    {
      RecordRounds(g);
      ghost var econ, equip, series := economicAdvantages, equipmentAdvantages, roundDataMap;
      ghost var halves, samples, decisions := halfSideRounds, winConditionSamples, spendingDecisions;
      RecordStreaks(g);
      ghost var streaks1, streaks2 := team1WinStreaks, team2WinStreaks;
      AnalyzeComebacks(g);
      assert economicAdvantages == econ && equipmentAdvantages == equip && roundDataMap == series;
      assert halfSideRounds == halves && winConditionSamples == samples && spendingDecisions == decisions;
      assert team1WinStreaks == streaks1 && team2WinStreaks == streaks2;
    }

    /** The streak bookkeeping of `ProcessGame`: the runs closed in the loop, then the final one. */
    method RecordStreaks(g: GameRecord)
      requires WellFormed(g) && |g.rounds| > 0
      modifies this`team1WinStreaks, this`team2WinStreaks
      ensures team1WinStreaks == old(team1WinStreaks) + GameStreaks(g, true)
      ensures team2WinStreaks == old(team2WinStreaks) + GameStreaks(g, false)
    {
      var tracker := TrackStreaks(g);
      StreaksAfterGame(old(team1WinStreaks), g, true);
      StreaksAfterGame(old(team2WinStreaks), g, false);
      CloseFinalStreak(g, tracker);
    }

    /**
     * The round loop of `ProcessGame`, first pass: each round's edges,
     * time-series point, half-side entry, win-condition sample and spending
     * decisions.
     */
    method RecordRounds(g: GameRecord)
      requires WellFormed(g)
      modifies this`economicAdvantages, this`equipmentAdvantages, this`roundDataMap
      modifies this`halfSideRounds, this`winConditionSamples, this`spendingDecisions
      ensures economicAdvantages == EconAdvs(old(economicAdvantages), g, |g.rounds|)
      ensures equipmentAdvantages == EquipAdvs(old(equipmentAdvantages), g, |g.rounds|)
      ensures roundDataMap == SeriesAfter(old(roundDataMap), g, |g.rounds|)
      ensures halfSideRounds == HalfSides(old(halfSideRounds), g, |g.rounds|)
      ensures winConditionSamples == Samples(old(winConditionSamples), g, |g.rounds|)
      ensures spendingDecisions == Decisions(old(spendingDecisions), g, |g.rounds|)
    {
      var i := 0;
      while i < |g.rounds|
        invariant 0 <= i <= |g.rounds|
        invariant economicAdvantages == EconAdvs(old(economicAdvantages), g, i)
        invariant equipmentAdvantages == EquipAdvs(old(equipmentAdvantages), g, i)
        invariant roundDataMap == SeriesAfter(old(roundDataMap), g, i)
        invariant halfSideRounds == HalfSides(old(halfSideRounds), g, i)
        invariant winConditionSamples == Samples(old(winConditionSamples), g, i)
        invariant spendingDecisions == Decisions(old(spendingDecisions), g, i)
      {
        RecordRound(g, i);
        i := i + 1;
      }
    }

    /**
     * The round loop of `ProcessGame`, second pass: the streak bookkeeping,
     * which leaves each list holding the streaks of the runs closed so far
     * and returns the tracker of the run still open.
     */
    method TrackStreaks(g: GameRecord) returns (tracker: StreakTracker)
      requires WellFormed(g)
      modifies this`team1WinStreaks, this`team2WinStreaks
      ensures tracker == TrackerAfter(g, |g.rounds|)
      ensures team1WinStreaks == old(team1WinStreaks) + ClosedSoFar(g, |g.rounds|, true)
      ensures team2WinStreaks == old(team2WinStreaks) + ClosedSoFar(g, |g.rounds|, false)
    {
      tracker := StreakTracker(0, NoTeam, 1, 0.0, 0.0);
      assert old(team1WinStreaks) + [] == old(team1WinStreaks);
      assert old(team2WinStreaks) + [] == old(team2WinStreaks);
      var i := 0;
      while i < |g.rounds|
        invariant 0 <= i <= |g.rounds|
        invariant tracker == TrackerAfter(g, i)
        invariant team1WinStreaks == old(team1WinStreaks) + ClosedSoFar(g, i, true)
        invariant team2WinStreaks == old(team2WinStreaks) + ClosedSoFar(g, i, false)
      {
        tracker := AdvanceStreaks(g, i, tracker, old(team1WinStreaks), old(team2WinStreaks));
        i := i + 1;
      }
    }

    /**
     * The streak bookkeeping of round index i, seen against the runs: the
     * lists hold the streaks of the runs closed so far before and after it.
     */
    method AdvanceStreaks(g: GameRecord, i: int, t: StreakTracker, ghost before1: seq<StreakInfo>,
                          ghost before2: seq<StreakInfo>) returns (t': StreakTracker)
      requires WellFormed(g) && 0 <= i < |g.rounds| && t == TrackerAfter(g, i)
      requires team1WinStreaks == before1 + ClosedSoFar(g, i, true)
      requires team2WinStreaks == before2 + ClosedSoFar(g, i, false)
      modifies this`team1WinStreaks, this`team2WinStreaks
      ensures t' == TrackerAfter(g, i + 1)
      ensures team1WinStreaks == before1 + ClosedSoFar(g, i + 1, true)
      ensures team2WinStreaks == before2 + ClosedSoFar(g, i + 1, false)
    {
      ClosedAfterStep(g, i, true);
      ClosedAfterStep(g, i, false);
      AppendAssoc(before1, ClosedSoFar(g, i, true), NewlyClosed(g, i, t, true));
      AppendAssoc(before2, ClosedSoFar(g, i, false), NewlyClosed(g, i, t, false));
      t' := TrackRound(g, i, t);
    }

    /**
     * The streak bookkeeping of one round: the same winner extends the open
     * streak; a new winner closes it (recording it, with the end edges of
     * this round) and opens a streak at this round.
     */
    method TrackRound(g: GameRecord, i: int, t: StreakTracker) returns (t': StreakTracker)
      requires WellFormed(g) && 0 <= i < |g.rounds|
      modifies this`team1WinStreaks, this`team2WinStreaks
      ensures t' == NextTracker(g, i, t)
      ensures team1WinStreaks == old(team1WinStreaks) + NewlyClosed(g, i, t, true)
      ensures team2WinStreaks == old(team2WinStreaks) + NewlyClosed(g, i, t, false)
    {
      var roundNum := i + 1;
      var economicAdvantage := g.team1Data[i].funds - g.team2Data[i].funds;
      var equipmentAdvantage := g.team1Data[i].equipment - g.team2Data[i].equipment;
      var winner := TeamOf(g.rounds[i].isT1Winner);
      ghost var closed1, closed2 := NewlyClosed(g, i, t, true), NewlyClosed(g, i, t, false);
      if winner == t.team {
        t' := t.(length := t.length + 1);
        assert closed1 == [] && closed2 == [];
      } else {
        if t.length > 0 {
          RecordStreak(g.id, t.team, t.length, t.startRound, roundNum - 1,
                       t.startEcon, economicAdvantage, t.startEquip, equipmentAdvantage);
          if t.team == Team1 {
            assert closed1 == [ClosingRecord(g, t, i)] && closed2 == [];
          } else {
            assert closed1 == [] && closed2 == [ClosingRecord(g, t, i)];
          }
        } else {
          assert closed1 == [] && closed2 == [];
        }
        t' := StreakTracker(1, winner, roundNum, economicAdvantage, equipmentAdvantage);
      }
    }

    /** The streak still open after the last round is recorded with the last round's edges. */
    method CloseFinalStreak(g: GameRecord, t: StreakTracker)
      requires WellFormed(g) && |g.rounds| > 0
      modifies this`team1WinStreaks, this`team2WinStreaks
      ensures team1WinStreaks == old(team1WinStreaks) + FinalClosed(g, t, true)
      ensures team2WinStreaks == old(team2WinStreaks) + FinalClosed(g, t, false)
    {
      var n := |g.rounds|;
      if t.length > 0 {
        var lastIdx := n - 1;
        var finalEconAdvantage := g.team1Data[lastIdx].funds - g.team2Data[lastIdx].funds;
        var finalEquipAdvantage := g.team1Data[lastIdx].equipment - g.team2Data[lastIdx].equipment;
        RecordStreak(g.id, t.team, t.length, t.startRound, n,
                     t.startEcon, finalEconAdvantage, t.startEquip, finalEquipAdvantage);
      }
    }

    /**
     * `analyzeComebacks`: after each round, when the eventual winner
     * trails, an attempt with the deficit, the round and the winner's mean
     * edges over the remaining rounds is filed under the deficit.
     */
    method AnalyzeComebacks(g: GameRecord)
      requires WellFormed(g)
      modifies this`comebackScenarios
      ensures comebackScenarios == AddAttempts(old(comebackScenarios), Attempts(g, |g.rounds|))
    {
      var team1Score := 0;
      var team2Score := 0;
      var i := 0;
      while i < |g.rounds|
        invariant 0 <= i <= |g.rounds|
        invariant team1Score == T1Score(g, i) && team2Score == T2Score(g, i)
        invariant comebackScenarios == AddAttempts(old(comebackScenarios), Attempts(g, i))
      {
        if g.rounds[i].isT1Winner {
          team1Score := team1Score + 1;
        } else {
          team2Score := team2Score + 1;
        }
        FileComeback(g, i, team1Score, team2Score, old(comebackScenarios));
        i := i + 1;
      }
    }

    /** One round of `analyzeComebacks`' loop, after the score update: file the attempt, if any. */
    method FileComeback(g: GameRecord, i: int, team1Score: int, team2Score: int, ghost base: map<int, seq<ComebackAttempt>>)
      requires WellFormed(g) && 0 <= i < |g.rounds|
      requires team1Score == T1Score(g, i + 1) && team2Score == T2Score(g, i + 1)
      requires comebackScenarios == AddAttempts(base, Attempts(g, i))
      modifies this`comebackScenarios
      ensures comebackScenarios == AddAttempts(base, Attempts(g, i + 1))
    {
      var deficit := team2Score - team1Score;
      if deficit > 0 && g.isT1Winner {
        var avgEcon, avgEquip := AverageEdgesFrom(g, i, true);
        var attempt := ComebackAttempt(g.id, deficit, i + 1, "Team1", true, avgEcon, avgEquip);
        assert attempt == AttemptAt(g, i);
        AddAttemptsStep(base, Attempts(g, i), attempt);
        comebackScenarios := comebackScenarios[deficit := AttemptsOf(comebackScenarios, deficit) + [attempt]];
      } else if deficit < 0 && !g.isT1Winner {
        var actualDeficit := -deficit;
        var avgEcon, avgEquip := AverageEdgesFrom(g, i, false);
        var attempt := ComebackAttempt(g.id, actualDeficit, i + 1, "Team2", true, avgEcon, avgEquip);
        assert attempt == AttemptAt(g, i);
        AddAttemptsStep(base, Attempts(g, i), attempt);
        comebackScenarios := comebackScenarios[actualDeficit := AttemptsOf(comebackScenarios, actualDeficit) + [attempt]];
      } else {
        assert Attempts(g, i + 1) == Attempts(g, i);
      }
    }
  }

  /** The inner loops of `analyzeComebacks`: a team's mean edges over round indices from..end. */
  method AverageEdgesFrom(g: GameRecord, from: int, team1: bool) returns (avgEcon: real, avgEquip: real)
    requires WellFormed(g) && 0 <= from <= |g.rounds|
    ensures avgEcon == Mean(EconEdgesFrom(g, from, team1, |g.rounds|))
    ensures avgEquip == Mean(EquipEdgesFrom(g, from, team1, |g.rounds|))
  {
    var econ, equip := EdgesFrom(g, from, team1);
    LengthEdges(g, from, team1, |g.rounds|);
    avgEcon, avgEquip := 0.0, 0.0;
    if |econ| > 0 {
      var s := SumOf(econ);
      avgEcon := s / |econ| as real;
      var t := SumOf(equip);
      avgEquip := t / |equip| as real;
    }
  }

  /** The loop inside `analyzeComebacks`' inner loops: a team's edges in each round from `from` on. */
  method EdgesFrom(g: GameRecord, from: int, team1: bool) returns (econ: seq<real>, equip: seq<real>)
    requires WellFormed(g) && 0 <= from <= |g.rounds|
    ensures econ == EconEdgesFrom(g, from, team1, |g.rounds|)
    ensures equip == EquipEdgesFrom(g, from, team1, |g.rounds|)
  {
    econ := [];
    equip := [];
    var j := from;
    while j < |g.rounds|
      invariant from <= j <= |g.rounds|
      invariant econ == EconEdgesFrom(g, from, team1, j) && equip == EquipEdgesFrom(g, from, team1, j)
    {
      if team1 {
        econ := econ + [g.team1Data[j].funds - g.team2Data[j].funds];
        equip := equip + [g.team1Data[j].equipment - g.team2Data[j].equipment];
      } else {
        econ := econ + [g.team2Data[j].funds - g.team1Data[j].funds];
        equip := equip + [g.team2Data[j].equipment - g.team1Data[j].equipment];
      }
      j := j + 1;
    }
  }

  lemma {:induction false} LengthEdges(g: GameRecord, from: int, team1: bool, upTo: int)
    requires from <= upTo
    ensures |EconEdgesFrom(g, from, team1, upTo)| == upTo - from
    ensures |EquipEdgesFrom(g, from, team1, upTo)| == upTo - from
    decreases upTo - from
  {
    if upTo > from {
      LengthEdges(g, from, team1, upTo - 1);
    }
  }

  /** A summing loop over reals. */
  method SumOf(s: seq<real>) returns (total: real)
    ensures total == Sum(s)
  {
    total := 0.0;
    var i := 0;
    while i < |s|
      invariant 0 <= i <= |s|
      invariant total == Sum(s[..i])
    {
      assert s[..i + 1][..i] == s[..i];
      total := total + s[i];
      i := i + 1;
    }
    assert s[..i] == s;
  }
}
