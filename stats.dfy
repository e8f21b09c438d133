// The simulation statistics record: its creation from a configuration and
// the counters, distributions and closeness tallies each finished or
// failed game updates. The record is a value; each update returns the
// record as it is after the update.

module Stats {
  import opened Wrappers
  import opened Calculator
  import opened GameRulesModel
  import opened GoInt

  /** The configuration a batch of simulations was run with. */
  datatype SimulationConfig = SimulationConfig(
    numSimulations: int,
    maxConcurrent: int,
    memoryLimit: int,
    team1Name: string,
    team1Strategy: string,
    team2Name: string,
    team2Strategy: string,
    gameRules: GameRules,
    exportDetailedResults: bool,
    exportRounds: bool,
    sequential: bool,
    exportPath: string)

  /** The number stored under a key of a Go map: 0 when the key is absent. */
  function Get<K>(m: map<K, int>, k: K): int
  {
    if k in m then m[k] else 0
  }

  /** `m[k]++` on a Go map: one more under k, every other key untouched. */
  function Increment<K(!new)>(m: map<K, int>, k: K): (r: map<K, int>)
    ensures r.Keys == m.Keys + {k}
    ensures Get(r, k) == Get(m, k) + 1
    ensures forall j :: j != k ==> Get(r, j) == Get(m, j)
  {
    m[k := Get(m, k) + 1]
  }

  /** The score distribution holds at most this many distinct score lines. */
  const MaxScoreLines := 1000


  /** The score-distribution update: count the key when there is room for it or it is already counted. */
  function CountScore(dist: map<string, int>, key: string): (r: map<string, int>)
    ensures |dist| < MaxScoreLines || Get(dist, key) > 0 ==> r == Increment(dist, key)
    ensures !(|dist| < MaxScoreLines || Get(dist, key) > 0) ==> r == dist
  {
    if |dist| < MaxScoreLines || Get(dist, key) > 0 then Increment(dist, key) else dist
  }

  /**
   * The cap holds: counting a score never takes the map beyond
   * MaxScoreLines keys; a key already counted always gains one, and no
   * other count changes.
   */
  lemma CountScoreBounded(dist: map<string, int>, key: string)
    requires |dist| <= MaxScoreLines
    ensures |CountScore(dist, key)| <= MaxScoreLines
    ensures Get(dist, key) > 0 ==> Get(CountScore(dist, key), key) == Get(dist, key) + 1
    ensures forall k :: k != key ==> Get(CountScore(dist, key), k) == Get(dist, k)
  {
    if |dist| < MaxScoreLines || Get(dist, key) > 0 {
      if key in dist {
        assert Increment(dist, key).Keys == dist.Keys;
      } else {
        assert Increment(dist, key).Keys == dist.Keys + {key};
      }
    }
  }

  /** A full distribution drops a score it has not seen. */
  lemma CountScoreFullDropsNewKey(dist: map<string, int>, key: string)
    requires |dist| >= MaxScoreLines && key !in dist
    ensures CountScore(dist, key) == dist
  {
  }

  /** The advanced statistics record that `updateAdvancedStats` fills in. */
  datatype AdvancedStats = AdvancedStats(responseTimes: seq<int>, closeGames: int, blowoutGames: int)

  /**
   * The statistics of a batch of games. The distributions are Go maps from
   * the "%d-%d" score key and from the round count to the number of games.
   */
  datatype SimulationStats = SimulationStats(
    totalSimulations: int,
    completedSims: int,
    failedSims: int,
    team1Wins: int,
    team2Wins: int,
    totalRounds: int,
    overtimeGames: int,
    simulationMode: string,
    config: Option<SimulationConfig>,
    scoreDistribution: map<string, int>,
    roundDistribution: map<int, int>,
    advancedStats: Option<AdvancedStats>)

  /**
   * What every update keeps: each completed game is a win for exactly one
   * team, there are no more overtime games than games, no negative failure
   * count, at most MaxScoreLines score lines, and no more close or blowout
   * games than games.
   */
  predicate Valid(s: SimulationStats)
  {
    0 <= s.team1Wins && 0 <= s.team2Wins && s.completedSims == s.team1Wins + s.team2Wins
    && 0 <= s.overtimeGames <= s.completedSims && 0 <= s.failedSims
    && |s.scoreDistribution| <= MaxScoreLines
    && (s.advancedStats.Some? ==>
          0 <= s.advancedStats.value.closeGames && 0 <= s.advancedStats.value.blowoutGames
          && s.advancedStats.value.closeGames + s.advancedStats.value.blowoutGames <= s.completedSims)
  }

  /** `NewStats`: every counter at zero, the requested count and mode recorded. */
  function NewStats(numSimulations: int, mode: string): (s: SimulationStats)
    ensures Valid(s)
    ensures s.totalSimulations == numSimulations && s.simulationMode == mode
    ensures s.completedSims == 0 && s.failedSims == 0 && s.totalRounds == 0
    ensures s.team1Wins == 0 && s.team2Wins == 0 && s.overtimeGames == 0
    ensures s.scoreDistribution == map[] && s.roundDistribution == map[]
    ensures s.config.None? && s.advancedStats.None?
  {
    SimulationStats(numSimulations, 0, 0, 0, 0, 0, 0, mode, None, map[], map[], None)
  }

  /** `NewSimulationStats`: "sequential" or "concurrent" mode by the configuration, which is kept. */
  function NewSimulationStats(config: SimulationConfig): (s: SimulationStats)
    ensures Valid(s)
    ensures s.simulationMode == "sequential" <==> config.sequential
    ensures s.simulationMode == "concurrent" <==> !config.sequential
    ensures s.totalSimulations == config.numSimulations && s.config == Some(config)
    ensures s.completedSims == 0 && s.failedSims == 0
  {
    var mode := if config.sequential then "sequential" else "concurrent";
    assert "sequential" != "concurrent" by {
      assert "sequential"[0] != "concurrent"[0];
    }
    NewStats(config.numSimulations, mode).(config := Some(config))
  }

  /**
   * `updateAdvancedStats`: nothing without the advanced record; otherwise a
   * positive response time is kept in concurrent mode, and the game counts
   * as close (difference at most 3) or as a blowout (more than 10).
   */
  function UpdateAdvancedStats(s: SimulationStats, team1Score: int, team2Score: int, responseTime: int): SimulationStats
  {
    match s.advancedStats
    case None => s
    case Some(adv) =>
      var times := if s.simulationMode == "concurrent" && responseTime > 0 then adv.responseTimes + [responseTime]
                   else adv.responseTimes;
      var scoreDiff := Abs(team1Score - team2Score);
      var adv' :=
        if scoreDiff <= 3 then adv.(responseTimes := times, closeGames := adv.closeGames + 1)
        else if scoreDiff > 10 then adv.(responseTimes := times, blowoutGames := adv.blowoutGames + 1)
        else adv.(responseTimes := times);
      s.(advancedStats := Some(adv'))
  }

  /**
   * The advanced update touches the advanced record only: a game adds one
   * close game exactly when ClassifyGame calls it close, one blowout exactly
   * when it calls it a blowout, never both, and a response time exactly in
   * concurrent mode when it is positive.
   */
  lemma UpdateAdvancedStatsEffect(s: SimulationStats, team1Score: int, team2Score: int, responseTime: int)
    ensures var s' := UpdateAdvancedStats(s, team1Score, team2Score, responseTime);
      s'.(advancedStats := s.advancedStats) == s
      && s'.advancedStats.Some? == s.advancedStats.Some?
      && (s.advancedStats.Some? ==>
            var a := s.advancedStats.value;
            var a' := s'.advancedStats.value;
            a'.closeGames == a.closeGames + (if ClassifyGame(team1Score, team2Score) == Close then 1 else 0)
            && a'.blowoutGames == a.blowoutGames + (if ClassifyGame(team1Score, team2Score) == Blowout then 1 else 0)
            && a'.closeGames + a'.blowoutGames <= a.closeGames + a.blowoutGames + 1
            && a'.responseTimes == a.responseTimes
                 + (if s.simulationMode == "concurrent" && responseTime > 0 then [responseTime] else []))
  {
  }

  /**
   * `UpdateGameResult`: one more completed game, its rounds, its winner,
   * its overtime, its score line (within the cap) and its round count,
   * then the advanced record.
   */
  function UpdateGameResult(s: SimulationStats, team1Won: bool, team1Score: int, team2Score: int,
                            totalRounds: int, wentToOvertime: bool, responseTime: int): (r: SimulationStats)
    ensures r.completedSims == s.completedSims + 1 && r.totalRounds == s.totalRounds + totalRounds
    ensures r.team1Wins == s.team1Wins + (if team1Won then 1 else 0)
    ensures r.team2Wins == s.team2Wins + (if team1Won then 0 else 1)
    ensures r.overtimeGames == s.overtimeGames + (if wentToOvertime then 1 else 0)
    ensures r.failedSims == s.failedSims && r.totalSimulations == s.totalSimulations
    ensures r.simulationMode == s.simulationMode && r.config == s.config
  {
    var counted := s.(
      completedSims := s.completedSims + 1,
      totalRounds := s.totalRounds + totalRounds,
      team1Wins := if team1Won then s.team1Wins + 1 else s.team1Wins,
      team2Wins := if team1Won then s.team2Wins else s.team2Wins + 1,
      overtimeGames := if wentToOvertime then s.overtimeGames + 1 else s.overtimeGames,
      scoreDistribution := CountScore(s.scoreDistribution, ScoreKey(team1Score, team2Score)),
      roundDistribution := Increment(s.roundDistribution, totalRounds));
    UpdateAdvancedStats(counted, team1Score, team2Score, responseTime)
  }

  /**
   * A game result keeps the statistics valid: exactly one team is credited,
   * the score line is counted within the cap, and the game is counted once
   * at its round count and nowhere else.
   */
  lemma UpdateGameResultKeepsValid(s: SimulationStats, team1Won: bool, team1Score: int, team2Score: int,
                                   totalRounds: int, wentToOvertime: bool, responseTime: int)
    requires Valid(s)
    ensures var r := UpdateGameResult(s, team1Won, team1Score, team2Score, totalRounds, wentToOvertime, responseTime);
      Valid(r)
      && r.scoreDistribution == CountScore(s.scoreDistribution, ScoreKey(team1Score, team2Score))
      && r.roundDistribution == Increment(s.roundDistribution, totalRounds)
      && r.team1Wins + r.team2Wins == s.team1Wins + s.team2Wins + 1
  {
    CountScoreBounded(s.scoreDistribution, ScoreKey(team1Score, team2Score));
    var r := UpdateGameResult(s, team1Won, team1Score, team2Score, totalRounds, wentToOvertime, responseTime);
    if s.advancedStats.Some? {
      var rounded := r.(advancedStats := s.advancedStats);
      UpdateAdvancedStatsEffect(rounded, team1Score, team2Score, responseTime);
    }
  }

  /** `UpdateFailedSimulation`: one more failed game, nothing else. */
  function UpdateFailedSimulation(s: SimulationStats): (r: SimulationStats)
    ensures r.failedSims == s.failedSims + 1
    ensures r.(failedSims := s.failedSims) == s
    ensures Valid(s) ==> Valid(r)
  {
    s.(failedSims := s.failedSims + 1)
  }

  /** A game's result, as `UpdateGameResult` receives it. */
  datatype GameResult = GameResult(team1Won: bool, team1Score: int, team2Score: int, totalRounds: int,
                                   wentToOvertime: bool, responseTime: int)

  /** The statistics after recording a sequence of games, one after the other. */
  function RecordAll(s: SimulationStats, games: seq<GameResult>): SimulationStats
    decreases |games|
  {
    if games == [] then s
    else
      var g := games[|games| - 1];
      UpdateGameResult(RecordAll(s, games[..|games| - 1]), g.team1Won, g.team1Score, g.team2Score,
                       g.totalRounds, g.wentToOvertime, g.responseTime)
  }

  /** The number of games team 1 won. */
  function Team1WinCount(games: seq<GameResult>): nat
  {
    if games == [] then 0
    else Team1WinCount(games[..|games| - 1]) + (if games[|games| - 1].team1Won then 1 else 0)
  }

  /**
   * Over a whole batch every game counts once: the statistics stay valid,
   * the completed count grows by the number of games, team 1's wins by the
   * games it won and team 2's by the rest.
   */
  lemma {:induction false} RecordAllCounts(s: SimulationStats, games: seq<GameResult>)
    requires Valid(s)
    ensures Valid(RecordAll(s, games))
    ensures RecordAll(s, games).completedSims == s.completedSims + |games|
    ensures RecordAll(s, games).team1Wins == s.team1Wins + Team1WinCount(games)
    ensures RecordAll(s, games).team2Wins == s.team2Wins + |games| - Team1WinCount(games)
    decreases |games|
  {
    if games != [] {
      var init := games[..|games| - 1];
      var g := games[|games| - 1];
      RecordAllCounts(s, init);
      UpdateGameResultKeepsValid(RecordAll(s, init), g.team1Won, g.team1Score, g.team2Score,
                                 g.totalRounds, g.wentToOvertime, g.responseTime);
    }
  }
}
