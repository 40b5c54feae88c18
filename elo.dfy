/**
 * The ELO engine for one-versus-one games: the logistic win probability,
 * the three-tier growth coefficient, the in-place update of the two player
 * records for one game, the replay of every unprocessed game in date order,
 * and the grid search over growth coefficients.
 */
module Elo {
  import opened Dicts
  import opened RealMath
  import General
  import Replays

  /** The rating of a new player. */
  const StartElo: real := 1500.0

  /** The per-terrain counters of a player's `FAV_TERRAIN` table. */
  datatype TerrainRecord = TerrainRecord(win: nat, loss: nat, draw: nat)

  /** A row of the players table: `ELO`, `GAMES` and `FAV_TERRAIN`. */
  datatype Player = Player(elo: real, games: seq<string>, favTerrain: map<string, TerrainRecord>)

  /** A row of the games table; `TERRAIN` may be missing. */
  datatype Game = Game(id: string, date: string, winnerId: string, loserId: string, terrain: Option<string>, processed: bool)

  /** `base_points`, `beginner_multiplier` and `low_elo_multiplier`. */
  datatype Coefficients = Coefficients(basePoints: real, beginnerMultiplier: real, lowEloMultiplier: real)

  /** A row of the configuration table written by the grid search. */
  datatype Configuration = Configuration(basePoints: real, beginnerMultiplier: real, lowEloMultiplier: real, successRate: real)

  function GameId(g: Game): string { g.id }
  function GameDate(g: Game): string { g.date }

  // ---------------------------------------------------------------------
  // Win probability and growth coefficient
  // ---------------------------------------------------------------------

  /** `determineWinProbability`: the predicted chance that a player rated `elo1` beats one rated `elo2`. */
  function WinProbability(pow10: real -> real, elo1: real, elo2: real): (p: real)
    requires IsPow10(pow10)
    ensures 0.0 < p < 1.0
  {
    var x := pow10(-(elo1 - elo2) / 400.0);
    assert 1.0 < 1.0 + x;
    1.0 / (1.0 + x)
  }

  /** The two sides' probabilities add up to one, so `1 - p` is the other side's. */
  lemma WinProbabilityComplement(pow10: real -> real, elo1: real, elo2: real)
    requires IsPow10(pow10)
    ensures WinProbability(pow10, elo1, elo2) + WinProbability(pow10, elo2, elo1) == 1.0
  {
    var t := -(elo1 - elo2) / 400.0;
    assert -(elo2 - elo1) / 400.0 == -t;
    var x, y := pow10(t), pow10(-t);
    assert x * y == 1.0;
    assert 1.0 / (1.0 + y) == x / (x + 1.0) by {
      assert (x + 1.0) == x * (1.0 + y);
    }
    assert 1.0 / (1.0 + x) + x / (x + 1.0) == 1.0;
  }

  /** Equal ratings give an even chance. */
  lemma WinProbabilityEven(pow10: real -> real, elo: real)
    requires IsPow10(pow10)
    ensures WinProbability(pow10, elo, elo) == 0.5
  {
    assert -(elo - elo) / 400.0 == 0.0;
    Pow10Zero(pow10);
  }

  /** The higher-rated player, and only they, is favoured. */
  lemma WinProbabilityFavours(pow10: real -> real, elo1: real, elo2: real)
    requires IsPow10(pow10)
    ensures WinProbability(pow10, elo1, elo2) > 0.5 <==> elo1 > elo2
    ensures WinProbability(pow10, elo1, elo2) == 0.5 <==> elo1 == elo2
  {
    var t := -(elo1 - elo2) / 400.0;
    var x := pow10(t);
    if elo1 > elo2 {
      Pow10BelowOne(pow10, t);
    } else if elo1 == elo2 {
      WinProbabilityEven(pow10, elo1);
    }
    assert x < 1.0 ==> 1.0 / (1.0 + x) > 0.5;
    assert x > 1.0 ==> 1.0 / (1.0 + x) < 0.5;
    assert x == 1.0 ==> 1.0 / (1.0 + x) == 0.5;
  }

  /** `getPlayerGrowthCoeff`: the factor K by which a result moves a rating. */
  function GrowthCoeff(gamesCount: nat, c: Coefficients): real {
    if gamesCount < 30 then c.basePoints * c.beginnerMultiplier
    else if gamesCount < 2400 then c.basePoints * c.lowEloMultiplier
    else c.basePoints
  }

  /**
   * The three tiers and their strict boundaries: below 30 games a beginner,
   * from 30 to 2399 a low-rated player, from 2400 on a master.
   */
  lemma GrowthCoeffTiers(c: Coefficients, count: nat)
    ensures GrowthCoeff(29, c) == c.basePoints * c.beginnerMultiplier
    ensures GrowthCoeff(30, c) == GrowthCoeff(2399, c) == c.basePoints * c.lowEloMultiplier
    ensures GrowthCoeff(2400, c) == c.basePoints
    ensures GrowthCoeff(count, c) == (if count < 30 then GrowthCoeff(0, c) else if count < 2400 then GrowthCoeff(30, c) else GrowthCoeff(2400, c))
  {
  }

  /** Non-negative coefficients make a non-negative K. */
  ghost predicate NonNegative(c: Coefficients) {
    0.0 <= c.basePoints && 0.0 <= c.beginnerMultiplier && 0.0 <= c.lowEloMultiplier
  }

  lemma GrowthCoeffNonNegative(c: Coefficients, count: nat)
    requires NonNegative(c)
    ensures 0.0 <= GrowthCoeff(count, c)
  {
  }

  /** With `beginner >= low >= 1`, K never grows as a player plays more games. */
  lemma GrowthCoeffSlowsDown(c: Coefficients, count1: nat, count2: nat)
    requires 0.0 <= c.basePoints && 1.0 <= c.lowEloMultiplier <= c.beginnerMultiplier
    requires count1 <= count2
    ensures GrowthCoeff(count2, c) <= GrowthCoeff(count1, c)
  {
    var b := c.basePoints;
    assert b * c.lowEloMultiplier <= b * c.beginnerMultiplier;
    assert b <= b * c.lowEloMultiplier;
  }

  // ---------------------------------------------------------------------
  // One game
  // ---------------------------------------------------------------------

  /** `if terrain:` — a missing or empty terrain records nothing. */
  predicate HasTerrain(terrain: Option<string>) {
    terrain.Some? && terrain.value != ""
  }

  /** The count of a terrain's wins, losses and draws, a missing entry counting as none. */
  function RecordOf(terrains: map<string, TerrainRecord>, t: string): TerrainRecord {
    if t in terrains then terrains[t] else TerrainRecord(0, 0, 0)
  }

  /** The winner's side of the terrain bookkeeping. */
  function CreditWin(terrains: map<string, TerrainRecord>, t: string): (r: map<string, TerrainRecord>)
    ensures r.Keys == terrains.Keys + {t}
    ensures RecordOf(r, t) == RecordOf(terrains, t).(win := RecordOf(terrains, t).win + 1)
    ensures forall u :: u in terrains && u != t ==> r[u] == terrains[u]
  {
    if t in terrains then terrains[t := terrains[t].(win := terrains[t].win + 1)]
    else terrains[t := TerrainRecord(1, 0, 0)]
  }

  /** The loser's side of the terrain bookkeeping. */
  function CreditLoss(terrains: map<string, TerrainRecord>, t: string): (r: map<string, TerrainRecord>)
    ensures r.Keys == terrains.Keys + {t}
    ensures RecordOf(r, t) == RecordOf(terrains, t).(loss := RecordOf(terrains, t).loss + 1)
    ensures forall u :: u in terrains && u != t ==> r[u] == terrains[u]
  {
    if t in terrains then terrains[t := terrains[t].(loss := terrains[t].loss + 1)]
    else terrains[t := TerrainRecord(0, 1, 0)]
  }

  /** Both players of the game are in the table. */
  ghost predicate Playable(players: map<string, Player>, g: Game) {
    g.winnerId in players && g.loserId in players
  }

  /** The winner's record after the game: rating up by `k * (1 - p1)` and the game's ID appended. */
  function Won(p: Player, g: Game, k: real, p1: real): Player {
    p.(elo := p.elo + k * (1.0 - p1), games := p.games + [g.id])
  }

  /** The loser's record after the game: rating down by `k * (1 - p1)` and the game's ID appended. */
  function Lost(p: Player, g: Game, k: real, p1: real): Player {
    p.(elo := p.elo + k * -(1.0 - p1), games := p.games + [g.id])
  }

  /**
   * The ratings and game lists after `processGame`. The winner's record is
   * updated first and the loser's is read afterwards, so that in a game a
   * player wins against themself the second update sees the first, as the
   * shared dict does in the source.
   */
  function Rated(players: map<string, Player>, g: Game, c: Coefficients, pow10: real -> real): (r: map<string, Player>)
    requires IsPow10(pow10)
    requires Playable(players, g)
    ensures r.Keys == players.Keys
  {
    var winner := players[g.winnerId];
    var p1 := WinProbability(pow10, winner.elo, players[g.loserId].elo);
    var afterWinner := players[g.winnerId := Won(winner, g, GrowthCoeff(|winner.games|, c), p1)];
    var loser := afterWinner[g.loserId];
    afterWinner[g.loserId := Lost(loser, g, GrowthCoeff(|loser.games|, c), p1)]
  }

  /**
   * The terrain bookkeeping that follows: with a terrain, one more WIN on it
   * for the winner, then one more LOSS for the loser; without one, nothing.
   */
  function Credited(players: map<string, Player>, g: Game): (r: map<string, Player>)
    requires Playable(players, g)
    ensures r.Keys == players.Keys
  {
    if HasTerrain(g.terrain) then
      var t := g.terrain.value;
      var winner := players[g.winnerId];
      var afterWinner := players[g.winnerId := winner.(favTerrain := CreditWin(winner.favTerrain, t))];
      var loser := afterWinner[g.loserId];
      afterWinner[g.loserId := loser.(favTerrain := CreditLoss(loser.favTerrain, t))]
    else
      players
  }

  /** The players table after `processGame`: ratings and game lists first, then terrains. */
  function AfterGame(players: map<string, Player>, g: Game, c: Coefficients, pow10: real -> real): (r: map<string, Player>)
    requires IsPow10(pow10)
    requires Playable(players, g)
    ensures r.Keys == players.Keys
  {
    Credited(Rated(players, g, c, pow10), g)
  }

  /** The value `processGame` returns: whether the winner's chance was above the loser's. */
  function Predicted(players: map<string, Player>, g: Game, pow10: real -> real): bool
    requires IsPow10(pow10)
    requires Playable(players, g)
  {
    var p1 := WinProbability(pow10, players[g.winnerId].elo, players[g.loserId].elo);
    p1 > 1.0 - p1
  }

  /** The game is counted as predicted exactly when the winner was rated strictly higher. */
  lemma PredictedIffRatedHigher(players: map<string, Player>, g: Game, pow10: real -> real)
    requires IsPow10(pow10)
    requires Playable(players, g)
    ensures Predicted(players, g, pow10) <==> players[g.winnerId].elo > players[g.loserId].elo
  {
    WinProbabilityFavours(pow10, players[g.winnerId].elo, players[g.loserId].elo);
  }

  /**
   * A game between two different players: the winner gains `K_w * (1 - p)`,
   * the loser loses `K_l * (1 - p)`, each K taken from the length of the
   * player's `GAMES` before the append, both `GAMES` lists end with the
   * game's ID, and every other player is unchanged.
   */
  lemma TwoPlayerGame(players: map<string, Player>, g: Game, c: Coefficients, pow10: real -> real)
    requires IsPow10(pow10)
    requires Playable(players, g)
    requires g.winnerId != g.loserId
    ensures var r := AfterGame(players, g, c, pow10);
      var w, l := players[g.winnerId], players[g.loserId];
      var q := 1.0 - WinProbability(pow10, w.elo, l.elo);
      && r[g.winnerId].elo == w.elo + GrowthCoeff(|w.games|, c) * q
      && r[g.loserId].elo == l.elo - GrowthCoeff(|l.games|, c) * q
      && r[g.winnerId].games == w.games + [g.id]
      && r[g.loserId].games == l.games + [g.id]
      && (forall k :: k in players && k != g.winnerId && k != g.loserId ==> r[k] == players[k])
  {
  }

  /**
   * Terrain bookkeeping between two different players: with a terrain, the
   * winner's WIN and the loser's LOSS counter for it go up by one (from an
   * absent entry, to one), nothing else in the two tables changes; without a
   * terrain neither table changes.
   */
  lemma TwoPlayerTerrain(players: map<string, Player>, g: Game, c: Coefficients, pow10: real -> real)
    requires IsPow10(pow10)
    requires Playable(players, g)
    requires g.winnerId != g.loserId
    ensures var r := AfterGame(players, g, c, pow10);
      var w, l := players[g.winnerId].favTerrain, players[g.loserId].favTerrain;
      if HasTerrain(g.terrain) then
        var t := g.terrain.value;
        && RecordOf(r[g.winnerId].favTerrain, t) == RecordOf(w, t).(win := RecordOf(w, t).win + 1)
        && RecordOf(r[g.loserId].favTerrain, t) == RecordOf(l, t).(loss := RecordOf(l, t).loss + 1)
        && r[g.winnerId].favTerrain.Keys == w.Keys + {t}
        && r[g.loserId].favTerrain.Keys == l.Keys + {t}
        && (forall u :: u in w && u != t ==> r[g.winnerId].favTerrain[u] == w[u])
        && (forall u :: u in l && u != t ==> r[g.loserId].favTerrain[u] == l[u])
      else
        r[g.winnerId].favTerrain == w && r[g.loserId].favTerrain == l
  {
  }

  /** With non-negative coefficients the winner never loses points and the loser never gains. */
  lemma RatingsMoveApart(players: map<string, Player>, g: Game, c: Coefficients, pow10: real -> real)
    requires IsPow10(pow10)
    requires Playable(players, g)
    requires g.winnerId != g.loserId
    requires NonNegative(c)
    ensures AfterGame(players, g, c, pow10)[g.winnerId].elo >= players[g.winnerId].elo
    ensures AfterGame(players, g, c, pow10)[g.loserId].elo <= players[g.loserId].elo
  {
    var w, l := players[g.winnerId], players[g.loserId];
    var q := 1.0 - WinProbability(pow10, w.elo, l.elo);
    TwoPlayerGame(players, g, c, pow10);
    GrowthCoeffNonNegative(c, |w.games|);
    GrowthCoeffNonNegative(c, |l.games|);
    assert 0.0 <= GrowthCoeff(|w.games|, c) * q;
    assert 0.0 <= GrowthCoeff(|l.games|, c) * q;
  }

  /** When both players have the same K, the points the winner gains are the points the loser loses. */
  lemma RatingSumPreserved(players: map<string, Player>, g: Game, c: Coefficients, pow10: real -> real)
    requires IsPow10(pow10)
    requires Playable(players, g)
    requires g.winnerId != g.loserId
    requires GrowthCoeff(|players[g.winnerId].games|, c) == GrowthCoeff(|players[g.loserId].games|, c)
    ensures var r := AfterGame(players, g, c, pow10);
      r[g.winnerId].elo + r[g.loserId].elo == players[g.winnerId].elo + players[g.loserId].elo
  {
    TwoPlayerGame(players, g, c, pow10);
  }

  /**
   * A game whose winner is also its loser updates one record twice: the
   * rating moves by `K(n)/2 - K(n+1)/2`, the ID is appended twice and, with a
   * terrain, both its WIN and LOSS counters go up by one.
   */
  lemma SelfGame(players: map<string, Player>, g: Game, c: Coefficients, pow10: real -> real)
    requires IsPow10(pow10)
    requires Playable(players, g)
    requires g.winnerId == g.loserId
    ensures var r := AfterGame(players, g, c, pow10);
      var p, n := players[g.winnerId], |players[g.winnerId].games|;
      && r[g.winnerId].elo == p.elo + GrowthCoeff(n, c) * 0.5 - GrowthCoeff(n + 1, c) * 0.5
      && r[g.winnerId].games == p.games + [g.id, g.id]
      && (HasTerrain(g.terrain) ==>
            var t := g.terrain.value;
            RecordOf(r[g.winnerId].favTerrain, t) ==
              RecordOf(p.favTerrain, t).(win := RecordOf(p.favTerrain, t).win + 1, loss := RecordOf(p.favTerrain, t).loss + 1))
  {
    var p := players[g.winnerId];
    WinProbabilityEven(pow10, p.elo);
    assert p.games + [g.id] + [g.id] == p.games + [g.id, g.id];
  }

  /** Two new players at 1500 with K = 32: the winner goes to 1516, the loser to 1484, and the game counts as not predicted. */
  lemma DebutExample(players: map<string, Player>, g: Game, pow10: real -> real)
    requires IsPow10(pow10)
    requires Playable(players, g) && g.winnerId != g.loserId
    requires players[g.winnerId] == Player(StartElo, [], map[])
    requires players[g.loserId] == Player(StartElo, [], map[])
    ensures AfterGame(players, g, Coefficients(32.0, 1.0, 1.0), pow10)[g.winnerId].elo == 1516.0
    ensures AfterGame(players, g, Coefficients(32.0, 1.0, 1.0), pow10)[g.loserId].elo == 1484.0
    ensures !Predicted(players, g, pow10)
  {
    WinProbabilityEven(pow10, StartElo);
    TwoPlayerGame(players, g, Coefficients(32.0, 1.0, 1.0), pow10);
  }

  // ---------------------------------------------------------------------
  // Replaying the games table
  // ---------------------------------------------------------------------

  /** Every game's key is its ID and both players of every game still to be processed are in the players table. */
  ghost predicate Consistent(games: Dict<Game>, players: map<string, Player>) {
    && games.Valid()
    && (forall k :: k in games.items ==>
          games.items[k].id == k && (!games.items[k].processed ==> Playable(players, games.items[k])))
  }

  /** Processing one game keeps the tables consistent. */
  lemma NextConsistent(games: Dict<Game>, players: map<string, Player>, id: string, c: Coefficients, pow10: real -> real)
    requires IsPow10(pow10)
    requires Consistent(games, players) && id in games.items && Playable(players, games.items[id])
    ensures var g := games.items[id];
      Consistent(games.Put(id, g.(processed := true)), AfterGame(players, g, c, pow10))
  {
    var g := games.items[id];
    var next := AfterGame(players, g, c, pow10);
    var nextGames := games.Put(id, g.(processed := true));
    forall k | k in nextGames.items && !nextGames.items[k].processed ensures Playable(next, nextGames.items[k]) {
      assert k != id && nextGames.items[k] == games.items[k];
    }
  }

  /**
   * The ELO engine as the loop of `processGames` sees it: `processGame` on
   * the players table and its prediction, for the given coefficients.
   */
  ghost function Engine(c: Coefficients, pow10: real -> real): (e: Replays.Engine<Game, Player>)
    requires IsPow10(pow10)
    ensures Replays.Sound(e)
    ensures forall players, g :: Playable(players, g) ==>
      e.step(players, g) == AfterGame(players, g, c, pow10) && (e.predicted(players, g) <==> Predicted(players, g, pow10))
  {
    var e := Replays.Engine(
      GameId, GameDate,
      (g: Game) => g.processed,
      (g: Game) => g.(processed := true),
      (games: Dict<Game>, players: map<string, Player>) => Consistent(games, players),
      (players: map<string, Player>, g: Game) => if Playable(players, g) then AfterGame(players, g, c, pow10) else players,
      (players: map<string, Player>, g: Game) => Playable(players, g) && Predicted(players, g, pow10));
    assert Replays.Sound(e) by {
      forall games: Dict<Game>, players: map<string, Player>, k: string
        ensures Replays.StepKeepsConsistent(e, games, players, k)
      {
        if Consistent(games, players) && k in games.items && !games.items[k].processed {
          NextConsistent(games, players, k, c, pow10);
        }
      }
    }
    e
  }

  /** The value `processGames` returns, 0 when no game was processed. */
  function SuccessRate(total: nat, correct: nat): real {
    if total == 0 then 0.0 else correct as real / total as real
  }

  /** A share of at most all games lies in [0, 1]. */
  lemma FractionBounds(total: nat, correct: nat)
    requires correct <= total
    ensures 0.0 <= SuccessRate(total, correct) <= 1.0
  {
    if total != 0 {
      assert (correct as real) / (total as real) <= (total as real) / (total as real);
    }
  }

  /** The success rate of a replay is a fraction in [0, 1]. */
  lemma SuccessRateBounds(games: Dict<Game>, players: map<string, Player>, c: Coefficients, pow10: real -> real)
    requires IsPow10(pow10)
    requires Consistent(games, players)
    ensures var r := Replays.ProcessAll(Engine(c, pow10), games, players);
      0.0 <= SuccessRate(r.total, r.correct) <= 1.0
  {
    var r := Replays.ProcessAll(Engine(c, pow10), games, players);
    FractionBounds(r.total, r.correct);
  }

  /** A second `processGames` right after the first returns 0 and changes no table. */
  lemma SecondRunIdle(games: Dict<Game>, players: map<string, Player>, c: Coefficients, pow10: real -> real)
    requires IsPow10(pow10)
    requires Consistent(games, players)
    ensures var r := Replays.ProcessAll(Engine(c, pow10), games, players);
      var r2 := Replays.ProcessAll(Engine(c, pow10), r.games, r.players);
      r2.games == r.games && r2.players == r.players && SuccessRate(r2.total, r2.correct) == 0.0
  {
    Replays.SecondRunIdle(Engine(c, pow10), games, players);
  }

  /** The success rate of one configuration, replayed on a fresh copy of the tables. */
  ghost function EvaluatedRate(games: Dict<Game>, players: map<string, Player>, c: Coefficients, pow10: real -> real): real
    requires IsPow10(pow10)
    requires Consistent(games, players)
  {
    var r := Replays.ProcessAll(Engine(c, pow10), games, players);
    SuccessRate(r.total, r.correct)
  }

  /**
   * The body of `processGame` on the players table: the winner's record is
   * updated and stored, then the loser's, then the terrain counters.
   */
  method PlayGame(players: map<string, Player>, g: Game, c: Coefficients, pow10: real -> real)
    returns (table: map<string, Player>, predicted: bool)
    requires IsPow10(pow10)
    requires Playable(players, g)
    ensures table == AfterGame(players, g, c, pow10)
    ensures predicted == Predicted(players, g, pow10)
  {
    table := players;
    var winner := table[g.winnerId];
    var loser := table[g.loserId];
    var probWin1 := WinProbability(pow10, winner.elo, loser.elo);
    var probWin2 := 1.0 - probWin1;
    var gameDiff1 := 1.0 - probWin1;
    var gameDiff2 := -probWin2;

    ghost var winnerBefore := winner;
    winner := winner.(elo := winner.elo + GrowthCoeff(|winner.games|, c) * gameDiff1);
    winner := winner.(games := winner.games + [g.id]);
    assert winner == Won(winnerBefore, g, GrowthCoeff(|winnerBefore.games|, c), probWin1);
    table := table[g.winnerId := winner];
    loser := table[g.loserId];
    ghost var loserBefore := loser;
    loser := loser.(elo := loser.elo + GrowthCoeff(|loser.games|, c) * gameDiff2);
    assert gameDiff2 == -(1.0 - probWin1);
    assert loser.elo == Lost(loserBefore, g, GrowthCoeff(|loserBefore.games|, c), probWin1).elo;
    loser := loser.(games := loser.games + [g.id]);
    assert loser == Lost(loserBefore, g, GrowthCoeff(|loserBefore.games|, c), probWin1);
    table := table[g.loserId := loser];
    assert table == Rated(players, g, c, pow10);

    ghost var rated := table;
    if HasTerrain(g.terrain) {
      var terrain := g.terrain.value;
      winner := table[g.winnerId];
      table := table[g.winnerId := winner.(favTerrain := CreditWin(winner.favTerrain, terrain))];
      loser := table[g.loserId];
      table := table[g.loserId := loser.(favTerrain := CreditLoss(loser.favTerrain, terrain))];
    }
    assert table == Credited(rated, g);
    predicted := probWin1 > probWin2;
  }

  // ---------------------------------------------------------------------
  // The database
  // ---------------------------------------------------------------------

  /** The in-memory `GAMES` and `PLAYERS` tables, updated in place. */
  class Database {
    var games: Dict<Game>
    var players: map<string, Player>

    constructor(games: Dict<Game>, players: map<string, Player>)
      ensures this.games == games && this.players == players
    {
      this.games := games;
      this.players := players;
    }

    /** `processGame`: updates both player records and marks the game processed. */
    method ProcessGame(id: string, c: Coefficients, pow10: real -> real) returns (predicted: bool)
      requires IsPow10(pow10)
      requires Consistent(games, players)
      requires id in games.items && Playable(players, games.items[id])
      modifies this
      ensures players == AfterGame(old(players), old(games.items[id]), c, pow10)
      ensures games == old(games).Put(id, old(games.items[id]).(processed := true))
      ensures predicted == Predicted(old(players), old(games.items[id]), pow10)
      ensures Consistent(games, players)
    {
      var g := games.items[id];
      players, predicted := PlayGame(players, g, c, pow10);
      games := games.Put(id, g.(processed := true));
      NextConsistent(old(games), old(players), id, c, pow10);
    }

    /** One iteration of the loop of `processGames`: the game `id` is processed unless it already was. */
    method ProcessPending(id: string, c: Coefficients, pow10: real -> real) returns (counted: bool, predicted: bool)
      requires IsPow10(pow10)
      requires Consistent(games, players) && id in games.items
      modifies this
      ensures var g := old(games.items[id]);
        && counted == !g.processed
        && (g.processed ==> games == old(games) && players == old(players) && !predicted)
        && (!g.processed ==>
              && games == old(games).Put(id, g.(processed := true))
              && players == AfterGame(old(players), g, c, pow10)
              && predicted == Predicted(old(players), g, pow10))
    {
      counted, predicted := false, false;
      if !games.items[id].processed {
        counted := true;
        predicted := ProcessGame(id, c, pow10);
      }
    }

    /** The loop of `processGames` over the game IDs `ids`, returning its two counters. */
    method ProcessInOrder(ids: seq<string>, c: Coefficients, pow10: real -> real) returns (total: nat, correct: nat)
      requires IsPow10(pow10)
      requires Replays.CanReplay(Engine(c, pow10), games, players, ids)
      modifies this
      ensures var r := Replays.ReplayFrom(Engine(c, pow10), old(games), old(players), ids, 0, 0);
        games == r.games && players == r.players && total == r.total && correct == r.correct
    {
      total, correct := 0, 0;
      ghost var e := Engine(c, pow10);
      ghost var goal := Replays.ReplayFrom(e, games, players, ids, 0, 0);
      for i := 0 to |ids|
        invariant Replays.CanReplay(e, games, players, ids[i..])
        invariant Replays.ReplayFrom(e, games, players, ids[i..], total, correct) == goal
      {
        Replays.ReplayStep(e, games, players, ids[i..], total, correct);
        assert ids[i..][1..] == ids[i + 1..];
        var counted, predicted := ProcessPending(ids[i], c, pow10);
        total := total + (if counted then 1 else 0);
        correct := correct + (if predicted then 1 else 0);
      }
    }

    /** `processGames`: replays the unprocessed games in date order and returns the share predicted. */
    method ProcessGames(c: Coefficients, pow10: real -> real) returns (successRate: real)
      requires IsPow10(pow10)
      requires Consistent(games, players)
      modifies this
      ensures var r := Replays.ProcessAll(Engine(c, pow10), old(games), old(players));
        games == r.games && players == r.players && successRate == SuccessRate(r.total, r.correct)
    {
      var ids := General.OrderGamesTable(games, GameDate, GameId);
      Replays.OrderedIdsReplayable(Engine(c, pow10), games, players);
      var totalNumberGames, correctPredictions := ProcessInOrder(ids, c, pow10);
      successRate := 0.0;
      if totalNumberGames != 0 {
        successRate := correctPredictions as real / totalNumberGames as real;
      }
    }
  }

  // ---------------------------------------------------------------------
  // Grid search
  // ---------------------------------------------------------------------

  /** The low-rating multiplier the grid search holds fixed. */
  const LowEloMultiplier: real := 1.0

  /** The row the grid search stores for one configuration. */
  ghost function Evaluation(basePoints: real, beginnerMultiplier: real, games: Dict<Game>, players: map<string, Player>,
                      pow10: real -> real): (r: Configuration)
    requires IsPow10(pow10)
    requires Consistent(games, players)
    ensures 0.0 <= r.successRate <= 1.0
  {
    var c := Coefficients(basePoints, beginnerMultiplier, LowEloMultiplier);
    SuccessRateBounds(games, players, c, pow10);
    Configuration(basePoints, beginnerMultiplier, LowEloMultiplier, EvaluatedRate(games, players, c, pow10))
  }

  /** `Evaluation` on fixed tables, as a function of the two varied coefficients. */
  ghost function Evaluator(games: Dict<Game>, players: map<string, Player>, pow10: real -> real)
    : (evaluate: (real, real) -> Configuration)
    requires IsPow10(pow10)
    requires Consistent(games, players)
    ensures forall b, m :: evaluate(b, m) == Evaluation(b, m, games, players, pow10)
  {
    (b: real, m: real) => Evaluation(b, m, games, players, pow10)
  }

  /** `row`, stored under `key`, is the evaluation of a point of the grid whose key is `key`. */
  ghost predicate GridRow(key: string, row: Configuration, baseRange: seq<real>, beginnerRange: seq<real>,
                          configKey: (real, real, real) -> string, evaluate: (real, real) -> Configuration)
  {
    exists i, j :: 0 <= i < |baseRange| && 0 <= j < |beginnerRange| &&
      configKey(baseRange[i], beginnerRange[j], LowEloMultiplier) == key &&
      row == evaluate(baseRange[i], beginnerRange[j])
  }

  /**
   * One iteration of the grid search: evaluates the configuration on a
   * fresh copy of the tables and stores its row, unless its key is already
   * in the table.
   */
  method EvaluateIfAbsent(table: Dict<Configuration>, basePoints: real, beginnerMultiplier: real,
                          freshGames: Dict<Game>, freshPlayers: map<string, Player>,
                          configKey: (real, real, real) -> string, pow10: real -> real)
    returns (updated: Dict<Configuration>)
    requires IsPow10(pow10)
    requires table.Valid()
    requires Consistent(freshGames, freshPlayers)
    ensures var key := configKey(basePoints, beginnerMultiplier, LowEloMultiplier);
      && Extends(updated, table)
      && key in updated.items
      && (forall k :: k in updated.items && k !in table.items ==>
            k == key && updated.items[k] == Evaluation(basePoints, beginnerMultiplier, freshGames, freshPlayers, pow10))
  {
    var configId := configKey(basePoints, beginnerMultiplier, LowEloMultiplier);
    updated := table;
    if configId !in table.items {
      var db := new Database(freshGames, freshPlayers);
      var successRate := db.ProcessGames(Coefficients(basePoints, beginnerMultiplier, LowEloMultiplier), pow10);
      updated := table.Put(configId, Configuration(basePoints, beginnerMultiplier, LowEloMultiplier, successRate));
      assert updated.order[..|table.order|] == table.order;
    }
  }

  /** Every grid point before `(i, j)` in row-major order has its key in the table. */
  ghost predicate CoveredUpTo(table: Dict<Configuration>, baseRange: seq<real>, beginnerRange: seq<real>,
                              configKey: (real, real, real) -> string, i: nat, j: nat) {
    forall i', j' :: 0 <= i' <= i && 0 <= j' < |beginnerRange| && (i' < i || j' < j) && i' < |baseRange| ==>
      configKey(baseRange[i'], beginnerRange[j'], LowEloMultiplier) in table.items
  }

  /** Every row not in `configurations` was evaluated at a grid point with its key. */
  ghost predicate NewRowsFromGrid(table: Dict<Configuration>, configurations: Dict<Configuration>,
                                  baseRange: seq<real>, beginnerRange: seq<real>,
                                  configKey: (real, real, real) -> string, evaluate: (real, real) -> Configuration)
  {
    forall k :: k in table.items && k !in configurations.items ==>
      GridRow(k, table.items[k], baseRange, beginnerRange, configKey, evaluate)
  }

  /** One call of `EvaluateIfAbsent` at grid point `(i, j)` keeps the loop invariants and covers `(i, j)`. */
  lemma GridStep(before: Dict<Configuration>, table: Dict<Configuration>, configurations: Dict<Configuration>,
                 baseRange: seq<real>, beginnerRange: seq<real>,
                 configKey: (real, real, real) -> string, evaluate: (real, real) -> Configuration, i: nat, j: nat)
    requires i < |baseRange| && j < |beginnerRange|
    requires Extends(before, configurations)
    requires CoveredUpTo(before, baseRange, beginnerRange, configKey, i, j)
    requires NewRowsFromGrid(before, configurations, baseRange, beginnerRange, configKey, evaluate)
    requires var key := configKey(baseRange[i], beginnerRange[j], LowEloMultiplier);
      && Extends(table, before)
      && key in table.items
      && (forall k :: k in table.items && k !in before.items ==>
            k == key && table.items[k] == evaluate(baseRange[i], beginnerRange[j]))
    ensures Extends(table, configurations)
    ensures CoveredUpTo(table, baseRange, beginnerRange, configKey, i, j + 1)
    ensures NewRowsFromGrid(table, configurations, baseRange, beginnerRange, configKey, evaluate)
  {
    assert table.order[..|configurations.order|] == table.order[..|before.order|][..|configurations.order|];
    forall k | k in table.items && k !in configurations.items
      ensures GridRow(k, table.items[k], baseRange, beginnerRange, configKey, evaluate)
    {
      if k !in before.items {
        assert configKey(baseRange[i], beginnerRange[j], LowEloMultiplier) == k;
      }
    }
  }

  /**
   * `optimizeGrowthCoeff`: for every base value and beginner multiplier of
   * the two ranges, evaluates the configuration unless its key is already in
   * the configuration table. Existing rows are kept as they are and new rows
   * go last.
   */
  method OptimizeGrowthCoeff(configurations: Dict<Configuration>, baseRange: seq<real>, beginnerRange: seq<real>,
                             freshGames: Dict<Game>, freshPlayers: map<string, Player>,
                             configKey: (real, real, real) -> string, pow10: real -> real)
    returns (table: Dict<Configuration>)
    requires IsPow10(pow10)
    requires configurations.Valid()
    requires Consistent(freshGames, freshPlayers)
    ensures Extends(table, configurations)
    ensures forall i, j :: 0 <= i < |baseRange| && 0 <= j < |beginnerRange| ==>
              configKey(baseRange[i], beginnerRange[j], LowEloMultiplier) in table.items
    ensures forall k :: k in table.items && k !in configurations.items ==>
              GridRow(k, table.items[k], baseRange, beginnerRange, configKey, Evaluator(freshGames, freshPlayers, pow10))
  {
    ghost var evaluate := Evaluator(freshGames, freshPlayers, pow10);
    table := configurations;
    for i := 0 to |baseRange|
      invariant Extends(table, configurations)
      invariant CoveredUpTo(table, baseRange, beginnerRange, configKey, i, 0)
      invariant NewRowsFromGrid(table, configurations, baseRange, beginnerRange, configKey, evaluate)
    {
      for j := 0 to |beginnerRange|
        invariant Extends(table, configurations)
        invariant CoveredUpTo(table, baseRange, beginnerRange, configKey, i, j)
        invariant NewRowsFromGrid(table, configurations, baseRange, beginnerRange, configKey, evaluate)
      {
        ghost var before := table;
        table := EvaluateIfAbsent(table, baseRange[i], beginnerRange[j], freshGames, freshPlayers, configKey, pow10);
        GridStep(before, table, configurations, baseRange, beginnerRange, configKey, evaluate, i, j);
      }
    }
  }
}
