/**
 * The loop that both engines' `processGames` share: walk the game IDs in date
 * order, hand every game not yet processed to the engine's `processGame`,
 * flag it, and count the processed games and the correct predictions. It is
 * stated once here for any engine; `Elo` and `Mmr` plug in their own games,
 * players, per-game update and prediction.
 */
module Replays {
  import opened Dicts
  import General

  /**
   * What the loop needs to know about one engine: a game's `ID`, `DATE` and
   * `PROCESSED` fields, how the flag is set, when the two tables are
   * consistent, and `processGame` as a change of the players table together
   * with its prediction.
   */
  datatype Engine<!G, !P> = Engine(
    id: G -> string,
    date: G -> string,
    processed: G -> bool,
    mark: G -> G,
    consistent: (Dict<G>, map<string, P>) -> bool,
    step: (map<string, P>, G) -> map<string, P>,
    predicted: (map<string, P>, G) -> bool)

  /** Processing the unprocessed game `k` of consistent tables keeps them consistent and keeps the same players. */
  ghost predicate StepKeepsConsistent<G(!new), P(!new)>(e: Engine<G, P>, games: Dict<G>, players: map<string, P>, k: string) {
    e.consistent(games, players) && games.Valid() && k in games.items && !e.processed(games.items[k]) ==>
      && e.consistent(games.Put(k, e.mark(games.items[k])), e.step(players, games.items[k]))
      && e.step(players, games.items[k]).Keys == players.Keys
  }

  /**
   * The engine fits the loop: consistent tables key every game by its ID,
   * setting the flag sets it and leaves a flagged game as it is, and one
   * `processGame` keeps the tables consistent.
   */
  ghost predicate Sound<G(!new), P(!new)>(e: Engine<G, P>) {
    && (forall games, players :: e.consistent(games, players) ==>
          games.Valid() && forall k :: k in games.items ==> e.id(games.items[k]) == k)
    && (forall g :: e.processed(e.mark(g)) && (e.processed(g) ==> e.mark(g) == g))
    && (forall games, players, k :: StepKeepsConsistent(e, games, players, k))
  }

  /** Every game of the table is flagged processed. */
  ghost predicate AllProcessed<G(!new), P(!new)>(e: Engine<G, P>, games: Dict<G>) {
    forall k :: k in games.items ==> e.processed(games.items[k])
  }

  /** The tables and the two counters of `processGames` after some of its iterations. */
  datatype Replay<G, P> = Replay(games: Dict<G>, players: map<string, P>, total: nat, correct: nat)

  ghost predicate CanReplay<G(!new), P(!new)>(e: Engine<G, P>, games: Dict<G>, players: map<string, P>, ids: seq<string>) {
    e.consistent(games, players) && forall i :: 0 <= i < |ids| ==> ids[i] in games.items
  }

  /** The loop of `processGames` over the remaining `ids`: unprocessed games are processed and counted. */
  ghost function ReplayFrom<G(!new), P(!new)>(e: Engine<G, P>, games: Dict<G>, players: map<string, P>, ids: seq<string>,
                                  total: nat, correct: nat): (r: Replay<G, P>)
    requires Sound(e) && CanReplay(e, games, players, ids)
    ensures total <= r.total && correct <= r.correct && r.correct - correct <= r.total - total
    decreases |ids|
  {
    if ids == [] then Replay(games, players, total, correct)
    else
      var g := games.items[ids[0]];
      if e.processed(g) then ReplayFrom(e, games, players, ids[1..], total, correct)
      else
        assert StepKeepsConsistent(e, games, players, ids[0]);
        ReplayFrom(e, games.Put(ids[0], e.mark(g)), e.step(players, g), ids[1..],
                   total + 1, correct + (if e.predicted(players, g) then 1 else 0))
  }

  /** One iteration of the loop of `processGames`. */
  lemma ReplayStep<G(!new), P(!new)>(e: Engine<G, P>, games: Dict<G>, players: map<string, P>, ids: seq<string>, total: nat, correct: nat)
    requires Sound(e) && CanReplay(e, games, players, ids)
    requires ids != []
    ensures var g := games.items[ids[0]];
      && CanReplay(e, games, players, ids[1..])
      && (!e.processed(g) ==> CanReplay(e, games.Put(ids[0], e.mark(g)), e.step(players, g), ids[1..]))
      && ReplayFrom(e, games, players, ids, total, correct) ==
         if e.processed(g) then ReplayFrom(e, games, players, ids[1..], total, correct)
         else ReplayFrom(e, games.Put(ids[0], e.mark(g)), e.step(players, g), ids[1..],
                         total + 1, correct + (if e.predicted(players, g) then 1 else 0))
  {
    assert StepKeepsConsistent(e, games, players, ids[0]);
  }

  /** The replay leaves consistent tables with the same game keys, in the same order, and the same players. */
  lemma {:induction false} ReplayConsistent<G(!new), P(!new)>(e: Engine<G, P>, games: Dict<G>, players: map<string, P>, ids: seq<string>,
                                                  total: nat, correct: nat)
    requires Sound(e) && CanReplay(e, games, players, ids)
    ensures var r := ReplayFrom(e, games, players, ids, total, correct);
      && e.consistent(r.games, r.players)
      && r.games.order == games.order && r.games.items.Keys == games.items.Keys
      && r.players.Keys == players.Keys
    decreases |ids|
  {
    if ids != [] {
      var g := games.items[ids[0]];
      ReplayStep(e, games, players, ids, total, correct);
      if e.processed(g) {
        ReplayConsistent(e, games, players, ids[1..], total, correct);
      } else {
        var nextGames := games.Put(ids[0], e.mark(g));
        assert StepKeepsConsistent(e, games, players, ids[0]);
        var nextCorrect := correct + (if e.predicted(players, g) then 1 else 0);
        ReplayConsistent(e, nextGames, e.step(players, g), ids[1..], total + 1, nextCorrect);
      }
    }
  }

  /**
   * The replay flags exactly the games it visits and leaves every other
   * field of every game as it was.
   */
  lemma {:induction false} ReplayMarks<G(!new), P(!new)>(e: Engine<G, P>, games: Dict<G>, players: map<string, P>, ids: seq<string>,
                                             total: nat, correct: nat)
    requires Sound(e) && CanReplay(e, games, players, ids)
    ensures var r := ReplayFrom(e, games, players, ids, total, correct);
      forall k :: k in games.items ==>
        k in r.games.items && r.games.items[k] == (if k in ids then e.mark(games.items[k]) else games.items[k])
    decreases |ids|
  {
    if ids != [] {
      var g := games.items[ids[0]];
      assert forall k :: k in ids <==> k == ids[0] || k in ids[1..] by {
        assert ids == [ids[0]] + ids[1..];
      }
      ReplayStep(e, games, players, ids, total, correct);
      if e.processed(g) {
        ReplayMarks(e, games, players, ids[1..], total, correct);
      } else {
        ReplayMarks(e, games.Put(ids[0], e.mark(g)), e.step(players, g), ids[1..],
                    total + 1, correct + (if e.predicted(players, g) then 1 else 0));
      }
    }
  }

  /** All games processed: the replay changes nothing and counts nothing. */
  lemma {:induction false} ReplayIdle<G(!new), P(!new)>(e: Engine<G, P>, games: Dict<G>, players: map<string, P>, ids: seq<string>,
                                            total: nat, correct: nat)
    requires Sound(e) && CanReplay(e, games, players, ids)
    requires AllProcessed(e, games)
    ensures ReplayFrom(e, games, players, ids, total, correct) == Replay(games, players, total, correct)
    decreases |ids|
  {
    if ids != [] {
      ReplayIdle(e, games, players, ids[1..], total, correct);
    }
  }

  /** An unprocessed game among the visited ones makes the count grow. */
  lemma {:induction false} ReplayCounts<G(!new), P(!new)>(e: Engine<G, P>, games: Dict<G>, players: map<string, P>, ids: seq<string>,
                                              total: nat, correct: nat, i: nat)
    requires Sound(e) && CanReplay(e, games, players, ids)
    requires i < |ids| && !e.processed(games.items[ids[i]])
    ensures total < ReplayFrom(e, games, players, ids, total, correct).total
    decreases |ids|
  {
    if i > 0 && e.processed(games.items[ids[0]]) {
      ReplayCounts(e, games, players, ids[1..], total, correct, i - 1);
    }
  }

  /** The IDs `orderGamesTable` returns name all games of consistent tables. */
  lemma OrderedIdsReplayable<G(!new), P(!new)>(e: Engine<G, P>, games: Dict<G>, players: map<string, P>)
    requires Sound(e) && e.consistent(games, players)
    ensures CanReplay(e, games, players, General.OrderedIds(games, e.date, e.id))
    ensures forall k :: k in games.items <==> k in General.OrderedIds(games, e.date, e.id)
  {
    General.OrderedIdsAreKeys(games, e.date, e.id);
  }

  /** Everything `processGames` computes: the unprocessed games replayed in date order. */
  ghost function ProcessAll<G(!new), P(!new)>(e: Engine<G, P>, games: Dict<G>, players: map<string, P>): (r: Replay<G, P>)
    requires Sound(e) && e.consistent(games, players)
    ensures e.consistent(r.games, r.players)
  {
    OrderedIdsReplayable(e, games, players);
    ReplayConsistent(e, games, players, General.OrderedIds(games, e.date, e.id), 0, 0);
    ReplayFrom(e, games, players, General.OrderedIds(games, e.date, e.id), 0, 0)
  }

  /**
   * `processGames`: afterwards every game is flagged and no other field of
   * any game has changed; nothing is counted exactly when every game was
   * already processed.
   */
  lemma ProcessAllMarksEveryGame<G(!new), P(!new)>(e: Engine<G, P>, games: Dict<G>, players: map<string, P>)
    requires Sound(e) && e.consistent(games, players)
    ensures var r := ProcessAll(e, games, players);
      && (forall k :: k in games.items ==> k in r.games.items && r.games.items[k] == e.mark(games.items[k]))
      && (r.total == 0 <==> AllProcessed(e, games))
      && r.correct <= r.total
  {
    var ids := General.OrderedIds(games, e.date, e.id);
    OrderedIdsReplayable(e, games, players);
    ReplayMarks(e, games, players, ids, 0, 0);
    if !AllProcessed(e, games) {
      var k :| k in games.items && !e.processed(games.items[k]);
      var i :| 0 <= i < |ids| && ids[i] == k;
      ReplayCounts(e, games, players, ids, 0, 0, i);
    } else {
      ReplayIdle(e, games, players, ids, 0, 0);
    }
  }

  /** A second `processGames` right after the first changes no table and counts nothing. */
  lemma SecondRunIdle<G(!new), P(!new)>(e: Engine<G, P>, games: Dict<G>, players: map<string, P>)
    requires Sound(e) && e.consistent(games, players)
    ensures var r := ProcessAll(e, games, players);
      var r2 := ProcessAll(e, r.games, r.players);
      r2 == Replay(r.games, r.players, 0, 0)
  {
    var r := ProcessAll(e, games, players);
    ProcessAllMarksEveryGame(e, games, players);
    assert AllProcessed(e, r.games) by {
      OrderedIdsReplayable(e, games, players);
      ReplayConsistent(e, games, players, General.OrderedIds(games, e.date, e.id), 0, 0);
    }
    OrderedIdsReplayable(e, r.games, r.players);
    ReplayIdle(e, r.games, r.players, General.OrderedIds(r.games, e.date, e.id), 0, 0);
  }
}
