/**
 * The scorer's single mutable `state` record (app.js:12-23) and the
 * operations that change it: turn entry, turn validation, new game, reset,
 * the forced end of a leg, and undo through a stack of snapshots.
 */
module Game {
  import opened Wrappers
  import opened Decimal
  import opened Darts
  import opened Rules

  datatype Player = Player(name: string, score: int)

  /** One line of the readable history, newest first in the log. */
  datatype LogEntry =
    | Visit(player: string, darts: seq<Dart>, total: int, verdict: Verdict, score: int)
    | ForcedEnd(player: string)

  /** Everything that undo restores: the state without its own history (app.js:27-40). */
  datatype Snapshot = Snapshot(
    started: bool,
    mode: int,
    doubleOut: bool,
    playersCount: nat,
    players: seq<Player>,
    currentPlayer: nat,
    currentTurn: seq<Dart>,
    selectedNumber: Option<nat>,
    log: seq<LogEntry>)

  /** The consistency every reachable state keeps. */
  ghost predicate Coherent(s: Snapshot) {
    && |s.currentTurn| <= 3
    && AllLegal(s.currentTurn)
    && (s.selectedNumber.Some? ==> IsPadNumber(s.selectedNumber.value))
    && (s.players == [] || s.currentPlayer < |s.players|)
  }

  /**
   * Scores in play: nobody is below zero, and while a game runs nobody is on
   * zero (reaching zero ends the game).
   */
  ghost predicate Live(s: Snapshot) {
    && (forall i :: 0 <= i < |s.players| ==> s.players[i].score >= 0)
    && (s.started ==> forall i :: 0 <= i < |s.players| ==> s.players[i].score > 0)
  }

  /** The name newGame gives the player at index i. */
  function PlayerName(i: nat): (name: string) {
    "Joueur " + Show(i + 1)
  }

  /** The players newGame creates: count of them, each starting on the mode's score. */
  function Lineup(count: nat, start: int): (ps: seq<Player>)
    ensures |ps| == count
  {
    seq(count, i requires 0 <= i < count => Player(PlayerName(i), start))
  }

  /** Player i of a new game is named after its position and starts on the given score. */
  lemma LineupShape(count: nat, start: int, i: nat)
    requires i < count
    ensures Lineup(count, start)[i] == Player(PlayerName(i), start)
  {
  }

  /** Every player of a new game has a name of their own. */
  lemma LineupNamesDistinct(count: nat, start: int, i: nat, j: nat)
    requires i < j < count
    ensures Lineup(count, start)[i].name != Lineup(count, start)[j].name
    ensures Lineup(count, start)[i].score == start
  {
    var prefix := "Joueur ";
    if PlayerName(i) == PlayerName(j) {
      assert Show(i + 1) == PlayerName(i)[|prefix|..];
      assert Show(j + 1) == PlayerName(j)[|prefix|..];
      ShowInjective(i + 1, j + 1);
    }
  }

  class Match {
    var started: bool
    var mode: int
    var doubleOut: bool
    var playersCount: nat
    var players: seq<Player>
    var currentPlayer: nat
    var currentTurn: seq<Dart>
    var selectedNumber: Option<nat>
    var history: seq<Snapshot>
    var log: seq<LogEntry>

    /** snapshot(): a value copy of every field but the history. */
    function Snap(): Snapshot
      reads this
    {
      Snapshot(started, mode, doubleOut, playersCount, players, currentPlayer,
               currentTurn, selectedNumber, log)
    }

    ghost predicate Valid()
      reads this
    {
      && Coherent(Snap())
      && forall i :: 0 <= i < |history| ==> Coherent(history[i])
    }

    /** The state as the page loads (app.js:12-23). */
    constructor ()
      ensures Valid()
      ensures !started && mode == 501 && doubleOut && playersCount == 2
      ensures players == [] && currentPlayer == 0 && currentTurn == []
      ensures selectedNumber == None && history == [] && log == []
    {
      started := false;
      mode := 501;
      doubleOut := true;
      playersCount := 2;
      players := [];
      currentPlayer := 0;
      currentTurn := [];
      selectedNumber := None;
      history := [];
      log := [];
    }

    /** pushUndo: the current state goes on top of the history. */
    method PushUndo()
      requires Valid()
      modifies this
      ensures Valid()
      ensures history == old(history) + [old(Snap())]
      ensures Snap() == old(Snap())
    {
      history := history + [Snap()];
    }

    /** restore: every snapshotted field takes the snapshot's value; the history stays. */
    method Restore(s: Snapshot)
      requires Valid() && Coherent(s)
      modifies this
      ensures Valid()
      ensures Snap() == s && history == old(history)
    {
      started := s.started;
      mode := s.mode;
      doubleOut := s.doubleOut;
      playersCount := s.playersCount;
      players := s.players;
      currentPlayer := s.currentPlayer;
      currentTurn := s.currentTurn;
      selectedNumber := s.selectedNumber;
      log := s.log;
    }

    /** selectNumber without its highlighting: a pad number is remembered while a game runs. */
    method SelectNumber(n: nat)
      requires Valid() && IsPadNumber(n)
      modifies this
      ensures Valid() && history == old(history)
      ensures Snap() == old(Snap()).(selectedNumber := if old(started) then Some(n) else old(selectedNumber))
    {
      if !started {
        return;
      }
      selectedNumber := Some(n);
    }

    /**
     * addDart: records the selected number with the given multiplier when a
     * game runs, the turn has room, a number is selected and it is not a
     * triple 25; the selection is then cleared. Otherwise nothing changes.
     */
    method AddDart(mult: Mult)
      requires Valid()
      modifies this
      ensures Valid() && history == old(history)
      ensures var accepted := old(started) && |old(currentTurn)| < 3 && old(selectedNumber).Some?
                              && !(old(selectedNumber).value == 25 && mult == T);
        Snap() == if accepted
                  then old(Snap()).(currentTurn := old(currentTurn) + [Throw(old(selectedNumber).value, mult)],
                                    selectedNumber := None)
                  else old(Snap())
    {
      if !started {
        return;
      }
      if |currentTurn| >= 3 {
        return;
      }
      if selectedNumber.None? {
        return;
      }
      var base := selectedNumber.value;
      if base == 25 && mult == T {
        return;
      }
      currentTurn := currentTurn + [Throw(base, mult)];
      selectedNumber := None;
    }

    /** removeLastDart: drops the last dart of a running turn and clears the selection. */
    method RemoveLastDart()
      requires Valid()
      modifies this
      ensures Valid() && history == old(history)
      ensures Snap() == if old(started) && old(currentTurn) != []
                        then old(Snap()).(currentTurn := old(currentTurn)[..|old(currentTurn)| - 1],
                                          selectedNumber := None)
                        else old(Snap())
    {
      if !started {
        return;
      }
      if currentTurn == [] {
        return;
      }
      currentTurn := currentTurn[..|currentTurn| - 1];
      selectedNumber := None;
    }

    /** miss: records a zero-point dart when a game runs and the turn has room. */
    method RecordMiss()
      requires Valid()
      modifies this
      ensures Valid() && history == old(history)
      ensures Snap() == if old(started) && |old(currentTurn)| < 3
                        then old(Snap()).(currentTurn := old(currentTurn) + [Miss])
                        else old(Snap())
    {
      if !started {
        return;
      }
      if |currentTurn| >= 3 {
        return;
      }
      currentTurn := currentTurn + [Miss];
    }

    /**
     * validateTurn: with a game running and darts in the turn, saves the
     * state for undo, settles the current player's score by the verdict,
     * logs the visit, empties the turn and, unless the turn won, passes to
     * the next player. With no players the source fails on the missing
     * player right after saving the state, so only the history changes.
     */
    method ValidateTurn()
      requires Valid()
      modifies this
      ensures Valid()
      ensures !old(started) || old(currentTurn) == [] ==>
        Snap() == old(Snap()) && history == old(history)
      ensures old(started) && old(currentTurn) != [] ==> history == old(history) + [old(Snap())]
      ensures old(started) && old(currentTurn) != [] && old(players) == [] ==> Snap() == old(Snap())
      ensures old(started) && old(currentTurn) != [] && old(players) != [] ==>
        var p := old(players)[old(currentPlayer)];
        var v := Judge(p.score, old(currentTurn), old(doubleOut));
        var after := Settle(v, p.score);
        && players == old(players)[old(currentPlayer) := p.(score := after)]
        && log == [Visit(p.name, old(currentTurn), TurnTotal(old(currentTurn)), v, after)] + old(log)
        && currentTurn == [] && selectedNumber == None
        && started == !v.Win?
        && currentPlayer == (if v.Win? then old(currentPlayer) else (old(currentPlayer) + 1) % |players|)
        && mode == old(mode) && doubleOut == old(doubleOut) && playersCount == old(playersCount)
      ensures Live(old(Snap())) ==> Live(Snap())
    {
      if !started {
        return;
      }
      if currentTurn == [] {
        return;
      }
      PushUndo();
      if players == [] {
        return;
      }
      var p := players[currentPlayer];
      var total := TurnTotal(currentTurn);
      var v := Judge(p.score, currentTurn, doubleOut);
      var after := Settle(v, p.score);
      match v {
        case Bust(_) =>
        case Win =>
          players := players[currentPlayer := p.(score := 0)];
          started := false;
        case Scored(n) =>
          players := players[currentPlayer := p.(score := n)];
      }
      log := [Visit(p.name, currentTurn, total, v, after)] + log;
      currentTurn := [];
      selectedNumber := None;
      if started {
        currentPlayer := (currentPlayer + 1) % |players|;
      }
    }

    /**
     * newGame, with the three option inputs as parameters: saves the state
     * for undo, then starts a game of count players on the mode's score.
     */
    method NewGame(newMode: int, count: nat, newDoubleOut: bool)
      requires Valid()
      modifies this
      ensures Valid()
      ensures history == old(history) + [old(Snap())]
      ensures mode == newMode && playersCount == count && doubleOut == newDoubleOut
      ensures players == Lineup(count, newMode)
      ensures currentPlayer == 0 && currentTurn == [] && selectedNumber == None
      ensures started && log == []
      ensures newMode > 0 ==> Live(Snap())
    {
      PushUndo();
      mode := newMode;
      playersCount := count;
      doubleOut := newDoubleOut;
      players := Lineup(count, newMode);
      currentPlayer := 0;
      currentTurn := [];
      selectedNumber := None;
      started := true;
      log := [];
    }

    /** resetAll: a hard reset that also forgets the history; the options stay. */
    method ResetAll()
      requires Valid()
      modifies this
      ensures Valid()
      ensures Snap() == old(Snap()).(started := false, players := [], currentPlayer := 0,
                                     currentTurn := [], selectedNumber := None, log := [])
      ensures history == []
    {
      started := false;
      players := [];
      currentPlayer := 0;
      currentTurn := [];
      selectedNumber := None;
      history := [];
      log := [];
    }

    /** undo: the most recent snapshot is taken off the history and restored; no-op when empty. */
    method Undo()
      requires Valid()
      modifies this
      ensures Valid()
      ensures old(history) == [] ==> Snap() == old(Snap()) && history == []
      ensures old(history) != [] ==>
        Snap() == old(history)[|old(history)| - 1] && history == old(history)[..|old(history)| - 1]
    {
      if history == [] {
        return;
      }
      var s := history[|history| - 1];
      history := history[..|history| - 1];
      Restore(s);
    }

    /**
     * The forced end of a leg (app.js:532-541): when a game runs and the
     * current player exists, saves the state, sets that player's score to
     * zero, stops the game and logs it.
     */
    method ForceEnd()
      requires Valid()
      modifies this
      ensures Valid()
      ensures !old(started) || old(currentPlayer) >= |old(players)| ==>
        Snap() == old(Snap()) && history == old(history)
      ensures old(started) && old(currentPlayer) < |old(players)| ==>
        var p := old(players)[old(currentPlayer)];
        && history == old(history) + [old(Snap())]
        && Snap() == old(Snap()).(players := old(players)[old(currentPlayer) := p.(score := 0)],
                                  started := false,
                                  log := [ForcedEnd(p.name)] + old(log))
      ensures Live(old(Snap())) ==> Live(Snap())
    {
      if !started || currentPlayer >= |players| {
        return;
      }
      PushUndo();
      players := players[currentPlayer := players[currentPlayer].(score := 0)];
      started := false;
      log := [ForcedEnd(players[currentPlayer].name)] + log;
    }
  }
}
