/**
 * Properties that relate several operations of the scorer: undo takes back
 * each saved operation, removing a dart takes back entering it, and the
 * worked examples of the x01 rules.
 */
module Properties {
  import opened Wrappers
  import opened Darts
  import opened Rules
  import opened Game

  /** Undo right after a new game gives back the whole earlier state and history. */
  method NewGameThenUndo(m: Match, mode: int, count: nat, doubleOut: bool)
    requires m.Valid()
    modifies m
    ensures m.Valid() && m.Snap() == old(m.Snap()) && m.history == old(m.history)
  {
    m.NewGame(mode, count, doubleOut);
    m.Undo();
  }

  /** Undo right after validating a turn gives back the state before it, darts included. */
  method ValidateThenUndo(m: Match)
    requires m.Valid() && m.started && m.currentTurn != []
    modifies m
    ensures m.Valid() && m.Snap() == old(m.Snap()) && m.history == old(m.history)
  {
    m.ValidateTurn();
    m.Undo();
  }

  /** Undo right after a forced end gives back the running game. */
  method ForceEndThenUndo(m: Match)
    requires m.Valid() && m.started && m.currentPlayer < |m.players|
    modifies m
    ensures m.Valid() && m.Snap() == old(m.Snap()) && m.history == old(m.history)
  {
    m.ForceEnd();
    m.Undo();
  }

  /**
   * Removing the last dart takes back an accepted dart: the turn is what it
   * was; only the selection, which the dart used up, stays cleared.
   */
  method AddThenRemove(m: Match, mult: Mult)
    requires m.Valid() && m.started && |m.currentTurn| < 3 && m.selectedNumber.Some?
    requires !(m.selectedNumber.value == 25 && mult == T)
    modifies m
    ensures m.Valid()
    ensures m.Snap() == old(m.Snap()).(selectedNumber := None) && m.history == old(m.history)
  {
    var before := m.currentTurn;
    var d := Throw(m.selectedNumber.value, mult);
    m.AddDart(mult);
    TotalAppend(before, d);
    assert TurnTotal(m.currentTurn) == TurnTotal(before) + d.points;
    m.RemoveLastDart();
  }

  /** Removing the last dart takes back a miss: the turn is what it was. */
  method MissThenRemove(m: Match)
    requires m.Valid() && m.started && |m.currentTurn| < 3
    modifies m
    ensures m.Valid()
    ensures m.Snap() == old(m.Snap()).(selectedNumber := None) && m.history == old(m.history)
  {
    var before := m.currentTurn;
    m.RecordMiss();
    TotalAppend(before, Miss);
    assert TurnTotal(m.currentTurn) == TurnTotal(before);
    m.RemoveLastDart();
  }

  /** 40 left, double 20 under double-out: a win. */
  lemma WinOnDoubleTwenty()
    ensures Judge(40, [Throw(20, D)], true) == Win
  {
  }

  /** 32 left, double 16 without double-out: a win. */
  lemma WinWithoutDoubleOut()
    ensures Judge(32, [Throw(16, D)], false) == Win
  {
  }

  /** 50 left, 20, 20 and 10 as singles under double-out: a bust, score kept. */
  lemma SingleFinishBusts()
    ensures Judge(50, [Throw(20, S), Throw(20, S), Throw(10, S)], true) == Bust(NotOnDouble)
    ensures Settle(Bust(NotOnDouble), 50) == 50
  {
    TotalOfThree(Throw(20, S), Throw(20, S), Throw(10, S));
  }

  /** Outer bull entered as a double finishes under double-out. */
  lemma BullFinishes()
    ensures Judge(50, [Throw(25, D)], true) == Win
  {
  }

  /**
   * A first visit of a 501 double-out game for one player: triple 20, triple
   * 20, double 20 leaves 341; a fourth dart is refused; undo brings the
   * three darts back.
   */
  method OpeningVisit()
  {
    var m := new Match();
    m.NewGame(501, 1, true);
    assert |m.players| == 1 && m.players[0].score == 501;
    m.SelectNumber(20);
    m.AddDart(T);
    m.SelectNumber(20);
    m.AddDart(T);
    m.SelectNumber(20);
    m.AddDart(D);
    var turn := [Throw(20, T), Throw(20, T), Throw(20, D)];
    assert m.currentTurn == turn;
    m.SelectNumber(5);
    m.AddDart(S);
    assert m.currentTurn == turn && m.selectedNumber == Some(5);
    TotalOfThree(Throw(20, T), Throw(20, T), Throw(20, D));
    assert Judge(501, turn, true) == Scored(341);
    m.ValidateTurn();
    assert m.players[0].score == 341;
    assert m.started && m.currentPlayer == 0 && m.currentTurn == [];
    m.Undo();
    assert m.currentTurn == turn && m.players[0].score == 501;
  }
}
