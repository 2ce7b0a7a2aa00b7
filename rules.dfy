/**
 * The x01 decision taken when a turn is validated (app.js:199-226): from the
 * player's score before the turn, the darts and the double-out switch, the
 * turn is a bust, a win, or an ordinary visit that leaves a new score.
 */
module Rules {
  import opened Darts

  datatype BustReason = BelowZero | OneLeft | NotOnDouble

  datatype Verdict = Bust(reason: BustReason) | Win | Scored(newScore: int)

  function Last(turn: seq<Dart>): (d: Dart)
    requires turn != []
  {
    turn[|turn| - 1]
  }

  /**
   * The verdict on a non-empty turn. A turn wins exactly when it brings the
   * score to zero, finishing on a double if double-out is on; it busts
   * exactly when it goes below zero or, under double-out, leaves one or
   * reaches zero off a double; otherwise the new score is positive, and at
   * least two under double-out.
   */
  function Judge(score: int, turn: seq<Dart>, doubleOut: bool): (v: Verdict)
    requires turn != []
    ensures v.Win? <==> score == TurnTotal(turn) && (doubleOut ==> IsDouble(Last(turn)))
    ensures v.Bust? <==> || TurnTotal(turn) > score
                         || (doubleOut && score - TurnTotal(turn) == 1)
                         || (doubleOut && score == TurnTotal(turn) && !IsDouble(Last(turn)))
    ensures v.Scored? ==> v.newScore == score - TurnTotal(turn) && v.newScore >= (if doubleOut then 2 else 1)
    ensures v == Bust(BelowZero) <==> TurnTotal(turn) > score
  {
    var newScore := score - TurnTotal(turn);
    if newScore < 0 then Bust(BelowZero)
    else if doubleOut then
      if newScore == 1 then Bust(OneLeft)
      else if newScore == 0 then (if !IsDouble(Last(turn)) then Bust(NotOnDouble) else Win)
      else Scored(newScore)
    else if newScore == 0 then Win
    else Scored(newScore)
  }

  /** The score the player is left with after a verdict (app.js:230-243). */
  function Settle(v: Verdict, score: int): (after: int) {
    match v
    case Bust(_) => score
    case Win => 0
    case Scored(n) => n
  }

  /**
   * What validation does to a score: a bust keeps it, anything else takes the
   * turn's points off it; it never rises, never drops below zero from a
   * non-negative start, and double-out never leaves a player on one.
   */
  lemma SettleJudge(score: int, turn: seq<Dart>, doubleOut: bool)
    requires turn != []
    ensures var v := Judge(score, turn, doubleOut);
      && Settle(v, score) == (if v.Bust? then score else score - TurnTotal(turn))
      && Settle(v, score) <= score
      && (score >= 0 ==> Settle(v, score) >= 0)
      && (doubleOut && score != 1 ==> Settle(v, score) != 1)
  {
  }
}
