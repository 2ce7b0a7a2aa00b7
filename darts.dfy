/**
 * Darts as the scorer records them (app.js:116-191): a base number, a
 * multiplier letter and the points they make, plus the pure helpers over a
 * turn (getTurnTotal, isDoubleDart, dartLabel).
 */
module Darts {
  import opened Decimal

  /** The multiplier buttons S, D and T. */
  datatype Mult = S | D | T

  function Factor(m: Mult): (k: nat) {
    match m
    case S => 1
    case D => 2
    case T => 3
  }

  function Letter(m: Mult): (c: char) {
    match m
    case S => 'S'
    case D => 'D'
    case T => 'T'
  }

  /** One recorded dart `{base, mult, points}`. */
  datatype Dart = Dart(base: nat, mult: Mult, points: nat)

  /** The numbers the pad offers: 1 to 20 and 25 (the "Bull" button is 25 too). */
  predicate IsPadNumber(n: nat) {
    1 <= n <= 20 || n == 25
  }

  /** The dart the "Miss" button records. */
  const Miss := Dart(0, S, 0)

  /** The dart addDart records for a selected base and a multiplier. */
  function Throw(base: nat, mult: Mult): (d: Dart) {
    Dart(base, mult, base * Factor(mult))
  }

  /** A dart that the entry operations can record: a miss, or a pad number that is not triple 25. */
  predicate Legal(d: Dart) {
    d == Miss || (IsPadNumber(d.base) && !(d.base == 25 && d.mult == T) && d == Throw(d.base, d.mult))
  }

  predicate AllLegal(turn: seq<Dart>) {
    forall i :: 0 <= i < |turn| ==> Legal(turn[i])
  }

  /**
   * isDoubleDart: the letter D, so the outer bull counts as a double when
   * entered with D. For a recorded dart that hit the board, that is exactly a
   * dart worth twice its base.
   */
  predicate IsDouble(d: Dart): (b: bool)
    ensures Legal(d) && d.base > 0 ==> (b <==> d.points == 2 * d.base)
  {
    d.mult == D
  }

  /**
   * getTurnTotal: the points of the turn, folded from the left as `reduce`
   * does. No dart is worth more than the whole turn, and the turn is worth
   * nothing exactly when every dart is.
   */
  function TurnTotal(turn: seq<Dart>): (total: nat)
    ensures forall i :: 0 <= i < |turn| ==> turn[i].points <= total
    ensures total == 0 <==> forall i :: 0 <= i < |turn| ==> turn[i].points == 0
    decreases |turn|
  {
    if turn == [] then 0 else TurnTotal(turn[..|turn| - 1]) + turn[|turn| - 1].points
  }

  /** The face value of a turn, base times multiplier dart by dart, from the right. */
  function FaceSum(turn: seq<Dart>): (sum: int)
    decreases |turn|
  {
    if turn == [] then 0 else turn[0].base * Factor(turn[0].mult) + FaceSum(turn[1..])
  }

  lemma {:induction false} FaceSumAppend(turn: seq<Dart>, d: Dart)
    ensures FaceSum(turn + [d]) == FaceSum(turn) + d.base * Factor(d.mult)
    decreases |turn|
  {
    if turn != [] {
      assert (turn + [d])[1..] == turn[1..] + [d];
      FaceSumAppend(turn[1..], d);
    }
  }

  /** The running total of a turn of recorded darts is the sum of base times multiplier. */
  lemma {:induction false} TotalIsFaceSum(turn: seq<Dart>)
    requires AllLegal(turn)
    ensures TurnTotal(turn) == FaceSum(turn)
    decreases |turn|
  {
    if turn != [] {
      var front, last := turn[..|turn| - 1], turn[|turn| - 1];
      assert turn == front + [last];
      assert Legal(last);
      TotalIsFaceSum(front);
      FaceSumAppend(front, last);
    }
  }

  /** A miss adds nothing to the total. */
  lemma MissAddsNothing(turn: seq<Dart>)
    ensures TurnTotal(turn + [Miss]) == TurnTotal(turn)
  {
  }

  /** Adding a dart to a turn adds exactly its points to the total. */
  lemma TotalAppend(turn: seq<Dart>, d: Dart)
    ensures TurnTotal(turn + [d]) == TurnTotal(turn) + d.points
  {
  }

  /** The total of a full turn, dart by dart. */
  lemma TotalOfThree(a: Dart, b: Dart, c: Dart)
    ensures TurnTotal([a, b, c]) == a.points + b.points + c.points
  {
    TotalAppend([a], b);
    assert [a] + [b] == [a, b];
    TotalAppend([a, b], c);
    assert [a, b] + [c] == [a, b, c];
  }

  lemma LegalPointsBound(d: Dart)
    requires Legal(d)
    ensures d.points <= 60
  {
  }

  /** No turn of legal darts scores more than 60 per dart (180 for three). */
  lemma {:induction false} TotalBound(turn: seq<Dart>)
    requires AllLegal(turn)
    ensures TurnTotal(turn) <= 60 * |turn|
    decreases |turn|
  {
    if turn != [] {
      TotalBound(turn[..|turn| - 1]);
      LegalPointsBound(turn[|turn| - 1]);
    }
  }

  /**
   * dartLabel: how a dart is written in the turn log. The first character
   * tells which of the four forms the label has.
   */
  function Label(d: Dart): (s: string)
    ensures |s| > 0
    ensures s[0] == if d.base == 0 then 'M'
                    else if d.base == 25 && d.mult == D then 'B'
                    else if d.base == 25 && d.mult == S then '2'
                    else Letter(d.mult)
  {
    if d.base == 0 then "Miss"
    else if d.base == 25 && d.mult == D then "Bull (50)"
    else if d.base == 25 && d.mult == S then "25"
    else [Letter(d.mult)] + Show(d.base) + " (" + Show(d.points) + ")"
  }

  /** The label of each kind of dart, written out. */
  lemma LabelExamples()
    ensures Label(Throw(20, T)) == "T20 (60)"
    ensures Label(Throw(7, S)) == "S7 (7)"
    ensures Label(Throw(25, D)) == "Bull (50)"
    ensures Label(Throw(25, S)) == "25"
    ensures Label(Miss) == "Miss"
  {
  }

  /** Two darts written in the general form with one label agree on multiplier and base. */
  lemma PlainLabelInjective(d1: Dart, d2: Dart)
    requires d1.base != 0 && d1.base != 25 && d2.base != 0 && d2.base != 25
    requires Label(d1) == Label(d2)
    ensures d1.mult == d2.mult && d1.base == d2.base
  {
    var tail1 := " (" + Show(d1.points) + ")";
    var tail2 := " (" + Show(d2.points) + ")";
    assert Label(d1) == [Letter(d1.mult)] + (Show(d1.base) + tail1);
    assert Label(d2) == [Letter(d2.mult)] + (Show(d2.base) + tail2);
    assert Show(d1.base) + tail1 == Label(d1)[1..] == Show(d2.base) + tail2;
    NumeralPrefix(Show(d1.base), Show(d2.base), tail1, tail2);
    ShowInjective(d1.base, d2.base);
  }

  /** The log text identifies a recorded dart: two legal darts with one label are the same dart. */
  lemma LabelInjective(d1: Dart, d2: Dart)
    requires Legal(d1) && Legal(d2)
    ensures Label(d1) == Label(d2) ==> d1 == d2
  {
    if Label(d1) == Label(d2) {
      assert Label(d1)[0] == Label(d2)[0];
      if d1.base != 0 && d1.base != 25 && d2.base != 0 && d2.base != 25 {
        PlainLabelInjective(d1, d2);
      }
    }
  }
}
