/**
 * The scoring policy of the game: a static table of thresholds, ordered by
 * ascending `below` (an inclusive upper bound in milliseconds), and the rule
 * that the points of the first qualifying threshold are the score.
 */
module Scoring {
  import opened Wrappers

  datatype Threshold = Threshold(below: int, points: int)

  /** The table of src/state-machines/gameMachine.js, in table order. */
  const Thresholds: seq<Threshold> := [
    Threshold(300, 10),
    Threshold(600, 7),
    Threshold(1000, 5),
    Threshold(1500, 3),
    Threshold(2000, 2),
    Threshold(3000, 1)
  ]

  /** The scores the table can yield, with the 0 of "no threshold qualifies". */
  const PossibleScores: set<int> := {0, 1, 2, 3, 5, 7, 10}

  /** The index of the first threshold, in table order, whose `below` is at least `msOff`. */
  function FirstQualifying(table: seq<Threshold>, msOff: int): (r: Option<nat>)
    ensures r.Some? ==> r.value < |table| && msOff <= table[r.value].below
    ensures r.Some? ==> forall j :: 0 <= j < r.value ==> table[j].below < msOff
    ensures r.None? <==> forall j :: 0 <= j < |table| ==> table[j].below < msOff
    decreases |table|
  {
    if table == [] then None
    else if msOff <= table[0].below then Some(0)
    else match FirstQualifying(table[1..], msOff)
      case None => None
      case Some(i) => Some(i + 1)
  }

  /**
   * The points of the first threshold that takes `msOff`, and 0 when none
   * does. The source's `|| 0` fallback only matters when nothing is found:
   * a found threshold worth 0 points gives 0 either way.
   */
  function PointsFor(table: seq<Threshold>, msOff: int): (r: int)
    ensures r == 0 || exists i :: 0 <= i < |table| && msOff <= table[i].below && r == table[i].points
    ensures (forall j :: 0 <= j < |table| ==> table[j].below < msOff) ==> r == 0
    ensures forall i :: 0 <= i < |table| ==>
      (msOff <= table[i].below && (forall j :: 0 <= j < i ==> table[j].below < msOff)) ==> r == table[i].points
  {
    match FirstQualifying(table, msOff)
    case Some(i) => table[i].points
    case None => 0
  }

  /** The score the game awards for a deviation of `msOff` milliseconds. */
  function ScoreFor(msOff: nat): (r: nat)
    ensures r in PossibleScores
  {
    var p := PointsFor(Thresholds, msOff);
    assert FirstQualifying(Thresholds, msOff).Some? ==> FirstQualifying(Thresholds, msOff).value in {0, 1, 2, 3, 4, 5};
    p
  }

  /** `below` never decreases along the table. */
  predicate AscendingBelow(table: seq<Threshold>)
  {
    forall i, j :: 0 <= i < j < |table| ==> table[i].below <= table[j].below
  }

  /** `points` never increase along the table and are never negative. */
  predicate DescendingPoints(table: seq<Threshold>)
  {
    (forall i, j :: 0 <= i < j < |table| ==> table[j].points <= table[i].points)
    && (forall i :: 0 <= i < |table| ==> 0 <= table[i].points)
  }

  /** The game's table has the shape the monotonicity argument needs. */
  lemma ThresholdsWellShaped()
    ensures AscendingBelow(Thresholds) && DescendingPoints(Thresholds)
  {
  }

  /**
   * On a table whose points are non-negative and never increase along the
   * table, a larger deviation never earns more points. No order on `below`
   * is needed: the first threshold that takes the larger deviation also
   * takes the smaller one, so the smaller one stops there or earlier.
   */
  lemma PointsMonotone(table: seq<Threshold>, lo: int, hi: int)
    requires DescendingPoints(table)
    requires lo <= hi
    ensures PointsFor(table, hi) <= PointsFor(table, lo)
  {
  }

  /** The game's score is non-increasing in the deviation. */
  lemma ScoreMonotone(lo: nat, hi: nat)
    requires lo <= hi
    ensures ScoreFor(hi) <= ScoreFor(lo)
  {
    ThresholdsWellShaped();
    PointsMonotone(Thresholds, lo, hi);
  }

  /** The score as an explicit band table, with inclusive upper bounds. */
  lemma ScoreBands(msOff: nat)
    ensures ScoreFor(msOff) ==
      if msOff <= 300 then 10
      else if msOff <= 600 then 7
      else if msOff <= 1000 then 5
      else if msOff <= 1500 then 3
      else if msOff <= 2000 then 2
      else if msOff <= 3000 then 1
      else 0
  {
  }

  /** The bounds are inclusive: 300 still earns 10, 3000 still earns 1, 3001 earns nothing. */
  lemma ScoreBoundaries()
    ensures ScoreFor(0) == 10 && ScoreFor(300) == 10 && ScoreFor(301) == 7
    ensures ScoreFor(3000) == 1 && ScoreFor(3001) == 0
  {
    ScoreBands(0);
    ScoreBands(300);
    ScoreBands(301);
    ScoreBands(3000);
    ScoreBands(3001);
  }

  /** Past the last threshold nothing qualifies and the score is 0. */
  lemma ScoreZeroBeyondTable(msOff: nat)
    ensures ScoreFor(msOff) == 0 <==> 3000 < msOff
  {
  }
}
