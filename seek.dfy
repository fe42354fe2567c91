/**
 * The grass-seeking policy: climb towards the tallest neighbouring grass.
 * Directions are examined in the fixed order top-left, top-centre, top-right,
 * right, bottom-right, bottom-centre, bottom-left, left, which is also the
 * order of their command numbers 1..8.
 */
module Seek {
  import opened Commands

  /** The eight neighbouring grass readings of one sensor message. */
  datatype Neighbours = Neighbours(
    topLeft: real, topCentre: real, topRight: real, right: real,
    bottomRight: real, bottomCentre: real, bottomLeft: real, left: real)

  /** The reading in the direction of move `d`. */
  function Reading(g: Neighbours, d: int): real
    requires IsMove(d)
  {
    if d == MoveTopLeft then g.topLeft
    else if d == MoveTopCentre then g.topCentre
    else if d == MoveTopRight then g.topRight
    else if d == MoveRight then g.right
    else if d == MoveBottomRight then g.bottomRight
    else if d == MoveBottomCentre then g.bottomCentre
    else if d == MoveBottomLeft then g.bottomLeft
    else g.left
  }

  /** A reading within 0.01 of the sentinel -1 means "not sensed". */
  predicate Unsensed(x: real) {
    x - -1.0 < 0.01
  }

  predicate AllUnsensed(g: Neighbours) {
    forall d :: MoveTopLeft <= d <= MoveLeft ==> Unsensed(Reading(g, d))
  }

  /** The direction to climb: stay when no reading is above 0, else the tallest, earliest on ties. */
  ghost predicate IsBestDirection(g: Neighbours, r: int) {
    && IsCommand(r)
    && (r == MoveStay <==> forall d :: MoveTopLeft <= d <= MoveLeft ==> Reading(g, d) <= 0.0)
    && (r != MoveStay ==>
          && Reading(g, r) > 0.0
          && (forall d :: MoveTopLeft <= d <= MoveLeft ==> Reading(g, d) <= Reading(g, r))
          && (forall d :: MoveTopLeft <= d < r ==> Reading(g, d) < Reading(g, r)))
  }

  /** The running maximum: the tallest height seen and its direction. */
  datatype Best = Best(height: real, dir: int)

  /** The running maximum after examining the first `n` directions, starting from height 0 and stay. */
  function Scan(g: Neighbours, n: nat): (b: Best)
    requires n <= MoveLeft
    ensures 0 <= b.dir <= n
    ensures b.dir == MoveStay ==> b.height == 0.0
    ensures b.dir != MoveStay ==> b.height == Reading(g, b.dir) > 0.0
  {
    if n == 0 then Best(0.0, MoveStay)
    else
      var b := Scan(g, n - 1);
      if Reading(g, n) > b.height then Best(Reading(g, n), n) else b
  }

  /** The command the policy returns: a valid command, and a move only towards grass above 0. */
  function BestDirection(g: Neighbours): (r: int)
    ensures IsCommand(r)
    ensures r != MoveStay ==> Reading(g, r) > 0.0
  {
    if AllUnsensed(g) then MoveStay else Scan(g, MoveLeft).dir
  }

  /** After `n` directions, the running maximum is at least each of them and strictly above every earlier one. */
  lemma {:induction false} ScanIsRunningMaximum(g: Neighbours, n: nat)
    requires n <= MoveLeft
    ensures forall d :: MoveTopLeft <= d <= n ==> Reading(g, d) <= Scan(g, n).height
    ensures forall d :: MoveTopLeft <= d < Scan(g, n).dir ==> Reading(g, d) < Scan(g, n).height
  {
    if n > 0 {
      ScanIsRunningMaximum(g, n - 1);
    }
  }

  /** Every reading of an unsensed neighbourhood is below 0, so the scan alone already yields stay. */
  lemma UnsensedScanStays(g: Neighbours)
    requires AllUnsensed(g)
    ensures Scan(g, MoveLeft).dir == MoveStay
  {
    ScanIsRunningMaximum(g, MoveLeft);
  }

  /** The policy meets its specification. */
  lemma BestDirectionCorrect(g: Neighbours)
    ensures IsBestDirection(g, BestDirection(g))
  {
    ScanIsRunningMaximum(g, MoveLeft);
    if AllUnsensed(g) {
      UnsensedScanStays(g);
    }
  }

  /** The specification determines the command: at most one direction satisfies it. */
  lemma BestDirectionUnique(g: Neighbours, r1: int, r2: int)
    requires IsBestDirection(g, r1) && IsBestDirection(g, r2)
    ensures r1 == r2
  {
  }

  /** When every neighbour is unsensed the mower stays to take a reading first. */
  lemma UnsensedStays(g: Neighbours)
    requires AllUnsensed(g)
    ensures BestDirection(g) == MoveStay
  {
  }

  /** A single reading above 0 and above all others wins, whatever the others are (sentinels included). */
  lemma StrictMaximumWins(g: Neighbours, d: int)
    requires IsMove(d) && Reading(g, d) > 0.0
    requires forall e :: MoveTopLeft <= e <= MoveLeft && e != d ==> Reading(g, e) < Reading(g, d)
    ensures BestDirection(g) == d
  {
    BestDirectionCorrect(g);
  }

  /** Of two equally tall readings, the later one in the fixed order is never chosen. */
  lemma TieGoesToEarlier(g: Neighbours, d1: int, d2: int)
    requires MoveTopLeft <= d1 < d2 <= MoveLeft
    requires Reading(g, d1) == Reading(g, d2)
    ensures BestDirection(g) != d2
  {
    BestDirectionCorrect(g);
  }

  /** The policy as the controller runs it: eight sensor checks, then a running maximum over eight ifs. */
  method SeekForGrass(g: Neighbours) returns (r: int)
    ensures r == BestDirection(g)
    ensures IsBestDirection(g, r)
  {
    BestDirectionCorrect(g);
    var topLeftInvalid := Unsensed(g.topLeft);
    var topCentreInvalid := Unsensed(g.topCentre);
    var topRightInvalid := Unsensed(g.topRight);
    var rightInvalid := Unsensed(g.right);
    var bottomRightInvalid := Unsensed(g.bottomRight);
    var bottomCentreInvalid := Unsensed(g.bottomCentre);
    var bottomLeftInvalid := Unsensed(g.bottomLeft);
    var leftInvalid := Unsensed(g.left);

    if topLeftInvalid && topCentreInvalid && topRightInvalid && rightInvalid
      && bottomRightInvalid && bottomCentreInvalid && bottomLeftInvalid && leftInvalid
    {
      return MoveStay;
    }

    var maxHeight := 0.0;
    var maxDir := MoveStay;
    if g.topLeft > maxHeight {
      maxHeight, maxDir := g.topLeft, MoveTopLeft;
    }
    assert Best(maxHeight, maxDir) == Scan(g, 1);
    if g.topCentre > maxHeight {
      maxHeight, maxDir := g.topCentre, MoveTopCentre;
    }
    assert Best(maxHeight, maxDir) == Scan(g, 2);
    if g.topRight > maxHeight {
      maxHeight, maxDir := g.topRight, MoveTopRight;
    }
    assert Best(maxHeight, maxDir) == Scan(g, 3);
    if g.right > maxHeight {
      maxHeight, maxDir := g.right, MoveRight;
    }
    assert Best(maxHeight, maxDir) == Scan(g, 4);
    if g.bottomRight > maxHeight {
      maxHeight, maxDir := g.bottomRight, MoveBottomRight;
    }
    assert Best(maxHeight, maxDir) == Scan(g, 5);
    if g.bottomCentre > maxHeight {
      maxHeight, maxDir := g.bottomCentre, MoveBottomCentre;
    }
    assert Best(maxHeight, maxDir) == Scan(g, 6);
    if g.bottomLeft > maxHeight {
      maxHeight, maxDir := g.bottomLeft, MoveBottomLeft;
    }
    assert Best(maxHeight, maxDir) == Scan(g, 7);
    if g.left > maxHeight {
      maxHeight, maxDir := g.left, MoveLeft;
    }
    assert Best(maxHeight, maxDir) == Scan(g, 8);
    r := maxDir;
  }
}
