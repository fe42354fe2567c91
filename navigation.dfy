/**
 * The two homing policies: back to the charging station at (0, 0), and back to
 * the cell where mowing was interrupted. Both are fixed direction tables over
 * grid coordinates, not path planners. The walks below replay a policy on an
 * unobstructed grid to state where each table leads.
 */
module Navigation {
  import opened Commands

  /** Rows from this one down head top-right when returning to charge; rows above it head top-left. */
  const LowerBandRow: int := 18

  /** Direction towards the remembered cut (`lastcutI`, `lastcutJ`) from (`i`, `j`). */
  function ReturnToLastCut(i: int, j: int, lastcutI: int, lastcutJ: int): (c: int)
    ensures IsMove(c)
  {
    var deltaI := lastcutI - i;
    var deltaJ := lastcutJ - j;
    var positiveI := deltaI > 0;
    var positiveJ := deltaJ > 0;
    var zeroI := deltaI == 0;
    var zeroJ := deltaJ == 0;
    if zeroI && !zeroJ then MoveBottomCentre
    else if !zeroI && zeroJ then MoveRight
    else if positiveI && positiveJ then MoveBottomRight
    else if positiveI && !positiveJ then MoveTopRight
    else if !positiveI && positiveJ then MoveBottomLeft
    else if !positiveI && !positiveJ then MoveTopLeft
    else assert false; MoveRight
  }

  /** The table of ReturnToLastCut, case by case, in terms of the offsets to the cut. */
  lemma ReturnToLastCutTable(i: int, j: int, lastcutI: int, lastcutJ: int)
    ensures var di, dj, c := lastcutI - i, lastcutJ - j, ReturnToLastCut(i, j, lastcutI, lastcutJ);
      && (di == 0 && dj != 0 ==> c == MoveBottomCentre)
      && (di != 0 && dj == 0 ==> c == MoveRight)
      && (di > 0 && dj > 0 ==> c == MoveBottomRight)
      && (di > 0 && dj < 0 ==> c == MoveTopRight)
      && (di < 0 && dj > 0 ==> c == MoveBottomLeft)
      && (di < 0 && dj < 0 ==> c == MoveTopLeft)
      && (di == 0 && dj == 0 ==> c == MoveTopLeft)
  {
  }

  /** Direction towards the charging station from (`i`, `j`); the column plays no part. */
  function ReturnToCharge(i: int, j: int): (c: int)
    ensures IsMove(c)
    ensures c == MoveLeft || c == MoveTopLeft || c == MoveTopRight
  {
    if j == 0 then MoveLeft
    else if j < LowerBandRow then MoveTopLeft
    else MoveTopRight
  }

  /** The table of ReturnToCharge by row band, and that the column never matters. */
  lemma ReturnToChargeTable(i: int, j: int, i': int)
    ensures ReturnToCharge(i, j) == ReturnToCharge(i', j)
    ensures j == 0 ==> ReturnToCharge(i, j) == MoveLeft
    ensures j != 0 && j < LowerBandRow ==> ReturnToCharge(i, j) == MoveTopLeft
    ensures j >= LowerBandRow ==> ReturnToCharge(i, j) == MoveTopRight
  {
  }

  function Max(a: int, b: int): int {
    if a < b then b else a
  }

  /** Where `n` ticks of ReturnToLastCut lead from `p` when every move is carried out. */
  function LastCutWalk(p: Cell, cut: Cell, n: nat): Cell
    decreases n
  {
    if n == 0 then p
    else LastCutWalk(Moved(p, ReturnToLastCut(p.i, p.j, cut.i, cut.j)), cut, n - 1)
  }

  /**
   * From a cell above and to the left of the cut, such as the charging station
   * for any cut on the grid, ReturnToLastCut reaches the cut in as many ticks as
   * the larger of the two offsets.
   */
  lemma {:induction false} LastCutWalkArrives(p: Cell, cut: Cell)
    requires p.i <= cut.i && p.j <= cut.j
    ensures LastCutWalk(p, cut, Max(cut.i - p.i, cut.j - p.j)) == cut
    decreases Max(cut.i - p.i, cut.j - p.j)
  {
    var n := Max(cut.i - p.i, cut.j - p.j);
    if n > 0 {
      var q := Moved(p, ReturnToLastCut(p.i, p.j, cut.i, cut.j));
      assert q.i <= cut.i && q.j <= cut.j;
      assert Max(cut.i - q.i, cut.j - q.j) == n - 1;
      LastCutWalkArrives(q, cut);
    }
  }

  /**
   * On the cut's row but right of it, ReturnToLastCut still moves right, so the
   * offset grows: the table only homes in on cuts below and to the right.
   */
  lemma SameRowRightOfCutMovesAway(p: Cell, cut: Cell)
    requires p.j == cut.j && p.i > cut.i
    ensures Moved(p, ReturnToLastCut(p.i, p.j, cut.i, cut.j)) == Cell(p.i + 1, p.j)
  {
  }

  /** Where `n` ticks of ReturnToCharge lead from `p` when every move is carried out. */
  function ChargeWalk(p: Cell, n: nat): Cell
    decreases n
  {
    if n == 0 then p
    else ChargeWalk(Moved(p, ReturnToCharge(p.i, p.j)), n - 1)
  }

  /** The column at which a walk from `p` arrives on row 0. */
  function TopRowColumn(p: Cell): int
    requires p.j >= 0
  {
    if p.j < LowerBandRow then p.i - p.j
    else p.i + (p.j - (LowerBandRow - 1)) - (LowerBandRow - 1)
  }

  /** One tick below row 0 goes up one row and keeps the column of arrival on row 0. */
  lemma ChargeStepKeepsTopRowColumn(p: Cell)
    requires p.j > 0
    ensures Moved(p, ReturnToCharge(p.i, p.j)).j == p.j - 1
    ensures TopRowColumn(Moved(p, ReturnToCharge(p.i, p.j))) == TopRowColumn(p)
  {
  }

  /** ChargeWalk(p, m + n) is n ticks from where m ticks lead. */
  lemma {:induction false} ChargeWalkSplit(p: Cell, m: nat, n: nat)
    ensures ChargeWalk(p, m + n) == ChargeWalk(ChargeWalk(p, m), n)
    decreases m
  {
    if m > 0 {
      ChargeWalkSplit(Moved(p, ReturnToCharge(p.i, p.j)), m - 1, n);
    }
  }

  /** From any row `j` >= 0, ReturnToCharge reaches row 0 in exactly `j` ticks, at column TopRowColumn. */
  lemma {:induction false} ChargeWalkReachesTopRow(p: Cell)
    requires p.j >= 0
    ensures ChargeWalk(p, p.j) == Cell(TopRowColumn(p), 0)
    decreases p.j
  {
    if p.j > 0 {
      ChargeStepKeepsTopRowColumn(p);
      ChargeWalkReachesTopRow(Moved(p, ReturnToCharge(p.i, p.j)));
    }
  }

  /** Along row 0, ReturnToCharge reaches the station from column `k` >= 0 in `k` ticks. */
  lemma {:induction false} ChargeWalkAlongTopRow(k: int)
    requires k >= 0
    ensures ChargeWalk(Cell(k, 0), k) == Cell(0, 0)
  {
    if k > 0 {
      ChargeWalkAlongTopRow(k - 1);
    }
  }

  /** ReturnToCharge reaches the station when the walk meets row 0 at a column `k` >= 0, in `j + k` ticks. */
  lemma ChargeWalkReachesStation(p: Cell, k: nat)
    requires p.j >= 0 && TopRowColumn(p) == k
    ensures ChargeWalk(p, p.j + k) == Cell(0, 0)
  {
    ChargeWalkSplit(p, p.j, k);
    ChargeWalkReachesTopRow(p);
    ChargeWalkAlongTopRow(k);
  }

  /**
   * Otherwise it never does: a walk that meets row 0 left of column 0 keeps
   * moving left. These are the cells with i < j in rows 0 to 17 and with
   * i + j < 34 from row 18 on, for instance column 0 in rows 1 to 17.
   */
  lemma {:induction false} ChargeWalkMissesStation(p: Cell, n: nat)
    requires p.j >= 0 && TopRowColumn(p) < 0
    ensures ChargeWalk(p, n) != Cell(0, 0)
    decreases n
  {
    if n > 0 {
      var q := Moved(p, ReturnToCharge(p.i, p.j));
      if p.j > 0 {
        ChargeStepKeepsTopRowColumn(p);
      }
      ChargeWalkMissesStation(q, n - 1);
    }
  }
}
