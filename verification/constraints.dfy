/**
 * check_constraints (Basegame_3-4_WithPorts.py:111-132, Basegame_5-6.py:76-97):
 * the rule that keeps the two red tokens, 6 and 8, apart, and how its
 * index-based neighbours relate to the hexagonal layout of calculate_hex_centers.
 */
module Constraints {
  import opened Board

  predicate IsSixOrEight(v: int)
  {
    v == 6 || v == 8
  }

  /** `board[y][x] == 6 or board[y][x] == 8`: only a bare token compares equal to an int. */
  predicate HoldsSixOrEight(c: Cell)
  {
    c == Numbered(6) || c == Numbered(8)
  }

  /** check_constraints(board, x, y, value), branch for branch. */
  function CheckConstraints(board: Grid, x: int, y: int, value: int): (ok: bool)
    requires InBounds(board, y, x)
    ensures !IsSixOrEight(value) ==> ok
  {
    var row := board[y];
    var sameRow :=
      (Numbered(6) in row || Numbered(8) in row)
      && IsSixOrEight(value)
      && x > 0 && HoldsSixOrEight(row[x - 1]);
    var prevRow :=
      y > 0 &&
      (var prev := board[y - 1];
       (x > 0 && x - 1 < |prev| && HoldsSixOrEight(prev[x - 1]) && IsSixOrEight(value))
       || (x < |prev| && HoldsSixOrEight(prev[x]) && IsSixOrEight(value))
       || (x < |prev| - 1 && x + 1 < |prev| && HoldsSixOrEight(prev[x + 1]) && IsSixOrEight(value)));
    !sameRow && !prevRow
  }

  /**
   * (y', x') is one of the cells inspected for (y, x): the left neighbour, or
   * column x-1, x or x+1 of the previous row.
   */
  predicate Inspected(y: int, x: int, y': int, x': int)
  {
    (y' == y && x' == x - 1) || (y' == y - 1 && x - 1 <= x' <= x + 1)
  }

  /** The neighbour rule: a 6 or 8 is admissible only where no inspected cell holds a 6 or 8. */
  ghost predicate Admissible(board: Grid, y: int, x: int, value: int)
  {
    IsSixOrEight(value) ==>
      forall y', x' :: InBounds(board, y', x') && Inspected(y, x, y', x') ==> !HoldsSixOrEight(board[y'][x'])
  }

  /**
   * check_constraints is exactly the neighbour rule: it rejects only 6 and 8,
   * and rejects them exactly when an in-bounds inspected cell holds 6 or 8.
   * The `6 in board[y]` guard of its first branch never changes the answer.
   */
  lemma CheckConstraintsIsRule(board: Grid, y: int, x: int, value: int)
    requires InBounds(board, y, x)
    ensures CheckConstraints(board, x, y, value) == Admissible(board, y, x, value)
  {
    if IsSixOrEight(value) && Admissible(board, y, x, value) {
      if x > 0 {
        assert Inspected(y, x, y, x - 1);
      }
      if y > 0 {
        if x > 0 && x - 1 < |board[y - 1]| {
          assert Inspected(y, x, y - 1, x - 1);
        }
        if x < |board[y - 1]| {
          assert Inspected(y, x, y - 1, x);
        }
        if x + 1 < |board[y - 1]| {
          assert Inspected(y, x, y - 1, x + 1);
        }
      }
    } else if IsSixOrEight(value) {
      var y', x' :| InBounds(board, y', x') && Inspected(y, x, y', x') && HoldsSixOrEight(board[y'][x']);
      if y' == y {
        assert board[y][x'] in board[y];
      }
    }
  }

  /** Only earlier cells (row-major) are inspected, so later cells never affect the rule. */
  lemma AdmissibleFrame(b: Grid, b': Grid, y: int, x: int, value: int)
    requires SameShape(b, b') && InBounds(b, y, x)
    requires forall y', x' :: InBounds(b, y', x') && (y' < y || (y' == y && x' < x)) ==> b'[y'][x'] == b[y'][x']
    ensures Admissible(b', y, x, value) == Admissible(b, y, x, value)
  {
    if IsSixOrEight(value) {
      forall y', x' | Inspected(y, x, y', x') && InBounds(b, y', x')
        ensures b'[y'][x'] == b[y'][x']
      {
      }
    }
  }

  // ---------------------------------------------------------------------------
  // The hexagonal layout

  /**
   * Horizontal position of the centre of (y, x), in half column widths from the
   * board's axis: calculate_hex_centers starts row y at (len-1)/2 widths left of
   * the axis and steps one width per column.
   */
  function Offset(b: Grid, y: int, x: int): int
    requires 0 <= y < |b|
  {
    2 * x - (|b[y]| - 1)
  }

  /** Two tiles touch: same row and next column, or next row and half a column apart. */
  predicate HexAdjacent(b: Grid, y: int, x: int, y': int, x': int)
    requires 0 <= y < |b| && 0 <= y' < |b|
  {
    (y' == y && (x' == x - 1 || x' == x + 1))
    || ((y' == y - 1 || y' == y + 1) && (Offset(b, y', x') == Offset(b, y, x) - 1 || Offset(b, y', x') == Offset(b, y, x) + 1))
  }

  /** Consecutive rows differ in length by at most one, as in [3,4,5,4,3] and [3,4,5,6,5,4,3]. */
  predicate RowsStepByOne(b: Grid)
  {
    forall y :: 0 < y < |b| ==> |b[y - 1]| - 1 <= |b[y]| <= |b[y - 1]| + 1
  }

  /** A cell carrying a red token, whatever its stage. */
  predicate Red(c: Cell)
  {
    c != Empty && IsSixOrEight(TokenOf(c))
  }

  /** No inspected pair of cells both carries a red token. */
  ghost predicate RedApartInspected(b: Grid)
  {
    forall y, x, y', x' ::
      InBounds(b, y, x) && InBounds(b, y', x') && Inspected(y, x, y', x') ==> !(Red(b[y][x]) && Red(b[y'][x']))
  }

  /** No two touching tiles both carry a red token. */
  ghost predicate RedApartOnHexGrid(b: Grid)
  {
    forall y, x, y', x' ::
      InBounds(b, y, x) && InBounds(b, y', x') && HexAdjacent(b, y, x, y', x') ==> !(Red(b[y][x]) && Red(b[y'][x']))
  }

  /**
   * Every pair of touching tiles is inspected from its later tile: the inspected
   * cells cover the true neighbours across growing and shrinking rows alike.
   */
  lemma HexNeighbourInspected(b: Grid, y: int, x: int, y': int, x': int)
    requires RowsStepByOne(b) && InBounds(b, y, x) && InBounds(b, y', x')
    requires HexAdjacent(b, y, x, y', x')
    ensures Inspected(y, x, y', x') || Inspected(y', x', y, x)
  {
  }

  /** The index rule implies the Catan rule on any board whose rows step by one. */
  lemma {:induction false} RedApartOnHexGridFromInspected(b: Grid)
    requires RowsStepByOne(b) && RedApartInspected(b)
    ensures RedApartOnHexGrid(b)
  {
    forall y, x, y', x' | InBounds(b, y, x) && InBounds(b, y', x') && HexAdjacent(b, y, x, y', x')
      ensures !(Red(b[y][x]) && Red(b[y'][x']))
    {
      HexNeighbourInspected(b, y, x, y', x');
    }
  }

  /** A fully numbered board whose every token passed the rule keeps its red tokens apart. */
  lemma {:induction false} AdmissibleBoardRedApart(b: Grid)
    requires forall y, x :: InBounds(b, y, x) ==> b[y][x].Numbered? && Admissible(b, y, x, b[y][x].token)
    ensures RedApartInspected(b)
  {
    forall y, x, y', x' | InBounds(b, y, x) && InBounds(b, y', x') && Inspected(y, x, y', x')
      ensures !(Red(b[y][x]) && Red(b[y'][x']))
    {
      assert Admissible(b, y, x, b[y][x].token);
    }
  }
}
