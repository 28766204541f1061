/**
 * assign_resources (Basegame_3-4_WithPorts.py:159-181, Basegame_5-6.py:122-144):
 * hand the filled board's tiles to the hexagon centres of calculate_hex_centers
 * (Basegame_3-4_WithPorts.py:85-97, Basegame_5-6.py:52-64) by popping both
 * lists, and draw each tile at its centre.
 *
 * A centre is an opaque value of type C; only the order of the list matters.
 * The drawing calls are recorded as the list of tiles in drawing order: the
 * centre, the fill colour, and the number label with its colour.
 */
module Pairing {
  import opened Board

  /** The number drawn on a tile, red for 6 and 8; none on the desert (and, in the 5-6 script, the sea). */
  datatype NumberLabel = NoLabel | Label(token: int, red: bool)

  datatype Tile<C> = Tile(center: C, color: Color, number: NumberLabel)

  /** Drawn: every tile placed. CentresExhausted: `hex_centers.pop()` on an empty list. NotATriple: a cell does not unpack into three values. */
  datatype PairingOutcome = Drawn | CentresExhausted | NotATriple

  /** Resources drawn without a number: the desert in the 3-4 script, desert and sea in the 5-6 script. */
  const SmallUnlabelled: set<Resource> := {Desert}
  const LargeUnlabelled: set<Resource> := {Desert, Sea}

  /** What one iteration draws for a cell `(number, resource, color)` at a centre. */
  function TileFor<C>(center: C, cell: Cell, unlabelled: set<Resource>): (t: Tile<C>)
    requires cell.Resourced?
    ensures t.center == center && t.color == cell.color
    ensures t.number == NoLabel <==> cell.res in unlabelled
    ensures t.number != NoLabel ==> t.number.token == cell.token && (t.number.red <==> cell.token == 6 || cell.token == 8)
  {
    Tile(center, cell.color, if cell.res in unlabelled then NoLabel else Label(cell.token, cell.token == 6 || cell.token == 8))
  }

  /** Every cell unpacks into `number, resource, color`. */
  predicate AllTriples(b: Grid)
  {
    forall y, x :: 0 <= y < |b| && 0 <= x < |b[y]| ==> b[y][x].Resourced?
  }

  /** When cell (y, x) is popped: rows in order, each row from its last cell. */
  function PopIndex(b: Grid, y: int, x: int): int
    requires 0 <= y < |b|
  {
    Rank(b, y, 0) + |b[y]| - 1 - x
  }

  lemma {:induction false} RankMono(b: Grid, y: int, y': int)
    requires 0 <= y <= y' <= |b|
    ensures Rank(b, y, 0) <= Rank(b, y', 0)
  {
    if y < y' {
      RankMono(b, y, y' - 1);
      RankNextRow(b, y' - 1);
    }
  }

  /** Row y takes the pop indices from Rank(b, y, 0) up to Rank(b, y + 1, 0). */
  lemma PopIndexRange(b: Grid, y: int, x: int)
    requires InBounds(b, y, x)
    ensures Rank(b, y, 0) <= PopIndex(b, y, x) < Rank(b, y + 1, 0) <= |Flatten(b)|
  {
    RankNextRow(b, y);
    RankMono(b, y + 1, |b|);
    RankEnd(b);
  }

  /** Cells popped before (y, |row|) empties row y: the earlier rows and the popped tail of row y. */
  lemma PoppedCells(b: Grid, y: int, left: int, y': int, x': int)
    requires 0 <= y < |b| && 0 <= left <= |b[y]| && InBounds(b, y', x')
    ensures PopIndex(b, y', x') < Rank(b, y, 0) + |b[y]| - left <==> y' < y || (y' == y && x' >= left)
  {
    PopIndexRange(b, y', x');
    if y' < y {
      RankMono(b, y' + 1, y);
    } else if y' > y {
      RankNextRow(b, y);
      RankMono(b, y + 1, y');
    }
  }

  /**
   * The first |tiles| pops: each popped cell (y, x) was a triple and was drawn
   * as tile PopIndex(y, x) at the centre popped with it.
   */
  ghost predicate TilesDrawn<C>(b: Grid, centres: seq<C>, tiles: seq<Tile<C>>, unlabelled: set<Resource>)
  {
    && |tiles| <= |centres|
    && forall y, x :: InBounds(b, y, x) && PopIndex(b, y, x) < |tiles| ==>
         b[y][x].Resourced? && tiles[PopIndex(b, y, x)] == TileFor(centres[|centres| - 1 - PopIndex(b, y, x)], b[y][x], unlabelled)
  }

  /** The state of the loop after |tiles| pops: the centres not yet popped are the front of the list. */
  ghost predicate PairedUpTo<C>(b: Grid, centres: seq<C>, tiles: seq<Tile<C>>, left: seq<C>, unlabelled: set<Resource>)
  {
    TilesDrawn(b, centres, tiles, unlabelled) && left == centres[..|centres| - |tiles|]
  }

  /**
   * The loops of assign_resources. Each iteration pops a centre, then the last
   * cell of the current row, then unpacks it. The k-th tile drawn is the cell
   * with pop index k at the k-th centre from the end; the function returns the
   * board with every row emptied.
   */
  method AssignResources<C>(hexCenters: seq<C>, board: Grid, unlabelled: set<Resource>)
    returns (outcome: PairingOutcome, tiles: seq<Tile<C>>, centresLeft: seq<C>, emptied: Grid)
    ensures |tiles| <= |hexCenters| && |tiles| <= |Flatten(board)|
    ensures forall y, x :: InBounds(board, y, x) && PopIndex(board, y, x) < |tiles| ==>
      board[y][x].Resourced? &&
      tiles[PopIndex(board, y, x)] == TileFor(hexCenters[|hexCenters| - 1 - PopIndex(board, y, x)], board[y][x], unlabelled)
    ensures outcome == Drawn <==> |hexCenters| >= |Flatten(board)| && AllTriples(board)
    ensures outcome == Drawn ==> |tiles| == |Flatten(board)| && centresLeft == hexCenters[..|hexCenters| - |tiles|]
    ensures outcome == Drawn ==> |emptied| == |board| && forall y :: 0 <= y < |emptied| ==> emptied[y] == []
    ensures outcome == CentresExhausted ==> |tiles| == |hexCenters| && centresLeft == []
    ensures outcome == NotATriple ==>
      |tiles| < |hexCenters| && centresLeft == hexCenters[..|hexCenters| - |tiles| - 1] &&
      exists y, x :: InBounds(board, y, x) && PopIndex(board, y, x) == |tiles| && !board[y][x].Resourced?
  {
    tiles, centresLeft, emptied := [], hexCenters, board;
    var y := 0;
    while y < |board|
      invariant 0 <= y <= |board| && |tiles| == Rank(board, y, 0)
      invariant PairedUpTo(board, hexCenters, tiles, centresLeft, unlabelled)
      invariant |emptied| == |board| && forall y' :: 0 <= y' < y ==> emptied[y'] == []
    {
      outcome, tiles, centresLeft := DrawRow(board, y, hexCenters, unlabelled, tiles, centresLeft);
      if outcome == CentresExhausted {
        return;
      } else if outcome == NotATriple {
        var x :| 0 <= x < |board[y]| && PopIndex(board, y, x) == |tiles| && !board[y][x].Resourced?;
        assert InBounds(board, y, x);
        return;
      }
      emptied := emptied[y := []];
      y := y + 1;
    }
    RankEnd(board);
    forall y, x | InBounds(board, y, x) ensures board[y][x].Resourced? {
      PopIndexRange(board, y, x);
    }
    outcome := Drawn;
  }

  /**
   * The inner loop of assign_resources on row y: pop the row's cells from the
   * end, each at the next centre popped. Drawn: the row is used up.
   * CentresExhausted: no centre was left for a cell of the row. NotATriple: a
   * cell of the row, whose centre was already popped, does not unpack.
   */
  method DrawRow<C>(board: Grid, y: int, hexCenters: seq<C>, unlabelled: set<Resource>, tiles: seq<Tile<C>>, centresLeft: seq<C>)
    returns (outcome: PairingOutcome, tiles': seq<Tile<C>>, centresLeft': seq<C>)
    requires 0 <= y < |board| && |tiles| == Rank(board, y, 0)
    requires PairedUpTo(board, hexCenters, tiles, centresLeft, unlabelled)
    ensures TilesDrawn(board, hexCenters, tiles', unlabelled) && |tiles'| <= |Flatten(board)|
    ensures outcome == Drawn ==> |tiles'| == Rank(board, y + 1, 0) && PairedUpTo(board, hexCenters, tiles', centresLeft', unlabelled)
    ensures outcome == CentresExhausted ==> |tiles'| == |hexCenters| < |Flatten(board)| && centresLeft' == []
    ensures outcome == NotATriple ==>
      |tiles'| < |hexCenters| && centresLeft' == hexCenters[..|hexCenters| - |tiles'| - 1] &&
      exists x :: 0 <= x < |board[y]| && PopIndex(board, y, x) == |tiles'| && !board[y][x].Resourced?
  {
    tiles', centresLeft' := tiles, centresLeft;
    var row := board[y];
    while row != []
      invariant |row| <= |board[y]| && row == board[y][..|row|]
      invariant |tiles'| == Rank(board, y, 0) + |board[y]| - |row|
      invariant PairedUpTo(board, hexCenters, tiles', centresLeft', unlabelled)
    {
      if centresLeft' == [] {
        RunOutOfCentres(board, y, |row|, |tiles'|);
        return CentresExhausted, tiles', centresLeft';
      }
      var center := centresLeft'[|centresLeft'| - 1];
      centresLeft' := centresLeft'[..|centresLeft'| - 1];
      var cell := row[|row| - 1];
      row := row[..|row| - 1];
      if !cell.Resourced? {
        StopAtCell(board, y, |row|, |tiles'|);
        return NotATriple, tiles', centresLeft';
      }
      PairStep(board, hexCenters, tiles', centresLeft' + [center], unlabelled, y, |row|);
      tiles' := tiles' + [TileFor(center, cell, unlabelled)];
    }
    RankNextRow(board, y);
    RankMono(board, y + 1, |board|);
    RankEnd(board);
    outcome := Drawn;
  }

  /** Popping cell (y, left) at the next centre extends the pairing by one tile. */
  lemma PairStep<C>(b: Grid, centres: seq<C>, tiles: seq<Tile<C>>, left: seq<C>, unlabelled: set<Resource>, y: int, x: int)
    requires 0 <= y < |b| && 0 <= x < |b[y]| && |tiles| == Rank(b, y, 0) + |b[y]| - 1 - x
    requires PairedUpTo(b, centres, tiles, left, unlabelled) && left != [] && b[y][x].Resourced?
    ensures PairedUpTo(b, centres, tiles + [TileFor(left[|left| - 1], b[y][x], unlabelled)], left[..|left| - 1], unlabelled)
  {
    var tiles' := tiles + [TileFor(left[|left| - 1], b[y][x], unlabelled)];
    forall y', x' | InBounds(b, y', x') && PopIndex(b, y', x') < |tiles'|
      ensures b[y'][x'].Resourced?
      ensures tiles'[PopIndex(b, y', x')] == TileFor(centres[|centres| - 1 - PopIndex(b, y', x')], b[y'][x'], unlabelled)
    {
      if PopIndex(b, y', x') == |tiles| {
        PoppedCells(b, y, x, y', x');
        PoppedCells(b, y, x + 1, y', x');
      }
    }
  }

  /** The list of centres ran out while cell (y, left - 1) was still to be drawn. */
  lemma RunOutOfCentres(b: Grid, y: int, left: int, drawn: int)
    requires 0 <= y < |b| && 0 < left <= |b[y]| && drawn == Rank(b, y, 0) + |b[y]| - left
    ensures drawn < |Flatten(b)|
  {
    PopIndexRange(b, y, left - 1);
  }

  /** The cell that failed to unpack is the one with pop index `drawn`. */
  lemma StopAtCell(b: Grid, y: int, x: int, drawn: int)
    requires 0 <= y < |b| && 0 <= x < |b[y]| && drawn == Rank(b, y, 0) + |b[y]| - 1 - x
    ensures InBounds(b, y, x) && PopIndex(b, y, x) == drawn && drawn < |Flatten(b)|
  {
    PopIndexRange(b, y, x);
  }

  // ---------------------------------------------------------------------------
  // calculate_hex_centers and the mirrored layout

  /** The centres of one row, as (row, column). */
  function RowCells(r: int, n: nat): (cells: seq<(int, int)>)
    ensures |cells| == n && forall c :: 0 <= c < n ==> cells[c] == (r, c)
  {
    seq(n, c => (r, c))
  }

  /** calculate_hex_centers: one centre per (row, column) of the shape, row by row. */
  function HexCells(shape: seq<nat>): (cells: seq<(int, int)>)
  {
    if shape == [] then [] else HexCells(shape[..|shape| - 1]) + RowCells(|shape| - 1, shape[|shape| - 1])
  }

  lemma {:induction false} TotalAppend(a: seq<nat>, c: seq<nat>)
    ensures Total(a + c) == Total(a) + Total(c)
  {
    if a == [] {
      assert a + c == c;
    } else {
      assert (a + c)[1..] == a[1..] + c;
      TotalAppend(a[1..], c);
    }
  }

  /** The centre of (r, c) sits after all centres of the earlier rows. */
  lemma {:induction false} HexCellsAt(shape: seq<nat>, r: int, c: int)
    requires 0 <= r < |shape| && 0 <= c < shape[r]
    ensures |HexCells(shape)| == Total(shape)
    ensures Total(shape[..r]) + c < |HexCells(shape)| && HexCells(shape)[Total(shape[..r]) + c] == (r, c)
  {
    var n := |shape|;
    var init := shape[..n - 1];
    assert shape == init + [shape[n - 1]];
    TotalAppend(init, [shape[n - 1]]);
    HexCellsLength(init);
    if r < n - 1 {
      assert init[..r] == shape[..r];
      HexCellsAt(init, r, c);
    } else {
      assert shape[..r] == init;
    }
  }

  lemma {:induction false} HexCellsLength(shape: seq<nat>)
    ensures |HexCells(shape)| == Total(shape)
  {
    if shape != [] {
      var n := |shape|;
      HexCellsLength(shape[..n - 1]);
      assert shape == shape[..n - 1] + [shape[n - 1]];
      TotalAppend(shape[..n - 1], [shape[n - 1]]);
    }
  }

  /** A shape that reads the same from the bottom row up, as [3,4,5,4,3] and [3,4,5,6,5,4,3] do. */
  predicate Palindromic(shape: seq<nat>)
  {
    forall i :: 0 <= i < |shape| ==> shape[i] == shape[|shape| - 1 - i]
  }

  /** Row lengths read in reverse order add up to the same total. */
  lemma {:induction false} TotalReversed(a: seq<nat>, c: seq<nat>)
    requires |a| == |c| && forall i :: 0 <= i < |a| ==> a[i] == c[|c| - 1 - i]
    ensures Total(a) == Total(c)
  {
    if a != [] {
      var m := |c|;
      TotalReversed(a[1..], c[..m - 1]);
      assert c == c[..m - 1] + [c[m - 1]];
      TotalAppend(c[..m - 1], [c[m - 1]]);
    }
  }

  /**
   * On a palindromic shape, assign_resources with the centres of
   * calculate_hex_centers turns the board upside down: cell (y, x) is drawn
   * at the centre of row |shape| - 1 - y, column x.
   */
  lemma MirroredLayout(b: Grid, shape: seq<nat>, y: int, x: int)
    requires HasShape(b, shape) && Palindromic(shape) && InBounds(b, y, x)
    ensures |HexCells(shape)| == |Flatten(b)|
    ensures 0 <= PopIndex(b, y, x) < |HexCells(shape)|
    ensures HexCells(shape)[|HexCells(shape)| - 1 - PopIndex(b, y, x)] == (|shape| - 1 - y, x)
  {
    FlattenLength(b, shape);
    var r := MirrorIndex(b, shape, y, x);
    HexCellsAt(shape, r, x);
  }

  /** Counted from the end of the board, the pop index of (y, x) is the row-major rank of (|shape| - 1 - y, x). */
  lemma MirrorIndex(b: Grid, shape: seq<nat>, y: int, x: int) returns (r: int)
    requires HasShape(b, shape) && Palindromic(shape) && InBounds(b, y, x)
    ensures r == |shape| - 1 - y && 0 <= r < |shape| && 0 <= x < shape[r]
    ensures 0 <= PopIndex(b, y, x) < |Flatten(b)|
    ensures |Flatten(b)| - 1 - PopIndex(b, y, x) == Total(shape[..r]) + x
  {
    PopIndexRange(b, y, x);
    FlattenLength(b, shape);
    var rank := RankIsTotal(b, shape, y);
    MirrorTotals(shape, y);
    r := |shape| - 1 - y;
    assert shape[r] == shape[y];
  }

  /** The rows above row y hold as many cells as their lengths add up to. */
  lemma RankIsTotal(b: Grid, shape: seq<nat>, y: int) returns (rank: int)
    requires HasShape(b, shape) && 0 <= y < |b|
    ensures rank == Rank(b, y, 0) == Total(shape[..y]) && |b[y]| == shape[y]
  {
    assert HasShape(b[..y], shape[..y]);
    FlattenLength(b[..y], shape[..y]);
    rank := Rank(b, y, 0);
  }

  /** Below row y lie as many cells as above its mirror row. */
  lemma MirrorTotals(shape: seq<nat>, y: int)
    requires Palindromic(shape) && 0 <= y < |shape|
    ensures Total(shape) == Total(shape[..y]) + shape[y] + Total(shape[..|shape| - 1 - y])
  {
    assert shape == shape[..y] + [shape[y]] + shape[y + 1..];
    TotalAppend(shape[..y] + [shape[y]], shape[y + 1..]);
    TotalAppend(shape[..y], [shape[y]]);
    TotalReversed(shape[y + 1..], shape[..|shape| - 1 - y]);
  }

  lemma ShapesPalindromic()
    ensures Palindromic(SmallShape) && Palindromic(LargeShape)
  {
  }

  /**
   * main's call `assign_resources(calculate_hex_centers(), board)`: there is one
   * centre per cell, so a board of triples is drawn in full, and on a
   * palindromic shape each tile lands on its mirror row.
   */
  method DrawBoard(board: Grid, shape: seq<nat>, unlabelled: set<Resource>)
    returns (outcome: PairingOutcome, tiles: seq<Tile<(int, int)>>)
    requires HasShape(board, shape)
    ensures |HexCells(shape)| == |Flatten(board)|
    ensures forall y, x :: InBounds(board, y, x) ==> 0 <= PopIndex(board, y, x) < |Flatten(board)|
    ensures outcome == Drawn <==> AllTriples(board)
    ensures outcome == Drawn ==> |tiles| == |Flatten(board)|
    ensures outcome == Drawn ==> forall y, x :: InBounds(board, y, x) ==>
      tiles[PopIndex(board, y, x)] == TileFor(HexCells(shape)[|HexCells(shape)| - 1 - PopIndex(board, y, x)], board[y][x], unlabelled)
    ensures outcome == Drawn && Palindromic(shape) ==> forall y, x :: InBounds(board, y, x) ==>
      tiles[PopIndex(board, y, x)].center == (|shape| - 1 - y, x)
  {
    var left, emptied;
    outcome, tiles, left, emptied := AssignResources(HexCells(shape), board, unlabelled);
    FlattenLength(board, shape);
    HexCellsLength(shape);
    PopIndexBounds(board);
    if outcome == Drawn {
      DrawnInFull(board, shape, unlabelled, tiles);
    }
  }

  /** Once every cell is drawn, each cell's tile is known, and on a palindromic shape it sits on the mirror row. */
  lemma DrawnInFull(board: Grid, shape: seq<nat>, unlabelled: set<Resource>, tiles: seq<Tile<(int, int)>>)
    requires HasShape(board, shape) && AllTriples(board)
    requires |tiles| == |Flatten(board)| && |HexCells(shape)| == |Flatten(board)|
    requires forall y, x :: InBounds(board, y, x) && PopIndex(board, y, x) < |tiles| ==>
      board[y][x].Resourced? &&
      tiles[PopIndex(board, y, x)] == TileFor(HexCells(shape)[|HexCells(shape)| - 1 - PopIndex(board, y, x)], board[y][x], unlabelled)
    ensures forall y, x :: InBounds(board, y, x) ==>
      0 <= PopIndex(board, y, x) < |tiles| &&
      tiles[PopIndex(board, y, x)] == TileFor(HexCells(shape)[|HexCells(shape)| - 1 - PopIndex(board, y, x)], board[y][x], unlabelled)
    ensures Palindromic(shape) ==> forall y, x :: InBounds(board, y, x) ==>
      0 <= PopIndex(board, y, x) < |tiles| && tiles[PopIndex(board, y, x)].center == (|shape| - 1 - y, x)
  {
    PopIndexBounds(board);
    if Palindromic(shape) {
      MirroredTiles(board, shape, unlabelled, tiles);
    }
  }

  /** Every cell has a place in the order of the pops. */
  lemma PopIndexBounds(board: Grid)
    ensures forall y, x :: InBounds(board, y, x) ==> 0 <= PopIndex(board, y, x) < |Flatten(board)|
  {
    forall y, x | InBounds(board, y, x) ensures 0 <= PopIndex(board, y, x) < |Flatten(board)| {
      PopIndexRange(board, y, x);
    }
  }

  /** Tiles drawn at the centres of calculate_hex_centers on a palindromic shape sit on the mirror rows. */
  lemma MirroredTiles(board: Grid, shape: seq<nat>, unlabelled: set<Resource>, tiles: seq<Tile<(int, int)>>)
    requires HasShape(board, shape) && Palindromic(shape) && AllTriples(board) && |tiles| == |Flatten(board)|
    requires |HexCells(shape)| == |Flatten(board)|
    requires forall y, x :: InBounds(board, y, x) ==> 0 <= PopIndex(board, y, x) < |Flatten(board)|
    requires forall y, x :: InBounds(board, y, x) ==>
      tiles[PopIndex(board, y, x)] == TileFor(HexCells(shape)[|HexCells(shape)| - 1 - PopIndex(board, y, x)], board[y][x], unlabelled)
    ensures forall y, x :: InBounds(board, y, x) ==> tiles[PopIndex(board, y, x)].center == (|shape| - 1 - y, x)
  {
    forall y, x | InBounds(board, y, x) ensures tiles[PopIndex(board, y, x)].center == (|shape| - 1 - y, x) {
      MirroredLayout(board, shape, y, x);
    }
  }

  /**
   * main of the 3-4 player script: the 3-4-5-4-3 board is drawn in full when
   * every cell is a triple, the tile of cell (y, x) at row 4 - y, column x,
   * in the cell's colour, with a number on every tile but the desert.
   */
  method DrawSmall(board: Grid) returns (outcome: PairingOutcome, tiles: seq<Tile<(int, int)>>)
    requires HasShape(board, SmallShape)
    ensures outcome == Drawn <==> AllTriples(board)
    ensures outcome == Drawn ==> |tiles| == |Flatten(board)|
    ensures forall y, x :: InBounds(board, y, x) ==> 0 <= PopIndex(board, y, x) < |Flatten(board)|
    ensures outcome == Drawn ==> forall y, x :: InBounds(board, y, x) ==>
      && tiles[PopIndex(board, y, x)].center == (4 - y, x)
      && tiles[PopIndex(board, y, x)].color == board[y][x].color
      && (tiles[PopIndex(board, y, x)].number == NoLabel <==> board[y][x].res == Desert)
      && (tiles[PopIndex(board, y, x)].number != NoLabel ==>
            tiles[PopIndex(board, y, x)].number == Label(board[y][x].token, board[y][x].token == 6 || board[y][x].token == 8))
  {
    ShapesPalindromic();
    outcome, tiles := DrawBoard(board, SmallShape, SmallUnlabelled);
  }

  /**
   * main of the 5-6 player script: the 3-4-5-6-5-4-3 board is drawn in full
   * when every cell is a triple, the tile of cell (y, x) at row 6 - y, column
   * x, in the cell's colour, with a number on every tile but desert and sea.
   */
  method DrawLarge(board: Grid) returns (outcome: PairingOutcome, tiles: seq<Tile<(int, int)>>)
    requires HasShape(board, LargeShape)
    ensures outcome == Drawn <==> AllTriples(board)
    ensures outcome == Drawn ==> |tiles| == |Flatten(board)|
    ensures forall y, x :: InBounds(board, y, x) ==> 0 <= PopIndex(board, y, x) < |Flatten(board)|
    ensures outcome == Drawn ==> forall y, x :: InBounds(board, y, x) ==>
      && tiles[PopIndex(board, y, x)].center == (6 - y, x)
      && tiles[PopIndex(board, y, x)].color == board[y][x].color
      && (tiles[PopIndex(board, y, x)].number == NoLabel <==> board[y][x].res == Desert || board[y][x].res == Sea)
      && (tiles[PopIndex(board, y, x)].number != NoLabel ==>
            tiles[PopIndex(board, y, x)].number == Label(board[y][x].token, board[y][x].token == 6 || board[y][x].token == 8))
  {
    ShapesPalindromic();
    outcome, tiles := DrawBoard(board, LargeShape, LargeUnlabelled);
  }
}
