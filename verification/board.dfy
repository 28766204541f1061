/**
 * Tiles and the row-shaped grid shared by both board scripts
 * (Basegame_3-4_WithPorts.py and Basegame_5-6.py).
 *
 * A board is a list of rows; a row is a list of cells. A cell goes through
 * three shapes: the placeholder `(0, "")`, a bare number token, and the
 * triple `(token, resource, colour)`.
 */
module Board {

  /** The keys of `resource_colors`. Sea exists only in the 5-6 player script. */
  datatype Resource = Wood | Sheep | Brick | Wheat | Ore | Desert | Sea

  /** The RGB tuples the scripts use, by name. */
  datatype Color =
    | White        // (255, 255, 255)
    | ForestGreen  // wood (34, 139, 34)
    | LeafGreen    // sheep (117, 210, 43)
    | Clay         // brick (179, 89, 0)
    | Straw        // wheat (210, 194, 43)
    | Slate        // ore (59, 59, 58)
    | Sand         // desert (228, 197, 132)
    | SeaBlue      // sea (20, 80, 250)

  /** The colour `resource_colors` gives r in a script that has r as a key; none of them is white. */
  function ResourceColor(r: Resource): (c: Color)
    ensures c != White
  {
    match r
    case Wood => ForestGreen
    case Sheep => LeafGreen
    case Brick => Clay
    case Wheat => Straw
    case Ore => Slate
    case Desert => Sand
    case Sea => SeaBlue
  }

  /** The two scripts: their `resource_colors` tables agree on every shared key, and only the 5-6 player one has "sea". */
  datatype Script = ThreeFour | FiveSix

  /** Whether `resource_colors[r]` finds a key in the script's table rather than raising KeyError. */
  predicate HasColor(script: Script, r: Resource)
  {
    r != Sea || script == FiveSix
  }

  /** A board entry: `(0, "")`, then a bare token, then `(token, resource, colour)`. */
  datatype Cell = Empty | Numbered(token: int) | Resourced(token: int, res: Resource, color: Color)

  /** The number a cell carries; the placeholder's is 0. */
  function TokenOf(c: Cell): int
  {
    match c
    case Empty => 0
    case Numbered(t) => t
    case Resourced(t, _, _) => t
  }

  type Grid = seq<seq<Cell>>

  /** Row lengths of the 3-4 player board (19 cells) and of the 5-6 player board (30 cells). */
  const SmallShape: seq<nat> := [3, 4, 5, 4, 3]
  const LargeShape: seq<nat> := [3, 4, 5, 6, 5, 4, 3]

  predicate InBounds(b: Grid, y: int, x: int)
  {
    0 <= y < |b| && 0 <= x < |b[y]|
  }

  predicate HasShape(b: Grid, shape: seq<nat>)
  {
    |b| == |shape| && forall y :: 0 <= y < |b| ==> |b[y]| == shape[y]
  }

  predicate SameShape(a: Grid, b: Grid)
  {
    |a| == |b| && forall y :: 0 <= y < |a| ==> |a[y]| == |b[y]|
  }

  /** Every cell still holds the placeholder `(0, "")`. */
  predicate IsBlank(b: Grid)
  {
    forall y, x :: 0 <= y < |b| && 0 <= x < |b[y]| ==> b[y][x] == Empty
  }

  /** Sum of the row lengths of a shape. */
  function Total(shape: seq<nat>): nat
  {
    if shape == [] then 0 else shape[0] + Total(shape[1..])
  }

  /** generate_board: the skeleton of a shape, every cell the placeholder. */
  function GenerateBoard(shape: seq<nat>): (b: Grid)
    ensures HasShape(b, shape) && IsBlank(b)
  {
    seq(|shape|, y requires 0 <= y < |shape| => seq(shape[y], _ => Empty))
  }

  /** The cells in row-major order, the order in which every loop over the board visits them. */
  function Flatten(b: Grid): seq<Cell>
  {
    if b == [] then [] else b[0] + Flatten(b[1..])
  }

  lemma {:induction false} FlattenAppend(a: Grid, c: Grid)
    ensures Flatten(a + c) == Flatten(a) + Flatten(c)
  {
    if a == [] {
      assert a + c == c;
    } else {
      assert (a + c)[1..] == a[1..] + c;
      FlattenAppend(a[1..], c);
    }
  }

  lemma {:induction false} FlattenLength(b: Grid, shape: seq<nat>)
    requires HasShape(b, shape)
    ensures |Flatten(b)| == Total(shape)
  {
    if b != [] {
      FlattenLength(b[1..], shape[1..]);
    }
  }

  /** Position of cell (y, x) in the row-major order. */
  function Rank(b: Grid, y: int, x: int): int
    requires 0 <= y <= |b|
  {
    |Flatten(b[..y])| + x
  }

  lemma FlattenSplit(b: Grid, y: int)
    requires 0 <= y < |b|
    ensures Flatten(b) == Flatten(b[..y]) + b[y] + Flatten(b[y + 1..])
  {
    var rest := b[y..];
    assert b == b[..y] + rest;
    FlattenAppend(b[..y], rest);
    assert rest[0] == b[y] && rest[1..] == b[y + 1..];
    assert Flatten(rest) == b[y] + Flatten(b[y + 1..]);
  }

  lemma RankNextRow(b: Grid, y: int)
    requires 0 <= y < |b|
    ensures Rank(b, y + 1, 0) == Rank(b, y, |b[y]|)
  {
    assert b[..y + 1] == b[..y] + [b[y]];
    FlattenAppend(b[..y], [b[y]]);
    assert [b[y]][1..] == [];
  }

  lemma RankEnd(b: Grid)
    ensures Rank(b, |b|, 0) == |Flatten(b)|
  {
    assert b[..|b|] == b;
  }

  lemma RankBound(b: Grid, y: int, x: int)
    requires 0 <= y < |b| && 0 <= x <= |b[y]|
    ensures 0 <= Rank(b, y, x) <= |Flatten(b)|
  {
    FlattenSplit(b, y);
  }

  /** Cell (y, x) sits at Rank(b, y, x) of the flattened board. */
  lemma FlattenAt(b: Grid, y: int, x: int)
    requires InBounds(b, y, x)
    ensures 0 <= Rank(b, y, x) < |Flatten(b)| && Flatten(b)[Rank(b, y, x)] == b[y][x]
  {
    FlattenSplit(b, y);
  }

  /** Overwriting one cell overwrites one position of the flattened board. */
  lemma FlattenUpdate(b: Grid, y: int, x: int, c: Cell)
    requires InBounds(b, y, x)
    ensures 0 <= Rank(b, y, x) < |Flatten(b)|
    ensures Rank(b[y := b[y][x := c]], y, x) == Rank(b, y, x)
    ensures Flatten(b[y := b[y][x := c]]) == Flatten(b)[Rank(b, y, x) := c]
  {
    var b' := b[y := b[y][x := c]];
    FlattenSplit(b, y);
    FlattenSplit(b', y);
    assert b'[..y] == b[..y];
    assert b'[y + 1..] == b[y + 1..];
  }

  /** A property of every cell of the grid holds at every position of the flattened board. */
  lemma {:induction false} FlattenAll(b: Grid, p: Cell -> bool)
    requires forall y, x :: InBounds(b, y, x) ==> p(b[y][x])
    ensures forall i :: 0 <= i < |Flatten(b)| ==> p(Flatten(b)[i])
  {
    if b != [] {
      FlattenAll(b[1..], p);
      forall i | 0 <= i < |Flatten(b)| ensures p(Flatten(b)[i]) {
        if i < |b[0]| {
          assert InBounds(b, 0, i);
        } else {
          assert Flatten(b)[i] == Flatten(b[1..])[i - |b[0]|];
        }
      }
    }
  }

  // ---------------------------------------------------------------------------
  // Counting over a row-major list of cells

  /** The tokens of the cells that carry one (every cell but the placeholder), in order. */
  function Tokens(cells: seq<Cell>): seq<int>
  {
    if cells == [] then []
    else (if cells[0] == Empty then [] else [TokenOf(cells[0])]) + Tokens(cells[1..])
  }

  /** Number of cells whose token is not the desert sentinel 1. */
  function NonDesertCount(cells: seq<Cell>): nat
  {
    if cells == [] then 0
    else (if TokenOf(cells[0]) == 1 then 0 else 1) + NonDesertCount(cells[1..])
  }

  /** Resources of the resourced cells whose token is not 1, in order. */
  function DealtResources(cells: seq<Cell>): seq<Resource>
  {
    if cells == [] then []
    else (if cells[0].Resourced? && cells[0].token != 1 then [cells[0].res] else []) + DealtResources(cells[1..])
  }

  /** Multiset of the resources on the resourced cells. */
  function ResourceBag(cells: seq<Cell>): multiset<Resource>
  {
    if cells == [] then multiset{}
    else (if cells[0].Resourced? then multiset{cells[0].res} else multiset{}) + ResourceBag(cells[1..])
  }

  lemma {:induction false} TokensAppend(a: seq<Cell>, c: seq<Cell>)
    ensures Tokens(a + c) == Tokens(a) + Tokens(c)
  {
    if a != [] {
      assert (a + c)[1..] == a[1..] + c;
      TokensAppend(a[1..], c);
    } else {
      assert a + c == c;
    }
  }

  lemma {:induction false} NonDesertAppend(a: seq<Cell>, c: seq<Cell>)
    ensures NonDesertCount(a + c) == NonDesertCount(a) + NonDesertCount(c)
  {
    if a != [] {
      assert (a + c)[1..] == a[1..] + c;
      NonDesertAppend(a[1..], c);
    } else {
      assert a + c == c;
    }
  }

  lemma {:induction false} DealtAppend(a: seq<Cell>, c: seq<Cell>)
    ensures DealtResources(a + c) == DealtResources(a) + DealtResources(c)
  {
    if a != [] {
      assert (a + c)[1..] == a[1..] + c;
      DealtAppend(a[1..], c);
    } else {
      assert a + c == c;
    }
  }

  /** Placing a token on a blank cell adds exactly that token to the board's bag of tokens. */
  lemma TokensPlace(cells: seq<Cell>, k: int, v: int)
    requires 0 <= k < |cells| && cells[k] == Empty
    ensures multiset(Tokens(cells[k := Numbered(v)])) == multiset(Tokens(cells)) + multiset{v}
  {
    var after := cells[k := Numbered(v)];
    assert cells == cells[..k] + [cells[k]] + cells[k + 1..];
    assert after == cells[..k] + [Numbered(v)] + cells[k + 1..];
    TokensAppend(cells[..k] + [cells[k]], cells[k + 1..]);
    TokensAppend(cells[..k], [cells[k]]);
    TokensAppend(cells[..k] + [Numbered(v)], cells[k + 1..]);
    TokensAppend(cells[..k], [Numbered(v)]);
  }

  /** On cells that all carry a token, the tokens that are not 1 and those that are add up to the cell count. */
  lemma {:induction false} NonDesertPlusOnes(cells: seq<Cell>)
    requires forall i :: 0 <= i < |cells| ==> cells[i] != Empty
    ensures |Tokens(cells)| == |cells|
    ensures NonDesertCount(cells) + multiset(Tokens(cells))[1] == |cells|
  {
    if cells != [] {
      NonDesertPlusOnes(cells[1..]);
      assert Tokens(cells) == [TokenOf(cells[0])] + Tokens(cells[1..]);
    }
  }

  /**
   * On resourced cells where token 1 always means desert, the resources are
   * the dealt ones plus one desert per 1-token.
   */
  lemma {:induction false} ResourceBagSplit(cells: seq<Cell>)
    requires forall i :: 0 <= i < |cells| ==> cells[i].Resourced?
    requires forall i :: 0 <= i < |cells| ==> cells[i].token == 1 ==> cells[i].res == Desert
    ensures ResourceBag(cells) == multiset(DealtResources(cells)) + multiset{}[Desert := multiset(Tokens(cells))[1]]
  {
    if cells != [] {
      ResourceBagSplit(cells[1..]);
      assert Tokens(cells) == [TokenOf(cells[0])] + Tokens(cells[1..]);
    }
  }
}
