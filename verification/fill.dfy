/**
 * fill_board (Basegame_3-4_WithPorts.py:135-156, Basegame_5-6.py:99-120) and
 * the retry loop of main: number every cell under the 6/8 rule, then overlay
 * the shuffled resources, the token 1 marking the desert.
 *
 * random.choice is the grid-shaped parameter `picks`: the cell (y, x) takes
 * entry `picks[y][x] % |valid|` of its list of valid numbers, so every choice
 * the script can make is some value of `picks`. random.shuffle of the resource
 * list is the parameter `shuffled`, any list with the same elements.
 */
module Fill {
  import opened Board
  import opened Constraints

  /** The pool values check_constraints accepts at (y, x), in pool order, duplicates kept. */
  function ValidNumbers(board: Grid, x: int, y: int, numbers: seq<int>): (valid: seq<int>)
    requires InBounds(board, y, x)
    ensures forall v :: v in valid <==> v in numbers && CheckConstraints(board, x, y, v)
  {
    if numbers == [] then []
    else (if CheckConstraints(board, x, y, numbers[0]) then [numbers[0]] else [])
         + ValidNumbers(board, x, y, numbers[1..])
  }

  /** Index of the first occurrence of v. */
  function FirstIndex(numbers: seq<int>, v: int): (i: nat)
    requires v in numbers
    ensures i < |numbers| && numbers[i] == v && v !in numbers[..i]
  {
    if numbers[0] == v then 0
    else
      var i := FirstIndex(numbers[1..], v) + 1;
      assert numbers[..i] == [numbers[0]] + numbers[1..][..i - 1];
      i
  }

  /** `numbers.remove(v)`: drops the first occurrence of v and keeps the order of the rest. */
  function RemoveFirst(numbers: seq<int>, v: int): (rest: seq<int>)
    requires v in numbers
    ensures multiset(rest) == multiset(numbers) - multiset{v}
  {
    var i := FirstIndex(numbers, v);
    assert numbers == numbers[..i] + [v] + numbers[i + 1..];
    numbers[..i] + numbers[i + 1..]
  }

  /** (y', x') comes before (y, x) in row-major order. */
  predicate Before(y': int, x': int, y: int, x: int)
  {
    y' < y || (y' == y && x' < x)
  }

  /** The grid of choices matches the board, one choice per cell. */
  predicate PicksFit(picks: seq<seq<nat>>, board: Grid)
  {
    |picks| == |board| && forall y :: 0 <= y < |board| ==> |picks[y]| == |board[y]|
  }

  /**
   * The cells before (y, x) hold bare tokens, each admitted by the 6/8 rule;
   * the cells from (y, x) on still hold the placeholder.
   */
  ghost predicate NumberedUpTo(b: Grid, y: int, x: int)
  {
    forall y', x' :: InBounds(b, y', x') ==>
      if Before(y', x', y, x) then b[y'][x'].Numbered? && Admissible(b, y', x', b[y'][x'].token)
      else b[y'][x'] == Empty
  }

  /** fill_board gave up at (y, x): numbered up to there and no remaining number passes the check. */
  ghost predicate StuckAt(b: Grid, rest: seq<int>, y: int, x: int)
  {
    InBounds(b, y, x) && NumberedUpTo(b, y, x) && forall v :: v in rest ==> !CheckConstraints(b, x, y, v)
  }

  /** The placed tokens and the remaining pool are together the original pool. */
  ghost predicate Conserved(b: Grid, rest: seq<int>, numbers: seq<int>)
  {
    multiset(Tokens(Flatten(b))) + multiset(rest) == multiset(numbers)
  }

  /**
   * The numbering loop of fill_board (lines 136-142): row-major, each cell takes
   * a valid number from the pool, one occurrence is removed; the first cell with
   * no valid number ends the attempt with False, the earlier cells left overwritten.
   */
  method NumberCells(board: Grid, numbers: seq<int>, picks: seq<seq<nat>>)
    returns (ok: bool, numbered: Grid, rest: seq<int>)
    requires IsBlank(board) && PicksFit(picks, board)
    ensures SameShape(numbered, board)
    ensures Conserved(numbered, rest, numbers)
    ensures ok ==> NumberedUpTo(numbered, |numbered|, 0)
    ensures !ok ==> exists y, x :: StuckAt(numbered, rest, y, x)
  {
    numbered, rest := board, numbers;
    assert Tokens(Flatten(board)) == [] by {
      TokensOfBlank(board);
    }
    var y := 0;
    while y < |numbered|
      invariant 0 <= y <= |numbered|
      invariant SameShape(numbered, board)
      invariant NumberedUpTo(numbered, y, 0)
      invariant Conserved(numbered, rest, numbers)
    {
      var x := 0;
      while x < |numbered[y]|
        invariant y < |numbered|
        invariant 0 <= x <= |numbered[y]|
        invariant SameShape(numbered, board)
        invariant NumberedUpTo(numbered, y, x)
        invariant Conserved(numbered, rest, numbers)
      {
        var valid := ValidNumbers(numbered, x, y, rest);
        if valid == [] {
          assert StuckAt(numbered, rest, y, x);
          return false, numbered, rest;
        }
        var v := valid[picks[y][x] % |valid|];
        assert v in valid;
        PlaceToken(numbered, rest, numbers, y, x, v);
        numbered := numbered[y := numbered[y][x := Numbered(v)]];
        rest := RemoveFirst(rest, v);
        x := x + 1;
      }
      NextRow(numbered, y);
      y := y + 1;
    }
    ok := true;
  }

  /** One step of the numbering loop keeps the board numbered up to the next cell and the pool conserved. */
  lemma PlaceToken(b: Grid, rest: seq<int>, numbers: seq<int>, y: int, x: int, v: int)
    requires InBounds(b, y, x) && NumberedUpTo(b, y, x) && Conserved(b, rest, numbers)
    requires v in rest && CheckConstraints(b, x, y, v)
    ensures SameShape(b[y := b[y][x := Numbered(v)]], b)
    ensures NumberedUpTo(b[y := b[y][x := Numbered(v)]], y, x + 1)
    ensures Conserved(b[y := b[y][x := Numbered(v)]], RemoveFirst(rest, v), numbers)
  {
    CheckConstraintsIsRule(b, y, x, v);
    PlaceKeepsNumbered(b, y, x, v);
    PlaceConserves(b, rest, numbers, y, x, v);
  }

  lemma PlaceConserves(b: Grid, rest: seq<int>, numbers: seq<int>, y: int, x: int, v: int)
    requires InBounds(b, y, x) && b[y][x] == Empty && Conserved(b, rest, numbers) && v in rest
    ensures Conserved(b[y := b[y][x := Numbered(v)]], RemoveFirst(rest, v), numbers)
  {
    FlattenUpdate(b, y, x, Numbered(v));
    FlattenAt(b, y, x);
    TokensPlace(Flatten(b), Rank(b, y, x), v);
  }

  lemma PlaceKeepsNumbered(b: Grid, y: int, x: int, v: int)
    requires InBounds(b, y, x) && NumberedUpTo(b, y, x) && Admissible(b, y, x, v)
    ensures NumberedUpTo(b[y := b[y][x := Numbered(v)]], y, x + 1)
  {
    var next := b[y := b[y][x := Numbered(v)]];
    forall y', x' | InBounds(next, y', x')
      ensures if Before(y', x', y, x + 1) then next[y'][x'].Numbered? && Admissible(next, y', x', next[y'][x'].token)
              else next[y'][x'] == Empty
    {
      if Before(y', x', y, x + 1) {
        var t := next[y'][x'].token;
        if y' == y && x' == x {
          AdmissibleFrame(b, next, y, x, v);
        } else {
          assert next[y'][x'] == b[y'][x'];
          assert Admissible(b, y', x', t);
          AdmissibleFrame(b, next, y', x', t);
        }
      } else {
        assert next[y'][x'] == b[y'][x'];
      }
    }
  }

  lemma NextRow(b: Grid, y: int)
    requires 0 <= y < |b| && NumberedUpTo(b, y, |b[y]|)
    ensures NumberedUpTo(b, y + 1, 0)
  {
    forall y', x' | InBounds(b, y', x')
      ensures Before(y', x', y, |b[y]|) == Before(y', x', y + 1, 0)
    {
    }
  }

  lemma TokensOfBlank(b: Grid)
    requires IsBlank(b)
    ensures Tokens(Flatten(b)) == []
  {
    if b != [] {
      TokensOfBlankRow(b[0]);
      TokensOfBlank(b[1..]);
      TokensAppend(b[0], Flatten(b[1..]));
    }
  }

  lemma TokensOfBlankRow(row: seq<Cell>)
    requires forall i :: 0 <= i < |row| ==> row[i] == Empty
    ensures Tokens(row) == []
  {
  }

  /** The overlay of one numbered cell: token kept, colour from the resource, token 1 made desert. */
  predicate Overlaid(c: Cell, before: Cell)
  {
    c.Resourced? && c.token == TokenOf(before) && c.color == ResourceColor(c.res)
    && (TokenOf(before) == 1 ==> c.res == Desert)
  }

  /** What fill_board returns: False, True, the IndexError of `resource_list[index]`, or the KeyError of `resource_colors[resource]`. */
  datatype FillOutcome = NoValidNumber | Filled | ResourceListExhausted | MissingColor

  /** The first n entries of the shuffled list (all of it, if it is shorter) are keys of the script's colour table. */
  predicate ColoredUpTo(script: Script, shuffled: seq<Resource>, n: int)
  {
    forall j :: 0 <= j < n && j < |shuffled| ==> HasColor(script, shuffled[j])
  }

  /**
   * How the resource loop ends on a board with k cells not holding 1: the loop
   * reads the first k entries of the list in order, so it meets a KeyError if
   * one of those it can reach has no colour, else an IndexError if the list is
   * shorter than k, else it completes.
   */
  function OverlayOutcome(script: Script, shuffled: seq<Resource>, k: int): (outcome: FillOutcome)
    ensures outcome != NoValidNumber
    ensures outcome == Filled ==> k <= |shuffled| && forall j :: 0 <= j < k ==> HasColor(script, shuffled[j])
    ensures outcome == ResourceListExhausted ==> k > |shuffled| && forall r :: r in shuffled ==> HasColor(script, r)
    ensures outcome == MissingColor <==> exists j :: 0 <= j < k && j < |shuffled| && !HasColor(script, shuffled[j])
  {
    if !ColoredUpTo(script, shuffled, k) then MissingColor
    else if k > |shuffled| then ResourceListExhausted
    else Filled
  }

  /**
   * The resource loop of fill_board (lines 144-153), after the shuffle: a cell
   * holding 1 becomes the desert without consuming the list; every other cell
   * takes `resource_list[index]` with its colour and advances index. Indexing
   * past the end raises IndexError, and a resource the script's
   * `resource_colors` lacks (sea in the 3-4 player script) raises KeyError;
   * whichever the loop meets first ends it.
   */
  method OverlayResources(script: Script, numbered: Grid, shuffled: seq<Resource>) returns (outcome: FillOutcome, filled: Grid)
    requires forall y, x :: InBounds(numbered, y, x) ==> numbered[y][x].Numbered?
    ensures SameShape(filled, numbered)
    ensures forall y, x :: InBounds(filled, y, x) ==> filled[y][x] != Empty && TokenOf(filled[y][x]) == TokenOf(numbered[y][x])
    ensures outcome == OverlayOutcome(script, shuffled, NonDesertCount(Flatten(numbered)))
    ensures outcome == Filled ==> forall y, x :: InBounds(filled, y, x) ==> Overlaid(filled[y][x], numbered[y][x])
    ensures outcome == Filled ==> DealtResources(Flatten(filled)) == shuffled[..NonDesertCount(Flatten(numbered))]
  {
    filled := numbered;
    var index := 0;
    OverlayStart(numbered, shuffled);
    var y := 0;
    while y < |filled|
      invariant 0 <= y <= |filled|
      invariant OverlaidUpTo(filled, numbered, shuffled, y, 0, index)
      invariant ColoredUpTo(script, shuffled, index)
    {
      var i := 0;
      while i < |filled[y]|
        invariant y < |filled|
        invariant 0 <= i <= |filled[y]|
        invariant OverlaidUpTo(filled, numbered, shuffled, y, i, index)
        invariant ColoredUpTo(script, shuffled, index)
      {
        var cell := filled[y][i];
        var overlaid;
        if cell.token == 1 {
          overlaid := Resourced(1, Desert, ResourceColor(Desert));
        } else {
          if index >= |shuffled| || !HasColor(script, shuffled[index]) {
            OverlayStops(filled, numbered, shuffled, y, i, index);
            OutcomeAt(script, shuffled, index, NonDesertCount(Flatten(numbered)));
            outcome := if index >= |shuffled| then ResourceListExhausted else MissingColor;
            return;
          }
          var resource := shuffled[index];
          ColoredNext(script, shuffled, index);
          overlaid := Resourced(cell.token, resource, ResourceColor(resource));
        }
        OverlayStep(filled, numbered, shuffled, y, i, index, overlaid);
        filled := filled[y := filled[y][i := overlaid]];
        if cell.token != 1 {
          index := index + 1;
        }
        i := i + 1;
      }
      OverlayNextRow(filled, numbered, shuffled, y, index);
      y := y + 1;
    }
    OverlayEnd(filled, numbered, shuffled, index);
    OutcomeAt(script, shuffled, index, NonDesertCount(Flatten(numbered)));
    outcome := Filled;
  }

  /**
   * The outcome seen from the loop: with the first `index` entries coloured,
   * reading entry `index` for one of k > index cells ends the loop with an
   * IndexError past the end or a KeyError on an uncoloured entry, and having
   * dealt all k entries completes it.
   */
  lemma OutcomeAt(script: Script, shuffled: seq<Resource>, index: int, k: int)
    requires 0 <= index && ColoredUpTo(script, shuffled, index)
    ensures index < k && index >= |shuffled| ==> OverlayOutcome(script, shuffled, k) == ResourceListExhausted
    ensures index < k && index < |shuffled| && !HasColor(script, shuffled[index]) ==>
      OverlayOutcome(script, shuffled, k) == MissingColor
    ensures index == k <= |shuffled| ==> OverlayOutcome(script, shuffled, k) == Filled
  {
  }

  lemma ColoredNext(script: Script, shuffled: seq<Resource>, index: int)
    requires 0 <= index < |shuffled| && ColoredUpTo(script, shuffled, index) && HasColor(script, shuffled[index])
    ensures ColoredUpTo(script, shuffled, index + 1)
  {
  }

  /**
   * The state of the resource loop before cell (y, i): the earlier cells are
   * overlaid, the later ones untouched, `index` counts the earlier cells not
   * holding 1, and those cells took the first `index` shuffled resources.
   */
  ghost predicate OverlaidUpTo(filled: Grid, numbered: Grid, shuffled: seq<Resource>, y: int, i: int, index: int)
  {
    && SameShape(filled, numbered)
    && (forall y, x :: InBounds(numbered, y, x) ==> numbered[y][x].Numbered?)
    && 0 <= y <= |numbered|
    && (y < |numbered| ==> 0 <= i <= |numbered[y]|)
    && (y == |numbered| ==> i == 0)
    && (forall y', x' :: InBounds(filled, y', x') ==>
          if Before(y', x', y, i) then Overlaid(filled[y'][x'], numbered[y'][x']) else filled[y'][x'] == numbered[y'][x'])
    && |Flatten(filled)| == |Flatten(numbered)|
    && Rank(filled, y, i) == Rank(numbered, y, i) <= |Flatten(numbered)|
    && 0 <= index == NonDesertCount(Flatten(numbered)[..Rank(numbered, y, i)]) <= |shuffled|
    && DealtResources(Flatten(filled)[..Rank(numbered, y, i)]) == shuffled[..index]
  }

  lemma OverlayStart(numbered: Grid, shuffled: seq<Resource>)
    requires forall y, x :: InBounds(numbered, y, x) ==> numbered[y][x].Numbered?
    ensures OverlaidUpTo(numbered, numbered, shuffled, 0, 0, 0)
  {
    if |numbered| > 0 {
      RankBound(numbered, 0, 0);
    }
  }

  lemma OverlayStep(filled: Grid, numbered: Grid, shuffled: seq<Resource>, y: int, i: int, index: int, c: Cell)
    requires OverlaidUpTo(filled, numbered, shuffled, y, i, index) && InBounds(numbered, y, i)
    requires Overlaid(c, numbered[y][i])
    requires TokenOf(numbered[y][i]) != 1 ==> index < |shuffled| && c.res == shuffled[index]
    ensures OverlaidUpTo(filled[y := filled[y][i := c]], numbered, shuffled, y, i + 1,
                         if TokenOf(numbered[y][i]) == 1 then index else index + 1)
  {
    assert filled[y][i] == numbered[y][i];
    OverlayStepCells(filled, numbered, shuffled, y, i, index, c);
    OverlayStepCounts(filled, numbered, shuffled, y, i, index, c);
  }

  /** One overlaid cell more: the cells before (y, i + 1) are overlaid, the others untouched. */
  lemma OverlayStepCells(filled: Grid, numbered: Grid, shuffled: seq<Resource>, y: int, i: int, index: int, c: Cell)
    requires OverlaidUpTo(filled, numbered, shuffled, y, i, index) && InBounds(numbered, y, i)
    requires Overlaid(c, numbered[y][i])
    ensures SameShape(filled[y := filled[y][i := c]], numbered)
    ensures forall y', x' :: InBounds(filled, y', x') ==>
      if Before(y', x', y, i + 1) then Overlaid(filled[y := filled[y][i := c]][y'][x'], numbered[y'][x'])
      else filled[y := filled[y][i := c]][y'][x'] == numbered[y'][x']
  {
  }

  /** One overlaid cell more: the counter and the dealt prefix advance exactly when the cell does not hold 1. */
  lemma OverlayStepCounts(filled: Grid, numbered: Grid, shuffled: seq<Resource>, y: int, i: int, index: int, c: Cell)
    requires SameShape(filled, numbered) && InBounds(numbered, y, i) && filled[y][i] == numbered[y][i]
    requires |Flatten(filled)| == |Flatten(numbered)| && Rank(filled, y, i) == Rank(numbered, y, i) <= |Flatten(numbered)|
    requires 0 <= index == NonDesertCount(Flatten(numbered)[..Rank(numbered, y, i)]) <= |shuffled|
    requires DealtResources(Flatten(filled)[..Rank(numbered, y, i)]) == shuffled[..index]
    requires Overlaid(c, numbered[y][i])
    requires TokenOf(numbered[y][i]) != 1 ==> index < |shuffled| && c.res == shuffled[index]
    ensures |Flatten(filled[y := filled[y][i := c]])| == |Flatten(numbered)|
    ensures Rank(filled[y := filled[y][i := c]], y, i + 1) == Rank(numbered, y, i + 1) <= |Flatten(numbered)|
    ensures 0 <= (if TokenOf(numbered[y][i]) == 1 then index else index + 1)
      == NonDesertCount(Flatten(numbered)[..Rank(numbered, y, i + 1)]) <= |shuffled|
    ensures DealtResources(Flatten(filled[y := filled[y][i := c]])[..Rank(numbered, y, i + 1)])
      == shuffled[..if TokenOf(numbered[y][i]) == 1 then index else index + 1]
  {
    var filled' := filled[y := filled[y][i := c]];
    var r := Rank(numbered, y, i);
    var index' := if TokenOf(numbered[y][i]) == 1 then index else index + 1;
    RankBound(numbered, y, i + 1);
    FlattenAt(numbered, y, i);
    FlattenUpdate(filled, y, i, c);
    assert Flatten(numbered)[..r + 1] == Flatten(numbered)[..r] + [numbered[y][i]];
    NonDesertAppend(Flatten(numbered)[..r], [numbered[y][i]]);
    assert Flatten(filled')[..r + 1] == Flatten(filled)[..r] + [c];
    DealtAppend(Flatten(filled)[..r], [c]);
    if TokenOf(numbered[y][i]) != 1 {
      assert shuffled[..index + 1] == shuffled[..index] + [shuffled[index]];
    }
    assert DealtResources(Flatten(filled')[..r + 1]) == shuffled[..index'];
  }

  lemma OverlayNextRow(filled: Grid, numbered: Grid, shuffled: seq<Resource>, y: int, index: int)
    requires 0 <= y < |numbered| && OverlaidUpTo(filled, numbered, shuffled, y, |numbered[y]|, index)
    ensures OverlaidUpTo(filled, numbered, shuffled, y + 1, 0, index)
  {
    RankNextRow(filled, y);
    RankNextRow(numbered, y);
    if y + 1 < |numbered| {
      RankBound(numbered, y + 1, 0);
    }
    forall y', x' | InBounds(filled, y', x')
      ensures Before(y', x', y, |numbered[y]|) == Before(y', x', y + 1, 0)
    {
    }
  }

  lemma OverlayEnd(filled: Grid, numbered: Grid, shuffled: seq<Resource>, index: int)
    requires OverlaidUpTo(filled, numbered, shuffled, |numbered|, 0, index)
    ensures forall y, x :: InBounds(filled, y, x) ==> Overlaid(filled[y][x], numbered[y][x])
    ensures index == NonDesertCount(Flatten(numbered)) <= |shuffled|
    ensures DealtResources(Flatten(filled)) == shuffled[..NonDesertCount(Flatten(numbered))]
  {
    RankEnd(numbered);
    assert Flatten(numbered)[..|Flatten(numbered)|] == Flatten(numbered);
    assert Flatten(filled)[..|Flatten(filled)|] == Flatten(filled);
    forall y, x | InBounds(filled, y, x) ensures Overlaid(filled[y][x], numbered[y][x]) {
      assert Before(y, x, |numbered|, 0);
    }
  }

  /** A cell not holding 1 reads entry `index` of the list: the board has more than `index` such cells. */
  lemma OverlayStops(filled: Grid, numbered: Grid, shuffled: seq<Resource>, y: int, i: int, index: int)
    requires OverlaidUpTo(filled, numbered, shuffled, y, i, index) && InBounds(numbered, y, i)
    requires TokenOf(numbered[y][i]) != 1
    ensures NonDesertCount(Flatten(numbered)) > index
    ensures forall y, x :: InBounds(filled, y, x) ==> filled[y][x] != Empty && TokenOf(filled[y][x]) == TokenOf(numbered[y][x])
  {
    var r := Rank(numbered, y, i);
    var flat := Flatten(numbered);
    FlattenAt(numbered, y, i);
    assert flat[..r + 1] == flat[..r] + [numbered[y][i]];
    NonDesertAppend(flat[..r], [numbered[y][i]]);
    assert flat == flat[..r + 1] + flat[r + 1..];
    NonDesertAppend(flat[..r + 1], flat[r + 1..]);
    forall y', x' | InBounds(filled, y', x')
      ensures filled[y'][x'] != Empty && TokenOf(filled[y'][x']) == TokenOf(numbered[y'][x'])
    {
    }
  }

  /** Boards with the same tokens cell by cell have the same token list and desert count. */
  lemma {:induction false} SameTokens(a: Grid, b: Grid)
    requires SameShape(a, b)
    requires forall y, x :: InBounds(a, y, x) ==> (a[y][x] == Empty <==> b[y][x] == Empty) && TokenOf(a[y][x]) == TokenOf(b[y][x])
    ensures Tokens(Flatten(a)) == Tokens(Flatten(b))
    ensures NonDesertCount(Flatten(a)) == NonDesertCount(Flatten(b))
  {
    if a != [] {
      SameTokens(a[1..], b[1..]);
      SameTokensRow(a[0], b[0]);
      TokensAppend(a[0], Flatten(a[1..]));
      TokensAppend(b[0], Flatten(b[1..]));
      NonDesertAppend(a[0], Flatten(a[1..]));
      NonDesertAppend(b[0], Flatten(b[1..]));
    }
  }

  lemma {:induction false} SameTokensRow(a: seq<Cell>, b: seq<Cell>)
    requires |a| == |b|
    requires forall x :: 0 <= x < |a| ==> (a[x] == Empty <==> b[x] == Empty) && TokenOf(a[x]) == TokenOf(b[x])
    ensures Tokens(a) == Tokens(b) && NonDesertCount(a) == NonDesertCount(b)
  {
    if a != [] {
      SameTokensRow(a[1..], b[1..]);
    }
  }

  /** Every cell carries its token, a resource and that resource's colour; token 1 always means desert. */
  ghost predicate FullyResourced(b: Grid)
  {
    forall y, x :: InBounds(b, y, x) ==>
      b[y][x].Resourced? && b[y][x].color == ResourceColor(b[y][x].res) && (b[y][x].token == 1 ==> b[y][x].res == Desert)
  }

  /**
   * fill_board(board, numbers, resource_list) on a fresh skeleton. Whatever the
   * outcome, the placed tokens and the remaining pool make up the original
   * pool. NoValidNumber: stuck at a cell, the earlier cells overwritten.
   * Filled: every cell resourced, no inspected pair of cells both red, and the
   * non-desert cells took the shuffled list in row-major order.
   * MissingColor: exactly when one of the entries the loop reads has no colour
   * in the script's table. ResourceListExhausted: exactly when every entry has
   * one and more cells hold a token other than 1 than there are resources.
   */
  method FillBoard(script: Script, board: Grid, numbers: seq<int>, resources: seq<Resource>, picks: seq<seq<nat>>, shuffled: seq<Resource>)
    returns (outcome: FillOutcome, filled: Grid, rest: seq<int>)
    requires IsBlank(board) && PicksFit(picks, board)
    requires multiset(shuffled) == multiset(resources)
    ensures SameShape(filled, board)
    ensures Conserved(filled, rest, numbers)
    ensures outcome == NoValidNumber ==> exists y, x :: StuckAt(filled, rest, y, x)
    ensures outcome != NoValidNumber ==> forall y, x :: InBounds(filled, y, x) ==> filled[y][x] != Empty
    ensures outcome != NoValidNumber ==> outcome == OverlayOutcome(script, shuffled, NonDesertCount(Flatten(filled)))
    ensures outcome == Filled ==> FullyResourced(filled) && RedApartInspected(filled)
    ensures outcome == Filled ==> NonDesertCount(Flatten(filled)) <= |shuffled|
    ensures outcome == Filled ==> DealtResources(Flatten(filled)) == shuffled[..NonDesertCount(Flatten(filled))]
  {
    var ok, numbered;
    ok, numbered, rest := NumberCells(board, numbers, picks);
    if !ok {
      return NoValidNumber, numbered, rest;
    }
    AllNumbered(numbered);
    AdmissibleBoardRedApart(numbered);
    outcome, filled := OverlayResources(script, numbered, shuffled);
    SameTokens(filled, numbered);
    if outcome == Filled {
      RedApartKept(numbered, filled);
    }
  }

  lemma AllNumbered(numbered: Grid)
    requires NumberedUpTo(numbered, |numbered|, 0)
    ensures forall y, x :: InBounds(numbered, y, x) ==> numbered[y][x].Numbered?
  {
    forall y, x | InBounds(numbered, y, x) ensures numbered[y][x].Numbered? {
      assert Before(y, x, |numbered|, 0);
    }
  }

  /** The overlay keeps every token, so it keeps red tiles apart. */
  lemma RedApartKept(numbered: Grid, filled: Grid)
    requires SameShape(filled, numbered) && RedApartInspected(numbered)
    requires forall y, x :: InBounds(numbered, y, x) ==> numbered[y][x].Numbered?
    requires forall y, x :: InBounds(filled, y, x) ==> filled[y][x] != Empty && TokenOf(filled[y][x]) == TokenOf(numbered[y][x])
    ensures RedApartInspected(filled)
  {
    forall y, x, y', x' | InBounds(filled, y, x) && InBounds(filled, y', x') && Inspected(y, x, y', x')
      ensures !(Red(filled[y][x]) && Red(filled[y'][x']))
    {
      assert Red(filled[y][x]) == Red(numbered[y][x]);
      assert Red(filled[y'][x']) == Red(numbered[y'][x']);
    }
  }

  /** One attempt's random draws: the choices for random.choice and the shuffled resource list. */
  datatype Attempt = Attempt(picks: seq<seq<nat>>, shuffled: seq<Resource>)

  /**
   * The retry in main (Basegame_3-4_WithPorts.py:232-235, Basegame_5-6.py:171-174),
   * bounded by the list of attempts: each attempt starts from a fresh skeleton and
   * fresh copies of both lists, so the board it returns answers for the full token
   * pool and the full resource list. It stops at the first attempt that does not
   * return False (an IndexError or a KeyError stops the script as well).
   */
  method Generate(script: Script, shape: seq<nat>, numbers: seq<int>, resources: seq<Resource>, attempts: seq<Attempt>)
    returns (outcome: FillOutcome, board: Grid, tries: nat)
    requires forall i :: 0 <= i < |attempts| ==>
      PicksFit(attempts[i].picks, GenerateBoard(shape)) && multiset(attempts[i].shuffled) == multiset(resources)
    ensures HasShape(board, shape)
    ensures tries <= |attempts|
    ensures outcome == NoValidNumber ==> tries == |attempts|
    ensures outcome != NoValidNumber ==> forall y, x :: InBounds(board, y, x) ==> board[y][x] != Empty
    ensures outcome != NoValidNumber ==> multiset(Tokens(Flatten(board))) <= multiset(numbers)
    ensures outcome != NoValidNumber && Total(shape) == |numbers| ==> multiset(Tokens(Flatten(board))) == multiset(numbers)
    ensures outcome == ResourceListExhausted <==>
      outcome != NoValidNumber && NonDesertCount(Flatten(board)) > |resources| && (script == FiveSix || Sea !in resources)
    ensures outcome == MissingColor ==> script == ThreeFour && Sea in resources
    ensures outcome == Filled ==> FullyResourced(board) && RedApartInspected(board)
    ensures outcome == Filled ==> multiset(DealtResources(Flatten(board))) <= multiset(resources)
    ensures outcome == Filled && NonDesertCount(Flatten(board)) == |resources| ==>
      multiset(DealtResources(Flatten(board))) == multiset(resources)
  {
    board := GenerateBoard(shape);
    outcome := NoValidNumber;
    tries := 0;
    while tries < |attempts| && outcome == NoValidNumber
      invariant tries <= |attempts|
      invariant HasShape(board, shape)
      invariant outcome == NoValidNumber ==> board == GenerateBoard(shape)
      invariant outcome != NoValidNumber ==> forall y, x :: InBounds(board, y, x) ==> board[y][x] != Empty
      invariant outcome != NoValidNumber ==> multiset(Tokens(Flatten(board))) <= multiset(numbers)
      invariant outcome != NoValidNumber && Total(shape) == |numbers| ==> multiset(Tokens(Flatten(board))) == multiset(numbers)
      invariant outcome == ResourceListExhausted <==>
        outcome != NoValidNumber && NonDesertCount(Flatten(board)) > |resources| && (script == FiveSix || Sea !in resources)
      invariant outcome == MissingColor ==> script == ThreeFour && Sea in resources
      invariant outcome == Filled ==> FullyResourced(board) && RedApartInspected(board)
      invariant outcome == Filled ==> multiset(DealtResources(Flatten(board))) <= multiset(resources)
      invariant outcome == Filled && NonDesertCount(Flatten(board)) == |resources| ==>
        multiset(DealtResources(Flatten(board))) == multiset(resources)
    {
      var attempt := attempts[tries];
      var filled, rest;
      outcome, filled, rest := FillBoard(script, GenerateBoard(shape), numbers, resources, attempt.picks, attempt.shuffled);
      tries := tries + 1;
      if outcome == NoValidNumber {
        board := GenerateBoard(shape);
      } else {
        board := filled;
        TokensAnswer(shape, numbers, board, rest);
        OutcomeBySea(script, attempt.shuffled, resources, NonDesertCount(Flatten(board)));
        if outcome == Filled {
          DealtAnswer(resources, attempt.shuffled, board);
        }
      }
    }
  }

  /** An attempt that got past the numbering holds tokens of the full pool, all of it when the board has room for it. */
  lemma TokensAnswer(shape: seq<nat>, numbers: seq<int>, board: Grid, rest: seq<int>)
    requires SameShape(board, GenerateBoard(shape)) && Conserved(board, rest, numbers)
    requires forall y, x :: InBounds(board, y, x) ==> board[y][x] != Empty
    ensures HasShape(board, shape)
    ensures multiset(Tokens(Flatten(board))) <= multiset(numbers)
    ensures Total(shape) == |numbers| ==> multiset(Tokens(Flatten(board))) == multiset(numbers)
  {
    AllCarryTokens(board);
    FlattenLength(board, shape);
  }

  /** A filled board dealt a prefix of the shuffled list: resources of the full list, all of them when counts agree. */
  lemma DealtAnswer(resources: seq<Resource>, shuffled: seq<Resource>, board: Grid)
    requires multiset(shuffled) == multiset(resources)
    requires NonDesertCount(Flatten(board)) <= |shuffled|
    requires DealtResources(Flatten(board)) == shuffled[..NonDesertCount(Flatten(board))]
    ensures multiset(DealtResources(Flatten(board))) <= multiset(resources)
    ensures NonDesertCount(Flatten(board)) == |resources| ==> multiset(DealtResources(Flatten(board))) == multiset(resources)
  {
    var k := NonDesertCount(Flatten(board));
    assert shuffled == shuffled[..k] + shuffled[k..];
    if k == |resources| {
      assert |shuffled| == |multiset(shuffled)| == |resources|;
      assert shuffled[..k] == shuffled;
    }
  }

  /**
   * Only sea lacks a colour, and only in the 3-4 player script: a KeyError
   * means the list holds sea, and the list runs out exactly when it is too
   * short and no sea can be missing a colour.
   */
  lemma OutcomeBySea(script: Script, shuffled: seq<Resource>, resources: seq<Resource>, k: int)
    requires multiset(shuffled) == multiset(resources)
    ensures OverlayOutcome(script, shuffled, k) == MissingColor ==> script == ThreeFour && Sea in resources
    ensures OverlayOutcome(script, shuffled, k) == ResourceListExhausted <==>
      k > |resources| && (script == FiveSix || Sea !in resources)
  {
    assert |shuffled| == |multiset(shuffled)| == |resources|;
    if !ColoredUpTo(script, shuffled, k) {
      var j :| 0 <= j < k && j < |shuffled| && !HasColor(script, shuffled[j]);
      assert shuffled[j] in multiset(resources);
    }
    if k > |shuffled| && script == ThreeFour && Sea in resources {
      assert Sea in multiset(shuffled);
      var j :| 0 <= j < |shuffled| && shuffled[j] == Sea;
      assert !ColoredUpTo(script, shuffled, k);
    }
  }

  lemma AllCarryTokens(b: Grid)
    requires forall y, x :: InBounds(b, y, x) ==> b[y][x] != Empty
    ensures |Tokens(Flatten(b))| == |Flatten(b)|
    ensures NonDesertCount(Flatten(b)) + multiset(Tokens(Flatten(b)))[1] == |Flatten(b)|
  {
    FlattenAll(b, c => c != Empty);
    NonDesertPlusOnes(Flatten(b));
  }
}
