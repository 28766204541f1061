/**
 * The data of the two `main` functions and what a generated board then
 * guarantees: the 3-4 player board (Basegame_3-4_WithPorts.py:221-235) and the
 * 5-6 player board (Basegame_5-6.py:160-174).
 */
module Variants {
  import opened Board
  import opened Constraints
  import opened Fill

  /** The token pool of the 3-4 player board; the 1 is the desert. */
  const SmallNumbers: seq<int> := [1, 2, 3, 3, 4, 4, 5, 5, 6, 6, 8, 8, 9, 9, 10, 10, 11, 11, 12]

  /** n copies of one resource, a run of the scripts' resource lists. */
  function Copies(r: Resource, n: nat): (s: seq<Resource>)
    ensures |s| == n && forall i :: 0 <= i < n ==> s[i] == r
  {
    seq(n, _ => r)
  }

  lemma {:induction false} CopiesBag(r: Resource, n: nat)
    ensures multiset(Copies(r, n)) == multiset{}[r := n]
  {
    if n > 0 {
      CopiesBag(r, n - 1);
      assert Copies(r, n) == Copies(r, n - 1) + [r];
    }
  }

  /** The resource list of the 3-4 player board, in the script's order. */
  const SmallResources: seq<Resource> := Copies(Wood, 4) + Copies(Sheep, 4) + Copies(Brick, 3) + Copies(Wheat, 4) + Copies(Ore, 3)

  /** The token pool of the 5-6 player board, with two deserts. */
  const LargeNumbers: seq<int> :=
    [1, 1, 2, 2, 3, 3, 3, 4, 4, 4, 5, 5, 5, 6, 6, 6, 8, 8, 8, 9, 9, 9, 10, 10, 10, 11, 11, 11, 12, 12]

  /** The resource list of the 5-6 player board, in the script's order. */
  const LargeResources: seq<Resource> := Copies(Wood, 6) + Copies(Sheep, 6) + Copies(Brick, 5) + Copies(Wheat, 6) + Copies(Ore, 5)

  /** The 3-4 player data: one 1 among 19 tokens, and 18 resources none of them sea. */
  lemma SmallNumbersData()
    ensures |SmallNumbers| == 19 && multiset(SmallNumbers)[1] == 1
  {
    var s, rest := SmallNumbers, SmallNumbers[1..];
    assert s == [1] + rest;
    forall k | 0 <= k < |rest| ensures rest[k] != 1 {
      assert rest[k] == s[k + 1];
    }
    assert 1 !in multiset(rest);
  }

  lemma SmallResourcesData()
    ensures |SmallResources| == 18 && Sea !in multiset(SmallResources)
    ensures multiset(SmallResources) == multiset{}[Wood := 4][Sheep := 4][Brick := 3][Wheat := 4][Ore := 3]
  {
    CopiesBag(Wood, 4);
    CopiesBag(Sheep, 4);
    CopiesBag(Brick, 3);
    CopiesBag(Wheat, 4);
    CopiesBag(Ore, 3);
  }

  /** The 5-6 player data: two 1s among 30 tokens, and 28 resources none of them sea. */
  lemma LargeNumbersData()
    ensures |LargeNumbers| == 30 && multiset(LargeNumbers)[1] == 2
  {
    var s, rest := LargeNumbers, LargeNumbers[2..];
    assert s == [1, 1] + rest;
    forall k | 0 <= k < |rest| ensures rest[k] != 1 {
      assert rest[k] == s[k + 2];
    }
    assert 1 !in multiset(rest);
  }

  lemma LargeResourcesData()
    ensures |LargeResources| == 28 && Sea !in multiset(LargeResources)
    ensures multiset(LargeResources) == multiset{}[Wood := 6][Sheep := 6][Brick := 5][Wheat := 6][Ore := 5]
  {
    CopiesBag(Wood, 6);
    CopiesBag(Sheep, 6);
    CopiesBag(Brick, 5);
    CopiesBag(Wheat, 6);
    CopiesBag(Ore, 5);
  }

  /** The 3-4 player data fits its board: one token per cell and one resource per token other than 1. */
  lemma SmallFits()
    ensures Total(SmallShape) == |SmallNumbers| && RowsStepByOne(GenerateBoard(SmallShape))
    ensures multiset(SmallNumbers)[1] == 1 && |SmallResources| == |SmallNumbers| - 1
    ensures Sea !in SmallResources
  {
    SkeletonSizes();
    SmallNumbersData();
    SmallResourcesData();
  }

  /** The 5-6 player data fits its board: one token per cell and one resource per token other than 1. */
  lemma LargeFits()
    ensures Total(LargeShape) == |LargeNumbers| && RowsStepByOne(GenerateBoard(LargeShape))
    ensures multiset(LargeNumbers)[1] == 2 && |LargeResources| == |LargeNumbers| - 2
    ensures Sea !in LargeResources
  {
    SkeletonSizes();
    LargeNumbersData();
    LargeResourcesData();
  }

  /** The skeletons have 19 and 30 placeholder cells, and their rows step by one. */
  lemma SkeletonSizes()
    ensures |Flatten(GenerateBoard(SmallShape))| == Total(SmallShape) == 19
    ensures |Flatten(GenerateBoard(LargeShape))| == Total(LargeShape) == 30
    ensures RowsStepByOne(GenerateBoard(SmallShape)) && RowsStepByOne(GenerateBoard(LargeShape))
  {
    FlattenLength(GenerateBoard(SmallShape), SmallShape);
    FlattenLength(GenerateBoard(LargeShape), LargeShape);
    SmallTotal();
    LargeTotal();
    SmallSteps();
    LargeSteps();
  }

  lemma SmallSteps()
    ensures RowsStepByOne(GenerateBoard(SmallShape))
  {
    var b := GenerateBoard(SmallShape);
    forall y | 0 < y < |b| ensures |b[y - 1]| - 1 <= |b[y]| <= |b[y - 1]| + 1 {
      assert |b[y]| == SmallShape[y] && |b[y - 1]| == SmallShape[y - 1];
    }
  }

  lemma LargeSteps()
    ensures RowsStepByOne(GenerateBoard(LargeShape))
  {
    var b := GenerateBoard(LargeShape);
    forall y | 0 < y < |b| ensures |b[y - 1]| - 1 <= |b[y]| <= |b[y - 1]| + 1 {
      assert |b[y]| == LargeShape[y] && |b[y - 1]| == LargeShape[y - 1];
    }
  }

  lemma SmallTotal()
    ensures Total(SmallShape) == 19
  {
    var s := SmallShape;
    assert s[1..] == [4, 5, 4, 3];
    assert s[1..][1..] == [5, 4, 3];
    assert s[1..][1..][1..] == [4, 3];
    assert s[1..][1..][1..][1..] == [3];
    assert s[1..][1..][1..][1..][1..] == [];
  }

  lemma LargeTotal()
    ensures Total(LargeShape) == 30
  {
    var s := LargeShape;
    assert s[1..] == [4, 5, 6, 5, 4, 3];
    assert s[1..][1..] == [5, 6, 5, 4, 3];
    assert s[1..][1..][1..] == [6, 5, 4, 3];
    assert s[1..][1..][1..][1..] == [5, 4, 3];
    assert s[1..][1..][1..][1..][1..] == [4, 3];
    assert s[1..][1..][1..][1..][1..][1..] == [3];
    assert s[1..][1..][1..][1..][1..][1..][1..] == [];
  }

  /** A board with a given shape steps by one exactly when its shape does. */
  lemma StepsLikeShape(b: Grid, shape: seq<nat>)
    requires HasShape(b, shape)
    ensures RowsStepByOne(b) == RowsStepByOne(GenerateBoard(shape))
  {
  }

  /**
   * What a completed fill guarantees for a pool of tokens and a resource list:
   * with as many cells as tokens and as many resources as tokens other than 1,
   * the board holds every token once, every resource once, one desert per 1,
   * and no two touching tiles are both red.
   */
  lemma FilledBoardContents(b: Grid, shape: seq<nat>, numbers: seq<int>, resources: seq<Resource>, deserts: nat)
    requires HasShape(b, shape) && RowsStepByOne(GenerateBoard(shape))
    requires FullyResourced(b) && RedApartInspected(b)
    requires multiset(Tokens(Flatten(b))) == multiset(numbers)
    requires |Flatten(b)| == |numbers| && multiset(numbers)[1] == deserts
    requires multiset(DealtResources(Flatten(b))) == multiset(resources)
    ensures RedApartOnHexGrid(b)
    ensures ResourceBag(Flatten(b)) == multiset(resources) + multiset{}[Desert := deserts]
    ensures NonDesertCount(Flatten(b)) == |numbers| - deserts
  {
    StepsLikeShape(b, shape);
    RedApartOnHexGridFromInspected(b);
    FlattenAll(b, (c: Cell) => c.Resourced? && (c.token == 1 ==> c.res == Desert));
    FlattenAll(b, c => c != Empty);
    ResourceBagSplit(Flatten(b));
    NonDesertPlusOnes(Flatten(b));
  }

  /**
   * The retry loop of main on data that fits its board: as many tokens as
   * cells, and as many resources as tokens other than 1. The resource list then
   * never runs out, a KeyError needs a sea the script has no colour for, and a
   * board, once found, holds every token, every resource with its colour, one
   * desert per 1 and no two touching red tiles.
   */
  method Play(script: Script, shape: seq<nat>, numbers: seq<int>, resources: seq<Resource>, deserts: nat, attempts: seq<Attempt>)
    returns (outcome: FillOutcome, board: Grid)
    requires Total(shape) == |numbers| && RowsStepByOne(GenerateBoard(shape))
    requires multiset(numbers)[1] == deserts && |resources| == |numbers| - deserts
    requires forall i :: 0 <= i < |attempts| ==>
      PicksFit(attempts[i].picks, GenerateBoard(shape)) && multiset(attempts[i].shuffled) == multiset(resources)
    ensures outcome != ResourceListExhausted
    ensures script == FiveSix || Sea !in resources ==> outcome != MissingColor
    ensures HasShape(board, shape)
    ensures outcome == Filled ==> multiset(Tokens(Flatten(board))) == multiset(numbers)
    ensures outcome == Filled ==> FullyResourced(board) && RedApartOnHexGrid(board)
    ensures outcome == Filled ==> ResourceBag(Flatten(board)) == multiset(resources) + multiset{}[Desert := deserts]
    ensures outcome == Filled ==> forall r :: r in ResourceBag(Flatten(board)) ==> r in resources || r == Desert
  {
    var tries;
    outcome, board, tries := Generate(script, shape, numbers, resources, attempts);
    FlattenLength(board, shape);
    if outcome != NoValidNumber {
      AllCarryTokens(board);
      if outcome == Filled {
        FilledBoardContents(board, shape, numbers, resources, deserts);
      }
    }
  }

  /**
   * main of the 3-4 player script: neither the IndexError nor the KeyError can
   * occur, since the list holds no sea and suffices for the board; a board,
   * once found, has the 19 tokens, one desert, 4 wood, 4 sheep, 3 brick, 4 wheat
   * and 3 ore, no sea, and no red neighbours.
   */
  method PlaySmall(attempts: seq<Attempt>) returns (outcome: FillOutcome, board: Grid)
    requires forall i :: 0 <= i < |attempts| ==>
      PicksFit(attempts[i].picks, GenerateBoard(SmallShape)) && multiset(attempts[i].shuffled) == multiset(SmallResources)
    ensures outcome != ResourceListExhausted && outcome != MissingColor
    ensures HasShape(board, SmallShape)
    ensures outcome == Filled ==> multiset(Tokens(Flatten(board))) == multiset(SmallNumbers)
    ensures outcome == Filled ==> FullyResourced(board) && RedApartOnHexGrid(board)
    ensures outcome == Filled ==> ResourceBag(Flatten(board)) == multiset(SmallResources) + multiset{Desert}
    ensures outcome == Filled ==> Sea !in ResourceBag(Flatten(board))
  {
    SmallFits();
    outcome, board := Play(ThreeFour, SmallShape, SmallNumbers, SmallResources, 1, attempts);
    DesertBags();
  }

  /**
   * main of the 5-6 player script: the same on 30 cells, with two deserts and
   * 6 wood, 6 sheep, 5 brick, 6 wheat and 5 ore; the token pool is used up.
   */
  method PlayLarge(attempts: seq<Attempt>) returns (outcome: FillOutcome, board: Grid)
    requires forall i :: 0 <= i < |attempts| ==>
      PicksFit(attempts[i].picks, GenerateBoard(LargeShape)) && multiset(attempts[i].shuffled) == multiset(LargeResources)
    ensures outcome != ResourceListExhausted && outcome != MissingColor
    ensures HasShape(board, LargeShape)
    ensures outcome == Filled ==> multiset(Tokens(Flatten(board))) == multiset(LargeNumbers)
    ensures outcome == Filled ==> FullyResourced(board) && RedApartOnHexGrid(board)
    ensures outcome == Filled ==> ResourceBag(Flatten(board)) == multiset(LargeResources) + multiset{Desert, Desert}
    ensures outcome == Filled ==> Sea !in ResourceBag(Flatten(board))
  {
    LargeFits();
    outcome, board := Play(FiveSix, LargeShape, LargeNumbers, LargeResources, 2, attempts);
    DesertBags();
  }

  lemma DesertBags()
    ensures multiset{}[Desert := 1] == multiset{Desert}
    ensures multiset{}[Desert := 2] == multiset{Desert, Desert}
  {
  }
}
