# Catan board generator, modelled in Dafny

This project models how the Catan board scripts build a board.

- **Skeleton.** `generate_board` builds an empty grid of rows: 3-4-5-4-3 cells for 3-4 players, 3-4-5-6-5-4-3 for 5-6 players.
- **Numbering.** `fill_board` gives every cell a number token. It picks at random among the tokens `check_constraints` accepts, a rule that keeps 6s and 8s apart.
- **Resources.** `fill_board` then deals the shuffled resource list over the cells in row-major order. Token 1 always marks the desert.
- **Retry.** `main` restarts from a fresh skeleton until `fill_board` succeeds.
- **Drawing.** `assign_resources` pops hexagon centres and board cells together to draw the tiles.
- **Harbours.** `create_ports` pairs the nine harbour triangles with the harbour colour list, in "standard" or "random" mode.
- **Capped assignment.** The prototype `assign_resource` walks the hexagon centres. For each one it pops a resource from a shuffled list of resource names, refilling the list with a fresh shuffle when it runs out. It maps the centre to that resource only while the resource is under a cap.

Modules:

- `Board` (board.dfy): cells, grids, row-major flattening, the token and resource views of a board.
- `Constraints` (constraints.dfy): `check_constraints`, and how the cells it inspects relate to the hexagonal layout.
- `Fill` (fill.dfy): the two loops of `fill_board` as methods over the board value, and the retry of `main`.
- `Variants` (variants.dfy): the token and resource lists of both scripts, and what a generated board holds.
- `Pairing` (pairing.dfy): the pop-and-draw loop of `assign_resources`.
- `Ports` (ports.dfy): `create_ports`.
- `CappedAssignment` (capped.dfy): `assign_resource`, with a functional specification of its loop and properties of the mapping it builds.

Randomness is a parameter:

- `random.choice` is a grid of picks: cell (y, x) takes entry `picks[y][x] % |valid|` of its valid tokens.
- Each `random.shuffle` is a parameter that may return any reordering of its argument.

Every outcome the models state therefore holds for every choice the scripts can make.

Python exceptions become outcomes, not preconditions:

- the `IndexError` of an exhausted resource list;
- a `pop` from an empty list;
- an unpacking that fails;
- an unbound colour;
- a `KeyError`: a resource missing from the script's `resource_colors` (sea in the 3-4 player script), or a name missing from a dictionary of the prototype.

The two board scripts differ in their colour tables: only the 5-6 player `resource_colors` has a "sea" key. The fill is therefore parameterised by the script whose table it uses.

## Model

| member | source | states |
|---|---|---|
| Board.GenerateBoard | Basegame_3-4_WithPorts.py:100-108 | The skeleton has the requested row lengths and every cell is empty (same code in Basegame_5-6.py). |
| Board.FlattenLength | Basegame_3-4_WithPorts.py:146-153 | Reading a board row by row visits as many cells as the row lengths add up to. |
| Board.FlattenUpdate | Basegame_3-4_WithPorts.py:141 | Writing cell (y, x) changes exactly position Rank(y, x) of the row-major reading and keeps that position. |
| Board.TokensPlace | Basegame_3-4_WithPorts.py:141-142 | Putting token v on an empty cell adds exactly one v to the bag of tokens on the board. |
| Board.NonDesertPlusOnes | Basegame_3-4_WithPorts.py:148-153 | On a fully numbered board, the cells that take a resource plus the cells holding 1 are all the cells. |
| Board.ResourceBagSplit | Basegame_3-4_WithPorts.py:148-153 | The resources on a dealt board are the dealt ones plus one desert per token 1. |
| Constraints.CheckConstraints | Basegame_3-4_WithPorts.py:111-132 | Only a 6 or an 8 is ever rejected (same code in Basegame_5-6.py:76-97). |
| Constraints.CheckConstraintsIsRule | Basegame_3-4_WithPorts.py:111-132 | check_constraints accepts a value exactly when it is not 6 or 8, or when no in-bounds cell among the left neighbour and columns x-1, x, x+1 of the row above holds 6 or 8. The `6 in board[y]` guard never changes the answer. |
| Constraints.AdmissibleFrame | Basegame_3-4_WithPorts.py:136-142 | The verdict for a cell depends only on the cells before it in row-major order, so later writes do not change it. |
| Constraints.HexNeighbourInspected | Basegame_3-4_WithPorts.py:85-97 | On rows whose lengths step by one, as calculate_hex_centers lays them out, every pair of touching hexagons has one of them among the cells inspected for the other. |
| Constraints.RedApartOnHexGridFromInspected | Basegame_3-4_WithPorts.py:111-132 | If no inspected pair holds two red tokens, then no two touching hexagons both hold a 6 or an 8. |
| Constraints.AdmissibleBoardRedApart | Basegame_3-4_WithPorts.py:136-142 | A fully numbered board on which every token passes the neighbour rule has no inspected red pair. |
| Fill.ValidNumbers | Basegame_3-4_WithPorts.py:138 | A value is valid exactly when it is in the pool and check_constraints accepts it. |
| Fill.RemoveFirst | Basegame_3-4_WithPorts.py:142 | `numbers.remove(v)` takes exactly one v out of the pool. |
| Fill.NumberCells | Basegame_3-4_WithPorts.py:136-142 | The placed tokens plus the remaining pool always equal the original pool. On success every cell is numbered and its token passes the neighbour rule. On failure some cell had no valid number left. |
| Fill.PlaceToken | Basegame_3-4_WithPorts.py:141-142 | Placing an accepted token from the pool extends the numbered prefix and keeps the pool conserved. |
| Fill.OverlayOutcome | Basegame_3-4_WithPorts.py:146-153 | The resource loop ends in a KeyError exactly when one of the entries it reaches has no colour in the script's table. Otherwise it ends in an IndexError when the list is shorter than the cells not holding 1, and completes otherwise. |
| Fill.OverlayResources | Basegame_3-4_WithPorts.py:144-156 | Tokens are kept and the outcome is the one OverlayOutcome predicts: a KeyError at the first uncoloured entry, an IndexError when the list runs out, or success. On success the cells without token 1 take the list's prefix in row-major order, cells with token 1 become the desert, and each cell gets its resource's colour. |
| Fill.OutcomeAt | Basegame_3-4_WithPorts.py:150-153 | Reading entry index for a cell not holding 1 raises IndexError past the end and KeyError on an uncoloured entry, and dealing every needed entry completes the loop. |
| Fill.OverlayEnd | Basegame_3-4_WithPorts.py:146-153 | After the overlay loop, the dealt resources are the first NonDesertCount entries of the shuffled list. |
| Fill.OverlayStops | Basegame_3-4_WithPorts.py:151-152 | When the loop reads `resource_list[index]` for a cell not holding 1, the board has more than index cells not holding 1. |
| Fill.SameTokens | Basegame_3-4_WithPorts.py:146-153 | The overlay leaves the token sequence and the count of cells that take a resource unchanged. |
| Fill.FillBoard | Basegame_3-4_WithPorts.py:135-156 | The token pool is conserved. False means a cell had no valid number. Otherwise the outcome is the one OverlayOutcome predicts from the script's colour table, so the KeyError and the IndexError happen exactly when they should. A filled board has every cell resourced and coloured and no red pair inspected, and its non-desert cells took the shuffled list in order (same code in Basegame_5-6.py:99-120). |
| Fill.RedApartKept | Basegame_3-4_WithPorts.py:146-153 | The overlay keeps every token, so it keeps the red tokens apart. |
| Fill.Generate | Basegame_3-4_WithPorts.py:232-235 | Every retry starts from a fresh skeleton and fresh copies, so the returned board has the requested shape and its tokens are the whole pool when the shape fits. A KeyError needs a sea in the list of the 3-4 player script. The IndexError happens exactly when the list is too short and has no such sea. A filled board is red-apart and its dealt resources come from the resource list. |
| Fill.OutcomeBySea | Basegame_3-4_WithPorts.py:24-31 | Whatever the shuffle, only a sea in the list can raise the KeyError, and only in the 3-4 player script. The list runs out exactly when it is too short and no sea raises first. |
| Fill.TokensAnswer | Basegame_3-4_WithPorts.py:234 | A fully numbered fresh board holds a sub-bag of the pool, and the whole pool when cells and tokens are equal in number. |
| Fill.DealtAnswer | Basegame_3-4_WithPorts.py:144-153 | Resources dealt from a shuffle of the list form a sub-bag of the list, and the whole list when every entry was dealt. |
| Variants.SmallNumbersData | Basegame_3-4_WithPorts.py:223 | Nineteen tokens, one of them the desert's 1. |
| Variants.SmallResourcesData | Basegame_3-4_WithPorts.py:225-230 | Eighteen resources: 4 wood, 4 sheep, 3 brick, 4 wheat, 3 ore, no sea. |
| Variants.LargeNumbersData | Basegame_5-6.py:162 | Thirty tokens, two of them 1. |
| Variants.LargeResourcesData | Basegame_5-6.py:164-169 | Twenty-eight resources: 6 wood, 6 sheep, 5 brick, 6 wheat, 5 ore, no sea. |
| Variants.SkeletonSizes | Basegame_5-6.py:66-74 | The skeletons have 19 and 30 cells, and their row lengths step by one. |
| Variants.SmallFits | Basegame_3-4_WithPorts.py:221-235 | The 3-4 player data fit the skeleton: one token per cell and one resource per cell without a 1. |
| Variants.LargeFits | Basegame_5-6.py:160-174 | The 5-6 player data fit the skeleton in the same way. |
| Variants.FilledBoardContents | Basegame_3-4_WithPorts.py:232-235 | A filled board holding exactly the pool and the list has no two touching red hexagons, and its resources are the list plus one desert per 1. |
| Variants.Play | Basegame_3-4_WithPorts.py:232-235 | With fitting data the IndexError cannot happen, and the KeyError cannot happen unless the 3-4 player list holds sea. A filled board holds every token, gives every cell its resource's colour with token 1 on the desert, keeps reds apart on the hex grid, and holds exactly the resource list plus the deserts. |
| Variants.PlaySmall | Basegame_3-4_WithPorts.py:221-235 | main of the 3-4 player script: neither exception occurs. The board has 3-4-5-4-3 rows, every cell coloured, and holds exactly the 19 tokens, the 18 resources and one desert, and no sea. |
| Variants.PlayLarge | Basegame_5-6.py:160-174 | main of the 5-6 player script: neither exception occurs. Every cell is coloured, and the board holds exactly the 30 tokens, the 28 resources and two deserts, and no sea. |
| Pairing.TileFor | Basegame_3-4_WithPorts.py:164-179 | A tile takes the centre and the cell's colour. It has no label exactly for the unlabelled resources, otherwise a label with the token, red exactly for 6 and 8. |
| Pairing.PoppedCells | Basegame_3-4_WithPorts.py:161-164 | Popping each row from its end visits earlier rows first and, within a row, cells right to left. |
| Pairing.AssignResources | Basegame_3-4_WithPorts.py:159-181 | The k-th cell popped is drawn at the k-th centre popped from the end. Every cell is drawn exactly when there are enough centres and every cell is a triple, and the rows are left empty. Otherwise the outcome names the failing pop or unpacking. The copy at Basegame_5-6.py:122-144 differs only in leaving sea unlabelled as well as the desert (line 129). The `unlabelled` parameter covers both: SmallUnlabelled is {desert}, LargeUnlabelled is {desert, sea}. |
| Pairing.DrawRow | Basegame_3-4_WithPorts.py:162-179 | The `while lst` loop draws one row and extends the pairing by that row, or stops at the first failing pop or unpacking. |
| Pairing.HexCellsAt | Basegame_3-4_WithPorts.py:85-97 | calculate_hex_centers lists the centres row by row, cell (r, c) at position Total(shape[..r]) + c. |
| Pairing.MirroredLayout | Basegame_3-4_WithPorts.py:159-164 | On a palindromic row shape, the centre popped for board cell (y, x) is the centre of row |shape|-1-y, column x. |
| Pairing.ShapesPalindromic | Basegame_5-6.py:54 | Both row shapes read the same backwards. |
| Pairing.DrawBoard | Basegame_3-4_WithPorts.py:159-181 | With one centre per cell, a board of triples is drawn in full, each tile on the mirror row of its cell. |
| Pairing.DrawSmall | Basegame_3-4_WithPorts.py:241-242 | main of the 3-4 player script draws every tile exactly when every cell is a triple. Cell (y, x) is drawn at row 4-y, column x, in the cell's colour, without a number exactly on the desert, and a numbered tile shows its token, red exactly for 6 and 8. |
| Pairing.DrawLarge | Basegame_5-6.py:179-180 | main of the 5-6 player script draws every tile exactly when every cell is a triple. Cell (y, x) is drawn at row 6-y, column x, in the cell's colour, without a number exactly on desert and sea, and a numbered tile shows its token, red exactly for 6 and 8. |
| Ports.PortColorsBag | Basegame_3-4_WithPorts.py:34 | The harbour colours are four whites and one colour for each of wheat, ore, sheep, brick and wood. |
| Ports.CreatePorts | Basegame_3-4_WithPorts.py:184-205 | Triangles are drawn last first, and drawn and leftover colours together are always the colour list. An unknown mode fails exactly when there is a triangle. An empty colour list fails exactly when there are more triangles than colours. In "standard" mode triangle i gets colour i when the lists match. |
| Ports.Harbours | Basegame_3-4_WithPorts.py:184-205 | main's call on the nine triangles: the triangles are drawn last first in every mode; in either known mode all nine are placed and `color_list` is used up, four white harbours and one per resource. In "standard" mode triangle i takes colour i. Any other answer fails at the first triangle with nothing drawn. |
| Ports.PopLast | Basegame_3-4_WithPorts.py:200 | `color_list.pop()` moves one colour from the list to the drawn ones and keeps the bag. |
| CappedAssignment.PopOrderBag | CatanGen2.py:84-87 | Popping a list until it is empty yields the same bag of names, last first. |
| CappedAssignment.DrawListLength | CatanGen2.py:82-87 | After q shuffles, q times the number of names have been popped. |
| CappedAssignment.BlockDrawsEachOnce | CatanGen2.py:83-87 | Each refill appends one pop order holding every name exactly once. |
| CappedAssignment.AssignedPrefix | CatanGen2.py:82-90 | The mapping after n centres is determined by the first n draws. |
| CappedAssignment.RunFromMeaning | CatanGen2.py:82-92 | The loop's recursive specification fails exactly when no names exist and centres remain. Otherwise it returns the mapping defined by the draw sequence, having shuffled just often enough to cover the centres. |
| CappedAssignment.AssignmentMeaning | CatanGen2.py:75-92 | The same for the whole call, from the first shuffle with all counts at 0. |
| CappedAssignment.AssignResource | CatanGen2.py:75-92 | The method computes its recursive specification. It fails (the `pop` from an empty list) exactly when there are centres but no resource names. Otherwise it draws just enough shuffles to cover the centres, and the result is the mapping defined by the draw sequence. |
| CappedAssignment.AssignedEntries | CatanGen2.py:88-89 | Every mapped centre maps to the resource drawn for it and that resource's hex_counts value. |
| CappedAssignment.TakenIsMapped | CatanGen2.py:88-89 | A centre whose draw was under the cap is mapped. |
| CappedAssignment.MappedIffUnderCap | CatanGen2.py:88-90 | With distinct centres, a centre is mapped exactly when its draw was under the cap, and then to that draw. |
| CappedAssignment.CountWithinCap | CatanGen2.py:88-90 | No resource is mapped more than max_resource_count times, and never for a negative cap. |
| CappedAssignment.NoCapNoMapping | CatanGen2.py:88 | With a cap of 0 or less, the mapping is empty. |
| CappedAssignment.MappedCount | CatanGen2.py:88-90 | With distinct centres, the number of centres mapped to r is the number of accepted draws of r. |
| CappedAssignment.CountAtMostDraws | CatanGen2.py:87-90 | A resource is accepted no more often than it was drawn. |
| CappedAssignment.EarlierDraws | CatanGen2.py:83-87 | After q shuffles each name was drawn q times, and every draw was preceded by fewer than q draws of the same name. |
| CappedAssignment.AllTakenWhenCapSuffices | CatanGen2.py:82-90 | If there are at most max times as many centres as names, every draw is under the cap. |
| CappedAssignment.EveryCentreMapped | CatanGen2.py:75-92 | With at most max centres per resource name, every centre is mapped. |

## Left out

- Drawing is left out: pygame windows, polygons, circles, fonts, blitting and the event loop. Pairing records each drawing as a tile value instead.
- Floating-point geometry is left out. hex_boarder, connection_lines, hexagon_points and the coordinates computed by calculate_hex_centers are reduced to row and column indices; a harbour triangle is an opaque value.
- The `input()` prompt is not modelled; the harbour mode is a parameter of CreatePorts.
- `print_board` and `visualize_board` are not modelled.
- The distribution of random.choice and random.shuffle is not modelled; the models quantify over every possible choice.
- Fill.Generate: the unbounded `while not fill_board(...)` retry is bounded by the list of attempts it is given, so the model does not show that the loop ends.
- Fill.FillBoard and Fill.OverlayResources return the updated board instead of mutating the caller's list. The model therefore does not capture the aliasing through which main sees a partially filled board after False. Only the contents and the outcome are stated.
- RGB tuples are named colours; a colour's numeric value is not modelled.
- CappedAssignment.AssignResource takes `hex_counts` as the dictionary its body uses (`keys()`, `hex_counts[resource]`). The call at CatanGen2.py:97 passes the list of pairs from CatanGen2.py:26, which has no `keys()`. That driver is not part of this model.
- CappedAssignment.AssignResource: a name missing from resource_count or hex_counts would raise KeyError; the model returns None instead. With the names drawn from hex_counts itself this cannot happen, and the method proves it.
- A centre listed twice is overwritten in the dictionary. MappedIffUnderCap and MappedCount assume distinct centres, as calculate_hex_centers produces.
