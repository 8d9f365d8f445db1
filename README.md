# Rubik's cube solver: a verified model of the puzzle engine

This project models the puzzle engine of `RubiksCubeSolver3D.java`, a JavaFX program
that shows a 3x3x3 cube, scrambles it, checks that a painted cube is valid, and solves
it with a beginner's layer-by-layer method:

- white cross;
- intuitive first two layers (F2L);
- two-look OLL;
- two-look PLL.

The model leaves the display out and keeps the data the engine works on:

- **The cube.** The program holds 27 cubies of six facelets each, so 162 cells,
  indexed `[x][y][z][face]`. Outward facelets carry one of six colours. Hidden
  facelets are black.
  - `CubeState` models the cube as a sequence of 162 colours with the same index
    order.
  - It also holds the piece tables (centres, edges, corners) and the ring tables
    the quarter turn walks.
  - `SetupCube`, `CloneCube` and `CompareTwoCubes` model the program's methods of
    the same names.
- **The quarter turn.** `recreateCube` turns one layer by a quarter. Its argument
  is a three-letter code: axis, layer and direction.
  - `MoveEngine.RecreateCube` follows the program's loops over its coordinate
    tables.
  - It is proved equal to a geometric definition of the turn (`SliceGeometry.Act`).
  - Everything else about turns is proved on that definition: four turns are the
    identity, the opposite direction undoes a turn, three turns equal the reverse
    turn, cells off the layer stay put, and colours are conserved.
- **Move notation.** `Moves.TranslateMove` maps a Singmaster token to the
  program's layer codes: one code for a face or slice turn, three for a
  whole-cube rotation.
  - `ApplyToken` and `ApplyTokens` give the effect of tokens on a cube.
  - Lemmas connect a token to its primed partner: it undoes the token, it equals
    the token done three times, and four of the same token restore the cube.
- **The move list optimiser.** The program's `shortenSolverMoves` is in
  `Optimizer`, twice:
  - once as written, with its defects exhibited (see Findings);
  - once corrected (`Optimizer.Shorten`), which `Solver.CubeSolver.Solver` uses;
    `Solver.CubeSolver.SolverAsWritten` is the solver with the program's own loop.
- **Piece locators.** `PieceLocator.FindEdgePiece` and `PieceLocator.FindCornerPiece`
  find the slot that holds a piece with the given colours, and on which facelet
  each colour sits.
- **Scramble and validation.**
  - `Scrambler.Scramble` draws twenty tokens, none sharing its first letter with
    the one before.
  - `Validator.FieldsQuantity` counts the colours.
- **The solver.** `Solver.CubeSolver` is a class with the program's three pieces of
  state:
  - `cube`, the displayed cube;
  - `fakeCube`, the shadow cube the solver plays on;
  - `solverMoves`, the recorded moves.

  Each stage is a method with the program's loops and retry counters. It is proved
  to record exactly the moves that a pure specification of that stage (module
  `Stages`) computes from the shadow cube it started on. It is also proved to leave
  the shadow cube equal to the starting cube with those moves applied.

## Model

| member | source | states |
|---|---|---|
| CubeState.Solved | RubiksCubeSolver3D/RubiksCubeSolver3D.java:255-318 | the solved cube has 162 cells; every outward facelet shows the colour of its face and every hidden one is black |
| CubeState.SetupCube | RubiksCubeSolver3D/RubiksCubeSolver3D.java:255-318 | painting every cubie of the 3x3x3 block yields the solved cube: each outward facelet gets its face's colour, every other facelet black |
| CubeState.PaintCubie | RubiksCubeSolver3D/RubiksCubeSolver3D.java:265-316 | painting one cubie sets its six facelets to their solved colours and changes no other cell |
| CubeState.PaintLayer | RubiksCubeSolver3D/RubiksCubeSolver3D.java:271-285 | one of the three coordinate switches for one cubie: on the low layer slot `low` gets colour `low`, on the high layer slot `high` gets colour `high`, a middle-layer cubie gets nothing, and no other cell changes |
| CubeState.CloneCube | RubiksCubeSolver3D/RubiksCubeSolver3D.java:1584-1596 | the copy holds the same 162 colours as the original |
| CubeState.CompareTwoCubes | RubiksCubeSolver3D/RubiksCubeSolver3D.java:1598-1610 | the answer is true exactly when the two cubes agree on every cell |
| CubeState.SolvedAt | RubiksCubeSolver3D/RubiksCubeSolver3D.java:265-316 | cell by cell, the solved cube holds the face colour on outward facelets and black elsewhere |
| Counting.MultisetCount | RubiksCubeSolver3D/RubiksCubeSolver3D.java:933-942 | the number of cells of a colour is the size of the set of indices holding it |
| Counting.GatherPreservesMultiset | RubiksCubeSolver3D/RubiksCubeSolver3D.java:705-798 | a cube built by reading every cell of another through a bijection holds the same colours, with the same multiplicities |
| SliceGeometry.SourceInverse | RubiksCubeSolver3D/RubiksCubeSolver3D.java:729-795 | turning a slice one way and then the opposite way brings every facelet back to where it started |
| SliceGeometry.SourceFour | RubiksCubeSolver3D/RubiksCubeSolver3D.java:729-795 | four quarter turns of the same slice bring every facelet back |
| SliceGeometry.SourceKeepsLayer | RubiksCubeSolver3D/RubiksCubeSolver3D.java:713-727 | a slice turn keeps every facelet in its layer along the turning axis |
| SliceGeometry.MotionInverse | RubiksCubeSolver3D/RubiksCubeSolver3D.java:705-798 | the reverse motion undoes the motion, for a slice turn and for a whole-cube rotation |
| SliceGeometry.MotionThree | RubiksCubeSolver3D/RubiksCubeSolver3D.java:705-798 | three quarter turns move every facelet as the reverse quarter turn does |
| SliceGeometry.ActInverse | RubiksCubeSolver3D/RubiksCubeSolver3D.java:705-798 | applying a motion and then its reverse gives back the cube |
| SliceGeometry.ActThree | RubiksCubeSolver3D/RubiksCubeSolver3D.java:705-798 | applying a motion three times equals applying its reverse once |
| SliceGeometry.ActFour | RubiksCubeSolver3D/RubiksCubeSolver3D.java:705-798 | applying a motion four times gives back the cube |
| SliceGeometry.SliceLocality | RubiksCubeSolver3D/RubiksCubeSolver3D.java:705-798 | cells the slice turn does not move keep their colour |
| SliceGeometry.ActPreservesColours | RubiksCubeSolver3D/RubiksCubeSolver3D.java:705-798 | every motion conserves the colours of the cube (same multiset) |
| SliceGeometry.WholeTurnIsSlices | RubiksCubeSolver3D/RubiksCubeSolver3D.java:841-930 | turning the three layers of one axis in the same direction, in any order, is the whole-cube rotation |
| MoveEngine.LayerOf | RubiksCubeSolver3D/RubiksCubeSolver3D.java:713-727 | the layer letters l and b pick layer 0, c picks 1, and t, r and f pick 2; any other letter picks none |
| MoveEngine.OppositeCode | RubiksCubeSolver3D/RubiksCubeSolver3D.java:729-795 | swapping the direction letter for its partner keeps the axis and layer and reverses the spin |
| MoveEngine.SliceCodeTurns | RubiksCubeSolver3D/RubiksCubeSolver3D.java:705-798 | a well-formed code turns its slice by a quarter |
| MoveEngine.CodeInverse | RubiksCubeSolver3D/RubiksCubeSolver3D.java:705-798 | the code with the opposite direction letter undoes a code |
| MoveEngine.CodeFour | RubiksCubeSolver3D/RubiksCubeSolver3D.java:705-798 | four applications of the same code give back the cube |
| MoveEngine.CodeLocality | RubiksCubeSolver3D/RubiksCubeSolver3D.java:705-798 | a code leaves every facelet outside its slice as it was |
| MoveEngine.SwitchEntry | RubiksCubeSolver3D/RubiksCubeSolver3D.java:729-795 | each ring write of the turn targets a moved ring facelet and copies it from the facelet the geometric turn takes it from |
| MoveEngine.KeepEntry | RubiksCubeSolver3D/RubiksCubeSolver3D.java:729-795 | each axis-face write of the turn targets a moved facelet and copies it from its geometric source |
| MoveEngine.SwitchCover | RubiksCubeSolver3D/RubiksCubeSolver3D.java:729-795 | the ring writes reach every moved ring facelet of the slice |
| MoveEngine.KeepCover | RubiksCubeSolver3D/RubiksCubeSolver3D.java:729-795 | the axis-face writes reach every moved axis-face facelet of the slice |
| MoveEngine.RecreateCube | RubiksCubeSolver3D/RubiksCubeSolver3D.java:705-798 | the table-driven turn returns exactly the geometric quarter turn of the coded slice; an unknown direction letter returns an unchanged copy; a known direction with an unknown layer letter fails |
| MoveEngine.SwitchRing | RubiksCubeSolver3D/RubiksCubeSolver3D.java:729-790 | for any of the six direction letters, the ring loop writes every moved ring slot of the layer with the turned colour and leaves every other cell of the copy untouched |
| MoveEngine.SwitchRising | RubiksCubeSolver3D/RubiksCubeSolver3D.java:731-735 | the ring loop with count3 rising from 4 to 7, which the l, t and c cases use (also 753-757 and 775-779), writes each of the twelve ring slots from its source and no other cell |
| MoveEngine.SwitchFalling | RubiksCubeSolver3D/RubiksCubeSolver3D.java:742-746 | the ring loop with count3 falling from 4 to 1, which the r, b and a cases use (also 764-768 and 786-790), writes each of the twelve ring slots from its source and no other cell |
| MoveEngine.KeepRing | RubiksCubeSolver3D/RubiksCubeSolver3D.java:729-795 | the axis-face loop writes every axis-face slot of the slice from its source |
| MoveEngine.KeepCopies | RubiksCubeSolver3D/RubiksCubeSolver3D.java:729-795 | both axis-face slots of one cubie are copied from its source cubie |
| Moves.LayerCode | RubiksCubeSolver3D/RubiksCubeSolver3D.java:841-930 | a face or slice letter has a well-formed three-letter code; a rotation letter has none |
| Moves.PlainLayerCode | RubiksCubeSolver3D/RubiksCubeSolver3D.java:841-930 | the unprimed face and slice letters have a well-formed code; other letters have none |
| Moves.PrimedLayerCode | RubiksCubeSolver3D/RubiksCubeSolver3D.java:841-930 | the primed face and slice letters have a well-formed code; other letters have none |
| Moves.RotationCodes | RubiksCubeSolver3D/RubiksCubeSolver3D.java:841-930 | a rotation is three codes with the same axis and direction on three different layers |
| Moves.TranslateMove | RubiksCubeSolver3D/RubiksCubeSolver3D.java:841-930 | a layer token gives one code and two empty slots; a rotation gives three codes on distinct layers of one axis; an unknown token gives three empty slots |
| Moves.AlphabetRows | RubiksCubeSolver3D/RubiksCubeSolver3D.java:126 | the predefined token list holds each of the twelve letters, plain and then primed |
| Moves.TokenAlphabet | RubiksCubeSolver3D/RubiksCubeSolver3D.java:126 | a string is a token the translator knows exactly when it is one of the 24 predefined moves |
| Moves.TranslationMeansMotion | RubiksCubeSolver3D/RubiksCubeSolver3D.java:841-930 | the codes a token translates to perform the motion the token's letter names |
| Moves.TokenMotion | RubiksCubeSolver3D/RubiksCubeSolver3D.java:1072-1081 | playing a known token's codes on a cube applies the token's motion |
| Moves.ToggleReverses | RubiksCubeSolver3D/RubiksCubeSolver3D.java:126 | adding or removing the prime gives a known token with the reverse motion |
| Moves.TokenInverse | RubiksCubeSolver3D/RubiksCubeSolver3D.java:1083-1109 | a token followed by its primed partner leaves the cube unchanged |
| Moves.TokenThrice | RubiksCubeSolver3D/RubiksCubeSolver3D.java:1083-1109 | a token played three times equals its primed partner |
| Moves.TokenFour | RubiksCubeSolver3D/RubiksCubeSolver3D.java:705-798 | a token played four times leaves the cube unchanged |
| Moves.OtherTokenInert | RubiksCubeSolver3D/RubiksCubeSolver3D.java:1072-1081 | a string that is not a known token changes nothing when played |
| Moves.ApplyTokensAppend | RubiksCubeSolver3D/RubiksCubeSolver3D.java:1072-1081 | playing two lists in turn equals playing their concatenation |
| Moves.SameLetterToggled | RubiksCubeSolver3D/RubiksCubeSolver3D.java:1099-1107 | two different known tokens with the same first letter are primed partners |
| Optimizer.TripleRewrite | RubiksCubeSolver3D/RubiksCubeSolver3D.java:1087-1098 | replacing three equal tokens by the primed partner keeps the effect on every cube |
| Optimizer.PairRewrite | RubiksCubeSolver3D/RubiksCubeSolver3D.java:1099-1107 | dropping two adjacent tokens with the same letter that differ keeps the effect on every cube |
| Optimizer.TripleEdit | RubiksCubeSolver3D/RubiksCubeSolver3D.java:1089-1096 | the program's in-place edit (toggle the first token, remove the next two) is the collapsed list, two tokens shorter |
| Optimizer.CollapseTripleEffect | RubiksCubeSolver3D/RubiksCubeSolver3D.java:1087-1098 | collapsing a triple keeps the list predefined and its effect unchanged |
| Optimizer.RemovePairEffect | RubiksCubeSolver3D/RubiksCubeSolver3D.java:1099-1107 | removing a cancelling pair keeps the list predefined and its effect unchanged |
| Optimizer.Pass1 | RubiksCubeSolver3D/RubiksCubeSolver3D.java:1087-1098 | the as-written triple pass never lengthens the list and keeps its parity |
| Optimizer.Pass2 | RubiksCubeSolver3D/RubiksCubeSolver3D.java:1099-1107 | the as-written pair pass never lengthens the list and keeps its parity |
| Optimizer.Round | RubiksCubeSolver3D/RubiksCubeSolver3D.java:1086-1108 | one round of the as-written loop never lengthens the list |
| Optimizer.Pass1Effect | RubiksCubeSolver3D/RubiksCubeSolver3D.java:1087-1098 | the as-written triple pass keeps the effect of the list |
| Optimizer.Pass2Effect | RubiksCubeSolver3D/RubiksCubeSolver3D.java:1099-1107 | the as-written pair pass keeps the effect of the list |
| Optimizer.RoundEffect | RubiksCubeSolver3D/RubiksCubeSolver3D.java:1086-1108 | one round of the as-written loop keeps the effect of the list |
| Optimizer.ShortListNeverEnds | RubiksCubeSolver3D/RubiksCubeSolver3D.java:1086-1108 | on a list of fewer than two tokens a round changes nothing and leaves both flags set |
| Optimizer.CancellingPairNeverEnds | RubiksCubeSolver3D/RubiksCubeSolver3D.java:1086-1108 | a cancelling pair is removed and the empty list then keeps both flags set forever |
| Optimizer.StopsBeforeIrreducible | RubiksCubeSolver3D/RubiksCubeSolver3D.java:1086-1108 | on R U U' R' F a round clears a flag while R R' F still holds a cancelling pair |
| Optimizer.ShortListDiverges | RubiksCubeSolver3D/RubiksCubeSolver3D.java:1083-1109 | the as-written optimiser runs out of any fuel on a list of fewer than two tokens |
| Optimizer.CancellingPairDiverges | RubiksCubeSolver3D/RubiksCubeSolver3D.java:1083-1109 | the as-written optimiser runs out of any fuel on a list that is one cancelling pair |
| Optimizer.StopsEarly | RubiksCubeSolver3D/RubiksCubeSolver3D.java:1083-1109 | the as-written optimiser returns R R' F for R U U' R' F, which still holds a cancelling pair |
| Optimizer.AsWrittenEffect | RubiksCubeSolver3D/RubiksCubeSolver3D.java:1083-1109 | whenever the as-written loop stops, the list it leaves is predefined and does to every cube what the input does |
| Optimizer.ShortenWithin | RubiksCubeSolver3D/RubiksCubeSolver3D.java:1083-1109 | the program's `while (flag && flag2)` loop run for at most the given number of rounds gives exactly the as-written result, and a result it reaches keeps the effect of the list |
| Optimizer.Shorten | RubiksCubeSolver3D/RubiksCubeSolver3D.java:1083-1109 | the corrected optimiser returns a list with no triple and no cancelling pair that is no longer than its input, has the same parity and has the same effect on every cube; a list that is already irreducible comes back unchanged |
| Optimizer.ShortenIdempotent | RubiksCubeSolver3D/RubiksCubeSolver3D.java:1083-1109 | optimising an optimised list changes nothing: shortening twice gives what shortening once gives |
| Optimizer.TriplePass | RubiksCubeSolver3D/RubiksCubeSolver3D.java:1087-1098 | one triple pass keeps the effect; it collapses nothing exactly when the list holds no triple, and then the list is unchanged; otherwise it is at least two shorter |
| Optimizer.PairPass | RubiksCubeSolver3D/RubiksCubeSolver3D.java:1099-1107 | one pair pass keeps the effect; it removes nothing exactly when the list holds no cancelling pair, and then the list is unchanged; otherwise it is at least two shorter |
| PieceLocator.CountOnce | RubiksCubeSolver3D/RubiksCubeSolver3D.java:1506-1530 | a colour counted at most once on a cubie sits on at most one of its facelets |
| PieceLocator.LastSlot | RubiksCubeSolver3D/RubiksCubeSolver3D.java:1506-1530 | the face the scan reports is the last facelet of the cubie showing the colour, and none exists exactly when the colour is absent |
| PieceLocator.FirstEdge | RubiksCubeSolver3D/RubiksCubeSolver3D.java:1506-1530 | the reported edge slot is the first in table order that holds both colours once each and black on its other four facelets |
| PieceLocator.FirstCorner | RubiksCubeSolver3D/RubiksCubeSolver3D.java:1532-1561 | the reported corner slot is the first in table order that holds the three colours once each and black on its other three facelets |
| PieceLocator.FindEdgePiece | RubiksCubeSolver3D/RubiksCubeSolver3D.java:1506-1530 | no result exactly when no edge slot matches; otherwise the first matching slot, with the only facelet of each colour |
| PieceLocator.ScanEdgeCubie | RubiksCubeSolver3D/RubiksCubeSolver3D.java:1510-1524 | the inner facelet loop counts each colour and black on the cubie and keeps the last face of each colour |
| PieceLocator.FindCornerPiece | RubiksCubeSolver3D/RubiksCubeSolver3D.java:1532-1561 | no result exactly when no corner slot matches; otherwise the first matching slot, with the only facelet of each colour |
| PieceLocator.ScanCornerCubie | RubiksCubeSolver3D/RubiksCubeSolver3D.java:1541-1554 | the facelet loop over one cubie counts each of the three colours and black, and keeps for each colour the last face holding it, or the value it had when the colour does not occur |
| PieceLocator.UniqueSlot | RubiksCubeSolver3D/RubiksCubeSolver3D.java:1506-1561 | a colour that occurs once on a cubie occurs exactly on the reported face |
| PieceLocator.PositionIn | RubiksCubeSolver3D/RubiksCubeSolver3D.java:1141-1145 | the table search returns the first index holding the piece, or -1 exactly when the piece is not in the table |
| Scrambler.Scramble | RubiksCubeSolver3D/RubiksCubeSolver3D.java:1017-1029 | twenty predefined tokens, no token sharing its first letter with the one before |
| Scrambler.DrawAny | RubiksCubeSolver3D/RubiksCubeSolver3D.java:1021-1022 | the first draw is some predefined token, which is not empty |
| Scrambler.DrawOther | RubiksCubeSolver3D/RubiksCubeSolver3D.java:1025-1027 | a redrawn token is predefined and its first letter differs from that of the previous token |
| Scrambler.Extend | RubiksCubeSolver3D/RubiksCubeSolver3D.java:1028 | appending such a token keeps every token predefined and neighbouring letters distinct |
| Scrambler.OtherLetterExists | RubiksCubeSolver3D/RubiksCubeSolver3D.java:1025-1027 | whatever the previous token, some predefined token starts with another letter, so the redraw loop can succeed |
| Scrambler.ScrambleIrreducible | RubiksCubeSolver3D/RubiksCubeSolver3D.java:1017-1029 | a list whose neighbours never share a first letter has no triple and no cancelling pair |
| Validator.FieldsQuantity | RubiksCubeSolver3D/RubiksCubeSolver3D.java:932-946 | the count for each of the six colours is the number of cells of that colour, and the cube is accepted exactly when every count is nine |
| Validator.FaceCell | RubiksCubeSolver3D/RubiksCubeSolver3D.java:255-318 | the cell a face coordinate names shows that face and is outward |
| Validator.FaceCellCovers | RubiksCubeSolver3D/RubiksCubeSolver3D.java:255-318 | every outward facelet is the face cell of its face and two coordinates |
| Validator.FaceSlotsDistinct | RubiksCubeSolver3D/RubiksCubeSolver3D.java:255-318 | the nine cells of a face are distinct |
| Validator.FaceSlotsAreColour | RubiksCubeSolver3D/RubiksCubeSolver3D.java:255-318 | on the solved cube the cells of a colour are exactly the nine cells of its face |
| Validator.SolvedCounts | RubiksCubeSolver3D/RubiksCubeSolver3D.java:932-946 | the solved cube has nine cells of each colour |
| Validator.TokensPreserveColours | RubiksCubeSolver3D/RubiksCubeSolver3D.java:1072-1081 | playing any tokens conserves the colours of the cube |
| Validator.ReachablePasses | RubiksCubeSolver3D/RubiksCubeSolver3D.java:932-946 | every cube reached from the solved cube by tokens passes the colour count |
| SolverTables.OrientMoves | RubiksCubeSolver3D/RubiksCubeSolver3D.java:1112-1134 | the moves that bring the white centre down are predefined tokens |
| SolverTables.CrossMoves | RubiksCubeSolver3D/RubiksCubeSolver3D.java:1147-1185 | every cross-edge case plays predefined tokens |
| SolverTables.CornerMoves | RubiksCubeSolver3D/RubiksCubeSolver3D.java:1210-1236 | every corner case plays predefined tokens |
| SolverTables.PairMoves | RubiksCubeSolver3D/RubiksCubeSolver3D.java:1248-1282 | every pairing case plays predefined tokens |
| SolverTables.PairFinished | RubiksCubeSolver3D/RubiksCubeSolver3D.java:1248-1282 | the pairing cases that end the edge loop |
| SolverTables.OllEdgeCase | RubiksCubeSolver3D/RubiksCubeSolver3D.java:1306-1328 | the top-edge situation selects a row of the OLL edge table |
| SolverTables.OllEdgeMoves | RubiksCubeSolver3D/RubiksCubeSolver3D.java:1306-1328 | every OLL edge case plays predefined tokens |
| SolverTables.OllInstructionsPredefined | RubiksCubeSolver3D/RubiksCubeSolver3D.java:1331-1339 | the seven corner algorithms are predefined tokens |
| SolverTables.PllAlignMoves | RubiksCubeSolver3D/RubiksCubeSolver3D.java:1420-1431 | aligning the yellow-red-blue corner plays predefined tokens |
| SolverTables.PllCornerCase | RubiksCubeSolver3D/RubiksCubeSolver3D.java:1443-1458 | the warnings about misplaced corners select a row of the corner table |
| SolverTables.PllCornerMoves | RubiksCubeSolver3D/RubiksCubeSolver3D.java:1443-1458 | every PLL corner case plays predefined tokens |
| SolverTables.PllEdgeTurnCase | RubiksCubeSolver3D/RubiksCubeSolver3D.java:1469-1503 | the edge that is in place selects how the three-edge cycle is set up |
| SolverTables.PllEdgePreMoves | RubiksCubeSolver3D/RubiksCubeSolver3D.java:1469-1491 | the set-up moves before the edge cycle are predefined tokens |
| SolverTables.PllEdgeAfterMoves | RubiksCubeSolver3D/RubiksCubeSolver3D.java:1469-1491 | the moves undoing that set-up are predefined tokens |
| SolverTables.PllEdgeCycle | RubiksCubeSolver3D/RubiksCubeSolver3D.java:1469-1491 | each three-edge cycle plays predefined tokens |
| SolverTables.PllEdgeSwap | RubiksCubeSolver3D/RubiksCubeSolver3D.java:1492-1503 | each four-edge swap plays predefined tokens |
| Stages.LastWhiteCentre | RubiksCubeSolver3D/RubiksCubeSolver3D.java:1112-1124 | the orientation search reports the last centre showing white, or -1 when none does |
| Stages.CrossEdgeLoop | RubiksCubeSolver3D/RubiksCubeSolver3D.java:1139-1186 | the retry loop for one cross edge records predefined tokens only |
| Stages.CrossEdges | RubiksCubeSolver3D/RubiksCubeSolver3D.java:1136-1188 | placing the four cross edges, with a y after each, records predefined tokens only |
| Stages.AlignCross | RubiksCubeSolver3D/RubiksCubeSolver3D.java:1190-1195 | turning the middle slice until the cross lines up records predefined tokens only |
| Stages.WhiteCross | RubiksCubeSolver3D/RubiksCubeSolver3D.java:1111-1196 | the whole white-cross stage records predefined tokens only |
| Stages.CornerLoop | RubiksCubeSolver3D/RubiksCubeSolver3D.java:1203-1237 | the retry loop for one F2L corner records predefined tokens only |
| Stages.PairLoop | RubiksCubeSolver3D/RubiksCubeSolver3D.java:1241-1283 | the retry loop that pairs an edge with its corner records predefined tokens only |
| Stages.F2LSlots | RubiksCubeSolver3D/RubiksCubeSolver3D.java:1199-1285 | filling the four slots, with a y after each, records predefined tokens only |
| Stages.F2L | RubiksCubeSolver3D/RubiksCubeSolver3D.java:1198-1286 | the F2L stage records predefined tokens only |
| Stages.Situation | RubiksCubeSolver3D/RubiksCubeSolver3D.java:1296-1305 | the situation holds, for each of the four top edges, whether its top facelet is yellow |
| Stages.CountTrue | RubiksCubeSolver3D/RubiksCubeSolver3D.java:1296-1305 | the count of yellow top edges is at most four |
| Stages.OllEdgeLoop | RubiksCubeSolver3D/RubiksCubeSolver3D.java:1294-1329 | the OLL edge loop records predefined tokens only |
| Stages.FirstPattern | RubiksCubeSolver3D/RubiksCubeSolver3D.java:1354-1403 | the corner pattern search reports the first of the seven patterns that holds, or 7 when none does |
| Stages.OllCornerLoop | RubiksCubeSolver3D/RubiksCubeSolver3D.java:1343-1410 | the OLL corner loop records predefined tokens only |
| Stages.Oll | RubiksCubeSolver3D/RubiksCubeSolver3D.java:1288-1411 | the OLL stage records predefined tokens only |
| Stages.UCornerPos | RubiksCubeSolver3D/RubiksCubeSolver3D.java:1418-1420 | the position of a corner among the four top corners is the last match, or -1 |
| Stages.EdgeWarnings | RubiksCubeSolver3D/RubiksCubeSolver3D.java:1460-1468 | a top edge is in the warning list exactly when its side facelet differs from the one below it |
| Stages.PllEdges | RubiksCubeSolver3D/RubiksCubeSolver3D.java:1460-1503 | the PLL edge step records predefined tokens only |
| Stages.PllCorners | RubiksCubeSolver3D/RubiksCubeSolver3D.java:1414-1458 | the PLL corner step records predefined tokens only |
| Stages.Pll | RubiksCubeSolver3D/RubiksCubeSolver3D.java:1413-1504 | the PLL stage records predefined tokens only |
| Stages.Pipeline | RubiksCubeSolver3D/RubiksCubeSolver3D.java:1058-1064 | the stages and the closing x record predefined tokens only |
| Solver.PlayToken | RubiksCubeSolver3D/RubiksCubeSolver3D.java:1074-1079 | playing a token's codes through the quarter turn gives the token's effect on the cube |
| Solver.LocateEdge | RubiksCubeSolver3D/RubiksCubeSolver3D.java:1506-1530 | the edge locator fails exactly when no slot matches, and otherwise reports the first matching slot |
| Solver.LocateCorner | RubiksCubeSolver3D/RubiksCubeSolver3D.java:1532-1561 | the corner locator fails exactly when no slot matches, and otherwise reports the first matching slot |
| Solver.CubeSolver.AddToSolverMoves | RubiksCubeSolver3D/RubiksCubeSolver3D.java:1072-1081 | the moves are appended to the record, the shadow cube becomes the old one with the moves played, and the displayed cube is unchanged |
| Solver.CubeSolver.OrientWhite | RubiksCubeSolver3D/RubiksCubeSolver3D.java:1112-1134 | records the orientation moves for the last centre showing white |
| Solver.CubeSolver.PlaceCrossEdge | RubiksCubeSolver3D/RubiksCubeSolver3D.java:1139-1186 | records exactly the cross-edge loop's moves and reports its success, after one to ten tries |
| Solver.CubeSolver.CrossEdgeTry | RubiksCubeSolver3D/RubiksCubeSolver3D.java:1140-1185 | one try records its moves on top of the loop so far; a failed locator ends the loop unsuccessfully with the moves recorded until then, otherwise the loop either continues (edge not in place, fewer than ten tries) or its result is exactly the cross-edge loop |
| Solver.CubeSolver.PlaceCrossEdges | RubiksCubeSolver3D/RubiksCubeSolver3D.java:1136-1188 | records exactly the four cross edges' moves and reports whether every locator succeeded |
| Solver.CubeSolver.AlignMiddle | RubiksCubeSolver3D/RubiksCubeSolver3D.java:1190-1195 | records exactly the middle-slice turns that line up the cross |
| Solver.CubeSolver.WhiteCross | RubiksCubeSolver3D/RubiksCubeSolver3D.java:1111-1196 | records exactly the white-cross stage's moves and reports its success |
| Solver.CubeSolver.PlaceCorner | RubiksCubeSolver3D/RubiksCubeSolver3D.java:1203-1237 | records exactly the corner loop's moves, reports its success and the faces it leaves, after one to ten tries |
| Solver.CubeSolver.CornerTry | RubiksCubeSolver3D/RubiksCubeSolver3D.java:1204-1236 | one try records its moves and counts a corner found in place; a failed locator ends the loop with the faces reset, otherwise the loop continues (fewer than three finishes, fewer than ten tries) or its result, with the faces found, is exactly the corner loop |
| Solver.CubeSolver.PairEdge | RubiksCubeSolver3D/RubiksCubeSolver3D.java:1241-1283 | records exactly the pairing loop's moves and reports its success, after one to ten tries |
| Solver.CubeSolver.PairTry | RubiksCubeSolver3D/RubiksCubeSolver3D.java:1242-1282 | one try records its moves and says whether the edge is paired; a failed locator ends the loop unsuccessfully, otherwise the loop continues (not paired, fewer than ten tries) or its result is exactly the pairing loop |
| Solver.CubeSolver.IntuitiveF2L | RubiksCubeSolver3D/RubiksCubeSolver3D.java:1198-1286 | records exactly the F2L stage's moves and reports its success |
| Solver.CubeSolver.ScanTopEdges | RubiksCubeSolver3D/RubiksCubeSolver3D.java:1296-1305 | the scan reports which top edges show yellow on top and how many |
| Solver.CubeSolver.OllEdges | RubiksCubeSolver3D/RubiksCubeSolver3D.java:1292-1329 | records exactly the OLL edge loop's moves, after one to ten tries |
| Solver.CubeSolver.TopFaceYellow | RubiksCubeSolver3D/RubiksCubeSolver3D.java:1345-1351 | the check is true exactly when all nine top facelets are yellow |
| Solver.CubeSolver.PatternCheck | RubiksCubeSolver3D/RubiksCubeSolver3D.java:1355-1402 | the check is true exactly when the given corner pattern holds |
| Solver.CubeSolver.MatchPattern | RubiksCubeSolver3D/RubiksCubeSolver3D.java:1354-1407 | the search stops at the first pattern that holds, or after all seven |
| Solver.CubeSolver.OllCorners | RubiksCubeSolver3D/RubiksCubeSolver3D.java:1341-1410 | records exactly the OLL corner loop's moves, after one to ten tries |
| Solver.CubeSolver.TwoLookOll | RubiksCubeSolver3D/RubiksCubeSolver3D.java:1288-1411 | records exactly the OLL stage's moves |
| Solver.CubeSolver.TopCornerPos | RubiksCubeSolver3D/RubiksCubeSolver3D.java:1418-1420 | the position among the top corners is the specification's |
| Solver.CubeSolver.CornerWarningScan | RubiksCubeSolver3D/RubiksCubeSolver3D.java:1432-1442 | the scan succeeds exactly when all three corners are found, and then lists the misplaced ones |
| Solver.TopCornerOff | RubiksCubeSolver3D/RubiksCubeSolver3D.java:1433-1441 | the locator succeeds exactly when the yellow corner with the two colours exists, and then reports whether it is away from the given top corner |
| Solver.CubeSolver.PllCorners | RubiksCubeSolver3D/RubiksCubeSolver3D.java:1414-1458 | records exactly the PLL corner step's moves and reports its success |
| Solver.CubeSolver.EdgeWarningScan | RubiksCubeSolver3D/RubiksCubeSolver3D.java:1460-1468 | the scan lists exactly the top edges whose side facelet differs from the one below |
| Solver.CubeSolver.PllEdges | RubiksCubeSolver3D/RubiksCubeSolver3D.java:1460-1503 | records exactly the PLL edge step's moves |
| Solver.CubeSolver.TwoLookPll | RubiksCubeSolver3D/RubiksCubeSolver3D.java:1413-1504 | records exactly the PLL stage's moves and reports its success |
| Solver.CubeSolver.RunStages | RubiksCubeSolver3D/RubiksCubeSolver3D.java:1059-1064 | records exactly the pipeline's moves, ending early where a locator fails |
| Solver.CubeSolver.Solver | RubiksCubeSolver3D/RubiksCubeSolver3D.java:1058-1066 | the solver with the corrected optimiser in place of `shortenSolverMoves`: after a completed run, the record is irreducible, predefined, no longer than the stages' moves and has the same effect; after a failed run it is the stages' moves; the displayed cube is unchanged |
| Solver.CubeSolver.SolverAsWritten | RubiksCubeSolver3D/RubiksCubeSolver3D.java:1058-1066 | the solver as written: after a completed run the record is what the program's optimiser loop leaves whenever that loop stops within the allowed rounds, with the same effect as the stages' moves, and otherwise the unshortened moves; after a failed run no shortening happens |
| Solver.CubeSolver.PossibleCube | RubiksCubeSolver3D/RubiksCubeSolver3D.java:966-987 | the cube is judged solvable exactly when the pipeline's moves take it to the solved cube; the shadow is reset to the displayed cube and the moves stay recorded |
| Solver.MatchesSolved | RubiksCubeSolver3D/RubiksCubeSolver3D.java:975 | a freshly set-up cube compares equal to the given one exactly when the given one is solved |

## Left out

- The JavaFX scene is not part of this model: boxes, materials, textures, camera, mouse
  control, buttons, popups, the move text and the timed animation of `playMoves`.
  `Solver.CubeSolver.Solver` records the moves but does not play them on the
  displayed cube.
- Colours are small integers: 0 white, 1 red, 2 yellow, 3 orange, 4 blue, 5 green,
  6 black. The program compares materials and texture maps instead.
- The warning text that `fieldsQuantity` builds, and the buttons it disables, are left
  out. `Validator.FieldsQuantity` returns the counts and the verdict.
- Most differences between the display coordinates and the model's come from the
  translate offsets. They only place boxes on screen and are left out.
- `java.util.Random` in `scramble` is replaced by a nondeterministic choice among the
  tokens the redraw loop accepts. `Scrambler.Scramble` states what every run
  satisfies; which run happens is not modelled.
- Exceptions become results:
  - The program's locators throw once no slot matches: the search loop runs off the
    end of `edgePieces` or `cornerPieces`, and the `return` then reads
    `edgePieces[12]` or `cornerPieces[8]`, which throws
    `ArrayIndexOutOfBoundsException`. In the model they return no result.
  - A stage that meets a failed locator stops and reports failure. `solver` lets the
    exception escape, so no shortening and no playback follow.
  - `possibleCube` catches the exception and then compares the partly solved shadow
    cube with the solved cube.
- There is no separate signal for a stalled solver. A retry loop that reaches ten
  tries ends, and the run goes on with the next step, as the program's
  `do … while (… && stopCount < 10)` loops do.
- The program's shared counter fields (`countX`, `countY`, `countZ`, `countFace`,
  `stopCount`) are locals of each method. No method reads a value another one left
  behind in them.
- Non-exposed facelets on the ring faces of a turning layer are not moved by
  `recreateCube`, which copies only the slots in its tables. The geometric turn
  `SliceGeometry.Act` is defined to move exactly those slots, so it agrees with the
  program on every cube. On the cubes the program builds, those hidden facelets are
  all black, so leaving them in place changes nothing visible.
- `Optimizer.ShortenAsWritten`: the as-written optimiser is a function with a fuel
  bound, and `None` stands for "did not stop within the fuel". It carries no
  `ensures` of its own. What it does is stated by the lemmas about it.
- `Solver.CubeSolver.Solver` shortens the record with the corrected `Optimizer.Shorten`,
  not with the program's `shortenSolverMoves`, so its irreducibility promise is the
  intended behaviour rather than the program's. The program's result is
  `Optimizer.ShortenAsWritten`, which may stop early (`Optimizer.StopsEarly`) or never
  stop (`Optimizer.CancellingPairDiverges`); `Solver.CubeSolver.SolverAsWritten`
  states that version.
- `Solver.CubeSolver.SolverAsWritten`: the unbounded loop is allowed a number of rounds
  given by the caller. A run that is still going after them stands for a loop that
  may never end; the model does not say whether more rounds would end it.
- `Stages.CrossEdgeLoop`, `Stages.CornerLoop`, `Stages.PairLoop` and the other stage
  functions promise only that they record predefined tokens. That a stage actually
  reaches its goal (cross solved, slot filled, top yellow) is what the program aims
  for, but it is not proved. It depends on the algorithms in the tables being right
  for every reachable case.
- `Solver.CubeSolver.PossibleCube` does not prove that every solvable cube passes.
  That would need the completeness of the layer method, left out as above.

## Findings

| source | as written | input that shows it | evidently intended | confidence | as-written member | corrected member |
|---|---|---|---|---|---|---|
| RubiksCubeSolver3D/RubiksCubeSolver3D.java:1086-1108 | the loop `while (flag && flag2)` sets each flag from the last comparison of its pass only, and an empty list or a one-token list leaves both flags `true` | the move list `R R'`: pass 2 removes the pair, and the empty list then keeps both flags true, so the loop never ends; so do `[]` and any single token | stop once a pass finds nothing to rewrite | not executed | Optimizer.CancellingPairDiverges | Optimizer.Shorten |
| RubiksCubeSolver3D/RubiksCubeSolver3D.java:1086-1108 | the loop ends as soon as one pass's last comparison fails, even if that pass rewrote something earlier | `R U U' R' F` gives `R R' F`, which still holds the cancelling pair `R R'` | repeat both passes until neither rewrites anything | not executed | Optimizer.StopsEarly | Optimizer.Shorten |
