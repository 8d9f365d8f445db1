/** The solver object: the cube on screen, the shadow cube the solver plays its moves
  * on, and the list of moves it records. Every stage locates pieces on the shadow
  * cube, records the moves for what it finds and plays them on the shadow cube at
  * once. Each stage method is proved to record exactly the moves of its counterpart
  * in module Stages, and to leave the shadow cube as those moves make it. */
module Solver {
  import opened Wrappers
  import opened CubeState
  import opened MoveEngine
  import opened Moves
  import opened PieceLocator
  import opened SolverTables
  import opened Optimizer
  import opened SliceGeometry
  import Stages
  import opened StageSteps

  /** No position appears twice in the edge table. */
  lemma EdgePiecesDistinct()
    ensures forall i, j | 0 <= i < j < |EdgePieces| :: EdgePieces[i] != EdgePieces[j]
  {
  }

  /** No position appears twice in the corner table. */
  lemma CornerPiecesDistinct()
    ensures forall i, j | 0 <= i < j < |CornerPieces| :: CornerPieces[i] != CornerPieces[j]
  {
  }

  /** Playing the slots of a translation from the k-th on: the k-th, then the rest. */
  lemma SlotStep(c: Cube, codes: seq<Option<string>>, k: nat)
    requires forall j | 0 <= j < |codes| :: codes[j].Some? ==> IsSliceCode(codes[j].value)
    requires k < |codes|
    ensures ApplySlots(c, codes[k..]) ==
      ApplySlots(if codes[k].Some? then Act(c, SliceTurn(CodeSlice(codes[k].value))) else c, codes[k + 1..])
  {
    assert codes[k..][1..] == codes[k + 1..];
  }

  /** The inner loop of addToSolverMoves: the three slots of one move's
    * translation, each slice code played on the cube in turn. */
  method PlayToken(cube: Cube, move: string) returns (fakeCube: Cube)
    ensures fakeCube == ApplyToken(cube, move)
  {
    var translated := TranslateMove(move);
    fakeCube := cube;
    var count := 0;
    while count < 3
      invariant 0 <= count <= 3
      invariant ApplySlots(fakeCube, translated[count..]) == ApplySlots(cube, translated)
    {
      var translatedMove := translated[count];
      SlotStep(fakeCube, translated, count);
      if translatedMove.Some? {
        SliceCodeTurns(fakeCube, translatedMove.value);
        var next := RecreateCube(fakeCube, translatedMove.value);
        fakeCube := next.value;
      }
      count := count + 1;
    }
  }

  /** An edge lookup as the stages do it: the locator, then the position of the
    * located cubie in the edge table; None when the locator fails. */
  method LocateEdge(cube: Cube, firstColor: Colour, secondColor: Colour)
    returns (pos: Option<int>, firstColorFace: int, secondColorFace: int)
    ensures var k := FirstEdge(cube, firstColor, secondColor, 0);
      (pos.None? <==> k == 12) &&
      (pos.Some? ==> pos.value == k && firstColorFace == LastSlot(cube, EdgePieces[k], firstColor, 6) &&
                     secondColorFace == LastSlot(cube, EdgePieces[k], secondColor, 6))
  {
    var pieceXYZFF := FindEdgePiece(cube, firstColor, secondColor);
    if pieceXYZFF.None? {
      return None, -1, -1;
    }
    EdgePiecesDistinct();
    var edgePiecePos := PositionIn(EdgePieces, pieceXYZFF.value.piece);
    return Some(edgePiecePos), pieceXYZFF.value.firstColorFace, pieceXYZFF.value.secondColorFace;
  }

  /** A corner lookup as the stages do it: the locator, then the position of the
    * located cubie in the corner table; None when the locator fails. */
  method LocateCorner(cube: Cube, firstColor: Colour, secondColor: Colour, thirdColor: Colour)
    returns (pos: Option<int>, firstColorFace: int, secondColorFace: int, thirdColorFace: int)
    ensures var k := FirstCorner(cube, firstColor, secondColor, thirdColor, 0);
      (pos.None? <==> k == 8) &&
      (pos.Some? ==> pos.value == k && firstColorFace == LastSlot(cube, CornerPieces[k], firstColor, 6) &&
                     secondColorFace == LastSlot(cube, CornerPieces[k], secondColor, 6) &&
                     thirdColorFace == LastSlot(cube, CornerPieces[k], thirdColor, 6))
  {
    var pieceXYZFFF := FindCornerPiece(cube, firstColor, secondColor, thirdColor);
    if pieceXYZFFF.None? {
      return None, -1, -1, -1;
    }
    CornerPiecesDistinct();
    var cornerPiecePos := PositionIn(CornerPieces, pieceXYZFFF.value.piece);
    var r := pieceXYZFFF.value;
    return Some(cornerPiecePos), r.firstColorFace, r.secondColorFace, r.thirdColorFace;
  }

  /** The position part of a corner lookup, as the last-layer stage takes it. */
  method LocateCornerCubie(cube: Cube, firstColor: Colour, secondColor: Colour, thirdColor: Colour)
    returns (pieceXYZ: Option<Cubie>)
    ensures var k := FirstCorner(cube, firstColor, secondColor, thirdColor, 0);
      (pieceXYZ.None? <==> k == 8) && (pieceXYZ.Some? ==> pieceXYZ.value == CornerPieces[k])
  {
    var r := FindCornerPiece(cube, firstColor, secondColor, thirdColor);
    if r.None? {
      return None;
    }
    return Some(r.value.piece);
  }

  /** Locates the yellow corner with the two given colours and says whether it is
    * away from top corner `k`; found is false when the locator fails. */
  method TopCornerOff(cube: Cube, secondColor: Colour, thirdColor: Colour, k: nat)
    returns (found: bool, off: bool)
    requires k < 4
    ensures found <==> FirstCorner(cube, Yellow, secondColor, thirdColor, 0) < 8
    ensures found ==> off == (CornerPieces[FirstCorner(cube, Yellow, secondColor, thirdColor, 0)] != CornerPieces[UCornerPieces[k]])
  {
    var pieceXYZ := LocateCornerCubie(cube, Yellow, secondColor, thirdColor);
    if pieceXYZ.None? {
      return false, false;
    }
    found, off := true, pieceXYZ.value != CornerPieces[UCornerPieces[k]];
  }

  /** A fresh solved cube is set up and compared slot by slot with `c`. */
  method MatchesSolved(c: Cube) returns (solvable: bool)
    ensures solvable <==> c == Solved()
  {
    var setup := SetupCube();
    solvable := CompareTwoCubes(c, setup);
  }

  lemma PredefinedNonEmpty(ms: seq<string>)
    requires AllPredefined(ms)
    ensures NonEmptyTokens(ms)
  {
  }

  /** Recording a and then b since (s0, c0) is recording a + b. */
  lemma Chain(s0: seq<string>, c0: Cube, a: seq<string>, b: seq<string>)
    ensures (s0 + a) + b == s0 + (a + b)
    ensures ApplyTokens(ApplyTokens(c0, a), b) == ApplyTokens(c0, a + b)
  {
    AppendAssoc(s0, a, b);
    ApplyTokensAppend(c0, a, b);
  }

  class CubeSolver {
    var cube: Cube
    var fakeCube: Cube
    var solverMoves: seq<string>

    /** Both grids start solved (the shadow cube starts as the displayed one), and no
      * move is recorded. */
    constructor ()
      ensures cube == Solved() && fakeCube == Solved() && solverMoves == []
    {
      var c := SetupCube();
      cube := c;
      fakeCube := c;
      solverMoves := [];
    }

    /** Since the state (s0, c0), the moves ms were recorded and played on the shadow
      * cube, and the displayed cube was left alone. */
    ghost predicate Recorded(s0: seq<string>, c0: Cube, cube0: Cube, ms: seq<string>)
      reads this
    {
      solverMoves == s0 + ms && fakeCube == ApplyTokens(c0, ms) && cube == cube0
    }

    /** Record each move and play its slice codes on the shadow cube, one slot of its
      * translation at a time. */
    method AddToSolverMoves(moves: seq<string>)
      modifies this
      ensures Recorded(old(solverMoves), old(fakeCube), old(cube), moves)
    {
      var i := 0;
      while i < |moves|
        invariant 0 <= i <= |moves|
        invariant Recorded(old(solverMoves), old(fakeCube), old(cube), moves[..i])
      {
        var move := moves[i];
        solverMoves := solverMoves + [move];
        fakeCube := PlayToken(fakeCube, move);
        assert moves[..i + 1] == moves[..i] + [move];
        i := i + 1;
      }
      assert moves[..|moves|] == moves;
    }

    // -------------------------------------------------------------------------
    // The white cross.

    /** The colour scan of the six centres, and the rotation that brings white down. */
    method OrientWhite()
      modifies this
      ensures Recorded(old(solverMoves), old(fakeCube), old(cube), OrientMoves(Stages.InitWhiteFace(old(fakeCube))))
    {
      var initWhiteFace := -1;
      var countFace := 0;
      while countFace < Faces
        invariant 0 <= countFace <= 6
        invariant initWhiteFace == Stages.LastWhiteCentre(fakeCube, countFace)
      {
        if fakeCube[Idx(At(CentralPieces[countFace], countFace))] == White {
          initWhiteFace := countFace;
        }
        countFace := countFace + 1;
      }
      AddToSolverMoves(OrientMoves(initWhiteFace));
    }

    /** Append moves to the record of the run since (s0, c0), as AddToSolverMoves
      * does. */
    method Record(moves: seq<string>, ghost s0: seq<string>, ghost c0: Cube, ghost cube0: Cube, ghost added: seq<string>)
      requires Recorded(s0, c0, cube0, added)
      modifies this
      ensures Recorded(s0, c0, cube0, added + moves)
      ensures fakeCube == ApplyTokens(old(fakeCube), moves)
    {
      AddToSolverMoves(moves);
      Chain(s0, c0, added, moves);
    }

    /** One white edge: the do-while loop of at most ten tries. */
    method PlaceCrossEdge(colour: Colour) returns (ok: bool, tries: nat)
      modifies this
      ensures var r := Stages.CrossEdgeLoop(old(fakeCube), colour, 0);
        Recorded(old(solverMoves), old(fakeCube), old(cube), r.moves) && ok == r.ok
      ensures 1 <= tries <= 10
    {
      ghost var c0, s0, added: seq<string> := fakeCube, solverMoves, [];
      ghost var target := Stages.CrossEdgeLoop(c0, colour, 0);
      ThenEmpty(target);
      var edgePiecePos := -1;
      var stopCount := 0;
      var going := true;
      ok := true;
      assert CrossEdgeAfter(c0, colour, added, fakeCube, stopCount);
      while going
        invariant 0 <= stopCount <= 10
        invariant !going ==> 1 <= stopCount
        invariant Recorded(s0, c0, old(cube), added)
        invariant going ==> ok && CrossEdgeAfter(c0, colour, added, fakeCube, stopCount)
        invariant !going ==> Stages.Outcome(added, ok) == target
        decreases 10 - stopCount
      {
        var found, ms;
        found, edgePiecePos, ms := CrossEdgeTry(colour, c0, s0, old(cube), added, stopCount);
        stopCount := stopCount + 1;
        if found {
          added := added + ms;
          going := edgePiecePos != 0 && stopCount < 10;
        } else {
          ok, going := false, false;
        }
      }
      tries := stopCount;
    }

    /** One try of the white edge loop: locate the edge and record the moves for
      * where it is and which way its white slot faces. */
    method CrossEdgeTry(colour: Colour, ghost c0: Cube, ghost s0: seq<string>, ghost cube0: Cube,
                        ghost added: seq<string>, ghost done: nat)
      returns (found: bool, edgePiecePos: int, ms: seq<string>)
      requires Recorded(s0, c0, cube0, added) && CrossEdgeAfter(c0, colour, added, fakeCube, done)
      modifies this
      ensures !found ==> (Recorded(s0, c0, cube0, added) &&
        Stages.Outcome(added, false) == Stages.CrossEdgeLoop(c0, colour, 0))
      ensures found ==> (Recorded(s0, c0, cube0, added + ms) &&
        (edgePiecePos != 0 && done + 1 < 10 ==> CrossEdgeAfter(c0, colour, added + ms, fakeCube, done + 1)) &&
        (!(edgePiecePos != 0 && done + 1 < 10) ==> Stages.Outcome(added + ms, true) == Stages.CrossEdgeLoop(c0, colour, 0)))
    {
      ghost var c := fakeCube;
      var pos, whiteFace, _ := LocateEdge(fakeCube, White, colour);
      if pos.None? {
        CrossEdgeStop(c0, colour, added, c, done);
        return false, -1, [];
      }
      found, edgePiecePos := true, pos.value;
      ms := CrossMoves(edgePiecePos, whiteFace);
      Record(ms, s0, c0, cube0, added);
      CrossEdgeAdvance(c0, colour, added, c, done, edgePiecePos, whiteFace, ms, fakeCube);
    }

    /** The four white edges, each followed by a y rotation. */
    method PlaceCrossEdges() returns (ok: bool)
      modifies this
      ensures var r := Stages.CrossEdges(old(fakeCube), 0);
        Recorded(old(solverMoves), old(fakeCube), old(cube), r.moves) && ok == r.ok
    {
      ghost var c1, s0, added: seq<string> := fakeCube, solverMoves, [];
      ThenEmpty(Stages.CrossEdges(c1, 0));
      for count := 0 to 4
        invariant Recorded(s0, c1, old(cube), added)
        invariant CrossEdgesAfter(c1, added, fakeCube, count)
      {
        ghost var c := fakeCube;
        ghost var e := Stages.CrossEdgeLoop(c, SwitchFaces[2][count], 0);
        CrossEdgesAdvance(c1, added, c, count, e, ApplyTokens(ApplyTokens(c, e.moves), ["y"]));
        var tries;
        ok, tries := PlaceCrossEdge(SwitchFaces[2][count]);
        Chain(s0, c1, added, e.moves);
        if !ok {
          return;
        }
        Record(["y"], s0, c1, old(cube), added + e.moves);
        added := added + e.moves + ["y"];
      }
      CrossEdgesDone(c1, added, fakeCube);
      ok := true;
    }

    /** Turn the middle layer until the bottom front edge matches the front centre,
      * at most four times. */
    method AlignMiddle()
      modifies this
      ensures Recorded(old(solverMoves), old(fakeCube), old(cube), Stages.AlignCross(old(fakeCube), 0))
    {
      ghost var c2, s0, added: seq<string> := fakeCube, solverMoves, [];
      var count := 0;
      while count < 4
        invariant count <= 4
        invariant Recorded(s0, c2, old(cube), added)
        invariant AlignAfter(c2, added, fakeCube, count)
      {
        AlignAdvance(c2, added, fakeCube, count, ApplyTokens(fakeCube, ["E"]));
        if fakeCube[Idx(Facelet(1, 0, 2, 0))] == fakeCube[Idx(Facelet(1, 1, 2, 0))] {
          return;
        }
        Record(["E"], s0, c2, old(cube), added);
        added := added + ["E"];
        count := count + 1;
      }
      AlignDone(c2, added, fakeCube);
    }

    /** The white cross stage: white down, the four white edges, the alignment. */
    method WhiteCross() returns (ok: bool)
      modifies this
      ensures var r := Stages.WhiteCross(old(fakeCube));
        Recorded(old(solverMoves), old(fakeCube), old(cube), r.moves) && ok == r.ok
    {
      ghost var c, s0 := fakeCube, solverMoves;
      OrientWhite();
      ghost var o := OrientMoves(Stages.InitWhiteFace(c));
      ghost var c1 := fakeCube;
      ok := PlaceCrossEdges();
      ghost var e := Stages.CrossEdges(c1, 0);
      Chain(s0, c, o, e.moves);
      ghost var c2 := fakeCube;
      WhiteCrossStep(c, o, c1, e, Stages.AlignCross(c2, 0));
      if !ok {
        return;
      }
      AlignMiddle();
      Chain(s0, c, o + e.moves, Stages.AlignCross(c2, 0));
    }

    // -------------------------------------------------------------------------
    // The first two layers.

    /** The count-th first-layer corner: the do-while loop that ends once the
      * corner has been found at the front right three times, or after ten tries.
      * The two side slots are those of the corner located last. */
    method PlaceCorner(count: nat) returns (ok: bool, secondFace: int, thirdFace: int, tries: nat)
      requires count < 4
      modifies this
      ensures var r := Stages.CornerLoop(old(fakeCube), count, 0, 0);
        Recorded(old(solverMoves), old(fakeCube), old(cube), r.out.moves) && ok == r.out.ok &&
        secondFace == r.secondFace && thirdFace == r.thirdFace
      ensures 1 <= tries <= 10
    {
      ghost var c0, s0, added: seq<string> := fakeCube, solverMoves, [];
      ghost var target := Stages.CornerLoop(c0, count, 0, 0);
      ThenRunEmpty(target);
      var cornerPiecePos := -1;
      var finishCount := 0;
      var stopCount := 0;
      var going := true;
      secondFace, thirdFace := -1, -1;
      ok := true;
      assert CornerAfter(c0, count, added, fakeCube, stopCount, finishCount);
      while going
        invariant 0 <= stopCount <= 10
        invariant !going ==> 1 <= stopCount
        invariant Recorded(s0, c0, old(cube), added)
        invariant going ==> ok && CornerAfter(c0, count, added, fakeCube, stopCount, finishCount)
        invariant !going ==> Stages.CornerRun(Stages.Outcome(added, ok), secondFace, thirdFace) == target
        decreases 10 - stopCount
      {
        var found, second, third, ms;
        found, cornerPiecePos, finishCount, second, third, ms := CornerTry(count, c0, s0, old(cube), added, stopCount, finishCount);
        stopCount := stopCount + 1;
        if found {
          added := added + ms;
          secondFace, thirdFace := second, third;
          going := finishCount < 3 && stopCount < 10;
        } else {
          ok, going := false, false;
          secondFace, thirdFace := -1, -1;
        }
      }
      tries := stopCount;
    }

    /** One try of the corner loop: locate the corner, record the moves for where
      * it is, and count the tries that find it at the front right. */
    method CornerTry(count: nat, ghost c0: Cube, ghost s0: seq<string>, ghost cube0: Cube, ghost added: seq<string>,
                     ghost done: nat, finish: nat)
      returns (found: bool, cornerPiecePos: int, finishCount: nat, second: int, third: int, ms: seq<string>)
      requires Recorded(s0, c0, cube0, added) && CornerAfter(c0, count, added, fakeCube, done, finish)
      modifies this
      ensures !found ==> (Recorded(s0, c0, cube0, added) &&
        Stages.CornerRun(Stages.Outcome(added, false), -1, -1) == Stages.CornerLoop(c0, count, 0, 0))
      ensures found ==> (Recorded(s0, c0, cube0, added + ms) &&
        finishCount == (if cornerPiecePos == 2 then finish + 1 else finish) &&
        (finishCount < 3 && done + 1 < 10 ==> CornerAfter(c0, count, added + ms, fakeCube, done + 1, finishCount)) &&
        (!(finishCount < 3 && done + 1 < 10) ==>
          Stages.CornerRun(Stages.Outcome(added + ms, true), second, third) == Stages.CornerLoop(c0, count, 0, 0)))
    {
      ghost var c := fakeCube;
      var pos, whiteFace;
      pos, whiteFace, second, third := LocateCorner(fakeCube, White, SwitchFaces[2][count], SwitchFaces[2][count + 1]);
      if pos.None? {
        CornerStop(c0, count, added, c, done, finish);
        return false, -1, finish, -1, -1, [];
      }
      found, cornerPiecePos := true, pos.value;
      ms := CornerMoves(cornerPiecePos, whiteFace);
      finishCount := if cornerPiecePos == 2 then finish + 1 else finish;
      Record(ms, s0, c0, cube0, added);
      CornerAdvance(c0, count, added, c, done, finish, cornerPiecePos, whiteFace, ms, finishCount, fakeCube);
    }

    /** The count-th middle-layer edge: the do-while loop that ends once the edge
      * is paired with its corner, or after ten tries. */
    method PairEdge(count: nat, secondFace: int, thirdFace: int) returns (ok: bool, tries: nat)
      requires count < 4
      modifies this
      ensures var r := Stages.PairLoop(old(fakeCube), count, secondFace, thirdFace, 0);
        Recorded(old(solverMoves), old(fakeCube), old(cube), r.moves) && ok == r.ok
      ensures 1 <= tries <= 10
    {
      ghost var c0, s0, added: seq<string> := fakeCube, solverMoves, [];
      ghost var target := Stages.PairLoop(c0, count, secondFace, thirdFace, 0);
      ThenEmpty(target);
      var edgePiecePos := -1;
      var stopCount := 0;
      var finishFlag := false;
      var going := true;
      ok := true;
      assert PairAfter(c0, count, secondFace, thirdFace, added, fakeCube, stopCount);
      while going
        invariant 0 <= stopCount <= 10
        invariant !going ==> 1 <= stopCount
        invariant Recorded(s0, c0, old(cube), added)
        invariant going ==> ok && PairAfter(c0, count, secondFace, thirdFace, added, fakeCube, stopCount)
        invariant !going ==> Stages.Outcome(added, ok) == target
        decreases 10 - stopCount
      {
        var found, ms;
        found, edgePiecePos, finishFlag, ms := PairTry(count, secondFace, thirdFace, c0, s0, old(cube), added, stopCount);
        stopCount := stopCount + 1;
        if found {
          added := added + ms;
          going := !finishFlag && stopCount < 10;
        } else {
          ok, going := false, false;
        }
      }
      tries := stopCount;
    }

    /** One try of the pairing loop: locate the middle-layer edge and record the
      * moves for where it is and how it is turned. */
    method PairTry(count: nat, secondFace: int, thirdFace: int, ghost c0: Cube, ghost s0: seq<string>, ghost cube0: Cube,
                   ghost added: seq<string>, ghost done: nat)
      returns (found: bool, edgePiecePos: int, finishFlag: bool, ms: seq<string>)
      requires Recorded(s0, c0, cube0, added) && PairAfter(c0, count, secondFace, thirdFace, added, fakeCube, done)
      modifies this
      ensures !found ==> (Recorded(s0, c0, cube0, added) &&
        Stages.Outcome(added, false) == Stages.PairLoop(c0, count, secondFace, thirdFace, 0))
      ensures found ==> (Recorded(s0, c0, cube0, added + ms) && finishFlag == PairFinished(edgePiecePos) &&
        (!finishFlag && done + 1 < 10 ==> PairAfter(c0, count, secondFace, thirdFace, added + ms, fakeCube, done + 1)) &&
        (!(!finishFlag && done + 1 < 10) ==>
          Stages.Outcome(added + ms, true) == Stages.PairLoop(c0, count, secondFace, thirdFace, 0)))
    {
      ghost var c := fakeCube;
      var pos, first, second := LocateEdge(fakeCube, SwitchFaces[2][count], SwitchFaces[2][count + 1]);
      if pos.None? {
        PairStop(c0, count, secondFace, thirdFace, added, c, done);
        return false, -1, false, [];
      }
      found, edgePiecePos := true, pos.value;
      ms := PairMoves(edgePiecePos, first == secondFace, second == thirdFace);
      finishFlag := PairFinished(edgePiecePos);
      Record(ms, s0, c0, cube0, added);
      PairAdvance(c0, count, secondFace, thirdFace, added, c, done, edgePiecePos, first, second, ms, fakeCube);
    }

    /** The first two layers: four corner and edge pairs, each followed by y. */
    method IntuitiveF2L() returns (ok: bool)
      modifies this
      ensures var r := Stages.F2L(old(fakeCube));
        Recorded(old(solverMoves), old(fakeCube), old(cube), r.moves) && ok == r.ok
    {
      ghost var c0, s0, added: seq<string> := fakeCube, solverMoves, [];
      ThenEmpty(Stages.F2LSlots(c0, 0));
      for count := 0 to 4
        invariant Recorded(s0, c0, old(cube), added)
        invariant F2LAfter(c0, added, fakeCube, count)
      {
        ghost var c := fakeCube;
        ghost var cr := Stages.CornerLoop(c, count, 0, 0);
        ghost var d := ApplyTokens(c, cr.out.moves);
        ghost var p := Stages.PairLoop(d, count, cr.secondFace, cr.thirdFace, 0);
        ghost var d2 := ApplyTokens(ApplyTokens(d, p.moves), ["y"]);
        F2LStop(c0, added, c, count, cr, d, p, d2);
        var secondFace, thirdFace;
        var cornerTries, edgeTries;
        ok, secondFace, thirdFace, cornerTries := PlaceCorner(count);
        Chain(s0, c0, added, cr.out.moves);
        if !ok {
          return;
        }
        ok, edgeTries := PairEdge(count, secondFace, thirdFace);
        Chain(s0, c0, added + cr.out.moves, p.moves);
        if !ok {
          return;
        }
        F2LAdvance(c0, added, c, count, cr, d, p, d2);
        Record(["y"], s0, c0, old(cube), added + cr.out.moves + p.moves);
        added := added + cr.out.moves + p.moves + ["y"];
      }
      F2LDone(c0, added, fakeCube);
      ok := true;
    }

    // -------------------------------------------------------------------------
    // Orientation of the last layer.

    /** Which top edges show yellow on top, and how many. */
    method ScanTopEdges() returns (situation: seq<bool>, countEdgePieces: nat)
      ensures situation == Stages.Situation(fakeCube) && countEdgePieces == Stages.CountTrue(situation)
    {
      situation := [false, false, false, false];
      countEdgePieces := 0;
      for count := 0 to 4
        invariant |situation| == 4
        invariant forall j | 0 <= j < count :: situation[j] == Stages.TopEdgeYellow(fakeCube, j)
        invariant forall j | count <= j < 4 :: !situation[j]
        invariant countEdgePieces == Stages.CountTrue(situation[..count])
      {
        var e := EdgePieces[UEdgePieces[count]];
        if fakeCube[Idx(Facelet(e.x, e.y, e.z, 1))] == Yellow {
          situation := situation[count := true];
          countEdgePieces := countEdgePieces + 1;
        }
        assert situation[..count + 1][..count] == situation[..count];
      }
      assert situation[..4] == situation;
    }

    /** First look: the edge-orientation moves until all four top edges show
      * yellow, for at most ten tries. */
    method OllEdges() returns (tries: nat)
      modifies this
      ensures Recorded(old(solverMoves), old(fakeCube), old(cube), Stages.OllEdgeLoop(old(fakeCube), 0))
      ensures 1 <= tries <= 10
    {
      ghost var c0, s0, added: seq<string> := fakeCube, solverMoves, [];
      ghost var target := Stages.OllEdgeLoop(c0, 0);
      var stopCount := 0;
      var finishFlag := false;
      var going := true;
      assert OllEdgeAfter(c0, added, fakeCube, stopCount);
      while going
        invariant 0 <= stopCount <= 10
        invariant !going ==> 1 <= stopCount
        invariant Recorded(s0, c0, old(cube), added)
        invariant going ==> OllEdgeAfter(c0, added, fakeCube, stopCount)
        invariant !going ==> added == target
        decreases 10 - stopCount
      {
        ghost var c, done := fakeCube, stopCount;
        stopCount := stopCount + 1;
        var situation, countEdgePieces := ScanTopEdges();
        var ms := OllEdgeMoves(situation, countEdgePieces);
        finishFlag := countEdgePieces == 4;
        Record(ms, s0, c0, old(cube), added);
        OllEdgeAdvance(c0, added, c, done, countEdgePieces, ms, fakeCube);
        added := added + ms;
        going := !finishFlag && stopCount < 10;
        assert going ==> OllEdgeAfter(c0, added, fakeCube, stopCount);
      }
      tries := stopCount;
    }

    /** Whether all nine top slots show yellow. */
    method TopFaceYellow() returns (checkFlag: bool)
      ensures checkFlag == Stages.TopYellow(fakeCube)
    {
      checkFlag := true;
      for countX := 0 to 3
        invariant checkFlag <==> forall x: Coord, z: Coord | x < countX :: fakeCube[Idx(Facelet(x, 2, z, 1))] == Yellow
      {
        for countZ := 0 to 3
          invariant checkFlag <==> (forall x: Coord, z: Coord | x < countX :: fakeCube[Idx(Facelet(x, 2, z, 1))] == Yellow) &&
                                   (forall z: Coord | z < countZ :: fakeCube[Idx(Facelet(countX, 2, z, 1))] == Yellow)
        {
          if fakeCube[Idx(Facelet(countX, 2, countZ, 1))] != Yellow {
            checkFlag := false;
          }
        }
      }
    }

    /** Whether the four slots of the count2-th corner case all show yellow. */
    method PatternCheck(count2: nat) returns (situation2Flag: bool)
      requires count2 < 7
      ensures situation2Flag == Stages.PatternHolds(fakeCube, count2)
    {
      situation2Flag := true;
      for j := 0 to 4
        invariant situation2Flag <==> forall i | 0 <= i < j :: fakeCube[Idx(OllPatterns[count2][i])] == Yellow
      {
        if fakeCube[Idx(OllPatterns[count2][j])] != Yellow {
          situation2Flag := false;
        }
      }
    }

    /** The first corner case that holds; 7 when none does. */
    method MatchPattern() returns (count2: nat)
      ensures count2 == Stages.FirstPattern(fakeCube, 0)
    {
      count2 := 0;
      while count2 < 7
        invariant count2 <= 7
        invariant Stages.FirstPattern(fakeCube, count2) == Stages.FirstPattern(fakeCube, 0)
      {
        var situation2Flag := PatternCheck(count2);
        if situation2Flag {
          return;
        }
        count2 := count2 + 1;
      }
    }

    /** Second look: stop when the top face is yellow; otherwise the algorithm of
      * the first corner case that holds, or U and another try, at most ten tries. */
    method OllCorners() returns (tries: nat)
      modifies this
      ensures Recorded(old(solverMoves), old(fakeCube), old(cube), Stages.OllCornerLoop(old(fakeCube), 0))
      ensures 1 <= tries <= 10
    {
      ghost var c0, s0, added: seq<string> := fakeCube, solverMoves, [];
      ghost var target := Stages.OllCornerLoop(c0, 0);
      var situation2Flag := false;
      var stopCount := 0;
      var going := true;
      assert OllCornerAfter(c0, added, fakeCube, stopCount);
      while going
        invariant 0 <= stopCount <= 10
        invariant !going ==> 1 <= stopCount
        invariant Recorded(s0, c0, old(cube), added)
        invariant going ==> OllCornerAfter(c0, added, fakeCube, stopCount)
        invariant !going ==> added == target
        decreases 10 - stopCount
      {
        ghost var c, done := fakeCube, stopCount;
        stopCount := stopCount + 1;
        OllCornerAdvance(c0, added, c, done, Stages.FirstPattern(c, 0), ApplyTokens(c, ["U"]));
        var checkFlag := TopFaceYellow();
        if checkFlag {
          return stopCount;
        }
        var count2 := MatchPattern();
        situation2Flag := count2 < 7;
        if situation2Flag {
          Record(OllInstructions[count2], s0, c0, old(cube), added);
          added := added + OllInstructions[count2];
        } else {
          Record(["U"], s0, c0, old(cube), added);
          added := added + ["U"];
        }
        going := !situation2Flag && stopCount < 10;
        assert going ==> OllCornerAfter(c0, added, fakeCube, stopCount);
      }
      tries := stopCount;
    }

    /** The orientation stage: its two looks. */
    method TwoLookOll()
      modifies this
      ensures Recorded(old(solverMoves), old(fakeCube), old(cube), Stages.Oll(old(fakeCube)))
    {
      ghost var c, s0 := fakeCube, solverMoves;
      var edgeTries := OllEdges();
      ghost var a := Stages.OllEdgeLoop(c, 0);
      var cornerTries := OllCorners();
      ghost var b := Stages.OllCornerLoop(ApplyTokens(c, a), 0);
      Chain(s0, c, a, b);
      OllStep(c, a, b);
    }

    // -------------------------------------------------------------------------
    // Permutation of the last layer.

    /** The top-layer position of a corner cubie: the last of the four top corners
      * it is; -1 when it is none of them. */
    method TopCornerPos(pieceXYZ: Cubie) returns (cornerPiecePos: int)
      ensures cornerPiecePos == Stages.UCornerPos(pieceXYZ, 4)
    {
      cornerPiecePos := -1;
      for count := 0 to 4
        invariant cornerPiecePos == Stages.UCornerPos(pieceXYZ, count)
      {
        if pieceXYZ == CornerPieces[UCornerPieces[count]] {
          cornerPiecePos := count;
        }
      }
    }

    /** The three other top corners located in turn, and those not in place among
      * them; found is false when a locator fails. */
    method CornerWarningScan() returns (found: bool, warningCornerPiecesPos: seq<int>)
      ensures found <==> FirstCorner(fakeCube, Yellow, Blue, Orange, 0) < 8 &&
                         FirstCorner(fakeCube, Yellow, Orange, Green, 0) < 8 && FirstCorner(fakeCube, Yellow, Green, Red, 0) < 8
      ensures found ==> warningCornerPiecesPos == Stages.CornerWarnings(fakeCube)
    {
      var found1, b1 := TopCornerOff(fakeCube, Blue, Orange, 1);
      if !found1 {
        return false, [];
      }
      var found2, b2 := TopCornerOff(fakeCube, Orange, Green, 2);
      if !found2 {
        return false, [];
      }
      var found3, b3 := TopCornerOff(fakeCube, Green, Red, 3);
      if !found3 {
        return false, [];
      }
      warningCornerPiecesPos := (if b1 then [1] else []) + (if b2 then [2] else []) + (if b3 then [3] else []);
      CornerWarningsOf(fakeCube, b1, b2, b3);
      found := true;
    }

    /** First look: bring the yellow-red-blue corner to the front left, then swap
      * the top corners by which of them are not in place. */
    method PllCorners() returns (ok: bool)
      modifies this
      ensures var r := Stages.PllCorners(old(fakeCube));
        Recorded(old(solverMoves), old(fakeCube), old(cube), r.moves) && ok == r.ok
    {
      ghost var c, s0 := fakeCube, solverMoves;
      var pieceXYZ := LocateCornerCubie(fakeCube, Yellow, Red, Blue);
      if pieceXYZ.None? {
        assert s0 + [] == s0;
        return false;
      }
      ghost var k1 := FirstCorner(c, Yellow, Red, Blue, 0);
      var cornerPiecePos := TopCornerPos(pieceXYZ.value);
      var a := PllAlignMoves(cornerPiecePos);
      AddToSolverMoves(a);
      PllCornersStep(c, k1, a, fakeCube);
      var found, warningCornerPiecesPos := CornerWarningScan();
      if !found {
        return false;
      }
      var b := PllCornerMoves(warningCornerPiecesPos, fakeCube[Idx(Facelet(0, 2, 0, 2))] == Green);
      AddToSolverMoves(b);
      Chain(s0, c, a, b);
      ok := true;
    }

    /** The top edges whose side slot differs from the slot below it. */
    method EdgeWarningScan() returns (warningEdgePiecesPos: seq<int>)
      ensures warningEdgePiecesPos == Stages.EdgeWarnings(fakeCube, 4)
    {
      warningEdgePiecesPos := [];
      for count := 0 to 4
        invariant warningEdgePiecesPos == Stages.EdgeWarnings(fakeCube, count)
      {
        var e := EdgePieces[UEdgePieces[count]];
        if fakeCube[Idx(Facelet(e.x, e.y, e.z, SwitchFaces[1][count]))] != fakeCube[Idx(Facelet(e.x, e.y - 1, e.z, SwitchFaces[1][count]))] {
          warningEdgePiecesPos := warningEdgePiecesPos + [count];
        }
      }
    }

    /** Second look: the edge cycle, turned to the free edge and back, or the swap. */
    method PllEdges()
      modifies this
      ensures Recorded(old(solverMoves), old(fakeCube), old(cube), Stages.PllEdges(old(fakeCube)))
    {
      ghost var c, s0 := fakeCube, solverMoves;
      var warningEdgePiecesPos := EdgeWarningScan();
      var pre := PllEdgePreMoves(warningEdgePiecesPos);
      PllEdgesStep(c, warningEdgePiecesPos, pre, ApplyTokens(c, pre));
      if |warningEdgePiecesPos| == 3 {
        AddToSolverMoves(pre);
        var cycle := PllEdgeCycle(fakeCube[Idx(Facelet(1, 2, 2, 0))] == fakeCube[Idx(Facelet(0, 1, 1, 4))]);
        AddToSolverMoves(cycle);
        Chain(s0, c, pre, cycle);
        var afterMove := PllEdgeAfterMoves(warningEdgePiecesPos);
        AddToSolverMoves(afterMove);
        Chain(s0, c, pre + cycle, afterMove);
      } else if |warningEdgePiecesPos| == 4 {
        var swap := PllEdgeSwap(fakeCube[Idx(Facelet(1, 2, 2, 0))] == fakeCube[Idx(Facelet(0, 1, 1, 4))],
                                fakeCube[Idx(Facelet(1, 2, 2, 0))] == fakeCube[Idx(Facelet(1, 1, 0, 2))]);
        AddToSolverMoves(swap);
      } else {
        assert s0 + [] == s0;
      }
    }

    /** The permutation stage: its two looks. */
    method TwoLookPll() returns (ok: bool)
      modifies this
      ensures var r := Stages.Pll(old(fakeCube));
        Recorded(old(solverMoves), old(fakeCube), old(cube), r.moves) && ok == r.ok
    {
      ghost var c, s0 := fakeCube, solverMoves;
      ok := PllCorners();
      ghost var k := Stages.PllCorners(c);
      ghost var e := Stages.PllEdges(ApplyTokens(c, k.moves));
      PllStep(c, k, e);
      if !ok {
        return;
      }
      PllEdges();
      Chain(s0, c, k.moves, e);
    }

    // -------------------------------------------------------------------------
    // The whole run.

    /** The four stages and the closing x. A stage whose locator fails ends the run
      * there, as the exception it raises in the program does. */
    method RunStages() returns (ok: bool)
      modifies this
      ensures var r := Stages.Pipeline(old(fakeCube));
        Recorded(old(solverMoves), old(fakeCube), old(cube), r.moves) && ok == r.ok
    {
      ghost var c, s0 := fakeCube, solverMoves;
      ghost var w := Stages.WhiteCross(c);
      ghost var f := Stages.F2L(ApplyTokens(c, w.moves));
      ghost var wf := w.moves + f.moves;
      ghost var c2 := ApplyTokens(c, wf);
      ghost var o := Stages.Oll(c2);
      ghost var p := Stages.Pll(ApplyTokens(c2, o));
      ghost var l := Stages.LastLayer(c2);
      PipelineStep(c, w, f, l);
      LastLayerStep(c2, o, p);
      ok := WhiteCross();
      if !ok {
        return;
      }
      ok := IntuitiveF2L();
      Chain(s0, c, w.moves, f.moves);
      if !ok {
        return;
      }
      TwoLookOll();
      Chain(s0, c, wf, o);
      ok := TwoLookPll();
      Chain(s0, c, wf + o, p.moves);
      AppendAssoc(wf, o, p.moves);
      if !ok {
        return;
      }
      AddToSolverMoves(Stages.Closing());
      Chain(s0, c, wf + l.moves, Stages.Closing());
    }

    /** The solver: clear the record, run the stages on the shadow cube, and shorten
      * the record of a completed run. The shortened record does to every cube what
      * the recorded moves do, and neither rewrite of the optimiser applies to it. */
    method Solver() returns (ok: bool)
      modifies this
      ensures var r := Stages.Pipeline(old(fakeCube));
        ok == r.ok && cube == old(cube) && fakeCube == ApplyTokens(old(fakeCube), r.moves) &&
        (!ok ==> solverMoves == r.moves) &&
        (ok ==> NonEmptyTokens(solverMoves) && Irreducible(solverMoves) && AllPredefined(solverMoves) &&
                |solverMoves| <= |r.moves| && SameEffect(solverMoves, r.moves))
    {
      ghost var r := Stages.Pipeline(fakeCube);
      solverMoves := [];
      ok := RunStages();
      assert [] + r.moves == r.moves;
      if ok {
        PredefinedNonEmpty(solverMoves);
        solverMoves := Shorten(solverMoves);
      }
    }

    /** The solver with the program's own optimiser loop, allowed at most `fuel`
      * rounds. When that loop stops, the record is what it leaves, which does what
      * the stages' moves do but need not be irreducible; when it is still going,
      * stopped is false and the record is the stages' moves. */
    method SolverAsWritten(fuel: nat) returns (ok: bool, stopped: bool)
      modifies this
      ensures var r := Stages.Pipeline(old(fakeCube));
        ok == r.ok && cube == old(cube) && fakeCube == ApplyTokens(old(fakeCube), r.moves) &&
        (!ok ==> !stopped && solverMoves == r.moves) &&
        (ok ==> (NonEmptyTokens(r.moves) &&
          var w := ShortenAsWritten(r.moves, true, true, fuel);
          stopped == w.Some? && solverMoves == (if stopped then w.value else r.moves) &&
          (stopped ==> AllPredefined(solverMoves) && SameEffect(solverMoves, r.moves))))
    {
      ghost var r := Stages.Pipeline(fakeCube);
      solverMoves := [];
      ok := RunStages();
      assert [] + r.moves == r.moves;
      stopped := false;
      if ok {
        PredefinedNonEmpty(solverMoves);
        var w := ShortenWithin(solverMoves, fuel);
        if w.Some? {
          solverMoves := w.value;
          stopped := true;
        }
      }
    }

    /** Whether the displayed cube can be solved: the stages run on it, and the
      * result is compared with a solved cube. A failed locator ends the run early,
      * and the cube it leaves is the one compared. The shadow cube is then reset
      * to the displayed one, and the moves of the run stay recorded. */
    method PossibleCube() returns (solvable: bool)
      modifies this
      ensures var r := Stages.Pipeline(old(cube));
        (solvable <==> ApplyTokens(old(cube), r.moves) == Solved()) &&
        fakeCube == old(cube) && cube == old(cube) && solverMoves == old(solverMoves) + r.moves
    {
      fakeCube := cube;
      var completed := RunStages();
      solvable := MatchesSolved(fakeCube);
      fakeCube := cube;
    }
  }
}
