/** What each solver stage records, as a function of the shadow cube it starts from.
  * A stage that asks a locator for a piece the cube does not have stops there, and
  * so does the whole solver run: its outcome keeps the moves recorded up to that
  * point and is marked not completed. */
module Stages {
  import opened CubeState
  import opened Moves
  import opened PieceLocator
  import opened SolverTables

  datatype Outcome = Outcome(moves: seq<string>, ok: bool)

  /** Joining lists of predefined tokens gives a list of predefined tokens. */
  lemma Joined(a: seq<string>, b: seq<string>)
    requires AllPredefined(a) && AllPredefined(b)
    ensures AllPredefined(a + b)
  {
  }

  /** Two lists, a whole-cube y and a third list, all of predefined tokens. */
  lemma JoinedTurn(a: seq<string>, b: seq<string>, rest: seq<string>)
    requires AllPredefined(a) && AllPredefined(b) && AllPredefined(rest)
    ensures AllPredefined(a + b + ["y"] + rest)
  {
    Joined(a, b);
    Joined(a + b, ["y"]);
    Joined(a + b + ["y"], rest);
  }

  /** Moves recorded before a later step's outcome. */
  function Then(ms: seq<string>, r: Outcome): Outcome {
    Outcome(ms + r.moves, r.ok)
  }

  // ---------------------------------------------------------------------------
  // The white cross.

  /** The last face, among the first n, whose centre shows white; -1 if none does. */
  function LastWhiteCentre(c: Cube, n: nat): (f: int)
    requires n <= 6
    ensures -1 <= f < n
    ensures f >= 0 ==> c[Idx(At(CentralPieces[f], f))] == White
    ensures forall g | f < g < n :: c[Idx(At(CentralPieces[g], g))] != White
  {
    if n == 0 then -1
    else if c[Idx(At(CentralPieces[n - 1], n - 1))] == White then n - 1
    else LastWhiteCentre(c, n - 1)
  }

  function InitWhiteFace(c: Cube): int {
    LastWhiteCentre(c, 6)
  }

  /** One white edge: locate it, record the moves for its position, and repeat until
    * it is found at the bottom front, for at most ten tries (done tries so far). */
  function CrossEdgeLoop(c: Cube, colour: Colour, done: nat): (r: Outcome)
    requires done < 10
    ensures AllPredefined(r.moves)
    decreases 10 - done
  {
    var k := FirstEdge(c, White, colour, 0);
    if k == 12 then Outcome([], false)
    else
      var ms := CrossMoves(k, LastSlot(c, EdgePieces[k], White, 6));
      if k != 0 && done + 1 < 10 then Then(ms, CrossEdgeLoop(ApplyTokens(c, ms), colour, done + 1))
      else Outcome(ms, true)
  }

  /** The four white edges from the count-th on, each followed by a y rotation. */
  function CrossEdges(c: Cube, count: nat): (r: Outcome)
    requires count <= 4
    ensures AllPredefined(r.moves)
    decreases 4 - count
  {
    if count == 4 then Outcome([], true)
    else
      var e := CrossEdgeLoop(c, SwitchFaces[2][count], 0);
      if !e.ok then e
      else
        var d := ApplyTokens(ApplyTokens(c, e.moves), ["y"]);
        var rest := CrossEdges(d, count + 1);
        Joined(e.moves, ["y"]);
        Joined(e.moves + ["y"], rest.moves);
        Then(e.moves + ["y"], rest)
  }

  /** The bottom front edge's front slot matches the front centre. */
  predicate CrossAligned(c: Cube) {
    c[Idx(Facelet(1, 0, 2, 0))] == c[Idx(Facelet(1, 1, 2, 0))]
  }

  /** Turn the middle layer until the bottom front edge's front slot matches the
    * front centre, at most four times from the count-th on. */
  function AlignCross(c: Cube, count: nat): (r: seq<string>)
    requires count <= 4
    ensures AllPredefined(r)
    decreases 4 - count
  {
    if count == 4 || CrossAligned(c) then []
    else
      var rest := AlignCross(ApplyTokens(c, ["E"]), count + 1);
      Joined(["E"], rest);
      ["E"] + rest
  }

  function WhiteCross(c: Cube): (r: Outcome)
    ensures AllPredefined(r.moves)
  {
    var o := OrientMoves(InitWhiteFace(c));
    var c1 := ApplyTokens(c, o);
    var e := CrossEdges(c1, 0);
    if !e.ok then Then(o, e)
    else
      var a := AlignCross(ApplyTokens(c1, e.moves), 0);
      Joined(o, e.moves);
      Joined(o + e.moves, a);
      Outcome(o + e.moves + a, true)
  }

  // ---------------------------------------------------------------------------
  // The first two layers.

  /** The corner loop's outcome, with the slots of the pair's two colours on the
    * corner it located last. */
  datatype CornerRun = CornerRun(out: Outcome, secondFace: int, thirdFace: int)

  /** Moves recorded before a later corner loop's run. */
  function ThenRun(ms: seq<string>, r: CornerRun): CornerRun {
    CornerRun(Then(ms, r.out), r.secondFace, r.thirdFace)
  }

  /** One first-layer corner: locate it and record the moves for its position, until
    * it has been found three times at the front right or ten tries are made. */
  function CornerLoop(c: Cube, count: nat, done: nat, finish: nat): (r: CornerRun)
    requires count < 4 && done < 10 && finish < 3
    ensures AllPredefined(r.out.moves)
    decreases 10 - done
  {
    var a, b := SwitchFaces[2][count], SwitchFaces[2][count + 1];
    var k := FirstCorner(c, White, a, b, 0);
    if k == 8 then CornerRun(Outcome([], false), -1, -1)
    else
      var piece := CornerPieces[k];
      var ms := CornerMoves(k, LastSlot(c, piece, White, 6));
      var finish' := if k == 2 then finish + 1 else finish;
      if finish' < 3 && done + 1 < 10 then
        ThenRun(ms, CornerLoop(ApplyTokens(c, ms), count, done + 1, finish'))
      else CornerRun(Outcome(ms, true), LastSlot(c, piece, a, 6), LastSlot(c, piece, b, 6))
  }

  /** The matching middle-layer edge: locate it and record the moves for its
    * position, until it is paired or ten tries are made. */
  function PairLoop(c: Cube, count: nat, secondFace: int, thirdFace: int, done: nat): (r: Outcome)
    requires count < 4 && done < 10
    ensures AllPredefined(r.moves)
    decreases 10 - done
  {
    var a, b := SwitchFaces[2][count], SwitchFaces[2][count + 1];
    var k := FirstEdge(c, a, b, 0);
    if k == 12 then Outcome([], false)
    else
      var piece := EdgePieces[k];
      var ms := PairMoves(k, LastSlot(c, piece, a, 6) == secondFace, LastSlot(c, piece, b, 6) == thirdFace);
      if !PairFinished(k) && done + 1 < 10 then Then(ms, PairLoop(ApplyTokens(c, ms), count, secondFace, thirdFace, done + 1))
      else Outcome(ms, true)
  }

  /** The four corner and edge pairs from the count-th on, each followed by y. */
  function F2LSlots(c: Cube, count: nat): (r: Outcome)
    requires count <= 4
    ensures AllPredefined(r.moves)
    decreases 4 - count
  {
    if count == 4 then Outcome([], true)
    else
      var cr := CornerLoop(c, count, 0, 0);
      if !cr.out.ok then cr.out
      else
        var d := ApplyTokens(c, cr.out.moves);
        var p := PairLoop(d, count, cr.secondFace, cr.thirdFace, 0);
        if !p.ok then Then(cr.out.moves, p)
        else
          var d2 := ApplyTokens(ApplyTokens(d, p.moves), ["y"]);
          var rest := F2LSlots(d2, count + 1);
          JoinedTurn(cr.out.moves, p.moves, rest.moves);
          Then(cr.out.moves + p.moves + ["y"], rest)
  }

  function F2L(c: Cube): (r: Outcome)
    ensures AllPredefined(r.moves)
  {
    F2LSlots(c, 0)
  }

  // ---------------------------------------------------------------------------
  // Orientation of the last layer (two looks).

  /** The top slot of the k-th top-layer edge shows yellow. */
  predicate TopEdgeYellow(c: Cube, k: nat)
    requires k < 4
  {
    c[Idx(At(EdgePieces[UEdgePieces[k]], 1))] == Yellow
  }

  function Situation(c: Cube): (s: seq<bool>)
    ensures |s| == 4 && forall k | 0 <= k < 4 :: s[k] == TopEdgeYellow(c, k)
  {
    [TopEdgeYellow(c, 0), TopEdgeYellow(c, 1), TopEdgeYellow(c, 2), TopEdgeYellow(c, 3)]
  }

  function CountTrue(s: seq<bool>): (n: nat)
    ensures n <= |s|
  {
    if s == [] then 0 else CountTrue(s[..|s| - 1]) + (if s[|s| - 1] then 1 else 0)
  }

  /** First look: record the edge-orientation moves until all four top edges show
    * yellow on top, for at most ten tries. */
  function OllEdgeLoop(c: Cube, done: nat): (r: seq<string>)
    requires done < 10
    ensures AllPredefined(r)
    decreases 10 - done
  {
    var s := Situation(c);
    var n := CountTrue(s);
    var ms := OllEdgeMoves(s, n);
    if n != 4 && done + 1 < 10 then
      var rest := OllEdgeLoop(ApplyTokens(c, ms), done + 1);
      Joined(ms, rest);
      ms + rest
    else ms
  }

  /** The whole top face shows yellow. */
  predicate TopYellow(c: Cube) {
    forall x: Coord, z: Coord :: c[Idx(Facelet(x, 2, z, 1))] == Yellow
  }

  /** The four slots of the k-th corner case all show yellow. */
  predicate PatternHolds(c: Cube, k: nat)
    requires k < 7
  {
    forall j | 0 <= j < 4 :: c[Idx(OllPatterns[k][j])] == Yellow
  }

  /** The first corner case from the from-th on that holds; 7 if none does. */
  function FirstPattern(c: Cube, from: nat): (k: nat)
    requires from <= 7
    ensures from <= k <= 7
    ensures k < 7 ==> PatternHolds(c, k)
    ensures forall j | from <= j < k :: !PatternHolds(c, j)
    decreases 7 - from
  {
    if from == 7 then 7
    else if PatternHolds(c, from) then from
    else FirstPattern(c, from + 1)
  }

  /** The top-layer turn tried between corner cases. */
  const UTurn: seq<string> := ["U"]

  /** Second look: stop when the top face is yellow; otherwise record the algorithm of
    * the first corner case that holds, or U when none does and try again, for at
    * most ten tries. */
  function OllCornerLoop(c: Cube, done: nat): (r: seq<string>)
    requires done < 10
    ensures AllPredefined(r)
    decreases 10 - done
  {
    if TopYellow(c) then []
    else
      var p := FirstPattern(c, 0);
      if p < 7 then (OllInstructionsPredefined(p); OllInstructions[p])
      else if done + 1 < 10 then
        var rest := OllCornerLoop(ApplyTokens(c, UTurn), done + 1);
        Joined(UTurn, rest);
        UTurn + rest
      else UTurn
  }

  function Oll(c: Cube): (r: seq<string>)
    ensures AllPredefined(r)
  {
    var a := OllEdgeLoop(c, 0);
    var b := OllCornerLoop(ApplyTokens(c, a), 0);
    Joined(a, b);
    a + b
  }

  // ---------------------------------------------------------------------------
  // Permutation of the last layer (two looks).

  /** The last of the first n top corners that is the given cubie; -1 if none is. */
  function UCornerPos(piece: Cubie, n: nat): (k: int)
    requires n <= 4
    ensures -1 <= k < n
  {
    if n == 0 then -1
    else if piece == CornerPieces[UCornerPieces[n - 1]] then n - 1
    else UCornerPos(piece, n - 1)
  }

  /** The k-th top edge's side slot differs from the slot below it. */
  predicate EdgeMisplaced(c: Cube, k: nat)
    requires k < 4
  {
    var e := EdgePieces[UEdgePieces[k]];
    c[Idx(Facelet(e.x, e.y, e.z, SwitchFaces[1][k]))] != c[Idx(Facelet(e.x, e.y - 1, e.z, SwitchFaces[1][k]))]
  }

  /** The misplaced top edges among the first n, in increasing order. */
  function EdgeWarnings(c: Cube, n: nat): (w: seq<int>)
    requires n <= 4
    ensures |w| <= n
    ensures forall k | 0 <= k < 4 :: (k in w <==> k < n && EdgeMisplaced(c, k))
  {
    if n == 0 then [] else EdgeWarnings(c, n - 1) + (if EdgeMisplaced(c, n - 1) then [n - 1] else [])
  }

  /** Second look: the edge cycle or swap by the misplaced top edges. */
  function PllEdges(c: Cube): (r: seq<string>)
    ensures AllPredefined(r)
  {
    var w := EdgeWarnings(c, 4);
    if |w| == 3 then
      var pre := PllEdgePreMoves(w);
      var c3 := ApplyTokens(c, pre);
      var cycle := PllEdgeCycle(c3[Idx(Facelet(1, 2, 2, 0))] == c3[Idx(Facelet(0, 1, 1, 4))]);
      Joined(pre, cycle);
      Joined(pre + cycle, PllEdgeAfterMoves(w));
      pre + cycle + PllEdgeAfterMoves(w)
    else if |w| == 4 then
      PllEdgeSwap(c[Idx(Facelet(1, 2, 2, 0))] == c[Idx(Facelet(0, 1, 1, 4))],
                  c[Idx(Facelet(1, 2, 2, 0))] == c[Idx(Facelet(1, 1, 0, 2))])
    else []
  }

  /** The top corners other than the front left one that are not in place: 1, 2 and
    * 3 name the corners with blue and orange, orange and green, green and red. */
  function CornerWarnings(c: Cube): (w: seq<int>)
    requires FirstCorner(c, Yellow, Blue, Orange, 0) < 8
    requires FirstCorner(c, Yellow, Orange, Green, 0) < 8
    requires FirstCorner(c, Yellow, Green, Red, 0) < 8
  {
    (if CornerPieces[FirstCorner(c, Yellow, Blue, Orange, 0)] != CornerPieces[UCornerPieces[1]] then [1] else []) +
    (if CornerPieces[FirstCorner(c, Yellow, Orange, Green, 0)] != CornerPieces[UCornerPieces[2]] then [2] else []) +
    (if CornerPieces[FirstCorner(c, Yellow, Green, Red, 0)] != CornerPieces[UCornerPieces[3]] then [3] else [])
  }

  /** First look: the turn that brings the yellow-red-blue corner to the front left,
    * then the corner swap by the top corners that are not in place. */
  function PllCorners(c: Cube): (r: Outcome)
    ensures AllPredefined(r.moves)
  {
    var k1 := FirstCorner(c, Yellow, Red, Blue, 0);
    if k1 == 8 then Outcome([], false)
    else
      var a := PllAlignMoves(UCornerPos(CornerPieces[k1], 4));
      var c1 := ApplyTokens(c, a);
      if FirstCorner(c1, Yellow, Blue, Orange, 0) == 8 || FirstCorner(c1, Yellow, Orange, Green, 0) == 8 ||
         FirstCorner(c1, Yellow, Green, Red, 0) == 8
      then Outcome(a, false)
      else
        var b := PllCornerMoves(CornerWarnings(c1), c1[Idx(Facelet(0, 2, 0, 2))] == Green);
        Joined(a, b);
        Outcome(a + b, true)
  }

  function Pll(c: Cube): (r: Outcome)
    ensures AllPredefined(r.moves)
  {
    var k := PllCorners(c);
    if !k.ok then k
    else
      var e := PllEdges(ApplyTokens(c, k.moves));
      Joined(k.moves, e);
      Outcome(k.moves + e, true)
  }

  // ---------------------------------------------------------------------------
  // The whole run: the four stages, then x.

  /** The two last-layer stages. */
  function LastLayer(c: Cube): (r: Outcome)
    ensures AllPredefined(r.moves)
  {
    var o := Oll(c);
    var p := Pll(ApplyTokens(c, o));
    Joined(o, p.moves);
    Then(o, p)
  }

  /** The closing rotation every completed run records. */
  function Closing(): (r: seq<string>)
    ensures AllPredefined(r)
  {
    ["x"]
  }

  function Pipeline(c: Cube): (r: Outcome)
    ensures AllPredefined(r.moves)
  {
    var w := WhiteCross(c);
    if !w.ok then w
    else
      var f := F2L(ApplyTokens(c, w.moves));
      Joined(w.moves, f.moves);
      var wf := w.moves + f.moves;
      if !f.ok then Outcome(wf, false)
      else
        var l := LastLayer(ApplyTokens(c, wf));
        Joined(wf, l.moves);
        var wfl := wf + l.moves;
        if !l.ok then Outcome(wfl, false)
        else
          Joined(wfl, Closing());
          Outcome(wfl + Closing(), true)
  }
}
