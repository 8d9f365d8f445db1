/** How far each stage loop has got: after some tries, the moves added since the
  * stage began, followed by what the loop still records from the current shadow
  * cube, are what the stage records from its first cube. Each Step lemma unfolds
  * one try of a loop with its intermediate values named; each Advance or Stop
  * lemma says where that try leaves the loop. */
module StageSteps {
  import opened CubeState
  import opened Moves
  import opened PieceLocator
  import opened SolverTables
  import opened Stages

  /** Recording a then b before an outcome is recording a + b before it. */
  lemma ThenAssoc(a: seq<string>, b: seq<string>, r: Outcome)
    ensures Then(a, Then(b, r)) == Then(a + b, r)
  {
    assert a + (b + r.moves) == (a + b) + r.moves;
  }

  /** Recording nothing before an outcome leaves it as it is. */
  lemma ThenEmpty(r: Outcome)
    ensures Then([], r) == r
  {
    assert [] + r.moves == r.moves;
  }

  lemma ThenRunEmpty(r: CornerRun)
    ensures ThenRun([], r) == r
  {
    ThenEmpty(r.out);
  }

  lemma ThenRunAssoc(a: seq<string>, b: seq<string>, r: CornerRun)
    ensures ThenRun(a, ThenRun(b, r)) == ThenRun(a + b, r)
  {
    ThenAssoc(a, b, r.out);
  }

  lemma AppendAssoc(a: seq<string>, b: seq<string>, r: seq<string>)
    ensures a + (b + r) == (a + b) + r
  {
  }

  lemma JoinFour(a: seq<string>, b: seq<string>, c: seq<string>, d: seq<string>)
    ensures a + (b + c + d) == a + b + c + d
  {
  }

  // ---------------------------------------------------------------------------
  // The white cross.

  ghost predicate CrossEdgeAfter(c0: Cube, colour: Colour, added: seq<string>, c: Cube, done: nat) {
    done < 10 && Then(added, CrossEdgeLoop(c, colour, done)) == CrossEdgeLoop(c0, colour, 0)
  }

  lemma CrossEdgeStep(c: Cube, colour: Colour, done: nat, k: nat, face: int, ms: seq<string>, d: Cube)
    requires done < 10 && k == FirstEdge(c, White, colour, 0) && k < 12
    requires face == LastSlot(c, EdgePieces[k], White, 6) && ms == CrossMoves(k, face) && d == ApplyTokens(c, ms)
    ensures CrossEdgeLoop(c, colour, done) ==
      if k != 0 && done + 1 < 10 then Then(ms, CrossEdgeLoop(d, colour, done + 1)) else Outcome(ms, true)
  {
  }

  /** A try that locates the edge at position k with its white slot at face. */
  lemma CrossEdgeAdvance(c0: Cube, colour: Colour, added: seq<string>, c: Cube, done: nat, k: nat, face: int,
                         ms: seq<string>, d: Cube)
    requires CrossEdgeAfter(c0, colour, added, c, done)
    requires k == FirstEdge(c, White, colour, 0) && k < 12
    requires face == LastSlot(c, EdgePieces[k], White, 6) && ms == CrossMoves(k, face) && d == ApplyTokens(c, ms)
    ensures k != 0 && done + 1 < 10 ==> CrossEdgeAfter(c0, colour, added + ms, d, done + 1)
    ensures !(k != 0 && done + 1 < 10) ==> Outcome(added + ms, true) == CrossEdgeLoop(c0, colour, 0)
  {
    CrossEdgeStep(c, colour, done, k, face, ms, d);
    if k != 0 && done + 1 < 10 {
      ThenAssoc(added, ms, CrossEdgeLoop(d, colour, done + 1));
    }
  }

  /** A try whose locator fails ends the loop with what was recorded before it. */
  lemma CrossEdgeStop(c0: Cube, colour: Colour, added: seq<string>, c: Cube, done: nat)
    requires CrossEdgeAfter(c0, colour, added, c, done) && FirstEdge(c, White, colour, 0) == 12
    ensures Outcome(added, false) == CrossEdgeLoop(c0, colour, 0)
  {
    assert CrossEdgeLoop(c, colour, done) == Outcome([], false);
    assert added + [] == added;
  }

  ghost predicate CrossEdgesAfter(c1: Cube, added: seq<string>, c: Cube, count: nat) {
    count <= 4 && Then(added, CrossEdges(c, count)) == CrossEdges(c1, 0)
  }

  lemma CrossEdgesStep(c: Cube, count: nat, e: Outcome, d: Cube)
    requires count < 4 && e == CrossEdgeLoop(c, SwitchFaces[2][count], 0)
    requires d == ApplyTokens(ApplyTokens(c, e.moves), ["y"])
    ensures CrossEdges(c, count) == if e.ok then Then(e.moves + ["y"], CrossEdges(d, count + 1)) else e
  {
  }

  /** The count-th white edge, placed, and the y rotation after it. */
  lemma CrossEdgesAdvance(c1: Cube, added: seq<string>, c: Cube, count: nat, e: Outcome, d: Cube)
    requires CrossEdgesAfter(c1, added, c, count) && count < 4
    requires e == CrossEdgeLoop(c, SwitchFaces[2][count], 0)
    requires d == ApplyTokens(ApplyTokens(c, e.moves), ["y"])
    ensures e.ok ==> CrossEdgesAfter(c1, added + e.moves + ["y"], d, count + 1)
    ensures !e.ok ==> Outcome(added + e.moves, false) == CrossEdges(c1, 0)
  {
    CrossEdgesStep(c, count, e, d);
    if e.ok {
      ThenAssoc(added, e.moves + ["y"], CrossEdges(d, count + 1));
      AppendAssoc(added, e.moves, ["y"]);
    }
  }

  lemma CrossEdgesDone(c1: Cube, added: seq<string>, c: Cube)
    requires CrossEdgesAfter(c1, added, c, 4)
    ensures Outcome(added, true) == CrossEdges(c1, 0)
  {
    assert added + [] == added;
  }

  ghost predicate AlignAfter(c2: Cube, added: seq<string>, c: Cube, count: nat) {
    count <= 4 && added + AlignCross(c, count) == AlignCross(c2, 0)
  }

  lemma AlignStep(c: Cube, count: nat, d: Cube)
    requires count < 4 && d == ApplyTokens(c, ["E"])
    ensures AlignCross(c, count) == if CrossAligned(c) then [] else ["E"] + AlignCross(d, count + 1)
  {
  }

  /** One test of the middle-layer alignment, and the E turn when it fails. */
  lemma AlignAdvance(c2: Cube, added: seq<string>, c: Cube, count: nat, d: Cube)
    requires AlignAfter(c2, added, c, count) && count < 4 && d == ApplyTokens(c, ["E"])
    ensures CrossAligned(c) ==> added == AlignCross(c2, 0)
    ensures !CrossAligned(c) ==> AlignAfter(c2, added + ["E"], d, count + 1)
  {
    AlignStep(c, count, d);
    if CrossAligned(c) {
      assert added + [] == added;
    } else {
      AppendAssoc(added, ["E"], AlignCross(d, count + 1));
    }
  }

  lemma AlignDone(c2: Cube, added: seq<string>, c: Cube)
    requires AlignAfter(c2, added, c, 4)
    ensures added == AlignCross(c2, 0)
  {
    assert added + [] == added;
  }

  /** The white cross stage from its three parts. */
  lemma WhiteCrossStep(c: Cube, o: seq<string>, c1: Cube, e: Outcome, a: seq<string>)
    requires o == OrientMoves(InitWhiteFace(c)) && c1 == ApplyTokens(c, o) && e == CrossEdges(c1, 0)
    requires a == AlignCross(ApplyTokens(c1, e.moves), 0)
    ensures WhiteCross(c) == if e.ok then Outcome(o + e.moves + a, true) else Outcome(o + e.moves, false)
  {
  }

  // ---------------------------------------------------------------------------
  // The first two layers.

  ghost predicate CornerAfter(c0: Cube, count: nat, added: seq<string>, c: Cube, done: nat, finish: nat) {
    count < 4 && done < 10 && finish < 3 && ThenRun(added, CornerLoop(c, count, done, finish)) == CornerLoop(c0, count, 0, 0)
  }

  lemma CornerStep(c: Cube, count: nat, done: nat, finish: nat, k: nat, face: int, ms: seq<string>, finish': nat, d: Cube)
    requires count < 4 && done < 10 && finish < 3
    requires k == FirstCorner(c, White, SwitchFaces[2][count], SwitchFaces[2][count + 1], 0) && k < 8
    requires face == LastSlot(c, CornerPieces[k], White, 6) && ms == CornerMoves(k, face)
    requires finish' == (if k == 2 then finish + 1 else finish) && d == ApplyTokens(c, ms)
    ensures CornerLoop(c, count, done, finish) ==
      if finish' < 3 && done + 1 < 10 then ThenRun(ms, CornerLoop(d, count, done + 1, finish'))
      else CornerRun(Outcome(ms, true), LastSlot(c, CornerPieces[k], SwitchFaces[2][count], 6),
                     LastSlot(c, CornerPieces[k], SwitchFaces[2][count + 1], 6))
  {
  }

  /** A try that locates the corner at position k with its white slot at face. */
  lemma CornerAdvance(c0: Cube, count: nat, added: seq<string>, c: Cube, done: nat, finish: nat, k: nat, face: int,
                      ms: seq<string>, finish': nat, d: Cube)
    requires CornerAfter(c0, count, added, c, done, finish)
    requires k == FirstCorner(c, White, SwitchFaces[2][count], SwitchFaces[2][count + 1], 0) && k < 8
    requires face == LastSlot(c, CornerPieces[k], White, 6) && ms == CornerMoves(k, face)
    requires finish' == (if k == 2 then finish + 1 else finish) && d == ApplyTokens(c, ms)
    ensures finish' < 3 && done + 1 < 10 ==> CornerAfter(c0, count, added + ms, d, done + 1, finish')
    ensures !(finish' < 3 && done + 1 < 10) ==>
      CornerRun(Outcome(added + ms, true), LastSlot(c, CornerPieces[k], SwitchFaces[2][count], 6),
                LastSlot(c, CornerPieces[k], SwitchFaces[2][count + 1], 6)) == CornerLoop(c0, count, 0, 0)
  {
    CornerStep(c, count, done, finish, k, face, ms, finish', d);
    if finish' < 3 && done + 1 < 10 {
      ThenRunAssoc(added, ms, CornerLoop(d, count, done + 1, finish'));
    }
  }

  lemma CornerStop(c0: Cube, count: nat, added: seq<string>, c: Cube, done: nat, finish: nat)
    requires CornerAfter(c0, count, added, c, done, finish)
    requires FirstCorner(c, White, SwitchFaces[2][count], SwitchFaces[2][count + 1], 0) == 8
    ensures CornerRun(Outcome(added, false), -1, -1) == CornerLoop(c0, count, 0, 0)
  {
    assert CornerLoop(c, count, done, finish) == CornerRun(Outcome([], false), -1, -1);
    assert added + [] == added;
  }

  ghost predicate PairAfter(c0: Cube, count: nat, secondFace: int, thirdFace: int, added: seq<string>, c: Cube, done: nat) {
    count < 4 && done < 10 && Then(added, PairLoop(c, count, secondFace, thirdFace, done)) == PairLoop(c0, count, secondFace, thirdFace, 0)
  }

  lemma PairStep(c: Cube, count: nat, secondFace: int, thirdFace: int, done: nat, k: nat, first: int, second: int,
                 ms: seq<string>, d: Cube)
    requires count < 4 && done < 10
    requires k == FirstEdge(c, SwitchFaces[2][count], SwitchFaces[2][count + 1], 0) && k < 12
    requires first == LastSlot(c, EdgePieces[k], SwitchFaces[2][count], 6)
    requires second == LastSlot(c, EdgePieces[k], SwitchFaces[2][count + 1], 6)
    requires ms == PairMoves(k, first == secondFace, second == thirdFace) && d == ApplyTokens(c, ms)
    ensures PairLoop(c, count, secondFace, thirdFace, done) ==
      if !PairFinished(k) && done + 1 < 10 then Then(ms, PairLoop(d, count, secondFace, thirdFace, done + 1))
      else Outcome(ms, true)
  {
  }

  /** A try that locates the middle-layer edge at position k, its colours at the
    * slots first and second. */
  lemma PairAdvance(c0: Cube, count: nat, secondFace: int, thirdFace: int, added: seq<string>, c: Cube, done: nat,
                    k: nat, first: int, second: int, ms: seq<string>, d: Cube)
    requires PairAfter(c0, count, secondFace, thirdFace, added, c, done)
    requires k == FirstEdge(c, SwitchFaces[2][count], SwitchFaces[2][count + 1], 0) && k < 12
    requires first == LastSlot(c, EdgePieces[k], SwitchFaces[2][count], 6)
    requires second == LastSlot(c, EdgePieces[k], SwitchFaces[2][count + 1], 6)
    requires ms == PairMoves(k, first == secondFace, second == thirdFace) && d == ApplyTokens(c, ms)
    ensures !PairFinished(k) && done + 1 < 10 ==> PairAfter(c0, count, secondFace, thirdFace, added + ms, d, done + 1)
    ensures !(!PairFinished(k) && done + 1 < 10) ==> Outcome(added + ms, true) == PairLoop(c0, count, secondFace, thirdFace, 0)
  {
    PairStep(c, count, secondFace, thirdFace, done, k, first, second, ms, d);
    if !PairFinished(k) && done + 1 < 10 {
      ThenAssoc(added, ms, PairLoop(d, count, secondFace, thirdFace, done + 1));
    }
  }

  lemma PairStop(c0: Cube, count: nat, secondFace: int, thirdFace: int, added: seq<string>, c: Cube, done: nat)
    requires PairAfter(c0, count, secondFace, thirdFace, added, c, done)
    requires FirstEdge(c, SwitchFaces[2][count], SwitchFaces[2][count + 1], 0) == 12
    ensures Outcome(added, false) == PairLoop(c0, count, secondFace, thirdFace, 0)
  {
    assert PairLoop(c, count, secondFace, thirdFace, done) == Outcome([], false);
    assert added + [] == added;
  }

  ghost predicate F2LAfter(c0: Cube, added: seq<string>, c: Cube, count: nat) {
    count <= 4 && Then(added, F2LSlots(c, count)) == F2LSlots(c0, 0)
  }

  lemma F2LStep(c: Cube, count: nat, cr: CornerRun, d: Cube, p: Outcome, d2: Cube)
    requires count < 4 && cr == CornerLoop(c, count, 0, 0) && d == ApplyTokens(c, cr.out.moves)
    requires p == PairLoop(d, count, cr.secondFace, cr.thirdFace, 0) && d2 == ApplyTokens(ApplyTokens(d, p.moves), ["y"])
    ensures F2LSlots(c, count) ==
      if !cr.out.ok then cr.out
      else if !p.ok then Then(cr.out.moves, p)
      else Then(cr.out.moves + p.moves + ["y"], F2LSlots(d2, count + 1))
  {
  }

  /** The count-th pair: its corner loop, its edge loop, and the y rotation. */
  lemma F2LAdvance(c0: Cube, added: seq<string>, c: Cube, count: nat, cr: CornerRun, d: Cube, p: Outcome, d2: Cube)
    requires F2LAfter(c0, added, c, count) && count < 4
    requires cr == CornerLoop(c, count, 0, 0) && d == ApplyTokens(c, cr.out.moves)
    requires p == PairLoop(d, count, cr.secondFace, cr.thirdFace, 0) && d2 == ApplyTokens(ApplyTokens(d, p.moves), ["y"])
    requires cr.out.ok && p.ok
    ensures F2LAfter(c0, added + cr.out.moves + p.moves + ["y"], d2, count + 1)
  {
    F2LStep(c, count, cr, d, p, d2);
    ThenAssoc(added, cr.out.moves + p.moves + ["y"], F2LSlots(d2, count + 1));
    JoinFour(added, cr.out.moves, p.moves, ["y"]);
  }

  /** The count-th pair's corner loop or edge loop fails. */
  lemma F2LStop(c0: Cube, added: seq<string>, c: Cube, count: nat, cr: CornerRun, d: Cube, p: Outcome, d2: Cube)
    requires F2LAfter(c0, added, c, count) && count < 4
    requires cr == CornerLoop(c, count, 0, 0) && d == ApplyTokens(c, cr.out.moves)
    requires p == PairLoop(d, count, cr.secondFace, cr.thirdFace, 0) && d2 == ApplyTokens(ApplyTokens(d, p.moves), ["y"])
    ensures !cr.out.ok ==> Outcome(added + cr.out.moves, false) == F2LSlots(c0, 0)
    ensures cr.out.ok && !p.ok ==> Outcome(added + cr.out.moves + p.moves, false) == F2LSlots(c0, 0)
  {
    F2LStep(c, count, cr, d, p, d2);
    if cr.out.ok && !p.ok {
      ThenAssoc(added, cr.out.moves, p);
    }
  }

  lemma F2LDone(c0: Cube, added: seq<string>, c: Cube)
    requires F2LAfter(c0, added, c, 4)
    ensures Outcome(added, true) == F2LSlots(c0, 0)
  {
    assert added + [] == added;
  }

  // ---------------------------------------------------------------------------
  // Orientation of the last layer.

  ghost predicate OllEdgeAfter(c0: Cube, added: seq<string>, c: Cube, done: nat) {
    done < 10 && added + OllEdgeLoop(c, done) == OllEdgeLoop(c0, 0)
  }

  lemma OllEdgeStep(c: Cube, done: nat, n: nat, ms: seq<string>, d: Cube)
    requires done < 10 && n == CountTrue(Situation(c)) && ms == OllEdgeMoves(Situation(c), n) && d == ApplyTokens(c, ms)
    ensures OllEdgeLoop(c, done) == if n != 4 && done + 1 < 10 then ms + OllEdgeLoop(d, done + 1) else ms
  {
  }

  /** One count of the top edges showing yellow, and the moves for that count. */
  lemma OllEdgeAdvance(c0: Cube, added: seq<string>, c: Cube, done: nat, n: nat, ms: seq<string>, d: Cube)
    requires OllEdgeAfter(c0, added, c, done)
    requires n == CountTrue(Situation(c)) && ms == OllEdgeMoves(Situation(c), n) && d == ApplyTokens(c, ms)
    ensures n != 4 && done + 1 < 10 ==> OllEdgeAfter(c0, added + ms, d, done + 1)
    ensures !(n != 4 && done + 1 < 10) ==> added + ms == OllEdgeLoop(c0, 0)
  {
    OllEdgeStep(c, done, n, ms, d);
    if n != 4 && done + 1 < 10 {
      AppendAssoc(added, ms, OllEdgeLoop(d, done + 1));
    }
  }

  ghost predicate OllCornerAfter(c0: Cube, added: seq<string>, c: Cube, done: nat) {
    done < 10 && added + OllCornerLoop(c, done) == OllCornerLoop(c0, 0)
  }

  lemma OllCornerStep(c: Cube, done: nat, p: nat, d: Cube)
    requires done < 10 && p == FirstPattern(c, 0) && d == ApplyTokens(c, ["U"])
    ensures OllCornerLoop(c, done) ==
      if TopYellow(c) then []
      else if p < 7 then OllInstructions[p]
      else if done + 1 < 10 then ["U"] + OllCornerLoop(d, done + 1)
      else ["U"]
  {
  }

  /** One test of the top face, then of the corner cases, and the U turn when none
    * holds. */
  lemma OllCornerAdvance(c0: Cube, added: seq<string>, c: Cube, done: nat, p: nat, d: Cube)
    requires OllCornerAfter(c0, added, c, done) && p == FirstPattern(c, 0) && d == ApplyTokens(c, ["U"])
    ensures TopYellow(c) ==> added == OllCornerLoop(c0, 0)
    ensures !TopYellow(c) && p < 7 ==> added + OllInstructions[p] == OllCornerLoop(c0, 0)
    ensures !TopYellow(c) && p == 7 && done + 1 < 10 ==> OllCornerAfter(c0, added + ["U"], d, done + 1)
    ensures !TopYellow(c) && p == 7 && done + 1 == 10 ==> added + ["U"] == OllCornerLoop(c0, 0)
  {
    OllCornerStep(c, done, p, d);
    if TopYellow(c) {
      assert added + [] == added;
    } else if p == 7 && done + 1 < 10 {
      AppendAssoc(added, ["U"], OllCornerLoop(d, done + 1));
    }
  }

  /** The orientation stage from its two looks. */
  lemma OllStep(c: Cube, a: seq<string>, b: seq<string>)
    requires a == OllEdgeLoop(c, 0) && b == OllCornerLoop(ApplyTokens(c, a), 0)
    ensures Oll(c) == a + b
  {
  }

  // ---------------------------------------------------------------------------
  // Permutation of the last layer, and the whole run.

  lemma PllCornersStep(c: Cube, k1: nat, a: seq<string>, c1: Cube)
    requires k1 == FirstCorner(c, Yellow, Red, Blue, 0) && k1 < 8
    requires a == PllAlignMoves(UCornerPos(CornerPieces[k1], 4)) && c1 == ApplyTokens(c, a)
    ensures (FirstCorner(c1, Yellow, Blue, Orange, 0) == 8 || FirstCorner(c1, Yellow, Orange, Green, 0) == 8 ||
             FirstCorner(c1, Yellow, Green, Red, 0) == 8) ==> PllCorners(c) == Outcome(a, false)
    ensures (FirstCorner(c1, Yellow, Blue, Orange, 0) < 8 && FirstCorner(c1, Yellow, Orange, Green, 0) < 8 &&
             FirstCorner(c1, Yellow, Green, Red, 0) < 8) ==>
      PllCorners(c) == Outcome(a + PllCornerMoves(CornerWarnings(c1), c1[Idx(Facelet(0, 2, 0, 2))] == Green), true)
  {
  }

  /** The corner warnings from the three located corners. */
  lemma CornerWarningsOf(c1: Cube, b1: bool, b2: bool, b3: bool)
    requires FirstCorner(c1, Yellow, Blue, Orange, 0) < 8 && FirstCorner(c1, Yellow, Orange, Green, 0) < 8
    requires FirstCorner(c1, Yellow, Green, Red, 0) < 8
    requires b1 == (CornerPieces[FirstCorner(c1, Yellow, Blue, Orange, 0)] != CornerPieces[UCornerPieces[1]])
    requires b2 == (CornerPieces[FirstCorner(c1, Yellow, Orange, Green, 0)] != CornerPieces[UCornerPieces[2]])
    requires b3 == (CornerPieces[FirstCorner(c1, Yellow, Green, Red, 0)] != CornerPieces[UCornerPieces[3]])
    ensures CornerWarnings(c1) == (if b1 then [1] else []) + (if b2 then [2] else []) + (if b3 then [3] else [])
  {
  }

  lemma PllEdgesStep(c: Cube, w: seq<int>, pre: seq<string>, c3: Cube)
    requires w == EdgeWarnings(c, 4) && pre == PllEdgePreMoves(w) && c3 == ApplyTokens(c, pre)
    ensures PllEdges(c) ==
      if |w| == 3 then pre + PllEdgeCycle(c3[Idx(Facelet(1, 2, 2, 0))] == c3[Idx(Facelet(0, 1, 1, 4))]) + PllEdgeAfterMoves(w)
      else if |w| == 4 then
        PllEdgeSwap(c[Idx(Facelet(1, 2, 2, 0))] == c[Idx(Facelet(0, 1, 1, 4))], c[Idx(Facelet(1, 2, 2, 0))] == c[Idx(Facelet(1, 1, 0, 2))])
      else []
  {
  }

  /** The permutation stage from its two looks. */
  lemma PllStep(c: Cube, k: Outcome, e: seq<string>)
    requires k == PllCorners(c) && e == PllEdges(ApplyTokens(c, k.moves))
    ensures Pll(c) == if k.ok then Outcome(k.moves + e, true) else k
  {
  }

  lemma LastLayerStep(c: Cube, o: seq<string>, p: Outcome)
    requires o == Oll(c) && p == Pll(ApplyTokens(c, o))
    ensures LastLayer(c) == Outcome(o + p.moves, p.ok)
  {
  }

  /** The whole run from its stages. */
  lemma PipelineStep(c: Cube, w: Outcome, f: Outcome, l: Outcome)
    requires w == WhiteCross(c) && f == F2L(ApplyTokens(c, w.moves)) && l == LastLayer(ApplyTokens(c, w.moves + f.moves))
    ensures Pipeline(c) ==
      if !w.ok then w
      else if !f.ok then Outcome(w.moves + f.moves, false)
      else if !l.ok then Outcome(w.moves + f.moves + l.moves, false)
      else Outcome(w.moves + f.moves + l.moves + Closing(), true)
  {
  }
}
