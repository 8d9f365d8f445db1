/** The colour-count check run on a cube the user has painted: every one of the six
  * sticker colours must appear on exactly nine slots. */
module Validator {
  import opened CubeState
  import opened Counting
  import opened SliceGeometry
  import opened Moves

  /** Number of slots of each face of the cube. */
  const FaceSize := Dimension * Dimension

  /** The colour count over all slots, in the grid's x, y, z, slot order, for the six
    * sticker colours; black is not counted. The cube is valid when every count is
    * nine. */
  method FieldsQuantity(cube: Cube) returns (fieldsQuantity: seq<nat>, valid: bool)
    ensures |fieldsQuantity| == 6
    ensures forall v | 0 <= v < 6 :: fieldsQuantity[v] == multiset(cube)[v]
    ensures valid <==> forall v | 0 <= v < 6 :: multiset(cube)[v] == FaceSize
  {
    fieldsQuantity := [0, 0, 0, 0, 0, 0];
    var i := 0;
    while i < 162
      invariant 0 <= i <= 162 && |fieldsQuantity| == 6
      invariant forall v | 0 <= v < 6 :: fieldsQuantity[v] == multiset(cube[..i])[v]
    {
      assert cube[..i + 1] == cube[..i] + [cube[i]];
      var material := cube[i];
      var count := 0;
      while count < 6
        invariant 0 <= count <= 6 && |fieldsQuantity| == 6
        invariant forall v | 0 <= v < count :: fieldsQuantity[v] == multiset(cube[..i + 1])[v]
        invariant forall v | count <= v < 6 :: fieldsQuantity[v] == multiset(cube[..i])[v]
      {
        if material == count {
          fieldsQuantity := fieldsQuantity[count := fieldsQuantity[count] + 1];
        }
        count := count + 1;
      }
      i := i + 1;
    }
    assert cube[..162] == cube;
    valid := true;
    var count := 0;
    while count < 6
      invariant 0 <= count <= 6
      invariant valid <==> forall v | 0 <= v < count :: fieldsQuantity[v] == FaceSize
    {
      if fieldsQuantity[count] != FaceSize {
        valid := false;
      }
      count := count + 1;
    }
  }

  /** The slot of face v at position (a, b) of that face. */
  function FaceCell(v: Slot, a: Coord, b: Coord): (p: Facelet)
    ensures p.f == v && Exposed(p)
  {
    match v
    case 0 => Facelet(a, b, 2, 0)
    case 1 => Facelet(a, 2, b, 1)
    case 2 => Facelet(a, b, 0, 2)
    case 3 => Facelet(a, 0, b, 3)
    case 4 => Facelet(0, a, b, 4)
    case 5 => Facelet(2, a, b, 5)
  }

  /** Every outward slot is one of the nine cells of its face. */
  lemma FaceCellCovers(p: Facelet)
    requires Exposed(p)
    ensures p == FaceCell(p.f, FaceA(p), FaceB(p))
  {
  }

  function FaceA(p: Facelet): Coord {
    if p.f == 4 || p.f == 5 then p.y else p.x
  }

  function FaceB(p: Facelet): Coord {
    if p.f == 0 || p.f == 2 then p.y else p.z
  }

  /** Positions of the nine slots of face v. */
  function FaceSlots(v: Slot): seq<int> {
    seq(9, k requires 0 <= k < 9 => Idx(FaceCell(v, k / 3, k % 3)))
  }

  lemma FaceSlotsDistinct(v: Slot)
    ensures forall k, l | 0 <= k < l < 9 :: FaceSlots(v)[k] != FaceSlots(v)[l]
  {
    var qs := FaceSlots(v);
    forall k, l | 0 <= k < l < 9
      ensures qs[k] != qs[l]
    {
      IdxInjective(FaceCell(v, k / 3, k % 3), FaceCell(v, l / 3, l % 3));
    }
  }

  /** The slots showing colour v in the solved cube are exactly the cells of face v. */
  lemma FaceSlotsAreColour(v: Slot)
    ensures IndicesOf(Solved(), v) == set x | x in FaceSlots(v)
  {
    var s := Solved();
    var qs := FaceSlots(v);
    forall i | i in IndicesOf(s, v)
      ensures i in qs
    {
      var p := Decode(i);
      IdxDecode(i);
      SolvedAt(p);
      FaceCellCovers(p);
      var k := FaceA(p) * 3 + FaceB(p);
      assert k / 3 == FaceA(p) && k % 3 == FaceB(p);
      assert qs[k] == i;
    }
    forall i | i in qs
      ensures i in IndicesOf(s, v)
    {
      var k :| 0 <= k < 9 && qs[k] == i;
      SolvedAt(FaceCell(v, k / 3, k % 3));
    }
  }

  /** The solved cube shows each sticker colour on exactly nine slots. */
  lemma SolvedCounts(v: Colour)
    requires v < 6
    ensures multiset(Solved())[v] == FaceSize
  {
    MultisetCount(Solved(), v);
    FaceSlotsDistinct(v);
    DistinctCard(FaceSlots(v));
    FaceSlotsAreColour(v);
  }

  /** No token list changes how often each colour appears. */
  lemma {:induction false} TokensPreserveColours(c: Cube, ts: seq<string>)
    ensures multiset(ApplyTokens(c, ts)) == multiset(c)
    decreases |ts|
  {
    if ts != [] {
      var before := ApplyTokens(c, ts[..|ts| - 1]);
      TokensPreserveColours(c, ts[..|ts| - 1]);
      var t := ts[|ts| - 1];
      if IsToken(t) {
        TokenMotion(before, t);
        ActPreservesColours(before, MotionOf(t));
      } else {
        OtherTokenInert(before, t);
      }
    }
  }

  /** Every cube reached from the solved cube by moves passes the colour count. */
  lemma ReachablePasses(ts: seq<string>)
    ensures forall v | 0 <= v < 6 :: multiset(ApplyTokens(Solved(), ts))[v] == FaceSize
  {
    TokensPreserveColours(Solved(), ts);
    forall v | 0 <= v < 6
      ensures multiset(Solved())[v] == FaceSize
    {
      SolvedCounts(v);
    }
  }
}
