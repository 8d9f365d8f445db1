/** Finding a piece by its colours: the edge or corner positions are scanned in
  * table order, and the first cubie that shows exactly one slot of each requested
  * colour and black on every other slot is returned, with the slot of each colour. */
module PieceLocator {
  import opened Wrappers
  import opened CubeState

  datatype EdgeFound = EdgeFound(piece: Cubie, firstColorFace: Slot, secondColorFace: Slot)
  datatype CornerFound = CornerFound(piece: Cubie, firstColorFace: Slot, secondColorFace: Slot, thirdColorFace: Slot)

  /** Number of the first n slots of a cubie that show colour v. */
  function CountIn(cube: Cube, pos: Cubie, v: Colour, n: nat): nat
    requires n <= 6
  {
    if n == 0 then 0 else CountIn(cube, pos, v, n - 1) + (if cube[Idx(At(pos, n - 1))] == v then 1 else 0)
  }

  /** A colour counted once among the first n slots is shown by one slot only. */
  lemma {:induction false} CountOnce(cube: Cube, pos: Cubie, v: Colour, n: nat, f: Slot, g: Slot)
    requires n <= 6 && CountIn(cube, pos, v, n) == 1 && f < n && g < n
    requires cube[Idx(At(pos, f))] == v && cube[Idx(At(pos, g))] == v
    ensures f == g
  {
    var last := if cube[Idx(At(pos, n - 1))] == v then 1 else 0;
    assert CountIn(cube, pos, v, n) == CountIn(cube, pos, v, n - 1) + last;
    if f < n - 1 && g < n - 1 {
      CountPositive(cube, pos, v, n - 1, f);
      CountOnce(cube, pos, v, n - 1, f, g);
    } else if f < n - 1 {
      CountPositive(cube, pos, v, n - 1, f);
    } else if g < n - 1 {
      CountPositive(cube, pos, v, n - 1, g);
    }
  }

  lemma {:induction false} CountPositive(cube: Cube, pos: Cubie, v: Colour, n: nat, f: Slot)
    requires n <= 6 && f < n && cube[Idx(At(pos, f))] == v
    ensures CountIn(cube, pos, v, n) > 0
  {
    if f != n - 1 {
      CountPositive(cube, pos, v, n - 1, f);
    }
  }

  /** The last of the first n slots of a cubie that shows colour v, or -1: the slot a
    * locator's colour variable holds after scanning that cubie. */
  function LastSlot(cube: Cube, pos: Cubie, v: Colour, n: nat): (r: int)
    requires n <= 6
    ensures -1 <= r < n
    ensures r >= 0 <==> CountIn(cube, pos, v, n) > 0
    ensures r >= 0 ==> cube[Idx(At(pos, r))] == v
  {
    if n == 0 then -1
    else if cube[Idx(At(pos, n - 1))] == v then n - 1
    else LastSlot(cube, pos, v, n - 1)
  }

  predicate EdgeMatch(cube: Cube, pos: Cubie, first: Colour, second: Colour) {
    CountIn(cube, pos, first, 6) == 1 && CountIn(cube, pos, second, 6) == 1 && CountIn(cube, pos, Black, 6) == Faces - 2
  }

  predicate CornerMatch(cube: Cube, pos: Cubie, first: Colour, second: Colour, third: Colour) {
    CountIn(cube, pos, first, 6) == 1 && CountIn(cube, pos, second, 6) == 1 &&
    CountIn(cube, pos, third, 6) == 1 && CountIn(cube, pos, Black, 6) == Faces - 3
  }

  /** The first matching edge position from entry `from` on; 12 when there is none. */
  function FirstEdge(cube: Cube, first: Colour, second: Colour, from: nat): (k: nat)
    requires from <= 12
    ensures from <= k <= 12
    ensures k < 12 ==> EdgeMatch(cube, EdgePieces[k], first, second)
    ensures forall j | from <= j < k :: !EdgeMatch(cube, EdgePieces[j], first, second)
    decreases 12 - from
  {
    if from == 12 then 12
    else if EdgeMatch(cube, EdgePieces[from], first, second) then from
    else FirstEdge(cube, first, second, from + 1)
  }

  /** The first matching corner position from entry `from` on; 8 when there is none. */
  function FirstCorner(cube: Cube, first: Colour, second: Colour, third: Colour, from: nat): (k: nat)
    requires from <= 8
    ensures from <= k <= 8
    ensures k < 8 ==> CornerMatch(cube, CornerPieces[k], first, second, third)
    ensures forall j | from <= j < k :: !CornerMatch(cube, CornerPieces[j], first, second, third)
    decreases 8 - from
  {
    if from == 8 then 8
    else if CornerMatch(cube, CornerPieces[from], first, second, third) then from
    else FirstCorner(cube, first, second, third, from + 1)
  }

  /** The edge scan. When no position matches, the program reads past the end of the
    * table and fails; that outcome is None. The colour slots are updated whenever a
    * slot of that colour is seen; at a match they hold that cubie's own slots. */
  method FindEdgePiece(cube: Cube, firstColor: Colour, secondColor: Colour) returns (r: Option<EdgeFound>)
    ensures var k := FirstEdge(cube, firstColor, secondColor, 0); (r.None? <==> k == 12) && (r.Some? ==> r.value.piece == EdgePieces[k])
    ensures r.Some? ==> forall f: Slot :: (cube[Idx(At(r.value.piece, f))] == firstColor <==> f == r.value.firstColorFace)
    ensures r.Some? ==> forall f: Slot :: (cube[Idx(At(r.value.piece, f))] == secondColor <==> f == r.value.secondColorFace)
    ensures r.Some? ==> r.value.firstColorFace == LastSlot(cube, r.value.piece, firstColor, 6)
    ensures r.Some? ==> r.value.secondColorFace == LastSlot(cube, r.value.piece, secondColor, 6)
  {
    var firstColorFace, secondColorFace := -1, -1;
    var count := 0;
    var matched := false;
    while count < |EdgePieces| && !matched
      invariant 0 <= count <= 12
      invariant forall j | 0 <= j < count :: !EdgeMatch(cube, EdgePieces[j], firstColor, secondColor)
      invariant matched ==> count < 12 && EdgeMatch(cube, EdgePieces[count], firstColor, secondColor)
      invariant matched ==> firstColorFace == LastSlot(cube, EdgePieces[count], firstColor, 6)
      invariant matched ==> secondColorFace == LastSlot(cube, EdgePieces[count], secondColor, 6)
      decreases 12 - count, if matched then 0 else 1
    {
      var pos := EdgePieces[count];
      var countFirstColor, countSecondColor, countBgColor;
      countFirstColor, countSecondColor, countBgColor, firstColorFace, secondColorFace :=
        ScanEdgeCubie(cube, pos, firstColor, secondColor, firstColorFace, secondColorFace);
      if countFirstColor == 1 && countSecondColor == 1 && countBgColor == Faces - 2 {
        matched := true;
      } else {
        count := count + 1;
      }
    }
    if !matched {
      return None;
    }
    var piece := EdgePieces[count];
    UniqueSlot(cube, piece, firstColor);
    UniqueSlot(cube, piece, secondColor);
    return Some(EdgeFound(piece, firstColorFace, secondColorFace));
  }

  /** The edge scan's pass over one cubie's six slots: the counts of the two colours
    * and of black, and the colour slot variables as the pass leaves them. */
  method ScanEdgeCubie(cube: Cube, pos: Cubie, firstColor: Colour, secondColor: Colour, firstIn: int, secondIn: int)
    returns (countFirstColor: nat, countSecondColor: nat, countBgColor: nat, firstColorFace: int, secondColorFace: int)
    ensures countFirstColor == CountIn(cube, pos, firstColor, 6)
    ensures countSecondColor == CountIn(cube, pos, secondColor, 6)
    ensures countBgColor == CountIn(cube, pos, Black, 6)
    ensures firstColorFace == if countFirstColor > 0 then LastSlot(cube, pos, firstColor, 6) else firstIn
    ensures secondColorFace == if countSecondColor > 0 then LastSlot(cube, pos, secondColor, 6) else secondIn
  {
    countFirstColor, countSecondColor, countBgColor := 0, 0, 0;
    firstColorFace, secondColorFace := firstIn, secondIn;
    var countFace := 0;
    while countFace < Faces
      invariant 0 <= countFace <= 6
      invariant countFirstColor == CountIn(cube, pos, firstColor, countFace)
      invariant countSecondColor == CountIn(cube, pos, secondColor, countFace)
      invariant countBgColor == CountIn(cube, pos, Black, countFace)
      invariant firstColorFace == if countFirstColor > 0 then LastSlot(cube, pos, firstColor, countFace) else firstIn
      invariant secondColorFace == if countSecondColor > 0 then LastSlot(cube, pos, secondColor, countFace) else secondIn
    {
      var material := cube[Idx(Facelet(pos.x, pos.y, pos.z, countFace))];
      if material == firstColor {
        firstColorFace := countFace;
        countFirstColor := countFirstColor + 1;
      }
      if material == secondColor {
        secondColorFace := countFace;
        countSecondColor := countSecondColor + 1;
      }
      if material == Black {
        countBgColor := countBgColor + 1;
      }
      countFace := countFace + 1;
    }
  }

  /** The corner scan, with three colours and FACES - 3 black slots. */
  method FindCornerPiece(cube: Cube, firstColor: Colour, secondColor: Colour, thirdColor: Colour) returns (r: Option<CornerFound>)
    ensures var k := FirstCorner(cube, firstColor, secondColor, thirdColor, 0); (r.None? <==> k == 8) && (r.Some? ==> r.value.piece == CornerPieces[k])
    ensures r.Some? ==> forall f: Slot :: (cube[Idx(At(r.value.piece, f))] == firstColor <==> f == r.value.firstColorFace)
    ensures r.Some? ==> forall f: Slot :: (cube[Idx(At(r.value.piece, f))] == secondColor <==> f == r.value.secondColorFace)
    ensures r.Some? ==> forall f: Slot :: (cube[Idx(At(r.value.piece, f))] == thirdColor <==> f == r.value.thirdColorFace)
    ensures r.Some? ==> r.value.firstColorFace == LastSlot(cube, r.value.piece, firstColor, 6)
    ensures r.Some? ==> r.value.secondColorFace == LastSlot(cube, r.value.piece, secondColor, 6)
    ensures r.Some? ==> r.value.thirdColorFace == LastSlot(cube, r.value.piece, thirdColor, 6)
  {
    var firstColorFace, secondColorFace, thirdColorFace := -1, -1, -1;
    var count := 0;
    var matched := false;
    while count < |CornerPieces| && !matched
      invariant 0 <= count <= 8
      invariant forall j | 0 <= j < count :: !CornerMatch(cube, CornerPieces[j], firstColor, secondColor, thirdColor)
      invariant matched ==> count < 8 && CornerMatch(cube, CornerPieces[count], firstColor, secondColor, thirdColor)
      invariant matched ==> firstColorFace == LastSlot(cube, CornerPieces[count], firstColor, 6)
      invariant matched ==> secondColorFace == LastSlot(cube, CornerPieces[count], secondColor, 6)
      invariant matched ==> thirdColorFace == LastSlot(cube, CornerPieces[count], thirdColor, 6)
      decreases 8 - count, if matched then 0 else 1
    {
      var pos := CornerPieces[count];
      var countFirstColor, countSecondColor, countThirdColor, countBgColor;
      countFirstColor, countSecondColor, countThirdColor, countBgColor, firstColorFace, secondColorFace, thirdColorFace :=
        ScanCornerCubie(cube, pos, firstColor, secondColor, thirdColor, firstColorFace, secondColorFace, thirdColorFace);
      if countFirstColor == 1 && countSecondColor == 1 && countThirdColor == 1 && countBgColor == Faces - 3 {
        matched := true;
      } else {
        count := count + 1;
      }
    }
    if !matched {
      return None;
    }
    var piece := CornerPieces[count];
    UniqueSlot(cube, piece, firstColor);
    UniqueSlot(cube, piece, secondColor);
    UniqueSlot(cube, piece, thirdColor);
    return Some(CornerFound(piece, firstColorFace, secondColorFace, thirdColorFace));
  }

  /** What a scan of the first n slots leaves for one colour: its count, and its
    * slot variable (the last slot showing it, or the value it came in with). */
  predicate Tallied(cube: Cube, pos: Cubie, v: Colour, n: nat, count: nat, face: int, faceIn: int)
    requires n <= 6
  {
    count == CountIn(cube, pos, v, n) && face == if count > 0 then LastSlot(cube, pos, v, n) else faceIn
  }

  /** One more slot scanned for one colour. */
  lemma TallyStep(cube: Cube, pos: Cubie, v: Colour, n: nat, count: nat, face: int, faceIn: int)
    requires n < 6 && Tallied(cube, pos, v, n, count, face, faceIn)
    ensures var hit := cube[Idx(Facelet(pos.x, pos.y, pos.z, n))] == v;
      Tallied(cube, pos, v, n + 1, if hit then count + 1 else count, if hit then n else face, faceIn)
  {
    assert At(pos, n) == Facelet(pos.x, pos.y, pos.z, n);
  }

  /** The corner scan's pass over one cubie's six slots: the counts of the three
    * colours and of black, and the colour slot variables as the pass leaves them. */
  method ScanCornerCubie(cube: Cube, pos: Cubie, firstColor: Colour, secondColor: Colour, thirdColor: Colour,
                         firstIn: int, secondIn: int, thirdIn: int)
    returns (countFirstColor: nat, countSecondColor: nat, countThirdColor: nat, countBgColor: nat,
             firstColorFace: int, secondColorFace: int, thirdColorFace: int)
    ensures countFirstColor == CountIn(cube, pos, firstColor, 6)
    ensures countSecondColor == CountIn(cube, pos, secondColor, 6)
    ensures countThirdColor == CountIn(cube, pos, thirdColor, 6)
    ensures countBgColor == CountIn(cube, pos, Black, 6)
    ensures firstColorFace == if countFirstColor > 0 then LastSlot(cube, pos, firstColor, 6) else firstIn
    ensures secondColorFace == if countSecondColor > 0 then LastSlot(cube, pos, secondColor, 6) else secondIn
    ensures thirdColorFace == if countThirdColor > 0 then LastSlot(cube, pos, thirdColor, 6) else thirdIn
  {
    countFirstColor, countSecondColor, countThirdColor, countBgColor := 0, 0, 0, 0;
    firstColorFace, secondColorFace, thirdColorFace := firstIn, secondIn, thirdIn;
    ghost var bgFace := -1;
    var countFace := 0;
    while countFace < Faces
      invariant 0 <= countFace <= 6
      invariant Tallied(cube, pos, firstColor, countFace, countFirstColor, firstColorFace, firstIn)
      invariant Tallied(cube, pos, secondColor, countFace, countSecondColor, secondColorFace, secondIn)
      invariant Tallied(cube, pos, thirdColor, countFace, countThirdColor, thirdColorFace, thirdIn)
      invariant Tallied(cube, pos, Black, countFace, countBgColor, bgFace, -1)
    {
      TallyStep(cube, pos, firstColor, countFace, countFirstColor, firstColorFace, firstIn);
      TallyStep(cube, pos, secondColor, countFace, countSecondColor, secondColorFace, secondIn);
      TallyStep(cube, pos, thirdColor, countFace, countThirdColor, thirdColorFace, thirdIn);
      TallyStep(cube, pos, Black, countFace, countBgColor, bgFace, -1);
      var material := cube[Idx(Facelet(pos.x, pos.y, pos.z, countFace))];
      if material == firstColor {
        firstColorFace := countFace;
        countFirstColor := countFirstColor + 1;
      }
      if material == secondColor {
        secondColorFace := countFace;
        countSecondColor := countSecondColor + 1;
      }
      if material == thirdColor {
        thirdColorFace := countFace;
        countThirdColor := countThirdColor + 1;
      }
      if material == Black {
        bgFace := countFace;
        countBgColor := countBgColor + 1;
      }
      countFace := countFace + 1;
    }
  }

  /** A colour a cubie shows once is shown on its last slot of that colour only. */
  lemma UniqueSlot(cube: Cube, pos: Cubie, v: Colour)
    requires CountIn(cube, pos, v, 6) == 1
    ensures forall f: Slot :: (cube[Idx(At(pos, f))] == v <==> f == LastSlot(cube, pos, v, 6))
  {
    var s := LastSlot(cube, pos, v, 6);
    forall f: Slot | cube[Idx(At(pos, f))] == v
      ensures f == s
    {
      CountOnce(cube, pos, v, 6, f, s);
    }
  }

  /** The position lookup the solver stages do on a located piece: the first table
    * entry equal to it, or -1. */
  method PositionIn(table: seq<Cubie>, piece: Cubie) returns (pos: int)
    ensures -1 <= pos < |table|
    ensures pos == -1 <==> piece !in table
    ensures pos >= 0 ==> table[pos] == piece && forall j | 0 <= j < pos :: table[j] != piece
  {
    pos := -1;
    var count2 := 0;
    while count2 < |table|
      invariant 0 <= count2 <= |table|
      invariant forall j | 0 <= j < count2 :: table[j] != piece
    {
      if table[count2] == piece {
        pos := count2;
        return;
      }
      count2 := count2 + 1;
    }
  }
}
