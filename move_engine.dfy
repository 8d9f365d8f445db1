/** The program's slice rotation: a three-letter code names an axis letter, a layer
  * letter and a direction letter; the rotation clones the cube and then rewrites
  * the turning layer through two rings of index tables. */
module MoveEngine {
  import opened Wrappers
  import opened CubeState
  import opened SliceGeometry

  // The two coordinate tables of the rotation, as the program declares them.
  const SwitchCoords: seq<Coord> := [0, 1, 2, 2, 2, 2, 2, 1, 0, 0, 0, 0, 0, 1, 2, 2, 2, 2, 2, 1, 0, 0, 0, 0]
  const KeepCoords: seq<Coord> := [0, 1, 2, 2, 2, 1, 0, 0, 0, 1, 2, 2, 2, 1, 0, 0]

  /** The layer named by the second letter of a code; -1 for any other letter. */
  function LayerOf(ch: char): (r: int)
    ensures -1 <= r < 3
    ensures r == 0 <==> ch == 'l' || ch == 'b'
    ensures r == 1 <==> ch == 'c'
    ensures r == 2 <==> ch == 't' || ch == 'r' || ch == 'f'
  {
    match ch
    case 'l' => 0
    case 'b' => 0
    case 'c' => 1
    case 't' => 2
    case 'r' => 2
    case 'f' => 2
    case _ => -1
  }

  /** The direction named by the third letter of a code. */
  function SpinOf(ch: char): Option<Spin> {
    match ch
    case 'l' => Some(Left)
    case 'r' => Some(Right)
    case 't' => Some(Top)
    case 'b' => Some(Bottom)
    case 'c' => Some(Clockwise)
    case 'a' => Some(Anticlockwise)
    case _ => None
  }

  /** A code the rotation accepts without failing and that turns a layer. */
  predicate IsSliceCode(code: string) {
    |code| >= 3 && SpinOf(code[2]).Some? && 0 <= LayerOf(code[1])
  }

  function CodeSlice(code: string): Slice
    requires IsSliceCode(code)
  {
    Slice(SpinOf(code[2]).value, LayerOf(code[1]))
  }

  /** What applying a code means: a code shorter than three letters fails, a code
    * with an unknown direction letter changes nothing, and a known direction with
    * an unknown layer letter fails on the out-of-range layer index. */
  function ApplyCode(cube: Cube, code: string): Option<Cube> {
    if |code| < 3 then None
    else if SpinOf(code[2]).None? then Some(cube)
    else if LayerOf(code[1]) < 0 then None
    else Some(Act(cube, SliceTurn(CodeSlice(code))))
  }

  /** Row of the face tables used by each direction. */
  function AxisRow(sp: Spin): nat {
    match sp
    case Top | Bottom => 0
    case Left | Right => 1
    case Clockwise | Anticlockwise => 2
  }

  /** The direction letter of the opposite turn of the same layer. */
  function OppositeLetter(ch: char): char {
    match ch
    case 'l' => 'r'
    case 'r' => 'l'
    case 't' => 'b'
    case 'b' => 't'
    case 'c' => 'a'
    case 'a' => 'c'
    case _ => ch
  }

  /** The code with its direction letter swapped for the opposite one. */
  function OppositeCode(code: string): (o: string)
    requires |code| >= 3
    ensures |o| == |code| && o[..2] == code[..2] && o[3..] == code[3..]
    ensures SpinOf(code[2]).Some? ==> SpinOf(o[2]) == Some(Opposite(SpinOf(code[2]).value))
  {
    code[..2] + [OppositeLetter(code[2])] + code[3..]
  }

  /** A turning code always succeeds, and means the geometric slice turn. */
  lemma SliceCodeTurns(c: Cube, code: string)
    requires IsSliceCode(code)
    ensures ApplyCode(c, code) == Some(Act(c, SliceTurn(CodeSlice(code))))
  {
  }

  /** A code followed by its opposite code restores the cube (htl then htr, ...). */
  lemma CodeInverse(c: Cube, code: string)
    requires IsSliceCode(code)
    ensures IsSliceCode(OppositeCode(code))
    ensures ApplyCode(c, code).Some? && ApplyCode(ApplyCode(c, code).value, OppositeCode(code)) == Some(c)
  {
    var o := OppositeCode(code);
    assert o[1] == code[1];
    ActInverse(c, SliceTurn(CodeSlice(code)));
  }

  /** Four applications of the same turning code restore the cube. */
  lemma CodeFour(c: Cube, code: string)
    requires IsSliceCode(code)
    ensures var c1 := ApplyCode(c, code).value; var c2 := ApplyCode(c1, code).value; var c3 := ApplyCode(c2, code).value; ApplyCode(c3, code) == Some(c)
  {
    ActFour(c, SliceTurn(CodeSlice(code)));
  }

  /** A code changes no slot outside its layer, and no slot of the centre cubie of
    * its layer. */
  lemma CodeLocality(c: Cube, code: string, p: Facelet)
    requires IsSliceCode(code)
    requires AxisCoord(SpinOf(code[2]).value, p) != LayerOf(code[1]) || OnAxisCentre(SpinOf(code[2]).value, p)
    ensures ApplyCode(c, code).Some? && ApplyCode(c, code).value[Idx(p)] == c[Idx(p)]
  {
    SliceLocality(c, CodeSlice(code), p);
  }

  // The switch ring: 12 outward slots, three per side of the layer.

  function SwitchTarget(sp: Spin, r: Coord, count: int, count3: int): Facelet
    requires 0 <= count < 12 && 0 <= count3 < 8
  {
    match sp
    case Left => Facelet(SwitchCoords[6 + count], r, SwitchCoords[3 + count], SwitchFaces[1][count3])
    case Right => Facelet(SwitchCoords[count], r, SwitchCoords[3 + count], SwitchFaces[1][count3])
    case Top => Facelet(r, SwitchCoords[count], SwitchCoords[3 + count], SwitchFaces[0][count3])
    case Bottom => Facelet(r, SwitchCoords[6 + count], SwitchCoords[3 + count], SwitchFaces[0][count3])
    case Clockwise => Facelet(SwitchCoords[count], SwitchCoords[3 + count], r, SwitchFaces[2][count3])
    case Anticlockwise => Facelet(SwitchCoords[6 + count], SwitchCoords[3 + count], r, SwitchFaces[2][count3])
  }

  function SwitchOrigin(sp: Spin, r: Coord, count: int, count4: int): Facelet
    requires 0 <= count < 12 && 0 <= count4 < 8
  {
    match sp
    case Left => Facelet(SwitchCoords[3 + count], r, SwitchCoords[count], SwitchFaces[1][count4])
    case Right => Facelet(SwitchCoords[9 + count], r, SwitchCoords[count], SwitchFaces[1][count4])
    case Top => Facelet(r, SwitchCoords[9 + count], SwitchCoords[count], SwitchFaces[0][count4])
    case Bottom => Facelet(r, SwitchCoords[3 + count], SwitchCoords[count], SwitchFaces[0][count4])
    case Clockwise => Facelet(SwitchCoords[9 + count], SwitchCoords[count], r, SwitchFaces[2][count4])
    case Anticlockwise => Facelet(SwitchCoords[3 + count], SwitchCoords[count], r, SwitchFaces[2][count4])
  }

  /** Left, Top and Clockwise walk the face table upwards from entry 4; the other
    * three walk it downwards. */
  predicate Ascending(sp: Spin) {
    sp == Left || sp == Top || sp == Clockwise
  }

  function Count3(sp: Spin, count: int): int {
    if Ascending(sp) then 4 + count / 3 else 4 - count / 3
  }

  function Count4(sp: Spin, count: int): int {
    if Ascending(sp) then 3 + count / 3 else 5 - count / 3
  }

  /** The k-th slot the switch ring writes and the slot it reads it from. */
  function SwitchSlot(sp: Spin, r: Coord, k: int): Facelet
    requires 0 <= k < 12
  {
    SwitchTarget(sp, r, k, Count3(sp, k))
  }

  function SwitchFrom(sp: Spin, r: Coord, k: int): Facelet
    requires 0 <= k < 12
  {
    SwitchOrigin(sp, r, k, Count4(sp, k))
  }

  // The keep ring: both axis-direction slots of the 8 cubies around the centre.

  function KeepTarget(sp: Spin, r: Coord, count: int, count2: int): Facelet
    requires 0 <= count < 8 && 0 <= count2 < 2
  {
    match sp
    case Left | Right => Facelet(KeepCoords[count], r, KeepCoords[6 + count], KeepFaces[1][count2])
    case Top | Bottom => Facelet(r, KeepCoords[count], KeepCoords[6 + count], KeepFaces[0][count2])
    case Clockwise | Anticlockwise => Facelet(KeepCoords[6 + count], KeepCoords[count], r, KeepFaces[2][count2])
  }

  function KeepOrigin(sp: Spin, r: Coord, count: int, count2: int): Facelet
    requires 0 <= count < 8 && 0 <= count2 < 2
  {
    match sp
    case Left => Facelet(KeepCoords[6 + count], r, KeepCoords[4 + count], KeepFaces[1][count2])
    case Right => Facelet(KeepCoords[2 + count], r, KeepCoords[count], KeepFaces[1][count2])
    case Top => Facelet(r, KeepCoords[2 + count], KeepCoords[count], KeepFaces[0][count2])
    case Bottom => Facelet(r, KeepCoords[6 + count], KeepCoords[4 + count], KeepFaces[0][count2])
    case Clockwise => Facelet(KeepCoords[4 + count], KeepCoords[6 + count], r, KeepFaces[2][count2])
    case Anticlockwise => Facelet(KeepCoords[count], KeepCoords[2 + count], r, KeepFaces[2][count2])
  }

  lemma SwitchEntryLeft(r: Coord, k: int)
    requires 0 <= k < 12
    ensures Moved(Slice(Left, r), SwitchSlot(Left, r, k)) && RingFace(Left, SwitchSlot(Left, r, k).f)
    ensures Source(Slice(Left, r), SwitchSlot(Left, r, k)) == SwitchFrom(Left, r, k)
  {
  }

  lemma SwitchEntryRight(r: Coord, k: int)
    requires 0 <= k < 12
    ensures Moved(Slice(Right, r), SwitchSlot(Right, r, k)) && RingFace(Right, SwitchSlot(Right, r, k).f)
    ensures Source(Slice(Right, r), SwitchSlot(Right, r, k)) == SwitchFrom(Right, r, k)
  {
  }

  lemma SwitchEntryTop(r: Coord, k: int)
    requires 0 <= k < 12
    ensures Moved(Slice(Top, r), SwitchSlot(Top, r, k)) && RingFace(Top, SwitchSlot(Top, r, k).f)
    ensures Source(Slice(Top, r), SwitchSlot(Top, r, k)) == SwitchFrom(Top, r, k)
  {
  }

  lemma SwitchEntryBottom(r: Coord, k: int)
    requires 0 <= k < 12
    ensures Moved(Slice(Bottom, r), SwitchSlot(Bottom, r, k)) && RingFace(Bottom, SwitchSlot(Bottom, r, k).f)
    ensures Source(Slice(Bottom, r), SwitchSlot(Bottom, r, k)) == SwitchFrom(Bottom, r, k)
  {
  }

  lemma SwitchEntryClockwise(r: Coord, k: int)
    requires 0 <= k < 12
    ensures Moved(Slice(Clockwise, r), SwitchSlot(Clockwise, r, k)) && RingFace(Clockwise, SwitchSlot(Clockwise, r, k).f)
    ensures Source(Slice(Clockwise, r), SwitchSlot(Clockwise, r, k)) == SwitchFrom(Clockwise, r, k)
  {
  }

  lemma SwitchEntryAnticlockwise(r: Coord, k: int)
    requires 0 <= k < 12
    ensures Moved(Slice(Anticlockwise, r), SwitchSlot(Anticlockwise, r, k)) && RingFace(Anticlockwise, SwitchSlot(Anticlockwise, r, k).f)
    ensures Source(Slice(Anticlockwise, r), SwitchSlot(Anticlockwise, r, k)) == SwitchFrom(Anticlockwise, r, k)
  {
  }

  /** Every write of the switch ring copies into a moved side slot the colour of
    * exactly the slot the geometric turn takes it from. */
  lemma SwitchEntry(sp: Spin, r: Coord, k: int)
    requires 0 <= k < 12
    ensures Moved(Slice(sp, r), SwitchSlot(sp, r, k)) && RingFace(sp, SwitchSlot(sp, r, k).f)
    ensures Source(Slice(sp, r), SwitchSlot(sp, r, k)) == SwitchFrom(sp, r, k)
  {
    match sp
    case Left => SwitchEntryLeft(r, k);
    case Right => SwitchEntryRight(r, k);
    case Top => SwitchEntryTop(r, k);
    case Bottom => SwitchEntryBottom(r, k);
    case Clockwise => SwitchEntryClockwise(r, k);
    case Anticlockwise => SwitchEntryAnticlockwise(r, k);
  }

  /** The j-th slot the keep ring writes (j = 2 * count + count2) and its source. */
  function KeepSlot(sp: Spin, r: Coord, j: int): Facelet
    requires 0 <= j < 16
  {
    KeepTarget(sp, r, j / 2, j % 2)
  }

  function KeepFrom(sp: Spin, r: Coord, j: int): Facelet
    requires 0 <= j < 16
  {
    KeepOrigin(sp, r, j / 2, j % 2)
  }

  lemma KeepEntryLeft(r: Coord, j: int)
    requires 0 <= j < 16
    ensures Moved(Slice(Left, r), KeepSlot(Left, r, j)) && !RingFace(Left, KeepSlot(Left, r, j).f)
    ensures Source(Slice(Left, r), KeepSlot(Left, r, j)) == KeepFrom(Left, r, j)
  {
  }

  lemma KeepEntryRight(r: Coord, j: int)
    requires 0 <= j < 16
    ensures Moved(Slice(Right, r), KeepSlot(Right, r, j)) && !RingFace(Right, KeepSlot(Right, r, j).f)
    ensures Source(Slice(Right, r), KeepSlot(Right, r, j)) == KeepFrom(Right, r, j)
  {
  }

  lemma KeepEntryTop(r: Coord, j: int)
    requires 0 <= j < 16
    ensures Moved(Slice(Top, r), KeepSlot(Top, r, j)) && !RingFace(Top, KeepSlot(Top, r, j).f)
    ensures Source(Slice(Top, r), KeepSlot(Top, r, j)) == KeepFrom(Top, r, j)
  {
  }

  lemma KeepEntryBottom(r: Coord, j: int)
    requires 0 <= j < 16
    ensures Moved(Slice(Bottom, r), KeepSlot(Bottom, r, j)) && !RingFace(Bottom, KeepSlot(Bottom, r, j).f)
    ensures Source(Slice(Bottom, r), KeepSlot(Bottom, r, j)) == KeepFrom(Bottom, r, j)
  {
  }

  lemma KeepEntryClockwise(r: Coord, j: int)
    requires 0 <= j < 16
    ensures Moved(Slice(Clockwise, r), KeepSlot(Clockwise, r, j)) && !RingFace(Clockwise, KeepSlot(Clockwise, r, j).f)
    ensures Source(Slice(Clockwise, r), KeepSlot(Clockwise, r, j)) == KeepFrom(Clockwise, r, j)
  {
  }

  lemma KeepEntryAnticlockwise(r: Coord, j: int)
    requires 0 <= j < 16
    ensures Moved(Slice(Anticlockwise, r), KeepSlot(Anticlockwise, r, j)) && !RingFace(Anticlockwise, KeepSlot(Anticlockwise, r, j).f)
    ensures Source(Slice(Anticlockwise, r), KeepSlot(Anticlockwise, r, j)) == KeepFrom(Anticlockwise, r, j)
  {
  }

  /** Every write of the keep ring copies into a moved axis-direction slot the
    * colour of exactly the slot the geometric turn takes it from. */
  lemma KeepEntry(sp: Spin, r: Coord, j: int)
    requires 0 <= j < 16
    ensures Moved(Slice(sp, r), KeepSlot(sp, r, j)) && !RingFace(sp, KeepSlot(sp, r, j).f)
    ensures Source(Slice(sp, r), KeepSlot(sp, r, j)) == KeepFrom(sp, r, j)
  {
    match sp
    case Left => KeepEntryLeft(r, j);
    case Right => KeepEntryRight(r, j);
    case Top => KeepEntryTop(r, j);
    case Bottom => KeepEntryBottom(r, j);
    case Clockwise => KeepEntryClockwise(r, j);
    case Anticlockwise => KeepEntryAnticlockwise(r, j);
  }

  lemma SwitchCoverLeft(r: Coord, p: Facelet)
    requires Moved(Slice(Left, r), p) && RingFace(Left, p.f)
    ensures p == SwitchSlot(Left, r, 0) || p == SwitchSlot(Left, r, 1) || p == SwitchSlot(Left, r, 2) || p == SwitchSlot(Left, r, 3)
            || p == SwitchSlot(Left, r, 4) || p == SwitchSlot(Left, r, 5) || p == SwitchSlot(Left, r, 6) || p == SwitchSlot(Left, r, 7)
            || p == SwitchSlot(Left, r, 8) || p == SwitchSlot(Left, r, 9) || p == SwitchSlot(Left, r, 10) || p == SwitchSlot(Left, r, 11)
  {
  }

  lemma SwitchCoverRight(r: Coord, p: Facelet)
    requires Moved(Slice(Right, r), p) && RingFace(Right, p.f)
    ensures p == SwitchSlot(Right, r, 0) || p == SwitchSlot(Right, r, 1) || p == SwitchSlot(Right, r, 2) || p == SwitchSlot(Right, r, 3)
            || p == SwitchSlot(Right, r, 4) || p == SwitchSlot(Right, r, 5) || p == SwitchSlot(Right, r, 6) || p == SwitchSlot(Right, r, 7)
            || p == SwitchSlot(Right, r, 8) || p == SwitchSlot(Right, r, 9) || p == SwitchSlot(Right, r, 10) || p == SwitchSlot(Right, r, 11)
  {
  }

  lemma SwitchCoverTop(r: Coord, p: Facelet)
    requires Moved(Slice(Top, r), p) && RingFace(Top, p.f)
    ensures p == SwitchSlot(Top, r, 0) || p == SwitchSlot(Top, r, 1) || p == SwitchSlot(Top, r, 2) || p == SwitchSlot(Top, r, 3)
            || p == SwitchSlot(Top, r, 4) || p == SwitchSlot(Top, r, 5) || p == SwitchSlot(Top, r, 6) || p == SwitchSlot(Top, r, 7)
            || p == SwitchSlot(Top, r, 8) || p == SwitchSlot(Top, r, 9) || p == SwitchSlot(Top, r, 10) || p == SwitchSlot(Top, r, 11)
  {
  }

  lemma SwitchCoverBottom(r: Coord, p: Facelet)
    requires Moved(Slice(Bottom, r), p) && RingFace(Bottom, p.f)
    ensures p == SwitchSlot(Bottom, r, 0) || p == SwitchSlot(Bottom, r, 1) || p == SwitchSlot(Bottom, r, 2) || p == SwitchSlot(Bottom, r, 3)
            || p == SwitchSlot(Bottom, r, 4) || p == SwitchSlot(Bottom, r, 5) || p == SwitchSlot(Bottom, r, 6) || p == SwitchSlot(Bottom, r, 7)
            || p == SwitchSlot(Bottom, r, 8) || p == SwitchSlot(Bottom, r, 9) || p == SwitchSlot(Bottom, r, 10) || p == SwitchSlot(Bottom, r, 11)
  {
  }

  lemma SwitchCoverClockwise(r: Coord, p: Facelet)
    requires Moved(Slice(Clockwise, r), p) && RingFace(Clockwise, p.f)
    ensures p == SwitchSlot(Clockwise, r, 0) || p == SwitchSlot(Clockwise, r, 1) || p == SwitchSlot(Clockwise, r, 2) || p == SwitchSlot(Clockwise, r, 3)
            || p == SwitchSlot(Clockwise, r, 4) || p == SwitchSlot(Clockwise, r, 5) || p == SwitchSlot(Clockwise, r, 6) || p == SwitchSlot(Clockwise, r, 7)
            || p == SwitchSlot(Clockwise, r, 8) || p == SwitchSlot(Clockwise, r, 9) || p == SwitchSlot(Clockwise, r, 10) || p == SwitchSlot(Clockwise, r, 11)
  {
  }

  lemma SwitchCoverAnticlockwise(r: Coord, p: Facelet)
    requires Moved(Slice(Anticlockwise, r), p) && RingFace(Anticlockwise, p.f)
    ensures p == SwitchSlot(Anticlockwise, r, 0) || p == SwitchSlot(Anticlockwise, r, 1) || p == SwitchSlot(Anticlockwise, r, 2) || p == SwitchSlot(Anticlockwise, r, 3)
            || p == SwitchSlot(Anticlockwise, r, 4) || p == SwitchSlot(Anticlockwise, r, 5) || p == SwitchSlot(Anticlockwise, r, 6) || p == SwitchSlot(Anticlockwise, r, 7)
            || p == SwitchSlot(Anticlockwise, r, 8) || p == SwitchSlot(Anticlockwise, r, 9) || p == SwitchSlot(Anticlockwise, r, 10) || p == SwitchSlot(Anticlockwise, r, 11)
  {
  }

  /** The switch ring writes every moved side slot of the layer. */
  lemma SwitchCover(sp: Spin, r: Coord, p: Facelet)
    requires Moved(Slice(sp, r), p) && RingFace(sp, p.f)
    ensures exists k | 0 <= k < 12 :: p == SwitchSlot(sp, r, k)
  {
    match sp
    case Left => SwitchCoverLeft(r, p);
    case Right => SwitchCoverRight(r, p);
    case Top => SwitchCoverTop(r, p);
    case Bottom => SwitchCoverBottom(r, p);
    case Clockwise => SwitchCoverClockwise(r, p);
    case Anticlockwise => SwitchCoverAnticlockwise(r, p);
  }

  lemma KeepCoverLeft(r: Coord, p: Facelet)
    requires Moved(Slice(Left, r), p) && !RingFace(Left, p.f)
    ensures p == KeepSlot(Left, r, 0) || p == KeepSlot(Left, r, 1) || p == KeepSlot(Left, r, 2) || p == KeepSlot(Left, r, 3)
            || p == KeepSlot(Left, r, 4) || p == KeepSlot(Left, r, 5) || p == KeepSlot(Left, r, 6) || p == KeepSlot(Left, r, 7)
            || p == KeepSlot(Left, r, 8) || p == KeepSlot(Left, r, 9) || p == KeepSlot(Left, r, 10) || p == KeepSlot(Left, r, 11)
            || p == KeepSlot(Left, r, 12) || p == KeepSlot(Left, r, 13) || p == KeepSlot(Left, r, 14) || p == KeepSlot(Left, r, 15)
  {
  }

  lemma KeepCoverRight(r: Coord, p: Facelet)
    requires Moved(Slice(Right, r), p) && !RingFace(Right, p.f)
    ensures p == KeepSlot(Right, r, 0) || p == KeepSlot(Right, r, 1) || p == KeepSlot(Right, r, 2) || p == KeepSlot(Right, r, 3)
            || p == KeepSlot(Right, r, 4) || p == KeepSlot(Right, r, 5) || p == KeepSlot(Right, r, 6) || p == KeepSlot(Right, r, 7)
            || p == KeepSlot(Right, r, 8) || p == KeepSlot(Right, r, 9) || p == KeepSlot(Right, r, 10) || p == KeepSlot(Right, r, 11)
            || p == KeepSlot(Right, r, 12) || p == KeepSlot(Right, r, 13) || p == KeepSlot(Right, r, 14) || p == KeepSlot(Right, r, 15)
  {
  }

  lemma KeepCoverTop(r: Coord, p: Facelet)
    requires Moved(Slice(Top, r), p) && !RingFace(Top, p.f)
    ensures p == KeepSlot(Top, r, 0) || p == KeepSlot(Top, r, 1) || p == KeepSlot(Top, r, 2) || p == KeepSlot(Top, r, 3)
            || p == KeepSlot(Top, r, 4) || p == KeepSlot(Top, r, 5) || p == KeepSlot(Top, r, 6) || p == KeepSlot(Top, r, 7)
            || p == KeepSlot(Top, r, 8) || p == KeepSlot(Top, r, 9) || p == KeepSlot(Top, r, 10) || p == KeepSlot(Top, r, 11)
            || p == KeepSlot(Top, r, 12) || p == KeepSlot(Top, r, 13) || p == KeepSlot(Top, r, 14) || p == KeepSlot(Top, r, 15)
  {
  }

  lemma KeepCoverBottom(r: Coord, p: Facelet)
    requires Moved(Slice(Bottom, r), p) && !RingFace(Bottom, p.f)
    ensures p == KeepSlot(Bottom, r, 0) || p == KeepSlot(Bottom, r, 1) || p == KeepSlot(Bottom, r, 2) || p == KeepSlot(Bottom, r, 3)
            || p == KeepSlot(Bottom, r, 4) || p == KeepSlot(Bottom, r, 5) || p == KeepSlot(Bottom, r, 6) || p == KeepSlot(Bottom, r, 7)
            || p == KeepSlot(Bottom, r, 8) || p == KeepSlot(Bottom, r, 9) || p == KeepSlot(Bottom, r, 10) || p == KeepSlot(Bottom, r, 11)
            || p == KeepSlot(Bottom, r, 12) || p == KeepSlot(Bottom, r, 13) || p == KeepSlot(Bottom, r, 14) || p == KeepSlot(Bottom, r, 15)
  {
  }

  lemma KeepCoverClockwise(r: Coord, p: Facelet)
    requires Moved(Slice(Clockwise, r), p) && !RingFace(Clockwise, p.f)
    ensures p == KeepSlot(Clockwise, r, 0) || p == KeepSlot(Clockwise, r, 1) || p == KeepSlot(Clockwise, r, 2) || p == KeepSlot(Clockwise, r, 3)
            || p == KeepSlot(Clockwise, r, 4) || p == KeepSlot(Clockwise, r, 5) || p == KeepSlot(Clockwise, r, 6) || p == KeepSlot(Clockwise, r, 7)
            || p == KeepSlot(Clockwise, r, 8) || p == KeepSlot(Clockwise, r, 9) || p == KeepSlot(Clockwise, r, 10) || p == KeepSlot(Clockwise, r, 11)
            || p == KeepSlot(Clockwise, r, 12) || p == KeepSlot(Clockwise, r, 13) || p == KeepSlot(Clockwise, r, 14) || p == KeepSlot(Clockwise, r, 15)
  {
  }

  lemma KeepCoverAnticlockwise(r: Coord, p: Facelet)
    requires Moved(Slice(Anticlockwise, r), p) && !RingFace(Anticlockwise, p.f)
    ensures p == KeepSlot(Anticlockwise, r, 0) || p == KeepSlot(Anticlockwise, r, 1) || p == KeepSlot(Anticlockwise, r, 2) || p == KeepSlot(Anticlockwise, r, 3)
            || p == KeepSlot(Anticlockwise, r, 4) || p == KeepSlot(Anticlockwise, r, 5) || p == KeepSlot(Anticlockwise, r, 6) || p == KeepSlot(Anticlockwise, r, 7)
            || p == KeepSlot(Anticlockwise, r, 8) || p == KeepSlot(Anticlockwise, r, 9) || p == KeepSlot(Anticlockwise, r, 10) || p == KeepSlot(Anticlockwise, r, 11)
            || p == KeepSlot(Anticlockwise, r, 12) || p == KeepSlot(Anticlockwise, r, 13) || p == KeepSlot(Anticlockwise, r, 14) || p == KeepSlot(Anticlockwise, r, 15)
  {
  }

  /** The keep ring writes every moved axis-direction slot of the layer. */
  lemma KeepCover(sp: Spin, r: Coord, p: Facelet)
    requires Moved(Slice(sp, r), p) && !RingFace(sp, p.f)
    ensures exists j | 0 <= j < 16 :: p == KeepSlot(sp, r, j)
  {
    match sp
    case Left => KeepCoverLeft(r, p);
    case Right => KeepCoverRight(r, p);
    case Top => KeepCoverTop(r, p);
    case Bottom => KeepCoverBottom(r, p);
    case Clockwise => KeepCoverClockwise(r, p);
    case Anticlockwise => KeepCoverAnticlockwise(r, p);
  }

  /** Apply one three-letter code to a cube. The result is a fresh copy: the
    * slots of the turning layer are read from the argument and written into the
    * copy, so no slot is overwritten before it has been read. */
  method RecreateCube(cube: Cube, move: string) returns (newCube: Option<Cube>)
    ensures newCube == ApplyCode(cube, move)
  {
    if |move| < 3 {
      return None;
    }
    var a := new Colour[162];
    CloneCube(cube, a);
    var refValue := LayerOf(move[1]);
    var spin := SpinOf(move[2]);
    if spin.None? {
      var copy: Cube := a[..];
      return Some(copy);
    }
    if refValue < 0 {
      return None;
    }
    SwitchRing(a, cube, spin.value, refValue);
    KeepRing(a, cube, spin.value, refValue);
    var result: Cube := a[..];
    ghost var m := SliceTurn(Slice(spin.value, refValue));
    forall p: Facelet
      ensures result[Idx(p)] == Act(cube, m)[Idx(p)]
    {
      ActAt(cube, m, p);
    }
    CubeExt(result, Act(cube, m));
    return Some(result);
  }

  /** The first n of the given slots of grid s already hold the turned cube's
    * colours, and every slot not among them still holds its prior colour. */
  ghost predicate Copied(s: seq<Colour>, prior: seq<Colour>, slots: seq<int>, turned: Cube, n: int) {
    0 <= n <= |slots| && |s| == |prior| == |turned| &&
    (forall k | 0 <= k < n :: 0 <= slots[k] < |s| && s[slots[k]] == turned[slots[k]]) &&
    (forall i | 0 <= i < |s| && i !in slots[..n] :: s[i] == prior[i])
  }

  /** Copying the turned colour into the next slot extends the copied prefix. */
  lemma CopiedStep(s: seq<Colour>, prior: seq<Colour>, slots: seq<int>, turned: Cube, n: int, v: Colour)
    requires Copied(s, prior, slots, turned, n) && n < |slots| && 0 <= slots[n] < |s| && v == turned[slots[n]]
    ensures Copied(s[slots[n] := v], prior, slots, turned, n + 1)
  {
    assert slots[..n + 1] == slots[..n] + [slots[n]];
  }

  /** Once every slot is copied, the copied slots hold the turned colours and the rest is unchanged. */
  lemma CopiedAll(s: seq<Colour>, prior: seq<Colour>, slots: seq<int>, turned: Cube)
    requires Copied(s, prior, slots, turned, |slots|)
    ensures forall k | 0 <= k < |slots| :: s[slots[k]] == turned[slots[k]]
    ensures forall i | 0 <= i < |s| && i !in slots :: s[i] == prior[i]
  {
    assert slots[..|slots|] == slots;
  }

  /** The switch ring of the rotation: for each of the four sides of the layer, in
    * the order the face table is walked, copy three side slots. */
  method SwitchRing(a: array<Colour>, cube: Cube, sp: Spin, r: Coord)
    requires a.Length == 162
    modifies a
    ensures forall p: Facelet :: a[Idx(p)] == (if Moved(Slice(sp, r), p) && RingFace(sp, p.f) then Act(cube, SliceTurn(Slice(sp, r)))[Idx(p)] else old(a[Idx(p)]))
  {
    ghost var slots := seq(12, k requires 0 <= k < 12 => Idx(SwitchSlot(sp, r, k)));
    ghost var turned := Act(cube, SliceTurn(Slice(sp, r)));
    forall k | 0 <= k < 12
      ensures turned[slots[k]] == cube[Idx(SwitchFrom(sp, r, k))]
    {
      SwitchEntry(sp, r, k);
      ActAt(cube, SliceTurn(Slice(sp, r)), SwitchSlot(sp, r, k));
    }
    if Ascending(sp) {
      SwitchRising(a, cube, sp, r, slots, turned);
    } else {
      SwitchFalling(a, cube, sp, r, slots, turned);
    }
    forall p: Facelet
      ensures a[Idx(p)] == (if Moved(Slice(sp, r), p) && RingFace(sp, p.f) then Act(cube, SliceTurn(Slice(sp, r)))[Idx(p)] else old(a[Idx(p)]))
    {
      if Moved(Slice(sp, r), p) && RingFace(sp, p.f) {
        SwitchCover(sp, r, p);
        var k :| 0 <= k < 12 && p == SwitchSlot(sp, r, k);
        assert slots[k] == Idx(p);
      } else {
        forall k | 0 <= k < 12
          ensures Idx(p) != slots[k]
        {
          SwitchEntry(sp, r, k);
          IdxInjective(p, SwitchSlot(sp, r, k));
        }
      }
    }
  }

  /** Left, Top and Clockwise: the four sides are walked with count3 rising from 4 to 7. */
  method SwitchRising(a: array<Colour>, cube: Cube, sp: Spin, r: Coord, ghost slots: seq<int>, ghost turned: Cube)
    requires a.Length == 162 && Ascending(sp) && |slots| == 12
    requires forall k | 0 <= k < 12 :: 0 <= slots[k] < 162
    requires forall k | 0 <= k < 12 :: slots[k] == Idx(SwitchSlot(sp, r, k)) && turned[slots[k]] == cube[Idx(SwitchFrom(sp, r, k))]
    modifies a
    ensures forall k | 0 <= k < 12 :: a[slots[k]] == turned[slots[k]]
    ensures forall i | 0 <= i < 162 && i !in slots :: a[i] == old(a[i])
  {
    var count := 0;
    var count3 := 4;
    while count3 < 8
      invariant 4 <= count3 <= 8
      invariant count == 3 * (count3 - 4)
      invariant Copied(a[..], old(a[..]), slots, turned, count)
      decreases 8 - count3
    {
      var count4 := count3 - 1;
      var count2 := 0;
      while count2 < 3
        invariant 0 <= count2 <= 3
        invariant count == 3 * (count3 - 4) + count2
        invariant Copied(a[..], old(a[..]), slots, turned, count)
      {
        assert count3 == Count3(sp, count) && count4 == Count4(sp, count);
        assert slots[count] == Idx(SwitchTarget(sp, r, count, count3));
        ghost var before := a[..];
        CopiedStep(before, old(a[..]), slots, turned, count, cube[Idx(SwitchOrigin(sp, r, count, count4))]);
        a[Idx(SwitchTarget(sp, r, count, count3))] := cube[Idx(SwitchOrigin(sp, r, count, count4))];
        assert a[..] == before[slots[count] := cube[Idx(SwitchOrigin(sp, r, count, count4))]];
        count2 := count2 + 1;
        count := count + 1;
      }
      count3 := count3 + 1;
    }
    CopiedAll(a[..], old(a[..]), slots, turned);
  }

  /** Right, Bottom and Anticlockwise: the four sides are walked with count3 falling from 4 to 1. */
  method SwitchFalling(a: array<Colour>, cube: Cube, sp: Spin, r: Coord, ghost slots: seq<int>, ghost turned: Cube)
    requires a.Length == 162 && !Ascending(sp) && |slots| == 12
    requires forall k | 0 <= k < 12 :: 0 <= slots[k] < 162
    requires forall k | 0 <= k < 12 :: slots[k] == Idx(SwitchSlot(sp, r, k)) && turned[slots[k]] == cube[Idx(SwitchFrom(sp, r, k))]
    modifies a
    ensures forall k | 0 <= k < 12 :: a[slots[k]] == turned[slots[k]]
    ensures forall i | 0 <= i < 162 && i !in slots :: a[i] == old(a[i])
  {
    var count := 0;
    var count3 := 4;
    while count3 > 0
      invariant 0 <= count3 <= 4
      invariant count == 3 * (4 - count3)
      invariant Copied(a[..], old(a[..]), slots, turned, count)
      decreases count3
    {
      var count4 := count3 + 1;
      var count2 := 0;
      while count2 < 3
        invariant 0 <= count2 <= 3
        invariant count == 3 * (4 - count3) + count2
        invariant Copied(a[..], old(a[..]), slots, turned, count)
      {
        assert count3 == Count3(sp, count) && count4 == Count4(sp, count);
        assert slots[count] == Idx(SwitchTarget(sp, r, count, count3));
        ghost var before := a[..];
        CopiedStep(before, old(a[..]), slots, turned, count, cube[Idx(SwitchOrigin(sp, r, count, count4))]);
        a[Idx(SwitchTarget(sp, r, count, count3))] := cube[Idx(SwitchOrigin(sp, r, count, count4))];
        assert a[..] == before[slots[count] := cube[Idx(SwitchOrigin(sp, r, count, count4))]];
        count2 := count2 + 1;
        count := count + 1;
      }
      count3 := count3 - 1;
    }
    CopiedAll(a[..], old(a[..]), slots, turned);
  }

  /** The keep ring of the rotation: for each of the 8 cubies around the layer's
    * centre, copy both of its axis-direction slots. */
  method KeepRing(a: array<Colour>, cube: Cube, sp: Spin, r: Coord)
    requires a.Length == 162
    modifies a
    ensures forall p: Facelet :: a[Idx(p)] == (if Moved(Slice(sp, r), p) && !RingFace(sp, p.f) then Act(cube, SliceTurn(Slice(sp, r)))[Idx(p)] else old(a[Idx(p)]))
  {
    ghost var slots := seq(16, j requires 0 <= j < 16 => Idx(KeepSlot(sp, r, j)));
    ghost var turned := Act(cube, SliceTurn(Slice(sp, r)));
    forall j | 0 <= j < 16
      ensures turned[slots[j]] == cube[Idx(KeepFrom(sp, r, j))]
    {
      KeepEntry(sp, r, j);
      ActAt(cube, SliceTurn(Slice(sp, r)), KeepSlot(sp, r, j));
    }
    KeepCopies(a, cube, sp, r, slots, turned);
    forall p: Facelet
      ensures a[Idx(p)] == (if Moved(Slice(sp, r), p) && !RingFace(sp, p.f) then turned[Idx(p)] else old(a[Idx(p)]))
    {
      if Moved(Slice(sp, r), p) && !RingFace(sp, p.f) {
        KeepCover(sp, r, p);
        var j :| 0 <= j < 16 && p == KeepSlot(sp, r, j);
        assert slots[j] == Idx(p);
      } else {
        forall j | 0 <= j < 16
          ensures Idx(p) != slots[j]
        {
          KeepEntry(sp, r, j);
          IdxInjective(p, KeepSlot(sp, r, j));
        }
      }
    }
  }

  /** The copy loop of the keep ring, over the 8 cubies and their two slots. */
  method KeepCopies(a: array<Colour>, cube: Cube, sp: Spin, r: Coord, ghost slots: seq<int>, ghost turned: Cube)
    requires a.Length == 162 && |slots| == 16
    requires forall j | 0 <= j < 16 :: 0 <= slots[j] < 162
    requires forall j | 0 <= j < 16 :: slots[j] == Idx(KeepSlot(sp, r, j)) && turned[slots[j]] == cube[Idx(KeepFrom(sp, r, j))]
    modifies a
    ensures forall j | 0 <= j < 16 :: a[slots[j]] == turned[slots[j]]
    ensures forall i | 0 <= i < 162 && i !in slots :: a[i] == old(a[i])
  {
    var count := 0;
    while count < 8
      invariant 0 <= count <= 8
      invariant Copied(a[..], old(a[..]), slots, turned, 2 * count)
    {
      var count2 := 0;
      while count2 < 2
        invariant 0 <= count2 <= 2
        invariant Copied(a[..], old(a[..]), slots, turned, 2 * count + count2)
      {
        var j := 2 * count + count2;
        assert j / 2 == count && j % 2 == count2;
        assert slots[j] == Idx(KeepTarget(sp, r, count, count2));
        ghost var before := a[..];
        CopiedStep(before, old(a[..]), slots, turned, j, cube[Idx(KeepOrigin(sp, r, count, count2))]);
        a[Idx(KeepTarget(sp, r, count, count2))] := cube[Idx(KeepOrigin(sp, r, count, count2))];
        assert a[..] == before[slots[j] := cube[Idx(KeepOrigin(sp, r, count, count2))]];
        count2 := count2 + 1;
      }
      count := count + 1;
    }
    CopiedAll(a[..], old(a[..]), slots, turned);
  }
}
