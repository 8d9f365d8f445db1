/** The geometry of a quarter turn, stated independently of the program's index
  * tables: which slots a turn of one layer moves, and from where each moved slot
  * takes its colour. The table-driven rotation of the program is proved equal to
  * this description in module MoveEngine. */
module SliceGeometry {
  import opened CubeState
  import opened Counting

  /** The six rotation directions a slice code can name. Left and Right turn a layer
    * of constant y, Top and Bottom a layer of constant x, Clockwise and
    * Anticlockwise a layer of constant z. */
  datatype Spin = Left | Right | Top | Bottom | Clockwise | Anticlockwise

  /** A quarter turn of one layer. */
  datatype Slice = Slice(spin: Spin, layer: Coord)

  /** A single slice, or the whole cube turned about a slice's axis. */
  datatype Motion = SliceTurn(slice: Slice) | WholeTurn(spin: Spin)

  function Opposite(sp: Spin): Spin {
    match sp
    case Left => Right
    case Right => Left
    case Top => Bottom
    case Bottom => Top
    case Clockwise => Anticlockwise
    case Anticlockwise => Clockwise
  }

  function Reverse(m: Motion): Motion {
    match m
    case SliceTurn(s) => SliceTurn(Slice(Opposite(s.spin), s.layer))
    case WholeTurn(sp) => WholeTurn(Opposite(sp))
  }

  /** The coordinate that selects the layer a spin turns. */
  function AxisCoord(sp: Spin, p: Facelet): Coord {
    match sp
    case Left | Right => p.y
    case Top | Bottom => p.x
    case Clockwise | Anticlockwise => p.z
  }

  /** The cubie on the axis of rotation inside each layer. */
  predicate OnAxisCentre(sp: Spin, p: Facelet) {
    match sp
    case Left | Right => p.x == 1 && p.z == 1
    case Top | Bottom => p.y == 1 && p.z == 1
    case Clockwise | Anticlockwise => p.x == 1 && p.y == 1
  }

  /** Slot directions perpendicular to the axis: the four sides of a turning layer. */
  predicate RingFace(sp: Spin, f: Slot) {
    match sp
    case Left | Right => f == 0 || f == 2 || f == 4 || f == 5
    case Top | Bottom => f == 0 || f == 1 || f == 2 || f == 3
    case Clockwise | Anticlockwise => f == 1 || f == 3 || f == 4 || f == 5
  }

  /** The slots a slice rewrites: the outward side slots of the layer, and both
    * axis-direction slots of the eight cubies around the layer's centre. */
  predicate Moved(s: Slice, p: Facelet) {
    AxisCoord(s.spin, p) == s.layer &&
    (if RingFace(s.spin, p.f) then Exposed(p) else !OnAxisCentre(s.spin, p))
  }

  /** The slot direction a moved slot takes its colour from. */
  function FaceSource(sp: Spin, f: Slot): Slot {
    match sp
    case Left => if f == 0 then 5 else if f == 4 then 0 else if f == 2 then 4 else if f == 5 then 2 else f
    case Right => if f == 0 then 4 else if f == 5 then 0 else if f == 2 then 5 else if f == 4 then 2 else f
    case Top => if f == 0 then 3 else if f == 1 then 0 else if f == 2 then 1 else if f == 3 then 2 else f
    case Bottom => if f == 0 then 1 else if f == 3 then 0 else if f == 2 then 3 else if f == 1 then 2 else f
    case Clockwise => if f == 1 then 4 else if f == 5 then 1 else if f == 3 then 5 else if f == 4 then 3 else f
    case Anticlockwise => if f == 1 then 5 else if f == 4 then 1 else if f == 3 then 4 else if f == 5 then 3 else f
  }

  /** The slot whose colour a slot holds after the slice: a quarter rotation of
    * the cubie's position within its layer together with its slot direction. */
  function Source(s: Slice, p: Facelet): Facelet {
    if !Moved(s, p) then p
    else
      var g := FaceSource(s.spin, p.f);
      match s.spin
      case Left => Facelet(p.z, p.y, 2 - p.x, g)
      case Right => Facelet(2 - p.z, p.y, p.x, g)
      case Top => Facelet(p.x, 2 - p.z, p.y, g)
      case Bottom => Facelet(p.x, p.z, 2 - p.y, g)
      case Clockwise => Facelet(2 - p.y, p.x, p.z, g)
      case Anticlockwise => Facelet(p.y, 2 - p.x, p.z, g)
  }

  function MotionSource(m: Motion, p: Facelet): Facelet {
    match m
    case SliceTurn(s) => Source(s, p)
    case WholeTurn(sp) => Source(Slice(sp, AxisCoord(sp, p)), p)
  }

  /** The cube after a motion: every slot takes the colour of its source slot. */
  function Act(c: Cube, m: Motion): Cube {
    seq(162, i requires 0 <= i < 162 => c[Idx(MotionSource(m, Decode(i)))])
  }

  lemma ActAt(c: Cube, m: Motion, p: Facelet)
    ensures Act(c, m)[Idx(p)] == c[Idx(MotionSource(m, p))]
  {
    DecodeIdx(p);
  }

  // Per-spin facts about Source. Stating them once for a symbolic spin is far
  // more expensive for the solver than stating them per spin.

  lemma InverseLeft(r: Coord, p: Facelet)
    ensures Source(Slice(Right, r), Source(Slice(Left, r), p)) == p
  {
    if Moved(Slice(Left, r), p) {
      var q := Source(Slice(Left, r), p);
      assert q == Facelet(p.z, p.y, 2 - p.x, FaceSource(Left, p.f));
      assert Moved(Slice(Right, r), q);
    }
  }

  lemma InverseRight(r: Coord, p: Facelet)
    ensures Source(Slice(Left, r), Source(Slice(Right, r), p)) == p
  {
    if Moved(Slice(Right, r), p) {
      var q := Source(Slice(Right, r), p);
      assert q == Facelet(2 - p.z, p.y, p.x, FaceSource(Right, p.f));
      assert Moved(Slice(Left, r), q);
    }
  }

  lemma InverseTop(r: Coord, p: Facelet)
    ensures Source(Slice(Bottom, r), Source(Slice(Top, r), p)) == p
  {
    if Moved(Slice(Top, r), p) {
      var q := Source(Slice(Top, r), p);
      assert q == Facelet(p.x, 2 - p.z, p.y, FaceSource(Top, p.f));
      assert Moved(Slice(Bottom, r), q);
    }
  }

  lemma InverseBottom(r: Coord, p: Facelet)
    ensures Source(Slice(Top, r), Source(Slice(Bottom, r), p)) == p
  {
    if Moved(Slice(Bottom, r), p) {
      var q := Source(Slice(Bottom, r), p);
      assert q == Facelet(p.x, p.z, 2 - p.y, FaceSource(Bottom, p.f));
      assert Moved(Slice(Top, r), q);
    }
  }

  lemma InverseClockwise(r: Coord, p: Facelet)
    ensures Source(Slice(Anticlockwise, r), Source(Slice(Clockwise, r), p)) == p
  {
    if Moved(Slice(Clockwise, r), p) {
      var q := Source(Slice(Clockwise, r), p);
      assert q == Facelet(2 - p.y, p.x, p.z, FaceSource(Clockwise, p.f));
      assert Moved(Slice(Anticlockwise, r), q);
    }
  }

  lemma InverseAnticlockwise(r: Coord, p: Facelet)
    ensures Source(Slice(Clockwise, r), Source(Slice(Anticlockwise, r), p)) == p
  {
    if Moved(Slice(Anticlockwise, r), p) {
      var q := Source(Slice(Anticlockwise, r), p);
      assert q == Facelet(p.y, 2 - p.x, p.z, FaceSource(Anticlockwise, p.f));
      assert Moved(Slice(Clockwise, r), q);
    }
  }

  /** Turning a layer and then turning it back restores every slot. */
  lemma SourceInverse(s: Slice, p: Facelet)
    ensures Source(Slice(Opposite(s.spin), s.layer), Source(s, p)) == p
  {
    match s.spin
    case Left => InverseLeft(s.layer, p);
    case Right => InverseRight(s.layer, p);
    case Top => InverseTop(s.layer, p);
    case Bottom => InverseBottom(s.layer, p);
    case Clockwise => InverseClockwise(s.layer, p);
    case Anticlockwise => InverseAnticlockwise(s.layer, p);
  }

  /** A moved slot takes its colour from a slot the same slice moves. */
  lemma StaysMoved(s: Slice, p: Facelet)
    requires Moved(s, p)
    ensures Moved(s, Source(s, p))
  {
    match s.spin
    case Left => assert Source(s, p) == Facelet(p.z, p.y, 2 - p.x, FaceSource(Left, p.f));
    case Right => assert Source(s, p) == Facelet(2 - p.z, p.y, p.x, FaceSource(Right, p.f));
    case Top => assert Source(s, p) == Facelet(p.x, 2 - p.z, p.y, FaceSource(Top, p.f));
    case Bottom => assert Source(s, p) == Facelet(p.x, p.z, 2 - p.y, FaceSource(Bottom, p.f));
    case Clockwise => assert Source(s, p) == Facelet(2 - p.y, p.x, p.z, FaceSource(Clockwise, p.f));
    case Anticlockwise => assert Source(s, p) == Facelet(p.y, 2 - p.x, p.z, FaceSource(Anticlockwise, p.f));
  }

  lemma FourLeft(r: Coord, p: Facelet)
    ensures var s := Slice(Left, r); Source(s, Source(s, Source(s, Source(s, p)))) == p
  {
    var s := Slice(Left, r);
    if Moved(s, p) {
      StaysMoved(s, p);
      StaysMoved(s, Source(s, p));
      StaysMoved(s, Source(s, Source(s, p)));
    }
  }


  lemma FourRight(r: Coord, p: Facelet)
    ensures var s := Slice(Right, r); Source(s, Source(s, Source(s, Source(s, p)))) == p
  {
    var s := Slice(Right, r);
    if Moved(s, p) {
      StaysMoved(s, p);
      StaysMoved(s, Source(s, p));
      StaysMoved(s, Source(s, Source(s, p)));
    }
  }


  lemma FourTop(r: Coord, p: Facelet)
    ensures var s := Slice(Top, r); Source(s, Source(s, Source(s, Source(s, p)))) == p
  {
    var s := Slice(Top, r);
    if Moved(s, p) {
      StaysMoved(s, p);
      StaysMoved(s, Source(s, p));
      StaysMoved(s, Source(s, Source(s, p)));
    }
  }


  lemma FourBottom(r: Coord, p: Facelet)
    ensures var s := Slice(Bottom, r); Source(s, Source(s, Source(s, Source(s, p)))) == p
  {
    var s := Slice(Bottom, r);
    if Moved(s, p) {
      StaysMoved(s, p);
      StaysMoved(s, Source(s, p));
      StaysMoved(s, Source(s, Source(s, p)));
    }
  }


  lemma FourClockwise(r: Coord, p: Facelet)
    ensures var s := Slice(Clockwise, r); Source(s, Source(s, Source(s, Source(s, p)))) == p
  {
    var s := Slice(Clockwise, r);
    if Moved(s, p) {
      StaysMoved(s, p);
      StaysMoved(s, Source(s, p));
      StaysMoved(s, Source(s, Source(s, p)));
    }
  }


  lemma FourAnticlockwise(r: Coord, p: Facelet)
    ensures var s := Slice(Anticlockwise, r); Source(s, Source(s, Source(s, Source(s, p)))) == p
  {
    var s := Slice(Anticlockwise, r);
    if Moved(s, p) {
      StaysMoved(s, p);
      StaysMoved(s, Source(s, p));
      StaysMoved(s, Source(s, Source(s, p)));
    }
  }


  /** Four quarter turns of a layer restore every slot. */
  lemma SourceFour(s: Slice, p: Facelet)
    ensures Source(s, Source(s, Source(s, Source(s, p)))) == p
  {
    match s.spin
    case Left => FourLeft(s.layer, p);
    case Right => FourRight(s.layer, p);
    case Top => FourTop(s.layer, p);
    case Bottom => FourBottom(s.layer, p);
    case Clockwise => FourClockwise(s.layer, p);
    case Anticlockwise => FourAnticlockwise(s.layer, p);
  }

  /** A slice keeps every slot in its own layer. */
  lemma SourceKeepsLayer(s: Slice, p: Facelet)
    ensures AxisCoord(s.spin, Source(s, p)) == AxisCoord(s.spin, p)
    ensures AxisCoord(Opposite(s.spin), p) == AxisCoord(s.spin, p)
  {
  }

  lemma MotionInverse(m: Motion, p: Facelet)
    ensures MotionSource(Reverse(m), MotionSource(m, p)) == p
  {
    match m
    case SliceTurn(s) => SourceInverse(s, p);
    case WholeTurn(sp) =>
      var s := Slice(sp, AxisCoord(sp, p));
      SourceKeepsLayer(s, p);
      SourceKeepsLayer(s, Source(s, p));
      SourceInverse(s, p);
  }

  lemma MotionFour(m: Motion, p: Facelet)
    ensures MotionSource(m, MotionSource(m, MotionSource(m, MotionSource(m, p)))) == p
  {
    match m
    case SliceTurn(s) => SourceFour(s, p);
    case WholeTurn(sp) =>
      var s := Slice(sp, AxisCoord(sp, p));
      SourceKeepsLayer(s, p);
      SourceKeepsLayer(s, Source(s, p));
      SourceKeepsLayer(s, Source(s, Source(s, p)));
      SourceFour(s, p);
  }

  /** Three quarter turns are one quarter turn the other way. */
  lemma MotionThree(m: Motion, p: Facelet)
    ensures MotionSource(m, MotionSource(m, MotionSource(m, p))) == MotionSource(Reverse(m), p)
  {
    var p3 := MotionSource(m, MotionSource(m, MotionSource(m, p)));
    MotionFour(m, p);
    MotionInverse(m, p3);
  }

  lemma ReverseReverse(m: Motion)
    ensures Reverse(Reverse(m)) == m
  {
  }

  /** Applying a motion and then its reverse gives back the starting cube. */
  lemma ActInverse(c: Cube, m: Motion)
    ensures Act(Act(c, m), Reverse(m)) == c
  {
    forall p: Facelet
      ensures Act(Act(c, m), Reverse(m))[Idx(p)] == c[Idx(p)]
    {
      ActAt(Act(c, m), Reverse(m), p);
      ActAt(c, m, MotionSource(Reverse(m), p));
      ReverseReverse(m);
      MotionInverse(Reverse(m), p);
    }
    CubeExt(Act(Act(c, m), Reverse(m)), c);
  }

  /** Three applications of a motion equal one application of its reverse. */
  lemma ActThree(c: Cube, m: Motion)
    ensures Act(Act(Act(c, m), m), m) == Act(c, Reverse(m))
  {
    forall p: Facelet
      ensures Act(Act(Act(c, m), m), m)[Idx(p)] == Act(c, Reverse(m))[Idx(p)]
    {
      var p1 := MotionSource(m, p);
      var p2 := MotionSource(m, p1);
      ActAt(Act(Act(c, m), m), m, p);
      ActAt(Act(c, m), m, p1);
      ActAt(c, m, p2);
      ActAt(c, Reverse(m), p);
      MotionThree(m, p);
    }
    CubeExt(Act(Act(Act(c, m), m), m), Act(c, Reverse(m)));
  }

  /** Four applications of a motion give back the starting cube. */
  lemma ActFour(c: Cube, m: Motion)
    ensures Act(Act(Act(Act(c, m), m), m), m) == c
  {
    ActThree(c, m);
    ActInverse(c, Reverse(m));
    ReverseReverse(m);
  }

  /** A slice leaves unchanged every slot outside its layer and every slot of the
    * cubie at the centre of its layer. */
  lemma SliceLocality(c: Cube, s: Slice, p: Facelet)
    requires AxisCoord(s.spin, p) != s.layer || OnAxisCentre(s.spin, p)
    ensures Act(c, SliceTurn(s))[Idx(p)] == c[Idx(p)]
  {
    ActAt(c, SliceTurn(s), p);
  }

  /** A motion rearranges the slots: every colour occurs as often as before. */
  lemma ActPreservesColours(c: Cube, m: Motion)
    ensures multiset(Act(c, m)) == multiset(c)
  {
    var b := Act(c, m);
    var g := seq(162, i requires 0 <= i < 162 => Idx(MotionSource(m, Decode(i))));
    var h := seq(162, i requires 0 <= i < 162 => Idx(MotionSource(Reverse(m), Decode(i))));
    forall i | 0 <= i < 162
      ensures b[i] == c[g[i]] && h[g[i]] == i
    {
      var p := Decode(i);
      DecodeIdx(MotionSource(m, p));
      MotionInverse(m, p);
      IdxDecode(i);
    }
    forall j | 0 <= j < 162
      ensures g[h[j]] == j
    {
      var p := Decode(j);
      DecodeIdx(MotionSource(Reverse(m), p));
      ReverseReverse(m);
      MotionInverse(Reverse(m), p);
      IdxDecode(j);
    }
    GatherPreservesMultiset(c, b, g, h);
  }

  /** A slice leaves every slot outside its layer where it is. */
  lemma OffLayer(s: Slice, p: Facelet)
    requires AxisCoord(s.spin, p) != s.layer
    ensures Source(s, p) == p
  {
  }

  /** Of the three slices of an axis only the one of the slot's own layer moves it,
    * as the whole-cube turn does. */
  lemma ThreeSources(sp: Spin, l0: Coord, l1: Coord, l2: Coord, p: Facelet)
    requires l0 != l1 && l1 != l2 && l0 != l2
    ensures Source(Slice(sp, l0), Source(Slice(sp, l1), Source(Slice(sp, l2), p)))
            == Source(Slice(sp, AxisCoord(sp, p)), p)
  {
    var a := AxisCoord(sp, p);
    if a == l2 {
      var q := Source(Slice(sp, l2), p);
      SourceKeepsLayer(Slice(sp, l2), p);
      OffLayer(Slice(sp, l1), q);
      OffLayer(Slice(sp, l0), q);
    } else if a == l1 {
      OffLayer(Slice(sp, l2), p);
      SourceKeepsLayer(Slice(sp, l1), p);
      OffLayer(Slice(sp, l0), Source(Slice(sp, l1), p));
    } else {
      OffLayer(Slice(sp, l2), p);
      OffLayer(Slice(sp, l1), p);
    }
  }

  lemma WholeTurnAt(c: Cube, sp: Spin, l0: Coord, l1: Coord, l2: Coord, p: Facelet)
    requires l0 != l1 && l1 != l2 && l0 != l2
    ensures Act(Act(Act(c, SliceTurn(Slice(sp, l0))), SliceTurn(Slice(sp, l1))), SliceTurn(Slice(sp, l2)))[Idx(p)]
            == Act(c, WholeTurn(sp))[Idx(p)]
  {
    var c1 := Act(c, SliceTurn(Slice(sp, l0)));
    var c2 := Act(c1, SliceTurn(Slice(sp, l1)));
    var q2 := Source(Slice(sp, l2), p);
    var q1 := Source(Slice(sp, l1), q2);
    ActAt(c2, SliceTurn(Slice(sp, l2)), p);
    ActAt(c1, SliceTurn(Slice(sp, l1)), q2);
    ActAt(c, SliceTurn(Slice(sp, l0)), q1);
    ActAt(c, WholeTurn(sp), p);
    ThreeSources(sp, l0, l1, l2, p);
  }

  /** A whole-cube turn is the three slices of its axis, in any order. */
  lemma WholeTurnIsSlices(c: Cube, sp: Spin, l0: Coord, l1: Coord, l2: Coord)
    requires l0 != l1 && l1 != l2 && l0 != l2
    ensures Act(Act(Act(c, SliceTurn(Slice(sp, l0))), SliceTurn(Slice(sp, l1))), SliceTurn(Slice(sp, l2)))
            == Act(c, WholeTurn(sp))
  {
    var c1 := Act(c, SliceTurn(Slice(sp, l0)));
    var c2 := Act(c1, SliceTurn(Slice(sp, l1)));
    forall p: Facelet
      ensures Act(c2, SliceTurn(Slice(sp, l2)))[Idx(p)] == Act(c, WholeTurn(sp))[Idx(p)]
    {
      WholeTurnAt(c, sp, l0, l1, l2, p);
    }
    CubeExt(Act(c2, SliceTurn(Slice(sp, l2))), Act(c, WholeTurn(sp)));
  }
}
