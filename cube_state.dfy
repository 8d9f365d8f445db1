/** The state of the puzzle: 27 cubies, each with six coloured slots.
  *
  * The program keeps a four-dimensional grid of boxes indexed by x, y, z and the
  * slot direction; only the colour of each box matters to the engine, so a cube is
  * modelled as the 162 colours of that grid, flattened in the grid's own
  * x, y, z, slot order. */
module CubeState {
  /** Number of slots of one cubie and side length of the cube. */
  const Faces := 6
  const Dimension := 3
  /** Colour index of the interior and background material. */
  const Black := 6

  type Coord = c: int | 0 <= c < 3
  /** Slot directions: 0 front (+z), 1 top (+y), 2 back (-z), 3 bottom (-y),
    * 4 left (-x), 5 right (+x). */
  type Slot = f: int | 0 <= f < 6
  /** Colours 0..5 are the six sticker colours, 6 is black. */
  type Colour = c: int | 0 <= c <= 6
  type Cube = s: seq<Colour> | |s| == 162 witness seq(162, i => 6)

  datatype Cubie = Cubie(x: Coord, y: Coord, z: Coord)
  datatype Facelet = Facelet(x: Coord, y: Coord, z: Coord, f: Slot)

  function At(c: Cubie, f: Slot): Facelet {
    Facelet(c.x, c.y, c.z, f)
  }

  /** Position of a slot in the flattened grid. */
  function Idx(p: Facelet): (i: nat)
    ensures i < 162
  {
    ((p.x * 3 + p.y) * 3 + p.z) * 6 + p.f
  }

  function Decode(i: int): Facelet
    requires 0 <= i < 162
  {
    Facelet(i / 54, (i / 18) % 3, (i / 6) % 3, i % 6)
  }

  lemma DecodeIdx(p: Facelet)
    ensures Decode(Idx(p)) == p
  {
    var m := p.x * 3 + p.y;
    var n := m * 3 + p.z;
    var i := Idx(p);
    assert i == n * 6 + p.f;
    assert i / 6 == n && i % 6 == p.f;
    assert i == m * 18 + (p.z * 6 + p.f);
    assert i / 18 == m;
    assert i == p.x * 54 + (p.y * 18 + p.z * 6 + p.f);
    assert i / 54 == p.x;
  }

  lemma IdxDecode(i: int)
    requires 0 <= i < 162
    ensures Idx(Decode(i)) == i
  {
    var a := i / 6;
    assert i == a * 6 + i % 6;
    var b := a / 3;
    assert a == b * 3 + a % 3;
    assert i == b * 18 + (a % 3 * 6 + i % 6);
    assert b == i / 18;
    var c := b / 3;
    assert b == c * 3 + b % 3;
    assert i == c * 54 + (b % 3 * 18 + a % 3 * 6 + i % 6);
    assert c == i / 54;
  }

  lemma IdxInjective(p: Facelet, q: Facelet)
    ensures Idx(p) == Idx(q) ==> p == q
  {
    DecodeIdx(p);
    DecodeIdx(q);
  }

  /** The six slots of the cubie at (x, y, z) are consecutive in the flattened
    * grid, from its slot 0 on; a slot of another cubie lies outside them. */
  lemma SlotOfCubie(p: Facelet, x: Coord, y: Coord, z: Coord)
    ensures var base := Idx(Facelet(x, y, z, 0));
      if p.x == x && p.y == y && p.z == z then Idx(p) == base + p.f else Idx(p) < base || base + 6 <= Idx(p)
  {
    var o, q := (p.x * 3 + p.y) * 3 + p.z, (x * 3 + y) * 3 + z;
    assert o == q ==> p.x == x && p.y == y && p.z == z;
  }

  /** Two cubes that agree on every slot are the same cube. */
  lemma CubeExt(a: Cube, b: Cube)
    requires forall p: Facelet :: a[Idx(p)] == b[Idx(p)]
    ensures a == b
  {
    forall i | 0 <= i < 162
      ensures a[i] == b[i]
    {
      IdxDecode(i);
      assert a[Idx(Decode(i))] == b[Idx(Decode(i))];
    }
  }

  /** The solved cube, slot by slot. */
  lemma SolvedAt(p: Facelet)
    ensures Solved()[Idx(p)] == SolvedColour(p)
  {
    DecodeIdx(p);
  }

  // The fixed piece tables of the program.
  const CentralPieces: seq<Cubie> :=
    [Cubie(1, 1, 2), Cubie(1, 2, 1), Cubie(1, 1, 0), Cubie(1, 0, 1), Cubie(0, 1, 1), Cubie(2, 1, 1)]
  const EdgePieces: seq<Cubie> :=
    [Cubie(1, 0, 2), Cubie(1, 2, 2), Cubie(1, 2, 0), Cubie(1, 0, 0),
     Cubie(0, 1, 2), Cubie(2, 1, 2), Cubie(2, 1, 0), Cubie(0, 1, 0),
     Cubie(0, 0, 1), Cubie(0, 2, 1), Cubie(2, 2, 1), Cubie(2, 0, 1)]
  const CornerPieces: seq<Cubie> :=
    [Cubie(0, 0, 2), Cubie(0, 2, 2), Cubie(2, 2, 2), Cubie(2, 0, 2),
     Cubie(0, 0, 0), Cubie(0, 2, 0), Cubie(2, 2, 0), Cubie(2, 0, 0)]
  const KeepFaces: seq<seq<Slot>> := [[4, 5], [1, 3], [0, 2]]
  const SwitchFaces: seq<seq<Slot>> :=
    [[0, 1, 2, 3, 0, 1, 2, 3], [0, 4, 2, 5, 0, 4, 2, 5], [1, 5, 3, 4, 1, 5, 3, 4]]

  /** A slot that faces outwards: the slot of direction f on the outer layer in that direction. */
  predicate Exposed(p: Facelet) {
    (p.f == 0 && p.z == 2) || (p.f == 1 && p.y == 2) || (p.f == 2 && p.z == 0) ||
    (p.f == 3 && p.y == 0) || (p.f == 4 && p.x == 0) || (p.f == 5 && p.x == 2)
  }

  /** In the solved cube every outward slot shows the colour of its direction. */
  function SolvedColour(p: Facelet): Colour {
    if Exposed(p) then p.f else Black
  }

  /** Position of a slot's cubie in the grid's x, y, z order. */
  function CubieOrder(p: Facelet): int {
    (p.x * 3 + p.y) * 3 + p.z
  }

  function Solved(): Cube {
    seq(162, i requires 0 <= i < 162 => SolvedColour(Decode(i)))
  }

  /** The solved cube: first every slot is black, then each cubie on an outer
    * layer receives the colour of that layer on its outward slot. */
  method SetupCube() returns (cube: Cube)
    ensures cube == Solved()
    ensures forall p: Facelet :: cube[Idx(p)] == (if Exposed(p) then p.f else Black)
  {
    var a := new Colour[162];
    var i := 0;
    while i < 162
      invariant 0 <= i <= 162
      invariant forall k | 0 <= k < i :: a[k] == Black
    {
      a[i] := Black;
      i := i + 1;
    }
    var x := 0;
    while x < 3
      invariant 0 <= x <= 3
      invariant forall p: Facelet :: a[Idx(p)] == (if p.x < x then SolvedColour(p) else Black)
    {
      var y := 0;
      while y < 3
        invariant 0 <= y <= 3
        invariant forall p: Facelet :: a[Idx(p)] == (if p.x < x || (p.x == x && p.y < y) then SolvedColour(p) else Black)
      {
        var z := 0;
        while z < 3
          invariant 0 <= z <= 3
          invariant forall p: Facelet :: a[Idx(p)] == (if p.x < x || (p.x == x && (p.y < y || (p.y == y && p.z < z))) then SolvedColour(p) else Black)
        {
          ghost var before := a[..];
          PaintCubie(a, x, y, z);
          forall p: Facelet
            ensures a[Idx(p)] == (if p.x == x && p.y == y && p.z == z then SolvedColour(p) else before[Idx(p)])
          {
            SlotOfCubie(p, x, y, z);
          }
          z := z + 1;
        }
        y := y + 1;
      }
      x := x + 1;
    }
    cube := a[..];
    forall p: Facelet
      ensures cube[Idx(p)] == Solved()[Idx(p)]
    {
      SolvedAt(p);
    }
    CubeExt(cube, Solved());
  }

  /** The colour switches applied to one cubie of the solved cube: its six
    * slots (consecutive from `Idx(Facelet(x, y, z, 0))` on) take their solved
    * colours and no other slot changes. */
  method PaintCubie(a: array<Colour>, x: Coord, y: Coord, z: Coord)
    requires a.Length == 162
    requires forall f: Slot :: a[Idx(Facelet(x, y, z, f))] == Black
    modifies a
    ensures forall f: Slot :: a[Idx(Facelet(x, y, z, f))] == SolvedColour(Facelet(x, y, z, f))
    ensures forall i | 0 <= i < 162 && (i < Idx(Facelet(x, y, z, 0)) || Idx(Facelet(x, y, z, 0)) + 6 <= i) :: a[i] == old(a[i])
  {
    var base := Idx(Facelet(x, y, z, 0));
    PaintLayer(a, base, x, 4, 5);
    PaintLayer(a, base, y, 3, 1);
    PaintLayer(a, base, z, 2, 0);
    forall f: Slot
      ensures a[Idx(Facelet(x, y, z, f))] == SolvedColour(Facelet(x, y, z, f))
    {
      assert Idx(Facelet(x, y, z, f)) == base + f;
      if f == 0 {} else if f == 1 {} else if f == 2 {} else if f == 3 {} else if f == 4 {} else {}
    }
  }

  /** One of the three switches: a cubie on the low layer of an axis shows
    * colour `low` on that slot, one on the high layer colour `high`. */
  method PaintLayer(a: array<Colour>, base: int, c: Coord, low: Slot, high: Slot)
    requires 0 <= base && base + 6 <= a.Length
    modifies a
    ensures forall i | 0 <= i < a.Length ::
      a[i] == (if c == 0 && i == base + low then low else if c == 2 && i == base + high then high else old(a[i]))
  {
    if c == 0 {
      a[base + low] := low;
    } else if c == 2 {
      a[base + high] := high;
    }
  }

  /** Copy every slot of one grid into another. */
  method CloneCube(start: Cube, newCube: array<Colour>)
    requires newCube.Length == 162
    modifies newCube
    ensures newCube[..] == start
  {
    var i := 0;
    while i < 162
      invariant 0 <= i <= 162
      invariant forall k | 0 <= k < i :: newCube[k] == start[k]
    {
      newCube[i] := start[i];
      i := i + 1;
    }
  }

  /** Slot-by-slot comparison of two grids; every slot is visited. */
  method CompareTwoCubes(a: Cube, b: Cube) returns (flag: bool)
    ensures flag <==> a == b
  {
    flag := true;
    var i := 0;
    while i < 162
      invariant 0 <= i <= 162
      invariant flag <==> forall k | 0 <= k < i :: a[k] == b[k]
    {
      if a[i] != b[i] {
        flag := false;
      }
      i := i + 1;
    }
    assert flag ==> a[..] == b[..];
  }
}
