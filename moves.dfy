/** Singmaster tokens: the 24 moves the program plays, their translation into
  * three-letter slice codes, and what a token and a list of tokens do to a cube. */
module Moves {
  import opened Wrappers
  import opened CubeState
  import opened SliceGeometry
  import opened MoveEngine

  /** The move alphabet, in the program's order. */
  const PredefinedMoves: seq<string> :=
    ["L", "L'", "R", "R'", "U", "U'", "D", "D'", "F", "F'", "B", "B'",
     "M", "M'", "E", "E'", "S", "S'", "x", "x'", "y", "y'", "z", "z'"]

  /** The letters of the alphabet: nine layer letters, then the three rotation letters. */
  const Letters: seq<char> := ['L', 'R', 'U', 'D', 'F', 'B', 'M', 'E', 'S', 'x', 'y', 'z']

  predicate IsRotationLetter(ch: char) {
    ch == 'x' || ch == 'y' || ch == 'z'
  }

  /** A token of the alphabet: one letter, optionally followed by a prime. */
  predicate IsToken(t: string) {
    (|t| == 1 || (|t| == 2 && t[1] == '\'')) && t[0] in Letters
  }

  predicate IsPrimed(t: string) {
    |t| == 2
  }

  /** The 18 face and middle-layer tokens. */
  predicate IsLayerToken(t: string) {
    IsToken(t) && !IsRotationLetter(t[0])
  }

  /** The six whole-cube rotations x, x', y, y', z, z'. */
  predicate IsRotation(t: string) {
    IsToken(t) && IsRotationLetter(t[0])
  }

  predicate AllPredefined(ms: seq<string>) {
    forall i | 0 <= i < |ms| :: IsToken(ms[i])
  }

  /** The one slice code of a layer letter, plain or primed; any other
    * character has none. */
  function LayerCode(ch: char, primed: bool): (code: Option<string>)
    ensures code.Some? <==> ch in Letters && !IsRotationLetter(ch)
    ensures code.Some? ==> |code.value| == 3 && IsSliceCode(code.value)
  {
    if primed then PrimedLayerCode(ch) else PlainLayerCode(ch)
  }

  /** The code of an unprimed layer token, by its letter. */
  function PlainLayerCode(ch: char): (code: Option<string>)
    ensures code.Some? <==> ch in Letters && !IsRotationLetter(ch)
    ensures code.Some? ==> |code.value| == 3 && IsSliceCode(code.value)
  {
    match ch
    case 'U' => Some("htl")
    case 'E' => Some("hcr")
    case 'D' => Some("hbr")
    case 'L' => Some("vlb")
    case 'M' => Some("vcb")
    case 'R' => Some("vrt")
    case 'F' => Some("dfc")
    case 'S' => Some("dcc")
    case 'B' => Some("dba")
    case _ => None
  }

  /** The code of a primed layer token: the same layer, the opposite direction. */
  function PrimedLayerCode(ch: char): (code: Option<string>)
    ensures code.Some? <==> ch in Letters && !IsRotationLetter(ch)
    ensures code.Some? ==> |code.value| == 3 && IsSliceCode(code.value)
  {
    match ch
    case 'U' => Some("htr")
    case 'E' => Some("hcl")
    case 'D' => Some("hbl")
    case 'L' => Some("vlt")
    case 'M' => Some("vct")
    case 'R' => Some("vrb")
    case 'F' => Some("dfa")
    case 'S' => Some("dca")
    case 'B' => Some("dbc")
    case _ => None
  }

  /** The three slice codes of a whole-cube rotation, plain or primed: one
    * direction, three different layers. */
  function RotationCodes(ch: char, primed: bool): (codes: seq<Option<string>>)
    requires IsRotationLetter(ch)
    ensures |codes| == 3 && codes[0].Some? && codes[1].Some? && codes[2].Some?
    ensures forall k | 0 <= k < 3 :: IsSliceCode(codes[k].value)
    ensures |codes[0].value| == |codes[1].value| == |codes[2].value| == 3
    ensures codes[1].value[0] == codes[2].value[0] == codes[0].value[0]
    ensures codes[1].value[2] == codes[2].value[2] == codes[0].value[2]
    ensures LayerOf(codes[0].value[1]) != LayerOf(codes[1].value[1])
    ensures LayerOf(codes[1].value[1]) != LayerOf(codes[2].value[1])
    ensures LayerOf(codes[0].value[1]) != LayerOf(codes[2].value[1])
  {
    match ch
    case 'x' => if primed then [Some("vlb"), Some("vcb"), Some("vrb")] else [Some("vlt"), Some("vct"), Some("vrt")]
    case 'y' => if primed then [Some("htr"), Some("hcr"), Some("hbr")] else [Some("htl"), Some("hcl"), Some("hbl")]
    case 'z' => if primed then [Some("dfa"), Some("dca"), Some("dba")] else [Some("dfc"), Some("dcc"), Some("dbc")]
  }

  /** The three slots of the translation; an unused slot is None (the program's null).
    * The program switches on the whole token; the same table is written here by
    * letter, each row giving the plain and the primed translation. */
  function TranslateMove(singmasterMove: string): (myMove: seq<Option<string>>)
    ensures |myMove| == 3
    ensures forall k | 0 <= k < 3 :: myMove[k].Some? ==> IsSliceCode(myMove[k].value)
    ensures IsLayerToken(singmasterMove) ==> myMove[0].Some? && myMove[1] == None && myMove[2] == None
    ensures IsRotation(singmasterMove) ==>
      myMove[0].Some? && myMove[1].Some? && myMove[2].Some? &&
      |myMove[0].value| == |myMove[1].value| == |myMove[2].value| == 3 &&
      myMove[1].value[0] == myMove[2].value[0] == myMove[0].value[0] &&
      myMove[1].value[2] == myMove[2].value[2] == myMove[0].value[2] &&
      LayerOf(myMove[0].value[1]) != LayerOf(myMove[1].value[1]) &&
      LayerOf(myMove[1].value[1]) != LayerOf(myMove[2].value[1]) &&
      LayerOf(myMove[0].value[1]) != LayerOf(myMove[2].value[1])
    ensures !IsToken(singmasterMove) ==> myMove == [None, None, None]
  {
    if |singmasterMove| == 1 || (|singmasterMove| == 2 && singmasterMove[1] == '\'') then
      var ch, primed := singmasterMove[0], |singmasterMove| == 2;
      if IsRotationLetter(ch) then RotationCodes(ch, primed) else [LayerCode(ch, primed), None, None]
    else [None, None, None]
  }

  /** Apply the non-empty slots of a translation in order. */
  function ApplySlots(c: Cube, codes: seq<Option<string>>): Cube
    requires forall k | 0 <= k < |codes| :: codes[k].Some? ==> IsSliceCode(codes[k].value)
    decreases |codes|
  {
    if codes == [] then c
    else
      var next := if codes[0].Some? then Act(c, SliceTurn(CodeSlice(codes[0].value))) else c;
      ApplySlots(next, codes[1..])
  }

  /** What playing one token does to a cube; a string outside the alphabet does nothing. */
  function ApplyToken(c: Cube, t: string): Cube {
    ApplySlots(c, TranslateMove(t))
  }

  /** Playing a list of tokens from first to last. */
  function ApplyTokens(c: Cube, ts: seq<string>): Cube
    decreases |ts|
  {
    if ts == [] then c else ApplyToken(ApplyTokens(c, ts[..|ts| - 1]), ts[|ts| - 1])
  }

  /** The geometric meaning of each letter: a quarter turn of one layer, or of the
    * whole cube, in the direction of the unprimed token. */
  function LetterMotion(ch: char): Motion
    requires ch in Letters
  {
    match ch
    case 'U' => SliceTurn(Slice(Left, 2))
    case 'E' => SliceTurn(Slice(Right, 1))
    case 'D' => SliceTurn(Slice(Right, 0))
    case 'L' => SliceTurn(Slice(Bottom, 0))
    case 'M' => SliceTurn(Slice(Bottom, 1))
    case 'R' => SliceTurn(Slice(Top, 2))
    case 'F' => SliceTurn(Slice(Clockwise, 2))
    case 'S' => SliceTurn(Slice(Clockwise, 1))
    case 'B' => SliceTurn(Slice(Anticlockwise, 0))
    case 'x' => WholeTurn(Top)
    case 'y' => WholeTurn(Left)
    case 'z' => WholeTurn(Clockwise)
  }

  /** A token's motion; the prime reverses it. */
  function MotionOf(t: string): Motion
    requires IsToken(t)
  {
    if IsPrimed(t) then Reverse(LetterMotion(t[0])) else LetterMotion(t[0])
  }

  /** The program's list holds each letter plain and then primed, in letter order. */
  lemma AlphabetRows()
    ensures forall i | 0 <= i < 12 :: PredefinedMoves[2 * i] == [Letters[i]]
    ensures forall i | 0 <= i < 12 :: PredefinedMoves[2 * i + 1] == [Letters[i], '\'']
  {
    forall i | 0 <= i < 12
      ensures PredefinedMoves[2 * i] == [Letters[i]] && PredefinedMoves[2 * i + 1] == [Letters[i], '\'']
    {
      if i == 0 {} else if i == 1 {} else if i == 2 {} else if i == 3 {} else if i == 4 {} else if i == 5 {}
      else if i == 6 {} else if i == 7 {} else if i == 8 {} else if i == 9 {} else if i == 10 {} else {}
    }
  }

  /** The letter-wise description of the alphabet is the program's list of 24 tokens. */
  lemma TokenAlphabet(t: string)
    ensures IsToken(t) <==> t in PredefinedMoves
  {
    AlphabetRows();
    if IsToken(t) {
      var i :| 0 <= i < 12 && Letters[i] == t[0];
      if |t| == 1 {
        assert t == [Letters[i]] == PredefinedMoves[2 * i];
      } else {
        assert t == [Letters[i], '\''] == PredefinedMoves[2 * i + 1];
      }
    }
    if t in PredefinedMoves {
      var j :| 0 <= j < 24 && PredefinedMoves[j] == t;
      var i := j / 2;
      assert j == 2 * i || j == 2 * i + 1;
    }
  }

  /** The optimiser's prime toggle: a primed token loses its prime (keeping its first
    * letter), any other token gains one. */
  function Toggle(t: string): string
    requires |t| > 0
  {
    if t[|t| - 1] == '\'' then t[..1] else t + "'"
  }

  /** The translation table agrees with the geometric meaning of each token: a
    * layer token's one code is its slice, a rotation's codes turn its spin. */
  lemma TranslationMeansMotion(t: string)
    requires IsToken(t)
    ensures IsLayerToken(t) ==> MotionOf(t) == SliceTurn(CodeSlice(TranslateMove(t)[0].value))
    ensures IsRotation(t) ==> MotionOf(t) == WholeTurn(CodeSlice(TranslateMove(t)[0].value).spin)
  {
  }

  lemma ApplyOneSlot(c: Cube, code: string)
    requires IsSliceCode(code)
    ensures ApplySlots(c, [Some(code), None, None]) == Act(c, SliceTurn(CodeSlice(code)))
  {
    var codes: seq<Option<string>> := [Some(code), None, None];
    var c1 := Act(c, SliceTurn(CodeSlice(code)));
    assert ApplySlots(c, codes) == ApplySlots(c1, codes[1..]);
    assert ApplySlots(c1, codes[1..]) == ApplySlots(c1, codes[1..][1..]);
    assert ApplySlots(c1, codes[1..][1..]) == ApplySlots(c1, codes[1..][1..][1..]);
    assert codes[1..][1..][1..] == [];
  }

  lemma ApplyThreeSlots(c: Cube, a: string, b: string, d: string)
    requires IsSliceCode(a) && IsSliceCode(b) && IsSliceCode(d)
    ensures ApplySlots(c, [Some(a), Some(b), Some(d)]) == Act(Act(Act(c, SliceTurn(CodeSlice(a))), SliceTurn(CodeSlice(b))), SliceTurn(CodeSlice(d)))
  {
    var codes := [Some(a), Some(b), Some(d)];
    var c1 := Act(c, SliceTurn(CodeSlice(a)));
    var c2 := Act(c1, SliceTurn(CodeSlice(b)));
    var c3 := Act(c2, SliceTurn(CodeSlice(d)));
    assert ApplySlots(c, codes) == ApplySlots(c1, codes[1..]);
    assert ApplySlots(c1, codes[1..]) == ApplySlots(c2, codes[1..][1..]);
    assert ApplySlots(c2, codes[1..][1..]) == ApplySlots(c3, codes[1..][1..][1..]);
    assert codes[1..][1..][1..] == [];
  }

  /** A translation without codes leaves the cube as it is. */
  lemma ApplyNoSlots(c: Cube)
    ensures ApplySlots(c, [None, None, None]) == c
  {
    var codes: seq<Option<string>> := [None, None, None];
    assert ApplySlots(c, codes) == ApplySlots(c, codes[1..]);
    assert ApplySlots(c, codes[1..]) == ApplySlots(c, codes[1..][1..]);
    assert ApplySlots(c, codes[1..][1..]) == ApplySlots(c, codes[1..][1..][1..]);
    assert codes[1..][1..][1..] == [];
  }

  /** Playing a token is its geometric motion. */
  lemma TokenMotion(c: Cube, t: string)
    requires IsToken(t)
    ensures ApplyToken(c, t) == Act(c, MotionOf(t))
  {
    TranslationMeansMotion(t);
    var m := TranslateMove(t);
    if IsRotation(t) {
      var s0 := CodeSlice(m[0].value);
      var s1 := CodeSlice(m[1].value);
      var s2 := CodeSlice(m[2].value);
      assert m == [Some(m[0].value), Some(m[1].value), Some(m[2].value)];
      ApplyThreeSlots(c, m[0].value, m[1].value, m[2].value);
      assert s1.spin == s0.spin && s2.spin == s0.spin;
      WholeTurnIsSlices(c, s0.spin, s0.layer, s1.layer, s2.layer);
    } else {
      assert m == [Some(m[0].value), None, None];
      ApplyOneSlot(c, m[0].value);
    }
  }

  /** The prime toggle stays in the alphabet and reverses the motion. */
  lemma ToggleReverses(t: string)
    requires IsToken(t)
    ensures IsToken(Toggle(t)) && MotionOf(Toggle(t)) == Reverse(MotionOf(t))
  {
  }

  /** A token followed by its toggled token restores the cube. */
  lemma TokenInverse(c: Cube, t: string)
    requires IsToken(t)
    ensures ApplyToken(ApplyToken(c, t), Toggle(t)) == c
  {
    ToggleReverses(t);
    TokenMotion(c, t);
    TokenMotion(ApplyToken(c, t), Toggle(t));
    ActInverse(c, MotionOf(t));
  }

  /** Three plays of a token are one play of its toggled token. */
  lemma TokenThrice(c: Cube, t: string)
    requires IsToken(t)
    ensures ApplyToken(ApplyToken(ApplyToken(c, t), t), t) == ApplyToken(c, Toggle(t))
  {
    ToggleReverses(t);
    var m := MotionOf(t);
    TokenMotion(c, t);
    TokenMotion(Act(c, m), t);
    TokenMotion(Act(Act(c, m), m), t);
    TokenMotion(c, Toggle(t));
    ActThree(c, m);
  }

  /** Four plays of a token restore the cube. */
  lemma TokenFour(c: Cube, t: string)
    requires IsToken(t)
    ensures ApplyToken(ApplyToken(ApplyToken(ApplyToken(c, t), t), t), t) == c
  {
    var m := MotionOf(t);
    TokenMotion(c, t);
    TokenMotion(Act(c, m), t);
    TokenMotion(Act(Act(c, m), m), t);
    TokenMotion(Act(Act(Act(c, m), m), m), t);
    ActFour(c, m);
  }

  /** A string outside the alphabet leaves the cube as it is. */
  lemma OtherTokenInert(c: Cube, t: string)
    requires !IsToken(t)
    ensures ApplyToken(c, t) == c
  {
    ApplyNoSlots(c);
  }

  /** Playing a concatenation is playing its parts in turn. */
  lemma {:induction false} ApplyTokensAppend(c: Cube, a: seq<string>, b: seq<string>)
    ensures ApplyTokens(c, a + b) == ApplyTokens(ApplyTokens(c, a), b)
    decreases |b|
  {
    if b == [] {
      assert a + b == a;
    } else {
      var init := b[..|b| - 1];
      assert (a + b)[..|a + b| - 1] == a + init;
      ApplyTokensAppend(c, a, init);
    }
  }

  /** Tokens with the same first letter and different lengths are a token and its
    * toggle, for tokens of the alphabet. */
  lemma SameLetterToggled(t: string, u: string)
    requires IsToken(t) && IsToken(u)
    requires t[0] == u[0] && |t| != |u|
    ensures u == Toggle(t)
  {
  }

  /** Playing two tokens. */
  lemma ApplyTwo(c: Cube, t: string, u: string)
    ensures ApplyTokens(c, [t, u]) == ApplyToken(ApplyToken(c, t), u)
  {
    assert [t, u][..1] == [t];
    assert [t][..0] == [];
    assert ApplyTokens(c, [t]) == ApplyToken(c, t);
  }
}
