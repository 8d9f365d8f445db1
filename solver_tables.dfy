/** The solver's fixed data: colour names, the top-layer position lists, the
  * orientation patterns of the second look of the last layer, and the moves each
  * case of each stage records. */
module SolverTables {
  import opened CubeState
  import opened Moves

  // The six sticker colours (the material table's order); black is CubeState.Black.
  const White: Colour := 0
  const Red: Colour := 1
  const Yellow: Colour := 2
  const Orange: Colour := 3
  const Blue: Colour := 4
  const Green: Colour := 5

  /** Positions in EdgePieces and CornerPieces of the top layer's edges and corners. */
  const UEdgePieces: seq<int> := [1, 9, 2, 10]
  const UCornerPieces: seq<int> := [1, 5, 6, 2]

  /** Every entry of a table of move lists is a list of predefined tokens. */
  predicate TablePredefined(t: seq<seq<string>>) {
    forall k | 0 <= k < |t| :: AllPredefined(t[k])
  }

  // Each stage picks its moves by a switch over the case it finds; the cases are
  // numbered, and each table below lists the moves of each case in that order.

  /** The cross: the rotation that brings the white centre down, by the face whose
    * centre is white (face 3 is already down). */
  const OrientTable: seq<seq<string>> := [["x'"], ["x'", "x'"], ["x"], [], ["z'"], ["z"]]

  function OrientMoves(initWhiteFace: int): (r: seq<string>)
    ensures AllPredefined(r)
  {
    assert TablePredefined(OrientTable);
    if 0 <= initWhiteFace < 6 then OrientTable[initWhiteFace] else []
  }

  /** The cross: moves for a white edge found at EdgePieces[pos]. */
  const CrossTable: seq<seq<string>> := [
    ["F", "E", "F"], ["F", "F"], ["U", "U"], ["B", "B"], ["F'"], ["F"],
    ["E'"], ["E"], ["L'", "F'"], ["U'", "F", "F"], ["U", "F", "F"], ["R", "F"]
  ]

  /** The moves for a white edge at EdgePieces[pos] whose white slot is whiteFace: at
    * the bottom front it is only flipped, when its white slot faces the front. */
  function CrossMoves(pos: int, whiteFace: int): (r: seq<string>)
    ensures AllPredefined(r)
  {
    assert TablePredefined(CrossTable);
    if pos < 0 || 12 <= pos || (pos == 0 && whiteFace != 0) then [] else CrossTable[pos]
  }

  /** The first two layers: moves for a white corner found at CornerPieces[pos]. */
  const CornerTable: seq<seq<string>> := [
    ["L'", "U'", "L"], ["U'"], ["R", "U", "U", "R'", "U'"], ["R", "U", "R'"],
    ["L", "U", "L'"], ["U"], ["U"], ["R'", "U", "R"]
  ]

  /** The moves for a white corner at CornerPieces[pos] whose white slot is whiteFace:
    * at the front right bottom it is turned out only when white faces front or top. */
  function CornerMoves(pos: int, whiteFace: int): (r: seq<string>)
    ensures AllPredefined(r)
  {
    assert TablePredefined(CornerTable);
    if pos < 0 || 8 <= pos || (pos == 2 && whiteFace != 0 && whiteFace != 1) then [] else CornerTable[pos]
  }

  /** The first two layers: moves for a middle-layer edge found at EdgePieces[pos],
    * for the positions that do not finish the pair. */
  const PairTable: seq<seq<string>> := [
    [], [], [], [], ["U'", "L'", "U", "L"], ["U", "R", "U", "R'", "U", "U"],
    ["B", "U", "B'", "U'"], ["B'", "U", "B", "U'"], [], ["U", "U", "R", "U'", "R'", "U'"],
    ["U'", "R", "U'", "R'", "U"], []
  ]

  /** The four ways to finish a pair: the edge on the top front (1) or top back (2),
    * with its colours facing the corner's way or not. */
  const PairFinishTable: seq<seq<string>> := [
    ["U'", "F'", "U", "F"],
    ["U", "F'", "U", "U", "F", "U'", "R", "U", "R'"],
    ["U", "F'", "U", "U", "F", "U", "U", "F'", "U", "F"],
    ["R", "U", "R'"]
  ]

  /** The moves for an edge found at EdgePieces[pos]. sameFirst says that the edge's
    * first colour faces the way the corner's second colour does, sameSecond the same
    * for the edge's second and the corner's third colour. */
  function PairMoves(pos: int, sameFirst: bool, sameSecond: bool): (r: seq<string>)
    ensures AllPredefined(r)
  {
    PairTablesPredefined();
    if pos == 1 then PairFinishTable[if sameFirst then 0 else 1]
    else if pos == 2 then PairFinishTable[if sameSecond then 2 else 3]
    else if 0 <= pos < 12 then PairTable[pos]
    else []
  }

  lemma PairRows()
    ensures AllPredefined(PairTable[4]) && AllPredefined(PairTable[5]) && AllPredefined(PairTable[6])
    ensures AllPredefined(PairTable[7]) && AllPredefined(PairTable[9]) && AllPredefined(PairTable[10])
  {
  }

  lemma PairFinishRows()
    ensures AllPredefined(PairFinishTable[0]) && AllPredefined(PairFinishTable[1])
    ensures AllPredefined(PairFinishTable[2]) && AllPredefined(PairFinishTable[3])
  {
  }

  lemma PairTablesPredefined()
    ensures TablePredefined(PairTable) && TablePredefined(PairFinishTable)
  {
    PairRows();
    PairFinishRows();
    forall k | 0 <= k < |PairTable| ensures AllPredefined(PairTable[k]) {
      if k == 4 {} else if k == 5 {} else if k == 6 {} else if k == 7 {} else if k == 9 {} else if k == 10 {}
    }
    forall k | 0 <= k < |PairFinishTable| ensures AllPredefined(PairFinishTable[k]) {
      if k == 0 {} else if k == 1 {} else if k == 2 {} else {}
    }
  }

  /** Edges that finish a pair when found: the loop stops after their moves. */
  predicate PairFinished(pos: int) {
    pos == 1 || pos == 2
  }

  /** First look of the last layer: the algorithms, by case. */
  const OllEdgeTable: seq<seq<string>> := [
    [],
    ["F", "R", "U", "R'", "U'", "F'", "F", "R", "U", "R'", "U'", "F'"],
    ["U", "F", "R", "U", "R'", "U'", "F'"],
    ["F", "R", "U", "R'", "U'", "F'"],
    ["U'", "F", "R", "U", "R'", "U'", "F'"],
    ["U", "U", "F", "R", "U", "R'", "U'", "F'"]
  ]

  /** The case of the first look, by which top edges already show yellow on top
    * (situation) and how many do (n): the first pair of yellow edges tested wins. */
  function OllEdgeCase(situation: seq<bool>, n: int): (k: nat)
    requires |situation| == 4
    ensures k < |OllEdgeTable|
  {
    if n == 0 || n == 1 then 1
    else if n == 2 || n == 3 then
      if situation[0] && situation[2] then 2
      else if situation[1] && situation[3] then 3
      else if situation[0] && situation[3] then 3
      else if situation[0] && situation[1] then 4
      else if situation[1] && situation[2] then 5
      else if situation[2] && situation[3] then 2
      else 0
    else 0
  }

  function OllEdgeMoves(situation: seq<bool>, n: int): (r: seq<string>)
    requires |situation| == 4
    ensures AllPredefined(r)
  {
    assert TablePredefined(OllEdgeTable);
    OllEdgeTable[OllEdgeCase(situation, n)]
  }

  /** Second look of the last layer: the four slots that must show yellow for each
    * of the seven corner cases. */
  const OllPatterns: seq<seq<Facelet>> := [
    [Facelet(0, 2, 2, 1), Facelet(0, 2, 0, 2), Facelet(2, 2, 0, 5), Facelet(2, 2, 2, 0)],
    [Facelet(2, 2, 0, 1), Facelet(0, 2, 0, 4), Facelet(2, 2, 2, 5), Facelet(0, 2, 2, 0)],
    [Facelet(0, 2, 0, 1), Facelet(2, 2, 0, 1), Facelet(0, 2, 2, 4), Facelet(2, 2, 2, 5)],
    [Facelet(2, 2, 0, 1), Facelet(0, 2, 2, 1), Facelet(0, 2, 0, 2), Facelet(2, 2, 2, 5)],
    [Facelet(0, 2, 0, 1), Facelet(2, 2, 0, 1), Facelet(0, 2, 2, 0), Facelet(2, 2, 2, 0)],
    [Facelet(0, 2, 0, 4), Facelet(2, 2, 0, 5), Facelet(0, 2, 2, 4), Facelet(2, 2, 2, 5)],
    [Facelet(0, 2, 0, 4), Facelet(2, 2, 0, 2), Facelet(0, 2, 2, 4), Facelet(2, 2, 2, 0)]
  ]

  /** Second look of the last layer: the algorithm for each corner case. */
  const OllInstructions: seq<seq<string>> := [
    ["R", "U", "R'", "U", "R", "U", "U", "R'"],
    ["R", "U", "U", "R'", "U'", "R", "U'", "R'"],
    ["x'", "D", "R", "U'", "R'", "D'", "R", "U", "R'", "x"],
    ["x'", "R", "U'", "R'", "D", "R", "U", "R'", "D'", "x"],
    ["R", "R", "D", "R'", "U", "U", "R", "D'", "R'", "U", "U", "R'"],
    ["R", "U", "R'", "U", "R", "U'", "R'", "U", "R", "U", "U", "R'"],
    ["R", "U", "U", "R", "R", "U'", "R", "R", "U'", "R", "R", "U", "U", "R"]
  ]

  lemma OllInstructionsPredefined(k: int)
    requires 0 <= k < 7
    ensures AllPredefined(OllInstructions[k])
  {
  }

  /** Last layer permutation: the turn that brings the yellow-red-blue corner to the
    * front left, by the top corner it was found at. */
  const PllAlignTable: seq<seq<string>> := [[], ["U'"], ["U", "U"], ["U"]]

  function PllAlignMoves(cornerPiecePos: int): (r: seq<string>)
    ensures AllPredefined(r)
  {
    assert TablePredefined(PllAlignTable);
    if 0 <= cornerPiecePos < 4 then PllAlignTable[cornerPiecePos] else []
  }

  /** Last layer permutation: the corner algorithms, by case. */
  const PllCornerTable: seq<seq<string>> := [
    [],
    ["y", "R", "U", "R'", "U'", "R'", "F", "R", "R", "U'", "R'", "U'", "R", "U", "R'", "F'", "y'"],
    ["R", "U", "R'", "U'", "R'", "F", "R", "R", "U'", "R'", "U'", "R", "U", "R'", "F'"],
    ["F", "R", "U'", "R'", "U'", "R", "U", "R'", "F'", "R", "U", "R'", "U'", "R'", "F", "R", "F'"],
    ["x", "R'", "U", "R'", "D", "D", "R", "U'", "R'", "D", "D", "R", "R", "x'"],
    ["x", "R", "R", "D", "D", "R", "U", "R'", "D", "D", "R", "U'", "R", "x'"]
  ]

  /** The corner case by the list of misplaced top corners; backGreen says whether
    * the back slot of the back left top cubie is green. */
  function PllCornerCase(warnings: seq<int>, backGreen: bool): (k: nat)
    ensures k < |PllCornerTable|
  {
    if |warnings| == 2 then
      if warnings[0] == 1 && warnings[1] == 2 then 1
      else if warnings[0] == 2 && warnings[1] == 3 then 2
      else if warnings[0] == 1 && warnings[1] == 3 then 3
      else 0
    else if |warnings| == 3 then
      if backGreen then 4 else 5
    else 0
  }

  function PllCornerMoves(warnings: seq<int>, backGreen: bool): (r: seq<string>)
    ensures AllPredefined(r)
  {
    PllCornerTablePredefined();
    PllCornerTable[PllCornerCase(warnings, backGreen)]
  }

  lemma PllCornerRowsLow()
    ensures AllPredefined(PllCornerTable[0]) && AllPredefined(PllCornerTable[1]) && AllPredefined(PllCornerTable[2])
  {
  }

  lemma PllCornerRowsHigh()
    ensures AllPredefined(PllCornerTable[3]) && AllPredefined(PllCornerTable[4]) && AllPredefined(PllCornerTable[5])
  {
  }

  lemma PllCornerTablePredefined()
    ensures TablePredefined(PllCornerTable)
  {
    PllCornerRowsLow();
    PllCornerRowsHigh();
    forall k | 0 <= k < |PllCornerTable| ensures AllPredefined(PllCornerTable[k]) {
      if k == 0 {} else if k == 1 {} else if k == 2 {} else if k == 3 {} else if k == 4 {} else {}
    }
  }

  /** Last layer permutation, three misplaced edges: the case by which top edge is in
    * place (the first of 0, 1 and 3 missing from the list; 3 when none is). */
  function PllEdgeTurnCase(warnings: seq<int>): (k: nat)
    ensures k < 4
  {
    if 0 !in warnings then 0
    else if 1 !in warnings then 1
    else if 3 !in warnings then 2
    else 3
  }

  /** The rotations before the edge cycle, and the ones after it that undo them. */
  const PllEdgePreTable: seq<seq<string>> := [["y", "y"], ["y"], ["y'"], []]
  const PllEdgeAfterTable: seq<seq<string>> := [["y", "y"], ["y'"], ["y"], []]

  function PllEdgePreMoves(warnings: seq<int>): (r: seq<string>)
    ensures AllPredefined(r)
  {
    assert TablePredefined(PllEdgePreTable);
    PllEdgePreTable[PllEdgeTurnCase(warnings)]
  }

  function PllEdgeAfterMoves(warnings: seq<int>): (r: seq<string>)
    ensures AllPredefined(r)
  {
    assert TablePredefined(PllEdgeAfterTable);
    PllEdgeAfterTable[PllEdgeTurnCase(warnings)]
  }

  /** The edge algorithms: the two three-edge cycles, then the three four-edge cases. */
  const PllEdgeTable: seq<seq<string>> := [
    ["R", "R", "U", "R", "U", "R'", "U'", "R'", "U'", "R'", "U", "R'"],
    ["R", "U'", "R", "U", "R", "U", "R", "U'", "R'", "U'", "R", "R"],
    ["R'", "U'", "R", "U'", "R", "U", "R", "U'", "R'", "U", "R", "U", "R", "R", "U'", "R'", "U", "U"],
    ["M", "M", "U", "M", "M", "U", "U", "M", "M", "U", "M", "M"],
    ["M", "M", "U", "M", "M", "U", "M'", "U", "U", "M", "M", "U", "U", "M'", "U", "U"]
  ]

  lemma PllEdgeRowsLow()
    ensures AllPredefined(PllEdgeTable[0]) && AllPredefined(PllEdgeTable[1]) && AllPredefined(PllEdgeTable[2])
  {
  }

  lemma PllEdgeRowsHigh()
    ensures AllPredefined(PllEdgeTable[3]) && AllPredefined(PllEdgeTable[4])
  {
  }

  lemma PllEdgeTablePredefined()
    ensures TablePredefined(PllEdgeTable)
  {
    PllEdgeRowsLow();
    PllEdgeRowsHigh();
    forall k | 0 <= k < |PllEdgeTable| ensures AllPredefined(PllEdgeTable[k]) {
      if k == 0 {} else if k == 1 {} else if k == 2 {} else if k == 3 {} else {}
    }
  }

  /** The three-edge cycle, by whether the front top edge's front slot matches the
    * left centre. */
  function PllEdgeCycle(frontMatchesLeft: bool): (r: seq<string>)
    ensures AllPredefined(r)
  {
    PllEdgeTablePredefined();
    PllEdgeTable[if frontMatchesLeft then 0 else 1]
  }

  /** The four-edge cases, by whether the front top edge's front slot matches the left
    * centre, or else the back centre. */
  function PllEdgeSwap(frontMatchesLeft: bool, frontMatchesBack: bool): (r: seq<string>)
    ensures AllPredefined(r)
  {
    PllEdgeTablePredefined();
    PllEdgeTable[if frontMatchesLeft then 2 else if frontMatchesBack then 3 else 4]
  }
}
