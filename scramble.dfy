/** The scrambler: twenty predefined tokens, each drawn at random until its letter
  * differs from the letter of the token before it. */
module Scrambler {
  import opened Moves
  import opened Optimizer

  const ScrambleSize := 20

  /** No two neighbouring tokens share their first letter. */
  predicate LettersAlternate(ms: seq<string>)
    requires NonEmptyTokens(ms)
  {
    forall i | 1 <= i < |ms| :: ms[i][0] != ms[i - 1][0]
  }

  /** The random draws are modelled as a free choice among the tokens the program
    * would accept; a rejected draw is simply drawn again. */
  method Scramble() returns (scrambleMoves: seq<string>)
    ensures |scrambleMoves| == ScrambleSize
    ensures forall i | 0 <= i < |scrambleMoves| :: scrambleMoves[i] in PredefinedMoves
    ensures NonEmptyTokens(scrambleMoves) && LettersAlternate(scrambleMoves)
  {
    var first := DrawAny();
    scrambleMoves := [first];
    var count := 1;
    while count < ScrambleSize
      invariant 1 <= count <= ScrambleSize && |scrambleMoves| == count
      invariant forall i | 0 <= i < count :: scrambleMoves[i] in PredefinedMoves
      invariant NonEmptyTokens(scrambleMoves) && LettersAlternate(scrambleMoves)
    {
      var move := DrawOther(scrambleMoves[count - 1]);
      Extend(scrambleMoves, move);
      scrambleMoves := scrambleMoves + [move];
      count := count + 1;
    }
  }

  /** One free draw from the move list. */
  method DrawAny() returns (move: string)
    ensures move in PredefinedMoves && |move| > 0
  {
    var randCount :| 0 <= randCount < |PredefinedMoves|;
    Drawn(randCount);
    move := PredefinedMoves[randCount];
  }

  /** The draw repeated until its letter differs from the one of `previous`. */
  method DrawOther(previous: string) returns (move: string)
    requires |previous| > 0
    ensures move in PredefinedMoves && |move| > 0 && move[0] != previous[0]
  {
    OtherLetterExists(previous);
    var randCount :| 0 <= randCount < |PredefinedMoves| && PredefinedMoves[randCount][0] != previous[0];
    Drawn(randCount);
    move := PredefinedMoves[randCount];
  }

  /** A drawn entry of the move list is a token of it, and is not empty. */
  lemma Drawn(k: nat)
    requires k < |PredefinedMoves|
    ensures PredefinedMoves[k] in PredefinedMoves && |PredefinedMoves[k]| > 0
  {
  }

  /** Appending a listed token whose letter differs from the last one keeps a
    * scramble well formed. */
  lemma Extend(ms: seq<string>, move: string)
    requires |ms| > 0 && NonEmptyTokens(ms) && LettersAlternate(ms)
    requires forall i | 0 <= i < |ms| :: ms[i] in PredefinedMoves
    requires move in PredefinedMoves && |move| > 0 && move[0] != ms[|ms| - 1][0]
    ensures forall i | 0 <= i < |ms| + 1 :: (ms + [move])[i] in PredefinedMoves
    ensures NonEmptyTokens(ms + [move]) && LettersAlternate(ms + [move])
  {
    var r := ms + [move];
    assert forall i | 0 <= i < |ms| :: r[i] == ms[i];
  }

  /** Whatever the previous token, some predefined token starts with another letter,
    * so the redrawing always ends. */
  lemma OtherLetterExists(previous: string)
    requires |previous| > 0
    ensures exists k | 0 <= k < |PredefinedMoves| :: PredefinedMoves[k][0] != previous[0]
  {
    if previous[0] == 'L' {
      assert PredefinedMoves[2][0] != previous[0];
    } else {
      assert PredefinedMoves[0][0] != previous[0];
    }
  }

  /** A scramble is already as short as the optimiser can make it: neither
    * rewrite applies anywhere in it. */
  lemma ScrambleIrreducible(ms: seq<string>)
    requires NonEmptyTokens(ms) && LettersAlternate(ms)
    ensures Irreducible(ms)
  {
    forall i | 0 <= i && i + 2 < |ms|
      ensures !TripleAt(ms, i)
    {
      assert ms[i + 1][0] != ms[i][0];
    }
    forall i | 0 <= i && i + 1 < |ms|
      ensures !PairAt(ms, i)
    {
      assert ms[i + 1][0] != ms[i][0];
    }
  }
}
