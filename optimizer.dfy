/** The move-list optimiser: three equal tokens in a row become the toggled token,
  * and two adjacent tokens with the same letter and different lengths (a token and
  * its inverse) are deleted. */
module Optimizer {
  import opened Wrappers
  import opened CubeState
  import opened Moves

  predicate NonEmptyTokens(ms: seq<string>) {
    forall i | 0 <= i < |ms| :: |ms[i]| > 0
  }

  /** The first rewrite applies at position i. */
  predicate TripleAt(ms: seq<string>, i: int)
    requires 0 <= i && i + 2 < |ms|
  {
    ms[i] == ms[i + 1] && ms[i] == ms[i + 2]
  }

  /** The second rewrite applies at position i. */
  predicate PairAt(ms: seq<string>, i: int)
    requires 0 <= i && i + 1 < |ms| && |ms[i]| > 0 && |ms[i + 1]| > 0
  {
    ms[i][0] == ms[i + 1][0] && |ms[i]| != |ms[i + 1]|
  }

  predicate NoTriple(ms: seq<string>) {
    forall i | 0 <= i && i + 2 < |ms| :: !TripleAt(ms, i)
  }

  predicate NoPair(ms: seq<string>)
    requires NonEmptyTokens(ms)
  {
    forall i | 0 <= i && i + 1 < |ms| :: !PairAt(ms, i)
  }

  /** A list neither rewrite applies to anywhere. */
  predicate Irreducible(ms: seq<string>)
    requires NonEmptyTokens(ms)
  {
    NoTriple(ms) && NoPair(ms)
  }

  /** Two lists that do the same to every cube. */
  ghost predicate SameEffect(a: seq<string>, b: seq<string>) {
    forall c: Cube :: ApplyTokens(c, a) == ApplyTokens(c, b)
  }

  // ---------------------------------------------------------------------------
  // The rewrites keep the effect of the list.

  lemma ApplyThree(c: Cube, t: string)
    ensures ApplyTokens(c, [t, t, t]) == ApplyToken(ApplyToken(ApplyToken(c, t), t), t)
  {
    assert [t, t, t][..2] == [t, t];
    ApplyTwo(c, t, t);
  }

  lemma ApplyOne(c: Cube, t: string)
    ensures ApplyTokens(c, [t]) == ApplyToken(c, t)
  {
    assert [t][..0] == [];
  }

  /** Replacing X X X by the toggled X leaves the effect of the list unchanged. */
  lemma TripleRewrite(c: Cube, pre: seq<string>, t: string, post: seq<string>)
    requires IsToken(t)
    ensures ApplyTokens(c, pre + [t, t, t] + post) == ApplyTokens(c, pre + [Toggle(t)] + post)
  {
    var d := ApplyTokens(c, pre);
    ApplyTokensAppend(c, pre + [t, t, t], post);
    ApplyTokensAppend(c, pre, [t, t, t]);
    ApplyTokensAppend(c, pre + [Toggle(t)], post);
    ApplyTokensAppend(c, pre, [Toggle(t)]);
    ApplyThree(d, t);
    ApplyOne(d, Toggle(t));
    TokenThrice(d, t);
  }

  /** Deleting a token followed by its inverse leaves the effect unchanged. */
  lemma PairRewrite(c: Cube, pre: seq<string>, t: string, u: string, post: seq<string>)
    requires IsToken(t) && IsToken(u) && t[0] == u[0] && |t| != |u|
    ensures ApplyTokens(c, pre + [t, u] + post) == ApplyTokens(c, pre + post)
  {
    var d := ApplyTokens(c, pre);
    SameLetterToggled(t, u);
    ApplyTokensAppend(c, pre + [t, u], post);
    ApplyTokensAppend(c, pre, [t, u]);
    ApplyTokensAppend(c, pre, post);
    ApplyTwo(d, t, u);
    TokenInverse(d, t);
  }

  function CollapseTriple(ms: seq<string>, i: int): seq<string>
    requires 0 <= i && i + 2 < |ms| && |ms[i]| > 0
  {
    ms[..i] + [Toggle(ms[i])] + ms[i + 3..]
  }

  function RemovePair(ms: seq<string>, i: int): seq<string>
    requires 0 <= i && i + 1 < |ms|
  {
    ms[..i] + ms[i + 2..]
  }

  /** The program's three edits (toggle at i, then drop position i + 1 twice)
    * collapse the triple; the list stays free of empty tokens and loses two. */
  lemma TripleEdit(ms: seq<string>, i: int)
    requires NonEmptyTokens(ms) && 0 <= i && i + 2 < |ms|
    ensures var m1 := ms[i := Toggle(ms[i])];
            var m2 := m1[..i + 1] + m1[i + 2..];
            m2[..i + 1] + m2[i + 2..] == CollapseTriple(ms, i)
    ensures NonEmptyTokens(CollapseTriple(ms, i)) && |CollapseTriple(ms, i)| == |ms| - 2
  {
    var m1 := ms[i := Toggle(ms[i])];
    var m2 := m1[..i + 1] + m1[i + 2..];
    assert m2[..i + 1] + m2[i + 2..] == CollapseTriple(ms, i);
  }

  /** One collapse inside the first pass keeps what the pass promises of its list. */
  lemma TripleStep(start: seq<string>, ms: seq<string>, i: int)
    requires NonEmptyTokens(ms) && |ms| <= |start| && |ms| % 2 == |start| % 2
    requires AllPredefined(start) ==> AllPredefined(ms) && SameEffect(ms, start)
    requires 0 <= i && i + 2 < |ms| && TripleAt(ms, i)
    ensures NonEmptyTokens(CollapseTriple(ms, i)) && |CollapseTriple(ms, i)| + 2 <= |start|
    ensures |CollapseTriple(ms, i)| % 2 == |start| % 2
    ensures AllPredefined(start) ==> AllPredefined(CollapseTriple(ms, i)) && SameEffect(CollapseTriple(ms, i), start)
  {
    TripleEdit(ms, i);
    if AllPredefined(start) {
      CollapseTripleEffect(ms, i);
      SameEffectTrans(CollapseTriple(ms, i), ms, start);
    }
  }

  lemma CollapseTripleEffect(ms: seq<string>, i: int)
    requires AllPredefined(ms) && 0 <= i && i + 2 < |ms| && TripleAt(ms, i)
    ensures AllPredefined(CollapseTriple(ms, i)) && SameEffect(CollapseTriple(ms, i), ms)
  {
    var t := ms[i];
    assert ms == ms[..i] + [t, t, t] + ms[i + 3..];
    ToggleReverses(t);
    forall c: Cube
      ensures ApplyTokens(c, CollapseTriple(ms, i)) == ApplyTokens(c, ms)
    {
      TripleRewrite(c, ms[..i], t, ms[i + 3..]);
    }
  }

  lemma RemovePairEffect(ms: seq<string>, i: int)
    requires AllPredefined(ms) && 0 <= i && i + 1 < |ms| && PairAt(ms, i)
    ensures AllPredefined(RemovePair(ms, i)) && SameEffect(RemovePair(ms, i), ms)
  {
    assert ms == ms[..i] + [ms[i], ms[i + 1]] + ms[i + 2..];
    forall c: Cube
      ensures ApplyTokens(c, RemovePair(ms, i)) == ApplyTokens(c, ms)
    {
      PairRewrite(c, ms[..i], ms[i], ms[i + 1], ms[i + 2..]);
    }
  }

  // ---------------------------------------------------------------------------
  // The two passes and one round of the loop, as the program writes them: each
  // flag ends up holding the outcome of the LAST comparison its pass made, and a
  // pass that makes no comparison leaves its flag as it was.

  /** Pass 1 from position count on, with the flag as it stands. */
  function Pass1(ms: seq<string>, count: nat, flag: bool): (r: (seq<string>, bool))
    requires NonEmptyTokens(ms)
    ensures NonEmptyTokens(r.0) && |r.0| <= |ms| && |r.0| % 2 == |ms| % 2
    decreases |ms| - count
  {
    if count + 2 >= |ms| then (ms, flag)
    else if TripleAt(ms, count) then Pass1(CollapseTriple(ms, count), count + 1, true)
    else Pass1(ms, count + 1, false)
  }

  /** Pass 2 from position count on, with the flag as it stands. */
  function Pass2(ms: seq<string>, count: nat, flag2: bool): (r: (seq<string>, bool))
    requires NonEmptyTokens(ms)
    ensures NonEmptyTokens(r.0) && |r.0| <= |ms| && |r.0| % 2 == |ms| % 2
    decreases |ms| - count
  {
    if count + 1 >= |ms| then (ms, flag2)
    else if PairAt(ms, count) then Pass2(RemovePair(ms, count), count + 1, true)
    else Pass2(ms, count + 1, false)
  }

  /** One iteration of the program's outer loop: both passes, and the two flags. */
  function Round(ms: seq<string>, flag: bool, flag2: bool): (r: (seq<string>, bool, bool))
    requires NonEmptyTokens(ms)
    ensures NonEmptyTokens(r.0) && |r.0| <= |ms|
  {
    var (m1, f1) := Pass1(ms, 0, flag);
    var (m2, f2) := Pass2(m1, 0, flag2);
    (m2, f1, f2)
  }

  lemma {:induction false} Pass1Effect(ms: seq<string>, count: nat, flag: bool)
    requires AllPredefined(ms)
    ensures AllPredefined(Pass1(ms, count, flag).0) && SameEffect(Pass1(ms, count, flag).0, ms)
    decreases |ms| - count
  {
    if count + 2 >= |ms| {
    } else if TripleAt(ms, count) {
      CollapseTripleEffect(ms, count);
      Pass1Effect(CollapseTriple(ms, count), count + 1, true);
    } else {
      Pass1Effect(ms, count + 1, false);
    }
  }

  lemma {:induction false} Pass2Effect(ms: seq<string>, count: nat, flag2: bool)
    requires AllPredefined(ms)
    ensures AllPredefined(Pass2(ms, count, flag2).0) && SameEffect(Pass2(ms, count, flag2).0, ms)
    decreases |ms| - count
  {
    if count + 1 >= |ms| {
    } else if PairAt(ms, count) {
      RemovePairEffect(ms, count);
      Pass2Effect(RemovePair(ms, count), count + 1, true);
    } else {
      Pass2Effect(ms, count + 1, false);
    }
  }

  /** Whatever the flags, a round of the program's loop keeps the effect of the list. */
  lemma RoundEffect(ms: seq<string>, flag: bool, flag2: bool)
    requires AllPredefined(ms)
    ensures AllPredefined(Round(ms, flag, flag2).0) && SameEffect(Round(ms, flag, flag2).0, ms)
  {
    Pass1Effect(ms, 0, flag);
    var m1 := Pass1(ms, 0, flag).0;
    Pass2Effect(m1, 0, flag2);
  }

  /** The program's loop runs while both flags are true. On a list of at most one
    * token neither pass makes a comparison, so a round returns the state it was
    * given, flags included, and the loop never ends. */
  lemma ShortListNeverEnds(ms: seq<string>)
    requires |ms| <= 1 && NonEmptyTokens(ms)
    ensures Round(ms, true, true) == (ms, true, true)
  {
  }

  /** A cancelling pair such as R R' is emptied by the first round with both flags
    * still true, and the empty list then repeats forever. */
  lemma CancellingPairNeverEnds(a: string, b: string)
    requires |a| > 0 && |b| > 0 && a[0] == b[0] && |a| != |b|
    ensures Round([a, b], true, true) == ([], true, true)
    ensures Round([], true, true) == ([], true, true)
  {
    var ms := [a, b];
    assert Pass1(ms, 0, true) == (ms, true);
    assert PairAt(ms, 0);
    assert RemovePair(ms, 0) == [];
    assert Pass2(ms, 0, true) == Pass2([], 1, true);
  }

  /** The loop ends when the last comparison of a pass did not fire, even where an
    * earlier one did: the pair U U' is removed, the loop stops, and R R' is left. */
  lemma StopsBeforeIrreducible()
    ensures Round(["R", "U", "U'", "R'", "F"], true, true) == (["R", "R'", "F"], false, true)
    ensures !Irreducible(["R", "R'", "F"])
  {
    var ms := ["R", "U", "U'", "R'", "F"];
    assert !TripleAt(ms, 0) && !TripleAt(ms, 1) && !TripleAt(ms, 2);
    assert Pass1(ms, 0, true) == (ms, false);
    assert !PairAt(ms, 0) && PairAt(ms, 1);
    assert RemovePair(ms, 1) == ["R", "R'", "F"];
    assert Pass2(ms, 0, true) == Pass2(["R", "R'", "F"], 2, true);
    assert PairAt(["R", "R'", "F"], 0);
  }

  /** The program's outer loop, run for at most `fuel` rounds while both flags are
    * true; None when the rounds run out with the loop still going. */
  function ShortenAsWritten(ms: seq<string>, flag: bool, flag2: bool, fuel: nat): Option<seq<string>>
    requires NonEmptyTokens(ms)
    decreases fuel
  {
    if !(flag && flag2) then Some(ms)
    else if fuel == 0 then None
    else
      var (m, f1, f2) := Round(ms, flag, flag2);
      ShortenAsWritten(m, f1, f2, fuel - 1)
  }

  /** Whenever the program's loop stops, the list it leaves does to every cube what
    * the list it was given does. */
  lemma {:induction false} AsWrittenEffect(ms: seq<string>, flag: bool, flag2: bool, fuel: nat, out: seq<string>)
    requires AllPredefined(ms) && ShortenAsWritten(ms, flag, flag2, fuel) == Some(out)
    ensures AllPredefined(out) && SameEffect(out, ms)
    decreases fuel
  {
    if flag && flag2 {
      var next := Round(ms, flag, flag2);
      RoundEffect(ms, flag, flag2);
      AsWrittenEffect(next.0, next.1, next.2, fuel - 1, out);
      SameEffectTrans(out, next.0, ms);
    }
  }

  /** The program's `while (flag && flag2)` loop, allowed at most `fuel` rounds;
    * None when it is still going after them. */
  method ShortenWithin(solverMoves: seq<string>, fuel: nat) returns (result: Option<seq<string>>)
    requires NonEmptyTokens(solverMoves)
    ensures result == ShortenAsWritten(solverMoves, true, true, fuel)
    ensures result.Some? && AllPredefined(solverMoves) ==>
      AllPredefined(result.value) && SameEffect(result.value, solverMoves)
  {
    var moves := solverMoves;
    var flag, flag2 := true, true;
    var left := fuel;
    while flag && flag2 && left > 0
      invariant NonEmptyTokens(moves)
      invariant ShortenAsWritten(moves, flag, flag2, left) == ShortenAsWritten(solverMoves, true, true, fuel)
      decreases left
    {
      var next := Round(moves, flag, flag2);
      moves, flag, flag2 := next.0, next.1, next.2;
      left := left - 1;
    }
    result := if flag && flag2 then None else Some(moves);
    if result.Some? && AllPredefined(solverMoves) {
      AsWrittenEffect(solverMoves, true, true, fuel, result.value);
    }
  }

  /** However many rounds are allowed, the program's loop does not finish on a list
    * of at most one token. */
  lemma {:induction false} ShortListDiverges(ms: seq<string>, fuel: nat)
    requires |ms| <= 1 && NonEmptyTokens(ms)
    ensures ShortenAsWritten(ms, true, true, fuel) == None
    decreases fuel
  {
    if fuel > 0 {
      ShortListNeverEnds(ms);
      ShortListDiverges(ms, fuel - 1);
    }
  }

  /** However many rounds are allowed, the program's loop does not finish on a
    * cancelling pair such as R R'. */
  lemma CancellingPairDiverges(a: string, b: string, fuel: nat)
    requires |a| > 0 && |b| > 0 && a[0] == b[0] && |a| != |b|
    ensures ShortenAsWritten([a, b], true, true, fuel) == None
  {
    if fuel > 0 {
      CancellingPairNeverEnds(a, b);
      ShortListDiverges([], fuel - 1);
    }
  }

  /** Given any number of rounds, the program's loop returns R R' F for R U U' R' F,
    * a list the pair rewrite still applies to. */
  lemma StopsEarly(fuel: nat)
    requires fuel >= 1
    ensures ShortenAsWritten(["R", "U", "U'", "R'", "F"], true, true, fuel) == Some(["R", "R'", "F"])
    ensures !Irreducible(["R", "R'", "F"])
  {
    StopsBeforeIrreducible();
  }

  // ---------------------------------------------------------------------------
  // The optimiser with the loop repeated until a round changes nothing: each flag
  // records whether its pass fired at all. The list edits are the program's own
  // (set, then two removals after it; two removals at the pair).

  lemma SameEffectTrans(a: seq<string>, b: seq<string>, d: seq<string>)
    requires SameEffect(a, b) && SameEffect(b, d)
    ensures SameEffect(a, d)
  {
  }

  method Shorten(solverMoves: seq<string>) returns (moves: seq<string>)
    requires NonEmptyTokens(solverMoves)
    ensures NonEmptyTokens(moves) && Irreducible(moves)
    ensures |moves| <= |solverMoves| && |moves| % 2 == |solverMoves| % 2
    ensures AllPredefined(solverMoves) ==> AllPredefined(moves) && SameEffect(moves, solverMoves)
    ensures Irreducible(solverMoves) ==> moves == solverMoves
  {
    moves := solverMoves;
    var flag := true;
    var flag2 := true;
    while flag || flag2
      invariant NonEmptyTokens(moves) && |moves| <= |solverMoves| && |moves| % 2 == |solverMoves| % 2
      invariant AllPredefined(solverMoves) ==> AllPredefined(moves) && SameEffect(moves, solverMoves)
      invariant !flag && !flag2 ==> Irreducible(moves)
      invariant Irreducible(solverMoves) ==> moves == solverMoves
      decreases |moves| + (if flag || flag2 then 1 else 0)
    {
      var start := moves;
      var middle;
      middle, flag := TriplePass(start);
      moves, flag2 := PairPass(middle);
      if AllPredefined(solverMoves) {
        SameEffectTrans(middle, start, solverMoves);
        SameEffectTrans(moves, middle, solverMoves);
      }
    }
  }

  /** Shortening twice gives what shortening once gives: the result is irreducible,
    * and an irreducible list comes back unchanged. */
  method ShortenIdempotent(solverMoves: seq<string>) returns (once: seq<string>, twice: seq<string>)
    requires NonEmptyTokens(solverMoves)
    ensures twice == once && NonEmptyTokens(once) && Irreducible(once)
  {
    once := Shorten(solverMoves);
    twice := Shorten(once);
  }

  /** The first pass: every position is compared once, left to right, on the list
    * as it stands. */
  method TriplePass(start: seq<string>) returns (moves: seq<string>, flag: bool)
    requires NonEmptyTokens(start)
    ensures NonEmptyTokens(moves) && |moves| <= |start| && |moves| % 2 == |start| % 2
    ensures AllPredefined(start) ==> AllPredefined(moves) && SameEffect(moves, start)
    ensures flag ==> |moves| + 2 <= |start|
    ensures !flag ==> moves == start && NoTriple(moves)
    ensures NoTriple(start) ==> !flag
  {
    moves := start;
    flag := false;
    var count := 0;
    while count < |moves| - 2
      invariant 0 <= count
      invariant NonEmptyTokens(moves) && |moves| <= |start| && |moves| % 2 == |start| % 2
      invariant AllPredefined(start) ==> AllPredefined(moves) && SameEffect(moves, start)
      invariant flag ==> |moves| + 2 <= |start|
      invariant !flag ==> moves == start && forall i | 0 <= i < count && i + 2 < |moves| :: !TripleAt(moves, i)
      invariant NoTriple(start) ==> !flag
    {
      if moves[count] == moves[count + 1] && moves[count] == moves[count + 2] {
        assert !flag ==> TripleAt(start, count);
        ghost var before := moves;
        TripleEdit(before, count);
        TripleStep(start, before, count);
        moves := moves[count := Toggle(moves[count])];
        moves := moves[..count + 1] + moves[count + 2..];
        moves := moves[..count + 1] + moves[count + 2..];
        flag := true;
      }
      count := count + 1;
    }
  }

  /** The second pass, compared left to right on the list as it stands. */
  method PairPass(start: seq<string>) returns (moves: seq<string>, flag2: bool)
    requires NonEmptyTokens(start)
    ensures NonEmptyTokens(moves) && |moves| <= |start| && |moves| % 2 == |start| % 2
    ensures AllPredefined(start) ==> AllPredefined(moves) && SameEffect(moves, start)
    ensures flag2 ==> |moves| + 2 <= |start|
    ensures !flag2 ==> moves == start && NoPair(moves)
    ensures NoPair(start) ==> !flag2
  {
    moves := start;
    flag2 := false;
    var count := 0;
    while count < |moves| - 1
      invariant 0 <= count
      invariant NonEmptyTokens(moves) && |moves| <= |start| && |moves| % 2 == |start| % 2
      invariant AllPredefined(start) ==> AllPredefined(moves) && SameEffect(moves, start)
      invariant flag2 ==> |moves| + 2 <= |start|
      invariant !flag2 ==> moves == start && forall i | 0 <= i < count && i + 1 < |moves| :: !PairAt(moves, i)
      invariant NoPair(start) ==> !flag2
    {
      if moves[count][0] == moves[count + 1][0] && |moves[count]| != |moves[count + 1]| {
        assert !flag2 ==> PairAt(start, count);
        ghost var before := moves;
        moves := moves[..count] + moves[count + 1..];
        moves := moves[..count] + moves[count + 1..];
        assert moves == RemovePair(before, count);
        if AllPredefined(start) {
          RemovePairEffect(before, count);
          SameEffectTrans(moves, before, start);
        }
        flag2 := true;
      }
      count := count + 1;
    }
  }
}
