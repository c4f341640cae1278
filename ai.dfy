/**
 * The computer opponent: immediate win/block checks, a strategic fallback
 * and a minimax search with alpha-beta pruning. Randomness is injected: a
 * boolean `coin` for the probability tests and a natural `pick` used as an
 * index (modulo the number of candidates) into a candidate list.
 */
module Ai {
  import opened Board

  /** Stand-ins for -Infinity and +Infinity: every score lies strictly between them. */
  const NegInf: int := -1000
  const PosInf: int := 1000

  function Max(a: int, b: int): int { if a >= b then a else b }
  function Min(a: int, b: int): int { if a <= b then a else b }

  /**
   * The score of a finished board, or None when the search must go on:
   * a win is checked before fullness.
   */
  function Terminal(g: Grid, depth: int, ai: Mark, human: Mark): Option<int>
  {
    var w := Winner(g);
    if w == Some(ai) then Some(10 - depth)
    else if w == Some(human) then Some(depth - 10)
    else if |LegalMoves(g)| == 0 then Some(0)
    else None
  }

  /**
   * The running maximum (or minimum) of `vals`, folded from the left and
   * starting from -Infinity (or +Infinity), as the search loop keeps it.
   */
  function Best(vals: seq<int>, maximizing: bool): int
    decreases |vals|
  {
    if vals == [] then (if maximizing then NegInf else PosInf)
    else
      var n := |vals| - 1;
      if maximizing then Max(Best(vals[..n], true), vals[n]) else Min(Best(vals[..n], false), vals[n])
  }

  /** Extending the fold by one score combines the previous fold with that score. */
  lemma BestSnoc(vals: seq<int>, i: nat, maximizing: bool)
    requires i < |vals|
    ensures Best(vals[..i + 1], maximizing) ==
      if maximizing then Max(Best(vals[..i], true), vals[i]) else Min(Best(vals[..i], false), vals[i])
  {
    assert vals[..i + 1][..i] == vals[..i];
  }

  /** A maximizing fold bounds every score from above, a minimizing fold from below. */
  lemma {:induction false} BestBoundsEach(vals: seq<int>, maximizing: bool, k: nat)
    requires k < |vals|
    ensures maximizing ==> vals[k] <= Best(vals, maximizing)
    ensures !maximizing ==> Best(vals, maximizing) <= vals[k]
    decreases |vals|
  {
    var n := |vals| - 1;
    if k < n {
      BestBoundsEach(vals[..n], maximizing, k);
    }
  }

  /** The fold of a non-empty list of scores within [lo, hi] lies within [lo, hi]. */
  lemma {:induction false} BestWithin(vals: seq<int>, maximizing: bool, lo: int, hi: int)
    requires 0 < |vals| && NegInf < lo
    requires hi < PosInf
    requires forall k :: 0 <= k < |vals| ==> lo <= vals[k] <= hi
    ensures lo <= Best(vals, maximizing) <= hi
    decreases |vals|
  {
    var n := |vals| - 1;
    if n > 0 {
      BestWithin(vals[..n], maximizing, lo, hi);
    }
  }

  /**
   * Unpruned minimax: the value of `g` at `depth` with the maximizing side
   * (the engine, `ai`) or the minimizing side (`human`) to move. A
   * non-terminal board takes the best of its children's values, the
   * children being the legal moves in ascending order.
   */
  function Value(g: Grid, depth: int, maximizing: bool, ai: Mark, human: Mark): int
    decreases |LegalMoves(g)|, 1
  {
    match Terminal(g, depth, ai, human)
    case Some(s) => s
    case None => Best(Children(g, depth, maximizing, ai, human), maximizing)
  }

  /** The mark placed by the side to move. */
  function Mover(maximizing: bool, ai: Mark, human: Mark): Mark {
    if maximizing then ai else human
  }

  /** The values of the children of `g`, one per legal move, in ascending move order. */
  function Children(g: Grid, depth: int, maximizing: bool, ai: Mark, human: Mark): seq<int>
    decreases |LegalMoves(g)|, 0
  {
    var moves := LegalMoves(g);
    LegalMovesSound(g);
    seq(|moves|, k requires 0 <= k < |moves| =>
      PlaceShrinks(g, moves[k], Mover(maximizing, ai, human));
      Value(Place(g, moves[k], Mover(maximizing, ai, human)), depth + 1, !maximizing, ai, human))
  }

  /**
   * Scores are bounded: as long as `depth` plus the number of free cells is
   * at most 10, every value lies in [depth - 10, 10 - depth], hence in
   * [-10, 10].
   */
  lemma {:induction false} ValueBounds(g: Grid, depth: int, maximizing: bool, ai: Mark, human: Mark)
    requires 0 <= depth && depth + |LegalMoves(g)| <= 10
    ensures depth - 10 <= Value(g, depth, maximizing, ai, human) <= 10 - depth
    decreases |LegalMoves(g)|, 1
  {
    if Terminal(g, depth, ai, human).None? {
      var vals := Children(g, depth, maximizing, ai, human);
      forall k | 0 <= k < |vals|
        ensures depth - 9 <= vals[k] <= 9 - depth
      {
        ChildBounds(g, depth, maximizing, ai, human, k);
      }
      BestWithin(vals, maximizing, depth - 9, 9 - depth);
    }
  }

  /** Each child value of a board lies one ply inside its parent's bounds. */
  lemma {:induction false} ChildBounds(g: Grid, depth: int, maximizing: bool, ai: Mark, human: Mark, k: nat)
    requires 0 <= depth && depth + |LegalMoves(g)| <= 10
    requires k < |LegalMoves(g)|
    ensures k < |Children(g, depth, maximizing, ai, human)|
    ensures depth - 9 <= Children(g, depth, maximizing, ai, human)[k] <= 9 - depth
    decreases |LegalMoves(g)|, 0
  {
    var moves := LegalMoves(g);
    LegalMovesSound(g);
    var mover := Mover(maximizing, ai, human);
    PlaceShrinks(g, moves[k], mover);
    var child := Place(g, moves[k], mover);
    ValueBounds(child, depth + 1, !maximizing, ai, human);
    assert Children(g, depth, maximizing, ai, human)[k] == Value(child, depth + 1, !maximizing, ai, human);
  }

  /**
   * Fail-soft alpha-beta: a result at or below alpha is an upper bound of the
   * true value, one at or above beta is a lower bound, and one strictly
   * inside the window is the true value.
   */
  predicate FailSoft(r: int, v: int, alpha: int, beta: int) {
    (r <= alpha ==> v <= r) &&
    (alpha < r < beta ==> r == v) &&
    (beta <= r ==> r <= v)
  }

  /**
   * Minimax with alpha-beta pruning. Cutting the loop once beta <= alpha
   * keeps the result fail-soft with respect to the unpruned value; searched
   * with the full window (-Infinity, +Infinity) it returns exactly the
   * unpruned value.
   */
  method Minimax(g: Grid, depth: int, maximizing: bool, alpha: int, beta: int, ai: Mark, human: Mark) returns (score: int)
    requires NegInf <= alpha < beta <= PosInf
    ensures FailSoft(score, Value(g, depth, maximizing, ai, human), alpha, beta)
    ensures alpha == NegInf && beta == PosInf && 0 <= depth && depth + |LegalMoves(g)| <= 10 ==>
      score == Value(g, depth, maximizing, ai, human)
    decreases |LegalMoves(g)|, 2
  {
    var w := Winner(g);
    if w == Some(ai) {
      return 10 - depth;
    }
    if w == Some(human) {
      return depth - 10;
    }
    if |LegalMoves(g)| == 0 {
      return 0;
    }
    if maximizing {
      score := MaxSearch(g, depth, alpha, beta, ai, human);
    } else {
      score := MinSearch(g, depth, alpha, beta, ai, human);
    }
    if alpha == NegInf && beta == PosInf && 0 <= depth && depth + |LegalMoves(g)| <= 10 {
      ValueBounds(g, depth, maximizing, ai, human);
    }
  }

  /**
   * One step of the maximizing loop keeps its invariant: the running maximum
   * bounds the fold of the children searched so far from above and equals
   * it once it exceeds alpha; a cut-off result is a lower bound of the child.
   */
  lemma MaxStep(alpha: int, beta: int, maxScore: int, a: int, s: int, v: int, prev: int)
    requires a == Max(alpha, maxScore) && a < beta
    requires prev <= maxScore && (alpha < maxScore ==> prev == maxScore)
    requires FailSoft(s, v, a, beta)
    ensures Max(a, s) == Max(alpha, Max(maxScore, s))
    ensures Max(a, s) < beta ==>
      Max(prev, v) <= Max(maxScore, s) && (alpha < Max(maxScore, s) ==> Max(prev, v) == Max(maxScore, s))
    ensures beta <= Max(a, s) ==> beta <= Max(maxScore, s) <= v
  {
  }

  /** One step of the minimizing loop keeps its invariant (the mirror image of MaxStep). */
  lemma MinStep(alpha: int, beta: int, minScore: int, b: int, s: int, v: int, prev: int)
    requires b == Min(beta, minScore) && alpha < b
    requires minScore <= prev && (minScore < beta ==> prev == minScore)
    requires FailSoft(s, v, alpha, b)
    ensures Min(b, s) == Min(beta, Min(minScore, s))
    ensures alpha < Min(b, s) ==>
      Min(minScore, s) <= Min(prev, v) && (Min(minScore, s) < beta ==> Min(prev, v) == Min(minScore, s))
    ensures Min(b, s) <= alpha ==> v <= Min(minScore, s) <= alpha
  {
  }

  /** Searches the child reached by the `i`-th legal move of the side to move. */
  method SearchChild(g: Grid, depth: int, maximizing: bool, i: nat, alpha: int, beta: int, ai: Mark, human: Mark)
    returns (score: int)
    requires NegInf <= alpha < beta <= PosInf
    requires i < |LegalMoves(g)|
    ensures i < |Children(g, depth, maximizing, ai, human)|
    ensures FailSoft(score, Children(g, depth, maximizing, ai, human)[i], alpha, beta)
    decreases |LegalMoves(g)|, 0
  {
    var moves := LegalMoves(g);
    LegalMovesSound(g);
    var mover := Mover(maximizing, ai, human);
    PlaceShrinks(g, moves[i], mover);
    score := Minimax(Place(g, moves[i], mover), depth + 1, !maximizing, alpha, beta, ai, human);
  }

  /** The maximizing branch of the search: the engine tries each free cell in turn. */
  method MaxSearch(g: Grid, depth: int, alpha: int, beta: int, ai: Mark, human: Mark) returns (maxScore: int)
    requires NegInf <= alpha < beta <= PosInf
    requires Terminal(g, depth, ai, human).None?
    ensures FailSoft(maxScore, Value(g, depth, true, ai, human), alpha, beta)
    decreases |LegalMoves(g)|, 1
  {
    var moves := LegalMoves(g);
    ghost var vals := Children(g, depth, true, ai, human);
    LegalMovesSound(g);
    var a := alpha;
    maxScore := NegInf;
    var i := 0;
    while i < |moves|
      invariant 0 <= i <= |moves|
      invariant a == Max(alpha, maxScore) && a < beta
      invariant Best(vals[..i], true) <= maxScore
      invariant alpha < maxScore ==> Best(vals[..i], true) == maxScore
    {
      var score := SearchChild(g, depth, true, i, a, beta, ai, human);
      BestSnoc(vals, i, true);
      MaxStep(alpha, beta, maxScore, a, score, vals[i], Best(vals[..i], true));
      maxScore := Max(maxScore, score);
      a := Max(a, score);
      if beta <= a {
        BestBoundsEach(vals, true, i);
        break;
      }
      i := i + 1;
    }
    if i == |moves| {
      assert vals[..i] == vals;
    }
  }

  /** The minimizing branch of the search: the opponent tries each free cell in turn. */
  method MinSearch(g: Grid, depth: int, alpha: int, beta: int, ai: Mark, human: Mark) returns (minScore: int)
    requires NegInf <= alpha < beta <= PosInf
    requires Terminal(g, depth, ai, human).None?
    ensures FailSoft(minScore, Value(g, depth, false, ai, human), alpha, beta)
    decreases |LegalMoves(g)|, 1
  {
    var moves := LegalMoves(g);
    ghost var vals := Children(g, depth, false, ai, human);
    LegalMovesSound(g);
    var b := beta;
    minScore := PosInf;
    var i := 0;
    while i < |moves|
      invariant 0 <= i <= |moves|
      invariant b == Min(beta, minScore) && alpha < b
      invariant minScore <= Best(vals[..i], false)
      invariant minScore < beta ==> Best(vals[..i], false) == minScore
    {
      var score := SearchChild(g, depth, false, i, alpha, b, ai, human);
      BestSnoc(vals, i, false);
      MinStep(alpha, beta, minScore, b, score, vals[i], Best(vals[..i], false));
      minScore := Min(minScore, score);
      b := Min(b, score);
      if b <= alpha {
        BestBoundsEach(vals, false, i);
        break;
      }
      i := i + 1;
    }
    if i == |moves| {
      assert vals[..i] == vals;
    }
  }

  /** The root score of each legal move of the engine: the unpruned value of the child, searched from depth 0. */
  function RootScores(g: Grid, ai: Mark, human: Mark): seq<int>
  {
    var moves := LegalMoves(g);
    seq(|moves|, k requires 0 <= k < |moves| => Value(Place(g, moves[k], ai), 0, false, ai, human))
  }

  /** `k` holds the greatest score of `s`, and every earlier score is strictly smaller. */
  predicate IsFirstMax(s: seq<int>, k: int) {
    0 <= k < |s| &&
    (forall j :: 0 <= j < |s| ==> s[j] <= s[k]) &&
    (forall j :: 0 <= j < k ==> s[j] < s[k])
  }

  /**
   * One step of the best-move loop: a strictly greater score takes over,
   * and either way the current choice stays the first maximum so far.
   */
  lemma FirstMaxStep(scores: seq<int>, i: nat, bestIdx: nat, bestScore: int)
    requires i < |scores| && bestIdx <= i
    requires forall j :: 0 <= j < i ==> scores[j] <= bestScore
    requires forall j :: 0 <= j < bestIdx ==> scores[j] < bestScore
    ensures scores[i] > bestScore ==>
      (forall j :: 0 <= j < i + 1 ==> scores[j] <= scores[i]) && (forall j :: 0 <= j < i ==> scores[j] < scores[i])
    ensures scores[i] <= bestScore ==> forall j :: 0 <= j < i + 1 ==> scores[j] <= bestScore
  {
  }

  /**
   * The choice of the perfect player: no move on a full board, otherwise
   * the first legal move (lowest index) among those with the greatest root
   * score.
   */
  ghost predicate IsBestMove(g: Grid, ai: Mark, human: Mark, r: Option<Pos>) {
    (r.None? <==> |LegalMoves(g)| == 0) &&
    (r.Some? ==> exists k :: IsFirstMax(RootScores(g, ai, human), k) && k < |LegalMoves(g)| && LegalMoves(g)[k] == r.value)
  }

  /**
   * Scores the `i`-th legal move: a full-window search of the child from
   * depth 0, which equals its unpruned value and lies in [-10, 10].
   */
  method ScoreRootMove(g: Grid, i: nat, ai: Mark, human: Mark) returns (score: int)
    requires i < |LegalMoves(g)|
    ensures i < |RootScores(g, ai, human)| && score == RootScores(g, ai, human)[i]
    ensures -10 <= score <= 10
  {
    var child := Place(g, LegalMoves(g)[i], ai);
    score := Minimax(child, 0, false, NegInf, PosInf, ai, human);
    ValueBounds(child, 0, false, ai, human);
  }

  /**
   * The engine's best move: every legal move is scored, and a move replaces
   * the current choice only with a strictly greater score, so ties go to the
   * lowest index; a full board yields no move.
   */
  method GetBestMove(g: Grid, ai: Mark, human: Mark) returns (bestMove: Option<Pos>)
    ensures IsBestMove(g, ai, human, bestMove)
  {
    var moves := LegalMoves(g);
    ghost var scores := RootScores(g, ai, human);
    var bestScore := NegInf;
    bestMove := None;
    ghost var bestIdx := 0;
    var i := 0;
    while i < |moves|
      invariant 0 <= i <= |moves| && |scores| == |moves|
      invariant i == 0 ==> bestMove.None? && bestScore == NegInf
      invariant 0 <= bestIdx <= i
      invariant 0 < i ==> bestIdx < i && bestMove == Some(moves[bestIdx]) && bestScore == scores[bestIdx]
      invariant forall j :: 0 <= j < i ==> scores[j] <= bestScore
      invariant forall j :: 0 <= j < bestIdx ==> scores[j] < bestScore
    {
      var score := ScoreRootMove(g, i, ai, human);
      FirstMaxStep(scores, i, bestIdx, bestScore);
      if score > bestScore {
        bestScore := score;
        bestMove := Some(moves[i]);
        bestIdx := i;
      }
      i := i + 1;
    }
    if 0 < |moves| {
      assert IsFirstMax(scores, bestIdx);
    }
  }

  /** Placing `sym` at `p` completes a line of `sym`, as the engine's winner check sees it. */
  predicate WinsAt(g: Grid, p: Pos, sym: Mark) {
    Winner(Place(g, p, sym)) == Some(sym)
  }

  /** The first move of `moves` that wins for `sym`. */
  function FindWinningIn(g: Grid, moves: seq<Pos>, sym: Mark): Option<Pos>
    decreases |moves|
  {
    if moves == [] then None
    else if WinsAt(g, moves[0], sym) then Some(moves[0])
    else FindWinningIn(g, moves[1..], sym)
  }

  lemma {:induction false} FindWinningInSpec(g: Grid, moves: seq<Pos>, sym: Mark)
    ensures FindWinningIn(g, moves, sym).Some? ==>
      exists k :: 0 <= k < |moves| && moves[k] == FindWinningIn(g, moves, sym).value &&
        WinsAt(g, moves[k], sym) && forall j :: 0 <= j < k ==> !WinsAt(g, moves[j], sym)
    ensures FindWinningIn(g, moves, sym).None? ==> forall j :: 0 <= j < |moves| ==> !WinsAt(g, moves[j], sym)
    decreases |moves|
  {
    if moves != [] && !WinsAt(g, moves[0], sym) {
      FindWinningInSpec(g, moves[1..], sym);
      var r := FindWinningIn(g, moves[1..], sym);
      if r.Some? {
        var k :| 0 <= k < |moves[1..]| && moves[1..][k] == r.value &&
          WinsAt(g, moves[1..][k], sym) && forall j :: 0 <= j < k ==> !WinsAt(g, moves[1..][j], sym);
        assert moves[k + 1] == r.value;
        forall j | 0 <= j < k + 1
          ensures !WinsAt(g, moves[j], sym)
        {
          if 0 < j {
            assert moves[j] == moves[1..][j - 1];
          }
        }
      } else {
        forall j | 0 <= j < |moves|
          ensures !WinsAt(g, moves[j], sym)
        {
          if 0 < j {
            assert moves[j] == moves[1..][j - 1];
          }
        }
      }
    }
  }

  /**
   * The first legal move, in ascending index order, that completes a line
   * for `sym`. The board is a value: the trial placements never change it.
   */
  function FindWinningMove(g: Grid, sym: Mark): Option<Pos>
  {
    FindWinningIn(g, LegalMoves(g), sym)
  }

  /**
   * In a strictly ascending list holding exactly the empty cells, a cell
   * below the `k`-th entry is listed before it.
   */
  lemma EarlierListed(g: Grid, moves: seq<Pos>, k: int, p: Pos) returns (j: int)
    requires forall q: Pos :: q in moves <==> g[q] == Empty
    requires forall a, b :: 0 <= a < b < |moves| ==> moves[a] < moves[b]
    requires 0 <= k < |moves| && p < moves[k] && g[p] == Empty
    ensures 0 <= j < k && moves[j] == p
  {
    j :| 0 <= j < |moves| && moves[j] == p;
    if k <= j {
      assert false;
    }
  }

  /**
   * The winning move found is the lowest-index empty cell whose filling
   * with `sym` completes a line of `sym`; None means no empty cell does.
   */
  lemma FindWinningMoveSpec(g: Grid, sym: Mark)
    ensures FindWinningMove(g, sym).Some? ==>
      g[FindWinningMove(g, sym).value] == Empty && WinsAt(g, FindWinningMove(g, sym).value, sym)
    ensures FindWinningMove(g, sym).Some? ==>
      forall p: Pos :: p < FindWinningMove(g, sym).value && g[p] == Empty ==> !WinsAt(g, p, sym)
    ensures FindWinningMove(g, sym).None? <==> forall p: Pos :: g[p] == Empty ==> !WinsAt(g, p, sym)
  {
    var moves := LegalMoves(g);
    LegalMovesExact(g);
    LegalMovesSound(g);
    FindWinningInSpec(g, moves, sym);
    var r := FindWinningIn(g, moves, sym);
    if r.Some? {
      var k :| 0 <= k < |moves| && moves[k] == r.value &&
        WinsAt(g, moves[k], sym) && forall j :: 0 <= j < k ==> !WinsAt(g, moves[j], sym);
      forall p: Pos | p < r.value && g[p] == Empty
        ensures !WinsAt(g, p, sym)
      {
        var j := EarlierListed(g, moves, k, p);
      }
    } else {
      forall p: Pos | g[p] == Empty
        ensures !WinsAt(g, p, sym)
      {
        assert p in moves;
      }
    }
  }

  /** A uniformly chosen free cell, the choice injected as `pick`; no move on a full board. */
  function EasyMove(g: Grid, pick: nat): Option<Pos>
  {
    var avail := LegalMoves(g);
    if |avail| == 0 then None else Some(avail[pick % |avail|])
  }

  /** The free corners, in the order 0, 2, 6, 8. */
  function FreeCorners(g: Grid): seq<Pos>
  {
    var c0: seq<Pos> := if g[0] == Empty then [0] else [];
    var c2: seq<Pos> := if g[2] == Empty then [2] else [];
    var c6: seq<Pos> := if g[6] == Empty then [6] else [];
    var c8: seq<Pos> := if g[8] == Empty then [8] else [];
    c0 + c2 + c6 + c8
  }

  /** A corner cell. */
  predicate IsCorner(p: Pos) {
    p == 0 || p == 2 || p == 6 || p == 8
  }

  /** The centre if free, else a free corner chosen by `pick`, else a free cell chosen by `pick`. */
  function StrategicMove(g: Grid, pick: nat): Option<Pos>
  {
    var avail := LegalMoves(g);
    var corners := FreeCorners(g);
    if 4 in avail then Some(4)
    else if |corners| > 0 then Some(corners[pick % |corners|])
    else EasyMove(g, pick)
  }

  /** A random move exists exactly when the board is not full, and it is a free cell. */
  lemma EasyMoveSpec(g: Grid, pick: nat)
    ensures EasyMove(g, pick).Some? <==> !IsFull(g)
    ensures EasyMove(g, pick).Some? ==> g[EasyMove(g, pick).value] == Empty
  {
    FullIffNoMoves(g);
    LegalMovesSound(g);
  }

  /**
   * The strategic move is the centre exactly when the centre is free; with
   * the centre taken it is a free corner whenever one exists; it exists
   * exactly when the board is not full and is always a free cell.
   */
  lemma StrategicMoveSpec(g: Grid, pick: nat)
    ensures StrategicMove(g, pick) == Some(4) <==> g[4] == Empty
    ensures g[4] != Empty && (exists p: Pos :: IsCorner(p) && g[p] == Empty) ==>
      StrategicMove(g, pick).Some? && IsCorner(StrategicMove(g, pick).value)
    ensures StrategicMove(g, pick).Some? <==> !IsFull(g)
    ensures StrategicMove(g, pick).Some? ==> g[StrategicMove(g, pick).value] == Empty
  {
    LegalMovesExact(g);
    EasyMoveSpec(g, pick);
    var corners := FreeCorners(g);
    assert forall k :: 0 <= k < |corners| ==> IsCorner(corners[k]) && g[corners[k]] == Empty;
    if g[4] != Empty && (exists p: Pos :: IsCorner(p) && g[p] == Empty) {
      assert |corners| > 0;
    }
    if g[4] != Empty && |corners| > 0 {
      assert !IsFull(g) by {
        assert g[corners[0]] == Empty;
      }
    }
  }

  /** A choice below the number of free cells picks the free cell at that index. */
  lemma EasyMoveAt(g: Grid, k: nat)
    requires k < |LegalMoves(g)|
    ensures EasyMove(g, k) == Some(LegalMoves(g)[k])
  {
    assert k % |LegalMoves(g)| == k;
  }

  /** Every free cell is the random move for some choice. */
  lemma EasyMoveCovers(g: Grid)
    ensures forall p: Pos :: g[p] == Empty ==> exists pick: nat :: EasyMove(g, pick) == Some(p)
  {
    forall p: Pos | g[p] == Empty
      ensures exists pick: nat :: EasyMove(g, pick) == Some(p)
    {
      LegalMovesExact(g);
      var avail := LegalMoves(g);
      assert p in avail;
      var k :| 0 <= k < |avail| && avail[k] == p;
      EasyMoveAt(g, k);
    }
  }

  /** With the centre taken, a choice below the number of free corners picks the corner at that index. */
  lemma StrategicCornerAt(g: Grid, k: nat)
    requires g[4] != Empty && k < |FreeCorners(g)|
    ensures StrategicMove(g, k) == Some(FreeCorners(g)[k])
  {
    var n := |FreeCorners(g)|;
    assert k % n == k;
    LegalMovesExact(g);
    assert 4 !in LegalMoves(g);
  }

  /** With the centre and all corners taken, the strategic move is the random move. */
  lemma StrategicFallsBack(g: Grid, pick: nat)
    requires g[4] != Empty && forall c: Pos :: IsCorner(c) ==> g[c] != Empty
    ensures StrategicMove(g, pick) == EasyMove(g, pick)
  {
    LegalMovesExact(g);
    assert 4 !in LegalMoves(g);
    assert FreeCorners(g) == [];
  }

  /**
   * With the centre taken, every free corner is the strategic move for some
   * choice; with the centre and all corners taken, so is every free cell.
   */
  lemma StrategicMoveCovers(g: Grid)
    ensures g[4] != Empty ==>
      forall p: Pos :: IsCorner(p) && g[p] == Empty ==> exists pick: nat :: StrategicMove(g, pick) == Some(p)
    ensures g[4] != Empty && (forall c: Pos :: IsCorner(c) ==> g[c] != Empty) ==>
      forall p: Pos :: g[p] == Empty ==> exists pick: nat :: StrategicMove(g, pick) == Some(p)
  {
    if g[4] != Empty {
      forall p: Pos | IsCorner(p) && g[p] == Empty
        ensures exists pick: nat :: StrategicMove(g, pick) == Some(p)
      {
        var corners := FreeCorners(g);
        assert p in corners;
        var k :| 0 <= k < |corners| && corners[k] == p;
        StrategicCornerAt(g, k);
      }
      if forall c: Pos :: IsCorner(c) ==> g[c] != Empty {
        EasyMoveCovers(g);
        forall p: Pos | g[p] == Empty
          ensures exists pick: nat :: StrategicMove(g, pick) == Some(p)
        {
          var pick: nat :| EasyMove(g, pick) == Some(p);
          StrategicFallsBack(g, pick);
        }
      }
    }
  }

  /** A found winning move is a free cell, so the board is not full. */
  lemma FoundIsFree(g: Grid, sym: Mark)
    requires FindWinningMove(g, sym).Some?
    ensures g[FindWinningMove(g, sym).value] == Empty && !IsFull(g)
  {
    FindWinningMoveSpec(g, sym);
  }

  /**
   * The shared shape of the medium and hard levels: the engine's own winning
   * move first, then a move blocking the opponent's win, then with the
   * coin the best move, otherwise `fallback`.
   */
  ghost predicate WinBlockThen(g: Grid, ai: Mark, human: Mark, coin: bool, fallback: Option<Pos>, r: Option<Pos>) {
    var win := FindWinningMove(g, ai);
    var block := FindWinningMove(g, human);
    if win.Some? then r == win
    else if block.Some? then r == block
    else if coin then IsBestMove(g, ai, human, r)
    else r == fallback
  }

  /** Medium: win, else block, else with the coin (probability one half) the best move, else a random move. */
  method MediumMove(g: Grid, ai: Mark, human: Mark, coin: bool, pick: nat) returns (r: Option<Pos>)
    ensures WinBlockThen(g, ai, human, coin, EasyMove(g, pick), r)
    ensures r.Some? <==> !IsFull(g)
    ensures r.Some? ==> g[r.value] == Empty
  {
    r := WinOrBlock(g, ai, human);
    if r.None? {
      if coin {
        r := GetBestMove(g, ai, human);
        BestMoveIsFree(g, ai, human, r);
      } else {
        r := EasyMove(g, pick);
        EasyMoveSpec(g, pick);
      }
    }
  }

  /** Hard: win, else block, else with the coin (probability 0.8) the best move, else the strategic move. */
  method HardMove(g: Grid, ai: Mark, human: Mark, coin: bool, pick: nat) returns (r: Option<Pos>)
    ensures WinBlockThen(g, ai, human, coin, StrategicMove(g, pick), r)
    ensures r.Some? <==> !IsFull(g)
    ensures r.Some? ==> g[r.value] == Empty
  {
    r := WinOrBlock(g, ai, human);
    if r.None? {
      if coin {
        r := GetBestMove(g, ai, human);
        BestMoveIsFree(g, ai, human, r);
      } else {
        r := StrategicMove(g, pick);
        StrategicMoveSpec(g, pick);
      }
    }
  }

  /** The engine's own winning move if any, else the move blocking the opponent's win, else none. */
  method WinOrBlock(g: Grid, ai: Mark, human: Mark) returns (r: Option<Pos>)
    ensures r == (if FindWinningMove(g, ai).Some? then FindWinningMove(g, ai) else FindWinningMove(g, human))
    ensures r.Some? ==> g[r.value] == Empty && !IsFull(g)
  {
    r := FindWinningMove(g, ai);
    if r.Some? {
      FoundIsFree(g, ai);
      return;
    }
    r := FindWinningMove(g, human);
    if r.Some? {
      FoundIsFree(g, human);
    }
  }

  /** The best move exists exactly when the board is not full, and it is a free cell. */
  lemma BestMoveIsFree(g: Grid, ai: Mark, human: Mark, r: Option<Pos>)
    requires IsBestMove(g, ai, human, r)
    ensures r.Some? <==> !IsFull(g)
    ensures r.Some? ==> g[r.value] == Empty
  {
    FullIffNoMoves(g);
    LegalMovesSound(g);
  }

  /**
   * The engine object: a difficulty level and the two symbols, the engine
   * playing O against X unless told otherwise.
   */
  class Engine {
    var difficulty: string
    var aiSymbol: Mark
    var playerSymbol: Mark

    constructor(difficulty: string)
      ensures this.difficulty == difficulty && aiSymbol == O && playerSymbol == X
    {
      this.difficulty := difficulty;
      aiSymbol := O;
      playerSymbol := X;
    }

    method SetDifficulty(difficulty: string)
      modifies this
      ensures this.difficulty == difficulty
      ensures aiSymbol == old(aiSymbol) && playerSymbol == old(playerSymbol)
    {
      this.difficulty := difficulty;
    }

    method SetSymbols(aiSymbol: Mark, playerSymbol: Mark)
      modifies this
      ensures this.aiSymbol == aiSymbol && this.playerSymbol == playerSymbol
      ensures difficulty == old(difficulty)
    {
      this.aiSymbol := aiSymbol;
      this.playerSymbol := playerSymbol;
    }

    /**
     * The move for the current difficulty: "easy" is random, "hard" is hard,
     * "impossible" is the best move, and "medium" or any other name is medium.
     */
    method GetMove(g: Grid, coin: bool, pick: nat) returns (r: Option<Pos>)
      ensures difficulty == "easy" ==> r == EasyMove(g, pick)
      ensures difficulty == "hard" ==> WinBlockThen(g, aiSymbol, playerSymbol, coin, StrategicMove(g, pick), r)
      ensures difficulty == "impossible" ==> IsBestMove(g, aiSymbol, playerSymbol, r)
      ensures difficulty != "easy" && difficulty != "hard" && difficulty != "impossible" ==>
        WinBlockThen(g, aiSymbol, playerSymbol, coin, EasyMove(g, pick), r)
      ensures r.Some? <==> !IsFull(g)
      ensures r.Some? ==> g[r.value] == Empty
    {
      if difficulty == "easy" {
        r := EasyMove(g, pick);
        EasyMoveSpec(g, pick);
      } else if difficulty == "medium" {
        r := MediumMove(g, aiSymbol, playerSymbol, coin, pick);
      } else if difficulty == "hard" {
        r := HardMove(g, aiSymbol, playerSymbol, coin, pick);
      } else if difficulty == "impossible" {
        r := GetBestMove(g, aiSymbol, playerSymbol);
        BestMoveIsFree(g, aiSymbol, playerSymbol, r);
      } else {
        r := MediumMove(g, aiSymbol, playerSymbol, coin, pick);
      }
    }
  }

  /** The board of the example below: X on 0 and 1, O on 3 and 4. */
  const ForkBoard: Grid := [Taken(X), Taken(X), Empty, Taken(O), Taken(O), Empty, Empty, Empty, Empty]

  lemma ForkBoardFacts()
    ensures LegalMoves(ForkBoard) == [2, 5, 6, 7, 8]
    ensures WinsAt(ForkBoard, 2, X) && !WinsAt(ForkBoard, 2, O) && WinsAt(ForkBoard, 5, O)
  {
    var g := ForkBoard;
    assert EmptyFrom(g, 5) == [5, 6, 7, 8];
    assert EmptyFrom(g, 2) == [2, 5, 6, 7, 8];
    assert IsFirstLine(Place(g, 2, X), 0);
    WinnerOfFirstLine(Place(g, 2, X), 0);
    assert IsFirstLine(Place(g, 5, O), 1);
    WinnerOfFirstLine(Place(g, 5, O), 1);
    assert !HasLine(Place(g, 2, O)) by {
      assert forall k :: 0 <= k < |Lines| ==> !Complete(Place(g, 2, O), Lines[k]);
    }
    WinnerSpec(Place(g, 2, O));
  }

  /**
   * With X on 0 and 1 and O on 3 and 4, X would win at 2 and O wins at 5:
   * an engine playing O takes its own win at 5 instead of blocking at 2.
   */
  lemma WinBeforeBlockExample(coin: bool, fallback: Option<Pos>, r: Option<Pos>)
    requires WinBlockThen(ForkBoard, O, X, coin, fallback, r)
    ensures FindWinningMove(ForkBoard, X) == Some(2)
    ensures r == Some(5)
  {
    ForkBoardFacts();
  }
}
