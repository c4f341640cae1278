/**
 * The tic-tac-toe board and its rules, shared by the room server, the
 * decision engine and the local game: nine cells, the eight winning lines
 * checked in a fixed order (rows, then columns, then diagonals), the list
 * of free cells and the outcome of a board.
 */
module Board {

  datatype Option<T> = None | Some(value: T)

  /** The two symbols a player can place. */
  datatype Mark = X | O

  /** A cell is empty (null in the source) or holds a mark. */
  datatype Cell = Empty | Taken(mark: Mark)

  /** A cell index. */
  type Pos = i: int | 0 <= i < 9

  const EmptyBoard: seq<Cell> := [Empty, Empty, Empty, Empty, Empty, Empty, Empty, Empty, Empty]

  /** A board always has exactly nine cells. */
  type Grid = b: seq<Cell> | |b| == 9 witness EmptyBoard

  /** The mark that moves after `m`. */
  function Other(m: Mark): (r: Mark)
    ensures r != m
  {
    if m == X then O else X
  }

  /** One of the eight winning triples. */
  datatype Line = Line(a: Pos, b: Pos, c: Pos)

  /** Rows, then columns, then diagonals: the order decides which line is reported. */
  const Lines: seq<Line> := [
    Line(0, 1, 2), Line(3, 4, 5), Line(6, 7, 8),
    Line(0, 3, 6), Line(1, 4, 7), Line(2, 5, 8),
    Line(0, 4, 8), Line(2, 4, 6)
  ]

  /** The three cells of `l` hold the same mark. */
  predicate Complete(g: Grid, l: Line) {
    g[l.a].Taken? && g[l.a] == g[l.b] && g[l.a] == g[l.c]
  }

  /** Some line of the board is complete. */
  predicate HasLine(g: Grid) {
    exists k :: 0 <= k < |Lines| && Complete(g, Lines[k])
  }

  /** `k` is the first complete line in checking order. */
  predicate IsFirstLine(g: Grid, k: int) {
    0 <= k < |Lines| && Complete(g, Lines[k]) &&
    forall j :: 0 <= j < k ==> !Complete(g, Lines[j])
  }

  /** No cell is empty. */
  predicate IsFull(g: Grid) {
    forall i: Pos :: g[i].Taken?
  }

  /** The index of the first complete line at or after `k`. */
  function FirstLineFrom(g: Grid, k: nat): (r: Option<nat>)
    requires k <= |Lines|
    ensures r.Some? ==> k <= r.value < |Lines| && Complete(g, Lines[r.value])
    ensures r.Some? ==> forall j :: k <= j < r.value ==> !Complete(g, Lines[j])
    ensures r.None? ==> forall j :: k <= j < |Lines| ==> !Complete(g, Lines[j])
    decreases |Lines| - k
  {
    if k == |Lines| then None
    else if Complete(g, Lines[k]) then Some(k)
    else FirstLineFrom(g, k + 1)
  }

  /** The terminal result of a board: the first winning line with its mark, or a draw. */
  datatype Outcome = Win(winner: Mark, line: Line) | Draw

  /**
   * The result check of the room server and of the local game: the first
   * complete line wins; with no line, a full board is a draw and any other
   * board has no result yet.
   */
  function CheckWinner(g: Grid): Option<Outcome>
  {
    match FirstLineFrom(g, 0)
    case Some(k) => Some(Win(g[Lines[k].a].mark, Lines[k]))
    case None => if IsFull(g) then Some(Draw) else None
  }

  /**
   * The result is a win exactly when some line is complete, and then it
   * names the first complete line in checking order and that line's mark;
   * it is a draw exactly when no line is complete and the board is full.
   */
  lemma CheckWinnerSpec(g: Grid)
    ensures (CheckWinner(g).Some? && CheckWinner(g).value.Win?) <==> HasLine(g)
    ensures CheckWinner(g).Some? && CheckWinner(g).value.Win? ==>
      exists k :: IsFirstLine(g, k) && Lines[k] == CheckWinner(g).value.line &&
                  g[Lines[k].a] == Taken(CheckWinner(g).value.winner)
    ensures CheckWinner(g) == Some(Draw) <==> !HasLine(g) && IsFull(g)
    ensures CheckWinner(g) == None <==> !HasLine(g) && !IsFull(g)
  {
  }

  /**
   * The engine's winner check: the mark of the first complete line; it
   * never reports a draw.
   */
  function Winner(g: Grid): Option<Mark>
  {
    match FirstLineFrom(g, 0)
    case Some(k) => Some(g[Lines[k].a].mark)
    case None => None
  }

  /** A winner exists exactly when some line is complete, and it is the first complete line's mark. */
  lemma WinnerSpec(g: Grid)
    ensures Winner(g).Some? <==> HasLine(g)
    ensures Winner(g).Some? ==> exists k :: IsFirstLine(g, k) && g[Lines[k].a] == Taken(Winner(g).value)
  {
  }

  /** A board whose first complete line is `k` has that line's mark as winner. */
  lemma WinnerOfFirstLine(g: Grid, k: int)
    requires IsFirstLine(g, k)
    ensures Winner(g) == Some(g[Lines[k].a].mark)
  {
  }

  /** The engine's check and the server's check agree on every board. */
  lemma WinnerAgrees(g: Grid)
    ensures Winner(g).Some? <==> CheckWinner(g).Some? && CheckWinner(g).value.Win?
    ensures Winner(g).Some? ==> CheckWinner(g) == Some(Win(Winner(g).value, CheckWinner(g).value.line))
  {
  }

  /** The empty cells at or after index `i`, in ascending order. */
  function EmptyFrom(g: Grid, i: nat): (r: seq<Pos>)
    requires i <= 9
    ensures |r| <= 9 - i
    decreases 9 - i
  {
    if i == 9 then []
    else if g[i] == Empty then [i as Pos] + EmptyFrom(g, i + 1)
    else EmptyFrom(g, i + 1)
  }

  /** The legal moves of a board. */
  function LegalMoves(g: Grid): (r: seq<Pos>)
    ensures |r| <= 9
  {
    EmptyFrom(g, 0)
  }

  /** Every cell listed from `i` on is empty, lies at or after `i`, and the list ascends. */
  lemma {:induction false} EmptyFromSound(g: Grid, i: nat)
    requires i <= 9
    ensures forall k :: 0 <= k < |EmptyFrom(g, i)| ==> i <= EmptyFrom(g, i)[k] && g[EmptyFrom(g, i)[k]] == Empty
    ensures forall j, k :: 0 <= j < k < |EmptyFrom(g, i)| ==> EmptyFrom(g, i)[j] < EmptyFrom(g, i)[k]
    decreases 9 - i
  {
    if i < 9 {
      EmptyFromSound(g, i + 1);
    }
  }

  /** Every empty cell at or after `i` is listed. */
  lemma {:induction false} EmptyFromComplete(g: Grid, i: nat, p: Pos)
    requires i <= p && g[p] == Empty
    ensures p in EmptyFrom(g, i)
    decreases 9 - i
  {
    if i < p {
      EmptyFromComplete(g, i + 1, p);
    }
  }

  /** Every legal move is an empty cell, and the moves ascend strictly. */
  lemma LegalMovesSound(g: Grid)
    ensures forall k :: 0 <= k < |LegalMoves(g)| ==> g[LegalMoves(g)[k]] == Empty
    ensures forall j, k :: 0 <= j < k < |LegalMoves(g)| ==> LegalMoves(g)[j] < LegalMoves(g)[k]
  {
    EmptyFromSound(g, 0);
  }

  /**
   * The legal moves are exactly the empty cells, in ascending index order.
   */
  lemma LegalMovesExact(g: Grid)
    ensures forall p: Pos :: p in LegalMoves(g) <==> g[p] == Empty
    ensures forall j, k :: 0 <= j < k < |LegalMoves(g)| ==> LegalMoves(g)[j] < LegalMoves(g)[k]
  {
    LegalMovesSound(g);
    forall p: Pos | g[p] == Empty
      ensures p in LegalMoves(g)
    {
      EmptyFromComplete(g, 0, p);
    }
  }

  /** A board is full exactly when it has no legal move. */
  lemma FullIffNoMoves(g: Grid)
    ensures IsFull(g) <==> |LegalMoves(g)| == 0
  {
    LegalMovesExact(g);
    if !IsFull(g) {
      var p: Pos :| g[p] == Empty;
      assert p in LegalMoves(g);
    }
  }

  /** The board after `m` is placed at `p`. */
  function Place(g: Grid, p: Pos, m: Mark): (r: Grid)
  {
    g[p := Taken(m)]
  }

  lemma {:induction false} PlaceFrom(g: Grid, i: nat, p: Pos, m: Mark)
    requires i <= 9 && g[p] == Empty
    ensures |EmptyFrom(Place(g, p, m), i)| == if i <= p then |EmptyFrom(g, i)| - 1 else |EmptyFrom(g, i)|
    decreases 9 - i
  {
    if i < 9 {
      PlaceFrom(g, i + 1, p, m);
    }
  }

  /** Placing a mark on an empty cell leaves one legal move fewer. */
  lemma PlaceShrinks(g: Grid, p: Pos, m: Mark)
    requires g[p] == Empty
    ensures |LegalMoves(Place(g, p, m))| == |LegalMoves(g)| - 1
  {
    PlaceFrom(g, 0, p, m);
  }

  /** The cell just played is no longer a legal move. */
  lemma PlacedNotLegal(g: Grid, p: Pos, m: Mark)
    ensures p !in LegalMoves(Place(g, p, m))
  {
    LegalMovesExact(Place(g, p, m));
  }

  /** A complete line stays complete when a mark is placed on an empty cell. */
  lemma LineSurvives(g: Grid, p: Pos, m: Mark)
    requires g[p] == Empty && HasLine(g)
    ensures HasLine(Place(g, p, m))
  {
    var k :| 0 <= k < |Lines| && Complete(g, Lines[k]);
    assert Complete(Place(g, p, m), Lines[k]);
  }
}
