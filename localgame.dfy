/**
 * The local game: a nine-cell board updated in place, the player to move,
 * the list of moves, whether play is enabled, and the session scores of
 * the two sides, for two players on one screen or one player against the
 * engine. Online play only borrows the board (see the Online module).
 */
module LocalGame {
  import opened Board
  import opened Ai

  datatype Mode = NoMode | PvpLocal | VsAi | Online

  /** One move of the local game: the cell and the mark placed. */
  datatype LocalMove = LocalMove(index: Pos, player: Mark)

  /** The session scores: wins and draws of player 1 (X) and player 2 (O). */
  datatype Scores = Scores(p1Wins: nat, p1Draws: nat, p2Wins: nat, p2Draws: nat)

  const ZeroScores := Scores(0, 0, 0, 0)

  /** The result of a finished game from the human's side (X). */
  datatype PlayerResult = PWin | PLoss | PDraw

  /**
   * The score update at the end of a game: a draw counts for both sides, a
   * win of X only for player 1 and a win of O only for player 2.
   */
  function Tally(s: Scores, o: Outcome): (r: Scores)
    ensures o.Draw? ==> r.p1Draws == s.p1Draws + 1 && r.p2Draws == s.p2Draws + 1 &&
                        r.p1Wins == s.p1Wins && r.p2Wins == s.p2Wins
    ensures o.Win? && o.winner == X ==> r == s.(p1Wins := s.p1Wins + 1)
    ensures o.Win? && o.winner == O ==> r == s.(p2Wins := s.p2Wins + 1)
  {
    match o
    case Draw => s.(p1Draws := s.p1Draws + 1, p2Draws := s.p2Draws + 1)
    case Win(X, _) => s.(p1Wins := s.p1Wins + 1)
    case Win(O, _) => s.(p2Wins := s.p2Wins + 1)
  }

  /** The counters never decrease, the two draw counters stay equal, and one result adds one or two points in total. */
  lemma TallySpec(s: Scores, o: Outcome)
    requires s.p1Draws == s.p2Draws
    ensures var r := Tally(s, o);
      r.p1Wins >= s.p1Wins && r.p1Draws >= s.p1Draws && r.p2Wins >= s.p2Wins && r.p2Draws >= s.p2Draws &&
      r.p1Draws == r.p2Draws &&
      r.p1Wins + r.p1Draws + r.p2Wins + r.p2Draws == s.p1Wins + s.p1Draws + s.p2Wins + s.p2Draws + (if o.Draw? then 2 else 1)
  {
  }

  /**
   * The result reported for a finished game: a draw always; against the
   * engine a win of X is the human's win and a win of O a loss; between
   * two local players a win reports nothing.
   */
  function ResultFor(mode: Mode, o: Outcome): (r: Option<PlayerResult>)
    ensures o.Draw? ==> r == Some(PDraw)
    ensures mode == VsAi ==> r.Some? && (r == Some(PWin) <==> o.Win? && o.winner == X) &&
                             (r == Some(PLoss) <==> o.Win? && o.winner == O)
    ensures mode != VsAi && o.Win? ==> r.None?
  {
    match o
    case Draw => Some(PDraw)
    case Win(X, _) => if mode == VsAi then Some(PWin) else None
    case Win(O, _) => if mode == VsAi then Some(PLoss) else None
  }

  class Game {
    var board: array<Cell>
    var currentPlayer: Mark
    var gameMode: Mode
    var difficulty: string
    var gameActive: bool
    var ai: Engine
    var moves: seq<LocalMove>
    var scores: Scores

    /** Nine cells, and the two draw counters always agree. */
    ghost predicate Valid()
      reads this
    {
      board.Length == 9 && scores.p1Draws == scores.p2Draws
    }

    /** The board as a value. */
    function Cells(): Grid
      reads this, board
      requires board.Length == 9
    {
      board[..]
    }

    constructor()
      ensures Valid() && fresh(board) && fresh(ai)
      ensures board[..] == EmptyBoard && currentPlayer == X && gameMode == NoMode && difficulty == "medium"
      ensures !gameActive && moves == [] && scores == ZeroScores
      ensures ai.difficulty == "medium" && ai.aiSymbol == O && ai.playerSymbol == X
    {
      board := new Cell[9](_ => Empty);
      currentPlayer := X;
      gameMode := NoMode;
      difficulty := "medium";
      gameActive := false;
      ai := new Engine("medium");
      moves := [];
      scores := ZeroScores;
    }

    /** A new, empty board. */
    method ResetBoard()
      modifies this
      ensures fresh(board) && board[..] == EmptyBoard
      ensures currentPlayer == old(currentPlayer) && gameMode == old(gameMode) && difficulty == old(difficulty)
      ensures gameActive == old(gameActive) && ai == old(ai) && moves == old(moves) && scores == old(scores)
    {
      board := new Cell[9](_ => Empty);
    }

    /**
     * Starts a game in `mode`: the engine takes the difficulty, play is
     * enabled, the moves are cleared and the board emptied. The player to
     * move is left as the previous game left it.
     */
    method StartGame(mode: Mode, difficulty: string)
      requires Valid()
      modifies this, ai
      ensures Valid() && fresh(board) && board[..] == EmptyBoard
      ensures gameMode == mode && this.difficulty == difficulty && ai.difficulty == difficulty
      ensures gameActive && moves == []
      ensures currentPlayer == old(currentPlayer) && scores == old(scores) && ai == old(ai)
      ensures ai.aiSymbol == old(ai.aiSymbol) && ai.playerSymbol == old(ai.playerSymbol)
    {
      gameMode := mode;
      this.difficulty := difficulty;
      ai.SetDifficulty(difficulty);
      gameActive := true;
      moves := [];
      ResetBoard();
    }

    /**
     * Starts a game as StartGame does and also gives the first move to X,
     * so that against the engine the human, who plays X, always opens.
     */
    method StartGameFresh(mode: Mode, difficulty: string)
      requires Valid()
      modifies this, ai
      ensures Valid() && fresh(board) && board[..] == EmptyBoard
      ensures gameMode == mode && this.difficulty == difficulty && ai.difficulty == difficulty
      ensures gameActive && moves == [] && currentPlayer == X
      ensures scores == old(scores) && ai == old(ai)
      ensures ai.aiSymbol == old(ai.aiSymbol) && ai.playerSymbol == old(ai.playerSymbol)
    {
      StartGame(mode, difficulty);
      currentPlayer := X;
    }

    /** The result check: the first complete line and its mark, a draw on a full board, or none. */
    function CheckGameEnd(): Option<Outcome>
      reads this, board
      requires board.Length == 9
    {
      CheckWinner(Cells())
    }

    /** Places the mark of the player to move on `index`, records the move and passes the turn. */
    method MakeMove(index: Pos)
      requires Valid()
      modifies this, board
      ensures Valid() && board == old(board)
      ensures board[..] == old(board[..])[index := Taken(old(currentPlayer))]
      ensures moves == old(moves) + [LocalMove(index, old(currentPlayer))]
      ensures currentPlayer == Other(old(currentPlayer))
      ensures gameMode == old(gameMode) && difficulty == old(difficulty) && gameActive == old(gameActive)
      ensures ai == old(ai) && scores == old(scores)
    {
      board[index] := Taken(currentPlayer);
      moves := moves + [LocalMove(index, currentPlayer)];
      currentPlayer := if currentPlayer == X then O else X;
    }

    /**
     * Ends the game: play is disabled and the scores take the result; the
     * result for the human is returned, and `save` tells whether it is
     * sent to the server, which happens only against the engine.
     */
    method EndGame(result: Outcome) returns (playerResult: Option<PlayerResult>, save: bool)
      requires Valid()
      modifies this
      ensures Valid() && !gameActive
      ensures scores == Tally(old(scores), result)
      ensures playerResult == ResultFor(gameMode, result)
      ensures save <==> gameMode == VsAi
      ensures board == old(board) && currentPlayer == old(currentPlayer) && gameMode == old(gameMode)
      ensures difficulty == old(difficulty) && ai == old(ai) && moves == old(moves)
    {
      gameActive := false;
      match result {
        case Draw =>
          scores := scores.(p1Draws := scores.p1Draws + 1, p2Draws := scores.p2Draws + 1);
          playerResult := Some(PDraw);
        case Win(w, _) =>
          if w == X {
            scores := scores.(p1Wins := scores.p1Wins + 1);
            playerResult := if gameMode == VsAi then Some(PWin) else None;
          } else {
            scores := scores.(p2Wins := scores.p2Wins + 1);
            playerResult := if gameMode == VsAi then Some(PLoss) else None;
          }
      }
      save := gameMode == VsAi && playerResult.Some?;
    }

    /**
     * A click on cell `index`: ignored while play is disabled, in online
     * mode or on a taken cell. Otherwise the move is made; a finished board
     * ends the game, and against the engine with O to move play is disabled
     * until the engine has moved (`aiPending`).
     */
    method HandleCellClick(index: Pos) returns (aiPending: bool, playerResult: Option<PlayerResult>)
      requires Valid()
      modifies this, board
      ensures Valid() && board == old(board)
      ensures !old(gameActive) || old(gameMode) == Online || old(board[index]) != Empty ==>
        !aiPending && playerResult == None && board[..] == old(board[..]) &&
        currentPlayer == old(currentPlayer) && moves == old(moves) && gameActive == old(gameActive) && scores == old(scores)
      ensures old(gameActive) && old(gameMode) != Online && old(board[index]) == Empty ==>
        board[..] == old(board[..])[index := Taken(old(currentPlayer))] &&
        moves == old(moves) + [LocalMove(index, old(currentPlayer))] &&
        currentPlayer == Other(old(currentPlayer)) &&
        (CheckWinner(board[..]).Some? ==>
          !gameActive && !aiPending && scores == Tally(old(scores), CheckWinner(board[..]).value) &&
          playerResult == ResultFor(gameMode, CheckWinner(board[..]).value)) &&
        (CheckWinner(board[..]).None? ==>
          scores == old(scores) && playerResult == None &&
          (aiPending <==> gameMode == VsAi && currentPlayer == O) && gameActive == !aiPending)
      ensures gameMode == old(gameMode) && difficulty == old(difficulty) && ai == old(ai)
    {
      aiPending := false;
      playerResult := None;
      if !gameActive || gameMode == Online || board[index] != Empty {
        return;
      }
      MakeMove(index);
      var result := CheckGameEnd();
      if result.Some? {
        var save;
        playerResult, save := EndGame(result.value);
        return;
      }
      if gameMode == VsAi && currentPlayer == O {
        gameActive := false;
        aiPending := true;
      }
    }

    /**
     * The engine's turn: the engine picks `move` at its difficulty (the
     * random choices injected as `coin` and `pick`) and the move is made for
     * the player to move; play is enabled again unless the move finished
     * the game. With no free cell nothing happens.
     */
    method MakeAIMove(coin: bool, pick: nat) returns (move: Option<Pos>, playerResult: Option<PlayerResult>)
      requires Valid()
      modifies this, board
      ensures Valid() && board == old(board)
      ensures ai.difficulty == "easy" ==> move == EasyMove(old(board[..]), pick)
      ensures ai.difficulty == "hard" ==>
        WinBlockThen(old(board[..]), ai.aiSymbol, ai.playerSymbol, coin, StrategicMove(old(board[..]), pick), move)
      ensures ai.difficulty == "impossible" ==> IsBestMove(old(board[..]), ai.aiSymbol, ai.playerSymbol, move)
      ensures ai.difficulty != "easy" && ai.difficulty != "hard" && ai.difficulty != "impossible" ==>
        WinBlockThen(old(board[..]), ai.aiSymbol, ai.playerSymbol, coin, EasyMove(old(board[..]), pick), move)
      ensures move.Some? <==> !IsFull(old(board[..]))
      ensures move.None? ==>
        board[..] == old(board[..]) && moves == old(moves) && gameActive == old(gameActive) &&
        currentPlayer == old(currentPlayer) && scores == old(scores) && playerResult == None
      ensures move.Some? ==>
        old(board[move.value]) == Empty &&
        board[..] == old(board[..])[move.value := Taken(old(currentPlayer))] &&
        moves == old(moves) + [LocalMove(move.value, old(currentPlayer))] &&
        currentPlayer == Other(old(currentPlayer)) &&
        (CheckWinner(board[..]).Some? ==>
          !gameActive && scores == Tally(old(scores), CheckWinner(board[..]).value) &&
          playerResult == ResultFor(gameMode, CheckWinner(board[..]).value)) &&
        (CheckWinner(board[..]).None? ==> gameActive && scores == old(scores) && playerResult == None)
      ensures gameMode == old(gameMode) && difficulty == old(difficulty) && ai == old(ai)
    {
      playerResult := None;
      move := ai.GetMove(board[..], coin, pick);
      if move.Some? {
        MakeMove(move.value);
        var result := CheckGameEnd();
        if result.Some? {
          var save;
          playerResult, save := EndGame(result.value);
        } else {
          gameActive := true;
        }
      }
    }

    /** Play again: an empty board, no moves, X to move and play enabled; the scores stay. */
    method ResetGame()
      requires Valid()
      modifies this
      ensures Valid() && fresh(board) && board[..] == EmptyBoard
      ensures currentPlayer == X && gameActive && moves == []
      ensures scores == old(scores) && gameMode == old(gameMode) && difficulty == old(difficulty) && ai == old(ai)
    {
      ResetBoard();
      currentPlayer := X;
      gameActive := true;
      moves := [];
    }

    /**
     * Back to the menu: play disabled, an empty board and all four counters
     * zero; the player to move and the moves are left as they were.
     */
    method QuitGame()
      requires Valid()
      modifies this
      ensures Valid() && fresh(board) && board[..] == EmptyBoard
      ensures !gameActive && scores == ZeroScores
      ensures currentPlayer == old(currentPlayer) && moves == old(moves)
      ensures gameMode == old(gameMode) && difficulty == old(difficulty) && ai == old(ai)
    {
      gameActive := false;
      ResetBoard();
      scores := ZeroScores;
    }
  }

  /** One mark on an otherwise empty board finishes nothing: no line and no draw. */
  lemma OneMarkOpen(p: Pos, m: Mark)
    ensures CheckWinner(EmptyBoard[p := Taken(m)]) == None
  {
    var g := EmptyBoard[p := Taken(m)];
    CheckWinnerSpec(g);
    assert g[if p == 0 then 1 else 0] == Empty;
    assert !HasLine(g);
  }

  /**
   * The game as written: a game that X's click ends, by a win or a draw,
   * leaves O to move; going back to the menu and starting against the
   * engine keeps that, so the human's first click places O and the engine
   * is not asked to answer.
   */
  method StaleTurnAfterEnd(g: Game, last: Pos, difficulty: string, first: Pos) returns (aiPending: bool)
    requires g.Valid() && g.gameActive && g.gameMode != Online && g.currentPlayer == X
    requires g.board[last] == Empty && CheckWinner(g.board[..][last := Taken(X)]).Some?
    modifies g, g.board, g.ai
    ensures g.gameMode == VsAi && g.board[..] == EmptyBoard[first := Taken(O)]
    ensures !aiPending && g.currentPlayer == X && g.gameActive
  {
    var pending, result := g.HandleCellClick(last);
    assert g.currentPlayer == O;
    g.QuitGame();
    g.StartGame(VsAi, difficulty);
    OneMarkOpen(first, O);
    aiPending, result := g.HandleCellClick(first);
  }

  /**
   * The corrected start: whatever the previous game left, the human's
   * first click against the engine places X and hands the turn to the
   * engine.
   */
  method FreshStartEngineAnswers(g: Game, difficulty: string, first: Pos) returns (aiPending: bool)
    requires g.Valid()
    modifies g, g.ai
    ensures g.gameMode == VsAi && g.board[..] == EmptyBoard[first := Taken(X)]
    ensures aiPending && g.currentPlayer == O && !g.gameActive
  {
    g.StartGameFresh(VsAi, difficulty);
    OneMarkOpen(first, X);
    var result;
    aiPending, result := g.HandleCellClick(first);
  }
}
