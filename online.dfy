/**
 * The client's view of an online match: the room code it is attached to,
 * its own mark, whether it is its turn, and its opponent, kept in step with
 * the server's replies and events; the board shown is the local game's.
 */
module Online {
  import opened Board
  import opened Text
  import opened RoomServer
  import opened LocalGame

  /**
   * The code a join request sends: the input trimmed and upper-cased, and
   * only when exactly six characters remain; otherwise nothing is sent.
   */
  function NormalizeCode(input: string): (r: Option<string>)
    ensures r.Some? <==> |Trim(input)| == 6
    ensures r.Some? ==> |r.value| == 6 && forall i :: 0 <= i < 6 ==> !IsLower(r.value[i])
  {
    var code := Upper(Trim(input));
    if |code| != 6 then None else Some(code)
  }

  /** A normalized code is already normal: normalizing it again gives it back. */
  lemma NormalizeCodeStable(input: string)
    requires NormalizeCode(input).Some?
    ensures NormalizeCode(NormalizeCode(input).value) == NormalizeCode(input)
  {
    var t := Trim(input);
    var code := Upper(t);
    var a, b := TrimSpec(input);
    if t != [] {
      assert !IsSpace(t[0]) && !IsSpace(t[|t| - 1]);
    }
    UpperKeepsSpace(t);
    assert TrimStart(code) == code;
    assert TrimEnd(code) == code;
    UpperIdempotent(t);
  }

  /** Upper-casing leaves white space where it is and creates none. */
  lemma UpperKeepsSpace(s: string)
    ensures forall i :: 0 <= i < |s| ==> (IsSpace(Upper(s)[i]) <==> IsSpace(s[i]))
  {
  }

  /** How a finished online game ends for this client. */
  datatype OnlineResult = Won | Lost | Drawn

  /** A draw is a draw; otherwise the game is won exactly when the winner's mark is this client's. */
  function Classify(isDraw: bool, winnerSymbol: Mark, mine: Option<Mark>): (r: OnlineResult)
    ensures isDraw <==> r == Drawn
    ensures !isDraw ==> (r == Won <==> mine == Some(winnerSymbol))
  {
    if isDraw then Drawn else if Some(winnerSymbol) == mine then Won else Lost
  }

  /**
   * Two clients holding different marks see the same game-over event in
   * opposite ways: both a draw, or one a win and the other a loss.
   */
  lemma ClassifyOpposite(isDraw: bool, winnerSymbol: Mark, a: Mark, b: Mark)
    requires a != b
    ensures isDraw ==> Classify(isDraw, winnerSymbol, Some(a)) == Drawn && Classify(isDraw, winnerSymbol, Some(b)) == Drawn
    ensures !isDraw ==> (Classify(isDraw, winnerSymbol, Some(a)) == Won <==> Classify(isDraw, winnerSymbol, Some(b)) == Lost)
  {
  }

  /** A move request sent to the server. */
  datatype MoveRequest = MoveRequest(roomCode: Option<string>, position: Pos)

  class OnlineHandler {
    const game: Game
    var connected: bool
    var connectionId: string
    var roomCode: Option<string>
    var playerSymbol: Option<Mark>
    var isMyTurn: bool
    var opponent: Option<Player>

    ghost predicate Valid()
      reads this, game
    {
      game.Valid()
    }

    constructor(game: Game, connectionId: string)
      requires game.Valid()
      ensures Valid() && this.game == game && this.connectionId == connectionId
      ensures !connected && roomCode == None && playerSymbol == None && !isMyTurn && opponent == None
    {
      this.game := game;
      this.connectionId := connectionId;
      connected := false;
      roomCode := None;
      playerSymbol := None;
      isMyTurn := false;
      opponent := None;
    }

    /**
     * Opening the socket: the handler is connected; nothing else changes.
     * The connection keeps its one id: a new socket would get a new id, but
     * the socket is never closed and reopened by the client.
     */
    method Connect()
      modifies this
      ensures connected
      ensures roomCode == old(roomCode) && playerSymbol == old(playerSymbol)
      ensures isMyTurn == old(isMyTurn) && opponent == old(opponent) && connectionId == old(connectionId)
    {
      connected := true;
    }

    /** Closing the socket, when there is one: the handler is no longer connected. */
    method Disconnect()
      modifies this
      ensures !connected
      ensures roomCode == old(roomCode) && playerSymbol == old(playerSymbol)
      ensures isMyTurn == old(isMyTurn) && opponent == old(opponent) && connectionId == old(connectionId)
    {
      if connected {
        connected := false;
      }
    }

    /** Asking for a new room: the handler connects first when it is not connected. */
    method CreateRoom()
      modifies this
      ensures connected
      ensures roomCode == old(roomCode) && playerSymbol == old(playerSymbol)
      ensures isMyTurn == old(isMyTurn) && opponent == old(opponent) && connectionId == old(connectionId)
    {
      if !connected {
        Connect();
      }
    }

    /** A successful create attaches to the new code as X; a failure changes nothing. */
    method OnCreateReply(success: bool, code: string)
      modifies this
      ensures success ==> roomCode == Some(code) && playerSymbol == Some(X)
      ensures !success ==> roomCode == old(roomCode) && playerSymbol == old(playerSymbol)
      ensures isMyTurn == old(isMyTurn) && opponent == old(opponent) && connected == old(connected)
      ensures connectionId == old(connectionId)
    {
      if success {
        roomCode := Some(code);
        playerSymbol := Some(X);
      }
    }

    /**
     * A join attempt: the typed code is normalized and, when it has six
     * characters, sent, the handler connecting first when it is not
     * connected; `sent` is what went to the server. A rejected code
     * changes nothing.
     */
    method JoinRoom(input: string) returns (sent: Option<string>)
      modifies this
      ensures sent == NormalizeCode(input)
      ensures sent.Some? ==> connected
      ensures sent.None? ==> connected == old(connected)
      ensures roomCode == old(roomCode) && playerSymbol == old(playerSymbol)
      ensures isMyTurn == old(isMyTurn) && opponent == old(opponent) && connectionId == old(connectionId)
    {
      sent := NormalizeCode(input);
      if sent.Some? && !connected {
        Connect();
      }
    }

    /** A successful join attaches to the code sent, as O; a failure changes nothing. */
    method OnJoinReply(success: bool, code: string)
      modifies this
      ensures success ==> roomCode == Some(code) && playerSymbol == Some(O)
      ensures !success ==> roomCode == old(roomCode) && playerSymbol == old(playerSymbol)
      ensures isMyTurn == old(isMyTurn) && opponent == old(opponent) && connected == old(connected)
      ensures connectionId == old(connectionId)
    {
      if success {
        roomCode := Some(code);
        playerSymbol := Some(O);
      }
    }

    /**
     * The game starts (or restarts after a rematch): the opponent is the
     * first other seat of the snapshot; the own mark is that of this
     * connection's seat, and it is this client's turn exactly when that
     * mark is X; the local game switches to online play on an empty board.
     * Without an own seat the handler fails right after setting the
     * opponent (`completed` false); it also fails, after all the changes,
     * when the snapshot lacks an X or an O seat, whose names it shows.
     */
    method HandleGameStart(room: Room) returns (completed: bool)
      requires Valid()
      modifies this, game
      ensures Valid()
      ensures opponent == (var k := IndexOther(room.players, connectionId);
                           if k.Some? then Some(room.players[k.value]) else None)
      ensures IndexOf(room.players, connectionId).None? ==>
        !completed && playerSymbol == old(playerSymbol) && isMyTurn == old(isMyTurn) &&
        game.board == old(game.board) && game.gameMode == old(game.gameMode) && game.gameActive == old(game.gameActive)
      ensures IndexOf(room.players, connectionId).Some? ==>
        playerSymbol == Some(room.players[IndexOf(room.players, connectionId).value].symbol) &&
        (isMyTurn <==> playerSymbol == Some(X)) &&
        game.gameMode == Online && game.gameActive && fresh(game.board) && game.board[..] == EmptyBoard &&
        (completed <==> IndexBySymbol(room.players, X, true).Some? && IndexBySymbol(room.players, O, true).Some?)
      ensures roomCode == old(roomCode) && connected == old(connected) && connectionId == old(connectionId)
      ensures game.currentPlayer == old(game.currentPlayer) && game.moves == old(game.moves) && game.scores == old(game.scores)
      ensures game.difficulty == old(game.difficulty) && game.ai == old(game.ai)
    {
      var mine := IndexOf(room.players, connectionId);
      var other := IndexOther(room.players, connectionId);
      opponent := if other.Some? then Some(room.players[other.value]) else None;
      if mine.None? {
        return false;
      }
      playerSymbol := Some(room.players[mine.value].symbol);
      isMyTurn := playerSymbol == Some(X);
      game.gameMode := Online;
      game.gameActive := true;
      game.ResetBoard();
      completed := IndexBySymbol(room.players, X, true).Some? && IndexBySymbol(room.players, O, true).Some?;
    }

    /**
     * A click on cell `index` in online play: nothing is sent unless it is
     * this client's turn, play is enabled and the cell is free; otherwise
     * the move goes to the server, and the board waits for its event.
     */
    method HandleOnlineCellClick(index: Pos) returns (request: Option<MoveRequest>)
      requires Valid()
      ensures !isMyTurn || !game.gameActive || game.board[index] != Empty ==> request == None
      ensures isMyTurn && game.gameActive && game.board[index] == Empty ==>
        request == Some(MoveRequest(roomCode, index))
    {
      if !isMyTurn || !game.gameActive {
        return None;
      }
      if game.board[index] != Empty {
        return None;
      }
      request := Some(MoveRequest(roomCode, index));
    }

    /** A move event: its mark is written on the board, and it is this client's turn exactly when the turn is its mark. */
    method HandleMoveMade(position: Pos, symbol: Mark, currentTurn: Mark)
      requires Valid()
      modifies this, game.board
      ensures Valid()
      ensures game.board[..] == old(game.board[..])[position := Taken(symbol)]
      ensures isMyTurn <==> playerSymbol == Some(currentTurn)
      ensures playerSymbol == old(playerSymbol) && roomCode == old(roomCode) && opponent == old(opponent)
      ensures connected == old(connected) && connectionId == old(connectionId)
    {
      game.board[position] := Taken(symbol);
      isMyTurn := Some(currentTurn) == playerSymbol;
    }

    /**
     * The game-over event: play stops, and the result is classified from
     * this client's mark. A win always names its winner.
     */
    method HandleGameOver(isDraw: bool, winner: Option<Player>) returns (result: OnlineResult)
      requires Valid()
      requires !isDraw ==> winner.Some?
      modifies game
      ensures Valid() && !game.gameActive
      ensures isDraw ==> result == Drawn
      ensures !isDraw ==> result == Classify(false, winner.value.symbol, playerSymbol)
      ensures game.board == old(game.board) && game.scores == old(game.scores) && game.gameMode == old(game.gameMode)
      ensures game.currentPlayer == old(game.currentPlayer) && game.moves == old(game.moves)
      ensures game.difficulty == old(game.difficulty) && game.ai == old(game.ai)
    {
      game.gameActive := false;
      if isDraw {
        result := Drawn;
      } else if Some(winner.value.symbol) == playerSymbol {
        result := Won;
      } else {
        result := Lost;
      }
    }

    /**
     * Leaving the waiting room: the leave request goes out when connected
     * and attached to a non-empty code; code and mark are cleared.
     */
    method CancelWaiting() returns (leave: Option<string>)
      modifies this
      ensures leave == (if old(connected) && old(roomCode) != Some("") then old(roomCode) else None)
      ensures roomCode == None && playerSymbol == None
      ensures isMyTurn == old(isMyTurn) && opponent == old(opponent) && connected == old(connected)
      ensures connectionId == old(connectionId)
    {
      leave := None;
      if connected && roomCode.Some? && roomCode.value != "" {
        leave := roomCode;
      }
      roomCode := None;
      playerSymbol := None;
    }

    /**
     * Leaving the match: the leave request goes out as in CancelWaiting; code,
     * mark, opponent and turn are cleared, and the local game quits.
     */
    method LeaveOnlineGame() returns (leave: Option<string>)
      requires Valid()
      modifies this, game
      ensures Valid()
      ensures leave == (if old(connected) && old(roomCode) != Some("") then old(roomCode) else None)
      ensures roomCode == None && playerSymbol == None && opponent == None && !isMyTurn
      ensures !game.gameActive && game.scores == ZeroScores && fresh(game.board) && game.board[..] == EmptyBoard
      ensures game.currentPlayer == old(game.currentPlayer) && game.moves == old(game.moves) && game.gameMode == old(game.gameMode)
      ensures game.difficulty == old(game.difficulty) && game.ai == old(game.ai)
      ensures connected == old(connected) && connectionId == old(connectionId)
    {
      leave := None;
      if connected && roomCode.Some? && roomCode.value != "" {
        leave := roomCode;
      }
      roomCode := None;
      playerSymbol := None;
      opponent := None;
      isMyTurn := false;
      game.QuitGame();
    }
  }

  /**
   * Creating a room and then cancelling the wait sends the leave request for
   * the code the server handed out, whatever the handler's state before.
   */
  method CreateThenCancel(h: OnlineHandler, code: string) returns (leave: Option<string>)
    requires code != ""
    modifies h
    ensures leave == Some(code)
    ensures h.roomCode == None && h.playerSymbol == None && h.connected
  {
    h.CreateRoom();
    h.OnCreateReply(true, code);
    leave := h.CancelWaiting();
  }

  /**
   * A join that sends a code and is accepted attaches the handler, as O, to
   * exactly the code it sent; a rejected code leaves the handler attached
   * where it was.
   */
  method JoinThenAttach(h: OnlineHandler, input: string) returns (sent: Option<string>)
    modifies h
    ensures sent == NormalizeCode(input)
    ensures sent.Some? ==> h.roomCode == sent && h.playerSymbol == Some(O) && h.connected
    ensures sent.None? ==> h.roomCode == old(h.roomCode) && h.playerSymbol == old(h.playerSymbol)
  {
    sent := h.JoinRoom(input);
    if sent.Some? {
      h.OnJoinReply(true, sent.value);
    }
  }

  /** The index of the first seat held by a connection other than `id`. */
  function IndexOther(players: seq<Player>, id: string): (r: Option<nat>)
    ensures r.Some? ==> r.value < |players| && players[r.value].id != id
    ensures r.Some? ==> forall j :: 0 <= j < r.value ==> players[j].id == id
    ensures r.None? ==> forall j :: 0 <= j < |players| ==> players[j].id == id
    decreases |players|
  {
    if players == [] then None
    else if players[0].id != id then Some(0)
    else match IndexOther(players[1..], id)
      case None => None
      case Some(k) => Some(k + 1)
  }
}
