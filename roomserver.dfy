/**
 * The server's room registry and the online session machine: a map from
 * room codes to rooms, updated by the create, join, move, rematch and leave
 * handlers. Each handler finishes its changes to the registry before its
 * first suspension point, so each is modelled as one atomic method; the
 * draw's stats updates are taken from the seats at the finishing move. The
 * events the server broadcasts and the stats updates it asks for are
 * returned as values.
 */
module RoomServer {
  import opened Board
  import opened Text

  const Letters: string := "ABCDEFGHIJKLMNOPQRSTUVWXYZ"
  const Digits: string := "0123456789"

  /** The 36 characters of a room code. */
  const Alphabet: string := Letters + Digits

  /** A character that may appear in a room code. */
  predicate IsCodeChar(c: char) {
    c in Alphabet
  }

  /** The code characters are the upper-case letters and the digits. */
  lemma CodeCharIsUpperOrDigit(c: char)
    requires IsCodeChar(c)
    ensures ('A' <= c <= 'Z') || ('0' <= c <= '9')
  {
    if c in Letters {
      assert 'A' <= c <= 'Z';
    } else {
      assert c in Digits;
    }
  }

  /**
   * Builds a six-character room code, one character at a time; the random
   * choices are injected as `picks`, each taken modulo 36.
   */
  method GenerateRoomCode(picks: seq<nat>) returns (code: string)
    requires |picks| == 6
    ensures |code| == 6
    ensures forall i :: 0 <= i < 6 ==> code[i] == Alphabet[picks[i] % |Alphabet|]
    ensures forall i :: 0 <= i < 6 ==> IsCodeChar(code[i])
  {
    code := "";
    var i := 0;
    while i < 6
      invariant 0 <= i <= 6 && |code| == i
      invariant forall k :: 0 <= k < i ==> code[k] == Alphabet[picks[k] % |Alphabet|]
      invariant forall k :: 0 <= k < i ==> IsCodeChar(code[k])
    {
      code := code + [Alphabet[picks[i] % |Alphabet|]];
      i := i + 1;
    }
  }

  /** The identity carried by an authenticated connection; guests have none. */
  datatype Account = Account(id: int, username: string)

  /** A seat in a room: the connection id, the account id if any, a display name and a mark. */
  datatype Player = Player(id: string, userId: Option<int>, username: string, symbol: Mark)

  datatype Status = Waiting | Playing | Finished

  /** One accepted move as the room records it. */
  datatype MoveRecord = MoveRecord(position: Pos, symbol: Mark, player: string)

  datatype Room = Room(code: string, players: seq<Player>, board: Grid, currentTurn: Mark,
                       status: Status, moves: seq<MoveRecord>)

  /** The account's name, or `fallback` for a guest or an empty name. */
  function DisplayName(user: Option<Account>, fallback: string): string {
    if user.Some? && user.value.username != "" then user.value.username else fallback
  }

  function UserIdOf(user: Option<Account>): Option<int> {
    if user.Some? then Some(user.value.id) else None
  }

  /** An account id that JavaScript treats as true: present and not 0. */
  predicate HasAccount(p: Player) {
    p.userId.Some? && p.userId.value != 0
  }

  /** The board after replaying `moves` on an empty board. */
  function Replay(moves: seq<MoveRecord>): Grid
    decreases |moves|
  {
    if moves == [] then EmptyBoard
    else
      var last := moves[|moves| - 1];
      Place(Replay(moves[..|moves| - 1]), last.position, last.symbol)
  }

  /** The mark that moves at ply `n` of a game: X on even plies, O on odd ones. */
  function Parity(n: nat): Mark {
    if n % 2 == 0 then X else O
  }

  /** The recorded moves alternate between X and O, starting with X. */
  predicate Alternates(moves: seq<MoveRecord>) {
    forall i :: 0 <= i < |moves| ==> moves[i].symbol == Parity(i)
  }

  /**
   * What every stored room satisfies: one or two players; the board is the
   * replay of the recorded moves; until some line is complete the moves
   * alternate starting with X, and while the game is open the turn is that
   * of the next ply; a finished room shows a result.
   */
  predicate RoomValid(r: Room) {
    1 <= |r.players| <= 2 &&
    r.board == Replay(r.moves) &&
    (!HasLine(r.board) ==> Alternates(r.moves)) &&
    (CheckWinner(r.board) == None ==> r.currentTurn == Parity(|r.moves|)) &&
    (r.status == Finished ==> CheckWinner(r.board).Some?)
  }

  /** The index of the first player seated by connection `id`. */
  function IndexOf(players: seq<Player>, id: string): (r: Option<nat>)
    ensures r.Some? ==> r.value < |players| && players[r.value].id == id
    ensures r.Some? ==> forall j :: 0 <= j < r.value ==> players[j].id != id
    ensures r.None? ==> forall j :: 0 <= j < |players| ==> players[j].id != id
    decreases |players|
  {
    if players == [] then None
    else if players[0].id == id then Some(0)
    else match IndexOf(players[1..], id)
      case None => None
      case Some(k) => Some(k + 1)
  }

  /** The index of the first player whose mark is `m` (when `same`) or is not `m` (otherwise). */
  function IndexBySymbol(players: seq<Player>, m: Mark, same: bool): (r: Option<nat>)
    ensures r.Some? ==> r.value < |players| && (players[r.value].symbol == m) == same
    ensures r.Some? ==> forall j :: 0 <= j < r.value ==> (players[j].symbol == m) != same
    ensures r.None? ==> forall j :: 0 <= j < |players| ==> (players[j].symbol == m) != same
    decreases |players|
  {
    if players == [] then None
    else if (players[0].symbol == m) == same then Some(0)
    else match IndexBySymbol(players[1..], m, same)
      case None => None
      case Some(k) => Some(k + 1)
  }

  /** A request to record a result for an account. */
  datatype StatUpdate = StatUpdate(userId: int, result: string)

  /**
   * The stats updates a finished game asks for, and whether the handler
   * still reports success: an exception raised while looking the players
   * up ends the handler with a failure after the updates already made.
   */
  datatype UpdatePlan = UpdatePlan(updates: seq<StatUpdate>, success: bool)

  /** The update for `p`, if it has an account. */
  function Credit(p: Player, result: string): seq<StatUpdate> {
    if HasAccount(p) then [StatUpdate(p.userId.value, result)] else []
  }

  /** A draw for every player with an account, in seat order. */
  function DrawUpdates(players: seq<Player>): seq<StatUpdate>
    decreases |players|
  {
    if players == [] then [] else Credit(players[0], "draw") + DrawUpdates(players[1..])
  }

  /**
   * The outcome assignment: a draw credits every player with an account;
   * a win credits the first player holding the winning mark with "win",
   * then the first player holding another mark with "loss". A missing
   * winner or loser raises an exception at that point.
   */
  function ResultUpdates(players: seq<Player>, o: Outcome): UpdatePlan {
    match o
    case Draw => UpdatePlan(DrawUpdates(players), true)
    case Win(w, _) =>
      match IndexBySymbol(players, w, true)
      case None => UpdatePlan([], false)
      case Some(wi) =>
        match IndexBySymbol(players, w, false)
        case None => UpdatePlan(Credit(players[wi], "win"), false)
        case Some(li) => UpdatePlan(Credit(players[wi], "win") + Credit(players[li], "loss"), true)
  }

  /** The number of seats held by the account `id`. */
  function SeatsOf(players: seq<Player>, id: int): nat
    decreases |players|
  {
    if players == [] then 0
    else (if HasAccount(players[0]) && players[0].userId.value == id then 1 else 0) + SeatsOf(players[1..], id)
  }

  /** A draw records each account's draw exactly as many times as the account holds a seat. */
  lemma {:induction false} DrawUpdatesCount(players: seq<Player>)
    ensures forall id :: multiset(DrawUpdates(players))[StatUpdate(id, "draw")] == SeatsOf(players, id)
    decreases |players|
  {
    if players != [] {
      DrawUpdatesCount(players[1..]);
      var rest := DrawUpdates(players[1..]);
      assert multiset(DrawUpdates(players)) == multiset(Credit(players[0], "draw")) + multiset(rest);
    }
  }

  /**
   * A draw records only draws, each for a seated account, and a draw for
   * every seated account; in a two-seat room the first seat's update comes
   * first. (How many of each: DrawUpdatesCount.)
   */
  lemma {:induction false} DrawUpdatesSpec(players: seq<Player>)
    ensures forall u :: u in DrawUpdates(players) ==>
      u.result == "draw" && exists p :: p in players && HasAccount(p) && u.userId == p.userId.value
    ensures forall p :: p in players && HasAccount(p) ==> StatUpdate(p.userId.value, "draw") in DrawUpdates(players)
    ensures |DrawUpdates(players)| <= |players|
    ensures |players| == 2 ==> DrawUpdates(players) == Credit(players[0], "draw") + Credit(players[1], "draw")
    decreases |players|
  {
    if players != [] {
      DrawUpdatesSpec(players[1..]);
      assert forall p :: p in players[1..] ==> p in players;
      assert forall p :: p in players ==> p == players[0] || p in players[1..];
      if |players| == 2 {
        assert players[1..][1..] == [];
      }
    }
  }

  /**
   * In a room whose two players hold different marks, a win succeeds and
   * credits the winning mark's holder with a win and the other with a loss
   * (each only if it has an account).
   */
  lemma WinUpdatesSpec(players: seq<Player>, w: Mark, line: Line)
    requires |players| == 2 && players[0].symbol != players[1].symbol
    ensures var plan := ResultUpdates(players, Win(w, line));
      var wi := if players[0].symbol == w then 0 else 1;
      plan.success && plan.updates == Credit(players[wi], "win") + Credit(players[1 - wi], "loss")
  {
    var wi := if players[0].symbol == w then 0 else 1;
    assert IndexBySymbol(players, w, true) == Some(wi);
    assert IndexBySymbol(players, w, false) == Some(1 - wi);
  }

  /** A win in a room with a single player fails after crediting that player's win. */
  lemma LoneWinnerFails(p: Player, line: Line)
    ensures ResultUpdates([p], Win(p.symbol, line)) == UpdatePlan(Credit(p, "win"), false)
  {
    assert IndexBySymbol([p], p.symbol, false) == None;
  }

  /** A freshly created room: its creator holds X, the board is empty, X to move, waiting, no moves. */
  function NewRoom(code: string, creator: Player): Room {
    Room(code, [creator], EmptyBoard, X, Waiting, [])
  }

  /** An empty board shows no line and no result, and is not full. */
  lemma EmptyBoardOpen()
    ensures !HasLine(EmptyBoard) && !IsFull(EmptyBoard) && CheckWinner(EmptyBoard) == None
  {
    assert !Complete(EmptyBoard, Lines[0]);
    assert !IsFull(EmptyBoard) by {
      assert EmptyBoard[0] == Empty;
    }
    CheckWinnerSpec(EmptyBoard);
  }

  /** A new room is valid. */
  lemma NewRoomValid(code: string, creator: Player)
    ensures RoomValid(NewRoom(code, creator))
  {
    EmptyBoardOpen();
  }

  /** The room after `joiner` takes the second seat: appended as is, and the game starts. */
  function Joined(r: Room, joiner: Player): Room {
    r.(players := r.players + [joiner], status := Playing)
  }

  /** The guard of a move, checked in this order: membership, turn, then a free cell in range. */
  function MoveGuard(r: Room, id: string, position: int): Option<MoveError> {
    match IndexOf(r.players, id)
    case None => Some(NotInRoom)
    case Some(k) =>
      if r.currentTurn != r.players[k].symbol then Some(NotYourTurn)
      else if !(0 <= position < 9) || r.board[position] != Empty then Some(CellTaken)
      else None
  }

  datatype MoveError = MoveRoomNotFound | NotInRoom | NotYourTurn | CellTaken

  /**
   * The room after `mover` places its mark on the free cell `p`: the mark
   * is written and the move recorded; a board with a result finishes the
   * game and keeps the turn, any other board passes the turn.
   */
  function Played(r: Room, mover: Player, p: Pos): Room {
    var board := Place(r.board, p, mover.symbol);
    var moves := r.moves + [MoveRecord(p, mover.symbol, mover.username)];
    if CheckWinner(board).Some? then r.(board := board, moves := moves, status := Finished)
    else r.(board := board, moves := moves, currentTurn := Other(r.currentTurn))
  }

  /** Replaying one more move places its mark on the replayed board. */
  lemma ReplaySnoc(moves: seq<MoveRecord>, m: MoveRecord)
    ensures Replay(moves + [m]) == Place(Replay(moves), m.position, m.symbol)
  {
    assert (moves + [m])[..|moves|] == moves;
  }

  /** A board with a result stays one when a free cell is filled. */
  lemma ResultSurvives(g: Grid, p: Pos, m: Mark)
    requires g[p] == Empty && CheckWinner(g).Some?
    ensures CheckWinner(Place(g, p, m)).Some?
  {
    CheckWinnerSpec(g);
    assert !IsFull(g);
    LineSurvives(g, p, m);
    CheckWinnerSpec(Place(g, p, m));
  }

  /** A move on a board without a result was made on a board without a line and with a free cell. */
  lemma OpenBefore(r: Room, mover: Player, p: Pos)
    requires r.board[p] == Empty && !HasLine(Place(r.board, p, mover.symbol))
    ensures !HasLine(r.board) && CheckWinner(r.board) == None
  {
    if HasLine(r.board) {
      LineSurvives(r.board, p, mover.symbol);
    }
    assert !IsFull(r.board);
    CheckWinnerSpec(r.board);
  }

  /** While no line is complete, the accepted move continues the alternation and passes the turn on. */
  lemma PlayedAlternates(r: Room, mover: Player, p: Pos)
    requires RoomValid(r) && r.board[p] == Empty && mover.symbol == r.currentTurn
    ensures !HasLine(Played(r, mover, p).board) ==> Alternates(Played(r, mover, p).moves)
    ensures CheckWinner(Played(r, mover, p).board) == None ==>
      Played(r, mover, p).currentTurn == Parity(|Played(r, mover, p).moves|)
  {
    var board := Place(r.board, p, mover.symbol);
    CheckWinnerSpec(board);
    if !HasLine(board) {
      OpenBefore(r, mover, p);
      var moves := r.moves + [MoveRecord(p, mover.symbol, mover.username)];
      assert forall i :: 0 <= i < |r.moves| ==> moves[i] == r.moves[i];
    }
  }

  /** An accepted move keeps a room valid. */
  lemma PlayedValid(r: Room, mover: Player, p: Pos)
    requires RoomValid(r) && r.board[p] == Empty && mover.symbol == r.currentTurn
    ensures RoomValid(Played(r, mover, p))
  {
    ReplaySnoc(r.moves, MoveRecord(p, mover.symbol, mover.username));
    PlayedAlternates(r, mover, p);
    if r.status == Finished {
      ResultSurvives(r.board, p, mover.symbol);
    }
  }

  /** The marks of all players swapped. */
  function Swapped(players: seq<Player>): (r: seq<Player>)
    ensures |r| == |players|
  {
    seq(|players|, i requires 0 <= i < |players| => players[i].(symbol := Other(players[i].symbol)))
  }

  /** Swapping twice restores every player, and swapping changes every mark and nothing else. */
  lemma SwapTwice(players: seq<Player>)
    ensures Swapped(Swapped(players)) == players
    ensures forall i :: 0 <= i < |players| ==>
      Swapped(players)[i].symbol != players[i].symbol &&
      Swapped(players)[i].id == players[i].id && Swapped(players)[i].userId == players[i].userId &&
      Swapped(players)[i].username == players[i].username
  {
    assert forall i :: 0 <= i < |players| ==> Other(Other(players[i].symbol)) == players[i].symbol;
  }

  /** Swaps every player's mark, one player at a time. */
  method SwapMarks(players: seq<Player>) returns (swapped: seq<Player>)
    ensures swapped == Swapped(players)
  {
    swapped := players;
    var i := 0;
    while i < |swapped|
      invariant 0 <= i <= |swapped| == |players|
      invariant forall j :: 0 <= j < i ==> swapped[j] == players[j].(symbol := Other(players[j].symbol))
      invariant forall j :: i <= j < |swapped| ==> swapped[j] == players[j]
    {
      swapped := swapped[i := swapped[i].(symbol := if swapped[i].symbol == X then O else X)];
      i := i + 1;
    }
  }

  /** The room after a rematch: empty board, no moves, X to move, playing, marks swapped. */
  function Rematched(r: Room): Room {
    r.(board := EmptyBoard, currentTurn := X, status := Playing, moves := [], players := Swapped(r.players))
  }

  /** A rematch keeps a room valid. */
  lemma RematchedValid(r: Room)
    requires RoomValid(r)
    ensures RoomValid(Rematched(r))
  {
    EmptyBoardOpen();
  }

  /** The players without seat `k`. */
  function Without(players: seq<Player>, k: nat): (r: seq<Player>)
    requires k < |players|
    ensures |r| == |players| - 1
    ensures forall j :: 0 <= j < k ==> r[j] == players[j]
    ensures forall j :: k <= j < |r| ==> r[j] == players[j + 1]
  {
    players[..k] + players[k + 1..]
  }

  /** The result of a join. `bound` is the code the connection is then attached to. */
  datatype JoinError = RoomNotFound | RoomFull | InProgress
  datatype JoinReply = JoinFailed(error: JoinError) | JoinOk(room: Room, bound: string)

  /** Events broadcast to a room's channel. */
  datatype Event =
    | GameStart(room: Room)
    | MoveMade(position: Pos, symbol: Mark, player: string, board: Grid, currentTurn: Mark)
    | GameOver(winner: Option<Player>, isDraw: bool, winningLine: Option<Line>, board: Grid)
    | PlayerLeft(player: string, room: Room)

  /**
   * The reply to a move. An accepted move yields its event and the stats
   * plan; `plan.success` false means the handler failed after the room had
   * already changed.
   */
  datatype MoveReply = Rejected(error: MoveError) | Accepted(event: Event, plan: UpdatePlan)

  /** The event a finished board broadcasts: the mover as winner, or a draw. */
  function GameOverEvent(mover: Player, o: Outcome, board: Grid): Event {
    match o
    case Draw => GameOver(None, true, None, board)
    case Win(_, line) => GameOver(Some(mover), false, Some(line), board)
  }

  /** A six-character code over the room-code alphabet. */
  predicate IsRoomCode(c: string) {
    |c| == 6 && forall i :: 0 <= i < 6 ==> IsCodeChar(c[i])
  }

  /** Every room of the table is stored under its own code, a generated one, and is valid. */
  predicate TableValid(t: map<string, Room>) {
    forall c :: c in t ==> StoredUnder(c, t[c])
  }

  /** `r` may be stored under `c`: a generated code, its own, and a valid room. */
  predicate StoredUnder(c: string, r: Room) {
    IsRoomCode(c) && r.code == c && RoomValid(r)
  }

  /** Storing a valid room under its own code keeps the table valid. */
  lemma TableStore(t: map<string, Room>, c: string, r: Room)
    requires TableValid(t) && IsRoomCode(c) && r.code == c && RoomValid(r)
    ensures TableValid(t[c := r])
  {
    assert StoredUnder(c, r);
    forall d | d in t && d != c
      ensures t[c := r][d] == t[d] && StoredUnder(d, t[d])
    {
    }
  }

  /** Removing a room keeps the table valid. */
  lemma TableRemove(t: map<string, Room>, c: string)
    requires TableValid(t)
    ensures TableValid(t - {c})
  {
  }

  /** The table of open rooms, keyed by room code. */
  class Registry {
    var rooms: map<string, Room>

    /** Every room is stored under its own code and is valid. */
    ghost predicate Valid()
      reads this
    {
      TableValid(rooms)
    }

    constructor()
      ensures Valid() && rooms == map[]
    {
      rooms := map[];
    }

    /**
     * create-room: a new room under a freshly generated code, with its
     * creator as the only player (X). A room already stored under that
     * code is replaced.
     */
    method CreateRoom(picks: seq<nat>, connection: string, user: Option<Account>) returns (code: string, room: Room)
      requires Valid() && |picks| == 6
      modifies this
      ensures Valid()
      ensures |code| == 6 && forall i :: 0 <= i < 6 ==> IsCodeChar(code[i])
      ensures room == NewRoom(code, Player(connection, UserIdOf(user), DisplayName(user, "Player 1"), X))
      ensures rooms == old(rooms)[code := room]
    {
      code := GenerateRoomCode(picks);
      room := NewRoom(code, Player(connection, UserIdOf(user), DisplayName(user, "Player 1"), X));
      NewRoomValid(code, room.players[0]);
      TableStore(rooms, code, room);
      rooms := rooms[code := room];
    }

    /**
     * join-room: the room is looked up under the upper-cased code; the
     * errors come in the order not found, full, not waiting, and leave the
     * table unchanged. A join seats the newcomer with O, starts the game,
     * and attaches the connection to the code exactly as given; the room's
     * channel then gets the game-start event carrying the joined room. A
     * failed join broadcasts nothing.
     */
    method JoinRoom(code: string, connection: string, user: Option<Account>) returns (reply: JoinReply, event: Option<Event>)
      requires Valid()
      modifies this
      ensures Valid()
      ensures Upper(code) !in old(rooms) ==> reply == JoinFailed(RoomNotFound) && rooms == old(rooms)
      ensures reply.JoinFailed? <==> event == None
      ensures Upper(code) in old(rooms) && |old(rooms)[Upper(code)].players| >= 2 ==>
        reply == JoinFailed(RoomFull) && rooms == old(rooms)
      ensures (Upper(code) in old(rooms) && |old(rooms)[Upper(code)].players| < 2 &&
               old(rooms)[Upper(code)].status != Waiting) ==>
        reply == JoinFailed(InProgress) && rooms == old(rooms)
      ensures (Upper(code) in old(rooms) && |old(rooms)[Upper(code)].players| < 2 &&
               old(rooms)[Upper(code)].status == Waiting) ==>
        var joined := Joined(old(rooms)[Upper(code)], Player(connection, UserIdOf(user), DisplayName(user, "Player 2"), O));
        rooms == old(rooms)[Upper(code) := joined] && reply == JoinOk(joined, code) && |joined.players| == 2 &&
        event == Some(GameStart(joined))
    {
      event := None;
      var key := Upper(code);
      if key !in rooms {
        return JoinFailed(RoomNotFound), None;
      }
      var room := rooms[key];
      if |room.players| >= 2 {
        return JoinFailed(RoomFull), None;
      }
      if room.status != Waiting {
        return JoinFailed(InProgress), None;
      }
      room := room.(players := room.players + [Player(connection, UserIdOf(user), DisplayName(user, "Player 2"), O)]);
      room := room.(status := Playing);
      TableStore(rooms, key, room);
      rooms := rooms[key := room];
      reply := JoinOk(room, code);
      event := Some(GameStart(room));
    }

    /**
     * make-move: rejected for an unknown room, a connection not seated in
     * it, the wrong turn, or a position that is not a free cell (positions
     * outside 0..8 included); a rejection changes nothing. The status is
     * never consulted. An accepted move changes only that room, as
     * `Played` describes, and a finished board asks for the stats updates.
     */
    method MakeMove(code: string, connection: string, position: int) returns (reply: MoveReply)
      requires Valid()
      modifies this
      ensures Valid()
      ensures code !in old(rooms) ==> reply == Rejected(MoveRoomNotFound) && rooms == old(rooms)
      ensures code in old(rooms) && MoveGuard(old(rooms)[code], connection, position).Some? ==>
        reply == Rejected(MoveGuard(old(rooms)[code], connection, position).value) && rooms == old(rooms)
      ensures code in old(rooms) && MoveGuard(old(rooms)[code], connection, position).None? ==>
        var r := old(rooms)[code];
        var mover := r.players[IndexOf(r.players, connection).value];
        var after := Played(r, mover, position);
        rooms == old(rooms)[code := after] &&
        reply.Accepted? &&
        (CheckWinner(after.board).Some? ==>
          reply.event == GameOverEvent(mover, CheckWinner(after.board).value, after.board) &&
          reply.plan == ResultUpdates(after.players, CheckWinner(after.board).value)) &&
        (CheckWinner(after.board).None? ==>
          reply.event == MoveMade(position, mover.symbol, mover.username, after.board, after.currentTurn) &&
          reply.plan == UpdatePlan([], true))
    {
      if code !in rooms {
        return Rejected(MoveRoomNotFound);
      }
      var room := rooms[code];
      var k := IndexOf(room.players, connection);
      if k.None? {
        return Rejected(NotInRoom);
      }
      var player := room.players[k.value];
      if room.currentTurn != player.symbol {
        return Rejected(NotYourTurn);
      }
      if !(0 <= position < 9) || room.board[position] != Empty {
        return Rejected(CellTaken);
      }
      ghost var after := Played(room, player, position);
      PlayedValid(room, player, position);
      room := room.(board := room.board[position := Taken(player.symbol)]);
      room := room.(moves := room.moves + [MoveRecord(position, player.symbol, player.username)]);
      var result := CheckWinner(room.board);
      if result.Some? {
        room := room.(status := Finished);
        assert room == after;
        TableStore(rooms, code, room);
        rooms := rooms[code := room];
        reply := Accepted(GameOverEvent(player, result.value, room.board), ResultUpdates(room.players, result.value));
      } else {
        room := room.(currentTurn := if room.currentTurn == X then O else X);
        assert room == after;
        TableStore(rooms, code, room);
        rooms := rooms[code := room];
        reply := Accepted(MoveMade(position, player.symbol, player.username, room.board, room.currentTurn), UpdatePlan([], true));
      }
    }

    /**
     * accept-rematch: an existing room is reset to an empty board with X to
     * move and status playing, and every player's mark is swapped, one
     * player at a time; neither the status nor the caller's seat is
     * checked; the room's channel gets the game-start event carrying the
     * reset room. An unknown code changes nothing and broadcasts nothing.
     */
    method AcceptRematch(code: string) returns (event: Option<Event>)
      requires Valid()
      modifies this
      ensures Valid()
      ensures code !in old(rooms) ==> rooms == old(rooms) && event == None
      ensures code in old(rooms) ==>
        rooms == old(rooms)[code := Rematched(old(rooms)[code])] && event == Some(GameStart(Rematched(old(rooms)[code])))
    {
      if code !in rooms {
        return None;
      }
      var room := rooms[code];
      ghost var after := Rematched(room);
      RematchedValid(room);
      room := room.(board := EmptyBoard, currentTurn := X, status := Playing, moves := []);
      var players := SwapMarks(room.players);
      room := room.(players := players);
      assert room == after;
      TableStore(rooms, code, room);
      rooms := rooms[code := room];
      event := Some(GameStart(room));
    }

    /**
     * Leaving (or disconnecting): the first seat of the connection is
     * removed; an emptied room is deleted, otherwise it goes back to waiting
     * with its board, turn and moves kept. An unknown code or a connection
     * without a seat changes nothing.
     */
    method LeaveRoom(code: string, connection: string) returns (event: Option<Event>)
      requires Valid()
      modifies this
      ensures Valid()
      ensures code !in old(rooms) || IndexOf(old(rooms)[code].players, connection).None? ==>
        rooms == old(rooms) && event == None
      ensures code in old(rooms) && IndexOf(old(rooms)[code].players, connection).Some? ==>
        var r := old(rooms)[code];
        var k := IndexOf(r.players, connection).value;
        (|r.players| == 1 ==> rooms == old(rooms) - {code} && event == None) &&
        (|r.players| == 2 ==>
          var left := r.(players := Without(r.players, k), status := Waiting);
          rooms == old(rooms)[code := left] && event == Some(PlayerLeft(r.players[k].username, left)))
    {
      if code !in rooms {
        return None;
      }
      var room := rooms[code];
      var k := IndexOf(room.players, connection);
      if k.None? {
        return None;
      }
      var player := room.players[k.value];
      room := room.(players := Without(room.players, k.value));
      if |room.players| == 0 {
        TableRemove(rooms, code);
        rooms := rooms - {code};
        event := None;
      } else {
        room := room.(status := Waiting);
        TableStore(rooms, code, room);
        rooms := rooms[code := room];
        event := Some(PlayerLeft(player.username, room));
      }
    }
  }

  /**
   * A join sent with lower-case letters finds the upper-case room but
   * attaches the connection to the lower-case code, under which no room is
   * stored: leaving through that code then finds nothing to remove.
   */
  lemma LowerCaseJoinIsNotFoundOnLeave(rooms: map<string, Room>, code: string)
    requires TableValid(rooms)
    requires exists i :: 0 <= i < |code| && IsLower(code[i])
    ensures code !in rooms
  {
    var i :| 0 <= i < |code| && IsLower(code[i]);
    if code in rooms {
      CodeCharIsUpperOrDigit(code[i]);
    }
  }

  /**
   * A join always seats the newcomer with O, even after a rematch swapped
   * the marks: when the creator (X) and a joiner (O) rematch, the joiner
   * (now X) leaves, its seat found as the leave handler finds it, and
   * someone else joins, both seats hold O while X is to move, and every move
   * is rejected.
   */
  lemma RejoinAfterRematchStalls(code: string, creator: Player, joiner: Player, next: Player, id: string, position: int)
    requires creator.symbol == X && joiner.symbol == O && next.symbol == O
    requires creator.id != joiner.id
    ensures var swapped := Rematched(Joined(NewRoom(code, creator), joiner));
      var k := IndexOf(swapped.players, joiner.id);
      k == Some(1) &&
      var left := swapped.(players := Without(swapped.players, k.value), status := Waiting);
      var rejoined := Joined(left, next);
      rejoined.players[0].symbol == O && rejoined.players[1].symbol == O && rejoined.currentTurn == X &&
      MoveGuard(rejoined, id, position) in {Some(NotInRoom), Some(NotYourTurn)}
  {
  }
}
