# Tic-tac-toe: rules, engine, rooms and scores

A Dafny model of the game logic of a browser tic-tac-toe with an online
mode. It covers:

- **Board**: the shared rules. A board is nine cells. The eight winning lines are checked in a fixed order: rows, then columns, then diagonals. The module also gives the list of free cells and the result of a board. The result check of the room server and of the local game reports a draw on a full board. The engine's own check reports only a winner. A lemma shows that the two checks agree.
- **Ai**: the computer opponent.
  - Minimax with alpha-beta pruning, specified by an unpruned minimax value.
  - The best move, with ties going to the lowest index.
  - Win and block checks, and the centre, corner, any-cell fallback.
  - The easy, medium, hard and impossible levels, behind an `Engine` object that holds the difficulty and the two symbols.
- **RoomServer**: the server's room registry (a map from room code to room). It covers the create, join, move, rematch and leave handlers, the room-code generator, and the stats updates a finished online game asks for. The broadcast events and the stats requests are returned as values. A room invariant ties each room's board to its move list. It also ties the turn to the parity of the moves, and every handler keeps it.
- **LocalGame**: the local game object. The board is an array updated in place. The object also holds the turn, the move list, the active flag and the session scores. The model covers clicks, the engine's turn, the end of a game, play again and quit.
- **UserStats**: the account statistics update after one game (counters, streaks, points with their bonus and floor), and the rank numbering of a leaderboard page.
- **SessionScore**: the per-session win/loss/draw counters of the HTTP session routes.
- **Online**: the client's view of an online match. It covers connecting before a create or a join, the join-code check, tracking the own symbol and the turn from server events, the move guard, classifying a game-over event, and leaving.
- **Text**: JavaScript's `trim` and an ASCII upper-casing.

Random choices are parameters. A `coin: bool` stands for a probability test. A `pick: nat`, taken modulo the number of candidates, stands for a random index. Room codes take six such picks, each modulo 36. `-Infinity` and `+Infinity` in the search are the sentinels -1000 and 1000; every score lies within [-10, 10].

Behaviour of the server that the model keeps as written:

- `make-move` never looks at the room's status.
- A move that ends the game does not pass the turn.
- A position outside 0..8 is rejected like a taken cell.
- A join always seats the newcomer with O. After a rematch has swapped the marks, a departure followed by a new join can therefore leave both seats with O while X is to move. Every move is then rejected (`RoomServer.RejoinAfterRematchStalls`).
- Leaving does not reset the board.
- A rematch checks neither the status nor the caller's seat.
- A new room replaces an existing room with the same code.
- A join looks the room up under the upper-cased code, but attaches the connection to the code as typed. A lower-case code therefore names no stored room when the connection later leaves or disconnects (`RoomServer.LowerCaseJoinIsNotFoundOnLeave`).

A player's account id is spelled `oderId` in the server source. It is used consistently under that name, and the model calls it `userId`.

## Model

| member | source | states |
|---|---|---|
| Board.CheckWinnerSpec | server/socket/gameSocket.js:17-35 | a win exactly when some line is complete, naming the first complete line in rows, columns, diagonals order and its mark; a draw exactly when no line is complete and the board is full; otherwise no result |
| Board.FirstLineFrom | server/socket/gameSocket.js:24-28 | the index found is a complete line and every line checked before it is incomplete; none means no line from there on is complete |
| Board.WinnerSpec | public/js/ai.js:177-190 | the engine's check reports a mark exactly when some line is complete, and it is the first complete line's mark; it has no draw result |
| Board.WinnerAgrees | public/js/ai.js:177-190 | the engine's winner check and the server's result check agree on every board: same winner, and no winner exactly when the server reports no win |
| Board.WinnerOfFirstLine | public/js/ai.js:184-188 | the winner of a board is the mark of its first complete line |
| Board.LegalMovesExact | public/js/ai.js:170-175 | the available moves are exactly the empty cells, in strictly ascending order |
| Board.LegalMovesSound | public/js/ai.js:170-175 | every listed move is an empty cell, and the list is strictly ascending |
| Board.FullIffNoMoves | public/js/ai.js:143 | a board is full exactly when there is no available move |
| Board.PlaceShrinks | public/js/ai.js:147-149 | playing a free cell leaves exactly one available move fewer, which bounds the search depth |
| Board.PlacedNotLegal | public/js/ai.js:170-175 | the cell just played is no longer an available move |
| Board.LineSurvives | server/socket/gameSocket.js:24-28 | a complete line stays complete when another cell is filled |
| Ai.ValueBounds | public/js/ai.js:137-143 | the minimax value lies in [depth-10, 10-depth], so every score is within [-10, 10] |
| Ai.ChildBounds | public/js/ai.js:147-150 | each child's value lies one ply inside its parent's bounds |
| Ai.Minimax | public/js/ai.js:137-168 | the pruned search is fail-soft with respect to the unpruned minimax value: at or below alpha an upper bound, at or above beta a lower bound, inside the window exact; with the window (-Infinity, +Infinity) it returns exactly the unpruned value |
| Ai.MaxSearch | public/js/ai.js:145-155 | the maximizing loop with its beta cut-off is fail-soft with respect to the best child value |
| Ai.MinSearch | public/js/ai.js:156-167 | the minimizing loop with its alpha cut-off is fail-soft with respect to the least child value |
| Ai.SearchChild | public/js/ai.js:148-150 | the search of the i-th child is fail-soft with respect to that child's unpruned value |
| Ai.BestWithin | public/js/ai.js:146-166 | the running maximum or minimum of scores within [lo, hi] stays within [lo, hi] |
| Ai.BestBoundsEach | public/js/ai.js:151-162 | the running maximum bounds every score from above, the running minimum from below |
| Ai.ScoreRootMove | public/js/ai.js:121-123 | the root score of a move is the unpruned value of the child searched from depth 0, and lies in [-10, 10] |
| Ai.GetBestMove | public/js/ai.js:117-134 | no move exactly on a full board; otherwise the first available move, by index, among those with the greatest root score |
| Ai.FirstMaxStep | public/js/ai.js:126-129 | a strictly greater score takes over the choice, an equal one does not, so the choice stays the first maximum |
| Ai.FindWinningInSpec | public/js/ai.js:89-96 | the move returned is the first in the list whose placement wins for the symbol; none means no listed move wins |
| Ai.FindWinningMoveSpec | public/js/ai.js:86-97 | the winning move found is an empty cell that completes a line for the symbol and no lower empty cell does; none exactly when no empty cell does |
| Ai.EasyMoveSpec | public/js/ai.js:38-41 | a random move exists exactly when the board is not full, and it is a free cell |
| Ai.EasyMoveAt | public/js/ai.js:38-39 | a choice below the number of free cells picks the free cell at that index in the ascending list |
| Ai.EasyMoveCovers | public/js/ai.js:38-41 | every free cell is the random move for some choice |
| Ai.StrategicMoveSpec | public/js/ai.js:100-114 | the centre exactly when it is free; with the centre taken a free corner whenever one exists; a move exactly when the board is not full, always a free cell |
| Ai.StrategicCornerAt | public/js/ai.js:104-109 | with the centre taken, a choice below the number of free corners picks the corner at that index in the order 0, 2, 6, 8 |
| Ai.StrategicFallsBack | public/js/ai.js:104-113 | with the centre and every corner taken, the strategic move is the random move |
| Ai.StrategicMoveCovers | public/js/ai.js:100-114 | with the centre taken every free corner is the strategic move for some choice; with the centre and all corners taken, every free cell is |
| Ai.WinOrBlock | public/js/ai.js:46-51 | the engine's own winning move if any, else the opponent's winning cell, and such a move is a free cell |
| Ai.MediumMove | public/js/ai.js:44-59 | win, else block, else with the coin the best move, else a random move; a move exactly when the board is not full, always on a free cell |
| Ai.HardMove | public/js/ai.js:62-78 | win, else block, else with the coin the best move, else the strategic move; a move exactly when the board is not full, always on a free cell |
| Ai.BestMoveIsFree | public/js/ai.js:117-134 | the best move exists exactly when the board is not full and is a free cell |
| Ai.WinBeforeBlockExample | public/js/ai.js:46-51 | with X on 0 and 1 and O on 3 and 4, an engine playing O takes its own win at 5 although X threatens 2 |
| Ai.Engine.constructor | public/js/ai.js:7-11 | a new engine has the given difficulty and plays O against X |
| Ai.Engine.SetDifficulty | public/js/ai.js:13-15 | sets the difficulty, symbols unchanged |
| Ai.Engine.SetSymbols | public/js/ai.js:17-20 | sets both symbols, difficulty unchanged |
| Ai.Engine.GetMove | public/js/ai.js:22-35 | easy is random, hard is the hard move, impossible the best move, medium and any unknown name the medium move; a move exactly when the board is not full, on a free cell |
| Text.TrimSpec | public/js/online.js:117 | the trimmed code is a slice of the input with only white space cut off on either side and none left at its ends |
| Text.TrimIdempotent | public/js/online.js:117 | trimming a trimmed string changes nothing |
| Text.Upper | public/js/online.js:117 | upper-casing keeps the length and maps each character by itself: a lower-case ASCII letter becomes its capital, every other character stays |
| Text.UpperIdempotent | server/socket/gameSocket.js:92 | upper-casing twice is upper-casing once, and a string without lower-case letters is unchanged |
| RoomServer.GenerateRoomCode | server/socket/gameSocket.js:8-15 | six characters, the i-th being the alphabet character picked by the i-th random choice, each from A-Z0-9 |
| RoomServer.CodeCharIsUpperOrDigit | server/socket/gameSocket.js:9 | every code character is an upper-case letter or a digit |
| RoomServer.IndexOf | server/socket/gameSocket.js:141 | the first seat held by the connection, or none when it holds no seat |
| RoomServer.IndexBySymbol | server/socket/gameSocket.js:173-174 | the first seat whose mark is (or is not) the given mark, or none |
| RoomServer.NewRoomValid | server/socket/gameSocket.js:63-74 | a new room (creator alone with X, empty board, X to move, waiting, no moves) satisfies the room invariant |
| RoomServer.EmptyBoardOpen | server/socket/gameSocket.js:71 | the empty board has no line, is not full and has no result |
| RoomServer.Registry.constructor | server/socket/gameSocket.js:5 | the registry starts empty |
| RoomServer.Registry.CreateRoom | server/socket/gameSocket.js:60-87 | stores under a fresh six-character code a room with one player holding X, 9 empty cells, X to move, waiting and no moves, replacing any room under that code; the table stays valid |
| RoomServer.Registry.JoinRoom | server/socket/gameSocket.js:90-129 | looks up the upper-cased code; fails with not found, then full, then not waiting, each leaving the table unchanged and broadcasting nothing; otherwise appends exactly one player with O, sets playing, binds the code as given and broadcasts the game-start event with the joined room; the room then has two players |
| RoomServer.MoveGuard | server/socket/gameSocket.js:141-152 | rejects a non-member, then the wrong turn, then a position whose cell is not empty, positions outside 0..8 included |
| RoomServer.Registry.MakeMove | server/socket/gameSocket.js:132-206 | an unknown room or a failed guard changes nothing; an accepted move changes only that room: its cell, one more move, and either finished with the turn kept or the turn flipped; a finished board broadcasts the game-over event and asks for the stats updates |
| RoomServer.PlayedValid | server/socket/gameSocket.js:154-199 | an accepted move keeps the room invariant: the board is the replay of the moves, the turn matches their parity while open, and a finished room has a result |
| RoomServer.PlayedAlternates | server/socket/gameSocket.js:155-199 | while no line is complete, the moves alternate X, O, X, ... and the turn is the parity of their number |
| RoomServer.ReplaySnoc | server/socket/gameSocket.js:155-156 | recording a move and writing its cell keep the board equal to the replay of the moves |
| RoomServer.ResultSurvives | server/socket/gameSocket.js:159-162 | a board with a result keeps one when a free cell is filled, so a finished room stays decided under the status-blind move handler |
| RoomServer.OpenBefore | server/socket/gameSocket.js:158-190 | a move that leaves no line was made on a board without a line and without a result |
| RoomServer.ResultUpdates | server/socket/gameSocket.js:172-194 | the stats updates of a result: for a draw, every seat with an account in order; for a win, the winner's win, then the loser's loss, the handler failing if either is missing |
| RoomServer.DrawUpdatesSpec | server/socket/gameSocket.js:182-188 | a draw records only draws of seated accounts, a draw for every seated account, at most one update per seat, and in a two-seat room the first seat's update before the second's |
| RoomServer.DrawUpdatesCount | server/socket/gameSocket.js:182-188 | a draw records each account's draw exactly as many times as that account holds a seat |
| RoomServer.WinUpdatesSpec | server/socket/gameSocket.js:172-181 | with two players of different marks a win credits the winning mark's holder with a win and the other with a loss, and succeeds |
| RoomServer.LoneWinnerFails | server/socket/gameSocket.js:173-181 | a win in a one-player room records that player's win, then fails |
| RoomServer.SwapTwice | server/socket/gameSocket.js:229-231 | swapping marks changes every player's mark and nothing else, and swapping twice restores the players |
| RoomServer.SwapMarks | server/socket/gameSocket.js:229-231 | the loop swaps every player's mark, one player at a time |
| RoomServer.RematchedValid | server/socket/gameSocket.js:219-231 | a rematch keeps the room invariant |
| RoomServer.Registry.AcceptRematch | server/socket/gameSocket.js:219-238 | an existing room gets an empty board and no moves, X to move, playing, every mark swapped, and the game-start event carries that room; neither status nor membership is checked; an unknown code changes nothing and broadcasts nothing |
| RoomServer.Without | server/socket/gameSocket.js:282 | removes exactly seat k, keeping the order of the others |
| RoomServer.Registry.LeaveRoom | server/socket/gameSocket.js:274-299 | removes only the leaving connection's first seat; deletes an emptied room; otherwise sets waiting, keeps board, turn and moves, and broadcasts the departure; a non-member or unknown room changes nothing |
| RoomServer.TableStore | server/socket/gameSocket.js:77 | storing a valid room under its own code keeps every other room and the table invariant |
| RoomServer.TableRemove | server/socket/gameSocket.js:285 | deleting a room keeps the table invariant |
| RoomServer.LowerCaseJoinIsNotFoundOnLeave | server/socket/gameSocket.js:92-115 | a code with a lower-case letter is not a key of the table, so the code a lower-case join binds finds no room on leave |
| RoomServer.RejoinAfterRematchStalls | server/socket/gameSocket.js:106-111 | after create, join, rematch, the new X (found by its connection id, as leave finds it) leaving and another join, both seats hold O with X to move, and every move is rejected |
| LocalGame.Tally | public/js/game.js:178-191 | a draw adds to both draw counters; an X win only to player 1's wins; an O win only to player 2's wins |
| LocalGame.TallySpec | public/js/game.js:178-191 | counters never decrease, the two draw counters stay equal, and one result adds one point (a win) or two (a draw) in total |
| LocalGame.ResultFor | public/js/game.js:179-197 | a draw is a draw; against the engine an X win is a win and an O win a loss; in other modes a win reports nothing |
| LocalGame.Game.constructor | public/js/game.js:6-20 | an empty board, X to move, no mode, medium, inactive, no moves, zero scores |
| LocalGame.Game.ResetBoard | public/js/game.js:291-292 | a fresh board of nine empty cells, all else unchanged |
| LocalGame.Game.StartGame | public/js/game.js:65-73 | sets mode and difficulty (also the engine's), activates, clears the moves, empties the board; the player to move is kept |
| LocalGame.Game.MakeMove | public/js/game.js:123-133 | writes the current player's mark into the cell, appends that move, and flips the player; nothing else changes |
| LocalGame.Game.EndGame | public/js/game.js:167-197 | deactivates; the scores take the result as Tally states; the reported result is ResultFor's; the result is saved exactly against the engine |
| LocalGame.Game.HandleCellClick | public/js/game.js:96-121 | inactive, online or an occupied cell changes nothing; otherwise the move is made, a result ends the game, and against the engine with O to move play stays disabled until the engine moves |
| LocalGame.Game.MakeAIMove | public/js/game.js:135-148 | the move returned is the engine's choice at its difficulty (random for easy, win-block-then-strategic for hard, the best move for impossible, win-block-then-random otherwise); it is made on that free cell for the player to move; play is enabled again only if it did not end the game; no move exactly on a full board, which changes nothing |
| LocalGame.Game.ResetGame | public/js/game.js:282-289 | empty board and moves, X to move, active, scores kept |
| LocalGame.Game.QuitGame | public/js/game.js:299-306 | inactive, empty board, all four counters zero |
| LocalGame.OneMarkOpen | public/js/game.js:150-165 | a board with one mark has no result |
| LocalGame.StaleTurnAfterEnd | public/js/game.js:65-73 | after X's move ends a game, going back to the menu and starting against the engine leaves O to move: the human's first click places O and no engine move follows |
| LocalGame.Game.StartGameFresh | public/js/game.js:65-73 | as StartGame, with X to move |
| LocalGame.FreshStartEngineAnswers | public/js/game.js:65-73 | after the corrected start, the human's first click places X and hands the turn to the engine |
| UserStats.AfterResult | server/models/User.js:30-73 | win: wins+1, streak+1, points+10, and a new best streak earns best := streak and 5 more; loss: losses+1, streak 0, points max(0, points-3); draw: draws+1, points+2, streaks kept; any other result changes no counter; every update counts one more game |
| UserStats.AfterResultValid | server/models/User.js:46-55 | no counter goes negative and the best streak stays at least the current one |
| UserStats.AfterResultsSpec | server/models/User.js:30-73 | over any sequence of results a valid row stays valid, the games counted grow by exactly the number of results, and wins, losses and draws never decrease |
| UserStats.UserTable.UpdateStats | server/models/User.js:30-73 | an unknown id yields none and writes nothing; otherwise the row becomes AfterResult of the old row, is written back and returned, and the table stays valid |
| UserStats.Ranked | server/models/User.js:84-87 | one ranked row per row, in row order, each carrying its row |
| UserStats.RankedPages | server/models/User.js:84-87 | ranks are offset+1, offset+2, ... in row order, and two consecutive pages rank as one |
| SessionScore.Bumped | server/routes/game.js:83-93 | win, loss and draw each add one to their own counter and leave the other two; any other result changes nothing |
| SessionScore.BumpedAllMonotone | server/routes/game.js:77-96 | without a reset the counters never decrease, and together grow by at most the number of results posted |
| SessionScore.Session.GetScore | server/routes/game.js:70-75 | a missing score is created as zeros; the score is returned |
| SessionScore.Session.PostResult | server/routes/game.js:77-96 | a missing score is created as zeros, then the result bumps it |
| SessionScore.Session.Reset | server/routes/game.js:98-101 | the score becomes zeros whatever it was |
| Online.NormalizeCode | public/js/online.js:116-122 | the code sent is the input trimmed and upper-cased, sent exactly when it has six characters, with no lower-case letter |
| Online.NormalizeCodeStable | public/js/online.js:117 | a code that passes the check is already normal: checking it again gives it back |
| Online.OnlineHandler.Connect | public/js/online.js:45-70 | opening the socket makes the handler connected, all else unchanged |
| Online.OnlineHandler.Disconnect | public/js/online.js:72-77 | closing the socket leaves the handler not connected, all else unchanged |
| Online.OnlineHandler.CreateRoom | public/js/online.js:90-93 | asking for a room connects first when not connected; nothing else changes before the reply |
| Online.OnlineHandler.JoinRoom | public/js/online.js:115-124 | what is sent is the normalized code, or nothing; a code that is sent leaves the handler connected, a rejected one changes nothing |
| Online.CreateThenCancel | public/js/online.js:90-146 | creating a room, receiving the code and cancelling the wait sends the leave request for that code |
| Online.OnlineHandler.OnCreateReply | public/js/online.js:94-97 | a successful create attaches to the code with symbol X; a failure changes nothing |
| Online.OnlineHandler.OnJoinReply | public/js/online.js:126-133 | a successful join attaches to the code sent with symbol O; a failure changes nothing |
| Online.JoinThenAttach | public/js/online.js:115-133 | a join that sends a code and is accepted attaches the handler with symbol O to exactly the code sent; a rejected code leaves the handler attached where it was |
| Online.OnlineHandler.HandleGameStart | public/js/online.js:154-171 | the opponent is the first other seat; the own symbol is that of this connection's seat, and it is this client's turn exactly when that symbol is X; online mode, active, empty board; no own seat fails right after setting the opponent, and a snapshot without an X or an O seat fails after the changes; the local game's player to move, moves, scores, difficulty and engine are kept |
| Online.OnlineHandler.HandleOnlineCellClick | public/js/online.js:194-208 | nothing is sent when it is not this client's turn, play is inactive or the cell is occupied; otherwise the move request with the room code |
| Online.OnlineHandler.HandleMoveMade | public/js/online.js:211-222 | writes the mark at the position and sets the turn flag exactly when the current turn is the own symbol |
| Online.OnlineHandler.HandleGameOver | public/js/online.js:248-267 | deactivates play; a draw is a draw, otherwise a win exactly when the winner's symbol is the own symbol, else a loss; the local game's board, scores, mode, player to move, moves, difficulty and engine are kept |
| Online.Classify | public/js/online.js:259-267 | draw exactly when the event is a draw; otherwise a win exactly when the winner's symbol is the own symbol |
| Online.ClassifyOpposite | public/js/online.js:259-267 | two clients with different symbols read one game-over event as a draw each, or as one win and one loss |
| Online.IndexOther | public/js/online.js:158 | the first seat held by another connection, or none |
| Online.OnlineHandler.CancelWaiting | public/js/online.js:137-146 | sends a leave request when connected and attached, and clears code and symbol |
| Online.OnlineHandler.LeaveOnlineGame | public/js/online.js:339-355 | sends a leave request when connected and attached; clears code, symbol, opponent and turn flag; the local game quits, keeping its player to move, moves, mode, difficulty and engine |

## Left out

- Socket.IO transport: the engine's emits, room channels, callbacks and the JWT handshake. These are I/O. Events and replies are returned as values, and a connection is its id.
- Online.OnlineHandler.Connect: the connection id is kept. Opening a socket again would give it a new id, but the client never closes its socket (`disconnect` at public/js/online.js:72-77 has no caller), so only the first connect happens.
- The connection's bound room code (`socket.roomCode`) is not kept as state. The join reply returns it, and leave takes the code as a parameter.
- The `userSockets` map is bookkeeping for connections and is not modelled.
- Chat relay, HTML escaping and the rematch request relay are messages without state.
- `updateOnlineGameResult`: the database writes and the game history are not modelled. The model returns the list of stats updates a finished game asks for. The per-account arithmetic is modelled separately as `UserStats.AfterResult`.
- All SQL is left out:
  - The table of accounts is a map.
  - The leaderboard's `ORDER BY`, `LIMIT` and `OFFSET` are done by the database; only the rank numbering is modelled.
  - `getUserRank` is a database count.
- `Math.random` is replaced by parameters: `coin` for a probability test, `pick` for a random index, and `picks` for room codes. The probabilities themselves (1/2, 0.8, uniform) are not modelled.
- DOM updates, toasts, modals, timers and `Date.now` durations are not modelled. The 500 ms delay before the engine moves is the separate `MakeAIMove` call.
- Floating-point win rates are formatting.
- The page script, HTTP routing, session storage and authentication are not part of the model: `public/js/main.js`, `server/server.js`, `server/middleware/auth.js`, `public/js/auth.js` and `server/config/database.js`.
- Text.Upper, Online.NormalizeCode, RoomServer.Registry.JoinRoom: upper-casing maps the ASCII letters a-z only. JavaScript's `toUpperCase` applies full Unicode case mapping: it also maps letters of other scripts (`é` to `É`, dotless `ı` to `I`), some mappings change the length (`ß` becomes `SS`), and the six-character check counts UTF-16 code units rather than characters. Typed input with such characters can therefore pass or fail the six-character check, or find a room, differently from the model.
- Rooms are values in the registry's map rather than shared objects. The server updates them in place, and every handler makes its changes before its first `await`, so each handler is one atomic step. What this loses is a handler that keeps reading a room after an `await`; the only one is the draw loop below.
- RoomServer.ResultUpdates, RoomServer.Registry.MakeMove: the stats updates of a draw are computed in one step from the seats at the finishing move. The source's draw loop (server/socket/gameSocket.js:183-187) walks the live seat list and awaits a database write for each seat, and a leave (`splice`, gameSocket.js:282) or a leave followed by a join (`push`, gameSocket.js:106) can run during those writes. If the first seat leaves during the first write, the loop stops and the remaining player's draw is never recorded; after a leave and a join, the newcomer is credited with a draw for a game they did not play. A win is not affected, because the winner and the loser are read before the first write (gameSocket.js:173-174).
- The online handler's board writes go to the local game's array; the cell texts and classes of the page are left out.
- Online.OnlineHandler.HandleGameOver: the source would throw on a non-draw event without a winner; the server never sends one, so that is a precondition.
- The socket's own `connect` and `disconnect` events only show a message; the handlers they register are the modelled `Handle…` methods.
- UserStats.UserTable.UpdateStats: the update is atomic in the model. The source reads the row, computes, and writes it back across separate awaits, so two concurrent updates of one account can each read the same row; the second write then loses the first's counters, points and streaks, while each still counts its game.

## Findings

| source | as written | input that shows it | evidently intended | confidence | as-written member | corrected member |
|---|---|---|---|---|---|---|
| public/js/game.js:65-73 | `startGame` keeps `currentPlayer` from the previous game, and quitting does not reset it either | a local game that X's move ends, by a win or a draw, then back to the menu and a new game against the engine: O is to move, so the engine does not answer the first click: the human places the engine's O, and only then do the two alternate | every new game starts with X to move, as `resetGame` does | high, not executed | LocalGame.StaleTurnAfterEnd | LocalGame.Game.StartGameFresh |
