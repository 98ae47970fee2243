# Connect Four over peer-to-peer: a Dafny model

This project models the core of a browser Connect Four game in which two
anonymous players find each other in a shared lobby, elect a host, move to a
private game room and relay their moves to each other. Three pieces of logic
are modelled, each without the browser and the transport:

- **The board engine** (`src/game.js`, class `Connect4`). Module `Board`
  states the rules as values. `Drop` is what `dropPiece` does and returns,
  and `WinAt` is what `checkWin` answers. Module `Engine` holds the class
  itself: a 6 x 7 `array2` updated in place, plus the player to move and the
  winner. Its methods are proved to compute exactly those functions. The
  lemmas say what the functions mean:
  - which drops are refused;
  - where an accepted piece lands;
  - when a move wins (four in a row through the new piece, along one of
    four axes);
  - which invariants every drop keeps;
  - that a won board stays won.
- **The per-peer turn controller** (`src/main.js`, the `app.state` part).
  Module `Controller` describes one peer as a value, `Peer`, and each
  handler as a function on it. Class `App` drives a real `Connect4` and
  `NetworkManager` and is proved against those functions. The lemmas state:
  - the click guards;
  - the turn discipline (while nobody has won, `isMyTurn` agrees with the
    board's player to move);
  - that two peers stay in agreement while each message is delivered
    before either peer acts again, and announce opposite outcomes when the
    game ends;
  - that a restart crossing a move in flight breaks that agreement
    (`RestartRaceDiverges`).
- **The matchmaking election** (`src/network.js`). Module `Network` holds
  class `NetworkManager`:
  - everything handed to the transport is appended to an outbox, `sent`;
  - each received lobby message is a call of its handler;
  - a handler that would invoke the match-found callback returns that
    callback together with its argument.

  The election compares strings in JavaScript's order (`StrLess`). For two
  different ids exactly one peer becomes host. `Pairing` shows that every
  order of delivery ends with host and guest in the same room, including
  the order in which the accept overtakes an announcement.

JavaScript's `null` is modelled as `0` for `winner` and `myPlayerId`: the
code only ever stores `null`, 1 or 2 in them and only tests them for
truthiness or equality.

The model follows the game as it is written, which is simpler than a
full session protocol would be. It has:
- no surrender, no rematch vote and no quit message;
- no starting player that alternates between games;
- no return to the lobby after a disconnect (the page is reloaded instead).

A restart is unilateral. `requestRestart` sends a restart message and
resets locally at once, and the receiving peer resets as well. Player 1
(the host) always opens.

## Model

| member | source | states |
|---|---|---|
| Board.EmptyGrid | src/game.js:12 | the rebuilt board is 6 x 7 and every cell is 0 |
| Board.LandingRow | src/game.js:20-21 | the row scan finds the lowest empty cell of the column; every cell below it is occupied; no row exists iff the column has no empty cell |
| Board.Place | src/game.js:22 | writing the piece changes that one cell and no other |
| Board.Run | src/game.js:45-56 | one counting loop adds between 0 and 3 |
| Board.RunAtLeast | src/game.js:45-56 | a counting loop counts at least m iff the next m cells on the board hold the player's piece |
| Board.RunIs | src/game.js:45-56 | a loop that matched steps 1..n and then stopped, at the cap, off the board or at a different cell, counted exactly n |
| Board.AxisIffLine | src/game.js:44-57 | for one direction, 1 plus the two runs reaches 4 iff the placed piece is one of four same-player cells in a row on that axis |
| Board.AxisCount | src/game.js:44-57 | the count of one direction lies between 1 and 7, and reaches 4 iff the piece lies on a line of four along that axis |
| Board.WinFrom | src/game.js:43-59 | the direction loop resumed at direction k answers true iff the piece lies on a line of four along one of the remaining directions |
| Board.WinAt | src/game.js:34-60 | `checkWin` answers true iff the placed piece completes four in a row horizontally, vertically or on either diagonal |
| Board.Other | src/game.js:26 | the turn flip maps each player to the other one |
| Board.Drop | src/game.js:17-32 | the board stays 6 x 7; what the drop does is stated by the four lemmas below |
| Board.DropRejects | src/game.js:18-31 | `dropPiece` returns null iff there is a winner, the column is out of range or the column is full; then board, turn and winner are unchanged |
| Board.DropPlaces | src/game.js:20-28 | an accepted drop fills the lowest empty cell of the column with the mover's piece, every cell below it was occupied, no other cell changes, and it returns that cell with the mover |
| Board.DropOutcome | src/game.js:23-27 | after an accepted drop either the move wins (the winner is the mover and the turn stays) or the turn passes to the other player and there is still no winner |
| Board.LegalInitial | src/game.js:11-15 | the reset state keeps the invariant: cells in {0,1,2}, player 1 to move, no winner, no floating pieces |
| Board.DropKeepsLegal | src/game.js:17-32 | every drop keeps cells in {0,1,2}, the turn in {1,2}, the winner in {null,1,2} and gravity (occupied cells run without a gap from the bottom row up) |
| Board.WonStaysWon | src/game.js:18 | once there is a winner, every further drop is refused and the state stays fixed until `reset` |
| Board.Replay | src/game.js:17-32 | a sequence of drops yields one result per column |
| Engine.Connect4.constructor | src/game.js:2-9 | a new object holds a fresh 6 x 7 board in the reset state |
| Engine.Connect4.Reset | src/game.js:11-15 | a fresh board with every cell 0, player 1 to move, no winner |
| Engine.Connect4.DropPiece | src/game.js:17-32 | the in-place drop produces exactly `Drop`'s new state and result, keeps the invariant and keeps the same array |
| Engine.Connect4.CheckWin | src/game.js:34-60 | the direction loop answers exactly `WinAt` on the current board and changes nothing |
| Engine.Connect4.CountAxis | src/game.js:44-56 | the two counting loops of one direction return exactly `AxisCount` (1 plus the run forward plus the run backward, each capped at 3) |
| Engine.TwoBoards | src/game.js:17-32 | two fresh objects given the same columns in the same order end in the same state, the one `Replay` describes, with the same results |
| Network.StrLess | src/network.js:39 | JavaScript's string order: no string is less than itself, and a proper prefix is less than the longer string |
| Network.StrLessTrichotomy | src/network.js:39 | of two different strings exactly one is the greater |
| Network.ElectsHost | src/network.js:39 | a peer is elected host only against a different id |
| Network.ExactlyOneHost | src/network.js:39 | for two different ids exactly one peer takes the host branch; for equal ids neither does |
| Network.NetworkManager.constructor | src/network.js:4-13 | no lobby, no room, not host, no id, no callbacks, nothing sent |
| Network.NetworkManager.JoinLobby | src/network.js:15-20 | the peer is in the lobby with the given matchmaking id; nothing else changes |
| Network.NetworkManager.BroadcastSeeking | src/network.js:26 | exactly one `seeking` request with the own id is sent to the whole lobby |
| Network.NetworkManager.PeerJoinedLobby | src/network.js:28-31 | exactly one `seeking` request with the own id is sent to the peer that joined |
| Network.NetworkManager.GetMatchRequest | src/network.js:33-50 | on `seeking` from a smaller id: one `matchAccept` with the new room id to that peer alone, that room joined as host, the lobby left and `true` reported. On a non-`seeking` message, or one from a greater or equal id: no send and no change |
| Network.NetworkManager.GetMatchAccept | src/network.js:52-57 | the given room is joined as guest, the lobby is left, `false` is reported and nothing is sent |
| Network.NetworkManager.FindMatch | src/network.js:60-63 | the callback becomes the match-found callback and the peer joins the lobby |
| Network.NetworkManager.JoinGameRoom | src/network.js:65-74 | the role and the room id are recorded, which installs the senders |
| Network.NetworkManager.SendMove | src/network.js:89-93 | before a room is joined nothing is sent; afterwards exactly one `{col}` move message |
| Network.NetworkManager.SendRestart | src/network.js:95-99 | before a room is joined nothing is sent; afterwards exactly one `{}` restart message |
| Network.NetworkManager.OnMoveReceived | src/network.js:101-103 | the callback replaces any earlier one |
| Network.NetworkManager.OnRestartReceived | src/network.js:105-107 | the callback replaces any earlier one |
| Network.NetworkManager.OnPeerDisconnect | src/network.js:109-111 | the callback replaces any earlier one |
| Network.Pairing | src/network.js:33-57 | two peers with different ids, announcements delivered in either order and the accept before or after the second announcement: the greater id is host and the other guest, both are in the host's room and out of the lobby, and each callback is told its own role |
| Controller.GameStarted | src/main.js:41-44 | `startGame` puts the peer in the game as player 1 iff it is host, gives the turn to player 1 and leaves the board alone |
| Controller.CellClick | src/main.js:100-110 | a click that sends nothing changes nothing; a click that sends was accepted by the board, leaves its new state, and gives up the turn; the game flag and player id are kept |
| Controller.RemoteMove | src/main.js:112-119 | the board takes the move; this peer gets the turn if the board accepts it, and a refused move changes nothing |
| Controller.GameReset | src/main.js:136-146 | `resetGame` leaves the reset board and the turn with player 1, keeping the game flag and player id |
| Controller.StatusOf | src/main.js:67-84 | `updateStatus` announces a win or a loss exactly when some player has won |
| Controller.CellIndex | src/main.js:124 | `row * cols + col` lies in [0, 42), and the row and column can be read back from it |
| Controller.CellIndexInjective | src/main.js:124 | different cells have different indices |
| Controller.StatusReports | src/main.js:67-84 | a win is announced iff the winner is this peer, a loss iff some other player won (for a seated peer: the other player), and otherwise "your turn" iff `isMyTurn` |
| Controller.ClickGuards | src/main.js:100-110 | the move is sent iff the peer is in a game, it is its turn, nobody has won and the board accepts the drop |
| Controller.RemoteMoveEffect | src/main.js:112-119 | a remote move on a won board changes nothing; afterwards the peer holds the turn iff it held it before or the board accepted the move |
| Controller.StartAgrees | src/main.js:41-44 | starting a game on the untouched board makes `isMyTurn` agree with the board's player to move |
| Controller.ResetAgrees | src/main.js:136-146 | after `resetGame` the turn flag agrees again (`isMyTurn` iff this peer is player 1) |
| Controller.ClickAgrees | src/main.js:100-110 | a local click keeps the board legal and the turn flag in agreement |
| Controller.RemoteAgrees | src/main.js:112-119 | a remote move that arrives while it is not this peer's turn keeps the board legal and the turn flag in agreement |
| Controller.SyncedOneTurn | src/main.js:41-44 | while nobody has won, exactly one of two agreeing peers may move |
| Controller.MatchStartsSynced | src/main.js:41-44 | host and guest starting on untouched boards agree: same board, players 1 and 2, turn flags in agreement |
| Controller.MoveKeepsSynced | src/main.js:100-119 | a click either changes and sends nothing, or sends a move that reaches the other peer on the opponent's turn and leaves both peers agreeing once applied |
| Controller.RestartKeepsSynced | src/main.js:131-146 | a restart reset on both sides leaves the peers agreeing on a fresh game |
| Controller.RestartRaceDiverges | src/main.js:100-146 | the host moves, the guest restarts before the move arrives, then both messages are applied: both peers hold the turn and their boards differ |
| Controller.SyncedOutcome | src/main.js:67-75 | after a win, of two agreeing peers one announces "You Won" and the other "You Lost" |
| Controller.App.constructor | src/main.js:5-21 | a loaded page: fresh board, not in a game, not my turn, no player id, a fresh network object |
| Controller.App.FindMatch | src/main.js:31-39 | the network object joins the lobby with the `startGame` callback registered; its room, role, outbox and other callbacks are unchanged |
| Controller.App.StartGame | src/main.js:41-65 | `inGame`, `myPlayerId` (1 for the host, 2 otherwise) and `isMyTurn := isHost` are set, and the move, restart and disconnect callbacks are registered |
| Controller.App.HandleCellClick | src/main.js:100-110 | the new state is `CellClick`'s; exactly one move message is appended iff the click was accepted and a room is joined |
| Controller.App.HandleRemoteMove | src/main.js:112-119 | the new state is `RemoteMove`'s; nothing is sent |
| Controller.App.RequestRestart | src/main.js:131-134 | one restart message is sent (once a room is joined), then the local game is reset |
| Controller.App.ResetGame | src/main.js:136-146 | a fresh board, and `isMyTurn` iff this peer is player 1 |

## Left out

- The page itself is not modelled. That covers `renderBoard`, the cell colouring in `updateBoardUI`, the status text and colours, and the button visibility in `findMatch`/`startGame`. `updateStatus` is modelled only as the choice it makes (`StatusOf`).
- The disconnect callback's `alert` and `location.reload` are browser side effects. Registering that callback is modelled; what it does is not.
- The peer-to-peer library is not modelled. That covers joining and leaving rooms, creating actions, and delivering messages in some order. Outgoing messages are the `sent` log, and incoming ones are explicit handler calls. The game room's `getMove`/`getRestart`/`onPeerLeave` dispatch to the registered callbacks (src/network.js:76-86) is not modelled. The two-peer agreement lemmas deliver each message before either peer acts again.
- The random ids from `crypto.randomUUID` and the 500 ms timer before the first broadcast are left out. The ids are parameters, and the broadcast is a method called at whatever time the caller chooses.
- `console.log` calls and the stylesheet import are left out.
- Network.StrLess compares characters. JavaScript compares strings by UTF-16 code units, so the two differ only for characters outside the basic plane. The random UUIDs the code generates are plain ASCII.
- Engine.Connect4.CheckWin: the body of the direction loop is the separate method `CountAxis`, not inline code. The behaviour is the same.
- Controller.RemoteAgrees: requires that the remote move arrives on the opponent's turn. `handleRemoteMove` itself applies a move at any time, and a move that arrived on this peer's own turn would be played with this peer's piece. Honest peers never send such a move (`Controller.MoveKeepsSynced`).
- A column number received from the other peer is modelled as an integer. A non-numeric payload is not modelled.
- Controller.RestartKeepsSynced and Controller.MoveKeepsSynced hold only when each message is delivered before either peer acts again. The program itself has no protection against crossing messages. A restart requested while a move is in flight leaves both peers holding the turn on different boards (`Controller.RestartRaceDiverges`). A move crossing a move cannot happen between agreeing peers, since only one of them may move.
- Network.Pairing covers two peers. A third peer in the shared lobby, which could receive announcements from both and be chosen by two hosts, is not modelled.
