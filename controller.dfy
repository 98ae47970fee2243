/**
 * The turn controller of src/main.js: the fields of `app.state` (`inGame`,
 * `isMyTurn`, `myPlayerId`), the handlers that change them, and the pure
 * parts of the display logic (which outcome `updateStatus` announces and
 * the cell index of `updateBoardUI`). Everything that touches the page is
 * left out.
 *
 * `Peer` is one participant's view as a value: its board state and its
 * `app.state`. The functions on it say what each handler does; class `App`
 * holds the real objects and is proved against them; the lemmas state the
 * turn discipline of one peer and the agreement of two peers that relay
 * their moves to each other.
 */
module Controller {
  import opened Wrappers
  import opened Board
  import opened Engine
  import opened Network

  /** The callbacks main.js registers with the network object. */
  datatype Callback = StartGameOnMatch | ApplyRemoteMove | ResetOnRestart | ReloadOnDisconnect

  /** One peer: its board state and `app.state`; `myPlayerId` 0 stands for `null`. */
  datatype Peer = Peer(game: Game, inGame: bool, isMyTurn: bool, myPlayerId: int)

  /** The state of a page just loaded. */
  function Loaded(): Peer {
    Peer(Initial(), false, false, 0)
  }

  /** `startGame(isHost)`: the host is player 1, the other peer player 2,
      and player 1 moves first; the board is left as it is. */
  function GameStarted(p: Peer, isHost: bool): (q: Peer)
    ensures q.inGame && q.game == p.game
    ensures q.myPlayerId in {1, 2} && (q.myPlayerId == 1 <==> isHost)
    ensures q.isMyTurn <==> q.myPlayerId == 1
  {
    p.(inGame := true, myPlayerId := if isHost then 1 else 2, isMyTurn := isHost)
  }

  /** `handleCellClick(col)`: the new state, and whether the move is sent
      to the other peer. A click that is not sent changes nothing; one that
      is sent was accepted by the board and gives up the turn. */
  function CellClick(p: Peer, col: int): (r: (Peer, bool))
    requires Shaped(p.game.cells)
    ensures r.0.inGame == p.inGame && r.0.myPlayerId == p.myPlayerId
    ensures !r.1 ==> r.0 == p
    ensures r.1 ==> Drop(p.game, col).1.Some? && r.0.game == Drop(p.game, col).0 && !r.0.isMyTurn
  {
    DropRejects(p.game, col);
    if !p.inGame || !p.isMyTurn || p.game.winner != 0 then (p, false)
    else
      var (g, placed) := Drop(p.game, col);
      if placed.Some? then (p.(game := g, isMyTurn := false), true)
      else (p.(game := g), false)
  }

  /** `handleRemoteMove(col)`: the other peer's move is applied to the
      board; this peer gets the turn iff the board accepts it, and a refused
      move changes nothing. */
  function RemoteMove(p: Peer, col: int): (q: Peer)
    requires Shaped(p.game.cells)
    ensures q.inGame == p.inGame && q.myPlayerId == p.myPlayerId && q.game == Drop(p.game, col).0
    ensures Drop(p.game, col).1.Some? ==> q.isMyTurn
    ensures Drop(p.game, col).1.None? ==> q == p
  {
    DropRejects(p.game, col);
    var (g, placed) := Drop(p.game, col);
    if placed.Some? then p.(game := g, isMyTurn := true) else p.(game := g)
  }

  /** `resetGame()`: an empty board, and the turn with player 1; the game
      and the player id are kept. */
  function GameReset(p: Peer): (q: Peer)
    ensures q.game == Initial() && q.inGame == p.inGame && q.myPlayerId == p.myPlayerId
    ensures q.isMyTurn <==> q.myPlayerId == 1
  {
    p.(game := Initial(), isMyTurn := p.myPlayerId == 1)
  }

  /** What `updateStatus` announces. */
  datatype Status = YouWon | YouLost | YourTurn | OpponentsTurn

  /** A win or a loss is announced exactly when some player has won. */
  function StatusOf(p: Peer): (st: Status)
    ensures st in {YouWon, YouLost} <==> p.game.winner != 0
  {
    if p.game.winner != 0 then
      if p.game.winner == p.myPlayerId then YouWon else YouLost
    else if p.isMyTurn then YourTurn else OpponentsTurn
  }

  /** `updateStatus` announces a win iff some player has won and it is this
      peer, and a loss iff some player has won and it is not; for a peer in
      a game, the loss is exactly the other player's win. */
  lemma StatusReports(p: Peer)
    ensures StatusOf(p) == YouWon <==> p.game.winner != 0 && p.game.winner == p.myPlayerId
    ensures StatusOf(p) == YouLost <==> p.game.winner != 0 && p.game.winner != p.myPlayerId
    ensures Seated(p) ==> (StatusOf(p) == YouLost <==> p.game.winner == Other(p.myPlayerId))
    ensures p.game.winner == 0 ==> (StatusOf(p) == YourTurn <==> p.isMyTurn)
  {
  }

  /** The position, in the row-by-row list of cells on the page, of the cell
      `updateBoardUI` colours: in range, and from it the row and the column
      can be read back, so distinct cells have distinct positions. */
  function CellIndex(row: int, col: int): (i: int)
    requires InBounds(row, col)
    ensures 0 <= i < Rows * Cols
    ensures i / Cols == row && i % Cols == col
  {
    row * Cols + col
  }

  lemma CellIndexInjective(r1: int, c1: int, r2: int, c2: int)
    requires InBounds(r1, c1) && InBounds(r2, c2)
    ensures CellIndex(r1, c1) == CellIndex(r2, c2) <==> r1 == r2 && c1 == c2
  {
    if CellIndex(r1, c1) == CellIndex(r2, c2) {
      assert r1 == CellIndex(r1, c1) / Cols == CellIndex(r2, c2) / Cols == r2;
    }
  }

  // ---------------------------------------------------------------------
  // One peer
  // ---------------------------------------------------------------------

  /** While nobody has won, `isMyTurn` says whether the board's player to
      move is this peer. */
  ghost predicate TurnAgrees(p: Peer) {
    p.game.winner == 0 ==> (p.isMyTurn <==> p.game.current == p.myPlayerId)
  }

  /** A peer in a game: a legal board and a player id of 1 or 2. */
  ghost predicate Seated(p: Peer) {
    Legal(p.game) && p.myPlayerId in {1, 2}
  }

  /** A click is ignored outside a game, out of turn and after a win; inside
      those guards the move is sent exactly when the board accepts it. */
  lemma ClickGuards(p: Peer, col: int)
    requires Shaped(p.game.cells)
    ensures CellClick(p, col).1 <==> p.inGame && p.isMyTurn && p.game.winner == 0 && Drop(p.game, col).1.Some?
  {
  }

  /** A remote move on a board already won is ignored; otherwise this peer
      holds the turn afterwards iff it held it before or the board accepted
      the move. */
  lemma RemoteMoveEffect(p: Peer, col: int)
    requires Shaped(p.game.cells)
    ensures p.game.winner != 0 ==> RemoteMove(p, col) == p
    ensures RemoteMove(p, col).isMyTurn <==> p.isMyTurn || Drop(p.game, col).1.Some?
  {
    DropRejects(p.game, col);
  }

  /** Starting a game on the untouched board makes the turn flag agree. */
  lemma StartAgrees(p: Peer, isHost: bool)
    requires p.game == Initial()
    ensures Seated(GameStarted(p, isHost)) && TurnAgrees(GameStarted(p, isHost))
  {
    LegalInitial();
  }

  /** Resetting makes the turn flag agree again. */
  lemma ResetAgrees(p: Peer)
    requires p.myPlayerId in {1, 2}
    ensures Seated(GameReset(p)) && TurnAgrees(GameReset(p))
  {
    LegalInitial();
  }

  /** A local click keeps the turn flag in agreement. */
  lemma ClickAgrees(p: Peer, col: int)
    requires Seated(p) && TurnAgrees(p)
    ensures Seated(CellClick(p, col).0) && TurnAgrees(CellClick(p, col).0)
  {
    ClickGuards(p, col);
    DropKeepsLegal(p.game, col);
    if CellClick(p, col).1 {
      DropOutcome(p.game, col);
    }
  }

  /** A remote move keeps the turn flag in agreement, provided it arrives
      while it is not this peer's turn. */
  lemma RemoteAgrees(p: Peer, col: int)
    requires Seated(p) && TurnAgrees(p) && !p.isMyTurn
    ensures Seated(RemoteMove(p, col)) && TurnAgrees(RemoteMove(p, col))
  {
    RemoteMoveEffect(p, col);
    DropKeepsLegal(p.game, col);
    if Drop(p.game, col).1.Some? {
      DropOutcome(p.game, col);
    }
  }

  // ---------------------------------------------------------------------
  // Two peers
  // ---------------------------------------------------------------------

  /** Two peers of one game agree: the same board, both in the game, one is
      player 1 and the other player 2, and each one's turn flag agrees with
      the board. */
  ghost predicate Synced(a: Peer, b: Peer) {
    && a.game == b.game
    && a.inGame && b.inGame
    && Seated(a) && Seated(b) && b.myPlayerId == Other(a.myPlayerId)
    && TurnAgrees(a) && TurnAgrees(b)
  }

  /** While nobody has won, exactly one of two agreeing peers may move. */
  lemma SyncedOneTurn(a: Peer, b: Peer)
    requires Synced(a, b) && a.game.winner == 0
    ensures a.isMyTurn != b.isMyTurn
  {
  }

  /** Host and guest who start on untouched boards agree. */
  lemma MatchStartsSynced(host: Peer, guest: Peer)
    requires host.game == Initial() && guest.game == Initial()
    ensures Synced(GameStarted(host, true), GameStarted(guest, false))
  {
    StartAgrees(host, true);
    StartAgrees(guest, false);
  }

  /** A click by one of two agreeing peers either changes nothing and sends
      nothing, or sends the move; the move then reaches the other peer while
      it is not that peer's turn, and once applied there the two agree again. */
  lemma MoveKeepsSynced(a: Peer, b: Peer, col: int)
    requires Synced(a, b)
    ensures var (a', sent) := CellClick(a, col);
      && (!sent ==> a' == a)
      && (sent ==> !b.isMyTurn && Synced(a', RemoteMove(b, col)))
  {
    ClickGuards(a, col);
    ClickAgrees(a, col);
    if CellClick(a, col).1 {
      SyncedOneTurn(a, b);
      RemoteAgrees(b, col);
    }
  }

  /** A restart requested by one of two agreeing peers, once received by the
      other, leaves them agreeing on a fresh game. */
  lemma RestartKeepsSynced(a: Peer, b: Peer)
    requires Synced(a, b)
    ensures Synced(GameReset(a), GameReset(b))
  {
    ResetAgrees(a);
    ResetAgrees(b);
  }

  /** The agreement above needs each message to arrive before either peer
      acts again. A restart that crosses a move breaks it: the host moves in
      column 3, the guest restarts before that move arrives, then the move
      reaches the guest's fresh board and the restart resets the host. Both
      peers then hold the turn, on different boards. */
  lemma RestartRaceDiverges()
    ensures var host, guest := GameStarted(Loaded(), true), GameStarted(Loaded(), false);
      var (host1, sent) := CellClick(host, 3);
      var guest1 := GameReset(guest);
      var guest2 := RemoteMove(guest1, 3);
      var host2 := GameReset(host1);
      && sent && host2.isMyTurn && guest2.isMyTurn && host2.game != guest2.game
  {
    LegalInitial();
    DropPlaces(Initial(), 3);
  }

  /** After a win, of two agreeing peers one announces a win and the other a loss. */
  lemma SyncedOutcome(a: Peer, b: Peer)
    requires Synced(a, b) && a.game.winner != 0
    ensures StatusOf(a) in {YouWon, YouLost} && StatusOf(b) in {YouWon, YouLost}
    ensures StatusOf(a) == YouWon <==> StatusOf(b) == YouLost
  {
  }

  // ---------------------------------------------------------------------
  // The objects
  // ---------------------------------------------------------------------

  /** `app` with the `game` and `network` objects it drives. */
  class App {
    const game: Connect4
    const network: NetworkManager<Callback>
    var inGame: bool
    var isMyTurn: bool
    var myPlayerId: int

    ghost predicate Valid()
      reads this, game, game.board
    {
      game.Valid()
    }

    ghost function View(): Peer
      reads this, game
    {
      Peer(game.State(), inGame, isMyTurn, myPlayerId)
    }

    constructor()
      ensures Valid() && View() == Loaded()
      ensures fresh(game) && fresh(game.board) && fresh(network)
      ensures network.Valid() && !network.inLobby && network.gameRoom == None && network.sent == []
      ensures network.onMatchFound == network.onMoveReceived == network.onRestartReceived == network.onPeerDisconnect == None
    {
      game := new Connect4();
      network := new NetworkManager();
      inGame, isMyTurn, myPlayerId := false, false, 0;
    }

    /** `findMatch()`: asks the network object for a match, to be told
        through the `startGame` callback. */
    method FindMatch(id: string)
      modifies network
      ensures network.Valid() && network.inLobby && network.matchmakingId == Some(id)
      ensures network.onMatchFound == Some(StartGameOnMatch)
      ensures network.gameRoom == old(network.gameRoom) && network.isHost == old(network.isHost)
      ensures network.sent == old(network.sent)
      ensures network.onMoveReceived == old(network.onMoveReceived)
      ensures network.onRestartReceived == old(network.onRestartReceived)
      ensures network.onPeerDisconnect == old(network.onPeerDisconnect)
    {
      network.FindMatch(StartGameOnMatch, id);
    }

    method StartGame(isHost: bool)
      modifies this, network`onMoveReceived, network`onRestartReceived, network`onPeerDisconnect
      ensures View() == GameStarted(old(View()), isHost)
      ensures network.onMoveReceived == Some(ApplyRemoteMove)
      ensures network.onRestartReceived == Some(ResetOnRestart)
      ensures network.onPeerDisconnect == Some(ReloadOnDisconnect)
    {
      inGame := true;
      myPlayerId := if isHost then 1 else 2;
      isMyTurn := isHost;
      network.OnMoveReceived(ApplyRemoteMove);
      network.OnRestartReceived(ResetOnRestart);
      network.OnPeerDisconnect(ReloadOnDisconnect);
    }

    method HandleCellClick(col: int)
      requires Valid()
      modifies this, game, game.board, network`sent
      ensures Valid() && game.board == old(game.board)
      ensures View() == CellClick(old(View()), col).0
      ensures network.sent == old(network.sent) +
        (if CellClick(old(View()), col).1 && network.gameRoom.Some? then [Outgoing(MoveAction, ColPayload(col), Everyone)] else [])
    {
      if !inGame || !isMyTurn || game.winner != 0 {
        return;
      }
      var result := game.DropPiece(col);
      if result.Some? {
        network.SendMove(col);
        isMyTurn := false;
      }
    }

    method HandleRemoteMove(col: int)
      requires Valid()
      modifies this, game, game.board
      ensures Valid() && game.board == old(game.board)
      ensures View() == RemoteMove(old(View()), col)
    {
      var result := game.DropPiece(col);
      if result.Some? {
        isMyTurn := true;
      }
    }

    /** `requestRestart()`: tells the other peer, then resets locally. */
    method RequestRestart()
      modifies this, game, network`sent
      ensures Valid() && fresh(game.board)
      ensures View() == GameReset(old(View()))
      ensures network.sent == old(network.sent) +
        (if network.gameRoom.Some? then [Outgoing(RestartAction, NoFields, Everyone)] else [])
    {
      network.SendRestart();
      ResetGame();
    }

    method ResetGame()
      modifies this, game
      ensures Valid() && fresh(game.board)
      ensures View() == GameReset(old(View()))
    {
      game.Reset();
      isMyTurn := myPlayerId == 1;
    }
  }
}
