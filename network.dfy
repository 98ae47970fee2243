/**
 * The matchmaking and messaging state of `NetworkManager` (src/network.js).
 *
 * The peer-to-peer transport is not modelled: what the object hands to it
 * is appended to the field `sent` (action, payload, addressee), and what
 * it receives arrives as a call of the handler it registered, with the
 * message's fields as parameters. The random identifiers (the matchmaking
 * id and a new room id) are parameters too. A registered callback is an
 * opaque value of type `Cb`; a handler that would invoke one returns it,
 * with its argument, instead.
 */
module Network {
  import opened Wrappers

  // ---------------------------------------------------------------------
  // The order of strings used by the election
  // ---------------------------------------------------------------------

  /** JavaScript's `a < b` on strings: the first differing character
      decides, and a proper prefix comes first. No string is less than
      itself. */
  predicate StrLess(a: string, b: string)
    ensures StrLess(a, b) ==> a != b
    ensures |a| < |b| && a == b[..|a|] ==> StrLess(a, b)
    decreases |a|
  {
    if |a| == 0 then |b| > 0
    else if |b| == 0 then false
    else if a[0] != b[0] then a[0] < b[0]
    else StrLess(a[1..], b[1..])
  }

  /** Of two different strings exactly one is the smaller. */
  lemma {:induction false} StrLessTrichotomy(a: string, b: string)
    requires a != b
    ensures StrLess(a, b) != StrLess(b, a)
    decreases |a|
  {
    if |a| > 0 && |b| > 0 && a[0] == b[0] {
      assert a == [a[0]] + a[1..] && b == [b[0]] + b[1..];
      StrLessTrichotomy(a[1..], b[1..]);
    }
  }

  /** The election rule of the `matchRequest` handler: a peer that receives
      another peer's `seeking` id becomes host iff its own id is greater. */
  predicate ElectsHost(mine: string, theirs: string)
    ensures ElectsHost(mine, theirs) ==> mine != theirs
  {
    StrLess(theirs, mine)
  }

  /** Two peers that see each other's ids: with different ids exactly one of
      them takes the host branch, with equal ids neither does. */
  lemma ExactlyOneHost(a: string, b: string)
    ensures a != b ==> ElectsHost(a, b) != ElectsHost(b, a)
    ensures a == b ==> !ElectsHost(a, b) && !ElectsHost(b, a)
  {
    if a != b {
      StrLessTrichotomy(a, b);
    }
  }

  // ---------------------------------------------------------------------
  // Messages handed to the transport
  // ---------------------------------------------------------------------

  /** The named actions the object creates on its rooms. */
  datatype Action = MatchRequest | MatchAccept | MoveAction | RestartAction

  datatype Payload =
    | Request(kind: string, id: string)   // `{type, id}`
    | Accept(roomId: string)              // `{roomId}`
    | ColPayload(col: int)                // `{col}`
    | NoFields                            // `{}`

  /** Every peer in the room, or one peer. */
  datatype Target = Everyone | ToPeer(peer: string)

  datatype Outgoing = Outgoing(action: Action, payload: Payload, target: Target)

  const Seeking: string := "seeking"

  class NetworkManager<Cb> {
    /** The lobby room has been joined and not yet left. */
    var inLobby: bool
    /** The id of the game room joined, if any; joining it installs the
        move and restart senders. */
    var gameRoom: Option<string>
    var isHost: bool
    var matchmakingId: Option<string>
    var onMatchFound: Option<Cb>
    var onMoveReceived: Option<Cb>
    var onRestartReceived: Option<Cb>
    var onPeerDisconnect: Option<Cb>
    /** Everything handed to the transport, oldest first. */
    var sent: seq<Outgoing>

    ghost predicate Valid()
      reads this
    {
      inLobby ==> matchmakingId.Some?
    }

    constructor()
      ensures Valid() && !inLobby && gameRoom == None && !isHost && matchmakingId == None
      ensures onMatchFound == onMoveReceived == onRestartReceived == onPeerDisconnect == None
      ensures sent == []
    {
      inLobby, gameRoom, isHost, matchmakingId := false, None, false, None;
      onMatchFound, onMoveReceived, onRestartReceived, onPeerDisconnect := None, None, None, None;
      sent := [];
    }

    /** Joins the lobby with the fresh matchmaking id `id`. */
    method JoinLobby(id: string)
      modifies this
      ensures Valid() && inLobby && matchmakingId == Some(id)
      ensures gameRoom == old(gameRoom) && isHost == old(isHost) && sent == old(sent)
      ensures onMatchFound == old(onMatchFound) && onMoveReceived == old(onMoveReceived)
      ensures onRestartReceived == old(onRestartReceived) && onPeerDisconnect == old(onPeerDisconnect)
    {
      inLobby := true;
      matchmakingId := Some(id);
    }

    /** Registers `callback` as the one match-found callback and joins the lobby. */
    method FindMatch(callback: Cb, id: string)
      modifies this
      ensures Valid() && inLobby && matchmakingId == Some(id) && onMatchFound == Some(callback)
      ensures gameRoom == old(gameRoom) && isHost == old(isHost) && sent == old(sent)
      ensures onMoveReceived == old(onMoveReceived)
      ensures onRestartReceived == old(onRestartReceived) && onPeerDisconnect == old(onPeerDisconnect)
    {
      onMatchFound := Some(callback);
      JoinLobby(id);
    }

    /** The delayed first announcement: `seeking` with this peer's id, to everyone in the lobby. */
    method BroadcastSeeking()
      requires matchmakingId.Some?
      modifies this`sent
      ensures sent == old(sent) + [Outgoing(MatchRequest, Request(Seeking, matchmakingId.value), Everyone)]
    {
      sent := sent + [Outgoing(MatchRequest, Request(Seeking, matchmakingId.value), Everyone)];
    }

    /** A peer joined the lobby: it is sent this peer's `seeking` announcement. */
    method PeerJoinedLobby(peer: string)
      requires matchmakingId.Some?
      modifies this`sent
      ensures sent == old(sent) + [Outgoing(MatchRequest, Request(Seeking, matchmakingId.value), ToPeer(peer))]
    {
      sent := sent + [Outgoing(MatchRequest, Request(Seeking, matchmakingId.value), ToPeer(peer))];
    }

    /** Handles a `matchRequest` message `{type: kind, id}` from peer `from`
        while in the lobby. On a `seeking` message from a smaller id this
        peer becomes host: it sends `matchAccept` with the new room id
        `roomId` to that peer alone, joins that room as host, leaves the
        lobby and reports `true` to the match-found callback. Otherwise
        nothing happens. */
    method GetMatchRequest(kind: string, id: string, from: string, roomId: string) returns (report: Option<(Cb, bool)>)
      requires Valid() && inLobby
      modifies this
      ensures Valid()
      ensures onMatchFound == old(onMatchFound) && onMoveReceived == old(onMoveReceived)
      ensures onRestartReceived == old(onRestartReceived) && onPeerDisconnect == old(onPeerDisconnect)
      ensures matchmakingId == old(matchmakingId)
      ensures if kind == Seeking && ElectsHost(old(matchmakingId.value), id) then
          && sent == old(sent) + [Outgoing(MatchAccept, Accept(roomId), ToPeer(from))]
          && gameRoom == Some(roomId) && isHost && !inLobby
          && report == (if onMatchFound.Some? then Some((onMatchFound.value, true)) else None)
        else
          && sent == old(sent) && gameRoom == old(gameRoom) && isHost == old(isHost) && inLobby
          && report == None
    {
      report := None;
      if kind == Seeking {
        if StrLess(id, matchmakingId.value) {
          sent := sent + [Outgoing(MatchAccept, Accept(roomId), ToPeer(from))];
          JoinGameRoom(roomId, true);
          inLobby := false;
          if onMatchFound.Some? {
            report := Some((onMatchFound.value, true));
          }
        }
      }
    }

    /** Handles a `matchAccept` message `{roomId}` while in the lobby: joins
        that room as guest, leaves the lobby and reports `false` to the
        match-found callback. */
    method GetMatchAccept(roomId: string, from: string) returns (report: Option<(Cb, bool)>)
      requires Valid() && inLobby
      modifies this
      ensures Valid()
      ensures gameRoom == Some(roomId) && !isHost && !inLobby && sent == old(sent)
      ensures onMatchFound == old(onMatchFound) && onMoveReceived == old(onMoveReceived)
      ensures onRestartReceived == old(onRestartReceived) && onPeerDisconnect == old(onPeerDisconnect)
      ensures matchmakingId == old(matchmakingId)
      ensures report == (if onMatchFound.Some? then Some((onMatchFound.value, false)) else None)
    {
      JoinGameRoom(roomId, false);
      inLobby := false;
      report := None;
      if onMatchFound.Some? {
        report := Some((onMatchFound.value, false));
      }
    }

    /** Joins the game room `roomId` in the given role, which installs the
        move and restart senders. */
    method JoinGameRoom(roomId: string, host: bool)
      modifies this`isHost, this`gameRoom
      ensures isHost == host && gameRoom == Some(roomId)
    {
      isHost := host;
      gameRoom := Some(roomId);
    }

    /** Sends `{col}` to the game room, or nothing before a room is joined. */
    method SendMove(col: int)
      modifies this`sent
      ensures sent == old(sent) + (if gameRoom.Some? then [Outgoing(MoveAction, ColPayload(col), Everyone)] else [])
    {
      if gameRoom.Some? {
        sent := sent + [Outgoing(MoveAction, ColPayload(col), Everyone)];
      }
    }

    /** Sends `{}` on the restart action, or nothing before a room is joined. */
    method SendRestart()
      modifies this`sent
      ensures sent == old(sent) + (if gameRoom.Some? then [Outgoing(RestartAction, NoFields, Everyone)] else [])
    {
      if gameRoom.Some? {
        sent := sent + [Outgoing(RestartAction, NoFields, Everyone)];
      }
    }

    /** Each `On...` method makes `callback` the one callback of its event,
        replacing any earlier one. */
    method OnMoveReceived(callback: Cb)
      modifies this`onMoveReceived
      ensures onMoveReceived == Some(callback)
    {
      onMoveReceived := Some(callback);
    }

    method OnRestartReceived(callback: Cb)
      modifies this`onRestartReceived
      ensures onRestartReceived == Some(callback)
    {
      onRestartReceived := Some(callback);
    }

    method OnPeerDisconnect(callback: Cb)
      modifies this`onPeerDisconnect
      ensures onPeerDisconnect == Some(callback)
    {
      onPeerDisconnect := Some(callback);
    }
  }

  /** Two peers with different ids look for a match, each announces itself,
      and every message reaches the peer it is addressed to while that peer
      is still in the lobby. `aFirst` says whose announcement arrives first;
      `acceptEarly` lets a host's `matchAccept` overtake the other
      announcement, which then finds the guest out of the lobby. In every
      order the peer with the greater id is host, the other is guest, both
      are in the room the host created, both have left the lobby, and each
      match-found callback is told its peer's role. */
  method Pairing<Cb>(idA: string, idB: string, peerA: string, peerB: string,
                     roomA: string, roomB: string, cbA: Cb, cbB: Cb, aFirst: bool, acceptEarly: bool)
    returns (a: NetworkManager<Cb>, b: NetworkManager<Cb>, reportA: Option<(Cb, bool)>, reportB: Option<(Cb, bool)>)
    requires idA != idB
    ensures a.isHost == ElectsHost(idA, idB) && b.isHost == !a.isHost
    ensures a.gameRoom == b.gameRoom == Some(if a.isHost then roomA else roomB)
    ensures !a.inLobby && !b.inLobby
    ensures reportA == Some((cbA, a.isHost)) && reportB == Some((cbB, b.isHost))
  {
    ExactlyOneHost(idA, idB);
    a := new NetworkManager();
    b := new NetworkManager();
    a.FindMatch(cbA, idA);
    b.FindMatch(cbB, idB);
    a.BroadcastSeeking();
    b.BroadcastSeeking();
    var fromA, fromB := a.sent[|a.sent| - 1].payload, b.sent[|b.sent| - 1].payload;
    reportA, reportB := None, None;
    // the first announcement to arrive
    if aFirst {
      reportB := b.GetMatchRequest(fromA.kind, fromA.id, peerA, roomB);
    } else {
      reportA := a.GetMatchRequest(fromB.kind, fromB.id, peerB, roomA);
    }
    // a host's last message is its `matchAccept`, addressed to the other peer
    if acceptEarly && b.isHost {
      assert b.sent[|b.sent| - 1].target == ToPeer(peerA);
      reportA := a.GetMatchAccept(b.sent[|b.sent| - 1].payload.roomId, peerB);
    } else if acceptEarly && a.isHost {
      assert a.sent[|a.sent| - 1].target == ToPeer(peerB);
      reportB := b.GetMatchAccept(a.sent[|a.sent| - 1].payload.roomId, peerA);
    }
    // the second announcement, unless its addressee has left the lobby
    if aFirst {
      if a.inLobby {
        reportA := a.GetMatchRequest(fromB.kind, fromB.id, peerB, roomA);
      }
    } else {
      if b.inLobby {
        reportB := b.GetMatchRequest(fromA.kind, fromA.id, peerA, roomB);
      }
    }
    // the accept, unless it has arrived already
    if a.isHost && b.inLobby {
      assert a.sent[|a.sent| - 1].target == ToPeer(peerB);
      reportB := b.GetMatchAccept(a.sent[|a.sent| - 1].payload.roomId, peerA);
    } else if b.isHost && a.inLobby {
      assert b.sent[|b.sent| - 1].target == ToPeer(peerA);
      reportA := a.GetMatchAccept(b.sent[|b.sent| - 1].payload.roomId, peerB);
    }
  }
}
