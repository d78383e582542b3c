/** The socket server of web2server/src/socket/index.ts together with the
    room handlers (roomHandlers.ts) and game handlers (gameHandlers.ts) it
    installs on every connection. Handlers run one at a time to completion,
    so the server is a sequential state machine: one method per event, taking
    the acting user id and the event's payload. */
module SocketServer {
  import opened Types
  import RoomHandlers
  import GameHandlers
  import opened Sessions
  import opened Events

  /** Every stored room is filed under its own id and is well formed, and a
      room outside `thirdSeated` has at most two players on opposite sides. */
  ghost predicate ValidStore(rooms: map<string, GameRoom>, thirdSeated: set<string>) {
    && thirdSeated <= rooms.Keys
    && forall id | id in rooms ::
         && rooms[id].id == id
         && RoomHandlers.WellFormed(rooms[id])
         && (id !in thirdSeated ==> RoomHandlers.TwoSided(rooms[id].players))
  }

  /** Filing a room that meets the invariant under its own id keeps the
      store valid. */
  lemma StoreKeepsValid(rooms: map<string, GameRoom>, thirdSeated: set<string>, id: string, room: GameRoom)
    requires ValidStore(rooms, thirdSeated)
    requires room.id == id && RoomHandlers.WellFormed(room)
    requires id !in thirdSeated ==> RoomHandlers.TwoSided(room.players)
    ensures ValidStore(rooms[id := room], thirdSeated)
  {
  }

  class Server {
    /** The `rooms` record, keyed by room id. */
    var rooms: map<string, GameRoom>
    /** Session id to user id (`sessionStore` of index.ts). */
    var sessionStore: map<string, string>
    /** User id to display name (`playerNames` of index.ts). */
    var playerNames: map<string, string>
    /** Everything emitted so far, in order. */
    var outbox: seq<Emission>
    /** The stored rooms in which a third player has been seated. */
    ghost var thirdSeated: set<string>

    /** Every stored room is filed under its own id and is well formed, and a
        room in which no third player was ever seated has at most two players
        on opposite sides. */
    ghost predicate Valid()
      reads this
    {
      ValidStore(rooms, thirdSeated)
    }

    constructor ()
      ensures Valid()
      ensures rooms == map[] && sessionStore == map[] && playerNames == map[] && outbox == []
    {
      rooms, sessionStore, playerNames, outbox := map[], map[], map[], [];
      thirdSeated := {};
    }

    /** The connection middleware (`io.use`). It only reads the session
        store: a known session id is kept with its stored user id, and any
        other connection gets the freshly minted pair. */
    method Authenticate(supplied: Option<string>, mintedUser: string, mintedSession: string)
      returns (data: SocketData)
      requires mintedSession !in sessionStore && supplied != Some(mintedSession)
      ensures data == Resolve(sessionStore, supplied, mintedUser, mintedSession)
      ensures data.sessionId in sessionStore <==> Known(sessionStore, supplied)
      ensures data.sessionId in sessionStore ==> data.userId == sessionStore[data.sessionId]
      ensures supplied.Some? && !Known(sessionStore, supplied) ==> data.sessionId != supplied.value
    {
      if supplied.Some? && supplied.value != "" {
        if supplied.value in sessionStore {
          data := SocketData(supplied.value, sessionStore[supplied.value]);
          return;
        }
      }
      data := SocketData(mintedSession, mintedUser);
    }

    /** On `connection`: store the session and tell the client its ids. */
    method OnConnection(data: SocketData)
      requires Valid()
      modifies this`sessionStore, this`outbox
      ensures Valid()
      ensures sessionStore == old(sessionStore)[data.sessionId := data.userId]
      ensures outbox == old(outbox) + [Emission(Sender, Session(data.sessionId, data.userId))]
    {
      sessionStore := sessionStore[data.sessionId := data.userId];
      outbox := outbox + [Emission(Sender, Session(data.sessionId, data.userId))];
    }

    /** `getPlayerName`: reply with the stored name only when it is truthy. */
    method GetPlayerName(uid: string, socketId: string)
      modifies this`outbox
      ensures StoredName(playerNames, uid).Some? ==>
        outbox == old(outbox) + [Emission(Sender, PlayerNameSet(socketId, playerNames[uid]))]
      ensures StoredName(playerNames, uid).None? ==> outbox == old(outbox)
    {
      if uid in playerNames && playerNames[uid] != "" {
        outbox := outbox + [Emission(Sender, PlayerNameSet(socketId, playerNames[uid]))];
      }
    }

    /** `setPlayerName`: overwrite the name stored for the user id (not for
        the socket) and echo it back. */
    method SetPlayerName(uid: string, socketId: string, name: string)
      requires Valid()
      modifies this`playerNames, this`outbox
      ensures Valid()
      ensures playerNames == old(playerNames)[uid := name]
      ensures outbox == old(outbox) + [Emission(Sender, PlayerNameSet(socketId, name))]
    {
      playerNames := playerNames[uid := name];
      outbox := outbox + [Emission(Sender, PlayerNameSet(socketId, name))];
    }

    /** `createRoom`: store one new room, under the minted id, with the
        creator alone as white; every other room is left as it was. */
    method CreateRoom(uid: string, roomName: string, mintedRoomId: string)
      requires Valid() && mintedRoomId !in rooms
      modifies this`rooms, this`outbox
      ensures Valid()
      ensures rooms.Keys == old(rooms).Keys + {mintedRoomId}
      ensures forall id | id in old(rooms) :: rooms[id] == old(rooms)[id]
      ensures var creator := Player(uid, if uid in playerNames then Some(playerNames[uid]) else None, White);
        && rooms[mintedRoomId] == GameRoom(mintedRoomId, roomName, [creator], false, RoomHandlers.InitialFen, [], Waiting)
        && outbox == old(outbox) + [Emission(Sender, RoomCreated(mintedRoomId, creator)),
                                    Emission(Everyone, RoomListUpdate(rooms))]
    {
      var name := if uid in playerNames then Some(playerNames[uid]) else None;
      var player := Player(uid, name, White);
      rooms := rooms[mintedRoomId := RoomHandlers.NewRoom(mintedRoomId, roomName, uid, name)];
      outbox := outbox + [Emission(Sender, RoomCreated(mintedRoomId, player))];
      outbox := outbox + [Emission(Everyone, RoomListUpdate(rooms))];
    }

    /** `joinRoom`: rejoin, take a seat, or watch; an unknown room id only
        gets a `roomNotFound` reply. A newcomer's name is recorded in the name
        table, a rejoining player's is not. */
    method JoinRoom(uid: string, roomId: string, playerName: string)
      requires Valid()
      modifies this`rooms, this`playerNames, this`outbox, this`thirdSeated
      ensures Valid()
      ensures thirdSeated ==
        old(thirdSeated)
        + (if roomId in old(rooms) && |RoomHandlers.Join(old(rooms)[roomId], uid, playerName).0.players| == 3
           then {roomId} else {})
      ensures roomId !in old(rooms) ==>
        && rooms == old(rooms) && playerNames == old(playerNames)
        && outbox == old(outbox) + [Emission(Sender, RoomNotFound)]
      ensures roomId in old(rooms) ==>
        var (room, kind) := RoomHandlers.Join(old(rooms)[roomId], uid, playerName);
        && rooms == old(rooms)[roomId := room]
        && playerNames == (if kind == RoomHandlers.Rejoined then old(playerNames) else old(playerNames)[uid := playerName])
        && outbox == old(outbox) + [
             Emission(Room(roomId),
               if kind == RoomHandlers.Spectating then JoinedAsSpectator(SnapshotOf(roomId, room))
               else PlayerJoined(SnapshotOf(roomId, room))),
             Emission(Everyone, RoomListUpdate(rooms))]
    {
      if roomId in rooms {
        var room := rooms[roomId];
        ghost var joined := RoomHandlers.Join(room, uid, playerName);
        RoomHandlers.JoinKeepsShape(room, uid, playerName);
        var kind;
        var k := RoomHandlers.IndexOf(room.players, uid);
        if k != -1 {
          room := room.(players := room.players[k := room.players[k].(name := Some(playerName))]);
          kind := RoomHandlers.Rejoined;
          assert (room, kind) == joined;
        } else if |room.players| < 3 {
          var color := if room.players[0].color == White then Black else White;
          room := room.(players := room.players + [Player(uid, Some(playerName), color)]);
          kind := RoomHandlers.Seated;
          assert (room, kind) == joined;
        } else {
          kind := RoomHandlers.Spectating;
          assert (room, kind) == joined;
        }
        if kind != RoomHandlers.Rejoined {
          playerNames := playerNames[uid := playerName];
        }
        if |room.players| == 3 {
          thirdSeated := thirdSeated + {roomId};
        }
        StoreKeepsValid(rooms, thirdSeated, roomId, room);
        rooms := rooms[roomId := room];
        var notice := if kind == RoomHandlers.Spectating then JoinedAsSpectator(SnapshotOf(roomId, room))
                      else PlayerJoined(SnapshotOf(roomId, room));
        outbox := outbox + [Emission(Room(roomId), notice), Emission(Everyone, RoomListUpdate(rooms))];
      } else {
        outbox := outbox + [Emission(Sender, RoomNotFound)];
      }
    }

    /** `leaveRoom`: splice out the leaver's entry, announcing it if there
        was one; delete the room once nobody is seated, otherwise clear
        `gameStarted`. An unknown room id changes nothing. */
    method LeaveRoom(uid: string, roomId: string)
      requires Valid()
      modifies this`rooms, this`outbox, this`thirdSeated
      ensures Valid()
      ensures thirdSeated ==
        (if roomId in old(rooms) && roomId !in rooms then old(thirdSeated) - {roomId} else old(thirdSeated))
      ensures roomId !in old(rooms) ==> rooms == old(rooms) && outbox == old(outbox)
      ensures roomId in old(rooms) ==>
        var out := RoomHandlers.Leave(old(rooms)[roomId], uid);
        && rooms == (if out.room.None? then old(rooms) - {roomId} else old(rooms)[roomId := out.room.value])
        && outbox == old(outbox)
             + (if out.leaver.Some? then [Emission(Room(roomId), PlayerLeft(out.leaver.value.color, out.leaver.value.name))] else [])
             + [Emission(Everyone, RoomListUpdate(rooms))]
    {
      if roomId in rooms {
        var room := rooms[roomId];
        var k := RoomHandlers.IndexOf(room.players, uid);
        if k != -1 {
          var player := room.players[k];
          room := room.(players := room.players[..k] + room.players[k + 1..]);
          outbox := outbox + [Emission(Room(roomId), PlayerLeft(player.color, player.name))];
        }
        assert room.players == RoomHandlers.Remaining(old(rooms)[roomId].players, uid);
        if |room.players| == 0 {
          rooms := rooms - {roomId};
          thirdSeated := thirdSeated - {roomId};
        } else {
          room := room.(gameStarted := false);
          if roomId !in thirdSeated {
            RoomHandlers.RemainingKeepsAlternating(old(rooms)[roomId].players, uid);
          }
          StoreKeepsValid(rooms, thirdSeated, roomId, room);
          rooms := rooms[roomId := room];
        }
        outbox := outbox + [Emission(Everyone, RoomListUpdate(rooms))];
      }
    }

    /** `switchSides`: the two players of an eligible room trade colours;
        any other request changes nothing. */
    method SwitchSides(uid: string, roomId: string)
      requires Valid()
      modifies this`rooms, this`outbox
      ensures Valid()
      ensures roomId in old(rooms) && RoomHandlers.Eligible(old(rooms)[roomId]) ==>
        && rooms == old(rooms)[roomId := RoomHandlers.SwitchSides(old(rooms)[roomId])]
        && outbox == old(outbox) + [Emission(Room(roomId), SidesSwitched(rooms[roomId].players))]
      ensures !(roomId in old(rooms) && RoomHandlers.Eligible(old(rooms)[roomId])) ==>
        rooms == old(rooms) && outbox == old(outbox)
    {
      if roomId in rooms && |rooms[roomId].players| == 2 && !rooms[roomId].gameStarted {
        var room := rooms[roomId];
        var p0, p1 := room.players[0], room.players[1];
        room := room.(players := [p0.(color := p1.color), p1.(color := p0.color)]);
        rooms := rooms[roomId := room];
        outbox := outbox + [Emission(Room(roomId), SidesSwitched(room.players))];
      }
    }

    /** `startGame`: an eligible room becomes started and playing, then the
        start is announced with the two players' names and the game state;
        if no white or no black player is seated the announcement throws and
        nothing is emitted. Any other request changes nothing. */
    method StartGame(uid: string, roomId: string)
      requires Valid()
      modifies this`rooms, this`outbox
      ensures Valid()
      ensures roomId in old(rooms) && RoomHandlers.Start(old(rooms)[roomId]).Started? ==>
        var out := RoomHandlers.Start(old(rooms)[roomId]);
        && rooms == old(rooms)[roomId := out.room]
        && outbox == old(outbox) +
             (if out.notice.None? then []
              else [Emission(Room(roomId), GameStart(out.notice.value.white, out.notice.value.black)),
                    Emission(Room(roomId), GameState(Some(roomId), out.room.gameFen, out.room.moveHistory, Playing))])
      ensures !(roomId in old(rooms) && RoomHandlers.Start(old(rooms)[roomId]).Started?) ==>
        rooms == old(rooms) && outbox == old(outbox)
    {
      if roomId in rooms && |rooms[roomId].players| == 2 && !rooms[roomId].gameStarted {
        var room := rooms[roomId];
        room := room.(gameStarted := true);
        room := room.(gameStatus := Playing);
        StoreKeepsValid(rooms, thirdSeated, roomId, room);
        rooms := rooms[roomId := room];
        var white := RoomHandlers.FindByColor(room.players, White);
        var black := RoomHandlers.FindByColor(room.players, Black);
        if white.Some? && black.Some? {
          outbox := outbox + [Emission(Room(roomId), GameStart(white.value.name, black.value.name))];
          outbox := outbox + [Emission(Room(roomId), GameState(Some(roomId), room.gameFen, room.moveHistory, room.gameStatus))];
        }
      }
    }

    /** `getRoomList`: reply with every stored room. */
    method GetRoomList(uid: string)
      modifies this`outbox
      ensures outbox == old(outbox) + [Emission(Sender, RoomListUpdate(rooms))]
    {
      outbox := outbox + [Emission(Sender, RoomListUpdate(rooms))];
    }

    /** `move`: record the move in an existing room and relay it to the
        room; an unknown room id changes nothing. */
    method Move(uid: string, roomId: string, move: string)
      requires Valid()
      modifies this`rooms, this`outbox
      ensures Valid()
      ensures roomId in old(rooms) ==>
        && rooms == old(rooms)[roomId := GameHandlers.Moved(old(rooms)[roomId], move)]
        && outbox == old(outbox) + [Emission(Room(roomId), MoveRelayed(move))]
      ensures roomId !in old(rooms) ==> rooms == old(rooms) && outbox == old(outbox)
    {
      if roomId in rooms {
        var room := rooms[roomId];
        room := room.(gameStarted := true);
        room := room.(moveHistory := room.moveHistory + [move]);
        rooms := rooms[roomId := room];
        outbox := outbox + [Emission(Room(roomId), MoveRelayed(move))];
      }
    }

    /** `offerDraw`: relay the offer to the room; no room is read or changed. */
    method OfferDraw(uid: string, roomId: string, color: string)
      modifies this`outbox
      ensures outbox == old(outbox) + [Emission(Room(roomId), DrawOffered(color))]
    {
      outbox := outbox + [Emission(Room(roomId), DrawOffered(color))];
    }

    /** `acceptDraw`: end the game in an existing room and announce a draw. */
    method AcceptDraw(uid: string, roomId: string)
      requires Valid()
      modifies this`rooms, this`outbox
      ensures Valid()
      ensures roomId in old(rooms) ==>
        && rooms == old(rooms)[roomId := GameHandlers.EndGame(old(rooms)[roomId])]
        && outbox == old(outbox) + [Emission(Room(roomId), ServerEvent.GameOver(GameResult(Draw, DrawAgreed)))]
      ensures roomId !in old(rooms) ==> rooms == old(rooms) && outbox == old(outbox)
    {
      if roomId in rooms {
        var room := rooms[roomId];
        room := room.(gameStatus := Ended);
        rooms := rooms[roomId := room];
        outbox := outbox + [Emission(Room(roomId), ServerEvent.GameOver(GameHandlers.AgreedDraw))];
      }
    }

    /** `declineDraw`: tell the rest of the room; no room is read or changed. */
    method DeclineDraw(uid: string, roomId: string)
      modifies this`outbox
      ensures outbox == old(outbox) + [Emission(RoomExceptSender(roomId), DrawDeclined)]
    {
      outbox := outbox + [Emission(RoomExceptSender(roomId), DrawDeclined)];
    }

    /** `gameOver`: end the game in an existing room and relay the
        client-supplied result unchanged. */
    method GameOver(uid: string, roomId: string, result: GameResult)
      requires Valid()
      modifies this`rooms, this`outbox
      ensures Valid()
      ensures roomId in old(rooms) ==>
        && rooms == old(rooms)[roomId := GameHandlers.EndGame(old(rooms)[roomId])]
        && outbox == old(outbox) + [Emission(Room(roomId), ServerEvent.GameOver(result))]
      ensures roomId !in old(rooms) ==> rooms == old(rooms) && outbox == old(outbox)
    {
      if roomId in rooms {
        var room := rooms[roomId];
        room := room.(gameStatus := Ended);
        rooms := rooms[roomId := room];
        outbox := outbox + [Emission(Room(roomId), ServerEvent.GameOver(result))];
      }
    }

    /** `getGameState`: reply with an existing room's position, history and
        status; nothing changes. */
    method GetGameState(uid: string, roomId: string)
      modifies this`outbox
      ensures roomId in rooms ==>
        outbox == old(outbox) + [Emission(Sender, GameState(None, rooms[roomId].gameFen, rooms[roomId].moveHistory, rooms[roomId].gameStatus))]
      ensures roomId !in rooms ==> outbox == old(outbox)
    {
      if roomId in rooms {
        var room := rooms[roomId];
        outbox := outbox + [Emission(Sender, GameState(None, room.gameFen, room.moveHistory, room.gameStatus))];
      }
    }
  }
}
