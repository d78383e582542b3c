/** The events the server emits, recorded in an outbox instead of being
    delivered over Socket.IO. */
module Events {
  import opened Types

  /** Who an emission is addressed to: the acting socket (`socket.emit`),
      everyone subscribed to a room (`io.to(roomId).emit`), everyone in the
      room but the sender (`socket.to(roomId).emit`), or every connection
      (`io.emit`). */
  datatype Target = Sender | Room(roomId: string) | RoomExceptSender(roomId: string) | Everyone

  /** The room and game state sent with `playerJoined` and
      `joinedAsSpectator`. */
  datatype Snapshot = Snapshot(
    roomId: string, players: seq<Player>, fen: string, history: seq<string>, status: GameStatus)

  datatype ServerEvent =
    | Session(sessionId: string, userId: string)
    | PlayerNameSet(socketId: string, name: string)
    | RoomCreated(roomId: string, player: Player)
    | PlayerJoined(snapshot: Snapshot)
    | JoinedAsSpectator(snapshot: Snapshot)
    | RoomNotFound
    | PlayerLeft(leftColor: Color, leftName: Option<string>)
    | RoomListUpdate(rooms: map<string, GameRoom>)
    | SidesSwitched(players: seq<Player>)
    | GameStart(white: Option<string>, black: Option<string>)
      /** `room` is present in the `gameState` sent by `startGame` and absent
          in the one `getGameState` replies with. */
    | GameState(room: Option<string>, fen: string, history: seq<string>, status: GameStatus)
    | MoveRelayed(move: string)
    | DrawOffered(offeredBy: string)
    | GameOver(result: GameResult)
    | DrawDeclined

  datatype Emission = Emission(target: Target, event: ServerEvent)

  /** The snapshot sent for the room stored under `roomId`. */
  function SnapshotOf(roomId: string, room: GameRoom): Snapshot {
    Snapshot(roomId, room.players, room.gameFen, room.moveHistory, room.gameStatus)
  }
}
