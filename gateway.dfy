/** The standalone connection layer: the middleware of
    web2server/src/socket/middleware.ts, which owns its own `sessionStore`,
    and the connection handlers of web2server/src/socket/connectionHandlers.ts,
    which register sessions in that store and keep a module-local
    `playerNames` table of their own, separate from the one in index.ts. */
module Gateway {
  import opened Types
  import opened Sessions
  import opened Events

  class Gateway {
    /** `sessionStore` exported by middleware.ts. */
    var sessionStore: map<string, string>
    /** The module-local `playerNames` of connectionHandlers.ts. */
    var playerNames: map<string, string>
    var outbox: seq<Emission>

    constructor ()
      ensures sessionStore == map[] && playerNames == map[] && outbox == []
    {
      sessionStore, playerNames, outbox := map[], map[], [];
    }

    /** The middleware: it only reads the store. A known session id keeps its
        stored user id; an absent or unknown one is replaced by the minted
        session id, never reused. */
    method Authenticate(supplied: Option<string>, mintedUser: string, mintedSession: string)
      returns (data: SocketData)
      requires mintedSession !in sessionStore && supplied != Some(mintedSession)
      ensures data == Resolve(sessionStore, supplied, mintedUser, mintedSession)
      ensures data.sessionId in sessionStore <==> Known(sessionStore, supplied)
      ensures supplied.Some? && !Known(sessionStore, supplied) ==> data.sessionId != supplied.value
    {
      if supplied.Some? && supplied.value != "" {
        if supplied.value in sessionStore {
          data := SocketData(supplied.value, sessionStore[supplied.value]);
          return;
        }
      }
      data := SocketData(mintedSession, mintedUser);
    }

    /** `configureConnectionHandlers` runs on each connection: store the
        session and emit `session` with exactly the socket's ids. */
    method Register(data: SocketData)
      modifies this`sessionStore, this`outbox
      ensures sessionStore == old(sessionStore)[data.sessionId := data.userId]
      ensures outbox == old(outbox) + [Emission(Sender, Session(data.sessionId, data.userId))]
    {
      sessionStore := sessionStore[data.sessionId := data.userId];
      outbox := outbox + [Emission(Sender, Session(data.sessionId, data.userId))];
    }

    /** `getPlayerName`: emit only if a truthy name is stored, and then
        exactly that name. */
    method GetPlayerName(uid: string, socketId: string)
      modifies this`outbox
      ensures StoredName(playerNames, uid).Some? ==>
        outbox == old(outbox) + [Emission(Sender, PlayerNameSet(socketId, playerNames[uid]))]
      ensures StoredName(playerNames, uid).None? ==> outbox == old(outbox)
    {
      var stored := StoredName(playerNames, uid);
      if stored.Some? {
        outbox := outbox + [Emission(Sender, PlayerNameSet(socketId, stored.value))];
      }
    }

    /** `setPlayerName`: overwrite this table's entry for the user id and echo
        the name. */
    method SetPlayerName(uid: string, socketId: string, name: string)
      modifies this`playerNames, this`outbox
      ensures playerNames == old(playerNames)[uid := name]
      ensures outbox == old(outbox) + [Emission(Sender, PlayerNameSet(socketId, name))]
    {
      playerNames := playerNames[uid := name];
      outbox := outbox + [Emission(Sender, PlayerNameSet(socketId, name))];
    }
  }
}
