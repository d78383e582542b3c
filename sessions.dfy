/** Session resolution and the name table. The connection middleware is the
    same code in web2server/src/socket/index.ts and in
    web2server/src/socket/middleware.ts, each over its own session store; the
    name lookups are the same in index.ts and connectionHandlers.ts, each over
    its own name table. */
module Sessions {
  import opened Types

  /** What the middleware writes to `socket.data`. */
  datatype SocketData = SocketData(sessionId: string, userId: string)

  /** JavaScript truthiness of an optional string: present and non-empty. */
  predicate Truthy(s: Option<string>) {
    s.Some? && s.value != ""
  }

  /** The handshake's session id is truthy and names a stored session. */
  predicate Known(store: map<string, string>, supplied: Option<string>) {
    Truthy(supplied) && supplied.value in store
  }

  /** The middleware: a known session id keeps its stored user id; anything
      else (absent, empty or unknown) gets the freshly minted user id and
      session id, minted in that order. */
  function Resolve(store: map<string, string>, supplied: Option<string>,
                   mintedUser: string, mintedSession: string): (d: SocketData)
    ensures Known(store, supplied) ==>
      d.sessionId == supplied.value && d.userId == store[supplied.value]
    ensures !Known(store, supplied) ==>
      d.sessionId == mintedSession && d.userId == mintedUser
  {
    if supplied.Some? && supplied.value != "" && supplied.value in store then
      SocketData(supplied.value, store[supplied.value])
    else
      SocketData(mintedSession, mintedUser)
  }

  /** Once a connection's session is stored, reconnecting with its session id
      resolves to the same session and user, whatever would be minted. */
  lemma ReconnectResolvesSameUser(store: map<string, string>, d: SocketData,
                                  mintedUser: string, mintedSession: string)
    requires d.sessionId != ""
    ensures Resolve(store[d.sessionId := d.userId], Some(d.sessionId), mintedUser, mintedSession) == d
  {
  }

  /** A session id the store does not hold is never adopted: the connection
      gets the minted one, which differs from it. */
  lemma UnknownSessionNotAdopted(store: map<string, string>, supplied: string,
                                 mintedUser: string, mintedSession: string)
    requires supplied !in store && mintedSession != supplied
    ensures Resolve(store, Some(supplied), mintedUser, mintedSession).sessionId != supplied
    ensures Resolve(store, Some(supplied), mintedUser, mintedSession).userId == mintedUser
  {
  }

  /** `playerNames[userID]` when it is truthy: the only case in which
      `getPlayerName` replies. */
  function StoredName(names: map<string, string>, uid: string): (r: Option<string>)
    ensures r.Some? <==> uid in names && names[uid] != ""
    ensures r.Some? ==> r.value == names[uid]
  {
    if uid in names && names[uid] != "" then Some(names[uid]) else None
  }

  /** Setting a non-empty name and then asking for it returns that name; an
      empty name is stored but never returned. */
  lemma SetThenGetName(names: map<string, string>, uid: string, name: string)
    ensures StoredName(names[uid := name], uid) == (if name == "" then None else Some(name))
  {
  }
}
