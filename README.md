# Chess room server and trainer client, modelled in Dafny

This project models the two halves of a small online chess system.

The first half is the server's in-memory room and session coordination in
`web2server/src/socket/`. Every Socket.IO event handler runs to completion
before the next one starts, so the server is a sequential state machine. The
class `SocketServer.Server` holds:

- the `rooms` record;
- the session table (session id to user id);
- the name table (user id to display name);
- an outbox of every emission, each with its addressee: the sender, a room,
  the room except the sender, or everyone.

Each handler is one method. It takes the acting user id and the event's
payload. Its postcondition gives the new tables and outbox in terms of pure
functions on room values. Those functions are in `RoomHandlers` and
`GameHandlers`, and their own contracts state what the handlers promise. The
invariant `Server.Valid` holds after every handler:

- every stored room is filed under its own id;
- a room holds one to three players, with distinct ids;
- its position is the initial one;
- unless a third player was ever seated, it holds at most two players on
  opposite sides.

The standalone middleware (`middleware.ts`) and connection handlers
(`connectionHandlers.ts`) share the session store of `middleware.ts`, and
the connection handlers keep their own name table. Together they are the
class `Gateway.Gateway`, and they share the session logic of `Sessions` with
the server.

The second half is the Python trainer client in `python-sdk/trainer/`:

- `ChessClientModel.ChessClient` is the WebSocket frame dispatcher. It
  classifies frames by their Engine.IO (revision 4, section "Packet
  encoding") and Socket.IO (version 5, section "Packet types") prefixes in
  `Frames.Classify`, and handles the handshake and events.
- `Trainer.Player` is the bot's bookkeeping: usernames, registered games, the
  in-game gate, the turn gate and autostart.

Python values after JSON decoding are the datatype `PyValues.Json`. Python's
truthiness, `dict.get`, hashability and `str` are written out.

Some things are parameters of the model:

- the random ids `uuidv4` mints;
- JSON decoding, as `decode: string -> Option<Json>`;
- python-chess's side-to-move, as `turnOf: Json -> Option<Color>`;
- the move a concrete player chooses, as `moveText`.

`Interop.ServerGamesNeverMoveTheBot` connects the two halves. The server's
`gameStart` carries no `id`, so the bot files every game under `None`. A
`gameState` from this server carries its room id under `room`, or no tag at
all. So no game-state update from this server ever passes the bot's gate,
and the bot never sends a move to this server.

The model follows the code, including:

- the join guard is `players.length < 3`, so a third player is seated;
- the newcomer's colour is the opposite of `players[0]`'s, whatever colour
  the other seated players have;
- `move` checks neither status, turn nor legality, never updates the
  position, and emits only the move;
- a player who rejoins is announced to the room with `playerJoined`, and the
  room list is then broadcast to everyone, as for any other join;
- `startGame` throws, without emitting, when it finds no white or no black
  player. The room has already been marked started and playing when it
  throws (see "Left out" for what the throw does to the process).

## Model

| member | source | states |
|---|---|---|
| RoomHandlers.IndexOf | web2server/src/socket/roomHandlers.ts:98 | the first index holding the user id, and -1 exactly when no player has it |
| RoomHandlers.FindByColor | web2server/src/socket/roomHandlers.ts:129-130 | the first player of that colour, found exactly when one exists |
| RoomHandlers.NewRoom | web2server/src/socket/roomHandlers.ts:14-24 | the new room has the given id and name, holds only the creator, as white, is neither started nor ended, has no moves, and is well formed and two-sided |
| RoomHandlers.Join | web2server/src/socket/roomHandlers.ts:34-87 | a known id keeps every id and colour, and only that player's name changes; a newcomer with fewer than 3 seated is appended opposite `players[0]`; otherwise the room is unchanged; distinct ids, at most 3 players and alternating sides are preserved |
| RoomHandlers.JoinKeepsShape | web2server/src/socket/roomHandlers.ts:49-54 | any join of a well-formed room leaves it well formed, and a two-sided room with at most two seats after the join stays two-sided |
| RoomHandlers.Remaining | web2server/src/socket/roomHandlers.ts:98-101 | only the leaver's entry is removed and the order of the others is kept; with distinct ids the leaver is gone |
| RoomHandlers.Leave | web2server/src/socket/roomHandlers.ts:96-110 | the leaver is reported exactly when seated; the room is deleted exactly when no player is left; otherwise only the players change and `gameStarted` becomes false, while the status is kept |
| RoomHandlers.RemainingKeepsAlternating | web2server/src/socket/roomHandlers.ts:98-101 | removing a player from a two-sided room keeps the sides opposite |
| RoomHandlers.SwitchSides | web2server/src/socket/roomHandlers.ts:115-120 | with exactly two players and no game started, the two colours are exchanged; otherwise nothing changes |
| RoomHandlers.SwitchSidesInvolution | web2server/src/socket/roomHandlers.ts:117-118 | switching sides twice restores the room |
| RoomHandlers.Start | web2server/src/socket/roomHandlers.ts:123-131 | only an eligible room is started and set playing; names are announced exactly when both colours are seated, always so in a two-sided room, and with the right names |
| RoomHandlers.ThirdSeatLeavesNoWhite | web2server/src/socket/roomHandlers.ts:49-54 | a third seat followed by the first player's leaving yields two black players, and starting that room marks it started and playing but announces nothing |
| RoomHandlers.LeaveMidGameKeepsPlaying | web2server/src/socket/roomHandlers.ts:105-110 | a leave from a two-player game keeps the room playing although no longer started |
| GameHandlers.Moved | web2server/src/socket/gameHandlers.ts:8-12 | exactly the move is appended, earlier history is kept, the game is marked started, and nothing else changes |
| GameHandlers.ReplayedAppendsHistory | web2server/src/socket/gameHandlers.ts:6-14 | any sequence of moves extends the history by exactly those moves and never changes the position, status or players |
| GameHandlers.EndGame | web2server/src/socket/gameHandlers.ts:24 | only the status changes, to ended |
| GameHandlers.MoveAfterEndIsRecorded | web2server/src/socket/gameHandlers.ts:6-14 | an ended game still grows its history and stays ended |
| Sessions.Resolve | web2server/src/socket/index.ts:11-25 | a truthy stored session id keeps its id and stored user id; anything else gets the minted pair |
| Sessions.ReconnectResolvesSameUser | web2server/src/socket/index.ts:34-36 | once a session is stored, reconnecting with its id resolves to the same session and user |
| Sessions.UnknownSessionNotAdopted | web2server/src/socket/index.ts:20-25 | a session id the store lacks is replaced by the minted one, never reused |
| Sessions.StoredName | web2server/src/socket/index.ts:45-46 | a name is found exactly when a non-empty one is stored, and it is that name |
| Sessions.SetThenGetName | web2server/src/socket/index.ts:43-53 | a set followed by a get returns the non-empty name set; an empty name is never returned |
| SocketServer.Server.constructor | web2server/src/socket/roomHandlers.ts:6 | empty tables and outbox, and the invariant holds |
| SocketServer.Server.Authenticate | web2server/src/socket/index.ts:10-25 | reads only; the socket's ids are those `Resolve` gives; the session id is stored exactly when the supplied one was known; an unknown id is not adopted |
| SocketServer.Server.OnConnection | web2server/src/socket/index.ts:34-41 | the session id maps to the user id, and `session` echoes exactly both ids |
| SocketServer.Server.GetPlayerName | web2server/src/socket/index.ts:43-49 | a reply only for a truthy stored name, and with that name |
| SocketServer.Server.SetPlayerName | web2server/src/socket/index.ts:51-55 | the entry keyed by user id is overwritten and the name echoed |
| SocketServer.Server.CreateRoom | web2server/src/socket/roomHandlers.ts:12-29 | exactly one room is added under the fresh id; every existing room is unchanged; `roomCreated` and the room list are emitted |
| SocketServer.Server.JoinRoom | web2server/src/socket/roomHandlers.ts:31-93 | an unknown room changes nothing and replies `roomNotFound`; otherwise the room becomes `Join`'s result, and the name table changes only for a newcomer or spectator; the room joins the third-seated set exactly when the join leaves three players seated; the invariant holds |
| SocketServer.Server.LeaveRoom | web2server/src/socket/roomHandlers.ts:95-113 | the room becomes `Leave`'s result or is deleted; `playerLeft` is sent only for a seated leaver; a deleted room leaves the third-seated set, which otherwise is unchanged; an unknown room changes nothing |
| SocketServer.Server.SwitchSides | web2server/src/socket/roomHandlers.ts:115-121 | an eligible room's sides are switched and announced; otherwise nothing changes |
| SocketServer.Server.StartGame | web2server/src/socket/roomHandlers.ts:123-139 | an eligible room is started; `gameStart` and `gameState` are emitted only when both colours are seated; otherwise nothing changes |
| SocketServer.Server.GetRoomList | web2server/src/socket/roomHandlers.ts:142-144 | the sender gets every stored room and nothing changes |
| SocketServer.Server.Move | web2server/src/socket/gameHandlers.ts:6-15 | an existing room records the move and relays it; an unknown room changes nothing |
| SocketServer.Server.OfferDraw | web2server/src/socket/gameHandlers.ts:17-19 | the offer is relayed and no room changes |
| SocketServer.Server.AcceptDraw | web2server/src/socket/gameHandlers.ts:21-28 | an existing room ends and a draw by agreement is announced; an unknown room changes nothing |
| SocketServer.Server.DeclineDraw | web2server/src/socket/gameHandlers.ts:30-32 | the rest of the room is told and no room changes |
| SocketServer.Server.GameOver | web2server/src/socket/gameHandlers.ts:34-40 | an existing room ends and the client's result is relayed unchanged; an unknown room changes nothing |
| SocketServer.Server.GetGameState | web2server/src/socket/gameHandlers.ts:42-51 | the sender gets the position, history and status, without a room tag; nothing changes |
| Gateway.Gateway.constructor | web2server/src/socket/connectionHandlers.ts:4 | an empty session store, name table and outbox |
| Gateway.Gateway.Authenticate | web2server/src/socket/middleware.ts:7-22 | reads only; a known session keeps both ids; an absent or unknown one gets the minted pair and is never adopted |
| Gateway.Gateway.Register | web2server/src/socket/connectionHandlers.ts:7-14 | the session id maps to the user id, and `session` carries exactly both |
| Gateway.Gateway.GetPlayerName | web2server/src/socket/connectionHandlers.ts:16-21 | a reply only for a truthy name in this module's own table, and with that name |
| Gateway.Gateway.SetPlayerName | web2server/src/socket/connectionHandlers.ts:23-26 | this module's own entry for the user id is overwritten and echoed |
| Frames.Classify | python-sdk/trainer/chess_client.py:66-78 | a handshake exactly for prefix `0`, with the rest as body; connect exactly for `40`; an event exactly for `42`, with the rest as body; a ping exactly for the frame `2` |
| Frames.OnlyBarePingIsAnswered | python-sdk/trainer/chess_client.py:66-78 | `3`, `41` and `2probe` cause no action |
| Frames.SetPlayerNameFrame | python-sdk/trainer/chess_client.py:163 | the frame classifies as an event whose body is the `setPlayerName` array |
| Frames.InvitePlayerFrame | python-sdk/trainer/chess_client.py:188 | the frame classifies as an event whose body is the `invitePlayer` array |
| Frames.MoveFrame | python-sdk/trainer/player.py:200 | the frame classifies as an event whose body is the `move` array |
| Frames.StartGameFrame | python-sdk/trainer/player.py:152 | the frame classifies as an event whose body is the `startGame` array |
| ChessClientModel.Decide | python-sdk/trainer/chess_client.py:93-131 | a name is recorded exactly for `playerNameSet` with a dict; both invitation replies are stored verbatim; the invite hook runs exactly for a dict with `from` and `roomId`; `inviteAccepted` with a dict reaches the accepted-invite hook with its `roomId`; `gameStart` with a dict reaches the game-start hook with that dict; `gameState` always reaches the in-game hook with its payload; `playerJoined` and unknown events do nothing |
| ChessClientModel.ApplyEvent | python-sdk/trainer/chess_client.py:98-109 | logged in exactly when already so or a truthy name arrives; the name changes only for `playerNameSet`; invitation replies are stored and set `invitation_sent`, which nothing else touches; nothing is sent |
| ChessClientModel.AfterHandshake | python-sdk/trainer/chess_client.py:83-90 | without a dict holding `sid` nothing changes; otherwise `sid` is taken from it, and when the ping fields are missing or divisible `40` is sent and the client is connected, else nothing more happens; name, login and invitation fields are untouched |
| ChessClientModel.HandleFrame | python-sdk/trainer/chess_client.py:62-78 | a handshake frame has exactly `AfterHandshake`'s effect on the decoded body; an event frame with a non-empty decoded array has exactly `ApplyEvent`'s effect and `Decide`'s hook, and any other event frame does nothing; `3` is sent exactly for the frame `2`; connect only sets `connected` and sends exactly the `setPlayerName` frame; events send nothing; `sid` changes only on a handshake; hooks run only for events; login comes only from a truthy `playerNameSet` |
| ChessClientModel.AfterInvite | python-sdk/trainer/chess_client.py:184-188 | when not logged in nothing happens; otherwise `invitation_sent` is cleared and exactly the invitation frame is sent, and every other field is kept |
| ChessClientModel.ChessClient.constructor | python-sdk/trainer/chess_client.py:43-52 | no `sid`, not connected, not logged in, nothing sent |
| ChessClientModel.ChessClient.SendMessage | python-sdk/trainer/chess_client.py:239-244 | the frame is appended only while the socket is open |
| ChessClientModel.ChessClient.HandleHandshake | python-sdk/trainer/chess_client.py:83-90 | the new state is `AfterHandshake` of the old one |
| ChessClientModel.ChessClient.HandleEvent | python-sdk/trainer/chess_client.py:93-131 | the new state and hook are those `Decide` and `ApplyEvent` give |
| ChessClientModel.ChessClient.LogIn | python-sdk/trainer/chess_client.py:160-163 | exactly the `setPlayerName` frame is sent |
| ChessClientModel.ChessClient.MessageHandler | python-sdk/trainer/chess_client.py:62-78 | the new state and hook are those `HandleFrame` gives |
| ChessClientModel.ChessClient.InvitePlayer | python-sdk/trainer/chess_client.py:184-188 | the new state is `AfterInvite` of the old one |
| Trainer.Username | python-sdk/trainer/player.py:79-84 | `key + " " + counter` when that fits in 18 characters; otherwise exactly 18 characters, ending in `" " + counter`, when the counter has at most 17 digits; always a prefix of the key, a space, then the counter |
| Trainer.UsernamesAreUnique | python-sdk/trainer/player.py:78-84 | for a class name without spaces, different counter values never give the same username |
| Trainer.AccountCounter.CreateAccountConfiguration | python-sdk/trainer/player.py:76-85 | the class's counter goes up by one and the username is derived from the new count |
| Trainer.NewGame | python-sdk/trainer/player.py:98-117 | the game exists exactly when the board can be built; it carries the message's `id` and the player's username, is black exactly when `black` equals the username, and is playing with the message's FEN and side to move |
| Trainer.Registered | python-sdk/trainer/player.py:93-127 | a known, unhashable or unreadable tag leaves the table unchanged; otherwise exactly one entry is added under the tag; existing games are unchanged; tags stay consistent |
| Trainer.GameTag | python-sdk/trainer/player.py:167-171 | `room`, else `id`, else `roomId`, each taken only when the earlier ones are falsy; truthy exactly when one of them is |
| Trainer.GameRequest | python-sdk/trainer/player.py:190-206 | a move frame exactly when `to_play` equals the player's colour, for the game's tag and the chosen move |
| Trainer.IngameUpdate | python-sdk/trainer/player.py:165-188 | past the gate (known tag, status `"playing"`) only that game's FEN and side to move change (the side to move only when the FEN is readable) and colours never do; a move is sent exactly when the new side to move is the player's; otherwise nothing changes |
| Trainer.AutoStart | python-sdk/trainer/player.py:138-152 | a `startGame` frame exactly when autostart is on and the hashable tag is not yet a game |
| Trainer.Enqueued | python-sdk/trainer/player.py:228-234 | the inviter is queued exactly when it is not the player |
| Trainer.HookEffect | python-sdk/trainer/player.py:53-57 | tags stay consistent, no game disappears or changes colour, only an invitation queues anything, and any frame sent is an event |
| Trainer.Player.constructor | python-sdk/trainer/player.py:64-72 | no games and an empty invite queue |
| Trainer.Player.CreateGame | python-sdk/trainer/player.py:91-129 | the table becomes `Registered` of the old one |
| Trainer.Player.HandleGameStart | python-sdk/trainer/player.py:154-163 | the table becomes `Registered` of the old one |
| Trainer.Player.HandleGameRequest | python-sdk/trainer/player.py:190-206 | exactly `GameRequest`'s frame is sent |
| Trainer.Player.HandleIngameMessage | python-sdk/trainer/player.py:165-188 | the table and the frames sent are those `IngameUpdate` gives |
| Trainer.Player.StartGame | python-sdk/trainer/player.py:150-152 | exactly the `startGame` frame for the tag is sent |
| Trainer.Player.HandleAcceptedInvite | python-sdk/trainer/player.py:138-142 | exactly `AutoStart`'s frame is sent |
| Trainer.Player.HandlePlayerJoined | python-sdk/trainer/player.py:144-148 | exactly `AutoStart`'s frame is sent |
| Trainer.Player.HandleInviteRequest | python-sdk/trainer/player.py:228-234 | the queue becomes `Enqueued` of the old one |
| Trainer.Player.OnFrame | python-sdk/trainer/player.py:53-57 | the client handles the frame as `HandleFrame` says, then the hook's effect on the games, the queue and the frames sent |
| Interop.GameStartPayload | web2server/src/socket/roomHandlers.ts:128-131 | the decoded `gameStart` has no `id` and no `gameFen` |
| Interop.GameStatePayload | web2server/src/socket/roomHandlers.ts:132-137 | the decoded `gameState` has no `id` or `roomId`, has `room` only when the server sent one, and has the status text |
| Interop.ServerGamesNeverMoveTheBot | python-sdk/trainer/player.py:93-179 | a game started by this server is filed under `None`, and no game state from this server passes the bot's gate, so no move is sent |

## Left out

- Socket.IO transport is not modelled: `socket.join`/`leave`, the fan-out of `io.to(...).emit`, and channel subscription. An emission is only recorded in the outbox with its addressee.
- `uuidv4` randomness is not modelled. Minted ids are parameters, and the `requires` that they are fresh stands in for uniqueness.
- SocketServer.Server.Authenticate: the freshness `requires` (the minted session id is not stored and differs from the supplied one) is what `uuidv4` gives, not a check in the source.
- Gateway.Gateway.Authenticate: carries the same freshness `requires` as `SocketServer.Server.Authenticate`.
- Chess rules and positions are not modelled. The server never changes a room's FEN. The side to move and the chosen move are parameters of the trainer model.
- `resignGame` has no server handler in these files, so it is not modelled. Neither is the invite and accept-invitation broker, nor the client's `accept_invite`.
- Server-side turn enforcement is not modelled, because the server does none.
- The disconnect cleanup in `roomHandlers.ts` is commented out, and the `disconnect` handlers only log, so they are left out.
- The room list is a `map`, so the insertion order of `Object.values(rooms)` is not modelled.
- JavaScript prototype keys such as `__proto__` are not modelled. Neither are `rooms` lookups that would find inherited properties.
- JSON decoding is the parameter `decode`. Floating-point JSON numbers are not modelled.
- Python key equality is modelled as structural equality, so `1 == True` and `1 == 1.0` as dictionary keys are not modelled.
- ChessClientModel.AfterHandshake: the ping interval and timeout are checked only for being divisible; their float values are not kept.
- RoomHandlers.Start: when no white or no black player is seated, the `TypeError` thrown by `find(...)!.name` is caught nowhere in the server, so under Node's default it ends the process and every room and session is lost. The model treats the throw as aborting only this handler: the room stays marked started and playing and nothing is emitted.
- ChessClientModel.HandleFrame: the `ConnectionClosed` handler, which clears `connected`, is not modelled, because closing the socket is I/O.
- ChessClientModel.ChessClient.LogIn: the wait on `connected` is the `requires connected`.
- ChessClientModel.ChessClient.InvitePlayer: the wait on `connected` is the `requires connected`. The wait of up to 5 seconds for the reply, and the value returned, are not modelled.
- Trainer.Registered: does not model the wait on `_game_count_queue`, or the re-check of the tag after that wait. Handlers do not interleave in the model, so the re-check never finds the tag. That queue holds `max_concurrent_games` items (1 by default) and only the re-check takes one out, so in the source the `put` blocks for ever once that many games are filed; the model files every new game.
- Trainer.IngameUpdate: requires the table's tags to be consistent. `Player.Valid` maintains this, and it is what lets the move frame print the game's own tag.
- Trainer.Player: games are values in a map rather than shared `Game` objects, so aliasing of a returned game with the table entry is not modelled.
- The asyncio machinery is not modelled: semaphores, conditions, `_get_game`'s wait loop, `listen`, `_send_invites`/`_accept_invites`, `run_coroutine_threadsafe`, logging and `choose_random_move`.
- The account counter lives in `account_configuration.py`, which is not part of this model. It is modelled as a map from class name to count.
- `chess_clientOld.py`, the `trainer-sdk` client, `chatHandlers.ts`, the React client in `dojo-chess/src`, the server bootstrap and the test scripts are not part of this model.
