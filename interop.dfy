/** What the trainer bot makes of the game events this server emits. The
    server's `gameStart` carries only the two names, and its `gameState`
    carries the room id under `room` (from `startGame`) or no tag at all
    (from `getGameState`); the bot files games under the `id` of
    `gameStart`. */
module Interop {
  import opened Types
  import opened PyValues
  import Trainer

  /** A field set only when the value is defined: `JSON.stringify` drops
      `undefined` members. */
  function Optional(name: string, v: Option<string>): (m: map<string, Json>)
    ensures Get(m, name) == (if v.Some? then JStr(v.value) else JNull)
    ensures m.Keys <= {name}
  {
    if v.Some? then map[name := JStr(v.value)] else map[]
  }

  function StatusText(s: GameStatus): string {
    match s
    case Waiting => "waiting"
    case Playing => "playing"
    case Ended => "ended"
  }

  /** The decoded payload of the server's `gameStart` event. */
  function GameStartPayload(white: Option<string>, black: Option<string>): (m: map<string, Json>)
    ensures "id" !in m && "gameFen" !in m
    ensures Get(m, "black") == (if black.Some? then JStr(black.value) else JNull)
  {
    Optional("white", white) + Optional("black", black)
  }

  /** The decoded payload of the server's `gameState` event. */
  function GameStatePayload(room: Option<string>, fen: string, history: seq<string>, status: GameStatus)
    : (j: Json)
    ensures j.JObj? && "id" !in j.fields && "roomId" !in j.fields
    ensures Get(j.fields, "room") == (if room.Some? then JStr(room.value) else JNull)
    ensures Get(j.fields, "status") == JStr(StatusText(status))
  {
    var items := seq(|history|, i requires 0 <= i < |history| => JStr(history[i]));
    JObj(Optional("room", room)
      + map["fen" := JStr(fen), "history" := JArr(items), "status" := JStr(StatusText(status))])
  }

  /** A `gameStart` from this server files its game under `None`, since it
      has no `id`; so no `gameState` from this server, with or without a
      `room`, ever passes the bot's gate, and the bot never moves. */
  lemma ServerGamesNeverMoveTheBot(
    games: map<Json, Trainer.Game>, white: Option<string>, black: Option<string>, username: string,
    turnOf: Json -> Option<Color>, room: Option<string>, fen: string, history: seq<string>,
    status: GameStatus, moveText: string)
    requires Trainer.TagsConsistent(games) && games.Keys <= {JNull}
    ensures var after := Trainer.Registered(games, GameStartPayload(white, black), username, turnOf);
      && after.Keys <= {JNull}
      && Trainer.IngameUpdate(after, GameStatePayload(room, fen, history, status), turnOf, moveText)
         == Trainer.IngameResult(after, None)
  {
  }
}
