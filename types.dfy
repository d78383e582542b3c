/** The value types the chess server keeps in its room store
    (web2server/src/types.ts). */
module Types {

  datatype Option<+T> = None | Some(value: T)

  /** A player's side, `'white' | 'black'`. */
  datatype Color = White | Black

  function Opposite(c: Color): (r: Color)
    ensures r != c
  {
    if c == White then Black else White
  }

  /** A seated player. `name` is `None` when the server copied a name that was
      never set (the JavaScript value `undefined`). */
  datatype Player = Player(id: string, name: Option<string>, color: Color)

  datatype GameStatus = Waiting | Playing | Ended

  datatype GameRoom = GameRoom(
    id: string,
    name: string,
    players: seq<Player>,
    gameStarted: bool,
    gameFen: string,
    moveHistory: seq<string>,
    gameStatus: GameStatus)

  /** `'white' | 'black' | 'draw'`. */
  datatype Winner = Won(color: Color) | Draw

  /** The `reason` strings of a result; `DrawAgreed` is the string `'draw'`. */
  datatype Reason =
    | Checkmate | Stalemate | InsufficientMaterial | ThreefoldRepetition
    | DrawAgreed | Resignation | Timeout

  datatype GameResult = GameResult(winner: Winner, reason: Reason)
}
