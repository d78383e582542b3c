/** What the game handlers of web2server/src/socket/gameHandlers.ts do to one
    stored room, as functions on room values. */
module GameHandlers {
  import opened Types

  /** `move`: append the submitted move and mark the game started. The
      position, the status and the players are left as they are: no turn,
      status or legality check is made and the stored position is never
      advanced. */
  function Moved(room: GameRoom, move: string): (r: GameRoom)
    ensures |r.moveHistory| == |room.moveHistory| + 1
    ensures r.moveHistory[..|room.moveHistory|] == room.moveHistory
    ensures r.moveHistory[|room.moveHistory|] == move
    ensures r.gameStarted
    ensures r == room.(gameStarted := true, moveHistory := r.moveHistory)
  {
    room.(gameStarted := true, moveHistory := room.moveHistory + [move])
  }

  /** The room after the given moves arrive one after another. */
  function Replayed(room: GameRoom, moves: seq<string>): GameRoom
    decreases |moves|
  {
    if moves == [] then room else Replayed(Moved(room, moves[0]), moves[1..])
  }

  /** Whatever moves arrive, the history is the old history followed by them
      in order, and the position, status and players never change: the
      stored position is not derived from the history. */
  lemma {:induction false} ReplayedAppendsHistory(room: GameRoom, moves: seq<string>)
    ensures Replayed(room, moves).moveHistory == room.moveHistory + moves
    ensures Replayed(room, moves).gameFen == room.gameFen
    ensures Replayed(room, moves).gameStatus == room.gameStatus
    ensures Replayed(room, moves).players == room.players
    ensures moves != [] ==> Replayed(room, moves).gameStarted
    decreases |moves|
  {
    if moves != [] {
      var next := Moved(room, moves[0]);
      ReplayedAppendsHistory(next, moves[1..]);
      assert moves == [moves[0]] + moves[1..];
      assert room.moveHistory + moves == (room.moveHistory + [moves[0]]) + moves[1..];
      if moves[1..] == [] {
        assert Replayed(next, moves[1..]) == next;
      }
    }
  }

  /** `acceptDraw` and `gameOver`: only the status changes, to `Ended`. */
  function EndGame(room: GameRoom): (r: GameRoom)
    ensures r.gameStatus == Ended
    ensures r == room.(gameStatus := r.gameStatus)
  {
    room.(gameStatus := Ended)
  }

  /** The result `acceptDraw` announces. */
  const AgreedDraw: GameResult := GameResult(Draw, DrawAgreed)

  /** A move that arrives after the game ended still lengthens the history
      and leaves the game ended. */
  lemma MoveAfterEndIsRecorded(room: GameRoom, move: string)
    ensures Moved(EndGame(room), move).gameStatus == Ended
    ensures Moved(EndGame(room), move).moveHistory == room.moveHistory + [move]
  {
  }
}
