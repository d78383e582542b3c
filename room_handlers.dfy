/** What each room handler of web2server/src/socket/roomHandlers.ts does to one
    stored room, as functions on room values. The `Server` class applies them
    to its `rooms` store; the lemmas here are the room-level invariants. */
module RoomHandlers {
  import opened Types

  /** The position every new room starts from. */
  const InitialFen: string := "rnbqkbnr/pppppppp/8/8/8/8/PPPPPPPP/RNBQKBNR w KQkq - 0 1"

  predicate HasPlayer(players: seq<Player>, uid: string) {
    exists i :: 0 <= i < |players| && players[i].id == uid
  }

  predicate DistinctIds(players: seq<Player>) {
    forall i, j :: 0 <= i < j < |players| ==> players[i].id != players[j].id
  }

  /** Every player after the first sits on the side opposite the first one. */
  predicate Alternating(players: seq<Player>) {
    forall i :: 0 < i < |players| ==> players[i].color == Opposite(players[0].color)
  }

  /** What every stored room satisfies: it has between one and three players
      with distinct ids, and its position is still the initial one. */
  predicate WellFormed(room: GameRoom) {
    1 <= |room.players| <= 3 && DistinctIds(room.players) && room.gameFen == InitialFen
  }

  /** The shape a room keeps as long as no third player was ever seated in it:
      at most two players, on opposite sides. */
  predicate TwoSided(players: seq<Player>) {
    |players| <= 2 && Alternating(players)
  }

  /** `players.findIndex(p => p.id === uid)`. */
  function IndexOf(players: seq<Player>, uid: string): (k: int)
    ensures -1 <= k < |players|
    ensures 0 <= k ==> players[k].id == uid && forall j :: 0 <= j < k ==> players[j].id != uid
    ensures k == -1 <==> !HasPlayer(players, uid)
  {
    if |players| == 0 then -1
    else if players[0].id == uid then 0
    else
      var k := IndexOf(players[1..], uid);
      assert forall j :: 0 < j < |players| ==> players[j] == players[1..][j - 1];
      if k == -1 then -1 else k + 1
  }

  /** `players.find(p => p.color === c)`. */
  function FindByColor(players: seq<Player>, c: Color): (p: Option<Player>)
    ensures p.Some? <==> exists i :: 0 <= i < |players| && players[i].color == c
    ensures p.Some? ==> p.value.color == c
    ensures p.Some? ==> exists i :: 0 <= i < |players| && players[i] == p.value &&
                          forall j :: 0 <= j < i ==> players[j].color != c
  {
    if |players| == 0 then None
    else if players[0].color == c then Some(players[0])
    else
      var p := FindByColor(players[1..], c);
      assert forall j :: 0 < j < |players| ==> players[j] == players[1..][j - 1];
      p
  }

  /** The room `createRoom` stores: the creator alone, playing white. */
  function NewRoom(roomId: string, roomName: string, creator: string, creatorName: Option<string>): (r: GameRoom)
    ensures WellFormed(r) && TwoSided(r.players)
    ensures r.id == roomId && r.name == roomName
    ensures r.players == [Player(creator, creatorName, White)]
    ensures !r.gameStarted && r.gameStatus == Waiting && r.moveHistory == []
  {
    GameRoom(roomId, roomName, [Player(creator, creatorName, White)], false, InitialFen, [], Waiting)
  }

  /** The three outcomes of `joinRoom` on an existing room. */
  datatype JoinKind = Rejoined | Seated | Spectating

  /** `joinRoom` on an existing room: a known player only has its name
      updated; a newcomer is seated, opposite to the first player, while fewer
      than three are seated; anyone else is a spectator. */
  function Join(room: GameRoom, uid: string, name: string): (r: (GameRoom, JoinKind))
    requires room.players != []
    ensures r.0 == room.(players := r.0.players)
    ensures r.1 == Rejoined <==> HasPlayer(room.players, uid)
    ensures r.1 == Rejoined ==>
      && |r.0.players| == |room.players|
      && (forall i :: 0 <= i < |room.players| ==>
            r.0.players[i].id == room.players[i].id && r.0.players[i].color == room.players[i].color)
      && (forall i :: 0 <= i < |room.players| && room.players[i].id != uid ==> r.0.players[i] == room.players[i])
      && r.0.players[IndexOf(room.players, uid)].name == Some(name)
    ensures r.1 == Seated <==> !HasPlayer(room.players, uid) && |room.players| < 3
    ensures r.1 == Seated ==>
      r.0.players == room.players + [Player(uid, Some(name), Opposite(room.players[0].color))]
    ensures r.1 == Spectating ==> r.0 == room
    ensures HasPlayer(r.0.players, uid) <==> r.1 != Spectating
    ensures DistinctIds(room.players) ==> DistinctIds(r.0.players)
    ensures |room.players| <= 3 ==> |r.0.players| <= 3
    ensures Alternating(room.players) ==> Alternating(r.0.players)
  {
    var k := IndexOf(room.players, uid);
    if k != -1 then
      var players := room.players[k := room.players[k].(name := Some(name))];
      assert players[k].id == uid;
      (room.(players := players), Rejoined)
    else if |room.players| < 3 then
      var color := if room.players[0].color == White then Black else White;
      var players := room.players + [Player(uid, Some(name), color)];
      assert players[|room.players|].id == uid;
      (room.(players := players), Seated)
    else
      (room, Spectating)
  }

  /** Joining keeps a stored room well formed, and keeps it two-sided as
      long as no third player is seated. */
  lemma JoinKeepsShape(room: GameRoom, uid: string, name: string)
    requires WellFormed(room)
    ensures WellFormed(Join(room, uid, name).0)
    ensures TwoSided(room.players) && |Join(room, uid, name).0.players| <= 2 ==>
      TwoSided(Join(room, uid, name).0.players)
  {
  }

  /** The players left after `uid`'s entry, if any, is spliced out. */
  function Remaining(players: seq<Player>, uid: string): (rest: seq<Player>)
    ensures !HasPlayer(players, uid) ==> rest == players
    ensures HasPlayer(players, uid) ==>
      var k := IndexOf(players, uid);
      && |rest| == |players| - 1
      && (forall i :: 0 <= i < k ==> rest[i] == players[i])
      && (forall i :: k <= i < |rest| ==> rest[i] == players[i + 1])
    ensures DistinctIds(players) ==> DistinctIds(rest) && !HasPlayer(rest, uid)
  {
    var k := IndexOf(players, uid);
    if k == -1 then players
    else
      var rest := players[..k] + players[k + 1..];
      assert forall i :: 0 <= i < k ==> rest[i] == players[i];
      assert forall i :: k <= i < |rest| ==> rest[i] == players[i + 1];
      rest
  }

  /** What `leaveRoom` leaves behind in a room that exists: `room` is `None`
      when the room is deleted, and `leaver` is the spliced-out entry. */
  datatype LeaveOutcome = LeaveOutcome(room: Option<GameRoom>, leaver: Option<Player>)

  /** `leaveRoom` on an existing room: splice out the leaver's entry; delete
      the room if nobody is left, otherwise clear `gameStarted` (also when
      the leaver was only a spectator) and leave `gameStatus` alone. */
  function Leave(room: GameRoom, uid: string): (r: LeaveOutcome)
    ensures r.leaver.Some? <==> HasPlayer(room.players, uid)
    ensures r.leaver.Some? ==> r.leaver.value == room.players[IndexOf(room.players, uid)]
    ensures r.room.None? <==> Remaining(room.players, uid) == []
    ensures r.room.Some? ==>
      r.room.value == room.(players := Remaining(room.players, uid), gameStarted := false)
  {
    var k := IndexOf(room.players, uid);
    var leaver := if k == -1 then None else Some(room.players[k]);
    var rest := Remaining(room.players, uid);
    if rest == [] then LeaveOutcome(None, leaver)
    else LeaveOutcome(Some(room.(players := rest, gameStarted := false)), leaver)
  }

  /** Removing any player but the first keeps the sides alternating, and so
      does removing the first one from a room of at most two. */
  lemma RemainingKeepsAlternating(players: seq<Player>, uid: string)
    requires Alternating(players)
    requires |players| <= 2 || IndexOf(players, uid) != 0
    ensures Alternating(Remaining(players, uid))
  {
  }

  /** `switchSides` and `startGame` act only on a room with exactly two
      players whose game has not started. */
  predicate Eligible(room: GameRoom) {
    |room.players| == 2 && !room.gameStarted
  }

  /** `switchSides`: the two players trade colours; otherwise nothing. */
  function SwitchSides(room: GameRoom): (r: GameRoom)
    ensures Eligible(room) ==>
      && r == room.(players := r.players)
      && |r.players| == 2
      && r.players[0] == room.players[0].(color := room.players[1].color)
      && r.players[1] == room.players[1].(color := room.players[0].color)
    ensures !Eligible(room) ==> r == room
    ensures Alternating(room.players) ==> Alternating(r.players)
  {
    if Eligible(room) then
      var p0 := room.players[0];
      var p1 := room.players[1];
      room.(players := [p0.(color := p1.color), p1.(color := p0.color)])
    else room
  }

  /** Switching sides twice restores the room. */
  lemma SwitchSidesInvolution(room: GameRoom)
    ensures SwitchSides(SwitchSides(room)) == room
  {
  }

  /** The names announced in `gameStart`. */
  datatype StartNotice = StartNotice(white: Option<string>, black: Option<string>)

  /** `startGame`: `Ignored` when not eligible. Otherwise the room is marked
      started and playing; `notice` is `None` when the `find(...)!` lookup of
      a white or of a black player comes back empty, at which point the
      handler throws after having updated the room and before emitting. */
  datatype StartOutcome = Ignored | Started(room: GameRoom, notice: Option<StartNotice>)

  function Start(room: GameRoom): (r: StartOutcome)
    ensures r.Ignored? <==> !Eligible(room)
    ensures r.Started? ==> r.room == room.(gameStarted := true, gameStatus := Playing)
    ensures r.Started? ==>
      (r.notice.Some? <==>
        (exists i :: 0 <= i < |room.players| && room.players[i].color == White) &&
        (exists i :: 0 <= i < |room.players| && room.players[i].color == Black))
    ensures r.Started? && TwoSided(room.players) ==>
      && r.notice.Some?
      && (room.players[0].color == White ==> r.notice.value == StartNotice(room.players[0].name, room.players[1].name))
      && (room.players[0].color == Black ==> r.notice.value == StartNotice(room.players[1].name, room.players[0].name))
  {
    if !Eligible(room) then Ignored
    else
      var started := room.(gameStarted := true, gameStatus := Playing);
      var white := FindByColor(room.players, White);
      var black := FindByColor(room.players, Black);
      assert TwoSided(room.players) ==>
        room.players[1].color == Opposite(room.players[0].color) &&
        (room.players[0].color == White || room.players[1].color == White) &&
        (room.players[0].color == Black || room.players[1].color == Black);
      if white.None? || black.None? then Started(started, None)
      else Started(started, Some(StartNotice(white.value.name, black.value.name)))
  }

  /** The `< 3` guard seats a third player, who takes the same side as the
      second; if the first player then leaves, the two remaining players are
      both black, `startGame` finds no white player and throws after marking
      the room started and playing, with no `gameStart` emitted. */
  lemma ThirdSeatLeavesNoWhite()
    ensures
      var room := NewRoom("r", "R", "a", Some("A"));
      var two := Join(room, "b", "B").0;
      var three := Join(two, "c", "C");
      var after := Leave(three.0, "a").room;
      && three.1 == Seated
      && after.Some?
      && after.value.players == [Player("b", Some("B"), Black), Player("c", Some("C"), Black)]
      && Start(after.value) == Started(after.value.(gameStarted := true, gameStatus := Playing), None)
  {
    var room := NewRoom("r", "R", "a", Some("A"));
    var two := Join(room, "b", "B").0;
    assert two.players == [Player("a", Some("A"), White), Player("b", Some("B"), Black)];
    var three := Join(two, "c", "C");
    assert three.0.players == two.players + [Player("c", Some("C"), Black)];
    var rest := Remaining(three.0.players, "a");
    assert IndexOf(three.0.players, "a") == 0;
    assert rest == [Player("b", Some("B"), Black), Player("c", Some("C"), Black)];
  }

  /** A player leaving a game in progress clears `gameStarted` but leaves
      `gameStatus` at `Playing`: a stored room can be playing without being
      started. */
  lemma LeaveMidGameKeepsPlaying(room: GameRoom, uid: string)
    requires |room.players| == 2 && room.gameStatus == Playing
    ensures Leave(room, uid).room.Some?
    ensures Leave(room, uid).room.value.gameStatus == Playing
    ensures !Leave(room, uid).room.value.gameStarted
  {
  }
}
