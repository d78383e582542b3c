/** The bookkeeping of the trainer's base player class,
    python-sdk/trainer/player.py: usernames, registered games, the in-game
    update gate, the turn gate and autostart. The chess library is the
    parameter `turnOf` (the side to move of `chess.Board(fen)`, `None` when
    the board cannot be built) and the player's chosen move is `moveText`. */
module Trainer {
  import opened Types
  import opened PyValues
  import opened Frames
  import opened ChessClientModel

  // ----- usernames -----

  predicate NoSpace(s: string) {
    forall i :: 0 <= i < |s| ==> s[i] != ' '
  }

  /** `s[:stop]` in Python, where a negative stop counts from the end. */
  function PySliceTo(s: string, stop: int): (r: string)
    ensures |r| <= |s| && r == s[..|r|]
    ensures stop < 0 && |s| + stop >= 0 ==> |r| == |s| + stop
    ensures stop < 0 && |s| + stop < 0 ==> r == ""
  {
    if stop >= 0 then (if stop <= |s| then s[..stop] else s)
    else if |s| + stop >= 0 then s[..|s| + stop]
    else ""
  }

  /** `_create_account_configuration` once the counter for `key` reads
      `count`: `"<key> <count>"`, with the key cut so that the whole fits in
      18 characters when it would not. */
  function Username(key: string, count: nat): (u: string)
    ensures |key| + 1 + |Decimal(count)| <= 18 ==> u == key + " " + Decimal(count)
    ensures |Decimal(count)| <= 17 ==> |u| <= 18
    ensures |key| + 1 + |Decimal(count)| > 18 && |Decimal(count)| <= 17 ==> |u| == 18
    ensures 1 + |Decimal(count)| <= |u| && |u| - 1 - |Decimal(count)| <= |key|
    ensures u == key[..|u| - 1 - |Decimal(count)|] + " " + Decimal(count)
  {
    var digits := Decimal(count);
    var first := key + " " + digits;
    if |first| <= 18 then first
    else
      var cut := PySliceTo(key, 18 - |first|);
      assert cut == key[..|cut|];
      cut + " " + digits
  }

  /** Where a space separates two space-free parts, the split is unique. */
  lemma {:induction false} SpaceSplitsUniquely(p1: string, d1: string, p2: string, d2: string)
    requires NoSpace(p1) && NoSpace(p2) && NoSpace(d1) && NoSpace(d2)
    requires p1 + " " + d1 == p2 + " " + d2
    ensures p1 == p2 && d1 == d2
  {
    var u := p1 + " " + d1;
    assert u[|p1|] == ' ';
    assert |p1| == |p2|;
    assert p1 == u[..|p1|] == p2;
    assert d1 == u[|p1| + 1..] == d2;
  }

  /** The counter makes usernames unique: a class name (which has no spaces)
      never yields the same username for two counter values. */
  lemma UsernamesAreUnique(key: string, n: nat, m: nat)
    requires NoSpace(key)
    requires Username(key, n) == Username(key, m)
    ensures n == m
  {
    var u, v := Username(key, n), Username(key, m);
    var pn, pm := key[..|u| - 1 - |Decimal(n)|], key[..|v| - 1 - |Decimal(m)|];
    assert NoSpace(pn) && NoSpace(pm);
    SpaceSplitsUniquely(pn, Decimal(n), pm, Decimal(m));
    DecimalInjective(n, m);
  }

  /** The process-wide counter of created accounts per class name. */
  class AccountCounter {
    var counts: map<string, nat>

    function Count(key: string): nat
      reads this
    {
      if key in counts then counts[key] else 0
    }

    constructor ()
      ensures counts == map[]
    {
      counts := map[];
    }

    /** Bump the class's counter, then derive the username from it. */
    method CreateAccountConfiguration(key: string) returns (username: string)
      modifies this
      ensures counts == old(counts)[key := old(Count(key)) + 1]
      ensures username == Username(key, counts[key])
    {
      counts := counts[key := Count(key) + 1];
      username := Username(key, counts[key]);
    }
  }

  // ----- games -----

  /** The fields of a registered game that the player reads or writes. */
  datatype Game = Game(
    gameTag: Json,
    playerUsername: string,
    playerColor: Color,
    gameStatus: string,
    gameFen: Json,
    toPlay: Color)

  /** Every game is filed under its own tag, which is hashable. */
  predicate TagsConsistent(games: map<Json, Game>) {
    forall k :: k in games ==> Hashable(k) && games[k].gameTag == k
  }

  /** The game `_create_game` builds from a `gameStart` message, or `None`
      when the chess board cannot be built from its FEN. */
  function NewGame(message: map<string, Json>, username: string, turnOf: Json -> Option<Color>)
    : (g: Option<Game>)
    ensures g.Some? <==> turnOf(Get(message, "gameFen")).Some?
    ensures g.Some? ==> g.value.gameTag == Get(message, "id") && g.value.playerUsername == username
    ensures g.Some? ==> (g.value.playerColor == Black <==> Get(message, "black") == JStr(username))
    ensures g.Some? ==> g.value.gameStatus == "playing" && g.value.gameFen == Get(message, "gameFen")
    ensures g.Some? ==> g.value.toPlay == turnOf(Get(message, "gameFen")).value
  {
    var fen := Get(message, "gameFen");
    match turnOf(fen)
    case None => None
    case Some(side) =>
      var color := if Get(message, "black") == JStr(username) then Black else White;
      Some(Game(Get(message, "id"), username, color, "playing", fen, side))
  }

  /** `_create_game` on the games table: the tag is the message's `id`; a
      known tag keeps its game, an unhashable one or an unreadable FEN
      raises, otherwise exactly one game is filed. */
  function Registered(games: map<Json, Game>, message: map<string, Json>, username: string,
                      turnOf: Json -> Option<Color>): (r: map<Json, Game>)
    ensures var tag := Get(message, "id");
      !Hashable(tag) || tag in games || NewGame(message, username, turnOf).None? ==> r == games
    ensures var tag := Get(message, "id");
      Hashable(tag) && tag !in games && NewGame(message, username, turnOf).Some? ==>
        && r.Keys == games.Keys + {tag}
        && r[tag] == NewGame(message, username, turnOf).value
    ensures forall k :: k in games ==> k in r && r[k] == games[k]
    ensures TagsConsistent(games) ==> TagsConsistent(r)
  {
    var tag := Get(message, "id");
    if !Hashable(tag) || tag in games then games
    else match NewGame(message, username, turnOf)
      case None => games
      case Some(g) => games[tag := g]
  }

  /** `_handle_ingame_message`'s tag: `room`, else `id`, else `roomId`,
      each tried only when the previous one is falsy. */
  function GameTag(fields: map<string, Json>): (t: Json)
    ensures Truthy(t) <==>
      Truthy(Get(fields, "room")) || Truthy(Get(fields, "id")) || Truthy(Get(fields, "roomId"))
    ensures Truthy(Get(fields, "room")) ==> t == fields["room"]
    ensures !Truthy(Get(fields, "room")) && Truthy(Get(fields, "id")) ==> t == fields["id"]
    ensures !Truthy(Get(fields, "room")) && !Truthy(Get(fields, "id")) ==> t == Get(fields, "roomId")
  {
    var room := Get(fields, "room");
    if Truthy(room) then room
    else
      var id := Get(fields, "id");
      if Truthy(id) then id else Get(fields, "roomId")
  }

  /** An in-game update reaches a game only for a known tag whose status
      is `"playing"` (a truthy unhashable tag raises instead). */
  predicate Gated(games: map<Json, Game>, payload: Json) {
    && payload.JObj?
    && Truthy(GameTag(payload.fields))
    && Hashable(GameTag(payload.fields))
    && GameTag(payload.fields) in games
    && Get(payload.fields, "status") == JStr("playing")
  }

  /** `_handle_game_request`: a move frame for the game's tag, only on the
      player's own turn. */
  function GameRequest(game: Game, moveText: string): (frame: Option<string>)
    requires Hashable(game.gameTag)
    ensures frame.Some? <==> game.toPlay == game.playerColor
    ensures frame.Some? ==> Classify(frame.value).Event?
    ensures frame.Some? ==> frame.value == MoveFrame(Str(game.gameTag), moveText)
  {
    if game.toPlay == game.playerColor then Some(MoveFrame(Str(game.gameTag), moveText)) else None
  }

  datatype IngameResult = IngameResult(games: map<Json, Game>, move: Option<string>)

  /** `_handle_ingame_message`: past the gate, the FEN is stored first, then
      the side to move is read from it (an unreadable FEN raises after the
      store), then the turn gate decides on a move. */
  function IngameUpdate(games: map<Json, Game>, payload: Json, turnOf: Json -> Option<Color>,
                        moveText: string): (r: IngameResult)
    requires TagsConsistent(games)
    ensures r.games.Keys == games.Keys && TagsConsistent(r.games)
    ensures !Gated(games, payload) ==> r == IngameResult(games, None)
    ensures forall k :: k in games ==> r.games[k].playerColor == games[k].playerColor
    ensures forall k :: k in games && (!Gated(games, payload) || k != GameTag(payload.fields)) ==>
      r.games[k] == games[k]
    ensures Gated(games, payload) ==>
      var tag, fen := GameTag(payload.fields), Get(payload.fields, "fen");
      && r.games[tag] == games[tag].(
           gameFen := fen,
           toPlay := if turnOf(fen).Some? then turnOf(fen).value else games[tag].toPlay)
      && (r.move.Some? <==> turnOf(fen) == Some(games[tag].playerColor))
      && (r.move.Some? ==> r.move.value == MoveFrame(Str(tag), moveText))
  {
    if !Gated(games, payload) then IngameResult(games, None)
    else
      var tag := GameTag(payload.fields);
      var stored := games[tag].(gameFen := Get(payload.fields, "fen"));
      match turnOf(stored.gameFen)
      case None => IngameResult(games[tag := stored], None)
      case Some(side) =>
        var game := stored.(toPlay := side);
        IngameResult(games[tag := game], GameRequest(game, moveText))
  }

  /** `_handle_accepted_invite`: with autostart on, a `startGame` frame for
      a tag that is not yet a game (an unhashable tag raises). */
  function AutoStart(games: map<Json, Game>, tag: Json, autostart: bool): (frame: Option<string>)
    ensures frame.Some? <==> autostart && Hashable(tag) && tag !in games
    ensures frame.Some? ==> frame.value == StartGameFrame(Str(tag))
  {
    if Hashable(tag) && tag !in games && autostart then Some(StartGameFrame(Str(tag))) else None
  }

  /** `_handle_invite_request`: queue the inviter unless it is the player. */
  function Enqueued(queue: seq<Json>, inviter: Json, username: string): (q: seq<Json>)
    ensures q == queue || q == queue + [inviter]
    ensures q != queue <==> inviter != JStr(username)
  {
    if inviter != JStr(username) then queue + [inviter] else queue
  }

  /** What the player does with the hook its client calls. */
  datatype Effect = Effect(games: map<Json, Game>, queue: seq<Json>, frame: Option<string>)

  function HookEffect(games: map<Json, Game>, queue: seq<Json>, hook: Hook, username: string,
                      autostart: bool, turnOf: Json -> Option<Color>, moveText: string): (e: Effect)
    requires TagsConsistent(games)
    ensures TagsConsistent(e.games)
    ensures forall k :: k in games ==> k in e.games && e.games[k].playerColor == games[k].playerColor
    ensures e.queue != queue ==> hook.InviteRequest?
    ensures e.frame.Some? ==> Classify(e.frame.value).Event?
  {
    match hook
    case NoHook => Effect(games, queue, None)
    case InviteRequest(inviter, _) => Effect(games, Enqueued(queue, inviter, username), None)
    case AcceptedInvite(tag) =>
      var frame := AutoStart(games, tag, autostart);
      Effect(games, queue, frame)
    case GameStartHook(message) => Effect(Registered(games, message, username, turnOf), queue, None)
    case IngameHook(payload) =>
      var r := IngameUpdate(games, payload, turnOf, moveText);
      Effect(r.games, queue, r.move)
  }

  /** The frames a send puts on the wire. */
  function Outgoing(frame: Option<string>, open: bool): seq<string> {
    if frame.Some? && open then [frame.value] else []
  }

  class Player {
    const client: ChessClient
    const autostart: bool
    /** `_games`, keyed by game tag. */
    var games: map<Json, Game>
    /** `_invite_queue`. */
    var inviteQueue: seq<Json>

    ghost predicate Valid()
      reads this
    {
      TagsConsistent(games)
    }

    constructor (client: ChessClient, autostart: bool)
      ensures this.client == client && this.autostart == autostart
      ensures games == map[] && inviteQueue == [] && Valid()
    {
      this.client, this.autostart := client, autostart;
      games, inviteQueue := map[], [];
    }

    method CreateGame(message: map<string, Json>, turnOf: Json -> Option<Color>)
      requires Valid()
      modifies this`games
      ensures Valid()
      ensures games == Registered(old(games), message, client.username, turnOf)
    {
      var tag := Get(message, "id");
      if Hashable(tag) && tag !in games {
        var game := NewGame(message, client.username, turnOf);
        if game.Some? {
          games := games[tag := game.value];
        }
      }
    }

    /** `_handle_game_start`: register the game; the lookup that follows
        always finds it. */
    method HandleGameStart(message: map<string, Json>, turnOf: Json -> Option<Color>)
      requires Valid()
      modifies this`games
      ensures Valid()
      ensures games == Registered(old(games), message, client.username, turnOf)
    {
      CreateGame(message, turnOf);
    }

    method HandleGameRequest(game: Game, moveText: string)
      requires Hashable(game.gameTag)
      modifies client`sent
      ensures client.sent == old(client.sent) + Outgoing(GameRequest(game, moveText), client.wsOpen)
    {
      if game.toPlay == game.playerColor {
        client.SendMessage(MoveFrame(Str(game.gameTag), moveText));
      }
    }

    method HandleIngameMessage(payload: Json, turnOf: Json -> Option<Color>, moveText: string)
      requires Valid()
      modifies this`games, client`sent
      ensures Valid()
      ensures games == IngameUpdate(old(games), payload, turnOf, moveText).games
      ensures client.sent ==
        old(client.sent) + Outgoing(IngameUpdate(old(games), payload, turnOf, moveText).move, client.wsOpen)
    {
      if Gated(games, payload) {
        var tag := GameTag(payload.fields);
        var game := games[tag].(gameFen := Get(payload.fields, "fen"));
        games := games[tag := game];
        var side := turnOf(game.gameFen);
        if side.Some? {
          game := game.(toPlay := side.value);
          games := games[tag := game];
          HandleGameRequest(game, moveText);
        }
      }
    }

    method StartGame(tag: string)
      modifies client`sent
      ensures client.sent == old(client.sent) + Outgoing(Some(StartGameFrame(tag)), client.wsOpen)
    {
      client.SendMessage(StartGameFrame(tag));
    }

    method HandleAcceptedInvite(tag: Json)
      modifies client`sent
      ensures client.sent == old(client.sent) + Outgoing(AutoStart(games, tag, autostart), client.wsOpen)
    {
      if Hashable(tag) && tag !in games && autostart {
        StartGame(Str(tag));
      }
    }

    /** `_handle_playerJoined`: the same autostart rule. The client never
        calls it (its call in `handle_event` is commented out), so `OnFrame`
        does not either. */
    method HandlePlayerJoined(tag: Json)
      modifies client`sent
      ensures client.sent == old(client.sent) + Outgoing(AutoStart(games, tag, autostart), client.wsOpen)
    {
      if Hashable(tag) && tag !in games && autostart {
        StartGame(Str(tag));
      }
    }

    method HandleInviteRequest(inviter: Json, roomId: Json)
      modifies this`inviteQueue
      ensures inviteQueue == Enqueued(old(inviteQueue), inviter, client.username)
    {
      if inviter != JStr(client.username) {
        inviteQueue := inviteQueue + [inviter];
      }
    }

    /** One received frame: the client handles it, then the hook it calls
        runs. */
    method OnFrame(frame: string, decode: string -> Option<Json>, turnOf: Json -> Option<Color>,
                   moveText: string)
      requires Valid()
      modifies this, client
      ensures Valid()
      ensures var (view, hook) := HandleFrame(old(client.State()), frame, decode, client.username, client.wsOpen);
        var e := HookEffect(old(games), old(inviteQueue), hook, client.username, autostart, turnOf, moveText);
        && games == e.games && inviteQueue == e.queue
        && client.State() == view.(sent := view.sent + Outgoing(e.frame, client.wsOpen))
    {
      var hook := client.MessageHandler(frame, decode);
      match hook
      case NoHook =>
      case InviteRequest(inviter, roomId) => HandleInviteRequest(inviter, roomId);
      case AcceptedInvite(tag) => HandleAcceptedInvite(tag);
      case GameStartHook(message) => HandleGameStart(message, turnOf);
      case IngameHook(payload) => HandleIngameMessage(payload, turnOf, moveText);
    }
  }
}
