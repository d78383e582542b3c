/** How python-sdk/trainer/chess_client.py tells raw WebSocket frames apart,
    and the text frames it sends. The prefixes are packet types of the
    Engine.IO protocol (revision 4, section "Packet encoding": the first
    character of a frame is the packet type) and, inside an Engine.IO message
    packet, of the Socket.IO protocol (version 5, section "Packet types"). */
module Frames {

  /** Engine.IO packet types. */
  const EngineOpen: char := '0'
  const EnginePing: char := '2'
  const EnginePong: char := '3'
  const EngineMessage: char := '4'

  /** Socket.IO packet types. */
  const SocketConnect: char := '0'
  const SocketEvent: char := '2'

  /** `40`: a message packet carrying a Socket.IO CONNECT. */
  const ConnectFrame: string := [EngineMessage, SocketConnect]
  /** `42`: the prefix of a message packet carrying a Socket.IO EVENT. */
  const EventPrefix: string := [EngineMessage, SocketEvent]
  const PingFrame: string := [EnginePing]
  const PongFrame: string := [EnginePong]

  predicate StartsWith(s: string, prefix: string) {
    |prefix| <= |s| && forall i :: 0 <= i < |prefix| ==> s[i] == prefix[i]
  }

  /** The branches of `message_handler`, taken in the order it tests them. */
  datatype FrameKind =
    | Handshake(body: string)
    | SocketConnected
    | Event(body: string)
    | Ping
    | Unhandled

  /** Classify a frame by its prefix: `0` is the open handshake (its JSON
      follows the prefix), `40` the Socket.IO connection, `42` an event (its
      JSON array follows the prefix), exactly `2` a ping; nothing else is
      acted on. */
  function Classify(frame: string): (k: FrameKind)
    ensures k.Handshake? <==> StartsWith(frame, [EngineOpen])
    ensures k.Handshake? ==> [EngineOpen] + k.body == frame
    ensures k.SocketConnected? <==> StartsWith(frame, ConnectFrame)
    ensures k.Event? <==> StartsWith(frame, EventPrefix)
    ensures k.Event? ==> EventPrefix + k.body == frame
    ensures k.Ping? <==> frame == PingFrame
  {
    assert StartsWith(frame, [EngineOpen]) <==> |frame| >= 1 && frame[0] == EngineOpen;
    assert StartsWith(frame, ConnectFrame) <==> |frame| >= 2 && frame[0] == EngineMessage && frame[1] == SocketConnect;
    assert StartsWith(frame, EventPrefix) <==> |frame| >= 2 && frame[0] == EngineMessage && frame[1] == SocketEvent;
    if StartsWith(frame, [EngineOpen]) then Handshake(frame[1..])
    else if StartsWith(frame, ConnectFrame) then SocketConnected
    else if StartsWith(frame, EventPrefix) then Event(frame[2..])
    else if frame == PingFrame then Ping
    else Unhandled
  }

  /** A pong, a Socket.IO disconnect and a probe ping are all left alone. */
  lemma OnlyBarePingIsAnswered()
    ensures Classify(PongFrame) == Unhandled
    ensures Classify("41") == Unhandled
    ensures Classify("2probe") == Unhandled
  {
  }

  /** The event frame for a JSON array whose text is `body`. */
  function EventFrame(body: string): (f: string)
    ensures Classify(f) == Event(body)
  {
    assert (EventPrefix + body)[0] == EngineMessage && (EventPrefix + body)[1] == SocketEvent;
    assert (EventPrefix + body)[2..] == body;
    EventPrefix + body
  }

  /** `log_in`: `42["setPlayerName","<name>"]`, the name pasted in as is. */
  function SetPlayerNameFrame(name: string): (f: string)
    ensures Classify(f) == Event("[\"setPlayerName\",\"" + name + "\"]")
  {
    EventFrame("[\"setPlayerName\",\"" + name + "\"]")
  }

  /** `invite_player`: `42["invitePlayer", {"invitee": "<invitee>"}]`. */
  function InvitePlayerFrame(invitee: string): (f: string)
    ensures Classify(f) == Event("[\"invitePlayer\", {\"invitee\": \"" + invitee + "\"}]")
  {
    EventFrame("[\"invitePlayer\", {\"invitee\": \"" + invitee + "\"}]")
  }

  /** `_handle_game_request`: `42["move", {"roomId": "<tag>", "move": "<move>"}]`. */
  function MoveFrame(roomId: string, move: string): (f: string)
    ensures Classify(f) == Event("[\"move\", {\"roomId\": \"" + roomId + "\", \"move\": \"" + move + "\"}]")
  {
    EventFrame("[\"move\", {\"roomId\": \"" + roomId + "\", \"move\": \"" + move + "\"}]")
  }

  /** `start_game`: `42["startGame", "<tag>"]`. */
  function StartGameFrame(tag: string): (f: string)
    ensures Classify(f) == Event("[\"startGame\", \"" + tag + "\"]")
  {
    EventFrame("[\"startGame\", \"" + tag + "\"]")
  }
}
