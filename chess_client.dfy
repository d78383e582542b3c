/** The client half of python-sdk/trainer/chess_client.py: how a received
    frame updates the client's state and what it sends back. JSON decoding
    is the parameter `decode` (`None` when `json.loads` raises); sending
    appends to `sent` when the WebSocket is open, as `send_message` does. */
module ChessClientModel {
  import opened PyValues
  import opened Frames
  import opened Types

  /** What `handle_event` passes on to the hooks a player installs. */
  datatype Hook =
    | NoHook
    | InviteRequest(inviter: Json, roomId: Json)
    | AcceptedInvite(tag: Json)
    | GameStartHook(message: map<string, Json>)
    | IngameHook(payload: Json)

  /** What `handle_event` does with one decoded event array. */
  datatype EventAction =
    | RecordName(name: Json)
    | RecordInvitationResponse(response: Json)
    | CallHook(hook: Hook)
    | Ignore

  /** Element 1 of the event array, or `None` when the array has one element. */
  function Payload(items: seq<Json>): Json {
    if |items| > 1 then items[1] else JNull
  }

  /** The events `handle_event` acts on; `playerJoined` is not one of them,
      since its hook call is commented out. */
  const HandledEvents: set<Json> := {
    JStr("playerNameSet"), JStr("invitationSent"), JStr("invitationError"), JStr("invitation"),
    JStr("inviteAccepted"), JStr("gameStart"), JStr("gameState")}

  /** `handle_event`: the event name is element 0. A branch that calls
      `payload.get` on something that is not a dict raises and does
      nothing; `playerJoined` and unknown events do nothing. */
  function Decide(items: seq<Json>): (a: EventAction)
    requires items != []
    ensures a.RecordName? <==> items[0] == JStr("playerNameSet") && Payload(items).JObj?
    ensures a.RecordName? ==> a.name == Get(Payload(items).fields, "name")
    ensures a.RecordInvitationResponse? <==>
      items[0] == JStr("invitationSent") || items[0] == JStr("invitationError")
    ensures a.RecordInvitationResponse? ==> a.response == Payload(items)
    ensures (a.CallHook? && a.hook.InviteRequest?) <==>
      && items[0] == JStr("invitation") && Payload(items).JObj?
      && "from" in Payload(items).fields && "roomId" in Payload(items).fields
    ensures a.CallHook? && a.hook.InviteRequest? ==>
      a.hook == InviteRequest(Payload(items).fields["from"], Payload(items).fields["roomId"])
    ensures (a.CallHook? && a.hook.AcceptedInvite?) <==>
      items[0] == JStr("inviteAccepted") && Payload(items).JObj?
    ensures a.CallHook? && a.hook.AcceptedInvite? ==>
      a.hook == AcceptedInvite(Get(Payload(items).fields, "roomId"))
    ensures (a.CallHook? && a.hook.GameStartHook?) <==>
      items[0] == JStr("gameStart") && Payload(items).JObj?
    ensures a.CallHook? && a.hook.GameStartHook? ==> a.hook == GameStartHook(Payload(items).fields)
    ensures (a.CallHook? && a.hook.IngameHook?) <==> items[0] == JStr("gameState")
    ensures a.CallHook? && a.hook.IngameHook? ==> a.hook == IngameHook(Payload(items))
    ensures a.CallHook? ==> a.hook != NoHook
    ensures items[0] !in HandledEvents ==> a == Ignore
  {
    var event, payload := items[0], Payload(items);
    if event == JStr("playerNameSet") then
      if payload.JObj? then RecordName(Get(payload.fields, "name")) else Ignore
    else if event == JStr("invitationSent") || event == JStr("invitationError") then
      RecordInvitationResponse(payload)
    else if event == JStr("invitation") then
      if payload.JObj? && "from" in payload.fields && "roomId" in payload.fields then
        CallHook(InviteRequest(payload.fields["from"], payload.fields["roomId"]))
      else Ignore
    else if event == JStr("inviteAccepted") then
      if payload.JObj? then CallHook(AcceptedInvite(Get(payload.fields, "roomId"))) else Ignore
    else if event == JStr("gameStart") then
      if payload.JObj? then CallHook(GameStartHook(payload.fields)) else Ignore
    else if event == JStr("gameState") then
      CallHook(IngameHook(payload))
    else Ignore
  }

  /** The client state `message_handler` reads and writes. */
  datatype View = View(
    sid: Json,
    connected: bool,
    loggedIn: bool,
    playerName: Json,
    invitationResponse: Json,
    invitationSent: bool,
    sent: seq<string>)

  /** `send_message`: the frame goes out only while the socket is open. */
  function Send(v: View, open: bool, frame: string): View {
    if open then v.(sent := v.sent + [frame]) else v
  }

  /** `handle_event`'s state updates. A name is recorded whatever it is, but
      only a truthy one marks the client logged in (and nothing logs it out);
      both invitation replies are stored verbatim and signal
      `invitation_sent`. */
  function ApplyEvent(v: View, a: EventAction): (r: View)
    ensures r.sent == v.sent && r.sid == v.sid && r.connected == v.connected
    ensures r.loggedIn <==> v.loggedIn || (a.RecordName? && Truthy(a.name))
    ensures r.playerName == (if a.RecordName? then a.name else v.playerName)
    ensures a.RecordInvitationResponse? ==> r.invitationResponse == a.response && r.invitationSent
    ensures !a.RecordInvitationResponse? ==>
      r.invitationResponse == v.invitationResponse && r.invitationSent == v.invitationSent
    ensures !a.RecordName? && !a.RecordInvitationResponse? ==> r == v
  {
    match a
    case RecordName(name) => v.(playerName := name, loggedIn := v.loggedIn || Truthy(name))
    case RecordInvitationResponse(response) => v.(invitationResponse := response, invitationSent := true)
    case _ => v
  }

  /** `x / 1000` succeeds on a number (a bool is a number in Python). */
  predicate Divisible(j: Json) {
    j.JNum? || j.JBool?
  }

  /** A decoded handshake `handle_handshake` can read `sid` from. */
  predicate HasSid(decoded: Option<Json>) {
    decoded.Some? && decoded.value.JObj? && "sid" in decoded.value.fields
  }

  /** The ping interval and timeout, defaulted when missing, can be divided
      by 1000. */
  predicate PingsDivisible(fields: map<string, Json>) {
    && ("pingInterval" !in fields || Divisible(fields["pingInterval"]))
    && ("pingTimeout" !in fields || Divisible(fields["pingTimeout"]))
  }

  /** `handle_handshake` on the decoded handshake: it needs a dict with a
      `sid`; the ping interval and timeout (defaulted when missing) must be
      divisible, or it raises after having stored `sid`. */
  function AfterHandshake(v: View, decoded: Option<Json>, open: bool): (r: View)
    ensures !HasSid(decoded) ==> r == v
    ensures HasSid(decoded) ==> r.sid == decoded.value.fields["sid"]
    ensures HasSid(decoded) && PingsDivisible(decoded.value.fields) ==>
      r.connected && r.sent == v.sent + (if open then [ConnectFrame] else [])
    ensures HasSid(decoded) && !PingsDivisible(decoded.value.fields) ==>
      r.connected == v.connected && r.sent == v.sent
    ensures r.playerName == v.playerName && r.loggedIn == v.loggedIn
    ensures r.invitationResponse == v.invitationResponse && r.invitationSent == v.invitationSent
  {
    if HasSid(decoded) then
      var fields := decoded.value.fields;
      var withSid := v.(sid := fields["sid"]);
      if PingsDivisible(fields) then
        Send(withSid, open, ConnectFrame).(connected := true)
      else withSid
    else v
  }

  /** What `handle_event` hands to the hooks. */
  function HookOf(a: EventAction): Hook {
    if a.CallHook? then a.hook else NoHook
  }

  /** `message_handler`: the new state and the hook called, for one frame. */
  function HandleFrame(v: View, frame: string, decode: string -> Option<Json>, username: string, open: bool)
    : (r: (View, Hook))
    ensures Classify(frame).Unhandled? ==> r == (v, NoHook)
    ensures r.0.sid != v.sid ==> Classify(frame).Handshake?
    ensures Classify(frame).Handshake? ==>
      r == (AfterHandshake(v, decode(Classify(frame).body), open), NoHook)
    ensures Classify(frame).Event? ==>
      var decoded := decode(Classify(frame).body);
      if decoded.Some? && decoded.value.JArr? && decoded.value.items != [] then
        r == (ApplyEvent(v, Decide(decoded.value.items)), HookOf(Decide(decoded.value.items)))
      else r == (v, NoHook)
    ensures Classify(frame).Ping? ==> r == (Send(v, open, PongFrame), NoHook)
    ensures r.1 != NoHook ==> Classify(frame).Event?
    ensures Classify(frame).Event? ==> r.0.sent == v.sent
    ensures Classify(frame).SocketConnected? ==>
      r == (Send(v.(connected := true), open, SetPlayerNameFrame(username)), NoHook)
    ensures open && |r.0.sent| > |v.sent| && r.0.sent[|v.sent|] == PongFrame <==> open && frame == PingFrame
    ensures r.0.loggedIn != v.loggedIn ==>
      && Classify(frame).Event? && decode(Classify(frame).body).Some?
      && decode(Classify(frame).body).value.JArr?
      && decode(Classify(frame).body).value.items != []
      && decode(Classify(frame).body).value.items[0] == JStr("playerNameSet")
      && Truthy(r.0.playerName)
  {
    match Classify(frame)
    case Handshake(body) => (AfterHandshake(v, decode(body), open), NoHook)
    case SocketConnected =>
      var r := Send(v.(connected := true), open, SetPlayerNameFrame(username));
      assert open ==> SetPlayerNameFrame(username) != PongFrame by {
        assert Classify(SetPlayerNameFrame(username)).Event?;
      }
      (r, NoHook)
    case Event(body) =>
      var decoded := decode(body);
      if decoded.Some? && decoded.value.JArr? && decoded.value.items != [] then
        var a := Decide(decoded.value.items);
        (ApplyEvent(v, a), HookOf(a))
      else (v, NoHook)
    case Ping => (Send(v, open, PongFrame), NoHook)
    case Unhandled => (v, NoHook)
  }

  /** `invite_player` once connected: it asserts the client is logged in
      (and does nothing otherwise), clears `invitation_sent`, then sends the
      invitation. Waiting for the reply is not modelled. */
  function AfterInvite(v: View, invitee: string, open: bool): (r: View)
    ensures !v.loggedIn ==> r == v
    ensures v.loggedIn ==> !r.invitationSent
    ensures v.loggedIn ==> r.sent == v.sent + (if open then [InvitePlayerFrame(invitee)] else [])
    ensures r.sid == v.sid && r.connected == v.connected && r.loggedIn == v.loggedIn
    ensures r.playerName == v.playerName && r.invitationResponse == v.invitationResponse
  {
    if !v.loggedIn then v else Send(v.(invitationSent := false), open, InvitePlayerFrame(invitee))
  }

  class ChessClient {
    const username: string
    /** Whether the WebSocket is open; the handlers never change it. */
    const wsOpen: bool
    var sid: Json
    var connected: bool
    var loggedIn: bool
    var playerName: Json
    var invitationResponse: Json
    var invitationSent: bool
    /** Every frame sent, in order. */
    var sent: seq<string>

    ghost function State(): View
      reads this
    {
      View(sid, connected, loggedIn, playerName, invitationResponse, invitationSent, sent)
    }

    constructor (username: string, wsOpen: bool)
      ensures this.username == username && this.wsOpen == wsOpen
      ensures State() == View(JNull, false, false, JNull, JNull, false, [])
    {
      this.username, this.wsOpen := username, wsOpen;
      sid, connected, loggedIn, playerName := JNull, false, false, JNull;
      invitationResponse, invitationSent, sent := JNull, false, [];
    }

    method SendMessage(data: string)
      modifies this`sent
      ensures State() == Send(old(State()), wsOpen, data)
    {
      if wsOpen {
        sent := sent + [data];
      }
    }

    method HandleHandshake(body: string, decode: string -> Option<Json>)
      modifies this`sid, this`connected, this`sent
      ensures State() == AfterHandshake(old(State()), decode(body), wsOpen)
    {
      var decoded := decode(body);
      if decoded.Some? && decoded.value.JObj? && "sid" in decoded.value.fields {
        var fields := decoded.value.fields;
        sid := fields["sid"];
        if PingsDivisible(fields) {
          SendMessage(ConnectFrame);
          connected := true;
        }
      }
    }

    method HandleEvent(items: seq<Json>) returns (hook: Hook)
      requires items != []
      modifies this`playerName, this`loggedIn, this`invitationResponse, this`invitationSent
      ensures State() == ApplyEvent(old(State()), Decide(items))
      ensures hook == HookOf(Decide(items))
    {
      var event, payload := items[0], Payload(items);
      hook := NoHook;
      if event == JStr("playerNameSet") {
        if payload.JObj? {
          playerName := Get(payload.fields, "name");
          if Truthy(playerName) {
            loggedIn := true;
          }
        }
      } else if event == JStr("invitationSent") || event == JStr("invitationError") {
        invitationResponse := payload;
        invitationSent := true;
      } else if event == JStr("invitation") {
        if payload.JObj? && "from" in payload.fields && "roomId" in payload.fields {
          hook := InviteRequest(payload.fields["from"], payload.fields["roomId"]);
        }
      } else if event == JStr("inviteAccepted") {
        if payload.JObj? {
          hook := AcceptedInvite(Get(payload.fields, "roomId"));
        }
      } else if event == JStr("gameStart") {
        if payload.JObj? {
          hook := GameStartHook(payload.fields);
        }
      } else if event == JStr("gameState") {
        hook := IngameHook(payload);
      }
    }

    /** `log_in`, once connected: send the `setPlayerName` event. */
    method LogIn(name: string)
      requires connected
      modifies this`sent
      ensures State() == Send(old(State()), wsOpen, SetPlayerNameFrame(name))
    {
      SendMessage(SetPlayerNameFrame(name));
    }

    method MessageHandler(frame: string, decode: string -> Option<Json>) returns (hook: Hook)
      modifies this
      ensures (State(), hook) == HandleFrame(old(State()), frame, decode, username, wsOpen)
    {
      hook := NoHook;
      if |frame| >= 1 && frame[0] == EngineOpen {
        HandleHandshake(frame[1..], decode);
      } else if |frame| >= 2 && frame[0] == EngineMessage && frame[1] == SocketConnect {
        connected := true;
        LogIn(username);
      } else if |frame| >= 2 && frame[0] == EngineMessage && frame[1] == SocketEvent {
        var decoded := decode(frame[2..]);
        if decoded.Some? && decoded.value.JArr? && decoded.value.items != [] {
          hook := HandleEvent(decoded.value.items);
        }
      } else if frame == PingFrame {
        SendMessage(PongFrame);
      }
    }

    /** `invite_player`, once connected. */
    method InvitePlayer(invitee: string)
      requires connected
      modifies this`invitationSent, this`sent
      ensures State() == AfterInvite(old(State()), invitee, wsOpen)
    {
      if loggedIn {
        invitationSent := false;
        SendMessage(InvitePlayerFrame(invitee));
      }
    }
  }
}
