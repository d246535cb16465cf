/** The socket.io side of the gateway as values: which sockets are connected,
    which rooms they are in, what each socket has been sent, and the
    video-room departure listeners each socket has registered. Each chat or
    video event a socket sends is a transition of this state.

    `socket.to(room).emit(event, payload)` sends to every socket in `room`
    except the sending socket; every socket is, from its connection on, in a
    room named after its own id; on disconnect a socket leaves every room and
    rooms left empty disappear. Each socket's received events are kept in
    order; no order is fixed between different recipients. */
module Rooms {

  type SocketId = string
  type RoomKey = string

  const RECEIVE_MESSAGE: string := "receive_message"
  const USER_TYPING: string := "user_typing"
  const USER_STOPPED_TYPING: string := "user_stopped_typing"
  const RECEIVE_REACTION: string := "receive_reaction"
  const USER_CONNECTED: string := "user-connected"
  const USER_DISCONNECTED: string := "user-disconnected"

  /** A chat message or reaction object: its `collabId` names the room, the
      rest of its fields are relayed untouched. */
  datatype ChatData = ChatData(collabId: RoomKey, fields: string)

  datatype Payload =
    | Relayed(data: ChatData)
    | TypingUser(user: string)
    | PeerJoined(peerId: string, userName: string)
    | PeerLeft(peerId: string)

  /** One event as a recipient receives it. */
  datatype Emitted = Emitted(event: string, payload: Payload)

  /** The events a connected socket sends to the server. */
  datatype ClientEvent =
    | JoinRoom(collabId: RoomKey)
    | SendMessage(data: ChatData)
    | Typing(collabId: RoomKey, user: string)
    | StopTyping(collabId: RoomKey, user: string)
    | SendReaction(data: ChatData)
    | JoinVideoRoom(roomId: RoomKey, peerId: string, userName: string)
    | LeaveVideoRoom(roomId: RoomKey, peerId: string)
  {
    /** The four events the server only relays to the rest of a room. */
    predicate IsRelay() {
      SendMessage? || Typing? || StopTyping? || SendReaction?
    }

    /** The room a relayed event goes to. */
    function Target(): RoomKey
      requires IsRelay()
    {
      match this
      case SendMessage(d) => d.collabId
      case Typing(k, _) => k
      case StopTyping(k, _) => k
      case SendReaction(d) => d.collabId
    }

    /** What the other members of the room receive for a relayed event. */
    function Relay(): Emitted
      requires IsRelay()
    {
      match this
      case SendMessage(d) => Emitted(RECEIVE_MESSAGE, Relayed(d))
      case Typing(_, u) => Emitted(USER_TYPING, TypingUser(u))
      case StopTyping(_, u) => Emitted(USER_STOPPED_TYPING, TypingUser(u))
      case SendReaction(d) => Emitted(RECEIVE_REACTION, Relayed(d))
    }
  }

  /** A disconnect listener registered by `join-video-room`: on disconnect it
      tells the room that this peer left. */
  datatype VideoSession = VideoSession(roomId: RoomKey, peerId: string)

  datatype Hub = Hub(
    connected: set<SocketId>,
    rooms: map<RoomKey, set<SocketId>>,
    inbox: map<SocketId, seq<Emitted>>,
    videoSessions: map<SocketId, seq<VideoSession>>)

  /** Every connected socket has an inbox and a list of video listeners;
      rooms are non-empty and hold only connected sockets. */
  ghost predicate Valid(h: Hub) {
    && h.connected <= h.inbox.Keys
    && h.videoSessions.Keys == h.connected
    && (forall r :: r in h.rooms ==> h.rooms[r] != {} && h.rooms[r] <= h.connected)
  }

  const EMPTY_HUB: Hub := Hub({}, map[], map[], map[])

  function Members(rooms: map<RoomKey, set<SocketId>>, room: RoomKey): set<SocketId> {
    if room in rooms then rooms[room] else {}
  }

  /** `socket.join(room)`. */
  function Join(rooms: map<RoomKey, set<SocketId>>, room: RoomKey, s: SocketId): map<RoomKey, set<SocketId>> {
    rooms[room := Members(rooms, room) + {s}]
  }

  /** Leaving every room on disconnect; rooms left empty are dropped. */
  function LeaveAll(rooms: map<RoomKey, set<SocketId>>, s: SocketId): map<RoomKey, set<SocketId>> {
    map r | r in rooms && rooms[r] - {s} != {} :: rooms[r] - {s}
  }

  /** Appends `e` to the inbox of each socket in `to`. */
  function Deliver(inbox: map<SocketId, seq<Emitted>>, to: set<SocketId>, e: Emitted): map<SocketId, seq<Emitted>> {
    map t | t in inbox :: if t in to then inbox[t] + [e] else inbox[t]
  }

  /** `socket.to(room).emit(...)` from `sender`. */
  function ToOthers(h: Hub, sender: SocketId, room: RoomKey, e: Emitted): Hub {
    h.(inbox := Deliver(h.inbox, Members(h.rooms, room) - {sender}, e))
  }

  /** A new socket connects; socket ids are never reused. */
  function Connect(h: Hub, s: SocketId): Hub
    requires s !in h.inbox
  {
    Hub(h.connected + {s}, Join(h.rooms, s, s), h.inbox[s := []], h.videoSessions[s := []])
  }

  /** The server's listener for `ev` sent by socket `s`. */
  function Handle(h: Hub, s: SocketId, ev: ClientEvent): Hub
    requires Valid(h) && s in h.connected
  {
    match ev
    case JoinRoom(k) =>
      h.(rooms := Join(h.rooms, k, s))
    case SendMessage(d) =>
      ToOthers(h, s, d.collabId, Emitted(RECEIVE_MESSAGE, Relayed(d)))
    case Typing(k, u) =>
      ToOthers(h, s, k, Emitted(USER_TYPING, TypingUser(u)))
    case StopTyping(k, u) =>
      ToOthers(h, s, k, Emitted(USER_STOPPED_TYPING, TypingUser(u)))
    case SendReaction(d) =>
      ToOthers(h, s, d.collabId, Emitted(RECEIVE_REACTION, Relayed(d)))
    case JoinVideoRoom(k, p, n) =>
      var joined := ToOthers(h.(rooms := Join(h.rooms, k, s)), s, k, Emitted(USER_CONNECTED, PeerJoined(p, n)));
      joined.(videoSessions := joined.videoSessions[s := joined.videoSessions[s] + [VideoSession(k, p)]])
    case LeaveVideoRoom(k, p) =>
      ToOthers(h, s, k, Emitted(USER_DISCONNECTED, PeerLeft(p)))
  }

  /** The video disconnect listeners of `s`, run in the order they were
      registered. */
  function NotifyDepartures(h: Hub, s: SocketId, sessions: seq<VideoSession>): Hub
    decreases |sessions|
  {
    if sessions == [] then h
    else
      var departed := ToOthers(h, s, sessions[0].roomId, Emitted(USER_DISCONNECTED, PeerLeft(sessions[0].peerId)));
      NotifyDepartures(departed, s, sessions[1..])
  }

  /** Socket `s` disconnects: it leaves every room, then its video disconnect
      listeners run. */
  function Disconnect(h: Hub, s: SocketId): Hub
    requires Valid(h) && s in h.connected
  {
    var left := Hub(h.connected - {s}, LeaveAll(h.rooms, s), h.inbox, h.videoSessions - {s});
    NotifyDepartures(left, s, h.videoSessions[s])
  }

  // ----- Invariants -----

  /** A new socket is connected, in the room named after it, with an empty
      inbox and no video listeners; every other socket keeps its rooms, its
      inbox and its listeners, and the hub stays well formed. */
  lemma ConnectPreservesValid(h: Hub, s: SocketId)
    requires Valid(h) && s !in h.inbox
    ensures Valid(Connect(h, s))
    ensures Connect(h, s).connected == h.connected + {s}
    ensures forall r :: Members(Connect(h, s).rooms, r) == Members(h.rooms, r) + (if r == s then {s} else {})
    ensures Connect(h, s).inbox.Keys == h.inbox.Keys + {s}
    ensures Connect(h, s).inbox[s] == []
    ensures forall t :: t in h.inbox ==> Connect(h, s).inbox[t] == h.inbox[t]
    ensures Connect(h, s).videoSessions == h.videoSessions[s := []]
  {
  }

  /** Every event keeps the hub well formed. */
  lemma HandlePreservesValid(h: Hub, s: SocketId, ev: ClientEvent)
    requires Valid(h) && s in h.connected
    ensures Valid(Handle(h, s, ev))
    ensures Handle(h, s, ev).connected == h.connected
  {
  }

  lemma {:induction false} NotifyDeparturesKeepsRooms(h: Hub, s: SocketId, sessions: seq<VideoSession>)
    ensures NotifyDepartures(h, s, sessions).connected == h.connected
    ensures NotifyDepartures(h, s, sessions).rooms == h.rooms
    ensures NotifyDepartures(h, s, sessions).videoSessions == h.videoSessions
    ensures NotifyDepartures(h, s, sessions).inbox.Keys == h.inbox.Keys
    decreases |sessions|
  {
    if sessions != [] {
      var departed := ToOthers(h, s, sessions[0].roomId, Emitted(USER_DISCONNECTED, PeerLeft(sessions[0].peerId)));
      NotifyDeparturesKeepsRooms(departed, s, sessions[1..]);
    }
  }

  /** A disconnected socket is in no room, no longer connected and has no
      listeners left; every other socket keeps its rooms and its listeners,
      and the hub stays well formed. */
  lemma DisconnectPreservesValid(h: Hub, s: SocketId)
    requires Valid(h) && s in h.connected
    ensures Valid(Disconnect(h, s))
    ensures Disconnect(h, s).connected == h.connected - {s}
    ensures forall r :: r in Disconnect(h, s).rooms ==> s !in Disconnect(h, s).rooms[r]
    ensures forall r :: Members(Disconnect(h, s).rooms, r) == Members(h.rooms, r) - {s}
    ensures Disconnect(h, s).videoSessions == h.videoSessions - {s}
    ensures Disconnect(h, s).inbox.Keys == h.inbox.Keys
    ensures Disconnect(h, s).inbox[s] == h.inbox[s]
  {
    var left := Hub(h.connected - {s}, LeaveAll(h.rooms, s), h.inbox, h.videoSessions - {s});
    NotifyDeparturesKeepsRooms(left, s, h.videoSessions[s]);
    NotifyDeparturesSkipsLeaver(left, s, h.videoSessions[s]);
  }

  /** The departure notices of a leaving socket never reach the socket
      itself. */
  lemma {:induction false} NotifyDeparturesSkipsLeaver(h: Hub, s: SocketId, sessions: seq<VideoSession>)
    requires s in h.inbox
    ensures s in NotifyDepartures(h, s, sessions).inbox
    ensures NotifyDepartures(h, s, sessions).inbox[s] == h.inbox[s]
    decreases |sessions|
  {
    if sessions != [] {
      var departed := ToOthers(h, s, sessions[0].roomId, Emitted(USER_DISCONNECTED, PeerLeft(sessions[0].peerId)));
      NotifyDeparturesSkipsLeaver(departed, s, sessions[1..]);
    }
  }

  // ----- Fan-out -----

  /** No event is ever echoed to the socket that sent it: neither one of the
      events it sends nor, when it disconnects, its own departure notices. */
  lemma NoEchoToSender(h: Hub, s: SocketId, ev: ClientEvent)
    requires Valid(h) && s in h.connected
    ensures s in Handle(h, s, ev).inbox
    ensures Handle(h, s, ev).inbox[s] == h.inbox[s]
    ensures s in Disconnect(h, s).inbox
    ensures Disconnect(h, s).inbox[s] == h.inbox[s]
  {
    DisconnectPreservesValid(h, s);
  }

  /** `send_message`, `typing`, `stop_typing` and `send_reaction` deliver
      their event once to every member of the named room except the sender,
      to nobody else, and change no membership. */
  lemma RelayReachesOtherMembers(h: Hub, s: SocketId, ev: ClientEvent)
    requires Valid(h) && s in h.connected && ev.IsRelay()
    ensures Handle(h, s, ev).connected == h.connected
    ensures Handle(h, s, ev).rooms == h.rooms
    ensures Handle(h, s, ev).videoSessions == h.videoSessions
    ensures Handle(h, s, ev).inbox.Keys == h.inbox.Keys
    ensures forall t :: t in h.inbox ==>
      Handle(h, s, ev).inbox[t] ==
        if t in Members(h.rooms, ev.Target()) && t != s then h.inbox[t] + [ev.Relay()] else h.inbox[t]
  {
  }

  /** `join_room` adds the socket to the room, sends nothing and registers
      no listener. */
  lemma JoinRoomOnlyJoins(h: Hub, s: SocketId, room: RoomKey)
    requires Valid(h) && s in h.connected
    ensures Handle(h, s, JoinRoom(room)).inbox == h.inbox
    ensures Handle(h, s, JoinRoom(room)).videoSessions == h.videoSessions
    ensures Members(Handle(h, s, JoinRoom(room)).rooms, room) == Members(h.rooms, room) + {s}
    ensures forall r :: r != room ==> Members(Handle(h, s, JoinRoom(room)).rooms, r) == Members(h.rooms, r)
  {
  }

  /** `join-video-room` puts the socket in the room and in no other,
      announces the peer to the room's other members (not to the socket
      itself), and registers one more departure listener for the room, on
      this socket only. */
  lemma JoinVideoRoomAnnounces(h: Hub, s: SocketId, room: RoomKey, peer: string, name: string)
    requires Valid(h) && s in h.connected
    ensures Members(Handle(h, s, JoinVideoRoom(room, peer, name)).rooms, room) == Members(h.rooms, room) + {s}
    ensures forall r :: r != room ==> Members(Handle(h, s, JoinVideoRoom(room, peer, name)).rooms, r) == Members(h.rooms, r)
    ensures Handle(h, s, JoinVideoRoom(room, peer, name)).inbox.Keys == h.inbox.Keys
    ensures forall t :: t in h.inbox ==>
      Handle(h, s, JoinVideoRoom(room, peer, name)).inbox[t] ==
        if t in Members(h.rooms, room) && t != s
        then h.inbox[t] + [Emitted(USER_CONNECTED, PeerJoined(peer, name))]
        else h.inbox[t]
    ensures Handle(h, s, JoinVideoRoom(room, peer, name)).videoSessions ==
      h.videoSessions[s := h.videoSessions[s] + [VideoSession(room, peer)]]
    ensures Handle(h, s, JoinVideoRoom(room, peer, name)).connected == h.connected
  {
  }

  /** `leave-video-room` tells the room's other members that the peer left,
      but leaves the socket in the room and its departure listener in place. */
  lemma LeaveVideoRoomKeepsMembership(h: Hub, s: SocketId, room: RoomKey, peer: string)
    requires Valid(h) && s in h.connected
    ensures Handle(h, s, LeaveVideoRoom(room, peer)).rooms == h.rooms
    ensures Handle(h, s, LeaveVideoRoom(room, peer)).videoSessions == h.videoSessions
    ensures Handle(h, s, LeaveVideoRoom(room, peer)).inbox.Keys == h.inbox.Keys
    ensures forall t :: t in h.inbox ==>
      Handle(h, s, LeaveVideoRoom(room, peer)).inbox[t] ==
        if t in Members(h.rooms, room) && t != s
        then h.inbox[t] + [Emitted(USER_DISCONNECTED, PeerLeft(peer))]
        else h.inbox[t]
  {
  }

  // ----- Departures -----

  /** The departure notices socket `t` gets from the listeners `sessions`:
      one for each listener whose room `t` is in. */
  function DeparturesFor(rooms: map<RoomKey, set<SocketId>>, t: SocketId, sessions: seq<VideoSession>): seq<Emitted>
    decreases |sessions|
  {
    if sessions == [] then []
    else
      (if t in Members(rooms, sessions[0].roomId) then [Emitted(USER_DISCONNECTED, PeerLeft(sessions[0].peerId))] else [])
      + DeparturesFor(rooms, t, sessions[1..])
  }

  lemma {:induction false} NotifyDeparturesDelivers(h: Hub, s: SocketId, sessions: seq<VideoSession>, t: SocketId)
    requires t in h.inbox && t != s
    ensures t in NotifyDepartures(h, s, sessions).inbox
    ensures NotifyDepartures(h, s, sessions).inbox[t] == h.inbox[t] + DeparturesFor(h.rooms, t, sessions)
    decreases |sessions|
  {
    if sessions != [] {
      var departed := ToOthers(h, s, sessions[0].roomId, Emitted(USER_DISCONNECTED, PeerLeft(sessions[0].peerId)));
      NotifyDeparturesDelivers(departed, s, sessions[1..], t);
    }
  }

  lemma {:induction false} DeparturesIgnoreLeaver(rooms: map<RoomKey, set<SocketId>>, s: SocketId, t: SocketId, sessions: seq<VideoSession>)
    requires t != s
    ensures DeparturesFor(LeaveAll(rooms, s), t, sessions) == DeparturesFor(rooms, t, sessions)
    decreases |sessions|
  {
    if sessions != [] {
      DeparturesIgnoreLeaver(rooms, s, t, sessions[1..]);
    }
  }

  /** On disconnect, every other socket gets one departure notice for each
      `join-video-room` of the leaver whose room it is in, appended to what it
      had. */
  lemma DisconnectNotifiesPerVideoJoin(h: Hub, s: SocketId, t: SocketId)
    requires Valid(h) && s in h.connected
    requires t in h.inbox && t != s
    ensures t in Disconnect(h, s).inbox
    ensures Disconnect(h, s).inbox[t] == h.inbox[t] + DeparturesFor(h.rooms, t, h.videoSessions[s])
  {
    var left := Hub(h.connected - {s}, LeaveAll(h.rooms, s), h.inbox, h.videoSessions - {s});
    NotifyDeparturesDelivers(left, s, h.videoSessions[s], t);
    DeparturesIgnoreLeaver(h.rooms, s, t, h.videoSessions[s]);
  }

  /** A socket joins a video room, leaves it, then disconnects. */
  ghost function JoinLeaveDisconnect(h: Hub, a: SocketId, room: RoomKey, peer: string, name: string): Hub
    requires Valid(h) && a in h.connected
  {
    HandlePreservesValid(h, a, JoinVideoRoom(room, peer, name));
    var joined := Handle(h, a, JoinVideoRoom(room, peer, name));
    HandlePreservesValid(joined, a, LeaveVideoRoom(room, peer));
    Disconnect(Handle(joined, a, LeaveVideoRoom(room, peer)), a)
  }

  /** A peer that leaves a video room and then disconnects is announced as
      gone twice to a member that stayed: `leave-video-room` notifies, and the
      disconnect listener its join registered notifies again. */
  lemma LeaveThenDisconnectNotifiesTwice(h: Hub, a: SocketId, b: SocketId, room: RoomKey, peer: string, name: string)
    requires Valid(h) && a in h.connected && b in h.connected && a != b
    requires b in Members(h.rooms, room)
    requires h.videoSessions[a] == []
    ensures b in JoinLeaveDisconnect(h, a, room, peer, name).inbox
    ensures JoinLeaveDisconnect(h, a, room, peer, name).inbox[b] == h.inbox[b] + [
      Emitted(USER_CONNECTED, PeerJoined(peer, name)),
      Emitted(USER_DISCONNECTED, PeerLeft(peer)),
      Emitted(USER_DISCONNECTED, PeerLeft(peer))]
  {
    var joined := Handle(h, a, JoinVideoRoom(room, peer, name));
    JoinThenLeave(h, a, b, room, peer, name);
    var leftRoom := Handle(joined, a, LeaveVideoRoom(room, peer));
    DisconnectAfterOneVideoJoin(leftRoom, a, b, room, peer);
  }

  /** The first two steps of the scenario above. */
  lemma JoinThenLeave(h: Hub, a: SocketId, b: SocketId, room: RoomKey, peer: string, name: string)
    requires Valid(h) && a in h.connected && b in h.connected && a != b
    requires b in Members(h.rooms, room)
    requires h.videoSessions[a] == []
    ensures Valid(Handle(h, a, JoinVideoRoom(room, peer, name)))
    ensures
      var joined := Handle(h, a, JoinVideoRoom(room, peer, name));
      && a in joined.connected
      && var leftRoom := Handle(joined, a, LeaveVideoRoom(room, peer));
      && Valid(leftRoom) && a in leftRoom.connected
      && b in leftRoom.inbox && b != a
      && leftRoom.inbox[b] == h.inbox[b] + [Emitted(USER_CONNECTED, PeerJoined(peer, name)), Emitted(USER_DISCONNECTED, PeerLeft(peer))]
      && leftRoom.videoSessions[a] == [VideoSession(room, peer)]
      && b in Members(leftRoom.rooms, room)
  {
    var joined := Handle(h, a, JoinVideoRoom(room, peer, name));
    HandlePreservesValid(h, a, JoinVideoRoom(room, peer, name));
    JoinVideoRoomAnnounces(h, a, room, peer, name);
    HandlePreservesValid(joined, a, LeaveVideoRoom(room, peer));
    LeaveVideoRoomKeepsMembership(joined, a, room, peer);
  }

  /** The last step: one registered listener, one more notice. */
  lemma DisconnectAfterOneVideoJoin(h: Hub, a: SocketId, b: SocketId, room: RoomKey, peer: string)
    requires Valid(h) && a in h.connected && b in h.inbox && a != b
    requires h.videoSessions[a] == [VideoSession(room, peer)]
    requires b in Members(h.rooms, room)
    ensures b in Disconnect(h, a).inbox
    ensures Disconnect(h, a).inbox[b] == h.inbox[b] + [Emitted(USER_DISCONNECTED, PeerLeft(peer))]
  {
    DisconnectNotifiesPerVideoJoin(h, a, b);
    assert DeparturesFor(h.rooms, b, [VideoSession(room, peer)]) == [Emitted(USER_DISCONNECTED, PeerLeft(peer))];
  }
}
