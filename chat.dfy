/** The socket.io chat and video-signalling handlers as state changed in
    place: the server object holds the connected sockets, room membership,
    what each socket has been sent and the video departure listeners, and
    each handler updates them. Every handler is proved to make exactly the
    transition the Rooms module gives for its event. */
module Chat {
  import opened Rooms

  class ChatServer {
    var connected: set<SocketId>
    var rooms: map<RoomKey, set<SocketId>>
    var inbox: map<SocketId, seq<Emitted>>
    var videoSessions: map<SocketId, seq<VideoSession>>

    function State(): Hub
      reads this
    {
      Hub(connected, rooms, inbox, videoSessions)
    }

    ghost predicate Valid()
      reads this
    {
      Rooms.Valid(State())
    }

    constructor ()
      ensures Valid() && State() == EMPTY_HUB
    {
      connected, rooms, inbox, videoSessions := {}, map[], map[], map[];
    }

    /** The connection listener: socket.io puts the new socket in the room
        named after its id. */
    method OnConnection(s: SocketId)
      requires Valid() && s !in inbox
      modifies this
      ensures Valid() && State() == Connect(old(State()), s)
    {
      connected := connected + {s};
      rooms := Join(rooms, s, s);
      inbox := inbox[s := []];
      videoSessions := videoSessions[s := []];
      ConnectPreservesValid(old(State()), s);
    }

    /** `socket.to(room).emit(e)` from `sender`. */
    method EmitToOthers(sender: SocketId, room: RoomKey, e: Emitted)
      modifies this
      ensures State() == ToOthers(old(State()), sender, room, e)
    {
      inbox := Deliver(inbox, Members(rooms, room) - {sender}, e);
    }

    /** `join_room`. */
    method OnJoinRoom(s: SocketId, collabId: RoomKey)
      requires Valid() && s in connected
      modifies this
      ensures Valid() && State() == Handle(old(State()), s, JoinRoom(collabId))
    {
      rooms := Join(rooms, collabId, s);
    }

    /** `send_message`: the message object goes to the rest of its room. */
    method OnSendMessage(s: SocketId, data: ChatData)
      requires Valid() && s in connected
      modifies this
      ensures Valid() && State() == Handle(old(State()), s, SendMessage(data))
    {
      EmitToOthers(s, data.collabId, Emitted(RECEIVE_MESSAGE, Relayed(data)));
      HandlePreservesValid(old(State()), s, SendMessage(data));
    }

    /** `typing`. */
    method OnTyping(s: SocketId, collabId: RoomKey, user: string)
      requires Valid() && s in connected
      modifies this
      ensures Valid() && State() == Handle(old(State()), s, Typing(collabId, user))
    {
      EmitToOthers(s, collabId, Emitted(USER_TYPING, TypingUser(user)));
      HandlePreservesValid(old(State()), s, Typing(collabId, user));
    }

    /** `stop_typing`. */
    method OnStopTyping(s: SocketId, collabId: RoomKey, user: string)
      requires Valid() && s in connected
      modifies this
      ensures Valid() && State() == Handle(old(State()), s, StopTyping(collabId, user))
    {
      EmitToOthers(s, collabId, Emitted(USER_STOPPED_TYPING, TypingUser(user)));
      HandlePreservesValid(old(State()), s, StopTyping(collabId, user));
    }

    /** `send_reaction`. */
    method OnSendReaction(s: SocketId, data: ChatData)
      requires Valid() && s in connected
      modifies this
      ensures Valid() && State() == Handle(old(State()), s, SendReaction(data))
    {
      EmitToOthers(s, data.collabId, Emitted(RECEIVE_REACTION, Relayed(data)));
      HandlePreservesValid(old(State()), s, SendReaction(data));
    }

    /** `join-video-room`: join, announce the peer to the others, and register
        a disconnect listener that will announce its departure. */
    method OnJoinVideoRoom(s: SocketId, roomId: RoomKey, peerId: string, userName: string)
      requires Valid() && s in connected
      modifies this
      ensures Valid() && State() == Handle(old(State()), s, JoinVideoRoom(roomId, peerId, userName))
    {
      rooms := Join(rooms, roomId, s);
      EmitToOthers(s, roomId, Emitted(USER_CONNECTED, PeerJoined(peerId, userName)));
      videoSessions := videoSessions[s := videoSessions[s] + [VideoSession(roomId, peerId)]];
      HandlePreservesValid(old(State()), s, JoinVideoRoom(roomId, peerId, userName));
    }

    /** `leave-video-room`: announce the departure; membership is untouched. */
    method OnLeaveVideoRoom(s: SocketId, roomId: RoomKey, peerId: string)
      requires Valid() && s in connected
      modifies this
      ensures Valid() && State() == Handle(old(State()), s, LeaveVideoRoom(roomId, peerId))
    {
      EmitToOthers(s, roomId, Emitted(USER_DISCONNECTED, PeerLeft(peerId)));
      HandlePreservesValid(old(State()), s, LeaveVideoRoom(roomId, peerId));
    }

    /** Disconnection: socket.io removes the socket from every room, then the
        socket's disconnect listeners run in registration order; the chat
        listener only logs, and each video listener announces one departure. */
    method OnDisconnect(s: SocketId)
      requires Valid() && s in connected
      modifies this
      ensures Valid() && State() == Disconnect(old(State()), s)
    {
      var listeners := videoSessions[s];
      connected := connected - {s};
      rooms := LeaveAll(rooms, s);
      videoSessions := videoSessions - {s};
      var i := 0;
      while i < |listeners|
        invariant 0 <= i <= |listeners|
        invariant NotifyDepartures(State(), s, listeners[i..]) == Disconnect(old(State()), s)
      {
        assert listeners[i..][1..] == listeners[i + 1..];
        EmitToOthers(s, listeners[i].roomId, Emitted(USER_DISCONNECTED, PeerLeft(listeners[i].peerId)));
        i := i + 1;
      }
      DisconnectPreservesValid(old(State()), s);
    }
  }
}
