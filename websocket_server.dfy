/**
 * The standalone WebSocket server (server/websocket-server.ts): connections grouped by the
 * `documentId` query parameter, with join/leave notices and relays of edits, typing and cursors.
 * A connection is an id; what each connection's handlers close over (its document, its generated
 * user id, name and colour) is kept in `conns`. Which connections are OPEN when a broadcast runs is
 * an input, as are the random user id and colour and the clock.
 */
module WebSocketServer {
  import opened Wrappers

  type ConnId = nat

  datatype Position = Position(line: int, ch: int)

  /** What a connection's handlers close over. */
  datatype ConnInfo = ConnInfo(documentId: string, userId: string, userName: string, color: string)

  /** An incoming frame after `JSON.parse`; a frame that does not parse is `None` at the call site. */
  datatype ClientMessage =
    | DocumentChange(content: Option<string>)
    | TypingStart
    | TypingStop
    | CursorUpdate(position: Option<Position>)
    | Other(kind: string)

  datatype ServerMessage =
    | UserJoined(id: string, userName: string, color: string)
    | DocumentChanged(userId: string, content: Option<string>, timestamp: string)
    | Typing(userId: string, userName: string, color: string)
    | StoppedTyping(userId: string)
    | CursorMoved(userId: string, position: Option<Position>)
    | UserLeft(userId: string, userName: string, color: string)

  /** One `broadcastToDocument` call: the message and the connections it was sent to. */
  datatype Delivery = Delivery(to: set<ConnId>, message: ServerMessage)

  datatype ServerState = ServerState(rooms: map<string, set<ConnId>>, conns: map<ConnId, ConnInfo>)

  datatype Step = Step(after: ServerState, accepted: bool, sent: seq<Delivery>)

  /** Rooms are never empty, hold only known connections, and each known connection is in its room. */
  ghost predicate Inv(s: ServerState)
  {
    && (forall d :: d in s.rooms ==> s.rooms[d] != {})
    && (forall d, c :: d in s.rooms && c in s.rooms[d] ==> c in s.conns && s.conns[c].documentId == d)
    && (forall c :: c in s.conns ==> s.conns[c].documentId in s.rooms && c in s.rooms[s.conns[c].documentId])
  }

  function Room(s: ServerState, documentId: string): set<ConnId>
  {
    if documentId in s.rooms then s.rooms[documentId] else {}
  }

  /** `broadcastToDocument(documentId, message, exclude)`: every open connection of the room except `exclude`. */
  function Audience(s: ServerState, documentId: string, exclude: Option<ConnId>, open: set<ConnId>): (to: set<ConnId>)
    ensures to <= Room(s, documentId) && to <= open
    ensures exclude.Some? ==> exclude.value !in to
    ensures forall c :: c in Room(s, documentId) && c in open && Some(c) != exclude ==> c in to
  {
    set c | c in Room(s, documentId) && c in open && Some(c) != exclude
  }

  /** `User ${userId.slice(-4)}` */
  function UserNameFor(userId: string): (name: string)
    ensures |name| == 5 + (if |userId| < 4 then |userId| else 4)
    ensures name[..5] == "User "
    ensures name[5..] == userId[|userId| - (|name| - 5)..]
  {
    var tail := if |userId| < 4 then userId else userId[|userId| - 4..];
    assert ("User " + tail)[5..] == tail;
    "User " + tail
  }

  /** A new connection: without a (truthy) `documentId` it is closed and not registered; otherwise it
      joins its document's room and the room's other open connections get `user_joined`. */
  function Connect(s: ServerState, conn: ConnId, documentId: Option<string>, userId: string, color: string,
                   open: set<ConnId>): (st: Step)
    requires conn !in s.conns
    ensures documentId.None? || documentId.value == "" ==> st == Step(s, false, [])
    ensures documentId.Some? && documentId.value != "" ==>
      var d := documentId.value;
      && st.accepted
      && st.after.rooms == s.rooms[d := Room(s, d) + {conn}]
      && st.after.conns == s.conns[conn := ConnInfo(d, userId, UserNameFor(userId), color)]
      && st.sent == [Delivery((Room(s, d) - {conn}) * open, UserJoined(userId, UserNameFor(userId), color))]
  {
    if documentId.None? || documentId.value == "" then Step(s, false, [])
    else
      var d := documentId.value;
      var after := ServerState(s.rooms[d := Room(s, d) + {conn}],
                               s.conns[conn := ConnInfo(d, userId, UserNameFor(userId), color)]);
      assert Audience(after, d, Some(conn), open) == (Room(s, d) - {conn}) * open;
      Step(after, true, [Delivery(Audience(after, d, Some(conn), open), UserJoined(userId, UserNameFor(userId), color))])
  }

  /** A frame on a registered connection. Nothing is stored; an unparsable frame or an unknown type
      sends nothing. Edits and typing-stop go to the whole room, the sender included; typing-start
      and cursor moves skip the sender. */
  function Message(s: ServerState, conn: ConnId, msg: Option<ClientMessage>, now: string, open: set<ConnId>)
    : (sent: seq<Delivery>)
    requires conn in s.conns
    ensures msg.None? || msg.value.Other? ==> sent == []
    ensures msg.Some? && !msg.value.Other? ==> |sent| == 1 && sent[0].to <= Room(s, s.conns[conn].documentId)
    ensures msg.Some? && !msg.value.Other? ==>
      sent[0].to == Audience(s, s.conns[conn].documentId,
                             if msg.value.TypingStart? || msg.value.CursorUpdate? then Some(conn) else None, open)
    ensures msg.Some? && msg.value.DocumentChange? ==>
      sent[0].message == DocumentChanged(s.conns[conn].userId, msg.value.content, now)
    ensures msg == Some(TypingStart) ==>
      sent[0].message == Typing(s.conns[conn].userId, s.conns[conn].userName, s.conns[conn].color)
    ensures msg == Some(TypingStop) ==> sent[0].message == StoppedTyping(s.conns[conn].userId)
    ensures msg.Some? && msg.value.CursorUpdate? ==>
      sent[0].message == CursorMoved(s.conns[conn].userId, msg.value.position)
  {
    var info := s.conns[conn];
    var d := info.documentId;
    match msg
    case None => []
    case Some(DocumentChange(content)) =>
      [Delivery(Audience(s, d, None, open), DocumentChanged(info.userId, content, now))]
    case Some(TypingStart) =>
      [Delivery(Audience(s, d, Some(conn), open), Typing(info.userId, info.userName, info.color))]
    case Some(TypingStop) =>
      [Delivery(Audience(s, d, None, open), StoppedTyping(info.userId))]
    case Some(CursorUpdate(position)) =>
      [Delivery(Audience(s, d, Some(conn), open), CursorMoved(info.userId, position))]
    case Some(Other(_)) => []
  }

  /** A connection closes: it leaves its room, the room goes once empty, and the rest hear `user_left`. */
  function Close(s: ServerState, conn: ConnId, open: set<ConnId>): (st: Step)
    requires conn in s.conns
    ensures conn !in st.after.conns && conn !in Room(st.after, s.conns[conn].documentId)
    ensures st.after.conns == s.conns - {conn}
    ensures Room(st.after, s.conns[conn].documentId) == Room(s, s.conns[conn].documentId) - {conn}
    ensures forall d :: d != s.conns[conn].documentId ==> Room(st.after, d) == Room(s, d)
    ensures st.accepted
    ensures st.sent == [Delivery(Audience(st.after, s.conns[conn].documentId, None, open),
                                 UserLeft(s.conns[conn].userId, s.conns[conn].userName, s.conns[conn].color))]
  {
    var info := s.conns[conn];
    var d := info.documentId;
    var rooms :=
      if d in s.rooms then
        (if s.rooms[d] - {conn} == {} then s.rooms - {d} else s.rooms[d := s.rooms[d] - {conn}])
      else s.rooms;
    var after := ServerState(rooms, s.conns - {conn});
    Step(after, true, [Delivery(Audience(after, d, None, open), UserLeft(info.userId, info.userName, info.color))])
  }

  lemma ConnectKeepsInv(s: ServerState, conn: ConnId, documentId: Option<string>, userId: string, color: string,
                        open: set<ConnId>)
    requires Inv(s) && conn !in s.conns
    ensures Inv(Connect(s, conn, documentId, userId, color, open).after)
  {
    if documentId.Some? && documentId.value != "" {
      var d := documentId.value;
      var after := Connect(s, conn, documentId, userId, color, open).after;
      forall e, c | e in after.rooms && c in after.rooms[e]
        ensures c in after.conns && after.conns[c].documentId == e
      {
        if c != conn {
          assert e != d ==> c in s.rooms[e];
          assert e == d ==> c in Room(s, d);
        }
      }
    }
  }

  lemma {:induction false} CloseKeepsInv(s: ServerState, conn: ConnId, open: set<ConnId>)
    requires Inv(s) && conn in s.conns
    ensures Inv(Close(s, conn, open).after)
  {
    var d := s.conns[conn].documentId;
    var after := Close(s, conn, open).after;
    forall c | c in after.conns
      ensures after.conns[c].documentId in after.rooms && c in after.rooms[after.conns[c].documentId]
    {
      assert c != conn && c in s.rooms[s.conns[c].documentId];
      if s.conns[c].documentId == d {
        assert c in s.rooms[d] - {conn};
      }
    }
  }

  /** Document isolation: whatever a registered connection causes to be sent reaches only open
      connections of its own document. */
  lemma {:induction false} MessagesStayInDocument(s: ServerState, conn: ConnId, msg: Option<ClientMessage>,
                                                  now: string, open: set<ConnId>, other: ConnId)
    requires Inv(s) && conn in s.conns && other in s.conns
    requires s.conns[other].documentId != s.conns[conn].documentId
    ensures forall i :: 0 <= i < |Message(s, conn, msg, now, open)| ==> other !in Message(s, conn, msg, now, open)[i].to
  {
  }

  /** Edits and typing-stop come back to an open sender; typing-start and cursor moves never do. */
  lemma SenderEcho(s: ServerState, conn: ConnId, msg: ClientMessage, now: string, open: set<ConnId>)
    requires Inv(s) && conn in s.conns && !msg.Other?
    ensures var sent := Message(s, conn, Some(msg), now, open);
      conn in sent[0].to <==> (conn in open && (msg.DocumentChange? || msg.TypingStop?))
  {
  }

  /** The connection that closes does not receive its own `user_left`, and no other document hears it. */
  lemma {:induction false} CloseNotifiesOnlyRemaining(s: ServerState, conn: ConnId, open: set<ConnId>)
    requires Inv(s) && conn in s.conns
    ensures var st := Close(s, conn, open);
      && |st.sent| == 1
      && conn !in st.sent[0].to
      && st.sent[0].to == (Room(s, s.conns[conn].documentId) - {conn}) * open
      && st.sent[0].message == UserLeft(s.conns[conn].userId, s.conns[conn].userName, s.conns[conn].color)
  {
  }

  /** The server object: the room map and each live connection's closed-over values. */
  class WsServer {
    var rooms: map<string, set<ConnId>>
    var conns: map<ConnId, ConnInfo>

    function State(): ServerState
      reads this
    {
      ServerState(rooms, conns)
    }

    ghost predicate Valid()
      reads this
    {
      Inv(State())
    }

    constructor ()
      ensures Valid() && State() == ServerState(map[], map[])
    {
      rooms := map[];
      conns := map[];
    }

    /** `broadcastToDocument`: visits the room's connections one by one. */
    method BroadcastToDocument(documentId: string, exclude: Option<ConnId>, open: set<ConnId>) returns (to: set<ConnId>)
      ensures to == Audience(State(), documentId, exclude, open)
    {
      to := {};
      if documentId !in rooms {
        return;
      }
      var pending := rooms[documentId];
      while pending != {}
        invariant pending <= rooms[documentId]
        invariant to == set c | c in rooms[documentId] - pending && c in open && Some(c) != exclude
        decreases pending
      {
        var c :| c in pending;
        if Some(c) != exclude && c in open {
          to := to + {c};
        }
        pending := pending - {c};
      }
    }

    method OnConnection(conn: ConnId, documentId: Option<string>, userId: string, color: string, open: set<ConnId>)
      returns (accepted: bool, sent: seq<Delivery>)
      requires Valid() && conn !in conns
      modifies this
      ensures Valid()
      ensures var st := Connect(old(State()), conn, documentId, userId, color, open);
        State() == st.after && accepted == st.accepted && sent == st.sent
    {
      ConnectKeepsInv(State(), conn, documentId, userId, color, open);
      if documentId.None? || documentId.value == "" {
        accepted, sent := false, [];
        return;
      }
      var d := documentId.value;
      var room := if d in rooms then rooms[d] else {};
      rooms := rooms[d := room + {conn}];
      var userName := UserNameFor(userId);
      conns := conns[conn := ConnInfo(d, userId, userName, color)];
      assert State() == Connect(old(State()), conn, documentId, userId, color, open).after;
      var to := BroadcastToDocument(d, Some(conn), open);
      assert to == (room - {conn}) * open;
      accepted, sent := true, [Delivery(to, UserJoined(userId, userName, color))];
    }

    method OnMessage(conn: ConnId, msg: Option<ClientMessage>, now: string, open: set<ConnId>)
      returns (sent: seq<Delivery>)
      requires conn in conns
      ensures sent == Message(State(), conn, msg, now, open)
    {
      var info := conns[conn];
      sent := [];
      if msg.None? {
        return;
      }
      match msg.value {
        case DocumentChange(content) =>
          var to := BroadcastToDocument(info.documentId, None, open);
          sent := [Delivery(to, DocumentChanged(info.userId, content, now))];
        case TypingStart =>
          var to := BroadcastToDocument(info.documentId, Some(conn), open);
          sent := [Delivery(to, Typing(info.userId, info.userName, info.color))];
        case TypingStop =>
          var to := BroadcastToDocument(info.documentId, None, open);
          sent := [Delivery(to, StoppedTyping(info.userId))];
        case CursorUpdate(position) =>
          var to := BroadcastToDocument(info.documentId, Some(conn), open);
          sent := [Delivery(to, CursorMoved(info.userId, position))];
        case Other(_) =>
      }
    }

    method OnClose(conn: ConnId, open: set<ConnId>) returns (sent: seq<Delivery>)
      requires Valid() && conn in conns
      modifies this
      ensures Valid()
      ensures var st := Close(old(State()), conn, open);
        State() == st.after && sent == st.sent
    {
      CloseKeepsInv(State(), conn, open);
      var info := conns[conn];
      if info.documentId in rooms {
        var left := rooms[info.documentId] - {conn};
        rooms := rooms[info.documentId := left];
        if left == {} {
          rooms := rooms - {info.documentId};
        }
      }
      conns := conns - {conn};
      var to := BroadcastToDocument(info.documentId, None, open);
      sent := [Delivery(to, UserLeft(info.userId, info.userName, info.color))];
    }
  }
}
