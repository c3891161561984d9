/**
 * The Socket.IO collaboration server (lib/socket-server.ts): a registry of document rooms
 * (`documentSessions`: document id to the set of socket ids) and of per-socket presence records
 * (`userSessions`), updated by the join-document, document-change, cursor-update, typing-start,
 * typing-stop and disconnect handlers. Each handler is one atomic step; the database lookup of
 * join-document and the clock are inputs.
 */
module SocketServer {
  import opened Wrappers

  type SocketId = string

  datatype Cursor = Cursor(line: int, ch: int)

  /** The presence record kept per socket. */
  datatype UserPresence = UserPresence(userId: string, userName: string, documentId: string, cursor: Option<Cursor>)

  /** What join-document's database lookup finds for an existing document: the project's owner,
      the number of membership rows for the joining user, and whether the project is public. */
  datatype DocumentRecord = DocumentRecord(ownerId: string, membershipRows: nat, isPublic: bool)

  datatype Event =
    | Error(message: string)
      /** The room's presence records, keyed by socket (the list's order is not modelled). */
    | RoomUsers(users: map<SocketId, UserPresence>)
    | UserJoined(userId: string, userName: string, socketId: SocketId)
    | DocumentUpdated(content: string, cursor: Option<Cursor>, userId: string, userName: string, timestamp: string)
    | CursorUpdated(userId: string, userName: string, position: Cursor, socketId: SocketId)
    | UserTyping(userId: string, userName: string, socketId: SocketId)
    | UserStoppedTyping(socketId: SocketId)
    | UserLeft(userId: string, userName: string, socketId: SocketId)

  /** `socket.emit(e)` answers the acting socket; `socket.to(room).emit(e)` goes to the document's
      room without the acting socket. */
  datatype Emission = ToSelf(event: Event) | ToOthers(documentId: string, event: Event)

  datatype Registry = Registry(documentSessions: map<string, set<SocketId>>, userSessions: map<SocketId, UserPresence>)

  /** The state after a handler and what it emitted, in order. */
  datatype Step = Step(after: Registry, emitted: seq<Emission>)

  const NotFound := "Document not found"
  const AccessDenied := "Access denied"

  /** No empty room is kept, and every socket with a session is in the room of its session's document. */
  ghost predicate Inv(r: Registry)
  {
    && (forall d :: d in r.documentSessions ==> r.documentSessions[d] != {})
    && (forall s :: s in r.userSessions ==>
          r.userSessions[s].documentId in r.documentSessions
          && s in r.documentSessions[r.userSessions[s].documentId])
  }

  function Room(r: Registry, documentId: string): set<SocketId>
  {
    if documentId in r.documentSessions then r.documentSessions[documentId] else {}
  }

  /** The sockets that receive an emission made by `sender` once the step has run. */
  function Recipients(r: Registry, sender: SocketId, e: Emission): (to: set<SocketId>)
    ensures sender !in to
    ensures e.ToOthers? ==> to <= Room(r, e.documentId)
  {
    match e
    case ToSelf(_) => {}
    case ToOthers(d, _) => Room(r, d) - {sender}
  }

  /** A user may join when they own the project, hold a membership row, or the project is public. */
  predicate HasAccess(doc: DocumentRecord, userId: string)
  {
    doc.ownerId == userId || doc.membershipRows > 0 || doc.isPublic
  }

  /** The presence records of the room's sockets that have one (`.map(get).filter(Boolean)`). */
  function RoomPresence(room: set<SocketId>, sessions: map<SocketId, UserPresence>): (users: map<SocketId, UserPresence>)
    ensures users.Keys == room * sessions.Keys
    ensures forall s :: s in users ==> users[s] == sessions[s]
  {
    map s | s in room && s in sessions :: sessions[s]
  }

  /** join-document */
  function Join(r: Registry, socket: SocketId, documentId: string, userId: string, userName: string,
                lookup: Option<DocumentRecord>): (st: Step)
    ensures lookup.None? ==> st == Step(r, [ToSelf(Error(NotFound))])
    ensures lookup.Some? && !HasAccess(lookup.value, userId) ==> st == Step(r, [ToSelf(Error(AccessDenied))])
    ensures lookup.Some? && HasAccess(lookup.value, userId) ==>
      && st.after.userSessions == r.userSessions[socket := UserPresence(userId, userName, documentId, None)]
      && st.after.documentSessions == r.documentSessions[documentId := Room(r, documentId) + {socket}]
      && st.emitted == [ToOthers(documentId, UserJoined(userId, userName, socket)),
                        ToSelf(RoomUsers(RoomPresence(Room(r, documentId) + {socket}, st.after.userSessions)))]
  {
    if lookup.None? then Step(r, [ToSelf(Error(NotFound))])
    else if !HasAccess(lookup.value, userId) then Step(r, [ToSelf(Error(AccessDenied))])
    else
      var sessions := r.userSessions[socket := UserPresence(userId, userName, documentId, None)];
      var rooms := r.documentSessions[documentId := Room(r, documentId) + {socket}];
      Step(Registry(rooms, sessions),
           [ToOthers(documentId, UserJoined(userId, userName, socket)),
            ToSelf(RoomUsers(RoomPresence(rooms[documentId], sessions)))])
  }

  /** The session of `socket` is for `documentId`. */
  predicate SessionFor(r: Registry, socket: SocketId, documentId: string)
  {
    socket in r.userSessions && r.userSessions[socket].documentId == documentId
  }

  /** document-change: always relayed to the room; the cursor is stored only on a matching session. */
  function DocumentChange(r: Registry, socket: SocketId, documentId: string, content: string, cursor: Option<Cursor>,
                          userId: string, userName: string, now: string): (st: Step)
    ensures st.emitted == [ToOthers(documentId, DocumentUpdated(content, cursor, userId, userName, now))]
    ensures st.after.documentSessions == r.documentSessions
    ensures st.after.userSessions.Keys == r.userSessions.Keys
    ensures SessionFor(r, socket, documentId) ==> st.after.userSessions[socket].cursor == cursor
    ensures forall s :: s in r.userSessions && (s != socket || !SessionFor(r, socket, documentId)) ==>
              st.after.userSessions[s] == r.userSessions[s]
  {
    var emitted := [ToOthers(documentId, DocumentUpdated(content, cursor, userId, userName, now))];
    if SessionFor(r, socket, documentId) then
      Step(r.(userSessions := r.userSessions[socket := r.userSessions[socket].(cursor := cursor)]), emitted)
    else Step(r, emitted)
  }

  /** cursor-update: stored and relayed only on a matching session. */
  function CursorUpdate(r: Registry, socket: SocketId, documentId: string, cursor: Cursor): (st: Step)
    ensures !SessionFor(r, socket, documentId) ==> st == Step(r, [])
    ensures SessionFor(r, socket, documentId) ==>
      var p := r.userSessions[socket];
      && st.after == r.(userSessions := r.userSessions[socket := p.(cursor := Some(cursor))])
      && st.emitted == [ToOthers(documentId, CursorUpdated(p.userId, p.userName, cursor, socket))]
  {
    if SessionFor(r, socket, documentId) then
      var p := r.userSessions[socket];
      Step(r.(userSessions := r.userSessions[socket := p.(cursor := Some(cursor))]),
           [ToOthers(documentId, CursorUpdated(p.userId, p.userName, cursor, socket))])
    else Step(r, [])
  }

  /** typing-start: relayed only on a matching session; nothing is stored. */
  function TypingStart(r: Registry, socket: SocketId, documentId: string): (st: Step)
    ensures st.after == r
    ensures |st.emitted| <= 1
    ensures st.emitted != [] <==> SessionFor(r, socket, documentId)
    ensures st.emitted != [] ==>
      st.emitted[0] == ToOthers(documentId, UserTyping(r.userSessions[socket].userId, r.userSessions[socket].userName, socket))
  {
    if SessionFor(r, socket, documentId) then
      var p := r.userSessions[socket];
      Step(r, [ToOthers(documentId, UserTyping(p.userId, p.userName, socket))])
    else Step(r, [])
  }

  /** typing-stop: relayed to the named document's room with no session check. */
  function TypingStop(r: Registry, socket: SocketId, documentId: string): (st: Step)
    ensures st.after == r
    ensures st.emitted == [ToOthers(documentId, UserStoppedTyping(socket))]
  {
    Step(r, [ToOthers(documentId, UserStoppedTyping(socket))])
  }

  /** disconnect: leave the session's room, drop the room once empty, drop the session, tell the room. */
  function Disconnect(r: Registry, socket: SocketId): (st: Step)
    ensures socket !in r.userSessions ==> st == Step(r, [])
    ensures socket !in st.after.userSessions
    ensures st.after.userSessions == r.userSessions - {socket}
  {
    if socket !in r.userSessions then Step(r, [])
    else
      var p := r.userSessions[socket];
      var rooms :=
        if p.documentId in r.documentSessions then
          var left := r.documentSessions[p.documentId] - {socket};
          if left == {} then r.documentSessions - {p.documentId}
          else r.documentSessions[p.documentId := left]
        else r.documentSessions;
      Step(Registry(rooms, r.userSessions - {socket}),
           [ToOthers(p.documentId, UserLeft(p.userId, p.userName, socket))])
  }

  lemma JoinKeepsInv(r: Registry, socket: SocketId, documentId: string, userId: string, userName: string,
                     lookup: Option<DocumentRecord>)
    requires Inv(r)
    ensures Inv(Join(r, socket, documentId, userId, userName, lookup).after)
  {
  }

  /** After an admitted join the joiner's session names the document, the joiner is in its room,
      the `room-users` reply lists the joiner, and `user-joined` reaches exactly the other members. */
  lemma JoinAdmitted(r: Registry, socket: SocketId, documentId: string, userId: string, userName: string,
                     doc: DocumentRecord)
    requires HasAccess(doc, userId)
    ensures var st := Join(r, socket, documentId, userId, userName, Some(doc));
      && st.after.userSessions[socket] == UserPresence(userId, userName, documentId, None)
      && socket in st.after.documentSessions[documentId]
      && st.emitted[1].event.RoomUsers? && socket in st.emitted[1].event.users
      && st.emitted[1].event.users[socket] == st.after.userSessions[socket]
      && Recipients(st.after, socket, st.emitted[0]) == Room(r, documentId) - {socket}
  {
  }

  lemma DocumentChangeKeepsInv(r: Registry, socket: SocketId, documentId: string, content: string,
                               cursor: Option<Cursor>, userId: string, userName: string, now: string)
    requires Inv(r)
    ensures Inv(DocumentChange(r, socket, documentId, content, cursor, userId, userName, now).after)
  {
  }

  lemma CursorUpdateKeepsInv(r: Registry, socket: SocketId, documentId: string, cursor: Cursor)
    requires Inv(r)
    ensures Inv(CursorUpdate(r, socket, documentId, cursor).after)
  {
  }

  lemma {:induction false} DisconnectKeepsInv(r: Registry, socket: SocketId)
    requires Inv(r)
    ensures Inv(Disconnect(r, socket).after)
  {
    if socket in r.userSessions {
      var p := r.userSessions[socket];
      var after := Disconnect(r, socket).after;
      forall s | s in after.userSessions
        ensures after.userSessions[s].documentId in after.documentSessions
        ensures s in after.documentSessions[after.userSessions[s].documentId]
      {
        var q := r.userSessions[s];
        assert s != socket && after.userSessions[s] == q;
        assert s in r.documentSessions[q.documentId];
        if q.documentId == p.documentId {
          assert s in r.documentSessions[p.documentId] - {socket};
        }
      }
    }
  }

  /** Disconnecting a socket with a session removes it from its room, drops the room when it was the
      last member, and sends `user-left` to exactly the members that remain. */
  lemma DisconnectWithSession(r: Registry, socket: SocketId)
    requires Inv(r) && socket in r.userSessions
    ensures var p := r.userSessions[socket];
      var st := Disconnect(r, socket);
      && socket !in Room(st.after, p.documentId)
      && Room(st.after, p.documentId) == Room(r, p.documentId) - {socket}
      && (p.documentId in st.after.documentSessions <==> Room(r, p.documentId) != {socket})
      && (forall d :: d != p.documentId ==> Room(st.after, d) == Room(r, d))
      && st.emitted == [ToOthers(p.documentId, UserLeft(p.userId, p.userName, socket))]
      && Recipients(st.after, socket, st.emitted[0]) == Room(r, p.documentId) - {socket}
  {
  }

  /** Leaving twice sends `user-left` once: the second disconnect changes and emits nothing. */
  lemma DisconnectIdempotent(r: Registry, socket: SocketId)
    ensures var once := Disconnect(r, socket).after;
      Disconnect(once, socket) == Step(once, [])
  {
  }

  /** No handler's broadcast reaches the acting socket. */
  lemma NoEcho(r: Registry, socket: SocketId, e: Emission)
    ensures socket !in Recipients(r, socket, e)
  {
  }

  /** A broadcast into one document's room reaches no socket outside that room. */
  lemma RoomIsolation(r: Registry, sender: SocketId, e: Emission, other: SocketId)
    requires e.ToOthers? && other !in Room(r, e.documentId)
    ensures other !in Recipients(r, sender, e)
  {
  }

  /** After the last member leaves, the room is gone; the next join creates it holding only the joiner. */
  lemma {:induction false} LastLeaveThenFreshRoom(r: Registry, socket: SocketId, next: SocketId,
                                                  userId: string, userName: string, doc: DocumentRecord)
    requires Inv(r) && socket in r.userSessions
    requires Room(r, r.userSessions[socket].documentId) == {socket}
    requires HasAccess(doc, userId)
    ensures var d := r.userSessions[socket].documentId;
      var gone := Disconnect(r, socket).after;
      && d !in gone.documentSessions
      && Join(gone, next, d, userId, userName, Some(doc)).after.documentSessions[d] == {next}
  {
    var d := r.userSessions[socket].documentId;
    var gone := Disconnect(r, socket).after;
    assert r.documentSessions[d] - {socket} == {};
    assert Room(gone, d) == {};
  }

  /** As written, joining a second document on the same socket does not leave the first room: after
      joining A, then B, then disconnecting, the socket is still listed in A's room with no session. */
  lemma {:induction false} RejoinLeavesStaleMembership(r: Registry, socket: SocketId, a: string, b: string,
                                                       userId: string, userName: string, doc: DocumentRecord)
    requires Inv(r) && a != b && HasAccess(doc, userId)
    ensures var r1 := Join(r, socket, a, userId, userName, Some(doc)).after;
      var r2 := Join(r1, socket, b, userId, userName, Some(doc)).after;
      var r3 := Disconnect(r2, socket).after;
      && socket in r3.documentSessions[a]
      && socket !in r3.userSessions
  {
    var r1 := Join(r, socket, a, userId, userName, Some(doc)).after;
    var r2 := Join(r1, socket, b, userId, userName, Some(doc)).after;
    assert r2.userSessions[socket].documentId == b;
    assert socket in r2.documentSessions[a];
    var r3 := Disconnect(r2, socket).after;
    assert r3.documentSessions[a] == r2.documentSessions[a];
  }

  /** The server object: the two registries, updated in place by the handlers. */
  class CollaborationServer {
    var documentSessions: map<string, set<SocketId>>
    var userSessions: map<SocketId, UserPresence>

    function State(): Registry
      reads this
    {
      Registry(documentSessions, userSessions)
    }

    ghost predicate Valid()
      reads this
    {
      Inv(State())
    }

    constructor ()
      ensures Valid() && State() == Registry(map[], map[])
    {
      documentSessions := map[];
      userSessions := map[];
    }

    /** `Array.from(documentSessions.get(documentId)).map(id => userSessions.get(id)).filter(Boolean)` */
    method UsersInRoom(documentId: string) returns (users: map<SocketId, UserPresence>)
      ensures users == RoomPresence(Room(State(), documentId), userSessions)
    {
      var pending := Room(State(), documentId);
      users := map[];
      while pending != {}
        invariant pending <= Room(State(), documentId)
        invariant users == RoomPresence(Room(State(), documentId) - pending, userSessions)
        decreases pending
      {
        var s :| s in pending;
        if s in userSessions {
          users := users[s := userSessions[s]];
        }
        pending := pending - {s};
      }
    }

    method OnJoinDocument(socket: SocketId, documentId: string, userId: string, userName: string,
                          lookup: Option<DocumentRecord>) returns (emitted: seq<Emission>)
      requires Valid()
      modifies this
      ensures Valid()
      ensures var st := Join(old(State()), socket, documentId, userId, userName, lookup);
        State() == st.after && emitted == st.emitted
    {
      ghost var before := State();
      JoinKeepsInv(before, socket, documentId, userId, userName, lookup);
      if lookup.None? {
        emitted := [ToSelf(Error(NotFound))];
        return;
      }
      if !HasAccess(lookup.value, userId) {
        emitted := [ToSelf(Error(AccessDenied))];
        return;
      }
      userSessions := userSessions[socket := UserPresence(userId, userName, documentId, None)];
      if documentId !in documentSessions {
        documentSessions := documentSessions[documentId := {}];
      }
      documentSessions := documentSessions[documentId := documentSessions[documentId] + {socket}];
      var users := UsersInRoom(documentId);
      emitted := [ToOthers(documentId, UserJoined(userId, userName, socket)), ToSelf(RoomUsers(users))];
    }

    method OnDocumentChange(socket: SocketId, documentId: string, content: string, cursor: Option<Cursor>,
                            userId: string, userName: string, now: string) returns (emitted: seq<Emission>)
      requires Valid()
      modifies this
      ensures Valid()
      ensures var st := DocumentChange(old(State()), socket, documentId, content, cursor, userId, userName, now);
        State() == st.after && emitted == st.emitted
    {
      DocumentChangeKeepsInv(State(), socket, documentId, content, cursor, userId, userName, now);
      emitted := [ToOthers(documentId, DocumentUpdated(content, cursor, userId, userName, now))];
      if socket in userSessions && userSessions[socket].documentId == documentId {
        var session := userSessions[socket];
        userSessions := userSessions[socket := session.(cursor := cursor)];
      }
    }

    method OnCursorUpdate(socket: SocketId, documentId: string, cursor: Cursor) returns (emitted: seq<Emission>)
      requires Valid()
      modifies this
      ensures Valid()
      ensures var st := CursorUpdate(old(State()), socket, documentId, cursor);
        State() == st.after && emitted == st.emitted
    {
      CursorUpdateKeepsInv(State(), socket, documentId, cursor);
      emitted := [];
      if socket in userSessions && userSessions[socket].documentId == documentId {
        var session := userSessions[socket];
        userSessions := userSessions[socket := session.(cursor := Some(cursor))];
        emitted := [ToOthers(documentId, CursorUpdated(session.userId, session.userName, cursor, socket))];
      }
    }

    method OnTypingStart(socket: SocketId, documentId: string) returns (emitted: seq<Emission>)
      ensures emitted == TypingStart(State(), socket, documentId).emitted
    {
      emitted := [];
      if socket in userSessions && userSessions[socket].documentId == documentId {
        var session := userSessions[socket];
        emitted := [ToOthers(documentId, UserTyping(session.userId, session.userName, socket))];
      }
    }

    method OnTypingStop(socket: SocketId, documentId: string) returns (emitted: seq<Emission>)
      ensures emitted == TypingStop(State(), socket, documentId).emitted
    {
      emitted := [ToOthers(documentId, UserStoppedTyping(socket))];
    }

    method OnDisconnect(socket: SocketId) returns (emitted: seq<Emission>)
      requires Valid()
      modifies this
      ensures Valid()
      ensures var st := Disconnect(old(State()), socket);
        State() == st.after && emitted == st.emitted
    {
      DisconnectKeepsInv(State(), socket);
      emitted := [];
      if socket in userSessions {
        var session := userSessions[socket];
        if session.documentId in documentSessions {
          var left := documentSessions[session.documentId] - {socket};
          documentSessions := documentSessions[session.documentId := left];
          if left == {} {
            documentSessions := documentSessions - {session.documentId};
          }
        }
        emitted := [ToOthers(session.documentId, UserLeft(session.userId, session.userName, socket))];
        userSessions := userSessions - {socket};
      }
    }
  }
}
