/**
 * The client collaboration hook (lib/use-collaboration.ts): the `users` and `typingUsers` lists
 * kept from incoming server messages, the socket reference, the typing-stop debounce timer and the
 * reconnect timer. Each socket event, user call and timer expiry is one step; the clock is an input,
 * and a pending timer is represented by the time it is due.
 */
module UseCollaboration {
  import opened Wrappers

  datatype User = User(id: string, userName: string, color: string)

  /** `WebSocket.readyState` */
  datatype ReadyState = Connecting | Open | Closing | Closed

  /** A server message after `JSON.parse`; a message that does not parse is `None` at the call site. */
  datatype Incoming =
    | UserJoinedMsg(user: User)
    | UserLeftMsg(userId: string, userName: string, color: string)
    | DocumentChangeMsg(changeUserId: string, content: string, timestamp: string)
    | TypingStartMsg(userId: string, userName: string, color: string)
    | TypingStopMsg(userId: string)
    | CursorUpdateMsg
    | OtherMsg(kind: string)

  /** The callback a message hands to the component, when it hands one. */
  datatype Notification =
    | UserJoinedNote(user: User)
    | UserLeftNote(user: User)
    | DocumentChangeNote(userId: string, content: string, timestamp: string)

  datatype Outgoing =
    | DocumentChangeOut(content: string)
    | CursorUpdateOut(line: int, ch: int)
    | TypingStartOut
    | TypingStopOut

  datatype Hook = Hook(
    isConnected: bool,
    users: seq<User>,
    typingUsers: seq<User>,
    socket: Option<ReadyState>,
    typingDue: Option<int>,
    reconnectDue: Option<int>,
    sent: seq<Outgoing>)

  const TypingDelay := 1000
  const ReconnectDelay := 5000

  /** The hook's first render. */
  const Initial := Hook(false, [], [], None, None, None, [])

  /** `users.filter(u => u.id !== id)` */
  function WithoutId(list: seq<User>, id: string): (r: seq<User>)
    ensures |r| <= |list|
    ensures forall u :: u in r <==> u in list && u.id != id
    ensures forall u :: multiset(r)[u] == if u.id != id then multiset(list)[u] else 0
  {
    if list == [] then []
    else
      assert list == list[..|list| - 1] + [list[|list| - 1]];
      if list[|list| - 1].id == id then WithoutId(list[..|list| - 1], id)
      else WithoutId(list[..|list| - 1], id) + [list[|list| - 1]]
  }

  /** The filter keeps the survivors in their order: filtering a concatenation filters each part. */
  lemma {:induction false} WithoutIdAppend(a: seq<User>, b: seq<User>, id: string)
    ensures WithoutId(a + b, id) == WithoutId(a, id) + WithoutId(b, id)
    decreases |b|
  {
    if b == [] {
      assert a + b == a;
    } else {
      assert (a + b)[..|a + b| - 1] == a + b[..|b| - 1];
      WithoutIdAppend(a, b[..|b| - 1], id);
    }
  }

  predicate HasId(list: seq<User>, id: string)
  {
    exists u :: u in list && u.id == id
  }

  /** The `typing_start` reducer: add the user unless an entry with that id is already there. */
  function AddTyping(list: seq<User>, u: User): (r: seq<User>)
    ensures HasId(list, u.id) ==> r == list
    ensures !HasId(list, u.id) ==> r == list + [u]
  {
    if exists v :: v in list && v.id == u.id then list else list + [u]
  }

  predicate UniqueIds(list: seq<User>)
  {
    forall i, j :: 0 <= i < j < |list| ==> list[i].id != list[j].id
  }

  lemma AddTypingKeepsUnique(list: seq<User>, u: User)
    requires UniqueIds(list)
    ensures UniqueIds(AddTyping(list, u))
  {
    if !HasId(list, u.id) {
      var r := list + [u];
      forall i | 0 <= i < |list|
        ensures r[i].id != u.id
      {
        assert list[i] in list;
      }
    }
  }

  lemma {:induction false} WithoutIdKeepsUnique(list: seq<User>, id: string)
    requires UniqueIds(list)
    ensures UniqueIds(WithoutId(list, id))
  {
    if list != [] {
      var init := list[..|list| - 1];
      var last := list[|list| - 1];
      assert UniqueIds(init);
      WithoutIdKeepsUnique(init, id);
      if last.id != id {
        var r := WithoutId(init, id) + [last];
        forall i | 0 <= i < |r| - 1
          ensures r[i].id != last.id
        {
          assert r[i] in WithoutId(init, id);
          assert r[i] in init;
          var k :| 0 <= k < |init| && init[k] == r[i];
          assert list[k] == r[i] && list[|list| - 1] == last;
        }
      }
    }
  }


  /** `ws.onmessage`: the list reducers and the callback handed on. An unparsable or unknown message
      changes nothing and calls nothing. */
  function Receive(h: Hook, msg: Option<Incoming>): (r: (Hook, Option<Notification>))
    ensures r.0.isConnected == h.isConnected && r.0.socket == h.socket && r.0.sent == h.sent
    ensures r.0.typingDue == h.typingDue && r.0.reconnectDue == h.reconnectDue
    ensures msg.None? || msg.value.OtherMsg? || msg.value.CursorUpdateMsg? ==> r == (h, None)
    ensures msg.Some? && msg.value.UserJoinedMsg? ==>
      && r.0.users == h.users + [msg.value.user] && r.0.typingUsers == h.typingUsers
      && r.1 == Some(UserJoinedNote(msg.value.user))
    ensures msg.Some? && msg.value.UserLeftMsg? ==>
      && r.0.typingUsers == h.typingUsers
      && r.0.users == WithoutId(h.users, msg.value.userId)
      && (forall u :: u in r.0.users <==> u in h.users && u.id != msg.value.userId)
      && r.1 == Some(UserLeftNote(User(msg.value.userId, msg.value.userName, msg.value.color)))
    ensures msg.Some? && msg.value.DocumentChangeMsg? ==>
      r.0 == h && r.1 == Some(DocumentChangeNote(msg.value.changeUserId, msg.value.content, msg.value.timestamp))
    ensures msg.Some? && msg.value.TypingStartMsg? ==>
      && r.0.users == h.users && r.1 == None
      && r.0.typingUsers == AddTyping(h.typingUsers, User(msg.value.userId, msg.value.userName, msg.value.color))
    ensures msg.Some? && msg.value.TypingStopMsg? ==>
      && r.0.users == h.users && r.1 == None
      && r.0.typingUsers == WithoutId(h.typingUsers, msg.value.userId)
      && (forall u :: u in r.0.typingUsers <==> u in h.typingUsers && u.id != msg.value.userId)
  {
    match msg
    case None => (h, None)
    case Some(m) =>
      match m
      case UserJoinedMsg(u) => (h.(users := h.users + [u]), Some(UserJoinedNote(u)))
      case UserLeftMsg(id, name, color) =>
        (h.(users := WithoutId(h.users, id)), Some(UserLeftNote(User(id, name, color))))
      case DocumentChangeMsg(id, content, at) => (h, Some(DocumentChangeNote(id, content, at)))
      case TypingStartMsg(id, name, color) =>
        (h.(typingUsers := AddTyping(h.typingUsers, User(id, name, color))), None)
      case TypingStopMsg(id) =>
        (h.(typingUsers := WithoutId(h.typingUsers, id)), None)
      case CursorUpdateMsg => (h, None)
      case OtherMsg(_) => (h, None)
  }

  /** `user_joined` appends without looking: the same user joining twice is listed twice. */
  lemma JoinTwiceListsTwice(h: Hook, u: User)
    ensures var once := Receive(h, Some(UserJoinedMsg(u))).0;
      && Receive(once, Some(UserJoinedMsg(u))).0.users == h.users + [u, u]
      && multiset(Receive(once, Some(UserJoinedMsg(u))).0.users)[u] == multiset(h.users)[u] + 2
  {
  }

  /** No message makes an id appear twice in `typingUsers`. */
  lemma ReceiveKeepsTypingUnique(h: Hook, msg: Option<Incoming>)
    requires UniqueIds(h.typingUsers)
    ensures UniqueIds(Receive(h, msg).0.typingUsers)
  {
    if msg.Some? && msg.value.TypingStartMsg? {
      AddTypingKeepsUnique(h.typingUsers, User(msg.value.userId, msg.value.userName, msg.value.color));
    } else if msg.Some? && msg.value.TypingStopMsg? {
      WithoutIdKeepsUnique(h.typingUsers, msg.value.userId);
    }
  }

  /** `connectWebSocket`: a new socket replaces the reference; a constructor that throws leaves the
      reference as it was and marks the hook disconnected. */
  function Connect(h: Hook, constructorThrows: bool): (h': Hook)
    ensures constructorThrows ==> h' == h.(isConnected := false)
    ensures !constructorThrows ==> h' == h.(socket := Some(Connecting))
  {
    if constructorThrows then h.(isConnected := false) else h.(socket := Some(Connecting))
  }

  /** The effect's first run: nothing without a (truthy) document id. */
  function Mount(h: Hook, documentId: string, constructorThrows: bool): (h': Hook)
    ensures documentId == [] ==> h' == h
    ensures documentId != [] ==> h' == Connect(h, constructorThrows)
  {
    if documentId == [] then h else Connect(h, constructorThrows)
  }

  function AfterOpen(h: Hook): (h': Hook)
    ensures h'.isConnected && h'.socket == Some(Open)
    ensures h' == h.(isConnected := true, socket := Some(Open))
  {
    h.(isConnected := true, socket := Some(Open))
  }

  /** `ws.onclose`: disconnected, and exactly one reconnect pending, due 5000 ms from now. */
  function AfterClose(h: Hook, now: int): (h': Hook)
    ensures !h'.isConnected && h'.socket == Some(Closed)
    ensures h'.reconnectDue == Some(now + ReconnectDelay)
    ensures h'.users == h.users && h'.typingUsers == h.typingUsers && h'.typingDue == h.typingDue
    ensures h'.sent == h.sent
  {
    h.(isConnected := false, socket := Some(Closed), reconnectDue := Some(now + ReconnectDelay))
  }

  function AfterError(h: Hook): (h': Hook)
    ensures h' == h.(isConnected := false)
  {
    h.(isConnected := false)
  }

  /** A socket error is followed by its close event; the error handler itself schedules nothing, so
      the pair ends where the close alone would, and a repeated error changes nothing more. */
  lemma ErrorThenClose(h: Hook, now: int)
    ensures AfterClose(AfterError(h), now) == AfterClose(h, now)
    ensures AfterError(h).reconnectDue == h.reconnectDue && AfterError(h).typingDue == h.typingDue
    ensures AfterError(AfterError(h)) == AfterError(h)
  {
  }

  /** The reconnect timer expires and connects again. */
  function ReconnectFires(h: Hook, constructorThrows: bool): (h': Hook)
    requires h.reconnectDue.Some?
    ensures h'.reconnectDue == None
    ensures !constructorThrows ==> h'.socket == Some(Connecting) && h'.isConnected == h.isConnected
    ensures constructorThrows ==> !h'.isConnected && h'.socket == h.socket
    ensures h'.users == h.users && h'.typingUsers == h.typingUsers
    ensures h'.sent == h.sent && h'.typingDue == h.typingDue
  {
    Connect(h.(reconnectDue := None), constructorThrows)
  }

  /** `sendMessage`: sent only over an OPEN socket, otherwise dropped without error. */
  function Send(h: Hook, m: Outgoing): (h': Hook)
    ensures h'.sent == if h.socket == Some(Open) then h.sent + [m] else h.sent
    ensures h' == h.(sent := h'.sent)
  {
    if h.socket == Some(Open) then h.(sent := h.sent + [m]) else h
  }

  /** `handleTyping`: sends `typing_start` and (re)starts the stop timer, due 1000 ms from now. */
  function HandleTyping(h: Hook, now: int): (h': Hook)
    ensures h'.typingDue == Some(now + TypingDelay)
    ensures h'.sent == Send(h, TypingStartOut).sent
    ensures h'.socket == h.socket && h'.reconnectDue == h.reconnectDue
    ensures h' == h.(sent := h'.sent, typingDue := Some(now + TypingDelay))
  {
    Send(h, TypingStartOut).(typingDue := Some(now + TypingDelay))
  }

  /** The typing timer expires: `typing_stop` is sent. */
  function TypingTimerFires(h: Hook): (h': Hook)
    requires h.typingDue.Some?
    ensures h'.typingDue == None
    ensures h'.sent == Send(h, TypingStopOut).sent
    ensures h' == h.(sent := h'.sent, typingDue := None)
  {
    Send(h.(typingDue := None), TypingStopOut)
  }

  /** The effect's cleanup: close the socket (the close event arrives later) and cancel both timers. */
  function Cleanup(h: Hook): (h': Hook)
    ensures h'.typingDue == None && h'.reconnectDue == None
    ensures h.socket.None? ==> h'.socket == None
    ensures h.socket.Some? ==> h'.socket == Some(if h.socket.value == Closed then Closed else Closing)
    ensures h' == h.(socket := h'.socket, typingDue := None, reconnectDue := None)
  {
    var socket := match h.socket
      case None => None
      case Some(Closed) => Some(Closed)
      case Some(_) => Some(Closing);
    h.(socket := socket, typingDue := None, reconnectDue := None)
  }

  /** A burst of `handleTyping` calls at the given times. */
  function TypingBurst(h: Hook, times: seq<int>): Hook
  {
    if times == [] then h else HandleTyping(TypingBurst(h, times[..|times| - 1]), times[|times| - 1])
  }

  function Repeat(m: Outgoing, n: nat): (r: seq<Outgoing>)
    ensures |r| == n && forall i :: 0 <= i < n ==> r[i] == m
  {
    if n == 0 then [] else Repeat(m, n - 1) + [m]
  }

  /** A burst sends one `typing_start` per call over an open socket and leaves exactly one stop timer
      pending, due 1000 ms after the last call. */
  lemma {:induction false} BurstSchedulesOneStop(h: Hook, times: seq<int>)
    requires times != []
    ensures var b := TypingBurst(h, times);
      && b.typingDue == Some(times[|times| - 1] + TypingDelay)
      && b.socket == h.socket
      && b.sent == h.sent + (if h.socket == Some(Open) then Repeat(TypingStartOut, |times|) else [])
  {
    var init := times[..|times| - 1];
    if init == [] {
      assert TypingBurst(h, init) == h;
    } else {
      BurstSchedulesOneStop(h, init);
    }
  }

  /** After a burst the timer sends a single `typing_stop`, and then nothing is pending. */
  lemma BurstThenStop(h: Hook, times: seq<int>)
    requires times != [] && h.socket == Some(Open)
    ensures var after := TypingTimerFires(TypingBurst(h, times));
      && after.sent == h.sent + Repeat(TypingStartOut, |times|) + [TypingStopOut]
      && after.typingDue == None
  {
    BurstSchedulesOneStop(h, times);
  }

  /** As written, the cleanup's `close()` later fires `onclose`, which schedules a reconnect again:
      the cancelled reconnect comes back. */
  lemma CleanupThenCloseReconnects(h: Hook, now: int)
    ensures AfterClose(Cleanup(h), now).reconnectDue == Some(now + ReconnectDelay)
  {
  }

  /** The hook's refs and state, updated in place by its handlers. */
  class CollaborationHook {
    var isConnected: bool
    var users: seq<User>
    var typingUsers: seq<User>
    var socket: Option<ReadyState>
    var typingDue: Option<int>
    var reconnectDue: Option<int>
    var sent: seq<Outgoing>

    function State(): Hook
      reads this
    {
      Hook(isConnected, users, typingUsers, socket, typingDue, reconnectDue, sent)
    }

    constructor (documentId: string, constructorThrows: bool)
      ensures State() == Mount(Initial, documentId, constructorThrows)
    {
      isConnected, users, typingUsers := false, [], [];
      socket, typingDue, reconnectDue, sent := None, None, None, [];
      if documentId != [] {
        if constructorThrows {
          isConnected := false;
        } else {
          socket := Some(Connecting);
        }
      }
    }

    method OnOpen()
      modifies this
      ensures State() == AfterOpen(old(State()))
    {
      isConnected := true;
      socket := Some(Open);
    }

    method OnMessage(msg: Option<Incoming>) returns (note: Option<Notification>)
      modifies this
      ensures (State(), note) == Receive(old(State()), msg)
    {
      note := None;
      if msg.None? {
        return;
      }
      match msg.value {
        case UserJoinedMsg(u) =>
          users := users + [u];
          note := Some(UserJoinedNote(u));
        case UserLeftMsg(id, name, color) =>
          users := WithoutId(users, id);
          note := Some(UserLeftNote(User(id, name, color)));
        case DocumentChangeMsg(id, content, at) =>
          note := Some(DocumentChangeNote(id, content, at));
        case TypingStartMsg(id, name, color) =>
          typingUsers := AddTyping(typingUsers, User(id, name, color));
        case TypingStopMsg(id) =>
          typingUsers := WithoutId(typingUsers, id);
        case CursorUpdateMsg =>
        case OtherMsg(_) =>
      }
    }

    method OnClose(now: int)
      modifies this
      ensures State() == AfterClose(old(State()), now)
    {
      isConnected := false;
      socket := Some(Closed);
      reconnectDue := Some(now + ReconnectDelay);
    }

    method OnError()
      modifies this
      ensures State() == AfterError(old(State()))
    {
      isConnected := false;
    }

    method OnReconnectTimer(constructorThrows: bool)
      requires reconnectDue.Some?
      modifies this
      ensures State() == ReconnectFires(old(State()), constructorThrows)
    {
      reconnectDue := None;
      if constructorThrows {
        isConnected := false;
      } else {
        socket := Some(Connecting);
      }
    }

    method SendMessage(m: Outgoing)
      modifies this
      ensures State() == Send(old(State()), m)
    {
      if socket == Some(Open) {
        sent := sent + [m];
      }
    }

    method SendDocumentChange(content: string)
      modifies this
      ensures State() == Send(old(State()), DocumentChangeOut(content))
    {
      SendMessage(DocumentChangeOut(content));
    }

    method SendCursorUpdate(line: int, ch: int)
      modifies this
      ensures State() == Send(old(State()), CursorUpdateOut(line, ch))
    {
      SendMessage(CursorUpdateOut(line, ch));
    }

    method OnHandleTyping(now: int)
      modifies this
      ensures State() == HandleTyping(old(State()), now)
    {
      SendMessage(TypingStartOut);
      typingDue := Some(now + TypingDelay);
    }

    method OnTypingTimer()
      requires typingDue.Some?
      modifies this
      ensures State() == TypingTimerFires(old(State()))
    {
      typingDue := None;
      SendMessage(TypingStopOut);
    }

    method OnCleanup()
      modifies this
      ensures State() == Cleanup(old(State()))
    {
      if socket.Some? && socket.value != Closed {
        socket := Some(Closing);
      }
      reconnectDue := None;
      typingDue := None;
    }
  }
}
