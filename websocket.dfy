/**
 * The client's real-time transport (front/src/project/services/websocket.service.ts):
 * a `connected` flag and a nullable socket, outbound frames guarded by them,
 * and inbound frames republished on typed streams. The socket is modelled
 * as the log of frames emitted on it; each stream as the log of what it published.
 */
module WebSocket {
  import opened Wrappers
  import opened Users

  datatype ChatMessage = ChatMessage(
    id: int, sender: int, chat: int, text: string, image: Option<string>,
    sentAt: string, isRead: bool, senderUsername: Option<string>)

  datatype Chat = Chat(
    id: int, name: string, participants: seq<int>, isGroup: bool,
    createdAt: string, lastMessage: Option<ChatMessage>)

  /** An item of the `userStatus$` stream. */
  datatype UserStatus = UserStatus(userId: int, isOnline: bool)

  /** Outbound frames, by event name. */
  datatype Frame =
    | Auth(token: string)
    | MessageCreate(token: string, chatId: int, text: string)
    | ChatCreate(token: string, participants: seq<int>, isGroup: bool, name: string)
    | SearchUsers(token: string, search: string)
    | GetOnlineUsers(token: string, userIds: seq<int>)

  /** A frame together with the socket (numbered in order of creation) it was emitted on. */
  datatype Sent = Sent(socket: nat, frame: Frame)

  /** Inbound frames, by event name; `OnlineUsers` carries the entries of the status map in enumeration order. */
  datatype Inbound =
    | Connect
    | Disconnect
    | AuthSuccess(userId: int)
    | AuthError(error: string)
    | MessageCreated(message: ChatMessage)
    | ChatCreated(chat: Chat)
    | UserStatusChanged(userId: int, isOnline: bool)
    | SearchResults(users: seq<User>)
    | OnlineUsers(entries: seq<(int, bool)>)
    | Error(error: string)

  /** One status item per entry of an `online_users` map, in order. */
  function StatusesOf(entries: seq<(int, bool)>): (r: seq<UserStatus>)
  {
    seq(|entries|, i requires 0 <= i < |entries| => UserStatus(entries[i].0, entries[i].1))
  }

  /** The `forEach` over the entries of an `online_users` map. */
  method FanOutStatuses(entries: seq<(int, bool)>) returns (events: seq<UserStatus>)
    ensures |events| == |entries|
    ensures forall i :: 0 <= i < |entries| ==>
      events[i].userId == entries[i].0 && events[i].isOnline == entries[i].1
    ensures events == StatusesOf(entries)
  {
    events := [];
    for i := 0 to |entries|
      invariant |events| == i
      invariant forall k :: 0 <= k < i ==> events[k] == UserStatus(entries[k].0, entries[k].1)
    {
      var (userId, isOnline) := entries[i];
      events := events + [UserStatus(userId, isOnline)];
    }
  }

  class WebSocketService {
    /** The current socket's number, or `None` for `null`. */
    var socket: Option<nat>
    /** How many sockets `io(...)` has created. */
    var created: nat
    var connected: bool
    /** Every frame emitted, with its socket. */
    var sent: seq<Sent>
    /** The sockets on which `socket.disconnect()` was called, in order. */
    var closed: seq<nat>

    var newMessages: seq<ChatMessage>
    var newChats: seq<Chat>
    var connectionStatus: seq<bool>
    var userStatus: seq<UserStatus>
    var searchResults: seq<seq<User>>

    /** The current socket, every closed socket and every socket a frame went out on was created. */
    ghost predicate Valid()
      reads this
    {
      && (socket.Some? ==> socket.value < created)
      && (forall k :: 0 <= k < |closed| ==> closed[k] < created)
      && (forall k :: 0 <= k < |sent| ==> sent[k].socket < created)
    }

    /** The guard shared by every send: a socket exists and `connected` is set. */
    predicate Ready()
      reads this
    {
      socket.Some? && connected
    }

    /** Everything but the connection fields and the frame log is as it was. */
    twostate predicate StreamsUnchanged()
      reads this
    {
      && newMessages == old(newMessages) && newChats == old(newChats)
      && userStatus == old(userStatus) && searchResults == old(searchResults)
    }

    constructor ()
      ensures Valid() && socket == None && created == 0 && !connected && sent == [] && closed == []
      ensures newMessages == [] && newChats == [] && connectionStatus == [] && userStatus == [] && searchResults == []
    {
      socket := None;
      created := 0;
      connected := false;
      sent := [];
      closed := [];
      newMessages := [];
      newChats := [];
      connectionStatus := [];
      userStatus := [];
      searchResults := [];
    }

    /**
     * `connect(token)`: close any existing socket, create a new one and emit
     * `auth` on it. `ioThrows` says whether `io(...)` threw: then `false` is
     * published and the field keeps the old (closed) socket. `connected` is
     * left alone; only the inbound `connect` event sets it.
     */
    method Connect(token: string, ioThrows: bool)
      requires Valid()
      modifies this
      ensures Valid()
      ensures connected == old(connected) && StreamsUnchanged()
      ensures closed == old(closed) + (if old(socket).Some? then [old(socket).value] else [])
      ensures ioThrows ==>
        && socket == old(socket) && created == old(created) && sent == old(sent)
        && connectionStatus == old(connectionStatus) + [false]
      ensures !ioThrows ==>
        && socket == Some(old(created)) && created == old(created) + 1
        && sent == old(sent) + [Sent(old(created), Auth(token))]
        && connectionStatus == old(connectionStatus)
      ensures !ioThrows ==>
        && (old(socket).Some? ==> socket.value != old(socket).value)
        && (forall k :: 0 <= k < |closed| ==> closed[k] != socket.value)
        && (forall k :: 0 <= k < |old(sent)| ==> old(sent)[k].socket != socket.value)
    {
      if socket.Some? {
        closed := closed + [socket.value];
      }
      if ioThrows {
        connectionStatus := connectionStatus + [false];
        return;
      }
      socket := Some(created);
      created := created + 1;
      sent := sent + [Sent(socket.value, Auth(token))];
    }

    /** `disconnect()`: clears `connected`, closes the socket if there is one, and drops it. */
    method Disconnect()
      requires Valid()
      modifies this
      ensures Valid()
      ensures !connected && socket == None
      ensures closed == old(closed) + (if old(socket).Some? then [old(socket).value] else [])
      ensures created == old(created) && sent == old(sent)
      ensures connectionStatus == old(connectionStatus) && StreamsUnchanged()
    {
      connected := false;
      if socket.Some? {
        closed := closed + [socket.value];
        socket := None;
      }
    }

    /** `sendMessage`: emits `message_create` only when ready. */
    method SendMessage(token: string, chatId: int, text: string)
      requires Valid()
      modifies this`sent
      ensures sent == if old(Ready()) then old(sent) + [Sent(socket.value, MessageCreate(token, chatId, text))]
                      else old(sent)
    {
      if socket.None? || !connected {
        return;
      }
      sent := sent + [Sent(socket.value, MessageCreate(token, chatId, text))];
    }

    /** `createChat`: emits `chat_create` only when ready; `isGroup` and `name` default as in the source. */
    method CreateChat(token: string, participants: seq<int>, isGroup: bool := false, name: string := "")
      requires Valid()
      modifies this`sent
      ensures sent == if old(Ready()) then old(sent) + [Sent(socket.value, ChatCreate(token, participants, isGroup, name))]
                      else old(sent)
    {
      if socket.None? || !connected {
        return;
      }
      sent := sent + [Sent(socket.value, ChatCreate(token, participants, isGroup, name))];
    }

    /** `searchUsers`: emits `search_users` only when ready. */
    method SearchUsers(token: string, searchTerm: string)
      requires Valid()
      modifies this`sent
      ensures sent == if old(Ready()) then old(sent) + [Sent(socket.value, Frame.SearchUsers(token, searchTerm))]
                      else old(sent)
    {
      if socket.None? || !connected {
        return;
      }
      sent := sent + [Sent(socket.value, Frame.SearchUsers(token, searchTerm))];
    }

    /** `getOnlineStatus`: emits one `get_online_users` only when ready and some ids are asked for. */
    method GetOnlineStatus(token: string, userIds: seq<int>)
      requires Valid()
      modifies this`sent
      ensures sent == if old(Ready()) && |userIds| != 0
                      then old(sent) + [Sent(socket.value, GetOnlineUsers(token, userIds))]
                      else old(sent)
    {
      if socket.None? || !connected || |userIds| == 0 {
        return;
      }
      sent := sent + [Sent(socket.value, GetOnlineUsers(token, userIds))];
    }

    /** `isConnected()`. */
    method IsConnected() returns (b: bool)
      ensures b == connected
    {
      b := connected;
    }

    /**
     * The handlers installed by `setupEventListeners`, one inbound frame per
     * call, in arrival order. `auth_success`, `auth_error` and `error` are
     * only logged to the console, so they change nothing.
     */
    method Receive(e: Inbound)
      requires Valid()
      modifies this
      ensures Valid()
      ensures socket == old(socket) && created == old(created) && sent == old(sent) && closed == old(closed)
      ensures connected == match e
        case Connect => true
        case Disconnect => false
        case _ => old(connected)
      ensures connectionStatus == match e
        case Connect => old(connectionStatus) + [true]
        case Disconnect => old(connectionStatus) + [false]
        case _ => old(connectionStatus)
      ensures newMessages == if e.MessageCreated? then old(newMessages) + [e.message] else old(newMessages)
      ensures newChats == if e.ChatCreated? then old(newChats) + [e.chat] else old(newChats)
      ensures userStatus == match e
        case UserStatusChanged(id, online) => old(userStatus) + [UserStatus(id, online)]
        case OnlineUsers(entries) => old(userStatus) + StatusesOf(entries)
        case _ => old(userStatus)
      ensures searchResults == if e.SearchResults? then old(searchResults) + [e.users] else old(searchResults)
    {
      match e {
        case Connect =>
          connected := true;
          connectionStatus := connectionStatus + [true];
        case Disconnect =>
          connected := false;
          connectionStatus := connectionStatus + [false];
        case AuthSuccess(_) =>
        case AuthError(_) =>
        case MessageCreated(message) =>
          newMessages := newMessages + [message];
        case ChatCreated(chat) =>
          newChats := newChats + [chat];
        case UserStatusChanged(userId, isOnline) =>
          userStatus := userStatus + [UserStatus(userId, isOnline)];
        case SearchResults(users) =>
          searchResults := searchResults + [users];
        case OnlineUsers(entries) =>
          var events := FanOutStatuses(entries);
          userStatus := userStatus + events;
        case Error(_) =>
      }
    }
  }

  /**
   * Disconnecting twice leaves the same state as disconnecting once: every
   * field below is what one `Disconnect` gives, so the second call changes nothing.
   */
  method DisconnectTwice(ws: WebSocketService)
    requires ws.Valid()
    modifies ws
    ensures !ws.connected && ws.socket == None
    ensures ws.closed == old(ws.closed) + (if old(ws.socket).Some? then [old(ws.socket).value] else [])
    ensures ws.created == old(ws.created) && ws.sent == old(ws.sent)
    ensures ws.connectionStatus == old(ws.connectionStatus) && ws.StreamsUnchanged()
  {
    ws.Disconnect();
    ws.Disconnect();
  }

  /**
   * Authentication alone does not make the channel usable: after `connect`
   * and an `auth_success`, sends are still dropped until the transport's own
   * `connect` event has arrived.
   */
  method AuthSuccessDoesNotEnableSends(ws: WebSocketService, token: string, userId: int, chatId: int, text: string)
    requires ws.Valid() && !ws.connected
    modifies ws
    ensures ws.sent == old(ws.sent) + [Sent(old(ws.created), Auth(token))]
  {
    ws.Connect(token, false);
    ws.Receive(AuthSuccess(userId));
    ws.SendMessage(token, chatId, text);
  }
}
