/**
 * The Socket.IO server (back/socket_server.py): the presence registry
 * `connected_users` and the fan-out of `chat:created` and `message:created`.
 * Token decoding and the database are given as maps; every `sio.emit` is
 * appended to an outbox.
 */
module SocketServer {
  import opened Wrappers
  import opened IdLists

  /** A Socket.IO session id. */
  type Sid = string

  datatype ChatRecord = ChatRecord(id: int, name: string, participants: set<int>, isGroup: bool)
  datatype MessageRecord = MessageRecord(id: int, chat: int, sender: int, text: string)

  datatype Event =
    | AuthSuccess(userId: int)
    | AuthError(message: string)
    | Error(message: string)
    | ChatCreated(chat: ChatRecord)
    | MessageCreated(msg: MessageRecord)

  /** One `sio.emit(event, data, to=sid)`. */
  datatype Emission = Emission(event: Event, to: Sid)

  /**
   * `get_user_from_token`: `claims` is what decoding yields (the `user_id`
   * of each token that decodes) and `users` the ids in the user table. A
   * token that is absent, does not decode or names no user gives `None`.
   */
  function UserFromToken(claims: map<string, int>, users: set<int>, token: Option<string>): (r: Option<int>)
    ensures r.Some? <==> token.Some? && token.value in claims && claims[token.value] in users
    ensures r.Some? ==> r.value == claims[token.value] && r.value in users
  {
    if token.Some? && token.value in claims && claims[token.value] in users
    then Some(claims[token.value]) else None
  }

  /**
   * The items of the dict `connected_users`, `(user_id, sid)` in insertion
   * order, from its key order and its map.
   */
  function Items(order: seq<int>, connected: map<int, Sid>): (r: seq<(int, Sid)>)
    requires forall i :: 0 <= i < |order| ==> order[i] in connected
    ensures |r| == |order|
    ensures forall i :: 0 <= i < |r| ==> r[i] == (order[i], connected[order[i]])
  {
    seq(|order|, i requires 0 <= i < |order| => (order[i], connected[order[i]]))
  }

  /**
   * The search loop of `disconnect`: the position of the first item, in
   * insertion order, whose sid is `sid`, if any.
   */
  method FirstWithSid(d: seq<(int, Sid)>, sid: Sid) returns (index: Option<nat>)
    ensures index.Some? ==>
      && index.value < |d| && d[index.value].1 == sid
      && forall k :: 0 <= k < index.value ==> d[k].1 != sid
    ensures index.None? ==> forall k :: 0 <= k < |d| ==> d[k].1 != sid
  {
    var i := 0;
    while i < |d|
      invariant 0 <= i <= |d|
      invariant forall k :: 0 <= k < i ==> d[k].1 != sid
    {
      var (userId, socketId) := d[i];
      if socketId == sid {
        return Some(i);
      }
      i := i + 1;
    }
    return None;
  }

  /** The sids `chat:created` goes to while walking the requested participant list, in list order. */
  function ListedTargets(participants: seq<int>, connected: map<int, Sid>): (r: seq<Sid>)
  {
    if participants == [] then []
    else
      var last := participants[|participants| - 1];
      ListedTargets(participants[..|participants| - 1], connected)
        + (if last in connected then [connected[last]] else [])
  }

  /** Every listed participant that is connected is sent the event on its sid. */
  lemma {:induction false} ListedTargetsReach(participants: seq<int>, connected: map<int, Sid>, k: nat)
    requires k < |participants| && participants[k] in connected
    ensures connected[participants[k]] in ListedTargets(participants, connected)
  {
    var n := |participants| - 1;
    if k < n {
      ListedTargetsReach(participants[..n], connected, k);
    }
  }

  /** Nothing else is sent: every target is the sid of a listed, connected participant. */
  lemma {:induction false} ListedTargetsOnly(participants: seq<int>, connected: map<int, Sid>, t: Sid)
    requires t in ListedTargets(participants, connected)
    ensures exists k :: 0 <= k < |participants| && participants[k] in connected && connected[participants[k]] == t
  {
    var n := |participants| - 1;
    var front := participants[..n];
    if t in ListedTargets(front, connected) {
      ListedTargetsOnly(front, connected, t);
      var k :| 0 <= k < |front| && front[k] in connected && connected[front[k]] == t;
      assert participants[k] == front[k];
    } else {
      assert participants[n] in connected && connected[participants[n]] == t;
    }
  }

  /**
   * A creator who lists themselves, and whose registered sid is the
   * requesting one, receives `chat:created` twice on that sid.
   */
  lemma SelfListedCreatorReceivesTwice(participants: seq<int>, connected: map<int, Sid>, creator: int, sid: Sid)
    requires creator in participants && creator in connected && connected[creator] == sid
    ensures multiset(ListedTargets(participants, connected) + [sid])[sid] >= 2
  {
    var k :| 0 <= k < |participants| && participants[k] == creator;
    ListedTargetsReach(participants, connected, k);
  }

  /** The recipient loop of `chat_create`: the listed participants' sids, then the requester's. */
  method ChatCreatedTargets(participants: seq<int>, connected: map<int, Sid>, requester: Sid)
    returns (targets: seq<Sid>)
    ensures targets == ListedTargets(participants, connected) + [requester]
  {
    targets := [];
    for i := 0 to |participants|
      invariant targets == ListedTargets(participants[..i], connected)
    {
      assert participants[..i + 1][..i] == participants[..i];
      var uid := participants[i];
      if uid in connected {
        targets := targets + [connected[uid]];
      }
    }
    assert participants[..|participants|] == participants;
    targets := targets + [requester];
  }

  /** A non-empty set has an element. */
  lemma HasElement(s: set<int>)
    requires s != {}
    ensures exists x :: x in s
  {
    if forall x :: x !in s {
      assert false;
    }
  }

  /**
   * The recipient loop of `message_create`: each chat participant that is
   * connected, exactly once, and nobody else. The database's iteration order
   * is not modelled: any order is allowed.
   */
  method MessageRecipients(participants: set<int>, connected: map<int, Sid>)
    returns (recipients: seq<int>)
    ensures Distinct(recipients)
    ensures forall u :: u in recipients <==> u in participants && u in connected
    ensures forall i :: 0 <= i < |recipients| ==> recipients[i] in connected
  {
    recipients := [];
    var remaining := participants;
    while remaining != {}
      invariant remaining <= participants
      invariant Distinct(recipients)
      invariant forall u :: u in recipients <==> u in participants - remaining && u in connected
      decreases remaining
    {
      HasElement(remaining);
      var p :| p in remaining;
      if p in connected {
        recipients := recipients + [p];
      }
      remaining := remaining - {p};
    }
  }

  /**
   * `User.objects.filter(id__in=participants_ids + [user.id])`: the existing
   * users among the requested ids and the creator.
   */
  function ChatMembers(requested: seq<int>, creator: int, users: set<int>): (r: set<int>)
    ensures forall p :: p in r <==> (p in requested || p == creator) && p in users
    ensures creator in users ==> creator in r
  {
    set p | p in requested + [creator] && p in users
  }

  /** The characters Python's `str.isspace` accepts, which `str.strip()` removes. */
  predicate IsPySpace(c: char) {
    || ('\t' <= c <= '\r') || ('\U{1C}' <= c <= ' ')
    || c == '\U{85}' || c == '\U{A0}' || c == '\U{1680}' || ('\U{2000}' <= c <= '\U{200A}')
    || c == '\U{2028}' || c == '\U{2029}' || c == '\U{202F}' || c == '\U{205F}' || c == '\U{3000}'
  }

  /** How many whitespace characters `s` starts with. */
  function LeadingSpaces(s: string): (n: nat)
    ensures n <= |s|
    ensures forall k :: 0 <= k < n ==> IsPySpace(s[k])
    ensures n < |s| ==> !IsPySpace(s[n])
  {
    if s != [] && IsPySpace(s[0]) then 1 + LeadingSpaces(s[1..]) else 0
  }

  /** Where the whitespace `s` ends with begins. */
  function TrailingStart(s: string): (n: nat)
    ensures n <= |s|
    ensures forall k :: n <= k < |s| ==> IsPySpace(s[k])
    ensures 0 < n ==> !IsPySpace(s[n - 1])
  {
    if s != [] && IsPySpace(s[|s| - 1]) then TrailingStart(s[..|s| - 1]) else |s|
  }

  /**
   * Python's `str.strip()`, which a Django REST framework `CharField` applies
   * to its input before validating and storing it: the slice of `s` between
   * its leading and its trailing whitespace, which neither starts nor ends
   * with whitespace.
   */
  function PyStrip(s: string): (r: string)
    ensures LeadingSpaces(s) + |r| <= |s|
    ensures r == s[LeadingSpaces(s)..LeadingSpaces(s) + |r|]
    ensures forall k :: LeadingSpaces(s) + |r| <= k < |s| ==> IsPySpace(s[k])
    ensures r != [] ==> !IsPySpace(r[0]) && !IsPySpace(r[|r| - 1])
  {
    var i := LeadingSpaces(s);
    var rest := s[i..];
    var j := TrailingStart(rest);
    assert forall k :: i + j <= k < |s| ==> IsPySpace(s[k]) by {
      forall k | i + j <= k < |s| ensures IsPySpace(s[k]) {
        assert s[k] == rest[k - i];
      }
    }
    rest[..j]
  }

  /**
   * A text model field (`CharField`/`TextField`) as the serializer cleans it:
   * `None` when validation fails (a NUL character, or more than `maxLength`
   * characters once stripped), otherwise the stripped value that is stored.
   */
  function CleanText(raw: string, maxLength: Option<nat>): (r: Option<string>)
    ensures r.Some? <==> '\0' !in PyStrip(raw) && (maxLength.Some? ==> |PyStrip(raw)| <= maxLength.value)
    ensures r.Some? ==> r.value == PyStrip(raw)
  {
    var stripped := PyStrip(raw);
    if '\0' in stripped || (maxLength.Some? && |stripped| > maxLength.value) then None
    else Some(stripped)
  }

  /** Surrounding whitespace is dropped: the padded name `"  Team  "` is stored as `"Team"`. */
  lemma PaddedNameIsStripped()
    ensures CleanText("  Team  ", Some(255)) == Some("Team")
  {
    var s := "  Team  ";
    assert s[1..][1..] == "Team  ";
    assert LeadingSpaces(s) == 2;
    var rest := s[2..];
    assert rest == "Team  " && rest[..5] == "Team " && rest[..5][..4] == "Team";
    assert TrailingStart(rest) == 4;
    assert PyStrip(s) == "Team";
    assert '\0' !in "Team";
  }

  /** The length limit applies after stripping: 255 letters and two trailing spaces are accepted. */
  lemma LengthIsCheckedAfterStripping(letters: string)
    requires |letters| == 255 && forall k :: 0 <= k < |letters| ==> 'a' <= letters[k] <= 'z'
    ensures CleanText(letters + "  ", Some(255)) == Some(letters)
  {
    var s := letters + "  ";
    assert LeadingSpaces(s) == 0;
    assert s[0..] == s;
    assert s[..|s| - 1] == letters + " " && (letters + " ")[..|letters|] == letters;
    assert TrailingStart(letters) == |letters|;
    assert TrailingStart(s) == |letters|;
  }

  /** The sids of connected users. */
  function SidsOf(userIds: seq<int>, connected: map<int, Sid>): (r: seq<Sid>)
    requires forall i :: 0 <= i < |userIds| ==> userIds[i] in connected
  {
    seq(|userIds|, i requires 0 <= i < |userIds| => connected[userIds[i]])
  }

  /** One emission of `event` per target, in order. */
  function Deliver(event: Event, targets: seq<Sid>): (r: seq<Emission>)
  {
    seq(|targets|, i requires 0 <= i < |targets| => Emission(event, targets[i]))
  }

  class Server {
    /** Token decoding, as a map from token to its `user_id` claim. */
    const claims: map<string, int>
    /** The ids present in the user table. */
    const users: set<int>

    /** `connected_users`: its keys in insertion order, and the key-to-sid map. */
    var order: seq<int>
    var connectedUsers: map<int, Sid>
    var chats: map<int, ChatRecord>
    var messages: seq<MessageRecord>
    var nextChatId: int
    var nextMessageId: int
    var outbox: seq<Emission>

    ghost predicate Valid()
      reads this
    {
      && Distinct(order)
      && (forall i :: 0 <= i < |order| ==> order[i] in connectedUsers)
      && (forall u :: u in connectedUsers ==> u in order)
      && (forall id :: id in chats ==> chats[id].id == id && id < nextChatId)
      && (forall i :: 0 <= i < |messages| ==> messages[i].id < nextMessageId)
      && (forall i, j :: 0 <= i < j < |messages| ==> messages[i].id < messages[j].id)
    }

    /**
     * A server over an existing database: `chats` are the chats already
     * stored (those created over REST included), and `nextChatId` and
     * `nextMessageId` are the next values of the tables' auto-increment keys.
     */
    constructor (claims: map<string, int>, users: set<int>, chats: map<int, ChatRecord>, nextChatId: int, nextMessageId: int)
      requires forall id :: id in chats ==> chats[id].id == id && id < nextChatId
      ensures Valid()
      ensures this.claims == claims && this.users == users && this.chats == chats
      ensures this.nextChatId == nextChatId && this.nextMessageId == nextMessageId
      ensures order == [] && connectedUsers == map[] && messages == [] && outbox == []
    {
      this.claims := claims;
      this.users := users;
      order := [];
      connectedUsers := map[];
      this.chats := chats;
      messages := [];
      this.nextChatId := nextChatId;
      this.nextMessageId := nextMessageId;
      outbox := [];
    }

    /**
     * `POST /chats/` through the REST API, which shares the database: the
     * serializer accepts a name that cleans to at most 255 characters and a
     * non-empty list of existing user ids, and the chat is stored, with the
     * cleaned name, under the next chat id. Nothing is sent on the socket.
     */
    method StoreChatOverRest(participants: seq<int>, isGroup: bool, name: string) returns (created: bool)
      requires Valid()
      modifies this`chats, this`nextChatId
      ensures Valid()
      ensures created <==> CleanText(name, Some(255)).Some? && |participants| > 0
                           && forall i :: 0 <= i < |participants| ==> participants[i] in users
      ensures created ==>
        var chat := ChatRecord(old(nextChatId), PyStrip(name), (set p | p in participants), isGroup);
        && old(nextChatId) !in old(chats)
        && chats == old(chats)[old(nextChatId) := chat]
        && nextChatId == old(nextChatId) + 1
      ensures !created ==> chats == old(chats) && nextChatId == old(nextChatId)
    {
      var cleaned := CleanText(name, Some(255));
      created := cleaned.Some? && |participants| > 0
                 && forall i :: 0 <= i < |participants| ==> participants[i] in users;
      if created {
        chats := chats[nextChatId := ChatRecord(nextChatId, cleaned.value, (set p | p in participants), isGroup)];
        nextChatId := nextChatId + 1;
      }
    }

    /**
     * `POST /messages/` through the REST API: the serializer needs an
     * existing sender, an existing chat and a text without NUL once stripped,
     * and the message is stored, with the stripped text, under the next
     * message id. Nothing is sent on the socket.
     */
    method StoreMessageOverRest(sender: int, chatId: int, text: string) returns (created: bool)
      requires Valid()
      modifies this`messages, this`nextMessageId
      ensures Valid()
      ensures created <==> sender in users && chatId in chats && CleanText(text, None).Some?
      ensures created ==>
        && messages == old(messages) + [MessageRecord(old(nextMessageId), chatId, sender, PyStrip(text))]
        && nextMessageId == old(nextMessageId) + 1
      ensures !created ==> messages == old(messages) && nextMessageId == old(nextMessageId)
    {
      var cleaned := CleanText(text, None);
      created := sender in users && chatId in chats && cleaned.Some?;
      if created {
        messages := messages + [MessageRecord(nextMessageId, chatId, sender, cleaned.value)];
        nextMessageId := nextMessageId + 1;
      }
    }

    /**
     * `auth`: a valid token registers its user on `sid`, replacing an earlier
     * sid in place; either way `sid` is answered.
     */
    method Auth(sid: Sid, token: Option<string>)
      requires Valid()
      modifies this`order, this`connectedUsers, this`outbox
      ensures Valid()
      ensures match UserFromToken(claims, users, token)
        case Some(uid) =>
          && connectedUsers == old(connectedUsers)[uid := sid]
          && order == (if uid in old(connectedUsers) then old(order) else old(order) + [uid])
          && outbox == old(outbox) + [Emission(AuthSuccess(uid), sid)]
        case None =>
          && connectedUsers == old(connectedUsers) && order == old(order)
          && outbox == old(outbox) + [Emission(AuthError("Invalid token"), sid)]
    {
      var user := UserFromToken(claims, users, token);
      if user.Some? {
        if user.value !in connectedUsers {
          order := order + [user.value];
        }
        connectedUsers := connectedUsers[user.value := sid];
        outbox := outbox + [Emission(AuthSuccess(user.value), sid)];
      } else {
        outbox := outbox + [Emission(AuthError("Invalid token"), sid)];
      }
    }

    /** `disconnect`: removes the first registration, in insertion order, held by `sid`, and no other. */
    method Disconnect(sid: Sid)
      requires Valid()
      modifies this`order, this`connectedUsers
      ensures Valid()
      ensures var items := old(Items(order, connectedUsers));
        (forall k :: 0 <= k < |items| ==> items[k].1 != sid) ==>
          order == old(order) && connectedUsers == old(connectedUsers)
      ensures var items := old(Items(order, connectedUsers));
        (exists k :: 0 <= k < |items| && items[k].1 == sid) ==>
          exists i :: 0 <= i < |items|
            && items[i].1 == sid
            && (forall k :: 0 <= k < i ==> items[k].1 != sid)
            && order == RemoveAt(old(order), i)
            && connectedUsers == old(connectedUsers) - {items[i].0}
    {
      var index := FirstWithSid(Items(order, connectedUsers), sid);
      if index.Some? {
        var uid := order[index.value];
        RemoveAtDistinct(order, index.value);
        order := RemoveAt(order, index.value);
        connectedUsers := connectedUsers - {uid};
      }
    }

    /**
     * `chat_create`: an unresolvable token is answered with `error`.
     * Otherwise a chat is stored whose participants are the existing users
     * among the requested ids and the creator (the requested `name` is not
     * stored), and `chat:created` is sent to every listed participant that is
     * connected, then to the requester.
     */
    method ChatCreate(sid: Sid, token: Option<string>, participants: seq<int>, isGroup: bool, name: string)
      requires Valid()
      modifies this`chats, this`nextChatId, this`outbox
      ensures Valid()
      ensures UserFromToken(claims, users, token).None? ==>
        && chats == old(chats) && nextChatId == old(nextChatId)
        && outbox == old(outbox) + [Emission(Error("Unauthorized"), sid)]
      ensures UserFromToken(claims, users, token).Some? ==>
        var creator := UserFromToken(claims, users, token).value;
        var chat := ChatRecord(old(nextChatId), "", ChatMembers(participants, creator, users), isGroup);
        && old(nextChatId) !in old(chats)
        && chats == old(chats)[old(nextChatId) := chat]
        && nextChatId == old(nextChatId) + 1
        && creator in chat.participants
        && outbox == old(outbox) + Deliver(ChatCreated(chat), ListedTargets(participants, connectedUsers) + [sid])
    {
      var user := UserFromToken(claims, users, token);
      if user.None? {
        outbox := outbox + [Emission(Error("Unauthorized"), sid)];
        return;
      }
      var chat := ChatRecord(nextChatId, "", ChatMembers(participants, user.value, users), isGroup);
      chats := chats[nextChatId := chat];
      nextChatId := nextChatId + 1;
      var targets := ChatCreatedTargets(participants, connectedUsers, sid);
      outbox := outbox + Deliver(ChatCreated(chat), targets);
    }

    /**
     * `message_create`: an unresolvable token is answered with `error`; an
     * unknown chat makes the handler fail with nothing stored or sent.
     * Otherwise the message is stored and `message:created` goes once to
     * each connected participant of the chat. The sender is not required to
     * be a participant.
     */
    method MessageCreate(sid: Sid, token: Option<string>, chatId: int, text: string)
      requires Valid()
      modifies this`messages, this`nextMessageId, this`outbox
      ensures Valid()
      ensures UserFromToken(claims, users, token).None? ==>
        && messages == old(messages) && nextMessageId == old(nextMessageId)
        && outbox == old(outbox) + [Emission(Error("Unauthorized"), sid)]
      ensures UserFromToken(claims, users, token).Some? && chatId !in chats ==>
        messages == old(messages) && nextMessageId == old(nextMessageId) && outbox == old(outbox)
      ensures UserFromToken(claims, users, token).Some? && chatId in chats ==>
        var message := MessageRecord(old(nextMessageId), chatId, UserFromToken(claims, users, token).value, text);
        && messages == old(messages) + [message]
        && nextMessageId == old(nextMessageId) + 1
        && (forall i :: 0 <= i < |old(messages)| ==> old(messages)[i].id != message.id)
        && exists recipients: seq<int> ::
          && Distinct(recipients)
          && (forall u :: u in recipients <==> u in chats[chatId].participants && u in connectedUsers)
          && (forall i :: 0 <= i < |recipients| ==> recipients[i] in connectedUsers)
          && outbox == old(outbox) + Deliver(MessageCreated(message), SidsOf(recipients, connectedUsers))
    {
      var user := UserFromToken(claims, users, token);
      if user.None? {
        outbox := outbox + [Emission(Error("Unauthorized"), sid)];
        return;
      }
      if chatId !in chats {
        return;
      }
      var message := MessageRecord(nextMessageId, chatId, user.value, text);
      messages := messages + [message];
      nextMessageId := nextMessageId + 1;
      var recipients := MessageRecipients(chats[chatId].participants, connectedUsers);
      outbox := outbox + Deliver(MessageCreated(message), SidsOf(recipients, connectedUsers));
    }
  }

  /**
   * A chat created over REST after start-up is a known chat to the socket
   * server: a message sent to it on the socket is stored and fanned out.
   */
  method RestChatAcceptsSocketMessages(s: Server, sid: Sid, token: Option<string>, participants: seq<int>, text: string)
    requires s.Valid() && UserFromToken(s.claims, s.users, token).Some?
    requires |participants| > 0 && forall i :: 0 <= i < |participants| ==> participants[i] in s.users
    modifies s
    ensures |s.messages| == |old(s.messages)| + 1
    ensures s.messages[|s.messages| - 1].chat == old(s.nextChatId)
    ensures s.messages[|s.messages| - 1].sender == UserFromToken(s.claims, s.users, token).value
  {
    var chatId := s.nextChatId;
    var created := s.StoreChatOverRest(participants, false, "");
    s.MessageCreate(sid, token, chatId, text);
  }
}
