/** The Socket.IO connection handlers (`user_join`, `new_message`, `typing`,
    `disconnect`), the shared online-user set, and `GET /api/messages`. */
module Chat {
  import opened Wrappers
  import opened InsertionSet
  import opened Messages

  /** A connection's identifier. */
  type SocketId = string

  /** A user id as a client sends it with `user_join`: any JSON value the model tells
      apart (numbers are integers here). */
  datatype UserId = Text(s: string) | Number(n: int) | Boolean(b: bool) | Null | Undefined

  /** The user ids JavaScript treats as false. */
  const FalsyIds: set<UserId> := {Text(""), Number(0), Boolean(false), Null, Undefined}

  /** JavaScript truthiness of a user id, as `if (socket.userId)` tests it. */
  function Truthy(id: UserId): (b: bool)
    ensures b <==> id !in FalsyIds
  {
    match id
    case Text(s) => s != ""
    case Number(n) => n != 0
    case Boolean(b) => b
    case Null => false
    case Undefined => false
  }

  /** The payload of a `typing` event, forwarded as received. */
  datatype TypingData = TypingData(username: string)

  /** Who an emission goes to: every connection (`io.emit`), every connection but the
      sender (`socket.broadcast.emit`), or the sender alone (`socket.emit`). */
  datatype Scope = Everyone | AllExcept(sender: SocketId) | OnlyTo(sender: SocketId)

  /** The events the server emits. */
  datatype Event =
    | OnlineUsers(users: seq<UserId>)
    | ChatMessage(message: Message)
    | UserTyping(data: TypingData)
    | ErrorEvent(error: string)

  datatype Emission = Emission(scope: Scope, event: Event)

  /** The connections among `connected` that an emission with this scope reaches. */
  function Recipients(scope: Scope, connected: set<SocketId>): (r: set<SocketId>)
    ensures scope.Everyone? ==> r == connected
    ensures scope.AllExcept? ==> r == connected - {scope.sender}
    ensures scope.OnlyTo? ==> r == connected * {scope.sender}
    ensures scope.AllExcept? ==> scope.sender !in r
    ensures scope.OnlyTo? ==> r <= {scope.sender}
  {
    match scope
    case Everyone => connected
    case AllExcept(s) => connected - {s}
    case OnlyTo(s) => connected * {s}
  }

  /** The answer of `GET /api/messages`: 200 with the messages, or 500 with the error's message. */
  datatype HistoryResponse = Listed(messages: seq<Message>) | Failed(status: nat, message: string)

  class ChatServer {
    /** `onlineUsers`, in the order `Array.from` lists it. */
    var online: seq<UserId>
    /** The live connections and the `userId` each has been given, if any. */
    var socketUser: map<SocketId, Option<UserId>>
    /** The message collection, in the order the writes succeeded. */
    var messages: seq<Message>
    /** Every emission so far, oldest first. */
    var outbox: seq<Emission>

    ghost predicate Valid()
      reads this
    {
      Distinct(online)
    }

    constructor ()
      ensures Valid()
      ensures online == [] && socketUser == map[] && messages == [] && outbox == []
    {
      online, socketUser, messages, outbox := [], map[], [], [];
    }

    /** A client connects; its socket has no `userId` yet. */
    method Connect(s: SocketId)
      requires Valid() && s !in socketUser
      modifies this
      ensures Valid()
      ensures socketUser == old(socketUser)[s := None]
      ensures online == old(online) && messages == old(messages) && outbox == old(outbox)
    {
      socketUser := socketUser[s := None];
    }

    /** `user_join`: the socket takes `id` (replacing any earlier one), `id` joins the
        online set if new, and the whole set goes to every connection. */
    method UserJoin(s: SocketId, id: UserId)
      requires Valid() && s in socketUser
      modifies this
      ensures Valid()
      ensures socketUser == old(socketUser)[s := Some(id)]
      ensures id in online && (forall u :: u in online <==> u in old(online) || u == id)
      ensures online == Add(old(online), id)
      ensures messages == old(messages)
      ensures outbox == old(outbox) + [Emission(Everyone, OnlineUsers(online))]
    {
      socketUser := socketUser[s := Some(id)];
      online := Add(online, id);
      outbox := outbox + [Emission(Everyone, OnlineUsers(online))];
    }

    /** `new_message`: the document is written; if the write succeeds the message is
        stored and then sent to every connection, the sender included; if it fails
        nothing is stored and only the sender gets an `error` with the failure's message.
        `now` is the clock's reading and `save` the write's outcome. */
    method NewMessage(s: SocketId, data: MessageData, now: int, save: Outcome)
      requires Valid() && s in socketUser
      modifies this
      ensures Valid()
      ensures online == old(online) && socketUser == old(socketUser)
      ensures save == Pass ==>
        messages == old(messages) + [Document(data, now)]
        && outbox == old(outbox) + [Emission(Everyone, ChatMessage(Document(data, now)))]
      ensures save.Fail? ==>
        messages == old(messages)
        && outbox == old(outbox) + [Emission(OnlyTo(s), ErrorEvent(save.error))]
    {
      var message := Document(data, now);
      if save.Fail? {
        outbox := outbox + [Emission(OnlyTo(s), ErrorEvent(save.error))];
        return;
      }
      messages := messages + [message];
      outbox := outbox + [Emission(Everyone, ChatMessage(message))];
    }

    /** `typing`: the payload goes unchanged to every connection but the sender. */
    method Typing(s: SocketId, data: TypingData)
      requires Valid() && s in socketUser
      modifies this
      ensures Valid()
      ensures online == old(online) && socketUser == old(socketUser) && messages == old(messages)
      ensures outbox == old(outbox) + [Emission(AllExcept(s), UserTyping(data))]
    {
      outbox := outbox + [Emission(AllExcept(s), UserTyping(data))];
    }

    /** `disconnect`: the connection goes away; if its `userId` is truthy, that id leaves
        the online set (whatever other connection still holds it) and the remaining set
        goes to every connection. */
    method Disconnect(s: SocketId)
      requires Valid() && s in socketUser
      modifies this
      ensures Valid()
      ensures socketUser == old(socketUser) - {s}
      ensures messages == old(messages)
      ensures var id := old(socketUser)[s];
        if id.Some? && Truthy(id.value) then
          id.value !in online
          && (forall u :: u in online <==> u in old(online) && u != id.value)
          && online == Delete(old(online), id.value)
          && outbox == old(outbox) + [Emission(Everyone, OnlineUsers(online))]
        else
          online == old(online) && outbox == old(outbox)
    {
      var id := socketUser[s];
      socketUser := socketUser - {s};
      if id.Some? && Truthy(id.value) {
        DeleteDistinct(online, id.value);
        online := Delete(online, id.value);
        outbox := outbox + [Emission(Everyone, OnlineUsers(online))];
      }
    }

    /** `GET /api/messages`: every stored message, earliest timestamp first; `find` is the
        outcome of the query. */
    method GetMessages(find: Outcome) returns (r: HistoryResponse)
      ensures find.Fail? ==> r == Failed(InternalServerError, find.error)
      ensures find == Pass ==>
        r.Listed? && SortedByTime(r.messages) && multiset(r.messages) == multiset(messages)
    {
      if find.Fail? {
        return Failed(InternalServerError, find.error);
      }
      r := Listed(SortByTime(messages));
    }
  }
}
