/** Runs of the server from a fresh start, proved from the handlers' contracts alone:
    what each sequence of events leaves behind and what it emits. */
module Scenarios {
  import opened Wrappers
  import opened Upload
  import opened Profiles
  import opened Messages
  import opened Chat
  import opened InsertionSet

  /** Two users join and the second leaves: each change of the online set goes to every
      connection, listing the users in the order they joined. */
  method JoinAndLeave() returns (emitted: seq<Emission>)
    ensures emitted == [
      Emission(Everyone, OnlineUsers([Text("A")])),
      Emission(Everyone, OnlineUsers([Text("A"), Text("B")])),
      Emission(Everyone, OnlineUsers([Text("A")]))]
  {
    var server := new ChatServer();
    server.Connect("a");
    server.Connect("b");
    server.UserJoin("a", Text("A"));
    assert server.online == [Text("A")];
    server.UserJoin("b", Text("B"));
    assert server.online == Add([Text("A")], Text("B")) == [Text("A"), Text("B")];
    AddThenDelete([Text("A")], Text("B"));
    assert server.socketUser["b"] == Some(Text("B")) && Truthy(Text("B"));
    ghost var joined := server.outbox;
    server.Disconnect("b");
    assert server.online == [Text("A")];
    assert server.outbox == joined + [Emission(Everyone, OnlineUsers([Text("A")]))];
    emitted := server.outbox;
  }

  /** One user sends "hi" and the other types: the message reaches every connection, the
      sender included, and the typing signal reaches only the other connection. */
  method SendAndType() returns (emitted: seq<Emission>, messageReaches: set<SocketId>, typingReaches: set<SocketId>)
    ensures emitted == [
      Emission(Everyone, ChatMessage(Message("hi", "ann", "", "A", None, 1000))),
      Emission(AllExcept("b"), UserTyping(TypingData("bob")))]
    ensures messageReaches == {"a", "b"} && typingReaches == {"a"}
  {
    var server := new ChatServer();
    server.Connect("a");
    server.Connect("b");
    server.NewMessage("a", MessageData("hi", "ann", "", "A", None, None), 1000, Pass);
    server.Typing("b", TypingData("bob"));
    emitted := server.outbox;
    assert server.socketUser.Keys == {"a", "b"};
    messageReaches := Recipients(emitted[0].scope, server.socketUser.Keys);
    typingReaches := Recipients(emitted[1].scope, server.socketUser.Keys);
  }

  /** Two messages stored in one order but stamped in the other: the history lists them
      by timestamp, not by the order the writes happened. */
  method HistoryByTimestamp() returns (history: HistoryResponse)
    ensures history == Listed([Message("second", "bob", "", "B", None, 5), Message("first", "ann", "", "A", None, 10)])
  {
    var server := new ChatServer();
    server.Connect("a");
    server.NewMessage("a", MessageData("first", "ann", "", "A", None, None), 10, Pass);
    server.NewMessage("a", MessageData("second", "bob", "", "B", None, Some(5)), 20, Pass);
    var m1 := Message("first", "ann", "", "A", None, 10);
    var m2 := Message("second", "bob", "", "B", None, 5);
    assert server.messages == [m1, m2];
    history := server.GetMessages(Pass);
    var h := history.messages;
    assert multiset(h) == multiset{m1, m2};
    assert |h| == 2;
    assert h[0] in multiset(h) && h[1] in multiset(h);
    assert h == [m2, m1];
  }

  /** A failed write stores nothing and tells only the sender. */
  method FailedSend() returns (emitted: seq<Emission>, stored: seq<Message>)
    ensures emitted == [Emission(Everyone, OnlineUsers([Text("A")])), Emission(OnlyTo("a"), ErrorEvent("write failed"))]
    ensures stored == []
  {
    var server := new ChatServer();
    server.Connect("a");
    server.UserJoin("a", Text("A"));
    server.NewMessage("a", MessageData("hi", "ann", "", "A", None, Some(5)), 1000, Fail("write failed"));
    emitted, stored := server.outbox, server.messages;
  }

  /** Two connections join as the same user: the online set lists the user once. When the
      first of them disconnects the user leaves the online set, although the second
      connection still holds the id. */
  method SharedIdentity() returns (afterJoins: seq<UserId>, afterLeave: seq<UserId>, stillHeld: bool)
    ensures afterJoins == [Text("A")]
    ensures afterLeave == []
    ensures stillHeld
  {
    var server := new ChatServer();
    server.Connect("tab1");
    server.Connect("tab2");
    server.UserJoin("tab1", Text("A"));
    server.UserJoin("tab2", Text("A"));
    afterJoins := server.online;
    server.Disconnect("tab1");
    afterLeave := server.online;
    stillHeld := "tab2" in server.socketUser && server.socketUser["tab2"] == Some(Text("A"));
  }

  /** A connection that joins twice keeps only its second id; when it disconnects the
      first id stays in the online set with no connection left. */
  method StaleAfterRejoin() returns (online: seq<UserId>, connections: set<SocketId>, emitted: seq<Emission>)
    ensures online == [Text("A")]
    ensures connections == {}
    ensures |emitted| == 3 && emitted[2] == Emission(Everyone, OnlineUsers([Text("A")]))
  {
    var server := new ChatServer();
    server.Connect("s");
    server.UserJoin("s", Text("A"));
    assert server.online == [Text("A")];
    server.UserJoin("s", Text("B"));
    assert server.online == Add([Text("A")], Text("B"));
    AddThenDelete([Text("A")], Text("B"));
    assert server.socketUser == map["s" := Some(Text("B"))] && Truthy(Text("B"));
    assert |server.outbox| == 2;
    ghost var joined := server.outbox;
    server.Disconnect("s");
    assert server.online == [Text("A")];
    assert server.outbox == joined + [Emission(Everyone, OnlineUsers([Text("A")]))];
    assert server.socketUser == map[];
    online, connections, emitted := server.online, server.socketUser.Keys, server.outbox;
  }

  /** A connection that joined with an empty id enters the online set, but its disconnect
      neither removes that entry nor emits anything; a connection that never joined
      leaves silently too. */
  method FalsyIdLingers() returns (online: seq<UserId>, emitted: seq<Emission>)
    ensures online == [Text("")]
    ensures emitted == [Emission(Everyone, OnlineUsers([Text("")]))]
  {
    var server := new ChatServer();
    server.Connect("s");
    server.Connect("t");
    server.UserJoin("s", Text(""));
    server.Disconnect("s");
    server.Disconnect("t");
    online, emitted := server.online, server.outbox;
  }

  /** Posting an existing username returns the stored user whatever is uploaded the
      second time; the first post created it with the default avatar. */
  method RepeatedProfile(base64: seq<byte> -> string, avatar: seq<byte>, photo: seq<byte>)
    returns (first: Response, second: Response)
    requires |photo| <= MaxFileSize
    ensures first == Ok(Profile("id1", "ann", "data:image/png;base64," + base64(avatar)))
    ensures second == first
  {
    var store := new UserStore();
    first := store.PostUser("ann", None, base64, avatar, "id1", Pass);
    DefaultAvatarUrl("id1", "ann", base64, avatar);
    var upload := Some(File("image/jpeg", photo));
    assert CheckUpload(upload) == Pass by {
      ImageTypesPass();
    }
    second := store.PostUser("ann", upload, base64, avatar, "id2", Pass);
  }

  /** An upload the filter rejects (here a voice recording) gets 400 and creates no
      user, even for a new username. */
  method RejectedUpload(base64: seq<byte> -> string, avatar: seq<byte>, photo: seq<byte>)
    returns (r: Response, created: bool)
    ensures r == Error(400, "Only image files are allowed!")
    ensures !created
  {
    var store := new UserStore();
    FilterRejectsAudio();
    r := store.PostUser("ann", Some(File("audio/webm", photo)), base64, avatar, "id1", Pass);
    created := "ann" in store.users;
  }
}
