/**
 * Client runs of the socket handler, proved from the handlers' contracts
 * alone: a two-user conversation, a user who sets up again from a newer
 * socket, and one socket that sets up two users.
 */
module SocketScenarios {
  import opened Wrappers
  import opened SocketHandler

  function UserSetup(id: UserId): Option<UserData> {
    Some(UserData(Some(id)))
  }

  /** The sockets reached by a run of emits, all addressed under the same room membership. */
  function ReachedBy(rooms: map<SocketId, set<Room>>, emits: seq<Emit>): set<SocketId>
    decreases |emits|
  {
    if emits == [] then {} else Recipients(rooms, emits[0].target) + ReachedBy(rooms, emits[1..])
  }

  function ConversationMessage(): MessageEvent {
    MessageEvent(Some(Chat(Some([Participant("u1"), Participant("u2")]))), Some(Participant("u1")), "hi")
  }

  lemma ConversationFanOut()
    ensures MessageEmits(Some(ConversationMessage()), "A") == Some([MessageTo("u2", "A", ConversationMessage())])
  {
    var msg := ConversationMessage();
    var users := [Participant("u1"), Participant("u2")];
    assert users[..1] == [Participant("u1")];
    assert [Participant("u1")][..0] == [];
    assert FanOut([Participant("u1")], "u1", "A", msg) == [];
    assert "u2" != "u1";
    assert users[|users| - 1] == Participant("u2");
    assert FanOut(users, "u1", "A", msg) == FanOut(users[..1], "u1", "A", msg) + [MessageTo("u2", "A", msg)];
    assert msg.chat.value.users.value == users;
    assert msg.sender.value.id == "u1";
    assert MessageEmits(Some(msg), "A") == Some(FanOut(users, "u1", "A", msg));
    assert FanOut(users, "u1", "A", msg) == [MessageTo("u2", "A", msg)];
  }

  lemma ConversationReach(rooms: map<SocketId, set<Room>>)
    requires rooms.Keys == {"A", "B"}
    requires rooms["A"] == {"A", "u1", "r1"} && rooms["B"] == {"B", "u2", "r1"}
    ensures ReachedBy(rooms, [MessageTo("u2", "A", ConversationMessage())]) == {"B"}
  {
    var r := Recipients(rooms, ToRoomExcept("u2", "A"));
    assert "u2" != "A" && "u2" != "u1" && "u2" != "r1" && "B" != "A";
    assert "B" in r;
    assert forall x :: x in r ==> x == "B";
    assert [MessageTo("u2", "A", ConversationMessage())][1..] == [];
  }

  lemma ConversationDisconnect(keys: seq<UserId>, online: map<UserId, SocketId>)
    requires keys == ["u1", "u2"] && online == map["u1" := "A", "u2" := "B"]
    ensures FirstEntryOn(keys, online, "B") == Some(1)
    ensures keys[..1] + keys[2..] == ["u1"]
  {
    assert "A" != "B" && "u1" != "u2";
    assert keys[1..] == ["u2"] && keys[1..][1..] == [];
    assert FirstEntryOn(["u2"], online, "B") == Some(0);
  }

  /** Sockets A and B connect. */
  method TwoSockets() returns (hub: Hub)
    ensures fresh(hub) && hub.Valid()
    ensures hub.keys == [] && hub.online == map[]
    ensures hub.rooms.Keys == {"A", "B"} && hub.rooms["A"] == {"A"} && hub.rooms["B"] == {"B"}
  {
    hub := new Hub();
    hub.Connect("A");
    assert "A" != "B";
    hub.Connect("B");
  }

  /** Sockets A and B connect and set up u1 and u2. */
  method TwoUsers() returns (hub: Hub)
    ensures fresh(hub) && hub.Valid()
    ensures hub.keys == ["u1", "u2"]
    ensures hub.online == map["u1" := "A", "u2" := "B"]
    ensures hub.rooms.Keys == {"A", "B"}
    ensures hub.rooms["A"] == {"A", "u1"} && hub.rooms["B"] == {"B", "u2"}
  {
    hub := TwoSockets();
    hub.Setup("A", UserSetup("u1"));
    assert "A" != "B" && "u1" != "u2";
    hub.Setup("B", UserSetup("u2"));
  }

  /** ... and both join room r1. */
  method TwoUsersInRoom() returns (hub: Hub)
    ensures fresh(hub) && hub.Valid()
    ensures hub.keys == ["u1", "u2"] && hub.online == map["u1" := "A", "u2" := "B"]
    ensures hub.rooms.Keys == {"A", "B"}
    ensures hub.rooms["A"] == {"A", "u1", "r1"} && hub.rooms["B"] == {"B", "u2", "r1"}
  {
    hub := TwoUsers();
    assert "A" != "B";
    hub.JoinChat("A", "r1");
    hub.JoinChat("B", "r1");
  }

  /** After `TwoUsersInRoom`, u1 sends a message in a chat of both; it reaches B alone. */
  method ConversationSend() returns (hub: Hub, reached: set<SocketId>)
    ensures fresh(hub) && hub.Valid()
    ensures hub.keys == ["u1", "u2"] && hub.online == map["u1" := "A", "u2" := "B"]
    ensures hub.rooms.Keys == {"A", "B"}
    ensures reached == {"B"}
  {
    hub := TwoUsersInRoom();
    var msg := ConversationMessage();
    var before := |hub.outbox|;
    var outcome := hub.NewMessage("A", Some(msg));
    var sent := hub.outbox[before..];
    ConversationFanOut();
    assert sent == [MessageTo("u2", "A", msg)];
    ConversationReach(hub.rooms);
    reached := ReachedBy(hub.rooms, sent);
  }

  /**
   * Users u1 (socket A) and u2 (socket B) are in room r1; u1 sends a message
   * in a chat of both. Only B receives it. B then disconnects, and the
   * presence broadcast lists u1 alone.
   */
  method TwoUserConversation() returns (reached: set<SocketId>, lastBroadcast: Emit, presence: seq<UserId>)
    ensures reached == {"B"}
    ensures lastBroadcast == OnlineUsersBroadcast(["u1"])
    ensures presence == ["u1"]
  {
    var hub;
    hub, reached := ConversationSend();
    ConversationDisconnect(hub.keys, hub.online);
    hub.Disconnect("B");
    lastBroadcast := hub.outbox[|hub.outbox| - 1];
    presence := hub.keys;
  }

  /** After `TwoUsers`, a third socket C connects and sets up u1 again. */
  method ThreeSocketsTwoUsers() returns (hub: Hub)
    ensures fresh(hub) && hub.Valid()
    ensures hub.keys == ["u1", "u2"] && "u1" in hub.online && hub.online["u1"] == "C"
    ensures forall u :: u in hub.online ==> hub.online[u] != "A"
    ensures "A" in hub.rooms
  {
    hub := TwoUsers();
    assert "C" != "A" && "C" != "B";
    hub.Connect("C");
    hub.Setup("C", UserSetup("u1"));
  }

  /**
   * u1 sets up on A, u2 on B, then u1 again on C. u1 keeps its place in the
   * presence list, and when the older socket A disconnects nothing is
   * removed and nothing is announced.
   */
  method ReconnectFromNewerSocket() returns (presence: seq<UserId>, socketOfU1: SocketId, quiet: bool)
    ensures presence == ["u1", "u2"]
    ensures socketOfU1 == "C"
    ensures quiet
  {
    var hub := ThreeSocketsTwoUsers();
    var before := hub.outbox;
    assert !OnSocket(hub.online, hub.keys[0], "A") && !OnSocket(hub.online, hub.keys[1], "A");
    hub.Disconnect("A");
    presence := hub.keys;
    socketOfU1 := hub.online["u1"];
    quiet := hub.outbox == before;
  }

  /** Socket A connects and sets up u1, then u2. */
  method OneSocketTwoUsers() returns (hub: Hub)
    ensures fresh(hub) && hub.Valid()
    ensures hub.keys == ["u1", "u2"] && hub.online == map["u1" := "A", "u2" := "A"]
    ensures hub.rooms.Keys == {"A"}
  {
    hub := new Hub();
    hub.Connect("A");
    hub.Setup("A", UserSetup("u1"));
    assert "u1" != "u2";
    hub.Setup("A", UserSetup("u2"));
  }

  lemma OneSocketDisconnect(keys: seq<UserId>, online: map<UserId, SocketId>)
    requires keys == ["u1", "u2"] && online == map["u1" := "A", "u2" := "A"]
    ensures FirstEntryOn(keys, online, "A") == Some(0)
    ensures keys[..0] + keys[1..] == ["u2"]
  {
  }

  /**
   * One socket sets up u1 and then u2. Its disconnect deletes only the first
   * entry, so u2 stays listed as online on a socket that no longer exists.
   */
  method TwoUsersOnOneSocket() returns (presence: seq<UserId>, staleSocket: SocketId, connected: set<SocketId>)
    ensures presence == ["u2"]
    ensures staleSocket == "A" && staleSocket !in connected
  {
    var hub := OneSocketTwoUsers();
    OneSocketDisconnect(hub.keys, hub.online);
    hub.Disconnect("A");
    presence := hub.keys;
    staleSocket := hub.online["u2"];
    connected := hub.rooms.Keys;
  }
}
