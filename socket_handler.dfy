/**
 * The Socket.IO connection handler of the chat backend: a process-wide
 * registry from user id to socket id, the rooms each connected socket has
 * joined, and the events the handlers emit.
 *
 * Node.js runs every handler to completion before the next one starts, so the
 * handler is a sequential state machine; each inbound event is one method of
 * `Hub`. Emitted events are recorded in an outbox by their address, and
 * `Recipients` states which connected sockets an address reaches.
 */
module SocketHandler {
  import opened Wrappers
  import OrderedKeys
  import EventEmitter

  type UserId = string
  type SocketId = string
  type Room = string

  const OnlineUsersEvent: string := "online users"
  const ConnectedEvent: string := "connected"
  const TypingEvent: string := "typing"
  const StopTypingEvent: string := "stop typing"
  const MessageReceivedEvent: string := "message received"

  /** The `userData` object a client sends with `setup`; `_id` may be absent. */
  datatype UserData = UserData(id: Option<string>)

  /** A user object as it appears in `chat.users` and as `sender`. */
  datatype Participant = Participant(id: UserId)

  /** The `chat` of a message; its `users` array may be absent. */
  datatype Chat = Chat(users: Option<seq<Participant>>)

  /** The `newMessageReceived` object of `new message`, relayed unchanged. */
  datatype MessageEvent = MessageEvent(chat: Option<Chat>, sender: Option<Participant>, content: string)

  /**
   * Where an emit is addressed: one socket (`socket.emit`), every connected
   * socket (`io.emit`), or every socket in `room` except the calling one
   * (`socket.in(room).emit`).
   */
  datatype Target = ToSocket(socket: SocketId) | ToAll | ToRoomExcept(room: Room, except: SocketId)

  datatype Payload = NoPayload | UserList(users: seq<UserId>) | Message(message: MessageEvent)

  datatype Emit = Emit(target: Target, event: string, payload: Payload)

  /** A handler either runs to its end or stops at a JavaScript `TypeError`. */
  datatype Outcome = Completed | Threw

  /**
   * Socket.IO's delivery rule, taken as given: the connected sockets that an
   * address reaches when `rooms` is the membership at the time of the emit.
   */
  function Recipients(rooms: map<SocketId, set<Room>>, target: Target): (r: set<SocketId>)
    ensures r <= rooms.Keys
    ensures target.ToAll? ==> r == rooms.Keys
    ensures target.ToRoomExcept? ==> target.except !in r
    ensures target.ToRoomExcept? ==> forall x :: x in r ==> target.room in rooms[x]
  {
    match target
    case ToSocket(s) => if s in rooms then {s} else {}
    case ToAll => rooms.Keys
    case ToRoomExcept(r, x) => set s | s in rooms && r in rooms[s] && s != x
  }

  function OnlineUsersBroadcast(keys: seq<UserId>): (e: Emit) {
    Emit(ToAll, OnlineUsersEvent, UserList(keys))
  }

  /** The user a `setup` binds: `_id` when `userData` and `_id` are both truthy. */
  function SetupUser(userData: Option<UserData>): (u: Option<UserId>)
    ensures u.Some? <==> userData.Some? && userData.value.id.Some? && userData.value.id.value != ""
    ensures u.Some? ==> u.value == userData.value.id.value && u.value != ""
  {
    if userData.Some? && userData.value.id.Some? && userData.value.id.value != "" then
      Some(userData.value.id.value)
    else
      None
  }

  predicate OnSocket(online: map<UserId, SocketId>, u: UserId, s: SocketId) {
    u in online && online[u] == s
  }

  /** The position of the first entry, in insertion order, whose socket id is `s`. */
  function FirstEntryOn(keys: seq<UserId>, online: map<UserId, SocketId>, s: SocketId): (r: Option<nat>)
    ensures r.Some? ==> r.value < |keys| && OnSocket(online, keys[r.value], s)
    ensures r.Some? ==> forall j :: 0 <= j < r.value ==> !OnSocket(online, keys[j], s)
    ensures r.None? <==> forall j :: 0 <= j < |keys| ==> !OnSocket(online, keys[j], s)
    decreases |keys|
  {
    if keys == [] then None
    else if OnSocket(online, keys[0], s) then Some(0)
    else match FirstEntryOn(keys[1..], online, s)
      case None => None
      case Some(j) => Some(j + 1)
  }

  /** The ids of the chat users other than the sender, in chat order. */
  function Others(users: seq<Participant>, senderId: UserId): (ids: seq<UserId>)
    ensures |ids| <= |users|
    ensures forall id :: id in ids ==> id != senderId && exists k :: 0 <= k < |users| && users[k].id == id
    ensures forall k :: 0 <= k < |users| && users[k].id != senderId ==> users[k].id in ids
    decreases |users|
  {
    if users == [] then []
    else
      var last := users[|users| - 1];
      Others(users[..|users| - 1], senderId) + (if last.id == senderId then [] else [last.id])
  }

  function MessageTo(room: Room, s: SocketId, msg: MessageEvent): (e: Emit) {
    Emit(ToRoomExcept(room, s), MessageReceivedEvent, Message(msg))
  }

  /**
   * The emits of the `forEach` over `users` in `new message` on socket `s`:
   * the k-th emit goes to the room of the k-th chat user who is not the
   * sender, excluding the sending socket.
   */
  function FanOut(users: seq<Participant>, senderId: UserId, s: SocketId, msg: MessageEvent): (r: seq<Emit>)
    ensures |r| <= |users|
    ensures forall e :: e in r ==>
              && e.event == MessageReceivedEvent && e.payload == Message(msg)
              && e.target.ToRoomExcept? && e.target.except == s && e.target.room != senderId
    decreases |users|
  {
    if users == [] then []
    else
      var last := users[|users| - 1];
      FanOut(users[..|users| - 1], senderId, s, msg) + (if last.id == senderId then [] else [MessageTo(last.id, s, msg)])
  }

  /** One emit per chat user other than the sender, in chat order. */
  lemma {:induction false} FanOutFollowsOthers(users: seq<Participant>, senderId: UserId, s: SocketId, msg: MessageEvent)
    ensures |FanOut(users, senderId, s, msg)| == |Others(users, senderId)|
    ensures forall k :: 0 <= k < |FanOut(users, senderId, s, msg)| ==>
              FanOut(users, senderId, s, msg)[k] == MessageTo(Others(users, senderId)[k], s, msg)
    decreases |users|
  {
    if users != [] {
      FanOutFollowsOthers(users[..|users| - 1], senderId, s, msg);
    }
  }

  /** The chat positions of the users other than the sender, in chat order. */
  function OtherPositions(users: seq<Participant>, senderId: UserId): (idx: seq<nat>)
    ensures forall j :: 0 <= j < |idx| ==> idx[j] < |users|
    ensures forall a, b :: 0 <= a < b < |idx| ==> idx[a] < idx[b]
    decreases |users|
  {
    if users == [] then []
    else
      var n := |users| - 1;
      OtherPositions(users[..n], senderId) + (if users[n].id == senderId then [] else [n])
  }

  /** The j-th id `Others` lists is that of the chat user at the j-th such position. */
  lemma {:induction false} PositionsMatchOthers(users: seq<Participant>, senderId: UserId)
    ensures |OtherPositions(users, senderId)| == |Others(users, senderId)|
    ensures forall j :: 0 <= j < |OtherPositions(users, senderId)| ==>
              users[OtherPositions(users, senderId)[j]].id == Others(users, senderId)[j]
    decreases |users|
  {
    if users != [] {
      var n := |users| - 1;
      var init := users[..n];
      PositionsMatchOthers(init, senderId);
      var prev, before := OtherPositions(init, senderId), Others(init, senderId);
      var tail := if users[n].id == senderId then [] else [users[n].id];
      var idx := prev + (if users[n].id == senderId then [] else [n]);
      assert OtherPositions(users, senderId) == idx;
      assert Others(users, senderId) == before + tail;
      forall j | 0 <= j < |idx|
        ensures users[idx[j]].id == (before + tail)[j]
      {
        if j < |prev| {
          assert idx[j] == prev[j] && users[prev[j]] == init[prev[j]];
        }
      }
    }
  }

  /** Every chat user other than the sender has its position listed. */
  lemma {:induction false} PositionsComplete(users: seq<Participant>, senderId: UserId)
    ensures forall k :: 0 <= k < |users| && users[k].id != senderId ==> k in OtherPositions(users, senderId)
    decreases |users|
  {
    if users != [] {
      var n := |users| - 1;
      var init := users[..n];
      PositionsComplete(init, senderId);
      forall k | 0 <= k < n && users[k].id != senderId
        ensures k in OtherPositions(users, senderId)
      {
        assert init[k] == users[k];
      }
    }
  }

  /**
   * The `forEach` sends exactly one message per chat user other than the
   * sender, in chat order: the j-th emit goes to the room of the chat user at
   * position `idx[j]`, the positions increase, and none is skipped.
   */
  lemma FanOutInChatOrder(users: seq<Participant>, senderId: UserId, s: SocketId, msg: MessageEvent)
    returns (idx: seq<nat>)
    ensures |idx| == |FanOut(users, senderId, s, msg)|
    ensures forall j :: 0 <= j < |idx| ==>
              && idx[j] < |users| && users[idx[j]].id != senderId
              && FanOut(users, senderId, s, msg)[j] == MessageTo(users[idx[j]].id, s, msg)
    ensures forall a, b :: 0 <= a < b < |idx| ==> idx[a] < idx[b]
    ensures forall k :: 0 <= k < |users| && users[k].id != senderId ==> k in idx
  {
    FanOutFollowsOthers(users, senderId, s, msg);
    PositionsMatchOthers(users, senderId);
    PositionsComplete(users, senderId);
    idx := OtherPositions(users, senderId);
    forall j | 0 <= j < |idx|
      ensures users[idx[j]].id != senderId
    {
      assert Others(users, senderId)[j] in Others(users, senderId);
    }
  }

  /**
   * What `new message` on socket `s` emits, or `None` when it throws: reading
   * `.chat` of an absent payload, `chat.users` of an absent chat, or
   * `sender._id` of an absent sender once the first chat user is visited.
   */
  function MessageEmits(msg: Option<MessageEvent>, s: SocketId): (r: Option<seq<Emit>>)
    ensures r.None? <==>
              || msg.None? || msg.value.chat.None?
              || (msg.value.chat.value.users.Some? && msg.value.chat.value.users.value != [] && msg.value.sender.None?)
    ensures r.Some? && msg.value.chat.value.users.None? ==> r.value == []
    ensures r.Some? ==> forall e :: e in r.value ==>
              e.event == MessageReceivedEvent && e.payload == Message(msg.value) && e.target.ToRoomExcept? && e.target.except == s
  {
    if msg.None? then None
    else if msg.value.chat.None? then None
    else if msg.value.chat.value.users.None? then Some([])
    else if msg.value.chat.value.users.value == [] then Some([])
    else if msg.value.sender.None? then None
    else Some(FanOut(msg.value.chat.value.users.value, msg.value.sender.value.id, s, msg.value))
  }

  /**
   * Every relayed message is addressed to the room of a chat user other than
   * the sender, never reaches the sending socket, and never goes to the
   * sender's own room.
   */
  lemma FanOutAvoidsSender(rooms: map<SocketId, set<Room>>, users: seq<Participant>, senderId: UserId,
                           s: SocketId, msg: MessageEvent)
    ensures forall e :: e in FanOut(users, senderId, s, msg) ==>
              && e.target.ToRoomExcept?
              && e.target.room != senderId
              && (exists k :: 0 <= k < |users| && users[k].id == e.target.room)
              && s !in Recipients(rooms, e.target)
  {
    var r := FanOut(users, senderId, s, msg);
    FanOutFollowsOthers(users, senderId, s, msg);
    forall e | e in r
      ensures e.target.ToRoomExcept? && e.target.room != senderId
      ensures exists k :: 0 <= k < |users| && users[k].id == e.target.room
      ensures s !in Recipients(rooms, e.target)
    {
      var k :| 0 <= k < |r| && r[k] == e;
      assert Others(users, senderId)[k] in Others(users, senderId);
    }
  }

  /** Every chat user other than the sender is sent the message, in their own room. */
  lemma FanOutReachesOthers(users: seq<Participant>, senderId: UserId, s: SocketId, msg: MessageEvent)
    ensures forall k :: 0 <= k < |users| && users[k].id != senderId ==>
              MessageTo(users[k].id, s, msg) in FanOut(users, senderId, s, msg)
  {
    var others := Others(users, senderId);
    var r := FanOut(users, senderId, s, msg);
    FanOutFollowsOthers(users, senderId, s, msg);
    forall k | 0 <= k < |users| && users[k].id != senderId
      ensures MessageTo(users[k].id, s, msg) in r
    {
      var i :| 0 <= i < |others| && others[i] == users[k].id;
      assert r[i] == MessageTo(others[i], s, msg);
    }
  }

  /** The event names the connection callback listens on: `setup`, `join chat`, `typing`, `stop typing`, `new message`, `disconnect`. */
  datatype Channel =
    | SetupChannel | JoinChatChannel | TypingChannel | StopTypingChannel
    | NewMessageChannel | DisconnectChannel

  /** The listeners of one connection, one per event handler the connection installs. */
  datatype Listener =
    | SetupListener | JoinChatListener | TypingListener | StopTypingListener
    | NewMessageListener | DisconnectListener
    | LoggedOutListener  // the fresh function handed to `socket.off('setup', ...)`

  /** The handler each event name gets from the connection callback. */
  function HandlerOf(c: Channel): (h: Listener) {
    match c
    case SetupChannel => SetupListener
    case JoinChatChannel => JoinChatListener
    case TypingChannel => TypingListener
    case StopTypingChannel => StopTypingListener
    case NewMessageChannel => NewMessageListener
    case DisconnectChannel => DisconnectListener
  }

  /**
   * The listener table of a socket after the connection callback ran: six
   * `socket.on` calls, then `socket.off('setup', f)` with a function `f` that
   * was never registered, which leaves the `setup` listener in place.
   */
  function ConnectionListeners(): (table: map<Channel, seq<Listener>>)
    ensures table.Keys == {SetupChannel, JoinChatChannel, TypingChannel, StopTypingChannel, NewMessageChannel, DisconnectChannel}
    ensures forall c :: c in table ==> table[c] == [HandlerOf(c)]
  {
    var on := map[
      SetupChannel := EventEmitter.On([], SetupListener),
      JoinChatChannel := EventEmitter.On([], JoinChatListener),
      TypingChannel := EventEmitter.On([], TypingListener),
      StopTypingChannel := EventEmitter.On([], StopTypingListener),
      NewMessageChannel := EventEmitter.On([], NewMessageListener),
      DisconnectChannel := EventEmitter.On([], DisconnectListener)];
    var off := EventEmitter.Off(on[SetupChannel], LoggedOutListener);
    EventEmitter.OffUnregistered(on[SetupChannel], LoggedOutListener);
    assert off == [SetupListener];
    on[SetupChannel := off]
  }

  /**
   * The `for...of` over `onlineUsers.entries()` in `disconnect`: visit the
   * entries in insertion order and stop at the first whose socket id is `s`.
   */
  method ScanEntries(keys: seq<UserId>, online: map<UserId, SocketId>, s: SocketId) returns (found: Option<nat>)
    requires forall j :: 0 <= j < |keys| ==> keys[j] in online
    ensures found == FirstEntryOn(keys, online, s)
  {
    var i := 0;
    while i < |keys|
      invariant 0 <= i <= |keys|
      invariant forall j :: 0 <= j < i ==> online[keys[j]] != s
    {
      if online[keys[i]] == s {
        return Some(i);
      }
      i := i + 1;
    }
    return None;
  }

  /** Deleting the first entry on `s` keeps the registry valid, cuts out its position, and spares every entry on another socket. */
  lemma DeleteFirstEntry(keys: seq<UserId>, online: map<UserId, SocketId>, s: SocketId, i: nat)
    requires OrderedKeys.Valid(keys, online) && FirstEntryOn(keys, online, s) == Some(i)
    ensures OrderedKeys.Valid(OrderedKeys.KeysAfterDelete(keys, keys[i]), online - {keys[i]})
    ensures OrderedKeys.KeysAfterDelete(keys, keys[i]) == keys[..i] + keys[i + 1..]
    ensures forall v :: v in online && online[v] != s ==> v in online - {keys[i]}
  {
    OrderedKeys.DeletePreservesValid(keys, online, keys[i]);
    OrderedKeys.DeleteAt(keys, i);
  }

  /**
   * The process-wide state: `onlineUsers` (its key order in `keys`, its
   * entries in `online`), the rooms of every connected socket, and every
   * event emitted so far.
   */
  class Hub {
    var keys: seq<UserId>
    var online: map<UserId, SocketId>
    var rooms: map<SocketId, set<Room>>
    var outbox: seq<Emit>

    /** The key order lists every user of the map exactly once. */
    ghost predicate Valid()
      reads this
    {
      OrderedKeys.Valid(keys, online)
    }

    constructor ()
      ensures Valid()
      ensures keys == [] && online == map[] && rooms == map[] && outbox == []
    {
      keys, online, rooms, outbox := [], map[], map[], [];
    }

    /** A transport connection: Socket.IO puts the new socket in the room named after its id. */
    method Connect(s: SocketId)
      requires Valid() && s !in rooms
      modifies this
      ensures Valid()
      ensures rooms == old(rooms)[s := {s}]
      ensures keys == old(keys) && online == old(online) && outbox == old(outbox)
    {
      rooms := rooms[s := {s}];
    }

    /** `setup`: bind the user to this socket, join the user's room, announce presence. */
    method Setup(s: SocketId, userData: Option<UserData>)
      requires Valid() && s in rooms
      modifies this
      ensures Valid()
      ensures SetupUser(userData).None? ==>
                keys == old(keys) && online == old(online) && rooms == old(rooms) && outbox == old(outbox)
      ensures SetupUser(userData).Some? ==>
                var u := SetupUser(userData).value;
                && online == old(online)[u := s]
                && keys == OrderedKeys.KeysAfterSet(old(keys), u)
                && (u in old(online) ==> keys == old(keys))
                && rooms == old(rooms)[s := old(rooms)[s] + {u}]
                && outbox == old(outbox) + [OnlineUsersBroadcast(keys), Emit(ToSocket(s), ConnectedEvent, NoPayload)]
                && OrderedKeys.NoDup(keys)
      ensures old(online).Keys <= online.Keys
    {
      var u := SetupUser(userData);
      if u.None? {
        return;
      }
      var id := u.value;
      rooms := rooms[s := rooms[s] + {id}];
      OrderedKeys.SetPreservesValid(keys, online, id, s);
      keys := OrderedKeys.KeysAfterSet(keys, id);
      online := online[id := s];
      outbox := outbox + [OnlineUsersBroadcast(keys), Emit(ToSocket(s), ConnectedEvent, NoPayload)];
    }

    /** `join chat`: the socket joins the room; nothing else changes. */
    method JoinChat(s: SocketId, room: Room)
      requires Valid() && s in rooms
      modifies this
      ensures Valid()
      ensures rooms == old(rooms)[s := old(rooms)[s] + {room}]
      ensures room in old(rooms)[s] ==> rooms == old(rooms)
      ensures keys == old(keys) && online == old(online) && outbox == old(outbox)
    {
      if room in rooms[s] {
        assert rooms[s] + {room} == rooms[s];
        assert rooms[s := rooms[s]] == rooms;
      }
      rooms := rooms[s := rooms[s] + {room}];
    }

    /** `typing`: relay to the other sockets in the room. */
    method Typing(s: SocketId, room: Room)
      requires Valid() && s in rooms
      modifies this
      ensures Valid()
      ensures outbox == old(outbox) + [Emit(ToRoomExcept(room, s), TypingEvent, NoPayload)]
      ensures keys == old(keys) && online == old(online) && rooms == old(rooms)
    {
      outbox := outbox + [Emit(ToRoomExcept(room, s), TypingEvent, NoPayload)];
    }

    /** `stop typing`: relay to the other sockets in the room. */
    method StopTyping(s: SocketId, room: Room)
      requires Valid() && s in rooms
      modifies this
      ensures Valid()
      ensures outbox == old(outbox) + [Emit(ToRoomExcept(room, s), StopTypingEvent, NoPayload)]
      ensures keys == old(keys) && online == old(online) && rooms == old(rooms)
    {
      outbox := outbox + [Emit(ToRoomExcept(room, s), StopTypingEvent, NoPayload)];
    }

    /** `new message`: relay to the room of every chat user other than the sender. */
    method NewMessage(s: SocketId, msg: Option<MessageEvent>) returns (outcome: Outcome)
      requires Valid() && s in rooms
      modifies this
      ensures Valid()
      ensures outcome == Threw <==> MessageEmits(msg, s).None?
      ensures outcome == Threw ==> outbox == old(outbox)
      ensures outcome == Completed ==> outbox == old(outbox) + MessageEmits(msg, s).value
      ensures keys == old(keys) && online == old(online) && rooms == old(rooms)
    {
      if msg.None? || msg.value.chat.None? {
        return Threw;
      }
      var m := msg.value;
      if m.chat.value.users.None? {
        return Completed;
      }
      var users := m.chat.value.users.value;
      var i := 0;
      while i < |users|
        invariant 0 <= i <= |users|
        invariant m.sender.None? ==> i == 0 && outbox == old(outbox)
        invariant m.sender.Some? ==> outbox == old(outbox) + FanOut(users[..i], m.sender.value.id, s, m)
        invariant keys == old(keys) && online == old(online) && rooms == old(rooms)
      {
        if m.sender.None? {
          return Threw;
        }
        var user := users[i];
        ghost var done := FanOut(users[..i], m.sender.value.id, s, m);
        assert users[..i + 1][..i] == users[..i];
        assert FanOut(users[..i + 1], m.sender.value.id, s, m)
            == done + (if user.id == m.sender.value.id then [] else [MessageTo(user.id, s, m)]);
        if user.id != m.sender.value.id {
          outbox := outbox + [MessageTo(user.id, s, m)];
          assert outbox == old(outbox) + (done + [MessageTo(user.id, s, m)]);
        }
        i := i + 1;
      }
      assert users[..i] == users;
      outcome := Completed;
    }

    /** The body of the `if` in `disconnect`: delete entry `i`, the first on `s`, and announce presence. */
    method DropEntry(s: SocketId, i: nat)
      requires Valid() && FirstEntryOn(keys, online, s) == Some(i)
      modifies this
      ensures Valid()
      ensures online == old(online) - {old(keys)[i]}
      ensures keys == old(keys)[..i] + old(keys)[i + 1..]
      ensures outbox == old(outbox) + [OnlineUsersBroadcast(keys)]
      ensures rooms == old(rooms)
      ensures OrderedKeys.NoDup(keys)
      ensures forall v :: v in old(online) && old(online)[v] != s ==> v in online && online[v] == old(online)[v]
    {
      var u := keys[i];
      DeleteFirstEntry(keys, online, s, i);
      online := online - {u};
      keys := OrderedKeys.KeysAfterDelete(keys, u);
      outbox := outbox + [OnlineUsersBroadcast(keys)];
    }

    /**
     * `disconnect`. Socket.IO has already taken the socket out of all its
     * rooms; the handler then deletes the first registry entry, in insertion
     * order, whose socket id is this one, announces presence, and stops.
     */
    method Disconnect(s: SocketId)
      requires Valid() && s in rooms
      modifies this
      ensures Valid()
      ensures rooms == old(rooms) - {s}
      ensures FirstEntryOn(old(keys), old(online), s).None? ==>
                keys == old(keys) && online == old(online) && outbox == old(outbox)
      ensures FirstEntryOn(old(keys), old(online), s).Some? ==>
                var i := FirstEntryOn(old(keys), old(online), s).value;
                && online == old(online) - {old(keys)[i]}
                && keys == old(keys)[..i] + old(keys)[i + 1..]
                && outbox == old(outbox) + [OnlineUsersBroadcast(keys)]
                && OrderedKeys.NoDup(keys)
      ensures forall u :: u in old(online) && old(online)[u] != s ==> u in online && online[u] == old(online)[u]
    {
      rooms := rooms - {s};
      var found := ScanEntries(keys, online, s);
      if found.Some? {
        DropEntry(s, found.value);
      }
    }
  }
}
