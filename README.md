# Ticko-Chat presence and relay core, in Dafny

This project models the real-time core of the Ticko-Chat backend and the
upload filter beside it:

- **Socket handler** (`Backend/src/utils/socketHandler.js`): the
  process-wide `onlineUsers` map from user id to socket id, and the Socket.IO
  handlers `setup`, `join chat`, `typing`, `stop typing`, `new message` and
  `disconnect`, plus the `socket.off('setup', …)` call made at connection
  time. Node.js runs each handler to completion, so the model is a sequential
  state machine: class `SocketHandler.Hub` holds the map (its insertion-ordered
  key sequence `keys` and its entries `online`), the rooms of every connected
  socket (`rooms`), and an outbox of every emitted event (`outbox`), and each
  handler is one method.
- **JavaScript `Map` key order** (`OrderedKeys`): `set` on an existing key
  keeps its position, `set` on a new key appends, `delete` removes the key
  and keeps the order of the rest.
- **Node.js `EventEmitter` listener lists** (`EventEmitter`): `on` appends,
  `off` removes the most recent occurrence of the same function object and
  does nothing for a function never added.
- **Upload middleware** (`Backend/src/middlewares/uploadMiddleware.js`): the
  multer `fileFilter` and the configured `fileSize` limit.
- **Client runs** (`SocketScenarios`): a two-user conversation, a user who
  sets up again from a newer socket, and one socket that sets up two users.
  Each is proved from the handlers' contracts alone.

An emit is recorded by its address: one socket (`socket.emit`), every
connected socket (`io.emit`), or "room R except socket S"
(`socket.in(R).emit`). `SocketHandler.Recipients` states which connected
sockets each address reaches. This is Socket.IO's delivery rule, and the model
takes it as given. Two more Socket.IO behaviours are taken as given:
- A new socket is put in the room named after its own id.
- On transport close, Socket.IO takes the socket out of all its rooms before
  the `disconnect` handler runs.

The model follows the code as written:
- A user holds exactly one socket id. A second `setup` overwrites it and keeps
  the user's place in the key order.
- `disconnect` deletes at most one entry: the first, in insertion order, whose
  socket id matches. A socket that set up two users leaves the second one
  listed as online (`SocketScenarios.TwoUsersOnOneSocket`).
- There is no per-user set of connections and no logout event. The "logged
  out" function is passed to `socket.off` without ever having been
  registered, so its body never runs.

## Model

| member | source | states |
|---|---|---|
| SocketHandler.Hub.constructor | Backend/src/utils/socketHandler.js:1 | the registry starts empty: no keys, no entries, no rooms, nothing emitted |
| SocketHandler.Hub.Connect | Backend/src/utils/socketHandler.js:4-5 | a new connection adds the socket, in the room of its own id, and changes nothing else |
| SocketHandler.Hub.Setup | Backend/src/utils/socketHandler.js:7-17 | a missing `userData` or a missing/empty `_id` changes nothing and emits nothing. Otherwise: the socket joins room `_id`, `onlineUsers[_id]` becomes this socket, a repeat user keeps its key position and a new one is appended, then exactly one `online users` broadcast carrying the new key order is emitted, followed by one `connected` to this socket alone. No entry is ever removed |
| SocketHandler.Hub.JoinChat | Backend/src/utils/socketHandler.js:19-22 | the socket's room set gains the room, nothing else changes, and joining a room already joined leaves the state as it was |
| SocketHandler.Hub.Typing | Backend/src/utils/socketHandler.js:24 | exactly one `typing` emit, addressed to the room except the caller; registry and rooms unchanged |
| SocketHandler.Hub.StopTyping | Backend/src/utils/socketHandler.js:25 | exactly one `stop typing` emit, addressed to the room except the caller; registry and rooms unchanged |
| SocketHandler.Hub.NewMessage | Backend/src/utils/socketHandler.js:27-36 | the handler throws exactly when the payload is missing, its chat is missing, or the sender is missing and a chat user exists. On those throws nothing is emitted. A missing `chat.users` emits nothing. Otherwise the outbox gains precisely the fan-out emits. Registry and rooms are unchanged |
| SocketHandler.Hub.Disconnect | Backend/src/utils/socketHandler.js:38-48 | the socket leaves every room. If no entry maps to it, the registry and outbox are unchanged. Otherwise exactly the first matching entry is deleted, the key order loses exactly that position, and one `online users` broadcast with the new order is emitted. Every entry on another socket is kept with its value, and at most one user goes offline |
| SocketHandler.Hub.DropEntry | Backend/src/utils/socketHandler.js:43-45 | deleting the first entry on the socket removes exactly that user and position, keeps the registry consistent and every entry on another socket, and emits one `online users` broadcast with the new order |
| SocketHandler.ScanEntries | Backend/src/utils/socketHandler.js:41-42 | the scan over the entries in insertion order stops at the least position whose entry maps to the socket, and finds nothing exactly when no entry does |
| SocketHandler.DeleteFirstEntry | Backend/src/utils/socketHandler.js:41-43 | deleting the first entry on the socket keeps the key order consistent with the map, removes exactly that position, and spares every entry on another socket |
| SocketHandler.FirstEntryOn | Backend/src/utils/socketHandler.js:41-42 | the result is the least position whose entry maps to the socket, or none exactly when no entry does |
| SocketHandler.Others | Backend/src/utils/socketHandler.js:32-33 | these are the ids of the chat users other than the sender: every listed id is some chat user's and differs from the sender's, and every such user is listed |
| SocketHandler.OtherPositions | Backend/src/utils/socketHandler.js:32-33 | the chat positions the `forEach` does not skip are valid positions, strictly increasing, so each chat user is visited at most once and in chat order |
| SocketHandler.PositionsMatchOthers | Backend/src/utils/socketHandler.js:32-33 | the j-th id `Others` lists is the id of the chat user at the j-th non-skipped position, and there are as many ids as positions |
| SocketHandler.PositionsComplete | Backend/src/utils/socketHandler.js:32-33 | every chat position whose user's id differs from the sender's is among the non-skipped positions |
| SocketHandler.FanOut | Backend/src/utils/socketHandler.js:32-35 | the `forEach` emits at most one event per chat user, each a `message received` carrying the payload unchanged, addressed to a room other than the sender's id, excluding the sending socket |
| SocketHandler.FanOutInChatOrder | Backend/src/utils/socketHandler.js:32-35 | exactly one `message received` per chat user whose id differs from the sender's: the j-th emit goes to the room of the chat user at position `idx[j]`, the positions strictly increase, and no such user is left out |
| SocketHandler.MessageEmits | Backend/src/utils/socketHandler.js:27-35 | `new message` throws exactly when the payload or its chat is missing, or the sender is missing while `chat.users` is a non-empty array; a missing `chat.users` emits nothing; every emit is a `message received` with the payload, to a room except the sending socket |
| SocketHandler.SetupUser | Backend/src/utils/socketHandler.js:8 | `setup` proceeds exactly when `userData` is present and its `_id` is present and non-empty, and then binds that `_id` |
| SocketHandler.Recipients | Backend/src/utils/socketHandler.js:15-25 | an address reaches only connected sockets; `io.emit` reaches all of them; `socket.in(room)` reaches only sockets in that room and never the emitting socket |
| SocketHandler.FanOutFollowsOthers | Backend/src/utils/socketHandler.js:32-35 | the forEach emits one `message received` per id listed by `Others`, in that order, the k-th to the k-th id's room, excluding the sending socket |
| SocketHandler.FanOutAvoidsSender | Backend/src/utils/socketHandler.js:33-34 | every relayed message goes to the room of some chat user, never to the sender's own room, and never reaches the sending socket, whatever the room membership |
| SocketHandler.FanOutReachesOthers | Backend/src/utils/socketHandler.js:32-34 | every chat user whose id differs from the sender's is sent the message in their room |
| SocketHandler.ConnectionListeners | Backend/src/utils/socketHandler.js:7-57 | after the connection callback the six events `setup`, `join chat`, `typing`, `stop typing`, `new message` and `disconnect` each have exactly their own one handler; `socket.off('setup', …)` with the never-registered "logged out" function leaves `setup` with its handler, so the "logged out" body never runs |
| EventEmitter.On | Backend/src/utils/socketHandler.js:7-38 | `on` appends the function after the listeners already registered, which keep their order |
| EventEmitter.OffRemovesLast | Backend/src/utils/socketHandler.js:50 | `off` with a registered function removes its most recent occurrence and keeps every other listener in order |
| EventEmitter.OffAfterOn | Backend/src/utils/socketHandler.js:50 | `off` right after `on` of the same function restores the listener list |
| EventEmitter.Off | Backend/src/utils/socketHandler.js:50 | `off` shortens the listener list by one exactly when the function was registered |
| EventEmitter.OffUnregistered | Backend/src/utils/socketHandler.js:50 | `off` with a function never registered leaves the listener list unchanged |
| EventEmitter.OffRegistered | Backend/src/utils/socketHandler.js:50 | `off` with a registered function removes exactly one occurrence of it and keeps the rest |
| OrderedKeys.KeysAfterSet | Backend/src/utils/socketHandler.js:11 | after `set(k, v)` the key order holds the old keys plus `k`, keeps the old keys in place as a prefix, and grows exactly when `k` was new |
| OrderedKeys.KeysAfterDelete | Backend/src/utils/socketHandler.js:43 | after `delete(k)` the key order holds exactly the other keys |
| OrderedKeys.DeleteAbsent | Backend/src/utils/socketHandler.js:43 | deleting an absent key leaves the key order as it was |
| OrderedKeys.DeleteAt | Backend/src/utils/socketHandler.js:43 | deleting the key at position i of a duplicate-free order removes exactly position i and keeps the order of the rest |
| OrderedKeys.DeleteNoDup | Backend/src/utils/socketHandler.js:43 | deletion keeps the key order free of duplicates |
| OrderedKeys.SetPreservesValid | Backend/src/utils/socketHandler.js:11 | after `set` the key order still lists each key of the map exactly once |
| OrderedKeys.DeletePreservesValid | Backend/src/utils/socketHandler.js:43 | after `delete` the key order still lists each key of the map exactly once |
| SocketScenarios.TwoUserConversation | Backend/src/utils/socketHandler.js:7-48 | u1 on A and u2 on B in one room: u1's message reaches B alone, and after B disconnects the last broadcast and the key order are `["u1"]` |
| SocketScenarios.ReconnectFromNewerSocket | Backend/src/utils/socketHandler.js:7-48 | u1 on A and u2 on B, then u1 sets up again from a newer socket C: u1 keeps its first position, disconnecting A removes nothing and emits nothing, and u1 stays on C |
| SocketScenarios.TwoUsersOnOneSocket | Backend/src/utils/socketHandler.js:38-48 | a socket that set up u1 and then u2 disconnects: only u1 is removed, and u2 stays online on a socket that is no longer connected |
| UploadMiddleware.FileFilter | Backend/src/middlewares/uploadMiddleware.js:10-18 | the one callback invocation accepts with no error exactly when the mimetype has the prefix `image/` or equals `application/octet-stream`, and otherwise rejects with the error "Only images are allowed!" |
| UploadMiddleware.FileSizeLimitValue | Backend/src/middlewares/uploadMiddleware.js:8 | the size limit is 5 * 1024 * 1024 = 5242880 bytes |
| UploadMiddleware.ImagesAccepted | Backend/src/middlewares/uploadMiddleware.js:12-13 | every `image/…` mimetype is accepted with no error |
| UploadMiddleware.OnlyExactOctetStream | Backend/src/middlewares/uploadMiddleware.js:12 | an accepted mimetype that is not `image/…` is exactly `application/octet-stream` |
| UploadMiddleware.OctetStreamExtensionsRejected | Backend/src/middlewares/uploadMiddleware.js:12-16 | `application/octet-stream` followed by anything non-empty is rejected with the fixed error |
| UploadMiddleware.PrefixIsExact | Backend/src/middlewares/uploadMiddleware.js:12-16 | the prefix test is case-sensitive and needs the slash: `IMAGE/…`, `Image/…` and `image` are rejected |

## Left out

- Diagnostics: the `console.log` and `console.warn` calls are not modelled.
- Socket.IO transport: delivery, network ordering and concurrency are not modelled. Handlers run one at a time, so an interleaving is a sequence of method calls. The outbox records addresses, and `Recipients` gives the sockets an address reaches at the time of the emit.
- Connected sockets only: every handler requires its socket to be connected, because Socket.IO delivers events only to connected sockets and fires `disconnect` once. A second `disconnect` of the same socket is therefore not modelled.
- Socket ids: `Connect` requires an id that is not connected now. Socket.IO also never reuses an id, but the model does not record past ids.
- Null chat users: `Chat.users` holds user objects only. A `null` or `undefined` entry in `chat.users` throws at `user._id` (line 33) after the emits for the users before it have gone out; that partial fan-out followed by a throw is not modelled, so `NewMessage`'s "nothing is emitted on a throw" holds only for the payloads the model expresses.
- After a `TypeError`: the model stops the handler with no state change. What Node.js and Socket.IO then do with the uncaught exception is not modelled.
- Payload shapes: ids and room names are strings, as they arrive over the socket as JSON. JavaScript values such as `0`, `null` or objects as `_id`, or a non-string room, are not modelled. On two strings, the loose `==` of line 33 is plain equality. A chat user or sender with no `_id` is not modelled; an absent sender and an absent payload are.
- Size limit enforcement: multer enforces `fileSize`, and that library code is not part of this model; only the configured constant is.
- Upload callback arity: `FileFilter` returns the single callback invocation as a value, so "called exactly once" holds by construction. The unused `req` argument and the `originalname` log are not modelled.
- Other files: authentication, message and user controllers, the Mongoose schema, upload routes, server wiring and database connection are I/O and library configuration, and are not part of this model.
