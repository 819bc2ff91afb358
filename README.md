# Chat server core: presence, broadcast, history and profiles

A Dafny model of the server of a small real-time group chat (`server.js`). The server
keeps a set of online user ids, reacts to four Socket.IO events from each connection
(`user_join`, `new_message`, `typing`, `disconnect`), stores chat messages, lists them
by timestamp for `GET /api/messages`, and finds or creates users for `POST /api/users`.
That route accepts an optional profile picture through a filtered, size-limited upload.

The model has these modules:

- `InsertionSet` (`insertion_set.dfy`): the JavaScript `Set` behind `onlineUsers`. It is a
  sequence without repetitions in insertion order, because `Array.from` lists a set in
  that order. `Add` and `Delete` are `set.add` and `set.delete`. Lemmas prove that
  deletion keeps the order of the other entries and keeps entries distinct, and that a
  fresh add followed by a delete restores the set.
- `Upload` (`upload.dfy`): the upload middleware. The filter is the unanchored regular
  expression `/jpeg|jpg|png|gif/`, applied to the MIME type the multipart parser reports
  (already in lower case). It is modelled as a substring test proved equal to "some
  alternative occurs at some position". The size limit is
  5 * 1024 * 1024 bytes, inclusive. The filter decides before the size does.
- `Profiles` (`profiles.dfy`): the `data:<type>;base64,<data>` picture URL, its inverse
  parser and the round trip between them. The `UserStore` class holds the user
  collection keyed by username, and its `PostUser` method is the route's
  find-or-create.
- `Messages` (`messages.dfy`): the message document, with the timestamp defaulting to
  the clock, and the ascending timestamp sort of the history, proved sorted and a
  permutation of the store.
- `Chat` (`chat.dfy`): the `ChatServer` class. Its fields are the online set, each
  connection's `userId`, the stored messages, and an outbox of emissions, each tagged
  with its scope: every connection, every connection but the sender, or the sender
  alone. One method per event handler, plus `GetMessages` for the history route.
- `Scenarios` (`scenarios.dfy`): runs from a fresh server whose outcomes are proved from
  the handlers' contracts alone.

The model follows the code. The code does less than a presence registry with derived
presence would do, and the model keeps those gaps, proved in `Scenarios`:

- A connection may join again, and nothing rejects it.
- `disconnect` deletes the connection's id from the online set even when another
  connection still holds it (`SharedIdentity`).
- An id a connection held before re-joining stays online after it leaves
  (`StaleAfterRejoin`).
- A falsy id joins the set but is never removed (`FalsyIdLingers`).
- `new_message` has no check of the sender or of an empty text, and it assigns no
  sequence number.
- Uploads have no per-kind MIME allow-list.

## Model

| member | source | states |
|---|---|---|
| InsertionSet.Add | server.js:156-157 | `set.add`: membership grows by exactly the id; distinctness is kept; earlier entries keep their positions; a repeated id changes nothing; a new id goes last |
| InsertionSet.Delete | server.js:177 | `set.delete`: exactly the given id stops being a member, and nothing grows |
| InsertionSet.DeleteAbsent | server.js:177 | deleting an id that is not in the set leaves the set and its order unchanged |
| InsertionSet.DeleteAt | server.js:177-178 | deleting the entry at position k leaves the entries before and after it in their order, one fewer in all |
| InsertionSet.DeleteDistinct | server.js:177 | deletion keeps the online list free of repetitions |
| InsertionSet.AddThenDelete | server.js:156-177 | adding a new id and then deleting it restores the online list, order included |
| Upload.Contains | server.js:70-71 | the substring test is true exactly when the pattern occurs at some position |
| Upload.IsImageType | server.js:70-71 | the filter's regex test is true exactly when one of `jpeg`, `jpg`, `png`, `gif` occurs somewhere in the MIME type |
| Upload.CheckUpload | server.js:67-78 | no file passes; otherwise a file passes exactly when its type passes the filter and it is at most 5 MiB; a rejection carries the filter's message for a bad type, the size error otherwise |
| Upload.NoInitialNoImage | server.js:70-71 | a MIME type without the letters `j`, `p` and `g` fails the filter |
| Upload.ImageTypesPass | server.js:70-74 | `image/png`, `image/jpeg` and `image/gif` pass the filter |
| Upload.FilterIsUnanchored | server.js:70-71 | a MIME type that only mentions `png` inside a longer name passes |
| Upload.FilterRejectsAudio | server.js:70-76 | `audio/webm`, the type the chat client records voice messages in, is rejected |
| Upload.SizeLimitIsInclusive | server.js:68 | for a type the filter passes, a file passes exactly when it has at most 5242880 bytes |
| Profiles.DataUrl | server.js:135-139 | the URL is `data:`, the content type, `;base64,` and the data, in that order and nothing else |
| Profiles.ParseDataUrl | server.js:101 | the inverse of the URL template, which the server itself never parses; it serves the round trip below. Whatever it accepts is a picture whose URL is the parsed text, with no `;` in its content type |
| Profiles.DataUrlRoundTrip | server.js:135-139 | parsing the URL of a picture whose content type has no `;` gives the picture back |
| Profiles.DataUrlInjective | server.js:98-102 | two such pictures with the same URL are the same picture |
| Profiles.ProfileOf | server.js:98-102 | the answer for a stored user carries the user's id and username, and the picture can be read back from its URL when the content type has no `;` |
| Profiles.NewPicture | server.js:106-124 | a new user's picture is the base64 text of the upload's bytes with the upload's MIME type, or else the base64 text of the default avatar as `image/png` |
| Profiles.DefaultAvatarUrl | server.js:117-139 | a user created without an upload is answered with the URL `data:image/png;base64,` followed by the default avatar's base64 text |
| Profiles.UserStore.PostUser | server.js:81-145 | a rejected upload answers 400 with its message and stores nothing; an existing username answers with the stored user's id, name and URL and stores nothing; a new username is stored with the upload or the default avatar only if the write succeeds, else 500 with the write's message |
| Messages.Document | server.js:53-64 | a new message takes the client's timestamp, or the clock's when none is given |
| Messages.InsertSorted | server.js:186 | inserting a message into a sorted history keeps it sorted |
| Messages.InsertPermutes | server.js:186 | inserting adds exactly that message and loses none |
| Messages.SortByTime | server.js:186 | the history is in non-decreasing timestamp order and holds every stored message exactly as often as it is stored |
| Chat.Truthy | server.js:176 | an id is truthy exactly when it is not one of JavaScript's falsy values: the empty string, 0, false, null or undefined |
| Chat.Recipients | server.js:157-172 | `io.emit` reaches every connection, `socket.broadcast.emit` every connection but the sender, `socket.emit` the sender alone if it is still connected |
| Chat.ChatServer.constructor | server.js:147-148 | the server starts with no online users, connections, messages or emissions |
| Chat.ChatServer.Connect | server.js:151-152 | a new connection has no user id and nothing else changes |
| Chat.ChatServer.UserJoin | server.js:154-158 | the connection's id is replaced by the given one; the id is added to the online set, which stays distinct and keeps its order; the full list goes to every connection |
| Chat.ChatServer.NewMessage | server.js:160-169 | on a successful write the message is appended and then sent to every connection; on a failed one nothing is stored and only the sender gets the error message; presence is untouched |
| Chat.ChatServer.Typing | server.js:171-173 | the payload goes unchanged to every connection but the sender; no state changes |
| Chat.ChatServer.Disconnect | server.js:175-180 | the connection is dropped; a truthy id leaves the online set, even if another connection holds it, and the new list goes to every connection; a missing or falsy id changes nothing else and emits nothing |
| Chat.ChatServer.GetMessages | server.js:184-192 | a failed query answers 500 with its message; otherwise every stored message is returned, sorted by timestamp |
| Scenarios.JoinAndLeave | server.js:154-180 | two joins and a leave emit the online list three times to every connection, in join order |
| Scenarios.SendAndType | server.js:160-173 | a sent message reaches both connections, the sender included; a typing signal reaches only the other one |
| Scenarios.HistoryByTimestamp | server.js:160-192 | two messages written in one order but stamped in the other are listed by timestamp |
| Scenarios.FailedSend | server.js:160-169 | a failed write stores nothing and only the sender gets the error |
| Scenarios.SharedIdentity | server.js:154-180 | two connections with one id give one online entry; the first disconnect removes it while the second connection still holds the id |
| Scenarios.StaleAfterRejoin | server.js:154-180 | an id a connection replaced by re-joining stays online after that connection leaves |
| Scenarios.FalsyIdLingers | server.js:154-180 | an empty id joins the online set and is never removed; disconnects with no truthy id emit nothing |
| Scenarios.RepeatedProfile | server.js:92-139 | the first post of a name creates it with the default avatar; a second post with a photo returns the same answer |
| Scenarios.RejectedUpload | server.js:67-86 | an upload the filter rejects answers 400 with the filter's message and creates no user |

## Left out

- HTTP and server setup (Express, CORS, static files, `listen`) and the Socket.IO transport. Emissions are appended to an outbox with their scope; `Chat.Recipients` says which connections a scope reaches.
- The MongoDB connection and driver. The user and message collections are in-memory fields. Each write's and each history query's outcome is a parameter. The `findOne` lookup of `POST /api/users` cannot fail in the model.
- Mongoose schema casting and validation. This covers the `type` key inside `media`, `required` and `unique` on `username`, dropping fields not in the schema, and `findOne` with a missing username. The username is always a string, and a write rejected by validation is a failed `save` outcome.
- The identifier a new user gets is a parameter (`newId`). Its uniqueness is not modelled.
- Base64 encoding of uploaded and default-avatar bytes is a function parameter. The default avatar file is a byte-sequence parameter, and a failure to read it is not modelled.
- Upload.File: the multipart parser lower-cases the part's declared type and subtype and drops its parameters before the filter sees them. `File.mimetype` is that normalised value; the normalisation itself is not modelled.
- Multer's multipart parsing and its other errors. Only the declared filter and size limit are kept. "File too large" is the upload library's message for the size limit, not text from `server.js`.
- `Date.now` is the `now` parameter of `NewMessage`. The user's `createdAt` and message ids are not modelled.
- Messages.SortByTime: the store's sort does not fix the order of messages with equal timestamps. The model lists ties in one particular order and proves only sortedness and permutation.
- Chat.UserId: numbers are integers. Floating-point ids, NaN and object ids are not modelled.
- Chat.TypingData: only the `{ username }` payload the client sends is modelled. The server forwards any payload the same way.
- The interleaving of asynchronous handlers is not modelled, so each event runs to completion. In the source, another event may run while `new_message` waits for its write.
- The browser client (`public/app.js`) and the database smoke test (`test-db.js`).
