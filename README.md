# Multi-room chat server — a Dafny model

This project models the core of a small multi-room chat system written in C++.
Clients speak a line protocol to the server. Each message is framed as
`tag:data\n`.

- A **sender** client logs in with `slogin` and then sends `join`, `leave`,
  `sendall` and `quit` commands. Each command gets one `ok`/`err` reply.
- A **receiver** client logs in with `rlogin` and then sends exactly one
  `join`. From then on it is sent a `delivery` message for every broadcast in
  that room. The payload of a delivery is `room:sender:text`.
- The **server** runs one session per connection. A session has a login step,
  then the sender loop or the receiver's join and forwarding loop, then a
  cleanup. The cleanup takes the user out of its room and frees the user's
  queue and connection.

The model has one Dafny module per source file:

- `Messages` (messages.dfy): the message value, the maximum line length, the
  tags, and `find` on strings.
- `Framing` (connection.dfy): the connection. A pure `Socket` value carries the
  descriptor, the last result, the unread input, the output written so far,
  and how many more bytes the peer accepts. The pure functions `SendOn`,
  `ReceiveOn` and `CloseOn` define the socket operations. The `Connection`
  class has mutable fields. Its `Send`, `Receive` and `Close` methods are
  proved equal to `SendOn`, `ReceiveOn` and `CloseOn`. Its `ReadLineLength`
  loop is proved to compute `LineLength`. `Connect` has no pure counterpart:
  its contract states the descriptor and streams it leaves.
- `Queueing` (message_queue.dfy): the message queue, as a class with its list
  of messages and its semaphore count.
- `Rooms` (room.dfy): the room, as a class holding the map from users to their
  queues, and the broadcast.
- `ChatServer` (server.dfy):
  - the registry of rooms and the session state (`ClientInfo`), as classes.
    The registry also carries a ghost set of the queues of every session
    that has logged in. The source has no such set; the model uses it to
    say which queues a broadcast may write to;
  - what a sender's broadcasts deliver: `Fanout` gives, for one queue, the
    deliveries a run of broadcasts puts into it, counted over a snapshot of
    the rooms' members taken when the session began;
  - each session phase, as a method over that state;
  - pure specifications of the sender loop (`SenderRun`, `Replay`), the
    receiver's join (`ReceiverJoin`), forwarding (`Forward`) and a whole
    session (`Session`).
- `SenderClient` (sender.dfy) and `ReceiverClient` (receiver.dfy): the two
  client programs after they connect. Their methods are proved equal to pure
  run functions. Standard input is a sequence of lines. Standard output and
  standard error are the sequences of lines written there.

message.h (the tag strings and the maximum message length) is not part of this
model. The model takes the maximum line length to be 255 and the tags to be the
lower-case strings `slogin`, `rlogin`, `join`, `leave`, `sendall`, `quit`, `ok`,
`err` and `delivery`. The proofs use only the fact that the tags are distinct
and contain neither `:` nor a newline. user.h and the csapp helpers are not
part of this model either.

## Model

| member | source | states |
|---|---|---|
| Messages.FindFrom | connection.cpp:116 | the position found is the first occurrence of the character at or after `from`; None means it does not occur there (`std::string::find`) |
| Framing.Frame | connection.cpp:70-71 | defines the frame `tag:data\n` that a send writes; `FrameRoundTrip` proves that receiving it gives the message back |
| Framing.Frames | connection.cpp:71 | defines the frames of several messages sent one after another; `FramesCons` splits off the first |
| Framing.IsOpen | connection.cpp:50-52 | defines an open connection as one with a non-negative descriptor; `SendOn`, `ReceiveOn` and `CloseOn` state what a closed one does |
| Framing.LineLength | connection.cpp:98 | the line read is at most the limit and the input length long, has no newline before its last character, and ends with a newline whenever it stops short of both bounds |
| Framing.StripNewline | connection.cpp:107-110 | one trailing newline is removed if present, and nothing else changes |
| Framing.SplitAtColon | connection.cpp:116-126 | a line without `:` is invalid; otherwise the tag has no colon and tag + ":" + data gives back the line |
| Framing.SendOn | connection.cpp:63-84 | a send succeeds exactly when the connection is open and the peer accepts the whole frame; then the output grows by exactly `tag:data\n`; a closed connection writes nothing and records EOF_OR_ERROR; a short write leaves a prefix of the frame |
| Framing.ReceiveOn | connection.cpp:87-130 | a closed connection or empty input fails with EOF_OR_ERROR; otherwise exactly `LineLength` characters are consumed, the receive succeeds exactly when that line without its newline holds a `:`, the line is then `tag:data` with a colon-free tag, and a line without a colon fails with INVALID_MSG; on failure the message argument is left as it was |
| Framing.CloseOn | connection.cpp:55-60 | after close the connection is not open, the descriptor is -1 unless it already was closed, and closing a closed connection changes nothing |
| Framing.LineLengthOfLine | connection.cpp:98 | on a line shorter than the limit, the read stops just after its newline |
| Framing.LineLengthPast | connection.cpp:98 | the read never stops before a newline that lies within the limit, and stops right after the first one |
| Framing.FrameRoundTrip | connection.cpp:71 | receiving the frame of a framable message yields that message and leaves exactly the rest of the stream |
| Framing.ColonSplitUnique | connection.cpp:116-126 | a line has one split into a colon-free tag and its data |
| Framing.SendReceiveRoundTrip | connection.cpp:63-130 | what one side sends successfully, the peer receives as the same message |
| Framing.FramesCons | connection.cpp:71 | the frames of a message list are the frame of its head followed by the frames of its tail |
| Framing.Connection.Unconnected | connection.cpp:9-12 | a default connection has descriptor -1, status SUCCESS and no data |
| Framing.Connection.Accepted | connection.cpp:15-21 | a connection on an accepted descriptor starts open with status SUCCESS |
| Framing.Connection.Connect | connection.cpp:24-39 | connecting takes the given descriptor; a good one starts the streams afresh, a negative one records INVALID_MSG and leaves input, output and capacity as they were |
| Framing.Connection.Close | connection.cpp:55-60 | the new state is `CloseOn` of the old one |
| Framing.Connection.Send | connection.cpp:63-84 | the result and the new state are those of `SendOn` |
| Framing.Connection.ReadLineLength | connection.cpp:98 | the loop over the buffer computes `LineLength` |
| Framing.Connection.Receive | connection.cpp:87-130 | the result, the message and the new state are those of `ReceiveOn` |
| Queueing.MessageQueue.constructor | message_queue.cpp:8-13 | a new queue is empty with a semaphore count of zero |
| Queueing.MessageQueue.Enqueue | message_queue.cpp:31-40 | the message is appended at the back and the count goes up by one, which keeps the count equal to the length |
| Queueing.MessageQueue.Dequeue | message_queue.cpp:43-65 | a zero count is the timeout and returns nothing, changing nothing; otherwise the count goes down and the front message is removed and returned, or nothing if the list is empty; with the invariant, nothing is returned exactly when the queue was empty |
| Queueing.MessageQueue.Discard | message_queue.cpp:16-28 | the destructor's loop empties the queue |
| Queueing.FifoOrder | message_queue.cpp:31-65 | messages enqueued in turn are dequeued in the same order |
| Rooms.User.constructor | server.cpp:146 | the user carries the name it logged in with |
| Rooms.Payload | room.cpp:42 | defines the payload `room:sender:text`; `ReceiverClient.PayloadRoundTrip` proves that the receiver splits it back |
| Rooms.Delivery | room.cpp:52 | defines the DELIVERY message carrying that payload; `Room.Broadcast` and `Fanout` are stated in its terms |
| Rooms.Copies | room.cpp:48-59 | n deliveries of one message |
| Rooms.OwnQueueHeldOnce | room.cpp:48-59 | when members have distinct queues, each member's queue is held by exactly one member |
| Rooms.HoldersStep | room.cpp:48-59 | each member visited adds one holder of a queue exactly when it holds that queue |
| Rooms.HoldersApart | room.cpp:48-59 | a member's own entry adds one holder to its queue, on top of the other members' holders |
| Rooms.HoldersAgree | room.cpp:48-59 | memberships that agree apart from one user have the same holders apart from that user |
| Rooms.JoinedAgree | room.cpp:24-27 | memberships that agree apart from one user are equal once that user is given the same queue in both |
| Rooms.AgreesWithout | room.cpp:31-34 | a membership that agrees, apart from a user, with one that user was never in equals it once the user is removed |
| Rooms.Room.constructor | room.cpp:9-14 | a new room has its name and no members |
| Rooms.Room.GetRoomName | server.cpp:63 | defines the name a room reports, the one it was created with; `ClientInfo.Join` and `ClientInfo.Leave` reply with it |
| Rooms.Room.AddMember | room.cpp:24-27 | the user is inserted or has its queue replaced; every other entry is kept |
| Rooms.Room.RemoveMember | room.cpp:31-34 | the user's entry is removed; every other entry is kept |
| Rooms.Room.Broadcast | room.cpp:38-60 | every member queue receives the delivery `room:sender:text` once per member holding it, with the count raised as much; with distinct queues every member gets exactly one copy |
| ChatServer.Server.constructor | server.cpp:177-181 | a new server has no rooms |
| ChatServer.Server.FindOrCreateRoom | server.cpp:212-219 | the room with that name is returned; an existing one is reused and the registry is unchanged; otherwise a fresh empty room is added under that name |
| ChatServer.SenderStep | server.cpp:47-79 | defines one sender command's reply, the room afterwards, whether the loop ends, and the broadcast a SENDALL in a room makes; `ClientInfo.SenderCommand` is proved against it |
| ChatServer.SenderRun | server.cpp:39-80 | defines the sender loop on a socket: replies, final room, socket and broadcasts; `SenderRunReplays` relates it to `Replay` and `ClientInfo.ChatWithSender` is proved against it |
| ChatServer.CheckLogin | server.cpp:134-143 | defines the login check: a tag other than `slogin`/`rlogin` or an empty name is refused with its error; `SessionLogin` states the session it leads to |
| ChatServer.ReceiverJoin | server.cpp:87-106 | defines the receiver's mandatory JOIN on a socket: receive, then `AnswerJoin`; `ClientInfo.AwaitJoin` is proved against it |
| ChatServer.AnswerJoin | server.cpp:89-106 | defines the answer to the receiver's first message: `invalid message` on a failed receive, `Expected JOIN` on another tag, `welcome` and the room on a JOIN; `ClientInfo.AnswerJoinWith` is proved against it |
| ChatServer.Forward | server.cpp:109-118 | forwarding takes off at most the queued messages |
| ChatServer.ForwardDelivers | server.cpp:109-118 | while the receiver accepts them, every queued message is sent, in order, as its frame, and the connection stays open |
| ChatServer.ForwardStops | server.cpp:109-118 | when the receiver takes the first `j` frames but not all of the next, forwarding sends those `j`, writes a strict prefix of frame `j`, takes `j + 1` messages off the queue and stops with EOF_OR_ERROR |
| ChatServer.Session | server.cpp:128-157 | defines a whole session on a socket up to the cleanup: the socket, the name logged in under and the broadcasts made; `SessionLogin` states its login step and `ClientInfo.Worker` is proved against it |
| ChatServer.Admit | server.cpp:134-157 | defines the session once the login message is received; `ClientInfo.Login` is proved against it |
| ChatServer.LoggedInRun | server.cpp:150-157 | defines a logged-in session: the `logged in as` reply, then `SenderRun` or `ReceiverJoin`; `ClientInfo.Start` is proved against it |
| ChatServer.SessionLogin | server.cpp:128-157 | a login with another tag or an empty name is answered with its error and logs nobody in; a good one logs in under the given name, as a sender for `slogin`, and is acknowledged |
| ChatServer.ReplayAnswersEach | server.cpp:38-80 | on commands without QUIT, every command gets exactly one reply |
| ChatServer.ReplayEndsAtQuit | server.cpp:73-76 | at the first QUIT, the commands before it got one reply each, QUIT's reply is `bye!`, and it is the last reply |
| ChatServer.SenderRunFirst | server.cpp:38-80 | one round of the sender loop receives a command, acts on it and sends its reply |
| ChatServer.SenderRunOutput | server.cpp:38-80 | the sender session's output is the frames of its replies, in order |
| ChatServer.SenderRunReplays | server.cpp:35-81 | on a stream of framed commands, the session's replies, final room and broadcasts are those of acting on the commands one by one (`Replay`) |
| ChatServer.Echo | room.cpp:48-59 | the sender's own queue gets one delivery per broadcast, in order |
| ChatServer.FanoutOne | room.cpp:48-59 | one broadcast puts into a queue one delivery per member of the room holding it |
| ChatServer.FanoutAppend | server.cpp:39-80 | the deliveries of two runs of broadcasts are those of the first followed by those of the second |
| ChatServer.HeldAfter | server.cpp:39-80 | a queue holding the deliveries of the earlier broadcasts and then those of a command's holds those of both runs, in order |
| ChatServer.FanoutAgree | room.cpp:48-59 | only the holder counts of the rooms posted to decide the deliveries |
| ChatServer.FanoutUnshared | room.cpp:48-59 | a queue no other member holds gets nothing if it is not the sender's, and exactly one delivery per broadcast, in order, if it is |
| ChatServer.PostFanout | server.cpp:49-50 | a broadcast in a room whose members, the sender aside, are the snapshot's gives each queue the copies `Fanout` counts; a queue no member holds gets none |
| ChatServer.ClientInfo.constructor | server.cpp:21-27 | a new session has its connection and server, and no user, queue or room |
| ChatServer.ClientInfo.Detach | server.cpp:58-60 | leaving removes the user from its room, and no other member of any room changes |
| ChatServer.ClientInfo.Attach | server.cpp:61-62 | joining adds the user with its own queue to the room, and no other member of any room changes |
| ChatServer.ClientInfo.JoinRoom | server.cpp:55-63 | the session is in the named room, which is found or created; the room's members are its old ones, or none for a new room, plus the user with its queue; the user leaves its old room; the registry gains at most this room, and no other membership changes |
| ChatServer.ClientInfo.ApartKept | server.cpp:55-72 | a step that kept the registry keeps the membership snapshot, apart from this user, the registry's |
| ChatServer.ClientInfo.KeptApart | server.cpp:39-80 | a registry that gained only fresh rooms, with the snapshot its membership apart from the user before and after, was kept |
| ChatServer.ClientInfo.Publish | server.cpp:49-50 | a broadcast gives each known queue the copies `Fanout` counts for the post, so the sender's own queue gets exactly one delivery; membership is untouched |
| ChatServer.ClientInfo.SendAll | server.cpp:47-54 | in a room, every known queue gets `Fanout`'s deliveries of the post, the sender's own exactly one, and the reply is `message sent`; otherwise the error `not in a room` and no queue changes |
| ChatServer.ClientInfo.Join | server.cpp:55-63 | JOIN moves the session to the room and replies `joined room` with its name; no queue changes |
| ChatServer.ClientInfo.Leave | server.cpp:64-72 | LEAVE takes the session out of its room and replies `left room` with its name, or `not in a room`; no queue changes |
| ChatServer.ClientInfo.Answer | server.cpp:73-79 | QUIT replies `bye!` and ends the loop; any other tag replies `invalid command` and goes on |
| ChatServer.ClientInfo.SenderCommand | server.cpp:46-79 | one command's effect on the room, the reply sent and whether the loop ends are `SenderStep`'s; membership changes only for this user; each known queue gains the deliveries of the command's broadcast after those of the earlier ones |
| ChatServer.ClientInfo.SenderRound | server.cpp:39-80 | one round leaves the remainder of the `SenderRun` unchanged and consumes input, or ends the run; what it broadcast is added to every queue's deliveries |
| ChatServer.ClientInfo.ChatWithSender | server.cpp:35-81 | the loop ends with the socket and room `SenderRun` predicts; the registry only grows, by fresh rooms; every known queue receives, after what it held, the deliveries `Fanout` makes of the run's broadcasts |
| ChatServer.ClientInfo.ForwardQueued | server.cpp:109-118 | the socket afterwards is `Forward`'s, and the forwarded messages are gone from the front of the queue |
| ChatServer.ClientInfo.AnswerJoinWith | server.cpp:89-106 | the reply, socket and room are `AnswerJoin`'s: a failed receive is refused with `invalid message`, a non-JOIN with `Expected JOIN`; a JOIN puts the receiver in the room and replies `welcome` |
| ChatServer.ClientInfo.AwaitJoin | server.cpp:87-106 | the receiver's join is `ReceiverJoin` of the socket |
| ChatServer.ClientInfo.ChatWithReceiver | server.cpp:84-119 | without a JOIN the receiver gets its error and nothing is forwarded; otherwise it joins the room and its queued messages are forwarded |
| ChatServer.ClientInfo.Cleanup | server.cpp:159-168 | the user leaves its room, its queue is freed and the connection is closed; no room is removed and no other membership changes |
| ChatServer.ClientInfo.Register | server.cpp:145-148 | a logged-in session gets a fresh user with its name, a fresh empty queue and no room |
| ChatServer.ClientInfo.Start | server.cpp:150-157 | the login is acknowledged and the sender or receiver phase runs: the socket is `LoggedInRun`'s; the old rooms keep their other members and new rooms hold the user at most; every queue known before gets the deliveries of the session's broadcasts, none for a receiver |
| ChatServer.ClientInfo.StartSender | server.cpp:151-153 | as `Start`, for a sender: the deliveries are those of `SenderRun`'s broadcasts |
| ChatServer.ClientInfo.StartReceiver | server.cpp:154-156 | as `Start`, for a receiver: no queue known before changes |
| ChatServer.ClientInfo.Login | server.cpp:134-157 | the socket and the logged-in name are `Admit`'s; a refused login changes no room, membership or queue; a good one leaves what `Start` states |
| ChatServer.ClientInfo.Serve | server.cpp:128-157 | the socket and the logged-in name are `Session`'s; without a login no room, membership or queue changes; with one, every queue known before gets the deliveries of the session's broadcasts |
| ChatServer.ClientInfo.Worker | server.cpp:122-169 | a session ends with its connection closed and the socket `Session` predicts, its user in no room, its queue emptied; every room that existed before has exactly its old members, and every room it created is empty; every queue known before received the deliveries of the session's broadcasts, counted over the members when it began |
| SenderClient.SkipSpaces | sender.cpp:59-61 | skips exactly the whitespace run at the position |
| SenderClient.WordEnd | sender.cpp:59-61 | stops exactly at the end of the word at the position |
| SenderClient.NextWord | sender.cpp:68 | a word is found exactly when non-space text remains; it is the non-empty, whitespace-free text of `s` from the first non-space up to the next whitespace or the end |
| SenderClient.ClassifyLine | sender.cpp:50-102 | an empty line is skipped; a line not starting with `/` is sent as `sendall` with the whole line; `join` carries one non-empty word; `leave` carries nothing |
| SenderClient.JoinLine | sender.cpp:64-74 | `/join room` sends JOIN with that room |
| SenderClient.JoinWithoutRoom | sender.cpp:64-74 | `/join` with no room after it is rejected with the usage message |
| SenderClient.UnknownCommand | sender.cpp:93-97 | a first word starting with `/` that is none of the three commands is rejected as `Unknown command:` with that word |
| SenderClient.LeaveLine | sender.cpp:75-78 | `/leave` sends LEAVE with empty data |
| SenderClient.QuitLine | sender.cpp:79-92 | `/quit` is the quit command |
| SenderClient.WordEndAt | sender.cpp:59-61 | the end of the word is the first whitespace position after it |
| SenderClient.SkipSpacesAt | sender.cpp:59-61 | the skip stops at the first non-space position |
| SenderClient.LineStep | sender.cpp:50-119 | defines one input line's effect: skipped, rejected with an error line, sent and answered, or the end of the client with its status; `HandleLine` is proved against it |
| SenderClient.SenderLoop | sender.cpp:50-122 | defines the loop over the input lines; `LoopContinues` states how it goes on and `CommandLoop` is proved against it |
| SenderClient.SenderClientRun | sender.cpp:28-122 | defines the whole sender client after connecting: login, then the loop; `SenderMain` is proved against it |
| SenderClient.LoopContinues | sender.cpp:50-120 | after a line that does not end the client, the loop goes on with the remaining lines and the errors accumulate in order |
| SenderClient.HandleLine | sender.cpp:50-119 | one line's effect is `LineStep`'s |
| SenderClient.CommandLoop | sender.cpp:50-122 | the loop's exit status, error lines and socket are `SenderLoop`'s |
| SenderClient.SenderMain | sender.cpp:28-122 | the client's exit status, error lines and socket are `SenderClientRun`'s |
| ReceiverClient.SplitPayload | receiver.cpp:83-93 | a payload without two colons is skipped; otherwise it is `room:sender:text` with colon-free room and sender |
| ReceiverClient.PayloadRoundTrip | receiver.cpp:83-93 | the payload the room builds splits back into its sender and text (room.cpp:42) |
| ReceiverClient.SplitUnique | receiver.cpp:83-93 | a payload has one split at its first two colons |
| ReceiverClient.Shown | receiver.cpp:79-96 | defines the line a received message prints: `sender: text` for a well-formed delivery, nothing otherwise; `ShownDelivery` states it for the room's payloads |
| ReceiverClient.ShownDelivery | receiver.cpp:79-96 | a delivery prints as `sender: text` |
| ReceiverClient.ReceiveLoop | receiver.cpp:69-98 | defines the receive loop on a socket: the lines printed until a receive fails; `ReceiveLoopFrames` states it on framed input |
| ReceiverClient.ReceiveLoopFrames | receiver.cpp:69-98 | on a stream of framed messages, the client prints what each message shows, in the order sent |
| ReceiverClient.PrintDeliveries | receiver.cpp:69-98 | the loop prints `ReceiveLoop`'s lines and leaves its socket |
| ReceiverClient.ReceiverClientRun | receiver.cpp:29-100 | defines the whole receiver client after connecting: login, join, then the receive loop; `ReceiverMain` is proved against it |
| ReceiverClient.ReceiverMain | receiver.cpp:29-100 | the client's exit status, output, error lines and socket are `ReceiverClientRun`'s |

## Left out

- Threads, mutexes, semaphore waiting and the detached worker threads are not modelled. Sessions run one at a time, so no broadcast from another session interleaves with a session.
- The accept loop, the listening socket, the server constructor's port, and `argc`/`stoi` argument handling are left out. They are I/O plumbing.
- Connection.Connect: host name resolution and `open_clientfd` are outside the model. The descriptor they produce is a parameter.
- Socket I/O is modelled by the `Socket` value. Bytes the peer accepts are a capacity, and a short write writes a prefix. The rio buffering and NUL bytes inside a line are not modelled.
- The one-second timeout of `dequeue` is modelled as a zero semaphore count. Real time is not modelled.
- ChatServer.ClientInfo.ChatWithReceiver: the source polls its queue forever. The model forwards what is queued when the receiver joins and stops when the queue is idle or a send fails. Messages broadcast later by other sessions are not modelled.
- Broadcast: the room puts one shared message value in each queue, instead of a new heap copy per member. Deleting messages and users is modelled as dropping them.
- Logging to standard error on the server, and the commented-out debug output in the receiver, are not modelled.
- The contents of message.h, user.h and the csapp helpers are outside the model. The values assumed for them are stated above.
