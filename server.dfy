/** The server's sequential core: the room registry, one session's login,
    the sender's command loop, the receiver's join and forwarding loop, and
    the cleanup every session ends with. Threads, locks and the accept loop
    are left out; a session runs from its first receive to its cleanup. */
module ChatServer {
  import opened Messages
  import opened Framing
  import opened Queueing
  import opened Rooms

  /** The registry `b` keeps every room `a` had, under the same name. */
  predicate Grows(a: map<string, Room>, b: map<string, Room>) {
    forall n :: n in a ==> n in b && b[n] == a[n]
  }

  /** The contents of the queues `qs`, as a value. */
  ghost function Contents(qs: set<MessageQueue>): map<MessageQueue, seq<Message>>
    reads qs
  {
    map q | q in qs :: q.messages
  }

  /** A registry that grew twice grew. */
  lemma GrowsTwice(a: map<string, Room>, b: map<string, Room>, c: map<string, Room>)
    requires Grows(a, b) && Grows(b, c)
    ensures Grows(a, c)
  {
  }

  class Server {
    /** `m_rooms`: rooms by name, created on first use and never removed. */
    var rooms: map<string, Room>
    /** The queues of every session that has logged in; a frame for the
        queues a broadcast may write to. */
    ghost var queues: set<MessageQueue>

    ghost predicate Valid()
      reads this, rooms.Values
    {
      && (forall n :: n in rooms ==> rooms[n].name == n)
      && (forall n, u :: n in rooms && u in rooms[n].members ==> rooms[n].members[u] in queues)
    }

    constructor ()
      ensures rooms == map[] && queues == {} && Valid()
    {
      rooms := map[];
      queues := {};
    }

    /** The members of every room, by room name, as a value. */
    ghost function Membership(): map<string, map<User, MessageQueue>>
      reads this, rooms.Values
    {
      map n | n in rooms :: rooms[n].members
    }

    /** Returns the room called `roomName`, creating an empty one only if
        there is none; no room is ever removed or replaced. */
    method FindOrCreateRoom(roomName: string) returns (r: Room)
      requires Valid()
      modifies this
      ensures Valid() && queues == old(queues)
      ensures r.name == roomName && roomName in rooms && rooms[roomName] == r
      ensures roomName in old(rooms) ==> rooms == old(rooms) && r == old(rooms)[roomName]
      ensures roomName !in old(rooms) ==> fresh(r) && r.members == map[] && rooms == old(rooms)[roomName := r]
    {
      if roomName in rooms {
        r := rooms[roomName];
      } else {
        r := new Room(roomName);
        rooms := rooms[roomName := r];
      }
    }
  }

  /** What a sender's command does to the session's room and what it
      answers: the room the session is in afterwards, the reply, whether
      the loop ends, and the broadcast it makes, if any. */
  datatype Step = Step(next: Option<string>, reply: Message, quit: bool, posts: seq<Post>)

  /** A broadcast a sender made: the room it was in and the text. */
  datatype Post = Post(room: string, text: string)

  function SenderStep(current: Option<string>, m: Message): Step {
    if m.tag == TagSendall then
      if current.Some? then Step(current, Message(TagOk, "message sent"), false, [Post(current.value, m.data)])
      else Step(current, Message(TagErr, "not in a room"), false, [])
    else if m.tag == TagJoin then
      Step(Some(m.data), Message(TagOk, "joined room " + m.data), false, [])
    else if m.tag == TagLeave then
      if current.Some? then Step(None, Message(TagOk, "left room " + current.value), false, [])
      else Step(None, Message(TagErr, "not in a room"), false, [])
    else if m.tag == TagQuit then
      Step(current, Message(TagOk, "bye!"), true, [])
    else
      Step(current, Message(TagErr, "invalid command"), false, [])
  }

  /** The replies a sender session sends, the room it ends in, the socket
      afterwards, and its broadcasts in the order it made them. */
  datatype Run = Run(replies: seq<Message>, room: Option<string>, sock: Socket, posts: seq<Post>)

  /** The sender loop on the socket `s`: receive, act, reply; it ends at
      the first failed receive (no reply) or after QUIT's reply. */
  function SenderRun(current: Option<string>, s: Socket): Run
    decreases |s.input|
  {
    var got := ReceiveOn(s, EmptyMessage);
    if !got.ok then Run([], current, got.sock, [])
    else
      var step := SenderStep(current, got.msg);
      var sent := SendOn(got.sock, step.reply);
      if step.quit then Run([step.reply], step.next, sent.sock, step.posts)
      else
        var rest := SenderRun(step.next, sent.sock);
        Run([step.reply] + rest.replies, rest.room, rest.sock, step.posts + rest.posts)
  }

  /** The first message decides the session: refused with an error reply,
      or logged in as a sender or a receiver under the given name. */
  datatype Login = Refused(reply: Message) | LoggedIn(asSender: bool, username: string)

  function CheckLogin(m: Message): Login {
    if m.tag != TagSlogin && m.tag != TagRlogin then Refused(Message(TagErr, "expected slogin or rlogin"))
    else if m.data == "" then Refused(Message(TagErr, "empty username"))
    else LoggedIn(m.tag == TagSlogin, m.data)
  }

  function LoginReply(username: string): Message {
    Message(TagOk, "logged in as " + username)
  }

  /** The receiver's mandatory JOIN: the reply to its first message after
      login, and the room it joins if that message is a JOIN. */
  datatype Joined = Joined(reply: Message, room: Option<string>, sock: Socket)

  function ReceiverJoin(s: Socket): Joined {
    AnswerJoin(ReceiveOn(s, EmptyMessage))
  }

  /** The answer to the receiver's first message after login, as received. */
  function AnswerJoin(got: Received): Joined {
    if !got.ok then Joined(Message(TagErr, "invalid message"), None, SendOn(got.sock, Message(TagErr, "invalid message")).sock)
    else if got.msg.tag != TagJoin then Joined(Message(TagErr, "Expected JOIN"), None, SendOn(got.sock, Message(TagErr, "Expected JOIN")).sock)
    else Joined(Message(TagOk, "welcome"), Some(got.msg.data), SendOn(got.sock, Message(TagOk, "welcome")).sock)
  }

  /** Queued messages forwarded to the receiver: how many were taken off
      the queue, and the socket afterwards. Forwarding stops at the first
      failed send, after that message has been taken. */
  datatype Forwarded = Forwarded(taken: nat, sock: Socket)

  function Forward(s: Socket, pending: seq<Message>): (r: Forwarded)
    ensures r.taken <= |pending|
    decreases |pending|
  {
    if pending == [] then Forwarded(0, s)
    else
      var sent := SendOn(s, pending[0]);
      if !sent.ok then Forwarded(1, sent.sock)
      else
        var rest := Forward(sent.sock, pending[1..]);
        Forwarded(1 + rest.taken, rest.sock)
  }

  /** A whole session on socket `s0`, from the login message up to the
        cleanup: the socket then, and the name it logged in under, if it
        did. A receiver's queue is empty when it starts forwarding, since
        nothing else runs meanwhile in this model. */
  datatype Outcome = Outcome(sock: Socket, username: Option<string>, posts: seq<Post>)

  function Session(s0: Socket): Outcome {
    Admit(ReceiveOn(s0, EmptyMessage))
  }

  /** The rest of a session once the login message has been received. */
  function Admit(got: Received): Outcome {
    if !got.ok then Outcome(got.sock, None, [])
    else match CheckLogin(got.msg)
      case Refused(reply) => Outcome(SendOn(got.sock, reply).sock, None, [])
      case LoggedIn(asSender, name) => LoggedInRun(asSender, name, got.sock)
  }

  /** A logged-in session: acknowledge the login, then run the sender loop
      or the receiver's join. */
  function LoggedInRun(asSender: bool, name: string, s: Socket): Outcome {
    var s1 := SendOn(s, LoginReply(name)).sock;
    if asSender then Outcome(SenderRun(None, s1).sock, Some(name), SenderRun(None, s1).posts)
    else Outcome(ReceiverJoin(s1).sock, Some(name), [])
  }

  /** A session whose first line is the frame of `m`: a login with a bad
      tag or an empty name is answered with its error and logs nobody in;
      a good one logs in under the given name and is acknowledged. */
  lemma SessionLogin(s0: Socket, m: Message, rest: string)
    requires IsOpen(s0) && Framable(m) && s0.input == Frame(m) + rest
    ensures Session(s0).username == if CheckLogin(m).LoggedIn? then Some(m.data) else None
    ensures CheckLogin(m).Refused? ==>
              Session(s0).sock == SendOn(s0.(status := Success, input := rest), CheckLogin(m).reply).sock
    ensures CheckLogin(m).LoggedIn? ==>
              Session(s0) == LoggedInRun(m.tag == TagSlogin, m.data, s0.(status := Success, input := rest))
  {
    FrameRoundTrip(s0, m, rest, EmptyMessage);
  }

  /** The sender's commands acted on one after another, without sockets:
      the replies, the room afterwards and the broadcasts; QUIT's reply is
      the last. */
  datatype Script = Script(replies: seq<Message>, room: Option<string>, posts: seq<Post>)

  function Replay(current: Option<string>, cmds: seq<Message>): Script
    decreases |cmds|
  {
    if cmds == [] then Script([], current, [])
    else
      var step := SenderStep(current, cmds[0]);
      if step.quit then Script([step.reply], step.next, step.posts)
      else
        var rest := Replay(step.next, cmds[1..]);
        Script([step.reply] + rest.replies, rest.room, step.posts + rest.posts)
  }

  /** Without a QUIT, every command is answered with exactly one reply. */
  lemma {:induction false} ReplayAnswersEach(current: Option<string>, cmds: seq<Message>)
    requires forall i :: 0 <= i < |cmds| ==> cmds[i].tag != TagQuit
    ensures |Replay(current, cmds).replies| == |cmds|
    decreases |cmds|
  {
    if cmds != [] {
      assert forall i :: 0 <= i < |cmds[1..]| ==> cmds[1..][i] == cmds[i + 1];
      ReplayAnswersEach(SenderStep(current, cmds[0]).next, cmds[1..]);
    }
  }

  /** The first QUIT, at index `i`, is answered with "bye!" and its reply
      is the last: each command before it got exactly one. */
  lemma {:induction false} ReplayEndsAtQuit(current: Option<string>, cmds: seq<Message>, i: nat)
    requires i < |cmds| && cmds[i].tag == TagQuit
    requires forall k :: 0 <= k < i ==> cmds[k].tag != TagQuit
    ensures |Replay(current, cmds).replies| == i + 1
    ensures Replay(current, cmds).replies[i] == Message(TagOk, "bye!")
    decreases i
  {
    if i > 0 {
      assert cmds[1..][i - 1] == cmds[i];
      assert forall k :: 0 <= k < i - 1 ==> cmds[1..][k] == cmds[k + 1];
      ReplayEndsAtQuit(SenderStep(current, cmds[0]).next, cmds[1..], i - 1);
    }
  }

  /** One round of the sender loop on a stream that starts with the frame
      of `m`: `m` is received and acted on, and its reply sent. */
  lemma SenderRunFirst(current: Option<string>, s: Socket, m: Message, rest: string)
    requires IsOpen(s) && Framable(m) && s.input == Frame(m) + rest
    ensures var step := SenderStep(current, m);
            var s1 := SendOn(s.(status := Success, input := rest), step.reply).sock;
            SenderRun(current, s) ==
              if step.quit then Run([step.reply], step.next, s1, step.posts)
              else Run([step.reply] + SenderRun(step.next, s1).replies,
                       SenderRun(step.next, s1).room, SenderRun(step.next, s1).sock,
                       step.posts + SenderRun(step.next, s1).posts)
  {
    FrameRoundTrip(s, m, rest, EmptyMessage);
  }

  /** A sender whose peer takes every reply has written exactly the frames
      of its replies, in order. */
  lemma {:induction false} SenderRunOutput(current: Option<string>, s: Socket)
    requires |Frames(SenderRun(current, s).replies)| <= s.capacity
    ensures SenderRun(current, s).sock.output == s.output + Frames(SenderRun(current, s).replies)
    decreases |s.input|
  {
    var got := ReceiveOn(s, EmptyMessage);
    if !got.ok {
      assert s.output + Frames([]) == s.output;
    } else {
      var step := SenderStep(current, got.msg);
      var sent := SendOn(got.sock, step.reply);
      if step.quit {
        assert SenderRun(current, s) == Run([step.reply], step.next, sent.sock, step.posts);
        FramesCons(step.reply, []);
        assert [step.reply] + [] == [step.reply];
      } else {
        var rest := SenderRun(step.next, sent.sock);
        assert SenderRun(current, s) == Run([step.reply] + rest.replies, rest.room, rest.sock, step.posts + rest.posts);
        FramesCons(step.reply, rest.replies);
        assert |Frame(step.reply)| + |Frames(rest.replies)| <= got.sock.capacity;
        assert sent.ok;
        SenderRunOutput(step.next, sent.sock);
        Appended(s.output, Frame(step.reply), Frames(rest.replies), sent.sock.output, rest.sock.output);
      }
    }
  }

  /** A sender whose stream holds exactly the frames of `cmds` sends the
      replies `Replay` gives, in order, makes the broadcasts it gives, and
      ends in the room it gives. */
  lemma {:induction false} SenderRunReplays(current: Option<string>, s: Socket, cmds: seq<Message>)
    requires IsOpen(s) && s.input == Frames(cmds)
    requires forall i :: 0 <= i < |cmds| ==> Framable(cmds[i])
    ensures SenderRun(current, s).replies == Replay(current, cmds).replies
    ensures SenderRun(current, s).room == Replay(current, cmds).room
    ensures SenderRun(current, s).posts == Replay(current, cmds).posts
    decreases |cmds|
  {
    if cmds == [] {
      assert !ReceiveOn(s, EmptyMessage).ok;
    } else {
      var m := cmds[0];
      FramesCons(m, cmds[1..]);
      assert cmds == [m] + cmds[1..];
      SenderRunFirst(current, s, m, Frames(cmds[1..]));
      var step := SenderStep(current, m);
      var sent := SendOn(s.(status := Success, input := Frames(cmds[1..])), step.reply);
      if !step.quit {
        assert IsOpen(sent.sock);
        assert forall i :: 0 <= i < |cmds[1..]| ==> Framable(cmds[1..][i]) by {
          forall i | 0 <= i < |cmds[1..]| ensures Framable(cmds[1..][i]) {
            assert cmds[1..][i] == cmds[i + 1];
          }
        }
        SenderRunReplays(step.next, sent.sock, cmds[1..]);
      }
    }
  }

  /** Forwarding to a peer that takes everything sends every pending
      message, in queue order, and takes them all off the queue. */
  lemma {:induction false} ForwardDelivers(s: Socket, pending: seq<Message>)
    requires IsOpen(s) && |Frames(pending)| <= s.capacity
    ensures Forward(s, pending).taken == |pending|
    ensures Forward(s, pending).sock.output == s.output + Frames(pending)
    ensures IsOpen(Forward(s, pending).sock)
    decreases |pending|
  {
    if pending != [] {
      FramesCons(pending[0], pending[1..]);
      assert pending == [pending[0]] + pending[1..];
      ForwardDelivers(SendOn(s, pending[0]).sock, pending[1..]);
    }
  }

  /** When the receiver takes the frames of the first `j` queued messages
      but not all of the next one, forwarding sends those `j`, writes part
      of message `j`, takes it off the queue anyway, and stops. */
  lemma {:induction false} ForwardStops(s: Socket, pending: seq<Message>, j: nat)
    requires IsOpen(s) && j < |pending|
    requires |Frames(pending[..j])| <= s.capacity < |Frames(pending[..j + 1])|
    ensures Forward(s, pending).taken == j + 1
    ensures Forward(s, pending).sock.status == EofOrError
    ensures exists k :: 0 <= k < |Frame(pending[j])|
              && Forward(s, pending).sock.output == s.output + Frames(pending[..j]) + Frame(pending[j])[..k]
    decreases j
  {
    FramesCons(pending[0], pending[1..][..j]);
    assert pending[..j + 1] == [pending[0]] + pending[1..][..j];
    if j == 0 {
      FramesCons(pending[0], []);
      assert [pending[0]] + [] == [pending[0]];
      var k := s.capacity;
      assert Forward(s, pending).sock.output == s.output + Frames(pending[..0]) + Frame(pending[0])[..k];
    } else {
      FramesCons(pending[0], pending[1..][..j - 1]);
      assert pending[..j] == [pending[0]] + pending[1..][..j - 1];
      var s1 := SendOn(s, pending[0]).sock;
      assert pending[1..][..j - 1 + 1] == pending[1..][..j];
      ForwardStops(s1, pending[1..], j - 1);
      assert pending[1..][j - 1] == pending[j];
      var k :| 0 <= k < |Frame(pending[j])|
               && Forward(s1, pending[1..]).sock.output
                  == s1.output + Frames(pending[1..][..j - 1]) + Frame(pending[j])[..k];
      assert SendOn(s, pending[0]).ok;
      assert Forward(s, pending).sock == Forward(s1, pending[1..]).sock;
      Appended(s.output, Frame(pending[0]), Frames(pending[1..][..j - 1]), s1.output,
               s1.output + Frames(pending[1..][..j - 1]));
      assert Forward(s, pending).sock.output == s.output + Frames(pending[..j]) + Frame(pending[j])[..k];
    }
  }

  /** The count `held` gives room `n`; none when it has no entry. */
  function Held(held: map<string, nat>, n: string): nat {
    if n in held then held[n] else 0
  }

  /** What one queue receives from the broadcasts `posts` of `sender`, in
      order: for each post, one delivery per member of that room holding
      the queue. `held` counts the holders other than the sender in each
      room; `own` tells whether the queue is the sender's own, which the
      sender holds in the room it posts to. */
  function Fanout(posts: seq<Post>, sender: string, held: map<string, nat>, own: bool): seq<Message>
    decreases |posts|
  {
    if posts == [] then []
    else Copies(Delivery(posts[0].room, sender, posts[0].text), Held(held, posts[0].room) + (if own then 1 else 0))
         + Fanout(posts[1..], sender, held, own)
  }

  /** One delivery per post, in order: what the sender's own queue gets. */
  function Echo(posts: seq<Post>, sender: string): (r: seq<Message>)
    ensures |r| == |posts|
    ensures forall i :: 0 <= i < |posts| ==> r[i] == Delivery(posts[i].room, sender, posts[i].text)
    decreases |posts|
  {
    if posts == [] then [] else [Delivery(posts[0].room, sender, posts[0].text)] + Echo(posts[1..], sender)
  }

  /** A single post fans out as its copies. */
  lemma FanoutOne(p: Post, sender: string, held: map<string, nat>, own: bool)
    ensures Fanout([p], sender, held, own)
            == Copies(Delivery(p.room, sender, p.text), Held(held, p.room) + (if own then 1 else 0))
  {
    assert [p][1..] == [];
  }

  /** A queue that held `held0` plus the deliveries of `sofar`, and then got
      those of `posted`, holds `held0` plus the deliveries of `sofar + posted`. */
  lemma HeldAfter(held0: seq<Message>, before: seq<Message>, after: seq<Message>, sofar: seq<Post>, posted: seq<Post>,
                  sender: string, held: map<string, nat>, own: bool)
    requires before == held0 + Fanout(sofar, sender, held, own)
    requires after == before + Fanout(posted, sender, held, own)
    ensures after == held0 + Fanout(sofar + posted, sender, held, own)
  {
    FanoutAppend(sofar, posted, sender, held, own);
    var x, y := Fanout(sofar, sender, held, own), Fanout(posted, sender, held, own);
    assert (held0 + x) + y == held0 + (x + y);
  }

  /** The deliveries of two runs of posts, one after the other, are those
      of the first run followed by those of the second. */
  lemma {:induction false} FanoutAppend(p1: seq<Post>, p2: seq<Post>, sender: string, held: map<string, nat>, own: bool)
    ensures Fanout(p1 + p2, sender, held, own) == Fanout(p1, sender, held, own) + Fanout(p2, sender, held, own)
    decreases |p1|
  {
    if p1 != [] {
      assert (p1 + p2)[1..] == p1[1..] + p2;
      FanoutAppend(p1[1..], p2, sender, held, own);
      var c := Copies(Delivery(p1[0].room, sender, p1[0].text), Held(held, p1[0].room) + (if own then 1 else 0));
      Appended(c, Fanout(p1[1..], sender, held, own), Fanout(p2, sender, held, own),
               Fanout(p1, sender, held, own), Fanout(p1, sender, held, own) + Fanout(p2, sender, held, own));
    } else {
      assert p1 + p2 == p2;
    }
  }

  /** Only the counts of the rooms posted to matter. */
  lemma {:induction false} FanoutAgree(posts: seq<Post>, sender: string, h1: map<string, nat>, h2: map<string, nat>, own: bool)
    requires forall i :: 0 <= i < |posts| ==> Held(h1, posts[i].room) == Held(h2, posts[i].room)
    ensures Fanout(posts, sender, h1, own) == Fanout(posts, sender, h2, own)
    decreases |posts|
  {
    if posts != [] {
      assert forall i :: 0 <= i < |posts[1..]| ==> posts[1..][i] == posts[i + 1];
      FanoutAgree(posts[1..], sender, h1, h2, own);
    }
  }

  /** A queue no other member holds in the rooms posted to gets nothing if
      it is not the sender's, and one delivery per post, in order, if it is. */
  lemma {:induction false} FanoutUnshared(posts: seq<Post>, sender: string, held: map<string, nat>)
    requires forall i :: 0 <= i < |posts| ==> Held(held, posts[i].room) == 0
    ensures Fanout(posts, sender, held, false) == []
    ensures Fanout(posts, sender, held, true) == Echo(posts, sender)
    decreases |posts|
  {
    if posts != [] {
      assert forall i :: 0 <= i < |posts[1..]| ==> posts[1..][i] == posts[i + 1];
      FanoutUnshared(posts[1..], sender, held);
      assert Copies(Delivery(posts[0].room, sender, posts[0].text), 1) == [Delivery(posts[0].room, sender, posts[0].text)];
    }
  }

  /** For each room of the membership `rooms`, how many of its members
      other than `sender` hold the queue `q`. */
  function Counts(rooms: map<string, map<User, MessageQueue>>, q: MessageQueue, sender: User?): map<string, nat> {
    map n | n in rooms :: |Holders(rooms[n], q, rooms[n].Keys - {sender})|
  }

  /** The members a membership snapshot gives the room `n`: none, for a
      room it does not have. */
  function MembersOf(rooms: map<string, map<User, MessageQueue>>, n: string): map<User, MessageQueue> {
    if n in rooms then rooms[n] else map[]
  }

  /** A broadcast in room `name`, whose members agree with the snapshot
      `start` apart from the sender `u`, gives every queue `q` the copies
      `Fanout` counts for the post: one per member holding `q`. */
  lemma PostFanout(members: map<User, MessageQueue>, start: map<string, map<User, MessageQueue>>,
                   u: User, own: MessageQueue, q: MessageQueue, name: string, sender: string, text: string)
    requires u in members && members[u] == own
    requires members - {u} == MembersOf(start, name) - {u}
    ensures Copies(Delivery(name, sender, text), |Holders(members, q, members.Keys)|)
            == Fanout([Post(name, text)], sender, Counts(start, q, u), q == own)
    ensures q !in members.Values ==> Fanout([Post(name, text)], sender, Counts(start, q, u), q == own) == []
  {
    HoldersApart(members, u, q);
    HoldersAgree(members, MembersOf(start, name), u, q);
    FanoutOne(Post(name, text), sender, Counts(start, q, u), q == own);
    if q !in members.Values {
      assert Holders(members, q, members.Keys) == {};
    }
  }

  /** The per-connection state (`ClientInfo`). */
  class ClientInfo {
    const conn: Connection
    const server: Server
    var queue: MessageQueue?
    var room: Room?
    var user: User?

    constructor (c: Connection, s: Server)
      ensures conn == c && server == s && queue == null && room == null && user == null
    {
      conn, server := c, s;
      queue, room, user := null, null, null;
    }

    function CurrentRoom(): Option<string>
      reads this
    {
      if room == null then None else Some(room.name)
    }

    /** After login: the user is a member of exactly the session's room,
        through the session's own queue, and no other member holds that
        queue. */
    ghost predicate InSession()
      reads this, server, server.rooms.Values
    {
      && user != null && queue != null && server.Valid() && queue in server.queues
      && (forall n :: n in server.rooms ==> (user in server.rooms[n].members <==> server.rooms[n] == room))
      && (room != null ==> room.name in server.rooms && server.rooms[room.name] == room
                           && user in room.members && room.members[user] == queue)
      && (forall n, u :: n in server.rooms && u in server.rooms[n].members && server.rooms[n].members[u] == queue
                         ==> u == user)
    }

    /** Between two states of a session: the registry kept every room under
        its name, every room is an old one or a new one, the known queues are
        the same, only this session's user changed membership, and a room
        created in between has no member but this session's user. */
    twostate predicate RegistryKept()
      reads this, server, server.rooms.Values
    {
      && Grows(old(server.rooms), server.rooms)
      && server.queues == old(server.queues)
      && (forall n :: n in server.rooms && n !in old(server.rooms) ==> fresh(server.rooms[n]))
      && (forall n :: n in old(server.rooms) ==>
            server.rooms[n].members - {user} == old(server.rooms[n].members) - {user})
      && (forall n :: n in server.rooms && n !in old(server.rooms) ==> server.rooms[n].members.Keys <= {user})
    }

    /** Leaves the current room, if any. */
    method Detach()
      requires InSession()
      modifies this, room
      ensures InSession() && room == null && user == old(user) && queue == old(queue)
      ensures old(room) != null ==> old(room).members == old(room.members) - {user}
      ensures forall n :: n in server.rooms ==>
                server.rooms[n].members - {user} == old(server.rooms[n].members) - {user}
    {
      if room != null {
        room.RemoveMember(user);
        room := null;
      }
    }

    /** Joins a registered room while in none. */
    method Attach(r: Room)
      requires InSession() && room == null && r.name in server.rooms && server.rooms[r.name] == r
      modifies this, r
      ensures InSession() && room == r && user == old(user) && queue == old(queue)
      ensures r.members == old(r.members)[user := queue]
      ensures forall n :: n in server.rooms ==>
                server.rooms[n].members - {user} == old(server.rooms[n].members) - {user}
    {
      room := r;
      room.AddMember(user, queue);
    }

    /** JOIN, for senders and receivers alike: leave the current room, if
        any, and become a member of the named room, creating it if needed. */
    method JoinRoom(roomName: string)
      requires InSession()
      modifies this, server, server.rooms.Values
      ensures InSession() && user == old(user) && queue == old(queue)
      ensures room != null && room.name == roomName
      ensures room.members ==
                (if roomName in old(server.rooms) then old(server.rooms[roomName].members) else map[])[user := queue]
      ensures server.rooms == old(server.rooms)[roomName := room]
      ensures roomName in old(server.rooms) ==> room == old(server.rooms)[roomName]
      ensures roomName !in old(server.rooms) ==> fresh(room)
      ensures RegistryKept()
    {
      ghost var before := if roomName in server.rooms then server.rooms[roomName].members else map[];
      var newRoom := server.FindOrCreateRoom(roomName);
      assert newRoom.members == before;
      Detach();
      label Detached:
      Attach(newRoom);
      JoinedAgree(old@Detached(newRoom.members), before, user, queue);
    }

    /** The effect of one sender command `msg` between the state before it
        and now: the room afterwards, the reply sent and whether the loop
        ends are those of `SenderStep`; the registry is kept; SENDALL in a
        room puts into each known queue one delivery per member of that room
        holding the queue (`Fanout` of the post, counted over the membership
        snapshot `start`, which stands for the registry apart from this
        session's user), and every other command leaves every queue as it
        was. */
    twostate predicate CommandDone(msg: Message, quit: bool, start: map<string, map<User, MessageQueue>>)
      reads this, conn, server, server.rooms.Values, server.queues
    {
      var step := SenderStep(old(CurrentRoom()), msg);
      && quit == step.quit && CurrentRoom() == step.next
      && conn.State() == SendOn(old(conn.State()), step.reply).sock
      && RegistryKept() && MembersApart(start)
      && Delivered(start, step.posts)
    }

    /** The known queues are the same, and each received, after what it
        held, the deliveries `Fanout` counts for the broadcasts `posts` over
        the snapshot `start`. */
    twostate predicate Delivered(start: map<string, map<User, MessageQueue>>, posts: seq<Post>)
      reads this, server, server.queues
    {
      && user != null
      && server.queues == old(server.queues)
      && forall q :: q in old(server.queues) ==>
           q.messages == old(q.messages) + Fanout(posts, user.username, Counts(start, q, user), q == queue)
    }

    /** Every known queue holds its contents in `base` followed by the
        deliveries of the broadcasts `posts`. */
    ghost predicate Holding(start: map<string, map<User, MessageQueue>>, base: map<MessageQueue, seq<Message>>,
                            posts: seq<Post>)
      reads this, server, server.queues
    {
      && user != null
      && forall q :: q in server.queues ==>
           q in base && q.messages == base[q] + Fanout(posts, user.username, Counts(start, q, user), q == queue)
    }

    /** The membership snapshot `start` is the registry's, this session's
        user aside: each of its rooms is registered, and each registered
        room has its members, or none for a room it lacks. */
    ghost predicate MembersApart(start: map<string, map<User, MessageQueue>>)
      reads this, server, server.rooms.Values
    {
      && start.Keys <= server.rooms.Keys
      && forall n :: n in server.rooms ==> server.rooms[n].members - {user} == MembersOf(start, n) - {user}
    }

    /** A step that kept the registry keeps the snapshot the registry's. */
    twostate lemma ApartKept(start: map<string, map<User, MessageQueue>>)
      requires user == old(user) && old(MembersApart(start)) && RegistryKept()
      ensures MembersApart(start)
    {
      forall n | n in server.rooms && n !in old(server.rooms)
        ensures server.rooms[n].members - {user} == MembersOf(start, n) - {user}
      {
        assert server.rooms[n].members - {user} == map[];
      }
    }

    /** A registry that grew by fresh rooms only, with the snapshot the
        registry's before and after, was kept. */
    twostate lemma KeptApart(start: map<string, map<User, MessageQueue>>)
      requires user == old(user) && old(MembersApart(start)) && MembersApart(start)
      requires Grows(old(server.rooms), server.rooms) && server.queues == old(server.queues)
      requires forall n :: n in server.rooms && n !in old(server.rooms) ==> fresh(server.rooms[n])
      ensures RegistryKept()
    {
      forall n | n in server.rooms && n !in old(server.rooms)
        ensures server.rooms[n].members.Keys <= {user}
      {
        assert n !in start;
        forall v | v in server.rooms[n].members ensures v == user {
          assert v !in server.rooms[n].members - {user};
        }
      }
    }

    /** The broadcast of a SENDALL in a room: each known queue receives one
        delivery per member of the room holding it (`Fanout` of the post),
        so the sender's own queue gets exactly one; membership is untouched. */
    method Publish(text: string, ghost start: map<string, map<User, MessageQueue>>)
      requires InSession() && room != null && MembersApart(start)
      modifies server.queues
      ensures InSession() && RegistryKept() && MembersApart(start)
      ensures forall q :: q in server.queues ==>
                q.messages == old(q.messages) + Fanout([Post(room.name, text)], user.username, Counts(start, q, user), q == queue)
      ensures queue.messages == old(queue.messages) + [Delivery(room.name, user.username, text)]
    {
      assert Holders(room.members, queue, room.members.Keys) == {user};
      assert room.members.Values <= server.queues by {
        assert room == server.rooms[room.name];
      }
      assert room.members - {user} == MembersOf(start, room.name) - {user} by {
        assert room == server.rooms[room.name];
      }
      ghost var d := Delivery(room.name, user.username, text);
      assert |{user}| == 1 && Copies(d, 1) == [d];
      room.Broadcast(user.username, text);
      forall q | q in server.queues
        ensures q.messages == old(q.messages) + Fanout([Post(room.name, text)], user.username, Counts(start, q, user), q == queue)
      {
        PostFanout(room.members, start, user, queue, q, room.name, user.username, text);
      }
    }

    /** SENDALL: in a room, a broadcast to every member, the sender
        included, and OK; outside a room, ERR and no queue touched. */
    method SendAll(msg: Message, ghost start: map<string, map<User, MessageQueue>>)
      requires InSession() && msg.tag == TagSendall && MembersApart(start)
      modifies conn, server.queues
      ensures InSession() && CommandDone(msg, false, start)
      ensures room != null ==>
                queue.messages == old(queue.messages) + [Delivery(room.name, user.username, msg.data)]
    {
      if room != null {
        Publish(msg.data, start);
        label Published:
        var _ := conn.Send(Message(TagOk, "message sent"));
        assert unchanged@Published(this, server, server.rooms.Values, server.queues);
      } else {
        var _ := conn.Send(Message(TagErr, "not in a room"));
        assert unchanged(this, server, server.rooms.Values, server.queues);
      }
    }

    /** JOIN from a sender: join the named room and say so, with the name
        the room reports for itself. */
    method Join(msg: Message, ghost start: map<string, map<User, MessageQueue>>)
      requires InSession() && msg.tag == TagJoin && MembersApart(start)
      modifies this, conn, server, server.rooms.Values
      ensures InSession() && user == old(user) && queue == old(queue) && CommandDone(msg, false, start)
    {
      JoinRoom(msg.data);
      ApartKept(start);
      label Joined:
      var _ := conn.Send(Message(TagOk, "joined room " + room.GetRoomName()));
      assert unchanged@Joined(this, server, server.rooms.Values, server.queues);
    }

    /** LEAVE: in a room, leave it and say which; otherwise ERR. */
    method Leave(msg: Message, ghost start: map<string, map<User, MessageQueue>>)
      requires InSession() && msg.tag == TagLeave && MembersApart(start)
      modifies this, conn, room
      ensures InSession() && user == old(user) && queue == old(queue) && CommandDone(msg, false, start)
    {
      if room != null {
        var left := room;
        Detach();
        label Left:
        var _ := conn.Send(Message(TagOk, "left room " + left.GetRoomName()));
        assert unchanged@Left(this, server, server.rooms.Values, server.queues);
      } else {
        var _ := conn.Send(Message(TagErr, "not in a room"));
        assert unchanged(this, server, server.rooms.Values, server.queues);
      }
    }

    /** QUIT says goodbye and ends the loop; any other tag is refused. */
    method Answer(msg: Message, ghost start: map<string, map<User, MessageQueue>>) returns (quit: bool)
      requires InSession() && msg.tag !in {TagSendall, TagJoin, TagLeave} && MembersApart(start)
      modifies conn
      ensures InSession() && CommandDone(msg, quit, start)
    {
      if msg.tag == TagQuit {
        var _ := conn.Send(Message(TagOk, "bye!"));
        assert unchanged(this, server, server.rooms.Values, server.queues);
        quit := true;
      } else {
        var _ := conn.Send(Message(TagErr, "invalid command"));
        assert unchanged(this, server, server.rooms.Values, server.queues);
        quit := false;
      }
    }

    /** One command of a sender, dispatched on its tag. Each known queue,
        which held `base` followed by the deliveries of the earlier
        broadcasts `sofar`, also holds those of the command's own. */
    method SenderCommand(msg: Message, ghost start: map<string, map<User, MessageQueue>>,
                         ghost base: map<MessageQueue, seq<Message>>, ghost sofar: seq<Post>)
      returns (quit: bool)
      requires InSession() && MembersApart(start) && Holding(start, base, sofar)
      modifies this, conn, server, server.rooms.Values, server.queues
      ensures InSession() && user == old(user) && queue == old(queue)
      ensures CommandDone(msg, quit, start)
      ensures Holding(start, base, sofar + SenderStep(old(CurrentRoom()), msg).posts)
    {
      ghost var posted := SenderStep(CurrentRoom(), msg).posts;
      if msg.tag == TagSendall {
        SendAll(msg, start);
        quit := false;
      } else if msg.tag == TagJoin {
        Join(msg, start);
        quit := false;
      } else if msg.tag == TagLeave {
        Leave(msg, start);
        quit := false;
      } else {
        quit := Answer(msg, start);
      }
      forall q | q in server.queues
        ensures q in base && q.messages == base[q] + Fanout(sofar + posted, user.username, Counts(start, q, user), q == queue)
      {
        HeldAfter(base[q], old(q.messages), q.messages, sofar, posted, user.username, Counts(start, q, user), q == queue);
      }
    }
  
    /** One round of the sender loop: receive a command and, if that
        succeeded, act on it and reply. `done` tells whether the loop ends
        here; the sender run from the state before the round is the one from
        the state after it, or ends here, and `posted` is what the round
        broadcast. Each known queue, which held its contents in `base`
        followed by the deliveries of the earlier broadcasts `sofar`, now
        holds those of `sofar + posted` too, as `Fanout` counts them over the
        snapshot `start`. */
    method SenderRound(ghost start: map<string, map<User, MessageQueue>>,
                       ghost base: map<MessageQueue, seq<Message>>, ghost sofar: seq<Post>)
      returns (done: bool, ghost posted: seq<Post>)
      requires InSession() && MembersApart(start)
      requires Holding(start, base, sofar)
      modifies this, conn, server, server.rooms.Values, server.queues
      ensures InSession() && user == old(user) && queue == old(queue)
      ensures RegistryKept() && MembersApart(start)
      ensures var run := SenderRun(old(CurrentRoom()), old(conn.State()));
              if done then run.sock == conn.State() && run.room == CurrentRoom() && run.posts == posted
              else run.sock == SenderRun(CurrentRoom(), conn.State()).sock
                   && run.room == SenderRun(CurrentRoom(), conn.State()).room
                   && run.posts == posted + SenderRun(CurrentRoom(), conn.State()).posts
                   && |conn.input| < old(|conn.input|)
      ensures Holding(start, base, sofar + posted)
    {
      var ok, msg := conn.Receive(EmptyMessage);
      assert unchanged(this, server, server.rooms.Values, server.queues);
      if !ok {
        done, posted := true, [];
        assert sofar + posted == sofar;
      } else {
        posted := SenderStep(CurrentRoom(), msg).posts;
        done := SenderCommand(msg, start, base, sofar);
      }
    }

    /** The sender loop: receive a command, act on it and reply, until a
        receive fails or QUIT has been answered. The socket and the room
        afterwards are those of `SenderRun`; the registry only grows, by
        fresh rooms, and its membership apart from this session's user is
        still that of the snapshot `start`; each known queue receives, after
        what it held, the deliveries `Fanout` makes of the run's broadcasts,
        counted over `start`. */
    method ChatWithSender(ghost start: map<string, map<User, MessageQueue>>)
      requires InSession() && MembersApart(start)
      modifies this, conn, server, server.rooms.Values, server.queues
      ensures InSession() && user == old(user) && queue == old(queue)
      ensures var run := SenderRun(old(CurrentRoom()), old(conn.State()));
              conn.State() == run.sock && CurrentRoom() == run.room
      ensures Grows(old(server.rooms), server.rooms) && server.queues == old(server.queues)
      ensures forall n :: n in server.rooms && n !in old(server.rooms) ==> fresh(server.rooms[n])
      ensures MembersApart(start)
      ensures var run := SenderRun(old(CurrentRoom()), old(conn.State()));
              forall q :: q in server.queues ==>
                q.messages == old(q.messages) + Fanout(run.posts, user.username, Counts(start, q, user), q == queue)
    {
      ghost var run := SenderRun(CurrentRoom(), conn.State());
      ghost var base := map q | q in server.queues :: q.messages;
      ghost var posts: seq<Post> := [];
      while true
        invariant InSession() && user == old(user) && queue == old(queue)
        invariant SenderRun(CurrentRoom(), conn.State()).sock == run.sock
        invariant SenderRun(CurrentRoom(), conn.State()).room == run.room
        invariant run.posts == posts + SenderRun(CurrentRoom(), conn.State()).posts
        invariant MembersApart(start) && Grows(old(server.rooms), server.rooms)
        invariant server.queues == old(server.queues)
        invariant forall n :: n in server.rooms && n !in old(server.rooms) ==> fresh(server.rooms[n])
        invariant Holding(start, base, posts)
        decreases |conn.input|
      {
        ghost var before := server.rooms;
        var done, posted := SenderRound(start, base, posts);
        GrowsTwice(old(server.rooms), before, server.rooms);
        if done {
          return;
        }
        Appended(posts, posted, SenderRun(CurrentRoom(), conn.State()).posts, posts + posted,
                 (posts + posted) + SenderRun(CurrentRoom(), conn.State()).posts);
        posts := posts + posted;
      }
    }

    /** The receiver's forwarding loop: take the next queued message and
        send it, stopping after the first send that fails. Where the loop
        would wait for more (the semaphore times out), this model stops:
        the queue is idle. The queue loses exactly the messages `Forward`
        takes, head first. */
    method ForwardQueued()
      requires queue != null && queue.Valid()
      modifies conn, queue
      ensures queue.Valid()
      ensures var f := Forward(old(conn.State()), old(queue.messages));
              conn.State() == f.sock && queue.messages == old(queue.messages)[f.taken..]
    {
      while true
        invariant queue.Valid()
        invariant |queue.messages| <= |old(queue.messages)|
        invariant queue.messages == old(queue.messages)[|old(queue.messages)| - |queue.messages|..]
        invariant var f := Forward(conn.State(), queue.messages);
                  var f0 := Forward(old(conn.State()), old(queue.messages));
                  f0.sock == f.sock && f0.taken == |old(queue.messages)| - |queue.messages| + f.taken
        decreases |queue.messages|
      {
        var next := queue.Dequeue();
        if next.None? {
          return;
        }
        var ok := conn.Send(next.value);
        if !ok {
          return;
        }
      }
    }

    /** The answer to the receiver's first message: a JOIN puts the session
        in that room and is answered "welcome"; a failed receive or any other
        tag is refused with an error. */
    method AnswerJoinWith(ok: bool, joinMsg: Message) returns (joined: bool)
      requires InSession()
      modifies this, conn, server, server.rooms.Values
      ensures InSession() && user == old(user) && queue == old(queue)
      ensures RegistryKept()
      ensures var j := AnswerJoin(Received(ok, joinMsg, old(conn.State())));
              joined == j.room.Some? && conn.State() == j.sock
              && (if joined then CurrentRoom() == j.room else room == old(room))
    {
      if !ok {
        var _ := conn.Send(Message(TagErr, "invalid message"));
        return false;
      }
      if joinMsg.tag != TagJoin {
        var _ := conn.Send(Message(TagErr, "Expected JOIN"));
        return false;
      }
      JoinRoom(joinMsg.data);
      var _ := conn.Send(Message(TagOk, "welcome"));
      joined := true;
    }

    /** The receiver's mandatory JOIN: receive the first message after
        login and answer it. */
    method AwaitJoin() returns (joined: bool)
      requires InSession()
      modifies this, conn, server, server.rooms.Values
      ensures InSession() && user == old(user) && queue == old(queue)
      ensures RegistryKept()
      ensures var j := ReceiverJoin(old(conn.State()));
              joined == j.room.Some? && conn.State() == j.sock
              && (if joined then CurrentRoom() == j.room else room == old(room))
    {
      var ok, joinMsg := conn.Receive(EmptyMessage);
      assert unchanged(this, server, server.rooms.Values, server.queues);
      joined := AnswerJoinWith(ok, joinMsg);
    }

    /** The receiver after login: the mandatory JOIN, then, once in the
        room, forwarding of the queued messages. */
    method ChatWithReceiver()
      requires InSession() && queue.Valid()
      modifies this, conn, server, server.rooms.Values, queue
      ensures InSession() && user == old(user) && queue == old(queue) && queue.Valid()
      ensures RegistryKept()
      ensures var j := ReceiverJoin(old(conn.State()));
              if j.room.None? then conn.State() == j.sock && room == old(room) && queue.messages == old(queue.messages)
              else var f := Forward(j.sock, old(queue.messages));
                   CurrentRoom() == j.room && conn.State() == f.sock
                   && queue.messages == old(queue.messages)[f.taken..]
    {
      var joined := AwaitJoin();
      if joined {
        label Joined:
        ForwardQueued();
        assert unchanged@Joined(this, server, server.rooms.Values);
      }
    }
  
    /** The cleanup every session ends with: the user leaves the room it is
        in, if any, the queue's remaining messages are discarded and the
        connection is closed. The client record is released, which the
        model shows as no longer being in a room. */
    method Cleanup()
      requires user == null ==> room == null && queue == null
      requires user != null ==> InSession()
      requires server.Valid()
      modifies this, conn, room, queue
      ensures user == old(user) && queue == old(queue) && room == null && server.Valid()
      ensures user != null ==> InSession()
      ensures queue != null ==> queue.messages == []
      ensures conn.State() == CloseOn(old(conn.State()))
      ensures server.rooms == old(server.rooms)
      ensures user == null ==> forall n :: n in server.rooms ==> server.rooms[n].members == old(server.rooms[n].members)
      ensures user != null ==> forall n :: n in server.rooms ==>
                server.rooms[n].members == old(server.rooms[n].members) - {user}
    {
      if room != null {
        room.RemoveMember(user);
        room := null;
      }
      if queue != null {
        queue.Discard();
      }
      conn.Close();
    }

    /** The user and its queue are created and the queue registered; the
        session is in no room yet. */
    method Register(name: string)
      requires user == null && queue == null && room == null && server.Valid()
      modifies this, server`queues
      ensures InSession() && room == null && fresh(user) && fresh(queue) && user.username == name
      ensures queue.messages == [] && queue.Valid()
      ensures server.queues == old(server.queues) + {queue}
    {
      user := new User(name);
      queue := new MessageQueue();
      room := null;
      server.queues := server.queues + {queue};
    }

    /** What a logged-in session leaves behind, from the state before it:
        the user and queue are new and the user is named `name`; the socket
        is where `LoggedInRun` leaves it; the new queue is known; the
        registry kept every room and gained only fresh ones; the old rooms'
        members, the user aside, are what they were, and the new rooms hold
        the user at most; every queue known before received the deliveries
        `Fanout` makes of the session's broadcasts (none, for a receiver),
        counted over the rooms' membership before the session. */
    twostate predicate Started(asSender: bool, name: string)
      reads this, conn, server, server.rooms.Values, server.queues
    {
      && InSession() && fresh(user) && fresh(queue) && user.username == name
      && conn.State() == LoggedInRun(asSender, name, old(conn.State())).sock
      && server.queues == old(server.queues) + {queue}
      && Grows(old(server.rooms), server.rooms)
      && (forall n :: n in server.rooms && n !in old(server.rooms) ==> fresh(server.rooms[n]))
      && (forall n :: n in old(server.rooms) ==> server.rooms[n].members - {user} == old(server.rooms[n].members))
      && (forall n :: n in server.rooms && n !in old(server.rooms) ==> server.rooms[n].members.Keys <= {user})
      && (forall q :: q in old(server.queues) ==>
            q.messages == old(q.messages) + Fanout(LoggedInRun(asSender, name, old(conn.State())).posts, name,
                                                   Counts(old(server.Membership()), q, user), false))
    }

    /** A logged-in session: register, acknowledge the login and run the
        sender or receiver loop. */
    method Start(asSender: bool, name: string)
      requires user == null && queue == null && room == null && server.Valid()
      modifies this, conn, server, server.rooms.Values, server.queues
      ensures Started(asSender, name)
    {
      if asSender {
        StartSender(name);
      } else {
        StartReceiver(name);
      }
    }

    /** The sender branch of a login: register, acknowledge, run the sender
        loop. The registry's membership apart from the user stays that of
        the snapshot taken before, which gives the registry clauses. */
    method StartSender(name: string)
      requires user == null && queue == null && room == null && server.Valid()
      modifies this, conn, server, server.rooms.Values, server.queues
      ensures Started(true, name)
    {
      ghost var start := server.Membership();
      Register(name);
      assert forall n :: n in old(server.rooms) ==> user !in old(server.rooms[n].members);
      var _ := conn.Send(LoginReply(name));
      label Ready:
      assert unchanged(server.rooms.Values) && server.rooms == old(server.rooms);
      assert unchanged(old(server.queues));
      ChatWithSender(start);
      forall q | q in old(server.queues)
        ensures q.messages == old(q.messages) + Fanout(LoggedInRun(true, name, old(conn.State())).posts, name,
                                                       Counts(start, q, user), false)
      {
        assert q in server.queues && q != queue;
      }
      KeptApart@Ready(start);
      forall n | n in old(server.rooms) ensures server.rooms[n].members - {user} == old(server.rooms[n].members) {
        AgreesWithout(server.rooms[n].members, old(server.rooms[n].members), user);
      }
    }

    /** The receiver branch of a login: register, acknowledge, run the
        receiver; it broadcasts nothing and writes only its own queue. */
    method StartReceiver(name: string)
      requires user == null && queue == null && room == null && server.Valid()
      modifies this, conn, server, server.rooms.Values, server.queues
      ensures Started(false, name)
    {
      Register(name);
      assert forall n :: n in old(server.rooms) ==> user !in old(server.rooms[n].members);
      var _ := conn.Send(LoginReply(name));
      label Ready:
      assert unchanged(server.rooms.Values) && server.rooms == old(server.rooms);
      assert unchanged(old(server.queues));
      ChatWithReceiver();
      forall q | q in old(server.queues)
        ensures q.messages == old(q.messages) + Fanout(LoggedInRun(false, name, old(conn.State())).posts, name,
                                                       Counts(old(server.Membership()), q, user), false)
      {
        assert q != queue && LoggedInRun(false, name, old(conn.State())).posts == [];
      }
      assert RegistryKept@Ready();
      forall n | n in old(server.rooms) ensures server.rooms[n].members - {user} == old(server.rooms[n].members) {
        AgreesWithout(server.rooms[n].members, old(server.rooms[n].members), user);
      }
    }

    /** What a session with outcome `out` leaves behind, before the
        cleanup, given the registry's rooms `rooms0`, their members
        `members0`, the known queues `queues0` and their contents `held0`
        before it: the socket is `out`'s and a user is logged in exactly
        when `out` names one. With nobody logged in, no room and no queue
        changed. With a user logged in, the user is in no room it was not
        in before and its queue is new and known; the registry kept every
        room and gained only new ones; the old rooms' members, the user
        aside, are what they were, and the new rooms hold the user at most;
        every queue known before received the deliveries `Fanout` makes of
        `out`'s broadcasts, counted over `members0`. */
    ghost predicate Ended(out: Outcome, rooms0: map<string, Room>, members0: map<string, map<User, MessageQueue>>,
                          queues0: set<MessageQueue>, held0: map<MessageQueue, seq<Message>>)
      reads this, conn, server, server.rooms.Values, server.queues
    {
      && server.Valid()
      && conn.State() == out.sock
      && (user == null <==> out.username.None?)
      && (user == null ==>
            room == null && queue == null
            && server.rooms == rooms0 && server.Membership() == members0
            && server.queues == queues0 && Contents(server.queues) == held0)
      && (user != null ==>
            && user.username == out.username.value
            && InSession() && queue !in queues0
            && server.queues == queues0 + {queue}
            && Grows(rooms0, server.rooms)
            && (forall n :: n in server.rooms && n !in rooms0 ==> server.rooms[n] !in rooms0.Values)
            && (forall n :: n in rooms0 ==> server.rooms[n].members - {user} == MembersOf(members0, n))
            && (forall n :: n in server.rooms && n !in rooms0 ==> server.rooms[n].members.Keys <= {user})
            && (forall q :: q in queues0 ==>
                  q in held0 && q.messages == held0[q] + Fanout(out.posts, user.username, Counts(members0, q, user), false)))
    }

    /** Login and the session proper, up to the cleanup: a failed receive
        ends it at once; otherwise the login message decides the rest. */
    method Serve()
      requires user == null && queue == null && room == null && server.Valid()
      modifies this, conn, server, server.rooms.Values, server.queues
      ensures user != null ==> fresh(user) && fresh(queue)
      ensures Ended(Session(old(conn.State())), old(server.rooms), old(server.Membership()), old(server.queues),
                    old(Contents(server.queues)))
    {
      var ok, loginMsg := conn.Receive(EmptyMessage);
      assert unchanged(this, server, server.rooms.Values, server.queues);
      assert server.Membership() == old(server.Membership());
      assert Contents(server.queues) == old(Contents(server.queues));
      if !ok {
        return;
      }
      Login(loginMsg);
    }

    /** A received login message: a bad tag or an empty name is answered
        with its error and ends the session; otherwise the session starts
        under the given name, as a sender or a receiver. */
    method Login(m: Message)
      requires user == null && queue == null && room == null && server.Valid()
      modifies this, conn, server, server.rooms.Values, server.queues
      ensures user != null ==> fresh(user) && fresh(queue)
      ensures Ended(Admit(Received(true, m, old(conn.State()))), old(server.rooms), old(server.Membership()),
                    old(server.queues), old(Contents(server.queues)))
    {
      var login := CheckLogin(m);
      if login.Refused? {
        var _ := conn.Send(login.reply);
        assert unchanged(this, server, server.rooms.Values, server.queues);
        return;
      }
      Start(login.asSender, login.username);
    }

    /** One client's thread: serve the session, then clean up. The
        connection ends closed; a logged-in user is left in no room with an
        empty queue; the registry kept every room, every room that existed
        before has exactly the members it had, and every room the session
        created is left empty. Every queue known before the session receives
        the deliveries of its broadcasts, counted over the rooms' members as
        they were when it began. */
    method Worker()
      requires user == null && queue == null && room == null && server.Valid()
      modifies this, conn, server, server.rooms.Values, server.queues
      ensures var out := Session(old(conn.State()));
              conn.State() == CloseOn(out.sock)
              && (user == null <==> out.username.None?)
              && (user != null ==> user.username == out.username.value)
      ensures !IsOpen(conn.State())
      ensures user != null ==>
                queue != null && queue.messages == []
                && forall n :: n in server.rooms ==> user !in server.rooms[n].members
      ensures server.Valid() && Grows(old(server.rooms), server.rooms)
      ensures forall n :: n in old(server.rooms) ==>
                n in server.rooms && server.rooms[n].members == old(server.rooms[n].members)
      ensures forall n :: n in server.rooms && n !in old(server.rooms) ==> server.rooms[n].members == map[]
      ensures forall q :: q in old(server.queues) ==>
                if user == null then q.messages == old(q.messages)
                else q.messages == old(q.messages) + Fanout(Session(old(conn.State())).posts, user.username,
                                                            Counts(old(server.Membership()), q, user), false)
    {
      ghost var members0 := server.Membership();
      ghost var held0 := Contents(server.queues);
      Serve();
      Cleanup();
      forall n | n in old(server.rooms)
        ensures n in server.rooms && server.rooms[n].members == old(server.rooms[n].members)
      {
        assert old(server.rooms[n].members) == members0[n];
      }
      forall q | q in old(server.queues)
        ensures if user == null then q.messages == old(q.messages)
                else q.messages == old(q.messages) + Fanout(Session(old(conn.State())).posts, user.username,
                                                            Counts(members0, q, user), false)
      {
        assert old(q.messages) == held0[q];
      }
    }
  }
}
