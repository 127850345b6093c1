/** The receiver client: log in as a receiver, join one room, then print
    every delivery as `sender: text` until the connection ends. Standard
    output and standard error are the sequences of lines written there. */
module ReceiverClient {
  import opened Messages
  import opened Framing
  import opened Rooms

  /** The sender and the text of a DELIVERY payload `room:sender:text`,
      split at its first two colons; None when it has fewer than two. */
  function SplitPayload(payload: string): (r: Option<(string, string)>)
    ensures r.None? <==> !exists i, j :: 0 <= i < j < |payload| && payload[i] == ':' && payload[j] == ':'
    ensures r.Some? ==> exists roomName ::
              ':' !in roomName && ':' !in r.value.0 && payload == roomName + ":" + r.value.0 + ":" + r.value.1
  {
    match FindFrom(payload, ':', 0)
    case None => None
    case Some(pos1) =>
      match FindFrom(payload, ':', pos1 + 1)
      case None =>
        assert !exists i, j :: 0 <= i < j < |payload| && payload[i] == ':' && payload[j] == ':' by {
          forall i, j | 0 <= i < j < |payload| && payload[i] == ':'
            ensures payload[j] != ':'
          {
            assert i >= pos1;
            assert payload[pos1 + 1..][j - pos1 - 1] == payload[j];
          }
        }
        None
      case Some(pos2) =>
        var roomName := payload[..pos1];
        var sender := payload[pos1 + 1..pos2];
        assert payload == roomName + ":" + sender + ":" + payload[pos2 + 1..];
        assert payload[pos1] == ':' && payload[pos2] == ':';
        Some((sender, payload[pos2 + 1..]))
  }

  /** The payload of a broadcast splits back into its sender and text, as
      long as neither the room name nor the sender has a colon; the text
      may. */
  lemma PayloadRoundTrip(roomName: string, sender: string, text: string)
    requires ':' !in roomName && ':' !in sender
    ensures SplitPayload(Payload(roomName, sender, text)) == Some((sender, text))
  {
    var p := Payload(roomName, sender, text);
    var r := SplitPayload(p);
    assert p[|roomName|] == ':' && p[|roomName| + 1 + |sender|] == ':';
    var other :| ':' !in other && ':' !in r.value.0 && p == other + ":" + r.value.0 + ":" + r.value.1;
    SplitUnique(roomName, sender, text, other, r.value.0, r.value.1);
  }

  /** Splitting at the first two colons is unique. */
  lemma SplitUnique(a1: string, b1: string, c1: string, a2: string, b2: string, c2: string)
    requires ':' !in a1 && ':' !in b1 && ':' !in a2 && ':' !in b2
    requires a1 + ":" + b1 + ":" + c1 == a2 + ":" + b2 + ":" + c2
    ensures b1 == b2 && c1 == c2
  {
    assert a1 + ":" + b1 + ":" + c1 == a1 + ":" + (b1 + ":" + c1);
    assert a2 + ":" + b2 + ":" + c2 == a2 + ":" + (b2 + ":" + c2);
    ColonSplitUnique(a1, b1 + ":" + c1, a2, b2 + ":" + c2);
    ColonSplitUnique(b1, c1, b2, c2);
  }

  /** A delivery from a room and a sender without colons prints as
      `sender: text`. */
  lemma ShownDelivery(roomName: string, sender: string, text: string)
    requires ':' !in roomName && ':' !in sender
    ensures Shown(Delivery(roomName, sender, text)) == [sender + ": " + text]
  {
    PayloadRoundTrip(roomName, sender, text);
  }

  /** How the client ends: its exit status, the lines it wrote to standard
      output and standard error, and its socket. */
  datatype Ending = Ending(code: int, printed: seq<string>, errors: seq<string>, sock: Socket)

  /** What one received message prints: a well-formed delivery prints
      `sender: text`; anything else prints nothing. */
  function Shown(m: Message): seq<string> {
    if m.tag != TagDelivery then []
    else match SplitPayload(m.data)
      case None => []
      case Some((sender, text)) => [sender + ": " + text]
  }

  /** What the receive loop printed, and the socket afterwards. */
  datatype Printed = Printed(lines: seq<string>, sock: Socket)

  /** The receive loop: it runs until a receive fails. */
  function ReceiveLoop(reply: Message, s: Socket): Printed
    decreases |s.input|
  {
    var got := ReceiveOn(s, reply);
    if !got.ok then Printed([], got.sock)
    else
      var rest := ReceiveLoop(got.msg, got.sock);
      Printed(Shown(got.msg) + rest.lines, rest.sock)
  }

  /** What a run of received messages prints, in order. */
  function ShownAll(ms: seq<Message>): seq<string> {
    if ms == [] then [] else Shown(ms[0]) + ShownAll(ms[1..])
  }

  /** A receiver whose stream holds exactly the frames of `ms` prints what
      those messages show, in the order they were sent, and then stops. */
  lemma {:induction false} ReceiveLoopFrames(reply: Message, s: Socket, ms: seq<Message>)
    requires IsOpen(s) && s.input == Frames(ms)
    requires forall i :: 0 <= i < |ms| ==> Framable(ms[i])
    ensures ReceiveLoop(reply, s).lines == ShownAll(ms)
    decreases |ms|
  {
    if ms == [] {
      assert !ReceiveOn(s, reply).ok;
    } else {
      FramesCons(ms[0], ms[1..]);
      assert ms == [ms[0]] + ms[1..];
      FrameRoundTrip(s, ms[0], Frames(ms[1..]), reply);
      assert forall i :: 0 <= i < |ms[1..]| ==> Framable(ms[1..][i]) by {
        forall i | 0 <= i < |ms[1..]| ensures Framable(ms[1..][i]) {
          assert ms[1..][i] == ms[i + 1];
        }
      }
      ReceiveLoopFrames(ms[0], s.(status := Success, input := Frames(ms[1..])), ms[1..]);
    }
  }

  /** The whole client on socket `s`: RLOGIN and its reply, JOIN and its
      reply, then the receive loop, after which it exits with status 0. */
  function ReceiverClientRun(s: Socket, username: string, roomName: string): Ending {
    var sent := SendOn(s, Message(TagRlogin, username));
    if !sent.ok then Ending(1, [], ["Error: failed to send rlogin message."], sent.sock)
    else
      var got := ReceiveOn(sent.sock, EmptyMessage);
      if !got.ok then Ending(1, [], ["Error: failed to receive reply from server."], got.sock)
      else if got.msg.tag == TagErr then Ending(1, [], [got.msg.data], got.sock)
      else
        var joined := SendOn(got.sock, Message(TagJoin, roomName));
        if !joined.ok then Ending(1, [], ["Error: failed to send join message."], joined.sock)
        else
          var welcome := ReceiveOn(joined.sock, got.msg);
          if !welcome.ok then Ending(1, [], ["Error: failed to receive join reply."], welcome.sock)
          else if welcome.msg.tag == TagErr then Ending(1, [], [welcome.msg.data], welcome.sock)
          else
            var loop := ReceiveLoop(welcome.msg, welcome.sock);
            Ending(0, loop.lines, [], loop.sock)
  }

  /** The receive loop of `main`. */
  method PrintDeliveries(conn: Connection, reply0: Message) returns (printed: seq<string>)
    modifies conn
    ensures var loop := ReceiveLoop(reply0, old(conn.State()));
            printed == loop.lines && conn.State() == loop.sock
  {
    ghost var whole := ReceiveLoop(reply0, conn.State());
    var reply := reply0;
    printed := [];
    while true
      invariant var loop := ReceiveLoop(reply, conn.State());
                whole == Printed(printed + loop.lines, loop.sock)
      decreases |conn.input|
    {
      ghost var before, prev := conn.State(), reply;
      var ok: bool;
      ok, reply := conn.Receive(reply);
      if !ok {
        return;
      }
      ghost var rest := ReceiveLoop(reply, conn.State());
      assert ReceiveLoop(prev, before) == Printed(Shown(reply) + rest.lines, rest.sock);
      Appended(printed, Shown(reply), rest.lines, printed + Shown(reply), (printed + Shown(reply)) + rest.lines);
      ghost var shownBefore := printed;
      if reply.tag == TagDelivery {
        var split := SplitPayload(reply.data);
        if split.Some? {
          printed := printed + [split.value.0 + ": " + split.value.1];
        }
      }
      assert printed == shownBefore + Shown(reply);
    }
  }

  /** The client's `main` after `connect`: returns the exit status and
      what it printed. */
  method ReceiverMain(conn: Connection, username: string, roomName: string)
    returns (code: int, printed: seq<string>, errors: seq<string>)
    modifies conn
    ensures var e := ReceiverClientRun(old(conn.State()), username, roomName);
            code == e.code && printed == e.printed && errors == e.errors && conn.State() == e.sock
  {
    var ok := conn.Send(Message(TagRlogin, username));
    if !ok {
      return 1, [], ["Error: failed to send rlogin message."];
    }
    var reply: Message;
    ok, reply := conn.Receive(EmptyMessage);
    if !ok {
      return 1, [], ["Error: failed to receive reply from server."];
    }
    if reply.tag == TagErr {
      return 1, [], [reply.data];
    }
    ok := conn.Send(Message(TagJoin, roomName));
    if !ok {
      return 1, [], ["Error: failed to send join message."];
    }
    ok, reply := conn.Receive(reply);
    if !ok {
      return 1, [], ["Error: failed to receive join reply."];
    }
    if reply.tag == TagErr {
      return 1, [], [reply.data];
    }
    printed := PrintDeliveries(conn, reply);
    code, errors := 0, [];
  }
}
