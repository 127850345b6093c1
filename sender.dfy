/** The sender client: log in as a sender, then turn each input line into a
    command for the server and wait for its reply. Standard input is the
    sequence of lines `std::getline` yields; standard error is the sequence
    of lines the client writes there. */
module SenderClient {
  import opened Messages
  import opened Framing

  /** Where `operator>>` stops skipping leading whitespace from `i`. */
  function SkipSpaces(s: string, i: nat): (j: nat)
    requires i <= |s|
    ensures i <= j <= |s|
    ensures forall k :: i <= k < j ==> IsSpace(s[k])
    ensures j < |s| ==> !IsSpace(s[j])
    decreases |s| - i
  {
    if i == |s| || !IsSpace(s[i]) then i else SkipSpaces(s, i + 1)
  }

  /** Where a word that starts at `i` ends: the first whitespace or the end. */
  function WordEnd(s: string, i: nat): (j: nat)
    requires i <= |s|
    ensures i <= j <= |s|
    ensures forall k :: i <= k < j ==> !IsSpace(s[k])
    ensures j < |s| ==> IsSpace(s[j])
    decreases |s| - i
  {
    if i == |s| || IsSpace(s[i]) then i else WordEnd(s, i + 1)
  }

  /** `iss >> word` on `s` from position `i`: the next whitespace-delimited
      word and the position after it, or None when only whitespace is left. */
  function NextWord(s: string, i: nat): (r: Option<(string, nat)>)
    requires i <= |s|
    ensures r.None? <==> forall k :: i <= k < |s| ==> IsSpace(s[k])
    ensures r.Some? ==> r.value.0 != [] && i < r.value.1 <= |s|
                        && (forall k :: 0 <= k < |r.value.0| ==> !IsSpace(r.value.0[k]))
                        && (r.value.1 < |s| ==> IsSpace(s[r.value.1]))
                        && SkipSpaces(s, i) < r.value.1 && r.value.0 == s[SkipSpaces(s, i)..r.value.1]
  {
    var j := SkipSpaces(s, i);
    if j == |s| then None else Some((s[j..WordEnd(s, j)], WordEnd(s, j)))
  }

  /** What one input line asks for. */
  datatype Input =
    | Blank                  // an empty line, skipped
    | Outgoing(msg: Message) // a message to send, then wait for the reply
    | QuitCommand            // `/quit`
    | Rejected(text: string) // a usage error, reported and skipped

  /** The classification of one line: a line not starting with '/' is text
      for the room; otherwise its first word is the command, and `/join`
      needs a second word, the room. */
  function ClassifyLine(line: string): (r: Input)
    ensures r.Blank? <==> line == []
    ensures line != [] && line[0] != '/' <==> r == Outgoing(Message(TagSendall, line))
    ensures r.Outgoing? ==> r.msg.tag in {TagSendall, TagJoin, TagLeave}
    ensures r.Outgoing? && r.msg.tag == TagJoin ==>
              r.msg.data != [] && (forall k :: 0 <= k < |r.msg.data| ==> !IsSpace(r.msg.data[k]))
    ensures r.Outgoing? && r.msg.tag == TagLeave ==> r.msg.data == []
  {
    if line == [] then Blank
    else if line[0] != '/' then Outgoing(Message(TagSendall, line))
    else
      var cmd := line[..WordEnd(line, 0)];
      if cmd == "/join" then
        match NextWord(line, WordEnd(line, 0))
        case None => Rejected("Usage: /join [room_name]")
        case Some((room, _)) => Outgoing(Message(TagJoin, room))
      else if cmd == "/leave" then Outgoing(Message(TagLeave, ""))
      else if cmd == "/quit" then QuitCommand
      else Rejected("Unknown command: " + cmd)
  }

  /** `/join`, some whitespace and a room name, with nothing or whitespace
      after it, asks to join that room. */
  lemma JoinLine(gap: string, room: string, tail: string)
    requires gap != [] && forall k :: 0 <= k < |gap| ==> IsSpace(gap[k])
    requires room != [] && forall k :: 0 <= k < |room| ==> !IsSpace(room[k])
    requires tail == [] || IsSpace(tail[0])
    ensures ClassifyLine("/join" + gap + room + tail) == Outgoing(Message(TagJoin, room))
  {
    var line := "/join" + gap + room + tail;
    assert line[0] == '/';
    assert forall k :: 0 <= k < 5 ==> line[k] == "/join"[k];
    WordEndAt(line, 0, 5);
    assert line[..5] == "/join";
    SkipSpacesAt(line, 5, 5 + |gap|);
    WordEndAt(line, 5 + |gap|, 5 + |gap| + |room|);
    assert line[5 + |gap|..5 + |gap| + |room|] == room;
  }

  /** `/join` followed only by whitespace, or by nothing, is a usage error. */
  lemma JoinWithoutRoom(gap: string)
    requires forall k :: 0 <= k < |gap| ==> IsSpace(gap[k])
    ensures ClassifyLine("/join" + gap) == Rejected("Usage: /join [room_name]")
  {
    var line := "/join" + gap;
    assert forall k :: 0 <= k < 5 ==> line[k] == "/join"[k];
    assert forall k :: 5 <= k < |line| ==> line[k] == gap[k - 5];
    WordEndAt(line, 0, 5);
    assert line[..5] == "/join";
  }

  /** A first word that starts with '/' and is none of the three commands
      is reported as unknown, whatever follows it. */
  lemma UnknownCommand(cmd: string, tail: string)
    requires cmd != [] && cmd[0] == '/' && forall k :: 0 <= k < |cmd| ==> !IsSpace(cmd[k])
    requires cmd != "/join" && cmd != "/leave" && cmd != "/quit"
    requires tail == [] || IsSpace(tail[0])
    ensures ClassifyLine(cmd + tail) == Rejected("Unknown command: " + cmd)
  {
    var line := cmd + tail;
    assert forall k :: 0 <= k < |cmd| ==> line[k] == cmd[k];
    WordEndAt(line, 0, |cmd|);
    assert line[..|cmd|] == cmd;
  }

  /** `/leave` with or without more words after it asks to leave: only
      the first word is matched. */
  lemma LeaveLine(tail: string)
    requires tail == [] || IsSpace(tail[0])
    ensures ClassifyLine("/leave" + tail) == Outgoing(Message(TagLeave, ""))
  {
    var line := "/leave" + tail;
    assert forall k :: 0 <= k < 6 ==> line[k] == "/leave"[k];
    WordEndAt(line, 0, 6);
    assert line[..6] == "/leave";
  }

  /** `/quit` with or without more words after it asks to quit. */
  lemma QuitLine(tail: string)
    requires tail == [] || IsSpace(tail[0])
    ensures ClassifyLine("/quit" + tail) == QuitCommand
  {
    var line := "/quit" + tail;
    assert forall k :: 0 <= k < 5 ==> line[k] == "/quit"[k];
    WordEndAt(line, 0, 5);
    assert line[..5] == "/quit";
  }

  /** `WordEnd` is the first whitespace at or after `i`. */
  lemma {:induction false} WordEndAt(s: string, i: nat, j: nat)
    requires i <= j <= |s|
    requires forall k :: i <= k < j ==> !IsSpace(s[k])
    requires j == |s| || IsSpace(s[j])
    ensures WordEnd(s, i) == j
    decreases j - i
  {
    if i < j {
      WordEndAt(s, i + 1, j);
    }
  }

  /** `SkipSpaces` stops at the first non-whitespace at or after `i`. */
  lemma {:induction false} SkipSpacesAt(s: string, i: nat, j: nat)
    requires i <= j <= |s|
    requires forall k :: i <= k < j ==> IsSpace(s[k])
    requires j == |s| || !IsSpace(s[j])
    ensures SkipSpaces(s, i) == j
    decreases j - i
  {
    if i < j {
      SkipSpacesAt(s, i + 1, j);
    }
  }

  /** How the client ends: its exit status, the lines it wrote to standard
      error, and its socket. */
  datatype Ending = Ending(code: int, errors: seq<string>, sock: Socket)

  /** The effect of one input line: the loop goes on with the errors it
      reported, the last reply and the socket, or the client exits. */
  datatype LineOutcome =
    | Continue(errors: seq<string>, reply: Message, sock: Socket)
    | Exit(ending: Ending)

  /** One line of the loop; `reply` is the last reply received, which a
      failed receive leaves in place. */
  function LineStep(line: string, reply: Message, s: Socket): LineOutcome {
    match ClassifyLine(line)
    case Blank => Continue([], reply, s)
    case Rejected(text) => Continue([text], reply, s)
    case QuitCommand =>
      var got := ReceiveOn(SendOn(s, Message(TagQuit, "bye")).sock, reply);
      if got.ok && got.msg.tag == TagOk then Exit(Ending(0, [], got.sock))
      else Exit(Ending(1, [if got.msg.tag == TagErr then got.msg.data else "Unknown error"], got.sock))
    case Outgoing(m) =>
      var sent := SendOn(s, m);
      if !sent.ok then Exit(Ending(1, ["Error: failed to send message."], sent.sock))
      else
        var got := ReceiveOn(sent.sock, reply);
        if !got.ok then Exit(Ending(1, ["Error: failed to receive reply from server."], got.sock))
        else Continue(if got.msg.tag == TagErr then [got.msg.data] else [], got.msg, got.sock)
  }

  /** The command loop over the remaining `lines`; the client exits with
      status 0 when the input runs out. */
  function SenderLoop(lines: seq<string>, reply: Message, s: Socket): Ending
    decreases |lines|
  {
    if lines == [] then Ending(0, [], s)
    else match LineStep(lines[0], reply, s)
      case Exit(e) => e
      case Continue(errs, r, s1) =>
        var rest := SenderLoop(lines[1..], r, s1);
        Ending(rest.code, errs + rest.errors, rest.sock)
  }

  /** A line after which the loop goes on leaves the rest of the loop to
      the remaining lines. */
  lemma LoopContinues(lines: seq<string>, reply: Message, s: Socket, out: LineOutcome)
    requires lines != [] && out == LineStep(lines[0], reply, s) && out.Continue?
    ensures var rest := SenderLoop(lines[1..], out.reply, out.sock);
            SenderLoop(lines, reply, s) == Ending(rest.code, out.errors + rest.errors, rest.sock)
  {
  }

  /** The whole client on socket `s`: SLOGIN, its reply, then the loop. */
  function SenderClientRun(s: Socket, username: string, lines: seq<string>): Ending {
    var sent := SendOn(s, Message(TagSlogin, username));
    if !sent.ok then Ending(1, ["Error: failed to send slogin message."], sent.sock)
    else
      var got := ReceiveOn(sent.sock, EmptyMessage);
      if !got.ok then Ending(1, ["Error: failed to receive reply from server."], got.sock)
      else if got.msg.tag == TagErr then Ending(1, [got.msg.data], got.sock)
      else SenderLoop(lines, got.msg, got.sock)
  }

  /** The client's `main` after `connect`: returns the exit status and the
      lines written to standard error. */
  method SenderMain(conn: Connection, username: string, lines: seq<string>) returns (code: int, errors: seq<string>)
    modifies conn
    ensures var e := SenderClientRun(old(conn.State()), username, lines);
            code == e.code && errors == e.errors && conn.State() == e.sock
  {
    var ok := conn.Send(Message(TagSlogin, username));
    if !ok {
      return 1, ["Error: failed to send slogin message."];
    }
    var reply: Message;
    ok, reply := conn.Receive(EmptyMessage);
    if !ok {
      return 1, ["Error: failed to receive reply from server."];
    }
    if reply.tag == TagErr {
      return 1, [reply.data];
    }
    code, errors := CommandLoop(conn, lines, reply);
  }

  /** The body of the loop for one line. */
  method HandleLine(conn: Connection, line: string, reply: Message) returns (out: LineOutcome)
    modifies conn
    ensures out == LineStep(line, reply, old(conn.State()))
    ensures out.Continue? ==> conn.State() == out.sock
    ensures out.Exit? ==> conn.State() == out.ending.sock
  {
    var input := ClassifyLine(line);
    match input
    case Blank =>
      return Continue([], reply, conn.State());
    case Rejected(text) =>
      return Continue([text], reply, conn.State());
    case QuitCommand =>
      var _ := conn.Send(Message(TagQuit, "bye"));
      var got, r := conn.Receive(reply);
      if got && r.tag == TagOk {
        return Exit(Ending(0, [], conn.State()));
      }
      return Exit(Ending(1, [if r.tag == TagErr then r.data else "Unknown error"], conn.State()));
    case Outgoing(m) =>
      var ok := conn.Send(m);
      if !ok {
        return Exit(Ending(1, ["Error: failed to send message."], conn.State()));
      }
      var got, r := conn.Receive(reply);
      if !got {
        return Exit(Ending(1, ["Error: failed to receive reply from server."], conn.State()));
      }
      return Continue(if r.tag == TagErr then [r.data] else [], r, conn.State());
  }

  /** The `while (std::getline(...))` loop. */
  method CommandLoop(conn: Connection, lines: seq<string>, reply0: Message) returns (code: int, errors: seq<string>)
    modifies conn
    ensures var e := SenderLoop(lines, reply0, old(conn.State()));
            code == e.code && errors == e.errors && conn.State() == e.sock
  {
    ghost var whole := SenderLoop(lines, reply0, conn.State());
    var reply := reply0;
    var i := 0;
    errors := [];
    while i < |lines|
      invariant i <= |lines|
      invariant var e := SenderLoop(lines[i..], reply, conn.State());
                whole == Ending(e.code, errors + e.errors, e.sock)
    {
      assert lines[i..][0] == lines[i] && lines[i..][1..] == lines[i + 1..];
      label Step:
      var out := HandleLine(conn, lines[i], reply);
      if out.Exit? {
        return out.ending.code, errors + out.ending.errors;
      }
      ghost var rest := SenderLoop(lines[i + 1..], out.reply, out.sock);
      LoopContinues(lines[i..], reply, old@Step(conn.State()), out);
      Appended(errors, out.errors, rest.errors, errors + out.errors, (errors + out.errors) + rest.errors);
      errors := errors + out.errors;
      reply := out.reply;
      i := i + 1;
    }
    code := 0;
  }
}
