/** Wire framing over one stream socket: a message travels as
    `tag ":" data "\n"`, and one receive reads one such line.

    The socket is abstract. `input` is what the peer has sent and this side
    has not yet read (the persistent read buffer and the kernel's queue
    together), `output` is what the peer has been handed, and `capacity` is
    how many more bytes the peer will take before a write comes up short. */
module Framing {
  import opened Messages

  /** `m_last_result`. */
  datatype Status = Success | EofOrError | InvalidMsg

  /** The serialised frame of a message. */
  function Frame(m: Message): string {
    m.tag + ":" + m.data + "\n"
  }

  /** The frames of several messages, back to back. */
  function Frames(ms: seq<Message>): string {
    if ms == [] then "" else Frame(ms[0]) + Frames(ms[1..])
  }

  /** The frames of `[m] + ms` are those of `m` followed by those of `ms`. */
  lemma FramesCons(m: Message, ms: seq<Message>)
    ensures Frames([m] + ms) == Frame(m) + Frames(ms)
  {
    assert ([m] + ms)[1..] == ms;
  }

  /** A message whose frame a receive gives back unchanged: the tag has no
      ':' and no newline, the data no newline, and the frame fits one read. */
  predicate Framable(m: Message) {
    ':' !in m.tag && '\n' !in m.tag && '\n' !in m.data && |Frame(m)| <= MaxLen
  }

  /** How many characters `rio_readlineb` takes from `s` when it may read at
      most `limit`: it stops after the first newline or at the limit. */
  function LineLength(s: string, limit: nat): (k: nat)
    ensures k <= |s| && k <= limit
    ensures s != [] && limit > 0 ==> k > 0
    ensures k > 0 ==> '\n' !in s[..k - 1]
    ensures k < |s| && k < limit ==> k > 0 && s[k - 1] == '\n'
  {
    if s == [] || limit == 0 then 0
    else if s[0] == '\n' then 1
    else 1 + LineLength(s[1..], limit - 1)
  }

  /** A line with at most one trailing newline removed. */
  function StripNewline(line: string): (r: string)
    ensures line == r || line == r + "\n"
    ensures |line| > 0 && line[|line| - 1] == '\n' ==> line == r + "\n"
  {
    if |line| > 0 && line[|line| - 1] == '\n' then line[..|line| - 1] else line
  }

  /** Splits a line at its first ':' into tag and data; None when the line
      has no ':'. */
  function SplitAtColon(text: string): (r: Option<Message>)
    ensures r.None? <==> ':' !in text
    ensures r.Some? ==> ':' !in r.value.tag && text == r.value.tag + ":" + r.value.data
  {
    match FindFrom(text, ':', 0)
    case None => None
    case Some(i) =>
      assert text == text[..i] + ":" + text[i + 1..];
      Some(Message(text[..i], text[i + 1..]))
  }

  /** The state of one connection as a value. */
  datatype Socket = Socket(fd: int, status: Status, input: string, output: string, capacity: nat)

  /** `is_open`: the descriptor is not negative. */
  predicate IsOpen(s: Socket) {
    s.fd >= 0
  }

  datatype Sent = Sent(ok: bool, sock: Socket)
  datatype Received = Received(ok: bool, msg: Message, sock: Socket)

  /** `Connection::send`: a closed socket fails and writes nothing; otherwise
      the frame is written as far as the peer takes it, and the call
      succeeds exactly when all of it was taken. */
  function SendOn(s: Socket, m: Message): (r: Sent)
    ensures r.ok <==> IsOpen(s) && |Frame(m)| <= s.capacity
    ensures r.sock.status == if r.ok then Success else EofOrError
    ensures r.ok ==> r.sock.output == s.output + Frame(m) && r.sock.capacity == s.capacity - |Frame(m)|
    ensures !IsOpen(s) ==> r.sock == s.(status := EofOrError)
    ensures exists k :: 0 <= k <= |Frame(m)| && r.sock.output == s.output + Frame(m)[..k]
    ensures r.sock.fd == s.fd && r.sock.input == s.input
  {
    if s.fd < 0 then
      assert s.output + Frame(m)[..0] == s.output;
      Sent(false, s.(status := EofOrError))
    else
      var f := Frame(m);
      if |f| <= s.capacity then
        assert f[..|f|] == f;
        Sent(true, s.(status := Success, output := s.output + f, capacity := s.capacity - |f|))
      else
        Sent(false, s.(status := EofOrError, output := s.output + f[..s.capacity], capacity := 0))
  }

  /** `Connection::receive`: a closed socket or an exhausted stream fails
      with EOF_OR_ERROR and reads nothing; otherwise one line of at most
      MaxLen characters is consumed, one trailing newline is dropped, and
      the line is split at its first ':', failing with INVALID_MSG when it
      has none. On failure the caller's message is left as it was (`prev`). */
  function ReceiveOn(s: Socket, prev: Message): (r: Received)
    ensures r.sock.fd == s.fd && r.sock.output == s.output && r.sock.capacity == s.capacity
    ensures r.ok ==> r.sock.status == Success
    ensures !r.ok ==> r.msg == prev && r.sock.status in {EofOrError, InvalidMsg}
    ensures !IsOpen(s) ==> !r.ok && r.sock == s.(status := EofOrError)
    ensures IsOpen(s) && s.input == [] ==> !r.ok && r.sock == s.(status := EofOrError)
    ensures IsOpen(s) && s.input != [] ==>
              var k := LineLength(s.input, MaxLen);
              && 0 < k <= MaxLen
              && r.sock.input == s.input[k..]
              && (r.ok <==> ':' in StripNewline(s.input[..k]))
              && (r.ok ==> StripNewline(s.input[..k]) == r.msg.tag + ":" + r.msg.data)
              && (!r.ok ==> r.sock.status == InvalidMsg)
    ensures r.ok ==> ':' !in r.msg.tag && |r.sock.input| < |s.input|
  {
    if s.fd < 0 then
      assert s.input[0..] == s.input;
      Received(false, prev, s.(status := EofOrError))
    else
      var k := LineLength(s.input, MaxLen);
      if k == 0 then
        assert s.input[0..] == s.input;
        Received(false, prev, s.(status := EofOrError))
      else
        var line := StripNewline(s.input[..k]);
        match SplitAtColon(line)
        case None => Received(false, prev, s.(status := InvalidMsg, input := s.input[k..]))
        case Some(m) => Received(true, m, s.(status := Success, input := s.input[k..]))
  }

  /** `Connection::close`: an open socket is closed, a closed one is left alone. */
  function CloseOn(s: Socket): (r: Socket)
    ensures !IsOpen(r) && (r.fd == -1 || r == s)
    ensures !IsOpen(s) ==> r == s
    ensures r.input == s.input && r.output == s.output && r.status == s.status && r.capacity == s.capacity
  {
    if s.fd >= 0 then s.(fd := -1) else s
  }

  /** Reading a line that ends in a newline, with no earlier newline and
      within the limit, takes exactly that line. */
  lemma {:induction false} LineLengthOfLine(p: string, rest: string, limit: nat)
    requires '\n' !in p && |p| < limit
    ensures LineLength(p + "\n" + rest, limit) == |p| + 1
  {
    if p != [] {
      assert (p + "\n" + rest)[1..] == p[1..] + "\n" + rest;
      LineLengthOfLine(p[1..], rest, limit - 1);
    }
  }

  /** Round trip: a framable message sent on one side is received whole on
      the other, and the bytes after its frame stay unread. */
  lemma FrameRoundTrip(s: Socket, m: Message, rest: string, prev: Message)
    requires IsOpen(s) && Framable(m) && s.input == Frame(m) + rest
    ensures ReceiveOn(s, prev) == Received(true, m, s.(status := Success, input := rest))
  {
    var p := m.tag + ":" + m.data;
    assert Frame(m) + rest == p + "\n" + rest;
    assert '\n' !in p by {
      assert forall i :: 0 <= i < |p| ==> p[i] == (if i < |m.tag| then m.tag[i] else if i == |m.tag| then ':' else m.data[i - |m.tag| - 1]);
    }
    LineLengthOfLine(p, rest, MaxLen);
    var k := |p| + 1;
    assert s.input[..k] == p + "\n";
    assert StripNewline(s.input[..k]) == p;
    assert s.input[k..] == rest;
    var r := SplitAtColon(p);
    assert r.Some?;
    assert ':' !in r.value.tag && p == r.value.tag + ":" + r.value.data;
    ColonSplitUnique(r.value.tag, r.value.data, m.tag, m.data);
  }

  /** A string splits at most one way around a ':' whose left part has no ':'. */
  lemma ColonSplitUnique(t1: string, d1: string, t2: string, d2: string)
    requires ':' !in t1 && ':' !in t2
    requires t1 + ":" + d1 == t2 + ":" + d2
    ensures t1 == t2 && d1 == d2
  {
    var s := t1 + ":" + d1;
    assert |t1| >= |t2| by {
      assert s[|t1|] == ':';
      assert forall j :: 0 <= j < |t2| ==> s[j] == t2[j];
    }
    assert |t2| >= |t1| by {
      assert s[|t2|] == ':';
      assert forall j :: 0 <= j < |t1| ==> s[j] == t1[j];
    }
    assert t1 == s[..|t1|] == t2;
    assert d1 == s[|t1| + 1..] == d2;
  }

  /** Sending a framable message and receiving it at the peer yields the same
      tag and data: what the sender added to its output is what the
      receiver's next read consumes. */
  lemma SendReceiveRoundTrip(s: Socket, peer: Socket, m: Message, rest: string, prev: Message)
    requires Framable(m) && IsOpen(peer)
    requires SendOn(s, m).ok
    requires peer.input == SendOn(s, m).sock.output[|s.output|..] + rest
    ensures ReceiveOn(peer, prev).ok && ReceiveOn(peer, prev).msg == m
    ensures ReceiveOn(peer, prev).sock.input == rest
  {
    var out := SendOn(s, m).sock.output;
    assert out[|s.output|..] == Frame(m);
    FrameRoundTrip(peer, m, rest, prev);
  }

  /** The connection object: `m_fd`, `m_last_result` and the socket it owns. */
  class Connection {
    var fd: int
    var lastResult: Status
    var input: string
    var output: string
    var capacity: nat

    function State(): Socket
      reads this
    {
      Socket(fd, lastResult, input, output, capacity)
    }

    /** `Connection()`: no socket yet. */
    constructor Unconnected()
      ensures State() == Socket(-1, Success, [], [], 0)
    {
      fd, lastResult, input, output, capacity := -1, Success, [], [], 0;
    }

    /** `Connection(int fd)` on an accepted socket whose peer will send
        `incoming` and take `accepts` bytes. */
    constructor Accepted(socketFd: int, incoming: string, accepts: nat)
      ensures State() == Socket(socketFd, Success, incoming, [], accepts)
    {
      fd, lastResult, input, output, capacity := socketFd, Success, incoming, [], accepts;
    }

    /** `connect`: `clientFd` is what opening the client socket returned; a
        negative one leaves the connection closed with INVALID_MSG. */
    method Connect(clientFd: int, incoming: string, accepts: nat)
      modifies this
      ensures fd == clientFd
      ensures lastResult == if clientFd < 0 then InvalidMsg else old(lastResult)
      ensures clientFd >= 0 ==> input == incoming && output == [] && capacity == accepts
      ensures clientFd < 0 ==> input == old(input) && output == old(output) && capacity == old(capacity)
    {
      fd := clientFd;
      if clientFd < 0 {
        lastResult := InvalidMsg;
        return;
      }
      input, output, capacity := incoming, [], accepts;
    }

    method Close()
      modifies this
      ensures State() == CloseOn(old(State()))
    {
      if fd >= 0 {
        fd := -1;
      }
    }

    method Send(m: Message) returns (ok: bool)
      modifies this
      ensures var r := SendOn(old(State()), m); ok == r.ok && State() == r.sock
    {
      if fd < 0 {
        lastResult := EofOrError;
        return false;
      }
      var f := Frame(m);
      var written := if |f| <= capacity then |f| else capacity;
      output := output + f[..written];
      capacity := capacity - written;
      if written != |f| {
        lastResult := EofOrError;
        return false;
      }
      assert f[..written] == f;
      lastResult := Success;
      return true;
    }

    /** `rio_readlineb` on the buffered input: reads character by character,
        at most MaxLen of them, stopping after a newline; returns how many
        it read. */
    method ReadLineLength() returns (n: nat)
      ensures n == LineLength(input, MaxLen)
    {
      n := 0;
      while n < MaxLen && n < |input|
        invariant n <= LineLength(input, MaxLen)
        invariant '\n' !in input[..n]
      {
        LineLengthPast(input, MaxLen, n);
        n := n + 1;
        if input[n - 1] == '\n' {
          return;
        }
        assert input[..n] == input[..n - 1] + [input[n - 1]];
      }
    }

    method Receive(prev: Message) returns (ok: bool, msg: Message)
      modifies this
      ensures var r := ReceiveOn(old(State()), prev); ok == r.ok && msg == r.msg && State() == r.sock
    {
      if fd < 0 {
        lastResult := EofOrError;
        return false, prev;
      }
      var n := ReadLineLength();
      if n == 0 {
        lastResult := EofOrError;
        return false, prev;
      }
      var line := StripNewline(input[..n]);
      input := input[n..];
      var split := SplitAtColon(line);
      if split.None? {
        lastResult := InvalidMsg;
        return false, prev;
      }
      lastResult := Success;
      return true, split.value;
    }
  }

  /** Past a newline-free prefix shorter than both bounds, the line goes on
      at least one more character, and ends there if that one is a newline. */
  lemma {:induction false} LineLengthPast(s: string, limit: nat, n: nat)
    requires n < |s| && n < limit && '\n' !in s[..n]
    ensures LineLength(s, limit) > n
    ensures s[n] == '\n' ==> LineLength(s, limit) == n + 1
  {
    if n > 0 {
      assert s[1..][..n - 1] == s[1..n];
      assert '\n' !in s[1..n];
      LineLengthPast(s[1..], limit - 1, n - 1);
    }
  }
}
