/** The protocol's message value: a tag and a data string, the tag words
    and the bound on one serialised frame. */
module Messages {

  datatype Option<T> = None | Some(value: T)

  /** Longest line, newline included, that one receive reads. */
  const MaxLen: nat := 255

  const TagErr: string := "err"
  const TagOk: string := "ok"
  const TagSlogin: string := "slogin"
  const TagRlogin: string := "rlogin"
  const TagJoin: string := "join"
  const TagLeave: string := "leave"
  const TagSendall: string := "sendall"
  const TagQuit: string := "quit"
  const TagDelivery: string := "delivery"

  /** A message is an immutable value; the source passes heap copies around,
      the model passes values. */
  datatype Message = Message(tag: string, data: string)

  /** The message a default-constructed `Message` holds. */
  const EmptyMessage: Message := Message("", "")

  predicate IsSpace(c: char) {
    c == ' ' || c == '\t' || c == '\n' || c == '\U{B}' || c == '\U{C}' || c == '\r'
  }

  /** `s.find(c, from)`: the first position at or after `from` holding `c`,
      or None for `npos`. */
  function FindFrom(s: string, c: char, from: nat): (r: Option<nat>)
    requires from <= |s|
    ensures r.Some? ==> from <= r.value < |s| && s[r.value] == c && c !in s[from..r.value]
    ensures r.None? ==> c !in s[from..]
    decreases |s| - from
  {
    if from == |s| then None
    else if s[from] == c then Some(from)
    else FindFrom(s, c, from + 1)
  }

  /** Appending `b` and then `c` to `a` appends `b + c`. A proof helper,
      not part of the system: the loops that accumulate output call it with
      the intermediate sequences named, so that the solver sees the
      regrouping of a concatenation without unfolding the sequences. */
  lemma Appended<T>(a: seq<T>, b: seq<T>, c: seq<T>, ab: seq<T>, abc: seq<T>)
    requires ab == a + b && abc == ab + c
    ensures abc == a + (b + c)
  {
  }
}
