/** A chat room: a fixed name and a map from user to that user's queue.
    Membership is keyed by the user object, so two users with the same
    username are two members. The room's lock and the broadcast logging
    are left out. */
module Rooms {
  import opened Messages
  import opened Queueing

  /** A logged-in user; only the name is carried. */
  class User {
    const username: string

    constructor (name: string)
      ensures username == name
    {
      username := name;
    }
  }

  /** The DELIVERY payload a broadcast carries: `room:sender:text`. */
  function Payload(roomName: string, sender: string, text: string): string {
    roomName + ":" + sender + ":" + text
  }

  /** The message every member's queue receives from one broadcast. */
  function Delivery(roomName: string, sender: string, text: string): Message {
    Message(TagDelivery, Payload(roomName, sender, text))
  }

  /** `n` copies of `m`. */
  function Copies(m: Message, n: nat): (r: seq<Message>)
    ensures |r| == n && forall i :: 0 <= i < n ==> r[i] == m
  {
    if n == 0 then [] else Copies(m, n - 1) + [m]
  }

  /** The users among `among` that `members` maps to queue `q`. */
  function Holders(members: map<User, MessageQueue>, q: MessageQueue, among: set<User>): set<User> {
    set u | u in among && u in members && members[u] == q
  }

  /** Every member holds a queue of its own. */
  predicate DistinctQueues(members: map<User, MessageQueue>) {
    forall u, v :: u in members && v in members && members[u] == members[v] ==> u == v
  }

  /** When no two members share a queue, the queue of a member is held by
      that member alone. */
  lemma OwnQueueHeldOnce(members: map<User, MessageQueue>, u: User)
    requires DistinctQueues(members) && u in members
    ensures |Holders(members, members[u], members.Keys)| == 1
  {
    assert Holders(members, members[u], members.Keys) == {u};
  }

  /** Marking one more member done adds one holder to that member's queue
      and none to any other queue. */
  lemma HoldersStep(members: map<User, MessageQueue>, done: set<User>, u: User, q: MessageQueue)
    requires u in members && u !in done
    ensures |Holders(members, q, done + {u})| ==
            |Holders(members, q, done)| + (if members[u] == q then 1 else 0)
  {
    if members[u] == q {
      assert Holders(members, q, done + {u}) == Holders(members, q, done) + {u};
    } else {
      assert Holders(members, q, done + {u}) == Holders(members, q, done);
    }
  }

  /** A member's own entry adds one holder to its queue: the holders of `q`
      are those apart from `u`, and `u` too when it holds `q`. */
  lemma HoldersApart(members: map<User, MessageQueue>, u: User, q: MessageQueue)
    requires u in members
    ensures |Holders(members, q, members.Keys)| ==
            |Holders(members, q, members.Keys - {u})| + (if members[u] == q then 1 else 0)
  {
    HoldersStep(members, members.Keys - {u}, u, q);
    assert (members.Keys - {u}) + {u} == members.Keys;
  }

  /** Two memberships that agree apart from `u` have the same holders apart
      from `u`. */
  lemma HoldersAgree(m1: map<User, MessageQueue>, m2: map<User, MessageQueue>, u: User, q: MessageQueue)
    requires m1 - {u} == m2 - {u}
    ensures Holders(m1, q, m1.Keys - {u}) == Holders(m2, q, m2.Keys - {u})
  {
    forall v | v in m1.Keys - {u} ensures v in m2 && m2[v] == m1[v] {
      assert v in m1 - {u};
    }
    forall v | v in m2.Keys - {u} ensures v in m1 && m1[v] == m2[v] {
      assert v in m2 - {u};
    }
  }

  /** Two memberships that agree apart from `u` are the same once `u` is
      given the same queue in both. */
  lemma JoinedAgree(m1: map<User, MessageQueue>, m2: map<User, MessageQueue>, u: User, q: MessageQueue)
    requires m1 - {u} == m2 - {u}
    ensures m1[u := q] == m2[u := q]
  {
    forall v | v in m1 && v != u ensures v in m2 && m2[v] == m1[v] {
      assert v in m1 - {u};
    }
    forall v | v in m2 && v != u ensures v in m1 {
      assert v in m2 - {u};
    }
  }

  /** A membership that agrees, apart from `u`, with one `u` was never in
      is that one once `u` is taken out. */
  lemma AgreesWithout(now: map<User, MessageQueue>, was: map<User, MessageQueue>, u: User)
    requires u !in was && now - {u} == was - {u}
    ensures now - {u} == was
  {
    assert was - {u} == was;
  }

  class Room {
    /** Fixed at construction: nothing changes it. */
    const name: string
    var members: map<User, MessageQueue>

    constructor (roomName: string)
      ensures name == roomName && members == map[]
    {
      name := roomName;
      members := map[];
    }

    /** The room's name, as callers ask for it when they reply. */
    function GetRoomName(): string {
      name
    }

    /** Inserts the user, or replaces the user's queue; every other entry
        stays as it was. */
    method AddMember(user: User, queue: MessageQueue)
      modifies this
      ensures members.Keys == old(members).Keys + {user}
      ensures members[user] == queue
      ensures forall v :: v in old(members) && v != user ==> members[v] == old(members)[v]
    {
      members := members[user := queue];
    }

    /** Removes the user's entry if there is one; otherwise nothing changes. */
    method RemoveMember(user: User)
      modifies this
      ensures members.Keys == old(members).Keys - {user}
      ensures forall v :: v in members ==> members[v] == old(members)[v]
    {
      members := members - {user};
    }

    /** Puts one newly made DELIVERY message `name:sender:text` into the
        queue of each member, in no particular member order. A queue gets as
        many copies as there are members holding it: exactly one when every
        member holds its own queue. Membership does not change, and no queue
        outside the room is touched. */
    method Broadcast(sender: string, text: string)
      modifies members.Values
      ensures forall q :: q in members.Values ==>
                q.messages == old(q.messages) + Copies(Delivery(name, sender, text), |Holders(members, q, members.Keys)|)
                && q.avail == old(q.avail) + |Holders(members, q, members.Keys)|
      ensures DistinctQueues(members) ==> forall u :: u in members ==>
                members[u].messages == old(members[u].messages) + [Delivery(name, sender, text)]
    {
      var m := Delivery(name, sender, text);
      var todo := members.Keys;
      while todo != {}
        invariant todo <= members.Keys
        invariant forall q :: q in members.Values ==>
                    q.messages == old(q.messages) + Copies(m, |Holders(members, q, members.Keys - todo)|)
                    && q.avail == old(q.avail) + |Holders(members, q, members.Keys - todo)|
        decreases todo
      {
        var u :| u in todo;
        var q := members[u];
        forall p | p in members.Values
          ensures |Holders(members, p, members.Keys - (todo - {u}))| ==
                  |Holders(members, p, members.Keys - todo)| + (if q == p then 1 else 0)
        {
          assert members.Keys - (todo - {u}) == (members.Keys - todo) + {u};
          HoldersStep(members, members.Keys - todo, u, p);
        }
        q.Enqueue(m);
        todo := todo - {u};
      }
      assert members.Keys - {} == members.Keys;
      forall u | u in members && DistinctQueues(members)
        ensures members[u].messages == old(members[u].messages) + [m]
      {
        OwnQueueHeldOnce(members, u);
      }
    }
  }
}
