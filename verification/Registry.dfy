/** The shared Redis registry as separate maps, and its Pub/Sub listeners. */
module Registry {
  import opened Types

  datatype Meta = Meta(instance: InstanceId, data: ChannelData)

  /** The registry of one application. Sets and hashes without elements are absent. */
  datatype Store = Store(
    conns: map<SocketId, InstanceId>,
    subs: map<string, set<SocketId>>,
    meta: map<(string, SocketId), Meta>,
    users: map<string, map<SocketId, UserId>>,
    info: map<(string, SocketId), Option<Json>>)

  /** An event on its way through Pub/Sub. */
  datatype Note = Note(name: string, chan: string, payload: Json, tag: Tag)

  /** One Pub/Sub subscription and the messages it has not handled yet. */
  datatype Listener = Listener(node: InstanceId, chan: string, queue: seq<Note>)

  datatype RedisOp =
    | Quiet
    | SetConn(s: SocketId, i: InstanceId)
    | DelConn(s: SocketId)
    | SAdd(c: string, s: SocketId)
    | SetMeta(c: string, s: SocketId, m: Meta)
    | SRem(c: string, s: SocketId)
    | DelMeta(c: string, s: SocketId)
    | HSet(c: string, s: SocketId, u: UserId)
    | SetInfo(c: string, s: SocketId, info: Option<Json>)
    | HDel(c: string, s: SocketId)
    | DelInfo(c: string, s: SocketId)
    | Listen(i: InstanceId, c: string)
    | Publish(c: string, note: Note)
    | Pop(k: nat)

  function Members(r: Store, c: string): set<SocketId> {
    if c in r.subs then r.subs[c] else {}
  }

  function Presence(r: Store, c: string): map<SocketId, UserId> {
    if c in r.users then r.users[c] else map[]
  }

  function Commit(r: Store, op: RedisOp): Store {
    match op
    case SetConn(s, i) => r.(conns := r.conns[s := i])
    case DelConn(s) => r.(conns := r.conns - {s})
    case SAdd(c, s) => r.(subs := r.subs[c := Members(r, c) + {s}])
    case SetMeta(c, s, m) => r.(meta := r.meta[(c, s) := m])
    case SRem(c, s) =>
      var left := Members(r, c) - {s};
      r.(subs := if left == {} then r.subs - {c} else r.subs[c := left])
    case DelMeta(c, s) => r.(meta := r.meta - {(c, s)})
    case HSet(c, s, u) => r.(users := r.users[c := Presence(r, c)[s := u]])
    case SetInfo(c, s, info) => r.(info := r.info[(c, s) := info])
    case HDel(c, s) =>
      var left := Presence(r, c) - {s};
      r.(users := if left == map[] then r.users - {c} else r.users[c := left])
    case DelInfo(c, s) => r.(info := r.info - {(c, s)})
    case _ => r
  }

  /** PUBLISH appends to every listener of the channel, the publisher's own included. */
  function Broadcast(ls: seq<Listener>, c: string, note: Note): (r: seq<Listener>)
    ensures |r| == |ls|
  {
    seq(|ls|, k requires 0 <= k < |ls| =>
      if ls[k].chan == c then ls[k].(queue := ls[k].queue + [note]) else ls[k])
  }

  ghost predicate Poppable(ls: seq<Listener>, op: RedisOp) {
    op.Pop? ==> op.k < |ls| && ls[op.k].queue != []
  }

  function Route(ls: seq<Listener>, op: RedisOp): seq<Listener>
    requires Poppable(ls, op)
  {
    match op
    case Listen(i, c) => ls + [Listener(i, c, [])]
    case Publish(c, note) => Broadcast(ls, c, note)
    case Pop(k) => ls[k := ls[k].(queue := ls[k].queue[1..])]
    case _ => ls
  }

  /** The memberships after an operation. */
  lemma MembersAfter(r: Store, op: RedisOp, c: string)
    ensures Members(Commit(r, op), c) ==
      if op.SAdd? && op.c == c then Members(r, c) + {op.s}
      else if op.SRem? && op.c == c then Members(r, c) - {op.s}
      else Members(r, c)
  {
  }

  lemma PresenceAfter(r: Store, op: RedisOp, c: string)
    ensures Presence(Commit(r, op), c) ==
      if op.HSet? && op.c == c then Presence(r, c)[op.s := op.u]
      else if op.HDel? && op.c == c then Presence(r, c) - {op.s}
      else Presence(r, c)
  {
  }

  /** How many listeners an instance has for a channel. */
  ghost function Listeners(ls: seq<Listener>, i: InstanceId, c: string): nat {
    if ls == [] then 0
    else Listeners(ls[..|ls| - 1], i, c) + if ls[|ls| - 1].node == i && ls[|ls| - 1].chan == c then 1 else 0
  }

  /** How many copies of a publication wait in the queues an instance has for a channel. */
  ghost function Queued(ls: seq<Listener>, i: InstanceId, c: string, t: Tag): nat {
    if ls == [] then 0
    else
      var l := ls[|ls| - 1];
      Queued(ls[..|ls| - 1], i, c, t) + if l.node == i && l.chan == c then CountNotes(l.queue, t) else 0
  }

  ghost function CountNotes(q: seq<Note>, t: Tag): nat {
    if q == [] then 0 else (if q[0].tag == t then 1 else 0) + CountNotes(q[1..], t)
  }

  lemma {:induction false} CountNotesAppend(q: seq<Note>, n: Note, t: Tag)
    ensures CountNotes(q + [n], t) == CountNotes(q, t) + if n.tag == t then 1 else 0
  {
    if q == [] {
      assert q + [n] == [n];
    } else {
      assert (q + [n])[1..] == q[1..] + [n];
      CountNotesAppend(q[1..], n, t);
    }
  }

  /** The effect of every operation on the number of listeners. */
  lemma {:induction false} ListenersAfter(ls: seq<Listener>, op: RedisOp, i: InstanceId, c: string)
    requires Poppable(ls, op)
    ensures Listeners(Route(ls, op), i, c) == Listeners(ls, i, c) + if op == Listen(i, c) then 1 else 0
  {
    match op
    case Listen(j, d) => assert Route(ls, op)[..|ls|] == ls;
    case Publish(d, note) => SameKeys(ls, Route(ls, op), i, c);
    case Pop(k) => SameKeys(ls, Route(ls, op), i, c);
    case _ =>
  }

  lemma {:induction false} SameKeys(a: seq<Listener>, b: seq<Listener>, i: InstanceId, c: string)
    requires |a| == |b| && forall k :: 0 <= k < |a| ==> a[k].node == b[k].node && a[k].chan == b[k].chan
    ensures Listeners(a, i, c) == Listeners(b, i, c)
  {
    if a != [] {
      SameKeys(a[..|a| - 1], b[..|b| - 1], i, c);
    }
  }

  /** PUBLISH puts one copy into each queue of the channel. */
  lemma {:induction false} QueuedAfterPublish(ls: seq<Listener>, note: Note, d: string, i: InstanceId, c: string, t: Tag)
    ensures Queued(Broadcast(ls, d, note), i, c, t) ==
      Queued(ls, i, c, t) + if d == c && note.tag == t then Listeners(ls, i, c) else 0
  {
    if ls != [] {
      var last := |ls| - 1;
      QueuedAfterPublish(ls[..last], note, d, i, c, t);
      assert Broadcast(ls, d, note)[..last] == Broadcast(ls[..last], d, note);
      CountNotesAppend(ls[last].queue, note, t);
    }
  }

  lemma {:induction false} QueuedAfterPop(ls: seq<Listener>, k: nat, i: InstanceId, c: string, t: Tag)
    requires k < |ls| && ls[k].queue != []
    ensures Queued(ls, i, c, t) == Queued(Route(ls, Pop(k)), i, c, t) +
      if ls[k].node == i && ls[k].chan == c && ls[k].queue[0].tag == t then 1 else 0
  {
    var last := |ls| - 1;
    var r := Route(ls, Pop(k));
    if k < last {
      QueuedAfterPop(ls[..last], k, i, c, t);
      assert r[..last] == Route(ls[..last], Pop(k));
    } else {
      assert r[..last] == ls[..last];
    }
  }

  lemma QueuedAfter(ls: seq<Listener>, op: RedisOp, i: InstanceId, c: string, t: Tag)
    requires Poppable(ls, op) && !op.Publish? && !op.Pop?
    ensures Queued(Route(ls, op), i, c, t) == Queued(ls, i, c, t)
  {
    if op.Listen? {
      assert Route(ls, op)[..|ls|] == ls;
    }
  }

  lemma {:induction false} SomeListener(ls: seq<Listener>, i: InstanceId, c: string)
    requires Listeners(ls, i, c) > 0
    ensures exists k :: 0 <= k < |ls| && ls[k].node == i && ls[k].chan == c
  {
    var last := |ls| - 1;
    if !(ls[last].node == i && ls[last].chan == c) {
      SomeListener(ls[..last], i, c);
      var k :| 0 <= k < last && ls[..last][k].node == i && ls[..last][k].chan == c;
      assert ls[k].node == i && ls[k].chan == c;
    }
  }
}
