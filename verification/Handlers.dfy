/**
 The handlers of one instance run to completion, as functions of the instance's state,
 the registry and the listeners.
 */
module Handlers {
  import opened Types
  import opened Names
  import opened Instance
  import opened Registry

  datatype World = World(app: App, store: Store, listeners: seq<Listener>)

  ghost function Local(w: World, op: Op): World { w.(app := Apply(w.app, op)) }

  function Redis(w: World, op: RedisOp): World
    requires !op.Pop?
  {
    w.(store := Commit(w.store, op), listeners := Route(w.listeners, op))
  }

  ghost function Connected(w: World, i: InstanceId, s: SocketId): World {
    Local(Redis(w, SetConn(s, i)), AddConn(s))
  }

  /** A new channel and its listener, unless the marker says there is one. */
  ghost function Added(w: World, i: InstanceId, c: string): World {
    Redis(Local(w, AddChan(c)), if c in w.app.markers then Quiet else Listen(i, c))
  }

  ghost function Created(w: World, i: InstanceId, c: string): World {
    if c in w.app.channels then w else Added(w, i, c)
  }

  /** The registry calls after a local subscribe. */
  function MirroredJoin(w: World, i: InstanceId, c: string, s: SocketId, d: ChannelData): (r: World)
    ensures r.app == w.app && r.listeners == w.listeners
  {
    var w1 := Redis(Redis(w, SAdd(c, s)), SetMeta(c, s, Meta(i, d)));
    if IsPresence(c) && d.Member? then Redis(Redis(w1, HSet(c, s, d.userId)), SetInfo(c, s, d.userInfo)) else w1
  }

  /** Subscribe into a channel that is present; it fails when Joined does. */
  ghost function Entered(w: World, i: InstanceId, c: string, s: SocketId, d: ChannelData): World {
    var w1 := Local(w, Enter(c, s, d));
    if Joined(c, d) then MirroredJoin(w1, i, c, s, d) else w1
  }

  /** The registry calls after a local unsubscribe. */
  function MirroredLeave(w: World, c: string, s: SocketId): (r: World)
    ensures r.app == w.app && r.listeners == w.listeners
  {
    var w1 := Redis(Redis(w, SRem(c, s)), DelMeta(c, s));
    if IsPresence(c) then Redis(Redis(w1, HDel(c, s)), DelInfo(c, s)) else w1
  }

  ghost function Pruned(w: World, c: string): World {
    if c in w.app.channels && w.app.channels[c] == map[] then Local(w, DropChan(c)) else w
  }

  /** Unsubscribe; it fails, and changes nothing, when there is no subscription. */
  ghost function Left(w: World, c: string, s: SocketId): World {
    if Subscribed(w.app, c, s) then Pruned(MirroredLeave(Local(w, Exit(c, s)), c, s), c) else w
  }

  /** The loop of Disconnect over the channels in some order. */
  ghost function LeftAll(w: World, s: SocketId, order: seq<string>): World
    decreases |order|
  {
    if order == [] then w else LeftAll(Left(w, order[0], s), s, order[1..])
  }

  lemma {:induction false} LeftAllMore(w: World, s: SocketId, order: seq<string>, c: string)
    ensures LeftAll(w, s, order + [c]) == Left(LeftAll(w, s, order), c, s)
    decreases |order|
  {
    if order == [] {
      assert LeftAll(w, s, [c]) == LeftAll(Left(w, c, s), s, []);
    } else {
      LeftAllMore(Left(w, order[0], s), s, order[1..], c);
      assert (order + [c])[1..] == order[1..] + [c];
    }
  }

  ghost predicate Lists(order: seq<string>, keys: set<string>) {
    (forall c :: c in order <==> c in keys) && |order| == |keys|
  }

  ghost function Disconnected(w: World, s: SocketId, order: seq<string>): World {
    if s in w.app.conns then Local(Redis(LeftAll(w, s, order), DelConn(s)), DropConn(s)) else w
  }

  /** Does the registry show a subscriber of another instance? */
  ghost predicate RemoteSubscriber(r: Store, i: InstanceId, c: string) {
    exists s :: s in Members(r, c) && s in r.conns && r.conns[s] != i
  }

  /** The Redis half of Publish. */
  ghost function Forwarded(w: World, i: InstanceId, c: string, e: Raw, tag: Tag): World {
    if RemoteSubscriber(w.store, i, c) && e.payload.Some? then
      Redis(w, Publish(c, Note(e.name, e.chan, e.payload.value, tag)))
    else w
  }

  ghost function Published(w: World, i: InstanceId, c: string, e: Raw, ignore: SocketId, tag: Tag): World {
    Forwarded(Local(Local(w, Count), Send(c, e, ignore, tag)), i, c, e, tag)
  }

  /** A relayed message skips its sender if the registry says that it is connected here. */
  function SkipOf(w: World, i: InstanceId, sender: SocketId): SocketId {
    if sender != "" && sender in w.store.conns && w.store.conns[sender] == i then sender else ""
  }

  /** A listener of the channel handles a message. */
  ghost function Heard(w: World, i: InstanceId, c: string, note: Note): World {
    Local(w, Send(c, Raw(note.name, note.chan, Some(note.payload)), SkipOf(w, i, note.tag.ignore), note.tag))
  }

  /** Only channels without a colon in their name have subscriptions. */
  ghost predicate NamesPlain(w: World) {
    forall c :: c in w.app.channels && w.app.channels[c] != map[] ==> ':' !in c
  }

  lemma NamesEntered(w: World, i: InstanceId, c: string, s: SocketId, d: ChannelData)
    requires NamesPlain(w) && ':' !in c
    ensures NamesPlain(Entered(w, i, c, s, d))
  {
  }

  lemma NamesCreated(w: World, i: InstanceId, c: string)
    requires NamesPlain(w)
    ensures NamesPlain(Created(w, i, c))
  {
  }

  lemma NamesLeft(w: World, c: string, s: SocketId)
    requires NamesPlain(w)
    ensures NamesPlain(Left(w, c, s))
  {
    LeftChannels(w, c, s);
  }

  // ---------- what Disconnect removes ----------

  /** One socket out of every channel, and the channels this empties. */
  function Without(channels: map<string, Roster>, s: SocketId): map<string, Roster> {
    map c | c in channels && channels[c].Keys != {s} :: channels[c] - {s}
  }

  lemma LeftChannels(w: World, c: string, s: SocketId)
    ensures var after := Left(w, c, s).app;
      && after.conns == w.app.conns
      && (forall d :: d in after.channels <==> d in w.app.channels && (d == c ==> w.app.channels[c].Keys != {s}))
      && (forall d :: d in after.channels ==>
            after.channels[d] == if d == c then w.app.channels[d] - {s} else w.app.channels[d])
  {
    if Subscribed(w.app, c, s) {
      assert (w.app.channels[c] - {s}).Keys == w.app.channels[c].Keys - {s};
      assert w.app.channels[c].Keys != {s} <==> (w.app.channels[c] - {s}).Keys != {};
    } else if c in w.app.channels {
      assert w.app.channels[c] - {s} == w.app.channels[c];
    }
  }

  /** The channels after the loop: visited ones without the socket, or gone. */
  ghost predicate Visited(before: map<string, Roster>, after: map<string, Roster>, s: SocketId, done: set<string>) {
    && (forall c :: c in after <==> c in before && (c in done ==> before[c].Keys != {s}))
    && (forall c :: c in after ==> after[c] == if c in done then before[c] - {s} else before[c])
  }

  lemma {:induction false} LeftAllChannels(w: World, s: SocketId, order: seq<string>)
    ensures Visited(w.app.channels, LeftAll(w, s, order).app.channels, s, set c | c in order)
    ensures LeftAll(w, s, order).app.conns == w.app.conns
    decreases |order|
  {
    if order != [] {
      var next := Left(w, order[0], s);
      LeftChannels(w, order[0], s);
      LeftAllChannels(next, s, order[1..]);
      VisitedCompose(w.app.channels, next.app.channels, LeftAll(w, s, order).app.channels, s, order[0], set c | c in order[1..]);
      assert (set c | c in order) == {order[0]} + set c | c in order[1..];
    }
  }

  lemma VisitedCompose(
    a: map<string, Roster>, b: map<string, Roster>, e: map<string, Roster>, s: SocketId, c: string, done: set<string>)
    requires Visited(a, b, s, {c}) && Visited(b, e, s, done)
    ensures Visited(a, e, s, {c} + done)
  {
    forall d | d in a
      ensures (a[d] - {s}) - {s} == a[d] - {s}
      ensures (a[d] - {s}).Keys != {s}
    {
      assert s !in a[d] - {s};
    }
  }

  lemma LeftSound(w: World, c: string, s: SocketId)
    requires Sound(w.app)
    ensures Sound(Left(w, c, s).app)
  {
    if Subscribed(w.app, c, s) {
      SoundKept(w.app, Exit(c, s));
      var a := Apply(w.app, Exit(c, s));
      if a.channels[c] == map[] {
        SoundKept(a, DropChan(c));
      }
    }
  }

  lemma {:induction false} LeftAllSound(w: World, s: SocketId, order: seq<string>)
    requires Sound(w.app)
    ensures Sound(LeftAll(w, s, order).app)
    decreases |order|
  {
    if order != [] {
      LeftSound(w, order[0], s);
      LeftAllSound(Left(w, order[0], s), s, order[1..]);
    }
  }

  /** The registry says the same of a socket in a channel. */
  ghost predicate SameEntry(base: Store, now: Store, c: string, t: SocketId) {
    && (t in now.conns <==> t in base.conns) && (t in now.conns ==> now.conns[t] == base.conns[t])
    && (t in Members(now, c) <==> t in Members(base, c))
    && (t in Presence(now, c) <==> t in Presence(base, c)) && (t in Presence(now, c) ==> Presence(now, c)[t] == Presence(base, c)[t])
    && ((c, t) in now.meta <==> (c, t) in base.meta) && ((c, t) in now.meta ==> now.meta[(c, t)] == base.meta[(c, t)])
    && ((c, t) in now.info <==> (c, t) in base.info) && ((c, t) in now.info ==> now.info[(c, t)] == base.info[(c, t)])
  }

  /** It says the same of every other socket. */
  ghost predicate Spares(base: Store, now: Store, s: SocketId) {
    forall c, t :: t != s ==> SameEntry(base, now, c, t)
  }

  /** The commands that take something of one socket away. */
  predicate TakesAway(op: RedisOp, s: SocketId) {
    match op
    case SRem(_, t) => t == s
    case DelMeta(_, t) => t == s
    case HDel(_, t) => t == s
    case DelInfo(_, t) => t == s
    case DelConn(t) => t == s
    case _ => false
  }

  lemma OpSpares(base: Store, r: Store, op: RedisOp, s: SocketId)
    requires Spares(base, r, s) && TakesAway(op, s)
    ensures Spares(base, Commit(r, op), s)
  {
    forall c, t | t != s
      ensures SameEntry(base, Commit(r, op), c, t)
    {
      assert SameEntry(base, r, c, t);
      MembersAfter(r, op, c);
      PresenceAfter(r, op, c);
    }
  }

  lemma LeftSpares(base: Store, w: World, c: string, s: SocketId)
    requires Spares(base, w.store, s)
    ensures Spares(base, Left(w, c, s).store, s) && Left(w, c, s).listeners == w.listeners
  {
    if Subscribed(w.app, c, s) {
      var r1 := Commit(w.store, SRem(c, s));
      var r2 := Commit(r1, DelMeta(c, s));
      OpSpares(base, w.store, SRem(c, s), s);
      OpSpares(base, r1, DelMeta(c, s), s);
      if IsPresence(c) {
        OpSpares(base, r2, HDel(c, s), s);
        OpSpares(base, Commit(r2, HDel(c, s)), DelInfo(c, s), s);
      }
    }
  }

  lemma {:induction false} LeftAllSpares(base: Store, w: World, s: SocketId, order: seq<string>)
    requires Spares(base, w.store, s)
    ensures Spares(base, LeftAll(w, s, order).store, s) && LeftAll(w, s, order).listeners == w.listeners
    decreases |order|
  {
    if order != [] {
      LeftSpares(base, w, order[0], s);
      LeftAllSpares(base, Left(w, order[0], s), s, order[1..]);
    }
  }

  lemma DisconnectChannels(w: World, s: SocketId, order: seq<string>)
    requires s in w.app.conns && Lists(order, w.app.channels.Keys)
    ensures LeftAll(w, s, order).app.channels == Without(w.app.channels, s)
    ensures LeftAll(w, s, order).app.conns == w.app.conns
  {
    LeftAllChannels(w, s, order);
    assert (set c | c in order) == w.app.channels.Keys;
  }

  lemma DisconnectSound(w: World, s: SocketId, order: seq<string>)
    requires s in w.app.conns && Lists(order, w.app.channels.Keys) && Sound(w.app)
    ensures Sound(Disconnected(w, s, order).app)
  {
    LeftAllSound(w, s, order);
    DisconnectChannels(w, s, order);
    SoundKept(LeftAll(w, s, order).app, DropConn(s));
  }

  lemma DisconnectSpares(w: World, s: SocketId, order: seq<string>)
    requires s in w.app.conns
    ensures Spares(w.store, Disconnected(w, s, order).store, s) && s !in Disconnected(w, s, order).store.conns
    ensures Disconnected(w, s, order).listeners == w.listeners
  {
    LeftAllSpares(w.store, w, s, order);
    OpSpares(w.store, LeftAll(w, s, order).store, RedisOp.DelConn(s), s);
  }

  /**
   Disconnect takes exactly this socket out of every channel, removes exactly the channels that
   this empties, keeps the counters and markers right, unregisters the socket, and leaves the registry
   entries of all others and the listeners alone, in whatever order the channels are visited.
   */
  lemma DisconnectRemovesExactly(w: World, s: SocketId, order: seq<string>)
    requires s in w.app.conns && Lists(order, w.app.channels.Keys)
    ensures var end := Disconnected(w, s, order);
      && end.app.channels == Without(w.app.channels, s) && end.app.conns == w.app.conns - {s}
      && (Sound(w.app) ==> Sound(end.app))
      && Spares(w.store, end.store, s) && s !in end.store.conns && end.listeners == w.listeners
  {
    DisconnectChannels(w, s, order);
    DisconnectSpares(w, s, order);
    if Sound(w.app) {
      DisconnectSound(w, s, order);
    }
  }

  /** A socket that is not connected cannot be disconnected: a second Disconnect, as after a failed greeting, changes nothing. */
  lemma DisconnectTwice(w: World, s: SocketId, order: seq<string>, again: seq<string>)
    requires s in w.app.conns ==> Lists(order, w.app.channels.Keys)
    ensures Disconnected(Disconnected(w, s, order), s, again) == Disconnected(w, s, order)
    ensures s !in w.app.conns ==> Disconnected(w, s, order) == w
  {
  }

  /** In the middle of the loop: the channels still to visit are there. */
  ghost predicate Midway(before: World, now: World, s: SocketId, keys: set<string>, left: set<string>, order: seq<string>) {
    && left <= keys && left <= now.app.channels.Keys && NamesPlain(now)
    && (forall c :: c in order <==> c in keys - left) && |order| + |left| == |keys|
    && now == LeftAll(before, s, order)
  }

  lemma MidwayStart(w: World, s: SocketId, keys: set<string>)
    requires NamesPlain(w) && keys == w.app.channels.Keys
    ensures Midway(w, w, s, keys, keys, [])
  {
  }

  lemma MidwayEnd(before: World, now: World, s: SocketId, keys: set<string>, order: seq<string>)
    requires Midway(before, now, s, keys, {}, order)
    ensures Lists(order, keys) && now == LeftAll(before, s, order)
  {
    assert keys - {} == keys;
  }

  lemma MidwayStep(before: World, now: World, s: SocketId, keys: set<string>, left: set<string>, order: seq<string>, c: string)
    requires Midway(before, now, s, keys, left, order) && c in left
    ensures Midway(before, Left(now, c, s), s, keys, left - {c}, order + [c])
  {
    LeftChannels(now, c, s);
    NamesLeft(now, c, s);
    LeftAllMore(before, s, order, c);
  }

  /** Every finite set has an enumeration. */
  lemma {:induction false} Enumeration(keys: set<string>) returns (order: seq<string>)
    ensures Lists(order, keys)
    decreases keys
  {
    order := [];
    if keys != {} {
      var c :| c in keys;
      order := Enumeration(keys - {c});
      order := order + [c];
    }
  }

  lemma NamesPublished(w: World, i: InstanceId, c: string, e: Raw, ignore: SocketId, tag: Tag)
    requires NamesPlain(w)
    ensures NamesPlain(Published(w, i, c, e, ignore, tag))
  {
  }

  // ---------- a POST to several channels ----------

  /** One channel of a POST: created if need be, and published to. */
  ghost function PostedOne(w: World, i: InstanceId, e: Raw, ignore: SocketId, pid: nat): World {
    Published(Created(w, i, e.chan), i, e.chan, e, ignore, Tag(pid, e.chan, ignore))
  }

  /** The first `n` channels of a POST, one after the other; `number` numbers the publications. */
  ghost function Posted(w: World, i: InstanceId, chans: seq<string>, n: nat, e: Raw, ignore: SocketId, number: nat -> nat): World
    requires n <= |chans|
  {
    if n == 0 then w
    else PostedOne(Posted(w, i, chans, n - 1, e, ignore, number), i, Raw(e.name, chans[n - 1], e.payload), ignore, number(n - 1))
  }

  lemma PostedNext(w: World, mid: World, i: InstanceId, chans: seq<string>, n: nat, e: Raw, ignore: SocketId, number: nat -> nat)
    requires n < |chans| && mid == Posted(w, i, chans, n, e, ignore, number)
    ensures PostedOne(mid, i, Raw(e.name, chans[n], e.payload), ignore, number(n)) ==
      Posted(w, i, chans, n + 1, e, ignore, number)
  {
  }
}
