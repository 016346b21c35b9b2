/** A session leaves no trace. */
module SessionTrace {
  import opened Types
  import opened Names
  import opened Instance
  import opened Registry
  import opened Handlers
  import opened Session

  // ---------- channels ----------

  function PutEntry(now: map<string, Roster>, c: string, s: SocketId, x: Sub): map<string, Roster> {
    now[c := (if c in now then now[c] else map[])[s := x]]
  }

  function TakeEntry(now: map<string, Roster>, c: string, s: SocketId): map<string, Roster> {
    if c !in now || s !in now[c] then now
    else if now[c] - {s} == map[] then now - {c}
    else now[c := now[c] - {s}]
  }

  lemma ChannelsEnter(base: map<string, Roster>, now: map<string, Roster>, s: SocketId, entered: set<string>, c: string, x: Sub)
    requires ChannelsApart(base, now, s, entered)
    ensures ChannelsApart(base, PutEntry(now, c, s, x), s, entered + {c})
  {
    var old_ := if c in now then now[c] else map[];
    assert old_[s := x] - {s} == old_ - {s};
    if c in base && base[c] == map[] && c !in entered {
      assert now[c] - {s} == map[] && s !in now[c];
      assert now[c] == now[c] - {s};
    }
    assert old_[s := x].Keys == old_.Keys + {s};
  }

  lemma ChannelsLeave(base: map<string, Roster>, now: map<string, Roster>, s: SocketId, entered: set<string>, c: string)
    requires ChannelsApart(base, now, s, entered)
    ensures ChannelsApart(base, TakeEntry(now, c, s), s, entered)
  {
    if c in now && s in now[c] {
      assert now[c] - {s} - {s} == now[c] - {s};
      assert now[c].Keys == {s} ==> now[c] - {s} == map[];
    }
  }

  lemma EnterChannels(a: App, c: string, s: SocketId, d: ChannelData)
    requires c in a.channels
    ensures Apply(a, Enter(c, s, d)).channels == a.channels[c := a.channels[c][s := Entry(c, d)]]
    ensures Apply(a, Enter(c, s, d)).conns == a.conns
  {
  }

  lemma EnteredApp(w: World, i: InstanceId, c: string, s: SocketId, d: ChannelData)
    ensures Entered(w, i, c, s, d).app == Apply(w.app, Enter(c, s, d))
  {
  }

  lemma EnteredChannels(w: World, i: InstanceId, c: string, s: SocketId, d: ChannelData)
    ensures var after := Entered(Created(w, i, c), i, c, s, d).app;
      && after.channels == PutEntry(w.app.channels, c, s, Entry(c, d)) && after.conns == w.app.conns
  {
    var w1 := Created(w, i, c);
    EnteredApp(w1, i, c, s, d);
    EnterChannels(w1.app, c, s, d);
    if c !in w.app.channels {
      PutTwice(w.app.channels, c, map[], map[][s := Entry(c, d)]);
    }
  }

  lemma PutTwice(m: map<string, Roster>, c: string, x: Roster, y: Roster)
    ensures m[c := x][c := y] == m[c := y]
  {
  }

  lemma LeftApp(w: World, c: string, s: SocketId)
    ensures Left(w, c, s).app.channels == TakeEntry(w.app.channels, c, s)
    ensures Left(w, c, s).app.conns == w.app.conns
  {
    if Subscribed(w.app, c, s) {
      var left := w.app.channels[c] - {s};
      assert w.app.channels[c := left] - {c} == w.app.channels - {c};
    }
  }

  lemma EnteredSound(w: World, i: InstanceId, c: string, s: SocketId, d: ChannelData)
    requires Sound(w.app) && s in w.app.conns
    ensures Sound(Entered(Created(w, i, c), i, c, s, d).app)
  {
    if c !in w.app.channels {
      SoundKept(w.app, AddChan(c));
    }
    SoundKept(Created(w, i, c).app, Enter(c, s, d));
    EnteredApp(Created(w, i, c), i, c, s, d);
  }

  // ---------- registry ----------

  /** The operation touches entries of `s` in channel `c`, and presence entries only on presence channels. */
  predicate Concerns(op: RedisOp, c: string, s: SocketId) {
    match op
    case SAdd(e, t) => e == c && t == s
    case SetMeta(e, t, _) => e == c && t == s
    case SRem(e, t) => e == c && t == s
    case DelMeta(e, t) => e == c && t == s
    case HSet(e, t, _) => e == c && t == s && IsPresence(c)
    case SetInfo(e, t, _) => e == c && t == s && IsPresence(c)
    case HDel(e, t) => e == c && t == s
    case DelInfo(e, t) => e == c && t == s
    case _ => false
  }

  /** The presence entries of the socket are on presence channels. */
  ghost predicate PresenceOnly(r: Store, s: SocketId) {
    forall c :: s in Presence(r, c) || (c, s) in r.info ==> IsPresence(c)
  }

  lemma OpEntry(now: Store, op: RedisOp, c: string, s: SocketId, e: string)
    requires Concerns(op, c, s)
    ensures Members(Commit(now, op), e) - {s} == Members(now, e) - {s}
    ensures Presence(Commit(now, op), e) - {s} == Presence(now, e) - {s}
    ensures e != c ==> (Listed(Commit(now, op), e, s) <==> Listed(now, e, s))
    ensures s in Presence(Commit(now, op), e) ==> s in Presence(now, e) || IsPresence(e)
  {
    MembersAfter(now, op, e);
    PresenceAfter(now, op, e);
  }

  lemma OpKeys(now: Store, op: RedisOp, c: string, s: SocketId, k: (string, SocketId))
    requires Concerns(op, c, s) && k.1 != s
    ensures var q := Commit(now, op);
      && (k in q.meta <==> k in now.meta) && (k in q.meta ==> q.meta[k] == now.meta[k])
      && (k in q.info <==> k in now.info) && (k in q.info ==> q.info[k] == now.info[k])
  {
  }

  lemma OpCanonical(now: Store, op: RedisOp, c: string, s: SocketId)
    requires Canonical(now) && Concerns(op, c, s)
    ensures Canonical(Commit(now, op)) && Commit(now, op).conns == now.conns
  {
    if op.HSet? {
      assert s in Presence(now, c)[s := op.u];
    }
  }

  /** Such an operation keeps every entry of the others, and the socket's entries elsewhere. */
  lemma OpApart(base: Store, now: Store, op: RedisOp, c: string, s: SocketId)
    requires OthersSame(base, now, s) && Canonical(now) && PresenceOnly(now, s) && Concerns(op, c, s)
    ensures var q := Commit(now, op);
      && OthersSame(base, q, s) && Canonical(q) && PresenceOnly(q, s) && q.conns == now.conns
      && (forall e :: e != c ==> (Listed(q, e, s) <==> Listed(now, e, s)))
  {
    OpCanonical(now, op, c, s);
    var q := Commit(now, op);
    forall e: string
      ensures Members(q, e) - {s} == Members(base, e) && Presence(q, e) - {s} == Presence(base, e)
      ensures e != c ==> (Listed(q, e, s) <==> Listed(now, e, s))
      ensures s in Presence(q, e) ==> IsPresence(e)
    {
      OpEntry(now, op, c, s, e);
    }
    forall k: (string, SocketId) | k.1 != s
      ensures (k in q.meta <==> k in base.meta) && (k in q.meta ==> q.meta[k] == base.meta[k])
      ensures (k in q.info <==> k in base.info) && (k in q.info ==> q.info[k] == base.info[k])
    {
      OpKeys(now, op, c, s, k);
    }
  }

  /** The registry part of During. */
  ghost predicate StoreDuring(base: Store, now: Store, i: InstanceId, s: SocketId) {
    OthersSame(base, now, s) && Canonical(now) && PresenceOnly(now, s) && now.conns == base.conns[s := i]
  }

  lemma EnteredStore(base: Store, w: World, i: InstanceId, c: string, s: SocketId, d: ChannelData)
    requires StoreDuring(base, w.store, i, s)
    ensures StoreDuring(base, MirroredJoin(w, i, c, s, d).store, i, s)
    ensures forall e :: e != c ==> (Listed(MirroredJoin(w, i, c, s, d).store, e, s) <==> Listed(w.store, e, s))
  {
    var r0 := w.store;
    var r1 := Commit(r0, SAdd(c, s));
    OpApart(base, r0, SAdd(c, s), c, s);
    var r2 := Commit(r1, SetMeta(c, s, Meta(i, d)));
    OpApart(base, r1, SetMeta(c, s, Meta(i, d)), c, s);
    if IsPresence(c) && d.Member? {
      OpApart(base, r2, HSet(c, s, d.userId), c, s);
      OpApart(base, Commit(r2, HSet(c, s, d.userId)), SetInfo(c, s, d.userInfo), c, s);
    }
  }

  lemma Unlisted(w: World, c: string, s: SocketId)
    requires PresenceOnly(w.store, s)
    ensures !Listed(MirroredLeave(w, c, s).store, c, s)
  {
    var r2 := Commit(Commit(w.store, SRem(c, s)), DelMeta(c, s));
    MembersAfter(w.store, SRem(c, s), c);
    if IsPresence(c) {
      PresenceAfter(r2, HDel(c, s), c);
    }
  }

  lemma LeftStore(base: Store, w: World, i: InstanceId, c: string, s: SocketId)
    requires StoreDuring(base, w.store, i, s)
    ensures StoreDuring(base, MirroredLeave(w, c, s).store, i, s)
    ensures forall e :: Listed(MirroredLeave(w, c, s).store, e, s) ==> e != c && Listed(w.store, e, s)
  {
    var r0 := w.store;
    var r1 := Commit(r0, SRem(c, s));
    OpApart(base, r0, SRem(c, s), c, s);
    var r2 := Commit(r1, DelMeta(c, s));
    OpApart(base, r1, DelMeta(c, s), c, s);
    if IsPresence(c) {
      OpApart(base, r2, HDel(c, s), c, s);
      OpApart(base, Commit(r2, HDel(c, s)), DelInfo(c, s), c, s);
    }
    Unlisted(w, c, s);
  }

  // ---------- the session keeps itself apart ----------

  lemma ListedAfterEnter(now: Store, was: Store, channels: map<string, Roster>, s: SocketId, c: string, x: Sub)
    requires ListedWhereSubscribed(was, channels, s) && PresenceOnly(now, s)
    requires forall e :: e != c ==> (Listed(now, e, s) <==> Listed(was, e, s))
    ensures ListedWhereSubscribed(now, PutEntry(channels, c, s, x), s)
  {
  }

  lemma EnteredDuring(base: World, w: World, i: InstanceId, s: SocketId, c: string, d: ChannelData, entered: set<string>)
    requires During(base, w, i, s, entered)
    ensures During(base, Entered(Created(w, i, c), i, c, s, d), i, s, entered + {c})
  {
    EnteredChannels(w, i, c, s, d);
    EnteredSound(w, i, c, s, d);
    ChannelsEnter(base.app.channels, w.app.channels, s, entered, c, Entry(c, d));
    EnteredStoreDuring(base.store, w, i, s, c, d);
    ListedAfterEnter(Entered(Created(w, i, c), i, c, s, d).store, w.store, w.app.channels, s, c, Entry(c, d));
  }

  lemma EnteredStoreDuring(base: Store, w: World, i: InstanceId, s: SocketId, c: string, d: ChannelData)
    requires StoreDuring(base, w.store, i, s)
    ensures var now := Entered(Created(w, i, c), i, c, s, d).store;
      StoreDuring(base, now, i, s) && forall e :: e != c ==> (Listed(now, e, s) <==> Listed(w.store, e, s))
  {
    var w1 := Local(Created(w, i, c), Enter(c, s, d));
    assert w1.store == w.store;
    if Joined(c, d) {
      EnteredStore(base, w1, i, c, s, d);
    }
  }

  lemma LeftDuring(base: World, w: World, i: InstanceId, s: SocketId, c: string, entered: set<string>)
    requires During(base, w, i, s, entered)
    ensures During(base, Left(w, c, s), i, s, entered)
  {
    LeftApp(w, c, s);
    LeftSound(w, c, s);
    ChannelsLeave(base.app.channels, w.app.channels, s, entered, c);
    if Subscribed(w.app, c, s) {
      var w1 := Local(w, Exit(c, s));
      LeftStore(base.store, w1, i, c, s);
      assert Left(w, c, s).store == MirroredLeave(w1, c, s).store;
    }
  }

  lemma SaidDuring(base: World, w: World, i: InstanceId, s: SocketId, m: Msg, entered: set<string>)
    requires During(base, w, i, s, entered)
    ensures During(base, Say(w, s, m), i, s, entered)
  {
    SoundKept(w.app, Reply(s, m));
  }

  lemma SendChannels(a: App, c: string, e: Raw, ignore: SocketId, tag: Tag)
    ensures Apply(a, Send(c, e, ignore, tag)).channels == a.channels
    ensures Apply(a, Send(c, e, ignore, tag)).conns == a.conns
  {
  }

  lemma CountedDuring(base: World, w: World, i: InstanceId, s: SocketId, entered: set<string>)
    requires During(base, w, i, s, entered)
    ensures During(base, Local(w, Count), i, s, entered)
  {
    SoundKept(w.app, Count);
  }

  lemma SentDuring(
    base: World, w: World, i: InstanceId, s: SocketId, c: string, e: Raw, ignore: SocketId, tag: Tag, entered: set<string>)
    requires During(base, w, i, s, entered)
    ensures During(base, Local(w, Send(c, e, ignore, tag)), i, s, entered)
  {
    SoundKept(w.app, Send(c, e, ignore, tag));
    SendChannels(w.app, c, e, ignore, tag);
  }

  /** A broadcast changes the listeners only. */
  lemma ForwardedDuring(base: World, w: World, i: InstanceId, s: SocketId, c: string, e: Raw, tag: Tag, entered: set<string>)
    requires During(base, w, i, s, entered)
    ensures During(base, Forwarded(w, i, c, e, tag), i, s, entered)
  {
  }

  lemma PublishedDuring(
    base: World, w: World, i: InstanceId, s: SocketId, c: string, e: Raw, ignore: SocketId, tag: Tag, entered: set<string>)
    requires During(base, w, i, s, entered)
    ensures During(base, Published(w, i, c, e, ignore, tag), i, s, entered)
  {
    var w1 := Local(w, Count);
    var w2 := Local(w1, Send(c, e, ignore, tag));
    CountedDuring(base, w, i, s, entered);
    SentDuring(base, w1, i, s, c, e, ignore, tag, entered);
    ForwardedDuring(base, w2, i, s, c, e, tag, entered);
  }

  lemma ClientEventSentDuring(base: World, w: World, i: InstanceId, s: SocketId, e: Raw, pid: nat, entered: set<string>)
    requires During(base, w, i, s, entered)
    ensures During(base, ClientEventSent(w, i, s, e, pid), i, s, entered)
  {
    if e.chan !in w.app.channels {
      SaidDuring(base, w, i, s, NoChannel(e.chan), entered);
    } else if !IsPresenceOrPrivate(e.chan) {
      SaidDuring(base, w, i, s, NOT_ALLOWED, entered);
    } else {
      var tag := Tag(pid, e.chan, s);
      PublishedDuring(base, w, i, s, e.chan, e, s, tag, entered);
      if e.payload.None? {
        SaidDuring(base, Published(w, i, e.chan, e, s, tag), i, s, RECONNECT, entered);
      }
    }
  }

  lemma ClientDuring(
    base: World, w: World, i: InstanceId, s: SocketId, userEvents: bool, e: Raw, pid: nat, entered: set<string>)
    requires During(base, w, i, s, entered)
    ensures During(base, OnClientEvent(w, i, s, userEvents, e, pid), i, s, entered)
  {
    var w1 := if userEvents then w else Say(w, s, USER_EVENTS_OFF);
    if !userEvents {
      SaidDuring(base, w, i, s, USER_EVENTS_OFF, entered);
    }
    ClientEventSentDuring(base, w1, i, s, e, pid, entered);
  }

  lemma SubscribeDuring(
    base: World, w: World, i: InstanceId, s: SocketId, c: string, d: ChannelData, authOk: bool, entered: set<string>)
    requires During(base, w, i, s, entered)
    ensures During(base, OnSubscribe(w, i, s, c, d, authOk), i, s,
                   if Admitted(c, authOk) then entered + {c} else entered)
  {
    if !IsChannelNameValid(c) {
      SaidDuring(base, w, i, s, BAD_NAME, entered);
    } else if !Admitted(c, authOk) {
      SaidDuring(base, w, i, s, BadAuth(c), entered);
    } else {
      EnteredDuring(base, w, i, s, c, d, entered);
      if !Joined(c, d) {
        SaidDuring(base, Entered(Created(w, i, c), i, c, s, d), i, s, RECONNECT, entered + {c});
      }
    }
  }

  lemma UnsubscribeDuring(base: World, w: World, i: InstanceId, s: SocketId, c: string, entered: set<string>)
    requires During(base, w, i, s, entered)
    ensures During(base, OnUnsubscribe(w, s, c), i, s, entered)
  {
    if c !in w.app.channels {
      SaidDuring(base, w, i, s, NoChannel(c), entered);
    } else if !Subscribed(w.app, c, s) {
      SaidDuring(base, w, i, s, RECONNECT, entered);
    } else {
      LeftDuring(base, w, i, s, c, entered);
    }
  }

  /** `entered` grown by a request. */
  function Grown(entered: set<string>, req: Request): set<string> {
    match req
    case Subscribe(c, _, authOk) => if Admitted(c, authOk) then entered + {c} else entered
    case _ => entered
  }

  lemma SubscribeHandled(
    base: World, w: World, i: InstanceId, s: SocketId, userEvents: bool, req: Request, entered: set<string>)
    requires During(base, w, i, s, entered) && req.Subscribe?
    ensures During(base, Handle(w, i, s, userEvents, req), i, s, Grown(entered, req))
  {
    SubscribeDuring(base, w, i, s, req.c, req.d, req.authOk, entered);
  }

  lemma UnsubscribeHandled(
    base: World, w: World, i: InstanceId, s: SocketId, userEvents: bool, req: Request, entered: set<string>)
    requires During(base, w, i, s, entered) && req.Unsubscribe?
    ensures During(base, Handle(w, i, s, userEvents, req), i, s, Grown(entered, req))
  {
    UnsubscribeDuring(base, w, i, s, req.c, entered);
  }

  lemma ClientHandled(
    base: World, w: World, i: InstanceId, s: SocketId, userEvents: bool, req: Request, entered: set<string>)
    requires During(base, w, i, s, entered) && req.Client?
    ensures During(base, Handle(w, i, s, userEvents, req), i, s, Grown(entered, req))
  {
    ClientDuring(base, w, i, s, userEvents, req.e, req.pid, entered);
  }

  lemma AnswerHandled(
    base: World, w: World, i: InstanceId, s: SocketId, userEvents: bool, req: Request, entered: set<string>)
    requires During(base, w, i, s, entered) && (req.Ping? || req.Garbled? || req.Unknown?)
    ensures During(base, Handle(w, i, s, userEvents, req), i, s, Grown(entered, req))
  {
    SaidDuring(base, w, i, s, if req.Ping? then Pong else RECONNECT, entered);
  }

  lemma HandledDuring(
    base: World, w: World, i: InstanceId, s: SocketId, userEvents: bool, req: Request, entered: set<string>)
    requires During(base, w, i, s, entered)
    ensures During(base, Handle(w, i, s, userEvents, req), i, s, Grown(entered, req))
  {
    if req.Subscribe? {
      SubscribeHandled(base, w, i, s, userEvents, req, entered);
    } else if req.Unsubscribe? {
      UnsubscribeHandled(base, w, i, s, userEvents, req, entered);
    } else if req.Client? {
      ClientHandled(base, w, i, s, userEvents, req, entered);
    } else {
      AnswerHandled(base, w, i, s, userEvents, req, entered);
    }
  }

  /** `entered` grown by a whole inbox. */
  function GrownAll(entered: set<string>, inbox: seq<Read>): set<string>
    decreases |inbox|
  {
    if inbox == [] || !inbox[0].Got? then entered else GrownAll(Grown(entered, inbox[0].req), inbox[1..])
  }

  lemma {:induction false} GrownIsEntries(entered: set<string>, inbox: seq<Read>)
    ensures GrownAll(entered, inbox) == entered + Entries(inbox)
    decreases |inbox|
  {
    if inbox != [] && inbox[0].Got? {
      GrownIsEntries(Grown(entered, inbox[0].req), inbox[1..]);
    }
  }

  lemma LoopEnds(base: World, w: World, i: InstanceId, s: SocketId, userEvents: bool, inbox: seq<Read>, entered: set<string>)
    requires During(base, w, i, s, entered) && (inbox != [] ==> !inbox[0].Got?)
    ensures During(base, Loop(w, i, s, userEvents, inbox), i, s, entered)
  {
    SaidDuring(base, w, i, s, RECONNECT, entered);
  }

  lemma {:induction false} LoopDuring(
    base: World, w: World, i: InstanceId, s: SocketId, userEvents: bool, inbox: seq<Read>, entered: set<string>)
    requires During(base, w, i, s, entered)
    ensures During(base, Loop(w, i, s, userEvents, inbox), i, s, GrownAll(entered, inbox))
    decreases |inbox|
  {
    if inbox == [] || !inbox[0].Got? {
      LoopEnds(base, w, i, s, userEvents, inbox, entered);
    } else {
      var req := inbox[0].req;
      var next := Handle(w, i, s, userEvents, req);
      HandledDuring(base, w, i, s, userEvents, req, entered);
      LoopDuring(base, next, i, s, userEvents, inbox[1..], Grown(entered, req));
    }
  }

  lemma LoopEnters(base: World, w: World, i: InstanceId, s: SocketId, userEvents: bool, inbox: seq<Read>)
    requires During(base, w, i, s, {})
    ensures During(base, Loop(w, i, s, userEvents, inbox), i, s, Entries(inbox))
  {
    LoopDuring(base, w, i, s, userEvents, inbox, {});
    GrownIsEntries({}, inbox);
    assert {} + Entries(inbox) == Entries(inbox);
  }

  lemma NotYetIn(a: App, s: SocketId)
    requires Sound(a) && s !in a.conns
    ensures forall c :: c in a.channels ==> s !in a.channels[c] && a.channels[c] - {s} == a.channels[c]
  {
    forall c | c in a.channels
      ensures s !in a.channels[c] && a.channels[c] - {s} == a.channels[c]
    {
      assert Subscribed(a, c, s) ==> s in a.conns;
      assert s !in a.channels[c] ==> a.channels[c] - {s} == a.channels[c];
    }
  }

  lemma OpenedApp(a: App, s: SocketId)
    requires Sound(a) && s !in a.conns
    ensures Sound(Apply(Apply(a, AddConn(s)), Reply(s, Established(s))))
    ensures forall c :: c in a.channels ==> s !in a.channels[c] && a.channels[c] - {s} == a.channels[c]
  {
    NotYetIn(a, s);
    SoundKept(a, AddConn(s));
    SoundKept(Apply(a, AddConn(s)), Reply(s, Established(s)));
  }

  lemma OpenedStore(w: World, i: InstanceId, s: SocketId)
    requires Canonical(w.store) && Fresh(w, s)
    ensures var now := Commit(w.store, SetConn(s, i));
      StoreDuring(w.store, now, i, s) && forall c :: !Listed(now, c, s)
  {
    var now := Commit(w.store, SetConn(s, i));
    forall c: string
      ensures Members(now, c) - {s} == Members(w.store, c) && Presence(now, c) - {s} == Presence(w.store, c)
      ensures !Listed(now, c, s)
    {
      MembersAfter(w.store, SetConn(s, i), c);
      PresenceAfter(w.store, SetConn(s, i), c);
      assert s !in Members(w.store, c) && s !in Presence(w.store, c);
    }
  }

  lemma OpenedDuring(w: World, i: InstanceId, s: SocketId)
    requires Sound(w.app) && Canonical(w.store) && Fresh(w, s)
    ensures During(w, Opened(w, i, s), i, s, {})
  {
    OpenedApp(w.app, s);
    OpenedStore(w, i, s);
    var a := Opened(w, i, s).app;
    assert a == Apply(Apply(w.app, AddConn(s)), Reply(s, Established(s)));
    assert a.channels == w.app.channels;
    assert Opened(w, i, s).store == Commit(w.store, SetConn(s, i));
  }

  lemma {:induction false} LeftAllDuring(base: World, w: World, i: InstanceId, s: SocketId, order: seq<string>, entered: set<string>)
    requires During(base, w, i, s, entered)
    ensures During(base, LeftAll(w, s, order), i, s, entered)
    decreases |order|
  {
    if order != [] {
      LeftDuring(base, w, i, s, order[0], entered);
      LeftAllDuring(base, Left(w, order[0], s), i, s, order[1..], entered);
    }
  }

  // ---------- closing ----------

  /** Two registries with the same lookups and no empty sets or hashes are the same. */
  lemma SameStore(base: Store, now: Store, s: SocketId)
    requires Canonical(base) && Canonical(now) && OthersSame(base, now, s)
    requires base.conns == now.conns
    requires forall c :: !Listed(base, c, s) && !Listed(now, c, s)
    ensures base == now
  {
    forall c: string
      ensures Members(now, c) == Members(base, c) && Presence(now, c) == Presence(base, c)
      ensures (c in now.subs <==> c in base.subs) && (c in now.users <==> c in base.users)
    {
      assert !Listed(now, c, s);
      assert Members(now, c) - {s} == Members(now, c) && Presence(now, c) - {s} == Presence(now, c);
    }
    assert now.subs == base.subs;
    assert now.users == base.users;
    forall c: string
      ensures (c, s) !in base.meta && (c, s) !in now.meta && (c, s) !in base.info && (c, s) !in now.info
    {
      assert !Listed(base, c, s) && !Listed(now, c, s);
    }
    SameMaps(base.meta, now.meta, s);
    SameMaps(base.info, now.info, s);
  }

  lemma SameMaps<V>(base: map<(string, SocketId), V>, now: map<(string, SocketId), V>, s: SocketId)
    requires forall k: (string, SocketId) :: k.1 != s ==> (k in now <==> k in base) && (k in now ==> now[k] == base[k])
    requires forall c :: (c, s) !in base && (c, s) !in now
    ensures base == now
  {
    forall k: (string, SocketId)
      ensures (k in now <==> k in base) && (k in now ==> now[k] == base[k])
    {
      assert k == (k.0, k.1);
    }
  }

  /** The channels the session leaves: all but those it found vacant and entered. */
  function Kept(channels: map<string, Roster>, entered: set<string>): map<string, Roster> {
    map c | c in channels && !Spoilt(channels, c, entered) :: channels[c]
  }

  lemma ApartIsKept(base: map<string, Roster>, now: map<string, Roster>, s: SocketId, entered: set<string>)
    requires ChannelsApart(base, now, s, entered) && forall c :: c in now ==> s !in now[c]
    ensures now == Kept(base, entered)
  {
    forall c | c in now
      ensures now[c] - {s} == now[c]
    {
    }
  }

  /** The counters are determined by what they count, TotalUniqueMessages aside. */
  lemma SameCounters(a: App, b: App)
    requires CountersAgree(a) && CountersAgree(b) && a.conns == b.conns && a.channels == b.channels
    ensures a.stats.(unique := 0) == b.stats.(unique := 0)
  {
  }

  /** After the loop the socket is in no channel. */
  lemma NotLeft(w: World, s: SocketId, order: seq<string>)
    requires s in w.app.conns && Lists(order, w.app.channels.Keys)
    ensures var all := LeftAll(w, s, order); forall c :: c in all.app.channels ==> s !in all.app.channels[c]
    ensures Disconnected(w, s, order).app.channels == LeftAll(w, s, order).app.channels
  {
    DisconnectChannels(w, s, order);
  }

  lemma ClosedApp(base: World, i: InstanceId, s: SocketId, all: World, entered: set<string>)
    requires During(base, all, i, s, entered) && s !in base.app.conns
    requires forall c :: c in all.app.channels ==> s !in all.app.channels[c]
    ensures all.app.channels == Kept(base.app.channels, entered)
    ensures Apply(all.app, DropConn(s)).conns == base.app.conns && Sound(Apply(all.app, DropConn(s)))
  {
    ApartIsKept(base.app.channels, all.app.channels, s, entered);
    assert forall c :: !Subscribed(all.app, c, s);
    SoundKept(all.app, DropConn(s));
    assert base.app.conns + {s} - {s} == base.app.conns;
  }

  lemma ClosedAll(base: World, i: InstanceId, s: SocketId, all: World, entered: set<string>)
    requires During(base, all, i, s, entered) && Canonical(base.store) && Fresh(base, s)
    requires forall c :: c in all.app.channels ==> s !in all.app.channels[c]
    ensures var end := Local(Redis(all, RedisOp.DelConn(s)), DropConn(s));
      && end.app.conns == base.app.conns && end.app.channels == Kept(base.app.channels, entered)
      && end.store == base.store && Sound(end.app)
  {
    ClosedApp(base, i, s, all, entered);
    ClosedStore(base.store, all, i, s);
  }

  lemma ClosedDuring(base: World, w: World, i: InstanceId, s: SocketId, order: seq<string>, entered: set<string>)
    requires During(base, w, i, s, entered) && Lists(order, w.app.channels.Keys)
    requires Canonical(base.store) && Fresh(base, s)
    ensures var end := Disconnected(w, s, order);
      && end.app.conns == base.app.conns && end.app.channels == Kept(base.app.channels, entered)
      && end.store == base.store && Sound(end.app)
  {
    LeftAllDuring(base, w, i, s, order, entered);
    NotLeft(w, s, order);
    ClosedAll(base, i, s, LeftAll(w, s, order), entered);
  }

  lemma ClosedStore(base: Store, all: World, i: InstanceId, s: SocketId)
    requires Canonical(base) && s !in base.conns && forall c :: !Listed(base, c, s)
    requires OthersSame(base, all.store, s) && Canonical(all.store) && all.store.conns == base.conns[s := i]
    requires ListedWhereSubscribed(all.store, all.app.channels, s)
    requires forall c :: c in all.app.channels ==> s !in all.app.channels[c]
    ensures Commit(all.store, DelConn(s)) == base
  {
    assert base.conns[s := i] - {s} == base.conns;
    ConnsApart(base, all.store, base.conns, s);
    forall c: string
      ensures !Listed(all.store, c, s)
    {
      assert !(c in all.app.channels && s in all.app.channels[c]);
    }
    SameStore(base, all.store.(conns := base.conns), s);
  }

  lemma ConnsApart(base: Store, now: Store, conns: map<SocketId, InstanceId>, s: SocketId)
    requires OthersSame(base, now, s) && Canonical(now)
    ensures var q := now.(conns := conns);
      && OthersSame(base, q, s) && Canonical(q)
      && forall c :: Listed(q, c, s) <==> Listed(now, c, s)
  {
    var q := now.(conns := conns);
    forall c: string
      ensures Members(q, c) == Members(now, c) && Presence(q, c) == Presence(now, c)
      ensures Listed(q, c, s) <==> Listed(now, c, s)
    {
    }
  }

  lemma GreetedDuring(w: World, i: InstanceId, s: SocketId, userEvents: bool, inbox: seq<Read>)
    requires Sound(w.app) && Canonical(w.store) && Fresh(w, s)
    ensures During(w, Loop(Opened(w, i, s), i, s, userEvents, inbox), i, s, Entries(inbox))
  {
    OpenedDuring(w, i, s);
    LoopEnters(w, Opened(w, i, s), i, s, userEvents, inbox);
  }

  lemma BeforeCloseDuring(w: World, i: InstanceId, s: SocketId, greeted: bool, userEvents: bool, inbox: seq<Read>)
    requires Sound(w.app) && Canonical(w.store) && Fresh(w, s)
    ensures During(w, BeforeClose(w, i, s, greeted, userEvents, inbox), i, s, if greeted then Entries(inbox) else {})
  {
    if greeted {
      GreetedDuring(w, i, s, userEvents, inbox);
    } else {
      OpenedDuring(w, i, s);
    }
  }

  /**
   What a session of a fresh socket leaves, whatever it receives and whatever fails to be written:
   the connections, the registry and every counter but TotalUniqueMessages are as before, and so is
   every channel except those that were vacant and that it entered, which are gone.
   */
  lemma SessionLeaves(
    w: World, i: InstanceId, s: SocketId, greeted: bool, userEvents: bool, inbox: seq<Read>, order: seq<string>)
    requires Sound(w.app) && Canonical(w.store) && Fresh(w, s)
    requires Lists(order, BeforeClose(w, i, s, greeted, userEvents, inbox).app.channels.Keys)
    ensures var end := Whole(w, i, s, greeted, userEvents, inbox, order);
      && end.app.conns == w.app.conns
      && end.app.channels == Kept(w.app.channels, if greeted then Entries(inbox) else {})
      && end.store == w.store
      && Sound(end.app)
  {
    BeforeCloseDuring(w, i, s, greeted, userEvents, inbox);
    ClosedDuring(w, BeforeClose(w, i, s, greeted, userEvents, inbox), i, s, order, if greeted then Entries(inbox) else {});
  }

  /** No trace at all, exactly when the session entered no vacant channel. */
  lemma NoTraceIff(
    w: World, i: InstanceId, s: SocketId, greeted: bool, userEvents: bool, inbox: seq<Read>, order: seq<string>)
    requires Sound(w.app) && Canonical(w.store) && Fresh(w, s)
    requires Lists(order, BeforeClose(w, i, s, greeted, userEvents, inbox).app.channels.Keys)
    ensures var end := Whole(w, i, s, greeted, userEvents, inbox, order);
      (end.app.conns == w.app.conns && end.app.channels == w.app.channels && end.app.markers == w.app.markers &&
       end.app.stats.(unique := 0) == w.app.stats.(unique := 0) && end.store == w.store)
      <==> !greeted || forall c :: c in Entries(inbox) && c in w.app.channels ==> w.app.channels[c] != map[]
  {
    SessionLeaves(w, i, s, greeted, userEvents, inbox, order);
    var end := Whole(w, i, s, greeted, userEvents, inbox, order);
    var entered := if greeted then Entries(inbox) else {};
    if forall c :: c in entered && c in w.app.channels ==> w.app.channels[c] != map[] {
      assert Kept(w.app.channels, entered) == w.app.channels;
      SameCounters(w.app, end.app);
    } else {
      var c :| c in entered && c in w.app.channels && w.app.channels[c] == map[];
      assert c !in end.app.channels;
    }
  }
}
