/** What each change of an instance appends: to the log of every socket, and to the webhook trace. */
module Output {
  import opened Types
  import opened Names
  import opened Rosters
  import opened Instance
  import opened Frames

  /** The channel refuses the subscription: presence data that does not decode. */
  predicate Refused(c: string, d: ChannelData) { IsPresence(c) && !d.Member? }

  /** The stored subscription is what the subscribe data says: its user and info on a presence channel, else the data itself. */
  predicate Stores(c: string, d: ChannelData, x: Sub) {
    match d
    case Member(text, u, info) =>
      if IsPresence(c) then x.id == u && x.data == Some(if info.Some? then info.value else "null")
      else x.id == "" && x.data == Some(text)
    case OtherJson(value) => x.id == "" && x.data == Some(value)
    case NotJson(_) => x.id == "" && x.data == None
  }

  /** subscription_succeeded over the subscriptions there now. */
  ghost function ConfirmationOf(c: string, subs: Roster): Msg {
    if IsPresence(c) then Succeeded(c, UserIds(Readable(subs)), Users(Readable(subs)), |subs|)
    else Succeeded(c, multiset{}, {}, 0)
  }

  /** The frames one socket is written by one change. */
  ghost function Written(a: App, op: Op, s: SocketId): seq<Msg> {
    match op
    case Enter(c, u, d) =>
      if c !in a.channels || Refused(c, d) then []
      else if s == u then [ConfirmationOf(c, Apply(a, op).channels[c])]
      else if IsPresence(c) && Subscribed(a, c, s) then [MemberAdded(c, d)]
      else []
    case Exit(c, u) =>
      if Subscribed(a, c, u) && IsPresence(c) && Subscribed(a, c, s) && s != u then [MemberRemoved(c, a.channels[c][u].id)]
      else []
    case Send(c, e, skip, tag) =>
      if Subscribed(a, c, s) && s != skip && e.payload.Some? then [Event(e.name, e.chan, e.payload.value, tag)] else []
    case Reply(u, m) => if s == u then [m] else []
    case _ => []
  }

  /** The webhooks one change fires. */
  ghost function Fires(a: App, op: Op): seq<Hook> {
    match op
    case Enter(c, u, d) =>
      if c !in a.channels || Refused(c, d) then []
      else (if IsPresence(c) then [MemberJoined(c, d.userId)] else []) +
           (if a.channels[c].Keys <= {u} then [Occupied(c)] else [])
    case Exit(c, u) =>
      if !Subscribed(a, c, u) then []
      else (if IsPresence(c) then [MemberLeft(c, a.channels[c][u].id)] else []) +
           (if a.channels[c].Keys == {u} then [Vacated(c)] else [])
    case Send(c, e, skip, tag) =>
      if Subscribed(a, c, skip) && IsClientEvent(e.name) && e.payload.Some? then
        [ClientEvent(c, e.name, e.payload.value, skip, if IsPresence(c) then a.channels[c][skip].id else "")]
      else []
    case _ => []
  }

  lemma Confirmed(c: string, subs: Roster)
    ensures SucceededMsg(c, subs) == ConfirmationOf(c, subs)
  {
  }

  /** One frame to the others and another to the newcomer. */
  lemma TwoFrames(logs: Logs, others: set<SocketId>, m: Msg, u: SocketId, n: Msg, s: SocketId)
    requires u !in others
    ensures LogOf(FanOut(FanOut(logs, others, m), {u}, n), s) ==
      LogOf(logs, s) + if s == u then [n] else if s in others then [m] else []
  {
  }

  lemma JoinWrites(c: string, logs: Logs, subs: Roster, u: SocketId, d: ChannelData, s: SocketId)
    ensures LogOf(JoinLogs(c, logs, subs, u, d), s) == LogOf(logs, s) +
      if Refused(c, d) then [] else if s == u then [ConfirmationOf(c, subs)]
      else if IsPresence(c) && s in subs then [MemberAdded(c, d)] else []
  {
    Confirmed(c, subs);
    if !Refused(c, d) {
      var others := if IsPresence(c) then subs.Keys - {u} else {};
      TwoFrames(logs, others, MemberAdded(c, d), u, SucceededMsg(c, subs), s);
    }
  }

  lemma EnterWrites(a: App, c: string, u: SocketId, d: ChannelData, s: SocketId)
    requires c in a.channels
    ensures LogOf(Apply(a, Enter(c, u, d)).logs, s) == LogOf(a.logs, s) + Written(a, Enter(c, u, d), s)
  {
    var subs := Apply(a, Enter(c, u, d)).channels[c];
    JoinWrites(c, a.logs, subs, u, d, s);
  }

  lemma ExitWrites(a: App, c: string, u: SocketId, s: SocketId)
    requires Subscribed(a, c, u)
    ensures LogOf(Apply(a, Exit(c, u)).logs, s) == LogOf(a.logs, s) + Written(a, Exit(c, u), s)
  {
  }

  lemma SendWrites(a: App, c: string, e: Raw, skip: SocketId, tag: Tag, s: SocketId)
    ensures LogOf(Apply(a, Send(c, e, skip, tag)).logs, s) == LogOf(a.logs, s) + Written(a, Send(c, e, skip, tag), s)
  {
  }

  lemma WritesExactly(a: App, op: Op, s: SocketId)
    ensures LogOf(Apply(a, op).logs, s) == LogOf(a.logs, s) + Written(a, op, s)
  {
    match op
    case Enter(c, u, d) => if c in a.channels { EnterWrites(a, c, u, d, s); }
    case Exit(c, u) => if Subscribed(a, c, u) { ExitWrites(a, c, u, s); }
    case Send(c, e, skip, tag) => SendWrites(a, c, e, skip, tag, s);
    case _ =>
  }

  /** One subscription is there when there was none of another socket. */
  lemma FirstOne(subs: Roster, u: SocketId, x: Sub)
    ensures |subs[u := x]| == 1 <==> subs.Keys <= {u}
  {
    var keys := subs[u := x].Keys;
    assert keys == subs.Keys + {u} && |subs[u := x]| == |keys|;
    assert |keys - {u}| == |keys| - 1;
    assert keys - {u} == {} <==> subs.Keys <= {u};
  }

  lemma EnterFires(a: App, c: string, u: SocketId, d: ChannelData)
    ensures Apply(a, Enter(c, u, d)).hooks == a.hooks + Fires(a, Enter(c, u, d))
  {
    if c in a.channels {
      FirstOne(a.channels[c], u, Entry(c, d));
    }
  }

  lemma ExitFires(a: App, c: string, u: SocketId)
    ensures Apply(a, Exit(c, u)).hooks == a.hooks + Fires(a, Exit(c, u))
  {
    if Subscribed(a, c, u) {
      assert (a.channels[c] - {u}).Keys == a.channels[c].Keys - {u};
      assert a.channels[c].Keys == {u} <==> (a.channels[c] - {u}).Keys == {};
    }
  }

  lemma FiresExactly(a: App, op: Op)
    ensures Apply(a, op).hooks == a.hooks + Fires(a, op)
  {
    match op
    case Enter(c, u, d) => EnterFires(a, c, u, d);
    case Exit(c, u) => ExitFires(a, c, u);
    case _ =>
  }

  lemma EnterHooks(a: App, c: string, u: SocketId, d: ChannelData, k: nat)
    requires k < |Fires(a, Enter(c, u, d))|
    ensures var h := Fires(a, Enter(c, u, d))[k];
      h == Occupied(c) || (h == MemberJoined(c, d.userId) && IsPresence(c) && d.Member?)
  {
    assert !Refused(c, d) && c in a.channels;
    OneOrTwo(if IsPresence(c) then [MemberJoined(c, d.userId)] else [],
             if a.channels[c].Keys <= {u} then [Occupied(c)] else [], k);
  }

  lemma ExitHooks(a: App, c: string, u: SocketId, k: nat)
    requires k < |Fires(a, Exit(c, u))|
    ensures var h := Fires(a, Exit(c, u))[k];
      Subscribed(a, c, u) && (h == Vacated(c) || (h == MemberLeft(c, a.channels[c][u].id) && IsPresence(c)))
  {
    assert Subscribed(a, c, u);
    OneOrTwo(if IsPresence(c) then [MemberLeft(c, a.channels[c][u].id)] else [],
             if a.channels[c].Keys == {u} then [Vacated(c)] else [], k);
  }

  lemma OneOrTwo(p: seq<Hook>, q: seq<Hook>, k: nat)
    requires |p| <= 1 && |q| <= 1 && k < |p + q|
    ensures (p != [] && (p + q)[k] == p[0]) || (q != [] && (p + q)[k] == q[0])
  {
  }

  /** The subscription a change leaves behind is the one it stores, or the one that was there. */
  lemma StoresExactly(a: App, op: Op, c: string, s: SocketId)
    requires Legal(a, op) && Subscribed(Apply(a, op), c, s)
    ensures var x := Apply(a, op).channels[c][s];
      if op.Enter? && op.c == c && op.s == s then Stores(c, op.d, x) else Subscribed(a, c, s) && x == a.channels[c][s]
  {
  }

  lemma EntryStores(c: string, d: ChannelData)
    ensures Stores(c, d, Entry(c, d))
  {
  }

  lemma PutElsewhere(subs: Roster, s: SocketId, x: Sub)
    ensures subs[s := x] - {s} == subs - {s}
  {
  }

  /** A subscribe stores what its data says, and leaves the other subscriptions as they were. */
  lemma JoinStores(c: string, st: Chan, s: SocketId, d: ChannelData)
    ensures var subs := Join(c, st, s, d).subs;
      && s in subs && Stores(c, d, subs[s]) && subs - {s} == st.subs - {s}
  {
    EntryStores(c, d);
    PutElsewhere(st.subs, s, Entry(c, d));
  }

  /** A property of all frames survives a change if the frames it writes have it. */
  lemma WrittenKeeps(a: App, op: Op, ok: (SocketId, Msg) -> bool)
    requires AllFrames(a.logs, ok) && forall s, k :: 0 <= k < |Written(a, op, s)| ==> ok(s, Written(a, op, s)[k])
    ensures AllFrames(Apply(a, op).logs, ok)
  {
    forall s, k | 0 <= k < |LogOf(Apply(a, op).logs, s)|
      ensures ok(s, LogOf(Apply(a, op).logs, s)[k])
    {
      WritesExactly(a, op, s);
      if k >= |LogOf(a.logs, s)| {
        assert LogOf(Apply(a, op).logs, s)[k] == Written(a, op, s)[k - |LogOf(a.logs, s)|];
      }
    }
  }
}
