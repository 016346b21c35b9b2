/** The local state of one instance and its atomic changes. */
module Instance {
  import opened Types
  import opened Names
  import opened Rosters

  /** The counters of the Stats map. */
  datatype Stats = Stats(connections: int, channels: int, presence: int, private_: int, public_: int, unique: int)

  datatype App = App(
    conns: set<SocketId>,
    channels: map<string, Roster>,
    markers: set<string>,
    stats: Stats,
    logs: Logs,
    hooks: seq<Hook>)

  // ---------- channel operations ----------

  /** What a channel operation reads and writes: the subscriptions, the frames and the hook trace. */
  datatype Chan = Chan(subs: Roster, logs: Logs, hooks: seq<Hook>)

  /** subscription_succeeded: on a presence channel the readable members and the number of all. */
  ghost function SucceededMsg(c: string, subs: Roster): Msg {
    if IsPresence(c) then Succeeded(c, UserIds(Readable(subs)), Users(Readable(subs)), |subs|)
    else Succeeded(c, multiset{}, {}, 0)
  }

  /** A presence channel accepts only data that decodes. */
  predicate Joined(c: string, d: ChannelData) { !IsPresence(c) || d.Member? }

  /** The subscription that `d` makes. */
  function Entry(c: string, d: ChannelData): Sub {
    if IsPresence(c) && d.Member? then Sub(d.userId, Some(Marshalled(d.userInfo))) else Sub("", AsJson(d))
  }

  /** The frames of a subscribe: member_added to the others, subscription_succeeded to the newcomer. */
  ghost function JoinLogs(c: string, logs: Logs, subs: Roster, s: SocketId, d: ChannelData): Logs {
    if !Joined(c, d) then logs
    else FanOut(if IsPresence(c) then FanOut(logs, subs.Keys - {s}, MemberAdded(c, d)) else logs,
                {s}, SucceededMsg(c, subs))
  }

  /** Its hooks; the channel is occupied when it now has one subscription. */
  function JoinHooks(c: string, size: nat, d: ChannelData): seq<Hook> {
    if !Joined(c, d) then []
    else (if IsPresence(c) && d.Member? then [MemberJoined(c, d.userId)] else []) +
         (if size == 1 then [Occupied(c)] else [])
  }

  /** Subscribe: a presence subscription that does not decode stays in the map and sends nothing. */
  ghost function Join(c: string, st: Chan, s: SocketId, d: ChannelData): Chan {
    var subs := st.subs[s := Entry(c, d)];
    Chan(subs, JoinLogs(c, st.logs, subs, s, d), st.hooks + JoinHooks(c, |subs|, d))
  }

  function LeaveLogs(c: string, logs: Logs, subs: Roster, id: UserId): Logs {
    if IsPresence(c) then FanOut(logs, subs.Keys, MemberRemoved(c, id)) else logs
  }

  function LeaveHooks(c: string, subs: Roster, id: UserId): seq<Hook> {
    (if IsPresence(c) then [MemberLeft(c, id)] else []) + (if subs == map[] then [Vacated(c)] else [])
  }

  /** Unsubscribe: an error, and no change, when the socket has no subscription. */
  function Leave(c: string, st: Chan, s: SocketId): Chan {
    if s !in st.subs then st
    else
      var subs := st.subs - {s};
      Chan(subs, LeaveLogs(c, st.logs, subs, st.subs[s].id), st.hooks + LeaveHooks(c, subs, st.subs[s].id))
  }

  /** An event as it arrives: the data is None when it is not JSON. */
  datatype Raw = Raw(name: string, chan: string, payload: Option<Json>)

  function ClientHooks(c: string, subs: Roster, e: Raw, ignore: SocketId): seq<Hook> {
    if ignore in subs && IsClientEvent(e.name) && e.payload.Some? then
      [ClientEvent(c, e.name, e.payload.value, ignore, if IsPresence(c) then subs[ignore].id else "")]
    else []
  }

  /** Publish to the local subscribers but the ignored one, whose client events fire the hook; an error if the data is not JSON. */
  function Tell(c: string, st: Chan, e: Raw, ignore: SocketId, tag: Tag): Chan {
    if e.payload.None? then st
    else st.(logs := FanOut(st.logs, st.subs.Keys - {ignore}, Event(e.name, e.chan, e.payload.value, tag)),
             hooks := st.hooks + ClientHooks(c, st.subs, e, ignore))
  }

  // ---------- the atomic changes of an instance ----------

  datatype Op =
    | Skip
    | AddConn(s: SocketId)
    | DropConn(s: SocketId)
    | AddChan(c: string)
    | DropChan(c: string)
    | Enter(c: string, s: SocketId, d: ChannelData)
    | Exit(c: string, s: SocketId)
    | Count
    | Send(c: string, e: Raw, ignore: SocketId, tag: Tag)
    | Reply(s: SocketId, m: Msg)

  /** The counters after `delta` (1 or -1) channels named `c` were added. */
  function Counted(t: Stats, c: string, delta: int): Stats {
    t.(channels := t.channels + delta,
       presence := t.presence + if IsPresence(c) then delta else 0,
       private_ := t.private_ + if IsPrivate(c) then delta else 0,
       public_ := t.public_ + if IsPublic(c) then delta else 0)
  }

  function View(a: App, c: string): Chan
    requires c in a.channels
  {
    Chan(a.channels[c], a.logs, a.hooks)
  }

  function Put(a: App, c: string, st: Chan): App {
    a.(channels := a.channels[c := st.subs], logs := st.logs, hooks := st.hooks)
  }

  ghost function Apply(a: App, op: Op): App {
    match op
    case Skip => a
    case AddConn(s) => a.(conns := a.conns + {s}, stats := a.stats.(connections := a.stats.connections + 1))
    case DropConn(s) => a.(conns := a.conns - {s}, stats := a.stats.(connections := a.stats.connections - 1))
    case AddChan(c) => a.(channels := a.channels[c := map[]], markers := a.markers + {c}, stats := Counted(a.stats, c, 1))
    case DropChan(c) => a.(channels := a.channels - {c}, markers := a.markers - {c}, stats := Counted(a.stats, c, -1))
    case Enter(c, s, d) => if c in a.channels then Put(a, c, Join(c, View(a, c), s, d)) else a
    case Exit(c, s) => if c in a.channels then Put(a, c, Leave(c, View(a, c), s)) else a
    case Count => a.(stats := a.stats.(unique := a.stats.unique + 1))
    case Send(c, e, ignore, tag) => if c in a.channels then Put(a, c, Tell(c, View(a, c), e, ignore, tag)) else a
    case Reply(s, m) => a.(logs := FanOut(a.logs, {s}, m))
  }

  // ---------- what every change keeps ----------

  ghost predicate Subscribed(a: App, c: string, s: SocketId) {
    c in a.channels && s in a.channels[c]
  }

  /** The channels of one kind. */
  function Kind(channels: map<string, Roster>, kind: string -> bool): set<string> {
    set c | c in channels && kind(c)
  }

  ghost predicate CountersAgree(a: App) {
    && a.stats.connections == |a.conns|
    && a.stats.channels == |a.channels|
    && a.stats.presence == |Kind(a.channels, IsPresence)|
    && a.stats.private_ == |Kind(a.channels, IsPrivate)|
    && a.stats.public_ == |Kind(a.channels, IsPublic)|
  }

  /** Subscribed sockets are connected, a channel has its listener marker, the counters are the sizes. */
  ghost predicate Sound(a: App) {
    && (forall c, s :: Subscribed(a, c, s) ==> s in a.conns)
    && a.markers == a.channels.Keys
    && CountersAgree(a)
  }

  /** What the handlers ensure before each change, one handler at a time. */
  ghost predicate Legal(a: App, op: Op) {
    match op
    case AddConn(s) => s !in a.conns
    case DropConn(s) => s in a.conns && forall c :: !Subscribed(a, c, s)
    case AddChan(c) => c !in a.channels
    case DropChan(c) => c in a.channels && a.channels[c] == map[]
    case Enter(c, s, _) => c in a.channels && s in a.conns
    case Exit(c, s) => Subscribed(a, c, s)
    case _ => true
  }

  lemma KindGrows(channels: map<string, Roster>, c: string, kind: string -> bool)
    requires c !in channels
    ensures |Kind(channels[c := map[]], kind)| == |Kind(channels, kind)| + if kind(c) then 1 else 0
  {
    assert Kind(channels[c := map[]], kind) == Kind(channels, kind) + if kind(c) then {c} else {};
  }

  lemma KindShrinks(channels: map<string, Roster>, c: string, kind: string -> bool)
    requires c in channels
    ensures |Kind(channels, kind)| == |Kind(channels - {c}, kind)| + if kind(c) then 1 else 0
  {
    assert Kind(channels, kind) == Kind(channels - {c}, kind) + if kind(c) then {c} else {};
    assert c !in Kind(channels - {c}, kind);
  }

  lemma KindStays(channels: map<string, Roster>, c: string, subs: Roster, kind: string -> bool)
    requires c in channels
    ensures Kind(channels[c := subs], kind) == Kind(channels, kind)
  {
  }

  lemma AddKeepsCounters(a: App, c: string)
    requires CountersAgree(a) && c !in a.channels
    ensures CountersAgree(Apply(a, AddChan(c)))
  {
    KindGrows(a.channels, c, IsPresence);
    KindGrows(a.channels, c, IsPrivate);
    KindGrows(a.channels, c, IsPublic);
  }

  lemma DropKeepsCounters(a: App, c: string)
    requires CountersAgree(a) && c in a.channels
    ensures CountersAgree(Apply(a, DropChan(c)))
  {
    KindShrinks(a.channels, c, IsPresence);
    KindShrinks(a.channels, c, IsPrivate);
    KindShrinks(a.channels, c, IsPublic);
    assert (a.channels - {c}).Keys == a.channels.Keys - {c};
  }

  lemma CountersKept(a: App, op: Op)
    requires CountersAgree(a) && Legal(a, op)
    ensures CountersAgree(Apply(a, op))
  {
    match op
    case AddChan(c) => AddKeepsCounters(a, c);
    case DropChan(c) => DropKeepsCounters(a, c);
    case Enter(c, s, d) => PutKeepsCounters(a, c, Join(c, View(a, c), s, d));
    case Exit(c, s) => PutKeepsCounters(a, c, Leave(c, View(a, c), s));
    case Send(c, e, ignore, tag) =>
      if c in a.channels {
        PutKeepsCounters(a, c, Tell(c, View(a, c), e, ignore, tag));
      }
    case _ =>
  }

  lemma PutKeepsCounters(a: App, c: string, st: Chan)
    requires CountersAgree(a) && c in a.channels
    ensures CountersAgree(Put(a, c, st))
  {
    KindStays(a.channels, c, st.subs, IsPresence);
    KindStays(a.channels, c, st.subs, IsPrivate);
    KindStays(a.channels, c, st.subs, IsPublic);
    assert a.channels[c := st.subs].Keys == a.channels.Keys;
  }

  /** The subscriptions after a change, in closed form. */
  lemma SubscribedAfter(a: App, op: Op, c: string, s: SocketId)
    requires Legal(a, op)
    ensures Subscribed(Apply(a, op), c, s) <==>
      (Subscribed(a, c, s) && op != Exit(c, s)) || (op.Enter? && op.c == c && op.s == s)
  {
  }

  lemma KeysAfter(a: App, op: Op, c: string, s: SocketId)
    requires Legal(a, op)
    ensures c in Apply(a, op).channels <==> (c in a.channels && op != DropChan(c)) || op == AddChan(c)
    ensures s in Apply(a, op).conns <==> (s in a.conns && op != DropConn(s)) || op == AddConn(s)
  {
  }

  lemma SoundKept(a: App, op: Op)
    requires Sound(a) && Legal(a, op)
    ensures Sound(Apply(a, op))
  {
    CountersKept(a, op);
    forall c, s | Subscribed(Apply(a, op), c, s)
      ensures s in Apply(a, op).conns
    {
      SubscribedAfter(a, op, c, s);
    }
    assert Apply(a, op).markers == Apply(a, op).channels.Keys;
  }

  /** The three filtered channel lists partition the channels. */
  lemma KindsPartition(channels: map<string, Roster>)
    ensures Kind(channels, IsPresence) + Kind(channels, IsPrivate) + Kind(channels, IsPublic) == channels.Keys
    ensures |Kind(channels, IsPresence)| + |Kind(channels, IsPrivate)| + |Kind(channels, IsPublic)| == |channels|
  {
    var p, v, u := Kind(channels, IsPresence), Kind(channels, IsPrivate), Kind(channels, IsPublic);
    forall c: string
      ensures c in p <==> c in channels && IsPresence(c)
      ensures c in v <==> c in channels && IsPrivate(c)
      ensures c in u <==> c in channels && IsPublic(c)
      ensures !(IsPresence(c) && IsPrivate(c))
    {
      KindsAreDisjoint(c);
    }
    PartsAddUp(p, v, u, channels.Keys);
  }

  lemma PartsAddUp(p: set<string>, v: set<string>, u: set<string>, all: set<string>)
    requires forall c :: c in all <==> c in p || c in v || c in u
    requires p !! v !! u
    ensures p + v + u == all && |p| + |v| + |u| == |all|
  {
    assert p + v + u == all;
    assert |p + v + u| == |p + v| + |u|;
  }
}
