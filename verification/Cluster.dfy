/**
 N instances over one Redis. Every instance runs one handler at a time; a step of the
 cluster is one atomic change of one instance together with at most one Redis call, so
 the handlers of different instances interleave at every Redis call, and a queued
 Pub/Sub message is heard at any later step.
 */
module Cluster {
  import opened Types
  import opened Names
  import opened Instance
  import opened Registry

  /** A publication: the event, its tag, and the channels a POST still has to serve. */
  datatype Job = Job(raw: Raw, tag: Tag, after: seq<string>)

  datatype Phase = AtSet | AtMeta | AtHash | AtInfo | AtDrop

  /** Where the current handler of an instance stands. */
  datatype Task =
    | Idle
    | Connecting(s: SocketId)
    | Joining(c: string, s: SocketId, d: ChannelData)
    | Mirroring(c: string, s: SocketId, d: ChannelData, phase: Phase)
    | Leaving(c: string, s: SocketId, phase: Phase, rest: Option<set<string>>)
    | Closing(s: SocketId, left: set<string>)
    | Unregistered(s: SocketId)
    | Posting(chans: seq<string>, name: string, payload: Option<Json>, ignore: SocketId)
    | Announcing(job: Job)
    | Telling(job: Job)
    | Fetching(job: Job)
    | Scanning(job: Job, unread: seq<SocketId>)
    | Sending(job: Job)
    | Hearing(chan: string, note: Note)
    | Relaying(chan: string, note: Note, skip: SocketId)

  datatype Command =
    | Connect(s: SocketId)
    | Subscribe(c: string, s: SocketId, d: ChannelData)
    | Unsubscribe(c: string, s: SocketId)
    | Disconnect(s: SocketId)
    | Client(s: SocketId, raw: Raw)
    | Post(chans: seq<string>, name: string, payload: Option<Json>, ignore: SocketId)
    | Answer(s: SocketId, m: Msg)

  /** What the environment chooses: a command, a queue to hear, a channel or an enumeration order. */
  datatype Act = Start(cmd: Command) | Hear(k: nat) | Visit(c: string) | Listing(order: seq<SocketId>) | Go

  datatype Node = Node(app: App, task: Task)

  /** Bookkeeping of the run: where each socket was opened, serial numbers, channel creations, broadcasts. */
  datatype History = History(
    used: map<SocketId, InstanceId>,
    nextPid: nat,
    created: multiset<(InstanceId, string)>,
    fired: map<nat, multiset<(InstanceId, string)>>)

  datatype Cluster = Cluster(nodes: map<InstanceId, Node>, store: Store, listeners: seq<Listener>, history: History)

  datatype Label = Label(i: InstanceId, act: Act)

  datatype Move = Move(op: Op, redis: RedisOp, task: Task)

  function Done(job: Job): Task {
    if job.after == [] then Idle else Posting(job.after, job.raw.name, job.raw.payload, job.tag.ignore)
  }

  function NoteOf(job: Job): Note
    requires job.raw.payload.Some?
  {
    Note(job.raw.name, job.raw.chan, job.raw.payload.value, job.tag)
  }

  function RawOf(note: Note): Raw { Raw(note.name, note.chan, Some(note.payload)) }

  ghost predicate CanStart(st: Cluster, a: App, cmd: Command) {
    match cmd
    case Connect(s) => s !in st.history.used && s != ""
    case Subscribe(c, s, _) => s in a.conns && IsChannelNameValid(c)
    case Unsubscribe(c, s) => s in a.conns && c in a.channels
    case Disconnect(s) => s in a.conns
    case Client(s, raw) => s in a.conns && raw.chan in a.channels && IsPresenceOrPrivate(raw.chan)
    case Post(_, _, _, _) => true
    case Answer(s, m) => s in a.conns && !m.Event? && !m.Succeeded? && !m.MemberAdded? && !m.MemberRemoved?
  }

  ghost predicate Enumerates(order: seq<SocketId>, members: set<SocketId>) {
    (forall s :: s in order <==> s in members) && |order| == |members|
  }

  ghost predicate Enabled(st: Cluster, l: Label) {
    l.i in st.nodes &&
    var node := st.nodes[l.i];
    match l.act
    case Start(cmd) => node.task.Idle? && CanStart(st, node.app, cmd)
    case Hear(k) => node.task.Idle? && k < |st.listeners| && st.listeners[k].node == l.i && st.listeners[k].queue != []
    case Visit(c) => node.task.Closing? && c in node.task.left
    case Listing(order) => node.task.Fetching? && Enumerates(order, Members(st.store, node.task.job.tag.chan))
    case Go => !node.task.Idle? && !node.task.Fetching? && (node.task.Closing? ==> node.task.left == {})
  }

  /** The listener is set up with the channel, unless its marker is still there. */
  function FindOrCreate(a: App, i: InstanceId, c: string, next: Task): Move {
    if c in a.channels then Move(Skip, Quiet, next)
    else Move(AddChan(c), if c in a.markers then Quiet else Listen(i, c), next)
  }

  ghost function Begin(st: Cluster, i: InstanceId, a: App, cmd: Command): Move {
    match cmd
    case Connect(s) => Move(Skip, SetConn(s, i), Connecting(s))
    case Subscribe(c, s, d) =>
      FindOrCreate(a, i, c, Joining(c, s, d))
    case Unsubscribe(c, s) =>
      if Subscribed(a, c, s) then Move(Exit(c, s), Quiet, Leaving(c, s, AtSet, None)) else Move(Skip, Quiet, Idle)
    case Disconnect(s) => Move(Skip, Quiet, Closing(s, a.channels.Keys))
    case Client(s, raw) => Move(Skip, Quiet, Announcing(Job(raw, Tag(st.history.nextPid, raw.chan, s), [])))
    case Post(chans, name, payload, ignore) => Move(Skip, Quiet, Posting(chans, name, payload, ignore))
    case Answer(s, m) => Move(Reply(s, m), Quiet, Idle)
  }

  function Mirror(i: InstanceId, t: Task): Move
    requires t.Mirroring?
  {
    var Mirroring(c, s, d, phase) := t;
    match phase
    case AtSet => Move(Skip, SAdd(c, s), Mirroring(c, s, d, AtMeta))
    case AtMeta => Move(Skip, SetMeta(c, s, Meta(i, d)), if IsPresence(c) && d.Member? then Mirroring(c, s, d, AtHash) else Idle)
    case AtHash => Move(Skip, if d.Member? then HSet(c, s, d.userId) else Quiet, Mirroring(c, s, d, AtInfo))
    case AtInfo => Move(Skip, if d.Member? then SetInfo(c, s, d.userInfo) else Quiet, Idle)
    case AtDrop => Move(Skip, Quiet, Idle)
  }

  function Unmirror(a: App, t: Task): Move
    requires t.Leaving?
  {
    var Leaving(c, s, phase, rest) := t;
    match phase
    case AtSet => Move(Skip, SRem(c, s), Leaving(c, s, AtMeta, rest))
    case AtMeta => Move(Skip, DelMeta(c, s), Leaving(c, s, if IsPresence(c) then AtHash else AtDrop, rest))
    case AtHash => Move(Skip, HDel(c, s), Leaving(c, s, AtInfo, rest))
    case AtInfo => Move(Skip, DelInfo(c, s), Leaving(c, s, AtDrop, rest))
    case AtDrop =>
      Move(if c in a.channels && a.channels[c] == map[] then DropChan(c) else Skip, Quiet,
           if rest.None? then Idle else Closing(s, rest.value))
  }

  ghost function Proceed(st: Cluster, i: InstanceId, node: Node): Move {
    var a := node.app;
    match node.task
    case Connecting(s) => Move(AddConn(s), Quiet, Idle)
    case Joining(c, s, d) => Move(Enter(c, s, d), Quiet, if Joined(c, d) then Mirroring(c, s, d, AtSet) else Idle)
    case Mirroring(_, _, _, _) => Mirror(i, node.task)
    case Leaving(_, _, _, _) => Unmirror(a, node.task)
    case Closing(s, left) => Move(Skip, RedisOp.DelConn(s), Unregistered(s))
    case Unregistered(s) => Move(DropConn(s), Quiet, Idle)
    case Posting(chans, name, payload, ignore) =>
      if chans == [] then Move(Skip, Quiet, Idle)
      else
        var c := chans[0];
        var next := Announcing(Job(Raw(name, c, payload), Tag(st.history.nextPid, c, ignore), chans[1..]));
        FindOrCreate(a, i, c, next)
    case Announcing(job) => Move(Count, Quiet, Telling(job))
    case Telling(job) => Move(Send(job.tag.chan, job.raw, job.tag.ignore, job.tag), Quiet, Fetching(job))
    case Scanning(job, unread) =>
      if unread == [] then Move(Skip, Quiet, Done(job))
      else if unread[0] in st.store.conns && st.store.conns[unread[0]] != i then
        Move(Skip, Quiet, if job.raw.payload.Some? then Sending(job) else Done(job))
      else Move(Skip, Quiet, Scanning(job, unread[1..]))
    case Sending(job) => Move(Skip, if job.raw.payload.Some? then Publish(job.tag.chan, NoteOf(job)) else Quiet, Done(job))
    case Hearing(c, note) =>
      if c !in a.channels then Move(Skip, Quiet, Idle)
      else
        var ignore := note.tag.ignore;
        var mine := ignore != "" && ignore in st.store.conns && st.store.conns[ignore] == i;
        Move(Skip, Quiet, Relaying(c, note, if mine then ignore else ""))
    case Relaying(c, note, skip) => Move(Send(c, RawOf(note), skip, note.tag), Quiet, Idle)
    case _ => Move(Skip, Quiet, node.task)
  }

  ghost function Plan(st: Cluster, l: Label): (m: Move)
    requires Enabled(st, l)
    ensures Poppable(st.listeners, m.redis)
  {
    var node := st.nodes[l.i];
    match l.act
    case Start(cmd) => Begin(st, l.i, node.app, cmd)
    case Hear(k) => Move(Skip, Pop(k), Hearing(st.listeners[k].chan, st.listeners[k].queue[0]))
    case Visit(c) =>
      var Closing(s, left) := node.task;
      if Subscribed(node.app, c, s) then Move(Exit(c, s), Quiet, Leaving(c, s, AtSet, Some(left - {c})))
      else Move(Skip, Quiet, Closing(s, left - {c}))
    case Listing(order) => Move(Skip, Quiet, Scanning(node.task.job, order))
    case Go => Proceed(st, l.i, node)
  }

  ghost function Record(h: History, m: Move): History {
    h.(used := if m.redis.SetConn? then h.used[m.redis.s := m.redis.i] else h.used,
       nextPid := if m.task.Announcing? then h.nextPid + 1 else h.nextPid,
       created := if m.redis.Listen? then h.created + multiset{(m.redis.i, m.redis.c)} else h.created,
       fired := if m.redis.Publish? then h.fired[m.redis.note.tag.pid := h.created] else h.fired)
  }

  ghost function Next(st: Cluster, l: Label): Cluster
    requires Enabled(st, l)
  {
    var m := Plan(st, l);
    Cluster(st.nodes[l.i := Node(Apply(st.nodes[l.i].app, m.op), m.task)],
            Commit(st.store, m.redis),
            Route(st.listeners, m.redis),
            Record(st.history, m))
  }

  const EMPTY_APP := App({}, map[], {}, Stats(0, 0, 0, 0, 0, 0), map[], [])

  ghost predicate Initial(st: Cluster) {
    && (forall i :: i in st.nodes ==> st.nodes[i] == Node(EMPTY_APP, Idle))
    && st.store == Store(map[], map[], map[], map[], map[])
    && st.listeners == []
    && st.history == History(map[], 0, multiset{}, map[])
  }

  /** A run is the sequence of its labels. */
  ghost predicate IsRun(st: Cluster, run: seq<Label>)
    decreases |run|
  {
    run == [] || (Enabled(st, run[0]) && IsRun(Next(st, run[0]), run[1..]))
  }

  ghost function After(st: Cluster, run: seq<Label>): Cluster
    requires IsRun(st, run)
    decreases |run|
  {
    if run == [] then st else After(Next(st, run[0]), run[1..])
  }

  ghost predicate Reachable(st: Cluster) {
    exists start, run :: Initial(start) && IsRun(start, run) && After(start, run) == st
  }
}
