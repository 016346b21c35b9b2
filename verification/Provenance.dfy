/** Where everything comes from: frames, messages, webhooks and stored data all go back to a command of the run. */
module Provenance {
  import opened Types
  import opened Names
  import opened Instance
  import opened Registry
  import opened Cluster
  import opened Frames
  import opened Safety
  import opened Output
  import Delivery

  // ---------- what a command asks for ----------

  /** The command publishes event `e` to its channel, skipping the socket that the tag names. */
  predicate Asks(cmd: Command, t: Tag, e: Raw) {
    t.chan == e.chan &&
    match cmd
    case Client(s, raw) => raw == e && s == t.ignore
    case Post(chans, name, payload, ignore) => e.chan in chans && name == e.name && payload == e.payload && ignore == t.ignore
    case _ => false
  }

  ghost predicate Asked(past: set<Label>, t: Tag, e: Raw) {
    exists l :: l in past && l.act.Start? && Asks(l.act.cmd, t, e)
  }

  /** Some POST names these channels, among others. */
  ghost predicate PostAsked(past: set<Label>, chans: seq<string>, name: string, payload: Option<Json>, ignore: SocketId) {
    exists l :: l in past && l.act.Start? && PostOf(l.act.cmd, chans, name, payload, ignore)
  }

  predicate PostOf(cmd: Command, chans: seq<string>, name: string, payload: Option<Json>, ignore: SocketId) {
    && cmd.Post? && cmd.name == name && cmd.payload == payload && cmd.ignore == ignore
    && forall c :: c in chans ==> c in cmd.chans
  }

  /** The socket asked to subscribe with this data, on this instance. */
  ghost predicate JoinAsked(past: set<Label>, i: InstanceId, c: string, s: SocketId, d: ChannelData) {
    Label(i, Start(Subscribe(c, s, d))) in past
  }

  /** The user ID a presence subscription has. */
  function UserOf(d: ChannelData): UserId { if d.Member? then d.userId else "" }

  // ---------- what goes back to a command ----------

  ghost predicate NoteFrom(past: set<Label>, n: Note) { Asked(past, n.tag, Raw(n.name, n.chan, Some(n.payload))) }

  ghost predicate JobFrom(past: set<Label>, job: Job) {
    && Asked(past, job.tag, job.raw)
    && (job.after != [] ==> PostAsked(past, job.after, job.raw.name, job.raw.payload, job.tag.ignore))
  }

  ghost predicate TaskFrom(past: set<Label>, i: InstanceId, t: Task) {
    match t
    case Joining(c, s, d) => JoinAsked(past, i, c, s, d)
    case Mirroring(c, s, d, _) => JoinAsked(past, i, c, s, d)
    case Posting(chans, name, payload, ignore) => PostAsked(past, chans, name, payload, ignore)
    case Announcing(job) => JobFrom(past, job)
    case Telling(job) => JobFrom(past, job)
    case Fetching(job) => JobFrom(past, job)
    case Scanning(job, _) => JobFrom(past, job)
    case Sending(job) => JobFrom(past, job)
    case Hearing(_, note) => NoteFrom(past, note)
    case Relaying(_, note, _) => NoteFrom(past, note)
    case _ => true
  }

  ghost predicate EntryFrom(past: set<Label>, i: InstanceId, c: string, s: SocketId, x: Sub) {
    exists d :: JoinAsked(past, i, c, s, d) && Stores(c, d, x)
  }

  /** A frame on instance `i`: an event somebody published, a member who joined or left, the socket's own confirmation. */
  ghost predicate Justified(past: set<Label>, i: InstanceId, s: SocketId, m: Msg) {
    match m
    case Event(name, chan, payload, tag) => Asked(past, tag, Raw(name, chan, Some(payload)))
    case MemberAdded(c, d) => IsPresence(c) && d.Member? && exists u :: u != s && JoinAsked(past, i, c, u, d)
    case MemberRemoved(c, id) => IsPresence(c) && exists u, d :: u != s && JoinAsked(past, i, c, u, d) && UserOf(d) == id
    case Succeeded(c, ids, users, count) =>
      && (exists d :: JoinAsked(past, i, c, s, d) && !Refused(c, d))
      && (!IsPresence(c) ==> ids == multiset{} && users == {} && count == 0)
    case _ => true
  }

  ghost function FrameFrom(past: set<Label>, i: InstanceId): (SocketId, Msg) -> bool {
    (s: SocketId, m: Msg) => Justified(past, i, s, m)
  }

  /** A webhook of instance `i`. */
  ghost predicate HookFrom(past: set<Label>, i: InstanceId, h: Hook) {
    match h
    case ClientEvent(c, event, payload, s, u) =>
      && IsClientEvent(event) && (exists pid :: Asked(past, Tag(pid, c, s), Raw(event, c, Some(payload))))
      && (if IsPresence(c) then exists d :: JoinAsked(past, i, c, s, d) && UserOf(d) == u else u == "")
    case MemberJoined(c, u) => IsPresence(c) && exists s, d :: JoinAsked(past, i, c, s, d) && d.Member? && UserOf(d) == u
    case MemberLeft(c, u) => IsPresence(c) && exists s, d :: JoinAsked(past, i, c, s, d) && UserOf(d) == u
    case Occupied(c) => exists s, d :: JoinAsked(past, i, c, s, d)
    case Vacated(c) => exists s, d :: JoinAsked(past, i, c, s, d)
  }

  ghost predicate EntriesFrom(past: set<Label>, i: InstanceId, a: App) {
    forall c, s :: Subscribed(a, c, s) ==> EntryFrom(past, i, c, s, a.channels[c][s])
  }

  ghost predicate HooksFrom(past: set<Label>, i: InstanceId, hooks: seq<Hook>) {
    forall k :: 0 <= k < |hooks| ==> HookFrom(past, i, hooks[k])
  }

  ghost predicate NodeFrom(past: set<Label>, i: InstanceId, node: Node) {
    && TaskFrom(past, i, node.task) && EntriesFrom(past, i, node.app)
    && AllFrames(node.app.logs, FrameFrom(past, i)) && HooksFrom(past, i, node.app.hooks)
  }

  ghost predicate QueuesFrom(past: set<Label>, ls: seq<Listener>) {
    forall k, m :: 0 <= k < |ls| && 0 <= m < |ls[k].queue| ==> NoteFrom(past, ls[k].queue[m])
  }

  ghost predicate Sourced(past: set<Label>, st: Cluster) {
    (forall i :: i in st.nodes ==> NodeFrom(past, i, st.nodes[i])) && QueuesFrom(past, st.listeners)
  }

  // ---------- more commands justify no less ----------

  lemma AskedMore(past: set<Label>, more: set<Label>, t: Tag, e: Raw)
    requires past <= more && Asked(past, t, e)
    ensures Asked(more, t, e)
  {
  }

  lemma JoinsMore(past: set<Label>, more: set<Label>)
    requires past <= more
    ensures forall i, c, s, d :: JoinAsked(past, i, c, s, d) ==> JoinAsked(more, i, c, s, d)
  {
  }

  lemma TaskMore(past: set<Label>, more: set<Label>, i: InstanceId, t: Task)
    requires past <= more && TaskFrom(past, i, t)
    ensures TaskFrom(more, i, t)
  {
  }

  lemma FrameMore(past: set<Label>, more: set<Label>, i: InstanceId, s: SocketId, m: Msg)
    requires past <= more && Justified(past, i, s, m)
    ensures Justified(more, i, s, m)
  {
    JoinsMore(past, more);
  }

  lemma HookMore(past: set<Label>, more: set<Label>, i: InstanceId, h: Hook)
    requires past <= more && HookFrom(past, i, h)
    ensures HookFrom(more, i, h)
  {
    JoinsMore(past, more);
    if h.ClientEvent? {
      var pid :| Asked(past, Tag(pid, h.chan, h.socketId), Raw(h.event, h.chan, Some(h.payload)));
      AskedMore(past, more, Tag(pid, h.chan, h.socketId), Raw(h.event, h.chan, Some(h.payload)));
    }
  }

  lemma NodeMore(past: set<Label>, more: set<Label>, i: InstanceId, node: Node)
    requires past <= more && NodeFrom(past, i, node)
    ensures NodeFrom(more, i, node)
  {
    TaskMore(past, more, i, node.task);
    forall c, s | Subscribed(node.app, c, s)
      ensures EntryFrom(more, i, c, s, node.app.channels[c][s])
    {
      assert EntryFrom(past, i, c, s, node.app.channels[c][s]);
    }
    forall s, k | 0 <= k < |LogOf(node.app.logs, s)|
      ensures FrameFrom(more, i)(s, LogOf(node.app.logs, s)[k])
    {
      assert FrameFrom(past, i)(s, LogOf(node.app.logs, s)[k]);
      FrameMore(past, more, i, s, LogOf(node.app.logs, s)[k]);
    }
    forall k | 0 <= k < |node.app.hooks|
      ensures HookFrom(more, i, node.app.hooks[k])
    {
      HookMore(past, more, i, node.app.hooks[k]);
    }
  }

  // ---------- one step ----------

  /** What a step does goes back to a command. */
  ghost predicate MoveFrom(past: set<Label>, i: InstanceId, a: App, m: Move) {
    && TaskFrom(past, i, m.task)
    && (m.redis.Publish? ==> NoteFrom(past, m.redis.note))
    && (m.op.Enter? ==> JoinAsked(past, i, m.op.c, m.op.s, m.op.d))
    && (m.op.Send? ==> SendFrom(past, a, m.op))
    && (m.op.Reply? ==> !m.op.m.Event? && !m.op.m.Succeeded? && !m.op.m.MemberAdded? && !m.op.m.MemberRemoved?)
  }

  ghost predicate SendFrom(past: set<Label>, a: App, op: Op)
    requires op.Send?
  {
    && op.tag.chan == op.c && (op.e.payload.Some? ==> Asked(past, op.tag, op.e))
    && (Subscribed(a, op.c, op.ignore) ==> op.ignore == op.tag.ignore)
  }

  lemma CommandMoves(past: set<Label>, st: Cluster, l: Label)
    requires Enabled(st, l) && l.act.Start?
    ensures MoveFrom(past + {l}, l.i, st.nodes[l.i].app, Plan(st, l))
  {
    assert l in past + {l};
    assert l == Label(l.i, Start(l.act.cmd));
  }

  lemma ChoiceMoves(past: set<Label>, st: Cluster, l: Label)
    requires Enabled(st, l) && !l.act.Start? && !l.act.Go?
    requires NodeFrom(past, l.i, st.nodes[l.i]) && QueuesFrom(past, st.listeners)
    ensures MoveFrom(past, l.i, st.nodes[l.i].app, Plan(st, l))
  {
  }

  lemma PostingMoves(past: set<Label>, chans: seq<string>, e: Raw, t: Tag)
    requires chans != [] && PostAsked(past, chans, e.name, e.payload, t.ignore) && e.chan == t.chan == chans[0]
    ensures JobFrom(past, Job(e, t, chans[1..]))
  {
    var l :| l in past && l.act.Start? && PostOf(l.act.cmd, chans, e.name, e.payload, t.ignore);
    assert Asks(l.act.cmd, t, e);
    assert PostOf(l.act.cmd, chans[1..], e.name, e.payload, t.ignore);
  }

  lemma PostMoves(past: set<Label>, st: Cluster, l: Label)
    requires Enabled(st, l) && l.act.Go? && st.nodes[l.i].task.Posting? && TaskFrom(past, l.i, st.nodes[l.i].task)
    ensures MoveFrom(past, l.i, st.nodes[l.i].app, Plan(st, l))
  {
    var Posting(chans, name, payload, ignore) := st.nodes[l.i].task;
    if chans != [] {
      PostingMoves(past, chans, Raw(name, chans[0], payload), Tag(st.history.nextPid, chans[0], ignore));
    }
  }

  /** A subscribed socket has a name, so a relay that skips a subscriber skips the sender. */
  lemma RelayMoves(past: set<Label>, st: Cluster, l: Label)
    requires Enabled(st, l) && l.act.Go? && Delivery.NotesFit(st) && NodeSound(st, l.i)
    requires st.nodes[l.i].task.Relaying? && TaskFrom(past, l.i, st.nodes[l.i].task)
    ensures MoveFrom(past, l.i, st.nodes[l.i].app, Plan(st, l))
  {
    var node := st.nodes[l.i];
    var Relaying(c, note, skip) := node.task;
    assert Delivery.NoteFits(note, c, st.history.fired.Keys);
    if Subscribed(node.app, c, skip) {
      assert OwnedSocket(st.history, st.store, l.i, node.task, skip);
    }
  }

  lemma JobMoves(past: set<Label>, st: Cluster, l: Label)
    requires Enabled(st, l) && l.act.Go? && Delivery.HasJob(st.nodes[l.i].task) && TaskFrom(past, l.i, st.nodes[l.i].task)
    ensures MoveFrom(past, l.i, st.nodes[l.i].app, Plan(st, l))
  {
    var job := st.nodes[l.i].task.job;
    assert job.tag.chan == job.raw.chan by {
      var k :| k in past && k.act.Start? && Asks(k.act.cmd, job.tag, job.raw);
    }
  }

  lemma OtherMoves(past: set<Label>, st: Cluster, l: Label)
    requires Enabled(st, l) && l.act.Go? && TaskFrom(past, l.i, st.nodes[l.i].task)
    requires var t := st.nodes[l.i].task; !t.Posting? && !t.Relaying? && !Delivery.HasJob(t)
    ensures MoveFrom(past, l.i, st.nodes[l.i].app, Plan(st, l))
  {
  }

  lemma ProceedMoves(past: set<Label>, st: Cluster, l: Label)
    requires Enabled(st, l) && l.act.Go? && Delivery.NotesFit(st) && NodeSound(st, l.i)
    requires TaskFrom(past, l.i, st.nodes[l.i].task)
    ensures MoveFrom(past, l.i, st.nodes[l.i].app, Plan(st, l))
  {
    var t := st.nodes[l.i].task;
    if t.Posting? {
      PostMoves(past, st, l);
    } else if t.Relaying? {
      RelayMoves(past, st, l);
    } else if Delivery.HasJob(t) {
      JobMoves(past, st, l);
    } else {
      OtherMoves(past, st, l);
    }
  }

  lemma PlanMoves(past: set<Label>, st: Cluster, l: Label)
    requires Enabled(st, l) && Delivery.NotesFit(st) && NodeSound(st, l.i) && Sourced(past, st)
    ensures MoveFrom(past + {l}, l.i, st.nodes[l.i].app, Plan(st, l))
  {
    if l.act.Start? {
      CommandMoves(past, st, l);
    } else {
      NodeMore(past, past + {l}, l.i, st.nodes[l.i]);
      QueuesMore(past, past + {l}, st.listeners);
      if l.act.Go? {
        ProceedMoves(past + {l}, st, l);
      } else {
        ChoiceMoves(past + {l}, st, l);
      }
    }
  }

  lemma QueuesMore(past: set<Label>, more: set<Label>, ls: seq<Listener>)
    requires past <= more && QueuesFrom(past, ls)
    ensures QueuesFrom(more, ls)
  {
    forall k, m | 0 <= k < |ls| && 0 <= m < |ls[k].queue|
      ensures NoteFrom(more, ls[k].queue[m])
    {
      var n := ls[k].queue[m];
      AskedMore(past, more, n.tag, Raw(n.name, n.chan, Some(n.payload)));
    }
  }

  lemma WrittenFrom(past: set<Label>, i: InstanceId, a: App, m: Move, s: SocketId, k: nat)
    requires MoveFrom(past, i, a, m) && EntriesFrom(past, i, a) && k < |Written(a, m.op, s)|
    ensures Justified(past, i, s, Written(a, m.op, s)[k])
  {
    if m.op.Exit? {
      assert EntryFrom(past, i, m.op.c, m.op.s, a.channels[m.op.c][m.op.s]);
    }
  }

  lemma EntersFrom(past: set<Label>, i: InstanceId, a: App, c: string, s: SocketId, d: ChannelData, k: nat)
    requires JoinAsked(past, i, c, s, d) && k < |Fires(a, Enter(c, s, d))|
    ensures HookFrom(past, i, Fires(a, Enter(c, s, d))[k])
  {
    EnterHooks(a, c, s, d, k);
  }

  lemma ExitsFrom(past: set<Label>, i: InstanceId, a: App, c: string, s: SocketId, k: nat)
    requires EntriesFrom(past, i, a) && k < |Fires(a, Exit(c, s))|
    ensures HookFrom(past, i, Fires(a, Exit(c, s))[k])
  {
    ExitHooks(a, c, s, k);
    var d :| JoinAsked(past, i, c, s, d) && Stores(c, d, a.channels[c][s]);
  }

  lemma SendsFrom(past: set<Label>, i: InstanceId, a: App, op: Op, k: nat)
    requires op.Send? && SendFrom(past, a, op) && EntriesFrom(past, i, a) && k < |Fires(a, op)|
    ensures HookFrom(past, i, Fires(a, op)[k])
  {
    AskedWith(past, op.tag, op.e);
    var d :| JoinAsked(past, i, op.c, op.ignore, d) && Stores(op.c, d, a.channels[op.c][op.ignore]);
  }

  lemma FiredFrom(past: set<Label>, i: InstanceId, a: App, m: Move, k: nat)
    requires MoveFrom(past, i, a, m) && EntriesFrom(past, i, a) && k < |Fires(a, m.op)|
    ensures HookFrom(past, i, Fires(a, m.op)[k])
  {
    match m.op
    case Enter(c, s, d) => EntersFrom(past, i, a, c, s, d, k);
    case Exit(c, s) => ExitsFrom(past, i, a, c, s, k);
    case Send(_, _, _, _) => SendsFrom(past, i, a, m.op, k);
    case _ =>
  }

  lemma AskedWith(past: set<Label>, t: Tag, e: Raw)
    requires Asked(past, t, e)
    ensures e.chan == t.chan && exists pid :: Asked(past, Tag(pid, e.chan, t.ignore), e)
  {
    var l :| l in past && l.act.Start? && Asks(l.act.cmd, t, e);
    assert t == Tag(t.pid, e.chan, t.ignore);
  }

  lemma NodeAfter(past: set<Label>, i: InstanceId, node: Node, m: Move)
    requires NodeFrom(past, i, node) && MoveFrom(past, i, node.app, m) && Legal(node.app, m.op)
    ensures NodeFrom(past, i, Node(Apply(node.app, m.op), m.task))
  {
    var a, b := node.app, Apply(node.app, m.op);
    forall c, s | Subscribed(b, c, s)
      ensures EntryFrom(past, i, c, s, b.channels[c][s])
    {
      StoresExactly(a, m.op, c, s);
    }
    forall s, k | 0 <= k < |Written(a, m.op, s)|
      ensures FrameFrom(past, i)(s, Written(a, m.op, s)[k])
    {
      WrittenFrom(past, i, a, m, s, k);
    }
    WrittenKeeps(a, m.op, FrameFrom(past, i));
    HooksAfter(past, i, a, m);
  }

  lemma HooksAfter(past: set<Label>, i: InstanceId, a: App, m: Move)
    requires MoveFrom(past, i, a, m) && EntriesFrom(past, i, a) && HooksFrom(past, i, a.hooks)
    ensures HooksFrom(past, i, Apply(a, m.op).hooks)
  {
    FiresExactly(a, m.op);
    forall k | 0 <= k < |Fires(a, m.op)|
      ensures HookFrom(past, i, Fires(a, m.op)[k])
    {
      FiredFrom(past, i, a, m, k);
    }
  }

  lemma QueuesAfter(past: set<Label>, ls: seq<Listener>, op: RedisOp)
    requires QueuesFrom(past, ls) && Poppable(ls, op) && (op.Publish? ==> NoteFrom(past, op.note))
    ensures QueuesFrom(past, Route(ls, op))
  {
  }

  lemma SourcedNext(past: set<Label>, st: Cluster, l: Label)
    requires Enabled(st, l) && Safe(st) && Delivery.NotesFit(st) && Sourced(past, st)
    ensures Sourced(past + {l}, Next(st, l))
  {
    assert NodeSound(st, l.i);
    PlanMoves(past, st, l);
    PlanIsLegal(st, l);
    forall i | i in st.nodes
      ensures NodeFrom(past + {l}, i, Next(st, l).nodes[i])
    {
      NodeMore(past, past + {l}, i, st.nodes[i]);
      if i == l.i {
        NodeAfter(past + {l}, i, st.nodes[i], Plan(st, l));
      }
    }
    QueuesMore(past, past + {l}, st.listeners);
    QueuesAfter(past + {l}, st.listeners, Plan(st, l).redis);
  }

  // ---------- whole runs ----------

  ghost function Labels(run: seq<Label>): set<Label> { set l | l in run }

  lemma LabelsFirst(run: seq<Label>)
    requires run != []
    ensures Labels(run) == {run[0]} + Labels(run[1..])
  {
    assert run == [run[0]] + run[1..];
  }

  lemma {:induction false} SourcedAlways(past: set<Label>, st: Cluster, run: seq<Label>)
    requires Safe(st) && Delivery.Numbered(st) && Sourced(past, st) && IsRun(st, run)
    ensures Sourced(past + Labels(run), After(st, run))
    decreases |run|
  {
    if run == [] {
      assert past + Labels(run) == past;
    } else {
      SourcedNext(past, st, run[0]);
      SafeNext(st, run[0]);
      Delivery.NumberedNext(st, run[0]);
      SourcedAlways(past + {run[0]}, Next(st, run[0]), run[1..]);
      LabelsFirst(run);
      assert past + {run[0]} + Labels(run[1..]) == past + Labels(run);
    }
  }

  /** On every run from the start, everything goes back to the commands of the run. */
  lemma RunIsSourced(st: Cluster, run: seq<Label>)
    requires Initial(st) && IsRun(st, run)
    ensures Sourced(Labels(run), After(st, run))
  {
    InitiallySafe(st);
    SourcedAlways({}, st, run);
    assert {} + Labels(run) == Labels(run);
  }

  /** Every frame in every log is justified by a command of the run. */
  lemma NothingIsMadeUp(st: Cluster, run: seq<Label>, i: InstanceId, s: SocketId, k: nat)
    requires Initial(st) && IsRun(st, run)
    requires i in After(st, run).nodes && k < |LogOf(After(st, run).nodes[i].app.logs, s)|
    ensures Justified(Labels(run), i, s, LogOf(After(st, run).nodes[i].app.logs, s)[k])
  {
    RunIsSourced(st, run);
    assert FrameFrom(Labels(run), i)(s, LogOf(After(st, run).nodes[i].app.logs, s)[k]);
  }

  /** And so is every webhook. */
  lemma NoHookIsMadeUp(st: Cluster, run: seq<Label>, i: InstanceId, k: nat)
    requires Initial(st) && IsRun(st, run)
    requires i in After(st, run).nodes && k < |After(st, run).nodes[i].app.hooks|
    ensures HookFrom(Labels(run), i, After(st, run).nodes[i].app.hooks[k])
  {
    RunIsSourced(st, run);
    assert HooksFrom(Labels(run), i, After(st, run).nodes[i].app.hooks);
  }
}
