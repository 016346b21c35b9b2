/** The subscription metadata and the user info in the registry: what the subscriber last sent, and nothing once it has left. */
module RegistryData {
  import opened Types
  import opened Names
  import opened Instance
  import opened Registry
  import opened Cluster
  import opened Safety
  import opened Mirror
  import opened Stored

  predicate OnEntry(t: Task, c: string, s: SocketId) { (t.Mirroring? || t.Leaving?) && t.c == c && t.s == s }

  /** The handler is about to change the metadata of the entry. */
  predicate MetaPending(t: Task, c: string, s: SocketId) {
    Filing(t, c, s) || (OnEntry(t, c, s) && (t.phase == AtSet || t.phase == AtMeta))
  }

  /** Or its user info. */
  predicate InfoPending(t: Task, c: string, s: SocketId) { Filing(t, c, s) || (OnEntry(t, c, s) && t.phase != AtDrop) }

  /** The metadata names the instance and the data of the subscription, if there is one. */
  predicate MetaAgrees(r: Store, i: InstanceId, c: string, s: SocketId, last: Option<ChannelData>) {
    if last.Some? then (c, s) in r.meta && r.meta[(c, s)] == Meta(i, last.value) else (c, s) !in r.meta
  }

  predicate InfoAgrees(r: Store, c: string, s: SocketId, last: Option<ChannelData>) {
    if last.Some? && IsPresence(c) then last.value.Member? && (c, s) in r.info && r.info[(c, s)] == last.value.userInfo
    else (c, s) !in r.info
  }

  /** The data with which the socket is subscribed, if it is. */
  ghost function Current(last: Option<ChannelData>, a: App, c: string, s: SocketId): Option<ChannelData> {
    if Subscribed(a, c, s) then last else None
  }

  /** The entry of a socket on its own instance. */
  ghost predicate DataAgrees(last: Option<ChannelData>, r: Store, i: InstanceId, node: Node, c: string, s: SocketId) {
    && (Filing(node.task, c, s) || (node.task.Mirroring? && OnEntry(node.task, c, s)) ==> last == Some(node.task.d))
    && (Subscribed(node.app, c, s) ==> last.Some?)
    && (!MetaPending(node.task, c, s) ==> MetaAgrees(r, i, c, s, Current(last, node.app, c, s)))
    && (!InfoPending(node.task, c, s) ==> InfoAgrees(r, c, s, Current(last, node.app, c, s)))
    && (!IsPresence(c) ==> (c, s) !in r.info)
  }

  /** How the data of an entry follows the handler. */
  ghost predicate DataStep(i: InstanceId, t: Task, m: Move) {
    if t.Mirroring? then
      m.op.Skip? &&
      match t.phase
      case AtSet => m.redis == SAdd(t.c, t.s) && m.task == Mirroring(t.c, t.s, t.d, AtMeta)
      case AtMeta =>
        && m.redis == SetMeta(t.c, t.s, Meta(i, t.d))
        && m.task == if IsPresence(t.c) && t.d.Member? then Mirroring(t.c, t.s, t.d, AtHash) else Idle
      case AtHash => !OnData(m.redis) && m.task == Mirroring(t.c, t.s, t.d, AtInfo)
      case AtInfo => t.d.Member? ==> m.redis == SetInfo(t.c, t.s, t.d.userInfo) && m.task == Idle
      case AtDrop => true
    else if t.Leaving? then
      match t.phase
      case AtSet => m.op.Skip? && !OnData(m.redis) && m.task == Leaving(t.c, t.s, AtMeta, t.rest)
      case AtMeta =>
        && m.op.Skip? && m.redis == DelMeta(t.c, t.s)
        && m.task == Leaving(t.c, t.s, if IsPresence(t.c) then AtHash else AtDrop, t.rest)
      case AtHash => m.op.Skip? && !OnData(m.redis) && m.task == Leaving(t.c, t.s, AtInfo, t.rest)
      case AtInfo => m.op.Skip? && m.redis == DelInfo(t.c, t.s) && m.task == Leaving(t.c, t.s, AtDrop, t.rest)
      case AtDrop => !OnData(m.redis) && !m.task.Mirroring? && !m.task.Leaving? && !m.task.Joining? && !m.op.Enter? && !m.op.Exit?
    else
      && !OnData(m.redis)
      && (m.task.Mirroring? <==> m.op.Enter? && Joined(m.op.c, m.op.d))
      && (m.task.Mirroring? ==> m.op == Enter(m.task.c, m.task.s, m.task.d) && m.task.phase == AtSet)
      && (m.task.Leaving? <==> m.op.Exit?) && (m.task.Leaving? ==> m.op == Exit(m.task.c, m.task.s) && m.task.phase == AtSet)
  }

  predicate OnData(op: RedisOp) { op.SetMeta? || op.DelMeta? || op.SetInfo? || op.DelInfo? }

  lemma PlanData(st: Cluster, l: Label)
    requires Enabled(st, l)
    ensures DataStep(l.i, st.nodes[l.i].task, Plan(st, l))
    ensures FilingStep(st.nodes[l.i].task, l.act, Plan(st, l))
  {
  }

  /** A step that does not concern the entry. */
  lemma Elsewhere(last: Option<ChannelData>, r: Store, op: RedisOp, i: InstanceId, node: Node, c: string, s: SocketId)
    requires DataAgrees(last, r, i, node, c, s) && (OnData(op) ==> op.c != c || op.s != s)
    ensures DataAgrees(last, Commit(r, op), i, node, c, s)
  {
  }

  /** The commands on the data of one entry. */
  lemma DataAfter(r: Store, op: RedisOp, c: string, s: SocketId)
    ensures OnData(op) && op.c == c && op.s == s ==>
      && (op.SetMeta? ==> (c, s) in Commit(r, op).meta && Commit(r, op).meta[(c, s)] == op.m)
      && (op.DelMeta? ==> (c, s) !in Commit(r, op).meta)
      && (op.SetInfo? ==> (c, s) in Commit(r, op).info && Commit(r, op).info[(c, s)] == op.info)
      && (op.DelInfo? ==> (c, s) !in Commit(r, op).info)
    ensures !((op.SetMeta? || op.DelMeta?) && op.c == c && op.s == s) ==> SameAt(r.meta, Commit(r, op).meta, (c, s))
    ensures !((op.SetInfo? || op.DelInfo?) && op.c == c && op.s == s) ==> SameAt(r.info, Commit(r, op).info, (c, s))
  {
  }

  predicate SameAt<V(==)>(m: map<(string, SocketId), V>, n: map<(string, SocketId), V>, k: (string, SocketId)) {
    (k in m <==> k in n) && (k in m ==> n[k] == m[k])
  }

  /** What the step of an instance respects. */
  ghost predicate Keeps(i: InstanceId, node: Node, act: Act, m: Move) {
    && DataStep(i, node.task, m) && FilingStep(node.task, act, m) && Legal(node.app, m.op)
    && TaskDecodes(node) && TaskFitsHere(node) && (m.op.Enter? ==> Joined(m.op.c, m.op.d))
  }

  ghost predicate TaskFitsHere(node: Node) {
    && (node.task.Mirroring? ==> Subscribed(node.app, node.task.c, node.task.s))
    && (node.task.Leaving? ==> !Subscribed(node.app, node.task.c, node.task.s))
  }

  lemma MirroringKeeps(
    last: Option<ChannelData>, r: Store, i: InstanceId, node: Node, act: Act, m: Move, b: App, c: string, s: SocketId)
    requires DataAgrees(last, r, i, node, c, s) && Keeps(i, node, act, m) && (node.task.Mirroring? || node.task.Leaving?)
    requires b.channels == node.app.channels || (node.task.Leaving? && node.task.phase == AtDrop)
    requires !act.Start? && (Subscribed(b, c, s) <==> Subscribed(node.app, c, s))
    ensures DataAgrees(last, Commit(r, m.redis), i, Node(b, m.task), c, s)
  {
    DataAfter(r, m.redis, c, s);
  }

  lemma OtherKeeps(
    last: Option<ChannelData>, next: Option<ChannelData>, r: Store, i: InstanceId, node: Node, act: Act, m: Move, b: App, c: string, s: SocketId)
    requires DataAgrees(last, r, i, node, c, s) && Keeps(i, node, act, m) && !node.task.Mirroring? && !node.task.Leaving?
    requires next == if act.Start? && act.cmd.Subscribe? && act.cmd.c == c && act.cmd.s == s then Some(act.cmd.d) else last
    requires Subscribed(b, c, s) <==> (Subscribed(node.app, c, s) && m.op != Exit(c, s)) || (m.op.Enter? && m.op.c == c && m.op.s == s)
    ensures DataAgrees(next, Commit(r, m.redis), i, Node(b, m.task), c, s)
  {
    DataAfter(r, m.redis, c, s);
  }

  /** The entry of a socket: as its handler has it on its instance, and absent before it was opened. */
  ghost predicate EntryKept(last: Option<ChannelData>, st: Cluster, i: InstanceId, c: string, s: SocketId)
    requires i in st.nodes
  {
    && (s in st.history.used && st.history.used[s] == i ==> DataAgrees(last, st.store, i, st.nodes[i], c, s))
    && (s !in st.history.used ==> (c, s) !in st.store.meta && (c, s) !in st.store.info)
  }

  /** The data commands of a handler concern a socket of its own instance. */
  lemma DataIsOwn(st: Cluster, l: Label)
    requires Enabled(st, l) && NodeSound(st, l.i)
    ensures var op := Plan(st, l).redis; OnData(op) ==> op.s in st.history.used && st.history.used[op.s] == l.i
  {
    var t := st.nodes[l.i].task;
    assert t.Mirroring? || t.Leaving? ==> OwnedSocket(st.history, st.store, l.i, t, t.s);
  }

  lemma OpensAsConnecting(st: Cluster, l: Label)
    requires Enabled(st, l) && Plan(st, l).redis.SetConn?
    ensures Plan(st, l).op.Skip? && Plan(st, l).task.Connecting?
  {
  }

  lemma PlanKeeps(st: Cluster, l: Label)
    requires Enabled(st, l) && NodeSound(st, l.i) && TaskDecodes(st.nodes[l.i])
    ensures Keeps(l.i, st.nodes[l.i], l.act, Plan(st, l))
  {
    PlanData(st, l);
    PlanIsLegal(st, l);
    PlanMirrorTasks(st, l);
  }

  /** While an entry is mirrored, only an emptied channel goes, and no subscription with it. */
  lemma PlanLeavesSubscriptions(st: Cluster, l: Label, c: string, s: SocketId)
    requires Enabled(st, l) && NodeSound(st, l.i) && (st.nodes[l.i].task.Mirroring? || st.nodes[l.i].task.Leaving?)
    ensures var b := Apply(st.nodes[l.i].app, Plan(st, l).op);
      && !l.act.Start? && (Subscribed(b, c, s) <==> Subscribed(st.nodes[l.i].app, c, s))
      && (b.channels == st.nodes[l.i].app.channels || (st.nodes[l.i].task.Leaving? && st.nodes[l.i].task.phase == AtDrop))
  {
  }

  lemma OwnEntryNext(last: Option<ChannelData>, st: Cluster, l: Label, c: string, s: SocketId)
    requires Enabled(st, l) && NodeSound(st, l.i) && TaskDecodes(st.nodes[l.i])
    requires DataAgrees(last, st.store, l.i, st.nodes[l.i], c, s)
    ensures DataAgrees(DataOf(last, l, l.i, c, s), Next(st, l).store, l.i, Next(st, l).nodes[l.i], c, s)
  {
    var node, m := st.nodes[l.i], Plan(st, l);
    var b := Apply(node.app, m.op);
    PlanKeeps(st, l);
    if node.task.Mirroring? || node.task.Leaving? {
      PlanLeavesSubscriptions(st, l, c, s);
      MirroringKeeps(last, st.store, l.i, node, l.act, m, b, c, s);
    } else {
      SubscribedAfter(node.app, m.op, c, s);
      OtherKeeps(last, DataOf(last, l, l.i, c, s), st.store, l.i, node, l.act, m, b, c, s);
    }
  }

  /** A socket that is opened on this instance has no entry yet. */
  lemma OpenedNext(last: Option<ChannelData>, st: Cluster, l: Label, c: string, s: SocketId)
    requires Enabled(st, l) && Safe(st) && Plan(st, l).redis == SetConn(s, l.i) && s !in st.history.used
    requires (c, s) !in st.store.meta && (c, s) !in st.store.info
    ensures DataAgrees(last, Next(st, l).store, l.i, Next(st, l).nodes[l.i], c, s)
  {
    assert NodeSound(st, l.i);
    OpensAsConnecting(st, l);
    UnopenedNotSubscribed(st, l.i, c, s);
  }

  /** A step of the instance on which the socket may be. */
  lemma EntryKeptHere(last: Option<ChannelData>, st: Cluster, l: Label, c: string, s: SocketId)
    requires Enabled(st, l) && Safe(st) && AllMirrored(st) && EntryKept(last, st, l.i, c, s)
    ensures EntryKept(DataOf(last, l, l.i, c, s), Next(st, l), l.i, c, s)
  {
    assert NodeSound(st, l.i);
    if s in st.history.used {
      if st.history.used[s] == l.i {
        OwnEntryNext(last, st, l, c, s);
      }
      DataIsOwn(st, l);
      PlanRegistersOwn(st, l);
    } else {
      UnusedNext(st, l, c, s);
      if Plan(st, l).redis == SetConn(s, l.i) {
        OpenedNext(DataOf(last, l, l.i, c, s), st, l, c, s);
      }
    }
  }

  /** A socket that is not open has no entry. */
  lemma UnusedNext(st: Cluster, l: Label, c: string, s: SocketId)
    requires Enabled(st, l) && NodeSound(st, l.i) && s !in st.history.used
    requires (c, s) !in st.store.meta && (c, s) !in st.store.info
    ensures (c, s) !in Next(st, l).store.meta && (c, s) !in Next(st, l).store.info
    ensures s in Next(st, l).history.used ==> Plan(st, l).redis == SetConn(s, l.i)
  {
    DataIsOwn(st, l);
    PlanRegistersOwn(st, l);
    DataAfter(st.store, Plan(st, l).redis, c, s);
  }

  /** A step of another instance. */
  lemma EntryKeptThere(last: Option<ChannelData>, st: Cluster, l: Label, i: InstanceId, c: string, s: SocketId)
    requires Enabled(st, l) && Safe(st) && i in st.nodes && i != l.i && EntryKept(last, st, i, c, s)
    ensures EntryKept(last, Next(st, l), i, c, s)
  {
    assert NodeSound(st, l.i);
    DataIsOwn(st, l);
    PlanRegistersOwn(st, l);
    if s in st.history.used {
      if st.history.used[s] == i {
        Elsewhere(last, st.store, Plan(st, l).redis, i, st.nodes[i], c, s);
      }
    } else {
      UnusedNext(st, l, c, s);
    }
  }

  lemma EntryKeptNext(last: Option<ChannelData>, st: Cluster, l: Label, i: InstanceId, c: string, s: SocketId)
    requires Enabled(st, l) && Safe(st) && AllMirrored(st) && i in st.nodes && EntryKept(last, st, i, c, s)
    ensures EntryKept(DataOf(last, l, i, c, s), Next(st, l), i, c, s)
  {
    if i == l.i {
      EntryKeptHere(last, st, l, c, s);
    } else {
      EntryKeptThere(last, st, l, i, c, s);
    }
  }

  lemma {:induction false} EntryKeptAlways(
    last: Option<ChannelData>, st: Cluster, run: seq<Label>, i: InstanceId, c: string, s: SocketId)
    requires Safe(st) && AllMirrored(st) && IsRun(st, run) && Decodes(run) && i in st.nodes && EntryKept(last, st, i, c, s)
    ensures i in After(st, run).nodes && EntryKept(LastData(last, run, i, c, s), After(st, run), i, c, s)
    decreases |run|
  {
    if run != [] {
      assert LabelDecodes(run[0]);
      EntryKeptNext(last, st, run[0], i, c, s);
      AllMirroredNext(st, run[0]);
      SafeNext(st, run[0]);
      EntryKeptAlways(DataOf(last, run[0], i, c, s), Next(st, run[0]), run[1..], i, c, s);
    }
  }

  /**
   On every run whose presence data decodes: once no handler works on a socket's entry for a channel, the
   metadata holds the instance and the data with which it last subscribed there, and for a presence channel
   the user info of that data; there is neither if it is not subscribed.
   */
  lemma RegistryHoldsTheData(st: Cluster, run: seq<Label>, end: Cluster, i: InstanceId, c: string, s: SocketId)
    requires Initial(st) && IsRun(st, run) && Decodes(run) && end == After(st, run)
    requires i in st.nodes && s in end.history.used && end.history.used[s] == i
    requires i in end.nodes && !InfoPending(end.nodes[i].task, c, s)
    ensures var now := if Subscribed(end.nodes[i].app, c, s) then Sent(run, i, c, s) else None;
      && (Subscribed(end.nodes[i].app, c, s) ==> now.Some?)
      && MetaAgrees(end.store, i, c, s, now) && InfoAgrees(end.store, c, s, now)
  {
    InitiallySafe(st);
    InitiallyMirrored(st);
    EntryKeptAlways(None, st, run, i, c, s);
  }
}
