/** The registry mirrors the local subscriptions of all instances, if presence data decodes. */
module Mirror {
  import opened Types
  import opened Names
  import opened Instance
  import opened Registry
  import opened Cluster
  import opened Safety
  import Handlers

  /** Every subscribe command of the run carries data its channel accepts. */
  ghost predicate Decodes(run: seq<Label>) {
    forall k :: 0 <= k < |run| ==> LabelDecodes(run[k])
  }

  predicate LabelDecodes(l: Label) {
    l.act.Start? && l.act.cmd.Subscribe? ==> Joined(l.act.cmd.c, l.act.cmd.d)
  }

  /** The handler is about to change the registry's set entry for `s`. */
  predicate SetPending(t: Task, c: string, s: SocketId) {
    (t.Mirroring? || t.Leaving?) && t.c == c && t.s == s && t.phase == AtSet
  }

  /** The handler is about to change the presence hash entry for `s`. */
  predicate HashPending(t: Task, c: string, s: SocketId) {
    (t.Mirroring? || t.Leaving?) && t.c == c && t.s == s && (t.phase == AtSet || t.phase == AtMeta || t.phase == AtHash)
  }

  /** The presence hash gives the socket its local user ID. */
  ghost predicate HashAgrees(r: Store, a: App, c: string, s: SocketId) {
    if Subscribed(a, c, s) then s in Presence(r, c) && Presence(r, c)[s] == a.channels[c][s].id
    else s !in Presence(r, c)
  }

  ghost predicate EntryMirrored(r: Store, node: Node, c: string, s: SocketId) {
    && (!SetPending(node.task, c, s) ==> (s in Members(r, c) <==> Subscribed(node.app, c, s)))
    && (IsPresence(c) && !HashPending(node.task, c, s) ==> HashAgrees(r, node.app, c, s))
  }

  /** The entries of all sockets opened on `i`. */
  ghost predicate Mirrored(h: History, r: Store, i: InstanceId, node: Node) {
    forall c, s :: s in h.used && h.used[s] == i ==> EntryMirrored(r, node, c, s)
  }

  ghost predicate TaskDecodes(node: Node) {
    match node.task
    case Joining(c, _, d) => Joined(c, d)
    case Mirroring(c, s, d, phase) =>
      && phase != AtDrop
      && Subscribed(node.app, c, s)
      && (phase == AtHash || phase == AtInfo ==> IsPresence(c))
      && (IsPresence(c) ==> d.Member? && node.app.channels[c][s].id == d.userId)
    case Leaving(c, s, phase, _) =>
      !Subscribed(node.app, c, s) && (phase == AtHash || phase == AtInfo ==> IsPresence(c))
    case _ => true
  }

  /** The registry knows only sockets that were opened, and hashes only for presence channels. */
  ghost predicate KnownOnly(h: History, r: Store) {
    forall c, s ::
      && (s in Members(r, c) ==> s in h.used)
      && (s in Presence(r, c) ==> s in h.used && IsPresence(c))
  }

  ghost predicate AllMirrored(st: Cluster) {
    && KnownOnly(st.history, st.store)
    && (forall i :: i in st.nodes ==>
          Mirrored(st.history, st.store, i, st.nodes[i]) && TaskDecodes(st.nodes[i]))
    && (forall s :: s in st.history.used ==> st.history.used[s] in st.nodes)
  }

  /** The registry calls of a handler concern a socket of its own instance. */
  ghost predicate CallsOwn(h: History, i: InstanceId, node: Node, m: Move) {
    && (m.redis.SAdd? || m.redis.SRem? || m.redis.HSet? || m.redis.HDel? ==>
          m.redis.s in h.used && h.used[m.redis.s] == i)
    && (m.redis.SetConn? ==> m.redis.s !in h.used && m.redis.i == i)
  }

  lemma PlanCallsOwn(st: Cluster, l: Label)
    requires Enabled(st, l) && NodeSound(st, l.i)
    ensures CallsOwn(st.history, l.i, st.nodes[l.i], Plan(st, l))
  {
    var t := st.nodes[l.i].task;
    assert t.Mirroring? || t.Leaving? ==> OwnedSocket(st.history, st.store, l.i, t, t.s);
  }

  /** How the mirror follows a local change: the entry that is now pending is the one that changed. */
  ghost predicate Follows(node: Node, m: Move) {
    var t := node.task;
    && (m.op.Enter? ==>
          && m.redis.Quiet? && t == Joining(m.op.c, m.op.s, m.op.d)
          && m.task == Mirroring(m.op.c, m.op.s, m.op.d, AtSet))
    && (m.op.Exit? ==>
          && m.redis.Quiet? && m.task.Leaving?
          && m.task.c == m.op.c && m.task.s == m.op.s && m.task.phase == AtSet)
    && (t.Mirroring? || t.Leaving? ==> !m.op.Enter? && !m.op.Exit? && !m.op.AddChan? && StepsPhase(t, m))
    && (!t.Mirroring? && !t.Leaving? ==> !m.redis.SAdd? && !m.redis.SRem? && !m.redis.HSet? && !m.redis.HDel?)
  }

  /** One registry call and one phase further. */
  ghost predicate StepsPhase(t: Task, m: Move)
    requires t.Mirroring? || t.Leaving?
  {
    match t.phase
    case AtSet =>
      && m.redis == (if t.Mirroring? then SAdd(t.c, t.s) else SRem(t.c, t.s))
      && (m.task.Mirroring? || m.task.Leaving?) && m.task.c == t.c && m.task.s == t.s && m.task.phase == AtMeta
    case AtMeta =>
      && (m.redis.SetMeta? || m.redis.DelMeta?)
      && (IsPresence(t.c) ==> (m.task.Mirroring? || m.task.Leaving?) && m.task.c == t.c && m.task.s == t.s && m.task.phase == AtHash)
      && (!IsPresence(t.c) ==> !(m.task.Mirroring? || m.task.Leaving?) || m.task.phase == AtDrop)
    case AtHash =>
      && m.redis == (if t.Mirroring? && t.d.Member? then HSet(t.c, t.s, t.d.userId) else HDel(t.c, t.s))
      && (m.task.Mirroring? || m.task.Leaving?) && m.task.phase == AtInfo
    case _ =>
      && (m.redis.SetInfo? || m.redis.DelInfo? || m.redis.Quiet?)
      && (m.task.Mirroring? || m.task.Leaving? ==> m.task.phase == AtDrop)
  }

  lemma PlanFollows(st: Cluster, l: Label)
    requires Enabled(st, l) && TaskDecodes(st.nodes[l.i])
    ensures Follows(st.nodes[l.i], Plan(st, l))
  {
  }

  /** What a subscription holds after the two local changes. */
  lemma EntryAfter(a: App, op: Op, c: string, s: SocketId)
    requires Legal(a, op) && (op.Enter? ==> Joined(op.c, op.d))
    ensures Subscribed(Apply(a, op), c, s) <==>
      (Subscribed(a, c, s) && op != Exit(c, s)) || (op.Enter? && op.c == c && op.s == s)
    ensures Subscribed(Apply(a, op), c, s) && op.Enter? && op.c == c && op.s == s ==>
      (Apply(a, op).channels[c][s].id == if IsPresence(c) then op.d.userId else "")
    ensures Subscribed(Apply(a, op), c, s) && !(op.Enter? && op.c == c && op.s == s) ==>
      Apply(a, op).channels[c][s].id == a.channels[c][s].id
  {
    SubscribedAfter(a, op, c, s);
  }

  /** Where the new mirroring tasks come from. */
  ghost predicate MirrorTasks(node: Node, m: Move) {
    && (m.task.Mirroring? && !node.task.Mirroring? ==> m.op == Enter(m.task.c, m.task.s, m.task.d) && m.task.phase == AtSet)
    && (m.task.Mirroring? && node.task.Mirroring? ==>
          && m.op.Skip? && m.task.c == node.task.c && m.task.s == node.task.s && m.task.d == node.task.d
          && m.task.phase != AtDrop && (m.task.phase == AtHash ==> IsPresence(m.task.c))
          && (m.task.phase == AtInfo ==> node.task.phase == AtHash))
    && (m.task.Leaving? && !node.task.Leaving? ==> m.op == Exit(m.task.c, m.task.s) && m.task.phase == AtSet)
    && (m.task.Leaving? && node.task.Leaving? ==>
          && m.op.Skip? && m.task.c == node.task.c && m.task.s == node.task.s
          && (m.task.phase == AtHash ==> IsPresence(m.task.c))
          && (m.task.phase == AtInfo ==> node.task.phase == AtHash))
  }

  lemma PlanMirrorTasks(st: Cluster, l: Label)
    requires Enabled(st, l) && TaskDecodes(st.nodes[l.i])
    ensures MirrorTasks(st.nodes[l.i], Plan(st, l))
    ensures Plan(st, l).task.Joining? && LabelDecodes(l) ==> Joined(Plan(st, l).task.c, Plan(st, l).task.d)
    ensures Plan(st, l).op.Enter? ==> Joined(Plan(st, l).op.c, Plan(st, l).op.d)
  {
  }

  lemma TaskDecodesNext(st: Cluster, l: Label)
    requires Enabled(st, l) && NodeSound(st, l.i) && TaskDecodes(st.nodes[l.i]) && LabelDecodes(l)
    ensures TaskDecodes(Next(st, l).nodes[l.i])
  {
    PlanIsLegal(st, l);
    PlanMirrorTasks(st, l);
    var t := Plan(st, l).task;
    if t.Mirroring? || t.Leaving? {
      EntryAfter(st.nodes[l.i].app, Plan(st, l).op, t.c, t.s);
    }
  }

  /** The entries the instance owns, one at a time. */
  lemma EntryMirroredAfter(r: Store, node: Node, m: Move, b: App, c: string, s: SocketId)
    requires EntryMirrored(r, node, c, s) && TaskDecodes(node) && Follows(node, m)
    requires m.op.Exit? ==> Subscribed(node.app, m.op.c, m.op.s)
    requires Subscribed(b, c, s) <==>
      (Subscribed(node.app, c, s) && m.op != Exit(c, s)) || (m.op.Enter? && m.op.c == c && m.op.s == s)
    requires Subscribed(b, c, s) && m.op != Enter(c, s, if m.op.Enter? then m.op.d else NotJson("")) ==>
      b.channels[c][s].id == node.app.channels[c][s].id
    ensures EntryMirrored(Commit(r, m.redis), Node(b, m.task), c, s)
  {
    MembersAfter(r, m.redis, c);
    PresenceAfter(r, m.redis, c);
  }

  /** The registry calls of another instance touch none of its entries. */
  lemma OtherEntriesKept(r: Store, op: RedisOp, node: Node, c: string, s: SocketId)
    requires EntryMirrored(r, node, c, s)
    requires (op.SAdd? || op.SRem? || op.HSet? || op.HDel?) ==> op.s != s
    ensures EntryMirrored(Commit(r, op), node, c, s)
  {
    MembersAfter(r, op, c);
    PresenceAfter(r, op, c);
  }

  lemma MirroredNext(st: Cluster, l: Label, j: InstanceId)
    requires Enabled(st, l) && Safe(st) && AllMirrored(st) && LabelDecodes(l) && j in st.nodes
    ensures Mirrored(Next(st, l).history, Next(st, l).store, j, Next(st, l).nodes[j])
  {
    assert NodeSound(st, l.i);
    PlanCallsOwn(st, l);
    PlanRegistersOwn(st, l);
    PlanFollows(st, l);
    PlanIsLegal(st, l);
    PlanMirrorTasks(st, l);
    if j == l.i {
      MirroredAfterOwn(st, j, Plan(st, l));
    } else {
      MirroredAfterOther(st, l.i, Plan(st, l), j);
    }
  }

  /** What a step's move respects. */
  ghost predicate Respects(st: Cluster, i: InstanceId, m: Move)
    requires i in st.nodes
  {
    && CallsOwn(st.history, i, st.nodes[i], m) && RegistersOwn(st.history, i, st.nodes[i], m)
    && Follows(st.nodes[i], m) && Legal(st.nodes[i].app, m.op)
    && (m.op.Enter? ==> Joined(m.op.c, m.op.d))
  }

  /** An entry of the stepping instance. */
  lemma OwnEntryAfter(st: Cluster, i: InstanceId, m: Move, c: string, s: SocketId)
    requires i in st.nodes && TaskDecodes(st.nodes[i]) && Respects(st, i, m)
    requires EntryMirrored(st.store, st.nodes[i], c, s)
    ensures EntryMirrored(Commit(st.store, m.redis), Node(Apply(st.nodes[i].app, m.op), m.task), c, s)
  {
    EntryAfter(st.nodes[i].app, m.op, c, s);
    EntryMirroredAfter(st.store, st.nodes[i], m, Apply(st.nodes[i].app, m.op), c, s);
  }

  lemma MirroredAfterOwn(st: Cluster, i: InstanceId, m: Move)
    requires Safe(st) && AllMirrored(st) && i in st.nodes && Respects(st, i, m)
    ensures Mirrored(Record(st.history, m), Commit(st.store, m.redis), i, Node(Apply(st.nodes[i].app, m.op), m.task))
  {
    var h, node := Record(st.history, m), Node(Apply(st.nodes[i].app, m.op), m.task);
    forall c, s | s in h.used && h.used[s] == i
      ensures EntryMirrored(Commit(st.store, m.redis), node, c, s)
    {
      if s in st.history.used {
        assert EntryMirrored(st.store, st.nodes[i], c, s);
      } else {
        UnopenedEntry(st, i, c, s);
      }
      OwnEntryAfter(st, i, m, c, s);
    }
  }

  lemma MirroredAfterOther(st: Cluster, i: InstanceId, m: Move, j: InstanceId)
    requires Safe(st) && AllMirrored(st) && i in st.nodes && j in st.nodes && i != j && Respects(st, i, m)
    ensures Mirrored(Record(st.history, m), Commit(st.store, m.redis), j, st.nodes[j])
  {
    var h := Record(st.history, m);
    forall c, s | s in h.used && h.used[s] == j
      ensures EntryMirrored(Commit(st.store, m.redis), st.nodes[j], c, s)
    {
      assert s in st.history.used && st.history.used[s] == j;
      OtherEntriesKept(st.store, m.redis, st.nodes[j], c, s);
    }
  }

  /** A socket not opened yet is in no channel and in no set. */
  lemma UnopenedEntry(st: Cluster, i: InstanceId, c: string, s: SocketId)
    requires Safe(st) && AllMirrored(st) && i in st.nodes && s !in st.history.used
    ensures EntryMirrored(st.store, st.nodes[i], c, s)
  {
    UnopenedNotSubscribed(st, i, c, s);
    assert s !in Members(st.store, c) && s !in Presence(st.store, c);
  }

  lemma UnopenedNotSubscribed(st: Cluster, j: InstanceId, c: string, s: SocketId)
    requires Safe(st) && j in st.nodes && s !in st.history.used
    ensures !Subscribed(st.nodes[j].app, c, s)
  {
    if Subscribed(st.nodes[j].app, c, s) {
      SubscribedIsRegistered(st, j, c, s);
    }
  }

  lemma KnownOnlyAfter(h: History, r: Store, m: Move)
    requires KnownOnly(h, r)
    requires m.redis.SAdd? || m.redis.HSet? ==> m.redis.s in h.used
    requires m.redis.HSet? ==> IsPresence(m.redis.c)
    ensures KnownOnly(Record(h, m), Commit(r, m.redis))
  {
    forall c, s
      ensures s in Members(Commit(r, m.redis), c) ==> s in Record(h, m).used
      ensures s in Presence(Commit(r, m.redis), c) ==> s in Record(h, m).used && IsPresence(c)
    {
      assert s in h.used ==> s in Record(h, m).used;
      KnownAfter(h, r, m.redis, c, s);
    }
  }

  lemma KnownAfter(h: History, r: Store, op: RedisOp, c: string, s: SocketId)
    requires KnownOnly(h, r)
    requires op.SAdd? || op.HSet? ==> op.s in h.used
    requires op.HSet? ==> IsPresence(op.c)
    ensures s in Members(Commit(r, op), c) ==> s in h.used
    ensures s in Presence(Commit(r, op), c) ==> s in h.used && IsPresence(c)
  {
    MembersAfter(r, op, c);
    PresenceAfter(r, op, c);
  }

  lemma KnownOnlyNext(st: Cluster, l: Label)
    requires Enabled(st, l) && NodeSound(st, l.i) && AllMirrored(st)
    ensures KnownOnly(Next(st, l).history, Next(st, l).store)
  {
    PlanCallsOwn(st, l);
    PlanFollows(st, l);
    KnownOnlyAfter(st.history, st.store, Plan(st, l));
  }

  lemma AllMirroredNext(st: Cluster, l: Label)
    requires Enabled(st, l) && Safe(st) && AllMirrored(st) && LabelDecodes(l)
    ensures AllMirrored(Next(st, l))
  {
    assert NodeSound(st, l.i);
    PlanCallsOwn(st, l);
    KnownOnlyNext(st, l);
    TaskDecodesNext(st, l);
    forall j | j in st.nodes
      ensures Mirrored(Next(st, l).history, Next(st, l).store, j, Next(st, l).nodes[j])
    {
      MirroredNext(st, l, j);
    }
  }

  lemma {:induction false} AllMirroredAlways(st: Cluster, run: seq<Label>)
    requires Safe(st) && AllMirrored(st) && IsRun(st, run) && Decodes(run)
    ensures AllMirrored(After(st, run)) && Safe(After(st, run))
    decreases |run|
  {
    if run != [] {
      assert LabelDecodes(run[0]);
      AllMirroredNext(st, run[0]);
      SafeNext(st, run[0]);
      AllMirroredAlways(Next(st, run[0]), run[1..]);
    }
  }

  /** Reachable by a run whose presence data decodes. */
  ghost predicate Decoded(st: Cluster) {
    exists start, run :: Initial(start) && IsRun(start, run) && Decodes(run) && After(start, run) == st
  }

  lemma InitiallyMirrored(st: Cluster)
    requires Initial(st)
    ensures AllMirrored(st)
  {
  }

  lemma DecodedIsMirrored(st: Cluster)
    requires Decoded(st)
    ensures Safe(st) && AllMirrored(st)
  {
    var start, run :| Initial(start) && IsRun(start, run) && Decodes(run) && After(start, run) == st;
    InitiallySafe(start);
    InitiallyMirrored(start);
    AllMirroredAlways(start, run);
  }

  /** The instance is between handlers, or none of its handlers' entries for `c` is pending. */
  predicate Settled(t: Task, c: string) {
    (t.Mirroring? || t.Leaving?) && t.phase != AtDrop ==> t.c != c
  }

  lemma MirroredIsUnion(st: Cluster, c: string, s: SocketId)
    requires Safe(st) && AllMirrored(st) && forall i :: i in st.nodes ==> Settled(st.nodes[i].task, c)
    ensures s in Members(st.store, c) <==> exists i :: SubscribedAt(st, i, c, s)
    ensures IsPresence(c) ==> (s in Presence(st.store, c) <==> exists i :: SubscribedAt(st, i, c, s))
    ensures forall i :: SubscribedAt(st, i, c, s) && IsPresence(c) ==>
      s in Presence(st.store, c) && Presence(st.store, c)[s] == st.nodes[i].app.channels[c][s].id
  {
    forall i | SubscribedAt(st, i, c, s)
      ensures s in st.history.used && st.history.used[s] == i
    {
      SubscribedIsRegistered(st, i, c, s);
    }
    if s in st.history.used {
      var home := st.history.used[s];
      assert EntryMirrored(st.store, st.nodes[home], c, s);
      assert SubscribedAt(st, home, c, s) <==> Subscribed(st.nodes[home].app, c, s);
    }
  }

  /**
   Once no handler is mirroring the channel, its registry set is the union of the local
   subscription maps, and its presence hash gives every socket its local user ID.
   */
  lemma RegistryIsUnion(st: Cluster, c: string, s: SocketId)
    requires Decoded(st) && forall i :: i in st.nodes ==> Settled(st.nodes[i].task, c)
    ensures s in Members(st.store, c) <==> exists i :: SubscribedAt(st, i, c, s)
    ensures IsPresence(c) ==> (s in Presence(st.store, c) <==> exists i :: SubscribedAt(st, i, c, s))
    ensures forall i :: SubscribedAt(st, i, c, s) && IsPresence(c) ==>
      s in Presence(st.store, c) && Presence(st.store, c)[s] == st.nodes[i].app.channels[c][s].id
  {
    DecodedIsMirrored(st);
    MirroredIsUnion(st, c, s);
  }

  /** The publisher's scan of the set finds a remote registration exactly when another instance has a subscriber. */
  lemma ScanIsExact(st: Cluster, i: InstanceId, c: string)
    requires Decoded(st) && forall k :: k in st.nodes ==> Settled(st.nodes[k].task, c)
    ensures Handlers.RemoteSubscriber(st.store, i, c) <==> exists j, s :: j != i && SubscribedAt(st, j, c, s)
  {
    DecodedIsMirrored(st);
    if s :| s in Members(st.store, c) && s in st.store.conns && st.store.conns[s] != i {
      RegistryIsUnion(st, c, s);
      var j :| SubscribedAt(st, j, c, s);
      SubscribedIsRegistered(st, j, c, s);
    }
    if j, s :| j != i && SubscribedAt(st, j, c, s) {
      RegistryIsUnion(st, c, s);
      SubscribedIsRegistered(st, j, c, s);
    }
  }
}
