/** What every step of the cluster keeps, whatever the interleaving. */
module Safety {
  import opened Types
  import opened Names
  import opened Instance
  import opened Registry
  import opened Cluster

  ghost predicate SubscribedAt(st: Cluster, i: InstanceId, c: string, s: SocketId) {
    i in st.nodes && Subscribed(st.nodes[i].app, c, s)
  }

  // ---------- the handler in progress ----------

  ghost predicate TaskFits(h: History, i: InstanceId, node: Node) {
    var a := node.app;
    match node.task
    case Idle => true
    case Connecting(s) => s in h.used && h.used[s] == i && s !in a.conns && s != ""
    case Joining(c, s, _) => c in a.channels && s in a.conns
    case Mirroring(c, s, d, _) => Subscribed(a, c, s) && Joined(c, d)
    case Leaving(c, s, _, rest) =>
      && c in a.channels && !Subscribed(a, c, s) && s in a.conns
      && (rest.Some? ==> forall d :: Subscribed(a, d, s) ==> d in rest.value)
    case Closing(s, left) => s in a.conns && forall d :: Subscribed(a, d, s) ==> d in left
    case Unregistered(s) => s in a.conns && forall d :: !Subscribed(a, d, s)
    case Posting(_, _, _, _) => true
    case Announcing(job) => job.tag.chan in a.channels
    case Telling(job) => job.tag.chan in a.channels
    case Fetching(job) => job.tag.chan in a.channels
    case Scanning(job, _) => job.tag.chan in a.channels
    case Sending(job) => job.tag.chan in a.channels && job.raw.payload.Some?
    case Hearing(_, _) => true
    case Relaying(c, note, skip) =>
      && c in a.channels
      && (skip == note.tag.ignore || (skip == "" && !Subscribed(a, c, note.tag.ignore)))
  }

  ghost predicate OwnedSocket(h: History, r: Store, i: InstanceId, t: Task, s: SocketId) {
    && s in h.used && h.used[s] == i && s != ""
    && (t != Unregistered(s) ==> s in r.conns && r.conns[s] == i)
  }

  /**
   Every connected socket was opened here and is registered here, until its handler
   unregisters it; a socket being opened is registered first.
   */
  ghost predicate OwnedIn(h: History, r: Store, i: InstanceId, node: Node) {
    && (forall s :: s in node.app.conns ==> OwnedSocket(h, r, i, node.task, s))
    && (node.task.Connecting? ==>
          var s := node.task.s;
          s in h.used && h.used[s] == i && s in r.conns && r.conns[s] == i && s != "")
  }

  ghost predicate Owned(st: Cluster, i: InstanceId)
    requires i in st.nodes
  {
    OwnedIn(st.history, st.store, i, st.nodes[i])
  }

  ghost predicate NodeSound(st: Cluster, i: InstanceId)
    requires i in st.nodes
  {
    Sound(st.nodes[i].app) && TaskFits(st.history, i, st.nodes[i]) && Owned(st, i)
  }

  /** A channel's listeners on an instance are as many as its creations there, and a present channel has one. */
  ghost predicate ListenersAgree(st: Cluster) {
    forall i, c ::
      && Listeners(st.listeners, i, c) == st.history.created[(i, c)]
      && (i in st.nodes && c in st.nodes[i].app.channels ==> Listeners(st.listeners, i, c) > 0)
  }

  ghost predicate Safe(st: Cluster) {
    (forall i :: i in st.nodes ==> NodeSound(st, i)) && ListenersAgree(st)
  }

  lemma InitiallySafe(st: Cluster)
    requires Initial(st)
    ensures Safe(st)
  {
    assert Kind(map[], IsPresence) == {};
    assert Kind(map[], IsPrivate) == {};
    assert Kind(map[], IsPublic) == {};
  }

  /** The local change of every step is one the instance allows. */
  lemma PlanIsLegal(st: Cluster, l: Label)
    requires Enabled(st, l) && NodeSound(st, l.i)
    ensures Legal(st.nodes[l.i].app, Plan(st, l).op)
  {
  }

  /** Both lemmas on a change, for every channel and socket. */
  ghost predicate Effects(a: App, op: Op, b: App) {
    && (forall c, s :: Subscribed(b, c, s) <==>
          (Subscribed(a, c, s) && op != Exit(c, s)) || (op.Enter? && op.c == c && op.s == s))
    && (forall c :: c in b.channels <==> (c in a.channels && op != DropChan(c)) || op == AddChan(c))
    && (forall s :: s in b.conns <==> (s in a.conns && op != DropConn(s)) || op == AddConn(s))
  }

  lemma HasEffects(a: App, op: Op)
    requires Legal(a, op)
    ensures Effects(a, op, Apply(a, op))
  {
    forall c, s
      ensures Subscribed(Apply(a, op), c, s) <==>
        (Subscribed(a, c, s) && op != Exit(c, s)) || (op.Enter? && op.c == c && op.s == s)
    {
      SubscribedAfter(a, op, c, s);
    }
    forall c: string
      ensures c in Apply(a, op).channels <==> (c in a.channels && op != DropChan(c)) || op == AddChan(c)
    {
      KeysAfter(a, op, c, "");
    }
    forall s: SocketId
      ensures s in Apply(a, op).conns <==> (s in a.conns && op != DropConn(s)) || op == AddConn(s)
    {
      KeysAfter(a, op, "", s);
    }
  }

  lemma CommandFits(st: Cluster, l: Label, b: App)
    requires Enabled(st, l) && Owned(st, l.i) && l.act.Start?
    requires Effects(st.nodes[l.i].app, Plan(st, l).op, b)
    ensures TaskFits(Record(st.history, Plan(st, l)), l.i, Node(b, Plan(st, l).task))
  {
  }

  lemma ChoiceFits(st: Cluster, l: Label, b: App)
    requires Enabled(st, l) && TaskFits(st.history, l.i, st.nodes[l.i]) && !l.act.Start? && !l.act.Go?
    requires Effects(st.nodes[l.i].app, Plan(st, l).op, b)
    ensures TaskFits(Record(st.history, Plan(st, l)), l.i, Node(b, Plan(st, l).task))
  {
  }

  predicate Publishes(t: Task) {
    t.Posting? || t.Announcing? || t.Telling? || t.Fetching? || t.Scanning? || t.Sending? || t.Hearing? || t.Relaying?
  }

  lemma SessionFits(st: Cluster, l: Label, b: App)
    requires Enabled(st, l) && TaskFits(st.history, l.i, st.nodes[l.i]) && l.act.Go? && !Publishes(st.nodes[l.i].task)
    requires Effects(st.nodes[l.i].app, Plan(st, l).op, b)
    ensures TaskFits(Record(st.history, Plan(st, l)), l.i, Node(b, Plan(st, l).task))
  {
  }

  lemma JobFits(st: Cluster, l: Label, b: App)
    requires Enabled(st, l) && NodeSound(st, l.i) && l.act.Go?
    requires Publishes(st.nodes[l.i].task) && !Relays(st.nodes[l.i].task)
    requires Effects(st.nodes[l.i].app, Plan(st, l).op, b)
    ensures TaskFits(Record(st.history, Plan(st, l)), l.i, Node(b, Plan(st, l).task))
  {
  }

  predicate Relays(t: Task) { t.Hearing? || t.Relaying? }

  lemma RelayFits(st: Cluster, l: Label, b: App)
    requires Enabled(st, l) && NodeSound(st, l.i) && l.act.Go? && Relays(st.nodes[l.i].task)
    requires Effects(st.nodes[l.i].app, Plan(st, l).op, b)
    ensures TaskFits(Record(st.history, Plan(st, l)), l.i, Node(b, Plan(st, l).task))
  {
  }

  lemma TaskFitsNext(st: Cluster, l: Label)
    requires Enabled(st, l) && NodeSound(st, l.i)
    ensures TaskFits(Next(st, l).history, l.i, Next(st, l).nodes[l.i])
  {
    PlanIsLegal(st, l);
    HasEffects(st.nodes[l.i].app, Plan(st, l).op);
    var b := Apply(st.nodes[l.i].app, Plan(st, l).op);
    if l.act.Start? {
      CommandFits(st, l, b);
    } else if !l.act.Go? {
      ChoiceFits(st, l, b);
    } else if Relays(st.nodes[l.i].task) {
      RelayFits(st, l, b);
    } else if Publishes(st.nodes[l.i].task) {
      JobFits(st, l, b);
    } else {
      SessionFits(st, l, b);
    }
  }

  // ---------- ownership and registration ----------

  /** Only the instance that opened a socket registers or unregisters it. */
  ghost predicate RegistersOwn(h: History, i: InstanceId, node: Node, m: Move) {
    && (m.redis.SetConn? ==> m.redis.s !in h.used && m.redis.i == i && m.redis.s != "" && m.op.Skip?)
    && (m.redis.DelConn? ==> m.redis.s in node.app.conns && m.task == Unregistered(m.redis.s) && m.op.Skip?)
    && (m.task.Connecting? ==> m.redis == SetConn(m.task.s, i))
    && (m.op.AddConn? ==> node.task == Connecting(m.op.s))
    && (m.task.Unregistered? ==> m.redis == RedisOp.DelConn(m.task.s))
    && (node.task.Unregistered? ==> m.op == DropConn(node.task.s))
  }

  lemma CommandRegistersOwn(st: Cluster, l: Label)
    requires Enabled(st, l) && NodeSound(st, l.i) && l.act.Start?
    ensures RegistersOwn(st.history, l.i, st.nodes[l.i], Plan(st, l))
  {
  }

  lemma ProceedRegistersOwn(st: Cluster, l: Label)
    requires Enabled(st, l) && NodeSound(st, l.i) && l.act.Go?
    ensures RegistersOwn(st.history, l.i, st.nodes[l.i], Plan(st, l))
  {
  }

  lemma PlanRegistersOwn(st: Cluster, l: Label)
    requires Enabled(st, l) && NodeSound(st, l.i)
    ensures RegistersOwn(st.history, l.i, st.nodes[l.i], Plan(st, l))
  {
    if l.act.Start? {
      CommandRegistersOwn(st, l);
    } else if l.act.Go? {
      ProceedRegistersOwn(st, l);
    }
  }

  lemma OwnedAfter(h: History, r: Store, i: InstanceId, node: Node, m: Move, b: App)
    requires OwnedIn(h, r, i, node) && RegistersOwn(h, i, node, m) && Effects(node.app, m.op, b)
    ensures OwnedIn(Record(h, m), Commit(r, m.redis), i, Node(b, m.task))
  {
    forall s | s in b.conns
      ensures OwnedSocket(Record(h, m), Commit(r, m.redis), i, m.task, s)
    {
      if s in node.app.conns {
        assert OwnedSocket(h, r, i, node.task, s);
        assert node.task.Unregistered? ==> m.op == DropConn(node.task.s);
        assert node.task != Unregistered(s);
      } else {
        assert m.op == AddConn(s) && node.task == Connecting(s);
      }
    }
  }

  lemma OthersOwnedAfter(h: History, r: Store, i: InstanceId, node: Node, m: Move, j: InstanceId, other: Node)
    requires i != j && OwnedIn(h, r, i, node) && OwnedIn(h, r, j, other) && RegistersOwn(h, i, node, m)
    ensures OwnedIn(Record(h, m), Commit(r, m.redis), j, other)
  {
  }

  lemma NodesKept(st: Cluster, l: Label, j: InstanceId)
    requires Enabled(st, l) && j in st.nodes && NodeSound(st, l.i) && NodeSound(st, j)
    ensures NodeSound(Next(st, l), j)
  {
    PlanRegistersOwn(st, l);
    var m := Plan(st, l);
    if j == l.i {
      PlanIsLegal(st, l);
      HasEffects(st.nodes[j].app, m.op);
      SoundKept(st.nodes[j].app, m.op);
      TaskFitsNext(st, l);
      OwnedAfter(st.history, st.store, j, st.nodes[j], m, Apply(st.nodes[j].app, m.op));
    } else {
      OthersOwnedAfter(st.history, st.store, l.i, st.nodes[l.i], m, j, st.nodes[j]);
    }
  }

  lemma ListenersKept(st: Cluster, l: Label)
    requires Enabled(st, l) && NodeSound(st, l.i) && ListenersAgree(st)
    ensures ListenersAgree(Next(st, l))
  {
    PlanIsLegal(st, l);
    var m := Plan(st, l);
    forall i, c
      ensures Listeners(Next(st, l).listeners, i, c) == Next(st, l).history.created[(i, c)]
      ensures i in st.nodes && c in Next(st, l).nodes[i].app.channels ==> Listeners(Next(st, l).listeners, i, c) > 0
    {
      ListenersAfter(st.listeners, m.redis, i, c);
      if i == l.i {
        KeysAfter(st.nodes[i].app, m.op, c, "");
        ChannelsGetListeners(st, l);
      }
    }
  }

  lemma ChannelsGetListeners(st: Cluster, l: Label)
    requires Enabled(st, l) && Sound(st.nodes[l.i].app)
    ensures Plan(st, l).op.AddChan? ==> Plan(st, l).redis == Listen(l.i, Plan(st, l).op.c)
  {
  }

  lemma SafeNext(st: Cluster, l: Label)
    requires Safe(st) && Enabled(st, l)
    ensures Safe(Next(st, l))
  {
    forall j | j in st.nodes
      ensures NodeSound(Next(st, l), j)
    {
      NodesKept(st, l, j);
    }
    ListenersKept(st, l);
  }

  /** Safety over whole runs. */
  lemma {:induction false} SafeAlways(st: Cluster, run: seq<Label>)
    requires Safe(st) && IsRun(st, run)
    ensures Safe(After(st, run))
    decreases |run|
  {
    if run != [] {
      SafeNext(st, run[0]);
      SafeAlways(Next(st, run[0]), run[1..]);
    }
  }

  /** Instances neither come nor go. */
  lemma {:induction false} SameNodes(st: Cluster, run: seq<Label>)
    requires IsRun(st, run)
    ensures After(st, run).nodes.Keys == st.nodes.Keys
    decreases |run|
  {
    if run != [] {
      SameNodes(Next(st, run[0]), run[1..]);
    }
  }

  lemma ReachableIsSafe(st: Cluster)
    requires Reachable(st)
    ensures Safe(st)
  {
    var start, run :| Initial(start) && IsRun(start, run) && After(start, run) == st;
    InitiallySafe(start);
    SafeAlways(start, run);
  }

  /** A socket subscribed on two instances would have been opened on both. */
  lemma OneHome(st: Cluster, i: InstanceId, c: string, j: InstanceId, d: string, s: SocketId)
    requires Safe(st) && SubscribedAt(st, i, c, s) && SubscribedAt(st, j, d, s)
    ensures i == j
  {
    assert NodeSound(st, i) && NodeSound(st, j);
    assert OwnedSocket(st.history, st.store, i, st.nodes[i].task, s);
    assert OwnedSocket(st.history, st.store, j, st.nodes[j].task, s);
  }

  /** A subscribed socket is registered to its instance. */
  lemma SubscribedIsRegistered(st: Cluster, i: InstanceId, c: string, s: SocketId)
    requires Safe(st) && SubscribedAt(st, i, c, s)
    ensures s in st.store.conns && st.store.conns[s] == i && s != ""
    ensures s in st.history.used && st.history.used[s] == i
  {
    assert NodeSound(st, i);
    assert OwnedSocket(st.history, st.store, i, st.nodes[i].task, s);
  }
}
