/** Presence rosters and hooks over whole runs of the cluster. */
module OrderlyRuns {
  import opened Types
  import opened Names
  import opened Rosters
  import opened Instance
  import opened Registry
  import opened Cluster
  import opened Safety
  import opened Presence
  import opened Hooks

  /** The label subscribes no socket twice, and with data its channel accepts. */
  ghost predicate LabelOrderly(st: Cluster, l: Label) {
    l.i in st.nodes && l.act.Start? && l.act.cmd.Subscribe? ==>
      !Subscribed(st.nodes[l.i].app, l.act.cmd.c, l.act.cmd.s) && Joined(l.act.cmd.c, l.act.cmd.d)
  }

  ghost predicate OrderlyRun(st: Cluster, run: seq<Label>)
    requires IsRun(st, run)
    decreases |run|
  {
    run == [] || (LabelOrderly(st, run[0]) && OrderlyRun(Next(st, run[0]), run[1..]))
  }

  ghost predicate Reconstructible(st: Cluster) {
    forall i :: i in st.nodes ==> NodeReconstructible(st.nodes[i])
  }

  ghost predicate NodeReconstructible(node: Node) {
    && RostersKnown(node.app) && HooksTrue(node.app)
    && (node.task.Joining? ==> !Subscribed(node.app, node.task.c, node.task.s) && Joined(node.task.c, node.task.d))
  }

  /** A joining task comes from a subscribe command and changes no subscription. */
  lemma PlanJoins(st: Cluster, l: Label)
    requires Enabled(st, l)
    ensures var m := Plan(st, l);
      && (m.task.Joining? ==>
            && l.act == Start(Subscribe(m.task.c, m.task.s, m.task.d)) && !m.op.Enter? && !m.op.Exit?)
      && (m.op.Enter? ==> st.nodes[l.i].task == Joining(m.op.c, m.op.s, m.op.d))
      && (m.op.Reply? ==> !m.op.m.Succeeded? && !m.op.m.MemberAdded? && !m.op.m.MemberRemoved?)
  {
  }

  lemma NodeReconstructibleAfter(node: Node, m: Move)
    requires Sound(node.app) && NodeReconstructible(node) && Legal(node.app, m.op) && Orderly(node.app, m.op)
    requires m.task.Joining? ==>
      !Subscribed(node.app, m.task.c, m.task.s) && Joined(m.task.c, m.task.d) && !m.op.Enter? && !m.op.Exit?
    ensures NodeReconstructible(Node(Apply(node.app, m.op), m.task))
  {
    RostersKept(node.app, m.op);
    HooksKept(node.app, m.op);
    if m.task.Joining? {
      SubscribedAfter(node.app, m.op, m.task.c, m.task.s);
    }
  }

  lemma ReconstructibleNext(st: Cluster, l: Label)
    requires Enabled(st, l) && Safe(st) && Reconstructible(st) && LabelOrderly(st, l)
    ensures Reconstructible(Next(st, l))
  {
    assert NodeSound(st, l.i);
    PlanIsLegal(st, l);
    PlanJoins(st, l);
    NodeReconstructibleAfter(st.nodes[l.i], Plan(st, l));
  }

  lemma {:induction false} ReconstructibleAlways(st: Cluster, run: seq<Label>)
    requires Safe(st) && Reconstructible(st) && IsRun(st, run) && OrderlyRun(st, run)
    ensures Reconstructible(After(st, run))
    decreases |run|
  {
    if run != [] {
      ReconstructibleNext(st, run[0]);
      SafeNext(st, run[0]);
      ReconstructibleAlways(Next(st, run[0]), run[1..]);
    }
  }

  lemma InitiallyReconstructible(st: Cluster)
    requires Initial(st)
    ensures Reconstructible(st)
  {
    assert UserIds(map[]) == multiset{};
  }

  /** On an orderly run no subscription is being filed over another one. */
  lemma NotFiling(st: Cluster, run: seq<Label>, end: Cluster, i: InstanceId, c: string, s: SocketId)
    requires Initial(st) && IsRun(st, run) && OrderlyRun(st, run) && end == After(st, run)
    requires SubscribedAt(end, i, c, s)
    ensures !(end.nodes[i].task.Joining? && end.nodes[i].task.c == c && end.nodes[i].task.s == s)
  {
    InitiallySafe(st);
    InitiallyReconstructible(st);
    ReconstructibleAlways(st, run);
    assert NodeReconstructible(end.nodes[i]);
  }

  /** Every presence subscriber's replayed frames give the users now subscribed on its instance, with multiplicity. */
  lemma RosterReplay(st: Cluster, run: seq<Label>, end: Cluster, i: InstanceId, c: string, s: SocketId)
    requires Initial(st) && IsRun(st, run) && OrderlyRun(st, run) && end == After(st, run)
    requires SubscribedAt(end, i, c, s) && IsPresence(c)
    ensures Replay(LogOf(end.nodes[i].app.logs, s), c) == Some(UserIds(end.nodes[i].app.channels[c]))
  {
    InitiallySafe(st);
    InitiallyReconstructible(st);
    ReconstructibleAlways(st, run);
    assert Knows(end.nodes[i].app, c, s);
  }

  /**
   On every instance and for every channel: occupied and vacated hooks alternate, occupied leads
   exactly while the channel has subscribers, and the member hooks count its subscriptions.
   */
  lemma HookConservation(st: Cluster, run: seq<Label>, end: Cluster, i: InstanceId, c: string)
    requires Initial(st) && IsRun(st, run) && OrderlyRun(st, run) && end == After(st, run) && i in end.nodes
    ensures var a := end.nodes[i].app;
      && Occupancy(a.hooks, c).Some?
      && Hooks.Count(a.hooks, Occupied(c)) - Hooks.Count(a.hooks, Vacated(c)) ==
           (if SubsOf(a, c) != map[] then 1 else 0)
      && (IsPresence(c) ==> Joins(a.hooks, c) == |SubsOf(a, c)|)
  {
    InitiallySafe(st);
    InitiallyReconstructible(st);
    ReconstructibleAlways(st, run);
    var a := end.nodes[i].app;
    assert HookTrue(a, c);
    AlternationCounts(a.hooks, c);
  }
}
