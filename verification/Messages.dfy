/** TotalUniqueMessages: on every run it counts the publications, one for each client event and for each channel of a POST. */
module Messages {
  import opened Types
  import opened Names
  import opened Instance
  import opened Registry
  import opened Cluster
  import opened Handlers
  import Delivery

  function Unique(a: App): int { a.stats.unique }

  /** Only the counter's own change moves it. */
  lemma UniqueAfter(a: App, op: Op)
    ensures Unique(Apply(a, op)) == Unique(a) + if op.Count? then 1 else 0
  {
  }

  // ---------- one instance ----------

  /** The publications that the current handler has taken on and not counted. */
  function Owed(t: Task): nat {
    match t
    case Posting(chans, _, _, _) => |chans|
    case Announcing(job) => 1 + |job.after|
    case Telling(job) => |job.after|
    case Fetching(job) => |job.after|
    case Scanning(job, _) => |job.after|
    case Sending(job) => |job.after|
    case _ => 0
  }

  /** A client event is one publication, a POST is one for each channel it names. */
  function Worth(cmd: Command): nat {
    match cmd
    case Client(_, _) => 1
    case Post(chans, _, _, _) => |chans|
    case _ => 0
  }

  /** The publications that the commands of an instance ask for. */
  function Wanted(run: seq<Label>, i: InstanceId): nat {
    if run == [] then 0
    else (if run[0].i == i && run[0].act.Start? then Worth(run[0].act.cmd) else 0) + Wanted(run[1..], i)
  }

  /** A step counts what it no longer owes, and owes what its command asks for. */
  ghost predicate Counts(t: Task, act: Act, m: Move) {
    (if m.op.Count? then 1 else 0) + Owed(m.task) == Owed(t) + if act.Start? then Worth(act.cmd) else 0
  }

  lemma PlanCounts(st: Cluster, l: Label)
    requires Enabled(st, l)
    ensures Counts(st.nodes[l.i].task, l.act, Plan(st, l))
  {
  }

  /** Counted, and taken on. */
  ghost function Balance(node: Node): int { Unique(node.app) + Owed(node.task) }

  lemma BalanceNext(st: Cluster, l: Label, i: InstanceId)
    requires Enabled(st, l) && i in st.nodes
    ensures Balance(Next(st, l).nodes[i]) == Balance(st.nodes[i]) + Wanted([l], i)
  {
    PlanCounts(st, l);
    UniqueAfter(st.nodes[l.i].app, Plan(st, l).op);
  }

  lemma {:induction false} BalanceAlways(st: Cluster, run: seq<Label>, i: InstanceId)
    requires IsRun(st, run) && i in st.nodes
    ensures i in After(st, run).nodes && Balance(After(st, run).nodes[i]) == Balance(st.nodes[i]) + Wanted(run, i)
    decreases |run|
  {
    if run != [] {
      BalanceNext(st, run[0], i);
      BalanceAlways(Next(st, run[0]), run[1..], i);
    }
  }

  /** On every run from the start: when its handlers are done, the counter is the number of publications asked of the instance. */
  lemma EveryPublicationCounts(st: Cluster, run: seq<Label>, i: InstanceId)
    requires Initial(st) && IsRun(st, run) && i in st.nodes
    ensures i in After(st, run).nodes
    ensures var node := After(st, run).nodes[i];
      && node.app.stats.unique + Owed(node.task) == Wanted(run, i)
      && (node.task.Idle? ==> node.app.stats.unique == Wanted(run, i))
  {
    BalanceAlways(st, run, i);
  }

  // ---------- all instances ----------

  /** Counted on an instance, and about to be. */
  ghost function Begun(node: Node): int { Unique(node.app) + if node.task.Announcing? then 1 else 0 }

  ghost function Total(nodes: map<InstanceId, Node>): int {
    if nodes == map[] then 0
    else
      var i :| i in nodes;
      assert (nodes - {i}).Keys == nodes.Keys - {i};
      Begun(nodes[i]) + Total(nodes - {i})
  }

  lemma Removed(nodes: map<InstanceId, Node>, i: InstanceId, j: InstanceId)
    requires i in nodes && j in nodes
    ensures |nodes - {i}| == |nodes| - 1 && nodes - {j} - {i} == nodes - {i} - {j}
    ensures j != i ==> j in nodes - {i} && (nodes - {i})[j] == nodes[j]
  {
    assert (nodes - {i}).Keys == nodes.Keys - {i};
    assert |nodes| == |nodes.Keys| && |nodes - {i}| == |(nodes - {i}).Keys|;
  }

  /** Any instance can be taken out of the sum. */
  lemma {:induction false} TotalWithout(nodes: map<InstanceId, Node>, i: InstanceId)
    requires i in nodes
    ensures Total(nodes) == Begun(nodes[i]) + Total(nodes - {i})
    decreases |nodes|
  {
    var j :| j in nodes && Total(nodes) == Begun(nodes[j]) + Total(nodes - {j});
    if j != i {
      Removed(nodes, i, j);
      Removed(nodes, j, i);
      TotalWithout(nodes - {j}, i);
      TotalWithout(nodes - {i}, j);
    }
  }

  lemma TotalPut(nodes: map<InstanceId, Node>, i: InstanceId, node: Node)
    requires i in nodes
    ensures Total(nodes[i := node]) == Total(nodes) - Begun(nodes[i]) + Begun(node)
  {
    TotalWithout(nodes, i);
    TotalWithout(nodes[i := node], i);
    assert nodes[i := node] - {i} == nodes - {i};
  }

  /** A step that takes up a publication is numbered; the next one of its handler counts it. */
  lemma PlanBegins(st: Cluster, l: Label)
    requires Enabled(st, l)
    ensures var t, m := st.nodes[l.i].task, Plan(st, l);
      && (m.op.Count? <==> t.Announcing?) && !(t.Announcing? && m.task.Announcing?)
  {
  }

  lemma TotalNext(st: Cluster, l: Label)
    requires Enabled(st, l)
    ensures Total(Next(st, l).nodes) - Next(st, l).history.nextPid == Total(st.nodes) - st.history.nextPid
  {
    PlanBegins(st, l);
    var m := Plan(st, l);
    UniqueAfter(st.nodes[l.i].app, m.op);
    TotalPut(st.nodes, l.i, Node(Apply(st.nodes[l.i].app, m.op), m.task));
  }

  lemma {:induction false} TotalAlways(st: Cluster, run: seq<Label>)
    requires IsRun(st, run)
    ensures Total(After(st, run).nodes) - After(st, run).history.nextPid == Total(st.nodes) - st.history.nextPid
    decreases |run|
  {
    if run != [] {
      TotalNext(st, run[0]);
      TotalAlways(Next(st, run[0]), run[1..]);
    }
  }

  lemma {:induction false} NothingBegun(nodes: map<InstanceId, Node>)
    requires forall i :: i in nodes ==> nodes[i] == Node(EMPTY_APP, Idle)
    ensures Total(nodes) == 0
    decreases |nodes|
  {
    if nodes != map[] {
      var i :| i in nodes && Total(nodes) == Begun(nodes[i]) + Total(nodes - {i});
      Removed(nodes, i, i);
      NothingBegun(nodes - {i});
    }
  }

  /** The counters of all instances and the publications about to be counted are those taken up so far. */
  lemma AllPublicationsCount(st: Cluster, run: seq<Label>)
    requires Initial(st) && IsRun(st, run)
    ensures Total(After(st, run).nodes) == After(st, run).history.nextPid
  {
    NothingBegun(st.nodes);
    TotalAlways(st, run);
  }

  // ---------- the handlers ----------

  lemma PublishedCounts(w: World, i: InstanceId, c: string, e: Raw, ignore: SocketId, tag: Tag)
    ensures Unique(Published(w, i, c, e, ignore, tag).app) == Unique(w.app) + 1
  {
    var op := Send(c, e, ignore, tag);
    UniqueAfter(w.app, Op.Count);
    UniqueAfter(Apply(w.app, Op.Count), op);
    assert Published(w, i, c, e, ignore, tag).app == Apply(Apply(w.app, Op.Count), op);
  }

  /** A handled POST raises the counter by the number of its channels. */
  lemma {:induction false} PostCounts(
    w: World, i: InstanceId, chans: seq<string>, n: nat, e: Raw, ignore: SocketId, number: nat -> nat)
    requires n <= |chans|
    ensures Posted(w, i, chans, n, e, ignore, number).app.stats.unique == w.app.stats.unique + n
  {
    if n > 0 {
      PostCounts(w, i, chans, n - 1, e, ignore, number);
      var mid := Posted(w, i, chans, n - 1, e, ignore, number);
      var raw := Raw(e.name, chans[n - 1], e.payload);
      PublishedCounts(Created(mid, i, raw.chan), i, raw.chan, raw, ignore, Tag(number(n - 1), raw.chan, ignore));
    }
  }
}
