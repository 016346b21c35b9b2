/** Every publication can be brought to rest: handlers finish and queues drain without new commands. */
module Progress {
  import opened Types
  import opened Instance
  import opened Registry
  import opened Cluster
  import opened Safety
  import opened Delivery
  import opened Counting
  import opened Undisturbed
  import Handlers

  /** No label of the run is a new command. */
  ghost predicate NoCommand(run: seq<Label>) { forall l :: l in run ==> !l.act.Start? }

  // ---------- a handler finishes ----------

  function PhaseRank(p: Phase): nat {
    match p
    case AtSet => 4
    case AtMeta => 3
    case AtHash => 2
    case AtInfo => 1
    case AtDrop => 0
  }

  /** The rounds a handler still has, the stages of its round, and the members it has to read. */
  function Rounds(t: Task): nat {
    match t
    case Idle => 0
    case Connecting(_) => 1
    case Joining(_, _, _) => 2
    case Mirroring(_, _, _, _) => 1
    case Leaving(_, _, _, rest) => if rest.None? then 1 else 2 * |rest.value| + 3
    case Closing(_, left) => 2 * |left| + 2
    case Unregistered(_) => 1
    case Posting(chans, _, _, _) => 2 * |chans| + 1
    case Announcing(job) => 2 * |job.after| + 2
    case Telling(job) => 2 * |job.after| + 2
    case Fetching(job) => 2 * |job.after| + 2
    case Scanning(job, _) => 2 * |job.after| + 2
    case Sending(job) => 2 * |job.after| + 2
    case Hearing(_, _) => 2
    case Relaying(_, _, _) => 1
  }

  function Stages(t: Task): nat {
    match t
    case Mirroring(_, _, _, phase) => PhaseRank(phase)
    case Leaving(_, _, phase, _) => PhaseRank(phase)
    case Announcing(_) => 4
    case Telling(_) => 3
    case Fetching(_) => 2
    case Scanning(_, _) => 1
    case _ => 0
  }

  function Unread(t: Task): nat { if t.Scanning? then |t.unread| else 0 }

  predicate Shorter(t: Task, u: Task) {
    Rounds(t) < Rounds(u) || (Rounds(t) == Rounds(u) &&
    (Stages(t) < Stages(u) || (Stages(t) == Stages(u) && Unread(t) < Unread(u))))
  }

  lemma VisitShortens(st: Cluster, l: Label)
    requires Enabled(st, l) && l.act.Visit?
    ensures Shorter(Plan(st, l).task, st.nodes[l.i].task)
  {
    var left := st.nodes[l.i].task.left;
    assert |left - {l.act.c}| == |left| - 1;
  }

  lemma GoShortens(st: Cluster, l: Label)
    requires Enabled(st, l) && (l.act.Go? || l.act.Listing?)
    ensures Shorter(Plan(st, l).task, st.nodes[l.i].task)
  {
  }

  /** A handler that has begun can go on. */
  lemma CanGoOn(st: Cluster, i: InstanceId) returns (l: Label)
    requires i in st.nodes && !st.nodes[i].task.Idle?
    ensures Enabled(st, l) && l.i == i && (l.act.Go? || l.act.Listing? || l.act.Visit?)
  {
    var t := st.nodes[i].task;
    if t.Closing? && t.left != {} {
      var c :| c in t.left;
      l := Label(i, Visit(c));
    } else if t.Fetching? {
      var order := Handlers.Enumeration(Members(st.store, t.job.tag.chan));
      l := Label(i, Listing(order));
    } else {
      l := Label(i, Go);
    }
  }

  /** A part of the cluster's life without new commands. */
  ghost predicate Quietly(st: Cluster, run: seq<Label>, end: Cluster) {
    IsRun(st, run) && NoCommand(run) && After(st, run) == end && end.nodes.Keys == st.nodes.Keys
  }

  lemma QuietStep(st: Cluster, l: Label, rest: seq<Label>, end: Cluster)
    requires Enabled(st, l) && !l.act.Start? && Quietly(Next(st, l), rest, end)
    ensures Quietly(st, [l] + rest, end)
  {
    assert ([l] + rest)[0] == l && ([l] + rest)[1..] == rest;
  }

  lemma QuietBoth(st: Cluster, a: seq<Label>, mid: Cluster, b: seq<Label>, end: Cluster)
    requires Quietly(st, a, mid) && Quietly(mid, b, end)
    ensures Quietly(st, a + b, end)
  {
    Concat(st, a, b);
  }

  lemma {:induction false} Finish(st: Cluster, i: InstanceId) returns (run: seq<Label>, end: Cluster)
    requires i in st.nodes
    ensures Quietly(st, run, end) && end.nodes[i].task.Idle?
    ensures forall k :: k in st.nodes && k != i ==> end.nodes[k] == st.nodes[k]
    decreases Rounds(st.nodes[i].task), Stages(st.nodes[i].task), Unread(st.nodes[i].task)
  {
    if st.nodes[i].task.Idle? {
      run, end := [], st;
    } else {
      var l := CanGoOn(st, i);
      if l.act.Visit? {
        VisitShortens(st, l);
      } else {
        GoShortens(st, l);
      }
      run, end := Finish(Next(st, l), i);
      QuietStep(st, l, run, end);
      run := [l] + run;
    }
  }

  ghost predicate AllIdle(st: Cluster) { forall i :: i in st.nodes ==> st.nodes[i].task.Idle? }

  lemma {:induction false} FinishAll(st: Cluster, todo: set<InstanceId>) returns (run: seq<Label>, end: Cluster)
    requires forall i :: i in st.nodes && i !in todo ==> st.nodes[i].task.Idle?
    ensures Quietly(st, run, end) && AllIdle(end)
    decreases |todo|
  {
    if todo * st.nodes.Keys == {} {
      assert forall i :: i in st.nodes ==> i !in todo * st.nodes.Keys;
      run, end := [], st;
    } else {
      var i :| i in todo * st.nodes.Keys;
      var first, mid := Finish(st, i);
      run, end := FinishAll(mid, todo - {i});
      QuietBoth(st, first, mid, run, end);
      run := first + run;
    }
  }

  // ---------- the queues drain ----------

  ghost predicate ListenersHere(st: Cluster) {
    forall k :: 0 <= k < |st.listeners| ==> st.listeners[k].node in st.nodes
  }

  lemma PlanListens(st: Cluster, l: Label)
    requires Enabled(st, l)
    ensures Plan(st, l).redis.Listen? ==> Plan(st, l).redis.i == l.i
  {
  }

  lemma ListenersHereNext(st: Cluster, l: Label)
    requires Enabled(st, l) && ListenersHere(st)
    ensures ListenersHere(Next(st, l))
  {
    PlanListens(st, l);
    NextMoved(st, l);
  }

  lemma {:induction false} ListenersHereAlways(st: Cluster, run: seq<Label>)
    requires IsRun(st, run) && ListenersHere(st)
    ensures ListenersHere(After(st, run))
    decreases |run|
  {
    if run != [] {
      ListenersHereNext(st, run[0]);
      ListenersHereAlways(Next(st, run[0]), run[1..]);
    }
  }

  function Waiting(ls: seq<Listener>): nat {
    if ls == [] then 0 else Waiting(ls[..|ls| - 1]) + |ls[|ls| - 1].queue|
  }

  lemma {:induction false} WaitingAfterPop(ls: seq<Listener>, k: nat)
    requires k < |ls| && ls[k].queue != []
    ensures Waiting(Route(ls, Pop(k))) == Waiting(ls) - 1
  {
    var last := |ls| - 1;
    var r := Route(ls, Pop(k));
    if k < last {
      WaitingAfterPop(ls[..last], k);
      assert r[..last] == Route(ls[..last], Pop(k));
    } else {
      assert r[..last] == ls[..last];
    }
  }

  lemma {:induction false} SomethingWaits(ls: seq<Listener>) returns (k: nat)
    requires Waiting(ls) > 0
    ensures k < |ls| && ls[k].queue != []
  {
    k := |ls| - 1;
    if ls[k].queue == [] {
      k := SomethingWaits(ls[..k]);
    }
  }

  lemma {:induction false} NothingWaiting(ls: seq<Listener>, k: nat)
    requires Waiting(ls) == 0 && k < |ls|
    ensures ls[k].queue == []
  {
    if k < |ls| - 1 {
      NothingWaiting(ls[..|ls| - 1], k);
    }
  }

  lemma Finished(st: Cluster, i: InstanceId, act: Act, w: Handlers.World) returns (run: seq<Label>, end: Cluster)
    requires Moves(st, i, act, Idle, w) && !act.Start? && i in st.nodes
    ensures Quietly(st, run, end) && end.nodes == st.nodes[i := Node(w.app, Idle)] && end.listeners == w.listeners
  {
    end := Next(st, Label(i, act));
    QuietStep(st, Label(i, act), [], end);
    run := [Label(i, act)] + [];
  }

  /** One message is heard, and relayed or dropped. */
  lemma HearOne(st: Cluster, k: nat) returns (run: seq<Label>, end: Cluster)
    requires AllIdle(st) && ListenersHere(st) && k < |st.listeners| && st.listeners[k].queue != []
    ensures Quietly(st, run, end) && AllIdle(end) && end.listeners == Route(st.listeners, Pop(k))
  {
    var i, c, note := st.listeners[k].node, st.listeners[k].chan, st.listeners[k].queue[0];
    var w := Popped(WorldAt(st, i), k);
    HearSteps(st, i, k);
    var st1 := Next(st, Label(i, Hear(k)));
    HearingSteps(st1, i, c, note);
    if c in w.app.channels {
      var skip := Handlers.SkipOf(w, i, note.tag.ignore);
      var st2 := Next(st1, Label(i, Go));
      RelayingSteps(st2, i, c, note, skip);
      run, end := Finished(st2, i, Go, Handlers.Local(w, Send(c, RawOf(note), skip, note.tag)));
      QuietStep(st1, Label(i, Go), run, end);
      run := [Label(i, Go)] + run;
    } else {
      run, end := Finished(st1, i, Go, w);
    }
    QuietStep(st, Label(i, Hear(k)), run, end);
    run := [Label(i, Hear(k))] + run;
  }

  ghost predicate AtRest(st: Cluster) {
    AllIdle(st) && forall k :: 0 <= k < |st.listeners| ==> st.listeners[k].queue == []
  }

  lemma {:induction false} Drain(st: Cluster) returns (run: seq<Label>, end: Cluster)
    requires AllIdle(st) && ListenersHere(st)
    ensures Quietly(st, run, end) && AtRest(end)
    decreases Waiting(st.listeners)
  {
    if Waiting(st.listeners) == 0 {
      forall k | 0 <= k < |st.listeners| ensures st.listeners[k].queue == [] {
        NothingWaiting(st.listeners, k);
      }
      run, end := [], st;
    } else {
      var k := SomethingWaits(st.listeners);
      var first, mid := HearOne(st, k);
      WaitingAfterPop(st.listeners, k);
      ListenersHereAlways(st, first);
      run, end := Drain(mid);
      QuietBoth(st, first, mid, run, end);
      run := first + run;
    }
  }

  // ---------- who stays ----------

  /** No handler is taking the socket out of all its channels. */
  predicate Closes(t: Task, s: SocketId) { (t.Closing? || (t.Leaving? && t.rest.Some?)) && t.s == s }

  ghost predicate Keeps(st: Cluster, j: InstanceId, c: string, s: SocketId) {
    SubscribedAt(st, j, c, s) && !Closes(st.nodes[j].task, s)
  }

  /** Without commands, only such a handler takes a socket out of a channel. */
  ghost predicate QuietMove(t: Task, m: Move) {
    && (m.op.Exit? ==> Closes(t, m.op.s))
    && (forall s :: Closes(m.task, s) ==> Closes(t, s))
  }

  lemma PlanQuiet(st: Cluster, l: Label)
    requires Enabled(st, l) && !l.act.Start?
    ensures QuietMove(st.nodes[l.i].task, Plan(st, l))
  {
  }

  lemma KeepsNext(st: Cluster, l: Label, j: InstanceId, c: string, s: SocketId)
    requires Enabled(st, l) && !l.act.Start? && Safe(st) && Keeps(st, j, c, s)
    ensures Keeps(Next(st, l), j, c, s)
  {
    if l.i == j {
      assert NodeSound(st, j);
      PlanQuiet(st, l);
      PlanIsLegal(st, l);
      SubscribedAfter(st.nodes[j].app, Plan(st, l).op, c, s);
    }
  }

  lemma {:induction false} QuietStays(st: Cluster, run: seq<Label>, j: InstanceId, c: string, s: SocketId)
    requires Safe(st) && IsRun(st, run) && NoCommand(run) && Keeps(st, j, c, s)
    ensures Stays(st, run, j, c, s)
    decreases |run|
  {
    if run != [] {
      KeepsNext(st, run[0], j, c, s);
      SafeNext(st, run[0]);
      QuietStays(Next(st, run[0]), run[1..], j, c, s);
    }
  }

  /**
   From every safe state, without new commands, all handlers can finish and all queues drain; no
   subscriber is lost but those a disconnect is already taking out.
   */
  lemma CanRest(st: Cluster) returns (run: seq<Label>, end: Cluster)
    requires Safe(st) && ListenersHere(st)
    ensures Quietly(st, run, end) && AtRest(end)
    ensures forall j, c, s :: Keeps(st, j, c, s) ==> Stays(st, run, j, c, s)
  {
    var first, mid := FinishAll(st, st.nodes.Keys);
    ListenersHereAlways(st, first);
    run, end := Drain(mid);
    QuietBoth(st, first, mid, run, end);
    run := first + run;
    forall j, c, s | Keeps(st, j, c, s)
      ensures Stays(st, run, j, c, s)
    {
      QuietStays(st, run, j, c, s);
    }
  }

  /** Every publication can settle on every instance, with its subscribers staying. */
  lemma CanSettle(start: Cluster, i: InstanceId, t: Tag, valid: bool) returns (run: seq<Label>)
    requires JustBegun(start, i, t, valid)
    ensures IsRun(start, run) && forall j :: j in start.nodes ==> Settles(start, run, i, j, t)
    ensures forall j, c, s :: Keeps(start, j, c, s) ==> Stays(start, run, j, c, s)
  {
    BegunIsSafe(start, i, t, valid);
    BegunHere(start, i, t, valid);
    var end;
    run, end := CanRest(start);
    forall j | j in start.nodes
      ensures Settles(start, run, i, j, t)
    {
      RestIsDrained(end, i, j, t);
    }
  }

  lemma RestIsDrained(end: Cluster, i: InstanceId, j: InstanceId, t: Tag)
    requires AtRest(end) && j in end.nodes
    ensures Drained(end, i, j, t)
  {
    NothingQueued(end.listeners, j, t.chan, t);
  }

  lemma BegunIsSafe(start: Cluster, i: InstanceId, t: Tag, valid: bool)
    requires JustBegun(start, i, t, valid)
    ensures Safe(start)
  {
    IsBegun(start, i, t, valid);
  }

  lemma BegunHere(start: Cluster, i: InstanceId, t: Tag, valid: bool)
    requires JustBegun(start, i, t, valid)
    ensures ListenersHere(start)
  {
    var st, l :| Reachable(st) && Begins(st, l, t, valid) && l.i == i && start == Next(st, l);
    var first, run :| Initial(first) && IsRun(first, run) && After(first, run) == st;
    ListenersHereAlways(first, run);
    ListenersHereNext(st, l);
  }
}
