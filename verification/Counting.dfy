/** When a publication is broadcast, and how many copies of it each subscriber then holds. */
module Counting {
  import opened Types
  import opened Instance
  import opened Registry
  import opened Cluster
  import opened Frames
  import opened Safety
  import opened Delivery
  import Handlers
  import Mirror

  // ---------- the broadcast of a publication ----------

  /** The step broadcasts publication `t`. */
  ghost predicate Broadcasts(st: Cluster, l: Label, t: Tag)
    requires Enabled(st, l)
  {
    var m := Plan(st, l).redis;
    m.Publish? && m.c == t.chan && m.note.tag == t
  }

  /** Some step of the run does. */
  ghost predicate IsBroadcast(st: Cluster, run: seq<Label>, t: Tag)
    requires IsRun(st, run)
    decreases |run|
  {
    run != [] && (Broadcasts(st, run[0], t) || IsBroadcast(Next(st, run[0]), run[1..], t))
  }

  /** The listeners of `j` that broadcasts of `t` reach during a run. */
  ghost function Reach(st: Cluster, run: seq<Label>, j: InstanceId, t: Tag): nat
    requires IsRun(st, run)
    decreases |run|
  {
    if run == [] then 0
    else
      (if Broadcasts(st, run[0], t) then Listeners(st.listeners, j, t.chan) else 0) + Reach(Next(st, run[0]), run[1..], j, t)
  }

  lemma {:induction false} FiredIsReach(
    st: Cluster, run: seq<Label>, i: InstanceId, j: InstanceId, t: Tag, valid: bool)
    requires Safe(st) && Tracked(st, i, t, valid) && IsRun(st, run) && j in st.nodes
    ensures Fired(After(st, run), j, t) == Fired(st, j, t) + Reach(st, run, j, t)
    decreases |run|
  {
    if run != [] {
      var l := run[0];
      FiredNext(st, l, i, j, t, valid);
      SafeNext(st, l);
      TrackedNext(st, l, i, t, valid);
      FiredIsReach(Next(st, l), run[1..], i, j, t, valid);
    }
  }

  /** Only the working publisher broadcasts `t`, and its history then has it. */
  lemma BroadcastStep(st: Cluster, l: Label, i: InstanceId, t: Tag, valid: bool)
    requires Enabled(st, l) && Tracked(st, i, t, valid)
    ensures Broadcasts(st, l, t) ==> l.i == i && Working(st, i, t) && st.nodes[i].task.Sending? && t.pid !in st.history.fired
    ensures t.pid in Next(st, l).history.fired <==> t.pid in st.history.fired || Broadcasts(st, l, t)
  {
    PlanSteps(st, l);
  }

  /** A publication is broadcast at most once. */
  lemma {:induction false} NeverAgain(st: Cluster, run: seq<Label>, i: InstanceId, j: InstanceId, t: Tag, valid: bool)
    requires Tracked(st, i, t, valid) && IsRun(st, run) && t.pid in st.history.fired
    ensures !IsBroadcast(st, run, t) && Reach(st, run, j, t) == 0
    decreases |run|
  {
    if run != [] {
      BroadcastStep(st, run[0], i, t, valid);
      TrackedNext(st, run[0], i, t, valid);
      NeverAgain(Next(st, run[0]), run[1..], i, j, t, valid);
    }
  }

  /** The first `m` steps of a run, and the step that broadcasts. */
  ghost predicate BroadcastAt(st: Cluster, run: seq<Label>, m: nat, t: Tag) {
    && m < |run| && IsRun(st, run[..m])
    && Enabled(After(st, run[..m]), run[m]) && Broadcasts(After(st, run[..m]), run[m], t)
  }

  /** The reach of a publication is the number of listeners at the moment of its broadcast. */
  lemma {:induction false} ReachIsListeners(
    st: Cluster, run: seq<Label>, i: InstanceId, j: InstanceId, t: Tag, valid: bool) returns (m: nat)
    requires Tracked(st, i, t, valid) && IsRun(st, run) && IsBroadcast(st, run, t)
    ensures BroadcastAt(st, run, m, t) && Reach(st, run, j, t) == Listeners(After(st, run[..m]).listeners, j, t.chan)
    decreases |run|
  {
    var l := run[0];
    TrackedNext(st, l, i, t, valid);
    BroadcastStep(st, l, i, t, valid);
    if Broadcasts(st, l, t) {
      NeverAgain(Next(st, l), run[1..], i, j, t, valid);
      m := 0;
    } else {
      var k := ReachIsListeners(Next(st, l), run[1..], i, j, t, valid);
      m := k + 1;
      assert run[..m][0] == l && run[..m][1..] == run[1..][..k];
    }
  }

  lemma {:induction false} NoReach(st: Cluster, run: seq<Label>, j: InstanceId, t: Tag)
    requires IsRun(st, run) && !IsBroadcast(st, run, t)
    ensures Reach(st, run, j, t) == 0
    decreases |run|
  {
    if run != [] {
      NoReach(Next(st, run[0]), run[1..], j, t);
    }
  }

  // ---------- when the scan finds nobody ----------

  /** Every member of a registry set is a socket that was opened. */
  ghost predicate MembersUsed(st: Cluster) {
    forall c, s :: s in Members(st.store, c) ==> s in st.history.used
  }

  lemma MembersUsedAfter(st: Cluster, i: InstanceId, m: Move)
    requires i in st.nodes && MembersUsed(st) && Mirror.CallsOwn(st.history, i, st.nodes[i], m)
    ensures forall c, s :: s in Members(Commit(st.store, m.redis), c) ==> s in Record(st.history, m).used
  {
    forall c, s | s in Members(Commit(st.store, m.redis), c)
      ensures s in Record(st.history, m).used
    {
      MembersAfter(st.store, m.redis, c);
    }
  }

  lemma MembersUsedNext(st: Cluster, l: Label)
    requires Enabled(st, l) && NodeSound(st, l.i) && MembersUsed(st)
    ensures MembersUsed(Next(st, l))
  {
    Mirror.PlanCallsOwn(st, l);
    MembersUsedAfter(st, l.i, Plan(st, l));
  }

  lemma {:induction false} MembersUsedAlways(st: Cluster, run: seq<Label>)
    requires Safe(st) && MembersUsed(st) && IsRun(st, run)
    ensures MembersUsed(After(st, run))
    decreases |run|
  {
    if run != [] {
      MembersUsedNext(st, run[0]);
      SafeNext(st, run[0]);
      MembersUsedAlways(Next(st, run[0]), run[1..]);
    }
  }

  lemma ReachableIsUsed(st: Cluster)
    requires Reachable(st)
    ensures MembersUsed(st)
  {
    var start, run :| Initial(start) && IsRun(start, run) && After(start, run) == st;
    InitiallySafe(start);
    MembersUsedAlways(start, run);
  }

  predicate Elsewhere(r: Store, i: InstanceId, s: SocketId) { s in r.conns && r.conns[s] != i }

  /** The publisher of `t` reads the registry's set. */
  ghost predicate Reads(st: Cluster, l: Label, i: InstanceId, t: Tag) {
    l.i == i && Working(st, i, t) && st.nodes[i].task.Fetching?
  }

  /** Whenever it does, no member is registered to another instance. */
  ghost predicate NobodyElse(st: Cluster, run: seq<Label>, i: InstanceId, t: Tag)
    requires IsRun(st, run)
    decreases |run|
  {
    run == [] ||
    ((Reads(st, run[0], i, t) ==> !Handlers.RemoteSubscriber(st.store, i, t.chan)) &&
     NobodyElse(Next(st, run[0]), run[1..], i, t))
  }

  /** The publisher will not broadcast: what it still has to read is registered nowhere else. */
  ghost predicate Alone(st: Cluster, i: InstanceId, t: Tag) {
    && t.pid !in st.history.fired
    && (Working(st, i, t) ==>
          var task := st.nodes[i].task;
          && !task.Sending?
          && (task.Scanning? ==> forall s :: s in task.unread ==> s in st.history.used && !Elsewhere(st.store, i, s)))
  }

  /** The steps of the publisher: a listing is an enumeration, the scan goes on past its own sockets. */
  ghost predicate ReadStep(st: Cluster, i: InstanceId, t: Task, m: Move) {
    && (t.Fetching? ==> m.task.Scanning? && forall s :: s in m.task.unread ==> s in Members(st.store, t.job.tag.chan))
    && (m.task.Scanning? ==> t.Fetching? || (t.Scanning? && t.unread != [] && m.task.unread == t.unread[1..]))
    && (m.task.Sending? ==>
          t.Scanning? && t.unread != [] && Elsewhere(st.store, i, t.unread[0]) && t.job.raw.payload.Some?)
    && (t.Fetching? || t.Scanning? ==> m.redis.Quiet?)
  }

  lemma PlanReads(st: Cluster, l: Label)
    requires Enabled(st, l)
    ensures ReadStep(st, l.i, st.nodes[l.i].task, Plan(st, l))
  {
  }

  /** Registrations to other instances are new only for new sockets. */
  lemma ElsewhereAfter(st: Cluster, l: Label, i: InstanceId, s: SocketId)
    requires Enabled(st, l) && NodeSound(st, l.i) && s in st.history.used && !Elsewhere(st.store, i, s)
    ensures s in Next(st, l).history.used && !Elsewhere(Next(st, l).store, i, s)
  {
    PlanRegistersOwn(st, l);
  }

  lemma AloneNext(st: Cluster, l: Label, i: InstanceId, t: Tag, valid: bool)
    requires Enabled(st, l) && Safe(st) && MembersUsed(st) && Tracked(st, i, t, valid) && Alone(st, i, t)
    requires Reads(st, l, i, t) ==> !Handlers.RemoteSubscriber(st.store, i, t.chan)
    ensures !Broadcasts(st, l, t) && Alone(Next(st, l), i, t)
  {
    BroadcastStep(st, l, i, t, valid);
    PlanSteps(st, l);
    PlanReads(st, l);
    var next := Next(st, l);
    if Working(next, i, t) && next.nodes[i].task.Scanning? {
      forall s | s in next.nodes[i].task.unread
        ensures s in next.history.used && !Elsewhere(next.store, i, s)
      {
        assert NodeSound(st, l.i);
        ElsewhereAfter(st, l, i, s);
      }
    }
  }

  lemma {:induction false} AloneAlways(st: Cluster, run: seq<Label>, i: InstanceId, t: Tag, valid: bool)
    requires Safe(st) && MembersUsed(st) && Tracked(st, i, t, valid) && Alone(st, i, t)
    requires IsRun(st, run) && NobodyElse(st, run, i, t)
    ensures !IsBroadcast(st, run, t)
    decreases |run|
  {
    if run != [] {
      AloneNext(st, run[0], i, t, valid);
      SafeNext(st, run[0]);
      MembersUsedNext(st, run[0]);
      TrackedNext(st, run[0], i, t, valid);
      AloneAlways(Next(st, run[0]), run[1..], i, t, valid);
    }
  }

  // ---------- when the scan finds somebody ----------

  /** As long as the publisher works on `t`, the socket is subscribed on `k`. */
  ghost predicate StaysForScan(st: Cluster, run: seq<Label>, i: InstanceId, k: InstanceId, s: SocketId, t: Tag)
    requires IsRun(st, run)
    decreases |run|
  {
    && (Working(st, i, t) ==> SubscribedAt(st, k, t.chan, s))
    && (run != [] ==> StaysForScan(Next(st, run[0]), run[1..], i, k, s, t))
  }

  lemma {:induction false} BroadcastIfSomebody(
    st: Cluster, run: seq<Label>, i: InstanceId, k: InstanceId, s: SocketId, t: Tag)
    requires Safe(st) && Tracked(st, i, t, true) && i != k && IsRun(st, run) && StaysForScan(st, run, i, k, s, t)
    requires OnTheWay(st, i, k, s, t) && t.pid !in st.history.fired && !Working(After(st, run), i, t)
    ensures IsBroadcast(st, run, t)
    decreases |run|
  {
    var l := run[0];
    BroadcastStep(st, l, i, t, true);
    if !Broadcasts(st, l, t) {
      OnTheWayNext(st, l, i, k, s, t);
      SafeNext(st, l);
      TrackedNext(st, l, i, t, true);
      BroadcastIfSomebody(Next(st, l), run[1..], i, k, s, t);
    }
  }

  /** The scan meets a socket of another instance. */
  ghost predicate Meets(st: Cluster, l: Label, i: InstanceId, t: Tag) {
    l.i == i && Working(st, i, t) &&
    var task := st.nodes[i].task;
    task.Scanning? && task.unread != [] && Elsewhere(st.store, i, task.unread[0])
  }

  ghost predicate Finds(st: Cluster, run: seq<Label>, i: InstanceId, t: Tag)
    requires IsRun(st, run)
    decreases |run|
  {
    run != [] && (Meets(st, run[0], i, t) || Finds(Next(st, run[0]), run[1..], i, t))
  }

  /** The publisher is about to broadcast `t`. */
  ghost predicate Ready(st: Cluster, i: InstanceId, t: Tag) { Working(st, i, t) && st.nodes[i].task.Sending? }

  /** The publisher's steps around the broadcast. */
  ghost predicate ReadyStep(st: Cluster, i: InstanceId, t: Task, m: Move) {
    && (m.task.Sending? <==>
          t.Scanning? && t.unread != [] && Elsewhere(st.store, i, t.unread[0]) && t.job.raw.payload.Some?)
    && (m.task.Sending? ==> m.task.job == t.job)
    && (m.redis.Publish? <==> t.Sending? && t.job.raw.payload.Some?)
    && (m.redis.Publish? ==> m.redis == Publish(t.job.tag.chan, NoteOf(t.job)))
  }

  lemma PlanReady(st: Cluster, l: Label)
    requires Enabled(st, l)
    ensures ReadyStep(st, l.i, st.nodes[l.i].task, Plan(st, l))
  {
  }

  lemma ReadyAfter(st: Cluster, l: Label, i: InstanceId, t: Tag, valid: bool)
    requires Enabled(st, l) && NodeSound(st, l.i) && Tracked(st, i, t, valid)
    ensures Ready(Next(st, l), i, t) <==> (Ready(st, i, t) && l.i != i) || (Meets(st, l, i, t) && valid)
    ensures Broadcasts(st, l, t) <==> Ready(st, i, t) && l.i == i
  {
    PlanReady(st, l);
    ReadyMoves(st, l.i, Plan(st, l), i, t, valid);
    NextMoved(st, l);
  }

  /** A step of another instance, or of the publisher. */
  lemma ReadyMoves(st: Cluster, k: InstanceId, m: Move, i: InstanceId, t: Tag, valid: bool)
    requires k in st.nodes && ReadyStep(st, k, st.nodes[k].task, m) && Tracked(st, i, t, valid)
    requires TaskFits(st.history, k, st.nodes[k])
    ensures (m.redis.Publish? && m.redis.c == t.chan && m.redis.note.tag == t) <==> Ready(st, i, t) && k == i
    ensures k == i ==> ((m.task.Sending? && m.task.job.tag == t) <==> (valid && Working(st, i, t) && st.nodes[i].task.Scanning? &&
      st.nodes[i].task.unread != [] && Elsewhere(st.store, i, st.nodes[i].task.unread[0])))
  {
  }

  /** A publication is broadcast exactly when its data is JSON and the scan meets a socket of another instance. */
  lemma {:induction false} BroadcastIff(st: Cluster, run: seq<Label>, i: InstanceId, t: Tag, valid: bool)
    requires Safe(st) && Tracked(st, i, t, valid) && IsRun(st, run) && !Working(After(st, run), i, t)
    ensures IsBroadcast(st, run, t) <==> Ready(st, i, t) || (valid && Finds(st, run, i, t))
    decreases |run|
  {
    if run != [] {
      ReadyAfter(st, run[0], i, t, valid);
      SafeNext(st, run[0]);
      TrackedNext(st, run[0], i, t, valid);
      BroadcastIff(Next(st, run[0]), run[1..], i, t, valid);
    }
  }

  // ---------- the number of copies ----------

  /** Publication `t` of instance `i` has just begun, at a reachable state. */
  ghost predicate JustBegun(start: Cluster, i: InstanceId, t: Tag, valid: bool) {
    exists st, l :: Reachable(st) && Begins(st, l, t, valid) && l.i == i && start == Next(st, l)
  }

  /** What then holds. */
  ghost predicate Begun(start: Cluster, i: InstanceId, t: Tag, valid: bool) {
    && Safe(start) && Numbered(start) && MembersUsed(start) && Tracked(start, i, t, valid)
    && t.pid !in start.history.fired && Working(start, i, t) && start.nodes[i].task.Announcing?
    && forall j, s :: j in start.nodes ==> Balanced(start, i, j, s, t, valid)
  }

  lemma BegunAfter(st: Cluster, l: Label, t: Tag, valid: bool)
    requires Reachable(st) && Begins(st, l, t, valid)
    ensures Begun(Next(st, l), l.i, t, valid)
  {
    SafeAfterBegins(st, l, t, valid);
    forall j, s | j in st.nodes
      ensures Balanced(Next(st, l), l.i, j, s, t, valid)
    {
      BeginsBalanced(st, l, j, s, t, valid);
    }
    BeginsBalanced(st, l, l.i, "", t, valid);
    ReachableIsUsed(st);
    ReachableIsSafe(st);
    MembersUsedNext(st, l);
    BeginsUnfired(st, l, t, valid);
  }

  lemma BeginsUnfired(st: Cluster, l: Label, t: Tag, valid: bool)
    requires Begins(st, l, t, valid) && Numbered(st)
    ensures t.pid !in Next(st, l).history.fired
    ensures Working(Next(st, l), l.i, t) && Next(st, l).nodes[l.i].task.Announcing?
  {
    NothingYet(st, l, l.i, "", t, valid);
    PlanSteps(st, l);
  }

  lemma IsBegun(start: Cluster, i: InstanceId, t: Tag, valid: bool)
    requires JustBegun(start, i, t, valid)
    ensures Begun(start, i, t, valid)
  {
    var st, l :| Reachable(st) && Begins(st, l, t, valid) && l.i == i && start == Next(st, l);
    BegunAfter(st, l, t, valid);
  }

  /** A run after which the publisher is done and no copy travels to `j`. */
  ghost predicate Settles(start: Cluster, run: seq<Label>, i: InstanceId, j: InstanceId, t: Tag) {
    IsRun(start, run) && Drained(After(start, run), i, j, t)
  }

  /** The event is broadcast exactly when its data is JSON and the scan meets a socket of another instance. */
  lemma BroadcastExactly(start: Cluster, run: seq<Label>, i: InstanceId, j: InstanceId, t: Tag, valid: bool)
    requires JustBegun(start, i, t, valid) && Settles(start, run, i, j, t)
    ensures IsBroadcast(start, run, t) <==> valid && Finds(start, run, i, t)
  {
    IsBegun(start, i, t, valid);
    BroadcastIff(start, run, i, t, valid);
  }

  /** A subscriber of another instance that stays while the publisher works is met by the scan. */
  lemma SomebodyElseIsFound(
    start: Cluster, run: seq<Label>, i: InstanceId, j: InstanceId, t: Tag, k: InstanceId, other: SocketId)
    requires JustBegun(start, i, t, true) && Settles(start, run, i, j, t)
    requires k != i && other in Members(start.store, t.chan) && StaysForScan(start, run, i, k, other, t)
    ensures Finds(start, run, i, t)
  {
    IsBegun(start, i, t, true);
    BroadcastIfSomebody(start, run, i, k, other, t);
    BroadcastExactly(start, run, i, j, t, true);
  }

  /** If the registry shows nobody of another instance when the publisher reads it, the scan meets nobody. */
  lemma NobodyElseIsFound(start: Cluster, run: seq<Label>, i: InstanceId, j: InstanceId, t: Tag, valid: bool)
    requires JustBegun(start, i, t, valid) && Settles(start, run, i, j, t) && NobodyElse(start, run, i, t)
    ensures !(valid && Finds(start, run, i, t))
  {
    IsBegun(start, i, t, valid);
    AloneAlways(start, run, i, t, valid);
    BroadcastExactly(start, run, i, j, t, valid);
  }

  /** The subscriber's copies: the one told locally, and those that a broadcast sent to its instance's listeners. */
  lemma CopiesAreReach(start: Cluster, run: seq<Label>, i: InstanceId, j: InstanceId, s: SocketId, t: Tag, valid: bool)
    requires JustBegun(start, i, t, valid) && Settles(start, run, i, j, t)
    requires Stays(start, run, j, t.chan, s) && s != t.ignore
    ensures Copies(After(start, run).nodes[j].app, s, t) == (if i == j && valid then 1 else 0) + Reach(start, run, j, t)
  {
    IsBegun(start, i, t, valid);
    BalancedAlways(start, run, i, j, s, t, valid);
    FiredIsReach(start, run, i, j, t, valid);
  }

  /** If the scan meets nobody, a subscriber of the publishing instance has one copy of an event whose data is JSON, and others none. */
  lemma CopiesIfSilent(start: Cluster, run: seq<Label>, i: InstanceId, j: InstanceId, s: SocketId, t: Tag, valid: bool)
    requires JustBegun(start, i, t, valid) && Settles(start, run, i, j, t)
    requires Stays(start, run, j, t.chan, s) && s != t.ignore
    requires !(valid && Finds(start, run, i, t))
    ensures Copies(After(start, run).nodes[j].app, s, t) == if i == j && valid then 1 else 0
  {
    CopiesAreReach(start, run, i, j, s, t, valid);
    BroadcastExactly(start, run, i, j, t, valid);
    NoReach(start, run, j, t);
  }

  /** If it meets somebody, there is one broadcast, and one more copy for each listener the instance then had. */
  lemma CopiesIfBroadcast(start: Cluster, run: seq<Label>, i: InstanceId, j: InstanceId, s: SocketId, t: Tag) returns (m: nat)
    requires JustBegun(start, i, t, true) && Settles(start, run, i, j, t)
    requires Stays(start, run, j, t.chan, s) && s != t.ignore
    requires Finds(start, run, i, t)
    ensures BroadcastAt(start, run, m, t)
    ensures var here := Listeners(After(start, run[..m]).listeners, j, t.chan);
      here >= 1 && Copies(After(start, run).nodes[j].app, s, t) == (if i == j then 1 else 0) + here
  {
    CopiesAreReach(start, run, i, j, s, t, true);
    BroadcastExactly(start, run, i, j, t, true);
    IsBegun(start, i, t, true);
    m := ReachIsListeners(start, run, i, j, t, true);
    StaysAt(start, run, j, t.chan, s, m);
    SafeAlways(start, run[..m]);
    HasListener(After(start, run[..m]), j, t.chan, s);
  }

  /** A channel with a subscriber has a listener. */
  lemma HasListener(st: Cluster, j: InstanceId, c: string, s: SocketId)
    requires Safe(st) && SubscribedAt(st, j, c, s)
    ensures Listeners(st.listeners, j, c) >= 1
  {
  }

  lemma {:induction false} StaysAt(st: Cluster, run: seq<Label>, j: InstanceId, c: string, s: SocketId, m: nat)
    requires IsRun(st, run) && Stays(st, run, j, c, s) && m <= |run|
    ensures IsRun(st, run[..m]) && SubscribedAt(After(st, run[..m]), j, c, s)
    decreases |run|
  {
    if m > 0 {
      StaysAt(Next(st, run[0]), run[1..], j, c, s, m - 1);
      assert run[..m][0] == run[0] && run[..m][1..] == run[1..][..m - 1];
    }
  }

  /**
   With nobody of another instance in the registry when the publisher reads it, everyone on the
   publishing instance has exactly one copy. (Nobody elsewhere has any: `NoCopyElsewhere`.)
   */
  lemma OneCopyIfNobodyElse(start: Cluster, run: seq<Label>, i: InstanceId, j: InstanceId, s: SocketId, t: Tag, valid: bool)
    requires JustBegun(start, i, t, valid) && Settles(start, run, i, j, t)
    requires Stays(start, run, j, t.chan, s) && s != t.ignore
    requires NobodyElse(start, run, i, t)
    ensures Copies(After(start, run).nodes[j].app, s, t) == if i == j && valid then 1 else 0
  {
    NobodyElseIsFound(start, run, i, j, t, valid);
    CopiesIfSilent(start, run, i, j, s, t, valid);
  }

  /**
   With a registered member that stays subscribed on another instance while the publisher works, every
   subscriber that stays, on any instance, has one copy if it is on the publishing instance and one
   for each listener its instance had at the broadcast, of which there is at least one.
   */
  lemma CopiesIfSomebodyElse(
    start: Cluster, run: seq<Label>, i: InstanceId, j: InstanceId, s: SocketId, t: Tag, k: InstanceId, other: SocketId)
    returns (m: nat)
    requires JustBegun(start, i, t, true) && Settles(start, run, i, j, t)
    requires Stays(start, run, j, t.chan, s) && s != t.ignore
    requires k != i && other in Members(start.store, t.chan) && StaysForScan(start, run, i, k, other, t)
    ensures BroadcastAt(start, run, m, t)
    ensures var here := Listeners(After(start, run[..m]).listeners, j, t.chan);
      here >= 1 && Copies(After(start, run).nodes[j].app, s, t) == (if i == j then 1 else 0) + here
  {
    SomebodyElseIsFound(start, run, i, j, t, k, other);
    m := CopiesIfBroadcast(start, run, i, j, s, t);
  }

  // ---------- subscribers that come and go ----------

  /** The step hands a copy of `t` to `s`: the event is told or relayed on `j` while `s` is subscribed there. */
  ghost predicate Hands(st: Cluster, l: Label, j: InstanceId, s: SocketId, t: Tag)
    requires l.i in st.nodes
  {
    && l.i == j && SubscribedAt(st, j, t.chan, s)
    && ((Tells(st, l, t) && st.nodes[j].task.job.raw.payload.Some?) || Delivery.Relays(st, l, j, t))
  }

  lemma HandsNext(st: Cluster, l: Label, j: InstanceId, s: SocketId, t: Tag)
    requires Enabled(st, l) && Safe(st) && NotesFit(st) && j in st.nodes && s != t.ignore
    ensures Copies(Next(st, l).nodes[j].app, s, t) == Copies(st.nodes[j].app, s, t) + if Hands(st, l, j, s, t) then 1 else 0
  {
    if !SubscribedAt(st, j, t.chan, s) {
      OutsiderNext(st, l, j, s, t);
    } else if l.i == j {
      SubscribedIsRegistered(st, j, t.chan, s);
      assert NodeSound(st, j);
      assert HasNote(st.nodes[j].task) ==> NoteFits(st.nodes[j].task.note, st.nodes[j].task.chan, st.history.fired.Keys);
      PlanSends(st, l);
      CopiesAfter(st.nodes[j].app, Plan(st, l).op, s, t);
    }
  }

  /** How many steps of the run do. */
  ghost function Handed(st: Cluster, run: seq<Label>, j: InstanceId, s: SocketId, t: Tag): nat
    requires IsRun(st, run)
    decreases |run|
  {
    if run == [] then 0
    else (if Hands(st, run[0], j, s, t) then 1 else 0) + Handed(Next(st, run[0]), run[1..], j, s, t)
  }

  lemma {:induction false} CopiesAreHanded(st: Cluster, run: seq<Label>, j: InstanceId, s: SocketId, t: Tag)
    requires Safe(st) && Numbered(st) && IsRun(st, run) && j in st.nodes && s != t.ignore
    ensures j in After(st, run).nodes
    ensures Copies(After(st, run).nodes[j].app, s, t) == Copies(st.nodes[j].app, s, t) + Handed(st, run, j, s, t)
    decreases |run|
  {
    if run != [] {
      HandsNext(st, run[0], j, s, t);
      SafeNext(st, run[0]);
      NumberedNext(st, run[0]);
      CopiesAreHanded(Next(st, run[0]), run[1..], j, s, t);
    }
  }

  ghost predicate HandsAt(st: Cluster, run: seq<Label>, m: nat, j: InstanceId, s: SocketId, t: Tag) {
    && m < |run| && IsRun(st, run[..m]) && Enabled(After(st, run[..m]), run[m])
    && Hands(After(st, run[..m]), run[m], j, s, t)
  }

  lemma HandsShifted(st: Cluster, run: seq<Label>, m: nat, j: InstanceId, s: SocketId, t: Tag)
    requires IsRun(st, run) && run != []
    ensures HandsAt(st, run, m + 1, j, s, t) <==> HandsAt(Next(st, run[0]), run[1..], m, j, s, t)
  {
    if m + 1 < |run| {
      Shifted(st, run, m + 1);
      assert run[1..][m] == run[m + 1];
    }
  }

  lemma HandsFirst(st: Cluster, run: seq<Label>, j: InstanceId, s: SocketId, t: Tag)
    requires IsRun(st, run) && run != []
    ensures HandsAt(st, run, 0, j, s, t) <==> Hands(st, run[0], j, s, t)
  {
    assert run[..0] == [];
  }

  lemma {:induction false} HandedIf(st: Cluster, run: seq<Label>, m: nat, j: InstanceId, s: SocketId, t: Tag)
    requires IsRun(st, run) && HandsAt(st, run, m, j, s, t)
    ensures Handed(st, run, j, s, t) >= 1
    decreases |run|
  {
    if m == 0 {
      HandsFirst(st, run, j, s, t);
    } else {
      HandsShifted(st, run, m - 1, j, s, t);
      HandedIf(Next(st, run[0]), run[1..], m - 1, j, s, t);
    }
  }

  lemma {:induction false} HandedOnlyIf(st: Cluster, run: seq<Label>, j: InstanceId, s: SocketId, t: Tag) returns (m: nat)
    requires IsRun(st, run) && Handed(st, run, j, s, t) >= 1
    ensures HandsAt(st, run, m, j, s, t)
    decreases |run|
  {
    if Hands(st, run[0], j, s, t) {
      HandsFirst(st, run, j, s, t);
      m := 0;
    } else {
      m := HandedOnlyIf(Next(st, run[0]), run[1..], j, s, t);
      HandsShifted(st, run, m, j, s, t);
      m := m + 1;
    }
  }

  lemma HandedIff(st: Cluster, run: seq<Label>, j: InstanceId, s: SocketId, t: Tag)
    requires IsRun(st, run)
    ensures Handed(st, run, j, s, t) >= 1 <==> exists m :: HandsAt(st, run, m, j, s, t)
  {
    if Handed(st, run, j, s, t) >= 1 {
      var m := HandedOnlyIf(st, run, j, s, t);
    }
    if m :| HandsAt(st, run, m, j, s, t) {
      HandedIf(st, run, m, j, s, t);
    }
  }

  /** The states of a run are those of the run after its first step. */
  lemma Shifted(st: Cluster, run: seq<Label>, m: nat)
    requires IsRun(st, run) && 0 < m <= |run|
    ensures IsRun(st, run[..m]) <==> IsRun(Next(st, run[0]), run[1..][..m - 1])
    ensures IsRun(st, run[..m]) ==> After(st, run[..m]) == After(Next(st, run[0]), run[1..][..m - 1])
  {
    assert run[..m][0] == run[0] && run[..m][1..] == run[1..][..m - 1];
  }

  /**
   On every run, with subscribers coming and going: the copies are the times the event was told or
   relayed on the instance while the socket was subscribed there, and there is one if and only if
   there was such a time.
   */
  lemma ReceivedIff(start: Cluster, run: seq<Label>, i: InstanceId, j: InstanceId, s: SocketId, t: Tag, valid: bool)
    requires JustBegun(start, i, t, valid) && IsRun(start, run) && j in start.nodes && s != t.ignore
    ensures var end := After(start, run);
      && j in end.nodes && Copies(end.nodes[j].app, s, t) == Handed(start, run, j, s, t)
      && (Copies(end.nodes[j].app, s, t) >= 1 <==> exists m :: HandsAt(start, run, m, j, s, t))
  {
    IsBegun(start, i, t, valid);
    NoneAtFirst(start, i, j, s, t, valid);
    CopiesAreHanded(start, run, j, s, t);
    HandedIff(start, run, j, s, t);
  }

  lemma NoneAtFirst(start: Cluster, i: InstanceId, j: InstanceId, s: SocketId, t: Tag, valid: bool)
    requires Begun(start, i, t, valid) && j in start.nodes
    ensures Copies(start.nodes[j].app, s, t) == 0 && Flight(start, j, t) == 0
  {
    assert Balanced(start, i, j, s, t, valid);
  }

  // ---------- where the copies go ----------

  /** The steps that relay or drop a heard copy of `t` on `j`. */
  ghost function Handled(st: Cluster, run: seq<Label>, j: InstanceId, t: Tag): nat
    requires IsRun(st, run)
    decreases |run|
  {
    if run == [] then 0
    else
      (if Delivery.Relays(st, run[0], j, t) || Drops(st, run[0], j, t) then 1 else 0) +
      Handled(Next(st, run[0]), run[1..], j, t)
  }

  /** Nothing is lost on the way: every broadcast copy is relayed or dropped, or still travels. */
  lemma {:induction false} HandledIsReach(st: Cluster, run: seq<Label>, j: InstanceId, t: Tag)
    requires Numbered(st) && IsRun(st, run) && j in st.nodes
    ensures j in After(st, run).nodes
    ensures Flight(After(st, run), j, t) + Handled(st, run, j, t) == Flight(st, j, t) + Reach(st, run, j, t)
    decreases |run|
  {
    if run != [] {
      FlightAfter(st, run[0], j, t);
      NumberedNext(st, run[0]);
      HandledIsReach(Next(st, run[0]), run[1..], j, t);
    }
  }

  /** Once drained, the copies that a broadcast sent to an instance have been relayed or dropped there. */
  lemma AllHandled(start: Cluster, run: seq<Label>, i: InstanceId, j: InstanceId, t: Tag, valid: bool)
    requires JustBegun(start, i, t, valid) && Settles(start, run, i, j, t)
    ensures Handled(start, run, j, t) == Reach(start, run, j, t)
  {
    IsBegun(start, i, t, valid);
    SameNodes(start, run);
    NoneAtFirst(start, i, j, "", t, valid);
    HandledIsReach(start, run, j, t);
  }

  /** On an instance that does not publish the event, only relayed copies are handed out. */
  lemma {:induction false} HandedIsRelayed(
    st: Cluster, run: seq<Label>, i: InstanceId, j: InstanceId, s: SocketId, t: Tag, valid: bool)
    requires Tracked(st, i, t, valid) && IsRun(st, run) && i != j
    ensures Handed(st, run, j, s, t) <= Handled(st, run, j, t)
    decreases |run|
  {
    if run != [] {
      TrackedNext(st, run[0], i, t, valid);
      HandedIsRelayed(Next(st, run[0]), run[1..], i, j, s, t, valid);
    }
  }

  /** If the scan meets nobody, no socket of another instance has a copy, whenever it came or went. */
  lemma NoCopyElsewhere(start: Cluster, run: seq<Label>, i: InstanceId, j: InstanceId, s: SocketId, t: Tag, valid: bool)
    requires JustBegun(start, i, t, valid) && Settles(start, run, i, j, t)
    requires i != j && s != t.ignore && !(valid && Finds(start, run, i, t))
    ensures Copies(After(start, run).nodes[j].app, s, t) == 0
  {
    IsBegun(start, i, t, valid);
    SameNodes(start, run);
    BroadcastExactly(start, run, i, j, t, valid);
    NoReach(start, run, j, t);
    AllHandled(start, run, i, j, t, valid);
    HandedIsRelayed(start, run, i, j, s, t, valid);
    ReceivedIff(start, run, i, j, s, t, valid);
  }
}
