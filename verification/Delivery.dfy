/** How many copies of a publication reach a subscriber that stays. */
module Delivery {
  import opened Types
  import opened Names
  import opened Instance
  import opened Registry
  import opened Cluster
  import opened Frames
  import opened Safety

  predicate HasJob(t: Task) { t.Announcing? || t.Telling? || t.Fetching? || t.Scanning? || t.Sending? }

  /** The handler is relaying a message it heard. */
  predicate HasNote(t: Task) { t.Hearing? || t.Relaying? }

  // ---------- serial numbers and queues ----------

  ghost predicate JobBelow(t: Task, pid: nat) { HasJob(t) ==> t.job.tag.pid < pid }

  ghost predicate JobsBelow(st: Cluster) {
    && (forall k :: k in st.nodes ==> JobBelow(st.nodes[k].task, st.history.nextPid))
    && (forall pid :: pid in st.history.fired ==> pid < st.history.nextPid)
  }

  predicate NoteFits(n: Note, c: string, fired: set<nat>) { n.tag.chan == c && n.tag.pid in fired }

  /** A message waits only with listeners of its channel, and only after its broadcast. */
  ghost predicate NotesFit(st: Cluster) {
    && (forall k, m :: 0 <= k < |st.listeners| && 0 <= m < |st.listeners[k].queue| ==>
          NoteFits(st.listeners[k].queue[m], st.listeners[k].chan, st.history.fired.Keys))
    && (forall k :: k in st.nodes && HasNote(st.nodes[k].task) ==>
          NoteFits(st.nodes[k].task.note, st.nodes[k].task.chan, st.history.fired.Keys))
  }

  function PidBelow(pid: nat): (SocketId, Msg) -> bool {
    (_: SocketId, m: Msg) => m.Event? ==> m.tag.pid < pid
  }

  ghost predicate Numbered(st: Cluster) {
    && JobsBelow(st)
    && NotesFit(st)
    && forall k :: k in st.nodes ==> AllFrames(st.nodes[k].app.logs, PidBelow(st.history.nextPid))
  }

  /** A job is minted with the next serial number or carried on; only Sending broadcasts it, and then it is over. */
  ghost predicate JobStep(st: Cluster, t: Task, m: Move) {
    && (HasJob(m.task) ==>
          if m.task.Announcing? then !HasJob(t) && m.task.job.tag.pid == st.history.nextPid
          else HasJob(t) && m.task.job == t.job)
    && (m.redis.Publish? ==>
          t.Sending? && t.job.raw.payload.Some? && m.redis == Publish(t.job.tag.chan, NoteOf(t.job)) && !HasJob(m.task))
  }

  lemma PlanSteps(st: Cluster, l: Label)
    requires Enabled(st, l)
    ensures JobStep(st, st.nodes[l.i].task, Plan(st, l))
  {
  }

  /** A note is taken from a queue or carried on, until it is relayed or dropped. */
  ghost predicate NoteStep(st: Cluster, node: Node, m: Move) {
    && (HasNote(node.task) ==>
          if HasNote(m.task) then m.task.note == node.task.note && m.task.chan == node.task.chan && !m.redis.Pop?
          else !m.redis.Pop? && (node.task.Relaying? || node.task.chan !in node.app.channels))
    && (node.task.Relaying? ==> !HasNote(m.task))
    && (node.task.Hearing? && node.task.chan !in node.app.channels ==> !HasNote(m.task))
    && (!HasNote(node.task) && HasNote(m.task) ==> m.redis.Pop?)
    && (m.redis.Pop? ==>
          && m.redis.k < |st.listeners| && st.listeners[m.redis.k].queue != []
          && HasNote(m.task) && m.task.note == st.listeners[m.redis.k].queue[0])
  }

  lemma PlanNotes(st: Cluster, l: Label)
    requires Enabled(st, l)
    ensures NoteStep(st, st.nodes[l.i], Plan(st, l))
    ensures Plan(st, l).redis.Pop? ==>
      var k := Plan(st, l).redis.k;
      st.listeners[k].node == l.i && st.listeners[k].chan == Plan(st, l).task.chan
  {
  }

  /** The tasks and the history after a move. */
  ghost predicate Moved(st: Cluster, i: InstanceId, m: Move, next: Cluster) {
    i in st.nodes && next.nodes.Keys == st.nodes.Keys && next.nodes[i].task == m.task &&
    (forall j :: j in st.nodes && j != i ==> next.nodes[j] == st.nodes[j]) &&
    next.history == Record(st.history, m) && Poppable(st.listeners, m.redis) && next.listeners == Route(st.listeners, m.redis)
  }

  lemma NextMoved(st: Cluster, l: Label)
    requires Enabled(st, l)
    ensures Moved(st, l.i, Plan(st, l), Next(st, l))
  {
  }

  lemma JobsBelowAfter(st: Cluster, i: InstanceId, m: Move, next: Cluster)
    requires JobsBelow(st) && Moved(st, i, m, next) && JobStep(st, st.nodes[i].task, m)
    ensures JobsBelow(next)
  {
  }

  lemma JobsBelowNext(st: Cluster, l: Label)
    requires Enabled(st, l) && JobsBelow(st)
    ensures JobsBelow(Next(st, l))
  {
    NextMoved(st, l);
    PlanSteps(st, l);
    JobsBelowAfter(st, l.i, Plan(st, l), Next(st, l));
  }

  lemma NotesFitAfter(st: Cluster, i: InstanceId, m: Move, next: Cluster)
    requires NotesFit(st) && Moved(st, i, m, next)
    requires JobStep(st, st.nodes[i].task, m) && NoteStep(st, st.nodes[i], m)
    requires m.redis.Pop? ==> m.task.chan == st.listeners[m.redis.k].chan
    ensures NotesFit(next)
  {
  }

  lemma NotesFitNext(st: Cluster, l: Label)
    requires Enabled(st, l) && NotesFit(st)
    ensures NotesFit(Next(st, l))
  {
    NextMoved(st, l);
    PlanSteps(st, l);
    PlanNotes(st, l);
    NotesFitAfter(st, l.i, Plan(st, l), Next(st, l));
  }

  lemma FramesNext(st: Cluster, l: Label)
    requires Enabled(st, l) && Numbered(st)
    ensures AllFrames(Apply(st.nodes[l.i].app, Plan(st, l).op).logs, PidBelow(st.history.nextPid))
  {
    FramesKept(st.nodes[l.i].app, Plan(st, l).op, PidBelow(st.history.nextPid));
  }

  lemma FramesBelow(logs: Logs, m: nat, n: nat)
    requires AllFrames(logs, PidBelow(m)) && m <= n
    ensures AllFrames(logs, PidBelow(n))
  {
  }

  lemma NumberedNext(st: Cluster, l: Label)
    requires Enabled(st, l) && Numbered(st)
    ensures Numbered(Next(st, l))
  {
    JobsBelowNext(st, l);
    NotesFitNext(st, l);
    FramesNext(st, l);
    var next := Next(st, l);
    forall k | k in next.nodes
      ensures AllFrames(next.nodes[k].app.logs, PidBelow(next.history.nextPid))
    {
      FramesBelow(next.nodes[k].app.logs, st.history.nextPid, next.history.nextPid);
    }
  }

  // ---------- one publication ----------

  /** The publisher's handler still works on publication `t`. */
  ghost predicate Working(st: Cluster, i: InstanceId, t: Tag) {
    i in st.nodes && HasJob(st.nodes[i].task) && st.nodes[i].task.job.tag == t
  }

  /** The local subscribers have not been told yet. */
  ghost predicate Untold(st: Cluster, i: InstanceId, t: Tag) {
    Working(st, i, t) && (st.nodes[i].task.Announcing? || st.nodes[i].task.Telling?)
  }

  /** Only `i` publishes under this serial number, once, and `valid` says whether its data is JSON. */
  ghost predicate Tracked(st: Cluster, i: InstanceId, t: Tag, valid: bool) {
    && t.pid < st.history.nextPid
    && (forall k :: k in st.nodes && HasJob(st.nodes[k].task) && st.nodes[k].task.job.tag.pid == t.pid ==>
          k == i && st.nodes[k].task.job.tag == t && st.nodes[k].task.job.raw.payload.Some? == valid)
    && (Working(st, i, t) ==> t.pid !in st.history.fired)
  }

  lemma TrackedNext(st: Cluster, l: Label, i: InstanceId, t: Tag, valid: bool)
    requires Enabled(st, l) && Tracked(st, i, t, valid)
    ensures Tracked(Next(st, l), i, t, valid)
  {
    PlanSteps(st, l);
    TrackedAfter(st, l, Plan(st, l), Next(st, l), i, t, valid);
  }

  lemma TrackedAfter(st: Cluster, l: Label, m: Move, next: Cluster, i: InstanceId, t: Tag, valid: bool)
    requires l.i in st.nodes && JobStep(st, st.nodes[l.i].task, m) && Tracked(st, i, t, valid)
    requires next.nodes.Keys == st.nodes.Keys && next.history == Record(st.history, m)
    requires forall k :: k in st.nodes ==> next.nodes[k].task == if k == l.i then m.task else st.nodes[k].task
    ensures Tracked(next, i, t, valid)
  {
  }

  /** Copies on their way to the subscribers of `j`. */
  ghost function Flight(st: Cluster, j: InstanceId, t: Tag): nat
    requires j in st.nodes
  {
    Queued(st.listeners, j, t.chan, t) + if HasNote(st.nodes[j].task) && st.nodes[j].task.note.tag == t then 1 else 0
  }

  /** Copies the broadcast, if there was one, sent to the listeners of `j`. */
  ghost function Fired(st: Cluster, j: InstanceId, t: Tag): nat {
    if t.pid in st.history.fired then st.history.fired[t.pid][(j, t.chan)] else 0
  }

  ghost function Told(st: Cluster, i: InstanceId, j: InstanceId, t: Tag, valid: bool): nat {
    if i == j && valid && !Untold(st, i, t) then 1 else 0
  }

  /** Received and travelling copies are those told locally and those broadcast. */
  ghost predicate Balanced(st: Cluster, i: InstanceId, j: InstanceId, s: SocketId, t: Tag, valid: bool)
    requires j in st.nodes
  {
    Copies(st.nodes[j].app, s, t) + Flight(st, j, t) == Told(st, i, j, t, valid) + Fired(st, j, t)
  }

  lemma FlightAfter(st: Cluster, l: Label, j: InstanceId, t: Tag)
    requires Enabled(st, l) && j in st.nodes && NotesFit(st)
    ensures Flight(Next(st, l), j, t) + (if Relays(st, l, j, t) || Drops(st, l, j, t) then 1 else 0) == Flight(st, j, t) +
      var m := Plan(st, l).redis;
      if m.Publish? && m.c == t.chan && m.note.tag == t then Listeners(st.listeners, j, t.chan) else 0
  {
    PlanNotes(st, l);
    var m := Plan(st, l);
    if m.redis.Publish? {
      PlanSteps(st, l);
      QueuedAfterPublish(st.listeners, m.redis.note, m.redis.c, j, t.chan, t);
    } else if m.redis.Pop? {
      QueuedAfterPop(st.listeners, m.redis.k, j, t.chan, t);
      assert NoteFits(st.listeners[m.redis.k].queue[0], st.listeners[m.redis.k].chan, st.history.fired.Keys);
    } else {
      QueuedAfter(st.listeners, m.redis, j, t.chan, t);
    }
  }

  /** The step hands a heard copy of `t` to the subscribers of `j`. */
  ghost predicate Relays(st: Cluster, l: Label, j: InstanceId, t: Tag)
    requires l.i in st.nodes
  {
    l.i == j && st.nodes[j].task.Relaying? && st.nodes[j].task.note.tag == t
  }

  /** The step drops a heard copy because the channel is gone. */
  ghost predicate Drops(st: Cluster, l: Label, j: InstanceId, t: Tag)
    requires l.i in st.nodes
  {
    && l.i == j && st.nodes[j].task.Hearing? && st.nodes[j].task.note.tag == t
    && st.nodes[j].task.chan !in st.nodes[j].app.channels
  }

  /** Events are written when a job is told locally or a note is relayed. */
  ghost predicate SendStep(node: Node, m: Move) {
    && (m.op.Send? ==>
          || (node.task.Telling? && m.task == Fetching(node.task.job) && m.redis.Quiet? &&
              m.op == (var job := node.task.job; Send(job.tag.chan, job.raw, job.tag.ignore, job.tag)))
          || (node.task.Relaying? && m.op.e.payload.Some? && m.op.tag == node.task.note.tag &&
              m.op.c == node.task.chan && m.op.ignore == node.task.skip))
    && (node.task.Telling? || node.task.Relaying? ==> m.op.Send?)
    && (node.task.Announcing? ==> m.task == Telling(node.task.job))
    && (m.op.Reply? ==> !m.op.m.Event?)
  }

  lemma PlanSends(st: Cluster, l: Label)
    requires Enabled(st, l)
    ensures SendStep(st.nodes[l.i], Plan(st, l))
  {
  }

  /** A publication is told locally in one step, by its publisher. */
  ghost predicate Tells(st: Cluster, l: Label, t: Tag)
    requires l.i in st.nodes
  {
    st.nodes[l.i].task.Telling? && st.nodes[l.i].task.job.tag == t
  }

  lemma CopiesNext(st: Cluster, l: Label, i: InstanceId, j: InstanceId, s: SocketId, t: Tag, valid: bool)
    requires Enabled(st, l) && Safe(st) && Numbered(st) && Tracked(st, i, t, valid)
    requires SubscribedAt(st, j, t.chan, s) && s != t.ignore
    ensures Copies(Next(st, l).nodes[j].app, s, t) == Copies(st.nodes[j].app, s, t) +
      if l.i == j && ((Tells(st, l, t) && valid) || Relays(st, l, j, t)) then 1 else 0
  {
    assert NodeSound(st, j);
    assert OwnedSocket(st.history, st.store, j, st.nodes[j].task, s);
    if l.i == j {
      PlanSends(st, l);
      CopiesAfter(st.nodes[j].app, Plan(st, l).op, s, t);
    }
  }

  lemma ToldNext(st: Cluster, l: Label, i: InstanceId, j: InstanceId, t: Tag, valid: bool)
    requires Enabled(st, l) && j in st.nodes && Tracked(st, i, t, valid)
    ensures Told(Next(st, l), i, j, t, valid) == Told(st, i, j, t, valid) +
      if l.i == j && Tells(st, l, t) && valid then 1 else 0
  {
    PlanSteps(st, l);
    PlanSends(st, l);
  }

  lemma FiredNext(st: Cluster, l: Label, i: InstanceId, j: InstanceId, t: Tag, valid: bool)
    requires Enabled(st, l) && j in st.nodes && Safe(st) && Tracked(st, i, t, valid)
    ensures Fired(Next(st, l), j, t) == Fired(st, j, t) +
      var m := Plan(st, l).redis;
      if m.Publish? && m.c == t.chan && m.note.tag == t then Listeners(st.listeners, j, t.chan) else 0
  {
    PlanSteps(st, l);
  }

  lemma BalancedNext(st: Cluster, l: Label, i: InstanceId, j: InstanceId, s: SocketId, t: Tag, valid: bool)
    requires Enabled(st, l) && Safe(st) && Numbered(st) && Tracked(st, i, t, valid)
    requires SubscribedAt(st, j, t.chan, s) && s != t.ignore && Balanced(st, i, j, s, t, valid)
    ensures Balanced(Next(st, l), i, j, s, t, valid)
  {
    CopiesNext(st, l, i, j, s, t, valid);
    FlightAfter(st, l, j, t);
    ToldNext(st, l, i, j, t, valid);
    FiredNext(st, l, i, j, t, valid);
    assert !Drops(st, l, j, t) by {
      assert HasNote(st.nodes[j].task) ==> NoteFits(st.nodes[j].task.note, st.nodes[j].task.chan, st.history.fired.Keys);
    }
  }

  // ---------- over whole runs ----------

  /** The step takes up a publication: a client event, or the next channel of a POST. */
  ghost predicate Begins(st: Cluster, l: Label, t: Tag, valid: bool) {
    && Enabled(st, l)
    && var next := Plan(st, l).task;
       next.Announcing? && next.job.tag == t && next.job.raw.payload.Some? == valid
  }

  lemma {:induction false} NothingQueued(ls: seq<Listener>, i: InstanceId, c: string, t: Tag)
    requires forall k, m :: 0 <= k < |ls| && 0 <= m < |ls[k].queue| ==> ls[k].queue[m].tag != t
    ensures Queued(ls, i, c, t) == 0
  {
    if ls != [] {
      var last := |ls| - 1;
      NothingQueued(ls[..last], i, c, t);
      NoNotes(ls[last].queue, t);
    }
  }

  lemma {:induction false} NoNotes(q: seq<Note>, t: Tag)
    requires forall m :: 0 <= m < |q| ==> q[m].tag != t
    ensures CountNotes(q, t) == 0
  {
    if q != [] {
      NoNotes(q[1..], t);
    }
  }

  lemma NothingYet(st: Cluster, l: Label, j: InstanceId, s: SocketId, t: Tag, valid: bool)
    requires Numbered(st) && Begins(st, l, t, valid) && j in st.nodes
    ensures Copies(st.nodes[j].app, s, t) == 0 && Flight(st, j, t) == 0 && t.pid !in st.history.fired
  {
    PlanSteps(st, l);
    forall k, m | 0 <= k < |st.listeners| && 0 <= m < |st.listeners[k].queue|
      ensures st.listeners[k].queue[m].tag != t
    {
      assert NoteFits(st.listeners[k].queue[m], st.listeners[k].chan, st.history.fired.Keys);
    }
    NothingQueued(st.listeners, j, t.chan, t);
    assert HasNote(st.nodes[j].task) ==> NoteFits(st.nodes[j].task.note, st.nodes[j].task.chan, st.history.fired.Keys);
    var log := LogOf(st.nodes[j].app.logs, s);
    forall k | 0 <= k < |log|
      ensures !IsCopy(log[k], t)
    {
      assert PidBelow(st.history.nextPid)(s, log[k]);
    }
    NoCopies(log, t);
  }

  lemma BeginsBalanced(st: Cluster, l: Label, j: InstanceId, s: SocketId, t: Tag, valid: bool)
    requires Numbered(st) && Begins(st, l, t, valid) && j in st.nodes
    ensures Tracked(Next(st, l), l.i, t, valid) && Balanced(Next(st, l), l.i, j, s, t, valid)
  {
    NothingYet(st, l, j, s, t, valid);
    PlanSteps(st, l);
    PlanNotes(st, l);
    PlanSends(st, l);
    FlightAfter(st, l, j, t);
    CopiesAfter(st.nodes[l.i].app, Plan(st, l).op, s, t);
    assert Plan(st, l).op.Send? ==> false;
  }

  /** Subscribed in every state of the run. */
  ghost predicate Stays(st: Cluster, run: seq<Label>, j: InstanceId, c: string, s: SocketId)
    requires IsRun(st, run)
    decreases |run|
  {
    SubscribedAt(st, j, c, s) && (run != [] ==> Stays(Next(st, run[0]), run[1..], j, c, s))
  }

  lemma {:induction false} BalancedAlways(
    st: Cluster, run: seq<Label>, i: InstanceId, j: InstanceId, s: SocketId, t: Tag, valid: bool)
    requires Safe(st) && Numbered(st) && Tracked(st, i, t, valid) && IsRun(st, run)
    requires Stays(st, run, j, t.chan, s) && s != t.ignore && Balanced(st, i, j, s, t, valid)
    ensures j in After(st, run).nodes && Balanced(After(st, run), i, j, s, t, valid)
    decreases |run|
  {
    if run != [] {
      var l := run[0];
      BalancedNext(st, l, i, j, s, t, valid);
      SafeNext(st, l);
      NumberedNext(st, l);
      TrackedNext(st, l, i, t, valid);
      BalancedAlways(Next(st, l), run[1..], i, j, s, t, valid);
    }
  }

  lemma {:induction false} NumberedAlways(st: Cluster, run: seq<Label>)
    requires Numbered(st) && IsRun(st, run)
    ensures Numbered(After(st, run))
    decreases |run|
  {
    if run != [] {
      NumberedNext(st, run[0]);
      NumberedAlways(Next(st, run[0]), run[1..]);
    }
  }

  /** The publisher is done with `t` and no copy is on its way to `j`. */
  ghost predicate Drained(st: Cluster, i: InstanceId, j: InstanceId, t: Tag) {
    !Working(st, i, t) && j in st.nodes && Flight(st, j, t) == 0
  }

  lemma ReachableIsNumbered(st: Cluster)
    requires Reachable(st)
    ensures Numbered(st)
  {
    var start, run :| Initial(start) && IsRun(start, run) && After(start, run) == st;
    NumberedAlways(start, run);
  }

  lemma SafeAfterBegins(st: Cluster, l: Label, t: Tag, valid: bool)
    requires Reachable(st) && Begins(st, l, t, valid)
    ensures Safe(Next(st, l)) && Numbered(Next(st, l)) && Numbered(st)
  {
    ReachableIsSafe(st);
    ReachableIsNumbered(st);
    SafeNext(st, l);
    NumberedNext(st, l);
  }

  /**
   The exact number of copies: one if the subscriber is on the publishing instance, and
   one for each listener its instance had for the channel when the event was broadcast.
   */
  lemma ExactCopies(st: Cluster, l: Label, run: seq<Label>, end: Cluster, j: InstanceId, s: SocketId, t: Tag, valid: bool)
    requires Reachable(st) && Begins(st, l, t, valid)
    requires IsRun(Next(st, l), run) && end == After(Next(st, l), run)
    requires Stays(Next(st, l), run, j, t.chan, s) && s != t.ignore
    requires Drained(end, l.i, j, t)
    ensures Copies(end.nodes[j].app, s, t) == (if l.i == j && valid then 1 else 0) + Fired(end, j, t)
  {
    SafeAfterBegins(st, l, t, valid);
    BeginsBalanced(st, l, j, s, t, valid);
    BalancedAlways(Next(st, l), run, l.i, j, s, t, valid);
  }

  /** The listeners a broadcast reaches on an instance are as many as the channel's creations there. */
  lemma BroadcastReaches(st: Cluster, l: Label, j: InstanceId, t: Tag)
    requires Safe(st) && Enabled(st, l) && j in st.nodes && Working(st, l.i, t) && Plan(st, l).redis.Publish?
    ensures Fired(Next(st, l), j, t) == st.history.created[(j, t.chan)] == Listeners(st.listeners, j, t.chan)
    ensures t.chan in st.nodes[j].app.channels ==> Fired(Next(st, l), j, t) >= 1
  {
    PlanSteps(st, l);
  }

  // ---------- at least once ----------

  /** The broadcast happened, or the publisher will still find `s` among the members. */
  ghost predicate OnTheWay(st: Cluster, i: InstanceId, j: InstanceId, s: SocketId, t: Tag) {
    if t.pid in st.history.fired then Fired(st, j, t) >= 1
    else
      && s in Members(st.store, t.chan)
      && Working(st, i, t)
      && (st.nodes[i].task.Scanning? ==> s in st.nodes[i].task.unread)
  }

  /** Only the handler that removed the socket locally takes it out of the set. */
  lemma PlanRemoves(st: Cluster, l: Label)
    requires Enabled(st, l) && NodeSound(st, l.i)
    ensures var m := Plan(st, l).redis;
      m.SRem? ==>
        && m.s in st.history.used && st.history.used[m.s] == l.i
        && !Subscribed(st.nodes[l.i].app, m.c, m.s)
  {
    var t := st.nodes[l.i].task;
    assert t.Leaving? ==> OwnedSocket(st.history, st.store, l.i, t, t.s);
  }

  /** Nobody takes a subscribed socket out of the registry's set. */
  lemma StaysMember(st: Cluster, l: Label, j: InstanceId, c: string, s: SocketId)
    requires Safe(st) && Enabled(st, l) && SubscribedAt(st, j, c, s) && s in Members(st.store, c)
    ensures s in Members(Next(st, l).store, c)
  {
    assert NodeSound(st, l.i);
    PlanRemoves(st, l);
    SubscribedIsRegistered(st, j, c, s);
    MembersAfter(st.store, Plan(st, l).redis, c);
  }

  /** Steps of a working publisher: the job goes on, unless it was broadcast or the scan saw nobody else. */
  ghost predicate ScanStep(st: Cluster, i: InstanceId, t: Task, m: Move) {
    && (t.Announcing? || t.Telling? ==> HasJob(m.task) && !m.task.Scanning?)
    && (t.Fetching? ==> m.task.Scanning? && forall s :: s in Members(st.store, t.job.tag.chan) ==> s in m.task.unread)
    && (t.Scanning? && t.unread != [] && t.job.raw.payload.Some? ==>
          if t.unread[0] in st.store.conns && st.store.conns[t.unread[0]] != i then m.task == Sending(t.job)
          else m.task == Scanning(t.job, t.unread[1..]))
    && (t.Sending? && t.job.raw.payload.Some? ==> m.redis == Publish(t.job.tag.chan, NoteOf(t.job)))
  }

  lemma PlanScans(st: Cluster, l: Label)
    requires Enabled(st, l)
    ensures ScanStep(st, l.i, st.nodes[l.i].task, Plan(st, l))
  {
  }

  /** The scan cannot pass over a subscriber of another instance. */
  lemma ScanStops(st: Cluster, l: Label, j: InstanceId, s: SocketId, t: Tag)
    requires Safe(st) && Enabled(st, l) && Tracked(st, l.i, t, true) && l.i != j
    requires SubscribedAt(st, j, t.chan, s) && OnTheWay(st, l.i, j, s, t) && t.pid !in st.history.fired
    ensures t.pid in Next(st, l).history.fired ||
      (Working(Next(st, l), l.i, t) && (Plan(st, l).task.Scanning? ==> s in Plan(st, l).task.unread))
  {
    SubscribedIsRegistered(st, j, t.chan, s);
    PlanScans(st, l);
    PlanSteps(st, l);
  }

  lemma OnTheWayNext(st: Cluster, l: Label, i: InstanceId, j: InstanceId, s: SocketId, t: Tag)
    requires Safe(st) && Enabled(st, l) && Tracked(st, i, t, true) && i != j
    requires SubscribedAt(st, j, t.chan, s) && OnTheWay(st, i, j, s, t)
    ensures OnTheWay(Next(st, l), i, j, s, t)
  {
    FiredNext(st, l, i, j, t, true);
    if t.pid !in st.history.fired {
      StaysMember(st, l, j, t.chan, s);
      PlanSteps(st, l);
      if l.i == i {
        ScanStops(st, l, j, s, t);
        if Plan(st, l).redis.Publish? {
          BroadcastReaches(st, l, j, t);
        }
      }
    }
  }

  lemma {:induction false} OnTheWayAlways(
    st: Cluster, run: seq<Label>, i: InstanceId, j: InstanceId, s: SocketId, t: Tag)
    requires Safe(st) && Tracked(st, i, t, true) && i != j && IsRun(st, run)
    requires Stays(st, run, j, t.chan, s) && OnTheWay(st, i, j, s, t)
    ensures OnTheWay(After(st, run), i, j, s, t)
    decreases |run|
  {
    if run != [] {
      OnTheWayNext(st, run[0], i, j, s, t);
      SafeNext(st, run[0]);
      TrackedNext(st, run[0], i, t, true);
      OnTheWayAlways(Next(st, run[0]), run[1..], i, j, s, t);
    }
  }

  /**
   At least once: a socket that has finished subscribing (it is in the registry's set) when
   any instance publishes, and that stays subscribed, holds the event once everything has drained.
   */
  lemma AtLeastOnce(st: Cluster, l: Label, run: seq<Label>, end: Cluster, j: InstanceId, s: SocketId, t: Tag)
    requires Reachable(st) && Begins(st, l, t, true)
    requires IsRun(Next(st, l), run) && end == After(Next(st, l), run)
    requires Stays(Next(st, l), run, j, t.chan, s) && s != t.ignore
    requires s in Members(Next(st, l).store, t.chan)
    requires Drained(end, l.i, j, t)
    ensures Copies(end.nodes[j].app, s, t) >= 1
  {
    ExactCopies(st, l, run, end, j, s, t, true);
    if l.i != j {
      SafeAfterBegins(st, l, t, true);
      NothingYet(st, l, j, s, t, true);
      BeginsBalanced(st, l, j, s, t, true);
      PlanSteps(st, l);
      OnTheWayAlways(Next(st, l), run, l.i, j, s, t);
    }
  }

  // ---------- and nobody else ----------

  /** Subscribed in no state of the run. */
  ghost predicate StaysAway(st: Cluster, run: seq<Label>, j: InstanceId, c: string, s: SocketId)
    requires IsRun(st, run)
    decreases |run|
  {
    !SubscribedAt(st, j, c, s) && (run != [] ==> StaysAway(Next(st, run[0]), run[1..], j, c, s))
  }

  lemma OutsiderNext(st: Cluster, l: Label, j: InstanceId, s: SocketId, t: Tag)
    requires Enabled(st, l) && NotesFit(st) && j in st.nodes && !SubscribedAt(st, j, t.chan, s)
    ensures Copies(Next(st, l).nodes[j].app, s, t) == Copies(st.nodes[j].app, s, t)
  {
    if l.i == j {
      PlanSends(st, l);
      CopiesAfter(st.nodes[j].app, Plan(st, l).op, s, t);
      assert HasNote(st.nodes[j].task) ==> NoteFits(st.nodes[j].task.note, st.nodes[j].task.chan, st.history.fired.Keys);
    }
  }

  /** A socket never subscribed to the channel during a run gains no copy. */
  lemma {:induction false} OutsidersGetNothing(st: Cluster, run: seq<Label>, j: InstanceId, s: SocketId, t: Tag)
    requires Numbered(st) && IsRun(st, run) && j in st.nodes
    requires StaysAway(st, run, j, t.chan, s)
    ensures j in After(st, run).nodes
    ensures Copies(After(st, run).nodes[j].app, s, t) == Copies(st.nodes[j].app, s, t)
    decreases |run|
  {
    if run != [] {
      OutsiderNext(st, run[0], j, s, t);
      NumberedNext(st, run[0]);
      OutsidersGetNothing(Next(st, run[0]), run[1..], j, s, t);
    }
  }
}
