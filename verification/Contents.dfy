/** What the copies of a publication contain: on every instance, the event as it was published. */
module Contents {
  import opened Types
  import opened Instance
  import opened Registry
  import opened Cluster
  import opened Frames
  import opened Safety
  import opened Delivery
  import opened Output
  import opened Provenance

  // ---------- everything that bears a serial number bears one event ----------

  predicate JobAgrees(task: Task, t: Tag, e: Raw) {
    HasJob(task) && task.job.tag.pid == t.pid ==> task.job.tag == t && task.job.raw == e
  }

  predicate NoteAgrees(n: Note, t: Tag, e: Raw) {
    n.tag.pid == t.pid ==> n.tag == t && e == Raw(n.name, n.chan, Some(n.payload))
  }

  predicate TaskAgrees(task: Task, t: Tag, e: Raw) {
    JobAgrees(task, t, e) && (HasNote(task) ==> NoteAgrees(task.note, t, e))
  }

  function FrameAgrees(t: Tag, e: Raw): (SocketId, Msg) -> bool {
    (_: SocketId, m: Msg) => m.Event? && m.tag.pid == t.pid ==> m.tag == t && e == Raw(m.name, m.chan, Some(m.payload))
  }

  ghost predicate QueuesAgree(ls: seq<Listener>, t: Tag, e: Raw) {
    forall k, m :: 0 <= k < |ls| && 0 <= m < |ls[k].queue| ==> NoteAgrees(ls[k].queue[m], t, e)
  }

  ghost predicate Agreed(st: Cluster, t: Tag, e: Raw) {
    && t.pid < st.history.nextPid && QueuesAgree(st.listeners, t, e)
    && (forall k :: k in st.nodes ==> TaskAgrees(st.nodes[k].task, t, e))
    && (forall k :: k in st.nodes ==> AllFrames(st.nodes[k].app.logs, FrameAgrees(t, e)))
  }

  ghost predicate MoveAgrees(m: Move, t: Tag, e: Raw) {
    && TaskAgrees(m.task, t, e)
    && (m.redis.Publish? ==> NoteAgrees(m.redis.note, t, e))
    && (m.op.Send? && m.op.tag.pid == t.pid ==> m.op.tag == t && (m.op.e.payload.Some? ==> m.op.e == e))
    && (m.op.Reply? ==> !m.op.m.Event?)
  }

  lemma ChoiceAgrees(st: Cluster, l: Label, t: Tag, e: Raw)
    requires Enabled(st, l) && !l.act.Go? && t.pid < st.history.nextPid
    requires TaskAgrees(st.nodes[l.i].task, t, e) && QueuesAgree(st.listeners, t, e)
    ensures MoveAgrees(Plan(st, l), t, e)
  {
  }

  lemma ProceedAgrees(st: Cluster, l: Label, t: Tag, e: Raw)
    requires Enabled(st, l) && l.act.Go? && t.pid < st.history.nextPid
    requires TaskAgrees(st.nodes[l.i].task, t, e)
    ensures MoveAgrees(Plan(st, l), t, e)
  {
  }

  lemma PlanAgrees(st: Cluster, l: Label, t: Tag, e: Raw)
    requires Enabled(st, l) && t.pid < st.history.nextPid
    requires TaskAgrees(st.nodes[l.i].task, t, e) && QueuesAgree(st.listeners, t, e)
    ensures MoveAgrees(Plan(st, l), t, e)
  {
    if l.act.Go? {
      ProceedAgrees(st, l, t, e);
    } else {
      ChoiceAgrees(st, l, t, e);
    }
  }

  lemma FramesAgree(a: App, m: Move, t: Tag, e: Raw)
    requires AllFrames(a.logs, FrameAgrees(t, e)) && MoveAgrees(m, t, e)
    ensures AllFrames(Apply(a, m.op).logs, FrameAgrees(t, e))
  {
    WrittenKeeps(a, m.op, FrameAgrees(t, e));
  }

  lemma QueuesAgreeAfter(ls: seq<Listener>, op: RedisOp, t: Tag, e: Raw)
    requires QueuesAgree(ls, t, e) && Poppable(ls, op) && (op.Publish? ==> NoteAgrees(op.note, t, e))
    ensures QueuesAgree(Route(ls, op), t, e)
  {
  }

  lemma AgreedNext(st: Cluster, l: Label, t: Tag, e: Raw)
    requires Enabled(st, l) && Agreed(st, t, e)
    ensures Agreed(Next(st, l), t, e)
  {
    PlanAgrees(st, l, t, e);
    FramesAgree(st.nodes[l.i].app, Plan(st, l), t, e);
    QueuesAgreeAfter(st.listeners, Plan(st, l).redis, t, e);
  }

  lemma {:induction false} AgreedAlways(st: Cluster, run: seq<Label>, t: Tag, e: Raw)
    requires Agreed(st, t, e) && IsRun(st, run)
    ensures Agreed(After(st, run), t, e)
    decreases |run|
  {
    if run != [] {
      AgreedNext(st, run[0], t, e);
      AgreedAlways(Next(st, run[0]), run[1..], t, e);
    }
  }

  // ---------- a new serial number ----------

  /** A serial number beyond the last one is on nothing at all. */
  lemma Unused(st: Cluster, t: Tag, e: Raw)
    requires Numbered(st) && t.pid >= st.history.nextPid
    ensures QueuesAgree(st.listeners, t, e)
    ensures forall k :: k in st.nodes ==> TaskAgrees(st.nodes[k].task, t, e) && AllFrames(st.nodes[k].app.logs, FrameAgrees(t, e))
  {
    forall k, m | 0 <= k < |st.listeners| && 0 <= m < |st.listeners[k].queue|
      ensures NoteAgrees(st.listeners[k].queue[m], t, e)
    {
      assert NoteFits(st.listeners[k].queue[m], st.listeners[k].chan, st.history.fired.Keys);
    }
    forall k | k in st.nodes
      ensures TaskAgrees(st.nodes[k].task, t, e) && AllFrames(st.nodes[k].app.logs, FrameAgrees(t, e))
    {
      assert JobBelow(st.nodes[k].task, st.history.nextPid);
      assert HasNote(st.nodes[k].task) ==> NoteFits(st.nodes[k].task.note, st.nodes[k].task.chan, st.history.fired.Keys);
      assert forall s, m :: PidBelow(st.history.nextPid)(s, m) ==> FrameAgrees(t, e)(s, m);
    }
  }

  /** The step that takes up a publication decides what its number stands for. */
  lemma MintedAgrees(st: Cluster, l: Label)
    requires Enabled(st, l) && Numbered(st) && Plan(st, l).task.Announcing?
    ensures var job := Plan(st, l).task.job; Agreed(Next(st, l), job.tag, job.raw)
  {
    var m := Plan(st, l);
    PlanSteps(st, l);
    Unused(st, m.task.job.tag, m.task.job.raw);
    MintsOnly(st, l);
    FramesAgree(st.nodes[l.i].app, m, m.task.job.tag, m.task.job.raw);
    QueuesAgreeAfter(st.listeners, m.redis, m.task.job.tag, m.task.job.raw);
  }

  lemma MintsOnly(st: Cluster, l: Label)
    requires Enabled(st, l) && Plan(st, l).task.Announcing?
    ensures var m := Plan(st, l); !m.redis.Publish? && !m.op.Send? && !m.op.Reply?
  {
  }

  /** Every serial number in use stands for one event. */
  lemma {:induction false} OneEvent(st: Cluster, run: seq<Label>, pid: nat, t0: Tag, e0: Raw) returns (t: Tag, e: Raw)
    requires Numbered(st) && IsRun(st, run) && t0.pid == pid && (pid < st.history.nextPid ==> Agreed(st, t0, e0))
    ensures t.pid == pid && (pid < After(st, run).history.nextPid ==> Agreed(After(st, run), t, e))
    decreases |run|
  {
    t, e := t0, e0;
    if run != [] {
      var l := run[0];
      NumberedNext(st, l);
      if pid < st.history.nextPid {
        AgreedNext(st, l, t, e);
      } else if pid < Next(st, l).history.nextPid {
        PlanSteps(st, l);
        MintedAgrees(st, l);
        t, e := Plan(st, l).task.job.tag, Plan(st, l).task.job.raw;
      }
      t, e := OneEvent(Next(st, l), run[1..], pid, t, e);
    }
  }

  lemma JobDecides(st: Cluster, i: InstanceId)
    requires Reachable(st) && i in st.nodes && HasJob(st.nodes[i].task)
    ensures Agreed(st, st.nodes[i].task.job.tag, st.nodes[i].task.job.raw)
  {
    var first, run :| Initial(first) && IsRun(first, run) && After(first, run) == st;
    ReachableIsNumbered(st);
    var job := st.nodes[i].task.job;
    assert JobBelow(st.nodes[i].task, st.history.nextPid);
    var t, e := OneEvent(first, run, job.tag.pid, job.tag, job.raw);
    assert TaskAgrees(st.nodes[i].task, t, e);
  }

  // ---------- the theorems ----------

  /** An event, as a frame. */
  function FrameOf(e: Raw, t: Tag): Msg
    requires e.payload.Some?
  {
    Event(e.name, e.chan, e.payload.value, t)
  }

  /**
   A handler at work on a publication, and any later state: every frame with its tag, in every log of
   every instance, is the event as the command of the client or of the API asked for it.
   */
  lemma EveryCopyIsTheEvent(
    first: Cluster, past: seq<Label>, i: InstanceId, run: seq<Label>, end: Cluster, j: InstanceId, s: SocketId, k: nat)
    requires Initial(first) && IsRun(first, past) && i in After(first, past).nodes && HasJob(After(first, past).nodes[i].task)
    requires IsRun(After(first, past), run) && end == After(After(first, past), run)
    requires j in end.nodes && k < |LogOf(end.nodes[j].app.logs, s)|
    requires IsCopy(LogOf(end.nodes[j].app.logs, s)[k], After(first, past).nodes[i].task.job.tag)
    ensures var job := After(first, past).nodes[i].task.job;
      && job.raw.payload.Some? && LogOf(end.nodes[j].app.logs, s)[k] == FrameOf(job.raw, job.tag)
      && Asked(Labels(past), job.tag, job.raw)
  {
    var st := After(first, past);
    var job := st.nodes[i].task.job;
    JobDecides(st, i);
    AgreedAlways(st, run, job.tag, job.raw);
    assert FrameAgrees(job.tag, job.raw)(s, LogOf(end.nodes[j].app.logs, s)[k]);
    JobIsAsked(first, past, i);
  }

  lemma JobIsAsked(first: Cluster, past: seq<Label>, i: InstanceId)
    requires Initial(first) && IsRun(first, past) && i in After(first, past).nodes && HasJob(After(first, past).nodes[i].task)
    ensures var job := After(first, past).nodes[i].task.job; Asked(Labels(past), job.tag, job.raw)
  {
    RunIsSourced(first, past);
    JobInSourced(Labels(past), After(first, past), i);
  }

  lemma JobInSourced(past: set<Label>, st: Cluster, i: InstanceId)
    requires Sourced(past, st) && i in st.nodes && HasJob(st.nodes[i].task)
    ensures Asked(past, st.nodes[i].task.job.tag, st.nodes[i].task.job.raw)
  {
    assert NodeFrom(past, i, st.nodes[i]);
  }

  /** The same of every message that waits in Redis for a listener. */
  lemma EveryMessageIsTheEvent(
    first: Cluster, past: seq<Label>, i: InstanceId, run: seq<Label>, end: Cluster, k: nat, m: nat)
    requires Initial(first) && IsRun(first, past) && i in After(first, past).nodes && HasJob(After(first, past).nodes[i].task)
    requires IsRun(After(first, past), run) && end == After(After(first, past), run)
    requires k < |end.listeners| && m < |end.listeners[k].queue|
    requires end.listeners[k].queue[m].tag == After(first, past).nodes[i].task.job.tag
    ensures var job := After(first, past).nodes[i].task.job;
      && job.raw.payload.Some?
      && end.listeners[k].queue[m] == Note(job.raw.name, job.raw.chan, job.raw.payload.value, job.tag)
      && Asked(Labels(past), job.tag, job.raw)
  {
    var st := After(first, past);
    var job := st.nodes[i].task.job;
    JobDecides(st, i);
    AgreedAlways(st, run, job.tag, job.raw);
    assert NoteAgrees(end.listeners[k].queue[m], job.tag, job.raw);
    JobIsAsked(first, past, i);
  }

  lemma {:induction false} SomeCopy(log: seq<Msg>, t: Tag) returns (k: nat)
    requires CountCopies(log, t) >= 1
    ensures k < |log| && IsCopy(log[k], t)
  {
    k := |log| - 1;
    if !IsCopy(log[k], t) {
      k := SomeCopy(log[..|log| - 1], t);
    }
  }

  /** At least once, and with what was published: a registered subscriber that stays holds the event. */
  lemma StayersGetTheEvent(st: Cluster, l: Label, run: seq<Label>, end: Cluster, j: InstanceId, s: SocketId, t: Tag)
    requires Reachable(st) && Begins(st, l, t, true)
    requires IsRun(Next(st, l), run) && end == After(Next(st, l), run)
    requires Stays(Next(st, l), run, j, t.chan, s) && s != t.ignore
    requires s in Members(Next(st, l).store, t.chan) && Drained(end, l.i, j, t)
    ensures var job := Next(st, l).nodes[l.i].task.job;
      job.raw.payload.Some? && FrameOf(job.raw, t) in LogOf(end.nodes[j].app.logs, s)
  {
    AtLeastOnce(st, l, run, end, j, s, t);
    ReachableIsNumbered(st);
    MintedAgrees(st, l);
    var job := Next(st, l).nodes[l.i].task.job;
    AgreedAlways(Next(st, l), run, t, job.raw);
    var k := SomeCopy(LogOf(end.nodes[j].app.logs, s), t);
    assert FrameAgrees(t, job.raw)(s, LogOf(end.nodes[j].app.logs, s)[k]);
  }
}
