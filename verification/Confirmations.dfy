/** Channel frames go to subscribers only, and every accepted subscribe is confirmed once, with data that agrees with itself. */
module Confirmations {
  import opened Types
  import opened Names
  import opened Rosters
  import opened Instance
  import opened Registry
  import opened Cluster
  import opened Frames
  import opened Safety
  import opened Output
  import opened Stored
  import Presence
  import OrderlyRuns
  import Delivery

  // ---------- who is written to ----------

  /** The channel a frame is about. */
  function AboutOf(m: Msg): Option<string> {
    match m
    case Succeeded(c, _, _, _) => Some(c)
    case MemberAdded(c, _) => Some(c)
    case MemberRemoved(c, _) => Some(c)
    case Event(_, _, _, tag) => Some(tag.chan)
    case _ => None
  }

  /** Events go out under the channel's own name, and answers are about no channel. */
  ghost predicate AddressStep(m: Move) {
    (m.op.Send? ==> m.op.tag.chan == m.op.c) && (m.op.Reply? ==> AboutOf(m.op.m).None?)
  }

  lemma PlanAddresses(st: Cluster, l: Label)
    requires Enabled(st, l) && Delivery.NotesFit(st)
    ensures AddressStep(Plan(st, l))
  {
    var t := st.nodes[l.i].task;
    assert t.Relaying? ==> Delivery.NoteFits(t.note, t.chan, st.history.fired.Keys);
  }

  lemma JoinToSubscribers(a: App, c: string, u: SocketId, d: ChannelData, s: SocketId)
    requires Written(a, Enter(c, u, d), s) != []
    ensures AboutOf(Written(a, Enter(c, u, d), s)[0]) == Some(c) && Subscribed(Apply(a, Enter(c, u, d)), c, s)
  {
  }

  lemma LeaveToSubscribers(a: App, c: string, u: SocketId, s: SocketId)
    requires Written(a, Exit(c, u), s) != []
    ensures AboutOf(Written(a, Exit(c, u), s)[0]) == Some(c) && Subscribed(Apply(a, Exit(c, u)), c, s)
  {
  }

  lemma WrittenToSubscribers(a: App, m: Move, s: SocketId, k: nat)
    requires AddressStep(m) && k < |Written(a, m.op, s)|
    ensures var c := AboutOf(Written(a, m.op, s)[k]); c.Some? ==> Subscribed(Apply(a, m.op), c.value, s)
  {
    match m.op
    case Enter(c, u, d) => JoinToSubscribers(a, c, u, d, s);
    case Exit(c, u) => LeaveToSubscribers(a, c, u, s);
    case _ =>
  }

  /** At every step: a frame about a channel goes to a socket that is then subscribed to it. */
  lemma OnlySubscribersAreWrittenTo(st: Cluster, l: Label, s: SocketId, k: nat)
    requires Reachable(st) && Enabled(st, l)
    requires var before, after := LogOf(st.nodes[l.i].app.logs, s), LogOf(Next(st, l).nodes[l.i].app.logs, s);
      |before| <= k < |after|
    ensures var c := AboutOf(LogOf(Next(st, l).nodes[l.i].app.logs, s)[k]);
      c.Some? ==> SubscribedAt(Next(st, l), l.i, c.value, s)
  {
    Delivery.ReachableIsNumbered(st);
    PlanAddresses(st, l);
    NewToSubscribers(st.nodes[l.i].app, Plan(st, l), s, k);
  }

  lemma NewToSubscribers(a: App, m: Move, s: SocketId, k: nat)
    requires AddressStep(m) && |LogOf(a.logs, s)| <= k < |LogOf(Apply(a, m.op).logs, s)|
    ensures var c := AboutOf(LogOf(Apply(a, m.op).logs, s)[k]); c.Some? ==> Subscribed(Apply(a, m.op), c.value, s)
  {
    WritesExactly(a, m.op, s);
    WrittenToSubscribers(a, m, s, k - |LogOf(a.logs, s)|);
  }

  // ---------- how often ----------

  predicate Confirms(m: Msg, c: string) { m.Succeeded? && m.chan == c }

  /** The confirmations for a channel in a log. */
  function Confirmed(log: seq<Msg>, c: string): nat {
    if log == [] then 0 else Confirmed(log[..|log| - 1], c) + if Confirms(log[|log| - 1], c) then 1 else 0
  }

  /** The subscribe commands of a socket that the channel accepts. */
  function Accepted(run: seq<Label>, i: InstanceId, c: string, s: SocketId): nat {
    if run == [] then 0 else (if Accepts(run[0], i, c, s) then 1 else 0) + Accepted(run[1..], i, c, s)
  }

  predicate Accepts(l: Label, i: InstanceId, c: string, s: SocketId) {
    l.i == i && l.act.Start? && l.act.cmd.Subscribe? && l.act.cmd.c == c && l.act.cmd.s == s && !Refused(c, l.act.cmd.d)
  }

  /** An accepted subscription is being filed. */
  predicate Pending(t: Task, c: string, s: SocketId) { Filing(t, c, s) && !Refused(c, t.d) }

  ghost function Due(node: Node, c: string, s: SocketId): nat {
    Confirmed(LogOf(node.app.logs, s), c) + if Pending(node.task, c, s) then 1 else 0
  }

  lemma ConfirmedMore(log: seq<Msg>, more: seq<Msg>, c: string)
    requires |more| <= 1
    ensures Confirmed(log + more, c) == Confirmed(log, c) + if more != [] && Confirms(more[0], c) then 1 else 0
  {
    if more == [] {
      assert log + more == log;
    } else {
      assert (log + more)[..|log|] == log;
    }
  }

  lemma WrittenConfirms(a: App, op: Op, c: string, s: SocketId)
    requires op.Reply? ==> !op.m.Succeeded?
    ensures var w := Written(a, op, s);
      && |w| <= 1
      && (w != [] && Confirms(w[0], c) <==> op.Enter? && op.c == c && op.s == s && c in a.channels && !Refused(c, op.d))
  {
  }

  lemma DueNext(st: Cluster, l: Label, i: InstanceId, c: string, s: SocketId)
    requires Enabled(st, l) && Safe(st) && i in st.nodes
    ensures Due(Next(st, l).nodes[i], c, s) == Due(st.nodes[i], c, s) + if Accepts(l, i, c, s) then 1 else 0
  {
    if i == l.i {
      var node, m := st.nodes[i], Plan(st, l);
      assert NodeSound(st, i);
      PlanFiles(st, l);
      OrderlyRuns.PlanJoins(st, l);
      WritesExactly(node.app, m.op, s);
      WrittenConfirms(node.app, m.op, c, s);
      ConfirmedMore(LogOf(node.app.logs, s), Written(node.app, m.op, s), c);
    }
  }

  lemma {:induction false} DueAlways(st: Cluster, run: seq<Label>, i: InstanceId, c: string, s: SocketId)
    requires Safe(st) && IsRun(st, run) && i in st.nodes
    ensures i in After(st, run).nodes
    ensures Due(After(st, run).nodes[i], c, s) == Due(st.nodes[i], c, s) + Accepted(run, i, c, s)
    decreases |run|
  {
    if run != [] {
      DueNext(st, run[0], i, c, s);
      SafeNext(st, run[0]);
      DueAlways(Next(st, run[0]), run[1..], i, c, s);
    }
  }

  /** On every run from the start, a socket has one confirmation for each accepted subscribe that has been carried out. */
  lemma EachSubscribeIsConfirmed(st: Cluster, run: seq<Label>, i: InstanceId, c: string, s: SocketId)
    requires Initial(st) && IsRun(st, run) && i in st.nodes
    ensures i in After(st, run).nodes
    ensures var node := After(st, run).nodes[i];
      Confirmed(LogOf(node.app.logs, s), c) + (if Pending(node.task, c, s) then 1 else 0) == Accepted(run, i, c, s)
  {
    InitiallySafe(st);
    DueAlways(st, run, i, c, s);
  }

  // ---------- with what ----------

  /** A confirmation that agrees with itself: the users are those of the ids, the count is no less than the ids. */
  ghost predicate AgreesWithItself(m: Msg) {
    m.Succeeded? && IsPresence(m.chan) ==> (forall u :: u in m.users <==> u in m.ids) && |m.ids| <= m.count
  }

  /** No member is left out of the ids. */
  ghost predicate IsComplete(m: Msg) {
    AgreesWithItself(m) && (m.Succeeded? && IsPresence(m.chan) ==> m.count == |m.ids|)
  }

  ghost function Sensible(): (SocketId, Msg) -> bool { (_: SocketId, m: Msg) => AgreesWithItself(m) }

  ghost function Complete(): (SocketId, Msg) -> bool { (_: SocketId, m: Msg) => IsComplete(m) }

  lemma ReadableFewer(subs: Roster)
    ensures |Readable(subs)| <= |subs|
  {
    var some, all := Readable(subs).Keys, subs.Keys;
    assert some <= all;
    assert |all - some| == |all| - |some|;
    assert |Readable(subs)| == |some| && |subs| == |all|;
  }

  lemma ConfirmationAgrees(c: string, subs: Roster)
    ensures AgreesWithItself(ConfirmationOf(c, subs))
    ensures (forall s :: s in subs ==> subs[s].data.Some?) ==> IsComplete(ConfirmationOf(c, subs))
  {
    forall u: UserId
      ensures u in UserIds(Readable(subs)) <==> u in Users(Readable(subs))
    {
      UserIdsHas(Readable(subs), u);
    }
    ReadableFewer(subs);
    if forall s :: s in subs ==> subs[s].data.Some? {
      Presence.ReadableIsAll(subs);
    }
  }

  lemma JoinConfirms(a: App, c: string, u: SocketId, d: ChannelData, s: SocketId)
    requires Written(a, Enter(c, u, d), s) != [] && Written(a, Enter(c, u, d), s)[0].Succeeded?
    ensures c in a.channels && Written(a, Enter(c, u, d), s) == [ConfirmationOf(c, Apply(a, Enter(c, u, d)).channels[c])]
  {
  }

  lemma ConfirmationChan(c: string, subs: Roster)
    ensures Confirms(ConfirmationOf(c, subs), c)
  {
  }

  /** The only confirmation that a change writes is that of a subscription it files. */
  lemma ConfirmationWritten(a: App, op: Op, s: SocketId, k: nat)
    requires k < |Written(a, op, s)| && Written(a, op, s)[k].Succeeded? && (op.Reply? ==> !op.m.Succeeded?)
    ensures op.Enter? && op.c in a.channels && Written(a, op, s)[k] == ConfirmationOf(op.c, Apply(a, op).channels[op.c])
    ensures Written(a, op, s)[k].chan == op.c
  {
    match op
    case Enter(c, u, d) =>
      JoinConfirms(a, c, u, d, s);
      ConfirmationChan(c, Apply(a, op).channels[c]);
    case _ =>
  }

  lemma SensibleAfter(a: App, op: Op)
    requires AllFrames(a.logs, Sensible()) && (op.Reply? ==> !op.m.Succeeded?)
    ensures AllFrames(Apply(a, op).logs, Sensible())
  {
    forall s, k | 0 <= k < |Written(a, op, s)|
      ensures Sensible()(s, Written(a, op, s)[k])
    {
      if Written(a, op, s)[k].Succeeded? {
        ConfirmationWritten(a, op, s, k);
        ConfirmationAgrees(op.c, Apply(a, op).channels[op.c]);
      }
    }
    WrittenKeeps(a, op, Sensible());
  }

  lemma SensibleNext(st: Cluster, l: Label)
    requires Enabled(st, l) && AllFrames(st.nodes[l.i].app.logs, Sensible())
    ensures AllFrames(Next(st, l).nodes[l.i].app.logs, Sensible())
  {
    OrderlyRuns.PlanJoins(st, l);
    SensibleAfter(st.nodes[l.i].app, Plan(st, l).op);
  }

  lemma {:induction false} SensibleAlways(st: Cluster, run: seq<Label>)
    requires IsRun(st, run) && forall i :: i in st.nodes ==> AllFrames(st.nodes[i].app.logs, Sensible())
    ensures forall i :: i in After(st, run).nodes ==> AllFrames(After(st, run).nodes[i].app.logs, Sensible())
    decreases |run|
  {
    if run != [] {
      SensibleNext(st, run[0]);
      SensibleAlways(Next(st, run[0]), run[1..]);
    }
  }

  /** On an orderly run every entry of a presence channel is readable, the new one included. */
  lemma AllReadable(a: App, op: Op)
    requires Legal(a, op) && Presence.RostersKnown(a) && Presence.Orderly(a, op) && op.Enter? && IsPresence(op.c)
    ensures forall s :: s in Apply(a, op).channels[op.c] ==> Apply(a, op).channels[op.c][s].data.Some?
  {
    Presence.RostersKept(a, op);
    forall s | s in Apply(a, op).channels[op.c]
      ensures Apply(a, op).channels[op.c][s].data.Some?
    {
      assert Subscribed(Apply(a, op), op.c, s);
    }
  }

  lemma CompleteAfter(a: App, op: Op)
    requires Legal(a, op) && Presence.RostersKnown(a) && Presence.Orderly(a, op) && AllFrames(a.logs, Complete())
    ensures AllFrames(Apply(a, op).logs, Complete())
  {
    forall s, k | 0 <= k < |Written(a, op, s)|
      ensures Complete()(s, Written(a, op, s)[k])
    {
      if Written(a, op, s)[k].Succeeded? && IsPresence(Written(a, op, s)[k].chan) {
        ConfirmationWritten(a, op, s, k);
        AllReadable(a, op);
        ConfirmationAgrees(op.c, Apply(a, op).channels[op.c]);
      }
    }
    WrittenKeeps(a, op, Complete());
  }

  lemma CompleteNext(st: Cluster, l: Label)
    requires Enabled(st, l) && Safe(st) && OrderlyRuns.Reconstructible(st) && AllFrames(st.nodes[l.i].app.logs, Complete())
    ensures AllFrames(Next(st, l).nodes[l.i].app.logs, Complete())
  {
    assert NodeSound(st, l.i) && OrderlyRuns.NodeReconstructible(st.nodes[l.i]);
    PlanIsLegal(st, l);
    OrderlyRuns.PlanJoins(st, l);
    CompleteAfter(st.nodes[l.i].app, Plan(st, l).op);
  }

  lemma {:induction false} CompleteAlways(st: Cluster, run: seq<Label>)
    requires IsRun(st, run) && Safe(st) && OrderlyRuns.Reconstructible(st) && OrderlyRuns.OrderlyRun(st, run)
    requires forall i :: i in st.nodes ==> AllFrames(st.nodes[i].app.logs, Complete())
    ensures forall i :: i in After(st, run).nodes ==> AllFrames(After(st, run).nodes[i].app.logs, Complete())
    decreases |run|
  {
    if run != [] {
      CompleteNext(st, run[0]);
      SafeNext(st, run[0]);
      OrderlyRuns.ReconstructibleNext(st, run[0]);
      CompleteAlways(Next(st, run[0]), run[1..]);
    }
  }

  /** Every confirmation in every log agrees with itself; on orderly runs its count is that of its ids. */
  lemma ConfirmationsAgree(st: Cluster, run: seq<Label>, end: Cluster, i: InstanceId, s: SocketId, k: nat)
    requires Initial(st) && IsRun(st, run) && end == After(st, run)
    requires i in end.nodes && k < |LogOf(end.nodes[i].app.logs, s)|
    ensures AgreesWithItself(LogOf(end.nodes[i].app.logs, s)[k])
    ensures OrderlyRuns.OrderlyRun(st, run) ==> IsComplete(LogOf(end.nodes[i].app.logs, s)[k])
  {
    SensibleAlways(st, run);
    assert Sensible()(s, LogOf(end.nodes[i].app.logs, s)[k]);
    if OrderlyRuns.OrderlyRun(st, run) {
      InitiallySafe(st);
      OrderlyRuns.InitiallyReconstructible(st);
      CompleteAlways(st, run);
      assert Complete()(s, LogOf(end.nodes[i].app.logs, s)[k]);
    }
  }
}
