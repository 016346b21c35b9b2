/** What a subscription stores: on every run, the data of the subscribe command that put it there. */
module Stored {
  import opened Types
  import opened Names
  import opened Rosters
  import opened Instance
  import opened Registry
  import opened Cluster
  import opened Safety
  import opened Output
  import Hooks
  import OrderlyRuns
  import P = Payload

  /** The data of a subscribe command of this socket for this channel, or else what is given. */
  function DataOf(last: Option<ChannelData>, l: Label, i: InstanceId, c: string, s: SocketId): Option<ChannelData> {
    if l.i == i && l.act.Start? && l.act.cmd.Subscribe? && l.act.cmd.c == c && l.act.cmd.s == s then Some(l.act.cmd.d) else last
  }

  /** The data of the last such command of a run. */
  function LastData(last: Option<ChannelData>, run: seq<Label>, i: InstanceId, c: string, s: SocketId): Option<ChannelData>
    decreases |run|
  {
    if run == [] then last else LastData(DataOf(last, run[0], i, c, s), run[1..], i, c, s)
  }

  /** The data with which the socket last asked to subscribe. */
  function Sent(run: seq<Label>, i: InstanceId, c: string, s: SocketId): Option<ChannelData> { LastData(None, run, i, c, s) }

  /** The handler that will file the subscription is at work. */
  predicate Filing(t: Task, c: string, s: SocketId) { t.Joining? && t.c == c && t.s == s }

  /** The entry is what the last command said, unless that one has not been filed yet. */
  ghost predicate AsSent(last: Option<ChannelData>, st: Cluster, i: InstanceId, c: string, s: SocketId) {
    i in st.nodes ==>
      var node := st.nodes[i];
      if Filing(node.task, c, s) then last == Some(node.task.d)
      else Subscribed(node.app, c, s) ==> last.Some? && Stores(c, last.value, node.app.channels[c][s])
  }

  /** A subscription is filed by the handler of its command, with its data. */
  ghost predicate FilingStep(t: Task, act: Act, m: Move) {
    && (m.task.Joining? ==> act == Start(Subscribe(m.task.c, m.task.s, m.task.d)) && !m.op.Enter?)
    && (act.Start? && act.cmd.Subscribe? ==> m.task == Joining(act.cmd.c, act.cmd.s, act.cmd.d))
    && (m.op.Enter? ==> t == Joining(m.op.c, m.op.s, m.op.d))
    && (t.Joining? ==> m.op == Enter(t.c, t.s, t.d) && !act.Start?)
  }

  lemma PlanFiles(st: Cluster, l: Label)
    requires Enabled(st, l)
    ensures FilingStep(st.nodes[l.i].task, l.act, Plan(st, l))
  {
  }

  lemma AsSentNext(last: Option<ChannelData>, st: Cluster, l: Label, i: InstanceId, c: string, s: SocketId)
    requires Enabled(st, l) && Safe(st) && AsSent(last, st, i, c, s)
    ensures AsSent(DataOf(last, l, i, c, s), Next(st, l), i, c, s)
  {
    if i == l.i {
      assert NodeSound(st, i);
      PlanFiles(st, l);
      PlanIsLegal(st, l);
      if Subscribed(Next(st, l).nodes[i].app, c, s) {
        StoresExactly(st.nodes[i].app, Plan(st, l).op, c, s);
      }
    }
  }

  lemma {:induction false} AsSentAlways(
    last: Option<ChannelData>, st: Cluster, run: seq<Label>, i: InstanceId, c: string, s: SocketId)
    requires Safe(st) && AsSent(last, st, i, c, s) && IsRun(st, run)
    ensures AsSent(LastData(last, run, i, c, s), After(st, run), i, c, s)
    decreases |run|
  {
    if run != [] {
      AsSentNext(last, st, run[0], i, c, s);
      SafeNext(st, run[0]);
      AsSentAlways(DataOf(last, run[0], i, c, s), Next(st, run[0]), run[1..], i, c, s);
    }
  }

  /**
   On every run from the start, with subscriptions repeated, given up and taken again: an entry is what
   the socket's last subscribe command for the channel said, unless that command is just being handled.
   */
  lemma EntryIsAsSent(st: Cluster, run: seq<Label>, end: Cluster, i: InstanceId, c: string, s: SocketId)
    requires Initial(st) && IsRun(st, run) && end == After(st, run)
    requires SubscribedAt(end, i, c, s) && !Filing(end.nodes[i].task, c, s)
    ensures var d := Sent(run, i, c, s); d.Some? && Stores(c, d.value, end.nodes[i].app.channels[c][s])
  {
    InitiallySafe(st);
    AsSentAlways(None, st, run, i, c, s);
  }

  /** What a payload's hash says of a user is what a socket of that user sent. */
  ghost predicate InfoFrom(run: seq<Label>, i: InstanceId, c: string, u: UserId, info: Json) {
    exists s :: Sent(run, i, c, s).Some? && Stores(c, Sent(run, i, c, s).value, Sub(u, Some(info)))
  }

  /** Every value of the hash, when no subscription to the channel is being filed. */
  lemma HashIsAsSent(
    st: Cluster, run: seq<Label>, end: Cluster, i: InstanceId, c: string, data: P.PresenceData, u: UserId)
    requires Initial(st) && IsRun(st, run) && end == After(st, run) && i in end.nodes && c in end.nodes[i].app.channels
    requires !(end.nodes[i].task.Joining? && end.nodes[i].task.c == c)
    requires P.IsPayload(data, end.nodes[i].app.channels[c]) && u in data.hash
    ensures InfoFrom(run, i, c, u, data.hash[u])
  {
    var subs := end.nodes[i].app.channels[c];
    var s :| s in subs && subs[s] == Sub(u, Some(data.hash[u]));
    EntryIsAsSent(st, run, end, i, c, s);
  }

  /** On orderly runs there is no exception, and on a presence channel it is the user ID and the user info. */
  lemma MemberIsAsSent(st: Cluster, run: seq<Label>, end: Cluster, i: InstanceId, c: string, s: SocketId)
    requires Initial(st) && IsRun(st, run) && OrderlyRuns.OrderlyRun(st, run) && end == After(st, run)
    requires SubscribedAt(end, i, c, s) && IsPresence(c)
    ensures var d := Sent(run, i, c, s);
      && d.Some? && d.value.Member?
      && end.nodes[i].app.channels[c][s] == Sub(d.value.userId, Some(if d.value.userInfo.Some? then d.value.userInfo.value else "null"))
  {
    OrderlyRuns.NotFiling(st, run, end, i, c, s);
    EntryIsAsSent(st, run, end, i, c, s);
    LastIsMember(None, st, run, i, c, s);
  }

  /** An orderly run only subscribes members to presence channels. */
  lemma {:induction false} LastIsMember(
    last: Option<ChannelData>, st: Cluster, run: seq<Label>, i: InstanceId, c: string, s: SocketId)
    requires IsRun(st, run) && OrderlyRuns.OrderlyRun(st, run) && IsPresence(c) && (last.Some? ==> last.value.Member?)
    ensures var d := LastData(last, run, i, c, s); d.Some? ==> d.value.Member?
    decreases |run|
  {
    if run != [] {
      LastIsMember(DataOf(last, run[0], i, c, s), Next(st, run[0]), run[1..], i, c, s);
    }
  }
}
