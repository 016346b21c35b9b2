/** The client_events webhook: when it fires, with what, and for which user. */
module ClientEvents {
  import opened Types
  import opened Names
  import opened Instance
  import opened Registry
  import opened Cluster
  import opened Safety
  import opened Output
  import opened Provenance
  import opened Stored
  import Delivery

  /** An event that an instance hands to its subscribers, and the socket it skips. */
  datatype Handout = Handout(c: string, e: Raw, sender: SocketId)

  /** What the next step of the handler hands out: what it publishes, or a message it heard. */
  function HandsOut(t: Task): Option<Handout> {
    match t
    case Telling(job) => Some(Handout(job.tag.chan, job.raw, job.tag.ignore))
    case Relaying(c, note, _) => Some(Handout(c, Raw(note.name, note.chan, Some(note.payload)), note.tag.ignore))
    case _ => None
  }

  /** A client event in JSON, of a subscriber of this instance. */
  ghost predicate IsDue(a: App, h: Handout) {
    Subscribed(a, h.c, h.sender) && IsClientEvent(h.e.name) && h.e.payload.Some?
  }

  /** The hooks grow by none that reports a client event. */
  ghost predicate NoClientEvent(before: seq<Hook>, after: seq<Hook>) {
    before <= after && forall k :: |before| <= k < |after| ==> !after[k].ClientEvent?
  }

  /** The hooks grow by exactly one, which reports this event. */
  predicate OneClientEvent(before: seq<Hook>, after: seq<Hook>, h: Handout, u: UserId) {
    h.e.payload.Some? && after == before + [ClientEvent(h.c, h.e.name, h.e.payload.value, h.sender, u)]
  }

  lemma OthersFireNone(a: App, op: Op, after: seq<Hook>)
    requires !op.Send? && after == a.hooks + Fires(a, op)
    ensures NoClientEvent(a.hooks, after)
  {
    forall k | |a.hooks| <= k < |after|
      ensures !after[k].ClientEvent?
    {
      match op
      case Enter(c, s, d) => EnterHooks(a, c, s, d, k - |a.hooks|);
      case Exit(c, s) => ExitHooks(a, c, s, k - |a.hooks|);
      case _ =>
    }
  }

  lemma SendFiresOne(a: App, op: Op, after: seq<Hook>)
    requires op.Send? && after == a.hooks + Fires(a, op)
    ensures var h := Handout(op.c, op.e, op.ignore);
      if IsDue(a, h) then OneClientEvent(a.hooks, after, h, if IsPresence(op.c) then a.channels[op.c][op.ignore].id else "")
      else after == a.hooks
  {
  }

  /** The step hands out what the task says; a socket it need not skip is not subscribed here. */
  ghost predicate HandoutStep(a: App, t: Task, act: Act, m: Move) {
    if act.Go? && HandsOut(t).Some? then
      var h := HandsOut(t).value;
      && m.op.Send? && m.op.c == h.c && m.op.e == h.e
      && (m.op.ignore == h.sender || (!Subscribed(a, h.c, h.sender) && !Subscribed(a, h.c, m.op.ignore)))
    else !m.op.Send?
  }

  lemma PlanHandsOut(st: Cluster, l: Label)
    requires Enabled(st, l) && NodeSound(st, l.i)
    ensures HandoutStep(st.nodes[l.i].app, st.nodes[l.i].task, l.act, Plan(st, l))
  {
    assert forall c, s :: Subscribed(st.nodes[l.i].app, c, s) ==> s in st.nodes[l.i].app.conns && s != "" by {
      assert forall s :: s in st.nodes[l.i].app.conns ==> OwnedSocket(st.history, st.store, l.i, st.nodes[l.i].task, s);
    }
  }

  /** Every step fires the webhook exactly when it hands out a client event of a subscriber, once, with its user. */
  lemma StepFires(st: Cluster, l: Label)
    requires Enabled(st, l) && Safe(st)
    ensures var a, t, after := st.nodes[l.i].app, st.nodes[l.i].task, Next(st, l).nodes[l.i].app.hooks;
      if l.act.Go? && HandsOut(t).Some? && IsDue(a, HandsOut(t).value) then
        var h := HandsOut(t).value;
        OneClientEvent(a.hooks, after, h, if IsPresence(h.c) then a.channels[h.c][h.sender].id else "")
      else NoClientEvent(a.hooks, after)
  {
    assert NodeSound(st, l.i);
    PlanHandsOut(st, l);
    var a, op := st.nodes[l.i].app, Plan(st, l).op;
    FiresExactly(a, op);
    if op.Send? {
      SendFiresOne(a, op, Next(st, l).nodes[l.i].app.hooks);
    } else {
      OthersFireNone(a, op, Next(st, l).nodes[l.i].app.hooks);
    }
  }

  /**
   On every run from the start, step by step: the webhook fires exactly when a client event is handed
   out on the instance of its sender, while the sender is subscribed there. It carries the event as
   it was published, and on a presence channel the user with which the sender last subscribed.
   */
  lemma WebhookNamesTheSender(first: Cluster, past: seq<Label>, st: Cluster, l: Label)
    requires Initial(first) && IsRun(first, past) && st == After(first, past) && Enabled(st, l)
    ensures var a, t, after := st.nodes[l.i].app, st.nodes[l.i].task, Next(st, l).nodes[l.i].app.hooks;
      if l.act.Go? && HandsOut(t).Some? && IsDue(a, HandsOut(t).value) then
        var h := HandsOut(t).value;
        var d := Sent(past, l.i, h.c, h.sender);
        d.Some? && OneClientEvent(a.hooks, after, h, if IsPresence(h.c) then UserOf(d.value) else "")
      else NoClientEvent(a.hooks, after)
  {
    InitiallySafe(first);
    SafeAlways(first, past);
    StepFires(st, l);
    var h := HandsOut(st.nodes[l.i].task);
    if h.Some? && Subscribed(st.nodes[l.i].app, h.value.c, h.value.sender) {
      EntryIsAsSent(first, past, st, l.i, h.value.c, h.value.sender);
    }
  }
}
