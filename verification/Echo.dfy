/** The socket a publication ignores never receives it, by the local path or through Redis. */
module Echo {
  import opened Types
  import opened Names
  import opened Instance
  import opened Registry
  import opened Cluster
  import opened Frames
  import opened Safety

  /** A frame the socket may hold: no event that was to skip it. */
  predicate NotOwn(s: SocketId, m: Msg) { m.Event? ==> m.tag.ignore != s }

  /** The sockets an event goes to do not include the one its tag names. */
  ghost predicate Skips(a: App, op: Op) {
    match op
    case Send(c, e, skip, tag) => forall s :: Subscribed(a, c, s) && s != skip ==> s != tag.ignore
    case Reply(s, m) => !m.Event?
    case _ => true
  }

  /** Registration is what makes the Redis path skip the right socket. */
  lemma PlanSkips(st: Cluster, l: Label)
    requires Enabled(st, l) && NodeSound(st, l.i)
    ensures Skips(st.nodes[l.i].app, Plan(st, l).op)
  {
    var a := st.nodes[l.i].app;
    assert forall c, s :: Subscribed(a, c, s) ==> s in a.conns && s != "";
  }

  ghost predicate NoEcho(st: Cluster) {
    forall i :: i in st.nodes ==> AllFrames(st.nodes[i].app.logs, NotOwn)
  }

  lemma {:induction false} NoEchoAlways(st: Cluster, run: seq<Label>)
    requires Safe(st) && NoEcho(st) && IsRun(st, run)
    ensures NoEcho(After(st, run))
    decreases |run|
  {
    if run != [] {
      var l := run[0];
      PlanSkips(st, l);
      FramesKept(st.nodes[l.i].app, Plan(st, l).op, NotOwn);
      SafeNext(st, l);
      NoEchoAlways(Next(st, l), run[1..]);
    }
  }

  /** On every run from the start, no socket ever holds an event published with its own ID to be ignored. */
  lemma NeverHearsItself(st: Cluster, run: seq<Label>, i: InstanceId, s: SocketId, k: nat)
    requires Initial(st) && IsRun(st, run)
    requires i in After(st, run).nodes && k < |LogOf(After(st, run).nodes[i].app.logs, s)|
    ensures NotOwn(s, LogOf(After(st, run).nodes[i].app.logs, s)[k])
  {
    InitiallySafe(st);
    NoEchoAlways(st, run);
  }
}
