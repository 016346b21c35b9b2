/** Why delivery needs a subscriber that stays: one that leaves and comes back can miss a message. */
module Away {
  import opened Types
  import opened Names
  import opened Instance
  import opened Registry
  import opened Cluster
  import opened Handlers
  import opened Frames
  import opened Safety
  import opened Undisturbed
  import opened Delivery
  import opened Counting
  import opened Witnesses

  lemma LeftCopies(w: World, c: string, s: SocketId, t: Tag)
    ensures Copies(Left(w, c, s).app, s, t) == Copies(w.app, s, t)
    ensures Left(w, c, s).listeners == w.listeners && Left(w, c, s).app.conns == w.app.conns
    ensures !Subscribed(Left(w, c, s).app, c, s)
  {
    LeftChannels(w, c, s);
    if Subscribed(w.app, c, s) {
      CopiesAfter(w.app, Exit(c, s), s, t);
    }
  }

  lemma HeardCopies(w: World, i: InstanceId, c: string, note: Note, s: SocketId, t: Tag)
    requires !Subscribed(w.app, c, s)
    ensures var after := Heard(w, i, c, note);
      && Copies(after.app, s, t) == Copies(w.app, s, t)
      && after.listeners == w.listeners && after.app.conns == w.app.conns && !Subscribed(after.app, c, s)
  {
    CopiesAfter(w.app, Send(c, RawOf(note), SkipOf(w, i, note.tag.ignore), note.tag), s, t);
  }

  /** More listeners, with nothing to hear. */
  predicate Extends(ls: seq<Listener>, more: seq<Listener>) {
    |ls| <= |more| && more[..|ls|] == ls && forall k :: |ls| <= k < |more| ==> more[k].queue == []
  }

  lemma CreatedCopies(w: World, i: InstanceId, c: string, s: SocketId, t: Tag)
    ensures var after := Created(w, i, c);
      && Copies(after.app, s, t) == Copies(w.app, s, t) && c in after.app.channels
      && Extends(w.listeners, after.listeners)
  {
    if c !in w.app.channels {
      CopiesAfter(w.app, AddChan(c), s, t);
    }
  }

  lemma EnteredCopies(w: World, i: InstanceId, c: string, s: SocketId, d: ChannelData, t: Tag)
    requires c in w.app.channels
    ensures var after := Entered(w, i, c, s, d);
      Copies(after.app, s, t) == Copies(w.app, s, t) && Subscribed(after.app, c, s) && after.listeners == w.listeners
  {
    CopiesAfter(w.app, Enter(c, s, d), s, t);
  }

  /** The subscriber leaves and its instance hears the message. */
  lemma MissesIt(st: Cluster, j: InstanceId, c: string, s: SocketId, k: nat, t: Tag) returns (run: seq<Label>, w: World)
    requires j in st.nodes && st.nodes[j].task.Idle? && Subscribed(st.nodes[j].app, c, s) && s in st.nodes[j].app.conns
    requires k < |st.listeners| && st.listeners[k].node == j && st.listeners[k].chan == c && st.listeners[k].queue != []
    ensures Reaches(st, j, run, Idle, w) && s in w.app.conns
    ensures w.listeners == Route(st.listeners, Pop(k)) && Copies(w.app, s, t) == Copies(st.nodes[j].app, s, t)
  {
    var w1 := Left(WorldAt(st, j), c, s);
    var leave := UnsubscribeRuns(st, j, c, s);
    LeftCopies(WorldAt(st, j), c, s, t);
    var st1 := After(st, leave);
    assert WorldAt(st1, j) == w1;
    w := Heard(Popped(w1, k), j, c, st.listeners[k].queue[0]);
    var hear := HearRuns(st1, j, k);
    HeardCopies(Popped(w1, k), j, c, st.listeners[k].queue[0], s, t);
    ReachesBoth(st, j, leave, Idle, w1, hear, Idle, w);
    run := leave + hear;
  }

  /**
   Whatever the state: if a message waits for the instance of a subscriber, there is a run in which
   that subscriber unsubscribes, the message is heard, and the subscriber subscribes again, with no copy more.
   */
  lemma ComesBackTooLate(st: Cluster, j: InstanceId, c: string, s: SocketId, d: ChannelData, k: nat, t: Tag)
    returns (run: seq<Label>, w: World)
    requires j in st.nodes && st.nodes[j].task.Idle? && Subscribed(st.nodes[j].app, c, s) && s in st.nodes[j].app.conns
    requires IsChannelNameValid(c) && k < |st.listeners| && st.listeners[k].node == j && st.listeners[k].chan == c
    requires st.listeners[k].queue != []
    ensures Reaches(st, j, run, Idle, w) && Subscribed(w.app, c, s)
    ensures Extends(Route(st.listeners, Pop(k)), w.listeners)
    ensures Copies(w.app, s, t) == Copies(st.nodes[j].app, s, t)
  {
    var away, w2 := MissesIt(st, j, c, s, k, t);
    var st2 := After(st, away);
    assert WorldAt(st2, j) == w2;
    w := Entered(Created(w2, j, c), j, c, s, d);
    var back := SubscribeRuns(st2, j, c, s, d);
    CreatedCopies(w2, j, c, s, t);
    EnteredCopies(Created(w2, j, c), j, c, s, d, t);
    ReachesBoth(st, j, away, Idle, w2, back, Idle, w);
    run := away + back;
  }

  // ---------- from the start of a cluster ----------

  const EVENT := "event"
  const DATA := "data"

  /** A POST of one event to one channel. */
  function PostTo(c: string): Act { Start(Post([c], EVENT, Some(DATA), "")) }

  function JobFor(c: string, pid: nat): Job { Job(Raw(EVENT, c, Some(DATA)), Tag(pid, c, ""), []) }

  lemma PostSteps(st: Cluster, i: InstanceId, c: string)
    requires i in st.nodes && st.nodes[i].task.Idle?
    ensures Moves(st, i, PostTo(c), Posting([c], EVENT, Some(DATA), ""), WorldAt(st, i))
    ensures Next(st, Label(i, PostTo(c))).history.nextPid == st.history.nextPid
  {
  }

  lemma PostStarts(st: Cluster, i: InstanceId, c: string) returns (posting: Cluster)
    requires Reachable(st) && i in st.nodes && st.nodes[i].task.Idle?
    ensures Reachable(posting) && posting.store == st.store && posting.listeners == st.listeners
    ensures posting.nodes == st.nodes[i := Node(st.nodes[i].app, Posting([c], EVENT, Some(DATA), ""))]
  {
    PostSteps(st, i, c);
    Extended(st, Label(i, PostTo(c)));
    posting := Next(st, Label(i, PostTo(c)));
  }

  lemma TakesUp(st: Cluster, i: InstanceId, job: Job)
    requires Reachable(st) && job.raw.payload.Some? && i in st.nodes
    requires Moves(st, i, Go, Announcing(job), Created(WorldAt(st, i), i, job.tag.chan))
    ensures JustBegun(Next(st, Label(i, Go)), i, job.tag, true)
  {
    assert Next(st, Label(i, Go)).nodes[i].task == Announcing(job);
    assert Begins(st, Label(i, Go), job.tag, true);
  }

  /** An idle instance takes up a POST: the publication begins, and the channel is there. */
  lemma PostBegins(st: Cluster, i: InstanceId, c: string) returns (start: Cluster, job: Job)
    requires Reachable(st) && i in st.nodes && st.nodes[i].task.Idle?
    ensures job == JobFor(c, job.tag.pid) && JustBegun(start, i, job.tag, true)
    ensures var w := Created(WorldAt(st, i), i, c);
      start.nodes == st.nodes[i := Node(w.app, Announcing(job))] && start.store == w.store && start.listeners == w.listeners
  {
    var posting := PostStarts(st, i, c);
    start, job := PostingBegins(posting, i, c);
    assert WorldAt(posting, i) == WorldAt(st, i);
    Twice(st.nodes, i, posting.nodes[i], start.nodes[i]);
  }

  lemma Twice(nodes: map<InstanceId, Node>, i: InstanceId, x: Node, y: Node)
    ensures nodes[i := x][i := y] == nodes[i := y]
  {
  }

  lemma PostingBegins(st: Cluster, i: InstanceId, c: string) returns (start: Cluster, job: Job)
    requires Reachable(st) && i in st.nodes && st.nodes[i].task == Posting([c], EVENT, Some(DATA), "")
    ensures job == JobFor(c, job.tag.pid) && JustBegun(start, i, job.tag, true)
    ensures var w := Created(WorldAt(st, i), i, c);
      start.nodes == st.nodes[i := Node(w.app, Announcing(job))] && start.store == w.store && start.listeners == w.listeners
  {
    job := JobFor(c, st.history.nextPid);
    assert [c] + [] == [c];
    PostingSteps(st, i, job);
    TakesUp(st, i, job);
    start := Next(st, Label(i, Go));
  }

  /** One step on from a reachable state. */
  lemma Extended(st: Cluster, l: Label)
    requires Reachable(st) && Enabled(st, l)
    ensures Reachable(Next(st, l))
  {
    var first, run :| Initial(first) && IsRun(first, run) && After(first, run) == st;
    OneStep(st, l);
    Concat(first, run, [l]);
  }

  lemma OneStep(st: Cluster, l: Label)
    requires Enabled(st, l)
    ensures IsRun(st, [l]) && After(st, [l]) == Next(st, l)
  {
    assert [l][1..] == [];
  }

  /** The broadcast reaches every listener of the channel, the publisher's own included. */
  lemma PublishedTo(w: World, i: InstanceId, c: string, s: SocketId, t: Tag)
    requires s in Members(w.store, c) && s in w.store.conns && w.store.conns[s] != i
    ensures var e := Raw(EVENT, c, Some(DATA));
      Published(w, i, c, e, "", t).listeners == Broadcast(w.listeners, c, Note(EVENT, c, DATA, t))
  {
    assert RemoteSubscriber(w.store, i, c);
  }

  lemma {:induction false} NothingWaits(ls: seq<Listener>, j: InstanceId, c: string, t: Tag)
    requires forall k :: 0 <= k < |ls| && ls[k].node == j && ls[k].chan == c ==> ls[k].queue == []
    ensures Queued(ls, j, c, t) == 0
  {
    if ls != [] {
      NothingWaits(ls[..|ls| - 1], j, c, t);
    }
  }

  function NoteFor(job: Job): Note { Note(EVENT, job.tag.chan, DATA, job.tag) }

  lemma BroadcastToBoth(i: InstanceId, j: InstanceId, c: string, note: Note)
    ensures Broadcast([Listener(j, c, []), Listener(i, c, [])], c, note) == [Listener(j, c, [note]), Listener(i, c, [note])]
  {
    var both := Broadcast([Listener(j, c, []), Listener(i, c, [])], c, note);
    assert [] + [note] == [note];
    assert both[0] == Listener(j, c, [note]) && both[1] == Listener(i, c, [note]);
  }

  lemma PoppedFirst(i: InstanceId, j: InstanceId, c: string, note: Note)
    ensures Route([Listener(j, c, [note]), Listener(i, c, [note])], Pop(0)) == [Listener(j, c, []), Listener(i, c, [note])]
  {
    assert [note][1..] == [];
  }

  lemma NothingMore(ls: seq<Listener>, more: seq<Listener>, j: InstanceId)
    requires Extends(ls, more) && forall k :: 0 <= k < |ls| && ls[k].node == j ==> ls[k].queue == []
    ensures forall k :: 0 <= k < |more| && more[k].node == j ==> more[k].queue == []
  {
    forall k | 0 <= k < |more| && more[k].node == j
      ensures more[k].queue == []
    {
      assert k < |ls| ==> more[k] == more[..|ls|][k];
    }
  }

  /** The publication of the POST: it waits for both instances. */
  lemma IsSent(start: Cluster, i: InstanceId, j: InstanceId, c: string, s: SocketId, job: Job) returns (sent: seq<Label>)
    requires i in start.nodes && j in start.nodes && i != j && start.nodes[i].task == Announcing(job) && job == JobFor(c, job.tag.pid)
    requires Members(start.store, c) == {s} && s in start.store.conns && start.store.conns[s] == j
    requires start.listeners == [Listener(j, c, []), Listener(i, c, [])]
    ensures IsRun(start, sent)
    ensures var st := After(start, sent);
      && i in st.nodes && st.nodes == start.nodes[i := Node(st.nodes[i].app, Idle)]
      && st.listeners == [Listener(j, c, [NoteFor(job)]), Listener(i, c, [NoteFor(job)])]
  {
    var w := WorldAt(start, i);
    sent := AnnouncingRuns(start, i, job, [s]);
    PublishedTo(w, i, c, s, job.tag);
    BroadcastToBoth(i, j, c, NoteFor(job));
  }

  /** Its subscriber misses it. */
  lemma IsMissed(st: Cluster, i: InstanceId, j: InstanceId, c: string, s: SocketId, d: ChannelData, note: Note, t: Tag)
    returns (back: seq<Label>)
    requires i in st.nodes && j in st.nodes && i != j && st.nodes[i].task.Idle? && st.nodes[j].task.Idle?
    requires Subscribed(st.nodes[j].app, c, s) && s in st.nodes[j].app.conns && IsChannelNameValid(c) && t.chan == c
    requires st.listeners == [Listener(j, c, [note]), Listener(i, c, [note])]
    ensures IsRun(st, back)
    ensures var end := After(st, back);
      && Drained(end, i, j, t) && SubscribedAt(end, j, c, s)
      && Copies(end.nodes[j].app, s, t) == Copies(st.nodes[j].app, s, t)
  {
    var w;
    back, w := ComesBackTooLate(st, j, c, s, d, 0, t);
    PoppedFirst(i, j, c, note);
    NothingMore([Listener(j, c, []), Listener(i, c, [note])], w.listeners, j);
    NothingWaits(w.listeners, j, c, t);
  }

  /**
   Two instances: a registered subscriber of one is there when the other publishes and when everything
   has drained, is never the ignored socket, and has no copy, because it was away when its instance
   heard the message.
   */
  lemma DropAndReturn(first: Cluster, i: InstanceId, j: InstanceId, c: string, s: SocketId, d: ChannelData)
    returns (start: Cluster, run: seq<Label>, t: Tag)
    requires Initial(first) && i in first.nodes && j in first.nodes && i != j
    requires s != "" && IsChannelNameValid(c) && Joined(c, d)
    ensures JustBegun(start, i, t, true) && t.chan == c && s != t.ignore
    ensures SubscribedAt(start, j, c, s) && s in Members(start.store, c)
    ensures Settles(start, run, i, j, t)
    ensures var end := After(start, run); SubscribedAt(end, j, c, s) && Copies(end.nodes[j].app, s, t) == 0
  {
    var st := SubscriberIsReachable(first, j, c, s, d, i);
    var job;
    start, job := PostBegins(st, i, c);
    t := job.tag;
    CreatedByPost(WorldAt(st, i), i, c);
    var sent := IsSent(start, i, j, c, s, job);
    var back := IsMissed(After(start, sent), i, j, c, s, d, NoteFor(job), t);
    Concat(start, sent, back);
    run := sent + back;
    HasNone(start, i, j, s, t);
  }

  lemma HasNone(start: Cluster, i: InstanceId, j: InstanceId, s: SocketId, t: Tag)
    requires JustBegun(start, i, t, true) && j in start.nodes
    ensures Copies(start.nodes[j].app, s, t) == 0
  {
    IsBegun(start, i, t, true);
    NoneAtFirst(start, i, j, s, t, true);
  }

  lemma CreatedByPost(w: World, i: InstanceId, c: string)
    requires c !in w.app.channels && c !in w.app.markers
    ensures Created(w, i, c).listeners == w.listeners + [Listener(i, c, [])] && Created(w, i, c).store == w.store
  {
  }
}
