/** A WebSocket session is a run of the cluster: its requests are the commands of its instance. So is a POST. */
module SessionRuns {
  import opened Types
  import opened Names
  import opened Instance
  import opened Registry
  import opened Cluster
  import opened Handlers
  import opened Undisturbed
  import opened Answers
  import S = Session

  /** The same requests, whatever numbers the client events bear. */
  predicate SameReads(a: seq<S.Read>, b: seq<S.Read>) {
    |a| == |b| && forall k :: 0 <= k < |a| ==> SameRead(a[k], b[k])
  }

  predicate SameRead(a: S.Read, b: S.Read) {
    if a.Got? && a.req.Client? then b.Got? && b.req.Client? && b.req.e == a.req.e else a == b
  }

  /** The publications among the commands. */
  function Publications(cmds: seq<Command>): seq<Command> {
    if cmds == [] then [] else IfPublication(cmds[0]) + Publications(cmds[1..])
  }

  function IfPublication(cmd: Command): seq<Command> { if cmd.Client? || cmd.Post? then [cmd] else [] }

  lemma {:induction false} PublicationsConcat(a: seq<Command>, b: seq<Command>)
    ensures Publications(a + b) == Publications(a) + Publications(b)
    decreases |a|
  {
    if a == [] {
      assert a + b == b;
    } else {
      assert (a + b)[0] == a[0] && (a + b)[1..] == a[1..] + b;
      PublicationsConcat(a[1..], b);
      Regroup(IfPublication(a[0]), Publications(a[1..]), Publications(b));
    }
  }

  lemma Regroup(a: seq<Command>, b: seq<Command>, c: seq<Command>)
    ensures a + (b + c) == a + b + c
  {
  }

  /** A request that is a client event to a private or presence channel that is there. */
  ghost function PublishedBy(a: App, s: SocketId, req: S.Request): seq<Command> {
    if req.Client? && req.e.chan in a.channels && (IsPresence(req.e.chan) || IsPrivate(req.e.chan)) then [Client(s, req.e)] else []
  }

  /** The client events of a session that are accepted, in order. */
  ghost function AllPublished(w: World, i: InstanceId, s: SocketId, userEvents: bool, inbox: seq<S.Read>): seq<Command>
    decreases |inbox|
  {
    if inbox == [] || !inbox[0].Got? then []
    else
      PublishedBy(w.app, s, inbox[0].req) +
      AllPublished(S.Handle(w, i, s, userEvents, inbox[0].req), i, s, userEvents, inbox[1..])
  }

  /** A run of an instance from rest to rest, with these publications. */
  ghost predicate Does(st: Cluster, i: InstanceId, run: seq<Label>, w: World, published: seq<Command>) {
    Reaches(st, i, run, Idle, w) && Publications(Commands(run)) == published
  }

  /** The instance is at rest, with this world, and serves the socket. */
  ghost predicate Serves(st: Cluster, i: InstanceId, s: SocketId) {
    i in st.nodes && st.nodes[i].task.Idle? && s in st.nodes[i].app.conns
  }

  lemma NothingDone(st: Cluster, i: InstanceId)
    requires i in st.nodes && st.nodes[i].task.Idle?
    ensures Does(st, i, [], WorldAt(st, i), [])
  {
    Nothing(st, i);
  }

  lemma DoesBoth(
    st: Cluster, i: InstanceId, a: seq<Label>, w: World, p: seq<Command>, b: seq<Label>, x: World, q: seq<Command>)
    requires Does(st, i, a, w, p) && Does(After(st, a), i, b, x, q)
    ensures Does(st, i, a + b, x, p + q)
  {
    ReachesBoth(st, i, a, Idle, w, b, Idle, x);
    PublicationsConcat(Commands(a), Commands(b));
  }

  lemma WorldAfter(st: Cluster, i: InstanceId, run: seq<Label>, w: World, published: seq<Command>)
    requires Does(st, i, run, w, published)
    ensures i in After(st, run).nodes && WorldAt(After(st, run), i) == w && After(st, run).nodes[i].task.Idle?
  {
  }

  // ---------- one request ----------

  lemma AnswerSteps(st: Cluster, i: InstanceId, s: SocketId, m: Msg)
    requires Serves(st, i, s) && IsAnswer(m)
    ensures Moves(st, i, Start(Answer(s, m)), Idle, S.Say(WorldAt(st, i), s, m))
  {
  }

  lemma AnswerRuns(st: Cluster, i: InstanceId, s: SocketId, m: Msg) returns (run: seq<Label>)
    requires Serves(st, i, s) && IsAnswer(m)
    ensures Does(st, i, run, S.Say(WorldAt(st, i), s, m), [])
  {
    AnswerSteps(st, i, s, m);
    run := LastStep(st, i, Start(Answer(s, m)), Idle, S.Say(WorldAt(st, i), s, m));
    assert Commands(run)[1..] == [];
  }

  /** Something is done, and then the socket is answered. */
  lemma ThenAnswers(
    st: Cluster, i: InstanceId, s: SocketId, run: seq<Label>, w: World, p: seq<Command>, m: Msg) returns (all: seq<Label>)
    requires Does(st, i, run, w, p) && s in w.app.conns && IsAnswer(m)
    ensures Does(st, i, all, S.Say(w, s, m), p)
  {
    WorldAfter(st, i, run, w, p);
    var answer := AnswerRuns(After(st, run), i, s, m);
    DoesBoth(st, i, run, w, p, answer, S.Say(w, s, m), []);
    assert p + [] == p;
    all := run + answer;
  }

  lemma ConnsKept(w: World, i: InstanceId, s: SocketId, c: string, d: ChannelData)
    ensures Entered(Created(w, i, c), i, c, s, d).app.conns == w.app.conns
  {
  }

  lemma JoinRuns(st: Cluster, i: InstanceId, s: SocketId, c: string, d: ChannelData) returns (run: seq<Label>)
    requires Serves(st, i, s) && IsChannelNameValid(c)
    ensures Does(st, i, run, Entered(Created(WorldAt(st, i), i, c), i, c, s, d), [])
  {
    run := SubscribeRuns(st, i, c, s, d);
    assert Commands(run)[1..] == [];
  }

  lemma SubscribeHandled(
    st: Cluster, i: InstanceId, s: SocketId, userEvents: bool, c: string, d: ChannelData, authOk: bool)
    returns (run: seq<Label>)
    requires Serves(st, i, s)
    ensures Does(st, i, run, S.Handle(WorldAt(st, i), i, s, userEvents, S.Subscribe(c, d, authOk)), [])
  {
    if !IsChannelNameValid(c) {
      run := AnswerRuns(st, i, s, S.BAD_NAME);
    } else if NeedsSignature(c) && !authOk {
      run := AnswerRuns(st, i, s, S.BadAuth(c));
    } else {
      run := JoinRuns(st, i, s, c, d);
      if !Joined(c, d) {
        ConnsKept(WorldAt(st, i), i, s, c, d);
        run := ThenAnswers(st, i, s, run, Entered(Created(WorldAt(st, i), i, c), i, c, s, d), [], S.RECONNECT);
      }
    }
  }

  lemma UnsubscribeHandled(
    st: Cluster, i: InstanceId, s: SocketId, userEvents: bool, c: string) returns (run: seq<Label>)
    requires Serves(st, i, s)
    ensures Does(st, i, run, S.Handle(WorldAt(st, i), i, s, userEvents, S.Unsubscribe(c)), [])
  {
    var a := st.nodes[i].app;
    if c !in a.channels {
      run := AnswerRuns(st, i, s, S.NoChannel(c));
    } else if !Subscribed(a, c, s) {
      run := AnswerRuns(st, i, s, S.RECONNECT);
    } else {
      run := UnsubscribeRuns(st, i, c, s);
      assert Commands(run)[1..] == [];
    }
  }

  lemma PublishRuns(st: Cluster, i: InstanceId, s: SocketId, e: Raw) returns (run: seq<Label>)
    requires Serves(st, i, s) && e.chan in st.nodes[i].app.channels && NeedsSignature(e.chan)
    ensures Does(st, i, run, Published(WorldAt(st, i), i, e.chan, e, s, Tag(st.history.nextPid, e.chan, s)), [Client(s, e)])
  {
    var order := Enumeration(Members(st.store, e.chan));
    run := ClientRuns(st, i, s, e, order);
    assert Commands(run)[1..] == [];
  }

  /** A client event that is published, under the next number. */
  lemma EventHandled(st: Cluster, i: InstanceId, s: SocketId, e: Raw) returns (run: seq<Label>)
    requires Serves(st, i, s)
    ensures var req := S.Client(e, st.history.nextPid);
      Does(st, i, run, S.Handle(WorldAt(st, i), i, s, true, req), PublishedBy(st.nodes[i].app, s, req))
  {
    var a, w := st.nodes[i].app, WorldAt(st, i);
    if e.chan !in a.channels {
      run := AnswerRuns(st, i, s, S.NoChannel(e.chan));
    } else if !NeedsSignature(e.chan) {
      run := AnswerRuns(st, i, s, S.NOT_ALLOWED);
    } else {
      run := PublishRuns(st, i, s, e);
      if e.payload.None? {
        var sent := Published(w, i, e.chan, e, s, Tag(st.history.nextPid, e.chan, s));
        run := ThenAnswers(st, i, s, run, sent, [Client(s, e)], S.RECONNECT);
      }
    }
  }

  /** With user events off, after the notice. */
  lemma NoticeHandled(st: Cluster, i: InstanceId, s: SocketId, e: Raw) returns (pid: nat, run: seq<Label>)
    requires Serves(st, i, s)
    ensures Does(st, i, run, S.Handle(WorldAt(st, i), i, s, false, S.Client(e, pid)), PublishedBy(st.nodes[i].app, s, S.Client(e, pid)))
  {
    var w := WorldAt(st, i);
    var told := S.Say(w, s, S.USER_EVENTS_OFF);
    var notice := AnswerRuns(st, i, s, S.USER_EVENTS_OFF);
    WorldAfter(st, i, notice, told, []);
    var st1 := After(st, notice);
    pid := st1.history.nextPid;
    run := EventHandled(st1, i, s, e);
    NoticeFirst(w, i, s, e, pid);
    var published := PublishedBy(st.nodes[i].app, s, S.Client(e, pid));
    DoesBoth(st, i, notice, told, [], run, S.Handle(told, i, s, true, S.Client(e, pid)), published);
    assert [] + published == published;
    run := notice + run;
  }

  /** Every request of a socket that the instance serves is a run of its instance. */
  lemma RequestRuns(
    st: Cluster, i: InstanceId, s: SocketId, userEvents: bool, req: S.Request) returns (numbered: S.Request, run: seq<Label>)
    requires Serves(st, i, s)
    ensures SameRead(S.Got(req), S.Got(numbered))
    ensures Does(st, i, run, S.Handle(WorldAt(st, i), i, s, userEvents, numbered), PublishedBy(st.nodes[i].app, s, numbered))
  {
    numbered := req;
    match req
    case Ping => run := AnswerRuns(st, i, s, Pong);
    case Subscribe(c, d, authOk) => run := SubscribeHandled(st, i, s, userEvents, c, d, authOk);
    case Unsubscribe(c) => run := UnsubscribeHandled(st, i, s, userEvents, c);
    case Client(e, _) =>
      if userEvents {
        numbered := S.Client(e, st.history.nextPid);
        run := EventHandled(st, i, s, e);
      } else {
        var pid;
        pid, run := NoticeHandled(st, i, s, e);
        numbered := S.Client(e, pid);
      }
    case Garbled => run := AnswerRuns(st, i, s, S.RECONNECT);
    case Unknown =>
      run := [];
      NothingDone(st, i);
  }

  lemma EventKeepsConns(w: World, i: InstanceId, s: SocketId, e: Raw, pid: nat)
    ensures S.Handle(w, i, s, true, S.Client(e, pid)).app.conns == w.app.conns
  {
    var op := Send(e.chan, e, s, Tag(pid, e.chan, s));
    var counted := Apply(w.app, Op.Count);
    assert Apply(counted, op).conns == w.app.conns;
  }

  lemma SaidKeepsConns(w: World, s: SocketId, m: Msg)
    ensures S.Say(w, s, m).app.conns == w.app.conns
  {
  }

  /** A subscribe only answers, or enters the channel and may answer. */
  lemma SubscribeIs(w: World, i: InstanceId, s: SocketId, userEvents: bool, c: string, d: ChannelData, authOk: bool)
    ensures var v, entered := S.Handle(w, i, s, userEvents, S.Subscribe(c, d, authOk)), Entered(Created(w, i, c), i, c, s, d);
      v == entered || v == S.Say(entered, s, S.RECONNECT) ||
      v == S.Say(w, s, S.RECONNECT) || v == S.Say(w, s, S.BAD_NAME) || v == S.Say(w, s, S.BadAuth(c))
  {
  }

  lemma SubscribeKeepsConns(
    w: World, i: InstanceId, s: SocketId, userEvents: bool, c: string, d: ChannelData, authOk: bool)
    ensures S.Handle(w, i, s, userEvents, S.Subscribe(c, d, authOk)).app.conns == w.app.conns
  {
    var entered := Entered(Created(w, i, c), i, c, s, d);
    SubscribeIs(w, i, s, userEvents, c, d, authOk);
    ConnsKept(w, i, s, c, d);
    SaidKeepsConns(entered, s, S.RECONNECT);
    SaidKeepsConns(w, s, S.RECONNECT);
    SaidKeepsConns(w, s, S.BAD_NAME);
    SaidKeepsConns(w, s, S.BadAuth(c));
  }

  lemma UnsubscribeKeepsConns(w: World, i: InstanceId, s: SocketId, userEvents: bool, c: string)
    ensures S.Handle(w, i, s, userEvents, S.Unsubscribe(c)).app.conns == w.app.conns
  {
    LeftChannels(w, c, s);
  }

  /** Requests leave the connections alone. */
  lemma RequestKeepsConns(w: World, i: InstanceId, s: SocketId, userEvents: bool, req: S.Request)
    ensures S.Handle(w, i, s, userEvents, req).app.conns == w.app.conns
  {
    match req
    case Subscribe(c, d, authOk) => SubscribeKeepsConns(w, i, s, userEvents, c, d, authOk);
    case Unsubscribe(c) => UnsubscribeKeepsConns(w, i, s, userEvents, c);
    case Client(e, pid) =>
      if userEvents {
        EventKeepsConns(w, i, s, e, pid);
      } else {
        NoticeFirst(w, i, s, e, pid);
        EventKeepsConns(S.Say(w, s, S.USER_EVENTS_OFF), i, s, e, pid);
      }
    case _ =>
  }

  // ---------- the loop ----------

  lemma {:induction false} LoopRuns(st: Cluster, i: InstanceId, s: SocketId, userEvents: bool, inbox: seq<S.Read>)
    returns (numbered: seq<S.Read>, run: seq<Label>)
    requires Serves(st, i, s)
    ensures SameReads(inbox, numbered)
    ensures var w := WorldAt(st, i);
      Does(st, i, run, S.Loop(w, i, s, userEvents, numbered), AllPublished(w, i, s, userEvents, numbered))
    decreases |inbox|
  {
    var w := WorldAt(st, i);
    if inbox == [] || !inbox[0].Got? {
      numbered := inbox;
      run := LastReadRuns(st, i, s, userEvents, inbox);
    } else {
      var req, first := RequestRuns(st, i, s, userEvents, inbox[0].req);
      var next := S.Handle(w, i, s, userEvents, req);
      WorldAfter(st, i, first, next, PublishedBy(w.app, s, req));
      RequestKeepsConns(w, i, s, userEvents, req);
      numbered, run := LoopRuns(After(st, first), i, s, userEvents, inbox[1..]);
      DoesBoth(st, i, first, next, PublishedBy(w.app, s, req),
               run, S.Loop(next, i, s, userEvents, numbered), AllPublished(next, i, s, userEvents, numbered));
      FirstRead(inbox, req, numbered);
      numbered, run := [S.Got(req)] + numbered, first + run;
    }
  }

  lemma FirstRead(inbox: seq<S.Read>, req: S.Request, rest: seq<S.Read>)
    requires inbox != [] && inbox[0].Got? && SameRead(inbox[0], S.Got(req)) && SameReads(inbox[1..], rest)
    ensures SameReads(inbox, [S.Got(req)] + rest) && ([S.Got(req)] + rest)[1..] == rest
  {
    forall k | 0 <= k < |inbox|
      ensures SameRead(inbox[k], ([S.Got(req)] + rest)[k])
    {
      assert k > 0 ==> SameRead(inbox[1..][k - 1], rest[k - 1]);
    }
  }

  /** The read that ends the loop, or the end of the input. */
  lemma LastReadRuns(
    st: Cluster, i: InstanceId, s: SocketId, userEvents: bool, inbox: seq<S.Read>) returns (run: seq<Label>)
    requires Serves(st, i, s) && (inbox != [] ==> !inbox[0].Got?)
    ensures Does(st, i, run, S.Loop(WorldAt(st, i), i, s, userEvents, inbox), [])
  {
    if inbox == [] || (inbox[0].Failed? && inbox[0].quiet) {
      run := [];
      NothingDone(st, i);
    } else {
      run := AnswerRuns(st, i, s, S.RECONNECT);
    }
  }

  // ---------- the whole session ----------

  lemma OpenRuns(st: Cluster, i: InstanceId, s: SocketId) returns (run: seq<Label>)
    requires i in st.nodes && st.nodes[i].task.Idle? && s !in st.history.used && s != ""
    ensures Does(st, i, run, S.Opened(WorldAt(st, i), i, s), [])
  {
    run := ConnectRuns(st, i, s);
    assert Commands(run)[1..] == [];
    run := ThenAnswers(st, i, s, run, Connected(WorldAt(st, i), i, s), [], Established(s));
  }

  lemma CloseRuns(st: Cluster, i: InstanceId, s: SocketId) returns (order: seq<string>, run: seq<Label>)
    requires Serves(st, i, s)
    ensures Lists(order, st.nodes[i].app.channels.Keys) && Does(st, i, run, Disconnected(WorldAt(st, i), s, order), [])
  {
    order := Enumeration(st.nodes[i].app.channels.Keys);
    run := DisconnectRuns(st, i, s, order);
    assert Commands(run)[1..] == [];
  }

  lemma {:induction false} LoopKeepsConns(w: World, i: InstanceId, s: SocketId, userEvents: bool, inbox: seq<S.Read>)
    ensures S.Loop(w, i, s, userEvents, inbox).app.conns == w.app.conns
    decreases |inbox|
  {
    if inbox != [] && inbox[0].Got? {
      RequestKeepsConns(w, i, s, userEvents, inbox[0].req);
      LoopKeepsConns(S.Handle(w, i, s, userEvents, inbox[0].req), i, s, userEvents, inbox[1..]);
    }
  }

  /** A greeting, and the loop after it. */
  lemma GreetedRuns(st: Cluster, i: InstanceId, s: SocketId, userEvents: bool, inbox: seq<S.Read>)
    returns (numbered: seq<S.Read>, run: seq<Label>)
    requires i in st.nodes && st.nodes[i].task.Idle? && s !in st.history.used && s != ""
    ensures SameReads(inbox, numbered)
    ensures var start := S.Opened(WorldAt(st, i), i, s);
      && Does(st, i, run, S.Loop(start, i, s, userEvents, numbered), AllPublished(start, i, s, userEvents, numbered))
      && s in S.Loop(start, i, s, userEvents, numbered).app.conns
  {
    var start := S.Opened(WorldAt(st, i), i, s);
    var open := OpenRuns(st, i, s);
    WorldAfter(st, i, open, start, []);
    numbered, run := LoopRuns(After(st, open), i, s, userEvents, inbox);
    var published := AllPublished(start, i, s, userEvents, numbered);
    DoesBoth(st, i, open, start, [], run, S.Loop(start, i, s, userEvents, numbered), published);
    LoopKeepsConns(start, i, s, userEvents, numbered);
    assert [] + published == published;
    run := open + run;
  }

  /** The session up to its close. */
  lemma BeforeCloseRuns(st: Cluster, i: InstanceId, s: SocketId, greeted: bool, userEvents: bool, inbox: seq<S.Read>)
    returns (numbered: seq<S.Read>, run: seq<Label>)
    requires i in st.nodes && st.nodes[i].task.Idle? && s !in st.history.used && s != ""
    ensures SameReads(inbox, numbered)
    ensures var w := WorldAt(st, i);
      Does(st, i, run, S.BeforeClose(w, i, s, greeted, userEvents, numbered),
           if greeted then AllPublished(S.Opened(w, i, s), i, s, userEvents, numbered) else [])
    ensures s in S.BeforeClose(WorldAt(st, i), i, s, greeted, userEvents, numbered).app.conns
  {
    if greeted {
      numbered, run := GreetedRuns(st, i, s, userEvents, inbox);
    } else {
      numbered := inbox;
      run := OpenRuns(st, i, s);
    }
  }

  /**
   A session of a fresh socket on an instance at rest, whatever it receives, is a run of the cluster in which
   only that instance moves. Its publications are exactly the client events to private and presence
   channels that are there when they arrive.
   */
  lemma SessionIsARun(st: Cluster, i: InstanceId, s: SocketId, greeted: bool, userEvents: bool, inbox: seq<S.Read>)
    returns (numbered: seq<S.Read>, order: seq<string>, run: seq<Label>)
    requires i in st.nodes && st.nodes[i].task.Idle? && s !in st.history.used && s != ""
    ensures SameReads(inbox, numbered)
    ensures Lists(order, S.BeforeClose(WorldAt(st, i), i, s, greeted, userEvents, numbered).app.channels.Keys)
    ensures Reaches(st, i, run, Idle, S.Whole(WorldAt(st, i), i, s, greeted, userEvents, numbered, order))
    ensures Publications(Commands(run)) ==
      if greeted then AllPublished(S.Opened(WorldAt(st, i), i, s), i, s, userEvents, numbered) else []
  {
    var w := WorldAt(st, i);
    numbered, run := BeforeCloseRuns(st, i, s, greeted, userEvents, inbox);
    var before := S.BeforeClose(w, i, s, greeted, userEvents, numbered);
    var published := if greeted then AllPublished(S.Opened(w, i, s), i, s, userEvents, numbered) else [];
    WorldAfter(st, i, run, before, published);
    var close;
    order, close := CloseRuns(After(st, run), i, s);
    DoesBoth(st, i, run, before, published, close, Disconnected(before, s, order), []);
    assert published + [] == published;
    run := run + close;
  }

  // ---------- a POST ----------

  /** Only the numbers of the channels served so far matter. */
  lemma {:induction false} SameNumbers(
    w: World, i: InstanceId, chans: seq<string>, n: nat, e: Raw, ignore: SocketId, a: nat -> nat, b: nat -> nat)
    requires n <= |chans| && forall k :: 0 <= k < n ==> a(k) == b(k)
    ensures Posted(w, i, chans, n, e, ignore, a) == Posted(w, i, chans, n, e, ignore, b)
  {
    if n > 0 {
      SameNumbers(w, i, chans, n - 1, e, ignore, a, b);
    }
  }

  /** Where a POST stands after `n` channels. */
  function Remaining(chans: seq<string>, n: nat, e: Raw, ignore: SocketId): Task
    requires n <= |chans|
  {
    if n == |chans| then Idle else Posting(chans[n..], e.name, e.payload, ignore)
  }

  /** The instance has served the first `n` channels and goes on with the others. */
  ghost predicate Serving(
    st: Cluster, w: World, i: InstanceId, chans: seq<string>, n: nat, e: Raw, ignore: SocketId, number: nat -> nat)
    requires n <= |chans|
  {
    && i in st.nodes && st.nodes[i].task == Remaining(chans, n, e, ignore)
    && WorldAt(st, i) == Posted(w, i, chans, n, e, ignore, number)
  }

  /** One more channel. */
  lemma ServesNext(
    st: Cluster, w: World, i: InstanceId, chans: seq<string>, n: nat, e: Raw, ignore: SocketId, number: nat -> nat)
    returns (more: nat -> nat, run: seq<Label>)
    requires n < |chans| && Serving(st, w, i, chans, n, e, ignore, number)
    ensures Reaches(st, i, run, Remaining(chans, n + 1, e, ignore), Posted(w, i, chans, n + 1, e, ignore, more))
    ensures Commands(run) == []
  {
    var pid := st.history.nextPid;
    var job := Job(Raw(e.name, chans[n], e.payload), Tag(pid, chans[n], ignore), chans[n + 1..]);
    more := k => if k == n then pid else number(k);
    assert chans[n..] == [chans[n]] + chans[n + 1..];
    var order := Enumeration(Members(st.store, chans[n]));
    run := PostingRuns(st, i, job, order);
    SameNumbers(w, i, chans, n, e, ignore, number, more);
    PostedNext(w, WorldAt(st, i), i, chans, n, e, ignore, more);
    assert chans[n + 1..] == [] <==> n + 1 == |chans|;
  }

  lemma ServingAfter(
    st: Cluster, run: seq<Label>, w: World, i: InstanceId, chans: seq<string>, n: nat, e: Raw, ignore: SocketId, number: nat -> nat)
    requires n <= |chans| && Reaches(st, i, run, Remaining(chans, n, e, ignore), Posted(w, i, chans, n, e, ignore, number))
    ensures Serving(After(st, run), w, i, chans, n, e, ignore, number)
  {
  }

  /** Two runs without commands, one after the other. */
  lemma BothQuiet(st: Cluster, i: InstanceId, a: seq<Label>, t: Task, w: World, b: seq<Label>, x: World) returns (run: seq<Label>)
    requires Reaches(st, i, a, t, w) && Commands(a) == [] && Reaches(After(st, a), i, b, Idle, x) && Commands(b) == []
    ensures Reaches(st, i, run, Idle, x) && Commands(run) == []
  {
    ReachesBoth(st, i, a, t, w, b, Idle, x);
    run := a + b;
  }

  lemma ServedAll(
    st: Cluster, w: World, i: InstanceId, chans: seq<string>, e: Raw, ignore: SocketId, number: nat -> nat)
    returns (run: seq<Label>)
    requires Serving(st, w, i, chans, |chans|, e, ignore, number)
    ensures Reaches(st, i, run, Idle, Posted(w, i, chans, |chans|, e, ignore, number)) && Commands(run) == []
  {
    run := [];
    Nothing(st, i);
  }

  lemma {:induction false} ServesAll(
    st: Cluster, w: World, i: InstanceId, chans: seq<string>, n: nat, e: Raw, ignore: SocketId, number: nat -> nat)
    returns (all: nat -> nat, run: seq<Label>)
    requires n <= |chans| && Serving(st, w, i, chans, n, e, ignore, number)
    ensures Reaches(st, i, run, Idle, Posted(w, i, chans, |chans|, e, ignore, all)) && Commands(run) == []
    decreases |chans| - n
  {
    if n == |chans| {
      all := number;
      run := ServedAll(st, w, i, chans, e, ignore, number);
    } else {
      var more, first := ServesNext(st, w, i, chans, n, e, ignore, number);
      ServingAfter(st, first, w, i, chans, n + 1, e, ignore, more);
      all, run := ServesAll(After(st, first), w, i, chans, n + 1, e, ignore, more);
      run := BothQuiet(st, i, first, Remaining(chans, n + 1, e, ignore), Posted(w, i, chans, n + 1, e, ignore, more),
                       run, Posted(w, i, chans, |chans|, e, ignore, all));
    }
  }

  lemma PostOpens(st: Cluster, i: InstanceId, chans: seq<string>, e: Raw, ignore: SocketId)
    requires i in st.nodes && st.nodes[i].task.Idle?
    ensures Moves(st, i, Start(Post(chans, e.name, e.payload, ignore)), Posting(chans, e.name, e.payload, ignore), WorldAt(st, i))
  {
  }

  lemma NoChannelsSteps(st: Cluster, i: InstanceId, e: Raw, ignore: SocketId)
    requires i in st.nodes && st.nodes[i].task == Posting([], e.name, e.payload, ignore)
    ensures Moves(st, i, Go, Idle, WorldAt(st, i))
  {
  }

  /** A POST that an instance at rest serves is a run of the cluster too: every channel in turn, in the order of the list. */
  lemma PostIsARun(
    st: Cluster, i: InstanceId, chans: seq<string>, e: Raw, ignore: SocketId) returns (number: nat -> nat, run: seq<Label>)
    requires i in st.nodes && st.nodes[i].task.Idle?
    ensures Reaches(st, i, run, Idle, Posted(WorldAt(st, i), i, chans, |chans|, e, ignore, number))
    ensures Commands(run) == [Post(chans, e.name, e.payload, ignore)]
  {
    var act := Start(Post(chans, e.name, e.payload, ignore));
    var task, w := Posting(chans, e.name, e.payload, ignore), WorldAt(st, i);
    PostOpens(st, i, chans, e, ignore);
    var st1 := Next(st, Label(i, act));
    number := k => k;
    if chans == [] {
      NoChannelsSteps(st1, i, e, ignore);
      run := LastStep(st1, i, Go, Idle, w);
    } else {
      assert chans[0..] == chans;
      number, run := ServesAll(st1, w, i, chans, 0, e, ignore, number);
    }
    run := Step(st, i, act, task, w, run, Idle, Posted(w, i, chans, |chans|, e, ignore, number));
  }
}
