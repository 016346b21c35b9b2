/** What a client is answered, and what its requests leave alone. */
module Answers {
  import opened Types
  import opened Names
  import opened Instance
  import opened Registry
  import opened Handlers
  import opened Session
  import opened Output
  import opened Messages

  /** A frame that answers the socket itself: the greeting, a pong or an error. */
  predicate IsAnswer(m: Msg) { m.Established? || m.Pong? || m.Error? }

  /** The answers in a log, in order. */
  function AnswersIn(log: seq<Msg>): seq<Msg> {
    if log == [] then [] else AnswersIn(log[..|log| - 1]) + if IsAnswer(log[|log| - 1]) then [log[|log| - 1]] else []
  }

  ghost function AnswersOf(w: World, s: SocketId): seq<Msg> { AnswersIn(LogOf(w.app.logs, s)) }

  // ---------- which request gets which answer ----------

  predicate NeedsSignature(c: string) { IsPresence(c) || IsPrivate(c) }

  /** The answers to one request, of a socket on an instance. */
  ghost function AnswersTo(a: App, s: SocketId, userEvents: bool, req: Request): seq<Msg> {
    match req
    case Ping => [Pong]
    case Subscribe(c, d, authOk) =>
      if s !in a.conns then [Error(4200, "Generic reconnect immediately")]
      else if !IsChannelNameValid(c) then [Error(0, "This channel name is not valid")]
      else if NeedsSignature(c) && !authOk then [Error(0, "Auth value for subscription to " + c + " is invalid")]
      else if Refused(c, d) then [Error(4200, "Generic reconnect immediately")]
      else []
    case Unsubscribe(c) =>
      if s !in a.conns then [Error(0, "Could not find a connection with the id " + s)]
      else if c !in a.channels then [Error(0, "Could not find a channel with the id " + c)]
      else if !Subscribed(a, c, s) then [Error(4200, "Generic reconnect immediately")]
      else []
    case Client(e, _) =>
      (if userEvents then [] else [Error(0, "To send client events, you must enable this feature in the Settings.")]) +
      (if e.chan !in a.channels then [Error(0, "Could not find a channel with the id " + e.chan)]
       else if !NeedsSignature(e.chan) then [Error(0, "Client event rejected - only supported on private and presence channels")]
       else if e.payload.None? then [Error(4200, "Generic reconnect immediately")]
       else [])
    case Garbled => [Error(4200, "Generic reconnect immediately")]
    case Unknown => []
  }

  /** The request is answered and otherwise ignored. */
  ghost predicate IsTurnedDown(a: App, s: SocketId, req: Request) {
    match req
    case Subscribe(c, _, authOk) => s !in a.conns || !IsChannelNameValid(c) || (NeedsSignature(c) && !authOk)
    case Unsubscribe(c) => s !in a.conns || !Subscribed(a, c, s)
    case Client(e, _) => e.chan !in a.channels || !NeedsSignature(e.chan)
    case _ => true
  }

  // ---------- one change ----------

  lemma AnswersMore(log: seq<Msg>, more: seq<Msg>)
    requires |more| <= 1
    ensures AnswersIn(log + more) == AnswersIn(log) + if more != [] && IsAnswer(more[0]) then more else []
  {
    if more == [] {
      assert log + more == log;
    } else {
      assert (log + more)[..|log|] == log && more == [more[0]];
    }
  }

  lemma WrittenAnswers(a: App, op: Op, s: SocketId)
    ensures |Written(a, op, s)| <= 1
    ensures Written(a, op, s) != [] && IsAnswer(Written(a, op, s)[0]) <==> op.Reply? && op.s == s && IsAnswer(op.m)
    ensures op.Reply? && op.s == s ==> Written(a, op, s) == [op.m]
  {
  }

  /** Only a reply answers. */
  lemma AnswersAfter(w: World, op: Op, s: SocketId)
    ensures AnswersOf(Local(w, op), s) == AnswersOf(w, s) + if op.Reply? && op.s == s && IsAnswer(op.m) then [op.m] else []
  {
    WritesExactly(w.app, op, s);
    WrittenAnswers(w.app, op, s);
    AnswersMore(LogOf(w.app.logs, s), Written(w.app, op, s));
  }

  /** Nobody is answered. */
  ghost predicate Unanswered(w: World, v: World) { forall s :: AnswersOf(v, s) == AnswersOf(w, s) }

  lemma LocalUnanswered(w: World, op: Op)
    requires !op.Reply?
    ensures Unanswered(w, Local(w, op))
  {
    forall s: SocketId
      ensures AnswersOf(Local(w, op), s) == AnswersOf(w, s)
    {
      AnswersAfter(w, op, s);
    }
  }

  lemma ConnectedUnanswered(w: World, i: InstanceId, s: SocketId)
    ensures Unanswered(w, Connected(w, i, s))
  {
    LocalUnanswered(Redis(w, SetConn(s, i)), AddConn(s));
  }

  lemma CreatedUnanswered(w: World, i: InstanceId, c: string)
    ensures Unanswered(w, Created(w, i, c))
  {
    LocalUnanswered(w, AddChan(c));
  }

  lemma EnteredUnanswered(w: World, i: InstanceId, c: string, s: SocketId, d: ChannelData)
    ensures Unanswered(w, Entered(w, i, c, s, d))
  {
    LocalUnanswered(w, Enter(c, s, d));
  }

  lemma LeftUnanswered(w: World, c: string, s: SocketId)
    ensures Unanswered(w, Left(w, c, s))
  {
    if Subscribed(w.app, c, s) {
      LocalUnanswered(w, Exit(c, s));
      LocalUnanswered(MirroredLeave(Local(w, Exit(c, s)), c, s), DropChan(c));
    }
  }

  lemma {:induction false} LeftAllUnanswered(w: World, s: SocketId, order: seq<string>)
    ensures Unanswered(w, LeftAll(w, s, order))
    decreases |order|
  {
    if order != [] {
      LeftUnanswered(w, order[0], s);
      LeftAllUnanswered(Left(w, order[0], s), s, order[1..]);
    }
  }

  lemma DisconnectedUnanswered(w: World, s: SocketId, order: seq<string>)
    ensures Unanswered(w, Disconnected(w, s, order))
  {
    LeftAllUnanswered(w, s, order);
    LocalUnanswered(Redis(LeftAll(w, s, order), RedisOp.DelConn(s)), DropConn(s));
  }

  lemma PublishedUnanswered(w: World, i: InstanceId, c: string, e: Raw, ignore: SocketId, tag: Tag)
    ensures Unanswered(w, Published(w, i, c, e, ignore, tag))
  {
    LocalUnanswered(w, Op.Count);
    LocalUnanswered(Local(w, Op.Count), Send(c, e, ignore, tag));
  }

  // ---------- one request ----------

  /** The socket is answered so, and nobody else is. */
  ghost predicate AnsweredWith(w: World, v: World, s: SocketId, more: seq<Msg>) {
    forall t :: AnswersOf(v, t) == AnswersOf(w, t) + if t == s then more else []
  }

  lemma SaidAnswers(w: World, s: SocketId, m: Msg)
    requires IsAnswer(m)
    ensures AnsweredWith(w, Say(w, s, m), s, [m])
  {
    forall t: SocketId
      ensures AnswersOf(Say(w, s, m), t) == AnswersOf(w, t) + if t == s then [m] else []
    {
      AnswersAfter(w, Reply(s, m), t);
    }
  }

  lemma BothAnswer(w: World, v: World, u: World, s: SocketId, more: seq<Msg>, last: seq<Msg>)
    requires AnsweredWith(w, v, s, more) && AnsweredWith(v, u, s, last)
    ensures AnsweredWith(w, u, s, more + last)
  {
  }

  lemma NoAnswer(w: World, v: World, s: SocketId)
    requires Unanswered(w, v)
    ensures AnsweredWith(w, v, s, [])
  {
    forall t: SocketId
      ensures AnswersOf(w, t) + (if t == s then [] else []) == AnswersOf(w, t)
    {
    }
  }

  lemma SubscribeAnswers(
    w: World, i: InstanceId, s: SocketId, userEvents: bool, c: string, d: ChannelData, authOk: bool)
    ensures AnsweredWith(w, Handle(w, i, s, userEvents, Subscribe(c, d, authOk)), s, AnswersTo(w.app, s, userEvents, Subscribe(c, d, authOk)))
  {
    if s !in w.app.conns {
      SaidAnswers(w, s, RECONNECT);
    } else if !IsChannelNameValid(c) {
      SaidAnswers(w, s, BAD_NAME);
    } else if NeedsSignature(c) && !authOk {
      SaidAnswers(w, s, BadAuth(c));
    } else {
      var entered := Entered(Created(w, i, c), i, c, s, d);
      CreatedUnanswered(w, i, c);
      EnteredUnanswered(Created(w, i, c), i, c, s, d);
      NoAnswer(w, entered, s);
      SaidAnswers(entered, s, RECONNECT);
      BothAnswer(w, entered, Say(entered, s, RECONNECT), s, [], [RECONNECT]);
      assert [] + [RECONNECT] == [RECONNECT];
    }
  }

  lemma UnsubscribeAnswers(w: World, i: InstanceId, s: SocketId, userEvents: bool, c: string)
    ensures AnsweredWith(w, Handle(w, i, s, userEvents, Unsubscribe(c)), s, AnswersTo(w.app, s, userEvents, Unsubscribe(c)))
  {
    if s !in w.app.conns {
      SaidAnswers(w, s, Error(0, "Could not find a connection with the id " + s));
    } else if c !in w.app.channels {
      SaidAnswers(w, s, NoChannel(c));
    } else if !Subscribed(w.app, c, s) {
      SaidAnswers(w, s, RECONNECT);
    } else {
      LeftUnanswered(w, c, s);
      NoAnswer(w, Left(w, c, s), s);
    }
  }

  /** The answers after the user-events check. */
  lemma EventAnswers(w: World, i: InstanceId, s: SocketId, e: Raw, pid: nat)
    ensures AnsweredWith(w, Handle(w, i, s, true, Client(e, pid)), s, AnswersTo(w.app, s, true, Client(e, pid)))
  {
    if e.chan !in w.app.channels {
      SaidAnswers(w, s, NoChannel(e.chan));
    } else if !NeedsSignature(e.chan) {
      SaidAnswers(w, s, NOT_ALLOWED);
    } else {
      var sent := Published(w, i, e.chan, e, s, Tag(pid, e.chan, s));
      PublishedUnanswered(w, i, e.chan, e, s, Tag(pid, e.chan, s));
      NoAnswer(w, sent, s);
      SaidAnswers(sent, s, RECONNECT);
      BothAnswer(w, sent, Say(sent, s, RECONNECT), s, [], [RECONNECT]);
    }
  }

  /** With user events off, the notice comes first and nothing else is different. */
  lemma NoticeFirst(w: World, i: InstanceId, s: SocketId, e: Raw, pid: nat)
    ensures var told := Say(w, s, USER_EVENTS_OFF);
      && Handle(w, i, s, false, Client(e, pid)) == Handle(told, i, s, true, Client(e, pid))
      && AnswersTo(told.app, s, true, Client(e, pid)) == AnswersTo(w.app, s, true, Client(e, pid))
    ensures AnswersTo(w.app, s, false, Client(e, pid)) == [USER_EVENTS_OFF] + AnswersTo(w.app, s, true, Client(e, pid))
  {
  }

  lemma ClientAnswers(w: World, i: InstanceId, s: SocketId, userEvents: bool, e: Raw, pid: nat)
    ensures AnsweredWith(w, Handle(w, i, s, userEvents, Client(e, pid)), s, AnswersTo(w.app, s, userEvents, Client(e, pid)))
  {
    if userEvents {
      EventAnswers(w, i, s, e, pid);
    } else {
      AfterNotice(w, i, s, e, pid);
    }
  }

  lemma AfterNotice(w: World, i: InstanceId, s: SocketId, e: Raw, pid: nat)
    ensures AnsweredWith(w, Handle(w, i, s, false, Client(e, pid)), s, AnswersTo(w.app, s, false, Client(e, pid)))
  {
    var told := Say(w, s, USER_EVENTS_OFF);
    SaidAnswers(w, s, USER_EVENTS_OFF);
    EventAnswers(told, i, s, e, pid);
    NoticeFirst(w, i, s, e, pid);
    BothAnswer(w, told, Handle(told, i, s, true, Client(e, pid)), s, [USER_EVENTS_OFF], AnswersTo(w.app, s, true, Client(e, pid)));
  }

  /** Every request is answered as it should be, and nobody else is. */
  lemma RequestIsAnswered(w: World, i: InstanceId, s: SocketId, userEvents: bool, req: Request)
    ensures AnsweredWith(w, Handle(w, i, s, userEvents, req), s, AnswersTo(w.app, s, userEvents, req))
  {
    match req
    case Ping => SaidAnswers(w, s, Pong);
    case Subscribe(c, d, authOk) => SubscribeAnswers(w, i, s, userEvents, c, d, authOk);
    case Unsubscribe(c) => UnsubscribeAnswers(w, i, s, userEvents, c);
    case Client(e, pid) => ClientAnswers(w, i, s, userEvents, e, pid);
    case Garbled => SaidAnswers(w, s, RECONNECT);
    case Unknown => NoAnswer(w, w, s);
  }

  // ---------- a whole session ----------

  /** The answers to the requests of a session, up to the read that ends it. */
  ghost function AllAnswers(w: World, i: InstanceId, s: SocketId, userEvents: bool, inbox: seq<Read>): seq<Msg>
    decreases |inbox|
  {
    if inbox == [] then []
    else
      match inbox[0]
      case Got(req) =>
        AnswersTo(w.app, s, userEvents, req) + AllAnswers(Handle(w, i, s, userEvents, req), i, s, userEvents, inbox[1..])
      case NotJson => [Error(4200, "Generic reconnect immediately")]
      case Failed(quiet) => if quiet then [] else [Error(4200, "Generic reconnect immediately")]
  }

  lemma {:induction false} LoopIsAnswered(w: World, i: InstanceId, s: SocketId, userEvents: bool, inbox: seq<Read>)
    ensures AnsweredWith(w, Loop(w, i, s, userEvents, inbox), s, AllAnswers(w, i, s, userEvents, inbox))
    decreases |inbox|
  {
    if inbox != [] && inbox[0].Got? {
      var req := inbox[0].req;
      var next := Handle(w, i, s, userEvents, req);
      RequestIsAnswered(w, i, s, userEvents, req);
      LoopIsAnswered(next, i, s, userEvents, inbox[1..]);
      BothAnswer(w, next, Loop(next, i, s, userEvents, inbox[1..]), s, AnswersTo(w.app, s, userEvents, req),
                 AllAnswers(next, i, s, userEvents, inbox[1..]));
    } else {
      NoAnswer(w, w, s);
      SaidAnswers(w, s, RECONNECT);
    }
  }

  lemma OpenedIsAnswered(w: World, i: InstanceId, s: SocketId)
    ensures AnsweredWith(w, Opened(w, i, s), s, [Established(s)])
  {
    ConnectedUnanswered(w, i, s);
    NoAnswer(w, Connected(w, i, s), s);
    SaidAnswers(Connected(w, i, s), s, Established(s));
    BothAnswer(w, Connected(w, i, s), Opened(w, i, s), s, [], [Established(s)]);
    assert [] + [Established(s)] == [Established(s)];
  }

  /**
   A whole session, whatever it receives: the socket is greeted with its own ID, then every request is
   answered in turn as it should be, and no other socket is answered anything.
   */
  lemma SessionIsAnswered(
    w: World, i: InstanceId, s: SocketId, greeted: bool, userEvents: bool, inbox: seq<Read>, order: seq<string>)
    ensures AnsweredWith(w, Whole(w, i, s, greeted, userEvents, inbox, order), s,
                         [Established(s)] + if greeted then AllAnswers(Opened(w, i, s), i, s, userEvents, inbox) else [])
  {
    var start, before := Opened(w, i, s), BeforeClose(w, i, s, greeted, userEvents, inbox);
    var answers := if greeted then AllAnswers(start, i, s, userEvents, inbox) else [];
    OpenedIsAnswered(w, i, s);
    if greeted {
      LoopIsAnswered(start, i, s, userEvents, inbox);
    } else {
      NoAnswer(start, start, s);
    }
    BothAnswer(w, start, before, s, [Established(s)], answers);
    DisconnectedUnanswered(before, s, order);
  }

  // ---------- what a turned-down request leaves alone ----------

  /** All is as before, but for the frames. */
  ghost predicate OnlyWrites(w: World, v: World) {
    v.store == w.store && v.listeners == w.listeners && v.app == w.app.(logs := v.app.logs)
  }

  /** And these are written to one socket. */
  ghost predicate OnlyWritesTo(w: World, v: World, s: SocketId, more: seq<Msg>) {
    OnlyWrites(w, v) && forall t :: LogOf(v.app.logs, t) == LogOf(w.app.logs, t) + if t == s then more else []
  }

  lemma SaidTo(v: World, s: SocketId, m: Msg, t: SocketId)
    ensures LogOf(Say(v, s, m).app.logs, t) == LogOf(v.app.logs, t) + if t == s then [m] else []
  {
  }

  lemma SaidWrites(w: World, v: World, s: SocketId, m: Msg)
    requires OnlyWrites(w, v)
    ensures OnlyWrites(w, Say(v, s, m))
  {
  }

  lemma SaidOnlyWrites(w: World, v: World, s: SocketId, more: seq<Msg>, m: Msg)
    requires OnlyWritesTo(w, v, s, more)
    ensures OnlyWritesTo(w, Say(v, s, m), s, more + [m])
  {
    var said := Say(v, s, m);
    SaidWrites(w, v, s, m);
    forall t: SocketId
      ensures LogOf(said.app.logs, t) == LogOf(w.app.logs, t) + if t == s then more + [m] else []
    {
      SaidTo(v, s, m, t);
      MoreAppended(LogOf(w.app.logs, t), LogOf(v.app.logs, t), if t == s then more else [], if t == s then [m] else []);
    }
  }

  lemma MoreAppended(log: seq<Msg>, after: seq<Msg>, a: seq<Msg>, b: seq<Msg>)
    requires after == log + a
    ensures after + b == log + (a + b)
  {
  }

  lemma WritesNothing(w: World, s: SocketId)
    ensures OnlyWritesTo(w, w, s, [])
  {
  }

  lemma EventTurnedDown(w: World, i: InstanceId, s: SocketId, e: Raw, pid: nat)
    requires IsTurnedDown(w.app, s, Client(e, pid))
    ensures var m := if e.chan !in w.app.channels then NoChannel(e.chan) else NOT_ALLOWED;
      Handle(w, i, s, true, Client(e, pid)) == Say(w, s, m) && AnswersTo(w.app, s, true, Client(e, pid)) == [m]
  {
  }

  lemma ClientTurnedDown(w: World, i: InstanceId, s: SocketId, userEvents: bool, e: Raw, pid: nat)
    requires IsTurnedDown(w.app, s, Client(e, pid))
    ensures OnlyWritesTo(w, Handle(w, i, s, userEvents, Client(e, pid)), s, AnswersTo(w.app, s, userEvents, Client(e, pid)))
  {
    var m := if e.chan !in w.app.channels then NoChannel(e.chan) else NOT_ALLOWED;
    WritesNothing(w, s);
    if userEvents {
      EventTurnedDown(w, i, s, e, pid);
      SaidOnlyWrites(w, w, s, [], m);
      assert [] + [m] == [m];
    } else {
      var told := Say(w, s, USER_EVENTS_OFF);
      NoticeFirst(w, i, s, e, pid);
      EventTurnedDown(told, i, s, e, pid);
      SaidOnlyWrites(w, w, s, [], USER_EVENTS_OFF);
      assert [] + [USER_EVENTS_OFF] == [USER_EVENTS_OFF];
      SaidOnlyWrites(w, told, s, [USER_EVENTS_OFF], m);
    }
  }

  /** A request that is turned down leaves everything as it was, but for its answer. */
  lemma TurnedDownLeavesAll(w: World, i: InstanceId, s: SocketId, userEvents: bool, req: Request)
    requires IsTurnedDown(w.app, s, req)
    ensures OnlyWritesTo(w, Handle(w, i, s, userEvents, req), s, AnswersTo(w.app, s, userEvents, req))
  {
    if req.Client? {
      ClientTurnedDown(w, i, s, userEvents, req.e, req.pid);
    } else {
      var answers := AnswersTo(w.app, s, userEvents, req);
      WritesNothing(w, s);
      if answers != [] {
        assert answers == [] + [answers[0]];
        SaidOnlyWrites(w, w, s, [], answers[0]);
      }
    }
  }

  /**
   A client event to a channel that is neither private nor presence: the registry, the listeners, the
   webhooks, the counters, the subscriptions and every other socket's log stay as they were, and the
   sender gets nothing but errors.
   */
  lemma PublicClientEventIsTurnedDown(w: World, i: InstanceId, s: SocketId, userEvents: bool, e: Raw, pid: nat)
    requires !IsPresence(e.chan) && !IsPrivate(e.chan)
    ensures var v := Handle(w, i, s, userEvents, Client(e, pid));
      && v.store == w.store && v.listeners == w.listeners && v.app.hooks == w.app.hooks && v.app.stats == w.app.stats
      && v.app.channels == w.app.channels && v.app.conns == w.app.conns && v.app.markers == w.app.markers
      && (forall t :: t != s ==> LogOf(v.app.logs, t) == LogOf(w.app.logs, t))
      && IsErrors(LogOf(w.app.logs, s), LogOf(v.app.logs, s))
  {
    ClientTurnedDown(w, i, s, userEvents, e, pid);
    PublicAnswers(w.app, s, userEvents, e, pid);
    MoreErrors(LogOf(w.app.logs, s), AnswersTo(w.app, s, userEvents, Client(e, pid)));
  }

  /** A log that has grown by one or more frames, all of them errors. */
  ghost predicate IsErrors(before: seq<Msg>, after: seq<Msg>) {
    before < after && forall k :: |before| <= k < |after| ==> after[k].Error?
  }

  lemma MoreErrors(log: seq<Msg>, errors: seq<Msg>)
    requires errors != [] && forall k :: 0 <= k < |errors| ==> errors[k].Error?
    ensures IsErrors(log, log + errors)
  {
  }

  lemma PublicAnswers(a: App, s: SocketId, userEvents: bool, e: Raw, pid: nat)
    requires !NeedsSignature(e.chan)
    ensures var errors := AnswersTo(a, s, userEvents, Client(e, pid)); errors != [] && forall k :: 0 <= k < |errors| ==> errors[k].Error?
  {
    var m := if e.chan !in a.channels then NoChannel(e.chan) else NOT_ALLOWED;
    AllErrors(if userEvents then [] else [USER_EVENTS_OFF], [m]);
  }

  lemma AllErrors(a: seq<Msg>, b: seq<Msg>)
    requires forall m :: m in a ==> m.Error?
    requires forall m :: m in b ==> m.Error?
    ensures forall k :: 0 <= k < |a + b| ==> (a + b)[k].Error?
  {
  }

  // ---------- what a request counts ----------

  /** The client event is published: its channel is there, and private or presence. */
  predicate IsPublished(a: App, req: Request) {
    req.Client? && req.e.chan in a.channels && NeedsSignature(req.e.chan)
  }

  lemma LocalUnique(w: World, op: Op)
    ensures Unique(Local(w, op).app) == Unique(w.app) + if op.Count? then 1 else 0
  {
    UniqueAfter(w.app, op);
  }

  lemma EnteredUnique(w: World, i: InstanceId, c: string, s: SocketId, d: ChannelData)
    ensures Unique(Entered(Created(w, i, c), i, c, s, d).app) == Unique(w.app)
  {
    LocalUnique(w, AddChan(c));
    LocalUnique(Created(w, i, c), Enter(c, s, d));
  }

  lemma LeftUnique(w: World, c: string, s: SocketId)
    ensures Unique(Left(w, c, s).app) == Unique(w.app)
  {
    if Subscribed(w.app, c, s) {
      LocalUnique(w, Exit(c, s));
      LocalUnique(MirroredLeave(Local(w, Exit(c, s)), c, s), DropChan(c));
    }
  }

  lemma EventUnique(w: World, i: InstanceId, s: SocketId, e: Raw, pid: nat)
    ensures Unique(Handle(w, i, s, true, Client(e, pid)).app) == Unique(w.app) + if IsPublished(w.app, Client(e, pid)) then 1 else 0
  {
    PublishedCounts(w, i, e.chan, e, s, Tag(pid, e.chan, s));
  }

  /** A published client event raises TotalUniqueMessages by one; no other request moves it. */
  lemma RequestCounts(w: World, i: InstanceId, s: SocketId, userEvents: bool, req: Request)
    ensures Handle(w, i, s, userEvents, req).app.stats.unique == w.app.stats.unique + if IsPublished(w.app, req) then 1 else 0
  {
    match req
    case Subscribe(c, d, authOk) => EnteredUnique(w, i, c, s, d);
    case Unsubscribe(c) => LeftUnique(w, c, s);
    case Client(e, pid) =>
      NoticeFirst(w, i, s, e, pid);
      EventUnique(if userEvents then w else Say(w, s, USER_EVENTS_OFF), i, s, e, pid);
    case _ =>
  }
}
