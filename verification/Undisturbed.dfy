/**
 The steps of the cluster and the handlers of one instance agree: a handler whose steps are
 not interleaved with other instances does what the handler functions say.
 */
module Undisturbed {
  import opened Types
  import opened Names
  import opened Instance
  import opened Registry
  import opened Cluster
  import opened Handlers

  function WorldAt(st: Cluster, i: InstanceId): World
    requires i in st.nodes
  {
    World(st.nodes[i].app, st.store, st.listeners)
  }

  /** An instance gets from one state to another on its own, and ends at a task with a world. */
  ghost predicate Reaches(st: Cluster, i: InstanceId, run: seq<Label>, t: Task, w: World) {
    && i in st.nodes && IsRun(st, run) && (forall l :: l in run ==> l.i == i)
    && var end := After(st, run);
      && end.nodes == st.nodes[i := Node(w.app, t)] && end.store == w.store && end.listeners == w.listeners
  }

  /** The commands that a run starts, in order. */
  function Commands(run: seq<Label>): seq<Command> {
    if run == [] then [] else Opening(run[0].act) + Commands(run[1..])
  }

  function Opening(act: Act): seq<Command> { if act.Start? then [act.cmd] else [] }

  lemma {:induction false} CommandsConcat(a: seq<Label>, b: seq<Label>)
    ensures Commands(a + b) == Commands(a) + Commands(b)
    decreases |a|
  {
    if a == [] {
      assert a + b == b;
    } else {
      assert (a + b)[0] == a[0] && (a + b)[1..] == a[1..] + b;
      CommandsConcat(a[1..], b);
    }
  }

  lemma Nothing(st: Cluster, i: InstanceId)
    requires i in st.nodes
    ensures Reaches(st, i, [], st.nodes[i].task, WorldAt(st, i))
  {
    assert st.nodes == st.nodes[i := st.nodes[i]];
  }

  /** One step of the instance, as a move of its world. */
  ghost predicate Moves(st: Cluster, i: InstanceId, act: Act, t: Task, w: World) {
    Enabled(st, Label(i, act)) &&
    var next := Next(st, Label(i, act));
    next.nodes == st.nodes[i := Node(w.app, t)] && next.store == w.store && next.listeners == w.listeners
  }

  lemma Onward(st: Cluster, i: InstanceId, act: Act, t: Task, w: World, run: seq<Label>, u: Task, x: World)
    requires Moves(st, i, act, t, w) && Reaches(Next(st, Label(i, act)), i, run, u, x)
    ensures Reaches(st, i, [Label(i, act)] + run, u, x)
    ensures Commands([Label(i, act)] + run) == Opening(act) + Commands(run)
  {
    var all := [Label(i, act)] + run;
    assert all[1..] == run && all[0] == Label(i, act);
  }

  // ---------- Connect and Subscribe ----------

  lemma ConnectSteps(st: Cluster, i: InstanceId, s: SocketId)
    requires i in st.nodes && st.nodes[i].task.Idle? && CanStart(st, st.nodes[i].app, Connect(s))
    ensures Moves(st, i, Start(Connect(s)), Connecting(s), Redis(WorldAt(st, i), SetConn(s, i)))
  {
  }

  lemma ConnectingSteps(st: Cluster, i: InstanceId, s: SocketId)
    requires i in st.nodes && st.nodes[i].task == Connecting(s)
    ensures Moves(st, i, Go, Idle, Local(WorldAt(st, i), AddConn(s)))
  {
  }

  /** A step and the run after it. */
  lemma Step(st: Cluster, i: InstanceId, act: Act, t: Task, w: World, rest: seq<Label>, u: Task, x: World) returns (run: seq<Label>)
    requires Moves(st, i, act, t, w) && Reaches(Next(st, Label(i, act)), i, rest, u, x)
    ensures Reaches(st, i, run, u, x) && Commands(run) == Opening(act) + Commands(rest)
  {
    Onward(st, i, act, t, w, rest, u, x);
    run := [Label(i, act)] + rest;
  }

  lemma LastStep(st: Cluster, i: InstanceId, act: Act, t: Task, w: World) returns (run: seq<Label>)
    requires Moves(st, i, act, t, w)
    ensures Reaches(st, i, run, t, w) && Commands(run) == Opening(act)
  {
    var next := Next(st, Label(i, act));
    Nothing(next, i);
    assert WorldAt(next, i) == w && next.nodes[i].task == t;
    run := Step(st, i, act, t, w, [], t, w);
  }

  lemma ConnectRuns(st: Cluster, i: InstanceId, s: SocketId) returns (run: seq<Label>)
    requires i in st.nodes && st.nodes[i].task.Idle? && CanStart(st, st.nodes[i].app, Connect(s))
    ensures Reaches(st, i, run, Idle, Connected(WorldAt(st, i), i, s))
    ensures Commands(run) == [Connect(s)]
  {
    var w := WorldAt(st, i);
    ConnectSteps(st, i, s);
    var st1 := Next(st, Label(i, Start(Connect(s))));
    ConnectingSteps(st1, i, s);
    run := LastStep(st1, i, Go, Idle, Connected(w, i, s));
    run := Step(st, i, Start(Connect(s)), Connecting(s), Redis(w, SetConn(s, i)), run, Idle, Connected(w, i, s));
  }

  lemma SubscribeSteps(st: Cluster, i: InstanceId, c: string, s: SocketId, d: ChannelData)
    requires i in st.nodes && st.nodes[i].task.Idle? && CanStart(st, st.nodes[i].app, Subscribe(c, s, d))
    ensures Moves(st, i, Start(Subscribe(c, s, d)), Joining(c, s, d), Created(WorldAt(st, i), i, c))
  {
  }

  lemma JoiningSteps(st: Cluster, i: InstanceId, c: string, s: SocketId, d: ChannelData)
    requires i in st.nodes && st.nodes[i].task == Joining(c, s, d)
    ensures Moves(st, i, Go, if Joined(c, d) then Mirroring(c, s, d, AtSet) else Idle, Local(WorldAt(st, i), Enter(c, s, d)))
  {
  }

  lemma MirroringSteps(st: Cluster, i: InstanceId)
    requires i in st.nodes && st.nodes[i].task.Mirroring?
    ensures var m := Mirror(i, st.nodes[i].task); Moves(st, i, Go, m.task, Redis(WorldAt(st, i), m.redis))
  {
  }

  /** The four registry calls of a subscribe. */
  lemma MirroringRuns(st: Cluster, i: InstanceId, c: string, s: SocketId, d: ChannelData) returns (run: seq<Label>)
    requires i in st.nodes && st.nodes[i].task == Mirroring(c, s, d, AtSet)
    ensures Reaches(st, i, run, Idle, MirroredJoin(WorldAt(st, i), i, c, s, d))
    ensures Commands(run) == []
  {
    var end := MirroredJoin(WorldAt(st, i), i, c, s, d);
    MirroringSteps(st, i);
    var st1 := Next(st, Label(i, Go));
    MirroringSteps(st1, i);
    if IsPresence(c) && d.Member? {
      var st2 := Next(st1, Label(i, Go));
      run := HashRuns(st2, i, c, s, d);
      run := Step(st1, i, Go, Mirroring(c, s, d, AtHash), WorldAt(st2, i), run, Idle, end);
    } else {
      run := LastStep(st1, i, Go, Idle, end);
    }
    run := Step(st, i, Go, Mirroring(c, s, d, AtMeta), WorldAt(st1, i), run, Idle, end);
  }

  lemma HashRuns(st: Cluster, i: InstanceId, c: string, s: SocketId, d: ChannelData) returns (run: seq<Label>)
    requires i in st.nodes && st.nodes[i].task == Mirroring(c, s, d, AtHash) && d.Member?
    ensures Reaches(st, i, run, Idle, Redis(Redis(WorldAt(st, i), HSet(c, s, d.userId)), SetInfo(c, s, d.userInfo)))
    ensures Commands(run) == []
  {
    var end := Redis(Redis(WorldAt(st, i), HSet(c, s, d.userId)), SetInfo(c, s, d.userInfo));
    MirroringSteps(st, i);
    var st1 := Next(st, Label(i, Go));
    MirroringSteps(st1, i);
    run := LastStep(st1, i, Go, Idle, end);
    run := Step(st, i, Go, Mirroring(c, s, d, AtInfo), WorldAt(st1, i), run, Idle, end);
  }

  lemma SubscribeRuns(st: Cluster, i: InstanceId, c: string, s: SocketId, d: ChannelData) returns (run: seq<Label>)
    requires i in st.nodes && st.nodes[i].task.Idle? && CanStart(st, st.nodes[i].app, Subscribe(c, s, d))
    ensures Reaches(st, i, run, Idle, Entered(Created(WorldAt(st, i), i, c), i, c, s, d))
    ensures Commands(run) == [Subscribe(c, s, d)]
  {
    var created := Created(WorldAt(st, i), i, c);
    var end := Entered(created, i, c, s, d);
    SubscribeSteps(st, i, c, s, d);
    var st1 := Next(st, Label(i, Start(Subscribe(c, s, d))));
    JoiningSteps(st1, i, c, s, d);
    if Joined(c, d) {
      var st2 := Next(st1, Label(i, Go));
      run := MirroringRuns(st2, i, c, s, d);
      run := Step(st1, i, Go, Mirroring(c, s, d, AtSet), WorldAt(st2, i), run, Idle, end);
    } else {
      run := LastStep(st1, i, Go, Idle, end);
    }
    run := Step(st, i, Start(Subscribe(c, s, d)), Joining(c, s, d), created, run, Idle, end);
  }

  // ---------- Unsubscribe and Disconnect ----------

  lemma LeavingSteps(st: Cluster, i: InstanceId)
    requires i in st.nodes && st.nodes[i].task.Leaving?
    ensures var m := Unmirror(st.nodes[i].app, st.nodes[i].task); Moves(st, i, Go, m.task, Redis(Local(WorldAt(st, i), m.op), m.redis))
  {
  }

  /** Where a finished unsubscribe returns to. */
  function Returns(s: SocketId, rest: Option<set<string>>): Task { if rest.None? then Idle else Closing(s, rest.value) }

  lemma DropRuns(st: Cluster, i: InstanceId, c: string, s: SocketId, rest: Option<set<string>>) returns (run: seq<Label>)
    requires i in st.nodes && st.nodes[i].task == Leaving(c, s, AtDrop, rest)
    ensures Reaches(st, i, run, Returns(s, rest), Pruned(WorldAt(st, i), c))
    ensures Commands(run) == []
  {
    LeavingSteps(st, i);
    run := LastStep(st, i, Go, Returns(s, rest), Pruned(WorldAt(st, i), c));
  }

  lemma HashDropRuns(st: Cluster, i: InstanceId, c: string, s: SocketId, rest: Option<set<string>>) returns (run: seq<Label>)
    requires i in st.nodes && st.nodes[i].task == Leaving(c, s, AtHash, rest)
    ensures Reaches(st, i, run, Returns(s, rest), Pruned(Redis(Redis(WorldAt(st, i), HDel(c, s)), DelInfo(c, s)), c))
    ensures Commands(run) == []
  {
    var end := Pruned(Redis(Redis(WorldAt(st, i), HDel(c, s)), DelInfo(c, s)), c);
    LeavingSteps(st, i);
    var st1 := Next(st, Label(i, Go));
    LeavingSteps(st1, i);
    var st2 := Next(st1, Label(i, Go));
    run := DropRuns(st2, i, c, s, rest);
    run := Step(st1, i, Go, Leaving(c, s, AtDrop, rest), WorldAt(st2, i), run, Returns(s, rest), end);
    run := Step(st, i, Go, Leaving(c, s, AtInfo, rest), WorldAt(st1, i), run, Returns(s, rest), end);
  }

  lemma LeavingRuns(st: Cluster, i: InstanceId, c: string, s: SocketId, rest: Option<set<string>>) returns (run: seq<Label>)
    requires i in st.nodes && st.nodes[i].task == Leaving(c, s, AtSet, rest)
    ensures Reaches(st, i, run, Returns(s, rest), Pruned(MirroredLeave(WorldAt(st, i), c, s), c))
    ensures Commands(run) == []
  {
    var end := Pruned(MirroredLeave(WorldAt(st, i), c, s), c);
    LeavingSteps(st, i);
    var st1 := Next(st, Label(i, Go));
    LeavingSteps(st1, i);
    var st2 := Next(st1, Label(i, Go));
    if IsPresence(c) {
      run := HashDropRuns(st2, i, c, s, rest);
    } else {
      run := DropRuns(st2, i, c, s, rest);
    }
    run := Step(st1, i, Go, Leaving(c, s, if IsPresence(c) then AtHash else AtDrop, rest), WorldAt(st2, i), run, Returns(s, rest), end);
    run := Step(st, i, Go, Leaving(c, s, AtMeta, rest), WorldAt(st1, i), run, Returns(s, rest), end);
  }

  lemma UnsubscribeSteps(st: Cluster, i: InstanceId, c: string, s: SocketId)
    requires i in st.nodes && st.nodes[i].task.Idle? && CanStart(st, st.nodes[i].app, Unsubscribe(c, s))
    ensures var w := WorldAt(st, i);
      if Subscribed(w.app, c, s) then Moves(st, i, Start(Unsubscribe(c, s)), Leaving(c, s, AtSet, None), Local(w, Exit(c, s)))
      else Moves(st, i, Start(Unsubscribe(c, s)), Idle, w)
  {
  }

  lemma UnsubscribeRuns(st: Cluster, i: InstanceId, c: string, s: SocketId) returns (run: seq<Label>)
    requires i in st.nodes && st.nodes[i].task.Idle? && CanStart(st, st.nodes[i].app, Unsubscribe(c, s))
    ensures Reaches(st, i, run, Idle, Left(WorldAt(st, i), c, s))
    ensures Commands(run) == [Unsubscribe(c, s)]
  {
    var act := Start(Unsubscribe(c, s));
    UnsubscribeSteps(st, i, c, s);
    if Subscribed(st.nodes[i].app, c, s) {
      var st1 := Next(st, Label(i, act));
      run := LeavingRuns(st1, i, c, s, None);
      run := Step(st, i, act, Leaving(c, s, AtSet, None), WorldAt(st1, i), run, Idle, Left(WorldAt(st, i), c, s));
    } else {
      run := LastStep(st, i, act, Idle, WorldAt(st, i));
    }
  }

  lemma VisitSteps(st: Cluster, i: InstanceId, s: SocketId, left: set<string>, c: string)
    requires i in st.nodes && st.nodes[i].task == Closing(s, left) && c in left
    ensures var w := WorldAt(st, i);
      if Subscribed(w.app, c, s) then Moves(st, i, Visit(c), Leaving(c, s, AtSet, Some(left - {c})), Local(w, Exit(c, s)))
      else Moves(st, i, Visit(c), Closing(s, left - {c}), w)
  {
  }

  /** One round of Disconnect's loop. */
  lemma VisitRuns(st: Cluster, i: InstanceId, s: SocketId, left: set<string>, c: string) returns (run: seq<Label>)
    requires i in st.nodes && st.nodes[i].task == Closing(s, left) && c in left
    ensures Reaches(st, i, run, Closing(s, left - {c}), Left(WorldAt(st, i), c, s))
    ensures Commands(run) == []
  {
    var w := WorldAt(st, i);
    VisitSteps(st, i, s, left, c);
    if Subscribed(w.app, c, s) {
      var st1 := Next(st, Label(i, Visit(c)));
      run := LeavingRuns(st1, i, c, s, Some(left - {c}));
      run := Step(st, i, Visit(c), Leaving(c, s, AtSet, Some(left - {c})), WorldAt(st1, i), run, Closing(s, left - {c}), Left(w, c, s));
    } else {
      run := LastStep(st, i, Visit(c), Closing(s, left - {c}), w);
    }
  }

  /** One run after another. */
  lemma {:induction false} Concat(st: Cluster, a: seq<Label>, b: seq<Label>)
    requires IsRun(st, a) && IsRun(After(st, a), b)
    ensures IsRun(st, a + b) && After(st, a + b) == After(After(st, a), b)
    decreases |a|
  {
    if a == [] {
      assert a + b == b;
    } else {
      assert (a + b)[0] == a[0] && (a + b)[1..] == a[1..] + b;
      Concat(Next(st, a[0]), a[1..], b);
    }
  }

  lemma ReachesBoth(st: Cluster, i: InstanceId, a: seq<Label>, t: Task, w: World, b: seq<Label>, u: Task, x: World)
    requires Reaches(st, i, a, t, w) && Reaches(After(st, a), i, b, u, x)
    ensures Reaches(st, i, a + b, u, x) && Commands(a + b) == Commands(a) + Commands(b)
  {
    Concat(st, a, b);
    CommandsConcat(a, b);
    assert st.nodes[i := Node(w.app, t)][i := Node(x.app, u)] == st.nodes[i := Node(x.app, u)];
  }

  lemma {:induction false} DistinctSize(order: seq<string>)
    ensures |set c | c in order| <= |order|
  {
    if order != [] {
      DistinctSize(order[1..]);
      assert (set c | c in order) == {order[0]} + set c | c in order[1..];
    }
  }

  lemma ListsTail(order: seq<string>, keys: set<string>)
    requires Lists(order, keys) && order != []
    ensures Lists(order[1..], keys - {order[0]})
  {
    var first, rest := order[0], set c | c in order[1..];
    DistinctSize(order[1..]);
    assert keys == rest + {first};
    assert first in rest ==> rest + {first} == rest;
  }

  /** The loop of Disconnect in a given order, and what follows it. */
  lemma {:induction false} ClosingRuns(st: Cluster, i: InstanceId, s: SocketId, left: set<string>, order: seq<string>)
    returns (run: seq<Label>)
    requires i in st.nodes && st.nodes[i].task == Closing(s, left) && Lists(order, left)
    ensures Reaches(st, i, run, Idle, Local(Redis(LeftAll(WorldAt(st, i), s, order), RedisOp.DelConn(s)), DropConn(s)))
    ensures Commands(run) == []
    decreases |order|
  {
    var w := WorldAt(st, i);
    if order == [] {
      assert left == {};
      run := EndRuns(st, i, s);
    } else {
      var c, rest := order[0], left - {order[0]};
      ListsTail(order, left);
      var visit := VisitRuns(st, i, s, left, c);
      var st1 := After(st, visit);
      run := ClosingRuns(st1, i, s, rest, order[1..]);
      var end := Local(Redis(LeftAll(w, s, order), RedisOp.DelConn(s)), DropConn(s));
      assert WorldAt(st1, i) == Left(w, c, s);
      ReachesBoth(st, i, visit, Closing(s, rest), Left(w, c, s), run, Idle, end);
      run := visit + run;
    }
  }

  lemma EndSteps(st: Cluster, i: InstanceId, s: SocketId)
    requires i in st.nodes && st.nodes[i].task == Closing(s, {})
    ensures Moves(st, i, Go, Unregistered(s), Redis(WorldAt(st, i), RedisOp.DelConn(s)))
  {
  }

  lemma UnregisteredSteps(st: Cluster, i: InstanceId, s: SocketId)
    requires i in st.nodes && st.nodes[i].task == Unregistered(s)
    ensures Moves(st, i, Go, Idle, Local(WorldAt(st, i), DropConn(s)))
  {
  }

  lemma EndRuns(st: Cluster, i: InstanceId, s: SocketId) returns (run: seq<Label>)
    requires i in st.nodes && st.nodes[i].task == Closing(s, {})
    ensures Reaches(st, i, run, Idle, Local(Redis(WorldAt(st, i), RedisOp.DelConn(s)), DropConn(s)))
    ensures Commands(run) == []
  {
    var w := Redis(WorldAt(st, i), RedisOp.DelConn(s));
    EndSteps(st, i, s);
    var st1 := Next(st, Label(i, Go));
    UnregisteredSteps(st1, i, s);
    run := LastStep(st1, i, Go, Idle, Local(w, DropConn(s)));
    run := Step(st, i, Go, Unregistered(s), w, run, Idle, Local(w, DropConn(s)));
  }

  lemma DisconnectSteps(st: Cluster, i: InstanceId, s: SocketId)
    requires i in st.nodes && st.nodes[i].task.Idle? && s in st.nodes[i].app.conns
    ensures Moves(st, i, Start(Disconnect(s)), Closing(s, st.nodes[i].app.channels.Keys), WorldAt(st, i))
  {
  }

  lemma DisconnectRuns(st: Cluster, i: InstanceId, s: SocketId, order: seq<string>) returns (run: seq<Label>)
    requires i in st.nodes && st.nodes[i].task.Idle? && s in st.nodes[i].app.conns
    requires Lists(order, st.nodes[i].app.channels.Keys)
    ensures Reaches(st, i, run, Idle, Disconnected(WorldAt(st, i), s, order))
    ensures Commands(run) == [Disconnect(s)]
  {
    var keys := st.nodes[i].app.channels.Keys;
    DisconnectSteps(st, i, s);
    var st1 := Next(st, Label(i, Start(Disconnect(s))));
    run := ClosingRuns(st1, i, s, keys, order);
    run := Step(st, i, Start(Disconnect(s)), Closing(s, keys), WorldAt(st, i), run, Idle, Disconnected(WorldAt(st, i), s, order));
  }

  // ---------- publications ----------

  /** A registered socket of another instance among those read. */
  ghost predicate RemoteIn(r: Store, i: InstanceId, read: seq<SocketId>) {
    exists k :: 0 <= k < |read| && read[k] in r.conns && r.conns[read[k]] != i
  }

  ghost function Sent(w: World, i: InstanceId, job: Job, read: seq<SocketId>): World {
    if RemoteIn(w.store, i, read) && job.raw.payload.Some? then Redis(w, RedisOp.Publish(job.tag.chan, NoteOf(job))) else w
  }

  lemma ScanningSteps(st: Cluster, i: InstanceId, job: Job, unread: seq<SocketId>)
    requires i in st.nodes && st.nodes[i].task == Scanning(job, unread)
    ensures var t := if unread == [] then Done(job)
        else if unread[0] in st.store.conns && st.store.conns[unread[0]] != i then
          (if job.raw.payload.Some? then Sending(job) else Done(job))
        else Scanning(job, unread[1..]);
      Moves(st, i, Go, t, WorldAt(st, i))
  {
  }

  lemma SendingSteps(st: Cluster, i: InstanceId, job: Job)
    requires i in st.nodes && st.nodes[i].task == Sending(job) && job.raw.payload.Some?
    ensures Moves(st, i, Go, Done(job), Redis(WorldAt(st, i), RedisOp.Publish(job.tag.chan, NoteOf(job))))
  {
  }

  /** The scan finds out whether any of the sockets belongs to another instance. */
  lemma {:induction false} ScanningRuns(st: Cluster, i: InstanceId, job: Job, unread: seq<SocketId>) returns (run: seq<Label>)
    requires i in st.nodes && st.nodes[i].task == Scanning(job, unread)
    ensures Reaches(st, i, run, Done(job), Sent(WorldAt(st, i), i, job, unread))
    ensures Commands(run) == []
    decreases |unread|
  {
    var w := WorldAt(st, i);
    ScanningSteps(st, i, job, unread);
    if unread == [] {
      run := LastStep(st, i, Go, Done(job), w);
    } else if unread[0] in st.store.conns && st.store.conns[unread[0]] != i {
      assert RemoteIn(st.store, i, unread);
      if job.raw.payload.Some? {
        var st1 := Next(st, Label(i, Go));
        SendingSteps(st1, i, job);
        run := LastStep(st1, i, Go, Done(job), Sent(w, i, job, unread));
        run := Step(st, i, Go, Sending(job), w, run, Done(job), Sent(w, i, job, unread));
      } else {
        run := LastStep(st, i, Go, Done(job), w);
      }
    } else {
      var st1 := Next(st, Label(i, Go));
      run := ScanningRuns(st1, i, job, unread[1..]);
      RemoteLater(st.store, i, unread);
      run := Step(st, i, Go, Scanning(job, unread[1..]), w, run, Done(job), Sent(w, i, job, unread));
    }
  }

  lemma RemoteLater(r: Store, i: InstanceId, read: seq<SocketId>)
    requires read != [] && !(read[0] in r.conns && r.conns[read[0]] != i)
    ensures RemoteIn(r, i, read) <==> RemoteIn(r, i, read[1..])
  {
    if RemoteIn(r, i, read) {
      var k :| 0 <= k < |read| && read[k] in r.conns && r.conns[read[k]] != i;
      assert read[1..][k - 1] == read[k];
    }
  }

  lemma AnnouncingSteps(st: Cluster, i: InstanceId, job: Job)
    requires i in st.nodes && st.nodes[i].task == Announcing(job)
    ensures Moves(st, i, Go, Telling(job), Local(WorldAt(st, i), Count))
  {
  }

  lemma TellingSteps(st: Cluster, i: InstanceId, job: Job)
    requires i in st.nodes && st.nodes[i].task == Telling(job)
    ensures Moves(st, i, Go, Fetching(job), Local(WorldAt(st, i), Send(job.tag.chan, job.raw, job.tag.ignore, job.tag)))
  {
  }

  lemma FetchingSteps(st: Cluster, i: InstanceId, job: Job, order: seq<SocketId>)
    requires i in st.nodes && st.nodes[i].task == Fetching(job) && Enumerates(order, Members(st.store, job.tag.chan))
    ensures Moves(st, i, Listing(order), Scanning(job, order), WorldAt(st, i))
  {
  }

  /** A publication, with the registry's members read in a given order. */
  lemma AnnouncingRuns(st: Cluster, i: InstanceId, job: Job, order: seq<SocketId>) returns (run: seq<Label>)
    requires i in st.nodes && st.nodes[i].task == Announcing(job) && Enumerates(order, Members(st.store, job.tag.chan))
    ensures Reaches(st, i, run, Done(job), Published(WorldAt(st, i), i, job.tag.chan, job.raw, job.tag.ignore, job.tag))
    ensures Commands(run) == []
  {
    var w := WorldAt(st, i);
    var w1 := Local(w, Count);
    var w2 := Local(w1, Send(job.tag.chan, job.raw, job.tag.ignore, job.tag));
    AnnouncingSteps(st, i, job);
    var st1 := Next(st, Label(i, Go));
    TellingSteps(st1, i, job);
    var st2 := Next(st1, Label(i, Go));
    FetchingSteps(st2, i, job, order);
    var st3 := Next(st2, Label(i, Listing(order)));
    run := ScanningRuns(st3, i, job, order);
    SentIsForwarded(w2, i, job, order);
    var end := Sent(w2, i, job, order);
    run := Step(st2, i, Listing(order), Scanning(job, order), w2, run, Done(job), end);
    run := Step(st1, i, Go, Fetching(job), w2, run, Done(job), end);
    run := Step(st, i, Go, Telling(job), w1, run, Done(job), end);
  }

  lemma SentIsForwarded(w: World, i: InstanceId, job: Job, order: seq<SocketId>)
    requires Enumerates(order, Members(w.store, job.tag.chan))
    ensures Sent(w, i, job, order) == Forwarded(w, i, job.tag.chan, job.raw, job.tag)
  {
    if RemoteSubscriber(w.store, i, job.tag.chan) {
      var s :| s in Members(w.store, job.tag.chan) && s in w.store.conns && w.store.conns[s] != i;
      assert s in order;
    }
  }

  lemma ClientSteps(st: Cluster, i: InstanceId, s: SocketId, e: Raw)
    requires i in st.nodes && st.nodes[i].task.Idle? && CanStart(st, st.nodes[i].app, Client(s, e))
    ensures Moves(st, i, Start(Client(s, e)), Announcing(Job(e, Tag(st.history.nextPid, e.chan, s), [])), WorldAt(st, i))
  {
  }

  lemma ClientRuns(st: Cluster, i: InstanceId, s: SocketId, e: Raw, order: seq<SocketId>) returns (run: seq<Label>)
    requires i in st.nodes && st.nodes[i].task.Idle? && CanStart(st, st.nodes[i].app, Client(s, e))
    requires Enumerates(order, Members(st.store, e.chan))
    ensures Reaches(st, i, run, Idle, Published(WorldAt(st, i), i, e.chan, e, s, Tag(st.history.nextPid, e.chan, s)))
    ensures Commands(run) == [Client(s, e)]
  {
    var job := Job(e, Tag(st.history.nextPid, e.chan, s), []);
    var w := WorldAt(st, i);
    ClientSteps(st, i, s, e);
    var st1 := Next(st, Label(i, Start(Client(s, e))));
    run := AnnouncingRuns(st1, i, job, order);
    run := Step(st, i, Start(Client(s, e)), Announcing(job), w, run, Idle, Published(w, i, e.chan, e, s, job.tag));
  }

  lemma PostingSteps(st: Cluster, i: InstanceId, job: Job)
    requires i in st.nodes && st.nodes[i].task == Posting([job.tag.chan] + job.after, job.raw.name, job.raw.payload, job.tag.ignore)
    requires job.raw.chan == job.tag.chan && job.tag.pid == st.history.nextPid
    ensures Moves(st, i, Go, Announcing(job), Created(WorldAt(st, i), i, job.tag.chan))
  {
    assert ([job.tag.chan] + job.after)[1..] == job.after;
  }

  /** One channel of a POST; the handler then goes on with the others. */
  lemma PostingRuns(st: Cluster, i: InstanceId, job: Job, order: seq<SocketId>) returns (run: seq<Label>)
    requires i in st.nodes && st.nodes[i].task == Posting([job.tag.chan] + job.after, job.raw.name, job.raw.payload, job.tag.ignore)
    requires job.raw.chan == job.tag.chan && job.tag.pid == st.history.nextPid
    requires Enumerates(order, Members(st.store, job.tag.chan))
    ensures Reaches(st, i, run, Done(job), PostedOne(WorldAt(st, i), i, job.raw, job.tag.ignore, job.tag.pid))
    ensures Commands(run) == []
  {
    var w := Created(WorldAt(st, i), i, job.tag.chan);
    PostingSteps(st, i, job);
    var st1 := Next(st, Label(i, Go));
    run := AnnouncingRuns(st1, i, job, order);
    run := Step(st, i, Go, Announcing(job), w, run, Done(job), Published(w, i, job.tag.chan, job.raw, job.tag.ignore, job.tag));
  }

  // ---------- a listener ----------

  /** The world without the message that is being heard. */
  function Popped(w: World, k: nat): World
    requires k < |w.listeners| && w.listeners[k].queue != []
  {
    w.(listeners := Route(w.listeners, Pop(k)))
  }

  lemma HearSteps(st: Cluster, i: InstanceId, k: nat)
    requires Enabled(st, Label(i, Hear(k)))
    ensures Moves(st, i, Hear(k), Hearing(st.listeners[k].chan, st.listeners[k].queue[0]), Popped(WorldAt(st, i), k))
  {
  }

  lemma HearingSteps(st: Cluster, i: InstanceId, c: string, note: Note)
    requires i in st.nodes && st.nodes[i].task == Hearing(c, note)
    ensures var w := WorldAt(st, i);
      Moves(st, i, Go, if c in w.app.channels then Relaying(c, note, SkipOf(w, i, note.tag.ignore)) else Idle, w)
  {
  }

  lemma RelayingSteps(st: Cluster, i: InstanceId, c: string, note: Note, skip: SocketId)
    requires i in st.nodes && st.nodes[i].task == Relaying(c, note, skip)
    ensures Moves(st, i, Go, Idle, Local(WorldAt(st, i), Send(c, RawOf(note), skip, note.tag)))
  {
  }

  /** A message that has been taken from its queue. */
  lemma HeardRuns(st: Cluster, i: InstanceId, c: string, note: Note) returns (run: seq<Label>)
    requires i in st.nodes && st.nodes[i].task == Hearing(c, note)
    ensures Reaches(st, i, run, Idle, Heard(WorldAt(st, i), i, c, note))
    ensures Commands(run) == []
  {
    var w := WorldAt(st, i);
    HearingSteps(st, i, c, note);
    if c in w.app.channels {
      var skip := SkipOf(w, i, note.tag.ignore);
      var st1 := Next(st, Label(i, Go));
      RelayingSteps(st1, i, c, note, skip);
      run := LastStep(st1, i, Go, Idle, Heard(w, i, c, note));
      run := Step(st, i, Go, Relaying(c, note, skip), w, run, Idle, Heard(w, i, c, note));
    } else {
      run := LastStep(st, i, Go, Idle, w);
    }
  }

  lemma HearRuns(st: Cluster, i: InstanceId, k: nat) returns (run: seq<Label>)
    requires Enabled(st, Label(i, Hear(k)))
    ensures Reaches(st, i, run, Idle,
                    Heard(Popped(WorldAt(st, i), k), i, st.listeners[k].chan, st.listeners[k].queue[0]))
    ensures Commands(run) == []
  {
    var c, note := st.listeners[k].chan, st.listeners[k].queue[0];
    var w := Popped(WorldAt(st, i), k);
    HearSteps(st, i, k);
    run := HeardRuns(Next(st, Label(i, Hear(k))), i, c, note);
    run := Step(st, i, Hear(k), Hearing(c, note), w, run, Idle, Heard(w, i, c, note));
  }
}
