/** The premises of the main theorems can be met. */
module Witnesses {
  import opened Types
  import opened Names
  import opened Instance
  import opened Registry
  import opened Cluster
  import opened Handlers
  import opened Safety
  import opened Undisturbed
  import S = Session

  const EMPTY_STORE := Store(map[], map[], map[], map[], map[])

  /**
   From the start of any cluster, any socket can become a subscriber of any validly named channel
   on any instance, and then any idle instance can take up a publication to that channel.
   */
  lemma SubscriberIsReachable(st: Cluster, j: InstanceId, c: string, s: SocketId, d: ChannelData, i: InstanceId)
    returns (end: Cluster)
    requires Initial(st) && i in st.nodes && j in st.nodes && s != "" && IsChannelNameValid(c) && Joined(c, d)
    ensures Reachable(end) && SubscribedAt(end, j, c, s) && s in end.nodes[j].app.conns && end.nodes[j].task.Idle?
    ensures Members(end.store, c) == {s} && s in end.store.conns && end.store.conns[s] == j
    ensures end.nodes == st.nodes[j := end.nodes[j]] && end.listeners == [Listener(j, c, [])]
    ensures i in end.nodes && end.nodes[i].task.Idle? && Enabled(end, Label(i, Start(Post([c], "event", Some("data"), ""))))
  {
    var run := JoinRuns(st, j, c, s, d);
    JoinedWorld(WorldAt(st, j), j, c, s, d);
    end := After(st, run);
    assert WorldAt(end, j) == JoinWorld(WorldAt(st, j), j, c, s, d);
    assert Reachable(end);
    ReadyToPost(end, i, c);
  }

  /** The world after a connect and a first subscribe. */
  ghost function JoinWorld(w: World, j: InstanceId, c: string, s: SocketId, d: ChannelData): World {
    Entered(Created(Connected(w, j, s), j, c), j, c, s, d)
  }

  lemma JoinRuns(st: Cluster, j: InstanceId, c: string, s: SocketId, d: ChannelData) returns (run: seq<Label>)
    requires Initial(st) && j in st.nodes && s != "" && IsChannelNameValid(c)
    ensures Reaches(st, j, run, Idle, JoinWorld(WorldAt(st, j), j, c, s, d))
  {
    var connect := ConnectRuns(st, j, s);
    var w1 := Connected(WorldAt(st, j), j, s);
    var st1 := After(st, connect);
    assert WorldAt(st1, j) == w1;
    var subscribe := SubscribeRuns(st1, j, c, s, d);
    ReachesBoth(st, j, connect, Idle, w1, subscribe, Idle, JoinWorld(WorldAt(st, j), j, c, s, d));
    run := connect + subscribe;
  }

  lemma JoinedWorld(w: World, j: InstanceId, c: string, s: SocketId, d: ChannelData)
    requires w.app == EMPTY_APP && w.listeners == [] && w.store == EMPTY_STORE && Joined(c, d)
    ensures var end := JoinWorld(w, j, c, s, d);
      && Subscribed(end.app, c, s) && s in end.app.conns && end.listeners == [Listener(j, c, [])]
      && Members(end.store, c) == {s} && s in end.store.conns && end.store.conns[s] == j
  {
    var w1 := Connected(w, j, s);
    FirstListener(w, j, c, s);
    CreatedStore(w1, j, c);
    EnteredMember(Created(w1, j, c), j, c, s, d);
  }

  lemma FirstListener(w: World, j: InstanceId, c: string, s: SocketId)
    requires w.app == EMPTY_APP && w.listeners == [] && w.store == EMPTY_STORE
    ensures var w1 := Connected(w, j, s);
      && Created(w1, j, c).listeners == [Listener(j, c, [])]
      && s in w1.store.conns && w1.store.conns[s] == j && Members(w1.store, c) == {} && s in w1.app.conns
  {
  }

  lemma CreatedStore(w: World, i: InstanceId, c: string)
    ensures Created(w, i, c).store == w.store && c in Created(w, i, c).app.channels
    ensures Created(w, i, c).app.conns == w.app.conns
  {
  }

  lemma Mirrors(w: World, i: InstanceId, c: string, s: SocketId, d: ChannelData)
    ensures Members(MirroredJoin(w, i, c, s, d).store, c) == Members(w.store, c) + {s}
    ensures MirroredJoin(w, i, c, s, d).store.conns == w.store.conns
  {
  }

  lemma EnteredMember(w: World, i: InstanceId, c: string, s: SocketId, d: ChannelData)
    requires c in w.app.channels && Joined(c, d)
    ensures var after := Entered(w, i, c, s, d);
      && Subscribed(after.app, c, s) && after.app.conns == w.app.conns && after.listeners == w.listeners
      && Members(after.store, c) == Members(w.store, c) + {s} && after.store.conns == w.store.conns
  {
    Mirrors(Local(w, Enter(c, s, d)), i, c, s, d);
  }

  lemma ReadyToPost(st: Cluster, i: InstanceId, c: string)
    requires i in st.nodes && st.nodes[i].task.Idle?
    ensures Enabled(st, Label(i, Start(Post([c], "event", Some("data"), ""))))
  {
  }

  /** A session on an empty application, with whatever it receives. */
  lemma SessionIsPossible(i: InstanceId, s: SocketId, greeted: bool, userEvents: bool, inbox: seq<S.Read>)
    returns (w: World, order: seq<string>)
    ensures Sound(w.app) && S.Canonical(w.store) && S.Fresh(w, s)
    ensures Lists(order, S.BeforeClose(w, i, s, greeted, userEvents, inbox).app.channels.Keys)
  {
    w := World(EMPTY_APP, EMPTY_STORE, []);
    assert Kind(map[], IsPresence) == {} && Kind(map[], IsPrivate) == {} && Kind(map[], IsPublic) == {};
    order := Enumeration(S.BeforeClose(w, i, s, greeted, userEvents, inbox).app.channels.Keys);
  }
}
