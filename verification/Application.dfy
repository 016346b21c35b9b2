/** The application object of one instance: its maps, counters and channels, and its registry calls. */
module Applications {
  import opened Types
  import opened Names
  import opened Instance
  import opened Registry
  import opened RedisKeys
  import opened RedisClient
  import opened Connection
  import opened Channels
  import opened Handlers

  /** A channel object and its subscriptions as a value. */
  ghost predicate Fits(ch: Channel, c: string, trace: HookTrace, wire: Wire, roster: Roster)
    reads ch, ch.objects
  {
    ch.ID == c && ch.trace == trace && ch.wire == wire && ch.Valid() && ch.Contents() == roster
  }

  lemma EnterIs(a: App, c: string, s: SocketId, d: ChannelData, st: Chan)
    requires c in a.channels && st == Join(c, View(a, c), s, d)
    ensures a.(logs := st.logs, hooks := st.hooks).(channels := a.channels[c := st.subs]) == Apply(a, Op.Enter(c, s, d))
  {
  }

  lemma ExitIs(a: App, c: string, s: SocketId, st: Chan)
    requires c in a.channels && st == Leave(c, View(a, c), s)
    ensures a.(logs := st.logs, hooks := st.hooks).(channels := a.channels[c := st.subs]) ==
      if Subscribed(a, c, s) then Apply(a, Exit(c, s)) else a
  {
  }

  class Application {
    const appID: string
    const redis: Client
    const trace: HookTrace
    const wire: Wire
    var channels: map<string, Channel>
    var connections: map<SocketId, Connection>
    var channelSubscribers: set<string>
    var stats: Stats

    /** The channels' subscriptions as values; the channel objects and subscription objects made. */
    ghost var rosters: map<string, Roster>
    ghost var members: set<Channel>
    ghost var held: set<Subscription>

    constructor (appID: string, redis: Client, trace: HookTrace, wire: Wire)
      requires redis.server.Valid() && appID in redis.server.views
      ensures Valid() && fresh(this) && this.appID == appID && this.redis == redis
      ensures Local() == App({}, map[], {}, Stats(0, 0, 0, 0, 0, 0), wire.published, trace.hooks)
    {
      this.appID, this.redis, this.trace, this.wire := appID, redis, trace, wire;
      channels, connections, channelSubscribers := map[], map[], {};
      stats := Stats(0, 0, 0, 0, 0, 0);
      rosters, members, held := map[], {}, {};
    }

    ghost predicate Valid()
      reads this, members, held, redis.server
    {
      ChannelsFit() && ConnectionsFit() && RedisFits()
    }

    /** Channels are filed under their own names and share this application's wire and hooks. */
    ghost predicate ChannelsFit()
      reads `channels, `rosters, `members, `held, members, held
    {
      && rosters.Keys == channels.Keys
      && forall c :: c in channels ==>
           channels[c] in members && channels[c].objects <= held && Fits(channels[c], c, trace, wire, rosters[c])
    }

    /** The channels other than one. */
    ghost predicate OthersFit(but: string)
      reads `channels, `rosters, `members, `held, members, held
    {
      && rosters.Keys == channels.Keys
      && forall c :: c in channels && c != but ==>
           channels[c] in members && channels[c].objects <= held && Fits(channels[c], c, trace, wire, rosters[c])
    }

    ghost predicate ConnectionsFit()
      reads `connections
    {
      forall s :: s in connections ==> connections[s].SocketID == s && connections[s].wire == wire && IsSocketId(s)
    }

    ghost predicate RedisFits()
      reads redis.server
    {
      redis.server.Valid() && appID in redis.server.views
    }

    twostate lemma ChannelsKept()
      requires old(ChannelsFit()) && unchanged(`channels, `rosters, `members, `held) && unchanged(old(members)) && unchanged(old(held))
      ensures ChannelsFit()
    {
    }

    twostate lemma ConnectionsKept()
      requires old(ConnectionsFit()) && unchanged(`connections)
      ensures ConnectionsFit()
    {
    }

    /** A change of one channel spares the others. */
    twostate lemma OthersKept(ch: Channel)
      requires old(ChannelsFit()) && ch.ID in old(channels) && old(channels)[ch.ID] == ch
      requires unchanged(`channels, `rosters, `members, `held) && unchanged(old(held))
      requires forall c :: c in old(members) && c != ch ==> unchanged(c)
      ensures OthersFit(ch.ID)
    {
      forall c | c in channels && c != ch.ID
        ensures channels[c] in members && channels[c].objects <= held && Fits(channels[c], c, trace, wire, rosters[c])
      {
        assert channels[c] != ch && old(Fits(channels[c], c, trace, wire, rosters[c]));
      }
    }

    twostate lemma RedisKept()
      requires old(RedisFits()) && unchanged(redis.server)
      ensures RedisFits()
    {
    }

    ghost function Local(): App
      reads this, wire, trace
    {
      App(connections.Keys, rosters, channelSubscribers, stats, wire.published, trace.hooks)
    }

    ghost function Now(): World
      reads this, wire, trace, redis.server
      requires RedisFits()
    {
      World(Local(), redis.server.views[appID], redis.server.listeners[appID])
    }

    // ---------- connections ----------

    /** Connect: registered in Redis first, then added. */
    method Connect(conn: Connection)
      requires ConnectionsFit() && RedisFits() && conn.wire == wire && IsSocketId(conn.SocketID)
      modifies `connections, `stats, redis.server`keys, redis.server`views
      ensures ConnectionsFit() && RedisFits() && Now() == Connected(old(Now()), redis.instanceID, conn.SocketID)
      ensures connections == old(connections)[conn.SocketID := conn]
    {
      redis.RegisterConnection(appID, conn.SocketID);
      Enlist(conn);
    }

    method Enlist(conn: Connection)
      requires ConnectionsFit() && conn.wire == wire && IsSocketId(conn.SocketID)
      modifies `connections, `stats
      ensures ConnectionsFit() && connections == old(connections)[conn.SocketID := conn]
      ensures Local() == Apply(old(Local()), AddConn(conn.SocketID))
    {
      connections := connections[conn.SocketID := conn];
      stats := stats.(connections := stats.connections + 1);
    }

    method FindConnection(s: SocketId) returns (conn: Option<Connection>)
      ensures conn == if s in connections then Some(connections[s]) else None
    {
      conn := if s in connections then Some(connections[s]) else None;
    }

    // ---------- channels ----------

    method FindChannel(c: string) returns (ch: Option<Channel>)
      ensures ch == if c in channels then Some(channels[c]) else None
    {
      ch := if c in channels then Some(channels[c]) else None;
    }

    method File(ch: Channel)
      requires ChannelsFit() && ch.Valid() && ch.subscriptions == map[] && ch.trace == trace && ch.wire == wire
      modifies `channels, `rosters, `members, `held
      ensures ChannelsFit() && channels == old(channels)[ch.ID := ch] && members == old(members) + {ch}
      ensures Local() == old(Local()).(channels := old(rosters)[ch.ID := map[]])
    {
      assert Fits(ch, ch.ID, trace, wire, map[]);
      channels, rosters := channels[ch.ID := ch], rosters[ch.ID := map[]];
      members, held := members + {ch}, held + ch.objects;
      assert OthersFit(ch.ID);
    }

    method Unfile(c: string)
      requires ChannelsFit()
      modifies `channels, `rosters
      ensures ChannelsFit() && channels == old(channels) - {c}
      ensures Local() == old(Local()).(channels := old(rosters) - {c})
    {
      channels, rosters := channels - {c}, rosters - {c};
    }

    /** The counters of a channel by its kind, up or down. */
    method Tally(c: string, delta: int)
      modifies `stats
      ensures Local() == old(Local()).(stats := Counted(old(stats), c, delta))
    {
      if IsPresence(c) {
        stats := stats.(presence := stats.presence + delta);
      }
      if IsPrivate(c) {
        stats := stats.(private_ := stats.private_ + delta);
      }
      if IsPublic(c) {
        stats := stats.(public_ := stats.public_ + delta);
      }
      stats := stats.(channels := stats.channels + delta);
    }

    /** A listener for the channel's Pub/Sub messages, unless the marker says there is one. */
    method SetupChannelPubSub(c: string)
      requires RedisFits()
      modifies `channelSubscribers, redis.server`listeners
      ensures RedisFits() && Local() == old(Local()).(markers := old(channelSubscribers) + {c})
      ensures redis.server.listeners == if c in old(channelSubscribers) then old(redis.server.listeners)
        else old(redis.server.listeners)[appID := old(redis.server.listeners)[appID] + [Listener(redis.instanceID, c, [])]]
    {
      if c in channelSubscribers {
        return;
      }
      redis.SubscribeToChannelEvents(appID, c);
      channelSubscribers := channelSubscribers + {c};
    }

    /** The channel and its listener. */
    method Install(ch: Channel)
      requires ChannelsFit() && RedisFits() && ch.Valid() && ch.subscriptions == map[] && ch.trace == trace && ch.wire == wire
      modifies `channels, `rosters, `members, `held, `channelSubscribers, redis.server`listeners
      ensures ChannelsFit() && RedisFits() && channels == old(channels)[ch.ID := ch] && members == old(members) + {ch}
      ensures Local() == old(Local()).(channels := old(rosters)[ch.ID := map[]], markers := old(channelSubscribers) + {ch.ID})
      ensures redis.server.listeners[appID] == if ch.ID in old(channelSubscribers) then old(redis.server.listeners[appID])
        else old(redis.server.listeners[appID]) + [Listener(redis.instanceID, ch.ID, [])]
    {
      File(ch);
      label filed:
      SetupChannelPubSub(ch.ID);
      ChannelsKept@filed();
    }

    /** AddChannel: the channel, its listener, the counters. */
    method AddChannel(ch: Channel)
      requires ChannelsFit() && RedisFits() && ch.Valid() && ch.subscriptions == map[] && ch.trace == trace && ch.wire == wire
      modifies `channels, `rosters, `members, `held, `channelSubscribers, `stats, redis.server`listeners
      ensures ChannelsFit() && RedisFits() && channels == old(channels)[ch.ID := ch] && members == old(members) + {ch}
      ensures Now() == Added(old(Now()), redis.instanceID, ch.ID)
    {
      ghost var before := Local();
      Install(ch);
      label installed:
      Tally(ch.ID, 1);
      assert Local() == Apply(before, AddChan(ch.ID));
      ChannelsKept@installed();
      RedisKept@installed();
    }

    /** RemoveChannel: the marker goes, the listener stays. */
    method RemoveChannel(ch: Channel)
      requires ChannelsFit()
      modifies `channels, `rosters, `channelSubscribers, `stats
      ensures ChannelsFit() && channels == old(channels) - {ch.ID}
      ensures Local() == Apply(old(Local()), DropChan(ch.ID))
    {
      channelSubscribers := channelSubscribers - {ch.ID};
      Unfile(ch.ID);
      Tally(ch.ID, -1);
    }

    method CreateChannel(c: string) returns (ch: Channel)
      requires ChannelsFit() && RedisFits()
      modifies `channels, `rosters, `members, `held, `channelSubscribers, `stats, redis.server`listeners
      ensures ChannelsFit() && RedisFits() && c in channels && channels[c] == ch
      ensures fresh(ch) && members == old(members) + {ch}
      ensures Now() == Added(old(Now()), redis.instanceID, c)
    {
      ch := new Channel(c, trace, wire);
      AddChannel(ch);
    }

    method FindOrCreateChannel(c: string) returns (ch: Channel)
      requires ChannelsFit() && RedisFits()
      modifies `channels, `rosters, `members, `held, `channelSubscribers, `stats, redis.server`listeners
      ensures ChannelsFit() && RedisFits() && c in channels && channels[c] == ch && ch in members
      ensures old(members) <= members && fresh(members - old(members))
      ensures Now() == Created(old(Now()), redis.instanceID, c)
    {
      var found := FindChannel(c);
      if found.Some? {
        return found.value;
      }
      ch := CreateChannel(c);
    }

    // ---------- Subscribe and Unsubscribe ----------

    /** The local half of Subscribe; the other channels are left alone. */
    method Enter(ch: Channel, conn: Connection, d: ChannelData, ghost before: App) returns (ok: bool, ghost st: Chan)
      requires ChannelsFit() && ch.ID in channels && channels[ch.ID] == ch && conn.wire == wire && before == Local()
      modifies ch, trace, wire
      ensures OthersFit(ch.ID) && ch in members && ch.Valid() && ok == Joined(ch.ID, d)
      ensures st == Join(ch.ID, View(before, ch.ID), conn.SocketID, d)
      ensures ch.Contents() == st.subs && Local() == before.(logs := st.logs, hooks := st.hooks)
    {
      ok := ch.Subscribe(conn, d);
      OthersKept(ch);
      st := ch.State();
    }

    /** The ghost record follows a changed channel. */
    ghost method Track(ch: Channel)
      requires OthersFit(ch.ID) && ch.Valid() && ch.ID in channels && channels[ch.ID] == ch && ch in members
      requires ch.trace == trace && ch.wire == wire
      modifies `rosters, `held
      ensures ChannelsFit() && ch.Contents() == old(ch.Contents())
      ensures Local() == old(Local()).(channels := old(rosters)[ch.ID := old(ch.Contents())])
    {
      assert Fits(ch, ch.ID, trace, wire, ch.Contents());
      held := held + ch.objects;
      rosters := rosters[ch.ID := ch.Contents()];
      assert OthersFit(ch.ID);
    }

    method Enroll(ch: Channel, conn: Connection, d: ChannelData) returns (ok: bool)
      requires ChannelsFit() && ch.ID in channels && channels[ch.ID] == ch && conn.wire == wire
      modifies `rosters, `held, ch, trace, wire
      ensures ChannelsFit() && ok == Joined(ch.ID, d)
      ensures Local() == Apply(old(Local()), Op.Enter(ch.ID, conn.SocketID, d))
    {
      ghost var before := Local();
      ghost var st;
      ok, st := Enter(ch, conn, d, before);
      Track(ch);
      assert Local() == before.(logs := st.logs, hooks := st.hooks).(channels := before.channels[ch.ID := st.subs]);
      EnterIs(before, ch.ID, conn.SocketID, d, st);
    }

    /** The registry calls after a local subscribe. */
    method MirrorJoin(c: string, s: SocketId, d: ChannelData)
      requires RedisFits() && ColonFree(c) && IsSocketId(s)
      modifies redis.server`keys, redis.server`views
      ensures RedisFits() && Now() == MirroredJoin(old(Now()), redis.instanceID, c, s, d)
    {
      redis.SubscribeToChannel(appID, c, s, d);
      if IsPresence(c) && d.Member? {
        redis.StorePresenceData(appID, c, s, d.userId, d.userInfo);
      }
    }

    /** They follow only if the local subscribe succeeded. */
    method MirrorAccepted(ok: bool, c: string, s: SocketId, d: ChannelData)
      requires ChannelsFit() && RedisFits() && ColonFree(c) && IsSocketId(s)
      modifies redis.server`keys, redis.server`views
      ensures ChannelsFit() && RedisFits() && Now() == if ok then MirroredJoin(old(Now()), redis.instanceID, c, s, d) else old(Now())
    {
      if ok {
        MirrorJoin(c, s, d);
        ChannelsKept();
      }
    }

    /** Subscribe: locally first, then in Redis; on a local error Redis hears nothing. */
    method Subscribe(ch: Channel, conn: Connection, d: ChannelData) returns (ok: bool)
      requires ChannelsFit() && RedisFits() && ch.ID in channels && channels[ch.ID] == ch
      requires conn.wire == wire && IsSocketId(conn.SocketID) && ColonFree(ch.ID)
      modifies `rosters, `held, ch, trace, wire, redis.server`keys, redis.server`views
      ensures ChannelsFit() && RedisFits() && ok == Joined(ch.ID, d)
      ensures Now() == Entered(old(Now()), redis.instanceID, ch.ID, conn.SocketID, d)
    {
      ghost var before := Now();
      ok := Enroll(ch, conn, d);
      assert Now() == Handlers.Local(before, Op.Enter(ch.ID, conn.SocketID, d));
      RedisKept();
      MirrorAccepted(ok, ch.ID, conn.SocketID, d);
    }

    /** The local half of Unsubscribe; the other channels are left alone. */
    method Depart(ch: Channel, conn: Connection, ghost before: App) returns (ok: bool, ghost st: Chan)
      requires ChannelsFit() && ch.ID in channels && channels[ch.ID] == ch && before == Local()
      modifies ch, trace, wire
      ensures OthersFit(ch.ID) && ch in members && ch.Valid() && ok == Subscribed(before, ch.ID, conn.SocketID)
      ensures st == Leave(ch.ID, View(before, ch.ID), conn.SocketID)
      ensures ch.Contents() == st.subs && Local() == before.(logs := st.logs, hooks := st.hooks)
    {
      ok := ch.Unsubscribe(conn);
      OthersKept(ch);
      st := ch.State();
    }

    method Withdraw(ch: Channel, conn: Connection) returns (ok: bool)
      requires ChannelsFit() && ch.ID in channels && channels[ch.ID] == ch
      modifies `rosters, `held, ch, trace, wire
      ensures ChannelsFit() && ok == Subscribed(old(Local()), ch.ID, conn.SocketID)
      ensures Local() == if ok then Apply(old(Local()), Exit(ch.ID, conn.SocketID)) else old(Local())
    {
      ghost var before := Local();
      ghost var st;
      ok, st := Depart(ch, conn, before);
      Track(ch);
      assert Local() == before.(logs := st.logs, hooks := st.hooks).(channels := before.channels[ch.ID := st.subs]);
      ExitIs(before, ch.ID, conn.SocketID, st);
    }

    /** The registry calls after a local unsubscribe. */
    method MirrorLeave(c: string, s: SocketId)
      requires RedisFits() && ColonFree(c) && IsSocketId(s)
      modifies redis.server`keys, redis.server`views
      ensures RedisFits() && Now() == MirroredLeave(old(Now()), c, s)
    {
      redis.UnsubscribeFromChannel(appID, c, s);
      if IsPresence(c) {
        redis.RemovePresenceData(appID, c, s);
      }
    }

    /** A channel that is no longer occupied is removed. */
    method Prune(ch: Channel)
      requires ChannelsFit() && RedisFits() && ch.ID in channels && channels[ch.ID] == ch
      modifies `channels, `rosters, `channelSubscribers, `stats
      ensures ChannelsFit() && Now() == Pruned(old(Now()), ch.ID)
    {
      var n := ch.TotalSubscriptions();
      if n == 0 {
        RemoveChannel(ch);
      }
    }

    /** What follows a local unsubscribe. */
    method Retire(ch: Channel, s: SocketId)
      requires ChannelsFit() && RedisFits() && ch.ID in channels && channels[ch.ID] == ch
      requires ColonFree(ch.ID) && IsSocketId(s)
      modifies `channels, `rosters, `channelSubscribers, `stats, redis.server`keys, redis.server`views
      ensures ChannelsFit() && RedisFits() && Now() == Pruned(MirroredLeave(old(Now()), ch.ID, s), ch.ID)
    {
      MirrorLeave(ch.ID, s);
      ChannelsKept();
      label mirrored:
      Prune(ch);
      RedisKept@mirrored();
    }

    /** Unsubscribe: locally, then in Redis, then the channel goes if it is empty; false is the error of no subscription. */
    method Unsubscribe(ch: Channel, conn: Connection) returns (ok: bool)
      requires ChannelsFit() && RedisFits() && ch.ID in channels && channels[ch.ID] == ch
      requires IsSocketId(conn.SocketID) && (rosters[ch.ID] != map[] ==> ColonFree(ch.ID))
      modifies `channels, `rosters, `held, `channelSubscribers, `stats, ch, trace, wire
      modifies redis.server`keys, redis.server`views
      ensures ChannelsFit() && RedisFits() && ok == Subscribed(old(Now()).app, ch.ID, conn.SocketID)
      ensures Now() == Left(old(Now()), ch.ID, conn.SocketID)
    {
      ok := Withdraw(ch, conn);
      RedisKept();
      if ok {
        Retire(ch, conn.SocketID);
      }
    }

    // ---------- Disconnect ----------

    /** One round of Disconnect's loop. */
    method LeaveOne(c: string, conn: Connection)
      requires ChannelsFit() && RedisFits() && c in channels
      requires IsSocketId(conn.SocketID) && (rosters[c] != map[] ==> ColonFree(c))
      modifies `channels, `rosters, `held, `channelSubscribers, `stats, members, trace, wire
      modifies redis.server`keys, redis.server`views
      ensures ChannelsFit() && RedisFits() && Now() == Left(old(Now()), c, conn.SocketID)
    {
      var ch := channels[c];
      var subscribed := ch.IsSubscribed(conn);
      if subscribed {
        var ok := Unsubscribe(ch, conn);
      }
    }

    /** The same, in the middle of the loop. */
    method LeaveNext(
      c: string, conn: Connection, ghost before: World, ghost keys: set<string>, ghost left: set<string>, ghost order: seq<string>)
      requires ChannelsFit() && RedisFits() && IsSocketId(conn.SocketID) && c in left
      requires Midway(before, Now(), conn.SocketID, keys, left, order)
      modifies `channels, `rosters, `held, `channelSubscribers, `stats, members, trace, wire
      modifies redis.server`keys, redis.server`views
      ensures ChannelsFit() && RedisFits() && Midway(before, Now(), conn.SocketID, keys, left - {c}, order + [c])
    {
      MidwayStep(before, Now(), conn.SocketID, keys, left, order, c);
      LeaveOne(c, conn);
    }

    /** The loop of Disconnect: it deletes from the map it ranges over, in some order. */
    method LeaveChannels(conn: Connection) returns (ghost order: seq<string>)
      requires ChannelsFit() && RedisFits() && NamesPlain(Now()) && IsSocketId(conn.SocketID)
      modifies `channels, `rosters, `held, `channelSubscribers, `stats, members, trace, wire
      modifies redis.server`keys, redis.server`views
      ensures ChannelsFit() && RedisFits()
      ensures Lists(order, old(channels.Keys)) && Now() == LeftAll(old(Now()), conn.SocketID, order)
    {
      var left := channels.Keys;
      ghost var before, keys := Now(), channels.Keys;
      order := [];
      MidwayStart(before, conn.SocketID, keys);
      while left != {}
        invariant ChannelsFit() && RedisFits() && Midway(before, Now(), conn.SocketID, keys, left, order)
        decreases |left|
      {
        var c :| c in left;
        LeaveNext(c, conn, before, keys, left, order);
        left := left - {c};
        order := order + [c];
      }
      MidwayEnd(before, Now(), conn.SocketID, keys, order);
    }

    /** Taken off the map, if it is still there. */
    method Delist(s: SocketId)
      requires ConnectionsFit()
      modifies `connections, `stats
      ensures ConnectionsFit() && connections == old(connections) - {s}
      ensures Local() == if s in old(connections) then Apply(old(Local()), DropConn(s)) else old(Local())
    {
      if s !in connections {
        return;
      }
      connections := connections - {s};
      stats := stats.(connections := stats.connections - 1);
    }

    /** Unregistered in Redis first, then taken off the map. */
    method Drop(s: SocketId)
      requires ChannelsFit() && ConnectionsFit() && RedisFits() && IsSocketId(s) && s in connections
      modifies `connections, `stats, redis.server`keys, redis.server`views
      ensures ChannelsFit() && ConnectionsFit() && RedisFits()
      ensures Now() == Handlers.Local(Redis(old(Now()), RedisOp.DelConn(s)), DropConn(s))
    {
      redis.UnregisterConnection(appID, s);
      Delist(s);
      ChannelsKept();
    }

    /** Disconnect of a known socket. */
    method CloseOut(conn: Connection) returns (ghost order: seq<string>)
      requires ChannelsFit() && ConnectionsFit() && RedisFits() && NamesPlain(Now()) && IsSocketId(conn.SocketID)
      requires conn.SocketID in connections
      modifies `channels, `rosters, `held, `channelSubscribers, `stats, `connections, members, trace, wire, redis.server`keys, redis.server`views
      ensures ChannelsFit() && ConnectionsFit() && RedisFits() && Lists(order, old(channels.Keys))
      ensures Now() ==
        Handlers.Local(Redis(LeftAll(old(Now()), conn.SocketID, order), RedisOp.DelConn(conn.SocketID)), DropConn(conn.SocketID))
    {
      order := LeaveChannels(conn);
      Drop(conn.SocketID);
    }

    /** Disconnect: out of every channel, then out of Redis, then out of the map; nothing for an unknown socket. */
    method Disconnect(s: SocketId) returns (ghost order: seq<string>)
      requires Valid() && NamesPlain(Now())
      modifies this, members, trace, wire, redis.server`keys, redis.server`views
      ensures Valid() && Lists(order, old(channels.Keys)) && Now() == Disconnected(old(Now()), s, order)
    {
      order := Enumeration(channels.Keys);
      var found := FindConnection(s);
      if found.Some? {
        order := CloseOut(found.value);
      }
    }

    // ---------- Publish ----------

    /** The local half of Publish: the counter and the local subscribers. */
    method TellLocally(ch: Channel, e: Raw, ignore: SocketId, tag: Tag) returns (ok: bool)
      requires ChannelsFit() && ch.ID in channels && channels[ch.ID] == ch
      modifies `stats, trace, wire
      ensures ChannelsFit() && ok == e.payload.Some?
      ensures Local() == Apply(Apply(old(Local()), Count), Send(ch.ID, e, ignore, tag))
      ensures stats.unique == old(stats.unique) + 1
    {
      stats := stats.(unique := stats.unique + 1);
      ok := Relay(ch, e, ignore, tag);
    }

    method Relay(ch: Channel, e: Raw, skip: SocketId, tag: Tag) returns (ok: bool)
      requires ChannelsFit() && ch.ID in channels && channels[ch.ID] == ch
      modifies trace, wire
      ensures ChannelsFit() && ok == e.payload.Some?
      ensures Local() == Apply(old(Local()), Send(ch.ID, e, skip, tag))
    {
      ghost var before := Local();
      ok := ch.Publish(e, skip, tag);
      ChannelsKept();
      assert Local() == Put(before, ch.ID, ch.State());
    }

    /** The scan for a subscriber of another instance stops at the first one. */
    method HasRemoteSubscribers(c: string) returns (yes: bool)
      requires RedisFits()
      ensures yes == RemoteSubscriber(redis.server.views[appID], redis.instanceID, c)
    {
      var subscribers := redis.GetChannelSubscriptions(appID, c);
      yes := false;
      var k := 0;
      while k < |subscribers|
        invariant 0 <= k <= |subscribers| && !yes
        invariant forall j :: 0 <= j < k ==>
          var r := redis.server.views[appID]; subscribers[j] in r.conns ==> r.conns[subscribers[j]] == redis.instanceID
      {
        var i := redis.GetConnectionInstance(appID, subscribers[k]);
        if i.Some? && i.value != redis.instanceID {
          assert subscribers[k] in Members(redis.server.views[appID], c);
          yes := true;
          break;
        }
        k := k + 1;
      }
    }

    /** The Redis half of Publish. */
    method Forward(c: string, e: Raw, tag: Tag)
      requires RedisFits()
      modifies redis.server`listeners
      ensures RedisFits() && Now() == Forwarded(old(Now()), redis.instanceID, c, e, tag)
    {
      var remote := HasRemoteSubscribers(c);
      if remote && e.payload.Some? {
        redis.PublishEvent(appID, c, Note(e.name, e.chan, e.payload.value, tag));
      }
    }

    /** Publish: locally first; then through Redis if the registry shows a subscriber elsewhere. */
    method Publish(ch: Channel, e: Raw, ignore: SocketId, tag: Tag) returns (ok: bool)
      requires ChannelsFit() && RedisFits() && ch.ID in channels && channels[ch.ID] == ch
      modifies `stats, trace, wire, redis.server`listeners
      ensures ChannelsFit() && RedisFits() && ok == e.payload.Some?
      ensures Now() == Published(old(Now()), redis.instanceID, ch.ID, e, ignore, tag)
      ensures stats.unique == old(stats.unique) + 1
    {
      ok := TellLocally(ch, e, ignore, tag);
      RedisKept();
      label told:
      Forward(ch.ID, e, tag);
      ChannelsKept@told();
    }

    /** The socket a relayed message must skip: its sender, if it is connected to this instance. */
    method Ignored(sender: SocketId) returns (skip: SocketId)
      requires RedisFits()
      ensures skip == SkipOf(Now(), redis.instanceID, sender)
    {
      skip := "";
      if sender != "" {
        var i := redis.GetConnectionInstance(appID, sender);
        if i == Some(redis.instanceID) {
          skip := sender;
        }
      }
    }

    /** A listener hears a message: to the local subscribers, if the channel is there. */
    method Hear(c: string, note: Note)
      requires ChannelsFit() && RedisFits()
      modifies trace, wire
      ensures ChannelsFit() && RedisFits() && Now() == Heard(old(Now()), redis.instanceID, c, note)
    {
      var found := FindChannel(c);
      if found.Some? {
        var skip := Ignored(note.tag.ignore);
        var sent := Relay(found.value, Raw(note.name, note.chan, Some(note.payload)), skip, note.tag);
        RedisKept();
      }
    }

    // ---------- the channel lists ----------

    method PresenceChannels() returns (list: seq<Channel>)
      requires ChannelsFit()
      ensures ListsChannels(list, Kind(rosters, IsPresence))
    {
      list := Filter(IsPresence);
    }

    method PrivateChannels() returns (list: seq<Channel>)
      requires ChannelsFit()
      ensures ListsChannels(list, Kind(rosters, IsPrivate))
    {
      list := Filter(IsPrivate);
    }

    method PublicChannels() returns (list: seq<Channel>)
      requires ChannelsFit()
      ensures ListsChannels(list, Kind(rosters, IsPublic))
    {
      list := Filter(IsPublic);
    }

    method Channels() returns (list: seq<Channel>)
      requires ChannelsFit()
      ensures ListsChannels(list, channels.Keys)
    {
      list := Filter(c => true);
      assert Kind(rosters, c => true) == channels.Keys;
    }

    /** The channels with these names, each once. */
    ghost predicate ListsChannels(list: seq<Channel>, names: set<string>)
      reads `channels
    {
      && |list| == |names|
      && (forall k :: 0 <= k < |list| ==> list[k].ID in names && list[k].ID in channels && channels[list[k].ID] == list[k])
      && (forall c :: c in names ==> c in channels && channels[c] in list)
    }

    method Filter(keep: string -> bool) returns (list: seq<Channel>)
      requires ChannelsFit()
      ensures ListsChannels(list, Kind(rosters, keep))
    {
      var left := channels.Keys;
      list := [];
      ghost var names: set<string> := {};
      while left != {}
        invariant left <= channels.Keys && names !! left
        invariant forall c :: c in names <==> c in channels && c !in left && keep(c)
        invariant ListsChannels(list, names)
        decreases left
      {
        var c :| c in left;
        left := left - {c};
        if keep(c) {
          list := list + [channels[c]];
          names := names + {c};
        }
      }
      assert names == Kind(rosters, keep);
    }
  }
}
