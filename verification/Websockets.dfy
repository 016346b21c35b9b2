/** The WebSocket handler of one connection, working on the application object. */
module Websockets {
  import opened Types
  import opened Names
  import opened Instance
  import opened Registry
  import opened RedisKeys
  import opened RedisClient
  import opened Connection
  import opened Channels
  import opened Handlers
  import opened Session
  import opened Applications

  ghost predicate Ready(app: Application)
    reads app, app.members, app.held, app.redis.server, app.wire, app.trace
  {
    app.Valid() && NamesPlain(app.Now())
  }

  /** A frame to the peer. */
  method Emit(app: Application, peer: Connection, m: Msg) returns (ok: bool)
    requires Ready(app) && peer.wire == app.wire
    modifies app.wire
    ensures Ready(app) && app.Now() == Say(old(app.Now()), peer.SocketID, m)
  {
    ok := peer.Publish(m);
  }

  /** An error frame to the peer, unless all is well. */
  method EmitUnless(app: Application, peer: Connection, ok: bool, m: Msg)
    requires Ready(app) && peer.wire == app.wire
    modifies app.wire
    ensures Ready(app) && app.Now() == if ok then old(app.Now()) else Say(old(app.Now()), peer.SocketID, m)
  {
    if !ok {
      var sent := Emit(app, peer, m);
    }
  }

  // The application's operations, between states that are ready; first with the fields they change by name.

  method Attach(app: Application, conn: Connection)
    requires Ready(app) && conn.wire == app.wire && IsSocketId(conn.SocketID)
    modifies app, app.redis.server
    ensures Ready(app) && app.members == old(app.members) && app.connections == old(app.connections)[conn.SocketID := conn]
    ensures app.Now() == Connected(old(app.Now()), app.redis.instanceID, conn.SocketID)
  {
    app.Connect(conn);
    app.ChannelsKept();
  }

  method Obtain(app: Application, c: string) returns (ch: Channel)
    requires Ready(app)
    modifies app, app.redis.server
    ensures Ready(app) && c in app.channels && app.channels[c] == ch && ch in app.members && ch.ID == c
    ensures old(app.members) <= app.members && fresh(app.members - old(app.members)) && app.connections == old(app.connections)
    ensures app.Now() == Created(old(app.Now()), app.redis.instanceID, c)
  {
    NamesCreated(app.Now(), app.redis.instanceID, c);
    ch := app.FindOrCreateChannel(c);
  }

  method JoinQuietly(app: Application, ch: Channel, conn: Connection, d: ChannelData) returns (ok: bool)
    requires Ready(app) && ch.ID in app.channels && app.channels[ch.ID] == ch
    requires conn.wire == app.wire && IsSocketId(conn.SocketID) && ColonFree(ch.ID)
    modifies app`rosters, app`held, ch, app.trace, app.wire
    modifies app.redis.server`keys, app.redis.server`views
    ensures Ready(app) && ok == Joined(ch.ID, d)
    ensures app.Now() == Entered(old(app.Now()), app.redis.instanceID, ch.ID, conn.SocketID, d)
  {
    NamesEntered(app.Now(), app.redis.instanceID, ch.ID, conn.SocketID, d);
    ok := app.Subscribe(ch, conn, d);
    app.ConnectionsKept();
  }

  method Join(app: Application, ch: Channel, conn: Connection, d: ChannelData) returns (ok: bool)
    requires Ready(app) && ch.ID in app.channels && app.channels[ch.ID] == ch
    requires conn.wire == app.wire && IsSocketId(conn.SocketID) && ColonFree(ch.ID)
    modifies app, ch, app.trace, app.wire, app.redis.server
    ensures Ready(app) && app.members == old(app.members) && ok == Joined(ch.ID, d)
    ensures app.Now() == Entered(old(app.Now()), app.redis.instanceID, ch.ID, conn.SocketID, d)
  {
    ok := JoinQuietly(app, ch, conn, d);
  }

  method LeaveValid(app: Application, ch: Channel, conn: Connection) returns (ok: bool)
    requires app.Valid() && ch.ID in app.channels && app.channels[ch.ID] == ch && IsSocketId(conn.SocketID)
    requires app.rosters[ch.ID] != map[] ==> ColonFree(ch.ID)
    modifies app`channels, app`rosters, app`held, app`channelSubscribers, app`stats, ch, app.trace, app.wire
    modifies app.redis.server`keys, app.redis.server`views
    ensures app.Valid() && ok == Subscribed(old(app.Now()).app, ch.ID, conn.SocketID)
    ensures app.Now() == Left(old(app.Now()), ch.ID, conn.SocketID)
  {
    ok := app.Unsubscribe(ch, conn);
  }

  method LeaveQuietly(app: Application, ch: Channel, conn: Connection) returns (ok: bool)
    requires Ready(app) && ch.ID in app.channels && app.channels[ch.ID] == ch && IsSocketId(conn.SocketID)
    modifies app`channels, app`rosters, app`held, app`channelSubscribers, app`stats, ch, app.trace, app.wire
    modifies app.redis.server`keys, app.redis.server`views
    ensures Ready(app) && ok == Subscribed(old(app.Now()).app, ch.ID, conn.SocketID)
    ensures app.Now() == Left(old(app.Now()), ch.ID, conn.SocketID)
  {
    NamesLeft(app.Now(), ch.ID, conn.SocketID);
    ok := LeaveValid(app, ch, conn);
  }

  method Leave(app: Application, ch: Channel, conn: Connection) returns (ok: bool)
    requires Ready(app) && ch.ID in app.channels && app.channels[ch.ID] == ch && IsSocketId(conn.SocketID)
    modifies app, ch, app.trace, app.wire, app.redis.server
    ensures Ready(app) && app.members == old(app.members) && ok == Subscribed(old(app.Now()).app, ch.ID, conn.SocketID)
    ensures app.Now() == Left(old(app.Now()), ch.ID, conn.SocketID)
  {
    ok := LeaveQuietly(app, ch, conn);
  }

  method PublishQuietly(app: Application, ch: Channel, e: Raw, ignore: SocketId, tag: Tag) returns (ok: bool)
    requires Ready(app) && ch.ID in app.channels && app.channels[ch.ID] == ch
    modifies app`stats, app.trace, app.wire, app.redis.server`listeners
    ensures Ready(app) && ok == e.payload.Some?
    ensures app.Now() == Published(old(app.Now()), app.redis.instanceID, ch.ID, e, ignore, tag)
  {
    NamesPublished(app.Now(), app.redis.instanceID, ch.ID, e, ignore, tag);
    ok := app.Publish(ch, e, ignore, tag);
    app.ConnectionsKept();
  }

  method Publish(app: Application, ch: Channel, e: Raw, ignore: SocketId, tag: Tag) returns (ok: bool)
    requires Ready(app) && ch.ID in app.channels && app.channels[ch.ID] == ch
    modifies app, app.trace, app.wire, app.redis.server
    ensures Ready(app) && app.members == old(app.members) && ok == e.payload.Some?
    ensures app.Now() == Published(old(app.Now()), app.redis.instanceID, ch.ID, e, ignore, tag)
  {
    ok := PublishQuietly(app, ch, e, ignore, tag);
  }

  // ---------- the handlers ----------

  /** A subscribe request that has found its channel. */
  method AdmitTo(app: Application, peer: Connection, conn: Connection, ch: Channel, d: ChannelData)
    requires Ready(app) && ch.ID in app.channels && app.channels[ch.ID] == ch && ColonFree(ch.ID)
    requires peer.wire == app.wire && conn.wire == app.wire && IsSocketId(conn.SocketID)
    modifies app, ch, app.trace, app.wire, app.redis.server
    ensures Ready(app) && app.members == old(app.members)
    ensures var w := Entered(old(app.Now()), app.redis.instanceID, ch.ID, conn.SocketID, d);
      app.Now() == if Joined(ch.ID, d) then w else Say(w, peer.SocketID, RECONNECT)
  {
    var ok := Join(app, ch, conn, d);
    EmitUnless(app, peer, ok, RECONNECT);
  }

  /** A subscribe request that has passed its checks. */
  method Admit(app: Application, peer: Connection, conn: Connection, c: string, d: ChannelData)
    requires Ready(app) && peer.wire == app.wire && conn.wire == app.wire && IsSocketId(conn.SocketID) && ColonFree(c)
    modifies app, app.members, app.trace, app.wire, app.redis.server
    ensures Ready(app) && fresh(app.members - old(app.members))
    ensures var w := Entered(Created(old(app.Now()), app.redis.instanceID, c), app.redis.instanceID, c, conn.SocketID, d);
      app.Now() == if Joined(c, d) then w else Say(w, peer.SocketID, RECONNECT)
  {
    var ch := Obtain(app, c);
    AdmitTo(app, peer, conn, ch, d);
  }

  /** Private and presence channels need a valid signature. */
  method Authorize(app: Application, peer: Connection, conn: Connection, c: string, d: ChannelData, authOk: bool)
    requires Ready(app) && peer.wire == app.wire && conn.wire == app.wire && IsSocketId(conn.SocketID) && IsChannelNameValid(c)
    modifies app, app.members, app.trace, app.wire, app.redis.server
    ensures Ready(app) && fresh(app.members - old(app.members))
    ensures app.Now() == OnAdmission(old(app.Now()), app.redis.instanceID, peer.SocketID, conn.SocketID, c, d, authOk)
  {
    if (IsPresence(c) || IsPrivate(c)) && !authOk {
      var sent := Emit(app, peer, BadAuth(c));
    } else {
      ChannelNameIsPlain(c);
      Admit(app, peer, conn, c, d);
    }
  }

  method HandleKnown(app: Application, peer: Connection, conn: Connection, c: string, d: ChannelData, authOk: bool)
    requires Ready(app) && peer.wire == app.wire && conn.wire == app.wire && IsSocketId(conn.SocketID)
    modifies app, app.members, app.trace, app.wire, app.redis.server
    ensures Ready(app) && fresh(app.members - old(app.members))
    ensures app.Now() == OnRequest(old(app.Now()), app.redis.instanceID, peer.SocketID, conn.SocketID, c, d, authOk)
  {
    if !IsChannelNameValid(c) {
      var sent := Emit(app, peer, BAD_NAME);
    } else {
      Authorize(app, peer, conn, c, d, authOk);
    }
  }

  method HandleSubscribe(app: Application, peer: Connection, s: SocketId, c: string, d: ChannelData, authOk: bool)
    requires Ready(app) && peer.wire == app.wire && peer.SocketID == s
    modifies app, app.members, app.trace, app.wire, app.redis.server
    ensures Ready(app) && fresh(app.members - old(app.members))
    ensures app.Now() == OnSubscribe(old(app.Now()), app.redis.instanceID, s, c, d, authOk)
  {
    var found := app.FindConnection(s);
    if found.None? {
      var sent := Emit(app, peer, RECONNECT);
    } else {
      HandleKnown(app, peer, found.value, c, d, authOk);
    }
  }

  /** Out of a channel that is there. */
  method Release(app: Application, peer: Connection, c: string, conn: Connection)
    requires Ready(app) && peer.wire == app.wire && c in app.channels
    requires conn.SocketID in app.connections && app.connections[conn.SocketID] == conn
    modifies app, app.members, app.trace, app.wire, app.redis.server
    ensures Ready(app) && app.members == old(app.members)
    ensures app.Now() == if Subscribed(old(app.Now()).app, c, conn.SocketID) then Left(old(app.Now()), c, conn.SocketID)
      else Say(old(app.Now()), peer.SocketID, RECONNECT)
  {
    var ok := Leave(app, app.channels[c], conn);
    EmitUnless(app, peer, ok, RECONNECT);
  }

  method HandleUnsubscribe(app: Application, peer: Connection, s: SocketId, c: string)
    requires Ready(app) && peer.wire == app.wire && peer.SocketID == s
    modifies app, app.members, app.trace, app.wire, app.redis.server
    ensures Ready(app) && app.members == old(app.members)
    ensures app.Now() == OnUnsubscribe(old(app.Now()), s, c)
  {
    var conn := app.FindConnection(s);
    if conn.None? {
      var sent := Emit(app, peer, Error(0, "Could not find a connection with the id " + s));
      return;
    }
    var found := app.FindChannel(c);
    if found.None? {
      var sent := Emit(app, peer, NoChannel(c));
      return;
    }
    Release(app, peer, c, conn.value);
  }

  /** The publication of a client event. */
  method Distribute(app: Application, peer: Connection, e: Raw, pid: nat)
    requires Ready(app) && peer.wire == app.wire && e.chan in app.channels
    modifies app, app.trace, app.wire, app.redis.server
    ensures Ready(app) && app.members == old(app.members)
    ensures var w := Published(old(app.Now()), app.redis.instanceID, e.chan, e, peer.SocketID, Tag(pid, e.chan, peer.SocketID));
      app.Now() == if e.payload.None? then Say(w, peer.SocketID, RECONNECT) else w
  {
    var ok := Publish(app, app.channels[e.chan], e, peer.SocketID, Tag(pid, e.chan, peer.SocketID));
    EmitUnless(app, peer, ok, RECONNECT);
  }

  method HandleClientEvent(app: Application, peer: Connection, s: SocketId, userEvents: bool, e: Raw, pid: nat)
    requires Ready(app) && peer.wire == app.wire && peer.SocketID == s
    modifies app, app.trace, app.wire, app.redis.server
    ensures Ready(app) && app.members == old(app.members)
    ensures app.Now() == OnClientEvent(old(app.Now()), app.redis.instanceID, s, userEvents, e, pid)
  {
    if !userEvents {
      var sent := Emit(app, peer, USER_EVENTS_OFF);
    }
    var found := app.FindChannel(e.chan);
    if found.None? {
      var sent := Emit(app, peer, NoChannel(e.chan));
    } else if !IsPresenceOrPrivate(e.chan) {
      var sent := Emit(app, peer, NOT_ALLOWED);
    } else {
      Distribute(app, peer, e, pid);
    }
  }

  /** One decoded message. */
  method Dispatch(app: Application, peer: Connection, s: SocketId, userEvents: bool, req: Request)
    requires Ready(app) && peer.wire == app.wire && peer.SocketID == s
    modifies app, app.members, app.trace, app.wire, app.redis.server
    ensures Ready(app) && fresh(app.members - old(app.members))
    ensures app.Now() == Handle(old(app.Now()), app.redis.instanceID, s, userEvents, req)
  {
    match req {
      case Ping => var sent := Emit(app, peer, Pong);
      case Subscribe(c, d, authOk) => HandleSubscribe(app, peer, s, c, d, authOk);
      case Unsubscribe(c) => HandleUnsubscribe(app, peer, s, c);
      case Client(e, pid) => HandleClientEvent(app, peer, s, userEvents, e, pid);
      case Garbled => var sent := Emit(app, peer, RECONNECT);
      case Unknown =>
    }
  }

  /** The read loop ends at the first read that is not a message. */
  method ReadLoop(app: Application, peer: Connection, s: SocketId, userEvents: bool, inbox: seq<Read>)
    requires Ready(app) && peer.wire == app.wire && peer.SocketID == s
    modifies app, app.members, app.trace, app.wire, app.redis.server
    ensures Ready(app) && fresh(app.members - old(app.members))
    ensures app.Now() == Loop(old(app.Now()), app.redis.instanceID, s, userEvents, inbox)
  {
    var k := 0;
    while k < |inbox|
      invariant 0 <= k <= |inbox|
      invariant Ready(app) && fresh(app.members - old(app.members))
      invariant Loop(app.Now(), app.redis.instanceID, s, userEvents, inbox[k..]) ==
        Loop(old(app.Now()), app.redis.instanceID, s, userEvents, inbox)
    {
      match inbox[k] {
        case Got(req) => Dispatch(app, peer, s, userEvents, req);
        case NotJson =>
          var sent := Emit(app, peer, RECONNECT);
          return;
        case Failed(quiet) =>
          if !quiet {
            var sent := Emit(app, peer, RECONNECT);
          }
          return;
      }
      assert inbox[k..][1..] == inbox[k + 1..];
      k := k + 1;
    }
  }

  /** The life of the socket after the greeting: nothing for an unknown one; every exit of the loop disconnects. */
  method HandleMessages(app: Application, s: SocketId, userEvents: bool, inbox: seq<Read>) returns (ghost order: seq<string>)
    requires Ready(app)
    modifies app, app.members, app.trace, app.wire, app.redis.server
    ensures app.Valid()
    ensures s !in old(app.connections) ==> app.Now() == old(app.Now())
    ensures var w := Loop(old(app.Now()), app.redis.instanceID, s, userEvents, inbox);
      s in old(app.connections) ==> Lists(order, w.app.channels.Keys) && app.Now() == Disconnected(w, s, order)
  {
    order := [];
    var peer := app.FindConnection(s);
    if peer.Some? {
      ReadLoop(app, peer.value, s, userEvents, inbox);
      order := app.Disconnect(s);
    }
  }

  /** onOpen once its checks have passed: connected first, then greeted; an unsuccessful greeting disconnects. */
  method Open(app: Application, s: SocketId) returns (greeted: bool, ghost order: seq<string>)
    requires Ready(app) && IsSocketId(s)
    modifies app, app.members, app.trace, app.wire, app.redis.server
    ensures app.Valid()
    ensures var w := Opened(old(app.Now()), app.redis.instanceID, s);
      Lists(order, w.app.channels.Keys) && app.Now() == if greeted then w else Disconnected(w, s, order)
    ensures greeted ==> Ready(app) && s in app.connections && app.members == old(app.members)
  {
    var conn := new Connection(s, app.wire);
    Attach(app, conn);
    greeted := Emit(app, conn, Established(s));
    order := Enumeration(app.channels.Keys);
    if !greeted {
      order := app.Disconnect(s);
    }
  }

  /** A whole session. */
  method Serve(app: Application, s: SocketId, userEvents: bool, inbox: seq<Read>)
    returns (greeted: bool, ghost order: seq<string>)
    requires Ready(app) && IsSocketId(s)
    modifies app, app.members, app.trace, app.wire, app.redis.server
    ensures app.Valid() && app.Now() == Whole(old(app.Now()), app.redis.instanceID, s, greeted, userEvents, inbox, order)
    ensures Lists(order, BeforeClose(old(app.Now()), app.redis.instanceID, s, greeted, userEvents, inbox).app.channels.Keys)
  {
    greeted, order := Open(app, s);
    if greeted {
      order := HandleMessages(app, s, userEvents, inbox);
    }
  }
}
