/** One WebSocket session: open, the message loop, close. */
module Session {
  import opened Types
  import opened Names
  import opened Instance
  import opened Registry
  import opened Handlers

  /**
   A decoded inbound message. `authOk` is the outcome of the signature check, and the
   channel name is already trimmed; Garbled is a known event whose body does not decode.
   */
  datatype Request =
    | Ping
    | Subscribe(c: string, d: ChannelData, authOk: bool)
    | Unsubscribe(c: string)
    | Client(e: Raw, pid: nat)
    | Garbled
    | Unknown

  /** What a read returns; a message that is not JSON ends the loop, as an error does. */
  datatype Read = Got(req: Request) | NotJson | Failed(quiet: bool)

  const RECONNECT := Error(4200, "Generic reconnect immediately")
  const USER_EVENTS_OFF := Error(0, "To send client events, you must enable this feature in the Settings.")
  const BAD_NAME := Error(0, "This channel name is not valid")
  const NOT_ALLOWED := Error(0, "Client event rejected - only supported on private and presence channels")

  function NoChannel(c: string): Msg { Error(0, "Could not find a channel with the id " + c) }

  function BadAuth(c: string): Msg { Error(0, "Auth value for subscription to " + c + " is invalid") }

  ghost function Say(w: World, s: SocketId, m: Msg): World { Local(w, Reply(s, m)) }

  /** Does a subscribe request reach its channel? */
  predicate Admitted(c: string, authOk: bool) {
    IsChannelNameValid(c) && (IsPresenceOrPrivate(c) ==> authOk)
  }

  /** A subscribe request with a valid channel name, for a connection that is there. */
  ghost function OnAdmission(
    w: World, i: InstanceId, peer: SocketId, s: SocketId, c: string, d: ChannelData, authOk: bool): World
  {
    if IsPresenceOrPrivate(c) && !authOk then Say(w, peer, BadAuth(c))
    else
      var entered := Entered(Created(w, i, c), i, c, s, d);
      if Joined(c, d) then entered else Say(entered, peer, RECONNECT)
  }

  ghost function OnRequest(
    w: World, i: InstanceId, peer: SocketId, s: SocketId, c: string, d: ChannelData, authOk: bool): World
  {
    if !IsChannelNameValid(c) then Say(w, peer, BAD_NAME) else OnAdmission(w, i, peer, s, c, d, authOk)
  }

  ghost function OnSubscribe(w: World, i: InstanceId, s: SocketId, c: string, d: ChannelData, authOk: bool): World {
    if s !in w.app.conns then Say(w, s, RECONNECT) else OnRequest(w, i, s, s, c, d, authOk)
  }

  ghost function OnUnsubscribe(w: World, s: SocketId, c: string): World {
    if s !in w.app.conns then Say(w, s, Error(0, "Could not find a connection with the id " + s))
    else if c !in w.app.channels then Say(w, s, NoChannel(c))
    else if !Subscribed(w.app, c, s) then Say(w, s, RECONNECT)
    else Left(w, c, s)
  }

  /** handleClientEvent after the user-events check. */
  ghost function ClientEventSent(w: World, i: InstanceId, s: SocketId, e: Raw, pid: nat): World {
    if e.chan !in w.app.channels then Say(w, s, NoChannel(e.chan))
    else if !IsPresenceOrPrivate(e.chan) then Say(w, s, NOT_ALLOWED)
    else
      var sent := Published(w, i, e.chan, e, s, Tag(pid, e.chan, s));
      if e.payload.None? then Say(sent, s, RECONNECT) else sent
  }

  /** With user events off the error is reported and the event still goes out. */
  ghost function OnClientEvent(w: World, i: InstanceId, s: SocketId, userEvents: bool, e: Raw, pid: nat): World {
    ClientEventSent(if userEvents then w else Say(w, s, USER_EVENTS_OFF), i, s, e, pid)
  }

  ghost function Handle(w: World, i: InstanceId, s: SocketId, userEvents: bool, req: Request): World {
    match req
    case Ping => Say(w, s, Pong)
    case Subscribe(c, d, authOk) => OnSubscribe(w, i, s, c, d, authOk)
    case Unsubscribe(c) => OnUnsubscribe(w, s, c)
    case Client(e, pid) => OnClientEvent(w, i, s, userEvents, e, pid)
    case Garbled => Say(w, s, RECONNECT)
    case Unknown => w
  }

  /** The message loop: it ends at the first read that is not a message. */
  ghost function Loop(w: World, i: InstanceId, s: SocketId, userEvents: bool, inbox: seq<Read>): World
    decreases |inbox|
  {
    if inbox == [] then w
    else
      match inbox[0]
      case Got(req) => Loop(Handle(w, i, s, userEvents, req), i, s, userEvents, inbox[1..])
      case NotJson => Say(w, s, RECONNECT)
      case Failed(quiet) => if quiet then w else Say(w, s, RECONNECT)
  }

  /** onOpen once the checks have passed. */
  ghost function Opened(w: World, i: InstanceId, s: SocketId): World {
    Say(Connected(w, i, s), s, Established(s))
  }

  /** A whole session: a failed greeting disconnects at once, and every exit of the loop disconnects. */
  ghost function Whole(
    w: World, i: InstanceId, s: SocketId, greeted: bool, userEvents: bool, inbox: seq<Read>, order: seq<string>): World
  {
    Disconnected(BeforeClose(w, i, s, greeted, userEvents, inbox), s, order)
  }

  ghost function BeforeClose(
    w: World, i: InstanceId, s: SocketId, greeted: bool, userEvents: bool, inbox: seq<Read>): World
  {
    if greeted then Loop(Opened(w, i, s), i, s, userEvents, inbox) else Opened(w, i, s)
  }

  // ---------- what a session leaves behind ----------

  /** The channels the session gets into. */
  function Entries(inbox: seq<Read>): set<string> {
    if inbox == [] then {}
    else
      match inbox[0]
      case Got(Subscribe(c, _, authOk)) => (if Admitted(c, authOk) then {c} else {}) + Entries(inbox[1..])
      case Got(_) => Entries(inbox[1..])
      case _ => {}
  }

  /** Sets and hashes without elements are absent, as in Redis. */
  ghost predicate Canonical(r: Store) {
    (forall c :: c in r.subs ==> r.subs[c] != {}) && (forall c :: c in r.users ==> r.users[c] != map[])
  }

  /** The socket has never been seen here. */
  ghost predicate Fresh(w: World, s: SocketId) {
    && s !in w.app.conns && s !in w.store.conns
    && (forall c :: s !in Members(w.store, c) && s !in Presence(w.store, c))
    && (forall c :: (c, s) !in w.store.meta && (c, s) !in w.store.info)
  }

  /** A channel that had no subscriber and that the session has entered. */
  predicate Spoilt(channels: map<string, Roster>, c: string, entered: set<string>) {
    c in channels && channels[c] == map[] && c in entered
  }

  /** The rosters during the session: those of others untouched, new channels held by the socket alone. */
  ghost predicate ChannelsApart(
    base: map<string, Roster>, now: map<string, Roster>, s: SocketId, entered: set<string>)
  {
    && (forall c :: c in base && !Spoilt(base, c, entered) ==> c in now && now[c] - {s} == base[c])
    && (forall c :: c in now && (c !in base || Spoilt(base, c, entered)) ==> now[c].Keys == {s})
    && (forall c :: c in now && s in now[c] ==> c in entered)
  }

  /** The registry entries of all other sockets are as before. */
  ghost predicate OthersSame(base: Store, now: Store, s: SocketId) {
    && (forall c :: Members(now, c) - {s} == Members(base, c))
    && (forall c :: Presence(now, c) - {s} == Presence(base, c))
    && (forall k: (string, SocketId) :: k.1 != s ==>
          && (k in now.meta <==> k in base.meta) && (k in now.meta ==> now.meta[k] == base.meta[k])
          && (k in now.info <==> k in base.info) && (k in now.info ==> now.info[k] == base.info[k]))
  }

  /** The registry holds something about the socket in this channel. */
  ghost predicate Listed(r: Store, c: string, s: SocketId) {
    s in Members(r, c) || s in Presence(r, c) || (c, s) in r.meta || (c, s) in r.info
  }

  /** It does so only where the socket is subscribed, and keeps presence data only for presence channels. */
  ghost predicate ListedWhereSubscribed(r: Store, channels: map<string, Roster>, s: SocketId) {
    forall c ::
      && (Listed(r, c, s) ==> c in channels && s in channels[c])
      && (s in Presence(r, c) || (c, s) in r.info ==> IsPresence(c))
  }

  ghost predicate During(base: World, w: World, i: InstanceId, s: SocketId, entered: set<string>) {
    && w.app.conns == base.app.conns + {s}
    && w.store.conns == base.store.conns[s := i]
    && ChannelsApart(base.app.channels, w.app.channels, s, entered)
    && OthersSame(base.store, w.store, s) && ListedWhereSubscribed(w.store, w.app.channels, s)
    && Canonical(w.store)
    && Sound(w.app)
  }
}
