/** Publishing over the HTTP API. */
module Api {
  import opened Types
  import opened Instance
  import opened Registry
  import opened Handlers
  import opened Applications
  import opened Websockets

  const MAX_DATA_EVENT_SIZE := 10000

  /** One channel of a POST. */
  method PostOne(app: Application, e: Raw, ignore: SocketId, pid: nat) returns (ok: bool)
    requires Ready(app)
    modifies app, app.trace, app.wire, app.redis.server
    ensures Ready(app) && ok == e.payload.Some?
    ensures app.Now() == PostedOne(old(app.Now()), app.redis.instanceID, e, ignore, pid)
  {
    var ch := Obtain(app, e.chan);
    ok := Websockets.Publish(app, ch, e, ignore, Tag(pid, e.chan, ignore));
  }

  /** One round of PostEvents. */
  method PostNext(
    app: Application, chans: seq<string>, k: nat, e: Raw, ignore: SocketId, number: nat -> nat, ghost before: World)
    requires Ready(app) && k < |chans|
    requires app.Now() == Posted(before, app.redis.instanceID, chans, k, e, ignore, number)
    modifies app, app.trace, app.wire, app.redis.server
    ensures Ready(app)
    ensures app.Now() == Posted(before, app.redis.instanceID, chans, k + 1, e, ignore, number)
  {
    PostedNext(before, app.Now(), app.redis.instanceID, chans, k, e, ignore, number);
    var ok := PostOne(app, Raw(e.name, chans[k], e.payload), ignore, number(k));
  }

  /** The loop of PostEvents. */
  method PostAll(app: Application, targets: seq<string>, e: Raw, ignore: SocketId, number: nat -> nat)
    requires Ready(app)
    modifies app, app.trace, app.wire, app.redis.server
    ensures Ready(app)
    ensures app.Now() == Posted(old(app.Now()), app.redis.instanceID, targets, |targets|, e, ignore, number)
  {
    ghost var before := app.Now();
    for k := 0 to |targets|
      invariant Ready(app)
      invariant app.Now() == Posted(before, app.redis.instanceID, targets, k, e, ignore, number)
    {
      PostNext(app, targets, k, e, ignore, number, before);
    }
  }

  /**
   PostEvents: too large a request does nothing; otherwise every channel of the list is served, created where
   need be, or the single channel if the list is empty and there is one.
   */
  method PostEvents(
    app: Application, chans: seq<string>, chan: string, name: string, payload: Option<Json>, size: nat, ignore: SocketId, number: nat -> nat)
    returns (accepted: bool)
    requires Ready(app)
    modifies app, app.trace, app.wire, app.redis.server
    ensures Ready(app) && accepted == (size <= 10000)
    ensures !accepted || (chans == [] && chan == "") ==> app.Now() == old(app.Now())
    ensures accepted && chans != [] ==>
      app.Now() == Posted(old(app.Now()), app.redis.instanceID, chans, |chans|, Raw(name, chan, payload), ignore, number)
    ensures accepted && chans == [] && chan != "" ==>
      app.Now() == PostedOne(old(app.Now()), app.redis.instanceID, Raw(name, chan, payload), ignore, number(0))
  {
    if size > MAX_DATA_EVENT_SIZE {
      return false;
    }
    var targets := if chan != "" && chans == [] then [chan] else chans;
    SingleTarget(app.Now(), app.redis.instanceID, name, chan, payload, ignore, number);
    PostAll(app, targets, Raw(name, chan, payload), ignore, number);
    return true;
  }

  lemma SingleTarget(w: World, i: InstanceId, name: string, chan: string, payload: Option<Json>, ignore: SocketId, number: nat -> nat)
    ensures var e := Raw(name, chan, payload); Posted(w, i, [chan], 1, e, ignore, number) == PostedOne(w, i, e, ignore, number(0))
  {
    assert Posted(w, i, [chan], 0, Raw(name, chan, payload), ignore, number) == w;
  }
}
