/** A channel object: its subscriptions are changed in place, and it writes to the connections they hold. */
module Channels {
  import opened Types
  import opened Names
  import opened Rosters
  import opened Instance
  import opened Connection
  import opened Output
  import P = Payload

  class Subscription {
    const conn: Connection
    var ID: UserId
    var Data: Option<Json>

    constructor (conn: Connection, d: ChannelData)
      ensures this.conn == conn && ID == "" && Data == AsJson(d)
    {
      this.conn, ID, Data := conn, "", AsJson(d);
    }
  }

  /** The webhooks fired, in order. */
  class HookTrace {
    var hooks: seq<Hook>

    constructor ()
      ensures hooks == []
    {
      hooks := [];
    }
  }

  /** One frame to one more socket. */
  lemma FanOutMore(logs: Logs, done: set<SocketId>, k: SocketId, m: Msg)
    requires k !in done
    ensures FanOut(FanOut(logs, done, m), {k}, m) == FanOut(logs, done + {k}, m)
  {
    var more, all := FanOut(FanOut(logs, done, m), {k}, m), FanOut(logs, done + {k}, m);
    assert more.Keys == all.Keys;
    forall s | s in all
      ensures more[s] == all[s]
    {
      assert more[s] == LogOf(more, s) && all[s] == LogOf(all, s);
    }
  }

  lemma JoinHooksSplit(hooks: seq<Hook>, c: string, size: nat, d: ChannelData)
    requires Joined(c, d)
    ensures hooks + JoinHooks(c, size, d) ==
      (if IsPresence(c) then hooks + [MemberJoined(c, d.userId)] else hooks) + if size == 1 then [Occupied(c)] else []
  {
  }

  lemma LeaveHooksSplit(hooks: seq<Hook>, c: string, subs: Roster, u: UserId)
    ensures hooks + LeaveHooks(c, subs, u) ==
      (if IsPresence(c) then hooks + [MemberLeft(c, u)] else hooks) + if subs == map[] then [Vacated(c)] else []
  {
  }

  /** The parts of a subscribe make the whole. */
  lemma JoinIs(c: string, st: Chan, s: SocketId, d: ChannelData, subs: Roster, logs: Logs, hooks: seq<Hook>)
    requires subs == st.subs[s := Entry(c, d)]
    requires logs == if Joined(c, d) then JoinLogs(c, st.logs, subs, s, d) else st.logs
    requires hooks == if Joined(c, d) then st.hooks + JoinHooks(c, |subs|, d) else st.hooks
    ensures Chan(subs, logs, hooks) == Join(c, st, s, d)
  {
    assert st.hooks + [] == st.hooks;
  }

  class Channel {
    const ID: string
    const trace: HookTrace
    const wire: Wire
    var subscriptions: map<SocketId, Subscription>

    /** The subscription objects this channel has made. */
    ghost var objects: set<Subscription>

    constructor (id: string, trace: HookTrace, wire: Wire)
      ensures ID == id && this.trace == trace && this.wire == wire && subscriptions == map[] && Valid()
    {
      ID, this.trace, this.wire, subscriptions, objects := id, trace, wire, map[], {};
    }

    /** Each subscription is filed under its own connection's socket ID. */
    ghost predicate Valid()
      reads this
    {
      forall s :: s in subscriptions ==>
        subscriptions[s] in objects && subscriptions[s].conn.SocketID == s && subscriptions[s].conn.wire == wire
    }

    ghost function Contents(): Roster
      requires Valid()
      reads this, objects
    {
      map s | s in subscriptions :: Sub(subscriptions[s].ID, subscriptions[s].Data)
    }

    /** The channel, the frames and the hooks as a value. */
    ghost function State(): Chan
      requires Valid()
      reads this, objects, wire, trace
    {
      Chan(Contents(), wire.published, trace.hooks)
    }

    /** One frame to every subscription but one (or to all). */
    method Broadcast(m: Msg, skip: SocketId)
      requires Valid()
      modifies wire
      ensures wire.published == FanOut(old(wire.published), subscriptions.Keys - {skip}, m)
    {
      var left := subscriptions.Keys;
      ghost var logs := wire.published;
      ghost var done: set<SocketId> := {};
      assert FanOut(logs, {}, m) == logs;
      while left != {}
        invariant left <= subscriptions.Keys && done !! left
        invariant forall s :: s in subscriptions ==> s in left || s in done || s == skip
        invariant done <= subscriptions.Keys && skip !in done
        invariant wire.published == FanOut(logs, done, m)
        decreases left
      {
        var k :| k in left;
        left := left - {k};
        if k != skip {
          FanOutMore(logs, done, k, m);
          var ok := subscriptions[k].conn.Publish(m);
          done := done + {k};
        }
      }
      assert done == subscriptions.Keys - {skip};
    }

    // ---------- Subscribe ----------

    /** A new subscription object is filed; the old one, if any, is replaced. */
    method File(conn: Connection, d: ChannelData) returns (sub: Subscription)
      requires Valid() && conn.wire == wire
      modifies `subscriptions, `objects
      ensures Valid() && fresh(sub) && objects == old(objects) + {sub} && sub.conn == conn && subscriptions == old(subscriptions)[conn.SocketID := sub]
      ensures Contents() == old(Contents())[conn.SocketID := Sub("", AsJson(d))]
    {
      sub := new Subscription(conn, d);
      subscriptions, objects := subscriptions[conn.SocketID := sub], objects + {sub};
    }

    /** Decoded user ID and info are assigned to the filed object; data that does not decode stays as it came. */
    method Decode(sub: Subscription, d: ChannelData, ghost was: Roster) returns (ok: bool)
      requires Valid() && sub.conn.SocketID in subscriptions && subscriptions[sub.conn.SocketID] == sub
      requires Contents() == was[sub.conn.SocketID := Sub("", AsJson(d))] && IsPresence(ID)
      modifies sub
      ensures ok == Joined(ID, d)
      ensures Contents() == was[sub.conn.SocketID := Entry(ID, d)]
    {
      if !d.Member? {
        return false;
      }
      sub.ID, sub.Data := d.userId, Some(Marshalled(d.userInfo));
      return true;
    }

    /** The subscription map after a subscribe. */
    method Enroll(conn: Connection, d: ChannelData) returns (ok: bool)
      requires Valid() && conn.wire == wire
      modifies `subscriptions, `objects
      ensures Valid() && fresh(objects - old(objects))
      ensures ok == Joined(ID, d)
      ensures Contents() == old(Contents())[conn.SocketID := Entry(ID, d)]
      ensures conn.SocketID in Contents() && Stores(ID, d, Contents()[conn.SocketID])
    {
      ghost var was := Contents();
      var sub := File(conn, d);
      ok := true;
      if IsPresence(ID) {
        ok := Decode(sub, d, was);
      }
    }

    /** The confirmation; on a presence channel it carries a snapshot of the members. */
    method Confirmation() returns (m: Msg)
      requires Valid()
      ensures m == SucceededMsg(ID, Contents())
    {
      m := Succeeded(ID, multiset{}, {}, 0);
      if IsPresence(ID) {
        var snapshot := map s | s in subscriptions :: Sub(subscriptions[s].ID, subscriptions[s].Data);
        var data := P.SucceededData(snapshot);
        m := Succeeded(ID, multiset(data.ids), data.hash.Keys, data.count);
      }
    }

    method TotalSubscriptions() returns (n: nat)
      requires Valid()
      ensures n == |Contents()|
    {
      assert Contents().Keys == subscriptions.Keys;
      n := |subscriptions|;
      assert n == |subscriptions.Keys|;
    }

    /** member_added to the others, and its hook. */
    method TellMembers(s: SocketId, d: ChannelData, ghost subs: Roster)
      requires Valid() && d.Member? && Contents() == subs
      modifies trace, wire
      ensures Contents() == subs
      ensures wire.published == FanOut(old(wire.published), subs.Keys - {s}, MemberAdded(ID, d))
      ensures trace.hooks == old(trace.hooks) + [MemberJoined(ID, d.userId)]
    {
      assert subscriptions.Keys == subs.Keys;
      Broadcast(MemberAdded(ID, d), s);
      trace.hooks := trace.hooks + [MemberJoined(ID, d.userId)];
    }

    /** subscription_succeeded to the newcomer. */
    method Confirm(conn: Connection, ghost subs: Roster)
      requires Valid() && conn.wire == wire && Contents() == subs
      modifies wire
      ensures Contents() == subs
      ensures wire.published == FanOut(old(wire.published), {conn.SocketID}, SucceededMsg(ID, subs))
    {
      var m := Confirmation();
      var sent := conn.Publish(m);
    }

    /** The occupied hook, if there is now one subscription. */
    method CheckOccupied(ghost subs: Roster)
      requires Valid() && Contents() == subs
      modifies trace
      ensures Contents() == subs
      ensures trace.hooks == old(trace.hooks) + if |subs| == 1 then [Occupied(ID)] else []
    {
      var n := TotalSubscriptions();
      if n == 1 {
        trace.hooks := trace.hooks + [Occupied(ID)];
      }
    }

    /** The frames and hooks of a subscribe whose data was accepted. */
    method Announce(conn: Connection, d: ChannelData, ghost subs: Roster)
      requires Valid() && conn.wire == wire && Joined(ID, d) && Contents() == subs
      modifies trace, wire
      ensures Contents() == subs
      ensures wire.published == JoinLogs(ID, old(wire.published), subs, conn.SocketID, d)
      ensures trace.hooks == old(trace.hooks) + JoinHooks(ID, |subs|, d)
    {
      ghost var hooks := trace.hooks;
      if IsPresence(ID) {
        TellMembers(conn.SocketID, d, subs);
      }
      Confirm(conn, subs);
      CheckOccupied(subs);
      JoinHooksSplit(hooks, ID, |subs|, d);
    }

    /** Subscribe; false is the error of presence data that does not decode. */
    method Subscribe(conn: Connection, d: ChannelData) returns (ok: bool)
      requires Valid() && conn.wire == wire
      modifies this, trace, wire
      ensures Valid() && fresh(objects - old(objects))
      ensures ok == Joined(ID, d)
      ensures State() == Join(ID, old(State()), conn.SocketID, d)
    {
      ghost var before := State();
      ok := Enroll(conn, d);
      ghost var subs := before.subs[conn.SocketID := Entry(ID, d)];
      if ok {
        Announce(conn, d, subs);
      }
      JoinIs(ID, before, conn.SocketID, d, subs, wire.published, trace.hooks);
    }

    // ---------- Unsubscribe ----------

    method IsSubscribed(conn: Connection) returns (yes: bool)
      requires Valid()
      ensures yes <==> conn.SocketID in Contents()
    {
      yes := conn.SocketID in subscriptions;
    }

    /** member_removed to those who stay, and its hook. */
    method TellLeft(s: SocketId, u: UserId, ghost subs: Roster)
      requires Valid() && s !in subs && Contents() == subs
      modifies trace, wire
      ensures Contents() == subs
      ensures wire.published == FanOut(old(wire.published), subs.Keys, MemberRemoved(ID, u))
      ensures trace.hooks == old(trace.hooks) + [MemberLeft(ID, u)]
    {
      assert subscriptions.Keys == subs.Keys == subs.Keys - {s};
      Broadcast(MemberRemoved(ID, u), s);
      trace.hooks := trace.hooks + [MemberLeft(ID, u)];
    }

    /** The vacated hook, if nobody is left. */
    method CheckVacated(ghost subs: Roster)
      requires Valid() && Contents() == subs
      modifies trace
      ensures Contents() == subs
      ensures trace.hooks == old(trace.hooks) + if subs == map[] then [Vacated(ID)] else []
    {
      var n := TotalSubscriptions();
      if n == 0 {
        trace.hooks := trace.hooks + [Vacated(ID)];
      }
    }

    /** The frames and hooks of an unsubscribe. */
    method Farewell(s: SocketId, u: UserId, ghost subs: Roster)
      requires Valid() && s !in subs && Contents() == subs
      modifies trace, wire
      ensures Contents() == subs
      ensures wire.published == LeaveLogs(ID, old(wire.published), subs, u)
      ensures trace.hooks == old(trace.hooks) + LeaveHooks(ID, subs, u)
    {
      ghost var hooks := trace.hooks;
      if IsPresence(ID) {
        TellLeft(s, u, subs);
      }
      CheckVacated(subs);
      LeaveHooksSplit(hooks, ID, subs, u);
    }

    /** Unsubscribe; false is the error "_subscription not found", and then nothing changes. */
    method Unsubscribe(conn: Connection) returns (ok: bool)
      requires Valid()
      modifies this, trace, wire
      ensures Valid() && objects == old(objects)
      ensures ok == (conn.SocketID in old(Contents()))
      ensures State() == Leave(ID, old(State()), conn.SocketID)
    {
      if conn.SocketID !in subscriptions {
        return false;
      }
      var sub := subscriptions[conn.SocketID];
      ghost var subs := Contents() - {conn.SocketID};
      subscriptions := subscriptions - {conn.SocketID};
      assert Contents() == subs;
      Farewell(conn.SocketID, sub.ID, subs);
      return true;
    }

    // ---------- Publish ----------

    /** One round of Publish: the frame, or for the ignored socket the client-event hook. */
    method TellOne(k: SocketId, e: Raw, ignore: SocketId, tag: Tag)
      requires Valid() && k in subscriptions && e.payload.Some?
      modifies trace, wire
      ensures Contents() == old(Contents())
      ensures wire.published == if k == ignore then old(wire.published)
        else FanOut(old(wire.published), {k}, Event(e.name, e.chan, e.payload.value, tag))
      ensures trace.hooks == old(trace.hooks) + if k == ignore then ClientHooks(ID, Contents(), e, k) else []
    {
      if k != ignore {
        var sent := subscriptions[k].conn.Publish(Event(e.name, e.chan, e.payload.value, tag));
      } else if IsClientEvent(e.name) {
        var u := if IsPresence(ID) then subscriptions[k].ID else "";
        trace.hooks := trace.hooks + [ClientEvent(ID, e.name, e.payload.value, k, u)];
      }
    }

    /** Publish to all subscribers but the ignored one, whose client event fires the hook; false is the error of data that is not JSON. */
    method Publish(e: Raw, ignore: SocketId, tag: Tag) returns (ok: bool)
      requires Valid()
      modifies trace, wire
      ensures ok == e.payload.Some?
      ensures State() == Tell(ID, old(State()), e, ignore, tag)
      ensures if e.payload.Some? && IsClientEvent(e.name) && ignore in Contents() then
          trace.hooks == old(trace.hooks) +
            [ClientEvent(ID, e.name, e.payload.value, ignore, if IsPresence(ID) then Contents()[ignore].id else "")]
        else trace.hooks == old(trace.hooks)
    {
      if e.payload.None? {
        return false;
      }
      ghost var m := Event(e.name, e.chan, e.payload.value, tag);
      ghost var subs, logs, hooks := Contents(), wire.published, trace.hooks;
      assert FanOut(logs, {}, m) == logs && subs.Keys == subscriptions.Keys;
      var left := subscriptions.Keys;
      ghost var done: set<SocketId> := {};
      while left != {}
        invariant left <= subs.Keys && done !! left && done <= subs.Keys && ignore !in done
        invariant forall s :: s in subs ==> s in left || s in done || s == ignore
        invariant Contents() == subs
        invariant wire.published == FanOut(logs, done, m)
        invariant trace.hooks == hooks + if ignore in left then [] else ClientHooks(ID, subs, e, ignore)
        decreases left
      {
        var k :| k in left;
        left := left - {k};
        FanOutMore(logs, done, k, m);
        TellOne(k, e, ignore, tag);
        if k != ignore {
          done := done + {k};
        }
      }
      assert done == subs.Keys - {ignore};
      return true;
    }
  }
}
