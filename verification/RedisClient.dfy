/** The Redis client: each method formats its keys and issues its commands. Commands succeed and keys do not expire. */
module RedisClient {
  import opened Types
  import opened Names
  import opened Registry
  import opened RedisKeys
  import opened RedisServer

  /** The shared server. `views` are the registries that its key space represents, by application. */
  class Server {
    var keys: Keys
    var listeners: map<string, seq<Listener>>
    ghost var views: map<string, Store>

    ghost predicate Valid()
      reads this
    {
      && PlainOnly(keys)
      && (forall a :: a in views ==> Represents(keys, a, views[a]))
      && views.Keys == listeners.Keys
    }

    /** An empty server for some applications. */
    constructor (apps: set<string>)
      requires forall a :: a in apps ==> ColonFree(a)
      ensures Valid() && keys == map[] && views.Keys == apps
      ensures forall a :: a in apps ==> views[a] == Store(map[], map[], map[], map[], map[]) && listeners[a] == []
    {
      keys := map[];
      listeners := map a | a in apps :: [];
      views := map a | a in apps :: Store(map[], map[], map[], map[], map[]);
    }

    method Set(key: string, v: Value)
      modifies `keys
      ensures keys == old(keys)[key := v]
    {
      keys := keys[key := v];
    }

    method Del(key: string)
      modifies `keys
      ensures keys == old(keys) - {key}
    {
      keys := keys - {key};
    }

    /** SADD; a key of another type is an error that changes nothing. */
    method SAdd(key: string, s: SocketId)
      modifies `keys
      ensures keys == Stored(old(keys), key, NewValue(Look(old(keys), key), RedisOp.SAdd(key, s)))
    {
      if key !in keys {
        keys := keys[key := Elements({s})];
      } else if keys[key].Elements? {
        keys := keys[key := Elements(keys[key].members + {s})];
      }
    }

    /** SREM; a set that becomes empty disappears. */
    method SRem(key: string, s: SocketId)
      modifies `keys
      ensures keys == Stored(old(keys), key, NewValue(Look(old(keys), key), RedisOp.SRem(key, s)))
    {
      if key in keys && keys[key].Elements? {
        var left := keys[key].members - {s};
        keys := if left == {} then keys - {key} else keys[key := Elements(left)];
      }
    }

    method HSet(key: string, s: SocketId, u: UserId)
      modifies `keys
      ensures keys == Stored(old(keys), key, NewValue(Look(old(keys), key), RedisOp.HSet(key, s, u)))
    {
      if key !in keys {
        keys := keys[key := Fields(map[s := u])];
      } else if keys[key].Fields? {
        keys := keys[key := Fields(keys[key].fields[s := u])];
      }
    }

    method HDel(key: string, s: SocketId)
      modifies `keys
      ensures keys == Stored(old(keys), key, NewValue(Look(old(keys), key), RedisOp.HDel(key, s)))
    {
      if key in keys && keys[key].Fields? {
        var left := keys[key].fields - {s};
        keys := if left == map[] then keys - {key} else keys[key := Fields(left)];
      }
    }

    /** After one command the views follow: the application's changes, the others stay. */
    ghost method Follow(app: string, op: RedisOp, before: Keys)
      requires app in views && PlainArgs(op) && IsWrite(op) && PlainOnly(before) && views.Keys == listeners.Keys
      requires forall a :: a in views ==> Represents(before, a, views[a])
      requires keys == Execute(before, app, op)
      modifies `views
      ensures Valid() && views == old(views)[app := Commit(old(views)[app], op)]
    {
      forall a | a in views && a != app
        ensures Represents(keys, a, views[a])
      {
        ExecuteSpares(before, app, op, a, views[a]);
      }
      ExecuteRefinesOwn(before, app, views[app], op);
      views := views[app := Commit(views[app], op)];
    }
  }

  class Client {
    const server: Server
    const instanceID: InstanceId

    constructor (server: Server, instanceID: InstanceId)
      ensures this.server == server && this.instanceID == instanceID
    {
      this.server := server;
      this.instanceID := instanceID;
    }

    /** The application's registry after an operation. */
    ghost function After(app: string, op: RedisOp): map<string, Store>
      reads server
      requires app in server.views
    {
      server.views[app := Commit(server.views[app], op)]
    }

    method RegisterConnection(app: string, s: SocketId)
      requires server.Valid() && app in server.views && IsSocketId(s)
      modifies server`keys, server`views
      ensures server.Valid() && server.views == old(After(app, SetConn(s, instanceID)))
    {
      ghost var before := server.keys;
      server.Set(ConnKey(app, s), ConnDoc(instanceID));
      server.Follow(app, SetConn(s, instanceID), before);
    }

    method UnregisterConnection(app: string, s: SocketId)
      requires server.Valid() && app in server.views && IsSocketId(s)
      modifies server`keys, server`views
      ensures server.Valid() && server.views == old(After(app, DelConn(s)))
    {
      ghost var before := server.keys;
      server.Del(ConnKey(app, s));
      server.Follow(app, DelConn(s), before);
    }

    /** The instance a socket is registered to; None is the error "connection not found". */
    method GetConnectionInstance(app: string, s: SocketId) returns (i: Option<InstanceId>)
      requires server.Valid() && app in server.views
      ensures var r := server.views[app]; i == if s in r.conns then Some(r.conns[s]) else None
    {
      ConnRead(server.keys, app, server.views[app], s);
      var key := ConnKey(app, s);
      i := if key in server.keys then Some(server.keys[key].i) else None;
    }

    // One command each.

    method AddMember(app: string, c: string, s: SocketId)
      requires server.Valid() && app in server.views && ColonFree(c)
      modifies server`keys, server`views
      ensures server.Valid() && server.views == old(After(app, SAdd(c, s)))
    {
      ghost var before := server.keys;
      server.SAdd(SetKey(app, c), s);
      server.Follow(app, SAdd(c, s), before);
    }

    method DropMember(app: string, c: string, s: SocketId)
      requires server.Valid() && app in server.views && ColonFree(c)
      modifies server`keys, server`views
      ensures server.Valid() && server.views == old(After(app, SRem(c, s)))
    {
      ghost var before := server.keys;
      server.SRem(SetKey(app, c), s);
      server.Follow(app, SRem(c, s), before);
    }

    method PutMeta(app: string, c: string, s: SocketId, m: Meta)
      requires server.Valid() && app in server.views && ColonFree(c) && IsSocketId(s)
      modifies server`keys, server`views
      ensures server.Valid() && server.views == old(After(app, SetMeta(c, s, m)))
    {
      ghost var before := server.keys;
      server.Set(MetaKey(app, c, s), SubDoc(m));
      server.Follow(app, SetMeta(c, s, m), before);
    }

    method DropMeta(app: string, c: string, s: SocketId)
      requires server.Valid() && app in server.views && ColonFree(c) && IsSocketId(s)
      modifies server`keys, server`views
      ensures server.Valid() && server.views == old(After(app, DelMeta(c, s)))
    {
      ghost var before := server.keys;
      server.Del(MetaKey(app, c, s));
      server.Follow(app, DelMeta(c, s), before);
    }

    method PutUser(app: string, c: string, s: SocketId, u: UserId)
      requires server.Valid() && app in server.views && ColonFree(c)
      modifies server`keys, server`views
      ensures server.Valid() && server.views == old(After(app, HSet(c, s, u)))
    {
      ghost var before := server.keys;
      server.HSet(HashKey(app, c), s, u);
      server.Follow(app, HSet(c, s, u), before);
    }

    method DropUser(app: string, c: string, s: SocketId)
      requires server.Valid() && app in server.views && ColonFree(c)
      modifies server`keys, server`views
      ensures server.Valid() && server.views == old(After(app, HDel(c, s)))
    {
      ghost var before := server.keys;
      server.HDel(HashKey(app, c), s);
      server.Follow(app, HDel(c, s), before);
    }

    method PutInfo(app: string, c: string, s: SocketId, info: Option<Json>)
      requires server.Valid() && app in server.views && ColonFree(c) && IsSocketId(s)
      modifies server`keys, server`views
      ensures server.Valid() && server.views == old(After(app, SetInfo(c, s, info)))
    {
      ghost var before := server.keys;
      server.Set(InfoKey(app, c, s), InfoDoc(info));
      server.Follow(app, SetInfo(c, s, info), before);
    }

    method DropInfo(app: string, c: string, s: SocketId)
      requires server.Valid() && app in server.views && ColonFree(c) && IsSocketId(s)
      modifies server`keys, server`views
      ensures server.Valid() && server.views == old(After(app, DelInfo(c, s)))
    {
      ghost var before := server.keys;
      server.Del(InfoKey(app, c, s));
      server.Follow(app, DelInfo(c, s), before);
    }

    method SubscribeToChannel(app: string, c: string, s: SocketId, d: ChannelData)
      requires server.Valid() && app in server.views && ColonFree(c) && IsSocketId(s)
      modifies server`keys, server`views
      ensures server.Valid()
      ensures server.views == old(server.views)[app :=
        Commit(Commit(old(server.views)[app], SAdd(c, s)), SetMeta(c, s, Meta(instanceID, d)))]
    {
      AddMember(app, c, s);
      PutMeta(app, c, s, Meta(instanceID, d));
    }

    method UnsubscribeFromChannel(app: string, c: string, s: SocketId)
      requires server.Valid() && app in server.views && ColonFree(c) && IsSocketId(s)
      modifies server`keys, server`views
      ensures server.Valid()
      ensures server.views == old(server.views)[app :=
        Commit(Commit(old(server.views)[app], SRem(c, s)), DelMeta(c, s))]
    {
      DropMember(app, c, s);
      DropMeta(app, c, s);
    }

    method StorePresenceData(app: string, c: string, s: SocketId, u: UserId, info: Option<Json>)
      requires server.Valid() && app in server.views && ColonFree(c) && IsSocketId(s)
      modifies server`keys, server`views
      ensures server.Valid()
      ensures server.views == old(server.views)[app :=
        Commit(Commit(old(server.views)[app], HSet(c, s, u)), SetInfo(c, s, info))]
    {
      PutUser(app, c, s, u);
      PutInfo(app, c, s, info);
    }

    method RemovePresenceData(app: string, c: string, s: SocketId)
      requires server.Valid() && app in server.views && ColonFree(c) && IsSocketId(s)
      modifies server`keys, server`views
      ensures server.Valid()
      ensures server.views == old(server.views)[app :=
        Commit(Commit(old(server.views)[app], HDel(c, s)), DelInfo(c, s))]
    {
      DropUser(app, c, s);
      DropInfo(app, c, s);
    }

    /** SMEMBERS, in whatever order the server answers. */
    method GetChannelSubscriptions(app: string, c: string) returns (order: seq<SocketId>)
      requires server.Valid() && app in server.views
      ensures (forall s :: s in order <==> s in Members(server.views[app], c)) && |order| == |Members(server.views[app], c)|
    {
      MembersRead(server.keys, app, server.views[app], c);
      var key := SetKey(app, c);
      var left := if key in server.keys then server.keys[key].members else {};
      ghost var all := left;
      order := [];
      while left != {}
        invariant left <= all && |order| + |left| == |all|
        invariant forall s :: s in order <==> s in all - left
        decreases left
      {
        var s :| s in left;
        order := order + [s];
        left := left - {s};
      }
    }

    /** PUBLISH: one copy into the queue of every listener of the channel. */
    method PublishEvent(app: string, c: string, note: Note)
      requires server.Valid() && app in server.views
      modifies server`listeners
      ensures server.Valid()
      ensures server.listeners == old(server.listeners)[app := Broadcast(old(server.listeners)[app], c, note)]
    {
      server.listeners := server.listeners[app := Broadcast(server.listeners[app], c, note)];
    }

    /** SUBSCRIBE: a new listener of this instance with an empty queue. */
    method SubscribeToChannelEvents(app: string, c: string)
      requires server.Valid() && app in server.views
      modifies server`listeners
      ensures server.Valid()
      ensures server.listeners == old(server.listeners)[app := old(server.listeners)[app] + [Listener(instanceID, c, [])]]
    {
      server.listeners := server.listeners[app := server.listeners[app] + [Listener(instanceID, c, [])]];
    }
  }
}
