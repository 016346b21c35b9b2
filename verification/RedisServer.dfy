/** The Redis server as it is used: one flat key space, and Pub/Sub listeners. */
module RedisServer {
  import opened Types
  import opened Names
  import opened Registry
  import opened RedisKeys

  /** A string value (three kinds of JSON document), a set or a hash. */
  datatype Value =
    | ConnDoc(i: InstanceId)
    | SubDoc(m: Meta)
    | InfoDoc(info: Option<Json>)
    | Elements(members: set<SocketId>)
    | Fields(fields: map<SocketId, UserId>)

  type Keys = map<string, Value>

  function Look(keys: Keys, t: string): Option<Value> {
    if t in keys then Some(keys[t]) else None
  }

  function Stored(keys: Keys, t: string, v: Option<Value>): Keys {
    if v.Some? then keys[t := v.value] else keys - {t}
  }

  /** What the registry's maps say must be found at a key. */
  function Want(r: Store, k: Key): Option<Value> {
    match k
    case OfConn(_, s) => if s in r.conns then Some(ConnDoc(r.conns[s])) else None
    case OfSet(_, c) => if c in r.subs then Some(Elements(r.subs[c])) else None
    case OfMeta(_, c, s) => if (c, s) in r.meta then Some(SubDoc(r.meta[(c, s)])) else None
    case OfHash(_, c) => if c in r.users then Some(Fields(r.users[c])) else None
    case OfInfo(_, c, s) => if (c, s) in r.info then Some(InfoDoc(r.info[(c, s)])) else None
  }

  /** The key space holds the registry of `app`. */
  ghost predicate Represents(keys: Keys, app: string, r: Store) {
    && ColonFree(app)
    && (forall k :: Plain(k) && k.app == app ==> Look(keys, Text(k)) == Want(r, k))
    && (forall c :: c in r.subs ==> ColonFree(c))
    && (forall s :: s in r.conns ==> IsSocketId(s))
  }

  /** Only plain keys are ever written. */
  ghost predicate PlainOnly(keys: Keys) {
    forall t :: t in keys ==> exists k :: Plain(k) && Text(k) == t
  }

  predicate IsWrite(op: RedisOp) {
    !op.Quiet? && !op.Listen? && !op.Publish? && !op.Pop?
  }

  /** The key that a command writes. */
  function Target(app: string, op: RedisOp): Key
    requires IsWrite(op)
  {
    match op
    case SetConn(s, _) => OfConn(app, s)
    case DelConn(s) => OfConn(app, s)
    case SAdd(c, s) => OfSet(app, c)
    case SRem(c, s) => OfSet(app, c)
    case SetMeta(c, s, _) => OfMeta(app, c, s)
    case DelMeta(c, s) => OfMeta(app, c, s)
    case HSet(c, _, _) => OfHash(app, c)
    case HDel(c, _) => OfHash(app, c)
    case SetInfo(c, s, _) => OfInfo(app, c, s)
    case DelInfo(c, s) => OfInfo(app, c, s)
  }

  /** Its channel and socket arguments make plain keys. */
  predicate PlainArgs(op: RedisOp) {
    match op
    case SetConn(s, _) => IsSocketId(s)
    case DelConn(s) => IsSocketId(s)
    case SAdd(c, s) => ColonFree(c)
    case SRem(c, s) => ColonFree(c)
    case SetMeta(c, s, _) => ColonFree(c) && IsSocketId(s)
    case DelMeta(c, s) => ColonFree(c) && IsSocketId(s)
    case HSet(c, _, _) => ColonFree(c)
    case HDel(c, _) => ColonFree(c)
    case SetInfo(c, s, _) => ColonFree(c) && IsSocketId(s)
    case DelInfo(c, s) => ColonFree(c) && IsSocketId(s)
    case _ => true
  }

  /** The value a command leaves at its key; a command on a value of the wrong type changes nothing. */
  function NewValue(was: Option<Value>, op: RedisOp): Option<Value>
    requires IsWrite(op)
  {
    match op
    case SetConn(_, i) => Some(ConnDoc(i))
    case SetMeta(_, _, m) => Some(SubDoc(m))
    case SetInfo(_, _, info) => Some(InfoDoc(info))
    case DelConn(_) => None
    case DelMeta(_, _) => None
    case DelInfo(_, _) => None
    case SAdd(_, s) =>
      if was.None? then Some(Elements({s}))
      else if was.value.Elements? then Some(Elements(was.value.members + {s}))
      else was
    case SRem(_, s) =>
      if was.Some? && was.value.Elements? then
        var left := was.value.members - {s};
        if left == {} then None else Some(Elements(left))
      else was
    case HSet(_, s, u) =>
      if was.None? then Some(Fields(map[s := u]))
      else if was.value.Fields? then Some(Fields(was.value.fields[s := u]))
      else was
    case HDel(_, s) =>
      if was.Some? && was.value.Fields? then
        var left := was.value.fields - {s};
        if left == map[] then None else Some(Fields(left))
      else was
  }

  /** A command on the flat key space. */
  function Execute(keys: Keys, app: string, op: RedisOp): Keys {
    if IsWrite(op) then
      var t := Text(Target(app, op));
      Stored(keys, t, NewValue(Look(keys, t), op))
    else keys
  }

  lemma RemovedFromSet(r: Store, app: string, c: string, s: SocketId, k: Key)
    requires k.app == app
    ensures Want(Commit(r, RedisOp.SRem(c, s)), k) ==
      if k == OfSet(app, c) then NewValue(Want(r, k), RedisOp.SRem(c, s)) else Want(r, k)
  {
    assert c !in r.subs ==> r.subs - {c} == r.subs;
  }

  lemma RemovedFromHash(r: Store, app: string, c: string, s: SocketId, k: Key)
    requires k.app == app
    ensures Want(Commit(r, RedisOp.HDel(c, s)), k) ==
      if k == OfHash(app, c) then NewValue(Want(r, k), RedisOp.HDel(c, s)) else Want(r, k)
  {
    assert c !in r.users ==> r.users - {c} == r.users;
    assert c !in r.users ==> Presence(r, c) - {s} == map[];
  }

  /** A command changes what is wanted at its own key only, in the way it changes the value. */
  lemma WantAfter(r: Store, app: string, op: RedisOp, k: Key)
    requires IsWrite(op) && k.app == app
    ensures Want(Commit(r, op), k) == if k == Target(app, op) then NewValue(Want(r, k), op) else Want(r, k)
  {
    match op
    case SAdd(_, s) => assert {} + {s} == {s};
    case SRem(c, s) => RemovedFromSet(r, app, c, s, k);
    case HSet(_, s, u) => assert map[][s := u] == map[s := u];
    case HDel(c, s) => RemovedFromHash(r, app, c, s, k);
    case _ =>
  }

  /** The flat commands refine the operations on separate maps, and touch no other application. */
  lemma ExecuteRefines(keys: Keys, app: string, r: Store, op: RedisOp, other: string, q: Store)
    requires Represents(keys, app, r) && PlainArgs(op) && PlainOnly(keys)
    requires other != app && Represents(keys, other, q)
    ensures Represents(Execute(keys, app, op), app, Commit(r, op)) && PlainOnly(Execute(keys, app, op))
    ensures Represents(Execute(keys, app, op), other, q)
  {
    ExecuteRefinesOwn(keys, app, r, op);
    ExecuteSpares(keys, app, op, other, q);
  }

  lemma ExecuteRefinesOwn(keys: Keys, app: string, r: Store, op: RedisOp)
    requires Represents(keys, app, r) && PlainArgs(op) && PlainOnly(keys)
    ensures Represents(Execute(keys, app, op), app, Commit(r, op)) && PlainOnly(Execute(keys, app, op))
  {
    var after := Execute(keys, app, op);
    if IsWrite(op) {
      var target := Target(app, op);
      forall k | Plain(k) && k.app == app
        ensures Look(after, Text(k)) == Want(Commit(r, op), k)
      {
        WantAfter(r, app, op, k);
        if Text(k) == Text(target) {
          PlainIsDelimited(k);
          PlainIsDelimited(target);
          KeysDistinct(k, target);
        }
      }
      forall t | t in after
        ensures exists k :: Plain(k) && Text(k) == t
      {
        assert t in keys || t == Text(target);
        assert Plain(target);
      }
    }
  }

  lemma ExecuteSpares(keys: Keys, app: string, op: RedisOp, other: string, q: Store)
    requires ColonFree(app) && PlainArgs(op) && other != app && Represents(keys, other, q)
    ensures Represents(Execute(keys, app, op), other, q)
  {
    var after := Execute(keys, app, op);
    if IsWrite(op) {
      forall k | Plain(k) && k.app == other
        ensures Look(after, Text(k)) == Want(q, k)
      {
        if Text(k) == Text(Target(app, op)) {
          PlainIsDelimited(k);
          PlainIsDelimited(Target(app, op));
          KeysDistinct(k, Target(app, op));
        }
      }
    }
  }

  /** SMEMBERS on the flat key space reads the registry's set, also for a name with colons, whose set is empty. */
  lemma MembersRead(keys: Keys, app: string, r: Store, c: string)
    requires Represents(keys, app, r) && PlainOnly(keys)
    ensures var v := Look(keys, SetKey(app, c));
      if v.Some? then v.value.Elements? && v.value.members == Members(r, c) else Members(r, c) == {}
  {
    if ColonFree(c) {
      assert Text(OfSet(app, c)) == SetKey(app, c) && Plain(OfSet(app, c));
    } else {
      if SetKey(app, c) in keys {
        var k :| Plain(k) && Text(k) == SetKey(app, c);
        OddSetKey(app, c, k);
      }
    }
  }

  /** GET of a connection key reads the registry, also for an ID that no socket has. */
  lemma ConnRead(keys: Keys, app: string, r: Store, s: SocketId)
    requires Represents(keys, app, r) && PlainOnly(keys)
    ensures var v := Look(keys, ConnKey(app, s));
      if v.Some? then v.value.ConnDoc? && s in r.conns && v.value.i == r.conns[s] else s !in r.conns
  {
    if IsSocketId(s) {
      assert Text(OfConn(app, s)) == ConnKey(app, s) && Plain(OfConn(app, s));
    } else if ConnKey(app, s) in keys {
      var k :| Plain(k) && Text(k) == ConnKey(app, s);
      OddConnKey(app, s, k);
    }
  }
}
