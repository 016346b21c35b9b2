/** Presence rosters and hooks: what clients and webhooks can reconstruct from what they are sent. */
module Presence {
  import opened Types
  import opened Names
  import opened Rosters
  import opened Instance

  // ---------- replaying a subscriber's frames ----------

  /** The roster a client keeps: reset by subscription_succeeded, then followed by added and removed. */
  ghost function Replay(log: seq<Msg>, c: string): Option<multiset<UserId>> {
    if log == [] then None
    else Heard(Replay(log[..|log| - 1], c), log[|log| - 1], c)
  }

  ghost function Heard(known: Option<multiset<UserId>>, m: Msg, c: string): Option<multiset<UserId>> {
    match m
    case Succeeded(chan, ids, _, _) => if chan == c then Some(ids) else known
    case MemberAdded(chan, d) =>
      if chan == c && known.Some? && d.Member? then Some(known.value + multiset{d.userId}) else known
    case MemberRemoved(chan, u) =>
      if chan == c && known.Some? then Some(known.value - multiset{u}) else known
    case _ => known
  }

  /** The client's roster is the channel's. */
  ghost predicate Knows(a: App, c: string, s: SocketId)
    requires c in a.channels
  {
    Replay(LogOf(a.logs, s), c) == Some(UserIds(a.channels[c]))
  }

  ghost predicate RostersKnown(a: App) {
    forall c, s :: Subscribed(a, c, s) && IsPresence(c) ==> Knows(a, c, s) && a.channels[c][s].data.Some?
  }

  /** No double subscription, and data the channel accepts. */
  ghost predicate Orderly(a: App, op: Op) {
    && (op.Enter? ==> !Subscribed(a, op.c, op.s) && (IsPresence(op.c) ==> op.d.Member?))
    && (op.Reply? ==> !op.m.Succeeded? && !op.m.MemberAdded? && !op.m.MemberRemoved?)
  }

  lemma ReplayFanOut(logs: Logs, to: set<SocketId>, m: Msg, s: SocketId, c: string)
    ensures Replay(LogOf(FanOut(logs, to, m), s), c) ==
      if s in to then Heard(Replay(LogOf(logs, s), c), m, c) else Replay(LogOf(logs, s), c)
  {
    assert (LogOf(logs, s) + [m])[..|LogOf(logs, s)|] == LogOf(logs, s);
  }

  lemma ReadableIsAll(subs: Roster)
    requires forall s :: s in subs ==> subs[s].data.Some?
    ensures Readable(subs) == subs
  {
  }

  /** What a client knows of channel `e` after a subscribe to `c`. */
  ghost function KnownAfterJoin(
    c: string, st: Chan, s: SocketId, d: ChannelData, t: SocketId, e: string, known: Option<multiset<UserId>>)
    : Option<multiset<UserId>>
  {
    if c != e || !d.Member? then known
    else if t == s then Some(UserIds(Readable(Join(c, st, s, d).subs)))
    else if t in st.subs then Heard(known, MemberAdded(c, d), e)
    else known
  }

  lemma ReplayJoin(c: string, st: Chan, s: SocketId, d: ChannelData, t: SocketId, e: string)
    requires IsPresence(e)
    ensures Replay(LogOf(Join(c, st, s, d).logs, t), e) ==
      KnownAfterJoin(c, st, s, d, t, e, Replay(LogOf(st.logs, t), e))
  {
    if IsPresence(c) && d.Member? {
      ReplayJoinMember(c, st, s, d, t, e);
    } else if !IsPresence(c) {
      var subs := Join(c, st, s, d).subs;
      ReplayFanOut(st.logs, {s}, SucceededMsg(c, subs), t, e);
    }
  }

  lemma ReplayTwice(logs: Logs, others: set<SocketId>, m: Msg, s: SocketId, n: Msg, t: SocketId, e: string)
    ensures Replay(LogOf(FanOut(FanOut(logs, others, m), {s}, n), t), e) ==
      var known := Replay(LogOf(logs, t), e);
      var told := if t in others then Heard(known, m, e) else known;
      if t == s then Heard(told, n, e) else told
  {
    ReplayFanOut(logs, others, m, t, e);
    ReplayFanOut(FanOut(logs, others, m), {s}, n, t, e);
  }

  lemma ReplayJoinMember(c: string, st: Chan, s: SocketId, d: ChannelData, t: SocketId, e: string)
    requires IsPresence(e) && IsPresence(c) && d.Member?
    ensures Replay(LogOf(Join(c, st, s, d).logs, t), e) ==
      KnownAfterJoin(c, st, s, d, t, e, Replay(LogOf(st.logs, t), e))
  {
    var subs := Join(c, st, s, d).subs;
    ReplayTwice(st.logs, subs.Keys - {s}, MemberAdded(c, d), s, SucceededMsg(c, subs), t, e);
  }

  lemma ReplayLeave(c: string, st: Chan, s: SocketId, t: SocketId, e: string)
    requires IsPresence(e)
    ensures var known := Replay(LogOf(st.logs, t), e);
      Replay(LogOf(Leave(c, st, s).logs, t), e) ==
      if c == e && s in st.subs && t in st.subs && t != s then Heard(known, MemberRemoved(c, st.subs[s].id), e)
      else known
  {
    if s in st.subs && IsPresence(c) {
      ReplayFanOut(st.logs, (st.subs - {s}).Keys, MemberRemoved(c, st.subs[s].id), t, e);
    }
  }

  lemma ReplayTell(c: string, st: Chan, r: Raw, skip: SocketId, tag: Tag, t: SocketId, e: string)
    ensures Replay(LogOf(Tell(c, st, r, skip, tag).logs, t), e) == Replay(LogOf(st.logs, t), e)
  {
    if r.payload.Some? {
      ReplayFanOut(st.logs, st.subs.Keys - {skip}, Event(r.name, r.chan, r.payload.value, tag), t, e);
    }
  }

  lemma HeardAdded(c: string, subs: Roster, s: SocketId, d: ChannelData)
    requires s !in subs && d.Member?
    requires forall u :: u in subs ==> subs[u].data.Some?
    ensures var after := subs[s := Sub(d.userId, Some(Marshalled(d.userInfo)))];
      && Heard(Some(UserIds(subs)), MemberAdded(c, d), c) == Some(UserIds(after))
      && Readable(after) == after
  {
    var after := subs[s := Sub(d.userId, Some(Marshalled(d.userInfo)))];
    UserIdsWith(subs, s, after[s]);
    ReadableIsAll(after);
  }

  /** The roster of the joined channel, for the newcomer and for the others. */
  lemma JoinKnown(c: string, st: Chan, s: SocketId, d: ChannelData, t: SocketId)
    requires IsPresence(c) && d.Member? && s !in st.subs && (t == s || t in st.subs)
    requires forall u :: u in st.subs ==> st.subs[u].data.Some?
    requires t in st.subs ==> Replay(LogOf(st.logs, t), c) == Some(UserIds(st.subs))
    ensures Replay(LogOf(Join(c, st, s, d).logs, t), c) == Some(UserIds(Join(c, st, s, d).subs))
  {
    HeardAdded(c, st.subs, s, d);
    ReplayJoin(c, st, s, d, t, c);
  }

  lemma EnterKeepsRosters(a: App, c: string, s: SocketId, d: ChannelData, e: string, t: SocketId)
    requires RostersKnown(a) && Legal(a, Enter(c, s, d)) && Orderly(a, Enter(c, s, d)) && IsPresence(e)
    requires Subscribed(Apply(a, Enter(c, s, d)), e, t)
    ensures Knows(Apply(a, Enter(c, s, d)), e, t) && Apply(a, Enter(c, s, d)).channels[e][t].data.Some?
  {
    SubscribedAfter(a, Enter(c, s, d), e, t);
    if c == e {
      forall u | u in a.channels[c] ensures a.channels[c][u].data.Some? { assert Subscribed(a, c, u); }
      assert t in a.channels[c] ==> Subscribed(a, c, t);
      JoinKnown(c, View(a, c), s, d, t);
    } else {
      assert Subscribed(a, e, t);
      ReplayJoin(c, View(a, c), s, d, t, e);
    }
  }

  lemma HeardRemoved(c: string, subs: Roster, s: SocketId)
    requires s in subs
    ensures Heard(Some(UserIds(subs)), MemberRemoved(c, subs[s].id), c) == Some(UserIds(subs - {s}))
  {
    UserIdsWithout(subs, s);
    assert UserIds(subs) - multiset{subs[s].id} == UserIds(subs - {s});
  }

  lemma LeaveKnown(c: string, st: Chan, s: SocketId, t: SocketId)
    requires IsPresence(c) && s in st.subs && t in st.subs && t != s
    requires Replay(LogOf(st.logs, t), c) == Some(UserIds(st.subs))
    ensures Replay(LogOf(Leave(c, st, s).logs, t), c) == Some(UserIds(Leave(c, st, s).subs))
  {
    HeardRemoved(c, st.subs, s);
    ReplayLeave(c, st, s, t, c);
  }

  lemma ExitKeepsRosters(a: App, c: string, s: SocketId, e: string, t: SocketId)
    requires RostersKnown(a) && Legal(a, Exit(c, s)) && IsPresence(e)
    requires Subscribed(Apply(a, Exit(c, s)), e, t)
    ensures Knows(Apply(a, Exit(c, s)), e, t) && Apply(a, Exit(c, s)).channels[e][t].data.Some?
  {
    SubscribedAfter(a, Exit(c, s), e, t);
    assert Subscribed(a, e, t);
    if c == e {
      LeaveKnown(c, View(a, c), s, t);
    } else {
      ReplayLeave(c, View(a, c), s, t, e);
    }
  }

  /** Every orderly change keeps every presence client's roster right. */
  lemma RostersKept(a: App, op: Op)
    requires RostersKnown(a) && Legal(a, op) && Orderly(a, op)
    ensures RostersKnown(Apply(a, op))
  {
    forall e, t | Subscribed(Apply(a, op), e, t) && IsPresence(e)
      ensures Knows(Apply(a, op), e, t) && Apply(a, op).channels[e][t].data.Some?
    {
      match op
      case Enter(c, s, d) => EnterKeepsRosters(a, c, s, d, e, t);
      case Exit(c, s) => ExitKeepsRosters(a, c, s, e, t);
      case Send(c, r, skip, tag) =>
        assert Subscribed(a, e, t);
        if c in a.channels {
          ReplayTell(c, View(a, c), r, skip, tag, t, e);
        }
      case Reply(s, m) =>
        assert Subscribed(a, e, t);
        ReplayFanOut(a.logs, {s}, m, t, e);
      case _ =>
        SubscribedAfter(a, op, e, t);
        assert Subscribed(a, e, t);
    }
  }

  /** When a subscribe leaves the rosters of the others right. */
  predicate KeepsOthers(subs: Roster, s: SocketId, d: ChannelData) {
    if d.Member? then s !in subs else s in subs && subs[s].id == ""
  }

  /** Exactly then: a repeated subscribe announces a member twice, an undecodable one adds a silent member. */
  lemma OthersKnowIff(c: string, st: Chan, s: SocketId, d: ChannelData, t: SocketId)
    requires IsPresence(c) && t in st.subs && t != s
    requires Replay(LogOf(st.logs, t), c) == Some(UserIds(st.subs))
    ensures (Replay(LogOf(Join(c, st, s, d).logs, t), c) == Some(UserIds(Join(c, st, s, d).subs))) <==>
      KeepsOthers(st.subs, s, d)
  {
    if d.Member? {
      AnnouncedIff(st.subs, s, Sub(d.userId, Some(Marshalled(d.userInfo))));
      HearsMember(c, st, s, d, t);
    } else {
      SilentIff(st.subs, s, Sub("", AsJson(d)));
    }
  }

  lemma HearsMember(c: string, st: Chan, s: SocketId, d: ChannelData, t: SocketId)
    requires IsPresence(c) && d.Member? && t in st.subs && t != s
    requires Replay(LogOf(st.logs, t), c) == Some(UserIds(st.subs))
    ensures Replay(LogOf(Join(c, st, s, d).logs, t), c) == Some(UserIds(st.subs) + multiset{d.userId})
  {
    ReplayJoin(c, st, s, d, t, c);
  }

  /** An announced entry leaves the roster right just when it is new. */
  lemma AnnouncedIff(subs: Roster, s: SocketId, x: Sub)
    ensures UserIds(subs) + multiset{x.id} == UserIds(subs[s := x]) <==> s !in subs
  {
    UserIdsPut(subs, s, x);
    if s in subs {
      UserIdsWithout(subs, s);
      Exchange(UserIds(subs - {s}), subs[s].id, x.id);
    }
  }

  /** A silent entry leaves the roster right just when it replaces one with the same user ID. */
  lemma SilentIff(subs: Roster, s: SocketId, x: Sub)
    ensures UserIds(subs) == UserIds(subs[s := x]) <==> s in subs && subs[s].id == x.id
  {
    UserIdsPut(subs, s, x);
    if s in subs {
      UserIdsWithout(subs, s);
      Exchange(UserIds(subs - {s}), subs[s].id, x.id);
    } else {
      Exchange(UserIds(subs), "", x.id);
    }
  }

  /** Replacing one element keeps a multiset only if it is the same; adding one never does. */
  lemma Exchange(rest: multiset<UserId>, x: UserId, y: UserId)
    ensures rest + multiset{x} == rest + multiset{y} <==> x == y
    ensures rest + multiset{x} + multiset{y} != rest + multiset{y}
    ensures rest != rest + multiset{y}
  {
    if x != y {
      assert (rest + multiset{x})[x] == rest[x] + 1;
      assert (rest + multiset{y})[x] == rest[x];
    }
    assert |rest + multiset{x} + multiset{y}| == |rest| + 2;
    assert |rest + multiset{y}| == |rest| + 1;
  }
}
