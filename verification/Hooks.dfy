/** The webhook trace against the subscriptions. */
module Hooks {
  import opened Types
  import opened Names
  import opened Instance
  import opened Presence

  /**
   Reads the trace of one channel: false after vacated or at the start, true after occupied,
   None once two of the same kind have come in a row.
   */
  ghost function Occupancy(hooks: seq<Hook>, c: string): Option<bool> {
    if hooks == [] then Some(false)
    else Turn(Occupancy(hooks[..|hooks| - 1], c), hooks[|hooks| - 1], c)
  }

  function Turn(before: Option<bool>, h: Hook, c: string): Option<bool> {
    if h == Occupied(c) then (if before == Some(false) then Some(true) else None)
    else if h == Vacated(c) then (if before == Some(true) then Some(false) else None)
    else before
  }

  /** member_added hooks less member_removed hooks. */
  ghost function Joins(hooks: seq<Hook>, c: string): int {
    if hooks == [] then 0
    else Joins(hooks[..|hooks| - 1], c) + JoinWeight(hooks[|hooks| - 1], c)
  }

  function JoinWeight(h: Hook, c: string): int {
    if h.MemberJoined? && h.chan == c then 1 else if h.MemberLeft? && h.chan == c then -1 else 0
  }

  ghost function Count(hooks: seq<Hook>, h: Hook): nat { multiset(hooks)[h] }

  lemma Append(hooks: seq<Hook>, h: Hook, c: string)
    ensures Occupancy(hooks + [h], c) == Turn(Occupancy(hooks, c), h, c)
    ensures Joins(hooks + [h], c) == Joins(hooks, c) + JoinWeight(h, c)
  {
    assert (hooks + [h])[..|hooks|] == hooks;
  }

  lemma CountMore(hooks: seq<Hook>, last: Hook, h: Hook)
    ensures Count(hooks + [last], h) == Count(hooks, h) + if last == h then 1 else 0
  {
  }

  /** Alternation fixes the difference of the two counts. */
  lemma {:induction false} AlternationCounts(hooks: seq<Hook>, c: string)
    requires Occupancy(hooks, c).Some?
    ensures Count(hooks, Occupied(c)) - Count(hooks, Vacated(c)) == if Occupancy(hooks, c).value then 1 else 0
  {
    if hooks != [] {
      var rest, last := hooks[..|hooks| - 1], hooks[|hooks| - 1];
      assert hooks == rest + [last];
      CountMore(rest, last, Occupied(c));
      CountMore(rest, last, Vacated(c));
      AlternationCounts(rest, c);
    }
  }

  ghost predicate OccupancyTrue(subs: Roster, hooks: seq<Hook>, c: string) {
    Occupancy(hooks, c) == Some(subs != map[])
  }

  ghost predicate JoinsTrue(subs: Roster, hooks: seq<Hook>, c: string) {
    IsPresence(c) ==> Joins(hooks, c) == |subs|
  }

  function SubsOf(a: App, c: string): Roster {
    if c in a.channels then a.channels[c] else map[]
  }

  /** The hooks tell, for every channel, whether it is occupied and how many members it has. */
  ghost predicate HooksTrue(a: App) {
    forall c :: HookTrue(a, c)
  }

  lemma Appends(hooks: seq<Hook>, more: seq<Hook>, c: string)
    requires |more| <= 1
    ensures Occupancy(hooks + more, c) ==
      if more == [] then Occupancy(hooks, c) else Turn(Occupancy(hooks, c), more[0], c)
    ensures Joins(hooks + more, c) == Joins(hooks, c) + if more == [] then 0 else JoinWeight(more[0], c)
  {
    if more == [] {
      assert hooks + more == hooks;
    } else {
      assert more == [more[0]];
      Append(hooks, more[0], c);
    }
  }

  function Added(subs: Roster, s: SocketId): int { if s in subs then 0 else 1 }

  lemma AppendsTwo(hooks: seq<Hook>, first: Hook, more: seq<Hook>, c: string)
    requires |more| <= 1 && !first.Occupied? && !first.Vacated?
    ensures Occupancy(hooks + [first] + more, c) ==
      if more == [] then Occupancy(hooks, c) else Turn(Occupancy(hooks, c), more[0], c)
    ensures Joins(hooks + [first] + more, c) ==
      Joins(hooks, c) + JoinWeight(first, c) + if more == [] then 0 else JoinWeight(more[0], c)
  {
    Append(hooks, first, c);
    Appends(hooks + [first], more, c);
  }

  lemma Regroup(hooks: seq<Hook>, first: Hook, more: seq<Hook>)
    ensures hooks + ([first] + more) == hooks + [first] + more
  {
  }

  /** The hook of an occupied channel. */
  function OccupiedHook(c: string, size: nat): seq<Hook> { if size == 1 then [Occupied(c)] else [] }

  lemma JoinHooksAre(c: string, size: nat, d: ChannelData)
    ensures JoinHooks(c, size, d) ==
      if !Joined(c, d) then [] else if IsPresence(c) then [MemberJoined(c, d.userId)] + OccupiedHook(c, size) else OccupiedHook(c, size)
  {
    assert [] + OccupiedHook(c, size) == OccupiedHook(c, size);
  }

  lemma OccupiedTraces(hooks: seq<Hook>, c: string, size: nat, e: string)
    ensures var after := hooks + OccupiedHook(c, size);
      && Occupancy(after, e) == (if c == e && size == 1 then Turn(Occupancy(hooks, e), Occupied(e), e) else Occupancy(hooks, e))
      && Joins(after, e) == Joins(hooks, e)
  {
    Appends(hooks, OccupiedHook(c, size), e);
  }

  lemma MemberTraces(hooks: seq<Hook>, c: string, u: UserId, size: nat, e: string)
    ensures var after := hooks + ([MemberJoined(c, u)] + OccupiedHook(c, size));
      && Occupancy(after, e) == (if c == e && size == 1 then Turn(Occupancy(hooks, e), Occupied(e), e) else Occupancy(hooks, e))
      && Joins(after, e) == Joins(hooks, e) + if c == e then 1 else 0
  {
    Regroup(hooks, MemberJoined(c, u), OccupiedHook(c, size));
    AppendsTwo(hooks, MemberJoined(c, u), OccupiedHook(c, size), e);
  }

  /** The trace of channel `e` after a subscribe to `c`. */
  lemma JoinTraces(hooks: seq<Hook>, c: string, size: nat, d: ChannelData, e: string)
    ensures var after := hooks + JoinHooks(c, size, d);
      && Occupancy(after, e) ==
           (if c == e && Joined(c, d) && size == 1 then Turn(Occupancy(hooks, e), Occupied(e), e) else Occupancy(hooks, e))
      && Joins(after, e) == Joins(hooks, e) + if c == e && IsPresence(c) && d.Member? then 1 else 0
  {
    JoinHooksAre(c, size, d);
    if !Joined(c, d) {
      Appends(hooks, [], e);
    } else if IsPresence(c) {
      MemberTraces(hooks, c, d.userId, size, e);
    } else {
      OccupiedTraces(hooks, c, size, e);
    }
  }

  /** The trace of channel `e` after an unsubscribe from `c`. */
  lemma LeaveTraces(hooks: seq<Hook>, c: string, subs: Roster, id: UserId, e: string)
    ensures var after := hooks + LeaveHooks(c, subs, id);
      && Occupancy(after, e) ==
           (if c == e && subs == map[] then Turn(Occupancy(hooks, e), Vacated(e), e) else Occupancy(hooks, e))
      && Joins(after, e) == Joins(hooks, e) - if c == e && IsPresence(c) then 1 else 0
  {
    var last := if subs == map[] then [Vacated(c)] else [];
    if IsPresence(c) {
      assert hooks + LeaveHooks(c, subs, id) == hooks + [MemberLeft(c, id)] + last;
      AppendsTwo(hooks, MemberLeft(c, id), last, e);
    } else {
      assert hooks + LeaveHooks(c, subs, id) == hooks + last;
      Appends(hooks, last, e);
    }
  }

  /** The occupied hook stays true to the channel unless the only subscriber repeats, or a silent one comes first. */
  predicate KeepsOccupancy(c: string, subs: Roster, s: SocketId, d: ChannelData) {
    if !IsPresence(c) || d.Member? then subs.Keys != {s} else subs != map[]
  }

  lemma OccupancyIff(c: string, subs: Roster, hooks: seq<Hook>, s: SocketId, d: ChannelData)
    requires OccupancyTrue(subs, hooks, c)
    ensures var after := subs[s := Entry(c, d)];
      OccupancyTrue(after, hooks + JoinHooks(c, |after|, d), c) <==> KeepsOccupancy(c, subs, s, d)
  {
    PutSize(subs, s, Entry(c, d));
    JoinTraces(hooks, c, |subs[s := Entry(c, d)]|, d, c);
  }

  lemma PutSize(subs: Roster, s: SocketId, x: Sub)
    ensures |subs[s := x]| == |subs| + Added(subs, s) && subs[s := x] != map[]
    ensures |subs[s := x]| == 1 <==> subs == map[] || subs.Keys == {s}
  {
    assert subs[s := x].Keys == subs.Keys + {s} && s in subs[s := x];
    if s in subs {
      assert subs[s := x].Keys == subs.Keys;
      SizeOne(subs.Keys, s);
    }
  }

  lemma SizeOne(keys: set<SocketId>, s: SocketId)
    requires s in keys
    ensures |keys| == 1 <==> keys == {s}
  {
    if |keys| == 1 {
      assert |keys - {s}| == 0;
      assert keys - {s} == {};
    }
  }

  /** The member hooks count the members unless a new entry is silent or a known one is announced. */
  lemma JoinsIff(c: string, subs: Roster, hooks: seq<Hook>, s: SocketId, d: ChannelData)
    requires IsPresence(c) && JoinsTrue(subs, hooks, c)
    ensures var after := subs[s := Entry(c, d)];
      JoinsTrue(after, hooks + JoinHooks(c, |after|, d), c) <==> (d.Member? <==> s !in subs)
  {
    PutSize(subs, s, Entry(c, d));
    JoinTraces(hooks, c, |subs[s := Entry(c, d)]|, d, c);
  }

  lemma LeaveKeepsHooks(c: string, st: Chan, s: SocketId)
    requires s in st.subs && OccupancyTrue(st.subs, st.hooks, c) && JoinsTrue(st.subs, st.hooks, c)
    ensures var r := Leave(c, st, s); OccupancyTrue(r.subs, r.hooks, c) && JoinsTrue(r.subs, r.hooks, c)
  {
    LeaveTraces(st.hooks, c, st.subs - {s}, st.subs[s].id, c);
    assert (st.subs - {s}).Keys == st.subs.Keys - {s};
  }

  lemma TellKeepsHooks(c: string, st: Chan, r: Raw, skip: SocketId, tag: Tag, e: string)
    ensures Occupancy(Tell(c, st, r, skip, tag).hooks, e) == Occupancy(st.hooks, e)
    ensures Joins(Tell(c, st, r, skip, tag).hooks, e) == Joins(st.hooks, e)
  {
    Appends(st.hooks, ClientHooks(c, st.subs, r, skip), e);
  }

  /** The hooks are true of one channel. */
  ghost predicate HookTrue(a: App, e: string) {
    OccupancyTrue(SubsOf(a, e), a.hooks, e) && JoinsTrue(SubsOf(a, e), a.hooks, e)
  }

  lemma JoinKeepsHook(c: string, st: Chan, s: SocketId, d: ChannelData)
    requires OccupancyTrue(st.subs, st.hooks, c) && JoinsTrue(st.subs, st.hooks, c) && s !in st.subs && Joined(c, d)
    ensures var r := Join(c, st, s, d); OccupancyTrue(r.subs, r.hooks, c) && JoinsTrue(r.subs, r.hooks, c)
  {
    OccupancyIff(c, st.subs, st.hooks, s, d);
    if IsPresence(c) {
      JoinsIff(c, st.subs, st.hooks, s, d);
    }
  }

  lemma EnterKeepsHook(a: App, c: string, s: SocketId, d: ChannelData, e: string)
    requires HookTrue(a, e) && Legal(a, Enter(c, s, d)) && Orderly(a, Enter(c, s, d))
    ensures HookTrue(Apply(a, Enter(c, s, d)), e)
  {
    if c == e {
      JoinKeepsHook(c, View(a, c), s, d);
    } else {
      JoinTraces(a.hooks, c, |a.channels[c][s := Entry(c, d)]|, d, e);
      assert SubsOf(Apply(a, Enter(c, s, d)), e) == SubsOf(a, e);
    }
  }

  lemma ExitKeepsHook(a: App, c: string, s: SocketId, e: string)
    requires HookTrue(a, e) && Legal(a, Exit(c, s))
    ensures HookTrue(Apply(a, Exit(c, s)), e)
  {
    if c == e {
      LeaveKeepsHooks(c, View(a, c), s);
    } else {
      var subs := a.channels[c] - {s};
      LeaveTraces(a.hooks, c, subs, a.channels[c][s].id, e);
      assert SubsOf(Apply(a, Exit(c, s)), e) == SubsOf(a, e);
    }
  }

  lemma OtherKeepsHook(a: App, op: Op, e: string)
    requires HookTrue(a, e) && Legal(a, op) && !op.Enter? && !op.Exit?
    ensures HookTrue(Apply(a, op), e)
  {
    if op.Send? && op.c in a.channels {
      TellKeepsHooks(op.c, View(a, op.c), op.e, op.ignore, op.tag, e);
    }
  }

  /** Every orderly change keeps the hooks true for every channel. */
  lemma HooksKept(a: App, op: Op)
    requires HooksTrue(a) && Legal(a, op) && Orderly(a, op)
    ensures HooksTrue(Apply(a, op))
  {
    forall e: string
      ensures HookTrue(Apply(a, op), e)
    {
      assert HookTrue(a, e);
      match op
      case Enter(c, s, d) => EnterKeepsHook(a, c, s, d, e);
      case Exit(c, s) => ExitKeepsHook(a, c, s, e);
      case _ => OtherKeepsHook(a, op, e);
    }
  }
}
