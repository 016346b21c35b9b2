/** The member_added and member_removed webhooks name the users that come and go. */
module MemberHooks {
  import opened Types
  import opened Names
  import opened Rosters
  import opened Instance
  import opened Cluster
  import opened Safety
  import opened Output
  import opened OrderlyRuns
  import opened Presence
  import Hooks

  /** The members that a receiver of the webhooks keeps: one more with member_added, one less with member_removed. */
  ghost function Told(hooks: seq<Hook>, c: string): multiset<UserId> {
    if hooks == [] then multiset{} else Noted(Told(hooks[..|hooks| - 1], c), hooks[|hooks| - 1], c)
  }

  function Noted(known: multiset<UserId>, h: Hook, c: string): multiset<UserId> {
    if h.MemberJoined? && h.chan == c then known + multiset{h.userId}
    else if h.MemberLeft? && h.chan == c then known - multiset{h.userId}
    else known
  }

  lemma ToldMore(hooks: seq<Hook>, h: Hook, c: string)
    ensures Told(hooks + [h], c) == Noted(Told(hooks, c), h, c)
  {
    assert (hooks + [h])[..|hooks|] == hooks;
  }

  predicate IsMemberHook(h: Hook) { h.MemberJoined? || h.MemberLeft? }

  lemma ToldOne(hooks: seq<Hook>, more: seq<Hook>, c: string)
    requires |more| <= 1
    ensures Told(hooks + more, c) == if more == [] then Told(hooks, c) else Noted(Told(hooks, c), more[0], c)
  {
    if more == [] {
      assert hooks + more == hooks;
    } else {
      assert more == [more[0]];
      ToldMore(hooks, more[0], c);
    }
  }

  lemma Regroup(hooks: seq<Hook>, first: seq<Hook>, more: seq<Hook>)
    ensures hooks + (first + more) == hooks + first + more
  {
  }

  /** At most one member hook and then another hook. */
  lemma ToldTwo(hooks: seq<Hook>, first: seq<Hook>, more: seq<Hook>, c: string)
    requires |first| <= 1 && |more| <= 1 && (more != [] ==> !IsMemberHook(more[0]))
    ensures Told(hooks + (first + more), c) == if first == [] then Told(hooks, c) else Noted(Told(hooks, c), first[0], c)
  {
    Regroup(hooks, first, more);
    ToldOne(hooks, first, c);
    ToldOne(hooks + first, more, c);
  }

  /** What the webhooks tell is who is subscribed. */
  ghost predicate ToldRight(a: App, c: string) { IsPresence(c) ==> Told(a.hooks, c) == UserIds(Hooks.SubsOf(a, c)) }

  /** The members told after a change. */
  ghost function ToldAfter(a: App, op: Op, c: string): multiset<UserId> {
    match op
    case Enter(d, s, x) =>
      if d == c && d in a.channels && IsPresence(d) && x.Member? then Told(a.hooks, c) + multiset{x.userId} else Told(a.hooks, c)
    case Exit(d, s) =>
      if d == c && Subscribed(a, d, s) && IsPresence(d) then Told(a.hooks, c) - multiset{a.channels[d][s].id} else Told(a.hooks, c)
    case _ => Told(a.hooks, c)
  }

  lemma EnterFiresTwo(a: App, c: string, s: SocketId, d: ChannelData, e: string)
    ensures Told(a.hooks + Fires(a, Enter(c, s, d)), e) == ToldAfter(a, Enter(c, s, d), e)
  {
    if c !in a.channels || Refused(c, d) {
      ToldOne(a.hooks, Fires(a, Enter(c, s, d)), e);
    } else {
      var first := if IsPresence(c) then [MemberJoined(c, d.userId)] else [];
      ToldTwo(a.hooks, first, if a.channels[c].Keys <= {s} then [Occupied(c)] else [], e);
    }
  }

  lemma ExitFiresTwo(a: App, c: string, s: SocketId, e: string)
    ensures Told(a.hooks + Fires(a, Exit(c, s)), e) == ToldAfter(a, Exit(c, s), e)
  {
    if !Subscribed(a, c, s) {
      ToldOne(a.hooks, Fires(a, Exit(c, s)), e);
    } else {
      var first := if IsPresence(c) then [MemberLeft(c, a.channels[c][s].id)] else [];
      ToldTwo(a.hooks, first, if a.channels[c].Keys == {s} then [Vacated(c)] else [], e);
    }
  }

  lemma OtherFiresNone(a: App, op: Op, e: string)
    requires !op.Enter? && !op.Exit?
    ensures Told(a.hooks + Fires(a, op), e) == ToldAfter(a, op, e)
  {
    ToldOne(a.hooks, Fires(a, op), e);
  }

  lemma TellsExactly(a: App, op: Op, c: string)
    ensures Told(Apply(a, op).hooks, c) == ToldAfter(a, op, c)
  {
    FiresExactly(a, op);
    match op
    case Enter(d, s, x) => EnterFiresTwo(a, d, s, x, c);
    case Exit(d, s) => ExitFiresTwo(a, d, s, c);
    case _ => OtherFiresNone(a, op, c);
  }

  lemma EnterIds(a: App, c: string, s: SocketId, d: ChannelData)
    requires Legal(a, Enter(c, s, d)) && Orderly(a, Enter(c, s, d)) && IsPresence(c)
    ensures UserIds(Apply(a, Enter(c, s, d)).channels[c]) == UserIds(a.channels[c]) + multiset{d.userId}
  {
    var b := Apply(a, Enter(c, s, d));
    StoresExactly(a, Enter(c, s, d), c, s);
    UserIdsWith(a.channels[c], s, b.channels[c][s]);
    assert b.channels[c] == a.channels[c][s := b.channels[c][s]];
  }

  lemma ExitIds(a: App, c: string, s: SocketId)
    requires Subscribed(a, c, s)
    ensures UserIds(Apply(a, Exit(c, s)).channels[c]) == UserIds(a.channels[c]) - multiset{a.channels[c][s].id}
  {
    UserIdsWithout(a.channels[c], s);
    TakeBack(UserIds(a.channels[c] - {s}), a.channels[c][s].id);
    assert Apply(a, Exit(c, s)).channels[c] == a.channels[c] - {s};
  }

  lemma TakeBack(rest: multiset<UserId>, u: UserId)
    ensures rest + multiset{u} - multiset{u} == rest
  {
  }

  /** The users subscribed after a change. */
  lemma IdsAfter(a: App, op: Op, c: string)
    requires Legal(a, op) && Orderly(a, op) && IsPresence(c)
    requires Told(a.hooks, c) == UserIds(Hooks.SubsOf(a, c))
    ensures UserIds(Hooks.SubsOf(Apply(a, op), c)) == ToldAfter(a, op, c)
  {
    if op.Enter? && op.c == c {
      EnterIds(a, c, op.s, op.d);
    } else if op.Exit? && op.c == c {
      ExitIds(a, c, op.s);
    } else {
      SameSubs(a, op, c);
    }
  }

  lemma SameSubs(a: App, op: Op, c: string)
    requires Legal(a, op) && !(op.Enter? && op.c == c) && !(op.Exit? && op.c == c)
    ensures Hooks.SubsOf(Apply(a, op), c) == Hooks.SubsOf(a, c)
    ensures ToldAfter(a, op, c) == Told(a.hooks, c)
  {
  }

  lemma ToldRightAfter(a: App, op: Op, c: string)
    requires ToldRight(a, c) && Legal(a, op) && Orderly(a, op)
    ensures ToldRight(Apply(a, op), c)
  {
    if IsPresence(c) {
      TellsExactly(a, op, c);
      IdsAfter(a, op, c);
    }
  }

  lemma ToldNext(st: Cluster, l: Label, i: InstanceId, c: string)
    requires Enabled(st, l) && Safe(st) && Reconstructible(st) && LabelOrderly(st, l)
    requires i in st.nodes && ToldRight(st.nodes[i].app, c)
    ensures ToldRight(Next(st, l).nodes[i].app, c)
  {
    if i == l.i {
      var a, op := st.nodes[i].app, Plan(st, l).op;
      assert NodeSound(st, i) && NodeReconstructible(st.nodes[i]);
      PlanIsLegal(st, l);
      PlanJoins(st, l);
      ToldRightAfter(a, op, c);
    }
  }

  lemma {:induction false} ToldAlways(st: Cluster, run: seq<Label>, i: InstanceId, c: string)
    requires IsRun(st, run) && Safe(st) && Reconstructible(st) && OrderlyRun(st, run)
    requires i in st.nodes && ToldRight(st.nodes[i].app, c)
    ensures i in After(st, run).nodes && ToldRight(After(st, run).nodes[i].app, c)
    decreases |run|
  {
    if run != [] {
      ToldNext(st, run[0], i, c);
      SafeNext(st, run[0]);
      ReconstructibleNext(st, run[0]);
      ToldAlways(Next(st, run[0]), run[1..], i, c);
    }
  }

  /** On every orderly run the member webhooks of a presence channel tell exactly which users are subscribed, with multiplicity. */
  lemma WebhooksTellTheMembers(st: Cluster, run: seq<Label>, end: Cluster, i: InstanceId, c: string)
    requires Initial(st) && IsRun(st, run) && OrderlyRun(st, run) && end == After(st, run) && i in end.nodes
    requires IsPresence(c)
    ensures Told(end.nodes[i].app.hooks, c) == UserIds(Hooks.SubsOf(end.nodes[i].app, c))
  {
    SameNodes(st, run);
    InitiallySafe(st);
    InitiallyReconstructible(st);
    ToldAlways(st, run, i, c);
  }
}
