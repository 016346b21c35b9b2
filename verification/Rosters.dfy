/** The user IDs of a subscription map, with their multiplicities. */
module Rosters {
  import opened Types

  ghost function UserIds(subs: Roster): (ids: multiset<UserId>)
    ensures |ids| == |subs|
  {
    if subs == map[] then multiset{}
    else
      var s :| s in subs;
      assert (subs - {s}).Keys == subs.Keys - {s};
      UserIds(subs - {s}) + multiset{subs[s].id}
  }

  /** The distinct user IDs. */
  function Users(subs: Roster): set<UserId> {
    set s | s in subs :: subs[s].id
  }

  /** The subscriptions whose stored data is JSON. */
  function Readable(subs: Roster): Roster {
    map s | s in subs && subs[s].data.Some? :: subs[s]
  }

  lemma Removed(subs: Roster, s: SocketId, t: SocketId)
    requires s in subs && t in subs
    ensures (subs - {s}).Keys == subs.Keys - {s} && |subs - {s}| == |subs| - 1
    ensures subs - {t} - {s} == subs - {s} - {t}
    ensures t != s ==> t in subs - {s} && (subs - {s})[t] == subs[t]
  {
    assert |subs| == |subs.Keys| && |subs - {s}| == |(subs - {s}).Keys|;
  }

  /** The enumeration behind UserIds does not matter: any subscription can be taken out. */
  lemma {:induction false} UserIdsWithout(subs: Roster, s: SocketId)
    requires s in subs
    ensures UserIds(subs) == UserIds(subs - {s}) + multiset{subs[s].id}
    decreases |subs|
  {
    var t :| t in subs && UserIds(subs) == UserIds(subs - {t}) + multiset{subs[t].id};
    if t != s {
      Removed(subs, s, t);
      Removed(subs, t, s);
      UserIdsWithout(subs - {t}, s);
      UserIdsWithout(subs - {s}, t);
    }
  }

  lemma UserIdsWith(subs: Roster, s: SocketId, x: Sub)
    requires s !in subs
    ensures UserIds(subs[s := x]) == UserIds(subs) + multiset{x.id}
  {
    UserIdsWithout(subs[s := x], s);
    assert subs[s := x] - {s} == subs;
  }

  lemma UserIdsPut(subs: Roster, s: SocketId, x: Sub)
    ensures UserIds(subs[s := x]) == UserIds(subs - {s}) + multiset{x.id}
    ensures s !in subs ==> subs - {s} == subs
  {
    PutWithout(subs, s, x);
    UserIdsWith(subs - {s}, s, x);
  }

  lemma PutWithout(subs: Roster, s: SocketId, x: Sub)
    ensures (subs - {s})[s := x] == subs[s := x]
    ensures s !in subs ==> subs - {s} == subs
  {
  }

  lemma {:induction false} UserIdsHas(subs: Roster, u: UserId)
    ensures u in UserIds(subs) <==> u in Users(subs)
    decreases |subs|
  {
    if subs != map[] {
      var s :| s in subs && UserIds(subs) == UserIds(subs - {s}) + multiset{subs[s].id};
      assert (subs - {s}).Keys == subs.Keys - {s};
      UserIdsHas(subs - {s}, u);
      UsersWithout(subs, s);
    }
  }

  lemma UsersWithout(subs: Roster, s: SocketId)
    requires s in subs
    ensures Users(subs) == Users(subs - {s}) + {subs[s].id}
  {
    var rest := subs - {s};
    forall t | t in subs
      ensures subs[t].id in Users(rest) + {subs[s].id}
    {
      if t != s {
        assert t in rest && rest[t] == subs[t];
      }
    }
    forall t | t in rest
      ensures rest[t].id in Users(subs)
    {
      assert t in subs && rest[t] == subs[t];
    }
  }
}
