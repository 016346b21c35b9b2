/** The data of subscription_succeeded on a presence channel, and the counts that must agree with it. */
module Payload {
  import opened Types
  import opened Rosters

  datatype PresenceData = PresenceData(ids: seq<UserId>, hash: map<UserId, Json>, count: nat)

  /** Each hash value comes from some subscription of that user. */
  ghost predicate HashFrom(hash: map<UserId, Json>, subs: Roster) {
    forall u :: u in hash ==> exists s :: s in subs && subs[s] == Sub(u, Some(hash[u]))
  }

  /** The payload: the readable user IDs in some order, the distinct ones as keys, and the number of all subscriptions. */
  ghost predicate IsPayload(data: PresenceData, subs: Roster) {
    && multiset(data.ids) == UserIds(Readable(subs)) && data.hash.Keys == Users(Readable(subs))
    && HashFrom(data.hash, subs) && data.count == |subs|
  }

  /** `done` is the part of `subs` outside `left` that a loop has taken in. */
  ghost predicate Taken(done: Roster, subs: Roster, left: set<SocketId>, readable: bool) {
    && left <= subs.Keys && done.Keys !! left
    && (forall s :: s in done ==> s in subs && done[s] == subs[s] && (readable ==> subs[s].data.Some?))
    && (forall s :: s in subs && s !in left && (readable ==> subs[s].data.Some?) ==> s in done)
  }

  lemma AllTaken(done: Roster, subs: Roster, readable: bool)
    requires Taken(done, subs, {}, readable)
    ensures done == if readable then Readable(subs) else subs
  {
  }

  lemma HashFromPut(hash: map<UserId, Json>, subs: Roster, s: SocketId)
    requires HashFrom(hash, subs) && s in subs && subs[s].data.Some?
    ensures HashFrom(hash[subs[s].id := subs[s].data.value], subs)
  {
    var after := hash[subs[s].id := subs[s].data.value];
    forall u | u in after
      ensures exists t :: t in subs && subs[t] == Sub(u, Some(after[u]))
    {
      if u == subs[s].id {
        assert subs[s] == Sub(u, Some(after[u]));
      } else {
        var t :| t in subs && subs[t] == Sub(u, Some(hash[u]));
      }
    }
  }

  lemma ListedWith(ids: seq<UserId>, done: Roster, s: SocketId, x: Sub)
    requires s !in done && multiset(ids) == UserIds(done)
    ensures multiset(ids + [x.id]) == UserIds(done[s := x])
    ensures Users(done[s := x]) == Users(done) + {x.id}
  {
    UserIdsWith(done, s, x);
    UsersWith(done, s, x);
  }

  /** The payload so far. */
  ghost predicate Collected(ids: seq<UserId>, hash: map<UserId, Json>, done: Roster, subs: Roster) {
    multiset(ids) == UserIds(done) && hash.Keys == Users(done) && HashFrom(hash, subs)
  }

  lemma CollectedWith(ids: seq<UserId>, hash: map<UserId, Json>, done: Roster, subs: Roster, s: SocketId)
    requires Collected(ids, hash, done, subs) && s in subs && s !in done && subs[s].data.Some?
    ensures Collected(ids + [subs[s].id], hash[subs[s].id := subs[s].data.value], done[s := subs[s]], subs)
  {
    ListedWith(ids, done, s, subs[s]);
    HashFromPut(hash, subs, s);
  }

  /** NewSubscriptionSucceedPresenceData: the map is ranged over in any order, unreadable data is skipped. */
  method SucceededData(subs: Roster) returns (data: PresenceData)
    ensures IsPayload(data, subs)
  {
    var ids: seq<UserId>, hash: map<UserId, Json> := [], map[];
    var left := subs.Keys;
    ghost var done: Roster := map[];
    while left != {}
      invariant Taken(done, subs, left, true)
      invariant Collected(ids, hash, done, subs)
      decreases left
    {
      var s :| s in left;
      left := left - {s};
      if subs[s].data.Some? {
        CollectedWith(ids, hash, done, subs, s);
        hash := hash[subs[s].id := subs[s].data.value];
        ids := ids + [subs[s].id];
        done := done[s := subs[s]];
      }
    }
    AllTaken(done, subs, true);
    data := PresenceData(ids, hash, |subs|);
  }

  lemma UsersWith(subs: Roster, s: SocketId, x: Sub)
    requires s !in subs
    ensures Users(subs[s := x]) == Users(subs) + {x.id}
  {
    UsersWithout(subs[s := x], s);
    assert subs[s := x] - {s} == subs;
  }

  /** A map that counts each user ID. */
  ghost predicate Counts(total: map<UserId, nat>, ids: multiset<UserId>) {
    forall u :: (u in total <==> u in ids) && (u in total ==> total[u] == ids[u])
  }

  lemma CountsWith(total: map<UserId, nat>, ids: multiset<UserId>, x: UserId)
    requires Counts(total, ids)
    ensures Counts(total[x := (if x in total then total[x] else 0) + 1], ids + multiset{x})
  {
  }

  lemma CountsKeys(total: map<UserId, nat>, subs: Roster)
    requires Counts(total, UserIds(subs))
    ensures total.Keys == Users(subs)
  {
    forall u: UserId
      ensures u in total.Keys <==> u in Users(subs)
    {
      UserIdsHas(subs, u);
    }
  }

  /** TotalUsers: the size of a map that counts the subscriptions of each user ID. */
  method TotalUsers(subs: Roster) returns (n: nat)
    ensures n == |Users(subs)|
  {
    var total: map<UserId, nat> := map[];
    var left := subs.Keys;
    ghost var done: Roster := map[];
    while left != {}
      invariant Taken(done, subs, left, false)
      invariant Counts(total, UserIds(done))
      decreases left
    {
      var s :| s in left;
      left := left - {s};
      var id := subs[s].id;
      CountsWith(total, UserIds(done), id);
      UserIdsWith(done, s, subs[s]);
      total := total[id := (if id in total then total[id] else 0) + 1];
      done := done[s := subs[s]];
    }
    AllTaken(done, subs, false);
    CountsKeys(total, subs);
    n := |total|;
    assert |total| == |total.Keys|;
  }

  lemma {:induction false} UsersAtMost(subs: Roster)
    ensures |Users(subs)| <= |subs|
    decreases |subs|
  {
    if subs != map[] {
      var s :| s in subs;
      assert (subs - {s}).Keys == subs.Keys - {s};
      UsersAtMost(subs - {s});
      UsersWithout(subs, s);
      assert |Users(subs - {s}) + {subs[s].id}| <= |Users(subs - {s})| + 1;
    }
  }

  /** When every subscription holds JSON, count, ids, hash, TotalSubscriptions and TotalUsers agree; and only then do count and ids. */
  lemma PayloadCounts(data: PresenceData, subs: Roster)
    requires IsPayload(data, subs)
    ensures data.count == |data.ids| <==> forall s :: s in subs ==> subs[s].data.Some?
    ensures (forall s :: s in subs ==> subs[s].data.Some?) ==>
      |data.hash| == |Users(subs)| <= data.count && data.hash.Keys == Users(subs)
  {
    assert |multiset(data.ids)| == |data.ids|;
    var good := Readable(subs);
    assert good.Keys <= subs.Keys;
    assert |data.hash| == |data.hash.Keys|;
    if forall s :: s in subs ==> subs[s].data.Some? {
      assert good == subs;
      UsersAtMost(subs);
    } else {
      var s :| s in subs && subs[s].data.None?;
      assert s in subs.Keys - good.Keys;
      assert |subs.Keys - good.Keys| == |subs.Keys| - |good.Keys|;
    }
  }
}
