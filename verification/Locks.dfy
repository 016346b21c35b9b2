/**
 The mutexes of the server. A thread's calls are unfolded into the lock operations they
 perform; what they read decides the arguments (who is subscribed, whether a channel is
 found), and here every choice is allowed. Socket, Redis and webhook calls return.
 */
module Locks {
  import opened Types
  import opened Names

  datatype Lock = AppMutex | SubscribersMutex | ChannelMutex(c: string) | ConnMutex(s: SocketId)

  datatype Action = RLock(l: Lock) | WLock(l: Lock) | Unlock(l: Lock)

  /** Nested acquisitions go up: app mutex, subscribers mutex, channel mutex, connection mutex. */
  function Rank(l: Lock): nat {
    match l
    case AppMutex => 0
    case SubscribersMutex => 1
    case ChannelMutex(_) => 2
    case ConnMutex(_) => 3
  }

  // ---------- the lock operations of the code ----------

  function Reading(l: Lock): seq<Action> { [RLock(l), Unlock(l)] }

  function Writing(l: Lock): seq<Action> { [WLock(l), Unlock(l)] }

  /** Connection.Publish on one connection after another. */
  function Frames(to: seq<SocketId>): seq<Action> {
    if to == [] then [] else Writing(ConnMutex(to[0])) + Frames(to[1..])
  }

  /** A loop over the subscribers under the channel's read lock. */
  function Loop(c: string, to: seq<SocketId>): seq<Action> {
    [RLock(ChannelMutex(c))] + Frames(to) + [Unlock(ChannelMutex(c))]
  }

  /** Channel.Subscribe; the others hear member_added. */
  function ChannelSubscribe(c: string, s: SocketId, decodes: bool, others: seq<SocketId>): seq<Action> {
    Writing(ChannelMutex(c)) +
    if !IsPresence(c) then Frames([s]) + Reading(ChannelMutex(c))
    else if !decodes then []
    else Writing(ChannelMutex(c)) + Loop(c, others) + Writing(ChannelMutex(c)) + Frames([s]) + Reading(ChannelMutex(c))
  }

  /** Channel.Unsubscribe; those who stay hear member_removed. */
  function ChannelUnsubscribe(c: string, found: bool, others: seq<SocketId>): seq<Action> {
    Reading(ChannelMutex(c)) +
    if !found then []
    else Writing(ChannelMutex(c)) + (if IsPresence(c) then Loop(c, others) else []) + Reading(ChannelMutex(c))
  }

  /** The first takes the subscribers mutex under the app mutex, the second takes one after the other. */
  const ADD_CHANNEL := [WLock(AppMutex), WLock(SubscribersMutex), Unlock(SubscribersMutex), Unlock(AppMutex)]
  const REMOVE_CHANNEL := Writing(SubscribersMutex) + Writing(AppMutex)

  function FindOrCreate(found: bool): seq<Action> { Reading(AppMutex) + if found then [] else ADD_CHANNEL }

  function AppUnsubscribe(c: string, found: bool, others: seq<SocketId>, occupied: bool): seq<Action> {
    ChannelUnsubscribe(c, found, others) +
    if !found then [] else Reading(ChannelMutex(c)) + if occupied then [] else REMOVE_CHANNEL
  }

  /** One channel in Disconnect's loop. */
  datatype Visit = Visit(c: string, subscribed: bool, found: bool, others: seq<SocketId>, occupied: bool)

  function Visits(vs: seq<Visit>): seq<Action> {
    if vs == [] then []
    else
      var v := vs[0];
      Reading(ChannelMutex(v.c)) + (if v.subscribed then AppUnsubscribe(v.c, v.found, v.others, v.occupied) else []) +
      Visits(vs[1..])
  }

  datatype Call =
    | Connect
    | Disconnect(known: bool, visits: seq<Visit>, stillThere: bool)
    | Subscribe(c: string, s: SocketId, found: bool, decodes: bool, others: seq<SocketId>)
    | Unsubscribe(c: string, channelFound: bool, found: bool, others: seq<SocketId>, occupied: bool)
    | ClientEvent(c: string, found: bool, to: seq<SocketId>)
    | PostEvent(c: string, found: bool, to: seq<SocketId>)
    | Hear(c: string, found: bool, to: seq<SocketId>)
    | Emit(s: SocketId)
    | ListChannels
    | CountSubscriptions(c: string)

  function Program(call: Call): seq<Action> {
    match call
    case Connect => Writing(AppMutex)
    case Disconnect(known, visits, stillThere) =>
      Reading(AppMutex) +
      if !known then [] else Visits(visits) + Writing(AppMutex) + if stillThere then Writing(AppMutex) else []
    case Subscribe(c, s, found, decodes, others) =>
      Reading(AppMutex) + FindOrCreate(found) + ChannelSubscribe(c, s, decodes, others)
    case Unsubscribe(c, channelFound, found, others, occupied) =>
      Reading(AppMutex) + Reading(AppMutex) + if channelFound then AppUnsubscribe(c, found, others, occupied) else []
    case ClientEvent(c, found, to) => Reading(AppMutex) + if found then Loop(c, to) else []
    case PostEvent(c, found, to) => FindOrCreate(found) + Loop(c, to)
    case Hear(c, found, to) => Reading(AppMutex) + if found then Loop(c, to) else []
    case Emit(s) => Frames([s])
    case ListChannels => Reading(AppMutex)
    case CountSubscriptions(c) => Reading(ChannelMutex(c))
  }

  /** A thread makes any calls one after the other. */
  function Programs(calls: seq<Call>): seq<Action> {
    if calls == [] then [] else Program(calls[0]) + Programs(calls[1..])
  }

  // ---------- the discipline ----------

  /** Locks held, outermost first. */
  datatype Held = Held(l: Lock, write: bool)

  /** Locks are taken in rising rank and released innermost first; at the end none is held. */
  predicate Disciplined(p: seq<Action>, held: seq<Held>)
    decreases |p|
  {
    if p == [] then held == []
    else
      match p[0]
      case RLock(l) => Above(l, held) && Disciplined(p[1..], held + [Held(l, false)])
      case WLock(l) => Above(l, held) && Disciplined(p[1..], held + [Held(l, true)])
      case Unlock(l) => held != [] && held[|held| - 1].l == l && Disciplined(p[1..], held[..|held| - 1])
  }

  predicate Above(l: Lock, held: seq<Held>) { forall k :: 0 <= k < |held| ==> Rank(held[k].l) < Rank(l) }

  /** A piece of program that can stand before any disciplined rest. */
  ghost predicate Fine(p: seq<Action>, held: seq<Held>) {
    forall rest :: Disciplined(rest, held) ==> Disciplined(p + rest, held)
  }

  lemma FineEmpty(held: seq<Held>)
    ensures Fine([], held)
  {
    forall rest | Disciplined(rest, held)
      ensures Disciplined([] + rest, held)
    {
      assert [] + rest == rest;
    }
  }

  lemma FineConcat(p: seq<Action>, q: seq<Action>, held: seq<Held>)
    requires Fine(p, held) && Fine(q, held)
    ensures Fine(p + q, held)
  {
    forall rest | Disciplined(rest, held)
      ensures Disciplined(p + q + rest, held)
    {
      assert p + q + rest == p + (q + rest);
    }
  }

  /** A lock around a piece of program. */
  lemma FineWrapped(p: seq<Action>, l: Lock, write: bool, held: seq<Held>)
    requires Above(l, held) && Fine(p, held + [Held(l, write)])
    ensures Fine([if write then WLock(l) else RLock(l)] + p + [Unlock(l)], held)
  {
    var first := if write then WLock(l) else RLock(l);
    forall rest | Disciplined(rest, held)
      ensures Disciplined([first] + p + [Unlock(l)] + rest, held)
    {
      var inner := held + [Held(l, write)];
      assert ([Unlock(l)] + rest)[1..] == rest && inner[..|inner| - 1] == held;
      assert Disciplined([Unlock(l)] + rest, inner);
      var whole := [first] + p + [Unlock(l)] + rest;
      assert whole[1..] == p + ([Unlock(l)] + rest);
      assert Disciplined(whole[1..], inner);
    }
  }

  lemma FineLocked(l: Lock, held: seq<Held>)
    requires Above(l, held)
    ensures Fine(Reading(l), held) && Fine(Writing(l), held)
  {
    FineEmpty(held + [Held(l, false)]);
    FineEmpty(held + [Held(l, true)]);
    FineWrapped([], l, false, held);
    FineWrapped([], l, true, held);
    assert [RLock(l)] + [] + [Unlock(l)] == Reading(l) && [WLock(l)] + [] + [Unlock(l)] == Writing(l);
  }

  lemma {:induction false} FineFrames(to: seq<SocketId>, held: seq<Held>)
    requires forall k :: 0 <= k < |held| ==> held[k].l.ChannelMutex?
    ensures Fine(Frames(to), held)
    decreases |to|
  {
    if to == [] {
      FineEmpty(held);
    } else {
      FineLocked(ConnMutex(to[0]), held);
      FineFrames(to[1..], held);
      FineConcat(Writing(ConnMutex(to[0])), Frames(to[1..]), held);
    }
  }

  lemma FineLoop(c: string, to: seq<SocketId>)
    ensures Fine(Loop(c, to), [])
  {
    var held := [] + [Held(ChannelMutex(c), false)];
    FineFrames(to, held);
    FineWrapped(Frames(to), ChannelMutex(c), false, []);
  }

  lemma FineAddChannel()
    ensures Fine(ADD_CHANNEL, [])
  {
    FineLocked(SubscribersMutex, [] + [Held(AppMutex, true)]);
    FineWrapped(Writing(SubscribersMutex), AppMutex, true, []);
    assert [WLock(AppMutex)] + Writing(SubscribersMutex) + [Unlock(AppMutex)] == ADD_CHANNEL;
  }

  lemma FineRemoveChannel()
    ensures Fine(REMOVE_CHANNEL, [])
  {
    FineLocked(SubscribersMutex, []);
    FineLocked(AppMutex, []);
    FineConcat(Writing(SubscribersMutex), Writing(AppMutex), []);
  }

  lemma FineFindOrCreate(found: bool)
    ensures Fine(FindOrCreate(found), [])
  {
    FineLocked(AppMutex, []);
    FineAddChannel();
    FineEmpty([]);
    FineConcat(Reading(AppMutex), if found then [] else ADD_CHANNEL, []);
  }

  lemma FineChannelSubscribe(c: string, s: SocketId, decodes: bool, others: seq<SocketId>)
    ensures Fine(ChannelSubscribe(c, s, decodes, others), [])
  {
    var r, w, sent := Reading(ChannelMutex(c)), Writing(ChannelMutex(c)), Frames([s]);
    FineLocked(ChannelMutex(c), []);
    FineFrames([s], []);
    FineEmpty([]);
    if !IsPresence(c) {
      FineConcat(sent, r, []);
      FineConcat(w, sent + r, []);
    } else if !decodes {
      FineConcat(w, [], []);
    } else {
      FineLoop(c, others);
      FineConcat(w, Loop(c, others), []);
      FineConcat(w + Loop(c, others), w, []);
      FineConcat(w + Loop(c, others) + w, sent, []);
      FineConcat(w + Loop(c, others) + w + sent, r, []);
      FineConcat(w, w + Loop(c, others) + w + sent + r, []);
    }
  }

  lemma FineChannelUnsubscribe(c: string, found: bool, others: seq<SocketId>)
    ensures Fine(ChannelUnsubscribe(c, found, others), [])
  {
    var r, w := Reading(ChannelMutex(c)), Writing(ChannelMutex(c));
    var told := if IsPresence(c) then Loop(c, others) else [];
    FineLocked(ChannelMutex(c), []);
    FineEmpty([]);
    FineLoop(c, others);
    FineConcat(w, told, []);
    FineConcat(w + told, r, []);
    FineConcat(r, if !found then [] else w + told + r, []);
  }

  lemma FineAppUnsubscribe(c: string, found: bool, others: seq<SocketId>, occupied: bool)
    ensures Fine(AppUnsubscribe(c, found, others, occupied), [])
  {
    var r, removed := Reading(ChannelMutex(c)), if occupied then [] else REMOVE_CHANNEL;
    FineChannelUnsubscribe(c, found, others);
    FineLocked(ChannelMutex(c), []);
    FineEmpty([]);
    FineRemoveChannel();
    FineConcat(r, removed, []);
    FineConcat(ChannelUnsubscribe(c, found, others), if !found then [] else r + removed, []);
  }

  lemma {:induction false} FineVisits(vs: seq<Visit>)
    ensures Fine(Visits(vs), [])
    decreases |vs|
  {
    FineEmpty([]);
    if vs != [] {
      var v := vs[0];
      var left := if v.subscribed then AppUnsubscribe(v.c, v.found, v.others, v.occupied) else [];
      FineLocked(ChannelMutex(v.c), []);
      FineAppUnsubscribe(v.c, v.found, v.others, v.occupied);
      FineVisits(vs[1..]);
      FineConcat(Reading(ChannelMutex(v.c)), left, []);
      FineConcat(Reading(ChannelMutex(v.c)) + left, Visits(vs[1..]), []);
    }
  }

  /** Every call keeps the order of the locks. */
  lemma FineProgram(call: Call)
    ensures Fine(Program(call), [])
  {
    var r, w := Reading(AppMutex), Writing(AppMutex);
    FineLocked(AppMutex, []);
    FineEmpty([]);
    match call
    case Connect =>
    case Disconnect(known, visits, stillThere) =>
      var last := if stillThere then w else [];
      FineVisits(visits);
      FineConcat(Visits(visits), w, []);
      FineConcat(Visits(visits) + w, last, []);
      FineConcat(r, if !known then [] else Visits(visits) + w + last, []);
    case Subscribe(c, s, found, decodes, others) =>
      FineFindOrCreate(found);
      FineChannelSubscribe(c, s, decodes, others);
      FineConcat(r, FindOrCreate(found), []);
      FineConcat(r + FindOrCreate(found), ChannelSubscribe(c, s, decodes, others), []);
    case Unsubscribe(c, channelFound, found, others, occupied) =>
      FineAppUnsubscribe(c, found, others, occupied);
      FineConcat(r, r, []);
      FineConcat(r + r, if channelFound then AppUnsubscribe(c, found, others, occupied) else [], []);
    case ClientEvent(c, found, to) =>
      FineLoop(c, to);
      FineConcat(r, if found then Loop(c, to) else [], []);
    case PostEvent(c, found, to) =>
      FineFindOrCreate(found);
      FineLoop(c, to);
      FineConcat(FindOrCreate(found), Loop(c, to), []);
    case Hear(c, found, to) =>
      FineLoop(c, to);
      FineConcat(r, if found then Loop(c, to) else [], []);
    case Emit(s) => FineFrames([s], []);
    case ListChannels =>
    case CountSubscriptions(c) => FineLocked(ChannelMutex(c), []);
  }

  lemma {:induction false} ProgramsDisciplined(calls: seq<Call>)
    ensures Disciplined(Programs(calls), [])
    decreases |calls|
  {
    if calls != [] {
      FineProgram(calls[0]);
      ProgramsDisciplined(calls[1..]);
    }
  }

  // ---------- the threads ----------

  /** `announced` is a writer that waits in Lock: from then on new readers wait for it. */
  datatype Thread = Thread(rest: seq<Action>, held: seq<Held>, announced: bool)

  predicate Holds(t: Thread, l: Lock) { exists k :: 0 <= k < |t.held| && t.held[k].l == l }

  predicate HoldsWrite(t: Thread, l: Lock) { exists k :: 0 <= k < |t.held| && t.held[k] == Held(l, true) }

  predicate Announces(t: Thread, l: Lock) { t.announced && t.rest != [] && t.rest[0] == WLock(l) }

  predicate CanStep(sys: seq<Thread>, k: nat) {
    k < |sys| && sys[k].rest != [] &&
    match sys[k].rest[0]
    case RLock(l) => forall j :: 0 <= j < |sys| && j != k ==> !HoldsWrite(sys[j], l) && !Announces(sys[j], l)
    case WLock(l) => sys[k].announced ==> forall j :: 0 <= j < |sys| && j != k ==> !Holds(sys[j], l)
    case Unlock(_) => true
  }

  function Stepped(t: Thread): Thread
    requires t.rest != []
  {
    match t.rest[0]
    case RLock(l) => Thread(t.rest[1..], t.held + [Held(l, false)], false)
    case WLock(l) => if t.announced then Thread(t.rest[1..], t.held + [Held(l, true)], false) else t.(announced := true)
    case Unlock(_) => Thread(t.rest[1..], if t.held == [] then [] else t.held[..|t.held| - 1], false)
  }

  predicate Sane(t: Thread) { Disciplined(t.rest, t.held) && (t.announced ==> t.rest != [] && t.rest[0].WLock?) }

  ghost predicate AllSane(sys: seq<Thread>) { forall k :: 0 <= k < |sys| ==> Sane(sys[k]) }

  /** A lock held for writing is held by nobody else. */
  ghost predicate Exclusive(sys: seq<Thread>) {
    forall j, k, l :: 0 <= j < |sys| && 0 <= k < |sys| && j != k && HoldsWrite(sys[j], l) ==> !Holds(sys[k], l)
  }

  function Step(sys: seq<Thread>, k: nat): seq<Thread>
    requires CanStep(sys, k)
  {
    sys[k := Stepped(sys[k])]
  }

  predicate IsRun(sys: seq<Thread>, run: seq<nat>)
    decreases |run|
  {
    run == [] || (CanStep(sys, run[0]) && IsRun(Step(sys, run[0]), run[1..]))
  }

  function After(sys: seq<Thread>, run: seq<nat>): seq<Thread>
    requires IsRun(sys, run)
    decreases |run|
  {
    if run == [] then sys else After(Step(sys, run[0]), run[1..])
  }

  lemma SaneStep(sys: seq<Thread>, k: nat)
    requires AllSane(sys) && CanStep(sys, k)
    ensures AllSane(Step(sys, k))
  {
  }

  lemma HoldsAfter(t: Thread, l: Lock)
    requires Sane(t) && t.rest != []
    ensures Holds(Stepped(t), l) ==> Holds(t, l) || t.rest[0] == RLock(l) || (t.rest[0] == WLock(l) && t.announced)
    ensures HoldsWrite(Stepped(t), l) ==> HoldsWrite(t, l) || (t.rest[0] == WLock(l) && t.announced)
  {
  }

  lemma ExclusiveStep(sys: seq<Thread>, k: nat)
    requires AllSane(sys) && Exclusive(sys) && CanStep(sys, k)
    ensures Exclusive(Step(sys, k))
  {
    var next := Step(sys, k);
    forall i, j, l | 0 <= i < |next| && 0 <= j < |next| && i != j && HoldsWrite(next[i], l)
      ensures !Holds(next[j], l)
    {
      HoldsAfter(sys[k], l);
      assert HoldsWrite(sys[j], l) || !HoldsWrite(sys[j], l);
      if j == k {
        assert HoldsWrite(sys[i], l);
      } else if i == k && HoldsWrite(sys[k], l) {
        assert !Holds(sys[j], l);
      }
    }
  }

  /** From any unfinished thread, the waits-for chain climbs in rank to a thread that can move. */
  lemma {:induction false} Mover(sys: seq<Thread>, k: nat) returns (m: nat)
    requires AllSane(sys) && k < |sys| && sys[k].rest != []
    ensures CanStep(sys, m)
    decreases 4 - if sys[k].rest[0].Unlock? then 4 else Rank(sys[k].rest[0].l)
  {
    var a := sys[k].rest[0];
    if CanStep(sys, k) {
      return k;
    }
    if j :| 0 <= j < |sys| && j != k && Holds(sys[j], a.l) {
      HolderIsBusy(sys[j], a.l);
      m := Mover(sys, j);
    } else {
      var j :| 0 <= j < |sys| && j != k && (HoldsWrite(sys[j], a.l) || Announces(sys[j], a.l));
      assert HoldsWrite(sys[j], a.l) ==> Holds(sys[j], a.l);
      assert !Holds(sys[k], a.l);
      m := j;
    }
  }

  lemma HolderIsBusy(t: Thread, l: Lock)
    requires Sane(t) && Holds(t, l)
    ensures t.rest != [] && (t.rest[0].Unlock? || Rank(t.rest[0].l) > Rank(l))
  {
  }

  lemma {:induction false} KeptAlways(sys: seq<Thread>, run: seq<nat>)
    requires AllSane(sys) && Exclusive(sys) && IsRun(sys, run)
    ensures AllSane(After(sys, run)) && Exclusive(After(sys, run)) && |After(sys, run)| == |sys|
    decreases |run|
  {
    if run != [] {
      SaneStep(sys, run[0]);
      ExclusiveStep(sys, run[0]);
      KeptAlways(Step(sys, run[0]), run[1..]);
    }
  }

  function Fresh(calls: seq<seq<Call>>): seq<Thread> {
    seq(|calls|, k requires 0 <= k < |calls| => Thread(Programs(calls[k]), [], false))
  }

  lemma FreshIsSane(calls: seq<seq<Call>>)
    ensures AllSane(Fresh(calls)) && Exclusive(Fresh(calls))
  {
    forall k | 0 <= k < |calls|
      ensures Sane(Fresh(calls)[k])
    {
      ProgramsDisciplined(calls[k]);
    }
  }

  /**
   Any number of threads making any calls, interleaved in any way: no two threads hold a lock
   that one of them holds for writing, and while some thread is unfinished some thread can move.
   */
  lemma NoDeadlock(calls: seq<seq<Call>>, run: seq<nat>)
    requires IsRun(Fresh(calls), run)
    ensures Exclusive(After(Fresh(calls), run))
    ensures var end := After(Fresh(calls), run);
      (exists k :: 0 <= k < |end| && end[k].rest != []) ==> exists m :: CanStep(end, m)
  {
    FreshIsSane(calls);
    KeptAlways(Fresh(calls), run);
    var end := After(Fresh(calls), run);
    if k :| 0 <= k < |end| && end[k].rest != [] {
      var m := Mover(end, k);
    }
  }

  /** How many steps are left at most: a lock that is taken for writing is announced first. */
  function Work(sys: seq<Thread>): nat {
    if sys == [] then 0
    else
      var t := sys[|sys| - 1];
      Work(sys[..|sys| - 1]) + 2 * |t.rest| + if t.rest == [] || t.announced then 0 else 1
  }

  lemma {:induction false} WorkShrinks(sys: seq<Thread>, k: nat, t: Thread)
    requires k < |sys| && sys[k].rest != []
    requires t == Stepped(sys[k]) && Sane(sys[k])
    ensures Work(sys[k := t]) < Work(sys)
  {
    var last := |sys| - 1;
    if k < last {
      WorkShrinks(sys[..last], k, t);
      assert sys[k := t][..last] == sys[..last][k := t];
    } else {
      assert sys[k := t][..last] == sys[..last];
    }
  }

  /** Every run is bounded; with NoDeadlock, a run that cannot go on has finished every call. */
  lemma {:induction false} RunsEnd(sys: seq<Thread>, run: seq<nat>)
    requires AllSane(sys) && IsRun(sys, run)
    ensures |run| + Work(After(sys, run)) <= Work(sys)
    decreases |run|
  {
    if run != [] {
      SaneStep(sys, run[0]);
      WorkShrinks(sys, run[0], Stepped(sys[run[0]]));
      RunsEnd(Step(sys, run[0]), run[1..]);
    }
  }
}
