/**
 Subscribe and Unsubscribe of one channel on several threads. A step is one locked section,
 so the threads interleave between the sections; a subscription is an object that the
 map refers to and that Subscribe fills in after filing it.
 */
module Interleaving {
  import opened Types
  import opened Names
  import opened Instance

  type Ref = nat

  /** The subscription map and the subscription objects. */
  datatype Shared = Shared(filed: map<SocketId, Ref>, heap: map<Ref, Sub>)

  /** A Subscribe with the object it will create, or an Unsubscribe. */
  datatype Thread =
    | Subscriber(s: SocketId, d: ChannelData, o: Ref)
    | Unsubscriber(s: SocketId)

  /** The section a thread enters next. Telling the members, the snapshot and the tally only read the map. */
  datatype Section = Look | File | Fill | Delete | Tell | Snapshot | Tally | Done

  function Begin(t: Thread): Section { if t.Subscriber? then File else Look }

  /** The section after one, given the map it sees. */
  function Following(c: string, sh: Shared, t: Thread, at: Section): Section {
    match t
    case Subscriber(s, d, _) => (
      match at
      case File => if !IsPresence(c) then Tally else if d.Member? then Fill else Done
      case Fill => Tell
      case Tell => Snapshot
      case Snapshot => Tally
      case _ => Done)
    case Unsubscriber(s) => (
      match at
      case Look => if s in sh.filed then Delete else Done
      case Delete => if IsPresence(c) then Tell else Tally
      case Tell => Tally
      case _ => Done)
  }

  function Effect(c: string, sh: Shared, t: Thread, at: Section): Shared {
    match t
    case Subscriber(s, d, o) =>
      if at.File? then Shared(sh.filed[s := o], sh.heap[o := Sub("", AsJson(d))])
      else if at.Fill? then sh.(heap := sh.heap[o := Entry(c, d)])
      else sh
    case Unsubscriber(s) =>
      if at.Delete? then sh.(filed := sh.filed - {s}) else sh
  }

  datatype State = State(sh: Shared, at: seq<Section>)

  predicate Runnable(threads: seq<Thread>, st: State, k: nat) {
    k < |threads| == |st.at| && !st.at[k].Done?
  }

  function Step(c: string, threads: seq<Thread>, st: State, k: nat): State
    requires Runnable(threads, st, k)
  {
    State(Effect(c, st.sh, threads[k], st.at[k]), st.at[k := Following(c, st.sh, threads[k], st.at[k])])
  }

  predicate IsSchedule(c: string, threads: seq<Thread>, st: State, run: seq<nat>)
    decreases |run|
  {
    run == [] || (Runnable(threads, st, run[0]) && IsSchedule(c, threads, Step(c, threads, st, run[0]), run[1..]))
  }

  function Outcome(c: string, threads: seq<Thread>, st: State, run: seq<nat>): State
    requires IsSchedule(c, threads, st, run)
    decreases |run|
  {
    if run == [] then st else Outcome(c, threads, Step(c, threads, st, run[0]), run[1..])
  }

  /** The subscriptions as a value. */
  predicate Closed(sh: Shared) { forall s :: s in sh.filed ==> sh.filed[s] in sh.heap }

  function RosterOf(sh: Shared): Roster
    requires Closed(sh)
  {
    map s | s in sh.filed :: sh.heap[sh.filed[s]]
  }

  // ---------- one thread after another ----------

  /** The subscriptions after one whole handler. */
  ghost function AfterOne(c: string, subs: Roster, t: Thread): Roster {
    if t.Subscriber? then Join(c, Chan(subs, map[], []), t.s, t.d).subs else Leave(c, Chan(subs, map[], []), t.s).subs
  }

  /** The subscriptions after the whole handlers, in the order of the list. */
  ghost function OneByOne(c: string, subs: Roster, threads: seq<Thread>): Roster {
    if threads == [] then subs
    else AfterOne(c, OneByOne(c, subs, threads[..|threads| - 1]), threads[|threads| - 1])
  }

  /** Pairwise distinct sockets; every subscriber creates its own new object. */
  ghost predicate Apart(threads: seq<Thread>, sh: Shared) {
    && (forall j, k :: 0 <= j < k < |threads| ==> threads[j].s != threads[k].s)
    && (forall j, k :: 0 <= j < |threads| && 0 <= k < |threads| && j != k && threads[j].Subscriber? && threads[k].Subscriber?
          ==> threads[j].o != threads[k].o)
    && (forall k :: 0 <= k < |threads| && threads[k].Subscriber? ==> threads[k].o !in sh.heap)
  }

  function Found(sh: Shared, s: SocketId): Option<Sub>
    requires Closed(sh)
  {
    if s in sh.filed then Some(sh.heap[sh.filed[s]]) else None
  }

  /** What a thread has made of its socket's entry when it stands at a section. */
  function Made(c: string, was: Option<Sub>, t: Thread, at: Section): Option<Sub> {
    match t
    case Subscriber(s, d, _) => if at.File? then was else if at.Fill? then Some(Sub("", AsJson(d))) else Some(Entry(c, d))
    case Unsubscriber(s) => if at.Look? || at.Delete? then was else None
  }

  /** The sections a thread can stand at, and the object its socket's entry then is. */
  predicate Stands(sh: Shared, t: Thread, at: Section) {
    match t
    case Subscriber(s, _, o) => !at.Look? && !at.Delete? && (!at.File? ==> s in sh.filed && sh.filed[s] == o)
    case Unsubscriber(s) => !at.File? && !at.Fill? && !at.Snapshot? && (at.Delete? ==> s in sh.filed)
  }

  /** No other socket's entry is the object that a subscriber makes. */
  ghost predicate OwnObject(sh: Shared, t: Thread) {
    t.Subscriber? ==> forall s :: s in sh.filed && s != t.s ==> sh.filed[s] != t.o
  }

  ghost predicate NoThread(threads: seq<Thread>, s: SocketId) {
    forall k :: 0 <= k < |threads| ==> threads[k].s != s
  }

  /** Sockets without a thread keep their entry; the others have what their thread made of it. */
  ghost predicate Agrees(c: string, start: Shared, threads: seq<Thread>, st: State)
    requires Closed(start)
  {
    && |st.at| == |threads| && Closed(st.sh)
    && (forall k :: 0 <= k < |threads| ==>
          && Stands(st.sh, threads[k], st.at[k]) && OwnObject(st.sh, threads[k])
          && Found(st.sh, threads[k].s) == Made(c, Found(start, threads[k].s), threads[k], st.at[k]))
    && (forall s :: NoThread(threads, s) ==> Found(st.sh, s) == Found(start, s))
  }

  /** A section changes the entry of its own thread's socket only, in the way it should. */
  lemma StepEffect(c: string, sh: Shared, t: Thread, at: Section, was: Option<Sub>)
    requires Closed(sh) && Stands(sh, t, at) && OwnObject(sh, t) && Found(sh, t.s) == Made(c, was, t, at)
    ensures var next := Effect(c, sh, t, at);
      && Closed(next) && Stands(next, t, Following(c, sh, t, at)) && OwnObject(next, t)
      && Found(next, t.s) == Made(c, was, t, Following(c, sh, t, at))
      && (forall s :: s != t.s ==> Found(next, s) == Found(sh, s))
      && (forall s :: s != t.s ==> (s in next.filed <==> s in sh.filed) && (s in sh.filed ==> next.filed[s] == sh.filed[s]))
      && (t.s in next.filed ==> (t.s in sh.filed && next.filed[t.s] == sh.filed[t.s]) || (t.Subscriber? && next.filed[t.s] == t.o))
  {
  }

  lemma AgreesStep(c: string, start: Shared, threads: seq<Thread>, st: State, k: nat)
    requires Closed(start) && Apart(threads, start) && Agrees(c, start, threads, st) && Runnable(threads, st, k)
    ensures Agrees(c, start, threads, Step(c, threads, st, k))
  {
    var t := threads[k];
    StepEffect(c, st.sh, t, st.at[k], Found(start, t.s));
    var next := Step(c, threads, st, k);
    forall j | 0 <= j < |threads| && j != k
      ensures Stands(next.sh, threads[j], next.at[j]) && OwnObject(next.sh, threads[j])
      ensures Found(next.sh, threads[j].s) == Made(c, Found(start, threads[j].s), threads[j], next.at[j])
    {
      assert threads[j].s != t.s;
      assert OwnObject(st.sh, threads[j]);
    }
  }

  lemma {:induction false} AgreesAlways(c: string, start: Shared, threads: seq<Thread>, st: State, run: seq<nat>)
    requires Closed(start) && Apart(threads, start) && Agrees(c, start, threads, st) && IsSchedule(c, threads, st, run)
    ensures Agrees(c, start, threads, Outcome(c, threads, st, run))
    decreases |run|
  {
    if run != [] {
      AgreesStep(c, start, threads, st, run[0]);
      AgreesAlways(c, start, threads, Step(c, threads, st, run[0]), run[1..]);
    }
  }

  function Opening(start: Shared, threads: seq<Thread>): State {
    State(start, seq(|threads|, k requires 0 <= k < |threads| => Begin(threads[k])))
  }

  function Lookup(subs: Roster, s: SocketId): Option<Sub> { if s in subs then Some(subs[s]) else None }

  lemma AfterOneFound(c: string, subs: Roster, t: Thread, s: SocketId)
    ensures Lookup(AfterOne(c, subs, t), s) == if s == t.s then Made(c, Lookup(subs, s), t, Done) else Lookup(subs, s)
  {
  }

  /** The sequential result, socket by socket. */
  lemma {:induction false} OneByOneFound(c: string, start: Shared, threads: seq<Thread>, s: SocketId)
    requires Closed(start) && forall j, k :: 0 <= j < k < |threads| ==> threads[j].s != threads[k].s
    ensures var found := Lookup(OneByOne(c, RosterOf(start), threads), s);
      && (NoThread(threads, s) ==> found == Found(start, s))
      && (forall k :: 0 <= k < |threads| && threads[k].s == s ==> found == Made(c, Found(start, s), threads[k], Done))
  {
    if threads != [] {
      var last := |threads| - 1;
      OneByOneFound(c, start, threads[..last], s);
      AfterOneFound(c, OneByOne(c, RosterOf(start), threads[..last]), threads[last], s);
      if threads[last].s == s || NoThread(threads, s) {
        assert NoThread(threads[..last], s);
      }
      forall k | 0 <= k < last && threads[k].s == s
        ensures threads[..last][k] == threads[k]
      {
      }
    }
  }

  /**
   Whatever the interleaving of the locked sections, when all threads are done the subscriptions
   are those of the threads run one after the other: no subscription is lost.
   */
  lemma Interleaved(c: string, start: Shared, threads: seq<Thread>, run: seq<nat>)
    requires Closed(start) && Apart(threads, start) && IsSchedule(c, threads, Opening(start, threads), run)
    requires forall at :: at in Outcome(c, threads, Opening(start, threads), run).at ==> at.Done?
    ensures var end := Outcome(c, threads, Opening(start, threads), run).sh;
      Closed(end) && RosterOf(end) == OneByOne(c, RosterOf(start), threads)
  {
    var st := Opening(start, threads);
    assert Agrees(c, start, threads, st);
    AgreesAlways(c, start, threads, st, run);
    var end := Outcome(c, threads, st, run);
    var subs := OneByOne(c, RosterOf(start), threads);
    forall s: SocketId
      ensures s in RosterOf(end.sh) <==> s in subs
      ensures s in subs ==> RosterOf(end.sh)[s] == subs[s]
    {
      OneByOneFound(c, start, threads, s);
      if k :| 0 <= k < |threads| && threads[k].s == s {
        assert end.at[k].Done?;
      } else {
        assert NoThread(threads, s);
      }
    }
  }
}
