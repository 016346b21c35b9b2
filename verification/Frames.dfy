/** A property of all frames survives a change if the frames the change writes have it. */
module Frames {
  import opened Types
  import opened Names
  import opened Instance

  ghost predicate AllFrames(logs: Logs, ok: (SocketId, Msg) -> bool) {
    forall s, k :: 0 <= k < |LogOf(logs, s)| ==> ok(s, LogOf(logs, s)[k])
  }

  lemma FanOutFrames(logs: Logs, to: set<SocketId>, m: Msg, ok: (SocketId, Msg) -> bool)
    requires AllFrames(logs, ok) && forall s :: s in to ==> ok(s, m)
    ensures AllFrames(FanOut(logs, to, m), ok)
  {
  }

  lemma JoinFrames(c: string, st: Chan, s: SocketId, d: ChannelData, ok: (SocketId, Msg) -> bool)
    requires AllFrames(st.logs, ok) && forall t, m: Msg :: !m.Event? ==> ok(t, m)
    ensures AllFrames(Join(c, st, s, d).logs, ok)
  {
    var subs := Join(c, st, s, d).subs;
    if !IsPresence(c) {
      FanOutFrames(st.logs, {s}, SucceededMsg(c, subs), ok);
    } else if d.Member? {
      var told := FanOut(st.logs, subs.Keys - {s}, MemberAdded(c, d));
      FanOutFrames(st.logs, subs.Keys - {s}, MemberAdded(c, d), ok);
      FanOutFrames(told, {s}, SucceededMsg(c, subs), ok);
    }
  }

  lemma LeaveFrames(c: string, st: Chan, s: SocketId, ok: (SocketId, Msg) -> bool)
    requires AllFrames(st.logs, ok) && forall t, m: Msg :: !m.Event? ==> ok(t, m)
    ensures AllFrames(Leave(c, st, s).logs, ok)
  {
    if s in st.subs && IsPresence(c) {
      FanOutFrames(st.logs, (st.subs - {s}).Keys, MemberRemoved(c, st.subs[s].id), ok);
    }
  }

  lemma TellFrames(c: string, st: Chan, e: Raw, skip: SocketId, tag: Tag, ok: (SocketId, Msg) -> bool)
    requires AllFrames(st.logs, ok)
    requires e.payload.Some? ==>
      forall s :: s in st.subs && s != skip ==> ok(s, Event(e.name, e.chan, e.payload.value, tag))
    ensures AllFrames(Tell(c, st, e, skip, tag).logs, ok)
  {
    if e.payload.Some? {
      FanOutFrames(st.logs, st.subs.Keys - {skip}, Event(e.name, e.chan, e.payload.value, tag), ok);
    }
  }

  /** What an operation may write, over all its subscribers. */
  ghost predicate Writes(a: App, op: Op, ok: (SocketId, Msg) -> bool) {
    && (op.Reply? ==> ok(op.s, op.m))
    && (op.Send? && op.e.payload.Some? ==>
          forall s :: Subscribed(a, op.c, s) && s != op.ignore ==>
            ok(s, Event(op.e.name, op.e.chan, op.e.payload.value, op.tag)))
  }

  lemma FramesKept(a: App, op: Op, ok: (SocketId, Msg) -> bool)
    requires AllFrames(a.logs, ok) && Writes(a, op, ok)
    requires forall s, m: Msg :: !m.Event? ==> ok(s, m)
    ensures AllFrames(Apply(a, op).logs, ok)
  {
    match op
    case Enter(c, s, d) => if c in a.channels { JoinFrames(c, View(a, c), s, d, ok); }
    case Exit(c, s) => if c in a.channels { LeaveFrames(c, View(a, c), s, ok); }
    case Send(c, e, skip, tag) =>
      if c in a.channels {
        assert forall s :: s in a.channels[c] ==> Subscribed(a, c, s);
        TellFrames(c, View(a, c), e, skip, tag, ok);
      }
    case Reply(s, m) => FanOutFrames(a.logs, {s}, m, ok);
    case _ =>
  }

  // ---------- counting the copies of one publication ----------

  predicate IsCopy(m: Msg, t: Tag) { m.Event? && m.tag == t }

  ghost function CountCopies(log: seq<Msg>, t: Tag): nat {
    if log == [] then 0
    else CountCopies(log[..|log| - 1], t) + if IsCopy(log[|log| - 1], t) then 1 else 0
  }

  ghost function Copies(a: App, s: SocketId, t: Tag): nat { CountCopies(LogOf(a.logs, s), t) }

  lemma CountAppend(log: seq<Msg>, m: Msg, t: Tag)
    ensures CountCopies(log + [m], t) == CountCopies(log, t) + if IsCopy(m, t) then 1 else 0
  {
    assert (log + [m])[..|log|] == log;
  }

  lemma FanOutCopies(logs: Logs, to: set<SocketId>, m: Msg, s: SocketId, t: Tag)
    ensures CountCopies(LogOf(FanOut(logs, to, m), s), t) ==
      CountCopies(LogOf(logs, s), t) + if s in to && IsCopy(m, t) then 1 else 0
  {
    CountAppend(LogOf(logs, s), m, t);
  }

  lemma JoinCopies(c: string, st: Chan, u: SocketId, d: ChannelData, s: SocketId, t: Tag)
    ensures CountCopies(LogOf(Join(c, st, u, d).logs, s), t) == CountCopies(LogOf(st.logs, s), t)
  {
    var subs := Join(c, st, u, d).subs;
    if !IsPresence(c) {
      FanOutCopies(st.logs, {u}, SucceededMsg(c, subs), s, t);
    } else if d.Member? {
      var told := FanOut(st.logs, subs.Keys - {u}, MemberAdded(c, d));
      FanOutCopies(st.logs, subs.Keys - {u}, MemberAdded(c, d), s, t);
      FanOutCopies(told, {u}, SucceededMsg(c, subs), s, t);
    }
  }

  lemma LeaveCopies(c: string, st: Chan, u: SocketId, s: SocketId, t: Tag)
    ensures CountCopies(LogOf(Leave(c, st, u).logs, s), t) == CountCopies(LogOf(st.logs, s), t)
  {
    if u in st.subs && IsPresence(c) {
      FanOutCopies(st.logs, (st.subs - {u}).Keys, MemberRemoved(c, st.subs[u].id), s, t);
    }
  }

  /** Does this change write a copy of `t` to `s`? */
  ghost predicate Delivers(a: App, op: Op, s: SocketId, t: Tag) {
    op.Send? && op.e.payload.Some? && op.tag == t && Subscribed(a, op.c, s) && s != op.ignore
  }

  lemma EnterCopies(a: App, c: string, u: SocketId, d: ChannelData, s: SocketId, t: Tag)
    ensures Copies(Apply(a, Enter(c, u, d)), s, t) == Copies(a, s, t)
  {
    if c in a.channels {
      JoinCopies(c, View(a, c), u, d, s, t);
    }
  }

  lemma ExitCopies(a: App, c: string, u: SocketId, s: SocketId, t: Tag)
    ensures Copies(Apply(a, Exit(c, u)), s, t) == Copies(a, s, t)
  {
    if c in a.channels {
      LeaveCopies(c, View(a, c), u, s, t);
    }
  }

  lemma SendCopies(a: App, c: string, e: Raw, skip: SocketId, tag: Tag, s: SocketId, t: Tag)
    ensures Copies(Apply(a, Send(c, e, skip, tag)), s, t) ==
      Copies(a, s, t) + if Delivers(a, Send(c, e, skip, tag), s, t) then 1 else 0
  {
    if c in a.channels && e.payload.Some? {
      FanOutCopies(a.logs, a.channels[c].Keys - {skip}, Event(e.name, e.chan, e.payload.value, tag), s, t);
    }
  }

  lemma CopiesAfter(a: App, op: Op, s: SocketId, t: Tag)
    requires op.Reply? ==> !op.m.Event?
    ensures Copies(Apply(a, op), s, t) == Copies(a, s, t) + if Delivers(a, op, s, t) then 1 else 0
  {
    match op
    case Enter(c, u, d) => EnterCopies(a, c, u, d, s, t);
    case Exit(c, u) => ExitCopies(a, c, u, s, t);
    case Send(c, e, skip, tag) => SendCopies(a, c, e, skip, tag, s, t);
    case Reply(u, m) => FanOutCopies(a.logs, {u}, m, s, t);
    case _ =>
  }

  lemma {:induction false} NoCopies(log: seq<Msg>, t: Tag)
    requires forall k :: 0 <= k < |log| ==> !IsCopy(log[k], t)
    ensures CountCopies(log, t) == 0
  {
    if log != [] {
      NoCopies(log[..|log| - 1], t);
    }
  }
}
