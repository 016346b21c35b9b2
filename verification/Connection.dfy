/** A client connection and the socket it writes to. */
module Connection {
  import opened Types

  const WRITE_WAIT := 10

  /** What was done to a socket, and whether it succeeded. */
  datatype SocketOp =
    | SetWriteDeadline(at: Option<int>, ok: bool)
    | WriteJSON(m: Msg, ok: bool)
    | Close

  /** The write deadline that is armed after some operations; a failed call leaves it as it was. */
  function Armed(ops: seq<SocketOp>): Option<int> {
    if ops == [] then None
    else
      var last := ops[|ops| - 1];
      if last.SetWriteDeadline? && last.ok then last.at else Armed(ops[..|ops| - 1])
  }

  /** The operations of one write at time `now`, given which of the three calls succeed. */
  function WriteOps(m: Msg, now: int, arms: bool, writes: bool, clears: bool): seq<SocketOp> {
    var arm := SetWriteDeadline(Some(now + WRITE_WAIT), arms);
    if !arms then [arm, Close]
    else if !writes then [arm, WriteJSON(m, false), Close]
    else if !clears then [arm, WriteJSON(m, true), SetWriteDeadline(None, false), Close]
    else [arm, WriteJSON(m, true), SetWriteDeadline(None, true)]
  }

  /** The clock and the network decide these. */
  method Environment() returns (now: int, arms: bool, writes: bool, clears: bool)
  {
    now, arms, writes, clears := *, *, *, *;
  }

  /**
   The sockets of the process, by socket ID: what was done to each. `published` is every frame
   handed to Publish, whatever became of it.
   */
  class Wire {
    var ops: map<SocketId, seq<SocketOp>>
    ghost var published: Logs

    constructor ()
      ensures ops == map[] && published == map[]
    {
      ops, published := map[], map[];
    }

    function OpsOf(id: SocketId): seq<SocketOp>
      reads this
    {
      if id in ops then ops[id] else []
    }

    method Do(id: SocketId, op: SocketOp)
      modifies `ops
      ensures ops == old(ops)[id := old(OpsOf(id)) + [op]]
    {
      ops := ops[id := OpsOf(id) + [op]];
    }

    /** Arms a deadline for one frame, writes the frame, clears the deadline; closes the socket on any failure. */
    method WriteMessage(id: SocketId, m: Msg, now: int, arms: bool, writes: bool, clears: bool) returns (ok: bool)
      modifies `ops
      ensures ops == old(ops)[id := old(OpsOf(id)) + WriteOps(m, now, arms, writes, clears)]
      ensures ok == (arms && writes && clears)
    {
      ghost var was := OpsOf(id);
      Do(id, SetWriteDeadline(Some(now + WRITE_WAIT), arms));
      if !arms {
        Do(id, Close);
        assert OpsOf(id) == was + WriteOps(m, now, arms, writes, clears);
        return false;
      }
      Do(id, WriteJSON(m, writes));
      if !writes {
        Do(id, Close);
        assert OpsOf(id) == was + WriteOps(m, now, arms, writes, clears);
        return false;
      }
      Do(id, SetWriteDeadline(None, clears));
      if !clears {
        Do(id, Close);
        assert OpsOf(id) == was + WriteOps(m, now, arms, writes, clears);
        return false;
      }
      assert OpsOf(id) == was + WriteOps(m, now, arms, writes, clears);
      return true;
    }
  }

  class Connection {
    const SocketID: SocketId
    const wire: Wire

    constructor (id: SocketId, wire: Wire)
      ensures SocketID == id && this.wire == wire
    {
      SocketID, this.wire := id, wire;
    }

    /** Publish: one write to this connection's socket, and to no other. */
    method Publish(m: Msg) returns (ok: bool)
      modifies wire
      ensures wire.published == FanOut(old(wire.published), {SocketID}, m)
      ensures exists now, arms, writes, clears ::
        && wire.ops == old(wire.ops)[SocketID := old(wire.OpsOf(SocketID)) + WriteOps(m, now, arms, writes, clears)]
        && ok == (arms && writes && clears)
    {
      var now, arms, writes, clears := Environment();
      ok := wire.WriteMessage(SocketID, m, now, arms, writes, clears);
      wire.published := FanOut(wire.published, {SocketID}, m);
    }
  }

  // ---------- the write deadline ----------

  /** One attempt to write: the frame, the time and which calls succeed. */
  datatype Attempt = Attempt(m: Msg, now: int, arms: bool, writes: bool, clears: bool)

  function AllOps(attempts: seq<Attempt>): seq<SocketOp> {
    if attempts == [] then []
    else
      var a := attempts[|attempts| - 1];
      AllOps(attempts[..|attempts| - 1]) + WriteOps(a.m, a.now, a.arms, a.writes, a.clears)
  }

  /** Between writes the socket is closed or has no deadline armed. */
  predicate AtRest(ops: seq<SocketOp>) { Close in ops || Armed(ops) == None }

  /** Each frame is written right after a deadline was armed for it. */
  ghost predicate EachFrameArmed(ops: seq<SocketOp>) {
    forall k :: 0 <= k < |ops| && ops[k].WriteJSON? ==> FrameArmed(ops, k)
  }

  predicate FrameArmed(ops: seq<SocketOp>, k: nat)
    requires k < |ops|
  {
    k > 0 && ops[k - 1].SetWriteDeadline? && ops[k - 1].ok && ops[k - 1].at.Some?
  }

  lemma ArmedAppend(ops: seq<SocketOp>, op: SocketOp)
    ensures Armed(ops + [op]) == if op.SetWriteDeadline? && op.ok then op.at else Armed(ops)
  {
    assert (ops + [op])[..|ops|] == ops;
  }

  lemma WriteRests(ops: seq<SocketOp>, a: Attempt)
    requires AtRest(ops) && EachFrameArmed(ops)
    ensures var after := ops + WriteOps(a.m, a.now, a.arms, a.writes, a.clears); AtRest(after) && EachFrameArmed(after)
    ensures a.arms && a.writes && a.clears ==> Armed(ops + WriteOps(a.m, a.now, true, true, true)) == None
  {
    var more := WriteOps(a.m, a.now, a.arms, a.writes, a.clears);
    var after := ops + more;
    if a.arms && a.writes && a.clears {
      assert after == ops + more[..2] + [SetWriteDeadline(None, true)];
      ArmedAppend(ops + more[..2], SetWriteDeadline(None, true));
    } else {
      assert more[|more| - 1] == Close;
      assert after[|after| - 1] == Close;
    }
    forall k | 0 <= k < |after| && after[k].WriteJSON?
      ensures FrameArmed(after, k)
    {
      if k < |ops| {
        assert FrameArmed(ops, k);
      } else {
        assert after[k] == more[k - |ops|];
        assert k == |ops| + 1 && after[k - 1] == more[0];
      }
    }
  }

  /** After any sequence of writes with any failures the socket is at rest, and every frame had its own deadline. */
  lemma {:induction false} WriteDiscipline(attempts: seq<Attempt>)
    ensures AtRest(AllOps(attempts)) && EachFrameArmed(AllOps(attempts))
  {
    if attempts != [] {
      WriteDiscipline(attempts[..|attempts| - 1]);
      WriteRests(AllOps(attempts[..|attempts| - 1]), attempts[|attempts| - 1]);
    }
  }

  // ---------- the frames ----------

  /** A frame on the socket, under which deadline it was written, and whether that succeeded. */
  datatype Frame = Frame(m: Msg, deadline: Option<int>, ok: bool)

  function FramesOf(ops: seq<SocketOp>): seq<Frame> {
    if ops == [] then []
    else
      var rest, last := ops[..|ops| - 1], ops[|ops| - 1];
      FramesOf(rest) + if last.WriteJSON? then [Frame(last.m, Armed(rest), last.ok)] else []
  }

  /** The frames to write: one for each attempt whose deadline could be armed, ten seconds ahead. */
  function Intended(attempts: seq<Attempt>): seq<Frame> {
    if attempts == [] then []
    else
      var a := attempts[|attempts| - 1];
      Intended(attempts[..|attempts| - 1]) + if a.arms then [Frame(a.m, Some(a.now + 10), a.writes)] else []
  }

  lemma FramesAppend(ops: seq<SocketOp>, op: SocketOp)
    ensures FramesOf(ops + [op]) == FramesOf(ops) + if op.WriteJSON? then [Frame(op.m, Armed(ops), op.ok)] else []
  {
    assert (ops + [op])[..|ops|] == ops;
  }

  lemma {:induction false} FramesQuiet(ops: seq<SocketOp>, more: seq<SocketOp>)
    requires forall k :: 0 <= k < |more| ==> !more[k].WriteJSON?
    ensures FramesOf(ops + more) == FramesOf(ops)
    decreases |more|
  {
    if more == [] {
      assert ops + more == ops;
    } else {
      var rest, last := more[..|more| - 1], more[|more| - 1];
      FramesQuiet(ops, rest);
      FramesAppend(ops + rest, last);
      assert ops + more == ops + rest + [last];
    }
  }

  lemma WriteFrames(ops: seq<SocketOp>, a: Attempt)
    ensures FramesOf(ops + WriteOps(a.m, a.now, a.arms, a.writes, a.clears)) ==
      FramesOf(ops) + if a.arms then [Frame(a.m, Some(a.now + 10), a.writes)] else []
  {
    var arm := SetWriteDeadline(Some(a.now + WRITE_WAIT), a.arms);
    var more := WriteOps(a.m, a.now, a.arms, a.writes, a.clears);
    if a.arms {
      var write := WriteJSON(a.m, a.writes);
      FramesAppend(ops, arm);
      ArmedAppend(ops, arm);
      FramesAppend(ops + [arm], write);
      FramesQuiet(ops + [arm] + [write], more[2..]);
      assert ops + more == ops + [arm] + [write] + more[2..];
    } else {
      FramesQuiet(ops, more);
    }
  }

  /** After any sequence of writes the socket has had exactly the frames it was given, in order, each under its own deadline. */
  lemma {:induction false} FramesAsGiven(attempts: seq<Attempt>)
    ensures FramesOf(AllOps(attempts)) == Intended(attempts)
  {
    if attempts != [] {
      FramesAsGiven(attempts[..|attempts| - 1]);
      WriteFrames(AllOps(attempts[..|attempts| - 1]), attempts[|attempts| - 1]);
    }
  }
}
