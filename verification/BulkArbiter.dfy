/** One bulk transfer per session (bulk_arbiter.hpp): who holds the session's bulk, and the stop in between. */
module BulkArbiter {

  datatype Use = Idle | Image | File | Stopping

  datatype Hold = Hold(use: Use, owner: nat, stoppedFrom: Use)

  datatype Call = TryAcquire(use: Use, owner: nat) | Release(owner: nat) | BeginStop(owner: nat) | Reset

  const FREE := Hold(Idle, 0, Idle)

  predicate HeldBy(h: Hold, owner: nat) {
    owner != 0 && h.owner == owner && !h.use.Idle?
  }

  function Apply(h: Hold, call: Call): (Hold, bool) {
    match call
    case TryAcquire(use, owner) =>
      if (use.Image? || use.File?) && owner != 0 && h.use.Idle? then (Hold(use, owner, Idle), true) else (h, false)
    case Release(owner) => if HeldBy(h, owner) then (FREE, true) else (h, false)
    case BeginStop(owner) =>
      if (h.use.Image? || h.use.File?) && HeldBy(h, owner) then (Hold(Stopping, owner, h.use), true) else (h, false)
    case Reset => (FREE, false)
  }

  function Run(h: Hold, calls: seq<Call>): (Hold, seq<bool>)
    decreases |calls|
  {
    if calls == [] then (h, [])
    else
      var (next, ok) := Apply(h, calls[0]);
      var (last, answers) := Run(next, calls[1..]);
      (last, [ok] + answers)
  }

  /** What the holder is: while it is being stopped, what it was. */
  function Kind(h: Hold): Use {
    if h.use.Stopping? then h.stoppedFrom else h.use
  }

  /** Until the holder itself releases the bulk or the session's bulk is reset, it stays the holder, as what it
      came as, through any calls of anybody; and nobody, itself included, is given the bulk meanwhile. */
  lemma {:induction false} HolderKeepsBulk(h: Hold, calls: seq<Call>, owner: nat)
    requires HeldBy(h, owner) && forall c | c in calls :: c != Release(owner) && c != Reset
    ensures var (last, answers) := Run(h, calls);
            && HeldBy(last, owner) && Kind(last) == Kind(h)
            && |answers| == |calls|
            && forall i | 0 <= i < |calls| && answers[i] :: calls[i] == BeginStop(owner)
    decreases |calls|
  {
    if calls != [] {
      var (next, ok) := Apply(h, calls[0]);
      assert calls[0] in calls && forall c | c in calls[1..] :: c in calls;
      HolderKeepsBulk(next, calls[1..], owner);
      var (last, answers) := Run(next, calls[1..]);
      forall i | 0 <= i < |calls| && ([ok] + answers)[i] ensures calls[i] == BeginStop(owner) {
        if i > 0 {
          assert calls[i] == calls[1..][i - 1];
        }
      }
    }
  }

  class Arbiter {
    var use: Use
    var owner: nat
    var stoppedFrom: Use

    function State(): Hold
      reads this
    {
      Hold(use, owner, stoppedFrom)
    }

    constructor ()
      ensures State() == FREE
    {
      use, owner, stoppedFrom := Idle, 0, Idle;
    }

    method TryAcquire(wanted: Use, who: nat) returns (ok: bool)
      modifies this
      ensures (State(), ok) == Apply(old(State()), Call.TryAcquire(wanted, who))
    {
      if !(wanted.Image? || wanted.File?) || who == 0 || !use.Idle? {
        return false;
      }
      use, owner, stoppedFrom := wanted, who, Idle;
      return true;
    }

    method Release(who: nat) returns (ok: bool)
      modifies this
      ensures (State(), ok) == Apply(old(State()), Call.Release(who))
    {
      if use.Idle? || owner != who || who == 0 {
        return false;
      }
      use, owner, stoppedFrom := Idle, 0, Idle;
      return true;
    }

    method BeginStop(who: nat) returns (ok: bool)
      modifies this
      ensures (State(), ok) == Apply(old(State()), Call.BeginStop(who))
    {
      if !(use.Image? || use.File?) || owner != who || who == 0 {
        return false;
      }
      stoppedFrom := use;
      use := Stopping;
      return true;
    }

    /** The session ended: whatever held the bulk is gone with it. */
    method Reset()
      modifies this
      ensures State() == FREE
    {
      use, owner, stoppedFrom := Idle, 0, Idle;
    }
  }
}
