/** Parking a connected session (client_park_state.hpp): the order of a park, and what the host may still
    be holding down. */
module ParkState {

  const CONFIRM_BUDGET_US: nat := 2000000
  const PARKED_LIMIT_US: nat := 300000000

  datatype Phase = NotParking | Releasing | Pausing | Fencing | Parked | Failed | Expired

  datatype Fence = Fence(phase: Phase, beganUs: nat, parkedUs: nat, fencePingSeq: nat, wantPing: bool,
                         collected: bool, reReleases: nat)

  const IDLE := Fence(NotParking, 0, 0, 0, false, false, 0)

  /** What the control loop does at a pass boundary. */
  datatype PassStep = PassStep(collect: bool, reRelease: bool, pauseNow: bool, pingNow: bool, phase: Phase)

  predicate MayBegin(f: Fence) {
    f.phase.NotParking? || f.phase.Failed? || f.phase.Expired?
  }

  function Begun(f: Fence, now: nat): Fence {
    if MayBegin(f) then Fence(Releasing, now, 0, 0, false, false, 0) else f
  }

  function Ticked(f: Fence, now: nat): Fence {
    if (f.phase.Releasing? || f.phase.Pausing? || f.phase.Fencing?) && now > f.beganUs + CONFIRM_BUDGET_US
    then f.(phase := Failed)
    else if f.phase.Parked? && now > f.beganUs + PARKED_LIMIT_US then f.(phase := Expired)
    else f
  }

  function Passed(f: Fence, now: nat, queueEmpty: bool, nothingHeld: bool): (Fence, PassStep) {
    var t := Ticked(f, now);
    var waits := t.phase.Releasing? && t.collected;
    var collect := t.phase.Releasing? && !t.collected;
    var pauseNow := waits && queueEmpty && nothingHeld;
    var reRelease := waits && queueEmpty && !nothingHeld && t.reReleases < 1;
    var gaveUp := waits && queueEmpty && !nothingHeld && t.reReleases >= 1;
    var phase := if pauseNow then Pausing else if gaveUp then Failed else t.phase;
    (t.(phase := phase, collected := t.collected || collect,
        reReleases := if reRelease then t.reReleases + 1 else t.reReleases, wantPing := false),
     PassStep(collect, reRelease, pauseNow, t.wantPing, phase))
  }

  function StreamStateSent(f: Fence, active: bool): Fence {
    if !f.phase.Pausing? || active then f else f.(phase := Fencing, wantPing := true)
  }

  function PingSent(f: Fence, seq_: nat): Fence {
    if f.phase.Fencing? && f.fencePingSeq == 0 then f.(fencePingSeq := seq_) else f
  }

  function Ponged(f: Fence, seq_: nat, now: nat): Fence {
    if f.phase.Fencing? && f.fencePingSeq != 0 && seq_ == f.fencePingSeq then
      if now > f.beganUs + CONFIRM_BUDGET_US then f.(phase := Failed)
      else f.(phase := Parked, parkedUs := now)
    else f
  }

  function Ended(f: Fence): Fence {
    f.(phase := NotParking, fencePingSeq := 0, wantPing := false)
  }

  // ------------------------------------------------------------------ runs

  datatype Event =
    | Begin(now: nat)
    | Pass(now: nat, queueEmpty: bool, nothingHeld: bool)
    | StreamState(active: bool)
    | Ping(seq_: nat)
    | TakePing
    | Pong(seq_: nat, now: nat)
    | Tick(now: nat)
    | End

  function Step(f: Fence, e: Event): Fence {
    match e
    case Begin(now) => Begun(f, now)
    case Pass(now, queueEmpty, nothingHeld) => Passed(f, now, queueEmpty, nothingHeld).0
    case StreamState(active) => StreamStateSent(f, active)
    case Ping(n) => PingSent(f, n)
    case TakePing => f.(wantPing := false)
    case Pong(n, now) => Ponged(f, n, now)
    case Tick(now) => Ticked(f, now)
    case End => Ended(f)
  }

  function Run(events: seq<Event>): Fence
    decreases |events|
  {
    if events == [] then IDLE else Step(Run(events[..|events| - 1]), events[|events| - 1])
  }

  lemma RunSnoc(events: seq<Event>, e: Event)
    ensures Run(events + [e]) == Step(Run(events), e)
  {
    assert (events + [e])[..|events|] == events;
  }

  /** Where in a run each stage of the latest park was passed. */
  datatype Trace = Trace(begin: nat, collect: nat, drained: nat, paused: nat, pinged: nat, ponged: nat)

  /** The park under way began at `t.begin`, was accepted there, and nothing ended it since. */
  ghost predicate BeganAt(events: seq<Event>, t: Trace, beganUs: nat) {
    && t.begin < |events| && events[t.begin] == Begin(beganUs) && MayBegin(Run(events[..t.begin]))
    && (forall k | t.begin < k < |events| :: !events[k].End?)
  }

  ghost predicate CollectedAt(events: seq<Event>, t: Trace) {
    && t.begin < t.collect < |events| && events[t.collect].Pass?
    && var e := events[t.collect];
       Passed(Run(events[..t.collect]), e.now, e.queueEmpty, e.nothingHeld).1.collect
  }

  ghost predicate DrainedAt(events: seq<Event>, t: Trace, beganUs: nat) {
    && t.collect < t.drained < |events|
    && events[t.drained].Pass? && events[t.drained].queueEmpty && events[t.drained].nothingHeld
    && events[t.drained].now <= beganUs + CONFIRM_BUDGET_US
    && Passed(Run(events[..t.drained]), events[t.drained].now, true, true).1.pauseNow
  }

  ghost predicate PausedAt(events: seq<Event>, t: Trace) {
    t.drained < t.paused < |events| && events[t.paused] == StreamState(false)
  }

  ghost predicate PingedAt(events: seq<Event>, t: Trace, seq_: nat) {
    t.paused < t.pinged < |events| && events[t.pinged] == Ping(seq_) && seq_ != 0
  }

  ghost predicate PongedAt(events: seq<Event>, t: Trace, seq_: nat, parkedUs: nat) {
    t.pinged < t.ponged < |events| && events[t.ponged] == Pong(seq_, parkedUs)
  }

  /** What the phase says has happened, in order, since the park began. */
  ghost predicate Traced(events: seq<Event>, t: Trace) {
    var f := Run(events);
    match f.phase
    case NotParking | Failed | Expired => true
    case Releasing => BeganAt(events, t, f.beganUs) && (f.collected ==> CollectedAt(events, t))
    case Pausing => BeganAt(events, t, f.beganUs) && CollectedAt(events, t) && DrainedAt(events, t, f.beganUs)
    case Fencing =>
      && BeganAt(events, t, f.beganUs) && CollectedAt(events, t) && DrainedAt(events, t, f.beganUs)
      && PausedAt(events, t) && (f.fencePingSeq != 0 ==> PingedAt(events, t, f.fencePingSeq))
    case Parked =>
      && BeganAt(events, t, f.beganUs) && CollectedAt(events, t) && DrainedAt(events, t, f.beganUs)
      && PausedAt(events, t) && PingedAt(events, t, f.fencePingSeq)
      && PongedAt(events, t, f.fencePingSeq, f.parkedUs) && f.parkedUs <= f.beganUs + CONFIRM_BUDGET_US
  }

  /** A pause is never requested before this park's first pass boundary has collected. */
  lemma {:induction false} FreshPhases(events: seq<Event>)
    ensures var f := Run(events);
            && (f.phase.Releasing? || f.phase.Pausing? ==> f.fencePingSeq == 0)
            && (f.phase.Releasing? && !f.collected ==> f.reReleases == 0)
    decreases |events|
  {
    if events != [] {
      FreshPhases(events[..|events| - 1]);
    }
  }

  /** A stage passed stays passed while the run goes on. */
  lemma StagesStay(before: seq<Event>, e: Event, t: Trace, beganUs: nat, seq_: nat, parkedUs: nat)
    ensures var events := before + [e];
            && (BeganAt(before, t, beganUs) && !e.End? ==> BeganAt(events, t, beganUs))
            && (CollectedAt(before, t) ==> CollectedAt(events, t))
            && (DrainedAt(before, t, beganUs) ==> DrainedAt(events, t, beganUs))
            && (PausedAt(before, t) ==> PausedAt(events, t))
            && (PingedAt(before, t, seq_) ==> PingedAt(events, t, seq_))
            && (PongedAt(before, t, seq_, parkedUs) ==> PongedAt(events, t, seq_, parkedUs))
  {
    var events := before + [e];
    assert forall i | 0 <= i < |before| :: events[i] == before[i] && events[..i] == before[..i];
  }

  lemma StageFacts(before: seq<Event>, e: Event, t: Trace)
    ensures var f := Run(before); var events := before + [e];
            && Run(events) == Step(f, e) && events[..|before|] == before && events[|before|] == e
            && (BeganAt(before, t, f.beganUs) && !e.End? ==> BeganAt(events, t, f.beganUs))
            && (CollectedAt(before, t) ==> CollectedAt(events, t))
            && (DrainedAt(before, t, f.beganUs) ==> DrainedAt(events, t, f.beganUs))
            && (PausedAt(before, t) ==> PausedAt(events, t))
            && (PingedAt(before, t, f.fencePingSeq) ==> PingedAt(events, t, f.fencePingSeq))
            && (PongedAt(before, t, f.fencePingSeq, f.parkedUs) ==> PongedAt(events, t, f.fencePingSeq, f.parkedUs))
            && (f.phase.Releasing? || f.phase.Pausing? ==> f.fencePingSeq == 0)
  {
    var f := Run(before);
    RunSnoc(before, e);
    FreshPhases(before);
    StagesStay(before, e, t, f.beganUs, f.fencePingSeq, f.parkedUs);
    assert (before + [e])[..|before|] == before;
  }

  /** What the trace of a run speaks of; while this stays, so does the trace. */
  predicate SameStages(f: Fence, g: Fence) {
    && f.phase == g.phase && f.beganUs == g.beganUs && f.collected == g.collected
    && f.fencePingSeq == g.fencePingSeq && f.parkedUs == g.parkedUs
  }

  predicate NotUnderWay(f: Fence) {
    f.phase.NotParking? || f.phase.Failed? || f.phase.Expired?
  }

  lemma TrailStays(before: seq<Event>, e: Event, t: Trace)
    requires Traced(before, t) && !e.End? && SameStages(Run(before), Step(Run(before), e))
    ensures Traced(before + [e], t)
  {
    StageFacts(before, e, t);
  }

  lemma TrailOver(before: seq<Event>, e: Event, t: Trace)
    requires NotUnderWay(Step(Run(before), e))
    ensures Traced(before + [e], t)
  {
    RunSnoc(before, e);
  }

  lemma TrailBegin(before: seq<Event>, e: Event, t: Trace)
    requires e.Begin? && MayBegin(Run(before))
    ensures Traced(before + [e], t.(begin := |before|))
  {
    RunSnoc(before, e);
    assert (before + [e])[..|before|] == before;
  }

  lemma TrailCollect(before: seq<Event>, e: Event, t: Trace)
    requires Traced(before, t) && e.Pass? && Passed(Run(before), e.now, e.queueEmpty, e.nothingHeld).1.collect
    ensures Traced(before + [e], t.(collect := |before|))
  {
    StageFacts(before, e, t.(collect := |before|));
  }

  lemma TrailDrain(before: seq<Event>, e: Event, t: Trace)
    requires Traced(before, t) && e.Pass? && Passed(Run(before), e.now, e.queueEmpty, e.nothingHeld).1.pauseNow
    ensures Traced(before + [e], t.(drained := |before|))
  {
    StageFacts(before, e, t.(drained := |before|));
  }

  lemma TrailPause(before: seq<Event>, e: Event, t: Trace)
    requires Traced(before, t) && e == StreamState(false) && Run(before).phase.Pausing?
    ensures Traced(before + [e], t.(paused := |before|))
  {
    StageFacts(before, e, t.(paused := |before|));
  }

  lemma TrailPing(before: seq<Event>, e: Event, t: Trace)
    requires Traced(before, t) && e.Ping? && Run(before).phase.Fencing? && Run(before).fencePingSeq == 0
    ensures Traced(before + [e], t.(pinged := |before|))
  {
    StageFacts(before, e, t.(pinged := |before|));
  }

  lemma TrailPong(before: seq<Event>, e: Event, t: Trace)
    requires Traced(before, t) && e.Pong? && Run(before).phase.Fencing? && Step(Run(before), e).phase.Parked?
    ensures Traced(before + [e], t.(ponged := |before|))
  {
    StageFacts(before, e, t.(ponged := |before|));
  }

  /** Every event leaves the trace as it was, or passes the one stage it stands for, or ends the park. */
  lemma Stages(f: Fence, e: Event)
    ensures var g := Step(f, e);
            || NotUnderWay(g)
            || (SameStages(f, g) && !e.End? && !(e.Begin? && MayBegin(f)))
            || (e.Begin? && MayBegin(f))
            || (e.Pass? && (var step := Passed(f, e.now, e.queueEmpty, e.nothingHeld).1; step.collect || step.pauseNow))
            || (e == StreamState(false) && f.phase.Pausing?)
            || (e.Ping? && f.phase.Fencing? && f.fencePingSeq == 0)
            || (e.Pong? && f.phase.Fencing? && g.phase.Parked?)
  {
  }

  lemma TrailStep(before: seq<Event>, e: Event, t: Trace) returns (u: Trace)
    requires Traced(before, t)
    ensures Traced(before + [e], u)
  {
    var f := Run(before);
    var g := Step(f, e);
    Stages(f, e);
    u := t;
    if NotUnderWay(g) {
      TrailOver(before, e, t);
    } else if e.Begin? && MayBegin(f) {
      u := t.(begin := |before|);
      TrailBegin(before, e, t);
    } else if SameStages(f, g) {
      TrailStays(before, e, t);
    } else if e.Pass? && Passed(f, e.now, e.queueEmpty, e.nothingHeld).1.collect {
      u := t.(collect := |before|);
      TrailCollect(before, e, t);
    } else if e.Pass? {
      u := t.(drained := |before|);
      TrailDrain(before, e, t);
    } else if e.StreamState? {
      u := t.(paused := |before|);
      TrailPause(before, e, t);
    } else if e.Ping? {
      u := t.(pinged := |before|);
      TrailPing(before, e, t);
    } else {
      u := t.(ponged := |before|);
      TrailPong(before, e, t);
    }
  }

  lemma {:induction false} Trail(events: seq<Event>) returns (t: Trace)
    ensures Traced(events, t)
    decreases |events|
  {
    t := Trace(0, 0, 0, 0, 0, 0);
    if events != [] {
      var before := events[..|events| - 1];
      t := Trail(before);
      assert before + [events[|events| - 1]] == events;
      t := TrailStep(before, events[|events| - 1], t);
    }
  }

  /** Every run that is Parked passed, in this order and with nothing ending it: an accepted Begin, the
      collect, a pass boundary with an empty queue and nothing held, the sent pause, a ping sent after
      that pause, and that ping's pong at most 2 s after Begin. */
  lemma ParkedMeansConfirmed(events: seq<Event>) returns (t: Trace)
    requires Run(events).phase.Parked?
    ensures t.begin < t.collect < t.drained < t.paused < t.pinged < t.ponged < |events|
    ensures events[t.begin] == Begin(Run(events).beganUs) && (forall k | t.begin < k < |events| :: !events[k].End?)
    ensures CollectedAt(events, t)
    ensures events[t.drained].Pass? && events[t.drained].queueEmpty && events[t.drained].nothingHeld
    ensures events[t.paused] == StreamState(false)
    ensures events[t.pinged].Ping? && events[t.pinged].seq_ != 0
    ensures events[t.ponged] == Pong(events[t.pinged].seq_, Run(events).parkedUs)
    ensures Run(events).parkedUs <= Run(events).beganUs + CONFIRM_BUDGET_US
  {
    t := Trail(events);
  }

  /** And those six events, on time, do park -- from any run that may begin one. */
  lemma OrderedEventsPark(before: seq<Event>, t0: nat, t1: nat, t2: nat, t3: nat, ping: nat)
    requires MayBegin(Run(before)) && ping != 0
    requires t1 <= t0 + CONFIRM_BUDGET_US && t2 <= t0 + CONFIRM_BUDGET_US && t3 <= t0 + CONFIRM_BUDGET_US
    ensures Run(before + [Begin(t0)] + [Pass(t1, false, false)] + [Pass(t2, true, true)] + [StreamState(false)]
                + [Ping(ping)] + [Pong(ping, t3)]).phase == Parked
  {
    var e1 := before + [Begin(t0)];
    RunSnoc(before, Begin(t0));
    RunSnoc(e1, Pass(t1, false, false));
    var e2 := e1 + [Pass(t1, false, false)];
    RunSnoc(e2, Pass(t2, true, true));
    var e3 := e2 + [Pass(t2, true, true)];
    RunSnoc(e3, StreamState(false));
    var e4 := e3 + [StreamState(false)];
    RunSnoc(e4, Ping(ping));
    RunSnoc(e4 + [Ping(ping)], Pong(ping, t3));
  }

  // ------------------------------------------------------------------ what is held down

  datatype PhysicalKey = PhysicalKey(down: bool, vk: nat, scanCode: nat, flags: nat)

  /** Kinds 2/3: mouse down/up, 5/6: key down/up; the other kinds hold nothing. */
  datatype Action = Input(kind: nat, keyCode: nat, x: int, y: int) | Physical(key: PhysicalKey) | Other

  datatype Held = Held(keys: set<nat>, buttons: set<nat>, physical: map<nat, PhysicalKey>, lastX: int, lastY: int)

  predicate IsButton(vk: nat) {
    vk == 1 || vk == 2 || vk == 4 || vk == 5 || vk == 6
  }

  function PhysicalId(k: PhysicalKey): nat {
    if k.scanCode != 0 then 0x10000 + k.scanCode * 2 + k.flags % 2 else k.vk
  }

  /** A pulse with no up to owe (flag bit 2). */
  predicate MakeOnly(k: PhysicalKey) {
    k.flags / 4 % 2 == 1
  }

  function Sent(h: Held, a: Action): Held {
    match a
    case Other => h
    case Input(kind, code, x, y) =>
      Held(if kind == 5 && code <= 255 then h.keys + {code} else if kind == 6 then h.keys - {code} else h.keys,
           if kind == 2 && IsButton(code) then h.buttons + {code}
           else if kind == 3 then h.buttons - {code} else h.buttons,
           h.physical, x, y)
    case Physical(k) =>
      if MakeOnly(k) then h
      else if k.down then h.(physical := h.physical[PhysicalId(k) := k])
      else h.(physical := h.physical - {PhysicalId(k)})
  }

  function SentAll(h: Held, actions: seq<Action>): Held
    decreases |actions|
  {
    if actions == [] then h else SentAll(Sent(h, actions[0]), actions[1..])
  }

  predicate NothingHeld(h: Held) {
    h.keys == {} && h.buttons == {} && h.physical == map[]
  }

  const NOTHING := Held({}, {}, map[], 0, 0)

  /** Every physical key is filed under its own id and owes an up. */
  predicate Owing(h: Held) {
    forall id | id in h.physical :: PhysicalId(h.physical[id]) == id && !MakeOnly(h.physical[id])
  }

  function Up(k: PhysicalKey): PhysicalKey {
    PhysicalKey(false, k.vk, k.scanCode, k.flags % 2)
  }

  predicate IsUp(a: Action) {
    match a
    case Input(kind, _, _, _) => kind == 3 || kind == 6
    case Physical(k) => !k.down && !MakeOnly(k)
    case Other => false
  }

  /** `out` is the up of everything held and nothing else, each once. */
  ghost predicate ReleasesOf(h: Held, out: seq<Action>) {
    && |out| == |h.buttons| + |h.keys| + |h.physical|
    && (forall b | b in h.buttons :: Input(3, b, h.lastX, h.lastY) in out)
    && (forall k | k in h.keys :: Input(6, k, 0, 0) in out)
    && (forall id | id in h.physical :: Physical(Up(h.physical[id])) in out)
    && (forall a | a in out :: IsUp(a))
  }

  /** Holding runs: whatever is sent, what is held stays filed under its own id. */
  lemma {:induction false} SendingKeepsOwing(h: Held, actions: seq<Action>)
    requires Owing(h)
    ensures Owing(SentAll(h, actions))
    decreases |actions|
  {
    if actions != [] {
      SendingKeepsOwing(Sent(h, actions[0]), actions[1..]);
    }
  }

  /** Sending ups only lets go, and lets go of exactly what they name. */
  lemma {:induction false} UpsOnlyFree(h: Held, out: seq<Action>)
    requires forall a | a in out :: IsUp(a)
    ensures var r := SentAll(h, out);
            && r.keys <= h.keys && r.buttons <= h.buttons && r.physical.Keys <= h.physical.Keys
            && (forall i | 0 <= i < |out| :: match out[i]
                  case Input(kind, code, _, _) => (kind == 3 ==> code !in r.buttons) && (kind == 6 ==> code !in r.keys)
                  case Physical(k) => PhysicalId(k) !in r.physical
                  case Other => true)
    decreases |out|
  {
    if out != [] {
      assert out[0] in out;
      UpsOnlyFree(Sent(h, out[0]), out[1..]);
      assert forall i | 1 <= i < |out| :: out[i] == out[1..][i - 1];
    }
  }

  lemma ReleasesName(h: Held, out: seq<Action>, r: Held)
    requires ReleasesOf(h, out) && Owing(h)
    requires forall i | 0 <= i < |out| :: match out[i]
               case Input(kind, code, _, _) => (kind == 3 ==> code !in r.buttons) && (kind == 6 ==> code !in r.keys)
               case Physical(k) => PhysicalId(k) !in r.physical
               case Other => true
    ensures h.keys !! r.keys && h.buttons !! r.buttons && h.physical.Keys !! r.physical.Keys
  {
    forall k | k in h.keys ensures k !in r.keys {
      var i :| 0 <= i < |out| && out[i] == Input(6, k, 0, 0);
    }
    forall b | b in h.buttons ensures b !in r.buttons {
      var i :| 0 <= i < |out| && out[i] == Input(3, b, h.lastX, h.lastY);
    }
    forall id | id in h.physical ensures id !in r.physical {
      var i :| 0 <= i < |out| && out[i] == Physical(Up(h.physical[id]));
      assert PhysicalId(Up(h.physical[id])) == id;
    }
  }

  /** Whatever was sent before, in whatever order the releases go out: sending them all leaves nothing held. */
  lemma SendingReleasesFreesAll(actions: seq<Action>, out: seq<Action>)
    requires ReleasesOf(SentAll(NOTHING, actions), out)
    ensures NothingHeld(SentAll(SentAll(NOTHING, actions), out))
  {
    var h := SentAll(NOTHING, actions);
    SendingKeepsOwing(NOTHING, actions);
    UpsOnlyFree(h, out);
    var r := SentAll(h, out);
    ReleasesName(h, out, r);
    assert r.physical.Keys == {} && r.keys == {} && r.buttons == {};
  }

  // ------------------------------------------------------------------ the objects

  class ClientHeldInput {
    var keys: set<nat>
    var buttons: set<nat>
    var physical: map<nat, PhysicalKey>
    var lastX: int
    var lastY: int

    ghost function Value(): Held
      reads this
    {
      Held(keys, buttons, physical, lastX, lastY)
    }

    constructor ()
      ensures Value() == NOTHING
    {
      keys, buttons, physical, lastX, lastY := {}, {}, map[], 0, 0;
    }

    method OnSent(a: Action)
      modifies this
      ensures Value() == Sent(old(Value()), a)
    {
      match a
      case Other =>
      case Input(kind, code, x, y) =>
        lastX, lastY := x, y;
        if kind == 5 && code <= 255 {
          keys := keys + {code};
        }
        if kind == 6 {
          keys := keys - {code};
        }
        if kind == 2 && IsButton(code) {
          buttons := buttons + {code};
        }
        if kind == 3 {
          buttons := buttons - {code};
        }
      case Physical(k) =>
        if !MakeOnly(k) {
          if k.down {
            physical := physical[PhysicalId(k) := k];
          } else {
            physical := physical - {PhysicalId(k)};
          }
        }
    }

    method Releases() returns (out: seq<Action>)
      ensures ReleasesOf(Value(), out)
    {
      out := [];
      var rest := buttons;
      while rest != {}
        invariant rest <= buttons && |out| + |rest| == |buttons|
        invariant forall b | b in buttons - rest :: Input(3, b, lastX, lastY) in out
        invariant forall a | a in out :: IsUp(a)
      {
        var b :| b in rest;
        rest := rest - {b};
        out := out + [Input(3, b, lastX, lastY)];
      }
      rest := keys;
      while rest != {}
        invariant rest <= keys && |out| + |rest| == |buttons| + |keys|
        invariant forall b | b in buttons :: Input(3, b, lastX, lastY) in out
        invariant forall k | k in keys - rest :: Input(6, k, 0, 0) in out
        invariant forall a | a in out :: IsUp(a)
      {
        var k :| k in rest;
        rest := rest - {k};
        out := out + [Input(6, k, 0, 0)];
      }
      rest := physical.Keys;
      while rest != {}
        invariant rest <= physical.Keys && |out| + |rest| == |buttons| + |keys| + |physical|
        invariant forall b | b in buttons :: Input(3, b, lastX, lastY) in out
        invariant forall k | k in keys :: Input(6, k, 0, 0) in out
        invariant forall id | id in physical.Keys - rest :: Physical(Up(physical[id])) in out
        invariant forall a | a in out :: IsUp(a)
      {
        var id :| id in rest;
        rest := rest - {id};
        out := out + [Physical(Up(physical[id]))];
      }
    }
  }

  class ClientParkFence {
    var phase: Phase
    var beganUs: nat
    var parkedUs: nat
    var fencePingSeq: nat
    var wantPing: bool
    var collected: bool
    var reReleases: nat

    ghost function Value(): Fence
      reads this
    {
      Fence(phase, beganUs, parkedUs, fencePingSeq, wantPing, collected, reReleases)
    }

    constructor ()
      ensures Value() == IDLE
    {
      phase, beganUs, parkedUs, fencePingSeq := NotParking, 0, 0, 0;
      wantPing, collected, reReleases := false, false, 0;
    }

    method Begin(now: nat) returns (started: bool)
      modifies this
      ensures Value() == Begun(old(Value()), now) && started == MayBegin(old(Value()))
    {
      if !phase.NotParking? && !phase.Failed? && !phase.Expired? {
        return false;
      }
      phase, beganUs, parkedUs, fencePingSeq := Releasing, now, 0, 0;
      wantPing, collected, reReleases := false, false, 0;
      return true;
    }

    method Tick(now: nat)
      modifies this`phase
      ensures Value() == Ticked(old(Value()), now)
    {
      var confirming := phase.Releasing? || phase.Pausing? || phase.Fencing?;
      if confirming && now > beganUs + CONFIRM_BUDGET_US {
        phase := Failed;
      }
      if phase.Parked? && now > beganUs + PARKED_LIMIT_US {
        phase := Expired;
      }
    }

    method TakePingWanted() returns (wanted: bool)
      modifies this`wantPing
      ensures Value() == old(Value()).(wantPing := false) && wanted == old(wantPing)
    {
      wanted := wantPing;
      wantPing := false;
    }

    method OnPassBoundary(now: nat, queueEmpty: bool, nothingHeld: bool) returns (st: PassStep)
      modifies this
      ensures (Value(), st) == Passed(old(Value()), now, queueEmpty, nothingHeld)
    {
      st := PassStep(false, false, false, false, NotParking);
      Tick(now);
      if phase.Releasing? {
        if !collected {
          collected := true;
          st := st.(collect := true);
        } else if queueEmpty && nothingHeld {
          phase := Pausing;
          st := st.(pauseNow := true);
        } else if queueEmpty {
          if reReleases < 1 {
            reReleases := reReleases + 1;
            st := st.(reRelease := true);
          } else {
            phase := Failed;
          }
        }
      }
      var pingNow := TakePingWanted();
      st := st.(pingNow := pingNow, phase := phase);
    }

    method OnStreamStateSent(active: bool)
      modifies this`phase, this`wantPing
      ensures Value() == StreamStateSent(old(Value()), active)
    {
      if !phase.Pausing? || active {
        return;
      }
      phase := Fencing;
      wantPing := true;
    }

    method OnPingSent(seq_: nat)
      modifies this`fencePingSeq
      ensures Value() == PingSent(old(Value()), seq_)
    {
      if phase.Fencing? && fencePingSeq == 0 {
        fencePingSeq := seq_;
      }
    }

    method OnPong(seq_: nat, now: nat)
      modifies this`phase, this`parkedUs
      ensures Value() == Ponged(old(Value()), seq_, now)
    {
      if phase.Fencing? && fencePingSeq != 0 && seq_ == fencePingSeq {
        if now > beganUs + CONFIRM_BUDGET_US {
          phase := Failed;
          return;
        }
        phase := Parked;
        parkedUs := now;
      }
    }

    method End()
      modifies this`phase, this`fencePingSeq, this`wantPing
      ensures Value() == Ended(old(Value()))
    {
      phase, fencePingSeq, wantPing := NotParking, 0, false;
    }
  }
}
