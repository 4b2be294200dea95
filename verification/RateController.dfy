/** The bulk channel's rate controller (bulk_rate_controller.hpp): AIMD with recovery rounds, pause and
    probe, plateau holds and a rolling loss horizon.

    One evaluation is split as the source's comments split it: what the window says about the path, what
    the last raise brought, which of six decisions follows, and what that decision does to the pace. */
module RateController {
  import opened Common
  import LossHorizon

  datatype Config = Config(
    startBps: nat, capBps: nat, floorBps: nat, probeBps: nat,
    slowStartNumerator: nat, slowStartDenominator: nat, caPercentPerSec: nat,
    rttRiseAbsUs: nat, weakRisePercent: nat, weakRiseAbsUs: nat, pullRaiseAbsUs: nat, rttUpSlackUs: nat,
    lossHighPerMille: nat, lossHorizonFragments: nat, lossMinSamples: nat, lossHorizonMaxUs: nat,
    headroomPercent: nat, plateauRetryUs: nat, pauseAfterDecreases: nat, pauseUs: nat, probeUs: nat)

  /** One evaluation's evidence; a zero round trip means "not measured". */
  datatype Window = Window(
    lossEvents: nat, pullRttP50Us: nat, pullSrttUs: nat, pullCurrentUs: nat, pingRttUs: nat,
    uniqueFragmentsSent: nat, uniqueFragmentsLost: nat, rtoEvents: nat, rttSamples: nat,
    goodputBps: nat, workPending: bool, yielded: bool)

  datatype Action = Hold | Raise | Lower | Pause | Probe

  /** The rate, and the clocks and rounds that govern when it may move. */
  datatype Pace = Pace(
    rate: nat, slowStart: bool, caBaseBps: nat, haveDecreased: bool, recoveryEndRound: nat,
    decreaseCount: nat, pauseUntilUs: nat, probeUntilUs: nat, lastRaiseClockUs: nat)

  /** What has been learnt about the path. */
  datatype Path = Path(
    horizon: seq<LossHorizon.Entry>, lossState: LossHorizon.LossState, basePullRttUs: nat, basePingRttUs: nat)

  /** Whether the last raise paid. */
  datatype Gain = Gain(
    justRaised: bool, settleWindows: nat, preRaiseGoodputBps: nat,
    plateau: bool, plateauGoodputBps: nat, plateauSinceUs: nat, goodputEwma: nat)

  datatype State = State(c: Config, pace: Pace, path: Path, gain: Gain)

  function Initial(c: Config): State {
    State(c, Pace(c.startBps, true, 0, false, 0, 0, 0, 0, 0),
          Path([], LossHorizon.Unknown, 0, 0), Gain(false, 0, 0, false, 0, 0, 0))
  }

  /** The rate the token bucket is fed. */
  function RateBps(s: State, now: nat): (r: nat)
    ensures r <= s.c.capBps
  {
    var r := if now < s.pace.pauseUntilUs then 0
             else if now < s.pace.probeUntilUs then s.c.probeBps
             else s.pace.rate;
    Min(r, s.c.capBps)
  }

  function SetCap(s: State, cap: nat): State {
    State(s.c.(capBps := cap),
          s.pace.(rate := if s.pace.rate > cap then Max(cap, s.c.floorBps) else s.pace.rate), s.path, s.gain)
  }

  // ------------------------------------------------------------------ the path

  function Recorded(w: Window, now: nat): seq<LossHorizon.Entry> {
    if w.uniqueFragmentsSent > 0 || w.uniqueFragmentsLost > 0
    then [LossHorizon.Entry(now, w.uniqueFragmentsSent, w.uniqueFragmentsLost)] else []
  }

  function Observed(p: Path, c: Config, w: Window, now: nat): Path {
    var h := LossHorizon.Horizon(p.horizon + Recorded(w, now), now, c.lossHorizonMaxUs, c.lossHorizonFragments);
    p.(horizon := h, lossState := LossHorizon.Verdict(h, c.lossMinSamples, c.lossHighPerMille))
  }

  function Baseline(base: nat, measured: nat): nat {
    if measured > 0 && (base == 0 || measured < base) then measured else base
  }

  function Baselined(p: Path, w: Window): Path {
    p.(basePullRttUs := Baseline(p.basePullRttUs, w.pullRttP50Us),
       basePingRttUs := Baseline(p.basePingRttUs, w.pingRttUs))
  }

  predicate Over(v: nat, base: nat, bound: nat) {
    v > 0 && base > 0 && v > bound
  }

  predicate Risen(c: Config, v: nat, base: nat) {
    Over(v, base, Max(base * 2, base + c.rttRiseAbsUs))
  }

  predicate WeakRisen(c: Config, v: nat, base: nat) {
    Over(v, base, Max(base * c.weakRisePercent / 100, base + c.weakRiseAbsUs))
  }

  function PullDelay(w: Window): nat {
    if w.pullCurrentUs > 0 then w.pullCurrentUs else if w.pullSrttUs > 0 then w.pullSrttUs else w.pullRttP50Us
  }

  predicate Loss(w: Window) {
    w.lossEvents > 0 || w.uniqueFragmentsLost > 0
  }

  predicate Congested(p: Path, c: Config, w: Window) {
    || Risen(c, PullDelay(w), p.basePullRttUs) || Risen(c, w.pingRttUs, p.basePingRttUs)
    || w.rtoEvents > 0
    || (Loss(w) && (WeakRisen(c, PullDelay(w), p.basePullRttUs) || WeakRisen(c, w.pingRttUs, p.basePingRttUs)))
    || (Loss(w) && p.lossState.High?)
  }

  /** The round trips of this window are within the bounds a raise needs. */
  predicate OnTime(p: Path, c: Config, w: Window) {
    && w.rttSamples != 0 && w.pullRttP50Us != 0
    && (p.basePullRttUs == 0 || w.pullRttP50Us <= Max(p.basePullRttUs * 3 / 2, p.basePullRttUs + c.pullRaiseAbsUs))
    && (w.pingRttUs == 0 || p.basePingRttUs == 0 || w.pingRttUs <= p.basePingRttUs + c.rttUpSlackUs)
  }

  // ------------------------------------------------------------------ the last raise

  function Smoothed(g: Gain, w: Window): Gain {
    if w.goodputBps == 0 then g
    else g.(goodputEwma := if g.goodputEwma > 0 then (g.goodputEwma * 3 + w.goodputBps) / 4 else w.goodputBps)
  }

  predicate Settling(g: Gain) {
    g.justRaised && g.settleWindows > 0
  }

  function Judged(g: Gain, w: Window, now: nat): Gain {
    if g.justRaised && w.goodputBps > 0 then
      var judged := g.(justRaised := false);
      if g.goodputEwma <= g.preRaiseGoodputBps
      then judged.(plateau := true, plateauGoodputBps := g.goodputEwma, plateauSinceUs := now)
      else judged
    else g
  }

  predicate LeavesPlateau(g: Gain, c: Config, now: nat) {
    || g.goodputEwma * 100 > g.plateauGoodputBps * (100 + c.headroomPercent)
    || Elapsed(now, g.plateauSinceUs) >= c.plateauRetryUs
  }

  function Weighed(g: Gain, c: Config, w: Window, now: nat): Gain {
    var smoothed := Smoothed(g, w);
    if Settling(smoothed) then smoothed.(settleWindows := smoothed.settleWindows - 1)
    else
      var judged := Judged(smoothed, w, now);
      judged.(plateau := judged.plateau && !LeavesPlateau(judged, c, now))
  }

  // ------------------------------------------------------------------ the decision

  /** Paused: before the pause ends. Trailing: the signals of an event already answered. Halve: a new
      event. Probing: between pause and full rate. Steady: nothing to answer, nothing to gain. Grow. */
  datatype Decision = Paused | Trailing | Halve | Probing | Steady | Grow

  predicate InRecovery(p: Pace, rounds: nat) {
    p.haveDecreased && rounds != 0 && rounds <= p.recoveryEndRound
  }

  predicate MayGrow(p: Pace, c: Config, path: Path, gain: Gain, w: Window, inRecovery: bool) {
    && !gain.plateau && !inRecovery && !w.yielded && w.workPending
    && OnTime(path, c, w) && p.rate < c.capBps
  }

  function DecideUncongested(s: State, w: Window, now: nat, inRecovery: bool): Decision {
    if now < s.pace.probeUntilUs then Probing
    else if Loss(w) || Settling(Smoothed(s.gain, w)) then Steady
    else if MayGrow(s.pace, s.c, s.path, Weighed(s.gain, s.c, w, now), w, inRecovery) then Grow
    else Steady
  }

  /** Outside a pause, with the baselines already lowered. */
  function DecideAwake(s: State, w: Window, now: nat, rounds: nat): Decision {
    var inRecovery := InRecovery(s.pace, rounds);
    if Congested(s.path, s.c, w) then (if inRecovery then Trailing else Halve)
    else DecideUncongested(s, w, now, inRecovery)
  }

  function Decide(s: State, w: Window, now: nat, rounds: nat): Decision {
    if now < s.pace.pauseUntilUs then Paused
    else DecideAwake(s.(path := Baselined(Observed(s.path, s.c, w, now), w)), w, now, rounds)
  }

  // ------------------------------------------------------------------ what the decision does

  function Halved(p: Pace, c: Config, now: nat, rounds: nat): Pace {
    var rate := Max(c.floorBps, p.rate / 2);
    var pauses := p.decreaseCount + 1 >= c.pauseAfterDecreases;
    p.(rate := rate, slowStart := false, caBaseBps := rate, haveDecreased := true, recoveryEndRound := rounds + 1,
       lastRaiseClockUs := now, decreaseCount := if pauses then 0 else p.decreaseCount + 1,
       pauseUntilUs := if pauses then now + c.pauseUs else p.pauseUntilUs,
       probeUntilUs := if pauses then now + c.pauseUs + c.probeUs else p.probeUntilUs)
  }

  function Increment(base: nat, percent: nat, sinceUs: nat): nat {
    Max(base * percent * Min(sinceUs, 1000000) / 100 / 1000000, 1)
  }

  function Grown(p: Pace, c: Config, now: nat): Pace
    requires c.slowStartDenominator > 0
  {
    var next := if p.slowStart then p.rate * c.slowStartNumerator / c.slowStartDenominator
                else p.rate + Increment(p.caBaseBps, c.caPercentPerSec, Elapsed(now, p.lastRaiseClockUs));
    var rate := Min(c.capBps, next);
    var reached := p.slowStart && rate >= c.capBps;
    p.(rate := rate, slowStart := p.slowStart && !reached,
       caBaseBps := if reached then rate else p.caBaseBps, lastRaiseClockUs := now)
  }

  function Clocked(p: Pace, now: nat): Pace {
    if p.lastRaiseClockUs == 0 then p.(lastRaiseClockUs := now) else p
  }

  function Paced(p: Pace, c: Config, d: Decision, now: nat, rounds: nat): Pace
    requires c.slowStartDenominator > 0
  {
    var clocked := Clocked(p, now);
    var calm := if InRecovery(p, rounds) then clocked else clocked.(decreaseCount := 0);
    match d
    case Paused | Trailing => clocked
    case Halve => Halved(clocked, c, now, rounds)
    case Probing | Steady => calm
    case Grow => Grown(calm, c, now)
  }

  function Gained(g: Gain, c: Config, d: Decision, w: Window, now: nat): Gain {
    match d
    case Paused | Trailing | Probing => g
    case Halve => g.(plateau := false, justRaised := false)
    case Steady => if Loss(w) then g else Weighed(g, c, w, now)
    case Grow =>
      var weighed := Weighed(g, c, w, now);
      weighed.(justRaised := true, settleWindows := 1, preRaiseGoodputBps := weighed.goodputEwma)
  }

  function ActionOf(p: Pace, c: Config, d: Decision): Action {
    match d
    case Paused => Pause
    case Halve => if p.decreaseCount + 1 >= c.pauseAfterDecreases then Pause else Lower
    case Probing => Probe
    case Grow => Raise
    case Trailing | Steady => Hold
  }

  function Evaluated(s: State, w: Window, now: nat, rounds: nat): State
    requires s.c.slowStartDenominator > 0
  {
    var d := Decide(s, w, now, rounds);
    var path := Observed(s.path, s.c, w, now);
    State(s.c, Paced(s.pace, s.c, d, now, rounds), if d.Paused? then path else Baselined(path, w),
          Gained(s.gain, s.c, d, w, now))
  }

  // ------------------------------------------------------------------ runs

  datatype Call = Evaluation(w: Window, now: nat, rounds: nat) | CapChange(capBps: nat)

  function Step(s: State, call: Call): (r: State)
    requires s.c.slowStartDenominator > 0
    ensures r.c == s.c.(capBps := r.c.capBps)
  {
    match call
    case Evaluation(w, now, rounds) => Evaluated(s, w, now, rounds)
    case CapChange(cap) => SetCap(s, cap)
  }

  function Run(s: State, calls: seq<Call>): (r: State)
    requires s.c.slowStartDenominator > 0
    ensures r.c == s.c.(capBps := r.c.capBps)
    decreases |calls|
  {
    if calls == [] then s else Run(Step(s, calls[0]), calls[1..])
  }

  predicate Halves(s: State, call: Call) {
    call.Evaluation? && Decide(s, call.w, call.now, call.rounds).Halve?
  }

  predicate Grows(s: State, call: Call) {
    call.Evaluation? && Decide(s, call.w, call.now, call.rounds).Grow?
  }

  // ------------------------------------------------------------------ arithmetic

  lemma MulMonotone(a: nat, b: nat, c: nat)
    requires b <= c
    ensures a * b <= a * c
  {
    assert a * c - a * b == a * (c - b);
  }

  lemma ScaleUp(rate: nat, num: nat, den: nat)
    requires 0 < den <= num
    ensures rate * num / den >= rate
  {
    MulMonotone(rate, den, num);
    var q := rate * num / den;
    assert rate * num == q * den + rate * num % den;
    if q < rate {
      MulMonotone(den, q + 1, rate);
      assert false;
    }
  }

  /** One linear raise never outruns its share of the elapsed time. */
  lemma IncrementIsLinear(base: nat, percent: nat, sinceUs: nat)
    ensures Increment(base, percent, sinceUs) * 100000000 <= base * percent * sinceUs + 100000000
  {
    var product := base * percent * Min(sinceUs, 1000000);
    assert product <= base * percent * sinceUs by { MulMonotone(base * percent, Min(sinceUs, 1000000), sinceUs); }
    assert product / 100 / 1000000 * 100000000 <= product;
  }

  // ------------------------------------------------------------------ bounds over every run

  ghost predicate Bounded(s: State) {
    s.c.floorBps <= s.pace.rate <= Max(s.c.capBps, s.c.floorBps)
  }

  /** What a configured slow-start factor must be for a raise not to shrink the rate. */
  predicate Expands(c: Config) {
    c.floorBps == 0 || c.slowStartDenominator <= c.slowStartNumerator
  }

  lemma PacedKeepsBounds(p: Pace, c: Config, d: Decision, now: nat, rounds: nat)
    requires 0 < c.slowStartDenominator
    requires p.rate <= Max(c.capBps, c.floorBps) && (d.Grow? ==> p.rate < c.capBps)
    ensures var r := Paced(p, c, d, now, rounds);
            && r.rate <= Max(c.capBps, c.floorBps) && (r.slowStart ==> p.slowStart)
            && (Expands(c) && c.floorBps <= p.rate ==> c.floorBps <= r.rate)
  {
    if c.slowStartDenominator <= c.slowStartNumerator {
      ScaleUp(p.rate, c.slowStartNumerator, c.slowStartDenominator);
    }
  }

  lemma StepKeepsBounds(s: State, call: Call)
    requires 0 < s.c.slowStartDenominator && s.pace.rate <= Max(s.c.capBps, s.c.floorBps)
    ensures var r := Step(s, call);
            && r.pace.rate <= Max(r.c.capBps, r.c.floorBps) && (r.pace.slowStart ==> s.pace.slowStart)
            && (Expands(s.c) && s.c.floorBps <= s.pace.rate ==> s.c.floorBps <= r.pace.rate)
  {
    if call.Evaluation? {
      PacedKeepsBounds(s.pace, s.c, Decide(s, call.w, call.now, call.rounds), call.now, call.rounds);
    }
  }

  /** Whatever the configuration, the evaluations and the cap changes: the rate stays within the larger of
      cap and floor, what is fed to the bucket never exceeds the cap now in force, and a slow start that
      ended never resumes; with an expanding factor the rate never falls below the floor either. */
  lemma {:induction false} RunKeepsBounds(s: State, calls: seq<Call>, now: nat)
    requires 0 < s.c.slowStartDenominator && s.pace.rate <= Max(s.c.capBps, s.c.floorBps)
    ensures var r := Run(s, calls);
            && r.pace.rate <= Max(r.c.capBps, s.c.floorBps)
            && RateBps(r, now) <= r.c.capBps
            && (r.pace.slowStart ==> s.pace.slowStart)
            && (Expands(s.c) && s.c.floorBps <= s.pace.rate ==> s.c.floorBps <= r.pace.rate)
    decreases |calls|
  {
    if calls != [] {
      StepKeepsBounds(s, calls[0]);
      RunKeepsBounds(Step(s, calls[0]), calls[1..], now);
    }
  }

  lemma ScaleDown(rate: nat, num: nat, den: nat)
    requires num < den && 0 < rate
    ensures rate * num / den < rate
  {
    var q := rate * num / den;
    assert rate * num == q * den + rate * num % den;
    assert rate * den - rate * num == rate * (den - num) > 0;
    if rate <= q {
      MulMonotone(den, rate, q);
      assert false;
    }
  }

  /** A slow-start raise keeps every rate at or above the floor exactly when the factor is at least one. */
  lemma SlowStartKeepsFloorIff(floor: nat, cap: nat, num: nat, den: nat)
    requires 0 < den && 0 < floor < cap
    ensures (forall rate | floor <= rate < cap :: Min(cap, rate * num / den) >= floor) <==> den <= num
  {
    if den <= num {
      forall rate | floor <= rate < cap ensures Min(cap, rate * num / den) >= floor {
        ScaleUp(rate, num, den);
      }
    } else {
      ScaleDown(floor, num, den);
      assert Min(cap, floor * num / den) < floor;
    }
  }

  /** A calm window with one on-time round trip, at a rate one below the cap: what a raise asks for. */
  const CALM := Window(0, 1, 0, 0, 0, 0, 0, 0, 1, 0, true, false)

  /** Cut to nothing and back to one above the floor, then one calm evaluation. */
  function Squeeze(floor: nat): seq<Call> {
    [CapChange(0), CapChange(floor + 1), Evaluation(CALM, 1, 0)]
  }

  lemma SqueezedRate(c: Config)
    requires 0 < c.slowStartDenominator && 0 < c.floorBps <= c.startBps
    ensures Run(Initial(c), Squeeze(c.floorBps)).pace.rate
         == Min(c.floorBps + 1, c.floorBps * c.slowStartNumerator / c.slowStartDenominator)
  {
    var s0 := Initial(c);
    var s1 := Step(s0, CapChange(0));
    var s2 := Step(s1, CapChange(c.floorBps + 1));
    assert s1.pace == s0.pace.(rate := c.floorBps) == s2.pace && s2.gain == s0.gain;
    SqueezedDecision(s2);
    var calls := Squeeze(c.floorBps);
    assert calls[1..] == [CapChange(c.floorBps + 1), Evaluation(CALM, 1, 0)];
    assert calls[1..][1..] == [Evaluation(CALM, 1, 0)];
    assert calls[1..][1..][1..] == [];
    assert Run(s0, calls) == Run(s2, calls[1..][1..]) == Step(s2, Evaluation(CALM, 1, 0));
  }

  lemma SqueezedDecision(s: State)
    requires s.pace.pauseUntilUs == 0 == s.pace.probeUntilUs && !s.pace.haveDecreased && s.pace.rate < s.c.capBps
    requires s.gain == Initial(s.c).gain && s.path.basePullRttUs == 0 == s.path.basePingRttUs
    ensures Decide(s, CALM, 1, 0).Grow?
  {
    var path := Baselined(Observed(s.path, s.c, CALM, 1), CALM);
    assert path.basePullRttUs == 1 && path.basePingRttUs == 0;
    assert !Congested(path, s.c, CALM) && OnTime(path, s.c, CALM);
    assert Weighed(s.gain, s.c, CALM, 1) == s.gain;
  }

  /** Every state of every run is bounded. */
  ghost predicate AlwaysBounded(c: Config)
    requires 0 < c.slowStartDenominator
  {
    forall calls: seq<Call> :: Bounded(Run(Initial(c), calls))
  }

  lemma OneRunBreaks(c: Config, calls: seq<Call>)
    requires 0 < c.slowStartDenominator && !Bounded(Run(Initial(c), calls))
    ensures !AlwaysBounded(c)
  {
  }

  /** The bounds of the whole controller, decided by its configuration alone: every state of every run keeps
      floor <= rate <= max(cap, floor) if and only if the start rate does and the slow-start factor is at
      least one (or there is no floor). A factor of 1/2, which the environment may set, breaks them. */
  lemma BoundsHoldIff(c: Config)
    requires 0 < c.slowStartDenominator
    ensures AlwaysBounded(c) <==> Bounded(Initial(c)) && Expands(c)
  {
    if !Bounded(Initial(c)) {
      OneRunBreaks(c, []);
    } else if Expands(c) {
      forall calls: seq<Call> ensures Bounded(Run(Initial(c), calls)) {
        RunKeepsBounds(Initial(c), calls, 0);
      }
    } else {
      SqueezedRate(c);
      SlowStartKeepsFloorIff(c.floorBps, c.floorBps + 1, c.slowStartNumerator, c.slowStartDenominator);
      OneRunBreaks(c, Squeeze(c.floorBps));
    }
  }

  // ------------------------------------------------------------------ one halving per event

  predicate AnswersCongestion(s: State, w: Window, now: nat, rounds: nat) {
    && Congested(Baselined(Observed(s.path, s.c, w, now), w), s.c, w)
    && !InRecovery(s.pace, rounds) && now >= s.pace.pauseUntilUs
  }

  /** Nothing congested, lost or unsettled, and work to do with room for it. */
  predicate Calm(s: State, w: Window, now: nat, rounds: nat) {
    var path := Baselined(Observed(s.path, s.c, w, now), w);
    && !Congested(path, s.c, w) && !Loss(w) && !InRecovery(s.pace, rounds) && OnTime(path, s.c, w)
    && w.workPending && !w.yielded && now >= s.pace.probeUntilUs && now >= s.pace.pauseUntilUs
    && !Settling(s.gain) && s.pace.rate < s.c.capBps
  }

  /** Whatever the configuration and the state: the rate moves in an evaluation only by halving for
      congestion outside recovery and pause, or on a calm window. It falls on a calm window only in slow
      start with a factor below one, and rises on congestion only from below the floor. */
  lemma RateMovesOnlyAsDecided(s: State, w: Window, now: nat, rounds: nat)
    requires 0 < s.c.slowStartDenominator
    ensures var r := Evaluated(s, w, now, rounds).pace.rate;
            && (r < s.pace.rate ==>
                  || (AnswersCongestion(s, w, now, rounds) && r == Max(s.c.floorBps, s.pace.rate / 2))
                  || (Calm(s, w, now, rounds) && s.pace.slowStart && s.c.slowStartNumerator < s.c.slowStartDenominator))
            && (r > s.pace.rate ==>
                  || Calm(s, w, now, rounds)
                  || (AnswersCongestion(s, w, now, rounds) && s.pace.rate < r == s.c.floorBps))
  {
    var d := Decide(s, w, now, rounds);
    if d.Grow? && s.c.slowStartDenominator <= s.c.slowStartNumerator {
      ScaleUp(s.pace.rate, s.c.slowStartNumerator, s.c.slowStartDenominator);
    }
  }

  /** Evaluations carry non-zero, non-decreasing round counts from `rounds` on. */
  ghost predicate RoundsForward(calls: seq<Call>, rounds: nat) {
    && (forall i | 0 <= i < |calls| && calls[i].Evaluation? :: calls[i].rounds != 0 && rounds <= calls[i].rounds)
    && (forall i, j | 0 <= i < j < |calls| && calls[i].Evaluation? && calls[j].Evaluation? ::
          calls[i].rounds <= calls[j].rounds)
  }

  ghost predicate NoHalving(s: State, calls: seq<Call>)
    requires s.c.slowStartDenominator > 0
    decreases |calls|
  {
    calls == [] || (!Halves(s, calls[0]) && NoHalving(Step(s, calls[0]), calls[1..]))
  }

  lemma {:induction false} RecoveryStands(s: State, calls: seq<Call>)
    requires s.c.slowStartDenominator > 0 && NoHalving(s, calls)
    ensures var r := Run(s, calls);
            r.pace.haveDecreased == s.pace.haveDecreased && r.pace.recoveryEndRound == s.pace.recoveryEndRound
    decreases |calls|
  {
    if calls != [] {
      RecoveryStands(Step(s, calls[0]), calls[1..]);
    }
  }

  /** Two consecutive halvings are at least two completed rounds apart, whatever lies between them. */
  lemma HalvingsTwoRoundsApart(s: State, first: Call, between: seq<Call>, second: Call)
    requires s.c.slowStartDenominator > 0
    requires Halves(s, first) && NoHalving(Step(s, first), between)
    requires Halves(Run(Step(s, first), between), second)
    requires RoundsForward([first] + between + [second], 0)
    ensures second.rounds >= first.rounds + 2
  {
    RecoveryStands(Step(s, first), between);
    assert second == ([first] + between + [second])[|between| + 1];
  }

  // ------------------------------------------------------------------ growth after a decrease

  function Raises(s: State, calls: seq<Call>): nat
    requires s.c.slowStartDenominator > 0
    decreases |calls|
  {
    if calls == [] then 0
    else (if Grows(s, calls[0]) then 1 else 0) + Raises(Step(s, calls[0]), calls[1..])
  }

  /** Evaluation times do not run backwards, from `from` on and up to `until`. */
  ghost predicate TimesForward(calls: seq<Call>, from: nat, until: nat) {
    && from <= until
    && (forall i | 0 <= i < |calls| && calls[i].Evaluation? :: from <= calls[i].now <= until)
    && (forall i, j | 0 <= i < j < |calls| && calls[i].Evaluation? && calls[j].Evaluation? ::
          calls[i].now <= calls[j].now)
  }

  /** Linear growth: `n` raises since `since`, each within its share of the time up to the raise clock. */
  ghost predicate Linear(p: Pace, base: nat, percent: nat, since: nat, n: nat) {
    && !p.slowStart && p.caBaseBps == base && since <= p.lastRaiseClockUs
    && p.rate * 100000000 <= (base + n) * 100000000 + base * percent * (p.lastRaiseClockUs - since)
  }

  lemma ShareAdds(k: nat, since: nat, at: nat, now: nat)
    requires since <= at <= now
    ensures k * (at - since) + k * (now - at) == k * (now - since)
    ensures k * (at - since) <= k * (now - since)
  {
    MulMonotone(k, at - since, now - since);
  }

  lemma StaysLinearLater(p: Pace, base: nat, percent: nat, since: nat, n: nat, until: nat)
    requires Linear(p, base, percent, since, n) && p.lastRaiseClockUs <= until
    ensures p.rate * 100000000 <= (base + n) * 100000000 + base * percent * (until - since)
  {
    ShareAdds(base * percent, since, p.lastRaiseClockUs, until);
  }

  lemma GrownStaysLinear(p: Pace, c: Config, now: nat, base: nat, since: nat, n: nat)
    requires c.slowStartDenominator > 0 && Linear(p, base, c.caPercentPerSec, since, n) && p.lastRaiseClockUs <= now
    ensures Linear(Grown(p, c, now), base, c.caPercentPerSec, since, n + 1)
  {
    IncrementIsLinear(base, c.caPercentPerSec, now - p.lastRaiseClockUs);
    ShareAdds(base * c.caPercentPerSec, since, p.lastRaiseClockUs, now);
  }

  lemma PacedStaysLinear(p: Pace, c: Config, d: Decision, now: nat, rounds: nat, base: nat, since: nat, n: nat)
    requires c.slowStartDenominator > 0 && !d.Halve?
    requires Linear(p, base, c.caPercentPerSec, since, n) && p.lastRaiseClockUs <= now
    ensures Linear(Paced(p, c, d, now, rounds), base, c.caPercentPerSec, since, if d.Grow? then n + 1 else n)
    ensures Paced(p, c, d, now, rounds).lastRaiseClockUs <= now
  {
    var clocked := Clocked(p, now);
    StaysLinearLater(p, base, c.caPercentPerSec, since, n, clocked.lastRaiseClockUs);
    assert Linear(clocked, base, c.caPercentPerSec, since, n);
    if d.Grow? {
      var calm := if InRecovery(p, rounds) then clocked else clocked.(decreaseCount := 0);
      assert Linear(calm, base, c.caPercentPerSec, since, n);
      GrownStaysLinear(calm, c, now, base, since, n);
    }
  }

  lemma {:induction false} RunStaysLinear(s: State, calls: seq<Call>, until: nat, base: nat, since: nat, n: nat)
    requires s.c.slowStartDenominator > 0 && NoHalving(s, calls) && s.c.floorBps <= s.pace.rate
    requires Linear(s.pace, base, s.c.caPercentPerSec, since, n)
    requires TimesForward(calls, s.pace.lastRaiseClockUs, until)
    ensures Linear(Run(s, calls).pace, base, s.c.caPercentPerSec, since, n + Raises(s, calls))
    ensures Run(s, calls).pace.lastRaiseClockUs <= until
    decreases |calls|
  {
    if calls != [] {
      var next := Step(s, calls[0]);
      var more := if Grows(s, calls[0]) then 1 else 0;
      if calls[0].Evaluation? {
        PacedStaysLinear(s.pace, s.c, Decide(s, calls[0].w, calls[0].now, calls[0].rounds),
                         calls[0].now, calls[0].rounds, base, since, n);
      }
      RunStaysLinear(next, calls[1..], until, base, since, n + more);
    }
  }

  /** After a decrease, until the next one, the rate never exceeds the post-decrease rate plus
      caPercentPerSec of it per elapsed second plus one per raise -- however evaluations, holds, settle
      windows and cap changes are spaced. (Both sides are scaled by 100 % x 10^6 us.) */
  lemma GrowthAfterDecreaseIsLinear(s: State, decrease: Call, calls: seq<Call>, until: nat)
    requires s.c.slowStartDenominator > 0
    requires Halves(s, decrease) && NoHalving(Step(s, decrease), calls)
    requires TimesForward(calls, decrease.now, until)
    ensures var base := Step(s, decrease).pace.rate;
            var n := Raises(Step(s, decrease), calls);
            Run(Step(s, decrease), calls).pace.rate * 100000000
            <= (base + n) * 100000000 + base * s.c.caPercentPerSec * (until - decrease.now)
  {
    var after := Step(s, decrease);
    var base := after.pace.rate;
    assert Linear(after.pace, base, s.c.caPercentPerSec, decrease.now, 0);
    RunStaysLinear(after, calls, until, base, decrease.now, 0);
    StaysLinearLater(Run(after, calls).pace, base, s.c.caPercentPerSec, decrease.now, Raises(after, calls), until);
  }

  // ------------------------------------------------------------------ loss, over the whole history

  /** Every window evaluated, with its time and what it recorded. */
  function WindowsOf(calls: seq<Call>): seq<(nat, seq<LossHorizon.Entry>)>
    decreases |calls|
  {
    if calls == [] then []
    else
      var last := calls[|calls| - 1];
      WindowsOf(calls[..|calls| - 1]) + if last.Evaluation? then [(last.now, Recorded(last.w, last.now))] else []
  }

  lemma {:induction false} RunSnoc(s: State, calls: seq<Call>, call: Call)
    requires s.c.slowStartDenominator > 0
    ensures Run(s, calls + [call]) == Step(Run(s, calls), call)
    decreases |calls|
  {
    if calls == [] {
      assert [call][1..] == [];
    } else {
      assert (calls + [call])[1..] == calls[1..] + [call];
      RunSnoc(Step(s, calls[0]), calls[1..], call);
    }
  }

  /** The loss side of the path after a run that evaluated these windows. */
  ghost predicate Observes(path: Path, c: Config, windows: seq<(nat, seq<LossHorizon.Entry>)>) {
    && path.horizon == LossHorizon.Trimmed(windows, c.lossHorizonMaxUs, c.lossHorizonFragments)
    && path.lossState == if windows == [] then LossHorizon.Unknown
                         else LossHorizon.Verdict(path.horizon, c.lossMinSamples, c.lossHighPerMille)
  }

  lemma StepObserves(s: State, call: Call, windows: seq<(nat, seq<LossHorizon.Entry>)>)
    requires s.c.slowStartDenominator > 0 && Observes(s.path, s.c, windows)
    ensures Observes(Step(s, call).path, s.c,
                     if call.Evaluation? then windows + [(call.now, Recorded(call.w, call.now))] else windows)
  {
    if call.Evaluation? {
      LossHorizon.TrimmedSnoc(windows, call.now, Recorded(call.w, call.now),
                              s.c.lossHorizonMaxUs, s.c.lossHorizonFragments);
      var path := Observed(s.path, s.c, call.w, call.now);
      assert Step(s, call).path.horizon == path.horizon && Step(s, call).path.lossState == path.lossState;
    }
  }

  lemma {:induction false} PathIsTrimmed(c: Config, calls: seq<Call>)
    requires c.slowStartDenominator > 0
    ensures Observes(Run(Initial(c), calls).path, c, WindowsOf(calls))
    decreases |calls|
  {
    if calls != [] {
      var before, last := calls[..|calls| - 1], calls[|calls| - 1];
      PathIsTrimmed(c, before);
      RunSnoc(Initial(c), before, last);
      assert before + [last] == calls;
      var s := Run(Initial(c), before);
      StepObserves(s, last, WindowsOf(before));
      assert WindowsOf(before) + [] == WindowsOf(before);
    }
  }

  lemma {:induction false} WindowsForward(calls: seq<Call>, until: nat)
    requires TimesForward(calls, 0, until)
    ensures var windows := WindowsOf(calls);
            LossHorizon.ClockForward(windows) && forall i | 0 <= i < |windows| :: windows[i].0 <= until
    decreases |calls|
  {
    if calls != [] {
      var before, last := calls[..|calls| - 1], calls[|calls| - 1];
      WindowsForward(before, if last.Evaluation? then last.now else until);
      if last.Evaluation? {
        var e := LossHorizon.Entry(last.now, last.w.uniqueFragmentsSent, last.w.uniqueFragmentsLost);
        assert Recorded(last.w, last.now) == [] || (e.atUs == last.now && Recorded(last.w, last.now) == [e]);
      }
    }
  }

  /** The controller's loss state after any run with times that do not run backwards is the verdict on
      everything ever recorded, cut to the horizon at the last evaluation -- pauses, holds and cap changes
      included. */
  lemma LossStateIsOfWholeHistory(c: Config, calls: seq<Call>, until: nat)
    requires c.slowStartDenominator > 0 && TimesForward(calls, 0, until) && WindowsOf(calls) != []
    ensures var windows := WindowsOf(calls);
            var path := Run(Initial(c), calls).path;
            var batch := LossHorizon.Horizon(LossHorizon.Recorded(windows), windows[|windows| - 1].0,
                                             c.lossHorizonMaxUs, c.lossHorizonFragments);
            && path.horizon == batch
            && path.lossState == LossHorizon.Verdict(batch, c.lossMinSamples, c.lossHighPerMille)
  {
    PathIsTrimmed(c, calls);
    WindowsForward(calls, until);
    LossHorizon.TrimmedIsBatch(WindowsOf(calls), c.lossHorizonMaxUs, c.lossHorizonFragments,
                               c.lossMinSamples, c.lossHighPerMille);
  }

  // ------------------------------------------------------------------ the controller object

  class BulkRateController {
    var c: Config
    var pace: Pace
    var path: Path
    var gain: Gain

    ghost function Value(): State
      reads this
    {
      State(c, pace, path, gain)
    }

    constructor (config: Config)
      ensures Value() == Initial(config)
    {
      c := config;
      pace := Pace(config.startBps, true, 0, false, 0, 0, 0, 0, 0);
      path := Path([], LossHorizon.Unknown, 0, 0);
      gain := Gain(false, 0, 0, false, 0, 0, 0);
    }

    method SetCapBps(capBps: nat)
      modifies this
      ensures Value() == SetCap(old(Value()), capBps)
    {
      c := c.(capBps := capBps);
      if pace.rate > capBps {
        pace := pace.(rate := Max(capBps, c.floorBps));
      }
    }

    method UpdateLossHorizon(w: Window, now: nat)
      modifies this`path
      ensures path == Observed(old(path), c, w, now)
    {
      if w.uniqueFragmentsSent > 0 || w.uniqueFragmentsLost > 0 {
        path := path.(horizon := path.horizon + [LossHorizon.Entry(now, w.uniqueFragmentsSent, w.uniqueFragmentsLost)]);
      }
      ghost var all := path.horizon;
      assert all == old(path.horizon) + Recorded(w, now);
      while path.horizon != [] && Elapsed(now, path.horizon[0].atUs) > c.lossHorizonMaxUs
        invariant path == old(path).(horizon := path.horizon)
        invariant LossHorizon.Fresh(path.horizon, now, c.lossHorizonMaxUs)
               == LossHorizon.Fresh(all, now, c.lossHorizonMaxUs)
        decreases |path.horizon|
      {
        path := path.(horizon := path.horizon[1..]);
      }
      var sent := SumSent(path.horizon);
      while |path.horizon| > 1 && sent - path.horizon[0].sent >= c.lossHorizonFragments
        invariant path == old(path).(horizon := path.horizon)
        invariant sent == LossHorizon.Sent(path.horizon)
        invariant LossHorizon.Shortest(path.horizon, c.lossHorizonFragments)
               == LossHorizon.Horizon(all, now, c.lossHorizonMaxUs, c.lossHorizonFragments)
        decreases |path.horizon|
      {
        sent := sent - path.horizon[0].sent;
        path := path.(horizon := path.horizon[1..]);
      }
      var lost := SumLost(path.horizon);
      if sent < c.lossMinSamples {
        path := path.(lossState := LossHorizon.Unknown);
      } else {
        path := path.(lossState := if lost * 1000 > c.lossHighPerMille * sent
                                   then LossHorizon.High else LossHorizon.Low);
      }
    }

    method Evaluate(w: Window, now: nat, rounds: nat) returns (action: Action)
      requires c.slowStartDenominator > 0
      modifies this
      ensures Value() == Evaluated(old(Value()), w, now, rounds)
      ensures action == ActionOf(old(pace), old(c), Decide(old(Value()), w, now, rounds))
    {
      if pace.lastRaiseClockUs == 0 {
        pace := pace.(lastRaiseClockUs := now);
      }
      var sinceLastUs := Elapsed(now, pace.lastRaiseClockUs);
      UpdateLossHorizon(w, now);
      if now < pace.pauseUntilUs {
        return Pause;
      }
      action := Respond(w, now, rounds, sinceLastUs);
    }

    /** An evaluation outside a pause, once the loss horizon is up to date. */
    method Respond(w: Window, now: nat, rounds: nat, sinceLastUs: nat) returns (action: Action)
      requires c.slowStartDenominator > 0 && sinceLastUs == Elapsed(now, pace.lastRaiseClockUs)
      requires pace == Clocked(pace, now)
      modifies this`pace, this`path, this`gain
      ensures path == Baselined(old(path), w)
      ensures var d := DecideAwake(old(Value()).(path := path), w, now, rounds);
              && pace == Paced(old(pace), c, d, now, rounds)
              && gain == Gained(old(gain), c, d, w, now)
              && action == ActionOf(old(pace), c, d)
    {
      var congested := ReadPath(w);
      var inRecovery := pace.haveDecreased && rounds != 0 && rounds <= pace.recoveryEndRound;
      if congested {
        if inRecovery {
          return Hold;
        }
        action := AnswerCongestion(now, rounds);
        return;
      }
      action := Uncongested(w, now, inRecovery, sinceLastUs);
    }

    /** Lowers the round-trip baselines to what was just measured, and says whether the window shows congestion. */
    method ReadPath(w: Window) returns (congested: bool)
      modifies this`path
      ensures path == Baselined(old(path), w)
      ensures congested == Congested(path, c, w)
    {
      if w.pullRttP50Us > 0 && (path.basePullRttUs == 0 || w.pullRttP50Us < path.basePullRttUs) {
        path := path.(basePullRttUs := w.pullRttP50Us);
      }
      if w.pingRttUs > 0 && (path.basePingRttUs == 0 || w.pingRttUs < path.basePingRttUs) {
        path := path.(basePingRttUs := w.pingRttUs);
      }
      var pullDelay := PullDelay(w);
      var strongDelay := Risen(c, pullDelay, path.basePullRttUs) || Risen(c, w.pingRttUs, path.basePingRttUs);
      var weakDelay := WeakRisen(c, pullDelay, path.basePullRttUs) || WeakRisen(c, w.pingRttUs, path.basePingRttUs);
      var loss := Loss(w);
      congested := strongDelay || w.rtoEvents > 0 || (loss && weakDelay) || (loss && path.lossState.High?);
    }

    /** The rest of an evaluation that saw no congestion. */
    method Uncongested(w: Window, now: nat, inRecovery: bool, sinceLastUs: nat) returns (action: Action)
      requires c.slowStartDenominator > 0 && sinceLastUs == Elapsed(now, pace.lastRaiseClockUs)
      modifies this`pace, this`gain
      ensures var d := DecideUncongested(old(Value()), w, now, inRecovery);
              var calm := if inRecovery then old(pace) else old(pace).(decreaseCount := 0);
              && pace == (if d.Grow? then Grown(calm, c, now) else calm)
              && gain == Gained(old(gain), c, d, w, now)
              && action == ActionOf(calm, c, d)
    {
      if !inRecovery {
        pace := pace.(decreaseCount := 0);
      }
      if now < pace.probeUntilUs {
        return Probe;
      }
      if Loss(w) {
        return Hold;
      }
      var held := WeighLastRaise(w, now);
      if held || inRecovery || w.yielded || !w.workPending {
        return Hold;
      }
      if w.rttSamples == 0 || w.pullRttP50Us == 0 {
        return Hold;
      }
      var pullOk := path.basePullRttUs == 0
                    || w.pullRttP50Us <= Max(path.basePullRttUs * 3 / 2, path.basePullRttUs + c.pullRaiseAbsUs);
      var pingOk := w.pingRttUs == 0 || path.basePingRttUs == 0 || w.pingRttUs <= path.basePingRttUs + c.rttUpSlackUs;
      if !(pullOk && pingOk && pace.rate < c.capBps) {
        return Hold;
      }
      RaiseRate(now, sinceLastUs);
      return Raise;
    }

    /** The congested branch: halve once, and pause when halving has not been enough. */
    method AnswerCongestion(now: nat, rounds: nat) returns (action: Action)
      modifies this`pace, this`gain
      ensures pace == Halved(old(pace), c, now, rounds)
      ensures gain == old(gain).(plateau := false, justRaised := false)
      ensures action == if old(pace.decreaseCount) + 1 >= c.pauseAfterDecreases then Pause else Lower
    {
      pace := pace.(slowStart := false);
      pace := pace.(rate := Max(c.floorBps, pace.rate / 2));
      pace := pace.(caBaseBps := pace.rate);
      pace := pace.(lastRaiseClockUs := now);
      pace := pace.(haveDecreased := true);
      pace := pace.(recoveryEndRound := rounds + 1);
      gain := gain.(plateau := false);
      gain := gain.(justRaised := false);
      pace := pace.(decreaseCount := pace.decreaseCount + 1);
      if pace.decreaseCount >= c.pauseAfterDecreases {
        pace := pace.(decreaseCount := 0);
        pace := pace.(pauseUntilUs := now + c.pauseUs);
        pace := pace.(probeUntilUs := pace.pauseUntilUs + c.probeUs);
        return Pause;
      }
      return Lower;
    }

    /** Smooths the goodput and judges the last raise; true while its verdict, or a plateau, holds the rate. */
    method WeighLastRaise(w: Window, now: nat) returns (held: bool)
      modifies this`gain
      ensures gain == Weighed(old(gain), c, w, now)
      ensures held <==> Settling(Smoothed(old(gain), w)) || gain.plateau
    {
      if w.goodputBps > 0 {
        gain := gain.(goodputEwma := if gain.goodputEwma > 0 then (gain.goodputEwma * 3 + w.goodputBps) / 4
                                     else w.goodputBps);
      }
      if gain.justRaised && gain.settleWindows > 0 {
        gain := gain.(settleWindows := gain.settleWindows - 1);
        return true;
      }
      if gain.justRaised && w.goodputBps > 0 {
        gain := gain.(justRaised := false);
        if gain.goodputEwma <= gain.preRaiseGoodputBps {
          gain := gain.(plateau := true);
          gain := gain.(plateauGoodputBps := gain.goodputEwma);
          gain := gain.(plateauSinceUs := now);
        }
      }
      if gain.plateau {
        var headroom := gain.goodputEwma * 100 > gain.plateauGoodputBps * (100 + c.headroomPercent);
        if headroom || Elapsed(now, gain.plateauSinceUs) >= c.plateauRetryUs {
          gain := gain.(plateau := false);
        }
      }
      return gain.plateau;
    }

    method RaiseRate(now: nat, sinceLastUs: nat)
      requires c.slowStartDenominator > 0 && sinceLastUs == Elapsed(now, pace.lastRaiseClockUs)
      modifies this`pace, this`gain
      ensures pace == Grown(old(pace), c, now)
      ensures gain == old(gain).(justRaised := true, settleWindows := 1, preRaiseGoodputBps := old(gain.goodputEwma))
    {
      var next: nat;
      if pace.slowStart {
        next := pace.rate * c.slowStartNumerator / c.slowStartDenominator;
      } else {
        var dt := Min(sinceLastUs, 1000000);
        var inc := pace.caBaseBps * c.caPercentPerSec * dt / 100 / 1000000;
        next := pace.rate + Max(inc, 1);
      }
      pace := pace.(rate := Min(c.capBps, next));
      if pace.rate >= c.capBps && pace.slowStart {
        pace := pace.(slowStart := false);
        pace := pace.(caBaseBps := pace.rate);
      }
      gain := gain.(justRaised := true);
      gain := gain.(settleWindows := 1);
      pace := pace.(lastRaiseClockUs := now);
      gain := gain.(preRaiseGoodputBps := gain.goodputEwma);
    }
  }

  method SumSent(s: seq<LossHorizon.Entry>) returns (sum: nat)
    ensures sum == LossHorizon.Sent(s)
  {
    sum := 0;
    for i := 0 to |s|
      invariant sum + LossHorizon.Sent(s[i..]) == LossHorizon.Sent(s)
    {
      sum := sum + s[i].sent;
      assert s[i..][1..] == s[i + 1..];
    }
  }

  method SumLost(s: seq<LossHorizon.Entry>) returns (sum: nat)
    ensures sum == LossHorizon.Lost(s)
  {
    sum := 0;
    for i := 0 to |s|
      invariant sum + LossHorizon.Lost(s[i..]) == LossHorizon.Lost(s)
    {
      sum := sum + s[i].lost;
      assert s[i..][1..] == s[i + 1..];
    }
  }
}
