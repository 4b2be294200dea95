/** The client's once-a-second report (client_telemetry_window.hpp) over the decoder's measurement spans
    (client_decode_snapshot.hpp): how much was decoded, over exactly the time it was measured. */
module Telemetry {
  import opened Common
  import opened DecodeSnapshot

  const WINDOW_US: nat := 1000000
  const MAX_PENDING_AGE_US: nat := 1500000
  const MIN_SAMPLE_US: nat := 250000
  const MAX_U32: nat := 0xFFFF_FFFF

  // ------------------------------------------------------------------ where a measurement begins

  datatype SpanStart = SpanStart(id: nat, startUs: nat, startTotal: nat)

  /** A new generation begins a measurement at once, or at the end of a startup grace still running. */
  function AtGeneration(s: SpanStart, now: nat, total: nat, graceActive: bool, graceDeadlineUs: nat): SpanStart {
    SpanStart(s.id + 1, if graceActive && graceDeadlineUs > now then graceDeadlineUs else now, total)
  }

  function AtGraceStart(s: SpanStart, total: nat, graceDeadlineUs: nat): SpanStart {
    SpanStart(s.id + 1, graceDeadlineUs, total)
  }

  /** The picture that ends a grace early moves the start to itself; later it changes nothing. */
  function AtFirstPicture(s: SpanStart, now: nat, totalBefore: nat): SpanStart {
    if now >= s.startUs then s else SpanStart(s.id, now, totalBefore)
  }

  datatype Span = Span(id: nat, frames: nat, us: nat)

  /** What a drain measures: nothing without a surface or before the span has begun. */
  function ReadSpan(s: DecodeState, now: nat): Option<Span> {
    if !s.valid || now < s.spanStartUs then None
    else Some(Span(s.spanId, if s.decodedTotal >= s.spanStartTotal then s.decodedTotal - s.spanStartTotal else 0,
                   now - s.spanStartUs))
  }

  // ------------------------------------------------------------------ the window

  datatype DecodeStats = DecodeStats(width: nat, height: nat, generation: nat, span: Span)

  /** One window's display timing; the report copies it whole. */
  datatype Presentation = Presentation(sampleCount: nat, timing: seq<nat>)

  datatype Snapshot = Snapshot(updatedQpcUs: nat, width: nat, height: nat, decodedFpsX100: nat,
                               recvFpsX100: nat, recvMbpsX1000: nat, present: Option<Presentation>)

  const NOTHING_PENDING := Snapshot(0, 0, 0, 0, 0, 0, None)

  datatype Window = Window(startUs: nat, baseFrames: nat, baseBytes: nat, decodeSeen: bool,
                           base: Option<Span>, holdStartUs: nat, holdUntilUs: nat,
                           pending: Snapshot, pendingGeneration: nat)

  function Opened(now: nat, sinkFrames: nat, sinkBytes: nat): Window {
    Window(now, sinkFrames, sinkBytes, false, None, 0, 0, NOTHING_PENDING, 0)
  }

  function Since(value: nat, base: nat): nat {
    if value >= base then value - base else 0
  }

  /** This window's part of the measurement: since the last close of the same span, or since its start. */
  function SpanSample(base: Option<Span>, span: Span): Span {
    if base.Some? && base.value.id == span.id
    then Span(span.id, Since(span.frames, base.value.frames), Since(span.us, base.value.us))
    else span
  }

  function PerSecondX100(count: nat, elapsedUs: nat): nat {
    if elapsedUs == 0 then 0 else Min(count * 100 * WINDOW_US / elapsedUs, MAX_U32)
  }

  predicate Due(w: Window, now: nat) {
    if w.holdUntilUs != 0 then now >= w.holdUntilUs else now >= w.startUs + WINDOW_US
  }

  function Unheld(w: Window): Window {
    w.(holdStartUs := 0, holdUntilUs := 0)
  }

  function Dropped(w: Window): Window {
    w.(pending := NOTHING_PENDING, pendingGeneration := 0)
  }

  /** Whether a due window waits for its sample to be long enough: at most MIN_SAMPLE_US past its first hold. */
  function Held(w: Window, now: nat, decode: Option<DecodeStats>, paused: bool): (Window, bool) {
    if paused || decode.None? then (Unheld(w), false)
    else
      var us := SpanSample(w.base, decode.value.span).us;
      var since := if w.holdStartUs == 0 then now else w.holdStartUs;
      if us >= MIN_SAMPLE_US || now >= since + MIN_SAMPLE_US then (Unheld(w), false)
      else (w.(holdStartUs := since,
               holdUntilUs := Min(now + (MIN_SAMPLE_US - us), since + MIN_SAMPLE_US)), true)
  }

  function Report(w: Window, now: nat, sinkFrames: nat, sinkBytes: nat, decode: Option<DecodeStats>,
                  present: Option<Presentation>): Snapshot
    requires w.startUs < now
  {
    var shown := if present.Some? && present.value.sampleCount > 0 then present else None;
    if decode.None? then Snapshot(now, 0, 0, 0, 0, 0, shown)
    else
      var windowUs := now - w.startUs;
      var sample := SpanSample(w.base, decode.value.span);
      Snapshot(now, decode.value.width, decode.value.height, PerSecondX100(sample.frames, Max(sample.us, 1000)),
               PerSecondX100(Since(sinkFrames, w.baseFrames), windowUs),
               Min(Since(sinkBytes, w.baseBytes) * 8000 / windowUs, MAX_U32), shown)
  }

  /** Closes the window ending now; true when a new snapshot became pending. */
  function Closed(w: Window, now: nat, sinkFrames: nat, sinkBytes: nat, decode: Option<DecodeStats>,
                  present: Option<Presentation>, paused: bool): (Window, bool) {
    var rebased := Unheld(w).(startUs := now, baseFrames := sinkFrames, baseBytes := sinkBytes);
    if now <= w.startUs then (rebased, false)
    else
      var measured := if decode.Some? then rebased.(base := Some(decode.value.span)) else rebased;
      if paused || (decode.None? && w.decodeSeen) then (Dropped(measured), false)
      else
        var s := Report(w, now, sinkFrames, sinkBytes, decode, present);
        if decode.None? && s.present.None? then (measured, false)
        else (measured.(decodeSeen := decode.Some?, pending := s,
                        pendingGeneration := if decode.Some? then decode.value.generation else 0), true)
  }

  function AtDecodeGeneration(w: Window, generation: nat): Window {
    if w.pending.updatedQpcUs != 0 && generation != w.pendingGeneration then Dropped(w) else w
  }

  /** What the scheduler is handed: the pending snapshot while it is young enough. */
  function Handed(w: Window, now: nat): (s: Snapshot)
    ensures s.updatedQpcUs != 0 ==> s == w.pending && now <= s.updatedQpcUs + MAX_PENDING_AGE_US
    ensures s.updatedQpcUs == 0 && w.pending.updatedQpcUs != 0 ==> now > w.pending.updatedQpcUs + MAX_PENDING_AGE_US
  {
    if w.pending.updatedQpcUs != 0 && now > w.pending.updatedQpcUs + MAX_PENDING_AGE_US then NOTHING_PENDING
    else w.pending
  }

  // ------------------------------------------------------------------ the sink and the window together

  datatype Event =
    | Wait(us: nat)
    | Pictures(n: nat)
    | Generation(graceActive: bool, graceDeadlineUs: nat)
    | GraceStart(graceUs: nat)
    | FirstPicture
    | Surface(valid: bool)
    | Hold(paused: bool, readable: bool)
    | Close(sinkFrames: nat, sinkBytes: nat, present: Option<Presentation>, paused: bool, readable: bool)
    | Reset(sinkFrames: nat, sinkBytes: nat)

  /** A stretch of the clock, its end excluded. */
  datatype Stretch = Stretch(from: nat, to: nat)

  /** The decoder's count, span and clock; the window; and a ledger: every sample a Close took in this
      connection with the stretch it covers, the last read of each span, and every stretch spent before a
      span had begun, with their sum. A new connection over the running sink starts the samples anew. */
  datatype System = System(clock: nat, valid: bool, total: nat, span: SpanStart, w: Window,
                           samples: seq<Span>, taken: seq<Stretch>, lastRead: map<nat, Span>, lastReadUs: nat,
                           graces: seq<Stretch>, graceUs: nat)

  function Start(clock: nat, sinkFrames: nat, sinkBytes: nat): System {
    System(clock, false, 0, SpanStart(0, clock, 0), Opened(clock, sinkFrames, sinkBytes), [], [], map[], 0, [], 0)
  }

  /** The drain: None when the sink has nothing valid, or no consistent copy could be read. */
  function Drain(s: System, readable: bool): Option<DecodeStats> {
    var read := ReadSpan(DecodeState(s.valid, s.total, 0, 0, 0, s.span.id, s.span.startUs, s.span.startTotal), s.clock);
    if readable && read.Some? then Some(DecodeStats(0, 0, 0, read.value)) else None
  }

  function Graced(s: System, us: nat): System
    requires s.clock < s.span.startUs
  {
    var to := Min(s.clock + us, s.span.startUs);
    s.(clock := s.clock + us, graces := s.graces + [Stretch(s.clock, to)], graceUs := s.graceUs + (to - s.clock))
  }

  /** The stretch a measurement of `us` ending now covers. */
  function Covered(now: nat, us: nat): Stretch {
    Stretch(Since(now, us), now)
  }

  function Step(s: System, e: Event): System {
    match e
    case Wait(us) => if s.clock < s.span.startUs then Graced(s, us) else s.(clock := s.clock + us)
    case Pictures(n) => s.(total := s.total + n)
    case Generation(active, deadline) => s.(span := AtGeneration(s.span, s.clock, s.total, active, deadline))
    case GraceStart(us) => s.(span := AtGraceStart(s.span, s.total, s.clock + us))
    case FirstPicture => s.(span := AtFirstPicture(s.span, s.clock, s.total), total := s.total + 1)
    case Surface(valid) => s.(valid := valid)
    case Hold(paused, readable) => s.(w := Held(s.w, s.clock, Drain(s, readable), paused).0)
    case Close(frames, bytes, present, paused, readable) =>
      var decode := Drain(s, readable);
      var closed := s.(w := Closed(s.w, s.clock, frames, bytes, decode, present, paused).0);
      if decode.None? || s.clock <= s.w.startUs then closed
      else closed.(samples := s.samples + [SpanSample(s.w.base, decode.value.span)],
                   taken := s.taken + [Covered(s.clock, SpanSample(s.w.base, decode.value.span).us)],
                   lastRead := s.lastRead[s.span.id := decode.value.span], lastReadUs := s.clock)
    case Reset(frames, bytes) =>
      s.(w := Opened(s.clock, frames, bytes), samples := [], taken := [], lastRead := map[], lastReadUs := 0)
  }

  function Run(s: System, events: seq<Event>): System
    decreases |events|
  {
    if events == [] then s else Run(Step(s, events[0]), events[1..])
  }

  function Frames(samples: seq<Span>, id: nat): nat
    decreases |samples|
  {
    if samples == [] then 0
    else
      var last := samples[|samples| - 1];
      Frames(samples[..|samples| - 1], id) + if last.id == id then last.frames else 0
  }

  function Micros(samples: seq<Span>, id: nat): nat
    decreases |samples|
  {
    if samples == [] then 0
    else
      var last := samples[|samples| - 1];
      Micros(samples[..|samples| - 1], id) + if last.id == id then last.us else 0
  }

  function AllMicros(samples: seq<Span>): nat
    decreases |samples|
  {
    if samples == [] then 0 else AllMicros(samples[..|samples| - 1]) + samples[|samples| - 1].us
  }

  lemma SampleAdds(samples: seq<Span>, x: Span, id: nat)
    ensures Frames(samples + [x], id) == Frames(samples, id) + if x.id == id then x.frames else 0
    ensures Micros(samples + [x], id) == Micros(samples, id) + if x.id == id then x.us else 0
    ensures AllMicros(samples + [x]) == AllMicros(samples) + x.us
  {
    assert (samples + [x])[..|samples|] == samples;
  }

  /** The span in progress has been read by a Close before. */
  predicate ReadBefore(s: System) {
    s.w.base.Some? && s.w.base.value.id == s.span.id
  }

  /** Measured time not yet sampled. */
  function Unread(s: System): nat {
    if ReadBefore(s) then Since(s.clock, s.lastReadUs) else Since(s.clock, s.span.startUs)
  }

  ghost predicate BaseOk(s: System) {
    && s.span.startTotal <= s.total
    && (forall id | id in s.lastRead :: id <= s.span.id)
    && (s.w.base.None? ==> s.lastRead == map[])
    && (s.w.base.Some? ==>
          var b := s.w.base.value;
          b.id in s.lastRead && s.lastRead[b.id] == b && (forall id | id in s.lastRead :: id <= b.id))
    && (forall g | g in s.graces :: g.to <= s.clock && g.to <= s.span.startUs)
    && (ReadBefore(s) ==>
          && s.span.startUs <= s.lastReadUs <= s.clock
          && s.w.base.value.us == s.lastReadUs - s.span.startUs
          && s.w.base.value.frames <= s.total - s.span.startTotal)
  }

  /** Where the next sample starts: where the last one of its span ended, or where its span began. */
  function NextFrom(s: System): nat {
    if ReadBefore(s) then s.lastReadUs else s.span.startUs
  }

  predicate Apart(a: Stretch, b: Stretch) {
    a.to <= b.from || b.to <= a.from
  }

  /** Samples cover stretches as long as they say, one after another, none touching a grace. */
  ghost predicate Disjoint(s: System) {
    && |s.taken| == |s.samples|
    && (forall i | 0 <= i < |s.taken| :: s.taken[i].from + s.samples[i].us == s.taken[i].to)
    && (forall i | 0 <= i < |s.taken| :: s.taken[i].to <= NextFrom(s) && s.taken[i].to <= s.clock)
    && (forall i, j | 0 <= i < j < |s.taken| :: s.taken[i].to <= s.taken[j].from)
    && (forall i, g | 0 <= i < |s.taken| && g in s.graces :: Apart(s.taken[i], g))
  }

  /** What the samples of span `id` add up to. */
  ghost predicate SumsTo(s: System, id: nat) {
    && Frames(s.samples, id) == (if id in s.lastRead then s.lastRead[id].frames else 0)
    && Micros(s.samples, id) == (if id in s.lastRead then s.lastRead[id].us else 0)
  }

  ghost predicate Ledger(s: System, from: nat, id: nat) {
    && BaseOk(s) && SumsTo(s, id) && Disjoint(s)
    && from + s.graceUs <= s.clock && from + s.graceUs <= s.span.startUs
    && from + AllMicros(s.samples) + s.graceUs + Unread(s) <= s.clock
  }

  /** What a close leaves as the base of the next sample. */
  lemma CloseRebases(w: Window, now: nat, frames: nat, bytes: nat, decode: Option<DecodeStats>,
                     present: Option<Presentation>, paused: bool)
    ensures Closed(w, now, frames, bytes, decode, present, paused).0.base
         == if decode.Some? && now > w.startUs then Some(decode.value.span) else w.base
  {
  }

  function Sampled(s: System, read: Span): System {
    s.(w := s.w.(base := Some(read)), samples := s.samples + [SpanSample(s.w.base, read)],
       taken := s.taken + [Covered(s.clock, SpanSample(s.w.base, read).us)],
       lastRead := s.lastRead[s.span.id := read], lastReadUs := s.clock)
  }

  lemma SamplingKeepsBase(s: System, read: Span)
    requires BaseOk(s) && s.span.startUs <= s.clock
    requires read == Span(s.span.id, s.total - s.span.startTotal, s.clock - s.span.startUs)
    ensures BaseOk(Sampled(s, read)) && Unread(Sampled(s, read)) == 0
    ensures SpanSample(s.w.base, read).us == Unread(s)
  {
  }

  lemma SamplingKeepsDisjoint(s: System, read: Span)
    requires BaseOk(s) && Disjoint(s) && s.span.startUs <= s.clock
    requires read == Span(s.span.id, s.total - s.span.startTotal, s.clock - s.span.startUs)
    ensures Disjoint(Sampled(s, read))
  {
    SamplingKeepsBase(s, read);
    var next := Sampled(s, read);
    var last := next.taken[|s.taken|];
    assert last == Stretch(NextFrom(s), s.clock) && NextFrom(next) == s.clock;
    forall g | g in s.graces ensures Apart(last, g) {
      assert g.to <= s.span.startUs <= NextFrom(s);
    }
  }

  lemma SamplingKeepsLedger(s: System, read: Span, from: nat, id: nat)
    requires Ledger(s, from, id) && s.span.startUs <= s.clock
    requires read == Span(s.span.id, s.total - s.span.startTotal, s.clock - s.span.startUs)
    ensures Ledger(Sampled(s, read), from, id)
  {
    var sample := SpanSample(s.w.base, read);
    SampleAdds(s.samples, sample, id);
    SamplingKeepsBase(s, read);
    SamplingKeepsDisjoint(s, read);
    SamplingKeepsSums(s, read, id);
  }

  lemma SamplingKeepsSums(s: System, read: Span, id: nat)
    requires BaseOk(s) && SumsTo(s, id) && s.span.startUs <= s.clock
    requires read == Span(s.span.id, s.total - s.span.startTotal, s.clock - s.span.startUs)
    ensures SumsTo(Sampled(s, read), id)
  {
    SampleAdds(s.samples, SpanSample(s.w.base, read), id);
  }

  lemma LedgerOfBase(s: System, w: Window, from: nat, id: nat)
    requires Ledger(s, from, id) && w.base == s.w.base
    ensures Ledger(s.(w := w), from, id)
  {
  }

  lemma CloseKeepsLedger(s: System, e: Event, from: nat, id: nat)
    requires Ledger(s, from, id) && e.Close?
    ensures Ledger(Step(s, e), from, id)
  {
    var decode := Drain(s, e.readable);
    var w := Closed(s.w, s.clock, e.sinkFrames, e.sinkBytes, decode, e.present, e.paused).0;
    CloseRebases(s.w, s.clock, e.sinkFrames, e.sinkBytes, decode, e.present, e.paused);
    if decode.Some? && s.clock > s.w.startUs {
      var read := decode.value.span;
      SamplingKeepsLedger(s, read, from, id);
      LedgerOfBase(Sampled(s, read), w, from, id);
      assert Step(s, e) == Sampled(s, read).(w := w);
    } else {
      LedgerOfBase(s, w, from, id);
      assert Step(s, e) == s.(w := w);
    }
  }

  lemma RunningKeepsLedger(s: System, us: nat, from: nat, id: nat)
    requires Ledger(s, from, id) && s.span.startUs <= s.clock
    ensures Ledger(s.(clock := s.clock + us), from, id)
  {
  }

  lemma GraceKeepsDisjoint(s: System, us: nat)
    requires BaseOk(s) && Disjoint(s) && s.clock < s.span.startUs
    ensures Disjoint(Graced(s, us))
  {
    var next := Graced(s, us);
    assert !ReadBefore(s) && !ReadBefore(next);
    forall i, g | 0 <= i < |s.taken| && g in next.graces ensures Apart(s.taken[i], g) {
      assert g in s.graces || g.from == s.clock;
    }
  }

  lemma GraceKeepsLedger(s: System, us: nat, from: nat, id: nat)
    requires Ledger(s, from, id) && s.clock < s.span.startUs
    ensures Ledger(Graced(s, us), from, id)
  {
    GraceKeepsDisjoint(s, us);
    var next := Graced(s, us);
    assert Unread(s) == 0;
    assert Unread(next) == Since(next.clock, s.span.startUs);
    GraceKeepsBase(s, us);
  }

  lemma GraceKeepsBase(s: System, us: nat)
    requires BaseOk(s) && s.clock < s.span.startUs
    ensures BaseOk(Graced(s, us))
  {
  }

  lemma WaitKeepsLedger(s: System, us: nat, from: nat, id: nat)
    requires Ledger(s, from, id)
    ensures Ledger(Step(s, Wait(us)), from, id)
  {
    if s.clock < s.span.startUs {
      GraceKeepsLedger(s, us, from, id);
    } else {
      RunningKeepsLedger(s, us, from, id);
    }
  }

  /** A span that begins, or moves its start, now or later touches nothing that was sampled. */
  lemma SpanKeepsLedger(s: System, span: SpanStart, total: nat, from: nat, id: nat)
    requires Ledger(s, from, id)
    requires s.clock <= span.startUs && span.startTotal <= total
    requires span.id > s.span.id || (span.id == s.span.id && s.clock < s.span.startUs)
    ensures Ledger(s.(span := span, total := total), from, id)
  {
  }

  lemma ResetKeepsLedger(s: System, frames: nat, bytes: nat, from: nat, id: nat)
    requires Ledger(s, from, id)
    ensures Ledger(Step(s, Reset(frames, bytes)), from, id)
  {
  }

  lemma MoreTotalKeepsLedger(s: System, total: nat, valid: bool, from: nat, id: nat)
    requires Ledger(s, from, id) && s.total <= total
    ensures Ledger(s.(total := total, valid := valid), from, id)
  {
  }

  lemma FirstPictureKeepsLedger(s: System, from: nat, id: nat)
    requires Ledger(s, from, id)
    ensures Ledger(Step(s, FirstPicture), from, id)
  {
    var span := AtFirstPicture(s.span, s.clock, s.total);
    if s.clock < s.span.startUs {
      SpanKeepsLedger(s, span, s.total + 1, from, id);
    } else {
      MoreTotalKeepsLedger(s, s.total + 1, s.valid, from, id);
      assert Step(s, FirstPicture) == s.(total := s.total + 1, valid := s.valid);
    }
  }

  lemma QuietKeepsLedger(s: System, e: Event, from: nat, id: nat)
    requires Ledger(s, from, id) && (e.Pictures? || e.Surface?)
    ensures Ledger(Step(s, e), from, id)
  {
    var total, valid := if e.Pictures? then s.total + e.n else s.total, if e.Surface? then e.valid else s.valid;
    MoreTotalKeepsLedger(s, total, valid, from, id);
    assert Step(s, e) == s.(total := total, valid := valid);
  }

  lemma BeginningKeepsLedger(s: System, e: Event, from: nat, id: nat)
    requires Ledger(s, from, id) && (e.Generation? || e.GraceStart?)
    ensures Ledger(Step(s, e), from, id)
  {
    var span := if e.Generation? then AtGeneration(s.span, s.clock, s.total, e.graceActive, e.graceDeadlineUs)
                else AtGraceStart(s.span, s.total, s.clock + e.graceUs);
    SpanKeepsLedger(s, span, s.total, from, id);
    assert Step(s, e) == s.(span := span, total := s.total);
  }

  lemma HoldKeepsLedger(s: System, e: Event, from: nat, id: nat)
    requires Ledger(s, from, id) && e.Hold?
    ensures Ledger(Step(s, e), from, id)
  {
    LedgerOfBase(s, Held(s.w, s.clock, Drain(s, e.readable), e.paused).0, from, id);
  }

  lemma StepKeepsLedger(s: System, e: Event, from: nat, id: nat)
    requires Ledger(s, from, id)
    ensures Ledger(Step(s, e), from, id)
  {
    match e
    case Wait(us) => WaitKeepsLedger(s, us, from, id);
    case Pictures(_) => QuietKeepsLedger(s, e, from, id);
    case Generation(_, _) => BeginningKeepsLedger(s, e, from, id);
    case GraceStart(_) => BeginningKeepsLedger(s, e, from, id);
    case FirstPicture => FirstPictureKeepsLedger(s, from, id);
    case Surface(_) => QuietKeepsLedger(s, e, from, id);
    case Hold(_, _) => HoldKeepsLedger(s, e, from, id);
    case Close(_, _, _, _, _) => CloseKeepsLedger(s, e, from, id);
    case Reset(frames, bytes) => ResetKeepsLedger(s, frames, bytes, from, id);
  }

  lemma {:induction false} RunKeepsLedger(s: System, events: seq<Event>, from: nat, id: nat)
    requires Ledger(s, from, id)
    ensures Ledger(Run(s, events), from, id)
    decreases |events|
  {
    if events != [] {
      StepKeepsLedger(s, events[0], from, id);
      RunKeepsLedger(Step(s, events[0]), events[1..], from, id);
    }
  }

  /** However holds, pauses, graces, generations and unreadable drains interleave: the samples of each span
      sum exactly to the pictures and microseconds of the last read of that span -- none counted twice, none
      carried from another span -- and sampled time plus startup-grace time never exceeds the time that
      passed, over resets of the connection too. */
  lemma SamplesAddUp(clock: nat, sinkFrames: nat, sinkBytes: nat, events: seq<Event>, id: nat)
    ensures var s := Run(Start(clock, sinkFrames, sinkBytes), events);
            && SumsTo(s, id)
            && clock + AllMicros(s.samples) + s.graceUs <= s.clock
  {
    RunKeepsLedger(Start(clock, sinkFrames, sinkBytes), events, clock, id);
  }

  /** Time inside a startup grace never enters a sample: each sample covers a stretch exactly as long as it
      says, no two samples overlap, and none overlaps any grace of the whole run. */
  lemma SamplesAvoidGraces(clock: nat, sinkFrames: nat, sinkBytes: nat, events: seq<Event>)
    ensures var s := Run(Start(clock, sinkFrames, sinkBytes), events);
            && |s.taken| == |s.samples|
            && (forall i | 0 <= i < |s.taken| :: s.taken[i].from + s.samples[i].us == s.taken[i].to <= s.clock)
            && (forall i, j | 0 <= i < j < |s.taken| :: s.taken[i].to <= s.taken[j].from)
            && (forall i, g | 0 <= i < |s.taken| && g in s.graces :: Apart(s.taken[i], g))
  {
    RunKeepsLedger(Start(clock, sinkFrames, sinkBytes), events, clock, 0);
  }

  /** A read covers its span from the start that is still the span's start, and no picture from before it. */
  lemma ReadCoversItsSpan(clock: nat, sinkFrames: nat, sinkBytes: nat, events: seq<Event>, readable: bool)
    ensures var s := Run(Start(clock, sinkFrames, sinkBytes), events);
            var d := Drain(s, readable);
            && (d.Some? ==> s.valid && s.clock >= s.span.startUs && s.total >= s.span.startTotal
                            && d.value.span == Span(s.span.id, s.total - s.span.startTotal, s.clock - s.span.startUs))
            && (s.clock < s.span.startUs ==> d.None?)
            && (ReadBefore(s) ==> AtFirstPicture(s.span, s.clock, s.total) == s.span)
  {
    RunKeepsLedger(Start(clock, sinkFrames, sinkBytes), events, clock, 0);
  }

  // ------------------------------------------------------------------ holding is bounded

  function HoldAll(w: Window, asks: seq<(nat, DecodeStats)>): (Window, bool)
    decreases |asks|
  {
    if asks == [] then (w, true)
    else
      var (before, held) := HoldAll(w, asks[..|asks| - 1]);
      var ask := asks[|asks| - 1];
      var (after, now) := Held(before, ask.0, Some(ask.1), false);
      (after, held && now)
  }

  /** A window asked again and again and held every time is held less than MIN_SAMPLE_US past the first ask,
      and is due again by then, whatever the measurement does. */
  lemma {:induction false} HoldingIsBounded(w: Window, asks: seq<(nat, DecodeStats)>)
    requires asks != [] && w.holdStartUs == 0 && asks[0].0 != 0 && HoldAll(w, asks).1
    ensures var held := HoldAll(w, asks).0;
            && held.holdStartUs == asks[0].0
            && asks[|asks| - 1].0 < asks[0].0 + MIN_SAMPLE_US
            && asks[|asks| - 1].0 < held.holdUntilUs <= asks[0].0 + MIN_SAMPLE_US
            && Due(held, asks[0].0 + MIN_SAMPLE_US) && !Due(held, asks[|asks| - 1].0)
            && held.base == w.base && held.pending == w.pending
    decreases |asks|
  {
    var before := asks[..|asks| - 1];
    if before != [] {
      HoldingIsBounded(w, before);
    } else {
      assert HoldAll(w, before) == (w, true);
    }
  }

  // ------------------------------------------------------------------ the objects

  class ClientDecodeSpanStart {
    var id: nat
    var startUs: nat
    var startTotal: nat

    ghost function Value(): SpanStart
      reads this
    {
      SpanStart(id, startUs, startTotal)
    }

    method OnGeneration(now: nat, total: nat, graceActive: bool, graceDeadlineUs: nat)
      modifies this
      ensures Value() == AtGeneration(old(Value()), now, total, graceActive, graceDeadlineUs)
    {
      id := id + 1;
      startTotal := total;
      startUs := if graceActive && graceDeadlineUs > now then graceDeadlineUs else now;
    }

    method OnGraceStart(total: nat, graceDeadlineUs: nat)
      modifies this
      ensures Value() == AtGraceStart(old(Value()), total, graceDeadlineUs)
    {
      id := id + 1;
      startTotal := total;
      startUs := graceDeadlineUs;
    }

    method OnGraceFirstPicture(now: nat, totalBefore: nat)
      modifies this
      ensures Value() == AtFirstPicture(old(Value()), now, totalBefore)
    {
      if now >= startUs {
        return;
      }
      startUs := now;
      startTotal := totalBefore;
    }
  }

  class ClientTelemetryWindow {
    var startUs: nat
    var baseFrames: nat
    var baseBytes: nat
    var decodeSeen: bool
    var base: Option<Span>
    var holdStartUs: nat
    var holdUntilUs: nat
    var pending: Snapshot
    var pendingGeneration: nat

    ghost function Value(): Window
      reads this
    {
      Window(startUs, baseFrames, baseBytes, decodeSeen, base, holdStartUs, holdUntilUs, pending, pendingGeneration)
    }

    method Reset(now: nat, sinkFrames: nat, sinkBytes: nat)
      modifies this
      ensures Value() == Opened(now, sinkFrames, sinkBytes)
    {
      startUs, baseFrames, baseBytes, decodeSeen := now, sinkFrames, sinkBytes, false;
      base := None;
      holdStartUs, holdUntilUs := 0, 0;
      pending, pendingGeneration := NOTHING_PENDING, 0;
    }

    method EndHold()
      modifies this`holdStartUs, this`holdUntilUs
      ensures Value() == Unheld(old(Value()))
    {
      holdStartUs, holdUntilUs := 0, 0;
    }

    method DropPending()
      modifies this`pending, this`pendingGeneration
      ensures Value() == Dropped(old(Value()))
    {
      pending, pendingGeneration := NOTHING_PENDING, 0;
    }

    method Hold(now: nat, decode: Option<DecodeStats>, paused: bool) returns (held: bool)
      modifies this`holdStartUs, this`holdUntilUs
      ensures (Value(), held) == Held(old(Value()), now, decode, paused)
    {
      if paused || decode.None? {
        EndHold();
        return false;
      }
      var us := SpanSample(base, decode.value.span).us;
      if us >= MIN_SAMPLE_US {
        EndHold();
        return false;
      }
      if holdStartUs == 0 {
        holdStartUs := now;
      }
      var limitUs := holdStartUs + MIN_SAMPLE_US;
      if now >= limitUs {
        EndHold();
        return false;
      }
      holdUntilUs := Min(now + (MIN_SAMPLE_US - us), limitUs);
      return true;
    }

    method Close(now: nat, sinkFrames: nat, sinkBytes: nat, decode: Option<DecodeStats>,
                 present: Option<Presentation>, paused: bool) returns (reported: bool)
      modifies this
      ensures (Value(), reported) == Closed(old(Value()), now, sinkFrames, sinkBytes, decode, present, paused)
    {
      EndHold();
      var windowUs := if now > startUs then now - startUs else 0;
      var frames := if sinkFrames >= baseFrames then sinkFrames - baseFrames else 0;
      var bytes := if sinkBytes >= baseBytes then sinkBytes - baseBytes else 0;
      startUs, baseFrames, baseBytes := now, sinkFrames, sinkBytes;
      if windowUs == 0 {
        return false;
      }
      var sample := Span(0, 0, 0);
      if decode.Some? {
        sample := SpanSample(base, decode.value.span);
        base := Some(decode.value.span);
      }
      if paused {
        DropPending();
        return false;
      }
      if decode.Some? {
        decodeSeen := true;
      }
      if decodeSeen && decode.None? {
        DropPending();
        return false;
      }
      var s := BuildReport(now, windowUs, frames, bytes, sample, decode, present);
      if decode.None? && s.present.None? {
        return false;
      }
      pending := s;
      pendingGeneration := if decode.Some? then decode.value.generation else 0;
      return true;
    }

    method BuildReport(now: nat, windowUs: nat, frames: nat, bytes: nat, sample: Span, decode: Option<DecodeStats>,
                       present: Option<Presentation>) returns (s: Snapshot)
      requires windowUs > 0
      ensures s.updatedQpcUs == now
      ensures s.present == if present.Some? && present.value.sampleCount > 0 then present else None
      ensures decode.None? ==> s == NOTHING_PENDING.(updatedQpcUs := now, present := s.present)
      ensures decode.Some? ==>
                && s.width == decode.value.width && s.height == decode.value.height
                && s.decodedFpsX100 == PerSecondX100(sample.frames, Max(sample.us, 1000))
                && s.recvFpsX100 == PerSecondX100(frames, windowUs)
                && s.recvMbpsX1000 == Min(bytes * 8000 / windowUs, MAX_U32)
    {
      s := NOTHING_PENDING;
      if decode.Some? {
        s := s.(width := decode.value.width, height := decode.value.height,
                decodedFpsX100 := PerSecondX100(sample.frames, Max(sample.us, 1000)),
                recvFpsX100 := PerSecondX100(frames, windowUs),
                recvMbpsX1000 := Min(bytes * 8000 / windowUs, MAX_U32));
      }
      if present.Some? && present.value.sampleCount > 0 {
        s := s.(present := present);
      }
      s := s.(updatedQpcUs := now);
    }

    method OnDecodeGeneration(generation: nat)
      modifies this`pending, this`pendingGeneration
      ensures Value() == AtDecodeGeneration(old(Value()), generation)
    {
      if pending.updatedQpcUs != 0 && generation != pendingGeneration {
        DropPending();
      }
    }
  }
}
