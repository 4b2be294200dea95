/** Bounded diagnostics for refused relay datagrams (apps/directory/relay_diag.js): lines per source, a cap
    on tracked sources, and a budget of lines per window, none of which depends on a timer firing. */
module RelayDiag {
  import opened Common

  datatype Limits = Limits(windowMs: int, linesPerKey: nat, maxKeys: nat, linesPerWindow: nat)

  type Bounds = l: Limits | 0 < l.windowMs witness Limits(10000, 3, 256, 24)

  datatype Source = Source(reason: string, ip: string)

  datatype Tally = Tally(since: int, used: nat, suppressed: nat)

  datatype Text =
    | Detail(src: Source, text: string)
    | KeySummary(src: Source, suppressed: nat, lastMs: int)
    | WindowSummary(suppressed: nat, lastMs: int)
    | Untracked(refused: map<string, nat>)

  datatype Line = Line(at: int, what: Text)

  datatype State = State(keys: map<Source, Tally>, overflow: map<string, nat>, win: Tally, log: seq<Line>)

  function Opened(at: int): State {
    State(map[], map[], Tally(at, 0, 0), [])
  }

  function Emitted(s: State, l: Bounds, at: int, what: Text): State {
    if s.win.used >= l.linesPerWindow then s.(win := s.win.(suppressed := s.win.suppressed + 1))
    else s.(win := s.win.(used := s.win.used + 1), log := s.log + [Line(at, what)])
  }

  function Renewed(s: State, l: Bounds, at: int): State {
    var renewed := s.(win := Tally(at, 0, 0));
    if s.win.suppressed > 0 then Emitted(renewed, l, at, WindowSummary(s.win.suppressed, at - s.win.since))
    else renewed
  }

  function Rolled(s: State, l: Bounds, at: int): State {
    if at - s.win.since < l.windowMs then s
    else
      var told := Renewed(s, l, at);
      if s.overflow == map[] then told
      else Emitted(told.(overflow := map[]), l, at, Untracked(s.overflow))
  }

  /** The source's tally, opened or reopened for this datagram; None when there is no room to track it. */
  function Tallied(s: State, l: Bounds, at: int, src: Source): State {
    if src !in s.keys then s.(keys := s.keys[src := Tally(at, 0, 0)])
    else
      var t := s.keys[src];
      if at - t.since < l.windowMs then s
      else
        var told := if t.suppressed > 0 then Emitted(s, l, at, KeySummary(src, t.suppressed, at - t.since)) else s;
        told.(keys := told.keys[src := Tally(at, 0, 0)])
  }

  function Charged(s: State, l: Bounds, at: int, src: Source, text: string): State
    requires src in s.keys
  {
    var t := s.keys[src];
    if t.used >= l.linesPerKey then s.(keys := s.keys[src := t.(suppressed := t.suppressed + 1)])
    else Emitted(s.(keys := s.keys[src := t.(used := t.used + 1)]), l, at, Detail(src, text))
  }

  function Overflowed(s: State, reason: string): State {
    s.(overflow := s.overflow[reason := (if reason in s.overflow then s.overflow[reason] else 0) + 1])
  }

  function Noted(s: State, l: Bounds, at: int, src: Source, text: string): State {
    var rolled := Rolled(s, l, at);
    if src !in rolled.keys && |rolled.keys| >= l.maxKeys then Overflowed(rolled, src.reason)
    else Charged(Tallied(rolled, l, at, src), l, at, src, text)
  }

  function Quieted(s: State, l: Bounds, at: int): State {
    s.(keys := map src | src in s.keys && at - s.keys[src].since <= 2 * l.windowMs :: s.keys[src])
  }

  function Swept(s: State, l: Bounds, at: int): State {
    Rolled(Quieted(s, l, at), l, at)
  }

  // ------------------------------------------------------------------ runs

  datatype Event = Note(at: int, src: Source, text: string) | Sweep(at: int)

  function Step(s: State, l: Bounds, e: Event): State {
    match e
    case Note(at, src, text) => Noted(s, l, at, src, text)
    case Sweep(at) => Swept(s, l, at)
  }

  function Run(s: State, l: Bounds, events: seq<Event>): State
    decreases |events|
  {
    if events == [] then s else Run(Step(s, l, events[0]), l, events[1..])
  }

  ghost predicate ClockForward(from: int, events: seq<Event>)
    decreases |events|
  {
    events == [] || (from <= events[0].at && ClockForward(events[0].at, events[1..]))
  }

  /** Lines logged in [a, b]. */
  function Lines(log: seq<Line>, a: int, b: int): nat
    decreases |log|
  {
    if log == [] then 0
    else
      var last := log[|log| - 1];
      Lines(log[..|log| - 1], a, b) + if a <= last.at <= b then 1 else 0
  }

  /** Detail lines of one source logged in [a, b]. */
  function Details(log: seq<Line>, src: Source, a: int, b: int): nat
    decreases |log|
  {
    if log == [] then 0
    else
      var last := log[|log| - 1];
      Details(log[..|log| - 1], src, a, b)
      + if a <= last.at <= b && last.what.Detail? && last.what.src == src then 1 else 0
  }

  // ------------------------------------------------------------------ a metered count

  /** floor(x / w) and n x limit, by counting. */
  function Whole(x: nat, w: nat): nat
    requires 0 < w
  {
    if x < w then 0 else 1 + Whole(x - w, w)
  }

  function Times(n: nat, limit: nat): nat {
    if n == 0 then 0 else Times(n - 1, limit) + limit
  }

  /** What earlier windows of length `w` can have contributed to a count that starts at `a`. */
  function Quota(since: int, a: int, w: int, limit: nat): nat
    requires 0 < w
  {
    if since <= a - w then 0 else Times(Whole(since - (a - w + 1), w), limit)
  }

  /** The most a span of `t` milliseconds may hold: limit x (floor(t / w) + 2). */
  function Budget(t: nat, w: int, limit: nat): nat
    requires 0 < w
  {
    Times(Whole(t, w) + 2, limit)
  }

  lemma {:induction false} BudgetIs(t: nat, w: int, limit: nat)
    requires 0 < w
    ensures Budget(t, w, limit) == limit * (t / w + 2)
  {
    WholeIsFloor(t, w);
    TimesIsProduct(Whole(t, w) + 2, limit);
  }

  lemma {:induction false} WholeIsFloor(x: nat, w: nat)
    requires 0 < w
    ensures Whole(x, w) == x / w
  {
    if x >= w {
      WholeIsFloor(x - w, w);
      DivStep(x - w, w);
    }
  }

  lemma {:induction false} TimesIsProduct(n: nat, limit: nat)
    ensures Times(n, limit) == limit * n
  {
    if n > 0 {
      TimesIsProduct(n - 1, limit);
      assert limit * n == limit * (n - 1) + limit;
    }
  }

  lemma DivStep(x: nat, w: nat)
    requires 0 < w
    ensures (x + w) / w == x / w + 1
  {
    assert x == w * (x / w) + x % w;
    assert x + w == w * ((x + w) / w) + (x + w) % w;
    if x / w + 1 < (x + w) / w {
      Scale(w, x / w + 2, (x + w) / w);
      assert false;
    } else if (x + w) / w < x / w + 1 {
      Scale(w, (x + w) / w, x / w);
      assert false;
    }
  }

  lemma Scale(limit: nat, x: nat, y: nat)
    requires x <= y
    ensures limit * x <= limit * y
  {
    assert limit * y - limit * x == limit * (y - x);
  }

  lemma {:induction false} WholeGrows(x: nat, y: nat, w: nat)
    requires 0 < w && x <= y
    ensures Whole(x, w) <= Whole(y, w)
  {
    if w <= x {
      WholeGrows(x - w, y - w, w);
    }
  }

  lemma {:induction false} TimesGrows(m: nat, n: nat, limit: nat)
    requires m <= n
    ensures Times(m, limit) <= Times(n, limit)
  {
    if m < n {
      TimesGrows(m, n - 1, limit);
    }
  }

  /** `count` is what the windows up to this one, each of at most `limit`, can have produced since `a`. */
  ghost predicate Metered(count: nat, t: Tally, a: int, w: int, limit: nat)
    requires 0 < w
  {
    t.used <= limit && count <= Quota(t.since, a, w, limit) + if t.since <= a - w then 0 else t.used
  }

  lemma QuotaGrows(since: int, later: int, a: int, w: int, limit: nat)
    requires 0 < w && since <= later
    ensures Quota(since, a, w, limit) <= Quota(later, a, w, limit)
    ensures since + w <= later && a - w < since ==> Quota(since, a, w, limit) + limit <= Quota(later, a, w, limit)
  {
    if a - w < since {
      var x := since - (a - w + 1);
      var y := later - (a - w + 1);
      WholeGrows(x, y, w);
      TimesGrows(Whole(x, w), Whole(y, w), limit);
      if since + w <= later {
        WholeGrows(x + w, y, w);
        TimesGrows(Whole(x, w) + 1, Whole(y, w), limit);
      }
    }
  }

  lemma RestartStaysMetered(count: nat, t: Tally, at: int, a: int, w: int, limit: nat)
    requires 0 < w && Metered(count, t, a, w, limit) && t.since + w <= at
    ensures Metered(count, Tally(at, 0, 0), a, w, limit)
    ensures count <= Quota(at, a, w, limit)
  {
    QuotaGrows(t.since, at, a, w, limit);
  }

  /** However the span [a, b] falls across the windows, it meets at most floor((b - a) / w) + 2 of them. */
  lemma SpanMeetsFewWindows(count: nat, t: Tally, a: int, b: int, w: int, limit: nat)
    requires 0 < w && a <= b && Metered(count, t, a, w, limit) && t.since <= b
    ensures count <= Budget(b - a, w, limit)
  {
    QuotaGrows(t.since, b, a, w, limit);
    var y := b - (a - w + 1);
    WholeGrows(y, b - a + w, w);
    TimesGrows(Whole(y, w), Whole(b - a, w) + 1, limit);
  }

  // ------------------------------------------------------------------ the budgets, step by step

  ghost predicate KeyMetered(s: State, l: Bounds, clock: int, a: int, b: int, src: Source) {
    var count := Details(s.log, src, a, b);
    if src in s.keys then Metered(count, s.keys[src], a, l.windowMs, l.linesPerKey)
    else count <= Quota(clock, a, l.windowMs, l.linesPerKey)
  }

  /** Both budgets hold for the span [a, b], and until the clock leaves it both counts are metered. */
  ghost predicate InBudget(s: State, l: Bounds, clock: int, a: int, b: int, src: Source) {
    && a <= b
    && s.win.since <= clock && (src in s.keys ==> s.keys[src].since <= clock)
    && |s.keys| <= l.maxKeys
    && Lines(s.log, a, b) <= Budget(b - a, l.windowMs, l.linesPerWindow)
    && Details(s.log, src, a, b) <= Budget(b - a, l.windowMs, l.linesPerKey)
    && (clock <= b ==> Metered(Lines(s.log, a, b), s.win, a, l.windowMs, l.linesPerWindow))
    && (clock <= b ==> KeyMetered(s, l, clock, a, b, src))
  }

  lemma ClockAdvances(s: State, l: Bounds, clock: int, at: int, a: int, b: int, src: Source)
    requires InBudget(s, l, clock, a, b, src) && clock <= at
    ensures InBudget(s, l, at, a, b, src)
  {
    QuotaGrows(clock, at, a, l.windowMs, l.linesPerKey);
  }

  lemma LogGrows(log: seq<Line>, line: Line, src: Source, a: int, b: int)
    ensures Lines(log + [line], a, b) == Lines(log, a, b) + if a <= line.at <= b then 1 else 0
    ensures Details(log + [line], src, a, b) == Details(log, src, a, b)
              + if a <= line.at <= b && line.what.Detail? && line.what.src == src then 1 else 0
  {
    assert (log + [line])[..|log|] == log;
  }

  /** A line that is no detail of `src`, drawn from the window that is open now. */
  lemma EmitStaysInBudget(s: State, l: Bounds, at: int, what: Text, a: int, b: int, src: Source)
    requires InBudget(s, l, at, a, b, src) && at - s.win.since < l.windowMs
    requires !(what.Detail? && what.src == src)
    ensures InBudget(Emitted(s, l, at, what), l, at, a, b, src)
    ensures var r := Emitted(s, l, at, what); r.keys == s.keys && r.win.since == s.win.since
  {
    LogGrows(s.log, Line(at, what), src, a, b);
    var r := Emitted(s, l, at, what);
    if at <= b {
      SpanMeetsFewWindows(Lines(r.log, a, b), r.win, a, b, l.windowMs, l.linesPerWindow);
    }
  }

  lemma NewWindowStaysInBudget(s: State, l: Bounds, at: int, a: int, b: int, src: Source)
    requires InBudget(s, l, at, a, b, src) && at - s.win.since >= l.windowMs
    ensures InBudget(s.(win := Tally(at, 0, 0)), l, at, a, b, src)
  {
    if at <= b {
      RestartStaysMetered(Lines(s.log, a, b), s.win, at, a, l.windowMs, l.linesPerWindow);
    }
  }

  lemma RenewStaysInBudget(s: State, l: Bounds, at: int, a: int, b: int, src: Source)
    requires InBudget(s, l, at, a, b, src) && at - s.win.since >= l.windowMs
    ensures var r := Renewed(s, l, at);
            InBudget(r, l, at, a, b, src) && at - r.win.since < l.windowMs
            && r.keys == s.keys && r.overflow == s.overflow
  {
    var opening := s.(win := Tally(at, 0, 0));
    NewWindowStaysInBudget(s, l, at, a, b, src);
    if s.win.suppressed > 0 {
      var what := WindowSummary(s.win.suppressed, at - s.win.since);
      EmitStaysInBudget(opening, l, at, what, a, b, src);
      assert Renewed(s, l, at) == Emitted(opening, l, at, what);
    } else {
      assert Renewed(s, l, at) == opening;
    }
  }

  lemma RollStaysInBudget(s: State, l: Bounds, at: int, a: int, b: int, src: Source)
    requires InBudget(s, l, at, a, b, src)
    ensures var r := Rolled(s, l, at);
            InBudget(r, l, at, a, b, src) && at - r.win.since < l.windowMs && r.keys == s.keys
  {
    if at - s.win.since >= l.windowMs {
      RenewStaysInBudget(s, l, at, a, b, src);
      if s.overflow != map[] {
        EmitStaysInBudget(Renewed(s, l, at).(overflow := map[]), l, at, Untracked(s.overflow), a, b, src);
      }
    }
  }

  lemma NewKeyStaysInBudget(s: State, l: Bounds, at: int, from: Source, a: int, b: int, src: Source)
    requires InBudget(s, l, at, a, b, src) && from !in s.keys && |s.keys| < l.maxKeys
    ensures InBudget(s.(keys := s.keys[from := Tally(at, 0, 0)]), l, at, a, b, src)
  {
    assert s.keys[from := Tally(at, 0, 0)].Keys == s.keys.Keys + {from};
  }

  lemma RestartedKeyStaysInBudget(s: State, l: Bounds, at: int, from: Source, a: int, b: int, src: Source)
    requires InBudget(s, l, at, a, b, src) && from in s.keys && at - s.keys[from].since >= l.windowMs
    ensures InBudget(s.(keys := s.keys[from := Tally(at, 0, 0)]), l, at, a, b, src)
  {
    if from == src && at <= b {
      RestartStaysMetered(Details(s.log, src, a, b), s.keys[from], at, a, l.windowMs, l.linesPerKey);
    }
    assert s.keys[from := Tally(at, 0, 0)].Keys == s.keys.Keys;
  }

  lemma TallyStaysInBudget(s: State, l: Bounds, at: int, from: Source, a: int, b: int, src: Source)
    requires InBudget(s, l, at, a, b, src) && at - s.win.since < l.windowMs
    requires from in s.keys || |s.keys| < l.maxKeys
    ensures var r := Tallied(s, l, at, from);
            && InBudget(r, l, at, a, b, src) && at - r.win.since < l.windowMs
            && from in r.keys && at - r.keys[from].since < l.windowMs
  {
    if from !in s.keys {
      NewKeyStaysInBudget(s, l, at, from, a, b, src);
    } else if at - s.keys[from].since >= l.windowMs {
      var t := s.keys[from];
      var told := s;
      if t.suppressed > 0 {
        var what := KeySummary(from, t.suppressed, at - t.since);
        EmitStaysInBudget(s, l, at, what, a, b, src);
        told := Emitted(s, l, at, what);
      }
      RestartedKeyStaysInBudget(told, l, at, from, a, b, src);
    }
  }

  lemma SuppressStaysInBudget(s: State, l: Bounds, at: int, from: Source, a: int, b: int, src: Source)
    requires InBudget(s, l, at, a, b, src) && from in s.keys
    ensures var t := s.keys[from];
            InBudget(s.(keys := s.keys[from := t.(suppressed := t.suppressed + 1)]), l, at, a, b, src)
  {
    var t := s.keys[from];
    assert s.keys[from := t.(suppressed := t.suppressed + 1)].Keys == s.keys.Keys;
  }

  /** Spending a line of a source whose own window is open. */
  lemma SpendStaysInBudget(s: State, l: Bounds, at: int, from: Source, t: Tally, a: int, b: int, src: Source)
    requires InBudget(s, l, at, a, b, src) && from in s.keys
    requires t.since == s.keys[from].since && s.keys[from].used <= t.used <= l.linesPerKey
    ensures InBudget(s.(keys := s.keys[from := t]), l, at, a, b, src)
  {
    assert s.keys[from := t].Keys == s.keys.Keys;
  }

  lemma DetailStaysInBudget(s: State, l: Bounds, at: int, text: string, a: int, b: int, src: Source)
    requires InBudget(s, l, at, a, b, src) && at - s.win.since < l.windowMs
    requires src in s.keys && at - s.keys[src].since < l.windowMs && s.keys[src].used < l.linesPerKey
    requires s.win.used < l.linesPerWindow
    ensures InBudget(Charged(s, l, at, src, text), l, at, a, b, src)
  {
    var r := Charged(s, l, at, src, text);
    LogGrows(s.log, Line(at, Detail(src, text)), src, a, b);
    assert r.keys.Keys == s.keys.Keys;
    if at <= b {
      SpanMeetsFewWindows(Lines(r.log, a, b), r.win, a, b, l.windowMs, l.linesPerWindow);
      SpanMeetsFewWindows(Details(r.log, src, a, b), r.keys[src], a, b, l.windowMs, l.linesPerKey);
    }
  }

  lemma ChargeStaysInBudget(s: State, l: Bounds, at: int, from: Source, text: string, a: int, b: int, src: Source)
    requires InBudget(s, l, at, a, b, src) && at - s.win.since < l.windowMs
    requires from in s.keys && at - s.keys[from].since < l.windowMs
    ensures InBudget(Charged(s, l, at, from, text), l, at, a, b, src)
  {
    var t := s.keys[from];
    if t.used >= l.linesPerKey {
      SuppressStaysInBudget(s, l, at, from, a, b, src);
    } else if from == src && s.win.used < l.linesPerWindow {
      DetailStaysInBudget(s, l, at, text, a, b, src);
    } else {
      SpendStaysInBudget(s, l, at, from, t.(used := t.used + 1), a, b, src);
      var spent := s.(keys := s.keys[from := t.(used := t.used + 1)]);
      if from != src {
        EmitStaysInBudget(spent, l, at, Detail(from, text), a, b, src);
      }
    }
  }

  lemma QuietStaysInBudget(s: State, l: Bounds, at: int, a: int, b: int, src: Source)
    requires InBudget(s, l, at, a, b, src)
    ensures InBudget(Quieted(s, l, at), l, at, a, b, src)
  {
    var r := Quieted(s, l, at);
    assert r.keys.Keys <= s.keys.Keys;
    SubsetIsSmaller(r.keys.Keys, s.keys.Keys);
    if src in s.keys && src !in r.keys && at <= b {
      RestartStaysMetered(Details(s.log, src, a, b), s.keys[src], at, a, l.windowMs, l.linesPerKey);
    }
  }

  lemma StepStaysInBudget(s: State, l: Bounds, clock: int, e: Event, a: int, b: int, src: Source)
    requires InBudget(s, l, clock, a, b, src) && clock <= e.at
    ensures InBudget(Step(s, l, e), l, e.at, a, b, src)
  {
    ClockAdvances(s, l, clock, e.at, a, b, src);
    match e
    case Sweep(at) =>
      QuietStaysInBudget(s, l, at, a, b, src);
      RollStaysInBudget(Quieted(s, l, at), l, at, a, b, src);
    case Note(at, from, text) =>
      RollStaysInBudget(s, l, at, a, b, src);
      var rolled := Rolled(s, l, at);
      if from in rolled.keys || |rolled.keys| < l.maxKeys {
        TallyStaysInBudget(rolled, l, at, from, a, b, src);
        ChargeStaysInBudget(Tallied(rolled, l, at, from), l, at, from, text, a, b, src);
      }
  }

  lemma {:induction false} RunStaysInBudget(s: State, l: Bounds, clock: int, events: seq<Event>, a: int,
                                          b: int, src: Source)
    returns (at: int)
    requires InBudget(s, l, clock, a, b, src) && ClockForward(clock, events)
    ensures InBudget(Run(s, l, events), l, at, a, b, src)
    decreases |events|
  {
    if events != [] {
      StepStaysInBudget(s, l, clock, events[0], a, b, src);
      at := RunStaysInBudget(Step(s, l, events[0]), l, events[0].at, events[1..], a, b, src);
    } else {
      at := clock;
    }
  }

  /** Whatever sources flood it: tracked sources never exceed the cap, and any span of time sees at most
      linesPerWindow x (floor(T / windowMs) + 2) lines in all and linesPerKey x (the same) detail lines of any one
      source -- swept and re-added sources included. */
  lemma FloodStaysInBudget(l: Bounds, openedAt: int, events: seq<Event>, a: int, b: int, src: Source)
    requires ClockForward(openedAt, events) && a <= b
    ensures var r := Run(Opened(openedAt), l, events);
            && |r.keys| <= l.maxKeys
            && Lines(r.log, a, b) <= l.linesPerWindow * ((b - a) / l.windowMs + 2)
            && Details(r.log, src, a, b) <= l.linesPerKey * ((b - a) / l.windowMs + 2)
  {
    BudgetIs(b - a, l.windowMs, l.linesPerWindow);
    BudgetIs(b - a, l.windowMs, l.linesPerKey);
    var _ := RunStaysInBudget(Opened(openedAt), l, openedAt, events, a, b, src);
  }

  function WindowTold(s: State, at: int): seq<Line> {
    if s.win.suppressed > 0 then [Line(at, WindowSummary(s.win.suppressed, at - s.win.since))] else []
  }

  function UntrackedTold(s: State, l: Bounds, at: int): seq<Line> {
    if s.overflow != map[] && l.linesPerWindow > |WindowTold(s, at)| then [Line(at, Untracked(s.overflow))] else []
  }

  lemma SummariesLogged(s: State, l: Bounds, at: int)
    requires at - s.win.since >= l.windowMs && l.linesPerWindow > 0
    ensures var r := Rolled(s, l, at);
            && r.log == s.log + (WindowTold(s, at) + UntrackedTold(s, l, at)) && r.overflow == map[]
            && r.win.suppressed == if s.overflow != map[] && UntrackedTold(s, l, at) == [] then 1 else 0
  {
    var renewed := Renewed(s, l, at);
    assert renewed.log == s.log + WindowTold(s, at) && renewed.win == Tally(at, |WindowTold(s, at)|, 0);
    assert s.log + WindowTold(s, at) + UntrackedTold(s, l, at) == s.log + (WindowTold(s, at) + UntrackedTold(s, l, at));
  }

  /** What a window left out, and what came from sources it could not track, is said when the next one opens,
      before the counts are cleared -- the second summary exactly if the budget has a line left for it, and
      it is counted as suppressed otherwise. (The count of one source is another matter: `LostOnlyAfterAWindow`.) */
  lemma SuppressedIsReported(s: State, l: Bounds, at: int)
    requires at - s.win.since >= l.windowMs && l.linesPerWindow > 0
    ensures var r := Rolled(s, l, at);
            var told := s.win.suppressed > 0;
            var room := l.linesPerWindow > (if told then 1 else 0);
            && (told ==> Line(at, WindowSummary(s.win.suppressed, at - s.win.since)) in r.log[|s.log|..])
            && (s.overflow != map[] ==> (Line(at, Untracked(s.overflow)) in r.log[|s.log|..] <==> room))
            && r.overflow == map[]
            && r.win.suppressed == (if s.overflow != map[] && !room then 1 else 0)
  {
    SummariesLogged(s, l, at);
    var told, rest := WindowTold(s, at), UntrackedTold(s, l, at);
    assert (s.log + (told + rest))[|s.log|..] == told + rest;
    if rest != [] {
      assert (told + rest)[|told|] == rest[0];
    }
    if told != [] {
      assert (told + rest)[0] == told[0];
    }
  }

  /** A sweep forgets a source, its suppressed count unsaid, if and only if the source's tally was opened more
      than two windows ago -- which is not how long ago it was last refused. */
  lemma SweepLosesCountIff(s: State, l: Bounds, at: int, src: Source, suppressed: nat, lastMs: int)
    requires src in s.keys
    ensures var r := Swept(s, l, at);
            && (src !in r.keys <==> at - s.keys[src].since > 2 * l.windowMs)
            && (src in r.keys ==> r.keys[src] == s.keys[src])
            && Line(at, KeySummary(src, suppressed, lastMs)) !in r.log[|s.log|..]
  {
    var quiet := Quieted(s, l, at);
    var r := Swept(s, l, at);
    assert r == Rolled(quiet, l, at) && r.keys == quiet.keys;
    RollSaysNoKey(quiet, l, at);
  }

  /** Lines that are no detail and no summary of one source. */
  ghost predicate Overall(lines: seq<Line>) {
    forall i | 0 <= i < |lines| :: lines[i].what.WindowSummary? || lines[i].what.Untracked?
  }

  lemma RollSaysNoKey(s: State, l: Bounds, at: int)
    ensures var r := Rolled(s, l, at); s.log <= r.log && Overall(r.log[|s.log|..])
  {
    if at - s.win.since >= l.windowMs {
      var renewed, r := Renewed(s, l, at), Rolled(s, l, at);
      assert |renewed.log| <= |s.log| + 1 && s.log <= renewed.log && Overall(renewed.log[|s.log|..]);
      assert r.log == renewed.log || r.log == renewed.log + [Line(at, Untracked(s.overflow))];
    }
  }

  // ------------------------------------------------------------------ what a sweep loses, over runs

  /** When a source was last refused in a run; `before` is when it was last refused before that. */
  function LastRefusal(before: Option<int>, events: seq<Event>, src: Source): Option<int>
    decreases |events|
  {
    if events == [] then before
    else LastRefusal(if events[0].Note? && events[0].src == src then Some(events[0].at) else before, events[1..], src)
  }

  /** A tracked source was last refused in the window its tally opened. */
  ghost predicate Recent(s: State, l: Bounds, src: Source, last: Option<int>, clock: int) {
    && (last.Some? ==> last.value <= clock)
    && (src in s.keys ==> last.Some? && s.keys[src].since <= last.value < s.keys[src].since + l.windowMs)
  }

  /** A refusal leaves the other sources' tallies, and the source's own opened now or still in its window. */
  lemma NotedSince(s: State, l: Bounds, at: int, from: Source, text: string, src: Source)
    ensures var r := Noted(s, l, at, from, text);
            && (src != from ==> (src in r.keys <==> src in s.keys) && (src in r.keys ==> r.keys[src] == s.keys[src]))
            && (src == from && src in r.keys ==>
                  || r.keys[src].since == at
                  || (src in s.keys && r.keys[src].since == s.keys[src].since && at - r.keys[src].since < l.windowMs))
  {
    var rolled := Rolled(s, l, at);
    assert rolled.keys == s.keys;
    if from in rolled.keys || |rolled.keys| < l.maxKeys {
      var tallied := Tallied(rolled, l, at, from);
      var charged := Charged(tallied, l, at, from, text);
      assert charged.keys == tallied.keys[from := charged.keys[from]];
    }
  }

  lemma StepStaysRecent(s: State, l: Bounds, src: Source, last: Option<int>, clock: int, e: Event)
    requires Recent(s, l, src, last, clock) && clock <= e.at
    ensures Recent(Step(s, l, e), l, src, if e.Note? && e.src == src then Some(e.at) else last, e.at)
  {
    match e
    case Sweep(at) =>
      assert Swept(s, l, at).keys == Quieted(s, l, at).keys;
    case Note(at, from, text) => NotedSince(s, l, at, from, text, src);
  }

  lemma {:induction false} RunStaysRecent(s: State, l: Bounds, src: Source, last: Option<int>, clock: int,
                                          events: seq<Event>)
    returns (until: int)
    requires Recent(s, l, src, last, clock) && ClockForward(clock, events)
    ensures Recent(Run(s, l, events), l, src, LastRefusal(last, events, src), until)
    decreases |events|
  {
    if events == [] {
      until := clock;
    } else {
      var e := events[0];
      StepStaysRecent(s, l, src, last, clock, e);
      var latest := if e.Note? && e.src == src then Some(e.at) else last;
      until := RunStaysRecent(Step(s, l, e), l, src, latest, e.at, events[1..]);
    }
  }

  /** A count that is there before the sweep and neither there nor said after it. */
  predicate LosesCount(s: State, l: Bounds, at: int, src: Source) {
    src in s.keys && s.keys[src].suppressed > 0 && src !in Swept(s, l, at).keys
  }

  /** In every run: a sweep loses a source's count only if the source was last refused more than one window
      ago (one window and two milliseconds at least), and always if that was more than two windows ago. */
  lemma LostOnlyAfterAWindow(l: Bounds, openedAt: int, events: seq<Event>, at: int, src: Source)
    requires ClockForward(openedAt, events) && src in Run(Opened(openedAt), l, events).keys
    ensures var s := Run(Opened(openedAt), l, events);
            var last := LastRefusal(None, events, src);
            && last.Some?
            && (LosesCount(s, l, at, src) ==> at - last.value >= l.windowMs + 2)
            && (s.keys[src].suppressed > 0 && at - last.value > 2 * l.windowMs ==> LosesCount(s, l, at, src))
  {
    var _ := RunStaysRecent(Opened(openedAt), l, src, None, openedAt, events);
    SweepLosesCountIff(Run(Opened(openedAt), l, events), l, at, src, 0, 0);
  }

  lemma RefusedAgain(s: State, l: Bounds, at: int, src: Source, text: string)
    requires src in s.keys && at - s.win.since < l.windowMs && at - s.keys[src].since < l.windowMs
    ensures var r := Noted(s, l, at, src, text);
            var t := s.keys[src];
            && r.win.since == s.win.since && src in r.keys
            && r.keys[src] == if t.used >= l.linesPerKey then t.(suppressed := t.suppressed + 1)
                              else t.(used := t.used + 1)
  {
  }

  lemma {:induction false} RunSnoc(s: State, l: Bounds, events: seq<Event>, e: Event)
    ensures Run(s, l, events + [e]) == Step(Run(s, l, events), l, e)
    decreases |events|
  {
    if events == [] {
      assert [e][1..] == [];
    } else {
      assert (events + [e])[1..] == events[1..] + [e];
      RunSnoc(Step(s, l, events[0]), l, events[1..], e);
    }
  }

  const DEFAULTS := Limits(10000, 3, 256, 24)

  /** Four refusals at once: three told, one suppressed. */
  function FourRefusals(src: Source): seq<Event> {
    [Note(0, src, "")] + [Note(0, src, "")] + [Note(0, src, "")] + [Note(0, src, "")]
  }

  lemma FourRefusalsTally(src: Source)
    ensures var s := Run(Opened(0), DEFAULTS, FourRefusals(src));
            && s.win.since == 0 && src in s.keys && s.keys[src] == Tally(0, 3, 1)
  {
    var e := Note(0, src, "");
    RunSnoc(Opened(0), DEFAULTS, [], e);
    assert [] + [e] == [e];
    var s1 := Run(Opened(0), DEFAULTS, [e]);
    assert s1.win.since == 0 && src in s1.keys && s1.keys[src] == Tally(0, 1, 0);
    RunSnoc(Opened(0), DEFAULTS, [e], e);
    RefusedAgain(s1, DEFAULTS, 0, src, "");
    RunSnoc(Opened(0), DEFAULTS, [e] + [e], e);
    RefusedAgain(Run(Opened(0), DEFAULTS, [e] + [e]), DEFAULTS, 0, src, "");
    RunSnoc(Opened(0), DEFAULTS, [e] + [e] + [e], e);
    RefusedAgain(Run(Opened(0), DEFAULTS, [e] + [e] + [e]), DEFAULTS, 0, src, "");
  }

  /** Refused again just before its window ends, a source's count of two is lost by a sweep one window and two
      milliseconds later. */
  lemma LateRefusalIsLost(src: Source)
    ensures var late := FourRefusals(src) + [Note(9999, src, "")];
            var s := Run(Opened(0), DEFAULTS, late);
            && ClockForward(0, late) && LastRefusal(None, late, src) == Some(9999)
            && LosesCount(s, DEFAULTS, 20001, src) && s.keys[src].suppressed == 2
            && 20001 - 9999 == DEFAULTS.windowMs + 2
  {
    var four := FourRefusals(src);
    FourRefusalsTally(src);
    RunSnoc(Opened(0), DEFAULTS, four, Note(9999, src, ""));
    RefusedAgain(Run(Opened(0), DEFAULTS, four), DEFAULTS, 9999, src, "");
    SweepLosesCountIff(Run(Opened(0), DEFAULTS, four + [Note(9999, src, "")]), DEFAULTS, 20001, src, 0, 0);
    LastOfSame(four, src, 0);
    LastSnoc(None, four, Note(9999, src, ""), src);
    ForwardSnoc(0, four, Note(9999, src, ""));
  }

  /** Both bounds are met: the input above loses a count just over one window after the last refusal, and a
      source not refused again keeps its count of one for two windows exactly. */
  lemma SweepBoundsAreTight(src: Source)
    ensures var late := FourRefusals(src) + [Note(9999, src, "")];
            var s := Run(Opened(0), DEFAULTS, late);
            && ClockForward(0, late) && LastRefusal(None, late, src) == Some(9999)
            && LosesCount(s, DEFAULTS, 20001, src) && s.keys[src].suppressed == 2
            && 20001 - 9999 == DEFAULTS.windowMs + 2
    ensures var s := Run(Opened(0), DEFAULTS, FourRefusals(src));
            && LastRefusal(None, FourRefusals(src), src) == Some(0) && src in s.keys && s.keys[src].suppressed == 1
            && !LosesCount(s, DEFAULTS, 20000, src) && 20000 - 0 == 2 * DEFAULTS.windowMs
  {
    LateRefusalIsLost(src);
    FourRefusalsTally(src);
    SweepLosesCountIff(Run(Opened(0), DEFAULTS, FourRefusals(src)), DEFAULTS, 20000, src, 0, 0);
    LastOfSame(FourRefusals(src), src, 0);
  }

  lemma {:induction false} LastSnoc(before: Option<int>, events: seq<Event>, e: Event, src: Source)
    ensures LastRefusal(before, events + [e], src)
         == if e.Note? && e.src == src then Some(e.at) else LastRefusal(before, events, src)
    decreases |events|
  {
    if events == [] {
      assert [e][1..] == [];
    } else {
      assert (events + [e])[1..] == events[1..] + [e];
      LastSnoc(if events[0].Note? && events[0].src == src then Some(events[0].at) else before, events[1..], e, src);
    }
  }

  lemma {:induction false} LastOfSame(events: seq<Event>, src: Source, at: int)
    requires events != [] && forall e | e in events :: e.Note? && e.src == src && e.at == at
    ensures LastRefusal(None, events, src) == Some(at)
    decreases |events|
  {
    var front, last := events[..|events| - 1], events[|events| - 1];
    assert front + [last] == events && last in events;
    LastSnoc(None, front, last, src);
  }

  lemma {:induction false} ForwardSnoc(from: int, events: seq<Event>, e: Event)
    requires forall x | x in events :: x.at == from
    requires from <= e.at
    ensures ClockForward(from, events + [e])
    decreases |events|
  {
    if events == [] {
      assert [e][1..] == [];
    } else {
      assert (events + [e])[1..] == events[1..] + [e];
      assert events[0] in events && forall x | x in events[1..] :: x in events;
      ForwardSnoc(from, events[1..], e);
    }
  }

  // ------------------------------------------------------------------ every refusal accounted for

  /** The refusals of a source the log tells of: one a detail line, and what its summaries count. */
  function Told(log: seq<Line>, src: Source): nat
    decreases |log|
  {
    if log == [] then 0
    else
      var what := log[|log| - 1].what;
      Told(log[..|log| - 1], src) + (if what.Detail? && what.src == src then 1
                                     else if what.KeySummary? && what.src == src then what.suppressed else 0)
  }

  /** Suppressed so far, and still to be told. */
  function Waiting(s: State, src: Source): nat {
    if src in s.keys then s.keys[src].suppressed else 0
  }

  predicate Full(s: State, l: Bounds) {
    s.win.used >= l.linesPerWindow
  }

  /** The source's refusals that one event drops without telling: a sweep's forgotten count; a refusal from a
      source there is no room to track; a summary, or a detail line, the whole budget has no room for. */
  function Dropped(s: State, l: Bounds, e: Event, src: Source): nat {
    match e
    case Sweep(at) => if src in s.keys && at - s.keys[src].since > 2 * l.windowMs then s.keys[src].suppressed else 0
    case Note(at, from, _) =>
      if from != src then 0
      else
        var rolled := Rolled(s, l, at);
        if src !in rolled.keys && |rolled.keys| >= l.maxKeys then 1
        else
          var reopens := src in rolled.keys && at - rolled.keys[src].since >= l.windowMs;
          var tallied := Tallied(rolled, l, at, src);
          (if reopens && Full(rolled, l) then rolled.keys[src].suppressed else 0)
          + (if tallied.keys[src].used < l.linesPerKey && Full(tallied, l) then 1 else 0)
  }

  function DroppedIn(s: State, l: Bounds, events: seq<Event>, src: Source): nat
    decreases |events|
  {
    if events == [] then 0 else Dropped(s, l, events[0], src) + DroppedIn(Step(s, l, events[0]), l, events[1..], src)
  }

  function Refusals(events: seq<Event>, src: Source): nat
    decreases |events|
  {
    if events == [] then 0
    else (if events[0].Note? && events[0].src == src then 1 else 0) + Refusals(events[1..], src)
  }

  lemma EmittedTells(s: State, l: Bounds, at: int, what: Text, src: Source)
    ensures var r := Emitted(s, l, at, what);
            && r.keys == s.keys
            && Told(r.log, src) == Told(s.log, src)
                 + (if Full(s, l) then 0
                    else if what.Detail? && what.src == src then 1
                    else if what.KeySummary? && what.src == src then what.suppressed else 0)
  {
    assert (s.log + [Line(at, what)])[..|s.log|] == s.log;
  }

  lemma RolledTellsNothing(s: State, l: Bounds, at: int, src: Source)
    ensures Told(Rolled(s, l, at).log, src) == Told(s.log, src) && Rolled(s, l, at).keys == s.keys
  {
    if at - s.win.since >= l.windowMs {
      EmittedTells(s.(win := Tally(at, 0, 0)), l, at, WindowSummary(s.win.suppressed, at - s.win.since), src);
      EmittedTells(Renewed(s, l, at).(overflow := map[]), l, at, Untracked(s.overflow), src);
    }
  }

  lemma TalliedTells(s: State, l: Bounds, at: int, from: Source, src: Source)
    ensures var r := Tallied(s, l, at, from);
            var reopens := from == src && src in s.keys && at - s.keys[src].since >= l.windowMs;
            && from in r.keys
            && Told(r.log, src) + Waiting(r, src) + (if reopens && Full(s, l) then s.keys[src].suppressed else 0)
               == Told(s.log, src) + Waiting(s, src)
  {
    if from in s.keys && at - s.keys[from].since >= l.windowMs {
      EmittedTells(s, l, at, KeySummary(from, s.keys[from].suppressed, at - s.keys[from].since), src);
    }
  }

  lemma ChargedTells(s: State, l: Bounds, at: int, from: Source, text: string, src: Source)
    requires from in s.keys
    ensures var r := Charged(s, l, at, from, text);
            Told(r.log, src) + Waiting(r, src)
            + (if from == src && s.keys[from].used < l.linesPerKey && Full(s, l) then 1 else 0)
            == Told(s.log, src) + Waiting(s, src) + if from == src then 1 else 0
  {
    var t := s.keys[from];
    EmittedTells(s.(keys := s.keys[from := t.(used := t.used + 1)]), l, at, Detail(from, text), src);
  }

  lemma StepAccounts(s: State, l: Bounds, e: Event, src: Source)
    ensures var r := Step(s, l, e);
            Told(r.log, src) + Waiting(r, src) + Dropped(s, l, e, src)
            == Told(s.log, src) + Waiting(s, src) + if e.Note? && e.src == src then 1 else 0
  {
    match e
    case Sweep(at) => RolledTellsNothing(Quieted(s, l, at), l, at, src);
    case Note(at, from, text) =>
      RolledTellsNothing(s, l, at, src);
      var rolled := Rolled(s, l, at);
      if from in rolled.keys || |rolled.keys| < l.maxKeys {
        TalliedTells(rolled, l, at, from, src);
        ChargedTells(Tallied(rolled, l, at, from), l, at, from, text, src);
      }
  }

  lemma {:induction false} RunAccounts(s: State, l: Bounds, events: seq<Event>, src: Source)
    ensures var r := Run(s, l, events);
            Told(r.log, src) + Waiting(r, src) + DroppedIn(s, l, events, src)
            == Told(s.log, src) + Waiting(s, src) + Refusals(events, src)
    decreases |events|
  {
    if events != [] {
      StepAccounts(s, l, events[0], src);
      RunAccounts(Step(s, l, events[0]), l, events[1..], src);
    }
  }

  /** In every run, each refusal of a source is in a logged detail line, in a logged summary, in the source's
      own tally, or in one of the four named drops: forgotten by a sweep, never tracked, or its summary or its
      line swallowed by the whole budget. */
  lemma EveryRefusalIsAccounted(l: Bounds, openedAt: int, events: seq<Event>, src: Source)
    ensures var r := Run(Opened(openedAt), l, events);
            Told(r.log, src) + Waiting(r, src) + DroppedIn(Opened(openedAt), l, events, src) == Refusals(events, src)
  {
    RunAccounts(Opened(openedAt), l, events, src);
  }

  class RelayDiag {
    const limits: Bounds
    var keys: map<Source, Tally>
    var overflow: map<string, nat>
    var win: Tally
    var log: seq<Line>

    ghost function Value(): State
      reads this
    {
      State(keys, overflow, win, log)
    }

    constructor (limits: Bounds, at: int)
      ensures Value() == Opened(at) && this.limits == limits
    {
      this.limits := limits;
      keys, overflow, win, log := map[], map[], Tally(at, 0, 0), [];
    }

    method Emit(what: Text, at: int) returns (shown: bool)
      modifies this`win, this`log
      ensures Value() == Emitted(old(Value()), limits, at, what)
      ensures shown <==> log != old(log)
    {
      if win.used >= limits.linesPerWindow {
        win := win.(suppressed := win.suppressed + 1);
        return false;
      }
      win := win.(used := win.used + 1);
      log := log + [Line(at, what)];
      return true;
    }

    method RollWindow(at: int)
      modifies this`win, this`log, this`overflow
      ensures Value() == Rolled(old(Value()), limits, at)
    {
      if at - win.since < limits.windowMs {
        return;
      }
      var previous := win;
      win := Tally(at, 0, 0);
      if previous.suppressed > 0 {
        var _ := Emit(WindowSummary(previous.suppressed, at - previous.since), at);
      }
      if overflow != map[] {
        var parts := overflow;
        overflow := map[];
        var _ := Emit(Untracked(parts), at);
      }
    }

    /** One refused datagram. */
    method Note(at: int, src: Source, text: string)
      modifies this
      ensures Value() == Noted(old(Value()), limits, at, src, text)
    {
      RollWindow(at);
      if src !in keys {
        if |keys| >= limits.maxKeys {
          overflow := overflow[src.reason := (if src.reason in overflow then overflow[src.reason] else 0) + 1];
          return;
        }
        keys := keys[src := Tally(at, 0, 0)];
      } else if at - keys[src].since >= limits.windowMs {
        if keys[src].suppressed > 0 {
          var _ := Emit(KeySummary(src, keys[src].suppressed, at - keys[src].since), at);
        }
        keys := keys[src := Tally(at, 0, 0)];
      }
      Charge(at, src, text);
    }

    method Charge(at: int, src: Source, text: string)
      requires src in keys
      modifies this
      ensures Value() == Charged(old(Value()), limits, at, src, text)
    {
      var t := keys[src];
      if t.used >= limits.linesPerKey {
        keys := keys[src := t.(suppressed := t.suppressed + 1)];
        return;
      }
      keys := keys[src := t.(used := t.used + 1)];
      var _ := Emit(Detail(src, text), at);
    }

    /** Forgets sources whose tally was opened more than two windows ago, then rolls the window. */
    method Sweep(at: int)
      modifies this
      ensures Value() == Swept(old(Value()), limits, at)
    {
      var rest := keys.Keys;
      while rest != {}
        invariant keys.Keys <= old(keys).Keys && rest <= keys.Keys
        invariant forall src | src in keys :: keys[src] == old(keys)[src]
        invariant forall src | src in old(keys) && src !in rest ::
                    src in keys <==> at - old(keys)[src].since <= 2 * limits.windowMs
        invariant win == old(win) && log == old(log) && overflow == old(overflow)
        decreases rest
      {
        var src :| src in rest;
        rest := rest - {src};
        if at - keys[src].since > 2 * limits.windowMs {
          keys := keys - {src};
        }
      }
      assert keys == Quieted(old(Value()), limits, at).keys;
      RollWindow(at);
    }
  }
}
