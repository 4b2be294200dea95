/** The clipboard-image pull transfer gets there: from every reachable state in which the receiver pulls what
    the sender serves, whatever was lost, repeated or reordered before, delivering what is asked and answered
    completes the transfer. */
module ClipProgress {
  import opened Common
  import opened ClipTransfer
  import opened ClipNetwork
  import BulkGen

  /** Both ends are at the same transfer, under the same tags. */
  predicate InStep(y: System) {
    && y.r.phase.Pulling? && y.s.phase.Serving?
    && y.s.offer.transferId == y.r.id.offer.transferId && y.s.epochTag == y.r.id.epochTag
    && y.s.bulkGen == y.r.id.bulkGen
  }

  predicate AsksFor(p: Pull, r: Receiver, x: Range) {
    p.transferId == r.id.offer.transferId && p.epochTag == r.id.epochTag && p.bulkGen == r.id.bulkGen && p.range == x
  }

  ghost predicate PullSent(pulls: set<Pull>, r: Receiver, x: Range) {
    exists p | p in pulls :: AsksFor(p, r, x)
  }

  /** Every range waited for has been asked for. */
  ghost predicate AllAsked(y: System) {
    y.r.phase.Pulling? ==> forall x | x in y.r.progress.outstanding :: PullSent(y.pulls, y.r, x)
  }

  lemma IssueKeepsAsked(y: System, trigger: nat)
    requires AllAsked(y)
    ensures AllAsked(PullIssued(y, trigger))
  {
    var pull := PullOf(y.r, trigger);
    if pull.Some? {
      var next := PullIssued(y, trigger);
      forall x | x in next.r.progress.outstanding ensures PullSent(next.pulls, next.r, x) {
        if x in y.r.progress.outstanding {
          var p :| p in y.pulls && AsksFor(p, y.r, x);
          assert p in next.pulls && AsksFor(p, next.r, x);
        } else {
          assert pull.value in next.pulls && AsksFor(pull.value, next.r, x);
        }
      }
    }
  }

  lemma ChunkKeepsAsked(y: System, c: Chunk, now: nat)
    requires AllAsked(y)
    ensures AllAsked(ChunkDelivered(y, c, now))
  {
    if Asked(y.r, c) {
      var next := ChunkDelivered(y, c, now);
      var k := WithoutIsRemoval(y.r.progress.outstanding, c.range);
      forall x | x in next.r.progress.outstanding ensures PullSent(next.pulls, next.r, x) {
        assert x in y.r.progress.outstanding;
        var p :| p in y.pulls && AsksFor(p, y.r, x);
        assert AsksFor(p, next.r, x);
      }
    }
  }

  /** A step that leaves what the receiver waits for, or ends its pulling. */
  lemma OtherKeepsAsked(y: System, next: System)
    requires AllAsked(y) && y.pulls <= next.pulls
    requires next.r.phase.Pulling? ==>
               (y.r.phase.Pulling? && next.r.id == y.r.id && next.r.progress == y.r.progress)
               || next.r.progress.outstanding == []
    ensures AllAsked(next)
  {
    if next.r.phase.Pulling? {
      forall x | x in next.r.progress.outstanding ensures PullSent(next.pulls, next.r, x) {
        var p :| p in y.pulls && AsksFor(p, y.r, x);
        assert p in next.pulls && AsksFor(p, next.r, x);
      }
    }
  }

  lemma StepKeepsAsked(y: System, e: Event)
    requires AllAsked(y)
    ensures AllAsked(Step(y, e))
  {
    match e
    case IssuePull(trigger) => IssueKeepsAsked(y, trigger);
    case DeliverChunk(c, now) =>
      if c in y.chunks {
        ChunkKeepsAsked(y, c, now);
      }
    case DeliverOffer(o, epoch, enabled, localSeq, allocOk, now) =>
      if o in y.offers {
        OtherKeepsAsked(y, OfferDelivered(y, o, epoch, enabled, localSeq, allocOk, now));
      }
    case _ => OtherKeepsAsked(y, Step(y, e));
  }

  lemma {:induction false} RunKeepsAsked(y: System, events: seq<Event>)
    requires AllAsked(y)
    ensures AllAsked(Run(y, events))
    decreases |events|
  {
    if events != [] {
      StepKeepsAsked(y, events[0]);
      RunKeepsAsked(Step(y, events[0]), events[1..]);
    }
  }

  lemma {:induction false} RunAppend(y: System, a: seq<Event>, b: seq<Event>)
    ensures Run(y, a + b) == Run(Run(y, a), b)
    decreases |a|
  {
    if a == [] {
      assert a + b == b;
    } else {
      assert (a + b)[1..] == a[1..] + b;
      RunAppend(Step(y, a[0]), a[1..], b);
    }
  }

  lemma RunOne(y: System, e: Event)
    ensures Run(y, [e]) == Step(y, e)
  {
    assert [e][1..] == [];
  }

  /** The transfer went on: more bytes are in, or all of them. */
  ghost predicate Advanced(before: System, after: System) {
    && Invariant(after) && AllAsked(after) && after.began == before.began && after.r.id == before.r.id
    && |after.r.package| == |before.r.package|
    && (after.r.phase.Verifying? || (InStep(after) && after.r.progress.received > before.r.progress.received))
  }

  /** A pull of a range still waited for, delivered to the sender, is answered with that range's chunk. */
  lemma PullIsAnswered(y: System, p: Pull, x: Range, now: nat) returns (c: Chunk)
    requires Invariant(y) && AllAsked(y) && InStep(y)
    requires p in y.pulls && x in y.r.progress.outstanding && AsksFor(p, y.r, x)
    ensures var next := Step(y, DeliverPull(p, now));
            && Invariant(next) && AllAsked(next) && InStep(next) && next.r == y.r && next.began == y.began
            && c in next.chunks && Asked(next.r, c) && c.range == x
  {
    AnswerKeeps(y, p, now);
    StepKeepsAsked(y, DeliverPull(p, now));
    var i :| 0 <= i < |y.r.progress.outstanding| && y.r.progress.outstanding[i] == x;
    assert y.r.progress.outstanding[i].len > 0 && EndOf(y.r.progress.outstanding[i]) <= y.r.progress.nextOffset;
    assert |y.s.package| == |y.r.package|;
    assert Answerable(y.s, p);
    c := OnPull(y.s, p, now).1.value;
  }

  lemma AnswerArrives(y: System, c: Chunk, now: nat)
    requires Invariant(y) && AllAsked(y) && InStep(y) && c in y.chunks && Asked(y.r, c)
    ensures Advanced(y, Step(y, DeliverChunk(c, now)))
  {
    ChunkKeeps(y, c, now);
    ChunkKeepsAsked(y, c, now);
  }

  /** What keeps a transfer going, and nothing else: asking, and delivering what was asked and answered. */
  predicate Delivers(e: Event) {
    e.IssuePull? || e.DeliverPull? || e.DeliverChunk?
  }

  /** One range: its pull reaches the sender, the answer reaches the receiver. */
  lemma RangeArrives(y: System, x: Range, now: nat) returns (events: seq<Event>)
    requires Invariant(y) && AllAsked(y) && InStep(y) && x in y.r.progress.outstanding
    ensures |events| == 2 && forall e | e in events :: Delivers(e)
    ensures Advanced(y, Run(y, events))
  {
    var p :| p in y.pulls && AsksFor(p, y.r, x);
    var c := PullIsAnswered(y, p, x, now);
    var next := Step(y, DeliverPull(p, now));
    AnswerArrives(next, c, now);
    events := [DeliverPull(p, now)] + [DeliverChunk(c, now)];
    RunAppend(y, [DeliverPull(p, now)], [DeliverChunk(c, now)]);
    RunOne(y, DeliverPull(p, now));
    RunOne(next, DeliverChunk(c, now));
  }

  lemma PullIsIssued(y: System)
    requires Invariant(y) && AllAsked(y) && InStep(y) && y.r.progress.outstanding == []
    ensures var next := Step(y, IssuePull(NO_TRIGGER));
            && Invariant(next) && AllAsked(next) && InStep(next) && next.began == y.began && next.r.id == y.r.id
            && next.r.package == y.r.package && next.r.progress.received == y.r.progress.received
            && next.r.progress.outstanding != []
  {
    SomethingCanBeAsked(y);
    PullKeeps(y, NO_TRIGGER);
    IssueKeepsAsked(y, NO_TRIGGER);
  }

  /** Asking for the next range is no step back. */
  lemma AdvancedFromAsk(y: System, next: System, after: System)
    requires Advanced(next, after) && next.began == y.began && next.r.id == y.r.id
    requires |next.r.package| == |y.r.package| && next.r.progress.received == y.r.progress.received
    ensures Advanced(y, after)
  {
  }

  lemma AskedAndArrived(y: System, now: nat) returns (events: seq<Event>)
    requires Invariant(y) && AllAsked(y) && InStep(y) && y.r.progress.outstanding == []
    ensures |events| <= 3 && forall e | e in events :: Delivers(e)
    ensures Advanced(y, Run(y, events))
  {
    PullIsIssued(y);
    var next := Step(y, IssuePull(NO_TRIGGER));
    var rest := RangeArrives(next, next.r.progress.outstanding[0], now);
    RunAppend(y, [IssuePull(NO_TRIGGER)], rest);
    RunOne(y, IssuePull(NO_TRIGGER));
    AdvancedFromAsk(y, next, Run(next, rest));
    events := [IssuePull(NO_TRIGGER)] + rest;
  }

  /** One more range: the first one waited for, or the next one asked for. */
  lemma OneMoreRange(y: System, now: nat) returns (events: seq<Event>)
    requires Invariant(y) && AllAsked(y) && InStep(y)
    ensures |events| <= 3 && forall e | e in events :: Delivers(e)
    ensures Advanced(y, Run(y, events))
  {
    if y.r.progress.outstanding != [] {
      events := RangeArrives(y, y.r.progress.outstanding[0], now);
    } else {
      events := AskedAndArrived(y, now);
    }
  }

  lemma {:induction false} DeliveriesComplete(y: System, now: nat) returns (events: seq<Event>)
    requires Invariant(y) && AllAsked(y) && InStep(y)
    ensures |events| <= 3 * (|y.r.package| - y.r.progress.received) && forall e | e in events :: Delivers(e)
    ensures var last := Run(y, events);
            && last.r.phase.Verifying? && last.r.id == y.r.id && last.began == y.began && Invariant(last)
    decreases |y.r.package| - y.r.progress.received
  {
    assert Tiled(y.r.progress, y.accepted, |y.r.package|);
    events := OneMoreRange(y, now);
    var next := Run(y, events);
    if !next.r.phase.Verifying? {
      var rest := DeliveriesComplete(next, now);
      RunAppend(y, events, rest);
      events := events + rest;
    }
  }

  /** From every state that any run reaches, if both ends are at the same transfer: asking and delivering, a
      bounded number of times and nothing else, leaves the receiver with the whole package, byte for byte
      what the sender began with. No history -- lost, duplicated, reordered or stale -- can wedge it. */
  lemma TransferCanComplete(processRandom: nat, pullWindow: nat, seed: BulkGen.Word32, history: seq<Event>, now: nat)
    returns (events: seq<Event>)
    requires InStep(Run(Start(processRandom, pullWindow, seed), history))
    ensures forall e | e in events :: Delivers(e)
    ensures var y := Run(Start(processRandom, pullWindow, seed), history);
            var last := Run(Start(processRandom, pullWindow, seed), history + events);
            && |events| <= 3 * |y.r.package|
            && last.r.phase.Verifying? && last.r.id == y.r.id
            && y.s.offer.transferId in y.began && last.r.package == y.began[y.s.offer.transferId] == y.s.package
  {
    var start := Start(processRandom, pullWindow, seed);
    var y := Run(start, history);
    RunKeeps(start, history);
    RunKeepsAsked(start, history);
    events := DeliveriesComplete(y, now);
    RunAppend(start, history, events);
  }
}
