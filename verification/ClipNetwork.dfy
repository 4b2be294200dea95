/** The viewer's sender and the host's receiver over a network that keeps every message ever sent and
    delivers any of them, any number of times, in any order, or never. Each package has its own transfer
    id; any number of transfers follow one another. */
module ClipNetwork {
  import opened Common
  import opened ClipTransfer
  import BulkGen

  datatype System = System(
    r: Receiver, s: Sender,
    offers: set<Offer>, replies: set<OfferReply>, pulls: set<Pull>, chunks: set<Chunk>,
    began: map<nat, seq<Byte>>,   // the package each transfer id was begun with
    accepted: seq<Range>,         // the ranges accepted for the receiver's current transfer
    pullCount: nat)               // and the pulls issued for it

  function Start(processRandom: nat, pullWindow: nat, seed: BulkGen.Word32): System {
    System(NewReceiver(processRandom, pullWindow, seed), NEW_SENDER, {}, {}, {}, {}, map[], [], 0)
  }

  datatype Event =
    | BeginTransfer(package: seq<Byte>, offer: Offer, now: nat)
    | DeliverOffer(offer: Offer, sessionEpoch: nat, enabled: bool, localSeq: nat, allocOk: bool, now: nat)
    | DeliverReply(reply: OfferReply)
    | IssuePull(triggerOffset: nat)
    | DeliverPull(pull: Pull, now: nat)
    | DeliverChunk(chunk: Chunk, now: nat)
    | EndSender
    | TickReceiver(now: nat)
    | CancelTransfer(transferId: nat, epochTag: nat, why: Reason)
    | EndSession
    | StartPublishing
    | FinishTransfer(phase: Phase, why: Reason)
    | SetChunkBytes(n: nat)

  predicate Terminal(phase: Phase) {
    phase.Published? || phase.Failed? || phase.Cancelled? || phase.Superseded?
  }

  /** Steps that cannot happen -- a message never sent, an id used before -- change nothing. */
  function Step(y: System, e: Event): System {
    match e
    case BeginTransfer(package, offer, now) =>
      if offer.transferId in y.began || |package| != PackageBytes(offer) then y
      else y.(s := Begin(package, offer, now), offers := y.offers + {offer},
               began := y.began[offer.transferId := package])
    case DeliverOffer(offer, epoch, enabled, localSeq, allocOk, now) =>
      if offer !in y.offers then y else OfferDelivered(y, offer, epoch, enabled, localSeq, allocOk, now)
    case DeliverReply(reply) => if reply !in y.replies then y else y.(s := OnOfferReply(y.s, reply).0)
    case IssuePull(trigger) => PullIssued(y, trigger)
    case DeliverPull(pull, now) =>
      if pull !in y.pulls then y
      else
        var (s, chunk, _) := OnPull(y.s, pull, now);
        y.(s := s, chunks := if chunk.Some? then y.chunks + {chunk.value} else y.chunks)
    case DeliverChunk(chunk, now) => if chunk !in y.chunks then y else ChunkDelivered(y, chunk, now)
    case EndSender => y.(s := SenderEnded(y.s))
    case TickReceiver(now) => y.(r := Tick(y.r, now).0)
    case CancelTransfer(id, tag, why) => y.(r := Cancel(y.r, id, tag, why))
    case EndSession => y.(r := SessionEnd(y.r))
    case StartPublishing => y.(r := BeginPublishing(y.r))
    case FinishTransfer(phase, why) => if Terminal(phase) then y.(r := Finish(y.r, phase, why)) else y
    case SetChunkBytes(n) => y.(r := WithChunkBytes(y.r, n))
  }

  function OfferDelivered(y: System, o: Offer, epoch: nat, enabled: bool, localSeq: nat,
                         allocOk: bool, now: nat): System {
    var verdict := JudgeOffer(y.r, o, enabled, allocOk);
    var r := OnOffer(y.r, o, epoch, enabled, localSeq, allocOk, now);
    var reply := if verdict.Accept? then OfferReply(o.transferId, verdict, r.id.epochTag, r.id.bulkGen)
                 else OfferReply(o.transferId, verdict, 0, 0);
    y.(r := r, replies := y.replies + {reply},
       accepted := if verdict.Accept? then [] else y.accepted, pullCount := if verdict.Accept? then 0 else y.pullCount)
  }

  function PullIssued(y: System, trigger: nat): System {
    var pull := PullOf(y.r, trigger);
    if pull.None? then y
    else y.(r := AfterPull(y.r), pulls := y.pulls + {pull.value}, pullCount := y.pullCount + 1)
  }

  function ChunkDelivered(y: System, c: Chunk, now: nat): System {
    var (r, result) := OnChunk(y.r, c, now);
    y.(r := r, accepted := if result.Dropped? then y.accepted else y.accepted + [c.range])
  }

  function Run(y: System, events: seq<Event>): System
    decreases |events|
  {
    if events == [] then y else Run(Step(y, events[0]), events[1..])
  }

  // ------------------------------------------------------------------ ranges

  function Sum(ranges: seq<Range>): nat
    decreases |ranges|
  {
    if ranges == [] then 0 else Sum(ranges[..|ranges| - 1]) + ranges[|ranges| - 1].len
  }

  function EndOf(x: Range): nat {
    x.offset + x.len
  }

  predicate Apart(x: Range, y: Range) {
    EndOf(x) <= y.offset || EndOf(y) <= x.offset
  }

  predicate Holds(x: Range, i: nat) {
    x.offset <= i < EndOf(x)
  }

  predicate Covered(out: seq<Range>, i: nat) {
    exists k | 0 <= k < |out| :: Holds(out[k], i)
  }

  lemma SumSnoc(ranges: seq<Range>, x: Range)
    ensures Sum(ranges + [x]) == Sum(ranges) + x.len
  {
    assert (ranges + [x])[..|ranges|] == ranges;
  }

  lemma {:induction false} SumJoin(a: seq<Range>, b: seq<Range>)
    ensures Sum(a + b) == Sum(a) + Sum(b)
    decreases |b|
  {
    if b == [] {
      assert a + b == a;
    } else {
      var init := b[..|b| - 1];
      SumJoin(a, init);
      assert (a + b)[..|a + b| - 1] == a + init;
    }
  }

  lemma SumSplit(out: seq<Range>, k: nat)
    requires k < |out|
    ensures Sum(out[..k] + out[k + 1..]) + out[k].len == Sum(out)
  {
    SumJoin(out[..k], out[k + 1..]);
    SumSnoc(out[..k], out[k]);
    SumJoin(out[..k] + [out[k]], out[k + 1..]);
    assert out == out[..k] + [out[k]] + out[k + 1..];
  }

  lemma RemovedBehindHead(out: seq<Range>, x: Range, j: nat)
    requires out != [] && out[0] != x && j < |out[1..]|
    requires Without(out[1..], x) == out[1..][..j] + out[1..][j + 1..]
    ensures Without(out, x) == out[..j + 1] + out[j + 2..]
  {
    assert out[..j + 1] == [out[0]] + out[1..][..j];
    assert out[j + 2..] == out[1..][j + 1..];
    assert [out[0]] + (out[1..][..j] + out[1..][j + 1..]) == [out[0]] + out[1..][..j] + out[1..][j + 1..];
  }

  /** `Without` removes one occurrence and keeps the order of the rest. */
  lemma {:induction false} WithoutIsRemoval(out: seq<Range>, x: Range) returns (k: nat)
    requires x in out
    ensures k < |out| && out[k] == x && Without(out, x) == out[..k] + out[k + 1..]
    ensures Sum(Without(out, x)) + x.len == Sum(out)
  {
    if out[0] == x {
      k := 0;
      assert out[..0] + out[1..] == out[1..];
    } else {
      var i :| 0 < i < |out| && out[i] == x;
      assert out[1..][i - 1] == x;
      var j := WithoutIsRemoval(out[1..], x);
      RemovedBehindHead(out, x, j);
      k := j + 1;
    }
    SumSplit(out, k);
  }

  // ------------------------------------------------------------------ the invariant

  /** Outstanding ranges: non-empty, in the order asked, inside what was asked for. */
  ghost predicate Queued(out: seq<Range>, nextOffset: nat) {
    && (forall i | 0 <= i < |out| :: 0 < out[i].len <= MAX_CHUNK_BYTES && EndOf(out[i]) <= nextOffset)
    && (forall i, j | 0 <= i < j < |out| :: EndOf(out[i]) <= out[j].offset)
  }

  ghost predicate Separate(accepted: seq<Range>, nextOffset: nat) {
    && (forall i | 0 <= i < |accepted| :: EndOf(accepted[i]) <= nextOffset)
    && (forall i, j | 0 <= i < j < |accepted| :: Apart(accepted[i], accepted[j]))
  }

  ghost predicate Disjoint(accepted: seq<Range>, out: seq<Range>) {
    forall i, j | 0 <= i < |accepted| && 0 <= j < |out| :: Apart(accepted[i], out[j])
  }

  /** Accepted and outstanding ranges are pairwise apart and tile [0, nextOffset). */
  ghost predicate Tiled(p: Progress, accepted: seq<Range>, total: nat) {
    && p.nextOffset <= total && p.received < total
    && p.received + Sum(p.outstanding) == p.nextOffset && Sum(accepted) == p.received
    && Queued(p.outstanding, p.nextOffset) && Separate(accepted, p.nextOffset) && Disjoint(accepted, p.outstanding)
  }

  /** Every byte asked for and no longer outstanding is the byte the package began with. */
  ghost predicate Faithful(package: seq<Byte>, p: Progress, original: seq<Byte>) {
    && |package| == |original| && p.nextOffset <= |package|
    && (forall i | 0 <= i < p.nextOffset :: Covered(p.outstanding, i) || package[i] == original[i])
  }

  ghost predicate Counted(p: Progress, pullCount: nat, total: nat) {
    && (p.nextOffset < total ==> pullCount * CHUNK_BYTES <= p.nextOffset)
    && pullCount * CHUNK_BYTES < total + CHUNK_BYTES
  }

  ghost predicate ReceiverOk(r: Receiver, accepted: seq<Range>, pullCount: nat, began: map<nat, seq<Byte>>) {
    && CHUNK_BYTES <= r.chunkBytes <= MAX_CHUNK_BYTES && 1 <= r.pullWindow <= PULL_WINDOW_MAX
    && (Active(r.phase) ==> r.id.offer.transferId in began)
    && (r.phase.Pulling? ==>
          && |r.progress.outstanding| <= r.pullWindow
          && Tiled(r.progress, accepted, |r.package|)
          && Counted(r.progress, pullCount, |r.package|)
          && Faithful(r.package, r.progress, began[r.id.offer.transferId]))
    && (r.phase.Verifying? || r.phase.Publishing? ==> r.package == began[r.id.offer.transferId])
  }

  ghost predicate SenderOk(s: Sender, began: map<nat, seq<Byte>>) {
    !s.phase.Idle? ==> s.offer.transferId in began && began[s.offer.transferId] == s.package
  }

  /** Every chunk ever sent carries its own transfer's bytes. */
  ghost predicate Genuine(c: Chunk, began: map<nat, seq<Byte>>) {
    && c.transferId in began && EndOf(c.range) <= |began[c.transferId]|
    && c.data == began[c.transferId][c.range.offset..EndOf(c.range)]
  }

  ghost predicate NetworkOk(offers: set<Offer>, chunks: set<Chunk>, began: map<nat, seq<Byte>>) {
    && (forall o | o in offers :: o.transferId in began && |began[o.transferId]| == PackageBytes(o))
    && (forall c | c in chunks :: Genuine(c, began))
  }

  ghost predicate Invariant(y: System) {
    && ReceiverOk(y.r, y.accepted, y.pullCount, y.began)
    && SenderOk(y.s, y.began)
    && NetworkOk(y.offers, y.chunks, y.began)
  }

  lemma BeginKeeps(y: System, package: seq<Byte>, offer: Offer, now: nat)
    requires Invariant(y)
    ensures Invariant(Step(y, BeginTransfer(package, offer, now)))
  {
  }

  lemma OfferKeeps(y: System, o: Offer, epoch: nat, enabled: bool, localSeq: nat, allocOk: bool, now: nat)
    requires Invariant(y) && o in y.offers
    ensures Invariant(OfferDelivered(y, o, epoch, enabled, localSeq, allocOk, now))
  {
    if JudgeOffer(y.r, o, enabled, allocOk).Accept? {
      AcceptedOfferFits(o);
    }
  }

  lemma PullQueues(out: seq<Range>, accepted: seq<Range>, nextOffset: nat, len: nat)
    requires Queued(out, nextOffset) && Separate(accepted, nextOffset) && Disjoint(accepted, out)
    requires 0 < len <= MAX_CHUNK_BYTES
    ensures Queued(out + [Range(nextOffset, len)], nextOffset + len)
    ensures Separate(accepted, nextOffset + len)
    ensures Disjoint(accepted, out + [Range(nextOffset, len)])
  {
  }

  lemma PullTiles(p: Progress, accepted: seq<Range>, total: nat, len: nat)
    requires Tiled(p, accepted, total) && 0 < len <= MAX_CHUNK_BYTES && p.nextOffset + len <= total
    ensures Tiled(Progress(p.received, p.nextOffset + len, p.outstanding + [Range(p.nextOffset, len)]), accepted, total)
  {
    SumSnoc(p.outstanding, Range(p.nextOffset, len));
    PullQueues(p.outstanding, accepted, p.nextOffset, len);
  }

  lemma PullFaithful(package: seq<Byte>, p: Progress, original: seq<Byte>, len: nat)
    requires Faithful(package, p, original) && p.nextOffset + len <= |package|
    ensures Faithful(package, Progress(p.received, p.nextOffset + len, p.outstanding + [Range(p.nextOffset, len)]),
                     original)
  {
    var x := Range(p.nextOffset, len);
    forall i | 0 <= i < p.nextOffset + len ensures Covered(p.outstanding + [x], i) || package[i] == original[i] {
      assert (p.outstanding + [x])[|p.outstanding|] == x;
      if i < p.nextOffset && Covered(p.outstanding, i) {
        var k :| 0 <= k < |p.outstanding| && Holds(p.outstanding[k], i);
        assert Holds((p.outstanding + [x])[k], i);
      }
    }
  }

  lemma PullKeepsReceiver(r: Receiver, accepted: seq<Range>, pullCount: nat, began: map<nat, seq<Byte>>, trigger: nat)
    requires ReceiverOk(r, accepted, pullCount, began) && PullOf(r, trigger).Some?
    ensures ReceiverOk(AfterPull(r), accepted, pullCount + 1, began)
  {
    var len := PullOf(r, trigger).value.range.len;
    var next := AfterPull(r);
    PullTiles(r.progress, accepted, |r.package|, len);
    PullFaithful(r.package, r.progress, began[r.id.offer.transferId], len);
    assert next == r.(progress := Progress(r.progress.received, r.progress.nextOffset + len,
                                           r.progress.outstanding + [Range(r.progress.nextOffset, len)]));
    assert Counted(next.progress, pullCount + 1, |r.package|);
  }

  lemma PullKeeps(y: System, trigger: nat)
    requires Invariant(y)
    ensures Invariant(PullIssued(y, trigger))
  {
    if PullOf(y.r, trigger).Some? {
      PullKeepsReceiver(y.r, y.accepted, y.pullCount, y.began, trigger);
    }
  }

  lemma AnswerKeeps(y: System, pull: Pull, now: nat)
    requires Invariant(y) && pull in y.pulls
    ensures Invariant(Step(y, DeliverPull(pull, now)))
  {
  }

  /** One accepted chunk moves its range from outstanding to accepted. */
  lemma ChunkTiles(p: Progress, accepted: seq<Range>, total: nat, x: Range)
    requires Tiled(p, accepted, total) && x in p.outstanding && p.received + x.len < total
    ensures Tiled(Progress(p.received + x.len, p.nextOffset, Without(p.outstanding, x)), accepted + [x], total)
  {
    var k := WithoutIsRemoval(p.outstanding, x);
    SumSnoc(accepted, x);
    WithoutKeepsOrder(p.outstanding, p.nextOffset, k);
    MoveStaysDisjoint(accepted, p.outstanding, p.nextOffset, k);
  }

  lemma WithoutKeepsOrder(out: seq<Range>, nextOffset: nat, k: nat)
    requires Queued(out, nextOffset) && k < |out|
    ensures Queued(out[..k] + out[k + 1..], nextOffset)
    ensures Disjoint([out[k]], out[..k] + out[k + 1..])
    ensures out[k] !in out[..k] + out[k + 1..]
  {
    var rest := out[..k] + out[k + 1..];
    assert forall i | 0 <= i < |rest| :: rest[i] == out[if i < k then i else i + 1];
  }

  lemma MoveStaysDisjoint(accepted: seq<Range>, out: seq<Range>, nextOffset: nat, k: nat)
    requires Queued(out, nextOffset) && Separate(accepted, nextOffset) && Disjoint(accepted, out) && k < |out|
    ensures Separate(accepted + [out[k]], nextOffset)
    ensures Disjoint(accepted + [out[k]], out[..k] + out[k + 1..])
  {
    WithoutKeepsOrder(out, nextOffset, k);
    var rest := out[..k] + out[k + 1..];
    assert forall i | 0 <= i < |rest| :: rest[i] == out[if i < k then i else i + 1];
    assert forall i | 0 <= i < |accepted| :: Apart(accepted[i], out[k]);
  }

  /** A byte still waited for after `x` is removed: one of the others holds it. */
  lemma StillCovered(out: seq<Range>, k: nat, i: nat)
    requires k < |out| && Covered(out, i) && !Holds(out[k], i)
    ensures Covered(out[..k] + out[k + 1..], i)
  {
    var rest := out[..k] + out[k + 1..];
    var j :| 0 <= j < |out| && Holds(out[j], i);
    assert rest[if j < k then j else j - 1] == out[j];
  }

  lemma SplicedByte(package: seq<Byte>, offset: nat, data: seq<Byte>, i: nat)
    requires offset + |data| <= |package| && i < |package|
    ensures Splice(package, offset, data)[i] == if offset <= i < offset + |data| then data[i - offset] else package[i]
  {
  }

  /** A byte asked for, after `x` arrived: still waited for, or the original's. */
  lemma ByteStaysFaithful(package: seq<Byte>, out: seq<Range>, original: seq<Byte>, k: nat, data: seq<Byte>, i: nat)
    requires k < |out| && EndOf(out[k]) <= |package| == |original| && i < |package|
    requires data == original[out[k].offset..EndOf(out[k])]
    requires Covered(out, i) || package[i] == original[i]
    ensures Covered(out[..k] + out[k + 1..], i) || Splice(package, out[k].offset, data)[i] == original[i]
  {
    SplicedByte(package, out[k].offset, data, i);
    if Holds(out[k], i) {
      assert data[i - out[k].offset] == original[i];
    } else if Covered(out, i) {
      StillCovered(out, k, i);
    }
  }

  lemma ChunkFaithful(package: seq<Byte>, p: Progress, original: seq<Byte>, x: Range, data: seq<Byte>, received: nat)
    requires Faithful(package, p, original) && x in p.outstanding
    requires EndOf(x) <= |package| && |data| == x.len && data == original[x.offset..EndOf(x)]
    ensures Faithful(Splice(package, x.offset, data), Progress(received, p.nextOffset, Without(p.outstanding, x)),
                     original)
  {
    var k := WithoutIsRemoval(p.outstanding, x);
    var out := Without(p.outstanding, x);
    var after := Splice(package, x.offset, data);
    forall i | 0 <= i < p.nextOffset ensures Covered(out, i) || after[i] == original[i] {
      ByteStaysFaithful(package, p.outstanding, original, k, data, i);
    }
  }

  /** When every byte has been received nothing is outstanding and nothing is left to ask for. */
  lemma LastChunkLeavesNothing(p: Progress, accepted: seq<Range>, total: nat, x: Range)
    requires Tiled(p, accepted, total) && x in p.outstanding && p.received + x.len == total
    ensures Without(p.outstanding, x) == [] && p.nextOffset == total
  {
    var k := WithoutIsRemoval(p.outstanding, x);
    WithoutKeepsOrder(p.outstanding, p.nextOffset, k);
    if Without(p.outstanding, x) != [] {
      assert false;
    }
  }

  lemma ChunkKeepsReceiver(y: System, c: Chunk, now: nat)
    requires Invariant(y) && c in y.chunks && Asked(y.r, c)
    ensures var r := OnChunk(y.r, c, now).0;
            ReceiverOk(r, y.accepted + [c.range], y.pullCount, y.began)
  {
    var p := y.r.progress;
    var original := y.began[c.transferId];
    assert Genuine(c, y.began);
    var after := Splice(y.r.package, c.range.offset, c.data);
    ChunkFaithful(y.r.package, p, original, c.range, c.data, p.received + c.range.len);
    var k := WithoutIsRemoval(p.outstanding, c.range);
    if p.received + c.range.len == |y.r.package| {
      LastChunkLeavesNothing(p, y.accepted, |y.r.package|, c.range);
      assert forall i | 0 <= i < |after| :: !Covered(Without(p.outstanding, c.range), i);
      assert after == original;
    } else {
      assert p.received + c.range.len < |y.r.package|;
      ChunkTiles(p, y.accepted, |y.r.package|, c.range);
    }
  }

  lemma ChunkKeeps(y: System, c: Chunk, now: nat)
    requires Invariant(y) && c in y.chunks
    ensures Invariant(ChunkDelivered(y, c, now))
  {
    if Asked(y.r, c) {
      ChunkKeepsReceiver(y, c, now);
    }
  }

  lemma StepKeeps(y: System, e: Event)
    requires Invariant(y)
    ensures Invariant(Step(y, e))
  {
    match e
    case BeginTransfer(package, offer, now) => BeginKeeps(y, package, offer, now);
    case DeliverOffer(o, epoch, enabled, localSeq, allocOk, now) =>
      if o in y.offers {
        OfferKeeps(y, o, epoch, enabled, localSeq, allocOk, now);
      }
    case IssuePull(trigger) => PullKeeps(y, trigger);
    case DeliverPull(pull, now) =>
      if pull in y.pulls {
        AnswerKeeps(y, pull, now);
      }
    case DeliverChunk(c, now) =>
      if c in y.chunks {
        ChunkKeeps(y, c, now);
      }
    case _ =>
  }

  lemma {:induction false} RunKeeps(y: System, events: seq<Event>)
    requires Invariant(y)
    ensures Invariant(Run(y, events))
    decreases |events|
  {
    if events != [] {
      StepKeeps(y, events[0]);
      RunKeeps(Step(y, events[0]), events[1..]);
    }
  }

  // ------------------------------------------------------------------ what every run gives

  /** Whenever OnChunk returns Complete, in any run over any such network, the receiver holds byte for byte
      the package the sender began with for that transfer id -- and goes on holding it until it is done
      verifying and publishing. */
  lemma CompleteMeansWhole(processRandom: nat, pullWindow: nat, seed: BulkGen.Word32, events: seq<Event>,
                           c: Chunk, now: nat)
    requires var y := Run(Start(processRandom, pullWindow, seed), events);
             c in y.chunks && OnChunk(y.r, c, now).1.Complete?
    ensures var y := Run(Start(processRandom, pullWindow, seed), events);
            var r := OnChunk(y.r, c, now).0;
            && r.phase.Verifying? && r.id.offer.transferId == c.transferId
            && c.transferId in y.began && r.package == y.began[c.transferId]
  {
    RunKeeps(Start(processRandom, pullWindow, seed), events);
    var y := Run(Start(processRandom, pullWindow, seed), events);
    ChunkKeeps(y, c, now);
  }

  lemma HeldPackageIsWhole(processRandom: nat, pullWindow: nat, seed: BulkGen.Word32, events: seq<Event>)
    ensures var y := Run(Start(processRandom, pullWindow, seed), events);
            y.r.phase.Verifying? || y.r.phase.Publishing? ==>
              y.r.id.offer.transferId in y.began && y.r.package == y.began[y.r.id.offer.transferId]
  {
    RunKeeps(Start(processRandom, pullWindow, seed), events);
  }

  lemma CeilBound(n: nat, total: nat)
    requires n * CHUNK_BYTES < total + CHUNK_BYTES
    ensures n <= (total + CHUNK_BYTES - 1) / CHUNK_BYTES
  {
  }

  lemma JoinedApart(accepted: seq<Range>, out: seq<Range>, nextOffset: nat)
    requires Queued(out, nextOffset) && Separate(accepted, nextOffset) && Disjoint(accepted, out)
    ensures forall i, j | 0 <= i < j < |accepted + out| :: Apart((accepted + out)[i], (accepted + out)[j])
  {
    var all := accepted + out;
    forall i, j | 0 <= i < j < |all| ensures Apart(all[i], all[j]) {
      if j < |accepted| {
        assert all[i] == accepted[i] && all[j] == accepted[j];
      } else if i < |accepted| {
        assert all[i] == accepted[i] && all[j] == out[j - |accepted|];
      } else {
        assert EndOf(out[i - |accepted|]) <= out[j - |accepted|].offset;
      }
    }
  }

  lemma SomethingCanBeAsked(y: System)
    requires Invariant(y) && y.r.phase.Pulling? && y.r.progress.outstanding == []
    ensures PullOf(y.r, NO_TRIGGER).Some?
  {
    assert Sum(y.r.progress.outstanding) == 0;
  }

  /** While pulling: received plus outstanding bytes are exactly what was asked for and never more than the
      package; the ranges ever accepted and those outstanding never overlap; at most the window is
      outstanding; the package needs at most ceil(total / 16 KiB) pulls; and something is always
      outstanding or can be asked for. */
  lemma PullingIsAccounted(processRandom: nat, pullWindow: nat, seed: BulkGen.Word32, events: seq<Event>)
    requires Run(Start(processRandom, pullWindow, seed), events).r.phase.Pulling?
    ensures var y := Run(Start(processRandom, pullWindow, seed), events);
            var p := y.r.progress;
            && p.received + Sum(p.outstanding) == p.nextOffset <= |y.r.package|
            && Sum(y.accepted) == p.received < |y.r.package|
            && (forall i, j | 0 <= i < j < |y.accepted + p.outstanding| ::
                  Apart((y.accepted + p.outstanding)[i], (y.accepted + p.outstanding)[j]))
            && |p.outstanding| <= y.r.pullWindow
            && y.pullCount <= (|y.r.package| + CHUNK_BYTES - 1) / CHUNK_BYTES
            && (p.outstanding == [] ==> PullOf(y.r, NO_TRIGGER).Some?)
  {
    RunKeeps(Start(processRandom, pullWindow, seed), events);
    var y := Run(Start(processRandom, pullWindow, seed), events);
    CeilBound(y.pullCount, |y.r.package|);
    JoinedApart(y.accepted, y.r.progress.outstanding, y.r.progress.nextOffset);
    if y.r.progress.outstanding == [] {
      SomethingCanBeAsked(y);
    }
  }

  /** A chunk changes the receiver exactly when it is a range asked for and not yet answered, under the
      current transfer, epoch and generation; each delivery ends that range's turn. */
  lemma ChunkCountsOnce(processRandom: nat, pullWindow: nat, seed: BulkGen.Word32, events: seq<Event>,
                        c: Chunk, now: nat, again: nat)
    ensures var y := Run(Start(processRandom, pullWindow, seed), events);
            var (r, result) := OnChunk(y.r, c, now);
            && (result.Dropped? <==> r == y.r)
            && (result.Dropped? <==> !Asked(y.r, c))
            && OnChunk(r, c, again).1.Dropped?
            && (result.Complete? <==> Asked(y.r, c) && y.r.progress.received + c.range.len == |y.r.package|)
  {
    RunKeeps(Start(processRandom, pullWindow, seed), events);
    var y := Run(Start(processRandom, pullWindow, seed), events);
    if Asked(y.r, c) {
      var k := WithoutIsRemoval(y.r.progress.outstanding, c.range);
      WithoutKeepsOrder(y.r.progress.outstanding, y.r.progress.nextOffset, k);
      assert OnChunk(y.r, c, now).0.progress.received != y.r.progress.received;
    }
  }

  /** The round trip of one pull: a serving sender of the same transfer answers it, and the receiver that
      issued it accepts the answer. */
  lemma PullIsAnsweredAndAccepted(processRandom: nat, pullWindow: nat, seed: BulkGen.Word32, events: seq<Event>,
                                  trigger: nat, now: nat)
    requires var y := Run(Start(processRandom, pullWindow, seed), events);
             && PullOf(y.r, trigger).Some? && y.s.phase.Serving?
             && y.s.offer.transferId == y.r.id.offer.transferId
             && y.s.epochTag == y.r.id.epochTag && y.s.bulkGen == y.r.id.bulkGen
    ensures var y := Run(Start(processRandom, pullWindow, seed), events);
            var pull := PullOf(y.r, trigger).value;
            var answer := OnPull(y.s, pull, now).1;
            && answer.Some? && answer.value.range == pull.range
            && !OnChunk(AfterPull(y.r), answer.value, now).1.Dropped?
  {
    RunKeeps(Start(processRandom, pullWindow, seed), events);
  }

  /** A message of an earlier transfer, epoch or generation -- however late -- changes neither side. */
  lemma StaleMessagesAreInert(r: Receiver, s: Sender, c: Chunk, p: Pull, reply: OfferReply,
                              cancelId: nat, cancelTag: nat,
                              why: Reason, now: nat)
    ensures (c.transferId, c.epochTag, c.bulkGen) != (r.id.offer.transferId, r.id.epochTag, r.id.bulkGen) ==>
              OnChunk(r, c, now) == (r, Dropped)
    ensures (p.transferId, p.epochTag, p.bulkGen) != (s.offer.transferId, s.epochTag, s.bulkGen) ==>
              OnPull(s, p, now) == (s, None, None)
    ensures reply.transferId != s.offer.transferId ==> OnOfferReply(s, reply) == (s, false)
    ensures (cancelId, cancelTag) != (r.id.offer.transferId, r.id.epochTag) ==> Cancel(r, cancelId, cancelTag, why) == r
  {
  }
}
