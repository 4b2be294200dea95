/** The clipboard-image pull transfer (clip_image_transfer.hpp, clip_image_core.hpp): what an offer may be,
    the host's receiver and the viewer's sender. `ClipNetwork` puts the two on a network. */
module ClipTransfer {
  import opened Common
  import BulkGen

  type Byte = bv8

  const CHUNK_BYTES: nat := 16 * 1024
  const MAX_CHUNK_BYTES: nat := 64 * 1024
  const PULL_WINDOW_MAX: nat := 4
  const STALL_US: nat := 30000000
  const TIMEOUT_FLOOR_BPS: nat := 128000
  const TIMEOUT_SLACK_US: nat := 30000000
  const TIMEOUT_CAP_US: nat := 20 * 60 * 1000000
  const NO_TRIGGER: nat := 0xFFFF_FFFF
  const KEPT_SENT: nat := 16

  const MAX_SIDE: nat := 8192
  const MAX_DECODED_BYTES: nat := 64 * 1024 * 1024
  const MAX_PNG_BYTES: nat := 16 * 1024 * 1024
  const MAX_TEXT_BYTES: nat := 2 * 512 * 1024
  const PEAK_BUDGET_BYTES: nat := 100 * 1024 * 1024
  const SLACK_BYTES: nat := 1024 * 1024

  // ------------------------------------------------------------------ offers

  /** `formats`: bit 0 a PNG (always), bit 1 the same copy's UTF-16 text. */
  datatype Offer = Offer(transferId: nat, revision: nat, formats: nat, pngBytes: nat, textUtf16: nat,
                         width: nat, height: nat, sha256: seq<Byte>)

  datatype Gate = Ok | ZeroSize | SideTooLarge | DecodedTooLarge | PngTooLarge | TextTooLarge | PeakTooLarge

  datatype Verdict = Accept | Busy | TooLarge | Disabled | BadDims | BadRequest

  function PackageBytes(o: Offer): nat {
    o.pngBytes + 2 * o.textUtf16
  }

  function TotalTimeoutUs(packageBytes: nat): nat {
    Min(packageBytes * 8 * 1000000 / TIMEOUT_FLOOR_BPS + TIMEOUT_SLACK_US, TIMEOUT_CAP_US)
  }

  function GateOf(w: nat, h: nat, pngBytes: nat, textBytes: nat): Gate {
    var decoded := w * h * 4;
    if w == 0 || h == 0 then ZeroSize
    else if w > MAX_SIDE || h > MAX_SIDE then SideTooLarge
    else if decoded > MAX_DECODED_BYTES then DecodedTooLarge
    else if pngBytes > MAX_PNG_BYTES then PngTooLarge
    else if textBytes > MAX_TEXT_BYTES then TextTooLarge
    else if 2 * pngBytes + textBytes + decoded + SLACK_BYTES > PEAK_BUDGET_BYTES
         || decoded + pngBytes + SLACK_BYTES > PEAK_BUDGET_BYTES then PeakTooLarge
    else Ok
  }

  predicate WellFormed(o: Offer) {
    && o.transferId != 0
    && o.formats % 2 == 1 && o.formats < 4
    && o.pngBytes >= 8
    && (o.formats / 2 % 2 == 1) == (o.textUtf16 > 0)
  }

  function OfferVerdict(o: Offer): Verdict {
    if !WellFormed(o) then BadRequest
    else if o.width == 0 || o.height == 0 then BadDims
    else
      match GateOf(o.width, o.height, o.pngBytes, 2 * o.textUtf16)
      case Ok => Accept
      case ZeroSize => BadDims
      case _ => TooLarge
  }

  /** What an accepted offer costs: every buffer of either side fits the peak budget, and every offset and
      length of its package fits the 32-bit fields that carry them. */
  lemma AcceptedOfferFits(o: Offer)
    requires OfferVerdict(o).Accept?
    ensures 8 <= PackageBytes(o) <= MAX_PNG_BYTES + MAX_TEXT_BYTES < TWO_TO_THE_32
    ensures 2 * o.pngBytes + 2 * o.textUtf16 + o.width * o.height * 4 + SLACK_BYTES <= PEAK_BUDGET_BYTES
    ensures o.width * o.height * 4 + o.pngBytes + SLACK_BYTES <= PEAK_BUDGET_BYTES
    ensures TotalTimeoutUs(PackageBytes(o)) >= TIMEOUT_SLACK_US
  {
  }

  // ------------------------------------------------------------------ messages

  datatype Range = Range(offset: nat, len: nat)

  datatype Pull = Pull(transferId: nat, epochTag: nat, bulkGen: nat, range: Range, triggerOffset: nat,
                       bytesReceived: nat)

  datatype Chunk = Chunk(transferId: nat, epochTag: nat, bulkGen: nat, range: Range, data: seq<Byte>)

  datatype OfferReply = OfferReply(transferId: nat, verdict: Verdict, epochTag: nat, bulkGen: nat)

  // ------------------------------------------------------------------ the receiver

  datatype Phase = Unknown | Pulling | Verifying | Publishing | Published | Failed | Cancelled | Superseded

  datatype Reason = NoReason | Stalled | Timeout | VerifyFailed | DecodeFailed | SizeMismatch | PublishFailed
                  | Session | Limit | User | ByNewerCopy | ColorProfile

  /** Who the current transfer is: what was offered and the tags its bulk messages must carry. */
  datatype Identity = Identity(offer: Offer, epochTag: nat, bulkGen: nat, localSeqAtAccept: nat)

  datatype Progress = Progress(received: nat, nextOffset: nat, outstanding: seq<Range>)

  datatype Times = Times(acceptedUs: nat, lastProgressUs: nat, deadlineUs: nat)

  datatype Receiver = Receiver(
    processRandom: nat, pullWindow: nat, chunkBytes: nat, gens: BulkGen.Allocator,
    id: Identity, package: seq<Byte>, progress: Progress, times: Times,
    phase: Phase, reason: Reason, cancelRequested: bool, cancelReason: Reason)

  const NO_OFFER := Offer(0, 0, 0, 0, 0, 0, 0, [])

  function NewReceiver(processRandom: nat, pullWindow: nat, seed: BulkGen.Word32): Receiver {
    Receiver(processRandom, Max(1, Min(pullWindow, PULL_WINDOW_MAX)), CHUNK_BYTES, BulkGen.Allocator(seed, []),
             Identity(NO_OFFER, 0, 0, 0), [], Progress(0, 0, []), Times(0, 0, 0), Unknown, NoReason, false, NoReason)
  }

  predicate Active(phase: Phase) {
    phase.Pulling? || phase.Verifying? || phase.Publishing?
  }

  function EpochTag(processRandom: nat, sessionEpoch: nat): nat {
    processRandom * TWO_TO_THE_32 + sessionEpoch % TWO_TO_THE_32
  }

  function Zeros(n: nat): seq<Byte> {
    seq(n, _ => 0)
  }

  /** Judges an offer; `allocOk` says whether the package buffer could be had. */
  function JudgeOffer(r: Receiver, o: Offer, enabled: bool, allocOk: bool): Verdict {
    if !enabled then Disabled
    else if Active(r.phase) then Busy
    else if !OfferVerdict(o).Accept? then OfferVerdict(o)
    else if !allocOk then TooLarge
    else Accept
  }

  /** An accepted offer: a new generation, an empty package of the offered size, and nothing asked for yet. */
  function Taken(r: Receiver, o: Offer, sessionEpoch: nat, localSeq: nat, now: nat): Receiver {
    var (gens, gen) := BulkGen.Handed(r.gens);
    r.(gens := gens, id := Identity(o, EpochTag(r.processRandom, sessionEpoch), gen, localSeq),
       package := Zeros(PackageBytes(o)), progress := Progress(0, 0, []),
       times := Times(now, now, now + TotalTimeoutUs(PackageBytes(o))),
       phase := Pulling, reason := NoReason, cancelRequested := false)
  }

  function OnOffer(r: Receiver, o: Offer, sessionEpoch: nat, enabled: bool, localSeq: nat,
                   allocOk: bool, now: nat): Receiver {
    if JudgeOffer(r, o, enabled, allocOk).Accept? then Taken(r, o, sessionEpoch, localSeq, now) else r
  }

  function PullOf(r: Receiver, triggerOffset: nat): Option<Pull> {
    if !r.phase.Pulling? || |r.progress.outstanding| >= r.pullWindow || r.progress.nextOffset >= |r.package| then None
    else
      var len := Min(r.chunkBytes, |r.package| - r.progress.nextOffset);
      Some(Pull(r.id.offer.transferId, r.id.epochTag, r.id.bulkGen, Range(r.progress.nextOffset, len), triggerOffset,
                r.progress.received))
  }

  function AfterPull(r: Receiver): Receiver {
    var p := PullOf(r, NO_TRIGGER);
    if p.None? then r
    else r.(progress := r.progress.(outstanding := r.progress.outstanding + [p.value.range],
                                    nextOffset := r.progress.nextOffset + p.value.range.len))
  }

  /** A chunk of the current transfer, epoch and generation, exactly a range a pull asked for. */
  predicate Asked(r: Receiver, c: Chunk) {
    && r.phase.Pulling?
    && c.transferId == r.id.offer.transferId && c.epochTag == r.id.epochTag && c.bulkGen == r.id.bulkGen
    && c.range.len != 0 && c.range.len == |c.data|
    && c.range in r.progress.outstanding
    && c.range.offset + c.range.len <= |r.package|
  }

  datatype ChunkResult = Dropped | Accepted | Complete

  function Without(out: seq<Range>, range: Range): seq<Range> {
    if out == [] then [] else if out[0] == range then out[1..] else [out[0]] + Without(out[1..], range)
  }

  function Splice(package: seq<Byte>, offset: nat, data: seq<Byte>): (r: seq<Byte>)
    requires offset + |data| <= |package|
    ensures |r| == |package|
  {
    package[..offset] + data + package[offset + |data|..]
  }

  function OnChunk(r: Receiver, c: Chunk, now: nat): (Receiver, ChunkResult) {
    if !Asked(r, c) then (r, Dropped)
    else
      var received := r.progress.received + c.range.len;
      var done := received == |r.package|;
      (r.(package := Splice(r.package, c.range.offset, c.data),
          progress := r.progress.(received := received, outstanding := Without(r.progress.outstanding, c.range)),
          times := r.times.(lastProgressUs := now),
          phase := if done then Verifying else r.phase),
       if done then Complete else Accepted)
  }

  /** The transfer is over: the package is released now. */
  function End(r: Receiver, phase: Phase, why: Reason): Receiver {
    r.(phase := phase, reason := why, progress := r.progress.(outstanding := []),
       package := [], cancelRequested := false)
  }

  function Tick(r: Receiver, now: nat): (Receiver, bool) {
    if !r.phase.Pulling? then (r, false)
    else if Elapsed(now, r.times.lastProgressUs) >= STALL_US then (End(r, Failed, Stalled), true)
    else if now >= r.times.deadlineUs then (End(r, Failed, Timeout), true)
    else (r, false)
  }

  datatype Status = Status(transferId: nat, phase: Phase, reason: Reason, bytesReceived: nat, totalBytes: nat)

  function StatusOf(r: Receiver, transferId: nat): Status {
    if transferId == 0 || transferId != r.id.offer.transferId || r.phase.Unknown?
    then Status(transferId, Unknown, NoReason, 0, 0)
    else Status(transferId, r.phase, r.reason, r.progress.received, PackageBytes(r.id.offer))
  }

  function Cancel(r: Receiver, transferId: nat, epochTag: nat, why: Reason): Receiver {
    if transferId != 0 && transferId == r.id.offer.transferId && epochTag == r.id.epochTag && Active(r.phase)
    then if r.phase.Pulling? then End(r, Cancelled, why) else r.(cancelRequested := true, cancelReason := why)
    else r
  }

  function SessionEnd(r: Receiver): Receiver {
    if r.phase.Pulling? then End(r, Cancelled, Session)
    else if Active(r.phase) then r.(cancelRequested := true, cancelReason := Session)
    else r
  }

  function BeginPublishing(r: Receiver): Receiver {
    if r.phase.Verifying? then r.(phase := Publishing) else r
  }

  function Finish(r: Receiver, phase: Phase, why: Reason): Receiver {
    if !Active(r.phase) then r
    else if r.cancelRequested && !phase.Published? then End(r, Cancelled, r.cancelReason)
    else End(r, phase, why)
  }

  function WithChunkBytes(r: Receiver, n: nat): Receiver {
    r.(chunkBytes := Max(CHUNK_BYTES, Min(n, MAX_CHUNK_BYTES)))
  }

  // ------------------------------------------------------------------ the sender

  datatype SenderPhase = Idle | Offering | Serving

  datatype Sender = Sender(phase: SenderPhase, package: seq<Byte>, offer: Offer, epochTag: nat, bulkGen: nat,
                           served: nat, startedUs: nat, lastPullUs: nat, sent: seq<Range>)

  const NEW_SENDER := Sender(Idle, [], NO_OFFER, 0, 0, 0, 0, 0, [])

  function Begin(package: seq<Byte>, o: Offer, now: nat): Sender {
    Sender(Offering, package, o, 0, 0, 0, now, now, [])
  }

  function SenderEnded(s: Sender): Sender {
    s.(phase := Idle, package := [], sent := [])
  }

  function OnOfferReply(s: Sender, reply: OfferReply): (Sender, bool) {
    if !s.phase.Offering? || reply.transferId != s.offer.transferId then (s, false)
    else if !reply.verdict.Accept? then (SenderEnded(s), false)
    else (s.(epochTag := reply.epochTag, bulkGen := reply.bulkGen, phase := Serving), true)
  }

  /** A pull of the current transfer, epoch and generation that stays inside the package. */
  predicate Answerable(s: Sender, p: Pull) {
    && s.phase.Serving?
    && p.transferId == s.offer.transferId && p.epochTag == s.epochTag && p.bulkGen == s.bulkGen
    && 0 < p.range.len <= MAX_CHUNK_BYTES
    && p.range.offset + p.range.len <= |s.package|
  }

  function AtOffset(sent: seq<Range>, offset: nat): Option<nat> {
    if sent == [] then None
    else if sent[0].offset == offset then Some(0)
    else match AtOffset(sent[1..], offset) case None => None case Some(i) => Some(i + 1)
  }

  function Completed(s: Sender, triggerOffset: nat): (i: Option<nat>)
    ensures i.Some? ==> i.value < |s.sent| && s.sent[i.value].offset == triggerOffset
  {
    AtOffsetBound(s.sent, triggerOffset);
    if triggerOffset == NO_TRIGGER then None else AtOffset(s.sent, triggerOffset)
  }

  lemma {:induction false} AtOffsetBound(sent: seq<Range>, offset: nat)
    ensures var i := AtOffset(sent, offset); i.Some? ==> i.value < |sent| && sent[i.value].offset == offset
  {
    if sent != [] {
      AtOffsetBound(sent[1..], offset);
    }
  }

  function KeptSent(sent: seq<Range>, range: Range): seq<Range> {
    var all := sent + [range];
    if |all| > KEPT_SENT then all[1..] else all
  }

  /** The answer, and the bytes of the chunk the pull says it completed (counted once). */
  function OnPull(s: Sender, p: Pull, now: nat): (Sender, Option<Chunk>, Option<nat>) {
    if !Answerable(s, p) then (s, None, None)
    else
      var i := Completed(s, p.triggerOffset);
      var sent := if i.Some? then s.sent[..i.value] + s.sent[i.value + 1..] else s.sent;
      (s.(sent := KeptSent(sent, p.range), served := s.served + p.range.len, lastPullUs := now),
       Some(Chunk(s.offer.transferId, s.epochTag, s.bulkGen, p.range,
                  s.package[p.range.offset..p.range.offset + p.range.len])),
       if i.Some? then Some(s.sent[i.value].len) else None)
  }
}
