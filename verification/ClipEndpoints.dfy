/** The two endpoint objects of the clipboard-image transfer (clip_image_transfer.hpp): fields and an
    in-place package buffer, each method tied to its function in `ClipTransfer`. */
module ClipEndpoints {
  import opened Common
  import opened ClipTransfer
  import BulkGen

  class ClipImageReceiver {
    const processRandom: nat
    const pullWindow: nat
    const allocator: BulkGen.BulkGenAllocator
    var chunkBytes: nat
    var id: Identity
    var package: array<Byte>
    var received: nat
    var nextOffset: nat
    var outstanding: seq<Range>
    var times: Times
    var phase: Phase
    var reason: Reason
    var cancelRequested: bool
    var cancelReason: Reason

    ghost predicate Valid()
      reads this, allocator
    {
      allocator.Valid()
    }

    ghost function Value(): Receiver
      reads this, allocator, package
    {
      Receiver(processRandom, pullWindow, chunkBytes, allocator.Value(), id, package[..],
               Progress(received, nextOffset, outstanding), times, phase, reason, cancelRequested, cancelReason)
    }

    constructor (processRandom: nat, pullWindow: nat, seed: BulkGen.Word32)
      ensures Valid() && fresh(allocator) && fresh(package)
      ensures Value() == NewReceiver(processRandom, pullWindow, seed)
    {
      this.processRandom := processRandom;
      this.pullWindow := Max(1, Min(pullWindow, PULL_WINDOW_MAX));
      allocator := new BulkGen.BulkGenAllocator(seed);
      chunkBytes := CHUNK_BYTES;
      id := Identity(NO_OFFER, 0, 0, 0);
      package := new Byte[0];
      received, nextOffset, outstanding := 0, 0, [];
      times := Times(0, 0, 0);
      phase, reason, cancelRequested, cancelReason := Unknown, NoReason, false, NoReason;
    }

    method OnOffer(o: Offer, sessionEpoch: nat, enabled: bool, localSeq: nat, allocOk: bool, now: nat)
      returns (verdict: Verdict)
      requires Valid()
      modifies this, allocator
      ensures Valid() && (package == old(package) || fresh(package))
      ensures Value() == ClipTransfer.OnOffer(old(Value()), o, sessionEpoch, enabled, localSeq, allocOk, now)
      ensures verdict == JudgeOffer(old(Value()), o, enabled, allocOk)
    {
      if !enabled {
        return Disabled;
      }
      if Active(phase) {
        return Busy;
      }
      verdict := OfferVerdict(o);
      if !verdict.Accept? {
        return;
      }
      if !allocOk {
        return TooLarge;
      }
      Take(o, sessionEpoch, localSeq, now);
    }

    method Take(o: Offer, sessionEpoch: nat, localSeq: nat, now: nat)
      requires Valid()
      modifies this, allocator
      ensures Valid() && fresh(package)
      ensures Value() == Taken(old(Value()), o, sessionEpoch, localSeq, now)
    {
      Allocate(PackageBytes(o));
      var gen := allocator.Next();
      id := Identity(o, EpochTag(processRandom, sessionEpoch), gen, localSeq);
      times := Times(now, now, now + TotalTimeoutUs(PackageBytes(o)));
      StartPulling();
    }

    method StartPulling()
      modifies this`phase, this`reason, this`received, this`nextOffset, this`outstanding, this`cancelRequested
      ensures Value() == old(Value()).(phase := Pulling, reason := NoReason, progress := Progress(0, 0, []),
                                       cancelRequested := false)
    {
      phase, reason := Pulling, NoReason;
      received, nextOffset, outstanding := 0, 0, [];
      cancelRequested := false;
    }

    method Allocate(bytes: nat)
      modifies this`package
      ensures fresh(package) && package[..] == Zeros(bytes)
    {
      package := new Byte[bytes](_ => 0);
      assert package[..] == Zeros(bytes);
    }

    method NextPull(triggerOffset: nat) returns (pull: Option<Pull>)
      modifies this`outstanding, this`nextOffset
      ensures pull == PullOf(old(Value()), triggerOffset)
      ensures Value() == AfterPull(old(Value()))
    {
      if !phase.Pulling? || |outstanding| >= pullWindow || nextOffset >= package.Length {
        return None;
      }
      var len := Min(chunkBytes, package.Length - nextOffset);
      pull := Some(Pull(id.offer.transferId, id.epochTag, id.bulkGen, Range(nextOffset, len), triggerOffset, received));
      outstanding := outstanding + [Range(nextOffset, len)];
      nextOffset := nextOffset + len;
    }

    method OnChunk(c: Chunk, now: nat) returns (result: ChunkResult)
      modifies this`received, this`outstanding, this`times, this`phase, package
      ensures package == old(package)
      ensures (Value(), result) == ClipTransfer.OnChunk(old(Value()), c, now)
    {
      if !phase.Pulling? {
        return Dropped;
      }
      if c.transferId != id.offer.transferId || c.epochTag != id.epochTag || c.bulkGen != id.bulkGen {
        return Dropped;
      }
      if c.range.len == 0 || c.range.len != |c.data| {
        return Dropped;
      }
      if c.range !in outstanding {
        return Dropped;
      }
      if c.range.offset + c.range.len > package.Length {
        return Dropped;
      }
      result := TakeIn(c, now);
    }

    /** A chunk that was asked for: its bytes are copied, its range is no longer waited for. */
    method TakeIn(c: Chunk, now: nat) returns (result: ChunkResult)
      requires Asked(Value(), c)
      modifies this`received, this`outstanding, this`times, this`phase, package
      ensures (Value(), result) == ClipTransfer.OnChunk(old(Value()), c, now)
    {
      CopyIn(c.range.offset, c.data);
      var kept := Erased(outstanding, c.range);
      outstanding := kept;
      received := received + c.range.len;
      times := times.(lastProgressUs := now);
      if received == package.Length {
        phase := Verifying;
        return Complete;
      }
      return Accepted;
    }

    /** The chunk's bytes into the package, in place. */
    method CopyIn(offset: nat, data: seq<Byte>)
      requires offset + |data| <= package.Length
      modifies package
      ensures package[..] == Splice(old(package[..]), offset, data)
    {
      forall i | 0 <= i < |data| {
        package[offset + i] := data[i];
      }
      assert package[..] == old(package[..])[..offset] + data + old(package[..])[offset + |data|..];
    }

    method End(to: Phase, why: Reason)
      modifies this
      ensures fresh(package) && Value() == ClipTransfer.End(old(Value()), to, why)
    {
      phase, reason, outstanding := to, why, [];
      package := new Byte[0];
      cancelRequested := false;
    }

    method Tick(now: nat) returns (ended: bool)
      modifies this
      ensures (package == old(package) || fresh(package))
      ensures (Value(), ended) == ClipTransfer.Tick(old(Value()), now)
    {
      if !phase.Pulling? {
        return false;
      }
      if Elapsed(now, times.lastProgressUs) >= STALL_US {
        End(Failed, Stalled);
        return true;
      }
      if now >= times.deadlineUs {
        End(Failed, Timeout);
        return true;
      }
      return false;
    }

    method Cancel(transferId: nat, epochTag: nat, why: Reason) returns (status: ClipTransfer.Status)
      modifies this
      ensures (package == old(package) || fresh(package))
      ensures Value() == ClipTransfer.Cancel(old(Value()), transferId, epochTag, why)
              && status == ClipTransfer.StatusOf(Value(), transferId)
    {
      if transferId != 0 && transferId == id.offer.transferId && epochTag == id.epochTag && Active(phase) {
        if phase.Pulling? {
          End(Cancelled, why);
        } else {
          cancelRequested, cancelReason := true, why;
        }
      }
      status := Status(transferId);
    }

    method Status(transferId: nat) returns (status: ClipTransfer.Status)
      ensures status == ClipTransfer.StatusOf(Value(), transferId)
    {
      if transferId == 0 || transferId != id.offer.transferId || phase.Unknown? {
        return ClipTransfer.Status.Status(transferId, Unknown, NoReason, 0, 0);
      }
      return ClipTransfer.Status.Status(transferId, phase, reason, received, PackageBytes(id.offer));
    }

    method OnSessionEnd()
      modifies this
      ensures (package == old(package) || fresh(package))
      ensures Value() == ClipTransfer.SessionEnd(old(Value()))
    {
      if phase.Pulling? {
        End(Cancelled, Session);
      } else if Active(phase) {
        cancelRequested, cancelReason := true, Session;
      }
    }

    method BeginPublishing()
      modifies this`phase
      ensures Value() == ClipTransfer.BeginPublishing(old(Value()))
    {
      if phase.Verifying? {
        phase := Publishing;
      }
    }

    method Finish(to: Phase, why: Reason)
      modifies this
      ensures (package == old(package) || fresh(package))
      ensures Value() == ClipTransfer.Finish(old(Value()), to, why)
    {
      if !Active(phase) {
        return;
      }
      if cancelRequested && !to.Published? {
        End(Cancelled, cancelReason);
        return;
      }
      End(to, why);
    }
  }

  lemma WithoutStep(out: seq<Range>, k: nat, x: Range)
    requires k < |out|
    ensures out[..k] + Without(out[k..], x)
         == if out[k] == x then out[..k] + out[k + 1..] else out[..k + 1] + Without(out[k + 1..], x)
  {
    assert out[k..][1..] == out[k + 1..];
    if out[k] != x {
      assert out[..k] + ([out[k]] + Without(out[k + 1..], x)) == out[..k + 1] + Without(out[k + 1..], x);
    }
  }

  method Erased(out: seq<Range>, x: Range) returns (rest: seq<Range>)
    requires x in out
    ensures rest == Without(out, x)
  {
    var k := 0;
    while out[k] != x
      invariant k < |out| && x in out[k..]
      invariant Without(out, x) == out[..k] + Without(out[k..], x)
      decreases |out| - k
    {
      WithoutStep(out, k, x);
      k := k + 1;
    }
    WithoutStep(out, k, x);
    rest := out[..k] + out[k + 1..];
  }

  class ClipImageSender {
    var phase: SenderPhase
    var package: seq<Byte>   // shared and never written
    var offer: Offer
    var epochTag: nat
    var bulkGen: nat
    var served: nat
    var startedUs: nat
    var lastPullUs: nat
    var sent: seq<Range>

    ghost function Value(): Sender
      reads this
    {
      Sender(phase, package, offer, epochTag, bulkGen, served, startedUs, lastPullUs, sent)
    }

    constructor ()
      ensures Value() == NEW_SENDER
    {
      phase, package, offer, epochTag, bulkGen := Idle, [], NO_OFFER, 0, 0;
      served, startedUs, lastPullUs, sent := 0, 0, 0, [];
    }

    method Begin(package: seq<Byte>, o: Offer, now: nat)
      modifies this
      ensures Value() == ClipTransfer.Begin(package, o, now)
    {
      this.package, offer, phase := package, o, Offering;
      epochTag, bulkGen, served := 0, 0, 0;
      startedUs, lastPullUs, sent := now, now, [];
    }

    method End()
      modifies this`phase, this`package, this`sent
      ensures Value() == ClipTransfer.SenderEnded(old(Value()))
    {
      phase, package, sent := Idle, [], [];
    }

    method OnOfferReply(reply: OfferReply) returns (accepted: bool)
      modifies this
      ensures (Value(), accepted) == ClipTransfer.OnOfferReply(old(Value()), reply)
    {
      if !phase.Offering? || reply.transferId != offer.transferId {
        return false;
      }
      if !reply.verdict.Accept? {
        End();
        return false;
      }
      epochTag, bulkGen, phase := reply.epochTag, reply.bulkGen, Serving;
      return true;
    }

    method OnPull(p: Pull, now: nat) returns (chunk: Option<Chunk>, completedBytes: Option<nat>)
      modifies this`sent, this`served, this`lastPullUs
      ensures (Value(), chunk, completedBytes) == ClipTransfer.OnPull(old(Value()), p, now)
    {
      if !phase.Serving? || p.transferId != offer.transferId || p.epochTag != epochTag || p.bulkGen != bulkGen {
        return None, None;
      }
      if p.range.len == 0 || p.range.len > MAX_CHUNK_BYTES || p.range.offset + p.range.len > |package| {
        return None, None;
      }
      assert Answerable(Value(), p);
      ghost var done := Completed(Value(), p.triggerOffset);
      completedBytes := None;
      if p.triggerOffset != NO_TRIGGER {
        var i := FindSent(sent, p.triggerOffset);
        if i.Some? {
          completedBytes := Some(sent[i.value].len);
          sent := sent[..i.value] + sent[i.value + 1..];
        }
      }
      assert sent == if done.Some? then old(sent)[..done.value] + old(sent)[done.value + 1..] else old(sent);
      chunk := Some(Chunk(offer.transferId, epochTag, bulkGen, p.range,
                          package[p.range.offset..p.range.offset + p.range.len]));
      sent := sent + [p.range];
      if |sent| > KEPT_SENT {
        sent := sent[1..];
      }
      served := served + p.range.len;
      lastPullUs := now;
    }
  }

  method FindSent(sent: seq<Range>, offset: nat) returns (i: Option<nat>)
    ensures i == AtOffset(sent, offset)
    ensures i.Some? ==> i.value < |sent|
  {
    var k := 0;
    while k < |sent| && sent[k].offset != offset
      invariant k <= |sent|
      invariant AtOffset(sent, offset) ==
                  match AtOffset(sent[k..], offset) case None => None case Some(j) => Some(k + j)
    {
      assert sent[k..][1..] == sent[k + 1..];
      k := k + 1;
    }
    AtOffsetBound(sent, offset);
    return if k < |sent| then Some(k) else None;
  }
}
