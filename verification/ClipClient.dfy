/** The viewer's clipboard-image client (clip_image_client.cpp): UI calls and the control thread's Pump share
    fields under a lock that Pump lets go of while it waits for the host. Each stretch under the lock is one
    method here; `pump` says which answer the control thread is waiting for in between. */
module ClipClient {
  import opened Common
  import T = ClipTransfer
  import A = BulkArbiter

  const STATUS_INTERVAL_US: nat := 500000
  const CANCEL_CONFIRM_BUDGET_US: nat := 15000000
  const RESUME_WITHIN_US: nat := 60000000

  datatype Outcome = Published | Cancelled | CancelTooLate | CancelUnconfirmed
                   | HostSuperseded | Failed | NotSent | Refused

  datatype PackageResult = NotAnImage | TooLarge | ColorProfile | EncodeFailed | HashFailed | ReadFailed

  datatype Detail = NoDetail | ByReason(why: T.Reason) | ByVerdict(verdict: T.Verdict)
                  | ByPackage(result: PackageResult)

  datatype Package = Package(bytes: seq<T.Byte>, offer: T.Offer)

  datatype Awaiting = Awaiting(transferId: nat, epochTag: nat, why: T.Reason, nextStatusUs: nat, deadlineUs: nat)

  datatype Preempted = Preempted(package: Package, gen: nat, atUs: nat, confirmedCancelled: bool)

  datatype Deferred = Deferred(why: PackageResult, gen: nat)

  datatype Message =
    | CancelMessage(seqNo: nat, reason: T.Reason, transferId: nat, epochTag: nat)
    | StatusMessage(seqNo: nat, transferId: nat, epochTag: nat)
    | OfferMessage(seqNo: nat, offer: T.Offer)

  datatype StatusReply = StatusReply(seqNo: nat, transferId: nat, state: T.Phase, reason: T.Reason)

  /** What Pump is waiting for with the lock released. */
  datatype Window =
    | Home
    | CancelSent(seqNo: nat, transferId: nat, why: T.Reason)
    | AwaitedAsked(seqNo: nat, transferId: nat)
    | OfferSent(transferId: nat)
    | StatusAsked

  // ------------------------------------------------------------------ the record of outcomes

  /** `transfer` is the transfer an outcome is about, 0 for a copy that never became one. */
  datatype Entry = Entry(transfer: nat, outcome: Outcome, detail: Detail)

  /** Everything recorded; the transfers ever offered, those the host is known to have accepted, those it is
      known to have declined, and those whose offer was answered in another transfer's name. The others are
      open: the host may have accepted one whose answer was lost, or came after the session. `told` are the
      misnamed ones that were recorded as refused. */
  datatype Book = Book(ledger: seq<Entry>, offered: set<nat>, accepted: set<nat>,
                       declined: set<nat>, misnamed: set<nat>, told: set<nat>)

  function Count(ledger: seq<Entry>, id: nat): nat
    decreases |ledger|
  {
    if ledger == [] then 0
    else Count(ledger[..|ledger| - 1], id) + if ledger[|ledger| - 1].transfer == id then 1 else 0
  }

  lemma CountSnoc(ledger: seq<Entry>, e: Entry, id: nat)
    ensures Count(ledger + [e], id) == Count(ledger, id) + if e.transfer == id then 1 else 0
  {
    assert (ledger + [e])[..|ledger|] == ledger;
  }

  /** The transfer under way: on offer, being served, or stopped here with its cancel unsettled; 0 if none. */
  function Running(sender: T.Sender, awaiting: Option<Awaiting>): nat {
    if !sender.phase.Idle? then sender.offer.transferId
    else if awaiting.Some? then awaiting.value.transferId
    else 0
  }

  /** One transfer's share of the record: nothing while it runs, exactly one outcome once over unless the host
      declined it, and never two. */
  ghost predicate Tallied(book: Book, running: nat, id: nat) {
    && (id !in book.offered ==> Count(book.ledger, id) == 0)
    && (id !in book.misnamed ==> Count(book.ledger, id) <= if id == running then 0 else 1)
    && (Owed(book, id) && id != running ==> Count(book.ledger, id) == 1)
    && (id in book.misnamed ==>
          Count(book.ledger, id) == (if id in book.told then 1 else 0) + (if id == running then 0 else 1))
  }

  /** Offered, and not known to be declined: a transfer the host accepted, or may have. */
  predicate Owed(book: Book, id: nat) {
    id in book.offered && id !in book.declined && id !in book.misnamed
  }

  ghost predicate BookOk(book: Book, running: nat) {
    && 0 !in book.offered && book.accepted + book.declined + book.misnamed <= book.offered
    && book.accepted !! book.declined + book.misnamed && book.told <= book.misnamed
    && (running != 0 ==> running in book.offered)
    && (forall id | id != 0 :: Tallied(book, running, id))
  }

  lemma SettlingKeepsBook(book: Book, running: nat, e: Entry)
    requires BookOk(book, running) && running != 0 && e.transfer == running
    ensures BookOk(book.(ledger := book.ledger + [e]), 0)
  {
    forall id | id != 0 ensures Tallied(book.(ledger := book.ledger + [e]), 0, id) {
      assert Tallied(book, running, id);
      CountSnoc(book.ledger, e, id);
    }
  }

  lemma NoteKeepsBook(book: Book, running: nat, e: Entry)
    requires BookOk(book, running) && e.transfer == 0
    ensures BookOk(book.(ledger := book.ledger + [e]), running)
  {
    forall id | id != 0 ensures Tallied(book.(ledger := book.ledger + [e]), running, id) {
      assert Tallied(book, running, id);
      CountSnoc(book.ledger, e, id);
    }
  }

  lemma OfferKeepsBook(book: Book, id: nat)
    requires BookOk(book, 0) && id != 0 && id !in book.offered
    ensures BookOk(book.(offered := book.offered + {id}), id)
  {
    forall other | other != 0 ensures Tallied(book.(offered := book.offered + {id}), id, other) {
      assert Tallied(book, 0, other);
    }
  }

  lemma AcceptKeepsBook(book: Book, id: nat)
    requires BookOk(book, id) && Owed(book, id)
    ensures BookOk(book.(accepted := book.accepted + {id}), id)
  {
    forall other | other != 0 ensures Tallied(book.(accepted := book.accepted + {id}), id, other) {
      assert Tallied(book, id, other);
    }
  }

  /** A refused offer is over, with or without an outcome: news of a copy that is no longer the newest is
      not told. */
  lemma DroppingKeepsBook(book: Book, id: nat)
    requires BookOk(book, id) && Owed(book, id) && id !in book.accepted
    ensures BookOk(book.(declined := book.declined + {id}), 0)
  {
    forall other | other != 0 ensures Tallied(book.(declined := book.declined + {id}), 0, other) {
      assert Tallied(book, id, other);
    }
  }

  lemma RefusedKeepsBook(book: Book, e: Entry)
    requires BookOk(book, e.transfer) && Owed(book, e.transfer) && e.transfer !in book.accepted
    ensures BookOk(book.(declined := book.declined + {e.transfer}, ledger := book.ledger + [e]), 0)
  {
    var after := book.(declined := book.declined + {e.transfer}, ledger := book.ledger + [e]);
    forall id | id != 0 ensures Tallied(after, 0, id) {
      assert Tallied(book, e.transfer, id);
      CountSnoc(book.ledger, e, id);
    }
  }

  lemma MisnamingKeepsBook(book: Book, running: nat, e: Entry)
    requires BookOk(book, running) && Owed(book, running) && running !in book.accepted && e.transfer == running
    ensures var marked := book.(misnamed := book.misnamed + {running});
            && BookOk(marked, running)
            && BookOk(marked.(ledger := marked.ledger + [e], told := marked.told + {running}), running)
  {
    var marked := book.(misnamed := book.misnamed + {running});
    var told := marked.(ledger := marked.ledger + [e], told := marked.told + {running});
    forall id | id != 0 ensures Tallied(marked, running, id) && Tallied(told, running, id) {
      assert Tallied(book, running, id);
      CountSnoc(book.ledger, e, id);
    }
  }

  /** A transfer whose offer was answered in another's name gets two outcomes if and only if that answer came
      while its copy was the newest, and the transfer is over: a refusal, then its real end. */
  lemma MisnamedTwiceIff(book: Book, running: nat, id: nat)
    requires BookOk(book, running) && id in book.misnamed
    ensures Count(book.ledger, id) == 2 <==> id in book.told && id != running
    ensures Count(book.ledger, id) <= 2 && (id != running ==> Count(book.ledger, id) >= 1)
  {
    assert Tallied(book, running, id);
  }

  /** Every transfer the host accepted has exactly one outcome -- and so has every one it may have accepted,
      its answer lost or too late to be taken. */
  ghost predicate Complete(book: Book) {
    forall id | Owed(book, id) :: Count(book.ledger, id) == 1
  }

  lemma AllTallied(book: Book)
    requires BookOk(book, 0)
    ensures Complete(book)
  {
    forall id | Owed(book, id) ensures Count(book.ledger, id) == 1 {
      assert Tallied(book, 0, id);
    }
  }

  lemma {:induction false} CountedIsInLedger(ledger: seq<Entry>, e: Entry) returns (rest: nat)
    requires e in ledger
    ensures Count(ledger, e.transfer) == rest + 1
    ensures forall other | other in ledger && other.transfer == e.transfer && other != e :: rest > 0
    decreases |ledger|
  {
    var front, last := ledger[..|ledger| - 1], ledger[|ledger| - 1];
    if e in front {
      var fewer := CountedIsInLedger(front, e);
      rest := fewer + if last.transfer == e.transfer then 1 else 0;
    } else {
      rest := Count(front, e.transfer);
      forall other | other in ledger && other.transfer == e.transfer && other != e ensures rest > 0 {
        assert other in front;
        var fewer := CountedIsInLedger(front, other);
      }
    }
  }

  /** With at most one outcome a transfer, one recorded as cancelled is recorded as nothing else: never as
      published, and never as cancelled for another reason. */
  lemma CancelledStandsAlone(book: Book, running: nat, id: nat, detail: Detail, other: Entry)
    requires BookOk(book, running) && id != 0 && id !in book.misnamed
    requires Entry(id, Cancelled, detail) in book.ledger && other in book.ledger && other.transfer == id
    ensures other == Entry(id, Cancelled, detail)
  {
    var rest := CountedIsInLedger(book.ledger, Entry(id, Cancelled, detail));
    assert Tallied(book, running, id);
  }

  // ------------------------------------------------------------------ the invariant, part by part

  ghost predicate Settled(book: Book, id: nat) {
    exists detail :: Entry(id, Cancelled, detail) in book.ledger
  }

  /** A sender is never active while an older cancel is unsettled; a requested cancel names the active one. */
  predicate Exclusive(sender: T.Sender, awaiting: Option<Awaiting>, cancelTarget: nat) {
    && (awaiting.Some? ==> sender.phase.Idle? && awaiting.value.transferId != 0)
    && (!sender.phase.Idle? ==> sender.offer.transferId != 0)
    && (cancelTarget != 0 ==> !sender.phase.Idle? && cancelTarget == sender.offer.transferId)
  }

  /** The image side holds the bulk exactly while a transfer of it runs, and holds it as that transfer. */
  ghost predicate Arbitrated(hold: A.Hold, running: nat, book: Book) {
    && (if A.Kind(hold) == A.Image then running != 0 && running !in book.misnamed && hold.owner == running
        else running == 0 || running in book.misnamed)
    && (A.Kind(hold) == A.File ==> hold.owner !in book.offered)
    && (hold.use.Idle? ==> hold == A.FREE) && !hold.stoppedFrom.Stopping?
    && (hold.use.Stopping? ==> !hold.stoppedFrom.Idle?)
  }

  /** The one package waiting is of the newest copy, and its transfer is new. */
  ghost predicate Newest(snapshotGen: nat, pending: Option<Package>, pendingGen: nat, offerGen: nat, book: Book) {
    && offerGen <= snapshotGen
    && (pending.Some? ==>
          pendingGen == snapshotGen && pending.value.offer.transferId != 0
          && pending.value.offer.transferId !in book.offered)
  }

  /** While an offer's answer is out, that transfer is still the one offering, or the session has ended. */
  ghost predicate Waiting(pump: Window, sender: T.Sender, awaiting: Option<Awaiting>, book: Book,
                          offerGen: nat, snapshotGen: nat) {
    pump.OfferSent? ==>
      && Owed(book, pump.transferId) && pump.transferId !in book.accepted
      && awaiting.None?
      && (if sender.phase.Idle? then offerGen < snapshotGen
          else sender.phase.Offering? && sender.offer.transferId == pump.transferId)
  }

  predicate CancelPending(sender: T.Sender, awaiting: Option<Awaiting>, cancelTarget: nat) {
    awaiting.Some? || (cancelTarget != 0 && !sender.phase.Idle? && sender.offer.transferId == cancelTarget)
  }

  /** The image kept for after a file paste; `confirmed` are the transfers the host answered Cancelled for. */
  ghost predicate Kept(preempted: Option<Preempted>, book: Book, confirmed: set<nat>) {
    preempted.Some? ==>
      var id := preempted.value.package.offer.transferId;
      id in book.offered && (preempted.value.confirmedCancelled ==> Settled(book, id) && id in confirmed)
  }

  ghost predicate Told(book: Book, outcomes: nat, last: Option<(Outcome, Detail)>) {
    && outcomes == |book.ledger|
    && last == if book.ledger == [] then None
               else Some((book.ledger[outcomes - 1].outcome, book.ledger[outcomes - 1].detail))
  }

  /** The line about a copy that did not go, if it is still about the newest copy. */
  function Flushed(deferred: Option<Deferred>, snapshotGen: nat): seq<Entry> {
    if deferred.Some? && deferred.value.gen == snapshotGen
    then [Entry(0, NotSent, ByPackage(deferred.value.why))] else []
  }

  function EndOutcome(state: T.Phase, why: T.Reason): (Outcome, Detail) {
    match state
    case Published => (Outcome.Published, NoDetail)
    case Superseded => (HostSuperseded, ByReason(why))
    case Cancelled => (Outcome.Cancelled, ByReason(why))
    case _ => (Outcome.Failed, ByReason(why))
  }

  /** What an answer settles a cancel as; a state the host is still in settles nothing. */
  function CancelOutcome(a: Awaiting, r: StatusReply): Option<(Outcome, Detail)> {
    match r.state
    case Cancelled => Some((Outcome.Cancelled, ByReason(if r.reason.NoReason? then a.why else r.reason)))
    case Published => Some((CancelTooLate, ByReason(a.why)))
    case Superseded => Some((HostSuperseded, ByReason(r.reason)))
    case Failed => Some((Outcome.Failed, ByReason(r.reason)))
    case Unknown => Some((CancelUnconfirmed, ByReason(a.why)))
    case _ => None
  }

  /** A refusal is told only while its copy is the newest. */
  function Refusals(transferId: nat, verdict: T.Verdict, offerGen: nat, snapshotGen: nat): seq<Entry> {
    if offerGen == snapshotGen then [Entry(transferId, Refused, ByVerdict(verdict))] else []
  }

  predicate Settles(awaiting: Option<Awaiting>, r: StatusReply) {
    awaiting.Some? && r.transferId == awaiting.value.transferId && CancelOutcome(awaiting.value, r).Some?
  }

  /** The transfer an answer says the host cancelled. */
  function ConfirmedBy(awaiting: Option<Awaiting>, r: StatusReply): set<nat> {
    if Settles(awaiting, r) && r.state.Cancelled? then {r.transferId} else {}
  }

  /** The record after a cancelled transfer is settled: its outcome, then the notice that waited for it. */
  function Settling(book: Book, transferId: nat, outcome: (Outcome, Detail), deferred: Option<Deferred>,
                    snapshotGen: nat): Book {
    book.(ledger := book.ledger + ([Entry(transferId, outcome.0, outcome.1)] + Flushed(deferred, snapshotGen)))
  }

  function Confirmed(preempted: Option<Preempted>, transferId: nat): Option<Preempted> {
    if preempted.Some? && preempted.value.package.offer.transferId == transferId
    then Some(preempted.value.(confirmedCancelled := true)) else preempted
  }

  /** A requested cancel names the active transfer; a newer copy does not overwrite an earlier reason. */
  function Requested(sender: T.Sender, target: nat, reason: T.Reason, why: T.Reason): (nat, T.Reason) {
    if sender.phase.Idle? || (target == sender.offer.transferId && why.ByNewerCopy?) then (target, reason)
    else (sender.offer.transferId, why)
  }

  /** Whether the kept image may be offered again. */
  predicate Resumes(p: Preempted, mayResume: bool, usable: bool, snapshotGen: nat, pending: Option<Package>,
                    sender: T.Sender, now: nat) {
    && mayResume && p.confirmedCancelled && p.gen == snapshotGen && pending.None? && sender.phase.Idle?
    && Elapsed(now, p.atUs) < RESUME_WITHIN_US && usable
  }

  function Renamed(p: Package, transferId: nat): Package {
    p.(offer := p.offer.(transferId := transferId))
  }

  /** The host's refusal of the transfer on offer. */
  predicate Declines(sender: T.Sender, r: T.OfferReply) {
    sender.phase.Offering? && r.transferId == sender.offer.transferId && !r.verdict.Accept?
  }

  /** The record after an offer's answer that was not an acceptance. */
  function Withdrawn(book: Book, sender: T.Sender, r: T.OfferReply, offerGen: nat, snapshotGen: nat, id: nat): Book {
    book.(ledger := book.ledger + Refusals(id, r.verdict, offerGen, snapshotGen),
          declined := if Declines(sender, r) then book.declined + {id} else book.declined,
          misnamed := if sender.phase.Offering? && r.transferId != id then book.misnamed + {id} else book.misnamed,
          told := if sender.phase.Offering? && r.transferId != id && offerGen == snapshotGen then book.told + {id}
                  else book.told)
  }

  function Bump(n: nat): nat {
    (n + 1) % TWO_TO_THE_32
  }

  // ------------------------------------------------------------------ the client

  class ClipImageClient {
    const arbiter: A.Arbiter
    var sender: T.Sender
    var awaiting: Option<Awaiting>
    var cancelTarget: nat
    var cancelReason: T.Reason
    var haveSnapshot: bool
    var snapshotGen: nat
    var pending: Option<Package>
    var pendingGen: nat
    var offerGen: nat
    var lastOffered: Option<Package>
    var fileHold: bool
    var preempted: Option<Preempted>
    var deferred: Option<Deferred>
    var nextSeq: nat
    var nextStatusUs: nat
    var bulkOpen: bool
    var bulkClosePending: bool
    var outcomes: nat
    var last: Option<(Outcome, Detail)>
    var pump: Window
    ghost var book: Book
    ghost var confirmed: set<nat>

    ghost predicate Bound()
      reads this`sender, this`awaiting, this`cancelTarget
    {
      Exclusive(sender, awaiting, cancelTarget)
    }

    ghost predicate Booked()
      reads this`sender, this`awaiting, this`book
    {
      BookOk(book, Running(sender, awaiting))
    }

    ghost predicate Held()
      reads this`sender, this`awaiting, this`book, arbiter
    {
      Arbitrated(arbiter.State(), Running(sender, awaiting), book)
    }

    ghost predicate Copies()
      reads this`snapshotGen, this`pending, this`pendingGen, this`offerGen, this`book
    {
      Newest(snapshotGen, pending, pendingGen, offerGen, book)
    }

    ghost predicate Resumable()
      reads this`preempted, this`book, this`confirmed
    {
      Kept(preempted, book, confirmed)
    }

    ghost predicate Telling()
      reads this`book, this`outcomes, this`last
    {
      Told(book, outcomes, last)
    }

    ghost predicate Core()
      reads this, arbiter
    {
      Bound() && Booked() && Held() && Copies() && Resumable() && Telling()
    }

    /** What holds whenever the lock is free: also, a deferred notice still has the cancel it waits for, and
        the bulk channel is open exactly while a transfer is served. */
    ghost predicate Valid()
      reads this, arbiter
    {
      && Core()
      && Waiting(pump, sender, awaiting, book, offerGen, snapshotGen)
      && (deferred.Some? ==> CancelPending(sender, awaiting, cancelTarget))
      && (bulkOpen <==> sender.phase.Serving?) && !bulkClosePending
    }

    constructor (arbiter: A.Arbiter)
      requires arbiter.State() == A.FREE
      ensures Valid() && this.arbiter == arbiter && book == Book([], {}, {}, {}, {}, {}) && confirmed == {}
      ensures sender == T.NEW_SENDER && awaiting.None? && cancelTarget == 0 && pending.None? && deferred.None?
      ensures !haveSnapshot && snapshotGen == 0 && !fileHold && preempted.None? && !bulkOpen && pump.Home?
    {
      this.arbiter := arbiter;
      sender, awaiting, cancelTarget, cancelReason := T.NEW_SENDER, None, 0, T.ByNewerCopy;
      haveSnapshot, snapshotGen, pending, pendingGen, offerGen := false, 0, None, 0, 0;
      lastOffered, fileHold, preempted, deferred := None, false, None, None;
      nextSeq, nextStatusUs, bulkOpen, bulkClosePending := 0, 0, false, false;
      outcomes, last, pump, book, confirmed := 0, None, Home, Book([], {}, {}, {}, {}, {}), {};
    }

    // ---------------------------------------------------------------- under the lock

    method RecordOutcome(o: Outcome, detail: Detail, ghost transfer: nat)
      requires Told(book, outcomes, last)
      modifies this`outcomes, this`last, this`book
      ensures Told(book, outcomes, last)
      ensures book == old(book).(ledger := old(book.ledger) + [Entry(transfer, o, detail)])
    {
      outcomes := outcomes + 1;
      last := Some((o, detail));
      book := book.(ledger := book.ledger + [Entry(transfer, o, detail)]);
    }

    /** Binds a cancel to the transfer under way; a user's reason is not overwritten by a newer copy's. */
    method RequestCancel(why: T.Reason)
      modifies this`cancelTarget, this`cancelReason
      ensures (cancelTarget, cancelReason) == Requested(sender, old(cancelTarget), old(cancelReason), why)
    {
      if sender.phase.Idle? {
        return;
      }
      if cancelTarget == sender.offer.transferId && why.ByNewerCopy? {
        return;
      }
      cancelTarget := sender.offer.transferId;
      cancelReason := why;
    }

    method ClearCancelFor(transferId: nat)
      modifies this`cancelTarget, this`cancelReason
      ensures cancelTarget == if old(cancelTarget) == transferId then 0 else old(cancelTarget)
    {
      if cancelTarget != 0 && cancelTarget == transferId {
        cancelTarget := 0;
        cancelReason := T.ByNewerCopy;
      }
    }

    /** A transfer that is over takes its cancel with it and gives the bulk back. */
    method LetGo(transferId: nat)
      modifies this`cancelTarget, this`cancelReason, arbiter
      ensures cancelTarget == if old(cancelTarget) == transferId then 0 else old(cancelTarget)
      ensures arbiter.State() == A.Apply(old(arbiter.State()), A.Release(transferId)).0
    {
      ClearCancelFor(transferId);
      var _ := arbiter.Release(transferId);
    }

    method FlushDeferredNotSent()
      requires Core()
      modifies this`deferred, this`outcomes, this`last, this`book
      ensures Core() && (deferred.Some? ==> CancelPending(sender, awaiting, cancelTarget))
      ensures CancelPending(sender, awaiting, cancelTarget) ==> book == old(book)
      ensures !CancelPending(sender, awaiting, cancelTarget) ==>
                book == old(book).(ledger := old(book.ledger) + Flushed(old(deferred), snapshotGen))
    {
      if deferred.None? || CancelPending(sender, awaiting, cancelTarget) {
        assert book.ledger + [] == book.ledger;
        return;
      }
      var d := deferred.value;
      deferred := None;
      if d.gen == snapshotGen {
        NoteKeepsBook(book, Running(sender, awaiting), Entry(0, NotSent, ByPackage(d.why)));
        RecordOutcome(NotSent, ByPackage(d.why), 0);
      } else {
        assert book.ledger + [] == book.ledger;
      }
    }

    /** A copy that never left: told at once, or after the cancel of an older transfer is settled. */
    method NoteNotSent(why: PackageResult, gen: nat)
      requires Valid()
      modifies this`deferred, this`outcomes, this`last, this`book
      ensures Valid()
      ensures gen != snapshotGen ==> book == old(book) && deferred == old(deferred)
      ensures gen == snapshotGen ==>
                if CancelPending(sender, awaiting, cancelTarget)
                then book == old(book) && deferred == Some(Deferred(why, gen))
                else book == old(book).(ledger := old(book.ledger) + [Entry(0, NotSent, ByPackage(why))])
    {
      if gen != snapshotGen {
        return;
      }
      if CancelPending(sender, awaiting, cancelTarget) {
        deferred := Some(Deferred(why, gen));
        return;
      }
      NoteKeepsBook(book, Running(sender, awaiting), Entry(0, NotSent, ByPackage(why)));
      RecordOutcome(NotSent, ByPackage(why), 0);
    }

    /** The cancel's outcome, the bulk given back, then any notice that waited for it. */
    method SettleAwaiting(o: Outcome, detail: Detail)
      requires Core() && awaiting.Some?
      modifies this`awaiting, this`deferred, this`outcomes, this`last, this`book, arbiter
      ensures Core() && awaiting.None? && deferred.None?
      ensures book == Settling(old(book), old(awaiting).value.transferId, (o, detail), old(deferred), snapshotGen)
    {
      ghost var id := awaiting.value.transferId;
      SettlingKeepsBook(book, id, Entry(id, o, detail));
      var _ := arbiter.Release(awaiting.value.transferId);
      awaiting := None;
      RecordOutcome(o, detail, id);
      FlushDeferredNotSent();
      assert old(book.ledger) + [Entry(id, o, detail)] + Flushed(old(deferred), snapshotGen)
          == old(book.ledger) + ([Entry(id, o, detail)] + Flushed(old(deferred), snapshotGen));
    }

    /** The host's word on a cancel: only about the transfer being settled, and only a final one settles it. */
    method ApplyCancelAnswer(r: StatusReply)
      requires Valid()
      modifies this`awaiting, this`deferred, this`outcomes, this`last, this`book, this`preempted, this`confirmed
      modifies arbiter
      ensures Valid() && confirmed == old(confirmed) + ConfirmedBy(old(awaiting), r)
      ensures !Settles(old(awaiting), r) ==>
                book == old(book) && awaiting == old(awaiting) && preempted == old(preempted)
      ensures Settles(old(awaiting), r) ==>
                var outcome := CancelOutcome(old(awaiting).value, r).value;
                && awaiting.None?
                && book == Settling(old(book), r.transferId, outcome, old(deferred), snapshotGen)
                && preempted == if outcome.0.Cancelled? then Confirmed(old(preempted), r.transferId) else old(preempted)
    {
      if awaiting.None? || r.transferId != awaiting.value.transferId {
        return;
      }
      var outcome := CancelOutcome(awaiting.value, r);
      if outcome.None? {
        return;
      }
      var (o, detail) := outcome.value;
      SettleAwaiting(o, detail);
      assert book.ledger[|old(book.ledger)|] == Entry(r.transferId, o, detail);
      if o.Cancelled? {
        confirmed := confirmed + {r.transferId};
        preempted := Confirmed(preempted, r.transferId);
        assert Settled(book, r.transferId);
      }
    }

    /** The active transfer is over. Its cancel goes with it, its outcome is recorded, and its channel is
        left to be closed. */
    method EndActive(state: T.Phase, why: T.Reason)
      requires Core() && !sender.phase.Idle?
      modifies this`sender, this`cancelTarget, this`cancelReason, this`outcomes, this`last, this`book
      modifies this`bulkClosePending, arbiter
      ensures Core() && sender == T.SenderEnded(old(sender)) && cancelTarget == 0 && bulkClosePending
      ensures book == old(book).(ledger := old(book.ledger)
                + [Entry(old(sender).offer.transferId, EndOutcome(state, why).0, EndOutcome(state, why).1)])
    {
      ghost var id := sender.offer.transferId;
      var (o, detail) := EndOutcome(state, why);
      SettlingKeepsBook(book, id, Entry(id, o, detail));
      LetGo(sender.offer.transferId);
      RecordOutcome(o, detail, id);
      sender := T.SenderEnded(sender);
      bulkClosePending := true;
    }

    // ---------------------------------------------------------------- UI calls, the package worker, the file path

    /** A newer copy: everything of an older one is stale, and a transfer of it is cancelled now. */
    method SubmitSnapshot()
      requires Valid()
      modifies this`haveSnapshot, this`snapshotGen, this`pending, this`cancelTarget, this`cancelReason
      ensures Valid() && haveSnapshot && snapshotGen == old(snapshotGen) + 1 && pending.None?
      ensures (cancelTarget, cancelReason) == Requested(sender, old(cancelTarget), old(cancelReason), T.ByNewerCopy)
    {
      haveSnapshot := true;
      snapshotGen := snapshotGen + 1;
      pending := None;
      RequestCancel(T.ByNewerCopy);
    }

    method CancelForNewerCopy()
      requires Valid()
      modifies this`haveSnapshot, this`snapshotGen, this`pending, this`cancelTarget, this`cancelReason
      ensures Valid() && !haveSnapshot && snapshotGen == old(snapshotGen) + 1 && pending.None?
      ensures (cancelTarget, cancelReason) == Requested(sender, old(cancelTarget), old(cancelReason), T.ByNewerCopy)
    {
      snapshotGen := snapshotGen + 1;
      haveSnapshot := false;
      pending := None;
      RequestCancel(T.ByNewerCopy);
    }

    method CancelByUser()
      requires Valid()
      modifies this`haveSnapshot, this`snapshotGen, this`pending, this`cancelTarget, this`cancelReason
      ensures Valid() && !haveSnapshot && snapshotGen == old(snapshotGen) + 1 && pending.None?
      ensures (cancelTarget, cancelReason) == Requested(sender, old(cancelTarget), old(cancelReason), T.User)
    {
      snapshotGen := snapshotGen + 1;
      haveSnapshot := false;
      pending := None;
      RequestCancel(T.User);
    }

    method NoteLocalCopyNotSent(why: PackageResult)
      requires Valid()
      modifies this`deferred, this`outcomes, this`last, this`book
      ensures Valid()
      ensures if CancelPending(sender, awaiting, cancelTarget)
              then book == old(book) && deferred == Some(Deferred(why, snapshotGen))
              else book == old(book).(ledger := old(book.ledger) + [Entry(0, NotSent, ByPackage(why))])
    {
      NoteNotSent(why, snapshotGen);
    }

    /** The worker takes the waiting snapshot, and with it the copy it belongs to. */
    method TakeSnapshot() returns (gen: Option<nat>)
      requires Valid()
      modifies this`haveSnapshot
      ensures Valid() && !haveSnapshot && gen == if old(haveSnapshot) then Some(snapshotGen) else None
    {
      gen := if haveSnapshot then Some(snapshotGen) else None;
      haveSnapshot := false;
    }

    /** The worker is done with a copy: its package waits to be offered only if no newer copy arrived. */
    method PackageBuilt(gen: nat, package: Package, transferId: nat)
      requires Valid() && transferId != 0 && transferId !in book.offered
      modifies this`pending, this`pendingGen
      ensures Valid()
      ensures gen != snapshotGen ==> pending == old(pending)
      ensures gen == snapshotGen ==>
                pending == Some(Renamed(package, transferId)) && pendingGen == gen
    {
      if gen != snapshotGen {
        return;
      }
      Await(Renamed(package, transferId), gen);
    }

    method Await(package: Package, gen: nat)
      modifies this`pending, this`pendingGen
      ensures pending == Some(package) && pendingGen == gen
    {
      pending := Some(package);
      pendingGen := gen;
    }

    method PackageRefused(gen: nat, why: PackageResult)
      requires Valid()
      modifies this`deferred, this`outcomes, this`last, this`book
      ensures Valid()
      ensures gen != snapshotGen ==> book == old(book) && deferred == old(deferred)
      ensures gen == snapshotGen ==>
                if CancelPending(sender, awaiting, cancelTarget)
                then book == old(book) && deferred == Some(Deferred(why, gen))
                else book == old(book).(ledger := old(book.ledger) + [Entry(0, NotSent, ByPackage(why))])
    {
      if gen != snapshotGen {
        return;
      }
      NoteNotSent(why, gen);
    }

    /** A file paste comes first: no new image meanwhile, and a running one is asked to stop and kept. */
    method PreemptForFilePaste(now: nat) returns (stopping: bool)
      requires Valid()
      modifies this`fileHold, this`preempted, this`cancelTarget, this`cancelReason
      ensures Valid() && fileHold && stopping == !sender.phase.Idle?
      ensures stopping ==>
                (cancelTarget, cancelReason) == Requested(sender, old(cancelTarget), old(cancelReason), T.ByNewerCopy)
      ensures preempted ==
                if stopping && lastOffered.Some? && lastOffered.value.offer.transferId == sender.offer.transferId
                   && old(preempted).None?
                then Some(Preempted(lastOffered.value, offerGen, now, false)) else old(preempted)
    {
      fileHold := true;
      if sender.phase.Idle? {
        return false;
      }
      if lastOffered.Some? && lastOffered.value.offer.transferId == sender.offer.transferId && preempted.None? {
        preempted := Some(Preempted(lastOffered.value, offerGen, now, false));
      }
      RequestCancel(T.ByNewerCopy);
      return true;
    }

    /** After the paste the kept image is offered again, as a new transfer, only if the host confirmed that it
        was cancelled and it is still the newest copy. */
    method AfterFilePaste(mayResume: bool, usable: bool, now: nat, transferId: nat)
      requires Valid() && transferId != 0 && transferId !in book.offered
      modifies this`fileHold, this`preempted, this`pending, this`pendingGen
      ensures Valid() && !fileHold && preempted.None?
      ensures var resumes := old(preempted).Some?
                             && Resumes(old(preempted).value, mayResume, usable,
                                        snapshotGen, old(pending), sender, now);
              && (resumes ==> Settled(book, old(preempted).value.package.offer.transferId)
                              && old(preempted).value.package.offer.transferId in confirmed)
              && pending == if resumes then Some(Renamed(old(preempted).value.package, transferId)) else old(pending)
    {
      fileHold := false;
      if preempted.None? {
        return;
      }
      var p := preempted.value;
      preempted := None;
      Resume(p, mayResume, usable, now, transferId);
    }

    method Resume(p: Preempted, mayResume: bool, usable: bool, now: nat, transferId: nat)
      requires Valid() && transferId != 0 && transferId !in book.offered
      modifies this`pending, this`pendingGen
      ensures Valid()
      ensures pending == if Resumes(p, mayResume, usable, snapshotGen, old(pending), sender, now)
                         then Some(Renamed(p.package, transferId)) else old(pending)
    {
      if mayResume && p.confirmedCancelled && p.gen == snapshotGen && pending.None? && sender.phase.Idle?
         && Elapsed(now, p.atUs) < RESUME_WITHIN_US && usable {
        Await(Renamed(p.package, transferId), snapshotGen);
      }
    }

    /** The file path shares the arbiter; its owners are never image transfers, and it never resets it. */
    method FileCalls(call: A.Call) returns (ok: bool)
      requires Valid() && !call.Reset? && (call.TryAcquire? ==> call.use == A.File) && call.owner !in book.offered
      modifies arbiter
      ensures Valid() && (arbiter.State(), ok) == A.Apply(old(arbiter.State()), call)
    {
      match call
      case TryAcquire(use, owner) => ok := arbiter.TryAcquire(use, owner);
      case Release(owner) => ok := arbiter.Release(owner);
      case BeginStop(owner) => ok := arbiter.BeginStop(owner);
    }

    // ---------------------------------------------------------------- Pump, up to where it lets go of the lock

    /** One turn of the control thread: the first of cancel, settle, offer and ask that has something to do. */
    method Pump(now: nat, usable: bool) returns (sent: Option<Message>)
      requires Valid() && pump.Home?
      modifies this`sender, this`awaiting, this`cancelTarget, this`cancelReason, this`pending, this`offerGen
      modifies this`lastOffered, this`deferred, this`nextSeq, this`nextStatusUs, this`bulkOpen, this`bulkClosePending
      modifies this`outcomes, this`last, this`pump, this`book, arbiter
      ensures Valid() && (sent.None? <==> pump.Home?)
      ensures book.accepted == old(book.accepted) && book.misnamed == old(book.misnamed)
      ensures book.declined == old(book.declined)
      ensures sent.Some? && sent.value.CancelMessage? <==>
                !old(sender).phase.Idle? && (old(pending).Some? || old(cancelTarget) != 0)
      ensures sent.Some? && sent.value.CancelMessage? ==>
                && sent.value.transferId == old(sender).offer.transferId && sender.phase.Idle?
                && awaiting.Some? && awaiting.value.transferId == sent.value.transferId
      ensures old(awaiting).Some? && now >= old(awaiting).value.deadlineUs
              && now >= old(awaiting).value.nextStatusUs ==>
                && awaiting.None?
                && book == Settling(old(book), old(awaiting).value.transferId,
                                    (CancelUnconfirmed, ByReason(old(awaiting).value.why)), old(deferred), snapshotGen)
      ensures sent.Some? && sent.value.OfferMessage? <==>
                && old(sender).phase.Idle? && old(awaiting).None? && old(pending).Some? && usable && !fileHold
                && old(arbiter.State()).use.Idle?
      ensures sent.Some? && sent.value.OfferMessage? ==>
                && sent.value.offer == old(pending).value.offer && pump == OfferSent(sent.value.offer.transferId)
                && old(pendingGen) == old(snapshotGen) == offerGen
                && book == old(book).(offered := old(book.offered) + {sent.value.offer.transferId})
                && A.HeldBy(arbiter.State(), sent.value.offer.transferId)
                && sender == T.Begin(old(pending).value.bytes, sent.value.offer, now) && lastOffered == old(pending)
    {
      sent := None;
      if !sender.phase.Idle? && (pending.Some? || cancelTarget != 0) {
        var m := StartCancel(now);
        sent := Some(m);
      } else if awaiting.Some? && now >= awaiting.value.nextStatusUs {
        if now >= awaiting.value.deadlineUs {
          SettleAwaiting(CancelUnconfirmed, ByReason(awaiting.value.why));
        } else {
          var m := AskAwaited(now);
          sent := Some(m);
        }
      } else {
        sent := OfferOrAsk(now, usable);
      }
    }

    /** The newest package once it gets the bulk, or else how the transfer being served stands. */
    method OfferOrAsk(now: nat, usable: bool) returns (sent: Option<Message>)
      requires Valid() && pump.Home?
      modifies this`sender, this`pending, this`offerGen, this`lastOffered, this`nextSeq, this`pump, this`book
      modifies this`nextStatusUs, arbiter
      ensures Valid() && (sent.None? <==> pump.Home?) && !(sent.Some? && sent.value.CancelMessage?)
      ensures book == if sent.Some? && sent.value.OfferMessage?
                      then old(book).(offered := old(book.offered) + {sent.value.offer.transferId}) else old(book)
      ensures sent.Some? && sent.value.OfferMessage? <==>
                && old(sender).phase.Idle? && awaiting.None? && old(pending).Some? && usable && !fileHold
                && old(arbiter.State()).use.Idle?
      ensures sent.Some? && sent.value.OfferMessage? ==>
                && sent.value.offer == old(pending).value.offer && pump == OfferSent(sent.value.offer.transferId)
                && offerGen == pendingGen == snapshotGen
                && A.HeldBy(arbiter.State(), sent.value.offer.transferId)
                && sender == T.Begin(old(pending).value.bytes, sent.value.offer, now) && lastOffered == old(pending)
      ensures sent.Some? && sent.value.StatusMessage? ==>
                && sender == old(sender) && sender.phase.Serving?
                && sent.value.transferId == sender.offer.transferId
      ensures sent.None? ==> sender == old(sender) && pending == old(pending)
    {
      sent := None;
      var offered := false;
      if sender.phase.Idle? && awaiting.None? && pending.Some? && usable && !fileHold {
        offered := arbiter.TryAcquire(A.Image, pending.value.offer.transferId);
      }
      if offered {
        var m := StartOffer(now);
        sent := Some(m);
      } else if sender.phase.Serving? && now >= nextStatusUs {
        var m := AskStatus(now);
        sent := Some(m);
      }
    }

    /** Sending stops here at once; what happened on the host is a separate question the answer settles. */
    method StartCancel(now: nat) returns (m: Message)
      requires Valid() && pump.Home? && !sender.phase.Idle?
      modifies this`sender, this`awaiting, this`cancelTarget, this`cancelReason, this`nextSeq
      modifies this`bulkOpen, this`bulkClosePending, this`pump
      ensures Valid() && sender == T.SenderEnded(old(sender)) && cancelTarget == 0
      ensures m == CancelMessage(nextSeq, if old(cancelTarget) != 0 then old(cancelReason) else T.ByNewerCopy,
                                 old(sender).offer.transferId, old(sender).epochTag)
      ensures awaiting == Some(Awaiting(m.transferId, m.epochTag, m.reason, now + STATUS_INTERVAL_US,
                                        now + CANCEL_CONFIRM_BUDGET_US))
      ensures pump == CancelSent(m.seqNo, m.transferId, m.reason)
    {
      var cancelThis := cancelTarget != 0 && !sender.phase.Idle? && sender.offer.transferId == cancelTarget;
      var why := if cancelThis then cancelReason else T.ByNewerCopy;
      nextSeq := Bump(nextSeq);
      m := CancelMessage(nextSeq, why, sender.offer.transferId, sender.epochTag);
      StopSending(Awaiting(m.transferId, m.epochTag, why, now + STATUS_INTERVAL_US, now + CANCEL_CONFIRM_BUDGET_US));
      pump := CancelSent(m.seqNo, m.transferId, why);
    }

    method StopSending(settling: Awaiting)
      requires Valid() && pump.Home? && !sender.phase.Idle? && settling.transferId == sender.offer.transferId
      modifies this`sender, this`awaiting, this`cancelTarget, this`cancelReason, this`bulkOpen, this`bulkClosePending
      ensures Valid() && sender == T.SenderEnded(old(sender)) && cancelTarget == 0 && awaiting == Some(settling)
    {
      cancelTarget := 0;
      cancelReason := T.ByNewerCopy;
      awaiting := Some(settling);
      sender := T.SenderEnded(sender);
      CloseBulk();
    }

    method AskAwaited(now: nat) returns (m: Message)
      requires Valid() && pump.Home? && awaiting.Some?
      modifies this`awaiting, this`nextSeq, this`pump
      ensures Valid() && m == StatusMessage(nextSeq, old(awaiting).value.transferId, old(awaiting).value.epochTag)
      ensures awaiting == Some(old(awaiting).value.(nextStatusUs := now + STATUS_INTERVAL_US))
      ensures pump == AwaitedAsked(m.seqNo, m.transferId)
    {
      nextSeq := Bump(nextSeq);
      m := StatusMessage(nextSeq, awaiting.value.transferId, awaiting.value.epochTag);
      awaiting := Some(awaiting.value.(nextStatusUs := now + STATUS_INTERVAL_US));
      pump := AwaitedAsked(m.seqNo, m.transferId);
    }

    /** Reached only with the bulk taken in the package's name, nothing running and nothing unsettled. */
    method StartOffer(now: nat) returns (m: Message)
      requires Exclusive(sender, awaiting, cancelTarget) && BookOk(book, 0)
      requires Newest(snapshotGen, pending, pendingGen, offerGen, book) && Kept(preempted, book, confirmed)
      requires Told(book, outcomes, last) && deferred.None? && !bulkOpen && !bulkClosePending
      requires sender.phase.Idle? && awaiting.None? && pending.Some? && pump.Home?
      requires arbiter.State() == A.Hold(A.Image, pending.value.offer.transferId, A.Idle)
      modifies this`sender, this`pending, this`offerGen, this`lastOffered, this`nextSeq, this`pump, this`book
      ensures Valid() && pending.None? && offerGen == pendingGen && lastOffered == old(pending)
      ensures m == OfferMessage(nextSeq, old(pending).value.offer) && pump == OfferSent(m.offer.transferId)
      ensures sender == T.Begin(old(pending).value.bytes, m.offer, now)
      ensures book == old(book).(offered := old(book.offered) + {m.offer.transferId})
    {
      var p := pending.value;
      pending := None;
      offerGen := pendingGen;
      m := AnnounceOffer(p);
      BeginSending(p, now);
    }

    method BeginSending(p: Package, now: nat)
      requires Exclusive(sender, awaiting, cancelTarget) && sender.phase.Idle? && awaiting.None?
      requires BookOk(book, 0) && Kept(preempted, book, confirmed) && Told(book, outcomes, last)
      requires p.offer.transferId != 0 && p.offer.transferId !in book.offered && pump == OfferSent(p.offer.transferId)
      requires offerGen <= snapshotGen && pending.None? && deferred.None? && !bulkOpen && !bulkClosePending
      requires arbiter.State() == A.Hold(A.Image, p.offer.transferId, A.Idle)
      modifies this`sender, this`book
      ensures Valid() && sender == T.Begin(p.bytes, p.offer, now)
      ensures book == old(book).(offered := old(book.offered) + {p.offer.transferId})
    {
      OfferKeepsBook(book, p.offer.transferId);
      sender := T.Begin(p.bytes, p.offer, now);
      book := book.(offered := book.offered + {p.offer.transferId});
    }

    method AnnounceOffer(p: Package) returns (m: Message)
      modifies this`lastOffered, this`nextSeq, this`pump
      ensures m == OfferMessage(nextSeq, p.offer) && pump == OfferSent(p.offer.transferId) && lastOffered == Some(p)
    {
      nextSeq := Bump(nextSeq);
      m := OfferMessage(nextSeq, p.offer);
      lastOffered := Some(p);
      pump := OfferSent(p.offer.transferId);
    }

    method AskStatus(now: nat) returns (m: Message)
      requires Valid() && pump.Home? && sender.phase.Serving?
      modifies this`nextSeq, this`nextStatusUs, this`pump
      ensures Valid() && pump == StatusAsked && nextStatusUs == now + STATUS_INTERVAL_US
      ensures m == StatusMessage(nextSeq, sender.offer.transferId, sender.epochTag)
    {
      nextSeq := Bump(nextSeq);
      m := StatusMessage(nextSeq, sender.offer.transferId, sender.epochTag);
      nextStatusUs := now + STATUS_INTERVAL_US;
      pump := StatusAsked;
    }

    // ---------------------------------------------------------------- Pump, with the answer (None: the link failed)

    method OnCancelReply(reply: Option<StatusReply>) returns (result: int)
      requires Valid() && pump.CancelSent?
      modifies this`awaiting, this`deferred, this`outcomes, this`last, this`book, this`preempted, this`confirmed
      modifies this`pump, arbiter
      ensures Valid() && pump.Home? && result == if reply.None? then -1 else 1
      ensures confirmed == old(confirmed) + if reply.Some? && reply.value.seqNo == old(pump).seqNo
                                            then ConfirmedBy(old(awaiting), reply.value) else {}
      ensures reply.None? && old(awaiting).Some? && old(awaiting).value.transferId == old(pump).transferId ==>
                && awaiting.None?
                && book == Settling(old(book), old(pump).transferId, (CancelUnconfirmed, ByReason(old(pump).why)),
                                    old(deferred), snapshotGen)
      ensures reply.Some? && reply.value.seqNo == old(pump).seqNo && Settles(old(awaiting), reply.value) ==>
                && awaiting.None?
                && book == Settling(old(book), reply.value.transferId,
                                    CancelOutcome(old(awaiting).value, reply.value).value, old(deferred), snapshotGen)
      ensures reply.Some? && !(reply.value.seqNo == old(pump).seqNo && Settles(old(awaiting), reply.value)) ==>
                book == old(book) && awaiting == old(awaiting)
    {
      var asked := pump;
      pump := Home;
      if reply.None? {
        if awaiting.Some? && awaiting.value.transferId == asked.transferId {
          SettleAwaiting(CancelUnconfirmed, ByReason(asked.why));
        }
        return -1;
      }
      if reply.value.seqNo == asked.seqNo {
        ApplyCancelAnswer(reply.value);
      }
      return 1;
    }

    method OnAwaitedReply(reply: Option<StatusReply>) returns (result: int)
      requires Valid() && pump.AwaitedAsked?
      modifies this`awaiting, this`deferred, this`outcomes, this`last, this`book, this`preempted, this`confirmed
      modifies this`pump, arbiter
      ensures Valid() && pump.Home? && result == if reply.None? then -1 else 1
      ensures confirmed == old(confirmed) + if reply.Some? && reply.value.seqNo == old(pump).seqNo
                                            then ConfirmedBy(old(awaiting), reply.value) else {}
      ensures reply.None? && old(awaiting).Some? && old(awaiting).value.transferId == old(pump).transferId ==>
                && awaiting.None?
                && book == Settling(old(book), old(pump).transferId,
                                    (CancelUnconfirmed, ByReason(old(awaiting).value.why)),
                                    old(deferred), snapshotGen)
      ensures reply.Some? && reply.value.seqNo == old(pump).seqNo && Settles(old(awaiting), reply.value) ==>
                && awaiting.None?
                && book == Settling(old(book), reply.value.transferId,
                                    CancelOutcome(old(awaiting).value, reply.value).value, old(deferred), snapshotGen)
      ensures reply.Some? && !(reply.value.seqNo == old(pump).seqNo && Settles(old(awaiting), reply.value)) ==>
                book == old(book) && awaiting == old(awaiting)
    {
      var asked := pump;
      pump := Home;
      if reply.None? {
        if awaiting.Some? && awaiting.value.transferId == asked.transferId {
          SettleAwaiting(CancelUnconfirmed, ByReason(awaiting.value.why));
        }
        return -1;
      }
      if reply.value.seqNo == asked.seqNo {
        ApplyCancelAnswer(reply.value);
      }
      return 1;
    }

    /** The host's verdict on the offer. A reply in another transfer's name is read as a refusal although the
        sender stays on offer: that transfer runs on without the bulk (`misnamed`). */
    method OnOfferReply(reply: Option<T.OfferReply>, now: nat) returns (result: int)
      requires Valid() && pump.OfferSent?
      modifies this`sender, this`cancelTarget, this`cancelReason, this`deferred, this`outcomes, this`last, this`book
      modifies this`nextStatusUs, this`bulkOpen, this`bulkClosePending, this`pump, arbiter
      ensures Valid() && pump.Home? && result == if reply.None? then -1 else 1
      ensures reply.None? ==> sender == old(sender) && book == old(book)
      ensures reply.Some? ==> sender == T.OnOfferReply(old(sender), reply.value).0
      ensures reply.Some? && T.OnOfferReply(old(sender), reply.value).1 ==>
                book.ledger == old(book.ledger) && nextStatusUs == now + STATUS_INTERVAL_US && bulkOpen
      ensures var id := old(pump).transferId;
              && (book.accepted == if reply.Some? && T.OnOfferReply(old(sender), reply.value).1
                                   then old(book.accepted) + {id} else old(book.accepted))
              && (book.declined == if reply.Some? && Declines(old(sender), reply.value)
                                   then old(book.declined) + {id} else old(book.declined))
              && (book.misnamed == if reply.Some? && old(sender).phase.Offering? && reply.value.transferId != id
                                   then old(book.misnamed) + {id} else old(book.misnamed))
              && (book.told == if reply.Some? && old(sender).phase.Offering? && reply.value.transferId != id
                                  && offerGen == snapshotGen
                               then old(book.told) + {id} else old(book.told))
              && (id in book.misnamed ==> sender.phase.Offering? && !A.HeldBy(arbiter.State(), id))
      ensures reply.Some? && !T.OnOfferReply(old(sender), reply.value).1 ==>
                book.ledger == old(book.ledger)
                  + Refusals(old(pump).transferId, reply.value.verdict, offerGen, snapshotGen)
                  + Flushed(old(deferred), snapshotGen)
    {
      if reply.None? {
        pump := Home;
        return -1;
      }
      if T.OnOfferReply(sender, reply.value).1 {
        AcceptOffer(reply.value, now);
      } else {
        RefuseOffer(reply.value);
      }
      return 1;
    }

    /** Serving from here on: the channel opens, and the first status is asked for after an interval. */
    method AcceptOffer(r: T.OfferReply, now: nat)
      requires Valid() && pump.OfferSent? && T.OnOfferReply(sender, r).1
      modifies this`sender, this`book, this`nextStatusUs, this`bulkOpen, this`bulkClosePending, this`pump
      ensures Valid() && pump.Home? && sender == T.OnOfferReply(old(sender), r).0
      ensures book == old(book).(accepted := old(book.accepted) + {old(pump).transferId})
      ensures nextStatusUs == now + STATUS_INTERVAL_US && bulkOpen
    {
      AcceptKeepsBook(book, pump.transferId);
      book := book.(accepted := book.accepted + {pump.transferId});
      sender := T.OnOfferReply(sender, r).0;
      nextStatusUs := now + STATUS_INTERVAL_US;
      bulkClosePending := false;
      bulkOpen := true;
      pump := Home;
    }

    method RefuseOffer(r: T.OfferReply)
      requires Valid() && pump.OfferSent? && !T.OnOfferReply(sender, r).1
      modifies this`sender, this`cancelTarget, this`cancelReason, this`deferred, this`outcomes, this`last, this`book
      modifies this`pump, arbiter
      ensures Valid() && pump.Home? && sender == T.OnOfferReply(old(sender), r).0
      ensures var refused := Withdrawn(old(book), old(sender), r, offerGen, snapshotGen, old(pump).transferId);
              && book == refused.(ledger := refused.ledger + Flushed(old(deferred), snapshotGen))
              && (old(pump).transferId in book.misnamed ==> !A.HeldBy(arbiter.State(), old(pump).transferId))
    {
      Withdraw(r);
      TellDeferred();
    }

    /** With no cancel pending, the notice that waited goes out now, and the turn is over. */
    method TellDeferred()
      requires Core() && awaiting.None? && cancelTarget == 0
      modifies this`deferred, this`outcomes, this`last, this`book, this`pump
      ensures Core() && deferred.None? && pump.Home?
      ensures book == old(book).(ledger := old(book.ledger) + Flushed(old(deferred), snapshotGen))
    {
      pump := Home;
      FlushDeferredNotSent();
    }

    method Withdraw(r: T.OfferReply)
      requires Valid() && pump.OfferSent? && !T.OnOfferReply(sender, r).1
      modifies this`sender, this`cancelTarget, this`cancelReason, this`outcomes, this`last, this`book, arbiter
      ensures Core() && cancelTarget == 0 && awaiting.None? && sender == T.OnOfferReply(old(sender), r).0
      ensures !sender.phase.Serving?
      ensures book == Withdrawn(old(book), old(sender), r, offerGen, snapshotGen, pump.transferId)
      ensures pump.transferId in book.misnamed ==> !A.HeldBy(arbiter.State(), pump.transferId)
    {
      var id := pump.transferId;
      if sender.phase.Offering? && r.transferId == id {
        sender := T.SenderEnded(sender);
        Refusal(id, r.verdict);
      } else if sender.phase.Offering? {
        MisnamedRefusal(id, r.verdict);
      } else {
        StaleRefusal(id);
        assert book.ledger + [] == book.ledger;
      }
    }

    /** The offered transfer ended with the refusal. */
    method Refusal(id: nat, verdict: T.Verdict)
      requires sender.phase.Idle? && awaiting.None? && Owed(book, id) && id !in book.accepted
      requires cancelTarget == 0 || cancelTarget == id
      requires BookOk(book, id) && Arbitrated(arbiter.State(), id, book) && Copies() && Resumable() && Telling()
      modifies this`cancelTarget, this`cancelReason, this`outcomes, this`last, this`book, arbiter
      ensures Core() && cancelTarget == 0
      ensures book == old(book).(declined := old(book.declined) + {id},
                                 ledger := old(book.ledger) + Refusals(id, verdict, offerGen, snapshotGen))
    {
      DroppingKeepsBook(book, id);
      RefusedKeepsBook(book, Entry(id, Refused, ByVerdict(verdict)));
      book := book.(declined := book.declined + {id});
      LetGo(id);
      if offerGen == snapshotGen {
        RecordOutcome(Refused, ByVerdict(verdict), id);
      } else {
        assert book.ledger + [] == book.ledger;
      }
    }

    method MisnamedRefusal(id: nat, verdict: T.Verdict)
      requires Core() && sender.phase.Offering? && sender.offer.transferId == id
      requires Owed(book, id) && id !in book.accepted
      modifies this`cancelTarget, this`cancelReason, this`outcomes, this`last, this`book, arbiter
      ensures Core() && cancelTarget == 0 && !A.HeldBy(arbiter.State(), id)
      ensures book == old(book).(misnamed := old(book.misnamed) + {id},
                                 ledger := old(book.ledger) + Refusals(id, verdict, offerGen, snapshotGen),
                                 told := if offerGen == snapshotGen then old(book.told) + {id} else old(book.told))
    {
      MisnamingKeepsBook(book, id, Entry(id, Refused, ByVerdict(verdict)));
      book := book.(misnamed := book.misnamed + {id});
      LetGo(id);
      if offerGen == snapshotGen {
        RecordOutcome(Refused, ByVerdict(verdict), id);
        book := book.(told := book.told + {id});
      } else {
        assert book.ledger + [] == book.ledger;
      }
    }

    /** The session ended while the answer was out: its transfer already has its outcome, nothing is left. */
    method StaleRefusal(id: nat)
      requires Core() && sender.phase.Idle? && awaiting.None? && id in book.offered && offerGen < snapshotGen
      modifies this`cancelTarget, this`cancelReason, arbiter
      ensures Core() && cancelTarget == 0 && arbiter.State() == old(arbiter.State())
    {
      LetGo(id);
    }

    method OnStatusReply(reply: Option<StatusReply>) returns (result: int)
      requires Valid() && pump.StatusAsked?
      modifies this`sender, this`cancelTarget, this`cancelReason, this`deferred, this`outcomes, this`last, this`book
      modifies this`bulkOpen, this`bulkClosePending, this`pump, arbiter
      ensures Valid() && pump.Home? && result == if reply.None? then -1 else 1
      ensures var over := reply.Some? && !old(sender).phase.Idle?
                          && reply.value.transferId == old(sender).offer.transferId && !T.Active(reply.value.state);
              if over
              then sender == T.SenderEnded(old(sender))
                   && book == Settling(old(book), reply.value.transferId,
                                       EndOutcome(reply.value.state, reply.value.reason), old(deferred), snapshotGen)
              else sender == old(sender) && book == old(book)
    {
      pump := Home;
      if reply.None? {
        return -1;
      }
      TakeStatus(reply.value);
      return 1;
    }

    method TakeStatus(r: StatusReply)
      requires Valid() && pump.Home?
      modifies this`sender, this`cancelTarget, this`cancelReason, this`deferred, this`outcomes, this`last, this`book
      modifies this`bulkOpen, this`bulkClosePending, arbiter
      ensures Valid()
      ensures if !old(sender).phase.Idle? && r.transferId == old(sender).offer.transferId && !T.Active(r.state)
              then sender == T.SenderEnded(old(sender))
                   && book == Settling(old(book), r.transferId, EndOutcome(r.state, r.reason),
                                       old(deferred), snapshotGen)
              else sender == old(sender) && book == old(book)
    {
      if !sender.phase.Idle? && r.transferId == sender.offer.transferId && !T.Active(r.state) {
        EndByHost(r.state, r.reason);
      }
      CloseIfPending();
    }

    method EndByHost(state: T.Phase, why: T.Reason)
      requires Core() && pump.Home? && !sender.phase.Idle?
      modifies this`sender, this`cancelTarget, this`cancelReason, this`deferred, this`outcomes, this`last, this`book
      modifies this`bulkClosePending, arbiter
      ensures Core() && sender == T.SenderEnded(old(sender)) && bulkClosePending && deferred.None?
      ensures book == Settling(old(book), old(sender).offer.transferId, EndOutcome(state, why),
                              old(deferred), snapshotGen)
    {
      var (o, detail) := EndOutcome(state, why);
      ghost var ended := Entry(sender.offer.transferId, o, detail);
      EndActive(state, why);
      FlushDeferredNotSent();
      assert old(book.ledger) + [ended] + Flushed(old(deferred), snapshotGen)
          == old(book.ledger) + ([ended] + Flushed(old(deferred), snapshotGen));
    }

    method CloseBulk()
      modifies this`bulkOpen, this`bulkClosePending
      ensures !bulkOpen && !bulkClosePending
    {
      bulkClosePending := false;
      bulkOpen := false;
    }

    method CloseIfPending()
      requires Core() && pump.Home? && (deferred.Some? ==> CancelPending(sender, awaiting, cancelTarget))
      requires bulkOpen && !bulkClosePending <==> sender.phase.Serving?
      modifies this`bulkOpen, this`bulkClosePending
      ensures Valid() && !bulkClosePending && bulkOpen == (old(bulkOpen) && !old(bulkClosePending))
    {
      if bulkClosePending {
        bulkOpen := false;
      }
      bulkClosePending := false;
    }

    /** The session is over, wherever Pump was: nothing runs any more, the image side holds no bulk, and every
        transfer the host ever accepted, or may have accepted, has exactly one recorded outcome. */
    method EndSession()
      requires Valid()
      modifies this, arbiter
      ensures Valid() && pump == old(pump) && Running(sender, awaiting) == 0 && !bulkOpen
      ensures A.Kind(arbiter.State()) != A.Image
      ensures book.accepted == old(book.accepted) && confirmed == old(confirmed)
      ensures Complete(book)
      ensures book == if !old(sender).phase.Idle?
                      then old(book).(ledger := old(book.ledger)
                             + [Entry(old(sender).offer.transferId, Outcome.Cancelled, ByReason(T.Session))])
                      else if old(awaiting).Some?
                      then Settling(old(book), old(awaiting).value.transferId,
                                    (CancelUnconfirmed, ByReason(old(awaiting).value.why)),
                                    old(deferred), old(snapshotGen))
                      else old(book)
      ensures pending.None? && deferred.None? && snapshotGen == old(snapshotGen) + 1
    {
      EndRunning();
      AllTallied(book);
      ForgetCopies();
    }

    method ForgetCopies()
      requires Core() && sender.phase.Idle? && awaiting.None?
      requires pump.OfferSent? ==>
                 Owed(book, pump.transferId) && pump.transferId !in book.accepted
      modifies this`deferred, this`pending, this`haveSnapshot, this`snapshotGen, this`cancelTarget
      modifies this`bulkOpen, this`bulkClosePending
      ensures Valid() && !bulkOpen && pending.None? && deferred.None? && snapshotGen == old(snapshotGen) + 1
    {
      DropCopies();
      cancelTarget := 0;
      CloseBulk();
    }

    method DropCopies()
      modifies this`deferred, this`pending, this`haveSnapshot, this`snapshotGen
      ensures deferred.None? && pending.None? && !haveSnapshot && snapshotGen == old(snapshotGen) + 1
    {
      deferred := None;
      pending := None;
      haveSnapshot := false;
      snapshotGen := snapshotGen + 1;
    }

    method EndRunning()
      requires Core()
      modifies this`sender, this`awaiting, this`deferred, this`cancelTarget, this`cancelReason
      modifies this`outcomes, this`last, this`book, this`bulkClosePending, arbiter
      ensures Core() && sender.phase.Idle? && awaiting.None?
      ensures book == if !old(sender).phase.Idle?
                      then old(book).(ledger := old(book.ledger)
                             + [Entry(old(sender).offer.transferId, Outcome.Cancelled, ByReason(T.Session))])
                      else if old(awaiting).Some?
                      then Settling(old(book), old(awaiting).value.transferId,
                                    (CancelUnconfirmed, ByReason(old(awaiting).value.why)), old(deferred), snapshotGen)
                      else old(book)
    {
      if !sender.phase.Idle? {
        EndActive(T.Cancelled, T.Session);
      }
      if awaiting.Some? {
        SettleAwaiting(CancelUnconfirmed, ByReason(awaiting.value.why));
      }
    }
  }

  // ------------------------------------------------------------------ a misnamed answer

  method PackageWaiting(package: Package, id: nat) returns (c: ClipImageClient)
    requires id != 0
    ensures c.Valid() && fresh(c) && fresh(c.arbiter) && c.arbiter.State() == A.FREE && c.pump.Home? && !c.fileHold
    ensures c.sender.phase.Idle? && c.awaiting.None? && c.pending == Some(Renamed(package, id))
    ensures c.pendingGen == c.snapshotGen && c.book.offered == {}
  {
    var arbiter := new A.Arbiter();
    c := new ClipImageClient(arbiter);
    c.SubmitSnapshot();
    var gen := c.TakeSnapshot();
    c.PackageBuilt(gen.value, package, id);
  }

  method OfferOut(package: Package, id: nat) returns (c: ClipImageClient)
    requires id != 0
    ensures c.Valid() && fresh(c) && fresh(c.arbiter) && c.pump == OfferSent(id)
    ensures c.sender.phase.Offering? && c.offerGen == c.snapshotGen
  {
    c := PackageWaiting(package, id);
    var sent := c.Pump(0, true);
    assert sent.Some? && sent.value.OfferMessage?;
  }

  /** A package is offered and the answer names another transfer: the one offered is recorded as refused,
      stays on offer without the bulk, and is recorded again when the session ends. */
  method MisnamedOfferEndsTwice(package: Package, id: nat, other: nat, verdict: T.Verdict)
    returns (c: ClipImageClient)
    requires id != 0 && other != id
    ensures c.Valid() && id in c.book.misnamed && Count(c.book.ledger, id) == 2
  {
    c := OfferOut(package, id);
    var _ := c.OnOfferReply(Some(T.OfferReply(other, verdict, 0, 0)), 0);
    assert id in c.book.misnamed && id in c.book.told;
    c.EndSession();
    MisnamedTwiceIff(c.book, 0, id);
  }

  /** Whenever the lock is free, whatever calls and answers came before: a sender is never active while an
      older cancel is unsettled; a pending cancel names the active transfer; the image side holds the bulk
      exactly while a transfer runs, in its name; a transfer not declined has no outcome while it runs and
      exactly one afterwards; a deferred notice has a cancel to wait for; the channel is open while serving. */
  lemma WhatAlwaysHolds(c: ClipImageClient, owed: nat)
    requires c.Valid()
    ensures c.sender.phase.Idle? || c.awaiting.None?
    ensures c.cancelTarget != 0 ==> !c.sender.phase.Idle? && c.cancelTarget == c.sender.offer.transferId
    ensures var id := Running(c.sender, c.awaiting);
            && (Owed(c.book, owed) ==> Count(c.book.ledger, owed) == (if owed == id then 0 else 1))
            && (id !in c.book.misnamed ==>
                  && (id != 0 <==> A.Kind(c.arbiter.State()) == A.Image)
                  && (id != 0 ==> A.HeldBy(c.arbiter.State(), id)))
    ensures c.deferred.Some? ==> CancelPending(c.sender, c.awaiting, c.cancelTarget)
    ensures c.bulkOpen <==> c.sender.phase.Serving?
  {
    if Owed(c.book, owed) {
      assert Tallied(c.book, Running(c.sender, c.awaiting), owed);
    }
  }
}
