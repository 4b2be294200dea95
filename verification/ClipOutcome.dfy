/** What the host says about a transfer, over whole runs of both ends and the network: an end is final unless the
    same offer is accepted again. With the viewer's client: an image offered again after a file paste is not on
    the host's clipboard already. */
module ClipOutcome {
  import opened Common
  import opened ClipTransfer
  import opened ClipNetwork
  import ClipProgress
  import C = ClipClient
  import BulkGen

  function PhaseOf(y: System, id: nat): Phase {
    StatusOf(y.r, id).phase
  }

  predicate Offers(e: Event, id: nat) {
    e.DeliverOffer? && e.offer.transferId == id
  }

  predicate Accepts(y: System, e: Event, id: nat) {
    && Offers(e, id) && e.offer in y.offers
    && JudgeOffer(y.r, e.offer, e.enabled, e.allocOk).Accept?
  }

  /** One step: the host's final word on a transfer stands, or is forgotten for another transfer's sake, if and
      only if the step does not accept an offer of that transfer again. */
  lemma EndStandsIff(y: System, e: Event, id: nat)
    requires id != 0 && Terminal(PhaseOf(y, id))
    ensures PhaseOf(Step(y, e), id) in {PhaseOf(y, id), Unknown} <==> !Accepts(y, e, id)
    ensures Accepts(y, e, id) ==> PhaseOf(Step(y, e), id).Pulling?
  {
  }

  lemma UnheardStays(y: System, e: Event, id: nat)
    requires PhaseOf(y, id).Unknown? && !Accepts(y, e, id)
    ensures PhaseOf(Step(y, e), id).Unknown?
  {
  }

  lemma {:induction false} EndStands(y: System, events: seq<Event>, id: nat)
    requires Terminal(PhaseOf(y, id)) || PhaseOf(y, id).Unknown?
    requires forall e | e in events :: !Offers(e, id)
    ensures PhaseOf(Run(y, events), id) in {PhaseOf(y, id), Unknown}
    decreases |events|
  {
    if events != [] {
      assert events[0] in events;
      if PhaseOf(y, id).Unknown? {
        UnheardStays(y, events[0], id);
      } else {
        EndStandsIff(y, events[0], id);
      }
      EndStands(Step(y, events[0]), events[1..], id);
    }
  }

  /** A transfer of which no offer was delivered is unknown. */
  lemma NeverOffered(processRandom: nat, pullWindow: nat, seed: BulkGen.Word32, events: seq<Event>, id: nat)
    requires forall e | e in events :: !Offers(e, id)
    ensures PhaseOf(Run(Start(processRandom, pullWindow, seed), events), id).Unknown?
  {
    EndStands(Start(processRandom, pullWindow, seed), events, id);
  }

  ghost predicate OfferedOnce(events: seq<Event>, id: nat) {
    forall i, j | 0 <= i < |events| && 0 <= j < |events| && Offers(events[i], id) && Offers(events[j], id) :: i == j
  }

  /** In every run in which a transfer's offer is delivered at most once, the host's final word on it is one and
      the same whenever it is given. */
  lemma OneEnd(processRandom: nat, pullWindow: nat, seed: BulkGen.Word32, events: seq<Event>, i: nat, j: nat, id: nat)
    requires OfferedOnce(events, id) && i <= j <= |events|
    requires var start := Start(processRandom, pullWindow, seed);
             Terminal(PhaseOf(Run(start, events[..i]), id)) && Terminal(PhaseOf(Run(start, events[..j]), id))
    ensures var start := Start(processRandom, pullWindow, seed);
            PhaseOf(Run(start, events[..i]), id) == PhaseOf(Run(start, events[..j]), id)
  {
    var start := Start(processRandom, pullWindow, seed);
    var before, between := events[..i], events[i..j];
    if k :| 0 <= k < i && Offers(before[k], id) {
      forall e | e in between ensures !Offers(e, id) {
        var m :| 0 <= m < |between| && between[m] == e;
        assert e == events[i + m] && before[k] == events[k];
      }
      EndStands(Run(start, before), between, id);
      ClipProgress.RunAppend(start, before, between);
      assert before + between == events[..j];
    } else {
      NeverOffered(processRandom, pullWindow, seed, before, id);
    }
  }

  /** Each confirmation the client holds is an answer the host gave at some point of the run. */
  ghost predicate Answered(confirmed: set<nat>, start: System, events: seq<Event>) {
    forall id | id in confirmed :: exists i | 0 <= i <= |events| :: PhaseOf(Run(start, events[..i]), id).Cancelled?
  }

  /** The image kept through a file paste is offered again only if its transfer was confirmed cancelled: then at
      no point of the run, before or after, did the host have it published. */
  lemma ResumedIsNotPublished(processRandom: nat, pullWindow: nat, seed: BulkGen.Word32, events: seq<Event>,
                              kept: Option<C.Preempted>, book: C.Book, confirmed: set<nat>, j: nat)
    requires C.Kept(kept, book, confirmed) && kept.Some? && kept.value.confirmedCancelled
    requires Answered(confirmed, Start(processRandom, pullWindow, seed), events)
    requires OfferedOnce(events, kept.value.package.offer.transferId) && j <= |events|
    ensures var id := kept.value.package.offer.transferId;
            !PhaseOf(Run(Start(processRandom, pullWindow, seed), events[..j]), id).Published?
  {
    var id := kept.value.package.offer.transferId;
    var start := Start(processRandom, pullWindow, seed);
    var i :| 0 <= i <= |events| && PhaseOf(Run(start, events[..i]), id).Cancelled?;
    if PhaseOf(Run(start, events[..j]), id).Published? {
      OneEnd(processRandom, pullWindow, seed, events, Min(i, j), Max(i, j), id);
    }
  }
}
