/** The bulk pacer's queue and its serving step (bulk_pacer.hpp, bulk_pacer.cpp): acknowledgements ahead of
    data, one entry per data fragment, resends guarded, everything paid for at the token bucket.

    The serving thread's look at the head and its dequeue are one step here; what goes wrong when another
    thread gets in between is the subject of `PacerRace`. */
module Pacer {
  import opened Common
  import TB = TokenBucket

  const MAX_QUEUED: nat := 256
  const KEPT_MESSAGES: nat := 64
  const YIELD_US: nat := 1000
  const LOOK_AGAIN_US: nat := 50000

  datatype Key = Key(streamId: nat, messageSeq: nat, fragIndex: nat)

  /** A datagram, with the key of the data fragment it carries; anything else is an acknowledgement. */
  datatype Datagram = Datagram(key: Option<Key>, payload: seq<bv8>)

  /** Two queues, each in arrival order; when each recent fragment last left; and the bucket. */
  datatype State = State(acks: seq<Datagram>, data: seq<Datagram>, sent: map<Key, nat>, newestSeq: nat,
                         bucket: TB.Bucket)

  const IDLE := State([], [], map[], 0, TB.EMPTY)

  predicate Queued(q: seq<Datagram>, key: Key) {
    exists i | 0 <= i < |q| :: q[i].key == Some(key)
  }

  predicate TooSoon(sent: map<Key, nat>, key: Key, now: nat, guardUs: nat) {
    key in sent && guardUs != 0 && Elapsed(now, sent[key]) < guardUs
  }

  /** Whether this datagram enters a queue, and what the caller is told. */
  function Admission(s: State, d: Datagram, now: nat, guardUs: nat): (bool, bool) {
    if d.payload == [] then (false, false)
    else if d.key.Some? && (Queued(s.data, d.key.value) || TooSoon(s.sent, d.key.value, now, guardUs))
    then (false, true)
    else if |s.acks| + |s.data| >= MAX_QUEUED then (false, false)
    else (true, true)
  }

  function Enqueued(s: State, d: Datagram, now: nat, guardUs: nat): State {
    if !Admission(s, d, now, guardUs).0 then s
    else if d.key.Some? then s.(data := s.data + [d])
    else s.(acks := s.acks + [d])
  }

  // ------------------------------------------------------------------ what has left

  predicate LessEq(a: Key, b: Key) {
    || a.streamId < b.streamId
    || (a.streamId == b.streamId && (a.messageSeq < b.messageSeq
                                     || (a.messageSeq == b.messageSeq && a.fragIndex <= b.fragIndex)))
  }

  /** 32-bit arithmetic: the last 64 sequence numbers wrap and read as old. */
  predicate Old(key: Key, newestSeq: nat) {
    (key.messageSeq + KEPT_MESSAGES) % TWO_TO_THE_32 < newestSeq
  }

  predicate Shielded(sent: map<Key, nat>, key: Key, newestSeq: nat) {
    exists least | least in sent :: LessEq(least, key) && !Old(least, newestSeq)
  }

  /** Old fragments are dropped from the least key up, until the least is not old. */
  function Pruned(sent: map<Key, nat>, newestSeq: nat): map<Key, nat> {
    map key | key in sent && Shielded(sent, key, newestSeq) :: sent[key]
  }

  function Noted(s: State, key: Key, leftAt: nat): State {
    var newest := Max(s.newestSeq, key.messageSeq);
    s.(newestSeq := newest, sent := Pruned(s.sent[key := leftAt], newest))
  }

  datatype Served = Nothing | Left(d: Datagram, resend: bool) | Waits(us: nat)

  /** One round of the serving thread: refill, then an acknowledgement in debt, or a yield, or the first
      data datagram if the bucket admits it, or a bounded wait. */
  function Serve(s: State, now: nat, rateBps: nat, yielding: bool, leftAt: nat): (State, Served) {
    if s.acks == [] && s.data == [] then (s, Nothing)
    else
      var bucket := TB.Refilled(s.bucket, now, rateBps);
      var refilled := s.(bucket := bucket);
      if s.acks != [] then
        (refilled.(acks := s.acks[1..], bucket := TB.Taken(bucket, |s.acks[0].payload|)), Left(s.acks[0], false))
      else if yielding then (refilled, Waits(YIELD_US))
      else
        var d := s.data[0];
        if TB.Admits(bucket, |d.payload|) then
          var popped := refilled.(data := s.data[1..], bucket := TB.Taken(bucket, |d.payload|));
          if d.key.Some? then (Noted(popped, d.key.value, leftAt), Left(d, d.key.value in s.sent))
          else (popped, Left(d, false))
        else (refilled, Waits(if rateBps == 0 then LOOK_AGAIN_US
                              else Min(TB.WaitFor(bucket, |d.payload|, rateBps), LOOK_AGAIN_US)))
  }

  // ------------------------------------------------------------------ runs

  datatype Event =
    | Enqueue(d: Datagram, now: nat, guardUs: nat)
    | Round(now: nat, rateBps: nat, yielding: bool, leftAt: nat)

  /** The pacer with everything it admitted and let out, and everything the rates offered. */
  datatype Run = Run(s: State, admitted: seq<Datagram>, left: seq<Datagram>, offered: real)

  const START := Run(IDLE, [], [], 0.0)

  function Step(r: Run, e: Event): Run {
    match e
    case Enqueue(d, now, guard) =>
      r.(s := Enqueued(r.s, d, now, guard),
         admitted := if Admission(r.s, d, now, guard).0 then r.admitted + [d] else r.admitted)
    case Round(now, rate, yielding, leftAt) =>
      var (s, served) := Serve(r.s, now, rate, yielding, leftAt);
      r.(s := s, left := if served.Left? then r.left + [served.d] else r.left,
         offered := if served.Nothing? then r.offered else r.offered + TB.Accrues(r.s.bucket, now, rate))
  }

  function RunOf(events: seq<Event>): Run
    decreases |events|
  {
    if events == [] then START else Step(RunOf(events[..|events| - 1]), events[|events| - 1])
  }

  function Acks(q: seq<Datagram>): seq<Datagram>
    decreases |q|
  {
    if q == [] then []
    else Acks(q[..|q| - 1]) + if q[|q| - 1].key.None? then [q[|q| - 1]] else []
  }

  function Data(q: seq<Datagram>): seq<Datagram>
    decreases |q|
  {
    if q == [] then []
    else Data(q[..|q| - 1]) + if q[|q| - 1].key.Some? then [q[|q| - 1]] else []
  }

  function DataBytes(q: seq<Datagram>): nat
    decreases |q|
  {
    if q == [] then 0
    else DataBytes(q[..|q| - 1]) + if q[|q| - 1].key.Some? then |q[|q| - 1].payload| else 0
  }

  ghost predicate Orderly(s: State) {
    && (forall i | 0 <= i < |s.acks| :: s.acks[i].key.None?)
    && (forall i | 0 <= i < |s.data| :: s.data[i].key.Some?)
    && (forall i, j | 0 <= i < j < |s.data| :: s.data[i].key != s.data[j].key)
    && |s.acks| + |s.data| <= MAX_QUEUED
    && TB.Granular(s.bucket)
  }

  ghost predicate Conserves(r: Run) {
    && Orderly(r.s)
    && Acks(r.left) + r.s.acks == Acks(r.admitted)
    && Data(r.left) + r.s.data == Data(r.admitted)
    && DataBytes(r.left) as real + TB.Credit(r.s.bucket) <= r.offered
  }

  lemma Appended(q: seq<Datagram>, d: Datagram)
    ensures Acks(q + [d]) == Acks(q) + if d.key.None? then [d] else []
    ensures Data(q + [d]) == Data(q) + if d.key.Some? then [d] else []
    ensures DataBytes(q + [d]) == DataBytes(q) + if d.key.Some? then |d.payload| else 0
  {
    assert (q + [d])[..|q|] == q;
  }

  lemma EnqueueConserves(r: Run, d: Datagram, now: nat, guardUs: nat)
    requires Conserves(r)
    ensures Conserves(Step(r, Enqueue(d, now, guardUs)))
  {
    Appended(r.admitted, d);
    if Admission(r.s, d, now, guardUs).0 {
      if d.key.Some? {
        assert Data(r.left) + (r.s.data + [d]) == Data(r.left) + r.s.data + [d];
        assert forall i | 0 <= i < |r.s.data| :: r.s.data[i].key != Some(d.key.value);
      } else {
        assert Acks(r.left) + (r.s.acks + [d]) == Acks(r.left) + r.s.acks + [d];
      }
    }
  }

  /** What one round takes from the bucket and from the head of a queue. */
  ghost predicate Paid(before: State, after: State, served: Served, accrues: real) {
    && TB.Granular(after.bucket)
    && (!served.Left? ==> after.acks == before.acks && after.data == before.data)
    && (served.Left? && served.d.key.None? ==> [served.d] + after.acks == before.acks && after.data == before.data)
    && (served.Left? && served.d.key.Some? ==>
          before.acks == [] == after.acks && [served.d] + after.data == before.data)
    && (if served.Left? && served.d.key.Some? then |served.d.payload| else 0) as real + TB.Credit(after.bucket)
       <= TB.Credit(before.bucket) + (if served.Nothing? then 0.0 else accrues)
  }

  lemma RoundPays(s: State, now: nat, rateBps: nat, yielding: bool, leftAt: nat)
    requires Orderly(s)
    ensures var (after, served) := Serve(s, now, rateBps, yielding, leftAt);
            && Paid(s, after, served, TB.Accrues(s.bucket, now, rateBps))
            && (served.Waits? ==> served.us <= LOOK_AGAIN_US)
            && (served.Left? && served.d.key.Some? ==> !yielding)
  {
    if s.acks != [] || s.data != [] {
      TB.StepWithinAccrual(s.bucket, TB.Refill(now, rateBps));
      TB.StepStaysGranular(s.bucket, TB.Refill(now, rateBps));
      var bucket := TB.Refilled(s.bucket, now, rateBps);
      if s.acks != [] {
        TB.StepStaysGranular(bucket, TB.Ack(|s.acks[0].payload|));
      } else {
        TB.StepStaysGranular(bucket, TB.Data(|s.data[0].payload|));
        TB.StepWithinAccrual(bucket, TB.Data(|s.data[0].payload|));
      }
    }
  }

  lemma TailIsOrderly(before: State, after: State, served: Served, accrues: real)
    requires Orderly(before) && Paid(before, after, served, accrues)
    ensures Orderly(after)
  {
    if served.Left? {
      if served.d.key.Some? {
        assert after.data == before.data[1..];
      } else {
        assert after.acks == before.acks[1..];
      }
    }
  }

  lemma JoinedAtHead(left: seq<Datagram>, d: Datagram, rest: seq<Datagram>)
    ensures left + [d] + rest == left + ([d] + rest)
  {
  }

  lemma LeavingKeepsOrder(left: seq<Datagram>, d: Datagram, before: State, after: State)
    requires d.key.None? ==> [d] + after.acks == before.acks && after.data == before.data
    requires d.key.Some? ==> after.acks == before.acks && [d] + after.data == before.data
    ensures Acks(left + [d]) + after.acks == Acks(left) + before.acks
    ensures Data(left + [d]) + after.data == Data(left) + before.data
  {
    Appended(left, d);
    if d.key.Some? {
      JoinedAtHead(Data(left), d, after.data);
      assert Acks(left) + [] == Acks(left);
    } else {
      JoinedAtHead(Acks(left), d, after.acks);
      assert Data(left) + [] == Data(left);
    }
  }

  lemma PaidConserves(r: Run, s: State, served: Served, accrues: real)
    requires Conserves(r) && Paid(r.s, s, served, accrues)
    ensures Conserves(Run(s, r.admitted, if served.Left? then r.left + [served.d] else r.left,
                          if served.Nothing? then r.offered else r.offered + accrues))
  {
    TailIsOrderly(r.s, s, served, accrues);
    if served.Left? {
      Appended(r.left, served.d);
      LeavingKeepsOrder(r.left, served.d, r.s, s);
    }
  }

  lemma RoundConserves(r: Run, now: nat, rateBps: nat, yielding: bool, leftAt: nat)
    requires Conserves(r)
    ensures Conserves(Step(r, Round(now, rateBps, yielding, leftAt)))
  {
    var (s, served) := Serve(r.s, now, rateBps, yielding, leftAt);
    RoundPays(r.s, now, rateBps, yielding, leftAt);
    PaidConserves(r, s, served, TB.Accrues(r.s.bucket, now, rateBps));
  }

  /** In every run: each class leaves in exactly its arrival order, none lost and none twice; at most one
      queued datagram per data fragment, at most 256 queued in all; and the data bytes that left never
      exceed what the rates offered, acknowledgements and pauses included. */
  lemma {:induction false} RunConserves(events: seq<Event>)
    ensures Conserves(RunOf(events))
    decreases |events|
  {
    if events == [] {
      assert TB.Measures(0.0, 0);
    } else {
      var before := RunOf(events[..|events| - 1]);
      RunConserves(events[..|events| - 1]);
      match events[|events| - 1]
      case Enqueue(d, now, guard) => EnqueueConserves(before, d, now, guard);
      case Round(now, rate, yielding, leftAt) => RoundConserves(before, now, rate, yielding, leftAt);
    }
  }

  // ------------------------------------------------------------------ one fragment, from queue to departure

  /** A queued datagram is the head of its queue and leaves, or it stays queued and nothing with its key is
      admitted beside it. */
  lemma StepKeepsFragment(r: Run, e: Event, d: Datagram)
    requires Conserves(r) && d in r.s.data && d.key.Some?
    ensures var next := Step(r, e);
            && (next.left == r.left || (|next.left| == |r.left| + 1 && r.left == next.left[..|r.left|]))
            && (next.admitted == r.admitted
                || (|next.admitted| == |r.admitted| + 1 && r.admitted == next.admitted[..|r.admitted|]))
            && (next.left == r.left || next.left[|r.left|].key != d.key ==> d in next.s.data)
            && (next.admitted != r.admitted ==> next.admitted[|r.admitted|].key != d.key)
  {
    var i :| 0 <= i < |r.s.data| && r.s.data[i] == d;
    match e
    case Enqueue(other, now, guard) =>
    case Round(now, rate, yielding, leftAt) =>
      RoundPays(r.s, now, rate, yielding, leftAt);
      var (after, served) := Serve(r.s, now, rate, yielding, leftAt);
      if served.Left? && served.d.key.Some? && i > 0 {
        assert after.data[i - 1] == d;
      }
  }

  /** Once queued, a fragment's datagram stays queued, as first queued, until it leaves; and until then nothing
      with its key is admitted -- whatever else is enqueued, served, resent or refused meanwhile. */
  lemma {:induction false} QueuedFragmentStaysOne(events: seq<Event>, more: seq<Event>, d: Datagram)
    requires d in RunOf(events).s.data
    requires forall k | |RunOf(events).left| <= k < |RunOf(events + more).left| ::
               RunOf(events + more).left[k].key != d.key
    ensures d.key.Some? && d in RunOf(events + more).s.data
    ensures RunOf(events).left <= RunOf(events + more).left && RunOf(events).admitted <= RunOf(events + more).admitted
    ensures forall k | |RunOf(events).admitted| <= k < |RunOf(events + more).admitted| ::
              RunOf(events + more).admitted[k].key != d.key
    decreases |more|
  {
    RunConserves(events);
    if more == [] {
      assert events + more == events;
    } else {
      var some, last := more[..|more| - 1], more[|more| - 1];
      RunSnoc(events, more);
      RunConserves(events + some);
      var before := RunOf(events + some);
      LeftGrows(before, last);
      assert forall k | 0 <= k < |before.left| :: RunOf(events + more).left[k] == before.left[k];
      QueuedFragmentStaysOne(events, some, d);
      StepKeepsFragment(before, last, d);
    }
  }

  /** Until it leaves, offering the fragment again is reported taken and changes nothing. */
  lemma OfferedAgainIsTaken(events: seq<Event>, more: seq<Event>, d: Datagram, again: Datagram,
                            now: nat, guardUs: nat)
    requires d in RunOf(events).s.data && again.key == d.key && again.payload != []
    requires forall k | |RunOf(events).left| <= k < |RunOf(events + more).left| ::
               RunOf(events + more).left[k].key != d.key
    ensures var s := RunOf(events + more).s;
            Enqueued(s, again, now, guardUs) == s && Admission(s, again, now, guardUs).1
  {
    QueuedFragmentStaysOne(events, more, d);
  }

  lemma RunSnoc(events: seq<Event>, more: seq<Event>)
    requires more != []
    ensures RunOf(events + more) == Step(RunOf(events + more[..|more| - 1]), more[|more| - 1])
  {
    assert (events + more)[..|events + more| - 1] == events + more[..|more| - 1];
  }

  lemma LeftGrows(r: Run, e: Event)
    ensures r.left <= Step(r, e).left && r.admitted <= Step(r, e).admitted
  {
  }

  // ------------------------------------------------------------------ what is remembered of departures

  /** Within one stream and short of the sequence wrap, pruning forgets exactly the fragments more than 64
      messages behind the newest; across streams an old fragment may be kept, but a recent one never goes. */
  lemma PruningKeepsRecent(sent: map<Key, nat>, newestSeq: nat, key: Key)
    requires key in sent
    ensures !Old(key, newestSeq) ==> key in Pruned(sent, newestSeq) && Pruned(sent, newestSeq)[key] == sent[key]
    ensures (forall k | k in sent :: k.streamId == key.streamId && k.messageSeq + KEPT_MESSAGES < TWO_TO_THE_32) ==>
              (key in Pruned(sent, newestSeq) <==> key.messageSeq + KEPT_MESSAGES >= newestSeq)
  {
    if !Old(key, newestSeq) {
      assert LessEq(key, key);
    }
  }

  /** The highest sequence number that has left. */
  function NewestLeft(left: seq<Datagram>): nat
    decreases |left|
  {
    if left == [] then 0
    else
      var last := left[|left| - 1];
      Max(NewestLeft(left[..|left| - 1]), if last.key.Some? then last.key.value.messageSeq else 0)
  }

  /** Every departure is one stream's, short of the sequence wrap. */
  ghost predicate Plain(left: seq<Datagram>, streamId: nat) {
    forall i | 0 <= i < |left| && left[i].key.Some? ::
      left[i].key.value.streamId == streamId && left[i].key.value.messageSeq + KEPT_MESSAGES < TWO_TO_THE_32
  }

  /** The table of departures against the departures themselves. */
  ghost predicate Remembers(s: State, left: seq<Datagram>) {
    && s.newestSeq == NewestLeft(left)
    && (forall key | key in s.sent :: Queued(left, key))
    && (forall key | Queued(left, key) && !Old(key, s.newestSeq) :: key in s.sent)
  }

  /** Of one stream's departures short of the wrap, nothing old is remembered. */
  ghost predicate Forgets(s: State, left: seq<Datagram>, streamId: nat) {
    Plain(left, streamId) ==> forall key | key in s.sent :: !Old(key, s.newestSeq)
  }

  lemma QueuedSnoc(q: seq<Datagram>, d: Datagram, key: Key)
    ensures Queued(q + [d], key) <==> Queued(q, key) || d.key == Some(key)
  {
    if Queued(q, key) {
      var i :| 0 <= i < |q| && q[i].key == Some(key);
      assert (q + [d])[i].key == Some(key);
    }
    if d.key == Some(key) {
      assert (q + [d])[|q|].key == Some(key);
    }
  }

  lemma NotedRemembers(s: State, left: seq<Datagram>, d: Datagram, leftAt: nat)
    requires Remembers(s, left) && d.key.Some?
    ensures Remembers(Noted(s, d.key.value, leftAt), left + [d])
  {
    var key := d.key.value;
    var after := Noted(s, key, leftAt);
    assert (left + [d])[..|left|] == left;
    forall k | k in after.sent ensures Queued(left + [d], k) {
      QueuedSnoc(left, d, k);
    }
    forall k | Queued(left + [d], k) && !Old(k, after.newestSeq) ensures k in after.sent {
      QueuedSnoc(left, d, k);
      assert LessEq(k, k);
    }
  }

  lemma NotedForgets(s: State, left: seq<Datagram>, d: Datagram, leftAt: nat, streamId: nat)
    requires Remembers(s, left) && d.key.Some?
    ensures Forgets(Noted(s, d.key.value, leftAt), left + [d], streamId)
  {
    var after := Noted(s, d.key.value, leftAt);
    var sent := s.sent[d.key.value := leftAt];
    if Plain(left + [d], streamId) {
      forall key | key in sent
        ensures key.streamId == streamId && key.messageSeq + KEPT_MESSAGES < TWO_TO_THE_32
      {
        QueuedSnoc(left, d, key);
        assert (left + [d])[|left|] == d;
      }
      forall key | key in after.sent ensures !Old(key, after.newestSeq) {
        PruningKeepsRecent(sent, after.newestSeq, key);
      }
    }
  }

  lemma AckRemembers(s: State, left: seq<Datagram>, d: Datagram)
    requires Remembers(s, left) && d.key.None?
    ensures Remembers(s, left + [d])
  {
    assert (left + [d])[..|left|] == left;
    forall k ensures Queued(left + [d], k) <==> Queued(left, k) {
      QueuedSnoc(left, d, k);
    }
  }

  lemma {:induction false} RunRemembers(events: seq<Event>)
    ensures Remembers(RunOf(events).s, RunOf(events).left)
    decreases |events|
  {
    if events != [] {
      var before, last := RunOf(events[..|events| - 1]), events[|events| - 1];
      RunRemembers(events[..|events| - 1]);
      RunConserves(events[..|events| - 1]);
      if last.Round? {
        RoundRemembers(before.s, before.left, last.now, last.rateBps, last.yielding, last.leftAt);
      }
    }
  }

  lemma RoundRemembers(s: State, left: seq<Datagram>, now: nat, rateBps: nat, yielding: bool, leftAt: nat)
    requires Orderly(s) && Remembers(s, left)
    ensures var (after, served) := Serve(s, now, rateBps, yielding, leftAt);
            Remembers(after, if served.Left? then left + [served.d] else left)
  {
    var (after, served) := Serve(s, now, rateBps, yielding, leftAt);
    if served.Left? {
      if served.d.key.Some? {
        NotedRemembers(s, left, served.d, leftAt);
        var noted := Noted(s, served.d.key.value, leftAt);
        assert after.sent == noted.sent && after.newestSeq == noted.newestSeq;
      } else {
        AckRemembers(s, left, served.d);
      }
    }
  }

  lemma RoundForgets(s: State, left: seq<Datagram>, now: nat, rateBps: nat, yielding: bool, leftAt: nat, streamId: nat)
    requires Orderly(s) && Remembers(s, left) && Forgets(s, left, streamId)
    ensures var (after, served) := Serve(s, now, rateBps, yielding, leftAt);
            Forgets(after, if served.Left? then left + [served.d] else left, streamId)
  {
    var (after, served) := Serve(s, now, rateBps, yielding, leftAt);
    if served.Left? {
      assert forall i | 0 <= i < |left| :: (left + [served.d])[i] == left[i];
      if served.d.key.Some? {
        NotedForgets(s, left, served.d, leftAt, streamId);
        var noted := Noted(s, served.d.key.value, leftAt);
        assert after.sent == noted.sent && after.newestSeq == noted.newestSeq;
      }
    }
  }

  lemma {:induction false} RunForgets(events: seq<Event>, streamId: nat)
    ensures Forgets(RunOf(events).s, RunOf(events).left, streamId)
    decreases |events|
  {
    if events != [] {
      var before, last := RunOf(events[..|events| - 1]), events[|events| - 1];
      RunForgets(events[..|events| - 1], streamId);
      RunRemembers(events[..|events| - 1]);
      RunConserves(events[..|events| - 1]);
      if last.Round? {
        RoundForgets(before.s, before.left, last.now, last.rateBps, last.yielding, last.leftAt, streamId);
      }
    }
  }

  /** In every run: a departure marked a resend is of a fragment that had left before; and one that had left
      before and is of the last 64 messages is marked. On one stream short of the sequence wrap that is exact:
      an older fragment leaves again unmarked. */
  lemma ResendMarkMeansLeftBefore(events: seq<Event>, d: Datagram, resend: bool, now: nat, rateBps: nat,
                                  yielding: bool, leftAt: nat, streamId: nat)
    requires Serve(RunOf(events).s, now, rateBps, yielding, leftAt).1 == Left(d, resend) && d.key.Some?
    ensures var left := RunOf(events).left;
            && (resend ==> Queued(left, d.key.value))
            && (Queued(left, d.key.value) && !Old(d.key.value, NewestLeft(left)) ==> resend)
            && (resend <==> d.key.value in RunOf(events).s.sent)
            && (Plain(left, streamId) ==>
                  (resend <==> Queued(left, d.key.value) && !Old(d.key.value, NewestLeft(left))))
            && RunOf(events).s.acks == []
  {
    RunConserves(events);
    RunRemembers(events);
    RunForgets(events, streamId);
    RoundPays(RunOf(events).s, now, rateBps, yielding, leftAt);
  }

  // ------------------------------------------------------------------ the pacer object

  /** The one deque, its count of leading acknowledgements, and the keys of the data behind them. */
  datatype Deque = Deque(queue: seq<Datagram>, queuedAcks: nat, keys: set<Key>)

  ghost predicate Counted(q: Deque) {
    && q.queuedAcks <= |q.queue|
    && (forall i | 0 <= i < q.queuedAcks :: q.queue[i].key.None?)
    && (forall i | q.queuedAcks <= i < |q.queue| :: q.queue[i].key.Some?)
    && (forall i, j | q.queuedAcks <= i < j < |q.queue| :: q.queue[i].key != q.queue[j].key)
    && (forall key :: key in q.keys <==> Queued(q.queue[q.queuedAcks..], key))
  }

  class BulkPacer {
    var queue: seq<Datagram>
    var queuedAcks: nat
    var queuedKeys: set<Key>
    var sentKeys: map<Key, nat>
    var newestSeq: nat
    const bucket: TB.BulkTokenBucket

    ghost predicate Valid()
      reads this, bucket
    {
      Counted(Deque(queue, queuedAcks, queuedKeys))
    }

    ghost function Value(): State
      reads this, bucket
      requires Valid()
    {
      State(queue[..queuedAcks], queue[queuedAcks..], sentKeys, newestSeq, bucket.Value())
    }

    constructor ()
      ensures Valid() && fresh(bucket) && Value() == IDLE
    {
      queue, queuedAcks, queuedKeys, sentKeys, newestSeq := [], 0, {}, map[], 0;
      bucket := new TB.BulkTokenBucket();
    }

    method Enqueue(d: Datagram, now: nat, guardUs: nat) returns (ok: bool)
      requires Valid()
      modifies this`queue, this`queuedAcks, this`queuedKeys
      ensures Valid()
      ensures Value() == Enqueued(old(Value()), d, now, guardUs)
      ensures ok == Admission(old(Value()), d, now, guardUs).1
    {
      if d.payload == [] {
        return false;
      }
      if d.key.Some? && d.key.value in queuedKeys {
        return true;
      }
      if d.key.Some? && d.key.value in sentKeys && guardUs != 0 && Elapsed(now, sentKeys[d.key.value]) < guardUs {
        return true;
      }
      if |queue| >= MAX_QUEUED {
        return false;
      }
      if d.key.Some? {
        Append(d);
      } else {
        queue := queue[..queuedAcks] + [d] + queue[queuedAcks..];
        queuedAcks := queuedAcks + 1;
        assert queue[queuedAcks..] == old(queue[queuedAcks..]);
      }
      return true;
    }

    method Append(d: Datagram)
      requires Valid() && d.key.Some? && d.key.value !in queuedKeys
      modifies this`queue, this`queuedKeys
      ensures Valid()
      ensures Value() == old(Value()).(data := old(Value().data) + [d])
    {
      ghost var data := queue[queuedAcks..];
      queue := queue + [d];
      queuedKeys := queuedKeys + {d.key.value};
      assert queue[queuedAcks..] == data + [d];
      forall key ensures key in queuedKeys <==> Queued(data + [d], key) {
        if Queued(data, key) {
          var i :| 0 <= i < |data| && data[i].key == Some(key);
          assert (data + [d])[i].key == Some(key);
        }
        assert (data + [d])[|data|] == d;
      }
      forall i | queuedAcks <= i < |queue| - 1 ensures queue[i].key != d.key {
        assert data[i - queuedAcks].key == queue[i].key;
      }
    }

    /** One round of the serving thread. */
    method Round(now: nat, rateBps: nat, yielding: bool, leftAt: nat) returns (served: Served)
      requires Valid()
      modifies this, bucket
      ensures Valid()
      ensures (Value(), served) == Serve(old(Value()), now, rateBps, yielding, leftAt)
    {
      if queue == [] {
        return Nothing;
      }
      bucket.Refill(now, rateBps);
      if queuedAcks > 0 {
        var ack := queue[0];
        queue := queue[1..];
        queuedAcks := queuedAcks - 1;
        assert queue[queuedAcks..] == old(queue[queuedAcks..]);
        assert queue[..queuedAcks] == old(queue[..queuedAcks])[1..];
        bucket.TakeOwed(|ack.payload|);
        return Left(ack, false);
      }
      if yielding {
        return Waits(YIELD_US);
      }
      var length := |queue[0].payload|;
      var taken := bucket.TryTake(length);
      if taken {
        served := PopData(leftAt);
        return;
      }
      var wait := bucket.WaitUs(length, rateBps);
      return Waits(if wait == TB.FOREVER || wait > LOOK_AGAIN_US then LOOK_AGAIN_US else wait);
    }

    method PopData(leftAt: nat) returns (served: Served)
      requires Valid() && queuedAcks == 0 && queue != []
      modifies this`queue, this`queuedKeys, this`sentKeys, this`newestSeq
      ensures Valid() && queue == old(queue[1..])
      ensures old(queue[0]).key.Some?
      ensures var key := old(queue[0]).key.value;
              && newestSeq == Max(old(newestSeq), key.messageSeq)
              && sentKeys == Pruned(old(sentKeys)[key := leftAt], newestSeq)
              && served == Left(old(queue[0]), key in old(sentKeys))
    {
      var d := queue[0];
      var key := d.key.value;
      assert queue[0..] == queue;
      ghost var was := queue;
      queue := queue[1..];
      queuedKeys := queuedKeys - {key};
      assert queue[0..] == queue;
      forall k ensures k in queuedKeys <==> Queued(queue, k) {
        if Queued(was, k) && k != key {
          var i :| 0 <= i < |was| && was[i].key == Some(k);
          assert queue[i - 1].key == Some(k);
        }
        if Queued(queue, k) {
          var i :| 0 <= i < |queue| && queue[i].key == Some(k);
          assert was[i + 1].key == Some(k);
        }
      }
      var resend := key in sentKeys;
      sentKeys := sentKeys[key := leftAt];
      if key.messageSeq > newestSeq {
        newestSeq := key.messageSeq;
      }
      PruneSent();
      return Left(d, resend);
    }

    method PruneSent()
      modifies this`sentKeys
      ensures sentKeys == Pruned(old(sentKeys), newestSeq)
    {
      ghost var all := sentKeys;
      while sentKeys != map[]
        invariant sentKeys.Keys <= all.Keys
        invariant forall k | k in sentKeys :: sentKeys[k] == all[k]
        invariant forall k | k in all && k !in sentKeys :: !Shielded(all, k, newestSeq)
        decreases |sentKeys|
      {
        var least := LeastKey(sentKeys);
        if !Old(least, newestSeq) {
          break;
        }
        assert !Shielded(all, least, newestSeq) by {
          forall k | k in all && LessEq(k, least) ensures Old(k, newestSeq) {
            if k in sentKeys {
              assert k == least;
            } else {
              assert LessEq(k, k);
            }
          }
        }
        assert |sentKeys - {least}| < |sentKeys| by {
          assert (sentKeys - {least}).Keys == sentKeys.Keys - {least};
          assert |sentKeys.Keys - {least}| == |sentKeys.Keys| - 1;
        }
        sentKeys := sentKeys - {least};
      }
    }
  }

  method LeastKey(m: map<Key, nat>) returns (least: Key)
    requires m != map[]
    ensures least in m && forall k | k in m :: LessEq(least, k)
  {
    var rest := m.Keys;
    least :| least in m;
    while rest != {}
      invariant least in m && rest <= m.Keys
      invariant forall k | k in m && k !in rest :: LessEq(least, k)
      decreases rest
    {
      var k :| k in rest;
      if LessEq(k, least) {
        least := k;
      }
      rest := rest - {k};
    }
  }
}
