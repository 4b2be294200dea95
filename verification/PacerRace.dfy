/** The pacer's serving thread releases its lock between looking at the head and taking it (bulk_pacer.cpp).
    What another thread enqueues in between, and what that does to the count of waiting acknowledgements and
    to the set of queued keys. */
module PacerRace {
  import opened Common
  import opened Pacer
  import TB = TokenBucket

  /** A datagram offered by another thread; `tooSoon` says whether its fragment only just left. */
  datatype Arrival = Arrival(d: Datagram, tooSoon: bool)

  predicate Enters(q: Deque, a: Arrival) {
    && a.d.payload != []
    && !(a.d.key.Some? && (a.d.key.value in q.keys || a.tooSoon))
    && |q.queue| < MAX_QUEUED
  }

  /** What the caller is told: true also for a datagram that need not be queued. */
  predicate Reported(q: Deque, a: Arrival) {
    a.d.payload != [] && ((a.d.key.Some? && (a.d.key.value in q.keys || a.tooSoon)) || |q.queue| < MAX_QUEUED)
  }

  function Arrived(q: Deque, a: Arrival): Deque
    requires q.queuedAcks <= |q.queue|
  {
    if !Enters(q, a) then q
    else if a.d.key.Some? then Deque(q.queue + [a.d], q.queuedAcks, q.keys + {a.d.key.value})
    else Deque(q.queue[..q.queuedAcks] + [a.d] + q.queue[q.queuedAcks..], q.queuedAcks + 1, q.keys)
  }

  function AllArrived(q: Deque, arrivals: seq<Arrival>): (r: Deque)
    requires q.queuedAcks <= |q.queue|
    ensures r.queuedAcks <= |r.queue| && |q.queue| - q.queuedAcks <= |r.queue| - r.queuedAcks
    decreases |arrivals|
  {
    if arrivals == [] then q else AllArrived(Arrived(q, arrivals[0]), arrivals[1..])
  }

  /** The data branch: whatever is in front by now goes, its key with it, and the count is not touched. */
  function PopAsData(q: Deque): Deque
    requires q.queue != []
  {
    var d := q.queue[0];
    Deque(q.queue[1..], q.queuedAcks, if d.key.Some? then q.keys - {d.key.value} else q.keys)
  }

  /** The acknowledgement branch: looks again at the count, and no key is ever erased. */
  function PopAsAck(q: Deque): Deque {
    if q.queue == [] || q.queuedAcks == 0 then q
    else Deque(q.queue[1..], q.queuedAcks - 1, q.keys)
  }

  /** An acknowledgement got in. */
  predicate AckSlipsIn(q: Deque, arrivals: seq<Arrival>)
    requires q.queuedAcks <= |q.queue|
    decreases |arrivals|
  {
    arrivals != [] && ((arrivals[0].d.key.None? && Enters(q, arrivals[0]))
                       || AckSlipsIn(Arrived(q, arrivals[0]), arrivals[1..]))
  }

  lemma ArrivedStaysCounted(q: Deque, a: Arrival)
    requires Counted(q)
    ensures Counted(Arrived(q, a))
  {
    if Enters(q, a) {
      if a.d.key.Some? {
        DataArrives(q, a.d);
      } else {
        var r := Arrived(q, a);
        assert r.queue[r.queuedAcks..] == q.queue[q.queuedAcks..];
      }
    }
  }

  lemma DataArrives(q: Deque, d: Datagram)
    requires Counted(q) && d.key.Some? && d.key.value !in q.keys
    ensures Counted(Deque(q.queue + [d], q.queuedAcks, q.keys + {d.key.value}))
  {
    var data := q.queue[q.queuedAcks..];
    assert (q.queue + [d])[q.queuedAcks..] == data + [d];
    forall key ensures key in q.keys + {d.key.value} <==> Queued(data + [d], key) {
      QueuedSnoc(data, d, key);
    }
    forall i | q.queuedAcks <= i < |q.queue| ensures q.queue[i].key != d.key {
      assert data[i - q.queuedAcks].key == q.queue[i].key;
    }
  }

  lemma {:induction false} AllArrivedStaysCounted(q: Deque, arrivals: seq<Arrival>)
    requires Counted(q)
    ensures var r := AllArrived(q, arrivals);
            && Counted(r) && |q.queue| <= |r.queue|
            && (if AckSlipsIn(q, arrivals) then r.queuedAcks > q.queuedAcks else r.queuedAcks == q.queuedAcks)
    decreases |arrivals|
  {
    if arrivals != [] {
      ArrivedStaysCounted(q, arrivals[0]);
      AllArrivedStaysCounted(Arrived(q, arrivals[0]), arrivals[1..]);
    }
  }

  lemma PopKeepsCountIff(q: Deque)
    requires Counted(q) && q.queue != []
    ensures Counted(PopAsData(q)) <==> q.queuedAcks == 0
  {
    var r := PopAsData(q);
    if q.queuedAcks == 0 {
      assert q.queue[0..] == q.queue && r.queue[0..] == r.queue;
      forall k ensures k in r.keys <==> Queued(r.queue, k) {
        assert q.queue == [q.queue[0]] + r.queue;
        if Queued(q.queue, k) && q.queue[0].key != Some(k) {
          var i :| 0 <= i < |q.queue| && q.queue[i].key == Some(k);
          assert r.queue[i - 1].key == Some(k);
        }
        if Queued(r.queue, k) {
          var i :| 0 <= i < |r.queue| && r.queue[i].key == Some(k);
          assert q.queue[i + 1].key == Some(k);
        }
      }
    } else if q.queuedAcks < |q.queue| {
      assert r.queue[q.queuedAcks - 1] == q.queue[q.queuedAcks];
    }
  }

  /** Look, anything enqueued, then take: after a look that saw data in front, the count and the key set are
      right again if and only if no acknowledgement got in between. */
  lemma SplitDataDequeueIff(q: Deque, arrivals: seq<Arrival>)
    requires Counted(q) && q.queue != [] && q.queuedAcks == 0
    ensures |AllArrived(q, arrivals).queue| > 0
    ensures Counted(PopAsData(AllArrived(q, arrivals))) <==> !AckSlipsIn(q, arrivals)
  {
    AllArrivedStaysCounted(q, arrivals);
    PopKeepsCountIff(AllArrived(q, arrivals));
  }

  /** The other branch is safe: after a look that saw an acknowledgement, whatever arrives, one is taken and
      everything stays right. */
  lemma SplitAckDequeueIsSafe(q: Deque, arrivals: seq<Arrival>)
    requires Counted(q) && q.queuedAcks > 0
    ensures var now := AllArrived(q, arrivals);
            now.queue != [] && now.queue[0].key.None? && Counted(PopAsAck(now))
  {
    AllArrivedStaysCounted(q, arrivals);
    var now := AllArrived(q, arrivals);
    assert now.queue[1..][now.queuedAcks - 1..] == now.queue[now.queuedAcks..];
  }

  // ------------------------------------------------------------------ what a slip leaves behind

  /** A datagram offered, or one pass of the serving thread with what arrives between its look and its pop. */
  datatype Op = Offer(a: Arrival) | Pass(between: seq<Arrival>)

  function Apply(q: Deque, op: Op): (r: Deque)
    requires q.queuedAcks <= |q.queue|
  {
    match op
    case Offer(a) => Arrived(q, a)
    case Pass(between) =>
      var now := AllArrived(q, between);
      if q.queue == [] then now
      else if q.queuedAcks > 0 then PopAsAck(now)
      else if now.queue != [] then PopAsData(now)
      else now
  }

  function RunOps(q: Deque, ops: seq<Op>): (r: Deque)
    requires q.queuedAcks <= |q.queue|
    ensures r.queuedAcks <= |r.queue|
    decreases |ops|
  {
    if ops == [] then q
    else
      ApplyKeepsRoom(q, ops[0]);
      RunOps(Apply(q, ops[0]), ops[1..])
  }

  lemma {:induction false} ArrivalsKeepRoom(q: Deque, arrivals: seq<Arrival>)
    requires q.queuedAcks <= |q.queue|
    ensures |AllArrived(q, arrivals).queue| - AllArrived(q, arrivals).queuedAcks >= |q.queue| - q.queuedAcks
    decreases |arrivals|
  {
    if arrivals != [] {
      ArrivalsKeepRoom(Arrived(q, arrivals[0]), arrivals[1..]);
    }
  }

  lemma ApplyKeepsRoom(q: Deque, op: Op)
    requires q.queuedAcks <= |q.queue|
    ensures Apply(q, op).queuedAcks <= |Apply(q, op).queue|
  {
    if op.Pass? {
      ArrivalsKeepRoom(q, op.between);
    }
  }

  /** A key left in the set without its datagram. */
  ghost predicate Stranded(q: Deque, key: Key) {
    q.queuedAcks <= |q.queue| && key in q.keys && forall i | 0 <= i < |q.queue| :: q.queue[i].key != Some(key)
  }

  lemma ArrivedStaysStranded(q: Deque, a: Arrival, key: Key)
    requires Stranded(q, key)
    ensures Stranded(Arrived(q, a), key)
  {
    var r := Arrived(q, a);
    if Enters(q, a) && a.d.key.None? {
      forall i | 0 <= i < |r.queue| ensures r.queue[i].key != Some(key) {
        assert r.queue[i] == if i < q.queuedAcks then q.queue[i] else if i == q.queuedAcks then a.d else q.queue[i - 1];
      }
    }
  }

  lemma {:induction false} AllArrivedStaysStranded(q: Deque, arrivals: seq<Arrival>, key: Key)
    requires Stranded(q, key)
    ensures Stranded(AllArrived(q, arrivals), key)
    decreases |arrivals|
  {
    if arrivals != [] {
      ArrivedStaysStranded(q, arrivals[0], key);
      AllArrivedStaysStranded(Arrived(q, arrivals[0]), arrivals[1..], key);
    }
  }

  lemma ApplyStaysStranded(q: Deque, op: Op, key: Key)
    requires Stranded(q, key)
    ensures Stranded(Apply(q, op), key)
  {
    ApplyKeepsRoom(q, op);
    match op
    case Offer(a) => ArrivedStaysStranded(q, a, key);
    case Pass(between) => AllArrivedStaysStranded(q, between, key);
  }

  /** Whatever is enqueued and whatever the serving thread takes from then on, its own slips included: the key
      stays, so the fragment is reported taken every time it is offered, and is never queued again. */
  lemma {:induction false} StrandedForever(q: Deque, ops: seq<Op>, key: Key, again: Arrival)
    requires Stranded(q, key) && again.d.key == Some(key) && again.d.payload != []
    ensures var r := RunOps(q, ops);
            Stranded(r, key) && Arrived(r, again) == r && Reported(r, again)
    decreases |ops|
  {
    if ops != [] {
      ApplyStaysStranded(q, ops[0], key);
      StrandedForever(Apply(q, ops[0]), ops[1..], key, again);
    }
  }

  lemma OneArrives(q: Deque, a: Arrival)
    requires q.queuedAcks <= |q.queue|
    ensures AllArrived(q, [a]) == Arrived(q, a)
  {
    assert [a][1..] == [];
    assert AllArrived(Arrived(q, a), []) == Arrived(q, a);
  }

  function Passes(n: nat): seq<Op> {
    if n == 0 then [] else [Pass([])] + Passes(n - 1)
  }

  /** Undisturbed passes take as many datagrams as are counted as acknowledgements, and erase no key. */
  lemma {:induction false} PassesTakeCounted(q: Deque)
    requires q.queuedAcks <= |q.queue|
    ensures RunOps(q, Passes(q.queuedAcks)) == Deque(q.queue[q.queuedAcks..], 0, q.keys)
    decreases q.queuedAcks
  {
    if q.queuedAcks > 0 {
      var ops := Passes(q.queuedAcks);
      assert ops[0] == Pass([]) && ops[1..] == Passes(q.queuedAcks - 1);
      assert AllArrived(q, []) == q;
      var next := Apply(q, Pass([]));
      assert next == Deque(q.queue[1..], q.queuedAcks - 1, q.keys);
      PassesTakeCounted(next);
      assert q.queue[1..][q.queuedAcks - 1..] == q.queue[q.queuedAcks..];
    }
  }

  // ------------------------------------------------------------------ every slip of every run

  predicate Behind(q: Deque, key: Key) {
    exists i | q.queuedAcks <= i < |q.queue| :: q.queue[i].key == Some(key)
  }

  /** The deque of any run, `stranded` being the keys that slips left in the set: behind the count there is data
      with distinct keys, and the key set is those keys and the stranded ones, no key being both. */
  ghost predicate Sound(q: Deque, stranded: set<Key>) {
    && q.queuedAcks <= |q.queue|
    && (stranded == {} ==> forall i | 0 <= i < q.queuedAcks :: q.queue[i].key.None?)
    && (forall i | q.queuedAcks <= i < |q.queue| :: q.queue[i].key.Some?)
    && (forall i, j | q.queuedAcks <= i < j < |q.queue| :: q.queue[i].key != q.queue[j].key)
    && (forall key :: key in q.keys <==> key in stranded || Behind(q, key))
    && (forall key | key in stranded :: !Behind(q, key))
  }

  lemma CountedIffSound(q: Deque)
    ensures Counted(q) <==> Sound(q, {})
  {
    if q.queuedAcks <= |q.queue| {
      BehindIsQueued(q);
    }
  }

  lemma BehindIsQueued(q: Deque)
    requires q.queuedAcks <= |q.queue|
    ensures forall key :: Behind(q, key) <==> Queued(q.queue[q.queuedAcks..], key)
  {
    var data := q.queue[q.queuedAcks..];
    forall key ensures Behind(q, key) <==> Queued(data, key) {
      if Behind(q, key) {
        var i :| q.queuedAcks <= i < |q.queue| && q.queue[i].key == Some(key);
        assert data[i - q.queuedAcks].key == Some(key);
      }
    }
  }

  lemma ArrivedIsSound(q: Deque, a: Arrival, stranded: set<Key>)
    requires Sound(q, stranded)
    ensures Sound(Arrived(q, a), stranded)
  {
    var r := Arrived(q, a);
    if Enters(q, a) {
      if a.d.key.Some? {
        DataIsSound(q, a.d, stranded);
      } else {
        AckIsSound(q, a.d, stranded);
      }
    }
  }

  lemma DataIsSound(q: Deque, d: Datagram, stranded: set<Key>)
    requires Sound(q, stranded) && d.key.Some? && d.key.value !in q.keys
    ensures Sound(Deque(q.queue + [d], q.queuedAcks, q.keys + {d.key.value}), stranded)
  {
    var r := Deque(q.queue + [d], q.queuedAcks, q.keys + {d.key.value});
    forall key ensures Behind(r, key) <==> Behind(q, key) || d.key == Some(key) {
      if Behind(q, key) {
        var i :| q.queuedAcks <= i < |q.queue| && q.queue[i].key == Some(key);
        assert r.queue[i].key == Some(key);
      }
      if d.key == Some(key) {
        assert r.queue[|q.queue|].key == Some(key);
      }
    }
    forall i | q.queuedAcks <= i < |q.queue| ensures q.queue[i].key != d.key {
      assert Behind(q, q.queue[i].key.value);
    }
  }

  lemma AckIsSound(q: Deque, ack: Datagram, stranded: set<Key>)
    requires Sound(q, stranded) && ack.key.None?
    ensures Sound(Deque(q.queue[..q.queuedAcks] + [ack] + q.queue[q.queuedAcks..], q.queuedAcks + 1, q.keys), stranded)
  {
    var k := q.queuedAcks;
    var r := Deque(q.queue[..k] + [ack] + q.queue[k..], k + 1, q.keys);
    assert forall i | k < i < |r.queue| :: r.queue[i] == q.queue[i - 1];
    assert forall i | 0 <= i < k :: r.queue[i] == q.queue[i];
    assert r.queue[k + 1..] == q.queue[k..];
    SameBehind(q, r);
  }

  lemma SameBehind(q: Deque, r: Deque)
    requires q.queuedAcks <= |q.queue| && r.queuedAcks <= |r.queue|
    requires q.queue[q.queuedAcks..] == r.queue[r.queuedAcks..]
    ensures forall key :: Behind(r, key) <==> Behind(q, key)
  {
    BehindIsQueued(q);
    BehindIsQueued(r);
  }

  lemma {:induction false} AllArrivedIsSound(q: Deque, arrivals: seq<Arrival>, stranded: set<Key>)
    requires Sound(q, stranded)
    ensures Sound(AllArrived(q, arrivals), stranded)
    decreases |arrivals|
  {
    if arrivals != [] {
      ArrivedIsSound(q, arrivals[0], stranded);
      AllArrivedIsSound(Arrived(q, arrivals[0]), arrivals[1..], stranded);
    }
  }

  /** Arrivals leave what is counted and what is behind it in place; the first acknowledgement among them goes
      to the place between. */
  lemma {:induction false} ArrivalsInsert(q: Deque, arrivals: seq<Arrival>)
    requires q.queuedAcks <= |q.queue|
    ensures var r := AllArrived(q, arrivals);
            && q.queue[..q.queuedAcks] <= r.queue && q.queue[q.queuedAcks..] <= r.queue[r.queuedAcks..]
            && r.queuedAcks >= q.queuedAcks && (AckSlipsIn(q, arrivals) <==> r.queuedAcks > q.queuedAcks)
            && (AckSlipsIn(q, arrivals) ==> r.queue[q.queuedAcks].key.None?)
    decreases |arrivals|
  {
    if arrivals != [] {
      var next := Arrived(q, arrivals[0]);
      ArrivalsInsert(next, arrivals[1..]);
      ArrivedInserts(q, arrivals[0]);
    }
  }

  lemma ArrivedInserts(q: Deque, a: Arrival)
    requires q.queuedAcks <= |q.queue|
    ensures var r := Arrived(q, a);
            && q.queue[..q.queuedAcks] <= r.queue[..r.queuedAcks] && q.queue[q.queuedAcks..] <= r.queue[r.queuedAcks..]
            && r.queuedAcks >= q.queuedAcks && (a.d.key.None? && Enters(q, a) <==> r.queuedAcks > q.queuedAcks)
            && (r.queuedAcks > q.queuedAcks ==> r.queue[q.queuedAcks].key.None?)
  {
  }

  lemma PopAsAckIsSound(q: Deque, stranded: set<Key>)
    requires Sound(q, stranded) && q.queuedAcks > 0
    ensures Sound(PopAsAck(q), stranded)
  {
    var r := PopAsAck(q);
    assert r.queue[r.queuedAcks..] == q.queue[q.queuedAcks..];
    SameBehind(q, r);
  }

  /** The data branch takes one place from behind the count. Unslipped, it is the datagram in front and its key
      is erased; slipped, the first one behind is counted from now on, and its key stays. */
  lemma PopAsDataIsSound(q: Deque, stranded: set<Key>)
    requires Sound(q, stranded) && q.queuedAcks < |q.queue| && (q.queuedAcks > 0 ==> q.queue[0].key.None?)
    ensures var key := q.queue[q.queuedAcks].key.value;
            Sound(PopAsData(q), if q.queuedAcks > 0 then stranded + {key} else stranded)
  {
    var r := PopAsData(q);
    var key := q.queue[q.queuedAcks].key.value;
    assert forall i | 0 <= i < |r.queue| :: r.queue[i] == q.queue[i + 1];
    assert Behind(q, key);
    forall other ensures Behind(r, other) <==> Behind(q, other) && other != key {
      FirstLeavesBehind(q, r, other);
    }
  }

  lemma FirstLeavesBehind(q: Deque, r: Deque, key: Key)
    requires q.queuedAcks < |q.queue| && r.queue == q.queue[1..] && r.queuedAcks == q.queuedAcks
    requires forall i, j | q.queuedAcks <= i < j < |q.queue| :: q.queue[i].key != q.queue[j].key
    ensures Behind(r, key) <==> Behind(q, key) && q.queue[q.queuedAcks].key != Some(key)
  {
    if Behind(q, key) && q.queue[q.queuedAcks].key != Some(key) {
      var i :| q.queuedAcks <= i < |q.queue| && q.queue[i].key == Some(key);
      assert r.queue[i - 1].key == Some(key);
    }
    if Behind(r, key) {
      var i :| r.queuedAcks <= i < |r.queue| && r.queue[i].key == Some(key);
      assert q.queue[i + 1].key == Some(key);
    }
  }

  /** The serving thread saw data in front, and an acknowledgement got in before its pop. */
  predicate Slips(q: Deque, op: Op)
    requires q.queuedAcks <= |q.queue|
  {
    op.Pass? && q.queue != [] && q.queuedAcks == 0 && AckSlipsIn(q, op.between)
  }

  /** The keys of the fragments looked at when an acknowledgement slipped in. */
  function SlippedOn(q: Deque, ops: seq<Op>): set<Key>
    requires q.queuedAcks <= |q.queue|
    decreases |ops|
  {
    if ops == [] then {}
    else
      ApplyKeepsRoom(q, ops[0]);
      (if Slips(q, ops[0]) && q.queue[0].key.Some? then {q.queue[0].key.value} else {})
      + SlippedOn(Apply(q, ops[0]), ops[1..])
  }

  predicate SomeSlip(q: Deque, ops: seq<Op>)
    requires q.queuedAcks <= |q.queue|
    decreases |ops|
  {
    if ops == [] then false
    else
      ApplyKeepsRoom(q, ops[0]);
      Slips(q, ops[0]) || SomeSlip(Apply(q, ops[0]), ops[1..])
  }

  lemma PassIsSound(q: Deque, between: seq<Arrival>, stranded: set<Key>)
    requires Sound(q, stranded)
    ensures var op := Pass(between);
            Sound(Apply(q, op), if Slips(q, op) then stranded + {q.queue[0].key.value} else stranded)
  {
    var now := AllArrived(q, between);
    AllArrivedIsSound(q, between, stranded);
    ArrivalsInsert(q, between);
    if q.queue != [] {
      if q.queuedAcks > 0 {
        PopAsAckIsSound(now, stranded);
      } else {
        assert now.queue[now.queuedAcks..][0] == q.queue[0];
        PopAsDataIsSound(now, stranded);
      }
    }
  }

  lemma {:induction false} RunIsSound(q: Deque, ops: seq<Op>, stranded: set<Key>)
    requires Sound(q, stranded)
    ensures Sound(RunOps(q, ops), stranded + SlippedOn(q, ops))
    ensures SomeSlip(q, ops) <==> SlippedOn(q, ops) != {}
    decreases |ops|
  {
    if ops == [] {
      assert stranded + {} == stranded;
    } else {
      var slipped := if Slips(q, ops[0]) && q.queue[0].key.Some? then {q.queue[0].key.value} else {};
      match ops[0] {
        case Offer(a) => ArrivedIsSound(q, a, stranded);
        case Pass(between) => PassIsSound(q, between, stranded);
      }
      assert Sound(Apply(q, ops[0]), stranded + slipped) by {
        assert stranded + {} == stranded;
      }
      RunIsSound(Apply(q, ops[0]), ops[1..], stranded + slipped);
      var rest := SlippedOn(Apply(q, ops[0]), ops[1..]);
      assert stranded + slipped + rest == stranded + (slipped + rest);
    }
  }

  /** Over whole runs of enqueues and split passes: the deque is acknowledgements as counted followed by data,
      its keys exactly the queued ones, if and only if no acknowledgement ever slipped in. */
  lemma RunIsCountedIff(q: Deque, ops: seq<Op>)
    requires Counted(q)
    ensures Counted(RunOps(q, ops)) <==> !SomeSlip(q, ops)
  {
    CountedIffSound(q);
    RunIsSound(q, ops, {});
    CountedIffSound(RunOps(q, ops));
    var r, slipped := RunOps(q, ops), SlippedOn(q, ops);
    assert {} + slipped == slipped;
    if key :| key in slipped {
      assert key in r.keys && !Behind(r, key);
    }
  }

  const EMPTY_DEQUE := Deque([], 0, {})

  /** The key is taken and its datagram, if still queued, is among those counted as acknowledgements: it can
      leave only as one, and nothing with its key can be queued. */
  ghost predicate Doomed(q: Deque, key: Key) {
    && q.queuedAcks <= |q.queue| && key in q.keys
    && forall i | q.queuedAcks <= i < |q.queue| :: q.queue[i].key != Some(key)
  }

  /** In every run a fragment is shut out -- it can leave only as an acknowledgement, and every offer of it is
      reported taken and not queued -- if and only if the serving thread was once looking at it when an
      acknowledgement slipped in. */
  lemma ShutOutIff(ops: seq<Op>, key: Key, again: Arrival)
    requires again.d.key == Some(key) && again.d.payload != []
    ensures var r := RunOps(EMPTY_DEQUE, ops);
            && (Doomed(r, key) <==> key in SlippedOn(EMPTY_DEQUE, ops))
            && (Doomed(r, key) ==> Arrived(r, again) == r && Reported(r, again))
  {
    RunIsSound(EMPTY_DEQUE, ops, {});
    var r := RunOps(EMPTY_DEQUE, ops);
    assert Doomed(r, key) <==> key in r.keys && !Behind(r, key);
  }

  /** Every slip strands a fragment, whatever the run before it -- earlier slips included -- whatever got in, and
      whatever is enqueued and taken from then on: an acknowledgement left in its place, the fragment that was
      looked at can leave only as an acknowledgement, and every offer of it is reported taken and never queued.
      If nothing else arrives it is gone once what is counted has been taken. */
  lemma EverySlipStrands(ops: seq<Op>, arrivals: seq<Arrival>, later: seq<Op>, again: Arrival)
    requires var q := RunOps(EMPTY_DEQUE, ops);
             Slips(q, Pass(arrivals)) && again.d.key == q.queue[0].key && again.d.payload != []
    ensures var q := RunOps(EMPTY_DEQUE, ops);
            AllArrived(q, arrivals).queue != [] && AllArrived(q, arrivals).queue[0].key.None? && q.queue[0].key.Some?
    ensures var q := RunOps(EMPTY_DEQUE, ops);
            var popped := PopAsData(AllArrived(q, arrivals));
            var key := q.queue[0].key.value;
            && popped.queuedAcks <= |popped.queue|
            && (var r := RunOps(popped, later); Doomed(r, key) && Arrived(r, again) == r && Reported(r, again))
            && Stranded(RunOps(popped, Passes(popped.queuedAcks)), key)
  {
    RunIsSound(EMPTY_DEQUE, ops, {});
    var q := RunOps(EMPTY_DEQUE, ops);
    var stranded := {} + SlippedOn(EMPTY_DEQUE, ops);
    ArrivalsInsert(q, arrivals);
    PassIsSound(q, arrivals, stranded);
    var popped := PopAsData(AllArrived(q, arrivals));
    assert popped == Apply(q, Pass(arrivals));
    SoundKeepsDoomed(popped, later, stranded + {q.queue[0].key.value}, q.queue[0].key.value);
    SoundKeepsDoomed(popped, Passes(popped.queuedAcks), stranded + {q.queue[0].key.value}, q.queue[0].key.value);
    PassesTakeCounted(popped);
  }

  lemma SoundKeepsDoomed(q: Deque, ops: seq<Op>, stranded: set<Key>, key: Key)
    requires Sound(q, stranded) && key in stranded
    ensures Doomed(RunOps(q, ops), key)
  {
    RunIsSound(q, ops, stranded);
    assert !Behind(RunOps(q, ops), key);
  }

  /** The smallest slip: one data datagram waits, the serving thread looks, an acknowledgement is enqueued, and
      the data branch takes the acknowledgement instead. The next look sees an acknowledgement still counted,
      so the data datagram leaves as one: its key is never erased and the fragment can never be queued again,
      whatever happens, until the pacer is started anew. */
  lemma SlippedAckStrandsFragment(fragment: Datagram, ack: Datagram, later: seq<Op>, again: Arrival)
    requires fragment.key.Some? && fragment.payload != [] && ack.key.None? && ack.payload != []
    requires again.d.key == fragment.key && again.d.payload != []
    ensures var key := fragment.key.value;
            var looked := Deque([fragment], 0, {key});
            var slipped := Apply(looked, Pass([Arrival(ack, false)]));
            && Counted(looked) && slipped == Deque([fragment], 1, {key})
            && Apply(slipped, Pass([])) == Deque([], 0, {key}) && !Counted(Deque([], 0, {key}))
            && Stranded(RunOps(Deque([], 0, {key}), later), key)
            && Arrived(RunOps(Deque([], 0, {key}), later), again) == RunOps(Deque([], 0, {key}), later)
            && Reported(RunOps(Deque([], 0, {key}), later), again)
  {
    var key := fragment.key.value;
    var looked := Deque([fragment], 0, {key});
    assert looked.queue[0..][0].key == Some(key);
    OneArrives(looked, Arrival(ack, false));
    var now := Arrived(looked, Arrival(ack, false));
    assert now.queue == [ack, fragment];
    assert now.queue[1..] == [fragment];
    var taken := Deque([], 0, {key});
    assert !Queued(taken.queue[taken.queuedAcks..], key);
    StrandedForever(taken, later, key, again);
  }

  // ------------------------------------------------------------------ the bucket, over split rounds

  /** The deque, the bucket, what left in order, and what the rates offered. */
  datatype Pacing = Pacing(q: Deque, bucket: TB.Bucket, left: seq<Datagram>, offered: real)

  const IDLE_PACING := Pacing(EMPTY_DEQUE, TB.EMPTY, [], 0.0)

  /** A datagram offered, or one whole pass of the serving thread: refill, then the acknowledgement branch, a
      yield, or the data branch if the bucket admits the datagram seen in front -- with what arrives between
      that look and the pop. */
  datatype Turn = Offered(a: Arrival) | Round(now: nat, rateBps: nat, yielding: bool, between: seq<Arrival>)

  function Taken(p: Pacing, q: Deque, bucket: TB.Bucket): Pacing
    requires q.queue != []
  {
    p.(bucket := bucket, left := p.left + [q.queue[0]])
  }

  function Turned(p: Pacing, t: Turn): (r: Pacing)
    requires p.q.queuedAcks <= |p.q.queue|
    ensures r.q.queuedAcks <= |r.q.queue|
  {
    match t
    case Offered(a) => p.(q := Arrived(p.q, a))
    case Round(now, rate, yielding, between) =>
      var arrived := AllArrived(p.q, between);
      if p.q.queue == [] then p.(q := arrived)
      else
        var bucket := TB.Refilled(p.bucket, now, rate);
        var refilled := p.(bucket := bucket, offered := p.offered + TB.Accrues(p.bucket, now, rate));
        if p.q.queuedAcks > 0 then
          if arrived.queue == [] then refilled
          else Taken(refilled, arrived, TB.Taken(bucket, |arrived.queue[0].payload|)).(q := PopAsAck(arrived))
        else if yielding || !TB.Admits(bucket, |p.q.queue[0].payload|) || arrived.queue == []
        then refilled.(q := arrived)
        else Taken(refilled, arrived, TB.Taken(bucket, |p.q.queue[0].payload|)).(q := PopAsData(arrived))
  }

  /** Behind what is counted there is only data; and the data that left, with what is counted by mistake and
      will leave as acknowledgements, was admitted by the bucket within what the rates offered. */
  ghost predicate Backed(p: Pacing) {
    && p.q.queuedAcks <= |p.q.queue| && TB.Granular(p.bucket)
    && (forall i | p.q.queuedAcks <= i < |p.q.queue| :: p.q.queue[i].key.Some?)
    && (DataBytes(p.left) + DataBytes(p.q.queue[..p.q.queuedAcks])) as real + TB.Credit(p.bucket) <= p.offered
  }

  function RunTurns(turns: seq<Turn>): (p: Pacing)
    ensures p.q.queuedAcks <= |p.q.queue|
    decreases |turns|
  {
    if turns == [] then IDLE_PACING else Turned(RunTurns(turns[..|turns| - 1]), turns[|turns| - 1])
  }

  /** What the queue is from the pop's point of view: the counted ones, and data behind them. */
  ghost predicate Split(q: Deque) {
    q.queuedAcks <= |q.queue| && forall i | q.queuedAcks <= i < |q.queue| :: q.queue[i].key.Some?
  }

  lemma {:induction false} DataBytesJoin(a: seq<Datagram>, b: seq<Datagram>)
    ensures DataBytes(a + b) == DataBytes(a) + DataBytes(b)
    decreases |b|
  {
    if b == [] {
      assert a + b == a;
    } else {
      assert (a + b)[..|a + b| - 1] == a + b[..|b| - 1];
      DataBytesJoin(a, b[..|b| - 1]);
    }
  }

  lemma ArrivedCounts(q: Deque, a: Arrival)
    requires Split(q)
    ensures var r := Arrived(q, a);
            Split(r) && DataBytes(r.queue[..r.queuedAcks]) == DataBytes(q.queue[..q.queuedAcks])
            && (q.queue != [] ==> r.queue != [])
            && (q.queuedAcks < |q.queue| ==> r.queuedAcks < |r.queue| && r.queue[r.queuedAcks] == q.queue[q.queuedAcks])
  {
    var r := Arrived(q, a);
    if Enters(q, a) {
      if a.d.key.Some? {
        assert r.queue[..r.queuedAcks] == q.queue[..q.queuedAcks];
      } else {
        assert r.queue[..r.queuedAcks] == q.queue[..q.queuedAcks] + [a.d];
        Appended(q.queue[..q.queuedAcks], a.d);
        forall i | r.queuedAcks <= i < |r.queue| ensures r.queue[i].key.Some? {
          assert r.queue[i] == q.queue[i - 1];
        }
      }
    }
  }

  lemma {:induction false} AllArrivedCounts(q: Deque, arrivals: seq<Arrival>)
    requires Split(q)
    ensures var r := AllArrived(q, arrivals);
            Split(r) && DataBytes(r.queue[..r.queuedAcks]) == DataBytes(q.queue[..q.queuedAcks])
            && (q.queue != [] ==> r.queue != []) && r.queuedAcks >= q.queuedAcks
            && (q.queuedAcks < |q.queue| ==> r.queuedAcks < |r.queue| && r.queue[r.queuedAcks] == q.queue[q.queuedAcks])
    decreases |arrivals|
  {
    if arrivals != [] {
      ArrivedCounts(q, arrivals[0]);
      AllArrivedCounts(Arrived(q, arrivals[0]), arrivals[1..]);
    }
  }

  /** The data branch after a look at `front`: an unslipped pop takes it; a slipped one leaves it counted. */
  lemma PopAsDataCounts(q: Deque, front: Datagram)
    requires Split(q) && q.queuedAcks < |q.queue| && q.queue[q.queuedAcks] == front
    ensures var r := PopAsData(q);
            && Split(r)
            && DataBytes([q.queue[0]]) + DataBytes(r.queue[..r.queuedAcks])
               == DataBytes(q.queue[..q.queuedAcks]) + |front.payload|
  {
    var r := PopAsData(q);
    var k := q.queuedAcks;
    assert [q.queue[0]] + r.queue[..k] == q.queue[..k] + [front];
    DataBytesJoin([q.queue[0]], r.queue[..k]);
    Appended(q.queue[..k], front);
    forall i | k <= i < |r.queue| ensures r.queue[i].key.Some? {
      assert r.queue[i] == q.queue[i + 1];
    }
  }

  lemma PopAsAckCounts(q: Deque)
    requires Split(q) && q.queuedAcks > 0
    ensures var r := PopAsAck(q);
            && Split(r)
            && DataBytes([q.queue[0]]) + DataBytes(r.queue[..r.queuedAcks]) == DataBytes(q.queue[..q.queuedAcks])
  {
    var r := PopAsAck(q);
    assert [q.queue[0]] + r.queue[..r.queuedAcks] == q.queue[..q.queuedAcks];
    DataBytesJoin([q.queue[0]], r.queue[..r.queuedAcks]);
    forall i | r.queuedAcks <= i < |r.queue| ensures r.queue[i].key.Some? {
      assert r.queue[i] == q.queue[i + 1];
    }
  }

  /** One pop, paid for: `bytes` of data move from what is queued to what left or is counted, and the credit
      gives at least as much. */
  lemma PaysKeepsBacked(p: Pacing, next: Pacing, bytes: nat, accrues: real)
    requires Backed(p) && Split(next.q) && TB.Granular(next.bucket) && next.offered == p.offered + accrues
    requires DataBytes(next.left) + DataBytes(next.q.queue[..next.q.queuedAcks])
          == DataBytes(p.left) + DataBytes(p.q.queue[..p.q.queuedAcks]) + bytes
    requires bytes as real + TB.Credit(next.bucket) <= TB.Credit(p.bucket) + accrues
    ensures Backed(next)
  {
  }

  lemma RefillPays(b: TB.Bucket, now: nat, rateBps: nat, bytes: nat)
    requires TB.Granular(b)
    ensures var r := TB.Refilled(b, now, rateBps);
            && TB.Granular(r) && TB.Credit(r) <= TB.Credit(b) + TB.Accrues(b, now, rateBps)
            && TB.Granular(TB.Taken(r, bytes)) && TB.Credit(TB.Taken(r, bytes)) <= TB.Credit(r)
            && (TB.Admits(r, bytes) ==> bytes as real + TB.Credit(TB.Taken(r, bytes)) <= TB.Credit(r))
  {
    TB.StepStaysGranular(b, TB.Refill(now, rateBps));
    TB.StepWithinAccrual(b, TB.Refill(now, rateBps));
    var r := TB.Refilled(b, now, rateBps);
    TB.StepStaysGranular(r, TB.Ack(bytes));
    TB.StepWithinAccrual(r, TB.Ack(bytes));
    TB.StepWithinAccrual(r, TB.Data(bytes));
  }

  lemma TurnKeepsBacked(p: Pacing, t: Turn)
    requires Backed(p)
    ensures Backed(Turned(p, t))
  {
    match t
    case Offered(a) => ArrivedCounts(p.q, a);
    case Round(now, rate, yielding, between) =>
      AllArrivedCounts(p.q, between);
      var arrived := AllArrived(p.q, between);
      if p.q.queue != [] {
        var accrues := TB.Accrues(p.bucket, now, rate);
        Appended(p.left, arrived.queue[0]);
        DataBytesJoin(p.left, [arrived.queue[0]]);
        if p.q.queuedAcks > 0 {
          RefillPays(p.bucket, now, rate, |arrived.queue[0].payload|);
          PopAsAckCounts(arrived);
          PaysKeepsBacked(p, Turned(p, t), 0, accrues);
        } else {
          RefillPays(p.bucket, now, rate, |p.q.queue[0].payload|);
          PopAsDataCounts(arrived, p.q.queue[0]);
          var admitted := !yielding && TB.Admits(TB.Refilled(p.bucket, now, rate), |p.q.queue[0].payload|);
          PaysKeepsBacked(p, Turned(p, t), if admitted then |p.q.queue[0].payload| else 0, accrues);
        }
      }
  }

  lemma {:induction false} RunStaysBacked(turns: seq<Turn>)
    ensures Backed(RunTurns(turns))
    decreases |turns|
  {
    if turns == [] {
      assert TB.Measures(0.0, 0);
    } else {
      RunStaysBacked(turns[..|turns| - 1]);
      TurnKeepsBacked(RunTurns(turns[..|turns| - 1]), turns[|turns| - 1]);
    }
  }

  /** The byte bound survives the race: in every run with any enqueues between look and pop, slips included,
      the data that left -- through either branch -- never exceeds what the rates offered. A slip charges the
      bucket for the fragment it had looked at when the acknowledgement goes, and for it again, as a debt,
      when the fragment goes. */
  lemma RacePaysForData(turns: seq<Turn>)
    ensures DataBytes(RunTurns(turns).left) as real <= RunTurns(turns).offered
  {
    RunStaysBacked(turns);
  }
}
