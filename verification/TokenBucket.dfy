/** The pacer's byte token bucket (bulk_pacer.hpp, BulkTokenBucket), over exact real arithmetic. */
module TokenBucket {

  /** Four full datagrams, whatever the rate. */
  const BURST_BYTES: nat := 6000
  const BURST: real := 6000.0
  /** One bit per second over one microsecond, in bytes: 1 / (8 x 10^6). */
  const UNITS_PER_BYTE: real := 8000000.0
  const TOLERANCE: real := 0.000000001

  datatype Bucket = Bucket(tokens: real, lastUs: nat)

  const EMPTY := Bucket(0.0, 0)

  function Accrual(elapsedUs: nat, rateBps: nat): real {
    (elapsedUs * rateBps) as real / UNITS_PER_BYTE
  }

  /** What this refill adds before the burst cap: nothing on the first call, on a clock that stepped back,
      or while paused. */
  function Accrues(b: Bucket, now: nat, rateBps: nat): real {
    if b.lastUs == 0 || now < b.lastUs then 0.0 else Accrual(now - b.lastUs, rateBps)
  }

  function Refilled(b: Bucket, now: nat, rateBps: nat): Bucket {
    if b.lastUs == 0 || now < b.lastUs then Bucket(b.tokens, now)
    else if rateBps == 0 then Bucket(0.0, now)
    else
      var tokens := b.tokens + Accrual(now - b.lastUs, rateBps);
      Bucket(if tokens > BURST then BURST else tokens, now)
  }

  predicate Admits(b: Bucket, bytes: nat) {
    b.tokens + TOLERANCE >= bytes as real
  }

  function Taken(b: Bucket, bytes: nat): Bucket {
    b.(tokens := b.tokens - bytes as real)
  }

  // ------------------------------------------------------------------ runs

  datatype Event = Refill(nowUs: nat, rateBps: nat) | Data(bytes: nat) | Ack(bytes: nat)

  function Step(b: Bucket, e: Event): Bucket {
    match e
    case Refill(now, rate) => Refilled(b, now, rate)
    case Data(bytes) => if Admits(b, bytes) then Taken(b, bytes) else b
    case Ack(bytes) => Taken(b, bytes)
  }

  function Run(b: Bucket, events: seq<Event>): Bucket
    decreases |events|
  {
    if events == [] then b else Run(Step(b, events[0]), events[1..])
  }

  function Out(b: Bucket, e: Event): nat {
    if e.Data? && Admits(b, e.bytes) then e.bytes else 0
  }

  function Offered(b: Bucket, e: Event): real {
    if e.Refill? then Accrues(b, e.nowUs, e.rateBps) else 0.0
  }

  /** The data bytes let out. */
  function DataOut(b: Bucket, events: seq<Event>): nat
    decreases |events|
  {
    if events == [] then 0 else Out(b, events[0]) + DataOut(Step(b, events[0]), events[1..])
  }

  /** Everything the rates offered, refill by refill. */
  function Accrued(b: Bucket, events: seq<Event>): real
    decreases |events|
  {
    if events == [] then 0.0
    else Offered(b, events[0]) + Accrued(Step(b, events[0]), events[1..])
  }

  /** Tokens are whole multiples of 1 / (8 x 10^6) bytes and never exceed the burst. */
  ghost predicate Granular(b: Bucket) {
    (exists units: int :: Measures(b.tokens, units)) && b.tokens <= BURST
  }

  ghost predicate Measures(tokens: real, units: int) {
    tokens == units as real / UNITS_PER_BYTE
  }

  lemma StepStaysGranular(b: Bucket, e: Event)
    requires Granular(b)
    ensures Granular(Step(b, e))
  {
    var units: int :| Measures(b.tokens, units);
    match e {
      case Refill(now, rate) =>
        if b.lastUs != 0 && now >= b.lastUs {
          var more := (now - b.lastUs) * rate;
          assert Measures(b.tokens + Accrual(now - b.lastUs, rate), units + more);
          assert Measures(BURST, 48000000000);
          assert Measures(0.0, 0);
        }
      case Data(bytes) =>
        assert Measures(b.tokens - bytes as real, units - bytes * 8000000);
      case Ack(bytes) =>
        assert Measures(b.tokens - bytes as real, units - bytes * 8000000);
    }
  }

  /** The comparison's 1e-9 slack admits nothing on its own: no reachable level falls inside it. */
  lemma ToleranceIsVoid(b: Bucket, bytes: nat)
    requires Granular(b)
    ensures Admits(b, bytes) <==> b.tokens >= bytes as real
  {
    var units: int :| Measures(b.tokens, units);
    if units < bytes * 8000000 {
      assert (units + 1) as real <= (bytes * 8000000) as real;
      assert b.tokens + 1.0 / UNITS_PER_BYTE <= bytes as real;
    }
  }

  function Credit(b: Bucket): real {
    if b.tokens > 0.0 then b.tokens else 0.0
  }

  lemma StepWithinAccrual(b: Bucket, e: Event)
    requires Granular(b)
    ensures Out(b, e) as real + Credit(Step(b, e)) <= Credit(b) + Offered(b, e)
  {
    if e.Data? {
      ToleranceIsVoid(b, e.bytes);
    }
  }

  /** Data let out never exceeds the credit at hand plus what the rates accrued, from any reachable state
      and whatever refills, pauses and acknowledgement debts lie in between. */
  lemma {:induction false} DataWithinAccrual(b: Bucket, events: seq<Event>)
    requires Granular(b)
    ensures DataOut(b, events) as real + Credit(Run(b, events)) <= Credit(b) + Accrued(b, events)
    ensures Granular(Run(b, events))
    decreases |events|
  {
    if events != [] {
      var e := events[0];
      StepStaysGranular(b, e);
      StepWithinAccrual(b, e);
      DataWithinAccrual(Step(b, e), events[1..]);
    }
  }

  /** The clock does not run backwards and no rate exceeds `maxBps`. */
  ghost predicate Paced(lastUs: nat, events: seq<Event>, maxBps: nat, untilUs: nat)
    decreases |events|
  {
    if events == [] then lastUs <= untilUs
    else if events[0].Refill?
    then lastUs <= events[0].nowUs && events[0].rateBps <= maxBps
         && Paced(events[0].nowUs, events[1..], maxBps, untilUs)
    else Paced(lastUs, events[1..], maxBps, untilUs)
  }

  lemma AccrualGrows(elapsedUs: nat, rateBps: nat, maxBps: nat)
    requires rateBps <= maxBps
    ensures Accrual(elapsedUs, rateBps) <= Accrual(elapsedUs, maxBps)
  {
    assert elapsedUs * maxBps - elapsedUs * rateBps == elapsedUs * (maxBps - rateBps) >= 0;
  }

  lemma AccrualAdds(a: nat, b: nat, rateBps: nat)
    ensures Accrual(a + b, rateBps) == Accrual(a, rateBps) + Accrual(b, rateBps)
  {
    assert (a + b) * rateBps == a * rateBps + b * rateBps;
  }

  lemma RefillWithinTime(fromUs: nat, nowUs: nat, untilUs: nat, rateBps: nat, maxBps: nat)
    requires fromUs <= nowUs <= untilUs && rateBps <= maxBps
    ensures Accrual(nowUs - fromUs, rateBps) + Accrual(untilUs - nowUs, maxBps) <= Accrual(untilUs - fromUs, maxBps)
  {
    AccrualGrows(nowUs - fromUs, rateBps, maxBps);
    AccrualAdds(nowUs - fromUs, untilUs - nowUs, maxBps);
  }

  lemma {:induction false} AccruedWithinTime(b: Bucket, events: seq<Event>, maxBps: nat, untilUs: nat)
    requires Paced(b.lastUs, events, maxBps, untilUs)
    ensures b.lastUs <= untilUs && Accrued(b, events) <= Accrual(untilUs - b.lastUs, maxBps)
    decreases |events|
  {
    if events != [] {
      AccruedWithinTime(Step(b, events[0]), events[1..], maxBps, untilUs);
      if events[0].Refill? {
        RefillWithinTime(b.lastUs, events[0].nowUs, untilUs, events[0].rateBps, maxBps);
      }
    }
  }

  /** In any stretch of any run, the data bytes are at most one burst plus what the highest rate offers over
      the stretch's own time -- acknowledgements, pauses and their forgiven debt included, no tolerance. */
  lemma DataWithinBurstAndRate(before: seq<Event>, stretch: seq<Event>, maxBps: nat, untilUs: nat)
    requires Paced(Run(EMPTY, before).lastUs, stretch, maxBps, untilUs)
    ensures var from := Run(EMPTY, before);
            && from.lastUs <= untilUs
            && DataOut(from, stretch) as real <= BURST + Accrual(untilUs - from.lastUs, maxBps)
  {
    assert Measures(0.0, 0);
    DataWithinAccrual(EMPTY, before);
    var from := Run(EMPTY, before);
    AccruedWithinTime(from, stretch, maxBps, untilUs);
    DataWithinAccrual(from, stretch);
  }

  // ------------------------------------------------------------------ waiting

  /** The wait of a paused bucket: the largest 64-bit value. */
  const FOREVER: nat := 0xFFFF_FFFF_FFFF_FFFF

  /** Microseconds until `bytes` are available at a rate that is not paused. */
  function WaitFor(b: Bucket, bytes: nat, rateBps: nat): nat
    requires rateBps != 0
  {
    var need := bytes as real - b.tokens;
    if need <= 0.0 then 0 else (need * UNITS_PER_BYTE / rateBps as real).Floor + 1
  }

  lemma RateDivides(n: nat, rateBps: nat, x: real)
    requires rateBps != 0
    ensures n as real >= x / rateBps as real ==> (n * rateBps) as real >= x
    ensures n as real < x / rateBps as real ==> (n * rateBps) as real < x
  {
    var r := rateBps as real;
    assert (n * rateBps) as real == n as real * r;
    assert x / r * r == x;
    if n as real >= x / r {
      assert (n as real - x / r) * r >= 0.0;
    } else {
      assert (x / r - n as real) * r > 0.0;
    }
  }

  /** Refilling after exactly the announced wait at a constant non-zero rate always admits the datagram,
      and refilling more than one microsecond sooner never does. */
  lemma WaitIsEnoughAndTight(b: Bucket, bytes: nat, rateBps: nat, earlyUs: nat)
    requires Granular(b) && b.lastUs != 0 && rateBps != 0 && bytes <= BURST_BYTES
    ensures var wait := WaitFor(b, bytes, rateBps);
            && Admits(Refilled(b, b.lastUs + wait, rateBps), bytes)
            && (earlyUs + 1 < wait ==> !Admits(Refilled(b, b.lastUs + earlyUs, rateBps), bytes))
  {
    var need := bytes as real - b.tokens;
    var wait := WaitFor(b, bytes, rateBps);
    if need > 0.0 {
      var units := need * UNITS_PER_BYTE;
      RateDivides(wait, rateBps, units);
      assert (wait * rateBps) as real / UNITS_PER_BYTE >= need;
      if earlyUs + 1 < wait {
        RateDivides(earlyUs, rateBps, units);
        assert (earlyUs * rateBps) as real / UNITS_PER_BYTE < need;
        var early := Refilled(b, b.lastUs + earlyUs, rateBps);
        assert early.tokens < bytes as real;
        StepStaysGranular(b, Refill(b.lastUs + earlyUs, rateBps));
        ToleranceIsVoid(early, bytes);
      }
    } else {
      assert Accrual(0, rateBps) == 0.0;
    }
  }

  class BulkTokenBucket {
    var tokens: real
    var lastUs: nat

    ghost function Value(): Bucket
      reads this
    {
      Bucket(tokens, lastUs)
    }

    constructor ()
      ensures Value() == EMPTY
    {
      tokens, lastUs := 0.0, 0;
    }

    method Refill(now: nat, rateBps: nat)
      modifies this
      ensures Value() == Refilled(old(Value()), now, rateBps)
    {
      if lastUs == 0 || now < lastUs {
        lastUs := now;
        return;
      }
      var elapsed := now - lastUs;
      lastUs := now;
      if rateBps == 0 {
        tokens := 0.0;
        return;
      }
      tokens := tokens + (elapsed * rateBps) as real / UNITS_PER_BYTE;
      if tokens > BURST {
        tokens := BURST;
      }
    }

    method TryTake(bytes: nat) returns (taken: bool)
      modifies this`tokens
      ensures taken <==> Admits(old(Value()), bytes)
      ensures Value() == if taken then Taken(old(Value()), bytes) else old(Value())
    {
      if tokens + TOLERANCE < bytes as real {
        return false;
      }
      tokens := tokens - bytes as real;
      return true;
    }

    /** Takes regardless, running into debt the next data datagrams repay. */
    method TakeOwed(bytes: nat)
      modifies this`tokens
      ensures Value() == Taken(old(Value()), bytes)
    {
      tokens := tokens - bytes as real;
    }

    method WaitUs(bytes: nat, rateBps: nat) returns (wait: nat)
      ensures wait == if rateBps == 0 then FOREVER else WaitFor(Value(), bytes, rateBps)
    {
      if rateBps == 0 {
        return FOREVER;
      }
      var need := bytes as real - tokens;
      if need <= 0.0 {
        return 0;
      }
      assert need * UNITS_PER_BYTE / rateBps as real >= 0.0;
      wait := (need * UNITS_PER_BYTE / rateBps as real).Floor + 1;
    }
  }
}
