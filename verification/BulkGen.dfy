/** Bulk stream ids and the generations behind them (clip_image_core.hpp): a late datagram of a recent
    transfer, or of a file paste, never carries the current image transfer's stream id. */
module BulkGen {
  import opened Common

  const KEPT: nat := 65
  const LOW_28: nat := 0x1000_0000
  const STREAM_TAG: nat := 0x4000_0000
  const CLIENT_TO_HOST: nat := 1
  const HOST_TO_CLIENT: nat := 2

  type Word32 = x: nat | x < TWO_TO_THE_32

  function Low(gen: nat): nat {
    gen % LOW_28
  }

  // ------------------------------------------------------------------ stream ids

  /** Tag, low 28 bits of the generation and direction occupy disjoint bits, so joining them is adding them. */
  function StreamId(gen: nat, base: nat): (id: nat)
    ensures id < TWO_TO_THE_32
  {
    STREAM_TAG + Low(gen) * 4 + base % 4
  }

  predicate IsBulk(streamId: nat) {
    streamId / STREAM_TAG == 1
  }

  predicate IsFile(streamId: nat) {
    IsBulk(streamId) && (streamId % 4 == 0 || streamId % 4 == 3)
  }

  /** A stream id gives back its direction and the generation's low 28 bits; an image's is never a file's. */
  lemma StreamIdIsInjective(gen: nat, base: nat, otherGen: nat, otherBase: nat)
    ensures IsBulk(StreamId(gen, base))
    ensures StreamId(gen, base) == StreamId(otherGen, otherBase)
            <==> Low(gen) == Low(otherGen) && base % 4 == otherBase % 4
    ensures IsFile(StreamId(gen, base)) <==> base % 4 == 0 || base % 4 == 3
    ensures !IsFile(StreamId(gen, CLIENT_TO_HOST)) && !IsFile(StreamId(gen, HOST_TO_CLIENT))
  {
  }

  // ------------------------------------------------------------------ the allocator

  /** The counter, and the low 28 bits of the current generation and the 64 before it, oldest first. */
  datatype Allocator = Allocator(next: Word32, recent: seq<nat>)

  predicate Free(gen: nat, recent: seq<nat>) {
    Low(gen) != 0 && Low(gen) !in recent
  }

  /** The counter after `k` more increments, wrapping at 32 bits. */
  function Candidate(next: nat, k: nat): Word32 {
    (next + 1 + k) % TWO_TO_THE_32
  }

  /** The first free candidate from the k-th on; the search stops at the 67th. */
  function FirstFree(next: nat, recent: seq<nat>, k: nat): Word32
    decreases KEPT + 1 - k
  {
    if k > KEPT || Free(Candidate(next, k), recent) then Candidate(next, k) else FirstFree(next, recent, k + 1)
  }

  function Remembered(recent: seq<nat>, low: nat): seq<nat> {
    if |recent| + 1 > KEPT then (recent + [low])[1..] else recent + [low]
  }

  function Handed(a: Allocator): (Allocator, Word32) {
    var gen := FirstFree(a.next, a.recent, 0);
    (Allocator(gen, Remembered(a.recent, Low(gen))), gen)
  }

  /** The values a search has to skip. */
  ghost function Blocked(recent: seq<nat>): set<nat> {
    {0} + set x | x in recent
  }

  ghost function Tried(next: nat, k: nat): set<nat> {
    if k == 0 then {} else Tried(next, k - 1) + {Low(Candidate(next, k - 1))}
  }

  lemma LowOfCandidate(next: nat, k: nat)
    ensures Low(Candidate(next, k)) == (next + 1 + k) % LOW_28
  {
    var x := next + 1 + k;
    var q, r := x / TWO_TO_THE_32, x % TWO_TO_THE_32;
    var q2, low := r / LOW_28, r % LOW_28;
    assert x == LOW_28 * (16 * q + q2) + low;
    RemainderIs(x, 16 * q + q2, low);
  }

  lemma RemainderIs(x: nat, q: nat, low: nat)
    requires x == LOW_28 * q + low && low < LOW_28
    ensures x % LOW_28 == low
  {
    var other := x / LOW_28;
    assert LOW_28 * (other - q) < LOW_28 && LOW_28 * (q - other) < LOW_28;
  }

  lemma CandidatesDiffer(next: nat, j: nat, k: nat)
    requires j < k < LOW_28
    ensures Low(Candidate(next, j)) != Low(Candidate(next, k))
  {
    LowOfCandidate(next, j);
    LowOfCandidate(next, k);
  }

  /** Consecutive candidates differ in their low bits, across the 32-bit wrap too. */
  lemma {:induction false} TriedAreDistinct(next: nat, k: nat)
    requires k < LOW_28
    ensures |Tried(next, k)| == k
    ensures forall x | x in Tried(next, k) :: exists j | 0 <= j < k :: x == Low(Candidate(next, j))
  {
    if k > 0 {
      TriedAreDistinct(next, k - 1);
      forall j | 0 <= j < k - 1 ensures Low(Candidate(next, j)) != Low(Candidate(next, k - 1)) {
        CandidatesDiffer(next, j, k - 1);
      }
    }
  }

  lemma {:induction false} BlockedIsSmall(recent: seq<nat>)
    ensures |Blocked(recent)| <= |recent| + 1
  {
    if recent == [] {
      assert Blocked(recent) == {0};
    } else {
      BlockedIsSmall(recent[1..]);
      assert Blocked(recent) == Blocked(recent[1..]) + {recent[0]};
    }
  }

  /** By the pigeonhole principle the search meets a free value within 67 steps, from any seed: at most 66
      values are blocked and 67 consecutive candidates are all different. */
  lemma {:induction false} SearchFindsFree(next: nat, recent: seq<nat>, k: nat) returns (n: nat)
    requires |recent| <= KEPT && k <= KEPT + 1 && Tried(next, k) <= Blocked(recent)
    ensures k <= n <= KEPT + 1 && FirstFree(next, recent, k) == Candidate(next, n) && Free(Candidate(next, n), recent)
    ensures forall i | k <= i < n :: !Free(Candidate(next, i), recent)
    decreases KEPT + 1 - k
  {
    if Free(Candidate(next, k), recent) {
      n := k;
    } else {
      BlockedCandidate(next, recent, k);
      n := SearchFindsFree(next, recent, k + 1);
    }
  }

  lemma BlockedCandidate(next: nat, recent: seq<nat>, k: nat)
    requires |recent| <= KEPT && Tried(next, k) <= Blocked(recent) && !Free(Candidate(next, k), recent)
    requires k <= KEPT + 1
    ensures Tried(next, k + 1) <= Blocked(recent) && k < KEPT + 1
  {
    assert Tried(next, k + 1) == Tried(next, k) + {Low(Candidate(next, k))};
    TriedAreDistinct(next, k + 1);
    BlockedIsSmall(recent);
    SubsetIsSmaller(Tried(next, k + 1), Blocked(recent));
  }

  lemma CandidateFollows(seed: nat, k: nat, next: nat)
    requires next == (seed + k) % TWO_TO_THE_32
    ensures (next + 1) % TWO_TO_THE_32 == Candidate(seed, k) == (seed + (k + 1)) % TWO_TO_THE_32
  {
  }

  // ------------------------------------------------------------------ runs

  function Results(seed: Word32, n: nat): (seq<Word32>, Allocator) {
    if n == 0 then ([], Allocator(seed, []))
    else
      var (gens, a) := Results(seed, n - 1);
      var (next, gen) := Handed(a);
      (gens + [gen], next)
  }

  function Lows(gens: seq<nat>): seq<nat> {
    seq(|gens|, i requires 0 <= i < |gens| => Low(gens[i]))
  }

  lemma {:induction false} RecentIsTail(seed: Word32, n: nat)
    ensures var (gens, a) := Results(seed, n);
            && |gens| == n
            && a.recent == Lows(gens[if n > KEPT then n - KEPT else 0..])
  {
    if n > 0 {
      RecentIsTail(seed, n - 1);
      var (gens, a) := Results(seed, n - 1);
      var from := if n > KEPT then n - KEPT else 0;
      assert Lows(Results(seed, n).0[from..]) == Remembered(a.recent, Low(Handed(a).1));
    }
  }

  lemma {:induction false} ResultsArePrefix(seed: Word32, m: nat, n: nat)
    requires m <= n
    ensures |Results(seed, m).0| == m && |Results(seed, n).0| == n && Results(seed, m).0 <= Results(seed, n).0
    decreases n
  {
    RecentIsTail(seed, m);
    RecentIsTail(seed, n);
    if m < n {
      ResultsArePrefix(seed, m, n - 1);
    }
  }

  /** From any seed, any 66 consecutive generations have pairwise distinct, non-zero low 28 bits, so their
      image stream ids never coincide in either direction. */
  lemma RecentStreamsNeverCoincide(seed: Word32, n: nat, i: nat, j: nat, base: nat, otherBase: nat)
    requires i < j < n && j - i <= KEPT
    ensures var gens := Results(seed, n).0;
            && |gens| == n
            && Low(gens[i]) != Low(gens[j]) && Low(gens[i]) != 0 && Low(gens[j]) != 0
            && StreamId(gens[i], base) != StreamId(gens[j], otherBase)
  {
    ResultIsFree(seed, i, n);
    ResultIsFree(seed, j, n);
    var gens := Results(seed, n).0;
    ResultsArePrefix(seed, j, n);
    RecentIsTail(seed, j);
    var before := Results(seed, j);
    var from := if j > KEPT then j - KEPT else 0;
    assert before.1.recent[i - from] == Low(gens[i]);
    StreamIdIsInjective(gens[i], base, gens[j], otherBase);
  }

  lemma ResultIsFree(seed: Word32, j: nat, n: nat)
    requires j < n
    ensures |Results(seed, n).0| == n && Free(Results(seed, n).0[j], Results(seed, j).1.recent)
  {
    ResultsArePrefix(seed, j + 1, n);
    RecentIsTail(seed, j);
    var _ := SearchFindsFree(Results(seed, j).1.next, Results(seed, j).1.recent, 0);
    assert Results(seed, j + 1).0[j] == Results(seed, n).0[j];
  }

  class BulkGenAllocator {
    var next: Word32
    var recent: seq<nat>

    ghost predicate Valid()
      reads this
    {
      |recent| <= KEPT
    }

    ghost function Value(): Allocator
      reads this
    {
      Allocator(next, recent)
    }

    constructor (seed: Word32)
      ensures Valid() && Value() == Allocator(seed, [])
    {
      next, recent := seed, [];
    }

    method Next() returns (gen: Word32)
      requires Valid()
      modifies this
      ensures Valid()
      ensures (Value(), gen) == Handed(old(Value()))
      ensures Free(gen, old(recent))
    {
      ghost var seed := next;
      ghost var k := 0;
      ghost var n := SearchFindsFree(seed, recent, 0);
      while true
        invariant k <= n && recent == old(recent)
        invariant next == (seed + k) % TWO_TO_THE_32
        decreases n - k
      {
        CandidateFollows(seed, k, next);
        next := (next + 1) % TWO_TO_THE_32;
        var low := Low(next);
        if low == 0 || low in recent {
          k := k + 1;
          continue;
        }
        recent := recent + [low];
        if |recent| > KEPT {
          recent := recent[1..];
        }
        return next;
      }
    }
  }
}
