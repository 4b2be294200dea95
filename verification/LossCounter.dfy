/** The parts of the bulk loss ratio (bulk_rate_controller.hpp, BulkLossCounter): fragments sent for the first
    time, fragments that needed recovery, and messages resent whole. Resends of confirmed chunks and repeat
    resends are counted apart. What was counted is remembered only up to a limit. */
module LossCounter {
  import opened Common

  const KEPT_KEYS: nat := 4096
  const KEPT_SEQS: nat := 64
  const FRAGS: nat := 0x1_0000

  datatype Window = Window(sent: nat, lost: nat, rto: nat)

  datatype Verdict = NewLoss | Repeat | AckLost

  /** `fragsPerSeq`: how many fragments of a message have been counted as lost. */
  datatype Counter = Counter(win: Window, keys: set<nat>, fragsPerSeq: map<nat, nat>, ackLost: nat, repeats: nat)

  const NO_COUNTS := Window(0, 0, 0)
  const NOTHING := Counter(NO_COUNTS, {}, map[], 0, 0)

  type Index = i: nat | i < FRAGS

  /** A resent fragment, as its header names it. */
  datatype Resent = Resent(seqNo: nat, fragIndex: Index, fragCount: nat)

  function KeyOf(x: Resent): nat {
    x.seqNo * FRAGS + x.fragIndex
  }

  function SeqOf(key: nat): nat {
    key / FRAGS
  }

  /** A key gives back the message and the fragment. */
  lemma KeyIsInjective(x: Resent)
    ensures SeqOf(KeyOf(x)) == x.seqNo && KeyOf(x) % FRAGS == x.fragIndex
  {
    var q, r := KeyOf(x) / FRAGS, KeyOf(x) % FRAGS;
    assert FRAGS * (q - x.seqNo) < FRAGS && FRAGS * (x.seqNo - q) < FRAGS;
  }

  // ------------------------------------------------------------------ the least one goes

  predicate IsLeast(least: nat, s: set<nat>) {
    least in s && forall k | k in s :: least <= k
  }

  lemma {:induction false} LeastExists(s: set<nat>)
    requires s != {}
    ensures exists least :: IsLeast(least, s)
    decreases |s|
  {
    var k :| k in s;
    assert forall j | j in s :: j == k || j in s - {k};
    if s - {k} == {} {
      assert IsLeast(k, s);
    } else {
      LeastExists(s - {k});
      var other: nat :| IsLeast(other, s - {k});
      assert IsLeast(if k <= other then k else other, s);
    }
  }

  ghost function Least(s: set<nat>): (least: nat)
    requires s != {}
    ensures IsLeast(least, s)
  {
    LeastExists(s);
    var least :| IsLeast(least, s);
    least
  }

  ghost function Trimmed(s: set<nat>, limit: nat): set<nat> {
    if |s| > limit then s - {Least(s)} else s
  }

  ghost function TrimmedSeqs(m: map<nat, nat>): map<nat, nat> {
    if |m| > KEPT_SEQS then m - {Least(m.Keys)} else m
  }

  // ------------------------------------------------------------------ steps

  function FragsOf(m: map<nat, nat>, seqNo: nat): nat {
    if seqNo in m then m[seqNo] else 0
  }

  /** One more fragment of a message counted; with more than 64 messages the earliest one goes. */
  ghost function Noted(m: map<nat, nat>, seqNo: nat): map<nat, nat> {
    TrimmedSeqs(m[seqNo := FragsOf(m, seqNo) + 1])
  }

  ghost function Counted(c: Counter, x: Resent): Counter {
    var frags := FragsOf(c.fragsPerSeq, x.seqNo) + 1;
    c.(win := Window(c.win.sent, c.win.lost + 1, c.win.rto + if frags == x.fragCount then 1 else 0),
       keys := Trimmed(c.keys + {KeyOf(x)}, KEPT_KEYS),
       fragsPerSeq := Noted(c.fragsPerSeq, x.seqNo))
  }

  ghost function Judged(c: Counter, x: Resent, confirmed: bool): (Counter, Verdict) {
    if confirmed then (c.(ackLost := c.ackLost + 1), AckLost)
    else if KeyOf(x) in c.keys then (c.(repeats := c.repeats + 1), Repeat)
    else (Counted(c, x), NewLoss)
  }

  // ------------------------------------------------------------------ runs

  datatype Event = Original | Resend(x: Resent, confirmed: bool) | Take

  /** The counter with every window handed out so far added up. */
  datatype Run = Run(c: Counter, taken: Window)

  function Sum(a: Window, b: Window): Window {
    Window(a.sent + b.sent, a.lost + b.lost, a.rto + b.rto)
  }

  ghost function Step(r: Run, e: Event): Run {
    match e
    case Original => r.(c := r.c.(win := r.c.win.(sent := r.c.win.sent + 1)))
    case Resend(x, confirmed) => r.(c := Judged(r.c, x, confirmed).0)
    case Take => Run(r.c.(win := NO_COUNTS), Sum(r.taken, r.c.win))
  }

  ghost function RunOf(events: seq<Event>): Run
    decreases |events|
  {
    if events == [] then Run(NOTHING, NO_COUNTS) else Step(RunOf(events[..|events| - 1]), events[|events| - 1])
  }

  /** Everything counted since the session began, handed out or not. */
  function Sent(r: Run): nat {
    r.taken.sent + r.c.win.sent
  }

  function Lost(r: Run): nat {
    r.taken.lost + r.c.win.lost
  }

  function Timeouts(r: Run): nat {
    r.taken.rto + r.c.win.rto
  }

  function Originals(events: seq<Event>): nat
    decreases |events|
  {
    if events == [] then 0
    else Originals(events[..|events| - 1]) + if events[|events| - 1].Original? then 1 else 0
  }

  function Resends(events: seq<Event>): nat
    decreases |events|
  {
    if events == [] then 0
    else Resends(events[..|events| - 1]) + if events[|events| - 1].Resend? then 1 else 0
  }

  /** The fragments ever resent while their chunk was not confirmed. */
  function Ever(events: seq<Event>): set<nat>
    decreases |events|
  {
    if events == [] then {}
    else
      var last := events[|events| - 1];
      Ever(events[..|events| - 1]) + if last.Resend? && !last.confirmed then {KeyOf(last.x)} else {}
  }

  function Above(s: set<nat>, key: nat): set<nat> {
    set k | k in s && key < k
  }

  /** A resend of a fragment resent before, of which the counter no longer knows. */
  predicate Forgotten(before: set<nat>, e: Event) {
    e.Resend? && !e.confirmed && KeyOf(e.x) in before && |Above(before, KeyOf(e.x))| >= KEPT_KEYS
  }

  function Recounts(events: seq<Event>): nat
    decreases |events|
  {
    if events == [] then 0
    else
      var front := events[..|events| - 1];
      Recounts(front) + if Forgotten(Ever(front), events[|events| - 1]) then 1 else 0
  }

  /** `kept` are the largest of `ever`, as many as the limit allows. */
  ghost predicate Largest(kept: set<nat>, ever: set<nat>, limit: nat) {
    && kept <= ever && |kept| <= limit
    && (forall k | k in ever && k !in kept :: |kept| == limit && forall j | j in kept :: k < j)
  }

  lemma LargestIff(kept: set<nat>, ever: set<nat>, limit: nat, key: nat)
    requires Largest(kept, ever, limit) && limit > 0
    ensures key in kept <==> key in ever && |Above(ever, key)| < limit
  {
    if key in kept {
      assert Above(ever, key) <= kept - {key};
      SubsetIsSmaller(Above(ever, key), kept - {key});
    } else if key in ever {
      assert kept <= Above(ever, key);
      SubsetIsSmaller(kept, Above(ever, key));
    }
  }

  lemma LargestGrows(kept: set<nat>, ever: set<nat>, limit: nat, key: nat)
    requires Largest(kept, ever, limit) && key !in kept
    ensures Largest(Trimmed(kept + {key}, limit), ever + {key}, limit)
  {
    var grown := kept + {key};
    if |grown| > limit {
      var least := Least(grown);
      assert |grown - {least}| == limit;
    }
  }

  lemma {:induction false} KeptAreLargest(events: seq<Event>)
    ensures Largest(RunOf(events).c.keys, Ever(events), KEPT_KEYS)
    decreases |events|
  {
    if events != [] {
      var front, e := events[..|events| - 1], events[|events| - 1];
      KeptAreLargest(front);
      var c := RunOf(front).c;
      if e.Resend? && !e.confirmed {
        if KeyOf(e.x) in c.keys {
          assert Ever(front) + {KeyOf(e.x)} == Ever(front);
        } else {
          LargestGrows(c.keys, Ever(front), KEPT_KEYS, KeyOf(e.x));
        }
      } else {
        assert Ever(front) + {} == Ever(front);
      }
    }
  }

  /** In every run: a resend of a chunk not confirmed is a repeat if and only if that fragment was resent before
      and fewer than 4096 of the fragments resent so far are later ones; otherwise it is a new loss. */
  lemma RepeatIff(events: seq<Event>, x: Resent)
    ensures Judged(RunOf(events).c, x, false).1
            == if KeyOf(x) in Ever(events) && |Above(Ever(events), KeyOf(x))| < KEPT_KEYS then Repeat else NewLoss
  {
    KeptAreLargest(events);
    LargestIff(RunOf(events).c.keys, Ever(events), KEPT_KEYS, KeyOf(x));
  }

  lemma OneMoreEver(events: seq<Event>, x: Resent)
    requires events != [] && events[|events| - 1] == Resend(x, false)
    ensures var before := Ever(events[..|events| - 1]);
            Ever(events) == before + {KeyOf(x)}
            && |Ever(events)| == |before| + if KeyOf(x) in before then 0 else 1
  {
    var before := Ever(events[..|events| - 1]);
    if KeyOf(x) in before {
      assert before + {KeyOf(x)} == before;
    }
  }

  lemma {:induction false} LossesAreDistinct(events: seq<Event>)
    ensures Lost(RunOf(events)) == |Ever(events)| + Recounts(events)
    decreases |events|
  {
    if events != [] {
      var front, e := events[..|events| - 1], events[|events| - 1];
      LossesAreDistinct(front);
      if e.Resend? && !e.confirmed {
        RepeatIff(front, e.x);
        OneMoreEver(events, e.x);
      } else {
        assert Ever(front) + {} == Ever(front);
      }
    }
  }

  ghost predicate AddsUp(r: Run, originals: nat, resends: nat) {
    && Sent(r) == originals
    && Lost(r) + r.c.repeats + r.c.ackLost == resends
  }

  lemma StepAddsUp(r: Run, e: Event, originals: nat, resends: nat)
    requires AddsUp(r, originals, resends)
    ensures AddsUp(Step(r, e), originals + (if e.Original? then 1 else 0), resends + if e.Resend? then 1 else 0)
  {
  }

  lemma {:induction false} RunAddsUp(events: seq<Event>)
    ensures AddsUp(RunOf(events), Originals(events), Resends(events))
    decreases |events|
  {
    if events != [] {
      var front, e := events[..|events| - 1], events[|events| - 1];
      RunAddsUp(front);
      StepAddsUp(RunOf(front), e, Originals(front), Resends(front));
    }
  }

  /** In every run the denominator is every original, each resend is a loss, a repeat or a lost acknowledgement,
      and the losses are the distinct fragments that needed recovery plus exactly the resends of those that were
      forgotten. */
  lemma EveryResendIsCounted(events: seq<Event>)
    ensures var c := RunOf(events).c;
            && Sent(RunOf(events)) == Originals(events)
            && Lost(RunOf(events)) + c.repeats + c.ackLost == Resends(events)
            && Lost(RunOf(events)) == |Ever(events)| + Recounts(events)
  {
    RunAddsUp(events);
    LossesAreDistinct(events);
  }

  lemma {:induction false} NoneForgotten(events: seq<Event>)
    requires |Ever(events)| <= KEPT_KEYS
    ensures Recounts(events) == 0
    decreases |events|
  {
    if events != [] {
      var front, e := events[..|events| - 1], events[|events| - 1];
      SubsetIsSmaller(Ever(front), Ever(events));
      NoneForgotten(front);
      if Forgotten(Ever(front), e) {
        assert Above(Ever(front), KeyOf(e.x)) <= Ever(front) - {KeyOf(e.x)};
        SubsetIsSmaller(Above(Ever(front), KeyOf(e.x)), Ever(front) - {KeyOf(e.x)});
      }
    }
  }

  /** Each original fragment that needed recovery is counted once, however often it is resent, if and only if no
      forgotten one was resent -- and none is forgotten while no more than 4096 needed recovery. */
  lemma EachLossCountsOnceIff(events: seq<Event>)
    ensures Lost(RunOf(events)) == |Ever(events)| <==> Recounts(events) == 0
    ensures |Ever(events)| <= KEPT_KEYS ==> Recounts(events) == 0
  {
    EveryResendIsCounted(events);
    if |Ever(events)| <= KEPT_KEYS {
      NoneForgotten(events);
    }
  }

  /** The first fragments of the first n messages, each resent once. */
  function Ladder(n: nat): seq<Event> {
    if n == 0 then [] else Ladder(n - 1) + [Resend(Resent(n - 1, 0, 1), false)]
  }

  lemma {:induction false} LadderIsNew(n: nat)
    ensures |Ever(Ladder(n))| == n && Recounts(Ladder(n)) == 0
    ensures forall k | k in Ever(Ladder(n)) :: k < n * FRAGS
    ensures n > 0 ==> 0 in Ever(Ladder(n))
  {
    if n > 0 {
      LadderIsNew(n - 1);
      var front, events := Ladder(n - 1), Ladder(n);
      assert events[..|events| - 1] == front;
      OneMoreEver(events, Resent(n - 1, 0, 1));
    }
  }

  /** The limit matters: after 4097 fragments were resent once each, a second resend of the earliest is counted
      as a loss again. */
  lemma ForgottenCountsTwice()
    ensures var events := Ladder(KEPT_KEYS + 1) + [Resend(Resent(0, 0, 1), false)];
            |Ever(events)| == KEPT_KEYS + 1 && Lost(RunOf(events)) == |Ever(events)| + 1
  {
    var front, again := Ladder(KEPT_KEYS + 1), Resend(Resent(0, 0, 1), false);
    var events := front + [again];
    LadderIsNew(KEPT_KEYS + 1);
    assert events[..|events| - 1] == front;
    assert KeyOf(again.x) == 0;
    assert Above(Ever(front), 0) == Ever(front) - {0};
    OneMoreEver(events, again.x);
    EveryResendIsCounted(events);
  }

  // ------------------------------------------------------------------ whole messages

  function SeqsOf(keys: set<nat>): set<nat> {
    set k | k in keys :: SeqOf(k)
  }

  function FragsAt(keys: set<nat>, seqNo: nat): set<nat> {
    set k | k in keys && SeqOf(k) == seqNo
  }

  /** The messages remembered are the 64 latest, each with how many of its fragments were counted. */
  ghost predicate PerMessage(m: map<nat, nat>, ever: set<nat>) {
    && Largest(m.Keys, SeqsOf(ever), KEPT_SEQS)
    && forall seqNo | seqNo in m :: m[seqNo] == |FragsAt(ever, seqNo)|
  }

  lemma OneMoreFrag(ever: set<nat>, key: nat, seqNo: nat)
    requires key !in ever
    ensures SeqsOf(ever + {key}) == SeqsOf(ever) + {SeqOf(key)}
    ensures |FragsAt(ever + {key}, seqNo)| == |FragsAt(ever, seqNo)| + if seqNo == SeqOf(key) then 1 else 0
    ensures seqNo !in SeqsOf(ever) ==> |FragsAt(ever, seqNo)| == 0
  {
    if seqNo == SeqOf(key) {
      assert FragsAt(ever + {key}, seqNo) == FragsAt(ever, seqNo) + {key};
    } else {
      assert FragsAt(ever + {key}, seqNo) == FragsAt(ever, seqNo);
    }
    if seqNo !in SeqsOf(ever) {
      assert FragsAt(ever, seqNo) == {};
    }
  }

  lemma KnownMessageGrows(m: map<nat, nat>, ever: set<nat>, key: nat)
    requires PerMessage(m, ever) && key !in ever && SeqOf(key) in m
    ensures PerMessage(Noted(m, SeqOf(key)), ever + {key})
  {
    var seqNo := SeqOf(key);
    var grown := m[seqNo := FragsOf(m, seqNo) + 1];
    assert grown.Keys == m.Keys && |grown| == |grown.Keys|;
    OneMoreFrag(ever, key, seqNo);
    assert SeqsOf(ever) + {seqNo} == SeqsOf(ever);
    forall s | s in grown ensures grown[s] == |FragsAt(ever + {key}, s)| {
      OneMoreFrag(ever, key, s);
    }
  }

  lemma TrimmedSeqsKeys(m: map<nat, nat>)
    ensures TrimmedSeqs(m).Keys == Trimmed(m.Keys, KEPT_SEQS)
    ensures forall s | s in TrimmedSeqs(m) :: s in m && TrimmedSeqs(m)[s] == m[s]
  {
    assert |m| == |m.Keys|;
  }

  lemma NotedKeys(m: map<nat, nat>, seqNo: nat)
    requires seqNo !in m
    ensures Noted(m, seqNo).Keys == Trimmed(m.Keys + {seqNo}, KEPT_SEQS)
    ensures forall s | s in Noted(m, seqNo) :: Noted(m, seqNo)[s] == if s == seqNo then 1 else m[s]
  {
    var grown := m[seqNo := 1];
    TrimmedSeqsKeys(grown);
    assert grown.Keys == m.Keys + {seqNo};
  }

  /** A message comes in as the 65th largest or not at all: one that was dropped before is dropped again. */
  lemma NewMessageGrows(m: map<nat, nat>, ever: set<nat>, key: nat)
    requires PerMessage(m, ever) && key !in ever && SeqOf(key) !in m
    ensures PerMessage(Noted(m, SeqOf(key)), ever + {key})
  {
    var seqNo := SeqOf(key);
    var after := Noted(m, seqNo);
    OneMoreFrag(ever, key, seqNo);
    NotedKeys(m, seqNo);
    LargestGrows(m.Keys, SeqsOf(ever), KEPT_SEQS, seqNo);
    forall s | s in after ensures after[s] == |FragsAt(ever + {key}, s)| {
      OneMoreFrag(ever, key, s);
      if s == seqNo && seqNo in SeqsOf(ever) {
        DroppedAgain(m.Keys, SeqsOf(ever), KEPT_SEQS, seqNo);
        assert false;
      }
    }
  }

  lemma DroppedAgain(kept: set<nat>, ever: set<nat>, limit: nat, k: nat)
    requires Largest(kept, ever, limit) && k in ever && k !in kept
    ensures Trimmed(kept + {k}, limit) == kept
  {
    assert |kept + {k}| == limit + 1;
    assert Least(kept + {k}) == k;
    assert kept + {k} - {k} == kept;
  }

  lemma AllKept(kept: set<nat>, ever: set<nat>, limit: nat)
    requires Largest(kept, ever, limit) && |ever| <= limit
    ensures kept == ever
  {
    forall k | k in ever ensures k in kept {
      if k !in kept {
        SubsetIsSmaller(kept, ever - {k});
      }
    }
  }

  lemma {:induction false} MessagesAreKept(events: seq<Event>)
    requires |Ever(events)| <= KEPT_KEYS
    ensures PerMessage(RunOf(events).c.fragsPerSeq, Ever(events))
    decreases |events|
  {
    if events != [] {
      var front, e := events[..|events| - 1], events[|events| - 1];
      SubsetIsSmaller(Ever(front), Ever(events));
      MessagesAreKept(front);
      KeptAreLargest(front);
      AllKept(RunOf(front).c.keys, Ever(front), KEPT_KEYS);
      if e.Resend? && !e.confirmed && KeyOf(e.x) !in Ever(front) {
        KeyIsInjective(e.x);
        if e.x.seqNo in RunOf(front).c.fragsPerSeq {
          KnownMessageGrows(RunOf(front).c.fragsPerSeq, Ever(front), KeyOf(e.x));
        } else {
          NewMessageGrows(RunOf(front).c.fragsPerSeq, Ever(front), KeyOf(e.x));
        }
      } else {
        assert Ever(events) == Ever(front);
      }
    }
  }

  /** While no more than 4096 fragments needed recovery: the fragments of a message are counted if and only if it
      is one of the 64 latest that lost any, and then exactly. */
  lemma FragsAreCountedIff(events: seq<Event>, seqNo: nat)
    requires |Ever(events)| <= KEPT_KEYS
    ensures var m := RunOf(events).c.fragsPerSeq;
            && (seqNo in m <==> seqNo in SeqsOf(Ever(events)) && |Above(SeqsOf(Ever(events)), seqNo)| < KEPT_SEQS)
            && (seqNo in m ==> m[seqNo] == |FragsAt(Ever(events), seqNo)|)
  {
    MessagesAreKept(events);
    LargestIff(RunOf(events).c.fragsPerSeq.Keys, SeqsOf(Ever(events)), KEPT_SEQS, seqNo);
  }

  /** Every resent fragment says how many its message has. */
  ghost predicate Headers(events: seq<Event>, counts: nat -> nat) {
    forall i | 0 <= i < |events| && events[i].Resend? ::
      events[i].x.fragCount == counts(events[i].x.seqNo) > 0
  }

  /** The messages all of whose fragments needed recovery. */
  ghost function Whole(ever: set<nat>, counts: nat -> nat): set<nat> {
    set s | s in SeqsOf(ever) && |FragsAt(ever, s)| >= counts(s)
  }

  lemma WholeGrows(ever: set<nat>, key: nat, counts: nat -> nat)
    requires key !in ever && counts(SeqOf(key)) > 0
    ensures |Whole(ever + {key}, counts)|
         == |Whole(ever, counts)| + if |FragsAt(ever, SeqOf(key))| + 1 == counts(SeqOf(key)) then 1 else 0
  {
    var seqNo := SeqOf(key);
    OneMoreFrag(ever, key, seqNo);
    var before, after := Whole(ever, counts), Whole(ever + {key}, counts);
    forall s | s != seqNo ensures s in after <==> s in before {
      OneMoreFrag(ever, key, s);
    }
    if |FragsAt(ever, seqNo)| + 1 == counts(seqNo) {
      assert after == before + {seqNo};
    } else {
      assert after == before;
    }
  }

  /** The timeouts counted so far are the messages resent whole. */
  ghost predicate TimedOut(r: Run, ever: set<nat>, counts: nat -> nat) {
    Timeouts(r) == |Whole(ever, counts)|
  }

  lemma SeqsGrow(ever: set<nat>, more: set<nat>)
    requires ever <= more
    ensures |SeqsOf(ever)| <= |SeqsOf(more)|
  {
    SubsetIsSmaller(SeqsOf(ever), SeqsOf(more));
  }

  lemma NewLossIsWhole(c: Counter, x: Resent, ever: set<nat>, counts: nat -> nat)
    requires PerMessage(c.fragsPerSeq, ever) && |SeqsOf(ever)| <= KEPT_SEQS && KeyOf(x) !in ever
    requires x.fragCount == counts(x.seqNo) > 0
    ensures Counted(c, x).win.rto - c.win.rto == |Whole(ever + {KeyOf(x)}, counts)| - |Whole(ever, counts)|
  {
    KeyIsInjective(x);
    WholeGrows(ever, KeyOf(x), counts);
    AllKept(c.fragsPerSeq.Keys, SeqsOf(ever), KEPT_SEQS);
    OneMoreFrag(ever, KeyOf(x), x.seqNo);
  }

  lemma StepTimesOut(r: Run, e: Event, ever: set<nat>, counts: nat -> nat)
    requires TimedOut(r, ever, counts) && PerMessage(r.c.fragsPerSeq, ever) && r.c.keys == ever
    requires |SeqsOf(ever)| <= KEPT_SEQS
    requires e.Resend? ==> e.x.fragCount == counts(e.x.seqNo) > 0
    ensures TimedOut(Step(r, e), if e.Resend? && !e.confirmed then ever + {KeyOf(e.x)} else ever, counts)
  {
    if e.Resend? && !e.confirmed {
      if KeyOf(e.x) in ever {
        assert ever + {KeyOf(e.x)} == ever;
      } else {
        NewLossIsWhole(r.c, e.x, ever, counts);
      }
    }
  }

  lemma {:induction false} RunTimesOut(events: seq<Event>, counts: nat -> nat)
    requires Headers(events, counts)
    requires |Ever(events)| <= KEPT_KEYS && |SeqsOf(Ever(events))| <= KEPT_SEQS
    ensures TimedOut(RunOf(events), Ever(events), counts)
    decreases |events|
  {
    if events == [] {
      assert SeqsOf(Ever(events)) == {};
      assert Whole(Ever(events), counts) == {};
    } else {
      var front, e := events[..|events| - 1], events[|events| - 1];
      SubsetIsSmaller(Ever(front), Ever(events));
      SeqsGrow(Ever(front), Ever(events));
      RunTimesOut(front, counts);
      KeptAreLargest(front);
      AllKept(RunOf(front).c.keys, Ever(front), KEPT_KEYS);
      MessagesAreKept(front);
      StepTimesOut(RunOf(front), e, Ever(front), counts);
      assert Ever(front) + {} == Ever(front);
    }
  }

  /** While no more than 4096 fragments of no more than 64 messages needed recovery: the timeouts counted are
      exactly the messages that were resent whole, each once. */
  lemma TimeoutsAreWholeMessages(events: seq<Event>, counts: nat -> nat)
    requires Headers(events, counts)
    requires |Ever(events)| <= KEPT_KEYS && |SeqsOf(Ever(events))| <= KEPT_SEQS
    ensures Timeouts(RunOf(events)) == |Whole(Ever(events), counts)|
  {
    RunTimesOut(events, counts);
  }

  // ------------------------------------------------------------------ the counter object

  class BulkLossCounter {
    var win: Window
    var keys: set<nat>
    var fragsPerSeq: map<nat, nat>
    var ackLost: nat
    var repeats: nat

    ghost predicate Valid()
      reads this
    {
      |keys| <= KEPT_KEYS && |fragsPerSeq| <= KEPT_SEQS
    }

    ghost function Value(): Counter
      reads this
    {
      Counter(win, keys, fragsPerSeq, ackLost, repeats)
    }

    constructor ()
      ensures Valid() && Value() == NOTHING
    {
      win, keys, fragsPerSeq, ackLost, repeats := NO_COUNTS, {}, map[], 0, 0;
    }

    method OnOriginal()
      requires Valid()
      modifies this`win
      ensures Valid() && win == old(win).(sent := old(win.sent) + 1)
    {
      win := win.(sent := win.sent + 1);
    }

    method OnResend(x: Resent, confirmed: bool) returns (v: Verdict)
      requires Valid()
      modifies this
      ensures Valid() && (Value(), v) == Judged(old(Value()), x, confirmed)
    {
      if confirmed {
        ackLost := ackLost + 1;
        return AckLost;
      }
      if KeyOf(x) in keys {
        repeats := repeats + 1;
        return Repeat;
      }
      keys := keys + {KeyOf(x)};
      win := win.(lost := win.lost + 1);
      CountFrag(x);
      DropKey();
      return NewLoss;
    }

    method CountFrag(x: Resent)
      requires |fragsPerSeq| <= KEPT_SEQS
      modifies this`win, this`fragsPerSeq
      ensures |fragsPerSeq| <= KEPT_SEQS && fragsPerSeq == Noted(old(fragsPerSeq), x.seqNo)
      ensures win == old(win).(rto := old(win.rto)
                       + if FragsOf(old(fragsPerSeq), x.seqNo) + 1 == x.fragCount then 1 else 0)
    {
      var frags := FragsOf(fragsPerSeq, x.seqNo) + 1;
      if frags == x.fragCount {
        win := win.(rto := win.rto + 1);
      }
      OneMoreEntry(fragsPerSeq, x.seqNo, frags);
      fragsPerSeq := fragsPerSeq[x.seqNo := frags];
      DropSeqs();
    }

    method DropSeqs()
      requires |fragsPerSeq| <= KEPT_SEQS + 1
      modifies this`fragsPerSeq
      ensures |fragsPerSeq| <= KEPT_SEQS && fragsPerSeq == TrimmedSeqs(old(fragsPerSeq))
    {
      while |fragsPerSeq| > KEPT_SEQS
        invariant fragsPerSeq == old(fragsPerSeq)
                  || (|old(fragsPerSeq)| > KEPT_SEQS && fragsPerSeq == TrimmedSeqs(old(fragsPerSeq))
                      && |fragsPerSeq| <= KEPT_SEQS)
        decreases |fragsPerSeq|
      {
        LeastGoes(fragsPerSeq);
        var least := LeastOf(fragsPerSeq.Keys);
        fragsPerSeq := fragsPerSeq - {least};
      }
    }

    method DropKey()
      requires |keys| <= KEPT_KEYS + 1
      modifies this`keys
      ensures |keys| <= KEPT_KEYS && keys == Trimmed(old(keys), KEPT_KEYS)
    {
      if |keys| > KEPT_KEYS {
        var least := LeastOf(keys);
        keys := keys - {least};
      }
    }

    /** This window's counts, and a fresh window. */
    method Take() returns (w: Window)
      requires Valid()
      modifies this`win
      ensures Valid() && w == old(win) && win == NO_COUNTS
    {
      w := win;
      win := NO_COUNTS;
    }

    /** A new session starts from nothing. */
    method Reset()
      modifies this
      ensures Valid() && Value() == NOTHING
    {
      win, keys, fragsPerSeq, ackLost, repeats := NO_COUNTS, {}, map[], 0, 0;
    }
  }

  lemma OneMoreEntry(m: map<nat, nat>, key: nat, value: nat)
    ensures |m[key := value]| <= |m| + 1
  {
    assert m[key := value].Keys == m.Keys + {key};
  }

  lemma LeastGoes(m: map<nat, nat>)
    requires m != map[]
    ensures m.Keys != {} && |m - {Least(m.Keys)}| == |m| - 1
  {
    assert |m| == |m.Keys|;
    assert (m - {Least(m.Keys)}).Keys == m.Keys - {Least(m.Keys)};
  }

  method LeastOf(s: set<nat>) returns (least: nat)
    requires s != {}
    ensures least == Least(s)
  {
    LeastExists(s);
    assert IsLeast(Least(s), s);
    least :| least in s && forall k | k in s :: least <= k;
    assert IsLeast(least, s) && least <= Least(s) <= least;
  }
}
