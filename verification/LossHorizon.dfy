/** The rolling loss horizon of the bulk rate controller (bulk_rate_controller.hpp).

    The controller keeps a deque it trims on every evaluation. What that deque is meant to be has a batch
    definition over the whole history: of the entries not too old, the shortest non-empty suffix that covers
    enough fragments. The two are proved equal here, for a clock that does not run backwards. */
module LossHorizon {
  import opened Common

  datatype Entry = Entry(atUs: nat, sent: nat, lost: nat)

  datatype LossState = Unknown | Low | High

  function Sent(s: seq<Entry>): nat {
    if s == [] then 0 else s[0].sent + Sent(s[1..])
  }

  function Lost(s: seq<Entry>): nat {
    if s == [] then 0 else s[0].lost + Lost(s[1..])
  }

  /** Without the leading entries that are too old. */
  function Fresh(s: seq<Entry>, now: nat, maxUs: nat): seq<Entry> {
    if s != [] && Elapsed(now, s[0].atUs) > maxUs then Fresh(s[1..], now, maxUs) else s
  }

  /** Without the leading entries the rest already makes unnecessary. */
  function Shortest(s: seq<Entry>, fragments: nat): seq<Entry> {
    if |s| > 1 && Sent(s[1..]) >= fragments then Shortest(s[1..], fragments) else s
  }

  /** The batch definition, over any history. */
  function Horizon(history: seq<Entry>, now: nat, maxUs: nat, fragments: nat): seq<Entry> {
    Shortest(Fresh(history, now, maxUs), fragments)
  }

  function Verdict(horizon: seq<Entry>, minSamples: nat, highPerMille: nat): LossState {
    if Sent(horizon) < minSamples then Unknown
    else if Lost(horizon) * 1000 > highPerMille * Sent(horizon) then High
    else Low
  }

  /** The entries are in time order and none is later than `now`. */
  ghost predicate Ordered(s: seq<Entry>, now: nat) {
    && (forall i, j | 0 <= i < j < |s| :: s[i].atUs <= s[j].atUs)
    && (forall i | 0 <= i < |s| :: s[i].atUs <= now)
  }

  /** What `Horizon` means, without its recursion: exactly the young entries, cut to the shortest suffix
      that covers the fragments -- every longer cut would fall short. */
  lemma {:induction false} HorizonIsShortestCover(history: seq<Entry>, now: nat, maxUs: nat, fragments: nat)
    requires Ordered(history, now)
    ensures var h := Horizon(history, now, maxUs, fragments);
            && |h| <= |history| && h == history[|history| - |h|..]
            && (forall i | 0 <= i < |h| :: now - h[i].atUs <= maxUs)
            && (forall i | 1 <= i < |h| :: Sent(h[i..]) < fragments)
            && (forall i | 0 <= i < |history| - |h| && now - history[i].atUs <= maxUs ::
                  h != [] && Sent(h) >= fragments)
  {
    if history == [] {
    } else if now - history[0].atUs > maxUs {
      HorizonIsShortestCover(history[1..], now, maxUs, fragments);
    } else {
      assert Fresh(history, now, maxUs) == history;
      ShortestCovers(history, fragments);
    }
  }

  lemma {:induction false} ShortestCovers(s: seq<Entry>, fragments: nat)
    ensures var h := Shortest(s, fragments);
            && |h| <= |s| && h == s[|s| - |h|..]
            && (s != [] ==> h != [])
            && (|h| < |s| ==> Sent(h) >= fragments)
            && (forall i | 1 <= i < |h| :: Sent(h[i..]) < fragments)
  {
    if |s| > 1 && Sent(s[1..]) >= fragments {
      ShortestCovers(s[1..], fragments);
    } else {
      forall i | 1 <= i < |s| ensures Sent(s[i..]) < fragments {
        SentOfSuffix(s[1..], i - 1);
        assert s[1..][i - 1..] == s[i..];
      }
    }
  }

  lemma {:induction false} SentOfSuffix(s: seq<Entry>, i: nat)
    requires i <= |s|
    ensures Sent(s[i..]) <= Sent(s)
    decreases i
  {
    if i > 0 {
      SentOfSuffix(s[1..], i - 1);
      assert s[1..][i - 1..] == s[i..];
    }
  }

  lemma {:induction false} SentAppend(s: seq<Entry>, t: seq<Entry>)
    ensures Sent(s + t) == Sent(s) + Sent(t)
  {
    if s == [] {
      assert s + t == t;
    } else {
      SentAppend(s[1..], t);
      assert (s + t)[1..] == s[1..] + t;
    }
  }

  /** An entry that is too old, or that the later ones cover, can be dropped before the horizon is taken. */
  lemma DropFirst(s: seq<Entry>, now: nat, maxUs: nat, fragments: nat)
    requires s != [] && Ordered(s, now)
    requires now - s[0].atUs > maxUs || (|s| > 1 && Sent(s[1..]) >= fragments)
    ensures Horizon(s, now, maxUs, fragments) == Horizon(s[1..], now, maxUs, fragments)
  {
  }

  /** Trimming now loses nothing a later evaluation would have kept: taking the horizon at `t`, appending
      the newer entries and taking it again at `now` is taking it once over everything. */
  lemma {:induction false} TrimThenAppend(s: seq<Entry>, newer: seq<Entry>, t: nat, now: nat,
                                          maxUs: nat, fragments: nat)
    requires t <= now && Ordered(s, t) && Ordered(s + newer, now)
    ensures Horizon(Horizon(s, t, maxUs, fragments) + newer, now, maxUs, fragments)
         == Horizon(s + newer, now, maxUs, fragments)
  {
    if s == [] {
    } else if t - s[0].atUs > maxUs || (|s| > 1 && Sent(s[1..]) >= fragments) {
      assert s[1..] + newer == (s + newer)[1..];
      TrimThenAppend(s[1..], newer, t, now, maxUs, fragments);
      DropFirst(s, t, maxUs, fragments);
      SentAppend(s[1..], newer);
      assert (s + newer)[0] == s[0];
      DropFirst(s + newer, now, maxUs, fragments);
    }
  }

  /** The whole run: recording window after window and trimming at each, against the batch definition. */
  function Trimmed(windows: seq<(nat, seq<Entry>)>, maxUs: nat, fragments: nat): seq<Entry> {
    if windows == [] then []
    else
      var last := windows[|windows| - 1];
      Horizon(Trimmed(windows[..|windows| - 1], maxUs, fragments) + last.1, last.0, maxUs, fragments)
  }

  lemma TrimmedSnoc(windows: seq<(nat, seq<Entry>)>, at: nat, recorded: seq<Entry>, maxUs: nat, fragments: nat)
    ensures Trimmed(windows + [(at, recorded)], maxUs, fragments)
         == Horizon(Trimmed(windows, maxUs, fragments) + recorded, at, maxUs, fragments)
  {
    assert (windows + [(at, recorded)])[..|windows|] == windows;
  }

  function Recorded(windows: seq<(nat, seq<Entry>)>): seq<Entry> {
    if windows == [] then [] else Recorded(windows[..|windows| - 1]) + windows[|windows| - 1].1
  }

  /** Each window is evaluated at its time and records at most its own entry, stamped with that time. */
  ghost predicate ClockForward(windows: seq<(nat, seq<Entry>)>) {
    && (forall i, j | 0 <= i < j < |windows| :: windows[i].0 <= windows[j].0)
    && (forall i | 0 <= i < |windows| ::
          windows[i].1 == [] || (exists e: Entry :: e.atUs == windows[i].0 && windows[i].1 == [e]))
  }

  lemma {:induction false} RecordedIsOrdered(windows: seq<(nat, seq<Entry>)>)
    requires ClockForward(windows) && windows != []
    ensures Ordered(Recorded(windows), windows[|windows| - 1].0)
  {
    if |windows| > 1 {
      RecordedIsOrdered(windows[..|windows| - 1]);
    } else {
      assert Recorded(windows[..|windows| - 1]) == [];
    }
  }

  /** Trimming incrementally equals the batch definition over the whole history, so every verdict read off
      the deque is the verdict recomputed from everything ever recorded. */
  lemma {:induction false} TrimmedIsBatch(windows: seq<(nat, seq<Entry>)>, maxUs: nat, fragments: nat,
                                          minSamples: nat, highPerMille: nat)
    requires ClockForward(windows) && windows != []
    ensures var now := windows[|windows| - 1].0;
            var batch := Horizon(Recorded(windows), now, maxUs, fragments);
            && Trimmed(windows, maxUs, fragments) == batch
            && Verdict(Trimmed(windows, maxUs, fragments), minSamples, highPerMille)
            == Verdict(batch, minSamples, highPerMille)
  {
    var before := windows[..|windows| - 1];
    var last := windows[|windows| - 1];
    RecordedIsOrdered(windows);
    if before != [] {
      TrimmedIsBatch(before, maxUs, fragments, minSamples, highPerMille);
      RecordedIsOrdered(before);
      TrimThenAppend(Recorded(before), last.1, before[|before| - 1].0, last.0, maxUs, fragments);
    }
  }
}
