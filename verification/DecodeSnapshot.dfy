/** The decoder state's sequence lock (client_decode_snapshot.hpp, ClientDecodeSnapshot): one publisher and
    any number of readers, every load and store of an atomic a step of its own, sequentially consistent,
    the counter a natural number. */
module DecodeSnapshot {
  import opened Common

  datatype DecodeState = DecodeState(valid: bool, decodedTotal: nat, width: nat, height: nat, generation: nat,
                                     spanId: nat, spanStartUs: nat, spanStartTotal: nat)

  const NEVER := DecodeState(false, 0, 0, 0, 0, 0, 0, 0)

  const CELLS: nat := 7

  predicate Sized(v: DecodeState) {
    v.width < TWO_TO_THE_32 && v.height < TWO_TO_THE_32
  }

  /** The seven atomics, in the order they are stored and loaded; width and height share one. */
  function Pack(v: DecodeState): seq<nat> {
    [if v.valid then 1 else 0, v.decodedTotal, v.width * TWO_TO_THE_32 + v.height, v.generation,
     v.spanId, v.spanStartUs, v.spanStartTotal]
  }

  function Unpack(cells: seq<nat>): DecodeState
    requires |cells| == CELLS
  {
    DecodeState(cells[0] != 0, cells[1], cells[2] / TWO_TO_THE_32, cells[2] % TWO_TO_THE_32,
                cells[3], cells[4], cells[5], cells[6])
  }

  lemma PackRoundTrip(v: DecodeState)
    requires Sized(v)
    ensures Unpack(Pack(v)) == v
  {
  }

  // ------------------------------------------------------------------ the step system

  /** Where the publisher is: outside, counter loaded, or `next` fields stored under an odd counter. */
  datatype Writer = Outside | Loaded(v: DecodeState, s: nat) | Storing(v: DecodeState, s: nat, next: nat)

  /** Where a reader is. `since` is how many publishes were complete when its Read began; a finished Read
      keeps how many were when it returned. */
  datatype Reader =
    | Waiting
    | Trying(tries: nat, since: nat)
    | Reading(s1: nat, fields: seq<nat>, tries: nat, since: nat)
    | Returned(result: Option<DecodeState>, since: nat, published: nat)

  datatype State = State(counter: nat, cells: seq<nat>, writer: Writer, readers: map<int, Reader>,
                         published: seq<DecodeState>)

  const START := State(0, Pack(NEVER), Outside, map[], [NEVER])

  /** One atomic step: the publisher's next (with what it publishes, when it begins), or a reader's next
      (with its tries, when it begins). */
  datatype Event = Publisher(v: DecodeState) | ReaderStep(id: int, tries: nat)

  function WriterStep(s: State, v: DecodeState): State {
    match s.writer
    case Outside => if Sized(v) then s.(writer := Loaded(v, s.counter)) else s
    case Loaded(w, n) => s.(counter := n + 1, writer := Storing(w, n, 0))
    case Storing(w, n, next) =>
      if next < CELLS <= |s.cells| then s.(cells := s.cells[next := Pack(w)[next]], writer := Storing(w, n, next + 1))
      else s.(counter := n + 2, writer := Outside, published := s.published + [w])
  }

  function ReaderNext(s: State, r: Reader, tries: nat): Reader {
    match r
    case Waiting => Trying(tries, |s.published|)
    case Returned(_, _, _) => Trying(tries, |s.published|)
    case Trying(left, since) =>
      if left == 0 then Returned(None, since, |s.published|)
      else if s.counter % 2 == 1 then Trying(left - 1, since)
      else Reading(s.counter, [], left - 1, since)
    case Reading(s1, fields, left, since) =>
      if |fields| < CELLS <= |s.cells| then Reading(s1, fields + [s.cells[|fields|]], left, since)
      else if s.counter != s1 || |fields| != CELLS then Trying(left, since)
      else Returned(Some(Unpack(fields)), since, |s.published|)
  }

  function ReaderAt(s: State, id: int): Reader {
    if id in s.readers then s.readers[id] else Waiting
  }

  function Step(s: State, e: Event): State {
    match e
    case Publisher(v) => WriterStep(s, v)
    case ReaderStep(id, tries) => s.(readers := s.readers[id := ReaderNext(s, ReaderAt(s, id), tries)])
  }

  function Run(s: State, events: seq<Event>): State
    decreases |events|
  {
    if events == [] then s else Run(Step(s, events[0]), events[1..])
  }

  // ------------------------------------------------------------------ the invariant

  ghost predicate WriterOk(s: State) {
    && |s.cells| == CELLS && s.published != []
    && (forall i | 0 <= i < |s.published| :: Sized(s.published[i]))
    && var complete := 2 * (|s.published| - 1);
       match s.writer
       case Outside => s.counter == complete && s.cells == Pack(s.published[|s.published| - 1])
       case Loaded(v, n) =>
         Sized(v) && n == s.counter == complete && s.cells == Pack(s.published[|s.published| - 1])
       case Storing(v, n, next) =>
         && Sized(v) && n == complete && s.counter == n + 1 && next <= CELLS
         && (forall i | 0 <= i < next :: s.cells[i] == Pack(v)[i])
  }

  ghost predicate ReaderOk(s: State, r: Reader) {
    match r
    case Waiting => true
    case Trying(_, since) => since <= |s.published|
    case Reading(s1, fields, _, since) =>
      && since <= |s.published| && s1 % 2 == 0 && s1 <= s.counter && |fields| <= CELLS == |s.cells|
      && (s1 == s.counter ==> fields == s.cells[..|fields|])
    case Returned(result, since, published) =>
      && since <= published <= |s.published|
      && (result.Some? ==> 0 < published && result.value == s.published[published - 1])
  }

  ghost predicate Invariant(s: State) {
    WriterOk(s) && forall id | id in s.readers :: ReaderOk(s, s.readers[id])
  }

  lemma WriterStepKeepsWriter(s: State, v: DecodeState)
    requires WriterOk(s)
    ensures WriterOk(WriterStep(s, v))
  {
    if s.writer.Storing? && s.writer.next == CELLS {
      assert s.cells == Pack(s.writer.v);
    }
  }

  lemma WriterStepKeepsReader(s: State, v: DecodeState, r: Reader)
    requires WriterOk(s) && ReaderOk(s, r)
    ensures ReaderOk(WriterStep(s, v), r)
  {
  }

  lemma ReaderStepKeepsReader(s: State, r: Reader, tries: nat)
    requires WriterOk(s) && ReaderOk(s, r)
    ensures ReaderOk(s, ReaderNext(s, r, tries))
  {
    if r.Reading? && |r.fields| == CELLS && s.counter == r.s1 {
      assert r.fields == s.cells;
      PackRoundTrip(s.published[|s.published| - 1]);
    }
  }

  lemma StepKeepsInvariant(s: State, e: Event)
    requires Invariant(s)
    ensures Invariant(Step(s, e))
  {
    match e
    case Publisher(v) =>
      WriterStepKeepsWriter(s, v);
      forall id | id in s.readers ensures ReaderOk(WriterStep(s, v), s.readers[id]) {
        WriterStepKeepsReader(s, v, s.readers[id]);
      }
    case ReaderStep(id, tries) =>
      ReaderStepKeepsReader(s, ReaderAt(s, id), tries);
      assert forall r: Reader :: ReaderOk(s, r) ==> ReaderOk(Step(s, e), r);
  }

  lemma {:induction false} RunKeepsInvariant(s: State, events: seq<Event>)
    requires Invariant(s)
    ensures Invariant(Run(s, events))
    decreases |events|
  {
    if events != [] {
      StepKeepsInvariant(s, events[0]);
      RunKeepsInvariant(Step(s, events[0]), events[1..]);
    }
  }

  /** In every interleaving, a Read that returned true returned exactly what one single Publish wrote whole
      (or the initial state), never a mix -- the newest one complete when it returned, hence at least as
      new as everything complete when it began. */
  lemma ReadIsOnePublish(events: seq<Event>, id: int)
    requires ReaderAt(Run(START, events), id).Returned?
    requires ReaderAt(Run(START, events), id).result.Some?
    ensures var s := Run(START, events);
            var r := ReaderAt(s, id);
            && r.since <= r.published <= |s.published| && 0 < r.published
            && r.result.value == s.published[r.published - 1]
  {
    RunKeepsInvariant(START, events);
  }

  /** What the publishes of a run are: the initial state, then each value begun, in order, once complete. */
  lemma {:induction false} PublishedOnlyGrows(s: State, events: seq<Event>)
    ensures s.published <= Run(s, events).published
    decreases |events|
  {
    if events != [] {
      PublishedOnlyGrows(Step(s, events[0]), events[1..]);
    }
  }

  function Solo(id: int, steps: nat): seq<Event> {
    seq(steps, _ => ReaderStep(id, 0))
  }

  lemma {:induction false} SoloReads(s: State, id: int, r: Reader, steps: nat)
    requires Invariant(s) && ReaderAt(s, id) == r && r.Reading? && r.s1 == s.counter && |r.fields| + steps == CELLS
    ensures var after := Run(s, Solo(id, steps + 1));
            && ReaderAt(after, id).Returned?
            && ReaderAt(after, id).result == Some(s.published[|s.published| - 1])
    decreases steps
  {
    var events := Solo(id, steps + 1);
    assert events[1..] == Solo(id, steps);
    StepKeepsInvariant(s, events[0]);
    var next := Step(s, events[0]);
    if steps > 0 {
      SoloReads(next, id, ReaderAt(next, id), steps - 1);
    } else {
      assert Run(next, events[1..]) == next;
      assert r.fields == s.cells;
      PackRoundTrip(s.published[|s.published| - 1]);
    }
  }

  /** A reader with a try left that no publish overlaps returns, in nine steps, what was last published. */
  lemma UndisturbedReadSucceeds(before: seq<Event>, id: int)
    requires var s := Run(START, before);
             ReaderAt(s, id).Trying? && ReaderAt(s, id).tries > 0 && !s.writer.Storing?
    ensures var s := Run(START, before);
            var after := Run(s, Solo(id, CELLS + 2));
            && s.published != [] && ReaderAt(after, id).Returned?
            && ReaderAt(after, id).result == Some(s.published[|s.published| - 1])
  {
    var s := Run(START, before);
    RunKeepsInvariant(START, before);
    var events := Solo(id, CELLS + 2);
    assert events[1..] == Solo(id, CELLS + 1);
    StepKeepsInvariant(s, events[0]);
    var next := Step(s, events[0]);
    SoloReads(next, id, ReaderAt(next, id), CELLS);
  }
}
