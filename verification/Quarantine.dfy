/** The persisted DXGI quarantine (capture_recovery_store.cpp, its pure part): a record is printed, read back,
    brought up to date after a wedge, and weighed at the next start. Text is a string of bytes. */
module Quarantine {
  import opened Common

  const SCHEMA := "1"
  const QUARANTINE_SECONDS: nat := 7 * 24 * 3600
  const RECORD_MAX_BYTES: nat := 4096
  const FUTURE_SKEW_SECONDS: nat := 300
  const MAX_WEDGES: nat := 1000000
  const BUFFER_BYTES: nat := 512

  type Word32 = x: nat | x < TWO_TO_THE_32

  datatype Record = Record(adapterKey: string, driver: string, firstUnix: Word64, lastUnix: Word64, expiresUnix: Word64,
                           wedges: Word32)

  datatype Adapter = Adapter(key: string, driver: string)

  datatype Why = Size | Malformed | Schema | Times

  datatype Parsed = Ok(record: Record) | Bad(why: Why)

  // ------------------------------------------------------------------ numbers

  predicate IsDigit(c: char) { '0' <= c <= '9' }

  predicate AllDigits(s: string) { forall i | 0 <= i < |s| :: IsDigit(s[i]) }

  function Digit(c: char): nat { if IsDigit(c) then c as int - '0' as int else 0 }

  /** The number a string of decimal digits stands for. */
  function Value(s: string): nat
    decreases |s|
  {
    if s == "" then 0 else Value(s[..|s| - 1]) * 10 + Digit(s[|s| - 1])
  }

  function Decimal(n: nat): string {
    if n < 10 then [(n + '0' as int) as char] else Decimal(n / 10) + [(n % 10 + '0' as int) as char]
  }

  function PowerOfTen(k: nat): nat {
    if k == 0 then 1 else 10 * PowerOfTen(k - 1)
  }

  function NumberIn(s: string): Option<Word64> {
    if s == "" || |s| > 20 || !AllDigits(s) || Value(s) >= TWO_TO_THE_64 then None else Some(Value(s))
  }

  lemma {:induction false} DecimalReadsBack(n: nat)
    ensures AllDigits(Decimal(n)) && Decimal(n) != "" && Value(Decimal(n)) == n
  {
    if n >= 10 {
      DecimalReadsBack(n / 10);
      var front, c := Decimal(n / 10), (n % 10 + '0' as int) as char;
      assert Decimal(n)[..|Decimal(n)| - 1] == front && Decimal(n)[|front|] == c;
    } else {
      assert Decimal(n)[..0] == "";
    }
  }

  lemma {:induction false} DecimalIsShort(n: nat, k: nat)
    requires 0 < k && n < PowerOfTen(k)
    ensures |Decimal(n)| <= k
  {
    if n >= 10 {
      DecimalIsShort(n / 10, k - 1);
    }
  }

  lemma {:induction false} ValueGrows(s: string, i: nat)
    requires i <= |s|
    ensures Value(s[..i]) <= Value(s)
    decreases |s|
  {
    if i < |s| {
      ValueGrows(s[..|s| - 1], i);
      assert s[..|s| - 1][..i] == s[..i];
    } else {
      assert s[..i] == s;
    }
  }

  /** The digit loop with its overflow guard reads exactly the numbers that fit 64 bits. */
  method ParseU64(s: string) returns (r: Option<Word64>)
    ensures r == NumberIn(s)
  {
    if s == "" || |s| > 20 {
      return None;
    }
    var v: nat := 0;
    for i := 0 to |s|
      invariant v == Value(s[..i]) && v < TWO_TO_THE_64 && AllDigits(s[..i])
    {
      assert s[..i + 1][..i] == s[..i] && s[..i + 1][i] == s[i];
      if !IsDigit(s[i]) {
        return None;
      }
      var d := Digit(s[i]);
      if v > (TWO_TO_THE_64 - 1 - d) / 10 {
        ValueGrows(s, i + 1);
        return None;
      }
      v := v * 10 + d;
    }
    assert s[..|s|] == s;
    return Some(v);
  }

  lemma TwentyDigitsSuffice()
    ensures TWO_TO_THE_64 <= PowerOfTen(20) && MAX_WEDGES < PowerOfTen(7)
  {
    assert PowerOfTen(4) == 10000;
    assert PowerOfTen(7) == 10000000;
    assert PowerOfTen(10) == 10000000000;
    assert PowerOfTen(13) == 10000000000000;
    assert PowerOfTen(16) == 10000000000000000;
    assert PowerOfTen(18) == 1000000000000000000;
  }

  /** Every 64-bit number printed is read back as itself. */
  lemma NumberRoundTrip(n: Word64)
    ensures NumberIn(Decimal(n)) == Some(n)
  {
    DecimalReadsBack(n);
    TwentyDigitsSuffice();
    DecimalIsShort(n, 20);
  }

  // ------------------------------------------------------------------ shapes

  predicate KeyShape(key: string) {
    |key| == 16 && forall c | c in key :: IsDigit(c) || 'a' <= c <= 'f'
  }

  /** The rest of a driver version, with the dots seen so far and whether a digit came since the last one. */
  predicate DriverRest(s: string, dots: nat, digit: bool) {
    if s == "" then dots == 3 && digit
    else if s[0] == '.' then digit && DriverRest(s[1..], dots + 1, false)
    else IsDigit(s[0]) && DriverRest(s[1..], dots, true)
  }

  predicate DriverShape(driver: string) {
    0 < |driver| <= 23 && DriverRest(driver, 0, false)
  }

  predicate Identified(a: Adapter) {
    KeyShape(a.key) && DriverShape(a.driver)
  }

  // ------------------------------------------------------------------ lines

  function Find(s: string, c: char): (at: Option<nat>)
    ensures at.Some? ==> at.value < |s| && s[at.value] == c
  {
    if s == "" then None
    else if s[0] == c then Some(0)
    else match Find(s[1..], c) case None => None case Some(i) => Some(i + 1)
  }

  function Stripped(line: string): string {
    if line != "" && line[|line| - 1] == '\r' then line[..|line| - 1] else line
  }

  type Fields = map<string, string>

  function OneLine(line: string, kv: Fields): Option<Fields> {
    var l := Stripped(line);
    match Find(l, '=')
    case None => None
    case Some(eq) => if eq == 0 || l[..eq] in kv then None else Some(kv[l[..eq] := l[eq + 1..]])
  }

  function KeyValues(text: string, kv: Fields): Option<Fields>
    decreases |text|
  {
    if text == "" then Some(kv)
    else
      match Find(text, '\n')
      case None => None
      case Some(end) =>
        match OneLine(text[..end], kv)
        case None => None
        case Some(more) => KeyValues(text[end + 1..], more)
  }

  const KEYS := {"schema", "adapter", "driver", "first", "last", "expires", "wedges"}

  function RecordOf(kv: Fields): Parsed
    requires KEYS <= kv.Keys
  {
    var first, last, expires := NumberIn(kv["first"]), NumberIn(kv["last"]), NumberIn(kv["expires"]);
    var wedges := NumberIn(kv["wedges"]);
    if kv["schema"] != SCHEMA then Bad(Schema)
    else if !KeyShape(kv["adapter"]) || !DriverShape(kv["driver"]) then Bad(Malformed)
    else if first.None? || last.None? || expires.None? || wedges.None? then Bad(Malformed)
    else if wedges.value == 0 || wedges.value > MAX_WEDGES then Bad(Malformed)
    else if first.value == 0 || first.value > last.value || expires.value != Add64(last.value, QUARANTINE_SECONDS)
    then Bad(Times)
    else Ok(Record(kv["adapter"], kv["driver"], first.value, last.value, expires.value, wedges.value))
  }

  function FieldsToRecord(kv: Fields): Parsed {
    if |kv| != 7 then
      (if "schema" in kv && kv["schema"] != SCHEMA then Bad(Schema) else Bad(Malformed))
    else if KEYS <= kv.Keys then RecordOf(kv) else Bad(Malformed)
  }

  function Parse(text: string): Parsed {
    if |text| > RECORD_MAX_BYTES then Bad(Size)
    else
      match KeyValues(text, map[])
      case None => Bad(Malformed)
      case Some(kv) => FieldsToRecord(kv)
  }

  method ParseRecord(text: string) returns (r: Parsed)
    ensures r == Parse(text)
  {
    if |text| > RECORD_MAX_BYTES {
      return Bad(Size);
    }
    var kv: Fields := map[];
    var pos := 0;
    assert text[0..] == text;
    while pos < |text|
      invariant pos <= |text| && KeyValues(text[pos..], kv) == KeyValues(text, map[])
    {
      var end, more := NextLine(text, pos, kv);
      if more.None? {
        return Bad(Malformed);
      }
      pos, kv := end, more.value;
    }
    assert text[pos..] == "";
    r := ReadFields(kv);
  }

  /** Reads the line at `pos`: where the next one starts, and the fields with it -- none for a bad line. */
  method NextLine(text: string, pos: nat, kv: Fields) returns (next: nat, more: Option<Fields>)
    requires pos < |text|
    ensures more.None? ==> KeyValues(text[pos..], kv) == None
    ensures more.Some? ==> pos < next <= |text| && KeyValues(text[pos..], kv) == KeyValues(text[next..], more.value)
  {
    var rest := text[pos..];
    var end := Find(rest, '\n');
    if end.None? {
      return pos, None;
    }
    more := ReadLine(rest[..end.value], kv);
    next := pos + end.value + 1;
    assert rest[end.value + 1..] == text[next..];
  }

  method ReadLine(text: string, kv: Fields) returns (more: Option<Fields>)
    ensures more == OneLine(text, kv)
  {
    var line := text;
    if line != "" && line[|line| - 1] == '\r' {
      line := line[..|line| - 1];
    }
    var eq := Find(line, '=');
    if eq.None? || eq.value == 0 || line[..eq.value] in kv {
      return None;
    }
    return Some(kv[line[..eq.value] := line[eq.value + 1..]]);
  }

  method ReadFields(kv: Fields) returns (r: Parsed)
    ensures r == FieldsToRecord(kv)
  {
    if |kv| != 7 {
      if "schema" in kv && kv["schema"] != SCHEMA {
        return Bad(Schema);
      }
      return Bad(Malformed);
    }
    if !(KEYS <= kv.Keys) {
      return Bad(Malformed);
    }
    if kv["schema"] != SCHEMA {
      return Bad(Schema);
    }
    if !KeyShape(kv["adapter"]) || !DriverShape(kv["driver"]) {
      return Bad(Malformed);
    }
    var first := ParseU64(kv["first"]);
    var last := ParseU64(kv["last"]);
    var expires := ParseU64(kv["expires"]);
    var wedges := ParseU64(kv["wedges"]);
    if first.None? || last.None? || expires.None? || wedges.None? {
      return Bad(Malformed);
    }
    if wedges.value == 0 || wedges.value > MAX_WEDGES {
      return Bad(Malformed);
    }
    if first.value == 0 || first.value > last.value || expires.value != Add64(last.value, QUARANTINE_SECONDS) {
      return Bad(Times);
    }
    return Ok(Record(kv["adapter"], kv["driver"], first.value, last.value, expires.value, wedges.value));
  }

  // ------------------------------------------------------------------ printing

  /** A C string ends at its first zero byte. */
  function CString(s: string): string {
    match Find(s, '\0') case None => s case Some(i) => s[..i]
  }

  function Line(key: string, value: string): string {
    key + "=" + value + "\n"
  }

  function Printed(r: Record): string {
    Line("schema", SCHEMA) + (Line("adapter", CString(r.adapterKey)) + (Line("driver", CString(r.driver))
      + (Line("first", Decimal(r.firstUnix)) + (Line("last", Decimal(r.lastUnix))
      + (Line("expires", Decimal(r.expiresUnix)) + (Line("wedges", Decimal(r.wedges)) + ""))))))
  }

  /** The text as it leaves a buffer of 512 bytes, the last one for the terminator. */
  function FormatRecord(r: Record): string {
    Printed(r)[..Min(|Printed(r)|, BUFFER_BYTES - 1)]
  }

  // ------------------------------------------------------------------ the round trip

  /** What a printed record can be read back from: exactly these. */
  predicate Storable(r: Record) {
    && KeyShape(r.adapterKey) && DriverShape(r.driver)
    && 0 < r.wedges <= MAX_WEDGES
    && 0 < r.firstUnix <= r.lastUnix
    && r.expiresUnix == Add64(r.lastUnix, QUARANTINE_SECONDS)
  }

  predicate Plain(s: string) {
    forall c | c in s :: c != '\n' && c != '\r' && c != '=' && c != '\0'
  }

  lemma {:induction false} FindSplits(before: string, c: char, after: string)
    requires c !in before
    ensures Find(before + [c] + after, c) == Some(|before|)
  {
    if before == "" {
      assert before + [c] + after == [c] + after;
    } else {
      assert (before + [c] + after)[1..] == before[1..] + [c] + after;
      FindSplits(before[1..], c, after);
    }
  }

  lemma {:induction false} FindNothing(s: string, c: char)
    requires c !in s
    ensures Find(s, c) == None
  {
    if s != "" {
      FindNothing(s[1..], c);
    }
  }

  lemma LineReadsBack(key: string, value: string, kv: Fields)
    requires Plain(key) && key != "" && Plain(value) && key !in kv
    ensures OneLine(key + "=" + value, kv) == Some(kv[key := value])
  {
    var line := key + "=" + value;
    assert line == key + ['='] + value;
    FindSplits(key, '=', value);
    if value != "" {
      assert line[|line| - 1] == value[|value| - 1] && value[|value| - 1] in value;
    }
    assert Stripped(line) == line;
    assert line[..|key|] == key && line[|key| + 1..] == value;
  }

  lemma LinesReadBack(key: string, value: string, rest: string, kv: Fields)
    requires Plain(key) && key != "" && Plain(value) && key !in kv
    ensures KeyValues(Line(key, value) + rest, kv) == KeyValues(rest, kv[key := value])
  {
    var line := key + "=" + value;
    var text := Line(key, value) + rest;
    assert text == line + ['\n'] + rest;
    FindSplits(line, '\n', rest);
    LineReadsBack(key, value, kv);
    assert text[..|line|] == line && text[|line| + 1..] == rest;
  }

  lemma {:induction false} DriverIsPlain(s: string, dots: nat, digit: bool)
    requires DriverRest(s, dots, digit)
    ensures Plain(s)
    decreases |s|
  {
    if s != "" {
      DriverIsPlain(s[1..], if s[0] == '.' then dots + 1 else dots, s[0] != '.');
      assert s == [s[0]] + s[1..];
    }
  }

  lemma PlainValues(r: Record)
    requires Storable(r)
    ensures Plain(r.adapterKey) && Plain(r.driver) && CString(r.adapterKey) == r.adapterKey
            && CString(r.driver) == r.driver
  {
    DriverIsPlain(r.driver, 0, false);
    FindNothing(r.adapterKey, '\0');
    FindNothing(r.driver, '\0');
  }

  lemma PlainNumber(n: nat)
    ensures Plain(Decimal(n))
  {
    DecimalReadsBack(n);
  }

  /** The printed text never reaches the end of its buffer. */
  lemma NothingIsCut(r: Record)
    requires Storable(r)
    ensures |Printed(r)| <= 162 && FormatRecord(r) == Printed(r)
  {
    PlainValues(r);
    TwentyDigitsSuffice();
    DecimalIsShort(r.firstUnix, 20);
    DecimalIsShort(r.lastUnix, 20);
    DecimalIsShort(r.expiresUnix, 20);
    DecimalIsShort(r.wedges, 7);
  }

  function FieldsOf(r: Record): Fields {
    map["schema" := SCHEMA]["adapter" := r.adapterKey]["driver" := r.driver]["first" := Decimal(r.firstUnix)]
      ["last" := Decimal(r.lastUnix)]["expires" := Decimal(r.expiresUnix)]["wedges" := Decimal(r.wedges)]
  }

  lemma KeysAreDistinct()
    ensures "schema" != "adapter" && "schema" != "driver" && "schema" != "first" && "schema" != "last"
         && "schema" != "expires" && "schema" != "wedges"
    ensures "adapter" != "driver" && "adapter" != "first" && "adapter" != "last" && "adapter" != "expires"
         && "adapter" != "wedges"
    ensures "driver" != "first" && "driver" != "last" && "driver" != "expires" && "driver" != "wedges"
    ensures "first" != "last" && "first" != "expires" && "first" != "wedges"
    ensures "last" != "expires" && "last" != "wedges" && "expires" != "wedges"
    ensures forall key | key in KEYS :: Plain(key) && key != ""
    ensures |KEYS| == 7
  {
    assert "schema"[0] == 's' && "adapter"[0] == 'a' && "driver"[0] == 'd' && "first"[0] == 'f' && "last"[0] == 'l';
    assert "expires"[0] == 'e' && "wedges"[0] == 'w';
  }

  lemma FieldsReadBack(r: Record)
    requires Storable(r)
    ensures KeyValues(Printed(r), map[]) == Some(FieldsOf(r))
  {
    KeysAreDistinct();
    PlainValues(r);
    PlainNumber(r.firstUnix);
    PlainNumber(r.lastUnix);
    PlainNumber(r.expiresUnix);
    PlainNumber(r.wedges);
    var n7 := Line("wedges", Decimal(r.wedges)) + "";
    var n6 := Line("expires", Decimal(r.expiresUnix)) + n7;
    var n5 := Line("last", Decimal(r.lastUnix)) + n6;
    var n4 := Line("first", Decimal(r.firstUnix)) + n5;
    var n3 := Line("driver", r.driver) + n4;
    var n2 := Line("adapter", r.adapterKey) + n3;
    var k1: Fields := map["schema" := SCHEMA];
    var k2 := k1["adapter" := r.adapterKey];
    var k3 := k2["driver" := r.driver];
    var k4 := k3["first" := Decimal(r.firstUnix)];
    var k5 := k4["last" := Decimal(r.lastUnix)];
    var k6 := k5["expires" := Decimal(r.expiresUnix)];
    LinesReadBack("schema", SCHEMA, n2, map[]);
    LinesReadBack("adapter", r.adapterKey, n3, k1);
    LinesReadBack("driver", r.driver, n4, k2);
    LinesReadBack("first", Decimal(r.firstUnix), n5, k3);
    LinesReadBack("last", Decimal(r.lastUnix), n6, k4);
    LinesReadBack("expires", Decimal(r.expiresUnix), n7, k5);
    LinesReadBack("wedges", Decimal(r.wedges), "", k6);
  }

  lemma FieldsHaveKeys(r: Record)
    ensures var kv := FieldsOf(r);
            && kv.Keys == KEYS && |kv| == 7 && kv["schema"] == SCHEMA
            && kv["adapter"] == r.adapterKey && kv["driver"] == r.driver && kv["first"] == Decimal(r.firstUnix)
            && kv["last"] == Decimal(r.lastUnix) && kv["expires"] == Decimal(r.expiresUnix)
            && kv["wedges"] == Decimal(r.wedges)
  {
    KeysAreDistinct();
    var kv := FieldsOf(r);
    assert kv.Keys == KEYS;
    assert |kv| == |kv.Keys|;
  }

  lemma FieldsMeanRecord(r: Record)
    requires Storable(r)
    ensures FieldsToRecord(FieldsOf(r)) == Ok(r)
  {
    FieldsHaveKeys(r);
    NumberRoundTrip(r.firstUnix);
    NumberRoundTrip(r.lastUnix);
    NumberRoundTrip(r.expiresUnix);
    NumberRoundTrip(r.wedges);
  }

  predicate Survives(r: Record) {
    Parse(FormatRecord(r)) == Ok(r)
  }

  /** A record survives printing and reading back exactly when it is storable. */
  lemma SurvivesIff(r: Record)
    ensures Survives(r) <==> Storable(r)
  {
    if Storable(r) {
      NothingIsCut(r);
      FieldsReadBack(r);
      FieldsMeanRecord(r);
    }
  }

  // ------------------------------------------------------------------ one more wedge

  /** A record continues only if a startup would accept it; any other starts over from now. */
  predicate Continues(existing: Option<Record>, adapter: Adapter, now: Word64) {
    && existing.Some?
    && existing.value.adapterKey == adapter.key && existing.value.driver == adapter.driver
    && existing.value.firstUnix <= now
    && existing.value.lastUnix <= Add64(now, FUTURE_SKEW_SECONDS)
  }

  function NextRecord(existing: Option<Record>, adapter: Adapter, now: Word64): Record {
    var continues := Continues(existing, adapter, now);
    var last: Word64 := if continues then Max(existing.value.lastUnix, now) else now;
    Record(adapter.key, adapter.driver,
           if continues then existing.value.firstUnix else now,
           last, Add64(last, QUARANTINE_SECONDS),
           if continues then Min((existing.value.wedges + 1) % TWO_TO_THE_32, MAX_WEDGES) else 1)
  }

  lemma NextIsStorableIff(existing: Option<Record>, adapter: Adapter, now: Word64)
    ensures Storable(NextRecord(existing, adapter, now)) <==>
              && Identified(adapter)
              && (if Continues(existing, adapter, now)
                  then existing.value.firstUnix != 0 && existing.value.wedges != TWO_TO_THE_32 - 1
                  else now != 0)
  {
  }

  /** The next record of any record whatever: it is readable again exactly when the adapter is identified,
      the clock or the record continued is past zero, and the wedge count does not wrap to zero. */
  lemma NextRecordRoundTripIff(existing: Option<Record>, adapter: Adapter, now: Word64)
    ensures var next := NextRecord(existing, adapter, now);
            Survives(next) <==>
              && Identified(adapter)
              && (if Continues(existing, adapter, now)
                  then existing.value.firstUnix != 0 && existing.value.wedges != TWO_TO_THE_32 - 1
                  else now != 0)
  {
    NextIsStorableIff(existing, adapter, now);
    SurvivesIff(NextRecord(existing, adapter, now));
  }

  /** What the store does with a wedge: whatever its file held -- a record, damage, nothing -- the new text
      is read back as the record it was printed from. `stored` is the file's text. */
  function Recorded(stored: Option<string>, adapter: Adapter): Option<Record> {
    match stored
    case None => None
    case Some(text) =>
      match Parse(text)
      case Bad(_) => None
      case Ok(r) => if r.adapterKey == adapter.key then Some(r) else None
  }

  lemma WedgeIsRecorded(stored: Option<string>, adapter: Adapter, now: Word64)
    requires Identified(adapter) && now != 0
    ensures var next := NextRecord(Recorded(stored, adapter), adapter, now);
            && Survives(next)
            && Recorded(Some(FormatRecord(next)), adapter) == Some(next)
  {
    NextRecordRoundTripIff(Recorded(stored, adapter), adapter, now);
  }

  /** Whatever text is accepted, its record is storable: nothing else gets in. */
  lemma OnlyStorableIsRead(text: string)
    requires Parse(text).Ok?
    ensures Storable(Parse(text).record)
  {
    var kv := KeyValues(text, map[]).value;
    assert Parse(text) == FieldsToRecord(kv) == RecordOf(kv);
  }

  /** A wedge that continues a record never takes the expiry back, keeps its first wedge, and counts one more. */
  lemma WedgesAccumulate(r: Record, adapter: Adapter, now: Word64)
    requires Storable(r) && Continues(Some(r), adapter, now)
    requires now + FUTURE_SKEW_SECONDS + QUARANTINE_SECONDS < TWO_TO_THE_64
    ensures var next := NextRecord(Some(r), adapter, now);
            && next.firstUnix == r.firstUnix && next.lastUnix >= r.lastUnix && next.expiresUnix >= r.expiresUnix
            && next.wedges == Min(r.wedges + 1, MAX_WEDGES)
  {
  }

  // ------------------------------------------------------------------ the next start

  datatype Note = Future(key: string) | Expired(key: string) | AdapterAbsent(key: string)
                | DriverChanged(key: string, recorded: string, present: string)

  datatype Decision = Decision(quarantine: bool, adapterKey: string, driver: string, expiresUnix: nat, notes: seq<Note>)

  /** Of several adapters with one key, the last listed. */
  function Present(present: seq<Adapter>, key: string): Option<Adapter>
    decreases |present|
  {
    if present == [] then None
    else if present[|present| - 1].key == key then Some(present[|present| - 1])
    else Present(present[..|present| - 1], key)
  }

  /** Why a record does not apply, if it does not. */
  function Objection(r: Record, present: seq<Adapter>, now: Word64): Option<Note> {
    if r.lastUnix > Add64(now, FUTURE_SKEW_SECONDS) then Some(Future(r.adapterKey))
    else if now >= r.expiresUnix then Some(Expired(r.adapterKey))
    else
      match Present(present, r.adapterKey)
      case None => Some(AdapterAbsent(r.adapterKey))
      case Some(a) => if a.driver != r.driver then Some(DriverChanged(r.adapterKey, r.driver, a.driver)) else None
  }

  predicate Applies(r: Record, present: seq<Adapter>, now: Word64) {
    Objection(r, present, now).None?
  }

  function Objections(records: seq<Record>, present: seq<Adapter>, now: Word64): seq<Note>
    decreases |records|
  {
    if records == [] then []
    else
      var n := |records| - 1;
      var note := Objection(records[n], present, now);
      Objections(records[..n], present, now) + if note.Some? then [note.value] else []
  }

  /** The record chosen applies, no record that applies expires later, and none before it as late. */
  ghost predicate Chosen(records: seq<Record>, present: seq<Adapter>, now: Word64, i: nat) {
    && i < |records| && Applies(records[i], present, now)
    && (forall j | 0 <= j < |records| && Applies(records[j], present, now) ::
          records[j].expiresUnix <= records[i].expiresUnix)
    && (forall j | 0 <= j < i && Applies(records[j], present, now) ::
          records[j].expiresUnix < records[i].expiresUnix)
  }

  predicate FromRecord(d: Decision, r: Record) {
    d.adapterKey == r.adapterKey && d.driver == r.driver && d.expiresUnix == r.expiresUnix
  }

  /** The decision about these records, `best` being the one it is made by. */
  ghost predicate Decides(d: Decision, records: seq<Record>, present: seq<Adapter>, now: Word64, best: nat) {
    && d.notes == Objections(records, present, now)
    && (d.quarantine <==> exists i | 0 <= i < |records| :: Applies(records[i], present, now))
    && (d.quarantine ==> Chosen(records, present, now, best) && FromRecord(d, records[best]))
  }

  lemma ObjectionsSnoc(records: seq<Record>, r: Record, present: seq<Adapter>, now: Word64)
    ensures var note := Objection(r, present, now);
            Objections(records + [r], present, now)
            == Objections(records, present, now) + if note.Some? then [note.value] else []
  {
    assert (records + [r])[..|records|] == records;
  }

  /** One more record that does not apply, or that expires no later than the one decided by. */
  lemma StillDecides(d: Decision, records: seq<Record>, present: seq<Adapter>, now: Word64, best: nat, r: Record)
    requires Decides(d, records, present, now, best)
    requires Applies(r, present, now) ==> d.quarantine && r.expiresUnix <= d.expiresUnix
    ensures Decides(d.(notes := Objections(records + [r], present, now)), records + [r], present, now, best)
  {
    var all := records + [r];
    assert forall i | 0 <= i < |records| :: all[i] == records[i];
    if d.quarantine {
      assert Applies(all[best], present, now);
    }
  }

  lemma NowDecides(d: Decision, records: seq<Record>, present: seq<Adapter>, now: Word64, best: nat, r: Record)
    requires Decides(d, records, present, now, best)
    requires Applies(r, present, now) && (!d.quarantine || r.expiresUnix > d.expiresUnix)
    ensures Decides(Decision(true, r.adapterKey, r.driver, r.expiresUnix, Objections(records + [r], present, now)),
                    records + [r], present, now, |records|)
  {
    var all := records + [r];
    assert forall i | 0 <= i < |records| :: all[i] == records[i];
    assert Applies(all[|records|], present, now);
  }

  method FindPresent(present: seq<Adapter>, key: string) returns (found: Option<Adapter>)
    ensures found == Present(present, key)
  {
    found := None;
    for i := 0 to |present|
      invariant found == Present(present[..i], key)
    {
      assert present[..i + 1][..i] == present[..i];
      if present[i].key == key {
        found := Some(present[i]);
      }
    }
    assert present[..|present|] == present;
  }

  /** The tests a record has to pass, in order, and the note left by the first it fails. */
  method Objects(r: Record, present: seq<Adapter>, now: Word64) returns (note: Option<Note>)
    ensures note == Objection(r, present, now)
  {
    if r.lastUnix > Add64(now, FUTURE_SKEW_SECONDS) {
      return Some(Future(r.adapterKey));
    }
    if now >= r.expiresUnix {
      return Some(Expired(r.adapterKey));
    }
    var adapter := FindPresent(present, r.adapterKey);
    if adapter.None? {
      return Some(AdapterAbsent(r.adapterKey));
    }
    if adapter.value.driver != r.driver {
      return Some(DriverChanged(r.adapterKey, r.driver, adapter.value.driver));
    }
    return None;
  }

  /** Quarantined exactly when some record applies; then by the one that expires last, the first of those;
      and one note for every record that does not apply, in order. */
  method DecideAtStartup(records: seq<Record>, present: seq<Adapter>, now: Word64) returns (d: Decision)
    ensures d.quarantine <==> exists i | 0 <= i < |records| :: Applies(records[i], present, now)
    ensures d.quarantine ==>
              exists i | 0 <= i < |records| ::
                Chosen(records, present, now, i) && d.adapterKey == records[i].adapterKey
                && d.driver == records[i].driver && d.expiresUnix == records[i].expiresUnix
    ensures d.notes == Objections(records, present, now)
  {
    d := Decision(false, "", "", 0, []);
    ghost var best := 0;
    for i := 0 to |records|
      invariant Decides(d, records[..i], present, now, best)
    {
      var r := records[i];
      assert records[..i + 1] == records[..i] + [r];
      ObjectionsSnoc(records[..i], r, present, now);
      var note := Objects(r, present, now);
      if note.Some? {
        StillDecides(d, records[..i], present, now, best, r);
        d := d.(notes := d.notes + [note.value]);
        continue;
      }
      if !d.quarantine || r.expiresUnix > d.expiresUnix {
        NowDecides(d, records[..i], present, now, best, r);
        d := d.(quarantine := true, adapterKey := r.adapterKey, driver := r.driver, expiresUnix := r.expiresUnix);
        best := i;
      } else {
        StillDecides(d, records[..i], present, now, best, r);
      }
    }
    assert records[..|records|] == records;
  }

  /** The promise of one wedge: from now on, its record applies at exactly the times before its expiry, seven
      days after its last wedge -- the expiry itself excluded -- while the adapter is there with that driver
      and neither the expiry nor the skewed clock wraps. */
  lemma QuarantineHoldsIff(existing: Option<Record>, adapter: Adapter, now: Word64,
                           present: seq<Adapter>, later: Word64)
    requires now <= later
    ensures var r := NextRecord(existing, adapter, now);
            && now <= r.lastUnix <= now + FUTURE_SKEW_SECONDS
            && (Applies(r, present, later) <==>
                  && (var a := Present(present, adapter.key); a.Some? && a.value.driver == adapter.driver)
                  && later < r.lastUnix + QUARANTINE_SECONDS < TWO_TO_THE_64
                  && later + FUTURE_SKEW_SECONDS < TWO_TO_THE_64)
  {
  }

  const MAX_RECORDS: nat := 16

  /** A record file: the key in its name, and its text. */
  datatype File = File(key: string, text: string)

  /** The record of a file, if it reads and is of the key its name says. */
  function Read(f: File): Option<Record> {
    match Parse(f.text)
    case Bad(_) => None
    case Ok(r) => if r.adapterKey == f.key then Some(r) else None
  }

  /** What was read, in order, no more than 16. */
  function Kept(found: seq<Option<Record>>): (records: seq<Record>)
    ensures |records| <= |found|
    decreases |found|
  {
    if found == [] then []
    else
      var n := |found| - 1;
      var records := Kept(found[..n]);
      if |records| < MAX_RECORDS && found[n].Some? then records + [found[n].value] else records
  }

  /** What a start loads. */
  function Loaded(files: seq<File>): seq<Record> {
    Kept(seq(|files|, i requires 0 <= i < |files| => Read(files[i])))
  }

  lemma {:induction false} ReadIsKept(found: seq<Option<Record>>, i: nat)
    requires i < |found| <= MAX_RECORDS && found[i].Some?
    ensures found[i].value in Kept(found)
    decreases |found|
  {
    if i < |found| - 1 {
      ReadIsKept(found[..|found| - 1], i);
    }
  }

  /** A wedge at `now` is remembered: whatever its adapter's file held before, and whatever the other files
      hold, every start in the seven days that follow finds a record that quarantines. */
  lemma WedgeKeepsQuarantine(stored: Option<string>, adapter: Adapter, now: Word64, present: seq<Adapter>,
                             files: seq<File>, later: Word64)
    requires Identified(adapter) && 0 < now <= later < now + QUARANTINE_SECONDS
    requires now + FUTURE_SKEW_SECONDS + QUARANTINE_SECONDS < TWO_TO_THE_64
    requires var a := Present(present, adapter.key); a.Some? && a.value.driver == adapter.driver
    requires |files| <= MAX_RECORDS
    requires File(adapter.key, FormatRecord(NextRecord(Recorded(stored, adapter), adapter, now))) in files
    ensures exists i | 0 <= i < |Loaded(files)| :: Applies(Loaded(files)[i], present, later)
  {
    WedgeIsRecorded(stored, adapter, now);
    var r := NextRecord(Recorded(stored, adapter), adapter, now);
    QuarantineHoldsIff(Recorded(stored, adapter), adapter, now, present, later);
    var k :| 0 <= k < |files| && files[k] == File(adapter.key, FormatRecord(r));
    ReadIsKept(seq(|files|, i requires 0 <= i < |files| => Read(files[i])), k);
    var i :| 0 <= i < |Loaded(files)| && Loaded(files)[i] == r;
    assert Applies(Loaded(files)[i], present, later);
  }
}
