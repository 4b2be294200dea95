/** Rotating device credentials (apps/directory/device_credentials.js, and the refresh handler in
    apps/directory/server.js). Hashing is injective and every token is fresh; a record in the devices table
    is a value replaced under its id. */
module DeviceCredentials {
  import opened Common

  const DAY_MS: nat := 24 * 60 * 60 * 1000
  const DEVICE_TTL_MS: nat := 90 * DAY_MS
  const GRACE_MS: nat := 60 * 1000
  const GRACE_USES: nat := 1
  const ISSUED_KEPT: nat := 32
  const PER_ACCOUNT: nat := 32
  const TOMBSTONE_MS: nat := 30 * DAY_MS

  type Token = nat
  /** A wall clock in milliseconds; zero in a record means "never". */
  type Time = t: nat | 0 < t witness 1

  datatype Hash = Hash(token: Token)

  datatype Record = Record(
    accountId: string, credHash: Hash, prevCredHash: Option<Hash>, prevValidUntil: nat, prevUsesLeft: nat,
    issued: seq<Hash>, revokeHash: Hash, createdAt: nat, lastUsedAt: nat, expiresAt: nat,
    revokedAt: nat, revokedWhy: string)

  function NewFamily(accountId: string, credential: Token, revokeToken: Token, now: Time): Record {
    Record(accountId, Hash(credential), None, 0, 0, [Hash(credential)], Hash(revokeToken), now, now,
           now + DEVICE_TTL_MS, 0, "")
  }

  predicate IsLive(r: Record, now: Time) {
    r.revokedAt == 0 && r.expiresAt > now
  }

  datatype Verdict = Current | Grace | Reused | Unknown | Dead

  function Classify(r: Record, credential: Token, now: Time): Verdict {
    var presented := Hash(credential);
    if !IsLive(r, now) then Dead
    else if presented == r.credHash then Current
    else if r.prevCredHash == Some(presented) then
      (if r.prevUsesLeft > 0 && now <= r.prevValidUntil then Grace else Reused)
    else if presented in r.issued then Reused
    else Unknown
  }

  function LastOf<T>(s: seq<T>, n: nat): seq<T> {
    if |s| > n then s[|s| - n..] else s
  }

  function Rotated(r: Record, how: Verdict, now: Time, credential: Token): Record {
    var spent := if how.Current?
                 then r.(prevCredHash := Some(r.credHash), prevValidUntil := now + GRACE_MS, prevUsesLeft := GRACE_USES)
                 else r.(prevUsesLeft := 0, prevValidUntil := 0);
    spent.(credHash := Hash(credential), issued := LastOf(r.issued + [Hash(credential)], ISSUED_KEPT),
           lastUsedAt := now, expiresAt := now + DEVICE_TTL_MS)
  }

  /** Ends a family; ending it twice keeps the first time and the first reason. */
  function Revoked(r: Record, why: string, now: Time): Record {
    if r.revokedAt != 0 then r
    else r.(revokedAt := now, revokedWhy := why[..Min(|why|, 64)], prevUsesLeft := 0)
  }

  predicate RevokeTokenMatches(r: Record, token: Token) {
    r.revokeHash == Hash(token)
  }

  // ------------------------------------------------------------------ a refresh

  datatype Answer = Granted(credential: Token) | AccountInactive | Refused | StoreFailed

  /** One refresh request for a family: `active` says whether the account is, `stored` whether the store
      could be written, `credential` is the fresh one it would be given. */
  function Refresh(r: Record, presented: Token, now: Time, active: bool, stored: bool,
                   credential: Token): (Record, Answer) {
    var verdict := Classify(r, presented, now);
    if verdict.Current? || verdict.Grace? then
      if !active then (r, AccountInactive)
      else if !stored then (r, StoreFailed)
      else (Rotated(r, verdict, now, credential), Granted(credential))
    else if verdict.Reused? then
      (if stored then (Revoked(r, "a superseded credential was presented", now), Refused) else (r, StoreFailed))
    else (r, Refused)
  }

  // ------------------------------------------------------------------ runs of one family

  datatype Use = Use(at: Time, grace: bool)

  datatype Acceptance = Acceptance(token: Token, use: Use)

  /** The record with its whole past: every credential ever issued, newest last, and every acceptance. */
  datatype Family = Family(r: Record, ever: seq<Token>, accepted: seq<Acceptance>)

  datatype Event =
    | Present(token: Token, now: Time, active: bool, stored: bool, credential: Token)
    | Revoke(why: string, now: Time, stored: bool)

  function Start(accountId: string, credential: Token, revokeToken: Token, now: Time): Family {
    Family(NewFamily(accountId, credential, revokeToken, now), [credential], [])
  }

  /** A "fresh" credential that was issued before cannot be drawn; such a step changes nothing. */
  function Step(f: Family, e: Event): Family {
    match e
    case Revoke(why, now, stored) => if stored then f.(r := Revoked(f.r, why, now)) else f
    case Present(token, now, active, stored, credential) =>
      if credential in f.ever then f
      else
        var (r, answer) := Refresh(f.r, token, now, active, stored, credential);
        if answer.Granted? then
          Family(r, f.ever + [credential],
                 f.accepted + [Acceptance(token, Use(now, Classify(f.r, token, now).Grace?))])
        else f.(r := r)
  }

  function Run(f: Family, events: seq<Event>): Family
    decreases |events|
  {
    if events == [] then f else Run(Step(f, events[0]), events[1..])
  }

  function Uses(accepted: seq<Acceptance>, token: Token): seq<Use>
    decreases |accepted|
  {
    if accepted == [] then []
    else
      var last := accepted[|accepted| - 1];
      Uses(accepted[..|accepted| - 1], token) + if last.token == token then [last.use] else []
  }

  /** At most twice: first as the current credential, then at most once in grace, within the minute. */
  predicate SingleGrace(uses: seq<Use>) {
    || uses == []
    || (|uses| == 1 && !uses[0].grace)
    || (|uses| == 2 && !uses[0].grace && uses[1].grace && uses[1].at <= uses[0].at + GRACE_MS)
  }

  ghost predicate IssuedOk(f: Family) {
    && f.ever != [] && (forall i, j | 0 <= i < j < |f.ever| :: f.ever[i] != f.ever[j])
    && f.r.credHash == Hash(f.ever[|f.ever| - 1])
    && |f.r.issued| == Min(|f.ever|, ISSUED_KEPT)
    && (forall i | 0 <= i < |f.r.issued| :: f.r.issued[i] == Hash(f.ever[|f.ever| - |f.r.issued| + i]))
  }

  /** The rotated-away credential is the one before the current, or -- spent -- the one before that. */
  ghost predicate PreviousOk(f: Family) {
    && f.r.prevUsesLeft <= 1
    && (f.r.prevCredHash.None? ==> f.r.prevUsesLeft == 0)
    && (f.r.prevCredHash.Some? ==>
          var n := |f.ever|;
          || (n >= 2 && f.r.prevCredHash.value == Hash(f.ever[n - 2]))
          || (n >= 3 && f.r.prevCredHash.value == Hash(f.ever[n - 3]) && f.r.prevUsesLeft == 0))
  }

  ghost predicate UsesOk(f: Family) {
    && (forall i | 0 <= i < |f.accepted| :: f.accepted[i].token in f.ever)
    && (forall token :: SingleGrace(Uses(f.accepted, token)))
    && (f.ever != [] ==> Uses(f.accepted, f.ever[|f.ever| - 1]) == [])
    && (f.r.prevCredHash.Some? && f.r.prevUsesLeft > 0 ==>
          var uses := Uses(f.accepted, f.r.prevCredHash.value.token);
          |uses| == 1 && !uses[0].grace && f.r.prevValidUntil == uses[0].at + GRACE_MS)
  }

  ghost predicate Invariant(f: Family) {
    IssuedOk(f) && PreviousOk(f) && UsesOk(f)
  }

  lemma UsesSnoc(accepted: seq<Acceptance>, a: Acceptance, token: Token)
    ensures Uses(accepted + [a], token) == Uses(accepted, token) + if a.token == token then [a.use] else []
  {
    assert (accepted + [a])[..|accepted|] == accepted;
  }

  lemma {:induction false} UnissuedIsUnused(accepted: seq<Acceptance>, token: Token)
    requires forall i | 0 <= i < |accepted| :: accepted[i].token != token
    ensures Uses(accepted, token) == []
    decreases |accepted|
  {
    if accepted != [] {
      UnissuedIsUnused(accepted[..|accepted| - 1], token);
    }
  }

  lemma RotationKeepsIssued(f: Family, how: Verdict, now: Time, credential: Token, accepted: seq<Acceptance>)
    requires IssuedOk(f) && PreviousOk(f) && credential !in f.ever
    requires how.Current? || (how.Grace? && f.r.prevCredHash.Some? && f.r.prevUsesLeft > 0)
    ensures var g := Family(Rotated(f.r, how, now, credential), f.ever + [credential], accepted);
            IssuedOk(g) && PreviousOk(g)
  {
  }

  lemma RotationKeepsUses(f: Family, token: Token, now: Time, credential: Token)
    requires Invariant(f) && credential !in f.ever
    requires Classify(f.r, token, now).Current? || Classify(f.r, token, now).Grace?
    ensures UsesOk(Step(f, Present(token, now, true, true, credential)))
  {
    var how := Classify(f.r, token, now);
    var a := Acceptance(token, Use(now, how.Grace?));
    var g := Step(f, Present(token, now, true, true, credential));
    assert g.accepted == f.accepted + [a] && g.ever == f.ever + [credential];
    assert token in f.ever by {
      assert f.ever[|f.ever| - 1] in f.ever;
    }
    UnissuedIsUnused(f.accepted, credential);
    UsesSnoc(f.accepted, a, credential);
    forall other ensures SingleGrace(Uses(g.accepted, other)) {
      UsesSnoc(f.accepted, a, other);
    }
    UsesSnoc(f.accepted, a, token);
  }

  lemma EndingKeepsInvariant(f: Family, why: string, now: Time)
    requires Invariant(f)
    ensures Invariant(f.(r := Revoked(f.r, why, now)))
  {
  }

  lemma RotationKeepsInvariant(f: Family, token: Token, now: Time, credential: Token)
    requires Invariant(f) && credential !in f.ever
    requires Classify(f.r, token, now).Current? || Classify(f.r, token, now).Grace?
    ensures Invariant(Step(f, Present(token, now, true, true, credential)))
  {
    RotationKeepsUses(f, token, now, credential);
    RotationKeepsIssued(f, Classify(f.r, token, now), now, credential,
                        Step(f, Present(token, now, true, true, credential)).accepted);
  }

  /** A presented credential rotates the family, ends it, or leaves it alone. */
  lemma PresentCases(f: Family, token: Token, now: Time, active: bool, stored: bool, credential: Token)
    ensures var g := Step(f, Present(token, now, active, stored, credential));
            var how := Classify(f.r, token, now);
            || g == f
            || g == f.(r := Revoked(f.r, "a superseded credential was presented", now))
            || (active && stored && credential !in f.ever && (how.Current? || how.Grace?))
  {
  }

  lemma StepKeepsInvariant(f: Family, e: Event)
    requires Invariant(f)
    ensures Invariant(Step(f, e))
  {
    match e
    case Revoke(why, now, stored) => EndingKeepsInvariant(f, why, now);
    case Present(token, now, active, stored, credential) =>
      PresentCases(f, token, now, active, stored, credential);
      var how := Classify(f.r, token, now);
      if active && stored && credential !in f.ever && (how.Current? || how.Grace?) {
        RotationKeepsInvariant(f, token, now, credential);
      } else {
        EndingKeepsInvariant(f, "a superseded credential was presented", now);
      }
  }

  lemma {:induction false} RunKeepsInvariant(f: Family, events: seq<Event>)
    requires Invariant(f)
    ensures Invariant(Run(f, events))
    decreases |events|
  {
    if events != [] {
      StepKeepsInvariant(f, events[0]);
      RunKeepsInvariant(Step(f, events[0]), events[1..]);
    }
  }

  lemma StartIsFine(accountId: string, credential: Token, revokeToken: Token, now: Time)
    ensures Invariant(Start(accountId, credential, revokeToken, now))
  {
    assert forall token: Token :: Uses([], token) == [];
  }

  /** In every run of refreshes no credential is accepted more than twice; a second acceptance is a grace
      use, at most GRACE_MS after the first. */
  lemma NoCredentialAcceptedThrice(accountId: string, credential: Token, revokeToken: Token, now: Time,
                                   events: seq<Event>, token: Token)
    ensures var uses := Uses(Run(Start(accountId, credential, revokeToken, now), events).accepted, token);
            && |uses| <= 2
            && (|uses| >= 1 ==> !uses[0].grace)
            && (|uses| == 2 ==> uses[1].grace && uses[1].at <= uses[0].at + GRACE_MS)
  {
    StartIsFine(accountId, credential, revokeToken, now);
    RunKeepsInvariant(Start(accountId, credential, revokeToken, now), events);
  }

  lemma HashesMatch(hashes: seq<Hash>, tokens: seq<Token>, token: Token)
    requires |hashes| == |tokens| && forall i | 0 <= i < |tokens| :: hashes[i] == Hash(tokens[i])
    ensures Hash(token) in hashes <==> token in tokens
  {
    if Hash(token) in hashes {
      var i :| 0 <= i < |hashes| && hashes[i] == Hash(token);
      assert tokens[i] == token;
    }
    if token in tokens {
      var i :| 0 <= i < |tokens| && tokens[i] == token;
      assert hashes[i] == Hash(token);
    }
  }

  /** What the record remembers is the last 32 credentials issued, no more and no fewer. */
  lemma IssuedIsRecent(f: Family, token: Token)
    requires IssuedOk(f)
    ensures Hash(token) in f.r.issued <==> token in LastOf(f.ever, ISSUED_KEPT)
  {
    HashesMatch(f.r.issued, LastOf(f.ever, ISSUED_KEPT), token);
  }

  lemma RecentHolds(f: Family)
    requires IssuedOk(f) && PreviousOk(f)
    ensures f.ever[|f.ever| - 1] in LastOf(f.ever, ISSUED_KEPT)
    ensures f.r.prevCredHash.Some? ==> f.r.prevCredHash.value.token in LastOf(f.ever, ISSUED_KEPT)
    ensures f.r.prevCredHash.Some? ==> f.r.prevCredHash != Some(f.r.credHash)
  {
    var recent := LastOf(f.ever, ISSUED_KEPT);
    var n := |f.ever|;
    assert recent[|recent| - 1] == f.ever[n - 1];
    if n >= 2 {
      assert recent[|recent| - 2] == f.ever[n - 2];
    }
    if n >= 3 {
      assert recent[|recent| - 3] == f.ever[n - 3];
    }
  }

  /** While a family is live, its newest credential is current, every superseded one among the last 32
      issued is in grace or a reuse, and any other value is unknown -- exactly, in every run. */
  lemma ClassifiedExactly(accountId: string, credential: Token, revokeToken: Token, at: Time, events: seq<Event>,
                          token: Token, now: Time)
    requires IsLive(Run(Start(accountId, credential, revokeToken, at), events).r, now)
    ensures var f := Run(Start(accountId, credential, revokeToken, at), events);
            var verdict := Classify(f.r, token, now);
            && f.ever != [] && !verdict.Dead?
            && (verdict.Current? <==> token == f.ever[|f.ever| - 1])
            && (verdict.Unknown? <==> token !in LastOf(f.ever, ISSUED_KEPT))
            && (verdict.Grace? || verdict.Reused? <==>
                  token in LastOf(f.ever, ISSUED_KEPT) && token != f.ever[|f.ever| - 1])
  {
    StartIsFine(accountId, credential, revokeToken, at);
    RunKeepsInvariant(Start(accountId, credential, revokeToken, at), events);
    ClassifiedFrom(Run(Start(accountId, credential, revokeToken, at), events), token, now);
  }

  lemma ClassifiedFrom(f: Family, token: Token, now: Time)
    requires IssuedOk(f) && PreviousOk(f) && IsLive(f.r, now)
    ensures var verdict := Classify(f.r, token, now);
            && !verdict.Dead?
            && (verdict.Current? <==> token == f.ever[|f.ever| - 1])
            && (verdict.Unknown? <==> token !in LastOf(f.ever, ISSUED_KEPT))
            && (verdict.Grace? || verdict.Reused? <==>
                  token in LastOf(f.ever, ISSUED_KEPT) && token != f.ever[|f.ever| - 1])
  {
    IssuedIsRecent(f, token);
    RecentHolds(f);
  }

  ghost predicate ClockForward(from: Time, events: seq<Event>)
    decreases |events|
  {
    events == [] || (from <= events[0].now && ClockForward(events[0].now, events[1..]))
  }

  /** A family that is revoked never accepts anything again, whatever the clock does; one that has expired
      does not either while the clock does not run backwards. */
  lemma {:induction false} EndedStaysEnded(f: Family, events: seq<Event>, now: Time)
    requires f.r.revokedAt != 0 || (f.r.expiresAt <= now && ClockForward(now, events))
    ensures var g := Run(f, events);
            && g.accepted == f.accepted && g.ever == f.ever
            && (f.r.revokedAt != 0 ==> g.r.revokedAt == f.r.revokedAt && g.r.revokedWhy == f.r.revokedWhy)
    decreases |events|
  {
    if events != [] {
      EndedStaysEnded(Step(f, events[0]), events[1..], events[0].now);
    }
  }

  /** The revoke token is fixed for the life of the family: through rotations, refusals and its end, exactly
      the one handed out at sign-in matches. */
  lemma RevokeTokenIsFixed(accountId: string, credential: Token, revokeToken: Token, at: Time, events: seq<Event>,
                           token: Token)
    ensures RevokeTokenMatches(Run(Start(accountId, credential, revokeToken, at), events).r, token)
            <==> token == revokeToken
  {
    RevokeHashStays(Start(accountId, credential, revokeToken, at), events);
  }

  lemma {:induction false} RevokeHashStays(f: Family, events: seq<Event>)
    ensures Run(f, events).r.revokeHash == f.r.revokeHash
    decreases |events|
  {
    if events != [] {
      RevokeHashStays(Step(f, events[0]), events[1..]);
    }
  }

  /** Presenting a superseded credential ends the family: nothing is accepted from then on. */
  lemma ReuseEndsFamily(f: Family, token: Token, at: Time, active: bool, credential: Token, later: seq<Event>)
    requires Classify(f.r, token, at).Reused? && credential !in f.ever
    ensures var ended := Step(f, Present(token, at, active, true, credential));
            && ended.r.revokedAt == at
            && Run(ended, later).accepted == f.accepted
  {
    EndedStaysEnded(Step(f, Present(token, at, active, true, credential)), later, at);
  }

  /** A lost answer costs nothing: whoever holds the credential just presented may, within the minute,
      present it once more and is given another; a store that could not be written changes nothing. */
  lemma LostAnswerIsForgiven(f: Family, token: Token, t1: Time, t2: Time, c1: Token, c2: Token)
    requires Invariant(f) && Classify(f.r, token, t1).Current? && c1 !in f.ever && c2 !in f.ever && c1 != c2
    requires t1 <= t2 <= t1 + GRACE_MS
    ensures var first := Refresh(f.r, token, t1, true, true, c1);
            && first.1 == Granted(c1)
            && Refresh(first.0, token, t2, true, true, c2).1 == Granted(c2)
            && Refresh(f.r, token, t1, true, false, c1) == (f.r, StoreFailed)
  {
    assert f.ever[|f.ever| - 1] in f.ever;
  }

  // ------------------------------------------------------------------ the devices table

  function EndedAt(r: Record, now: Time): nat {
    if r.revokedAt != 0 then r.revokedAt else if r.expiresAt <= now then r.expiresAt else 0
  }

  predicate Forgettable(r: Record, now: Time) {
    EndedAt(r, now) != 0 && now - EndedAt(r, now) > TOMBSTONE_MS
  }

  ghost function LiveOf(devices: map<string, Record>, accountId: string, now: Time): set<string> {
    set id | id in devices && devices[id].accountId == accountId && IsLive(devices[id], now)
  }

  ghost function EndedIn(devices: map<string, Record>, ended: set<string>, now: Time): map<string, Record> {
    map id | id in devices ::
      if id in ended then Revoked(devices[id], "too many devices on the account", now) else devices[id]
  }

  /** No family in `left` was used after any in `kept`. */
  ghost predicate OlderThan(devices: map<string, Record>, left: set<string>, kept: set<string>) {
    forall a, b | a in left && b in kept && a in devices && b in devices ::
      devices[a].lastUsedAt <= devices[b].lastUsedAt
  }

  /** Keeping an account within its bound: only families of `ended` change, each is revoked now; they are live
      ones of the account, used no later than any that stays live, and exactly as many as the bound asks. */
  ghost predicate Bounded(before: map<string, Record>, after: map<string, Record>, accountId: string, now: Time,
                          ended: set<string>) {
    var live := LiveOf(before, accountId, now);
    && after == EndedIn(before, ended, now)
    && ended <= live
    && LiveOf(after, accountId, now) == live - ended
    && |live - ended| == Min(|live|, PER_ACCOUNT)
    && OlderThan(before, ended, live - ended)
  }

  ghost predicate Pruned(before: map<string, Record>, after: map<string, Record>, accountId: string, now: Time,
                         forgotten: set<string>, ended: set<string>) {
    && forgotten == (set id | id in before && Forgettable(before[id], now))
    && Bounded(before - forgotten, after, accountId, now, ended)
  }

  lemma OneMore(before: map<string, Record>, live: set<string>, ended: set<string>, oldest: string, now: Time)
    requires live <= before.Keys && live !! ended && oldest in live && OlderThan(before, ended, live)
    requires forall id | id in live ::
               EndedIn(before, ended, now)[oldest].lastUsedAt <= EndedIn(before, ended, now)[id].lastUsedAt
    ensures var devices := EndedIn(before, ended, now);
            EndedIn(before, ended + {oldest}, now)
              == devices[oldest := Revoked(devices[oldest], "too many devices on the account", now)]
    ensures OlderThan(before, ended + {oldest}, live - {oldest})
    ensures (live - {oldest}) + (ended + {oldest}) == live + ended && live - {oldest} !! ended + {oldest}
    ensures |live - {oldest}| == |live| - 1
  {
  }

  lemma LiveAfter(before: map<string, Record>, accountId: string, now: Time, live: set<string>, ended: set<string>)
    requires live + ended == LiveOf(before, accountId, now) && live !! ended
    ensures LiveOf(EndedIn(before, ended, now), accountId, now) == live
    ensures LiveOf(before, accountId, now) - ended == live
    ensures |LiveOf(before, accountId, now)| == |live| + |ended|
    ensures ended == {} ==> live == LiveOf(before, accountId, now)
  {
    var after := EndedIn(before, ended, now);
    assert forall id | id in ended :: after[id].revokedAt != 0;
  }

  class DeviceStore {
    var devices: map<string, Record>

    /** A sign-in that asks for it starts a family of its own: no other family is touched, and for ninety days
        this one knows its one credential, no other, and is ended by its revoke token, no other. */
    method CreateFamily(deviceId: string, accountId: string, credential: Token, revokeToken: Token, now: Time)
      modifies this
      ensures devices == old(devices)[deviceId := NewFamily(accountId, credential, revokeToken, now)]
      ensures devices.Keys == old(devices).Keys + {deviceId}
      ensures forall id | id in old(devices) && id != deviceId :: devices[id] == old(devices)[id]
      ensures deviceId in LiveOf(devices, accountId, now)
      ensures forall token: Token, at: Time | now <= at < now + DEVICE_TTL_MS ::
                Classify(devices[deviceId], token, at) == if token == credential then Current else Unknown
      ensures forall token :: RevokeTokenMatches(devices[deviceId], token) <==> token == revokeToken
    {
      forall token: Token, at: Time | now <= at < now + DEVICE_TTL_MS
        ensures Classify(NewFamily(accountId, credential, revokeToken, now), token, at)
             == if token == credential then Current else Unknown
      {
        ClassifiedFrom(Start(accountId, credential, revokeToken, now), token, at);
      }
      devices := devices[deviceId := NewFamily(accountId, credential, revokeToken, now)];
    }

    /** The refresh handler: only the named family can change, and only as `Refresh` says. */
    method HandleRefresh(deviceId: string, presented: Token, now: Time, active: bool, stored: bool, credential: Token)
      returns (answer: Answer)
      modifies this
      ensures deviceId !in old(devices) ==> answer == Refused && devices == old(devices)
      ensures deviceId in old(devices) ==>
                var (r, expected) := Refresh(old(devices)[deviceId], presented, now, active, stored, credential);
                answer == expected && devices == old(devices)[deviceId := r]
    {
      if deviceId !in devices {
        return Refused;
      }
      var r := devices[deviceId];
      assert devices == devices[deviceId := r];
      var verdict := Classify(r, presented, now);
      if (verdict.Current? || verdict.Grace?) && !active {
        return AccountInactive;
      }
      if verdict.Current? || verdict.Grace? {
        if !stored {
          return StoreFailed;
        }
        devices := devices[deviceId := Rotated(r, verdict, now, credential)];
        return Granted(credential);
      }
      if verdict.Reused? {
        if !stored {
          return StoreFailed;
        }
        devices := devices[deviceId := Revoked(r, "a superseded credential was presented", now)];
      }
      return Refused;
    }

    /** Forgets families that ended long ago, then keeps the account within its bound: the families ended for
        it are the ones used longest ago, and never more of them than the bound asks. */
    method Prune(accountId: string, now: Time) returns (touched: set<string>)
      modifies this
      ensures exists forgotten, ended :: Pruned(old(devices), devices, accountId, now, forgotten, ended)
                                         && touched == forgotten + ended
    {
      var forgotten := Forget(now);
      ghost var rest := devices;
      var ended := Bound(accountId, now);
      touched := forgotten + ended;
      assert Pruned(old(devices), devices, accountId, now, forgotten, ended);
    }

    method Bound(accountId: string, now: Time) returns (ended: set<string>)
      modifies this
      ensures Bounded(old(devices), devices, accountId, now, ended)
    {
      ghost var before := devices;
      var live := set id | id in devices && devices[id].accountId == accountId && IsLive(devices[id], now);
      ended := {};
      while |live| > PER_ACCOUNT
        invariant live + ended == LiveOf(before, accountId, now) && live !! ended
        invariant ended != {} ==> |live| >= PER_ACCOUNT
        invariant devices == EndedIn(before, ended, now)
        invariant OlderThan(before, ended, live)
      {
        var oldest := Oldest(devices, live);
        OneMore(before, live, ended, oldest, now);
        devices := devices[oldest := Revoked(devices[oldest], "too many devices on the account", now)];
        live := live - {oldest};
        ended := ended + {oldest};
      }
      LiveAfter(before, accountId, now, live, ended);
    }

    method Forget(now: Time) returns (forgotten: set<string>)
      modifies this
      ensures forgotten == set id | id in old(devices) && Forgettable(old(devices)[id], now)
      ensures devices == old(devices) - forgotten
    {
      forgotten := {};
      var rest := devices.Keys;
      while rest != {}
        invariant rest <= old(devices).Keys && forgotten <= old(devices).Keys - rest
        invariant forall id | id in old(devices) && id !in rest ::
                    id in forgotten <==> Forgettable(old(devices)[id], now)
        invariant devices == old(devices) - forgotten
      {
        var id :| id in rest;
        rest := rest - {id};
        if Forgettable(devices[id], now) {
          devices := devices - {id};
          forgotten := forgotten + {id};
        }
      }
    }
  }

  method Oldest(devices: map<string, Record>, live: set<string>) returns (oldest: string)
    requires live != {} && live <= devices.Keys
    ensures oldest in live && forall id | id in live :: devices[oldest].lastUsedAt <= devices[id].lastUsedAt
  {
    oldest :| oldest in live;
    var rest := live;
    while rest != {}
      invariant rest <= live && oldest in live
      invariant forall id | id in live - rest :: devices[oldest].lastUsedAt <= devices[id].lastUsedAt
    {
      var id :| id in rest;
      rest := rest - {id};
      if devices[id].lastUsedAt < devices[oldest].lastUsedAt {
        oldest := id;
      }
    }
  }
}
