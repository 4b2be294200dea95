# Verified models of the remote-desktop state machines

A remote-desktop product moves a copied image or a file over a paced bulk channel, relays a viewer to a host it
cannot reach directly, keeps devices signed in with rotating credentials, measures what the viewer decodes, and
remembers for a week which graphics adapter wedged the capture. Each of these is a small state machine whose
promise only shows over many calls. This project models those machines and proves their promises for every run.

| file | what it models |
|---|---|
| `LossCounter.dfy`, `LossHorizon.dfy`, `RateController.dfy`, `RttEstimator.dfy` | the bulk channel's rate control: what counts as lost, rolling loss horizon, AIMD with recovery rounds, pause and probe, round-trip evidence |
| `TokenBucket.dfy`, `Pacer.dfy`, `PacerRace.dfy` | the byte token bucket with acknowledgement debt, the two-class queue it serves, and what an enqueue between look and pop does to it |
| `BulkGen.dfy`, `ClipTransfer.dfy`, `ClipNetwork.dfy`, `ClipProgress.dfy`, `ClipEndpoints.dfy`, `ClipOutcome.dfy` | the clipboard-image pull transfer: generations and stream ids, offers, both endpoints, and the two of them over a network that loses, repeats, delays and reorders |
| `BulkArbiter.dfy`, `ClipClient.dfy` | one bulk transfer per session, and the viewer's image client across the points where it lets go of its lock |
| `Relay.dfy`, `RelayDiag.dfy` | the directory's relay: sessions, their three indexes, capabilities; and the diagnostics' output budgets |
| `DeviceCredentials.dfy` | rotating device credentials with single-use grace and reuse detection |
| `DecodeSnapshot.dfy`, `Telemetry.dfy` | the decode state's sequence lock, the measurement spans, and the telemetry window |
| `ParkState.dfy` | parking a session: the fence's event order, and letting go of held input |
| `Quarantine.dfy` | the persisted capture quarantine: printing, parsing, update rule, startup decision |

How to read it. Where the source is an object with methods, the model has a class with those fields, and most of its
methods are tied to a function on values (`Value()` is the object's value); what the source promises is then proved
of that function over every run. The relay and the image client are objects through and through: their invariant
(`Valid`) is kept by every method, and the methods state the whole new state. Times, randomness, network answers and
the outcome of a store write are parameters. Tokens, transfer ids and generations are drawn fresh, and hashes are
injective.

Seven findings about the code, each stated where it is proved:

- A slow-start factor below one, which the environment may set, pushes the rate through its own floor: the bounds hold
  over every run if and only if the start rate is within them and the factor is at least one or there is no floor
  (`RateController.BoundsHoldIff`).
- Between the pacer's look at the head and its pop another thread may enqueue. Over a whole run the queue stays right if
  and only if no acknowledgement ever got in there (`PacerRace.RunIsCountedIff`, one dequeue at a time
  `PacerRace.SplitDataDequeueIff`). Each time one does, whatever came before and comes after, the fragment looked at can
  leave only as an acknowledgement and is never queued again (`PacerRace.EverySlipStrands`), and that happens to no other
  fragment (`PacerRace.ShutOutIff`). The byte bound survives (`PacerRace.RacePaysForData`).
- A lost fragment counts once in the loss ratio only while it is among the 4096 latest that needed recovery: a resend of
  an earlier one is a new loss each time (`LossCounter.RepeatIff`, shown at `LossCounter.ForgottenCountsTwice`).
- A bind for a host behind another host's wire address leaves the other session live but unreachable from its host, and
  that is the only way it happens, in every run (`stranded` in `Relay.Relay`, `Relay.Relay.BindSession`, shown at
  `Relay.TwoHostsOneAddress`); only its host's moving to another address finds it again. The branch
  that refuses a superseded capability is never taken, because minting already forgets the older one.
- An offer answered in another transfer's name is read as a refusal although the sender stays on offer: the bulk is
  given back while that transfer runs on (`ClipClient.ClipImageClient.OnOfferReply`), and if its copy was the newest it
  is recorded twice (`ClipClient.MisnamedTwiceIff`, shown at `ClipClient.MisnamedOfferEndsTwice`).
- A sweep forgets a source when its tally was opened more than two windows ago, not when it has been quiet for two
  windows as its comment says: a suppressed count is lost unsaid only after more than one window of quiet and always
  after more than two, and both bounds are met (`RelayDiag.LostOnlyAfterAWindow`, `RelayDiag.SweepBoundsAreTight`).
- The quarantine promised for seven days ends just before the seventh day is complete, and is lost when the expiry or
  the skewed clock wraps (`Quarantine.QuarantineHoldsIff`).

## Model

| member | source | states |
|---|---|---|
| LossHorizon.HorizonIsShortestCover | apps/native_poc/src/bulk_rate_controller.hpp:356-365 | the horizon is the shortest non-empty suffix of the history no older than the limit that covers the fragments asked for, or all of it |
| LossHorizon.TrimmedIsBatch | apps/native_poc/src/bulk_rate_controller.hpp:356-370 | trimming window by window gives the same horizon and the same Low / High / Unknown verdict as recomputing from everything ever recorded, for non-decreasing times |
| LossCounter.EveryResendIsCounted | apps/native_poc/src/bulk_rate_controller.hpp:163-206 | in every run the denominator is every original; each resend is a loss, a repeat or a lost acknowledgement; the losses are the distinct fragments resent unconfirmed plus exactly the resends of those that were forgotten |
| LossCounter.RepeatIff | apps/native_poc/src/bulk_rate_controller.hpp:172-187 | in every run an unconfirmed resend is a repeat if and only if that fragment was resent before and fewer than 4096 later ones were; else it is a new loss |
| LossCounter.EachLossCountsOnceIff | apps/native_poc/src/bulk_rate_controller.hpp:155-187 | each fragment that needed recovery counts once if and only if no forgotten one is resent, and none is forgotten while at most 4096 needed recovery |
| LossCounter.ForgottenCountsTwice | apps/native_poc/src/bulk_rate_controller.hpp:185-185 | 4097 fragments resent once each, then the earliest again: it is counted as lost a second time |
| LossCounter.FragsAreCountedIff | apps/native_poc/src/bulk_rate_controller.hpp:183-184 | while at most 4096 fragments needed recovery, a message's lost fragments are counted if and only if it is among the 64 latest that lost any, and then exactly |
| LossCounter.TimeoutsAreWholeMessages | apps/native_poc/src/bulk_rate_controller.hpp:182-184 | while at most 4096 fragments of at most 64 messages needed recovery, the timeouts counted are exactly the messages all of whose fragments did, each once |
| LossCounter.KeyIsInjective | apps/native_poc/src/bulk_rate_controller.hpp:177-177 | a key gives back its message and fragment |
| LossCounter.BulkLossCounter.OnResend | apps/native_poc/src/bulk_rate_controller.hpp:172-187 | one resend: the counter and the verdict are the value-level ones |
| LossCounter.BulkLossCounter.CountFrag | apps/native_poc/src/bulk_rate_controller.hpp:183-184 | a message's count grows by one, a timeout when it is complete, and the eviction loop leaves the 64 latest messages |
| LossCounter.BulkLossCounter.Take | apps/native_poc/src/bulk_rate_controller.hpp:190-194 | hands out the window and starts a fresh one |
| RateController.RateBps | apps/native_poc/src/bulk_rate_controller.hpp:213-218 | what the bucket is fed never exceeds the cap, paused and probing included |
| RateController.IncrementIsLinear | apps/native_poc/src/bulk_rate_controller.hpp:322-326 | one linear raise never exceeds its percentage of the base for the elapsed time, plus one |
| RateController.RunKeepsBounds | apps/native_poc/src/bulk_rate_controller.hpp:213-337 | over any configuration, evaluations and cap changes: rate <= max(cap, floor), the fed rate within the cap in force, slow start never resumes; and floor <= rate with a slow-start factor of at least one |
| RateController.BoundsHoldIff | apps/native_poc/src/bulk_rate_controller.hpp:210-337 | every state of every run keeps floor <= rate <= max(cap, floor) if and only if the start rate does and the slow-start factor is at least one or there is no floor; the failing half is a run of two cap changes and one calm evaluation |
| RateController.SlowStartKeepsFloorIff | apps/native_poc/src/bulk_rate_controller.hpp:319-327 | the arithmetic of one slow-start raise: it keeps every rate at or above the floor if and only if the factor is at least one |
| RateController.RateMovesOnlyAsDecided | apps/native_poc/src/bulk_rate_controller.hpp:259-337 | from any state: the rate moves only by halving for congestion outside recovery and pause, or on a calm, loss-free, on-time, busy window; it falls on a calm window only in slow start with a factor below one, and rises on congestion only from below the floor |
| RateController.LossStateIsOfWholeHistory | apps/native_poc/src/bulk_rate_controller.hpp:244-370 | after any run with forward times the controller's horizon and loss state are those of everything its evaluations ever recorded, pauses and cap changes included |
| RateController.HalvingsTwoRoundsApart | apps/native_poc/src/bulk_rate_controller.hpp:264-274 | two consecutive halvings are at least two completed rounds apart, whatever lies between them |
| RateController.GrowthAfterDecreaseIsLinear | apps/native_poc/src/bulk_rate_controller.hpp:268-276 | after a decrease, until the next, the rate is at most that rate plus caPercentPerSec of it per second plus one per raise, however evaluations, holds and cap changes are spaced |
| RateController.BulkRateController.SetCapBps | apps/native_poc/src/bulk_rate_controller.hpp:236-239 | the cap applies at once, a rate above it comes down to max(cap, floor), nothing else changes |
| RateController.BulkRateController.UpdateLossHorizon | apps/native_poc/src/bulk_rate_controller.hpp:356-370 | the pop loops leave exactly the batch horizon of what was kept plus this window, with its verdict |
| RateController.BulkRateController.Evaluate | apps/native_poc/src/bulk_rate_controller.hpp:244-337 | the stepwise evaluation is the decision made of path, last raise and clock, applied to the pace |
| RateController.BulkRateController.ReadPath | apps/native_poc/src/bulk_rate_controller.hpp:251-263 | baselines only go down to what was measured; congestion is strong delay, a timeout, or loss with weak delay or sustained loss |
| RateController.BulkRateController.Uncongested | apps/native_poc/src/bulk_rate_controller.hpp:285-337 | the uncongested branch: probe, hold or raise exactly as decided |
| RateController.BulkRateController.AnswerCongestion | apps/native_poc/src/bulk_rate_controller.hpp:269-283 | the whole new state of a halving, the pause after too many included |
| RateController.BulkRateController.WeighLastRaise | apps/native_poc/src/bulk_rate_controller.hpp:290-311 | the verdict on the last raise and the plateau hold |
| RateController.BulkRateController.RaiseRate | apps/native_poc/src/bulk_rate_controller.hpp:319-335 | a raise: by factor in slow start, linearly after, never above the cap |
| RttEstimator.EstimateFollowsSamples | apps/native_poc/src/bulk_rate_controller.hpp:107-138 | after any run the ring holds exactly the newest four valid samples, and the smoothed value and a held spike lie within the range of the valid samples |
| RttEstimator.LoneSpikeLeavesNoTrace | apps/native_poc/src/bulk_rate_controller.hpp:118-135 | a spike that stands alone leaves the smoothed round trip as if it had never been sampled |
| RttEstimator.BulkRttEstimator.OnSample | apps/native_poc/src/bulk_rate_controller.hpp:107-138 | the in-place ring and filter compute the value-level estimate and its answer |
| RttEstimator.BulkRttEstimator.CurrentUs | apps/native_poc/src/bulk_rate_controller.hpp:140-144 | the loop over the ring yields the least of the retained samples |
| TokenBucket.ToleranceIsVoid | apps/native_poc/src/bulk_pacer.hpp:59-63 | the comparison's slack never admits anything: every reachable level is a multiple of 1/8000000 byte |
| TokenBucket.DataWithinAccrual | apps/native_poc/src/bulk_pacer.hpp:44-65 | from any reachable level, data let out plus remaining credit never exceed the credit at hand plus what the rates accrued, pauses and debts included |
| TokenBucket.DataWithinBurstAndRate | apps/native_poc/src/bulk_pacer.hpp:44-75 | in any stretch of any run the data bytes are at most 6000 plus the highest rate over the stretch's own time |
| TokenBucket.WaitIsEnoughAndTight | apps/native_poc/src/bulk_pacer.hpp:67-72 | refilling after the announced wait at a constant non-zero rate always admits a datagram of at most 6000 bytes, and refilling more than a microsecond sooner never does |
| TokenBucket.BulkTokenBucket.Refill | apps/native_poc/src/bulk_pacer.hpp:44-58 | the refilled bucket: first call, backward clock, pause and burst cap included |
| TokenBucket.BulkTokenBucket.TryTake | apps/native_poc/src/bulk_pacer.hpp:59-63 | takes if and only if the bucket admits the bytes |
| TokenBucket.BulkTokenBucket.TakeOwed | apps/native_poc/src/bulk_pacer.hpp:65-65 | takes regardless, into debt |
| TokenBucket.BulkTokenBucket.WaitUs | apps/native_poc/src/bulk_pacer.hpp:67-72 | the wait, or the largest 64-bit value while paused |
| Pacer.RunConserves | apps/native_poc/src/bulk_pacer.cpp:78-188 | over every run of enqueues and atomic rounds: each class leaves in its arrival order with none lost or doubled, one queued datagram per fragment, at most 256 queued, and data bytes within what the rates offered |
| Pacer.RoundPays | apps/native_poc/src/bulk_pacer.cpp:131-190 | one round takes at most the head of one queue and pays the bucket for it; data never leaves while an acknowledgement waits or control yields; waits are at most 50 ms |
| Pacer.QueuedFragmentStaysOne | apps/native_poc/src/bulk_pacer.cpp:78-112 | once queued, a fragment stays queued as first queued until it leaves; until then nothing with its key is admitted |
| Pacer.OfferedAgainIsTaken | apps/native_poc/src/bulk_pacer.cpp:78-88 | from the moment a fragment is queued until it leaves, offering it again is reported taken and changes nothing |
| Pacer.ResendMarkMeansLeftBefore | apps/native_poc/src/bulk_pacer.cpp:168-180 | in every run: a departure marked a resend had left before; one that left before and is of the last 64 messages is marked; on one stream short of the wrap that is exact, an older fragment leaving unmarked |
| Pacer.RunRemembers | apps/native_poc/src/bulk_pacer.cpp:168-180 | in every run the table of departures holds only fragments that left, and every one of them that is not old |
| Pacer.PruningKeepsRecent | apps/native_poc/src/bulk_pacer.cpp:174-179 | pruning never forgets a fragment of the last 64 messages, and within one stream short of the wrap forgets exactly the others |
| PacerRace.SplitDataDequeueIff | apps/native_poc/src/bulk_pacer.cpp:117-187 | look at data, any enqueues, then pop: count and key set are right if and only if no acknowledgement was admitted in between |
| PacerRace.SplitAckDequeueIsSafe | apps/native_poc/src/bulk_pacer.cpp:117-149 | look at an acknowledgement, any enqueues, then pop: always right |
| PacerRace.RunIsCountedIff | apps/native_poc/src/bulk_pacer.cpp:78-187 | after any run of enqueues and split passes the deque is exactly the counted acknowledgements followed by data with exactly their keys, if and only if no acknowledgement ever slipped in |
| PacerRace.ShutOutIff | apps/native_poc/src/bulk_pacer.cpp:78-187 | after any run a fragment's key is held with no data datagram of it queued as data, so that every offer of it is reported taken and dropped, if and only if the serving thread was once looking at it when an acknowledgement slipped in |
| PacerRace.RunIsSound | apps/native_poc/src/bulk_pacer.cpp:78-187 | after any run, slips included: behind the count is data with distinct keys, and the key set is those keys and, disjoint from them, the keys of the fragments slips happened to |
| PacerRace.EverySlipStrands | apps/native_poc/src/bulk_pacer.cpp:117-187 | whenever an acknowledgement slips in, after any run of enqueues and passes, earlier slips included, and through any that follow: an acknowledgement leaves in its place, the fragment that was looked at can leave only as an acknowledgement, and every offer of it is reported taken and never queued; with nothing arriving it is gone once what is counted has been taken |
| PacerRace.RacePaysForData | apps/native_poc/src/bulk_pacer.cpp:114-190 | over every run with any enqueues between look and pop, slips included: the data bytes that left, through either branch, never exceed what the rates offered |
| PacerRace.SlippedAckStrandsFragment | apps/native_poc/src/bulk_pacer.cpp:85-88 | one waiting fragment and one acknowledgement slipped in: the fragment leaves as an acknowledgement, and from then on every offer of it is reported taken and never queued, whatever follows |
| PacerRace.StrandedForever | apps/native_poc/src/bulk_pacer.cpp:85-88 | a key left without its datagram stays through any enqueues and passes of the serving thread, slips included |
| Pacer.BulkPacer.Enqueue | apps/native_poc/src/bulk_pacer.cpp:78-112 | the deque, key set and count together are the two queues with this datagram admitted or not |
| Pacer.BulkPacer.Round | apps/native_poc/src/bulk_pacer.cpp:114-190 | one pass of the serving loop is one value-level round |
| Pacer.BulkPacer.PopData | apps/native_poc/src/bulk_pacer.cpp:159-187 | the dequeue of a data datagram: key set, resend mark, last-left time and pruning |
| Pacer.BulkPacer.PruneSent | apps/native_poc/src/bulk_pacer.cpp:176-179 | erasing from the least key while it is old leaves exactly the shielded keys |
| BulkGen.StreamIdIsInjective | apps/native_poc/src/clip_image_core.hpp:177-220 | a stream id gives back its base and the generation's low 28 bits, and an image's id is never a file's |
| BulkGen.SearchFindsFree | apps/native_poc/src/clip_image_core.hpp:239-249 | the search ends within 67 steps from any seed, the 32-bit wrap included, at the first free value |
| BulkGen.RecentStreamsNeverCoincide | apps/native_poc/src/clip_image_core.hpp:230-249 | any 66 consecutive generations have pairwise distinct, non-zero low 28 bits, so their stream ids never coincide |
| BulkGen.BulkGenAllocator.Next | apps/native_poc/src/clip_image_core.hpp:239-249 | the unbounded loop terminates, hands out a free generation and remembers it |
| ClipTransfer.AcceptedOfferFits | apps/native_poc/src/clip_image_transfer.hpp:81-102 | an accepted offer fits the peak budget on both sides, and its size fits the 32-bit offsets that carry it |
| ClipNetwork.CompleteMeansWhole | apps/native_poc/src/clip_image_transfer.hpp:122-204 | in every run over a losing, duplicating, delaying, reordering network of any number of transfers, Complete means the receiver holds byte for byte the package the sender began with for that id |
| ClipNetwork.HeldPackageIsWhole | apps/native_poc/src/clip_image_transfer.hpp:258-271 | while verifying and publishing the held package is still that package |
| ClipNetwork.PullingIsAccounted | apps/native_poc/src/clip_image_transfer.hpp:156-204 | while pulling: received plus outstanding equal what was asked for and never exceed the total, ranges never overlap, at most the window is out, at most ceil(total / 16 KiB) pulls, and something is always out or can be asked |
| ClipNetwork.ChunkCountsOnce | apps/native_poc/src/clip_image_transfer.hpp:185-204 | a chunk counts exactly when it answers a range asked for under the current identity, at most once, and completes exactly with the last byte |
| ClipNetwork.PullIsAnsweredAndAccepted | apps/native_poc/src/clip_image_transfer.hpp:382-410 | a serving sender of the same transfer answers every pull the receiver issues, and the receiver accepts the answer |
| ClipProgress.TransferCanComplete | apps/native_poc/src/clip_image_transfer.hpp:155-204 | from every reachable state with both ends at the same transfer, a bounded number of asks and deliveries and nothing else leaves the receiver with the whole package, byte for byte |
| ClipProgress.RunKeepsAsked | apps/native_poc/src/clip_image_transfer.hpp:155-176 | in every run, each range waited for has been asked for under the current identity |
| ClipNetwork.StaleMessagesAreInert | apps/native_poc/src/clip_image_transfer.hpp:185-246 | a chunk, pull, offer reply or cancel of another transfer, epoch or generation changes neither side |
| ClipOutcome.EndStandsIff | apps/native_poc/src/clip_image_transfer.hpp:122-271 | in one step of either end or the network, the host's final state of a transfer stands, or is forgotten for another transfer's, if and only if the step does not accept that transfer's offer again |
| ClipOutcome.OneEnd | apps/native_poc/src/clip_image_transfer.hpp:122-271 | in every run in which a transfer's offer is delivered at most once, the host's final state of it is the same whenever it has one |
| ClipOutcome.ResumedIsNotPublished | apps/native_poc/src/clip_image_client.cpp:297-376 | an image that may be offered again after a file paste was, in the run of the host that gave the client its answers, published at no point before or after |
| ClipEndpoints.ClipImageReceiver.OnOffer | apps/native_poc/src/clip_image_transfer.hpp:122-153 | the judged offer and, if accepted, the whole fresh state with a zeroed package of the declared size |
| ClipEndpoints.ClipImageReceiver.NextPull | apps/native_poc/src/clip_image_transfer.hpp:156-176 | the next pull and the queue after it |
| ClipEndpoints.ClipImageReceiver.OnChunk | apps/native_poc/src/clip_image_transfer.hpp:185-204 | the copy into the package in place, the range taken off the queue, and the three results |
| ClipEndpoints.ClipImageReceiver.Tick | apps/native_poc/src/clip_image_transfer.hpp:207-212 | stall and wall-clock budget end a pulling transfer, and only that |
| ClipEndpoints.ClipImageReceiver.Cancel | apps/native_poc/src/clip_image_transfer.hpp:236-246 | a cancel of the current transfer ends pulling or marks the worker; any other changes nothing |
| ClipEndpoints.ClipImageReceiver.Status | apps/native_poc/src/clip_image_transfer.hpp:215-229 | where the named transfer stands; any other id is unknown |
| ClipEndpoints.ClipImageReceiver.OnSessionEnd | apps/native_poc/src/clip_image_transfer.hpp:249-256 | nothing in flight survives the session |
| ClipEndpoints.ClipImageReceiver.Finish | apps/native_poc/src/clip_image_transfer.hpp:264-271 | the end of verification and publishing; a cancel that arrived meanwhile wins unless already published |
| ClipEndpoints.ClipImageSender.Begin | apps/native_poc/src/clip_image_transfer.hpp:345-355 | the sender's state for a new offer |
| ClipEndpoints.ClipImageSender.OnOfferReply | apps/native_poc/src/clip_image_transfer.hpp:358-368 | serving on Accept, the package dropped on any other verdict, a reply for another transfer ignored |
| ClipEndpoints.ClipImageSender.OnPull | apps/native_poc/src/clip_image_transfer.hpp:382-410 | the answer to a pull of the current transfer that stays inside the package, the completed chunk counted once, the last sixteen remembered |
| BulkArbiter.HolderKeepsBulk | apps/native_poc/src/bulk_arbiter.hpp:44-71 | through any calls of anybody the holder stays the holder until it releases or the arbiter is reset, and nobody is given the bulk meanwhile |
| BulkArbiter.Arbiter.TryAcquire | apps/native_poc/src/bulk_arbiter.hpp:44-53 | taken from idle only, by an image or a file with a non-zero owner |
| BulkArbiter.Arbiter.Release | apps/native_poc/src/bulk_arbiter.hpp:55-62 | only the holder releases |
| BulkArbiter.Arbiter.BeginStop | apps/native_poc/src/bulk_arbiter.hpp:65-71 | only the holder is stopped, and what it was is kept |
| BulkArbiter.Arbiter.Reset | apps/native_poc/src/bulk_arbiter.hpp:91-97 | the end of a session leaves the bulk free, whoever held it |
| ClipClient.SettlingKeepsBook | apps/native_poc/src/clip_image_client.cpp:281-295 | recording the running transfer's outcome leaves every transfer that is over, and not declined, with exactly one outcome |
| ClipClient.MisnamingKeepsBook | apps/native_poc/src/clip_image_transfer.hpp:358-359 | an offer answered in another transfer's name leaves the record of every other transfer exact |
| ClipClient.MisnamedTwiceIff | apps/native_poc/src/clip_image_client.cpp:636-655 | a transfer so answered has two outcomes if and only if its copy was the newest at the answer and the transfer is over; never more |
| ClipClient.MisnamedOfferEndsTwice | apps/native_poc/src/clip_image_client.cpp:636-655 | a run of the client that gets there: copy, offer, an answer naming another transfer, end of session, two outcomes |
| ClipClient.AllTallied | apps/native_poc/src/clip_image_client.cpp:687-705 | with nothing running, every transfer the host accepted or may have accepted (its answer lost, or too late) has exactly one outcome |
| ClipClient.CancelledStandsAlone | apps/native_poc/src/clip_image_client.cpp:281-295 | in the client's record a transfer recorded as cancelled, unless its offer was answered in another's name, has no other outcome |
| ClipClient.WhatAlwaysHolds | apps/native_poc/src/clip_image_client.cpp:240-335 | gathers what the invariant every method keeps says whenever the lock is free: never active with an unsettled cancel; a cancel names the active transfer; the bulk is held exactly while a transfer runs; the channel open exactly while serving; what it adds is the count: for every transfer not declined, answer lost or late included, no outcome while it runs and exactly one after |
| ClipClient.ClipImageClient.RequestCancel | apps/native_poc/src/clip_image_client.cpp:240-247 | a cancel is bound to the active transfer; a user's reason is kept against a newer copy's |
| ClipClient.ClipImageClient.ClearCancelFor | apps/native_poc/src/clip_image_client.cpp:249-254 | a cancel goes only with the transfer it names |
| ClipClient.ClipImageClient.FlushDeferredNotSent | apps/native_poc/src/clip_image_client.cpp:275-279 | a deferred notice is told once the cancel it waited for is settled, and only if its copy is still the newest |
| ClipClient.ClipImageClient.NoteNotSent | apps/native_poc/src/clip_image_client.cpp:264-273 | stale news is dropped, news during a pending cancel waits, other news is recorded |
| ClipClient.ClipImageClient.SettleAwaiting | apps/native_poc/src/clip_image_client.cpp:281-286 | the awaited transfer gets its outcome, gives the bulk back, and the waiting notice follows |
| ClipClient.ClipImageClient.ApplyCancelAnswer | apps/native_poc/src/clip_image_client.cpp:297-335 | only a final answer about the awaited transfer settles it, with the outcome that answer stands for, and only the answer Cancelled confirms it cancelled |
| ClipClient.ClipImageClient.EndActive | apps/native_poc/src/clip_image_client.cpp:478-519 | the active transfer ends with one outcome, its cancel and the bulk go with it |
| ClipClient.ClipImageClient.SubmitSnapshot | apps/native_poc/src/clip_image_client.cpp:213-227 | a newer copy makes the waiting package stale and cancels the running transfer |
| ClipClient.ClipImageClient.CancelForNewerCopy | apps/native_poc/src/clip_image_client.cpp:229-238 | the same for a copy without an image |
| ClipClient.ClipImageClient.CancelByUser | apps/native_poc/src/clip_image_client.cpp:378-389 | the user's cancel reaches the running transfer and everything waiting |
| ClipClient.ClipImageClient.NoteLocalCopyNotSent | apps/native_poc/src/clip_image_client.cpp:256-262 | the newest copy's notice is recorded now, or deferred behind a pending cancel |
| ClipClient.ClipImageClient.TakeSnapshot | apps/native_poc/src/clip_image_client.cpp:418-429 | the worker takes the snapshot with its copy's generation, once |
| ClipClient.ClipImageClient.PackageBuilt | apps/native_poc/src/clip_image_client.cpp:435-455 | a package waits to be offered only if its copy is still the newest |
| ClipClient.ClipImageClient.PackageRefused | apps/native_poc/src/clip_image_client.cpp:435-451 | a refused package of a stale copy is silent |
| ClipClient.ClipImageClient.PreemptForFilePaste | apps/native_poc/src/clip_image_client.cpp:337-352 | a file paste holds offers back, asks the running image to stop and keeps it, unconfirmed |
| ClipClient.ClipImageClient.AfterFilePaste | apps/native_poc/src/clip_image_client.cpp:354-376 | the kept image is offered again exactly if asked for, the host confirmed it cancelled, no newer copy exists, nothing runs, and it is under a minute old |
| ClipClient.ClipImageClient.Pump | apps/native_poc/src/clip_image_client.cpp:521-686 | up to the first unlock: a cancel names the active transfer; an unsettled one expires at its deadline; an offer goes out only with nothing running or unsettled, of the newest copy, and holding the bulk |
| ClipClient.ClipImageClient.OnCancelReply | apps/native_poc/src/clip_image_client.cpp:555-573 | after the cancel's answer: settled exactly as it says, unconfirmed when the link failed, unchanged when it is not the answer |
| ClipClient.ClipImageClient.OnAwaitedReply | apps/native_poc/src/clip_image_client.cpp:588-600 | the same for a status asked about the awaited transfer |
| ClipClient.ClipImageClient.OnOfferReply | apps/native_poc/src/clip_image_client.cpp:625-656 | after the offer's answer: serving, or refused and told only while newest; a misnamed reply leaves that transfer running without the bulk |
| ClipClient.ClipImageClient.OnStatusReply | apps/native_poc/src/clip_image_client.cpp:657-684 | the host's final word about the active transfer ends it once; any other changes nothing |
| ClipClient.ClipImageClient.EndSession | apps/native_poc/src/clip_image_client.cpp:687-705 | wherever Pump was: nothing runs, the image holds no bulk, and every transfer the host accepted, or may have accepted with its answer lost or still out, has exactly one outcome |
| ClipClient.ClipImageClient.FileCalls | apps/native_poc/src/bulk_arbiter.hpp:44-71 | the file path's use of the arbiter never disturbs the image client's invariant |
| Relay.SupersededForever | apps/directory/server.js:2105-2109 | once a newer capability was minted for a host, an older one is never its newest again, whatever is minted later |
| Relay.SupersededIsRefused | apps/directory/server.js:1714-1737 | a Hello with a superseded capability is refused as unknown in every reachable state |
| Relay.MintKeepsCapable | apps/directory/server.js:2094-2110 | every capability that can be presented is the newest of its host, after a mint too |
| Relay.ReplacingIsEnough | apps/directory/server.js:2105-2109 | deleting the host's latest capability removes the only one it could still have |
| Relay.WhatAlwaysHolds | apps/directory/server.js:561-565 | gathers what the invariant every method keeps says: each live session is found under its client key and lease, every entry of all three maps points to a live session whose current key it is; a session is not found from its host if and only if it is recorded as stranded; what it adds is that there are as many sessions as leases |
| Relay.LiveSessionsAreDistinct | apps/directory/server.js:1592-1606 | live sessions are pairwise distinct by host id and by client endpoint |
| Relay.OneSessionPerHost | apps/directory/server.js:561-565 | there are exactly as many live sessions as leases |
| Relay.TwoHostsOneAddress | apps/directory/server.js:1784-1787 | two hosts behind one wire address, one bind each: both sessions live, the first no longer found from its host |
| Relay.BindBehindSameAddress | apps/directory/server.js:1714-1791 | a bind for another host behind the same wire address leaves the session there live and not found from its host |
| Relay.Relay.DropSession | apps/directory/server.js:1589-1606 | idempotent; the set and all three indexes lose exactly this session |
| Relay.Relay.FollowHostWire | apps/directory/server.js:1618-1634 | the host's session moves to the new endpoint both ways, a session found there is closed, nothing else moves; a stranded session whose host moves is found again |
| Relay.Relay.Sweep | apps/directory/server.js:1638-1667 | exactly the expired capabilities, expired addresses and finished sessions go |
| Relay.Relay.MintCapability | apps/directory/server.js:2094-2110 | the host's previous capability is gone at once and the new one is its only one, for a minute |
| Relay.Relay.BindSession | apps/directory/server.js:1714-1791 | refuses with the first applicable reason and changes nothing, or closes the host's and the address's sessions and admits one fresh session; only a host's newest capability ever binds; a session found from its host before is still found if and only if the new host has another wire address; stranded afterwards are those who were and the one found at the new host's address, as far as they stay |
| Relay.Relay.MakeRoom | apps/directory/server.js:1749-1758 | before a bind, exactly the sessions of that host or client address are closed |
| Relay.Relay.CloseHostsNow | apps/directory/server.js:2321-2343 | exactly those hosts' sessions and capabilities are gone, and the count returned is the sessions closed |
| Relay.Relay.SearchFindsNone | apps/directory/server.js:2329-2334 | after the lease was dropped, searching all sessions for the host finds none |
| Relay.Relay.OnClientPacket | apps/directory/server.js:1818-1860 | a datagram is forwarded only for the session of its address; a Hello only under its own capability; only a Hello opens a session, only an unanswered eligible address gets a punch reply |
| Relay.Relay.OnHello | apps/directory/server.js:1826-1840 | a Hello repeats its session's own capability or binds anew, closing what held the host or the address; it never travels under another capability's session |
| Relay.Relay.OnHostPacket | apps/directory/server.js:1895-1921 | a host's datagram goes to the session indexed at its address, which becomes active exactly on an authorised HelloAck; a stranded session hears nothing from its host |
| RelayDiag.SpanMeetsFewWindows | apps/directory/relay_diag.js:42-54 | a span of time T meets at most floor(T / windowMs) + 2 windows' worth of lines |
| RelayDiag.FloodStaysInBudget | apps/directory/relay_diag.js:29-90 | whatever floods it: tracked sources never exceed the cap, and any span T logs at most linesPerWindow and linesPerKey times floor(T / windowMs) + 2 lines, sweeps and re-added sources included |
| RelayDiag.SuppressedIsReported | apps/directory/relay_diag.js:42-54 | when the next window opens, what the last one left out is said; the untracked sources are said exactly if a line is left, and counted as suppressed otherwise |
| RelayDiag.SweepLosesCountIff | apps/directory/relay_diag.js:84-90 | a sweep forgets a source if and only if its tally was opened more than two windows ago, and logs no summary of it; a source kept is unchanged |
| RelayDiag.LostOnlyAfterAWindow | apps/directory/relay_diag.js:60-90 | in every run a sweep loses a source's suppressed count only if the source was last refused at least one window and two milliseconds ago, and always if that was more than two windows ago |
| RelayDiag.SweepBoundsAreTight | apps/directory/relay_diag.js:60-90 | both bounds are met: refusals at 0 four times and at 9999 lose a count of two at 20001; four at 0 keep theirs at 20000 |
| RelayDiag.EveryRefusalIsAccounted | apps/directory/relay_diag.js:29-90 | in every run each refusal of a source is in a logged detail line, in a logged summary, in the live tally, or in a named drop: forgotten by a sweep, never tracked, or swallowed with its line or summary by the whole budget |
| RelayDiag.RelayDiag.Emit | apps/directory/relay_diag.js:34-39 | a line is logged or counted as suppressed |
| RelayDiag.RelayDiag.RollWindow | apps/directory/relay_diag.js:42-54 | the window rolls when due, with its summaries |
| RelayDiag.RelayDiag.Note | apps/directory/relay_diag.js:60-81 | one refusal under both budgets and the key cap |
| RelayDiag.RelayDiag.Sweep | apps/directory/relay_diag.js:84-90 | sources whose tally was opened over two windows ago are forgotten, then the window rolls |
| DeviceCredentials.NoCredentialAcceptedThrice | apps/directory/device_credentials.js:118-158 | in every run no credential is accepted more than twice; the second time is a grace use within a minute of the first |
| DeviceCredentials.ClassifiedExactly | apps/directory/device_credentials.js:118-130 | while the family is live the newest is current, every superseded one of the last 32 is grace or reused, and every other value is unknown, in every run |
| DeviceCredentials.EndedStaysEnded | apps/directory/device_credentials.js:160-166 | a revoked family, or an expired one while time goes forward, never accepts again and keeps its first time and reason |
| DeviceCredentials.ReuseEndsFamily | apps/directory/server.js:1003-1013 | presenting a superseded credential ends the family for good |
| DeviceCredentials.LostAnswerIsForgiven | apps/directory/device_credentials.js:131-158 | the credential just presented may be presented once more within the minute; a store that could not be written changes nothing |
| DeviceCredentials.DeviceStore.CreateFamily | apps/directory/device_credentials.js:83-107 | no other family is touched; for ninety days the new one is live, its credential is current, any other value is unknown, and exactly its revoke token matches |
| DeviceCredentials.RevokeTokenIsFixed | apps/directory/device_credentials.js:168-170 | in every run, through rotations, refusals and the end, exactly the revoke token handed out at sign-in matches |
| DeviceCredentials.DeviceStore.HandleRefresh | apps/directory/server.js:972-1015 | only the named family changes, as the verdict, the account and the store say |
| DeviceCredentials.DeviceStore.Prune | apps/directory/device_credentials.js:193-211 | families ended over thirty days ago go; of an account's live families exactly the excess over 32, used longest ago, are ended |
| DecodeSnapshot.ReadIsOnePublish | apps/native_poc/src/client_decode_snapshot.hpp:96-131 | in every interleaving of one publisher and any readers, a read that succeeds returns what one publish wrote whole, at least as new as all complete when it began |
| DecodeSnapshot.UndisturbedReadSucceeds | apps/native_poc/src/client_decode_snapshot.hpp:111-131 | a reader no publish overlaps returns what was last published |
| DecodeSnapshot.PublishedOnlyGrows | apps/native_poc/src/client_decode_snapshot.hpp:96-108 | complete publishes are never taken back or reordered |
| DecodeSnapshot.PackRoundTrip | apps/native_poc/src/client_decode_snapshot.hpp:100-126 | width and height survive sharing one 64-bit cell |
| Telemetry.SamplesAddUp | apps/native_poc/src/client_telemetry_window.hpp:103-171 | within a connection the samples of each span sum exactly to the last read of that span, and sampled time plus startup grace never exceeds the time that passed |
| Telemetry.SamplesAvoidGraces | apps/native_poc/src/client_telemetry_window.hpp:127-171 | each sample covers a stretch exactly as long as it says, no two overlap, and none overlaps any startup grace of the run, connection resets included |
| Telemetry.ReadCoversItsSpan | apps/native_poc/src/client_decode_snapshot.hpp:50-91 | a read counts the pictures and time since its span began, is refused inside a grace, and a span once read no longer moves its start |
| Telemetry.HoldingIsBounded | apps/native_poc/src/client_telemetry_window.hpp:122-148 | a window is held less than a quarter second past its first hold, however its measurement restarts |
| Telemetry.Handed | apps/native_poc/src/client_telemetry_window.hpp:227-232 | a pending snapshot is handed out unchanged while young enough and not at all afterwards |
| Telemetry.ClientDecodeSpanStart.OnGeneration | apps/native_poc/src/client_decode_snapshot.hpp:52-56 | a generation begins a span now, or at the end of a running grace |
| Telemetry.ClientDecodeSpanStart.OnGraceFirstPicture | apps/native_poc/src/client_decode_snapshot.hpp:63-67 | the picture that ends a grace moves the start to itself |
| Telemetry.ClientTelemetryWindow.Hold | apps/native_poc/src/client_telemetry_window.hpp:127-148 | holds exactly while the sample is short and the bound is not reached |
| Telemetry.ClientTelemetryWindow.Close | apps/native_poc/src/client_telemetry_window.hpp:152-220 | rebases, drops or replaces the pending snapshot exactly as the value-level close |
| Telemetry.ClientTelemetryWindow.OnDecodeGeneration | apps/native_poc/src/client_telemetry_window.hpp:224-226 | a snapshot of another generation is dropped |
| ParkState.ParkedMeansConfirmed | apps/native_poc/src/client_park_state.hpp:142-211 | every run that is Parked passed Begin, collect, a drained pass, the sent pause, a later ping and its pong within 2 s, in that order |
| ParkState.OrderedEventsPark | apps/native_poc/src/client_park_state.hpp:142-203 | those six events on time do park, from any run that may begin |
| ParkState.SendingReleasesFreesAll | apps/native_poc/src/client_park_state.hpp:67-109 | whatever was sent before, sending all releases in any order leaves nothing held |
| ParkState.UpsOnlyFree | apps/native_poc/src/client_park_state.hpp:72-85 | sending ups only lets go, and of exactly what they name |
| ParkState.ClientHeldInput.OnSent | apps/native_poc/src/client_park_state.hpp:67-86 | what is held after an action that was sent |
| ParkState.ClientHeldInput.Releases | apps/native_poc/src/client_park_state.hpp:92-109 | the up of everything held and nothing else, each once |
| ParkState.ClientParkFence.OnPassBoundary | apps/native_poc/src/client_park_state.hpp:142-164 | the pass step and the fence after it |
| ParkState.ClientParkFence.Begin | apps/native_poc/src/client_park_state.hpp:167-179 | a park begins only when none runs |
| ParkState.ClientParkFence.OnPong | apps/native_poc/src/client_park_state.hpp:194-203 | only the fence ping's pong parks, and only in time |
| ParkState.ClientParkFence.Tick | apps/native_poc/src/client_park_state.hpp:205-211 | budget and limit |
| Quarantine.ParseU64 | apps/native_poc/src/capture_recovery_store.cpp:34-45 | the loop with its overflow guard reads exactly the decimal numbers of at most 20 digits that fit 64 bits |
| Quarantine.NumberRoundTrip | apps/native_poc/src/capture_recovery_store.cpp:206-212 | every 64-bit number printed is read back as itself |
| Quarantine.ParseRecord | apps/native_poc/src/capture_recovery_store.cpp:214-261 | the line loop and its checks are the value-level parse, each refusal with its reason |
| Quarantine.SurvivesIff | apps/native_poc/src/capture_recovery_store.cpp:206-261 | a record survives printing and reading back if and only if it is storable, for every record |
| Quarantine.NothingIsCut | apps/native_poc/src/capture_recovery_store.cpp:206-212 | a storable record's text is at most 162 bytes, so the print buffer never cuts it |
| Quarantine.OnlyStorableIsRead | apps/native_poc/src/capture_recovery_store.cpp:240-258 | no text whatever is read as a record that is not storable |
| Quarantine.NextRecordRoundTripIff | apps/native_poc/src/capture_recovery_store.cpp:263-282 | the next record of any record is readable if and only if the adapter is identified, its first time is not zero and the wedge count does not wrap |
| Quarantine.WedgeIsRecorded | apps/native_poc/src/capture_recovery_store.cpp:399-435 | whatever the file held (a record, damage, nothing), the text written for a wedge is read back as the record it was printed from |
| Quarantine.WedgesAccumulate | apps/native_poc/src/capture_recovery_store.cpp:271-280 | continuing a record keeps its first wedge, never takes its expiry back and counts one more |
| Quarantine.DecideAtStartup | apps/native_poc/src/capture_recovery_store.cpp:284-317 | quarantined if and only if some record applies, by the first of those that expire last, with one note per record that does not apply |
| Quarantine.FindPresent | apps/native_poc/src/capture_recovery_store.cpp:297-300 | of several adapters with one key the last listed is meant |
| Quarantine.QuarantineHoldsIff | apps/native_poc/src/capture_recovery_store.cpp:263-308 | a wedge's record applies at a later time if and only if the adapter is there with its driver, the time is before last + 7 days, and neither that nor the skewed clock wraps |
| Quarantine.WedgeKeepsQuarantine | apps/native_poc/src/capture_recovery_store.cpp:344-377 | after a wedge, whatever the stored files hold otherwise, every start in the following seven days finds a record that quarantines |

## Left out

- TokenBucket.DataWithinBurstAndRate: over exact real numbers; floating-point rounding of the bucket level is not modelled.
- Pacer.RunConserves: the look at the head and the dequeue are one step, as the queue invariant intends; the split is treated in `PacerRace`. Statistics, the running flag and the decoding of a datagram's key are not modelled.
- RateController.RunKeepsBounds: the 32-bit width of the rate, 64-bit overflow of its products, the evaluation schedule and the diagnostic cause are not modelled.
- RateController.HalvingsTwoRoundsApart: for non-zero, non-decreasing round counts; a round count of zero means recovery is not tracked.
- LossHorizon.TrimmedIsBatch: for non-decreasing times; a clock that steps back reads as a huge age and empties the horizon.
- DecodeSnapshot.ReadIsOnePublish: sequentially consistent interleavings of single loads and stores with an unbounded counter; weaker memory orders and the counter's wrap are not modelled.
- ClipNetwork.CompleteMeansWhole: assumes each package has its own transfer id.
- ClipProgress.TransferCanComplete: says that deliveries complete the transfer, not that a network makes them; the stall and wall-clock budgets may end it first.
- ClipClient.ClipImageClient.OnOfferReply: a reply that names another transfer is modelled; the arbiter claim and the exactly-one-outcome claim then except the transfers so answered (`misnamed`), because the code releases their bulk and may record a refusal while they stay on offer (`ClipClient.MisnamedTwiceIff` says when).
- ClipClient.ClipImageClient.Pump: closing the bulk stream, which the code does just after letting go of the lock, is part of the step. A status byte outside the enumeration, and a client without an arbiter, are not modelled.
- ClipClient.ClipImageClient.CancelByUser: paste-on-demand outcomes, the abandoned paste (which stops the copy in the same way), fallback text, progress and counters are not modelled.
- ClipEndpoints.ClipImageSender.OnPull: the package is an immutable sequence, as the shared buffer is never written.
- Relay.Relay.BindSession: host records are given as a table; packet and byte counters, log lines and the reply timers are not modelled.
- Relay.Relay.Sweep: the silent-host log line and the diagnostics' own sweep are not part of it.
- DeviceCredentials.DeviceStore.Prune: ties between equal last-use times may be broken either way; the ids it touched are a set, not a list.
- DeviceCredentials.DeviceStore.HandleRefresh: request checks, failure throttling and the session it starts are not modelled; the device's kind and label are left out of the record.
- Telemetry.SamplesAddUp: sums are per connection, as a reset forgets what was read; the sink's width, height and generation take no part in the sums and are left at zero in the drain.
- ParkState.ClientHeldInput.Releases: the input queue's sequence numbers and send times on the released messages are not modelled.
- Quarantine.ParseRecord: text is a sequence of bytes; the file's security checks, locking, atomic rename and the choice of a record to drop when sixteen exist are not part of this model.
- LossCounter.TimeoutsAreWholeMessages: for headers that agree on a message's fragment count; beyond 64 messages `FragsAreCountedIff` says which are still counted. The 32-bit width of the window's counters is not modelled.
- ClipOutcome.ResumedIsNotPublished: that a control message is delivered once is assumed of the offer (`EndStandsIff` says what a second delivery does); that the client's answers come from the host is assumed, the control channel itself is not modelled.
- Sockets, threads, timers, window-system calls, cryptography, HTTP and JSON handling, file access control, and all user interface.
- Version comparison, manifests, capture cadence, connect candidates, wake targets, update and role gates, account records: easier members.
