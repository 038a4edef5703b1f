# The kfklease protocol, proved

kfklease keeps a lease in a Kafka partition. Nobody can write "take it if it is free", so writing
decides nothing: the state of the lease is a fold over the log, and each participant acts on its own
fold of what it has read so far. This project models that protocol in Dafny and proves what
`docs/protocol.md` argues and what `lease/sim_test.go` samples by seed: no two participants ever
believe they hold the lease, whatever the interleaving of landings, acknowledgements, read-backs,
freezes, partitions, late joins and holes in the log.

## How it is built

| file | what it holds |
|---|---|
| `Records`, `LeaseFold`, `Terms`, `Histories` | records and their encoding; the reference: a recursive fold of the whole log (`TruthOf`, `Verdict`), what holds of it on any log at all, and the same fold told without its state, by the records that counted |
| `Views`, `MutableViews` | the view of one reader: what each operation does to it, as functions on `ViewState`; and the class `View` that does it in place, with the source's loops, proved to compute those functions |
| `Pendings`, `LateReaders`, `TailReaders` | what an uncertain view remembers, when an anchor is found and what it restores, and when late readers agree with the whole log |
| `Agents`, `MutableAgents` | the writer rules, in the same two forms |
| `Systems` | any number of participants, the broker, the wire and the clocks, as a state machine over 14 kinds of step |
| `Invariants`, `Landings`, `LocalSteps`, `Theorems`, `Beliefs` | the invariant of the system, its preservation step by step, and the theorems about whole runs |
| `Traces`, `Margins`, `Latecomers`, `StaleFetches`, `Counterexamples` | runs that exist: every hypothesis of the theorems is needed, and the conditions they give are exact |
| `Conduct`, `Settlements`, `Releases`, `Paces` | what participants do, not only what they must not: reading and acknowledging in either order, when exactly they write, that belief follows the log's verdict, what a release achieves; silence, holding back and one request at a time, in any run |
| `Candidates`, `Heartbeats` | settings, the published status and shutdown; the report that checks a fenced workload |

The main proof is circular by nature and is one induction over runs (`Theorems.RunsKeepInv`). A belief is
true because the views behind it are true; a view that settled by an anchor is true because
whoever wrote the anchor truly held the lease when it decided to write.

## What the environment may do

Times are integers, in nanoseconds; 0 is Go's zero `time.Time`, and everything happens after it.
`Systems.Enabled` says which steps are possible. In words:

- A produce request lands at most once, at or after its send, however late, or never. An error answers a
  record that never lands, or it comes at least a TTL after the send on the sender's clock (the
  delivery timeout, `lease/candidate.go:221-223`). A record given up on may still land later.
- An acknowledgement answers the record in flight (`lease/candidate.go:397-406`), before or after it is read back.
- Messages that do not decode may land at any time.
- A broker stamps a record within `skew` of real time, so timestamps may step backwards; a client's
  clock runs at any rate between `n/d` and `2 - n/d`, and may vary within that.
- Readers join at any offset and skip any records, unless the environment is one in which every reader sees the
  whole log (`wholeLog`: start at offset 0, no holes).
- A fetch reports an end of the log that was true some time ago; what was the end then, later records carry later stamps.
- A frozen or crashed process is one that takes no steps. Its last published status goes on being read.
- Holders are unique, also across restarts. All participants share the TTL, margin and renew interval.
  A TTL loses what is below a millisecond in the encoding (`lease/record.go:91`); `wireTtl` is what is left.

`Theorems.Safe` collects what the theorems ask of it:

- The margin covers the clocks and the lost part of a millisecond (`MarginCovers`).
- Either every reader sees the whole log, or all of the following:
  - brokers agree on the time (`skew == 0`); clients may still drift;
  - `soloRelease`: a release is decided only with nothing in flight. `docs/protocol.md:65` asks for one request at a time, but
    `release` (`lease/agent.go:282-289`) does not look, and shutdown (`lease/candidate.go:421-423`) can reach it
    with a renew under way;
  - when quiet fires, the last successful fetch is recent (`QuietCovers`: for clients that keep time, at most a margin
    old, plus what the encoding takes off the TTL, `Margins.FreshEnough`). `tick` (`lease/agent.go:249-257`) looks only
    at `connected` and at the stored end of the log.

None of this can be dropped: for clients that keep time, `Counterexamples.ExclusionIsExact` shows that all runs are free of
double belief if and only if all of it holds. The runs that show it are built for all settings, not for one.

## Where the code and its documentation differ

The model follows the code.

- The documented margin (`docs/protocol.md:92-101`) does not cover late joiners and holes when brokers disagree about the time.
  Readers of different tails clamp the same timestamp differently (`lease/view.go:169-174`), and with any skew at all
  there is a run in which a late joiner believes beside the holder, whatever the margin (`Latecomers.LateJoinerOverlaps`).
  The simulation of `lease/sim_test.go:312-355` has such readers, but is documented to meet no such run
  (`docs/protocol.md:152-155`). For the same reason readers
  that started at different points need not agree (`docs/protocol.md:128-131`): they all do exactly when timestamps
  never step back (`TailReaders.AgreementIsExact`).
- The code may break the second writer rule at shutdown, and may declare quiet on a stale fetch, as above.
- `docs/protocol.md:95` adds latency to the margin. Safety does not need it; it only keeps a renewal from coming late.
- The bound of `docs/protocol.md:95` does not mention that a TTL with a fraction of a millisecond is written shorter
  than it is counted on. The margin has to cover that too.
- `withDefaults` compares margin plus renew interval with the TTL after a 64-bit addition, so two huge
  settings pass (`Candidates.AcceptedSettingsFit` says exactly when).

## Model

| member | source | states |
|---|---|---|
| Records.EncodeDecode | lease/record.go:76-129 | a record encodes exactly when its kind is known and its holder is not empty, and what was encoded decodes to the same record up to broker metadata, a claim's epoch and the fraction of a millisecond |
| Records.RoundTripIsExact | lease/record.go:87-113 | the round trip is the identity if and only if the TTL is a whole number of milliseconds |
| Records.DecodeEncode | lease/record.go:101-129 | whatever decodes encodes again, and to the wire value it came from, up to the epoch of a claim, if and only if its TTL fits 64 bits of nanoseconds |
| Records.WireForm | lease/record.go:66-97 | the wire value: version 1, the name of the kind, the holder, whole milliseconds, and an epoch for renews and releases only |
| Records.DecodesExactly | lease/record.go:101-129 | a message decodes exactly if it is version 1 of a known kind with a holder, and then to its fields, the TTL in 64-bit nanoseconds |
| LeaseFold.ClockIsMonotone | lease/view.go:85-87 | the clamped clock never steps backwards, whatever the timestamps |
| LeaseFold.TermsAreShort | lease/view.go:67-68 | a live term got a record within the last w of the clock, if no valid record asks for more than w, which is why silence means free |
| LeaseFold.EpochIsAnAcceptedClaim | docs/protocol.md:51-60 | an epoch is the offset of an accepted claim by the holder |
| LeaseFold.EpochsGrow | docs/protocol.md:58-60 | epochs only grow as the log does |
| LeaseFold.EpochsNameHolders | lease/view.go:22-24 | of two moments of one log the later has the same or a higher epoch, and the same epoch means the same holder |
| LeaseFold.LiveTermAcceptedAll | docs/protocol.md:117-122 | while a term is live, every valid claim or renew of it in the log was accepted |
| LeaseFold.LiveTermWasLive | docs/protocol.md:53-54 | a live term has been the state, and live, at every point since its claim |
| LeaseFold.TermPersists | docs/protocol.md:68-70 | a term nobody releases lasts at least until x, whatever else lands, if one accepted record carries it that far and no later renew of its own cuts it short of x |
| Terms.TermsAreDisjoint | lease/view.go:234-258 | on any log, with any records, TTLs and timestamps, the accepted terms are disjoint intervals of clamped time ordered by epoch |
| Terms.NoRevival | docs/protocol.md:53-54 | a term once over stays over, and every later renew or release of it is rejected |
| Histories.StateIsHistory | docs/protocol.md:47-60 | for any log: the state is told by the last record that counted (its term, until its stamp plus TTL, or free if it was a release), and the clock is the latest stamp so far |
| Histories.VerdictIsHistory | docs/protocol.md:47-60 | for any log: a record counts exactly if it is a claim while the last record that counted leaves no live term, or a renew or release of the term it leaves live, and claims and renews ask for at most a TTL |
| Histories.ReleaseFrees | lease/view.go:250-255 | on any log, a release of the term live at its clamped stamp is accepted, leaves the lease held at no time whatever, and the claim that lands next is accepted and live |
| Views.FromStartIsTheFold | lease/view.go:105-114 | a view that reads everything from offset 0 is always certain, and its state, clock and every verdict are those of the reference fold |
| Views.ApplyContract | lease/view.go:156-187 | Apply errs exactly on a repeated offset or an unknown kind and then changes nothing; otherwise offset and clock advance, the verdict is Pending exactly while uncertain, and certainty is kept |
| Views.StaysCertain | lease/view.go:61-76 | certainty is lost only by a gap |
| Views.QuietContract | lease/view.go:136-154 | quiet takes effect exactly when the silence covers a TTL, and then the view is certain, holds nothing pending, shows the lease held at no time, and keeps a known epoch |
| MutableViews.View.constructor | lease/view.go:98-103 | a new view is uncertain |
| MutableViews.View.FromStart | lease/view.go:109-114 | a view of the full history is certain that the lease is free, with epoch -1 |
| MutableViews.View.Gap | lease/view.go:126-134 | a gap forgets state, pending records and the last timestamp, but neither clock nor offset |
| MutableViews.View.Quiet | lease/view.go:136-145 | quiet sets the view free exactly when the silence covers a TTL, and otherwise changes nothing |
| MutableViews.View.SetFree | lease/view.go:147-154 | free and certain, nothing pending, and the epoch kept if it was known |
| MutableViews.View.Apply | lease/view.go:156-187 | the whole new view, the verdict and the error are those of the specification that FromStartIsTheFold and LateReadersAgree are about |
| MutableViews.View.ApplyUncertain | lease/view.go:189-216 | the search takes the first pending record that vouches for the term, replays what came after it, and else remembers the record |
| MutableViews.View.PrunePending | lease/view.go:218-227 | records older than two TTLs are dropped from the front |
| MutableViews.View.FoldRecord | lease/view.go:233-258 | one record on a certain state, as the reference fold has it |
| Pendings.DropOldIsKeep | lease/view.go:218-227 | pruning only the front is the same as dropping every record that is too old, because pending is in order |
| Pendings.PendingIsExact | lease/view.go:189-231 | what an uncertain view remembers is exactly the valid records since the gap that are within two TTLs of its clock, in order, and no pair in it could have been an anchor |
| Pendings.AnchorRefolds | lease/view.go:189-215 | a view that settles by an anchor is in the state, and gives the verdict, that folding all records since the anchor gives, as the view clamps them, with whatever timestamps; the anchor is the first record that vouches for the term, and what the view dropped or never kept makes no difference |
| Pendings.AnchorsAreFound | lease/view.go:177-227 | a claim or renew followed without a gap by a renew or release of its term leaves the view certain until the next gap, if the clock just before the second is at most two TTLs past the first |
| Pendings.SilenceIsFound | lease/view.go:177-186 | after a gap, a record whose stamp is a TTL or more past the clock that the records since the gap left gets a verdict and leaves the view certain until the next gap; if the view was uncertain, the verdict is acceptance exactly for a valid claim, and the lease is that claim's or free |
| Pendings.SettlesExactly | lease/view.go:177-216 | an uncertain view becomes certain at a record exactly if a TTL lies between it and the clock that the records since the gap left, or some record since the gap vouches for the term it names |
| LateReaders.ReplayIsTruth | lease/view.go:199-208 | on a log that never steps back, replaying the pruned pending records from a true state gives what folding the raw log gives |
| LateReaders.ReaderClock | lease/view.go:126-134 | across any holes, the clock of a reader is the latest stamp among the records it read |
| LateReaders.AnchorProves | lease/view.go:69-73 | on a log whose anchors are honest, the state an anchor yields after replay is the state of the whole log |
| LateReaders.SoundApply | lease/view.go:156-216 | by whichever rule a view settles, its state and verdict agree with the whole log |
| LateReaders.LateReadersAgree | docs/protocol.md:128-131 | on a log with honest anchors that never steps back, a reader from any offset, across any holes, gives each record the verdict of the whole log whenever it gives one, and once certain shows the same state whenever either shows the lease held |
| TailReaders.FreshReadersAgree | docs/protocol.md:124-131 | on any log with honest anchors, timestamps stepping back or not, the same holds for every reader whose gap-free stretches each begin with a record the log's clamped clock does not run ahead of |
| TailReaders.AgreementIsExact | docs/protocol.md:128-131 | for every TTL and every bound on how far timestamps step back: all readers of all such logs with honest anchors agree with the whole log if and only if the bound is zero or less |
| MutableAgents.Agent.constructor | lease/agent.go:56-76 | a new agent is certain exactly if the log starts at offset 0, and measures silence from now |
| MutableAgents.Agent.Fetched | lease/agent.go:93-104 | after a failed fetch the silence starts anew, and the known end of the log never shrinks |
| MutableAgents.Agent.Record | lease/agent.go:106-146 | duplicates change nothing, a hole makes the view uncertain, junk is skipped, and own records and the end of the term in the log are acted on in this order |
| MutableAgents.Agent.OwnRecord | lease/agent.go:148-163 | only the record in flight, known by its acknowledged offset, can settle; before that the verdict is remembered, for what Conduct.ReadAndAckCommute and Settlements.LogDecides prove |
| MutableAgents.Agent.Acked | lease/agent.go:165-184 | the answer settles the record in flight if it was read back before; an error gives it up |
| MutableAgents.Agent.Settle | lease/agent.go:186-213 | how a verdict changes belief, epoch and the time of the next claim |
| MutableAgents.Agent.Tick | lease/agent.go:240-271 | expiry, quiet and the decision what to write, which Conduct.WritesExactly and Paces.QuietFiresExactly spell out |
| MutableAgents.Agent.Release | lease/agent.go:279-289 | a believer drops its belief and gets a release of its epoch; nobody else writes anything |
| MutableAgents.Agent.Status | lease/agent.go:299-310 | the state is shown only if certain and the deadline only while believing |
| Conduct.ReadAndAckCommute | lease/agent.go:148-184 | for any participant with a record in flight: reading it and then getting its acknowledgement leaves the same agent, in every field, as the other order |
| Conduct.SettledOnceKnown | lease/agent.go:151-184 | in runs of readers of the whole log, a record in flight whose offset is known has not been read yet: once acknowledged and read it is settled, in whichever order |
| Settlements.LogDecides | lease/agent.go:186-222 | in such runs, when a record in flight is settled, the belief becomes what the verdict of the whole log on it says: an accepted claim makes its offset the epoch and its send time plus TTL minus margin the deadline, an accepted renew moves the deadline of a believer, a rejected renew ends the belief, a rejected claim does not touch it |
| Conduct.WritesExactly | lease/agent.go:240-277 | a tick writes a renew exactly for a believer with a certain view and nothing in flight once the renew interval since its last claim or renew is over, and a claim exactly for anyone else whose wait is over and to whom the lease looks free |
| Conduct.RenewsArePaced | lease/agent.go:263-266 | in any run, a renew is sent no earlier than the renew interval after any earlier claim or renew of that participant, by its own clock |
| Conduct.ReadChecksTerm | lease/agent.go:138-144 | whoever still believes on a certain view after reading a record sees its own live term there; a record of somebody else ends a belief exactly if the view is certain and does not show that term |
| Conduct.GivesUpExactly | lease/agent.go:282-297 | a release is written exactly by a believer, names its epoch, and ends the belief for good; nothing else changes |
| Conduct.StartsClean | lease/agent.go:56-76 | a newcomer believes nothing, has nothing under way, stands at the start of the log and is certain exactly if that is offset 0 |
| Conduct.ReadsNeverFail | lease/agent.go:106-132 | in any run, the view of a participant is behind its read position, so reading any record never errs |
| Invariants.MarginSuffices | lease/agent.go:217-222 | within its deadline, on the slowest clock, a belief leaves room for the skew of two brokers before the term in the log can run out |
| LocalSteps.SettleKeeps | lease/agent.go:186-213 | settling the record in flight keeps the invariant: a new deadline rests on a record the whole log accepted |
| LocalSteps.TickKeeps | lease/agent.go:240-277 | a tick keeps the invariant: whatever it writes about a term, the log backs |
| LocalSteps.ReleaseKeeps | lease/agent.go:279-289 | giving up with nothing in flight keeps the invariant |
| Landings.LandsKeepsInv | lease/sim_test.go:135-150 | a record that lands, on time or late, given up or not, keeps the invariant of every participant |
| Theorems.RunsKeepInv | lease/sim_test.go:111-249 | every state of every run satisfies the invariant, for any number of participants: late joiners and holes with brokers that agree on the time, or any skew with readers of the whole log |
| Theorems.BeliefImpliesTruth | lease/agent.go:215-222 | whoever believes an epoch holds it in the fold of the whole log, read or unread, and will for every stamp the next record can carry; on perfect clocks the term in the log outlives the deadline |
| Theorems.MutualExclusion | lease/sim_test.go:152-160 | at no instant do two participants hold the lease, by belief or by published status: under the margin rule with any skew and drift for readers of the whole log, and with late joiners and holes under any drift of the clients |
| Theorems.EpochsFence | docs/protocol.md:58-60 | over a whole run the epochs of those who act never decrease, and no two participants act in the same epoch |
| Theorems.AnchorsAreHonest | lease/view.go:69-73 | in every log produced by participants who release only with nothing in flight, a claim or renew followed by a renew or release of its term was accepted |
| Theorems.ReadersOfRunsAgree | lease/sim_test.go:263-297 | every reader of a log that a run with exact brokers produced agrees with the whole log, from any offset and across any holes, clients drifting or not |
| Theorems.CertainViewsAgree | docs/protocol.md:128-131 | the view of a certain participant shows what the log up to its read position says |
| Theorems.QuietAgrees | lease/agent.go:249-257 | when quiet fires on a fetch that is recent enough, no term below the read position is live for any record still to be read or to land |
| Theorems.DeadlineRestsOnAnAcceptedRecord | lease/agent.go:148-222 | a deadline is the send time of one accepted record of the current epoch plus TTL minus margin, and a renew in flight is for the current epoch, so records given up on never count |
| Theorems.ReleaseComesLast | lease/candidate.go:420-440 | once a release is in the log, neither its writer nor its published status claims that term |
| Releases.TimelyReleaseFrees | lease/agent.go:279-289 | in any run, a release that a believer decided and that lands before its deadline would have passed is accepted, frees the lease for every later time, and a valid claim that lands next is accepted |
| Beliefs.BeliefsEndOnTime | lease/agent.go:138-144 | no record, acknowledgement or tick ends a belief before its deadline or moves the deadline back: the drops for a term ended in the log or a rejected renew never happen to a believer |
| Beliefs.ClaimsAreNotHopeless | lease/agent.go:232-269 | a claim by a participant that has read the whole log is accepted if it is the next record to land, whenever that is |
| Paces.QuietMeansSilence | lease/agent.go:78-119 | when quiet fires, no fetch failed and no record was read for a TTL and a margin before, in any run and environment |
| Paces.QuietFiresExactly | lease/agent.go:249-257 | in any run, quiet fires exactly for an uncertain, connected participant that has read up to the known end of the log, once a TTL and a margin have passed on its clock since it last joined, read a new record or fetched again after a failure |
| Paces.ConnectedIsLastFetch | lease/agent.go:78-104 | in any run, a participant counts as connected exactly if its last fetch succeeded |
| Paces.EndIsKept | lease/agent.go:93-104 | in any run, the known end of the log is at least every end a fetch reported, so quiet waits until all of it is read |
| Paces.EndWasTold | lease/agent.go:56-104 | and it is no more than that: it was told when joining or by some fetch |
| Paces.EstimateRunsOn | lease/agent.go:232-238 | in any run, the estimate of the broker's clock is the raw stamp of the last record read for the first time plus the time that has passed on the participant's clock since |
| Paces.RejectedClaimHoldsBack | lease/agent.go:200-204 | after a rejected claim the wait covers what is left of the term by the participant's own estimate, is at least a poll interval and at most a TTL, and no longer than that takes; belief and epoch stay |
| Paces.ClaimsHoldBack | lease/agent.go:172-204 | in any run, after a claim was rejected or given up its writer does not claim again for a poll interval, and is free to after a TTL |
| Paces.OneAtATime | docs/protocol.md:65 | in any run, a claim or renew that may still land is the one in flight, or was sent a delivery timeout ago or more |
| Margins.ThinMarginOverlaps | lease/sim_test.go:312-355 | below the margin there is a run, of readers of the whole log, in which two participants believe at once |
| Margins.FormulaIsEnough | docs/protocol.md:92-95 | twice the skew plus TTL times drift (and the lost part of a millisecond) covers the clocks |
| Margins.FreshEnough | lease/agent.go:249-257 | with clients that keep time, quiet is covered if and only if the last fetch is at most a margin old, plus what the encoding takes off the TTL |
| Margins.MarginIsExact | docs/protocol.md:82-101 | with clients that keep time, and readers of the whole log or else exact brokers, careful releases and recent fetches, all runs are exclusive if and only if the margin is at least twice the skew plus what the encoding takes off the TTL |
| Margins.MarginIsTight | docs/protocol.md:82-101 | with clients that drift, and the same readers, a margin that covers the clocks excludes two believers, and one that would not with a nanosecond added does not |
| StaleFetches.StaleQuietOverlaps | lease/agent.go:249-257 | on perfect clocks, for any settings, if the last fetch may be older than the margin (and what the encoding takes off the TTL) when quiet fires, a late joiner that is cut off can believe beside the true holder |
| Latecomers.LateJoinerOverlaps | lease/view.go:169-174 | for any settings, margin and drift, with any skew between brokers there is a run in which a late joiner believes beside the true holder |
| Counterexamples.RashReleaseOverlaps | lease/agent.go:279-289 | on perfect clocks, for any settings, a release decided with a renew in flight can anchor a rejected renew and let a late joiner believe beside the holder |
| Counterexamples.ExclusionIsExact | docs/protocol.md:62-131 | with clients that keep time, all runs are exclusive if and only if the margin covers skew and encoding and, besides, either every reader sees the whole log, or brokers agree on the time, releases wait for an empty flight and quiet for a recent fetch |
| Candidates.AcceptedSettingsFit | lease/candidate.go:71-85 | accepted settings leave room below the TTL if and only if the sum of margin and renew interval does not overflow |
| Candidates.AcceptsExactly | lease/candidate.go:61-98 | which settings are accepted, and what becomes of them: a fifth of the TTL as margin, a third as renew interval, a random holder where none is given, and nothing else changed |
| Candidates.OverflowSlipsThrough | lease/candidate.go:83-85 | settings that are accepted and leave no room |
| Candidates.AcceptedSettingsAreSafe | lease/candidate.go:61-98 | accepted settings meet the hypotheses of the theorems on perfect clocks, but for overflow, a margin below the lost part of a millisecond, rash releases and stale fetches |
| Candidates.Candidate.Status | lease/candidate.go:170-182 | holding exactly while the published deadline lies ahead at the time of the call, with its epoch and deadline |
| Candidates.Candidate.SetStatus | lease/candidate.go:184-200 | the snapshot is replaced, a signal is waiting exactly if one was or something changed, and a receiver that lags always has one waiting |
| Candidates.Publish | lease/candidate.go:442-444 | from then on holding is shown at any time exactly as long as the agent believes, with its epoch and deadline, and the lease shown is the state of a certain view |
| Candidates.StatusShows | lease/agent.go:299-310 | the status of an agent, by itself, says that: certainty, state if certain, and a deadline that lies ahead exactly while it believes |
| Candidates.PublishShows | lease/candidate.go:442-444 | in any run, right after publishing a participant reports holding if and only if it believes, in the same epoch and to the same deadline |
| Candidates.Shutdown | lease/candidate.go:420-427 | when there is a release to write, the agent no longer believes and the published status no longer holds, at any time |
| Heartbeats.StaleCounts | examples/heartbeat/main.go:262-264 | the stale count is the number of positions whose epoch is below that of an earlier beat, or below -1 |
| Heartbeats.SpansSummarize | examples/heartbeat/main.go:257-275 | one span for each epoch with beats, counting them, from the first to the last, named after the cluster of the first |
| Heartbeats.MeasuresAreMaxima | examples/heartbeat/main.go:280-287 | overlap and gap are the largest between neighbouring epochs, or zero |
| Heartbeats.OverlapIsExact | examples/heartbeat/main.go:280-287 | comparing neighbours only, the overlap is zero if and only if no beat of an epoch comes after a beat of a later one |
| Heartbeats.NoStaleNoOverlap | examples/heartbeat/main.go:253-287 | nothing stale means no overlap |
| Heartbeats.StaleAndOverlapAgree | examples/heartbeat/main.go:253-287 | nothing is stale if and only if nothing overlaps, no two beats of one instant stand in falling order of epoch, and no epoch is below -1 |
| Heartbeats.Summarize | examples/heartbeat/main.go:251-288 | the report holds the stale count, the spans in order of epoch, the overlap and the gap, and its overlap is zero exactly when no two epochs overlap |

## Left out

- Liveness (that somebody eventually acquires the lease): it depends on fairness, and an acknowledged record lost in a hole leaves a record in flight for good.
- Late readers and holes on brokers that disagree about the time: not a gap of the model but of the protocol (`Latecomers.LateJoinerOverlaps`), so no theorem promises anything there beyond `TailReaders.FreshReadersAgree`.
- System suspend, during which a monotonic clock may stop (`docs/protocol.md:198-202`); a clock here runs within its drift.
- Several leases on one partition, and deleting and recreating the topic.
- 64-bit offsets and times: integers are unbounded, except in `Records.DecodeValue` and `Candidates.WithDefaults`, where wrap-around matters. Go's saturation of time differences is not modelled; in particular the first renew check against an unset send time is plain subtraction.
- The JSON text of records (an object with its fields, or garbage), the record key and compaction: compaction appears as records a reader skips.
- The Kafka client: partition bounds, retries, error classification, the check for LogAppendTime, timeouts and produce callbacks. They appear as steps of the environment.
- That the loop of `lease/candidate.go` stops on an error of `record`: in no run does one arise (`Conduct.ReadsNeverFail`).
- Candidates.Candidate.SetStatus: the mutex and the channel are a critical section and a flag, because the calls are atomic in the model; readers between two calls see one snapshot.
- Sorting in `summarize` (`sort.Slice`) is an insertion sort, and the range over the map is an arbitrary choice of keys. The report's start time is passed through and not modelled.
- Logging, host names and random holder ids (unique holders are assumed); `lease/topic.go`, `lease/auth.go`, the scaler, `cmd/`, Helm charts and end-to-end scripts, and the beat and report loops of the heartbeat example.
- Margins.MarginIsTight: the missing nanosecond comes from clocks that count whole nanoseconds.
- Counterexamples.ExclusionIsExact: does not cover a belief that lasts a single nanosecond (margin one below the TTL), which is too short to be renewed, nor a TTL below a millisecond, with which no claim is ever accepted. For drifting clients the sufficient half is `Theorems.MutualExclusion`, and how recent a fetch must be (`QuietCovers`) is not shown to be exact there.
