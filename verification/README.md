# Training traffic fabric: verification model

The fabric decides which training traffic of a distributed job may use a link now. Jobs register with a contract, open steps and phases, and request traffic; the fabric admits, defers, rejects or throttles each intent, closes lower-priority flows to make room, protects checkpoint bursts, and fences every token of an earlier incarnation, epoch or topology generation. Around it stand two byte formats, a wire layer, and a coordinator that commits snapshots to a state file.

Every public call holds one mutex from start to finish, so a call is one atomic step, and a run is any finite sequence of calls. Each operation appears twice: as a function on values, the specification about which the laws are proved, and as a method of a class whose fields the method updates in place, as the program does. Each such method is proved to have exactly the reply and new state of its function. Loops over hash tables pick keys in an arbitrary order, so nothing proved depends on iteration order.

| layer | modules |
|---|---|
| bytes, checksums, text | `Bytes`, `Results`, `Utf8`, `Codec`, `Crc32c`, `Integrity` |
| wire | `Frames`, `Messages`, `Replay` |
| values and specification of the fabric | `Model`, `Policies`, `Order`, `Sums`, `Arbitration`, `Traffic`, `Authorities`, `Operations` |
| invariant, operation by operation | `Invariants`, `Accounting`, `Preservation`, `Steps`, `Requests`, `Bursts`, `Jobs` |
| runs and laws | `Runs`, `Laws`, `Safety`, `Rates`, `Fencing`, `Descent`, `Witnesses`, `Wraps` |
| the fabric in place | `LiveJobs`, `Fabrics` |
| snapshot | `Listing`, `Records`, `OpenSteps`, `Durable`, `Snapshot`, `SnapshotWriter`, `SnapshotReader`, `Restored`, `Storing`, `Limits`, `Restorable`, `ByteIdentity`, `Sizes` |
| state file and commit protocol | `StateFile`, `Durability`, `Coordinators`, `Crashes` |

`dafny verify dfyconfig.toml` checks the whole project.

## The invariant

`Invariants.JobOk` holds of every job in every reachable state. It says that redundant counters equal their sums over the live flows; that committed bytes are completed, cancelled or estimated by a live flow, and leave room below 2^64 for what live flows may still report; that every intent has one outcome and every admitted flow is live, completed, cancelled or lost to a restart; that live flows belong to active phases; that retained decisions and receipts are duplicate-free and the newest; and that steps, incarnations and generations only advance. `Runs.EveryRunIsOk` proves it over all runs, restarts included, and `Laws` unfolds it over runs.

The counters of groups are exact with one exception: registering a new group zeroes its counters, even when live flows name it. The invariant carries, as a fact about the past, whether that has happened since the job's last restart (`torn`); the rest of it holds regardless. `Safety.UndisturbedIsUntorn` says when it has not happened, `Safety.RegistrationAgreesIff` that the counters then stay right exactly when no live flow names the group.

Of callers one thing is asked besides the program's widths: no job is registered under incarnation 2^64 - 1, because nothing is left to mint after it (`Runs.NewJobMintsIff`).

Two conditions on contracts are explicit, because the program does not check them. `Bounded`, for the byte laws and balanced reports: the step limit plus the maximum number of flows times the intent limit is below 2^64; `Wraps.CountersWrap` is a run that breaks a report without it. `Wide`, for one equation only: with at most 18446 flows the step's total rate equals the sum over its flows whatever is published; over runs that publish evidence under strict policies it does for every contract (`Rates.TotalRateIsExact`). It is never more than that sum.

## Crashes

`Durability` models the coordinator and its disk: requests are dispatched, the state is written, renamed over the file and acknowledged, and any step may fail or be cut off by a crash. Every commit is possible whose numbers fit, whether or not its file can be read back. After any history the file covers everything acknowledged (`Durability.EveryHistoryIsSafe`), and it boots if and only if evidence names registered groups, no list is longer than the reader allows, no counter of bytes has wrapped, and its epoch is not the last (`Durability.ImageBootsIff`). A coordinator whose file does not boot stays down (`Durability.StaysDown`). `Crashes` gives histories of the program's own requests that get there.

## Where the code does less than it seems to promise

Each of these is a theorem with its exact condition.

- Text validation refuses overlong and surrogate forms except that a two-byte lead C1 passes (`Utf8.AcceptedIffWellFormed`, `Utf8.C1IsAccepted`).
- Registering a new group zeroes its counters; exact counters stay exact if and only if no live flow names the group already (`Safety.RegistrationAgreesIff`). Evidence may name a group that is not registered, and `Witnesses.RegistrationBreaks` is a run that publishes such evidence, admits a flow on it and then registers the group.
- New evidence keeps groups within capacity if and only if the flows that survive it fit (`Jobs.RepublishCapacityIff`). Whoever may publish can overfill a group if and only if a flow with a rate survives publication (`Safety.OverfillIff`), which no flow does under a strict policy; `Witnesses.PublicationOverfills` is a run in which one does.
- A new policy, strict or not, keeps a burst's group isolated if and only if it tolerates the flows it leaves there (`Safety.PolicyIsolationIff`); `Witnesses.PolicyUnisolates` is a run in which it does not.
- Evidence for an unregistered group is accepted, committed and acknowledged in a file that no start can read back (`Limits.EvidenceReadIff`, `Crashes.UnregisteredBreaks`); runs that publish evidence only for registered groups never get there (`Safety.RunKeepsEvidence`).
- A client may rebase onto epoch 2^64 - 1. That is committed and acknowledged, and the coordinator never starts again, because the epoch after it is zero in 64 bits (`Durability.ImageBootsIff`, `Crashes.LastEpochBreaks`).
- An error of the check that the state file exists is taken for absence: the coordinator begins anew, and its baseline commit replaces the file (`Coordinators.OverlookedIsReplaced`).
- Under a contract that is not `Bounded` the 64-bit byte counters of a step can wrap, and its report does not balance (`Wraps.CountersWrap`); a snapshot that retains such a report cannot be read back (`Limits.ReportReadIff`).
- A refused epoch rebase leaves every job alone if and only if no job was behind; with mixed epochs some walk of the job table rebases a job and then refuses (`Laws.RefusedRebaseIff`, `Laws.PartialRebase`, `Witnesses.RebaseSplits`). A coordinator keeps all epochs equal, so there it is all or nothing (`Durability.RebaseKeepsUniform`).
- Retiring the current incarnation survives a restart if and only if the retired list is configured to hold anything (`Fencing.RetirementSurvives`).
- A completion is answered with its receipt if and only if receipts are retained at all; otherwise the flow is closed and the caller sees an internal error (`Laws.CompletionReceiptIff`).
- An unknown ceiling of zero switches off the class ceiling of an Unknown phase as well: some run admits an intent above its class ceiling if and only if the unknown ceiling is zero and the class ceiling is below the largest rate (`Witnesses.UnknownCeilingIff`).
- A token that otherwise fits a restarted job is refused forever if and only if its epoch is at most the stored one (`Durability.CrashFencesIff`). A rebase whose commit did not reach the disk lets the epoch in memory run ahead, and the next life then accepts a token of the dead one (`Crashes.UncommittedRebaseBreaks`); otherwise every token of the dead life is refused (`Durability.DeadLifeIsFenced`).
- A restore is invisible in the next snapshot's bytes if and only if no bytes are in flight in any phase, so always when no flow is live (`ByteIdentity.RunIsInvisibleIff`).
- Bytes in flight are dropped from an open step by its own snapshot, not booked as cancelled; the booking happens only for bytes a reader finds unaccounted for (`OpenSteps.OpenStepRoundTrip`, `Restored.OpenStepRead`).
- The writer accepts more than the reader: 64 fence events, 4096 phases, 4096 retired incarnations and links to registered groups are exact limits of what can be read back (`Limits.StateReadIff`).

## Model

| member | source | states |
|---|---|---|
| `Utf8.AcceptedIffWellFormed` | src/util.cpp:48-101 | acceptance by the validation loop is well-formedness in the sense of section 4 of RFC 3629 exactly on the texts without the octet C1, for every byte string |
| `Utf8.C1IsAccepted` | src/util.cpp:60-65 | the concrete input on which the two differ: the overlong pair C1 80 passes |
| `Utf8.IsValidUtf8` | src/util.cpp:48-101 | the loop over the text accepts exactly the accepted texts |
| `Utf8.ReadSequence` | src/util.cpp:54-98 | one pass, with its running code point, finds exactly the length of a leading accepted sequence or refuses |
| `Crc32c.BuildTable` | src/util.cpp:15-31 | the generated table holds, for each index, eight shift-and-reduce steps of that byte |
| `Crc32c.ExtendWithTable` | src/util.cpp:33-42 | the table-driven byte loop computes the bit-by-bit register |
| `Crc32c.CrcIsDivision` | src/util.cpp:15-42 | the checksum of every input is the remainder defined in section 12.1 of RFC 3720: division of the reflected message bits by the Castagnoli polynomial |
| `Crc32c.CrcExtends` | src/util.cpp:33-42 | checksumming may stop and resume anywhere: the checksum of a concatenation extends the checksum of its first part |
| `Crc32c.BurstDetected` | src/util.cpp:15-42 | two inputs of equal length that differ only inside one run of at most four bytes never share a checksum |
| `Integrity.ChangedBody` | src/wire.cpp:346-350 | a body followed by its checksum never survives a change of one byte in either |
| `Codec.LittleRoundTrip` | src/codec.cpp:35-59 | little-endian bytes of every width read back as the number they were made from |
| `Codec.LittleCanonical` | src/codec.cpp:95-126 | every byte string is the little-endian form of the number it reads as, so no two encodings of a number exist |
| `Codec.ByteWriter.PutBytes` | src/codec.cpp:11-26 | a write appends all of its bytes or none; the first overflow is remembered and stops every later write |
| `Codec.ByteReader.Unsigned` | src/codec.cpp:86-126 | the shift-and-add loop reads the number at the cursor and advances past it, or refuses without moving the value |
| `Codec.ByteReader.String` | src/codec.cpp:145-159 | a string is read within 256 bytes, as accepted UTF-8, without zero bytes, each refusal with its own error |
| `Frames.Encode` | src/wire.cpp:308-332 | the encoder's writer, limited to the advertised size, never overflows and produces exactly the frame layout, or refuses the payload |
| `Frames.EncodeBound` | src/wire.cpp:304-332 | encoding succeeds exactly on payloads of at most 64 KiB and writes exactly the advertised number of bytes |
| `Frames.DecodeEncoded` | src/wire.cpp:308-387 | decoding inverts encoding for every frame whose fields fit |
| `Frames.EncodeDecoded` | src/wire.cpp:358-387 | every accepted byte string is the encoding of the frame it decodes to |
| `Frames.SelfDelimiting` | src/wire.cpp:358-369 | every strict prefix of a frame is refused as truncated and every extension as trailing garbage |
| `Frames.CorruptionRefused` | src/wire.cpp:334-387 | every change of a single byte of an accepted frame is refused |
| `Frames.ReadFrames` | src/coordinator.cpp:230-263 | the header-then-tail read loop splits a byte stream as specified, stopping at the first refused frame |
| `Frames.StreamRoundTrip` | src/coordinator.cpp:230-263 | the read loop over the concatenation of any list of encoded frames returns exactly that list |
| `Messages.EncodeDecoded` | src/wire.cpp:619-669 | canonical: for payloads up to 64 KiB, whatever decoding accepts re-encodes to the same bytes, with strictly ascending tags |
| `Messages.DecodeEncoded` | src/wire.cpp:571-669 | an encoded message decodes to its fields in ascending tag order if and only if every Bool value is 0 or 1; the 16-bit length cast never truncates |
| `Messages.OrderIndependent` | src/wire.cpp:571-617 | the encoding depends on which fields were set, not on the order they were set in |
| `Messages.Message.SetUnsigned` | src/wire.cpp:393-428 | the typed setters append one field with the little-endian value |
| `Messages.Message.Encode` | src/wire.cpp:571-617 | the in-place sort and the write loop produce the specified encoding, error for error |
| `Messages.Decode` | src/wire.cpp:619-669 | the read loop with its previous tag accepts, refuses and yields what the specification says |
| `Replay.ReplayWindow.Accept` | src/wire.cpp:1493-1517 | a frame is accepted exactly when the accepted history does not refuse it; a refusal changes only its counter, and one of the two counters advances |
| `Replay.TraceStaysFresh` | src/wire.cpp:1493-1517 | over any trace accepted sequences strictly increase and any window plus one consecutive accepted frames carry distinct non-zero nonces |
| `Replay.Run` | src/wire.cpp:1493-1517 | over a whole trace the accepted frames are those of the history rule, and accepted plus rejected is the number of calls |
| `Policies.PolicyErrorIff` | src/model.cpp:476-531 | the sequence of checks passes exactly on the policies with unique priorities and classes, every phase served, Unknown mapped to best effort, and limits in range |
| `Policies.ValidatePolicy` | src/model.cpp:476-531 | the validation loops report the first failing check in the program's order |
| `Policies.PhasesAreServed` | src/model.cpp:462-474 | under a valid policy every phase class has a configured service class, and Unknown has best effort |
| `Policies.DefaultPolicyIsValid` | src/model.cpp:533-590 | the built-in policy is valid under exactly the non-zero generations, and its best-effort class is the least urgent |
| `Policies.LinksErrorIff` | src/model.cpp:396-409 | link evidence passes exactly when every link is valid and groups strictly ascend |
| `Policies.ValidateLinks` | src/model.cpp:396-409 | the loop reports the first failing link check |
| `Policies.LowerBound` | src/model.cpp:375-384 | the binary search finds the evidence of a group exactly when there is some |
| `Policies.LinkIsUnique` | src/model.cpp:375-384 | in ascending evidence no group has two links |
| `Arbitration.RankedUnique` | src/fabric_core.cpp:380-393 | the sorted order by priority, then intent, is determined by its members, whatever order the flow table is walked in |
| `Arbitration.Rank` | src/fabric_core.cpp:371-393 | collecting the candidates in any order and sorting them gives the one ranking of the eligible flows |
| `Arbitration.VictimsShortestPrefix` | src/fabric_core.cpp:394-403 | the displaced flows are the shortest prefix of the ranking that meets the need, or all of it |
| `Arbitration.Displace` | src/fabric_core.cpp:394-403 | the accumulating loop takes exactly those flows, and the 64-bit sum does not wrap |
| `Arbitration.ArbitrateCapacity` | src/fabric_core.cpp:359-411 | the arbitration in 64-bit arithmetic equals its specification, independently of the walk, and nothing wraps while no flow and no request exceeds the largest rate |
| `Arbitration.GrantIsMinimal` | src/fabric_core.cpp:359-411 | a grant displaces only eligible flows, enough of them, and no proper prefix of the victims would have been enough |
| `Arbitration.RefusalIsForced` | src/fabric_core.cpp:371-410 | with usable evidence a request is refused if and only if the free capacity and the rates of all displaceable flows together are too little |
| `Arbitration.FreedIsSum` | src/fabric_core.cpp:394-403 | what a walk over victims frees is the sum of their rates |
| `Arbitration.WorstPriorityDisplacesNothing` | src/fabric_core.cpp:374-386 | a request no more urgent than any live flow displaces nothing |
| `Authorities.AcceptsIff` | src/fabric_core.cpp:222-317 | the cascade of checks accepts a token exactly when it carries the job's generation, epoch, incarnation, boot, contract and evidence generations, no newer policy, and the open step and active phase it claims |
| `Preservation.CloseKeepsJob` | src/fabric_core.cpp:132-176 | closing any live flow keeps the whole job invariant: counters, byte balance, retention, lifecycle |
| `Preservation.CancelEachKeeps` | src/fabric_core.cpp:178-199 | cancelling any list of flows keeps the invariant and removes exactly those flows |
| `Preservation.ConcludeKeeps` | src/fabric_traffic.cpp:89-148 | counting and retaining a deferral or rejection keeps the invariant |
| `Preservation.AdmitKeeps` | src/fabric_traffic.cpp:246-349 | charging an admitted flow to its group, step and phase keeps the invariant |
| `Preservation.ThrottleKeeps` | src/fabric_traffic.cpp:520-545 | reducing a live flow's grant in a burst keeps the invariant and touches only that flow |
| `Accounting.PushKeepsDecisions` | src/fabric_core.cpp:83-94 | recording a decision keeps exactly the newest ones, keys equal to the duplicate-free order |
| `Accounting.RejectionsWrap` | src/fabric_traffic.cpp:140-148 | a 32-bit phase counter that wraps still agrees with the step's total modulo its width |
| `Steps.InvalidateKeeps` | src/fabric_core.cpp:518-563 | invalidation cancels exactly the flows the changed generation invalidates and keeps the invariant |
| `Steps.FenceStepKeeps` | src/fabric_core.cpp:464-492 | fencing an open step leaves the job without one, keeps the invariant, and under a Bounded contract its report is balanced |
| `Steps.ClosePhaseKeeps` | src/fabric_core.cpp:496-513 | closing a phase first closes its flows, so no live flow ever belongs to a closed phase |
| `Steps.OpenPhaseKeeps` | src/fabric_core.cpp:743-772 | opening a phase keeps the invariant |
| `Steps.CloseStepKeeps` | src/fabric_core.cpp:800-830 | closing a drained step keeps the invariant and appends a report that is balanced under a Bounded contract |
| `Steps.RegisteringZeroes` | src/fabric_core.cpp:623-646 | registering a group zeroes its counters: they still agree with the flows if and only if no live flow names the group |
| `Requests.NeverInternal` | src/fabric_traffic.cpp:89-121 | the undefined-class exit of a request is unreachable under a valid policy |
| `Requests.GrantFits` | src/fabric_traffic.cpp:204-265 | once the victims are closed, the grant fits the group's available capacity, or what was charged before if that was more |
| `Requests.RoomFits` | src/fabric_traffic.cpp:204-265 | once the victims are closed, what the group is charged with the grant is within the largest rate whatever its counter said, and within its capacity or the earlier charge while the counters are exact |
| `Requests.DecideKeeps` | src/fabric_traffic.cpp:38-349 | whatever is decided, with its preemptions, the invariant survives |
| `Bursts.OpenBurstKeeps` | src/fabric_traffic.cpp:493-555 | opening a burst keeps the invariant, leaves only tolerated flows on its group, and charges no group more |
| `Bursts.CompleteKeeps` | src/fabric_traffic.cpp:351-390 | completing or cancelling a flow keeps the invariant |
| `Bursts.RevalidateKeeps` | src/fabric_traffic.cpp:392-467 | revalidating, with its fences, keeps the invariant |
| `Bursts.ReplaceKeeps` | src/fabric_recovery.cpp:17-90 | retiring the current incarnation for its replacement keeps the invariant |
| `Jobs.PerformKept` | src/fabric_api.cpp:92-171 | every operation keeps the job's invariant and moves its generations only forward; the group counters stay exact unless it registers a group that a live flow already names |
| `Jobs.PerformKeepsCapacity` | src/fabric_core.cpp:359-411 | while the group counters are exact no operation takes a group over its capacity, republication under a strict policy included |
| `Jobs.PerformKeepsIsolation` | src/fabric_traffic.cpp:149-163 | no operation lets an untolerated flow share a group with an active burst |
| `Jobs.RepublishCapacityIff` | src/fabric_core.cpp:527-538 | after new evidence every group whose counters are exact is within capacity if and only if the flows that survive the invalidation fit it; under a strict policy none survives |
| `Jobs.PerformKeepsEvidence` | src/fabric_core.cpp:648-671 | every operation keeps evidence naming only registered groups when what is published does |
| `Runs.AfterKeeps` | src/fabric_api.cpp:42-171 | each call, of numbers of the program's widths and below the last incarnation, is one atomic step that keeps the invariant of every job, the policy valid and the identifiers unused |
| `Runs.EveryRunIsOk` | src/state.hpp:138-172 | from a fresh fabric every finite sequence of such calls and restarts keeps the invariant |
| `Runs.ProgramStarts` | src/state.hpp:138-172 | the program's own empty state with its built-in policy is such a start |
| `Runs.NewJobMintsIff` | src/fabric_core.cpp:571-618 | a newly registered job can mint further incarnations if and only if it was not given the last one |
| `Safety.RunKeepsCapacity` | src/fabric_core.cpp:359-411 | over every run no group with evidence is ever charged more than its capacity less its reserve, provided evidence is published under strict policies, in every job whose counters are exact |
| `Safety.UndisturbedIsUntorn` | src/fabric_core.cpp:623-646 | counters stay exact over every run in which no group is registered while a live flow of its job names it |
| `Safety.RunKeepsIsolation` | src/fabric_traffic.cpp:493-552 | over every run of strict policies, a group with an active burst carries only checkpoint, barrier-critical or ceiling-bound flows |
| `Safety.RegistrationAgreesIff` | src/fabric_core.cpp:623-646 | after any run, an accepted registration leaves exact counters exact if and only if no live flow names the new group |
| `Safety.OverfillIff` | src/fabric_core.cpp:648-671 | after any run, a holder of authority can publish evidence that leaves a group over capacity if and only if a flow with a rate survives publication |
| `Safety.PolicyIsolationIff` | src/fabric_core.cpp:673-686 | after any run, an accepted policy, strict or not, keeps bursts isolated if and only if it tolerates the flows that survive it |
| `Safety.RunKeepsEvidence` | src/fabric_core.cpp:648-671 | over every run that publishes evidence only for registered groups, evidence names only registered groups |
| `Witnesses.RegistrationBreaks` | src/fabric_core.cpp:623-646 | a run under the built-in policy after which an accepted registration leaves the counters wrong |
| `Witnesses.PublicationOverfills` | src/fabric_core.cpp:648-671 | a run under the built-in policy without strict invalidation after which an accepted publication leaves a group over capacity |
| `Witnesses.PolicyUnisolates` | src/fabric_core.cpp:518-563 | a run that throttles a best-effort flow in a burst and then accepts a policy, not strict, of the same priorities and a lower isolation ceiling, after which the flow is one the policy does not tolerate there |
| `Witnesses.RebaseSplits` | src/fabric_api.cpp:73-90 | a run of two registrations at epochs one and five, after which a rebase to three is refused and leaves the first job at epoch three |
| `Wraps.CountersWrap` | src/fabric_core.cpp:139-160 | a run under a contract that is accepted but not Bounded, of seventeen flows and sixteen completions, whose step ends with a report that does not balance |
| `Witnesses.UnknownCeilingIff` | src/fabric_traffic.cpp:165-186 | some run admits an intent of an Unknown phase above its class ceiling if and only if the unknown ceiling is zero and the class ceiling is below the largest rate |
| `Laws.EveryJobIsOk` | src/state.hpp:60-135 | after every run every job satisfies the invariant the next laws unfold |
| `Laws.CountersAgree` | src/fabric_core.cpp:106-130 | after any run the active and per-phase counts equal the counts over the live flows; group rate and flow counters equal their sums unless, in this life, a group was registered that a live flow named; the step's total rate is never more than its sum, and equals it when the flows are few enough |
| `Rates.TotalRateIsExact` | src/fabric_core.cpp:132-176 | over every run that publishes evidence under strict policies the step's total rate equals the sum over its live flows for every contract, because the links of the evidence bound it below 2^64 |
| `Laws.BytesBalance` | src/fabric_core.cpp:132-176 | after any run, under a Bounded contract, committed bytes are completed plus cancelled plus the live estimates, per step and per phase, and stay within the step limit plus the reserve of the flows still allowed, below 2^64 |
| `Laws.OutcomesBalance` | src/fabric_traffic.cpp:260-273 | after any run intents seen are admitted plus deferred plus rejected plus throttled; admitted are completed plus cancelled plus live plus lost to a restart; totals are sums over phases; no live flow in a closed phase |
| `Laws.OnlyRestartsLoseFlows` | src/fabric_state.cpp:259-316 | no operation increases the number of lost flows: admitted equals completed plus cancelled plus live between restarts |
| `Laws.ReportsBalance` | src/fabric_core.cpp:464-492 | every report of a step end or a fence is balanced, under a Bounded contract |
| `Laws.OnlyAdmissionCharges` | src/fabric_traffic.cpp:188-272 | a decision other than admission changes no flow, no charge, no committed byte and no receipt |
| `Laws.UnknownIsConservative` | src/fabric_traffic.cpp:125-205 | after any run, a reply that admits an intent of an Unknown phase is best effort, not isolated, claims no class, changes no other flow, and stays under a non-zero unknown ceiling and then under the class ceiling too |
| `Laws.FlowOf` | src/fabric_core.cpp:774-798 | after any run a live flow carries an issued id, belongs to an active phase, has a class the current policy configures, and in an Unknown phase is best effort and not isolated |
| `Laws.CompletionCredits` | src/fabric_traffic.cpp:351-390 | a completion replaces the estimate by exactly the reported bytes, releases exactly the flow's rate while the counters are exact, and removes only that flow |
| `Laws.CompletionReceiptIff` | src/fabric_traffic.cpp:379-390 | a completion is answered with its receipt if and only if receipts are retained at all |
| `Laws.RevalidationIsHonest` | src/fabric_traffic.cpp:392-467 | a decision reported still valid belongs to a live flow of the open step and states exactly what is charged |
| `Laws.NewestDecisionsRetained` | src/fabric_core.cpp:83-94 | after any run the retained decisions are exactly the newest ones of this life, as many as the cap, in issue order without duplicates |
| `Laws.LifeBegins` | src/fabric_core.cpp:83-94 | a life begins with the first intent at registration and again at each restart, and nothing else moves its beginning |
| `Laws.RebaseSucceedsIff` | src/fabric_api.cpp:73-90 | in whatever order the job table is walked, a rebase succeeds if and only if every job is behind the epoch, and then all carry it |
| `Laws.PartialRebase` | src/fabric_api.cpp:80-86 | over any job table of mixed epochs some walk changes a job and is then refused |
| `Laws.RefusedRebaseIff` | src/fabric_api.cpp:80-86 | a refused rebase leaves every job as it was, for every walk, if and only if no job was behind |
| `Descent.PerformDescends` | src/fabric_traffic.cpp:520-545 | through any operation a live flow keeps its class, group and phase and gains no rate; every other live flow has a fresh identifier |
| `Descent.RunDescends` | src/fabric_core.cpp:132-176 | over any run a flow live before and after is the same flow at no higher rate, and a closed or refused intent never becomes live |
| `Fencing.RunIsLater` | src/fabric_core.cpp:222-317 | over any run, restarts included, incarnation, epoch, evidence generation, highest step and retirement of every job never go back |
| `Fencing.SupersededForever` | src/fabric_core.cpp:222-317 | a token with an older incarnation, epoch or evidence generation is refused by every operation after every continuation |
| `Fencing.OverForever` | src/fabric_core.cpp:707-741 | once a step is over, no step-scoped operation accepts its tokens and no identifier at or below it opens again, by a replacement either |
| `Fencing.ReplacementSupersedes` | src/fabric_recovery.cpp:17-90 | an admitted replacement supersedes every token of the incarnation it replaces and ends its step |
| `Fencing.RetirementSurvives` | src/fabric_recovery.cpp:93-115 | a retired incarnation is refused at once, and after a restart if and only if the retired list has room for it |
| `LiveJobs.LiveJob.AcquireUtilization` | src/fabric_core.cpp:106-109 | adds the flow's rate and count to its group's counters in place, in 64- and 32-bit arithmetic |
| `LiveJobs.LiveJob.CloseFlow` | src/fabric_core.cpp:132-176 | releases, settles, erases and records the receipt in place, as the specification of closing says |
| `LiveJobs.LiveJob.CancelFlows` | src/fabric_core.cpp:178-199 | the loop over victims is the specified cancellation of the list |
| `LiveJobs.LiveJob.InvalidateForChange` | src/fabric_core.cpp:518-563 | collecting and cancelling the invalidated flows in place is the specified invalidation |
| `LiveJobs.LiveJob.ResolveAuthority` | src/fabric_core.cpp:222-317 | the early-return cascade reports the specified verdict and the fence it records |
| `LiveJobs.LiveJob.FenceOpenStep` | src/fabric_core.cpp:464-492 | cancels, closes, reports and clears the step in place, as specified |
| `LiveJobs.LiveJob.RequestTraffic` | src/fabric_traffic.cpp:38-349 | the in-place request, with its preemption loop, has exactly the specified reply and new state |
| `LiveJobs.LiveJob.CompleteFlow` | src/fabric_traffic.cpp:351-390 | the in-place completion has exactly the specified reply and new state |
| `LiveJobs.LiveJob.RevalidateDecision` | src/fabric_traffic.cpp:392-467 | the in-place revalidation has exactly the specified reply and new state |
| `LiveJobs.LiveJob.BeginBurst` | src/fabric_traffic.cpp:469-555 | the in-place burst, with its loop over the group's flows, has exactly the specified reply and new state |
| `LiveJobs.LiveJob.EndBurst` | src/fabric_traffic.cpp:557-574 | the in-place end of a burst has exactly the specified reply and new state |
| `LiveJobs.LiveJob.EvaluatePacing` | src/fabric_traffic.cpp:576-650 | refuses an impossible progress, records a fence on a stale token, and otherwise leaves the job alone, as specified |
| `LiveJobs.LiveJob.RegisterGroup` | src/fabric_core.cpp:623-646 | refuses a stale token, an invalid group, a known identifier or one group too many; otherwise adds the group and zeroes its counters, in place |
| `LiveJobs.LiveJob.Publish` | src/fabric_core.cpp:648-671 | refuses a stale token or invalid links; otherwise mints a generation, cancels the flows it invalidates and stores the evidence, in place |
| `LiveJobs.LiveJob.RetireJob` | src/fabric_core.cpp:688-702 | fences the open step and marks the job retired, or refuses and records a fence, in place |
| `LiveJobs.LiveJob.BeginStep` | src/fabric_core.cpp:707-741 | opens an empty step above the highest identifier so far when none is open, or refuses with the program's error, in place |
| `LiveJobs.LiveJob.BeginPhase` | src/fabric_core.cpp:743-772 | allocates and opens a phase of a registered group with empty accounting, or refuses with the program's error, in place |
| `LiveJobs.LiveJob.EndPhase` | src/fabric_core.cpp:774-798 | cancels the phase's flows and closes it, or refuses a phase that is unknown or closed, in place |
| `LiveJobs.LiveJob.EndStep` | src/fabric_core.cpp:800-830 | cancels what is live, closes every phase, reports, appends to the bounded history and clears the step, in place |
| `LiveJobs.LiveJob.AdmitReplacement` | src/fabric_recovery.cpp:17-90 | makes the seven checks in order, then fences the open step, retires the current incarnation into the trimmed list and mints the next one, in place |
| `LiveJobs.LiveJob.RetireIncarnation` | src/fabric_recovery.cpp:93-115 | fences the open step and retires the current incarnation without replacing it, or refuses, in place |
| `LiveJobs.LiveJob.Execute` | src/fabric_api.cpp:92-171 | every operation on a job, run in place, has the reply and new state its specification computes |
| `Fabrics.Fabric.Register` | src/fabric_core.cpp:571-618 | registers a job in place as specified, reserving its identifier even when the contract is then refused |
| `Fabrics.Fabric.SetPolicy` | src/fabric_core.cpp:673-686 | validates, stores and invalidates job after job, in any order, as specified |
| `Fabrics.Fabric.RebaseEpoch` | src/fabric_api.cpp:73-90 | the loop over the job table, in any order, is the specified rebase along some walk of every job |
| `Fabrics.Fabric.OnJob` | src/fabric_api.cpp:92-171 | ticks the clock and runs the operation on its job alone, as specified |
| `Records.PolicyRoundTrip` | src/fabric_state.cpp:464-523 | a written valid policy reads back as itself |
| `Records.ReportRoundTrip` | src/fabric_state.cpp:394-462 | a written settled report reads back as itself |
| `OpenSteps.OpenStepRoundTrip` | src/fabric_state.cpp:259-392 | a written open step reads back as its durable form and needs no reconciling |
| `Snapshot.JobRoundTrip` | src/fabric_state.cpp:525-731 | a written job reads back as its durable projection |
| `Snapshot.SnapshotRoundTrip` | src/fabric_state.cpp:735-814 | for every state that fits, restoring its snapshot succeeds and equals the durable projection: no flows, decisions, receipts or utilisation, and a balanced open step |
| `Durable.DurableTwice` | src/fabric_state.cpp:261-316 | the durable projection is a projection |
| `Durable.DurableKeeps` | src/fabric_state.cpp:592-731 | the projection of a job keeps the invariant, with its live flows counted as lost |
| `Restorable.EveryRunIsRestorable` | src/fabric_state.cpp:735-814 | whatever the fabric has done since it was started, its snapshot is restored if and only if evidence names registered groups, no list is longer than the reader allows and no counter of bytes has wrapped; what is restored is the durable projection of its state |
| `Restorable.LimitedIsReadable` | src/fabric_state.cpp:735-814 | under caps the reader allows and Bounded contracts, all of which can be checked when the fabric is configured and jobs register, a snapshot reads back if and only if evidence names registered groups |
| `Restorable.RestoreIsFixed` | src/fabric_state.cpp:735-814 | after one restore, a snapshot and a restore change nothing more, in state or in bytes |
| `ByteIdentity.RestoreIsInvisibleIff` | src/fabric_state.cpp:261-392 | a restore leaves the next snapshot's bytes as they were if and only if no phase of an open step has committed bytes it has not completed |
| `ByteIdentity.RunIsInvisibleIff` | src/fabric_state.cpp:261-392 | after any run whose snapshot can be read back, under Bounded contracts, a restore leaves the next snapshot's bytes as they were if and only if no bytes are in flight in any phase; in particular when no flow is live |
| `Storing.PerformStores` | src/fabric_state.cpp:394-462 | every operation keeps the reports and texts of a job in the range a snapshot can carry |
| `Limits.FencesReadIff` | src/fabric_state.cpp:151-195 | a written fence log reads back if and only if it holds at most 64 events |
| `Limits.RetirementsReadIff` | src/fabric_state.cpp:592-731 | a written list of retired incarnations reads back if and only if it holds at most 4096 |
| `Limits.StepReadIff` | src/fabric_state.cpp:318-392 | a written open step reads back if and only if it holds at most 4096 phases and 64 fences and no phase has completed more bytes than it committed |
| `Limits.EvidenceReadIff` | src/fabric_state.cpp:592-731 | written evidence reads back if and only if every link names a registered group; otherwise the state is corrupt |
| `Limits.ReportReadIff` | src/fabric_state.cpp:394-462 | a written report reads back if and only if it is settled, within the limits and no phase in it has completed more bytes than it committed |
| `Limits.JobReadIff` | src/fabric_state.cpp:525-731 | a written job reads back, as its durable projection, if and only if its evidence names registered groups, no list in it is too long and no counter of bytes has wrapped |
| `Limits.StateReadIff` | src/fabric_state.cpp:735-814 | a written state is restored if and only if every job in it reads back |
| `Limits.LoneJobIsCorrupt` | src/fabric_state.cpp:592-731 | the snapshot of a job with evidence for a group that is not registered is refused as corrupt |
| `Restored.AcceptedIsSound` | src/fabric_state.cpp:766-814 | any byte string that is accepted, whoever wrote it, restores a valid policy, valid contracts, strictly ordered tables, links within registered groups, no live flow, zero utilisation and a balanced open step |
| `Restored.OpenStepRead` | src/fabric_state.cpp:318-392 | any accepted open step is sound and, after reconciliation, balanced in 64-bit arithmetic |
| `Restored.JobRead` | src/fabric_state.cpp:592-731 | any accepted job is sound |
| `SnapshotWriter.SerializeState` | src/fabric_state.cpp:735-764 | for every state whose numbers fit their fields, readable back or not, the writer's nested loops over sorted tables produce exactly the snapshot's bytes, or refuse beyond 8 MiB |
| `SnapshotWriter.PutOpenStep` | src/fabric_state.cpp:261-316 | the open step is written with its volatile commitment released |
| `Limits.StateWrittenIsHeld` | src/fabric_state.cpp:735-764 | whatever state is reached can be written, once its numbers fit |
| `SnapshotReader.DeserializeState` | src/fabric_state.cpp:766-814 | the reader's cursor and counted loops accept, refuse and yield exactly what the specification says of any bytes |
| `SnapshotReader.TakeOpenStep` | src/fabric_state.cpp:318-392 | the open step is read entry by entry, checked in order and reconciled, as specified |
| `SnapshotReader.TakeJob` | src/fabric_state.cpp:592-731 | a job is read part by part, each check where the program makes it |
| `StateFile.Encode` | src/persistence.cpp:96-119 | the writer produces exactly the file layout or refuses the payload |
| `StateFile.Decode` | src/persistence.cpp:121-171 | the cursor over the file makes the specified checks in order |
| `StateFile.DecodeEncodedFile` | src/persistence.cpp:96-171 | decoding inverts encoding under any accepted maximum |
| `StateFile.CorruptFileRefused` | src/persistence.cpp:121-171 | every change of a single byte of an accepted file is refused |
| `StateFile.TornFileRefused` | src/persistence.cpp:121-171 | a file cut short anywhere is refused |
| `Coordinators.StateStore.Commit` | src/persistence.cpp:193-218 | whatever fails, the file in place is the old one or the whole new one; success means the new one and its sequence |
| `Coordinators.StateStore.Load` | src/persistence.cpp:220-246 | a file that is absent or cannot be looked up loads as absent; one that cannot be read is an error; otherwise the result is exactly what decoding the file says |
| `Coordinators.CommitRunOutcome` | src/coordinator.cpp:119-148 | where one commit leaves epoch, sequences, file, acknowledgement and degradation, for every fault, the end of the sequence numbers included |
| `Coordinators.Coordinator.CommitState` | src/coordinator.cpp:119-148 | snapshot, write, rename, acknowledge, run in place, refine the protocol's events for every fault, and success is told exactly |
| `Coordinators.Coordinator.Start` | src/coordinator.cpp:1257-1300 | start-up with its baseline commit: it leaves the disk and the coordinator where the protocol's first commit of a new life does if the file is absent, is overlooked or boots, for every fault of that commit; otherwise it fails and leaves the file alone |
| `Coordinators.Coordinator.Recover` | src/coordinator.cpp:1257-1284 | restores and rebases the stored state onto the stored epoch plus one in 64 bits, or begins at epoch one |
| `Coordinators.OverlookedIsReplaced` | src/persistence.cpp:220-226 | when the check that the file exists fails, the baseline commit puts the empty state in place of whatever the disk holds |
| `Durability.RebaseKeepsUniform` | src/coordinator.cpp:640-659 | over uniform epochs a rebase moves every job or none |
| `Durability.AdvanceKeeps` | src/coordinator.cpp:119-148 | every event of the protocol keeps the machine's invariant: the file decodes and covers every acknowledged commit, and no job's epoch differs from the coordinator's |
| `Durability.SequenceRefusedIff` | src/persistence.cpp:194-196 | the store refuses the next sequence if and only if 64 bits have run out and it has committed before |
| `Durability.ImageBootsIff` | src/coordinator.cpp:1257-1277 | the file of a commit boots if and only if its evidence names registered groups, no list in it is too long, no counter of bytes has wrapped and its epoch is not the last; it then restores to the durable projection, every job rebased onto the next epoch; at the last epoch the start is refused as an invalid argument |
| `Durability.CrashLosesNothing` | src/coordinator.cpp:119-148 | after a crash at any point of mutate, snapshot, write, rename, acknowledge, the file on disk is that of a commit that covers every acknowledged operation, and it boots exactly when ImageBootsIff says |
| `Durability.CrashFencesIff` | src/coordinator.cpp:1274-1281 | a token that but for its epoch fits a job restarted from a file that boots is refused after every continuation if and only if its epoch is at most the stored one |
| `Durability.DeadLifeIsFenced` | src/coordinator.cpp:1274-1281 | every token a life accepted before a crash is refused after every continuation, unless its epoch in memory had run ahead of the stored one |
| `Durability.CrashIsSafe` | src/coordinator.cpp:1257-1300 | the machine a crash boots into satisfies the invariant again |
| `Durability.FirstLifeIsOk` | src/coordinator.cpp:1257-1300 | a coordinator started on an empty disk satisfies the machine's invariant |
| `Durability.EveryHistoryIsSafe` | src/coordinator.cpp:119-148 | from an empty disk, after any history of requests, failures, crashes and restarts, the file covers everything acknowledged and boots if and only if its image is bootable |
| `Durability.StaysDown` | src/coordinator.cpp:1257-1281 | a coordinator whose file does not boot never starts again, and the file stays as it is |
| `Crashes.LastEpochBreaks` | src/coordinator.cpp:640-656 | a history: a job is registered, a client rebases onto epoch 2^64 - 1, both are acknowledged, and every later start is refused as an invalid argument |
| `Crashes.UnregisteredBreaks` | src/fabric_core.cpp:648-671 | a history: evidence is published for a group that is not registered and acknowledged, and every later start is refused as corrupt |
| `Crashes.UncommittedRebaseBreaks` | src/coordinator.cpp:640-656 | a history: a rebase takes effect in memory, its commit fails, the coordinator crashes, and the next life accepts the token the dead one accepted |

## Left out

- Recent-fence ring, `FabricStats`, job and utilisation views, last-activity times, session and nonce fields of tokens: they decide nothing that is modelled.
- Pacing advice: what an evaluation recommends and how many of its records are retained are left out; its refusals and the fences they record are modelled.
- Explanations and error texts: opaque; only error codes are modelled.
- Sockets, session threads, wake pairs, client wrappers, command-line tools and platform file calls: plumbing; the commit protocol keeps the abstract write, flush, rename and synchronise steps.
- Boot-identity minting, `token_from` and session binding: a token is an arbitrary value in every operation, so the laws hold for any token a session could mint.
- TLV encoding of domain objects (decision, receipt, view and report blocks in `src/wire.cpp`): more members of the kind already proved for snapshot records.
- Concurrent commits: requests are dispatched one at a time; the program takes the snapshot and chooses the sequence without one lock across both, and nothing is claimed for overlapping commits.
- Width of identifiers, clocks and generations in a running fabric: unbounded there; `Restorable.StateInRange` states the ranges when a snapshot is taken. Accounting counters and byte sums are modelled at their 32- and 64-bit widths.
- Restorable.EveryRunIsRestorable: asks that numbers fit their fields.
- Restorable.LimitedIsReadable: asks for `Bounded` contracts; a step whose contract exceeds the bound need not wrap.
- Laws.BytesBalance: asks `Bounded`; beyond it a byte counter can wrap (`Wraps.CountersWrap`), and nothing is claimed of the sums.
- Laws.ReportsBalance: asks `Bounded`, for the same reason.
- Safety.RunKeepsCapacity: asks for strict policies at publications, without which `Safety.OverfillIff` says what can happen, and for exact counters, without which the group's charge is not what it carries.
- Safety.RunKeepsIsolation: asks for strict policy replacements; `Safety.PolicyIsolationIff` gives the exact condition for one replacement.
- Runs.EveryRunIsOk: excludes incarnation 2^64 - 1, which breaks the invariant.
- Rates.TotalRateIsExact: asks for strict policies at publications; without them live flows may outlast their evidence, and enough of them could add up to more than 64 bits.
- SnapshotWriter.SerializeState: asks that numbers fit their fields and texts passed the program's own validation, as its typed fields and entry checks ensure.
- Coordinators.Coordinator.Start: asks that the file is one a coordinator configured alike has committed, and that its clock can tick.
- Durability.EveryHistoryIsSafe: a restart looks up its file without error and keeps its configuration; `Coordinators.OverlookedIsReplaced` says what an error does.
- The commit at an orderly shutdown: one more `CommitState`.
- Loss of a completed rename before the directory is synchronised: it is the crash one event earlier, which `Durability.CrashLosesNothing` covers.
- Uniqueness of intent identifiers across a crash: not a property of the program, since traffic requests do not commit.
