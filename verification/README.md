# SF in Dafny: models and proofs

SF is a local coordinator for tickets that AI providers work on. This project models the parts of SF whose correctness
spans several functions, a whole run or several processes, and proves what those parts are for. Code that changes state
step by step is modelled by methods, loops and classes and proved against specification functions; code that computes
values is modelled by functions and lemmas.

| file | part of SF | main results |
|---|---|---|
| `Shards.dfy`, `ShardBound.dfy` | the CI shard scheduler | shards cover the inventory once, whatever order each process reads it in; the heaviest shard is within 4/3 − 1/(3·count) of the best assignment |
| `Json.dfy`, `ToolTrace.dfy`, `Stream.dfy`, `StreamLaws.dfy`, `StreamGrammar.dfy` | the Claude success-stream parser | the one-pass loop accepts exactly the lawful, complete single-session traces, which are exactly the streams of a grammar written in the literals of the wire format; no accepted stream extends another |
| `Rejection.dfy`, `RejectionFamilies.dfy` | the rejection-stream observer | observed exactly when the lines are a failed run, field by field; the observation says what the run says and meets the attestation's bounds |
| `Authoring.dfy`, `AuthoringProtocol.dfy`, `AuthoringDriver.dfy`, `AuthoringLaws.dfy` | authoring sessions and workers | safety of every interleaving, also performed on the daemon object: one worker, quarantine and close are final, sessions are bounded; a worker starts exactly for a live published session |
| `Engine.dfy` | the generic workflow door | exactly which row, target and Store entry point a request gets; reserved triggers and provider retries are never persisted, with arbitrary writers around every read |
| `LaunchJson.dfy`, `PhaseInput.dfy`, `SignedPayload.dfy` | canonical launch inputs, signed payloads | two disjoint payload languages with exact round trips; exactly which signed payloads are shared |
| `ConfigEdits.dfy`, `ConfigLaws.dfy`, `ConfigSplice.dfy`, `ConfigInstall.dfy` | rewriting `.sf/config.toml` | every role gets its own provider; collected edits span exactly the values and never overlap; the splice equals one-at-a-time edits; the installation survives a crash anywhere |
| `ConfigResolve.dfy` | layered configuration and its snapshot | limits are never exceeded; exactly which configurations can be read back |
| `ShellWords.dfy` | the printed next-action line | POSIX splitting returns every argv |
| `BaseRefresh.dfy` | the base-refresh coordinator | claims settle, confirmations are earned, reservations are not replaced, objects are prepared once, across crashes |
| `Candidate.dfy` | gate evidence | a gate is current exactly when it completed at this candidate with nothing disturbing it since |
| `EventPaging.dfy` | event paging and projection | a reading is exactly the channel's log at its last query, for every batch size |
| `Sorting.dfy`, `Wrappers.dfy` | (shared) | a tie-free sort depends only on the elements |

Four findings are stated as lemmas with a concrete input and an exact condition:

- Composed, the package's functions can freeze a configuration that can never be read back: a legal ticket override may leave
  the phase timeout above the ticket's own, because resolution compares each with the project's only
  (`ConfigResolve.ShortTicketCannotThaw`; the condition is `ConfigResolve.SnapshotRoundTrip`). The program's own freeze, in the
  loader, passes an empty override, and the Store copies fields of an overridden result without freezing it.
- The engine's generic retry guard holds only for ticket versions that were already observed: a request that names a future
  version passes it on a ticket whose resume state is a provider phase (`Engine.SlipsExactlyForFutureVersions`). The Store then
  refuses planning, verifying and building by itself, so only review goes on to its further checks
  (`Engine.StoreStopsOtherPhases`).
- Sessions plus the creation counter can exceed the capacity of 16 (`AuthoringProtocol.SumAttained`). They do so by at most
  the number of requests between their last locked region and their decrement, so not at all while there is none, and every
  such excess up to 16 is reached (`AuthoringProtocol.SumExceedsByLeaving`).
- Signed payloads can be shared by different values that the program would sign (`SignedPayload.NulCollides`). A drain payload
  is shared if and only if a text field holds a NUL (`SignedPayload.DrainCollidesExactly`). A valid attestation shares its
  payload with another valid one if and only if its bytes can be cut into fields in a second way that passes validation
  (`SignedPayload.QualificationCollidesExactly`); it does not when its texts hold no NUL and its nonce does not repeat the end of
  a body (`SignedPayload.CleanTextsAreSafe`), and clean texts alone are not enough (`SignedPayload.NonceCollides`).

What is taken as given: JSON and TOML parsers deliver parsed values and source ranges; encoders and base64 are read back by
their decoders; digests do not collide on the payloads compared; the Store is an append-only log or a compare-and-swap ticket,
and where a claim depends on it, tells the truth about recorded objects; other writers of the configuration directory respect
its lock, and the configuration being edited is itself durable; scheduling weights are exact positive numbers.

## Model

| member | source | states |
|---|---|---|
| Shards.BalancedPartition | scripts/ci-race.py:225-237 | one shard process returns exactly the validated, packed and sorted shard of the plan that all processes share |
| Shards.FillShards | scripts/ci-race.py:232-236 | the loop over shards and totals builds the greedy packing of the whole order |
| Shards.Lightest | scripts/ci-race.py:234 | the destination is the first of the smallest totals |
| Shards.ShardsCoverInventory | scripts/ci-race.py:225-237 | a name is in the inventory if and only if some process runs it |
| Shards.ShardsAreDisjoint | scripts/ci-race.py:225-237 | no name is run by two processes, nor twice by one |
| Shards.NoEmptyShard | scripts/ci-race.py:220-228 | a call that passes validation never returns an empty shard |
| Shards.MissingMeansOneSecond | scripts/ci-race.py:233-236 | writing in 1.0 for every test without a timing changes no shard and no error |
| Shards.PackedLongestFirst | scripts/ci-race.py:233 | the order of packing is heavier first with 1.0 for a missing timing, and by name among equals |
| Shards.StringLeByFirstDifference | scripts/ci-race.py:233 | names compare by their first difference, a prefix first |
| Shards.ServedSorted | scripts/ci-race.py:237 | a served shard is sorted |
| Shards.RefusedExactly | scripts/ci-race.py:214-231 | each of the four errors is reported exactly under its condition, in the order of the tests |
| Shards.ServedIndexes | scripts/ci-race.py:214-228 | exactly the indexes below both the count and the number of names are served |
| Shards.ShardsIgnoreInputOrder | scripts/ci-race.py:225-237 | any reordering of the inventory gives every process the same shard, or the same error |
| Shards.PartitionIgnoresInputOrder | scripts/ci-race.py:214-222 | the unweighted partition does not depend on the input order |
| Shards.PlainShardsPartition | scripts/ci-race.py:214-222 | the strided shards list every name in exactly one shard and nothing else |
| Shards.PlanRearranges | scripts/ci-race.py:232-236 | the packed shards together are a rearrangement of the inventory |
| ShardBound.LongestFirstIsNearOptimal | scripts/ci-race.py:225-237 | the heaviest shard is at most (4/3 − 1/(3·count)) times the heaviest shard of any assignment to the same number of shards |
| ShardBound.ServedIsNearOptimal | scripts/ci-race.py:225-237 | what each process is told to run weighs at most (4/3 − 1/(3·count)) times the heaviest shard of any other assignment, weights written out from the timings |
| ShardBound.LongestFirstNearAverage | scripts/ci-race.py:225-237 | every shard is at most total/count + (1 − 1/count)·(largest weight) |
| ShardBound.LongTestFits | scripts/ci-race.py:233-236 | a test longer than a third of another assignment's heaviest shard is placed within that shard's weight |
| ToolTrace.PermittedEnters | internal/claudeprovider/stream.go:86-229 | the parser's maps admit an action exactly when the declarative rules permit it after the history |
| ToolTrace.TracksNext | internal/claudeprovider/stream.go:127-229 | every admitted action keeps the maps and counters in step with the history |
| ToolTrace.TracksComplete | internal/claudeprovider/stream.go:77-84 | the parser's final test holds exactly when every use is answered, no retry run is open and an assistant spoke |
| ToolTrace.EveryUseAnsweredOnce | internal/claudeprovider/stream.go:168-225 | in a lawful complete history every tool use is answered later, by a settling answer, and no id is used or answered twice |
| ToolTrace.RetriesPaidByReplies | internal/claudeprovider/stream.go:127-155 | retry notices number at most 15 per assistant message plus the open run |
| Json.CheckedSession | internal/claudeprovider/stream.go:55-76 | checking identities line by line establishes one session with unique event ids |
| Stream.ReadBlocks | internal/claudeprovider/stream.go:161-229 | reading the content blocks of a message succeeds exactly when they continue the history lawfully |
| Stream.ReadMessage | internal/claudeprovider/stream.go:133-229 | the same for a whole assistant or user message |
| Stream.ReadLine | internal/claudeprovider/stream.go:85-248 | the same for any line between the first and the last |
| Stream.ReadMiddle | internal/claudeprovider/stream.go:85-248 | a line that passed the identity checks carries the loop's knowledge on, or shows that the stream is no whole session |
| Stream.ReadLines | internal/claudeprovider/stream.go:50-251 | the one-pass loop succeeds exactly on whole lawful sessions framed by init and success |
| Stream.TerminalStreamResult | internal/claudeprovider/stream.go:21-251 | a terminal line is returned if and only if the declarative predicate accepts the stream, and it is the last line |
| Stream.AcceptedStreamsAreMaximal | internal/claudeprovider/stream.go:77-84 | no accepted stream is a proper line-prefix of another, even of one accepted for another phase input |
| Stream.RetriesAreBounded | internal/claudeprovider/stream.go:127-155 | an accepted stream has at most 15 retry notices per assistant message |
| Stream.AcceptedToolsAreSettled | internal/claudeprovider/stream.go:168-225 | every tool use of an accepted stream is answered once, a read-only phase's write only by the unavailable-tool error |
| StreamLaws.ReadOnlyPhasesOnlyMissTools | internal/claudeprovider/stream.go:168-225 | on the lines of an accepted planning or review stream, every Write or Edit block is answered on a later line by an error block with its id and one of the eight native texts that there is no such tool |
| StreamLaws.UnavailableTexts | internal/claudeprovider/stream.go:253-266 | those eight texts, and no other |
| StreamGrammar.AcceptedExactly | internal/claudeprovider/stream.go:21-251 | a stream is accepted if and only if the process was clean and the lines are one session of init, documents of a lawful and complete sequence of events, and success, every field of every document fixed by literals |
| StreamGrammar.StreamRead | internal/claudeprovider/stream.go:50-251 | for given events the stream is accepted exactly when they are lawful and complete |
| StreamGrammar.EventRead | internal/claudeprovider/stream.go:85-248 | a line that shows an event contributes what the event means, a Write or Edit of a read-only phase marked |
| StreamGrammar.EventShown | internal/claudeprovider/stream.go:85-248 | and every readable line shows an event |
| StreamGrammar.BlockRead | internal/claudeprovider/stream.go:161-229 | a block that shows a text, a tool use or a tool result contributes what that means |
| StreamGrammar.BlockShown | internal/claudeprovider/stream.go:161-229 | and every readable block shows one |
| StreamGrammar.DenialExactly | internal/claudeprovider/stream.go:268-292 | a permission denial passes exactly with fields among the ten known ones, each of its own form |
| StreamGrammar.ReturnableExactly | internal/claudeprovider/stream.go:297-311 | a tool may return a text or at most 128 text blocks |
| StreamGrammar.OneToolStream | internal/claudeprovider/stream.go:168-225 | with one tool used and answered, in any documents: accepted exactly when the tool is allowed in the phase, whatever it returns, or is a Write or Edit of a read-only phase that the registry reports missing |
| StreamGrammar.DenialStream | internal/claudeprovider/stream.go:89-97 | with one denial: accepted exactly when it names the open tool, which then fails |
| StreamGrammar.RetryStream | internal/claudeprovider/stream.go:127-132 | retry notices are numbered from one |
| StreamGrammar.UuidsAreValid | internal/claudeprovider/rejection.go:151-165 | ids are lower-case UUID texts other than the nil one |
| StreamGrammar.FailureStatuses | internal/claudeprovider/rejection.go:142-187 | each failure category goes with its own HTTP statuses |
| Rejection.ObserveRejection | internal/claudeprovider/rejection.go:36-132 | an observation is returned if and only if the stream is init, numbered retries, one API error and one error result; it counts the retries, tells whether all failures are server errors, and has the last delay and the final category |
| Rejection.ObserveLines | internal/claudeprovider/rejection.go:51-132 | the loop decides the shape of the lines and completes the observation |
| Rejection.ObserveRetry | internal/claudeprovider/rejection.go:109-122 | a retry line passes exactly when it is the next numbered notice under the common maximum |
| Rejection.ObserveError | internal/claudeprovider/rejection.go:87-108 | the API error passes exactly in its typed single-text form and completes the description |
| Rejection.ObservedIsAttestable | internal/contracts/provider_rejection.go:77-84 | an observed rejection meets the numeric evidence conditions if and only if every failure is a server error |
| Rejection.RetriesWithinMaximum | internal/claudeprovider/rejection.go:114-122 | the number of retries is at most the announced maximum, which is at most 15 |
| RejectionFamilies.ObservedExactly | internal/claudeprovider/rejection.go:36-132 | a run is observed if and only if the process failed within its bounds and the lines are one session of init, at most 15 notices in turn, a typed error of one text and an error result without an answer, every field fixed by literals |
| RejectionFamilies.FailedRunObserved | internal/claudeprovider/rejection.go:51-122 | for given notices and ending the run is observed exactly under those conditions |
| RejectionFamilies.ObservationOfRun | internal/claudeprovider/rejection.go:110-132 | the observation is the ending's category, the number of notices, the last delay, and whether all failures are server errors |
| Authoring.PrefixIdentifiesSession | internal/daemon/authoring.go:112-122 | for slash-free session ids the worker-key prefix test holds exactly for the workers of that session |
| Authoring.PrefixTestExactly | internal/daemon/authoring.go:112-122 | for any two session ids the test is right for every turn key if and only if neither is a path prefix of the other |
| Authoring.PrefixConfusesSlashes | internal/daemon/authoring.go:112-122 | with a slash in an id it does not |
| Authoring.Daemon.CreateBegin | internal/daemon/authoring.go:47-53 | admission under the lock and the counter's increment, nothing else changed |
| Authoring.Daemon.IsSessionActive | internal/daemon/authoring.go:115-122 | the scan finds a worker of the session if and only if one exists |
| Authoring.Daemon.TimerFired | internal/daemon/authoring.go:99-105 | an expired session is removed unless it is active |
| Authoring.Daemon.TurnAuthoring | internal/daemon/authoring.go:135-187 | a worker starts only without quarantine, shutdown, expiry or another worker, and its entry is published in the same region |
| Authoring.Daemon.CancelTurn | internal/daemon/authoring.go:207-214 | cancellation reaches exactly the named worker and reports whether there is one |
| Authoring.Daemon.WorkerExit | internal/daemon/authoring.go:233-240 | the entry is removed and an expired session with it |
| Authoring.Daemon.CloseBegin | internal/daemon/authoring.go:304-314 | shutdown is announced and every worker cancelled |
| AuthoringProtocol.RunInv | internal/daemon/authoring.go:36-330 | every step of every interleaving keeps the protocol's invariant |
| AuthoringProtocol.AtMostOneWorker | internal/daemon/authoring.go:135-187 | in every reachable state at most one worker is present and at most one entry exists |
| AuthoringProtocol.LostFinishIsFinal | internal/daemon/authoring.go:230-269 | after a worker ended without a recorded finish no worker ever starts again |
| AuthoringProtocol.CloseIsFinal | internal/daemon/authoring.go:303-329 | after close returned without error no worker runs or ever will |
| AuthoringProtocol.SessionsBounded | internal/daemon/authoring.go:47-54 | retained sessions never exceed 16 |
| AuthoringProtocol.SumExceedsByLeaving | internal/daemon/authoring.go:47-54 | in every reachable state sessions plus the creation counter exceed 16 by at most the number of leaving requests, of which there are at most 16 |
| AuthoringProtocol.SumAttained | internal/daemon/authoring.go:47-54 | for each number of leaving requests up to 16 that excess is reached, 32 at most |
| AuthoringProtocol.FiredSessionIsInUse | internal/daemon/authoring.go:99-105 | a session whose timer fired remains only while one of its own workers is present |
| AuthoringDriver.Perform | internal/daemon/authoring.go:36-330 | one step performed on the daemon object, with the object's answers deciding, is exactly the protocol's step |
| AuthoringDriver.Drive | internal/daemon/authoring.go:36-330 | any interleaving performed on the object leaves its fields where the protocol says, with at most one worker entry and 16 sessions, and no worker started once a finish was lost or close returned |
| AuthoringDriver.Live | internal/daemon/authoring.go:36-330 | the same for a daemon's whole life from its construction |
| AuthoringLaws.StartsOnlyLiveSessions | internal/daemon/authoring.go:135-187 | in every run, a step that starts a worker is a turn for a session published with that digest less than 1800 seconds before, with no worker present, no quarantine and no shutdown |
| AuthoringLaws.LiveSessionStarts | internal/daemon/authoring.go:135-187 | conversely, in every reachable state without worker entry, quarantine or shutdown, a proper request for a session published with its digest less than 1800 seconds before starts a worker on that session and key |
| AuthoringLaws.PublicationIsKnown | internal/daemon/authoring.go:92-105 | a published session keeps its digest and expires 1800 seconds after its publication, in every later state |
| AuthoringLaws.RunRetains | internal/daemon/authoring.go:99-105 | until its time is up or the daemon has closed, a published session is retained |
| AuthoringLaws.SessionsAreTraced | internal/daemon/authoring.go:92-98 | every retained session was published in this run, with the digest and the time it carries |
| AuthoringLaws.CreateAdmittedExactly | internal/daemon/authoring.go:47-53 | a create request passes exactly supervised, below 16, outside quarantine and shutdown |
| AuthoringLaws.IdentifierCharacters | internal/contracts/authoring.go:95-105 | session and turn ids are 1 to 128 ASCII letters, digits, dashes, dots and underscores |
| Engine.Transition | internal/engine/engine.go:56-96 | persists exactly when decided, admitted and not overtaken; with writers between the two reads and before the write, a persisted request was not reserved and replaces the ticket it was decided on; for an observed version that is the ticket the guard read |
| Engine.Serve | internal/engine/engine.go:56-96 | over any number of calls and writers, every request in the persisted record is not reserved, source resumes included, and no retry replaced a ticket that resumes a provider phase |
| Engine.ReservedNeverPersisted | internal/engine/engine.go:56-85 | for every specification table a reserved trigger is refused |
| Engine.ReservedExactly | internal/engine/engine.go:56-95 | a request is refused as reserved if and only if it is one of the listed triggers, a phase pass or exhaustion from a provider phase, a source resume, or a retry of a provider phase, each in literals |
| Engine.SubmittedExactly | internal/engine/engine.go:171-213 | a request is submitted if and only if it is not reserved, names the ticket of the second read, and exactly one row fits it and leads to a known state; it then carries that row's target, memory and entry point |
| Engine.SelectsTheOnlyRow | internal/statemachine/spec.go:172-201 | the table decides exactly when one row has the trigger, the source among its own and every guard an attribute that is "true", and then for that row |
| Engine.NoTransitionExactly | internal/statemachine/spec.go:190-200 | no transition is reported exactly when no row fits, ambiguity exactly when two do |
| Engine.StaleOrUnknownExactly | internal/engine/engine.go:182-192 | with one fitting row, another state or version is a stale fence and a target outside the eighteen states is unknown |
| Engine.RoutesExactly | internal/engine/engine.go:214-229 | rows that end control or invalidate the runner have their own Store entry point, every other one that of its source, target and trigger in a table of eleven, and the rest are persisted plainly |
| Engine.ProviderRetryExactly | internal/engine/engine.go:273-286 | the typed retry is submitted exactly for a paused provider phase at the named version with one row that asks for no guards but its own four, and hands on its target as the resume state |
| Engine.ObservedVersionPinsTicket | internal/engine/engine.go:86-95 | a request with an observed version is persisted only on the ticket the guard read, so never as a provider-phase retry |
| Engine.SlipsExactlyForFutureVersions | internal/engine/engine.go:86-95 | a provider-phase retry can pass both the engine's guard and the Store's own refusal if and only if the guard read another resume state and the request names a future version |
| Engine.StoreStopsOtherPhases | internal/store/store.go:1612-1615 | of the retries that pass the guard back into their phase by generic persistence, the Store lets only review through |
| Engine.TypedRetryReopensProviderPhase | internal/engine/engine.go:273-286 | the typed retry replaces the ticket its guard read, hands its target on as the resume field, and through a row that returns to the stored state reopens exactly the paused provider phase |
| Engine.RetryDoorsAreExclusive | internal/engine/engine.go:86-96 | of a generic and a typed retry for one observed version, each with its own reads of one growing history and its own table, at most one is persisted |
| Engine.PreparedFor | internal/engine/engine.go:171-213 | what is handed to the Store carries the request's version, source and trigger, matches the second read, and has a known target |
| Engine.PauseThenResumeReturns | internal/engine/engine.go:189-213 | a pause that stores its source state, followed by a resume to the stored state, returns the ticket there |
| Engine.ResumedEffectsAreTyped | internal/engine/engine.go:214-229 | for plain rows, a resumed publishing, CI wait, merge or reconciliation goes through its own Store path, and plain persistence takes exactly the other targets |
| Engine.Invalidations | internal/engine/engine.go:236-252 | the nested loops return the expanded sets without duplicates in first-seen order |
| Engine.DedupSpec | internal/engine/engine.go:237-251 | that list has no duplicates and the same members |
| LaunchJson.FillWritten | internal/contracts/provider.go:190-194 | reading members into struct slots restores what was written and leaves missing members at zero |
| LaunchJson.Read53 | internal/contracts/provider.go:156-158 | the decoder reads back every field of the current shape |
| LaunchJson.Read52 | internal/contracts/provider.go:72-119 | and of the pre-v53 shape, whose missing member is a nil repair |
| LaunchJson.RepairMember | internal/contracts/provider.go:206-209 | the current shape always has a Repair member and the older one never |
| LaunchJson.DocumentInFull | internal/contracts/provider.go:26-119 | the document member by member: every field, nested ones too, under its own name in the order of the struct; the older shape is all but the last |
| LaunchJson.CaseMatchingIsGood | internal/contracts/provider.go:72-91 | any matching of member names between exact and case-insensitive tells all field names apart |
| PhaseInput.LanguagesAreDisjoint | internal/contracts/provider.go:195-216 | no payload is in both the current and the pre-v53 form |
| PhaseInput.DecodesExactlyCanonical | internal/contracts/provider.go:190-217 | decoding accepts exactly the two languages, with a schema in base64, and its marker tells them apart |
| PhaseInput.DecodedReencodes | internal/contracts/provider.go:143-217 | what decodes re-encodes to the same bytes and digest |
| PhaseInput.EncodedDecodes | internal/contracts/provider.go:143-217 | what encodes decodes to the same input with the request digest cleared |
| PhaseInput.LegacyIsFrozen | internal/contracts/provider.go:143-154 | beside the marker, an input canonicalises if and only if it differs from the decoded one in the request digest alone |
| PhaseInput.ClaimMatching | internal/contracts/provider.go:175-187 | matching a decoded claim is agreement on every logical field and the digest of the stored bytes |
| PhaseInput.OwnDigestMatches | internal/contracts/provider.go:164-167 | an input that canonicalises matches exactly its own digest |
| PhaseInput.DigestFixesRequest | internal/contracts/provider.go:175-187 | two proposals accepted under one digest are the same request against the same payload |
| PhaseInput.OlderClaimKeepsItsDigest | internal/contracts/provider.go:168-187 | a fresh proposal matches an equal pre-v53 claim although its own digest differs |
| SignedPayload.DrainPayloadInjective | internal/contracts/provider.go:478-482 | a request whose texts have no NUL shares its payload with no other request, whatever that one's texts |
| SignedPayload.DrainCollidesExactly | internal/contracts/provider.go:478-482 | a payload belongs to a second request if and only if some text field holds a NUL |
| SignedPayload.DrainReadsBack | internal/contracts/provider.go:478-482 | splitting a clean request's payload at its NULs gives the request back, each of the twenty-five fields in its place |
| SignedPayload.QualificationPayloadInjective | internal/contracts/provider.go:451-453 | an attestation without NUL shares its payload only with attestations that differ in the signature alone |
| SignedPayload.QualificationReadsBack | internal/contracts/provider.go:451-453 | the same for a clean attestation behind its tag, without the signature |
| SignedPayload.QualificationCollidesExactly | internal/contracts/provider.go:427-453 | a valid attestation shares its payload with another valid one, apart from the signature, if and only if its own bytes also fit another list of field lengths whose fields pass validation |
| SignedPayload.CleanTextsShareByNonce | internal/contracts/provider.go:427-453 | where only the nonce may hold NULs, two valid attestations with one payload are the same unless the nonce repeats the profile, two numbers and more |
| SignedPayload.CleanTextsAreSafe | internal/contracts/provider.go:427-453 | so clean texts and such a nonce excluded, no other valid attestation shares the payload |
| SignedPayload.RunIDCollides | internal/contracts/provider.go:427-453 | any valid attestation whose run id has a NUL behind a non-empty part shares its payload with a given other valid one |
| SignedPayload.NonceCollides | internal/contracts/provider.go:427-453 | every valid attestation's texts can be signed with a nonce that shares the payload with another valid attestation |
| SignedPayload.JoinedCuts | internal/contracts/provider.go:451-453 | field lengths recover the fields from their join |
| SignedPayload.PayloadKindsAreApart | internal/contracts/provider.go:451-482 | the four kinds of payload one key signs, drain, qualification, server rejection and authoring proof, are pairwise apart, whatever the texts hold |
| SignedPayload.NulCollides | internal/contracts/provider.go:427-482 | every request with a given NUL in its phase, and every valid attestation with a given run id, shares its payload |
| SignedPayload.DecimalInjective | internal/contracts/provider.go:481-482 | decimal printing of signed numbers is injective |
| SignedPayload.JoinedInjective | internal/contracts/provider.go:478-480 | NUL-joined NUL-free fields determine the fields and their number |
| SignedPayload.CleanFieldsAreFixed | internal/contracts/provider.go:478-480 | NUL-free fields are told from any other list of as many fields |
| ConfigEdits.CollectEdits | internal/config/provider_edit.go:40-123 | collects if and only if no node has a fault: one edit for every provider assignment, in order, and one insertion for the missing roles; otherwise the fault of the first node that has one |
| ConfigEdits.ReadAssignment | internal/config/provider_edit.go:71-99 | an assignment's edit runs from behind the equals sign and blanks to the end of the value, or its exact fault is reported |
| ConfigEdits.CollectedNeverOverlap | internal/config/provider_edit.go:40-131 | the collected edits have distinct starts, stay inside the source and never overlap, so the splice cannot refuse them |
| ConfigEdits.EveryRoleIsSet | internal/config/provider_edit.go:87-123 | among the collected edits each role has one that replaces its own assignment by its provider, or the whole table by one that binds the role to its provider, or one that inserts the role's line at the right place |
| ConfigEdits.InlineReadsBack | internal/config/provider_edit.go:89 | a reader of the inline table recovers exactly the three roles with their providers |
| ConfigEdits.MissingLines | internal/config/provider_edit.go:104-114 | one line for each unsettled role, none for a settled one, in the order of the roles |
| ConfigLaws.EditSpansValue | internal/config/provider_edit.go:75-86 | an edit runs from the first character behind the first equals sign that is no blank or tab to the end of the expression |
| ConfigLaws.HeaderLineExactly | internal/config/provider_edit.go:55-67 | the header line ends at the first newline behind its first closing bracket, or at the end of the source |
| ConfigLaws.LastHeaderCounts | internal/config/provider_edit.go:53-68 | the last `[providers]` header is the one new lines go behind |
| ConfigLaws.FullKeyExactly | internal/config/provider_edit.go:53-72 | an assignment belongs to the last table before it |
| ConfigLaws.FaultsExactly | internal/config/provider_edit.go:53-99 | which nodes are provider assignments, and each fault exactly under its condition |
| ConfigEdits.RewritesUnique | internal/config/provider_edit.go:40-123 | a document calls for one list of edits |
| ConfigEdits.YieldsOne | internal/config/provider_edit.go:40-139 | and yields one text, whichever sort is used |
| ConfigEdits.Rewrite | internal/config/provider_edit.go:40-139 | under any sort, refuses exactly the documents with a faulty node, for the first fault, and otherwise returns the one text they yield, or reports that text as oversized; never an overlap |
| ConfigSplice.Splice | internal/config/provider_edit.go:124-139 | for whatever order an unstable sort gives, the one-pass loop refuses exactly overlapping or oversized results and otherwise equals applying the edits one at a time from the right |
| ConfigSplice.RefusedExactlyOnOverlap | internal/config/provider_edit.go:124-130 | for distinct starts the loop's check passes if and only if no two collected ranges meet |
| ConfigSplice.OrderIsIrrelevant | internal/config/provider_edit.go:124 | for distinct starts neither the order of collection nor the choice of sort matters |
| ConfigSplice.SortArranges | internal/config/provider_edit.go:124 | a sort of the assumed kind exists |
| ConfigSplice.EqualStartsDependOnOrder | internal/config/provider_edit.go:124-130 | for equal starts two sorts may decide differently |
| ConfigSplice.SourceSurvives | internal/config/provider_edit.go:125-135 | every byte outside the ranges survives at its shifted offset, survivors keep their order, and the length is as the edits say |
| ConfigInstall.EditProviderPreset | internal/config/provider_edit_install.go:23-76 | at every state of every run, after any crash, config.toml is the original or the update, beside an update the backup is complete, success is permanent, the change happens exactly when every step succeeds, and the result says exactly whether there is a backup and a change |
| ConfigInstall.WriteExclusive | internal/config/provider_edit_install.go:95-128 | staging succeeds exactly when every call does and the name is free, touches only its own new name and inode, leaves synced contents on success and nothing in the live directory on failure |
| ConfigInstall.BackUp | internal/config/provider_edit_install.go:44-51 | the backup is durable before anything replaces the configuration |
| ConfigInstall.Replace | internal/config/provider_edit_install.go:52-75 | from staging to the end every state is crash-safe, also when validation, rename or sync fails |
| ConfigInstall.Install | internal/config/provider_edit_install.go:64-71 | after the rename every process reads the update, and after the directory sync no crash brings the original back |
| ConfigInstall.ReplacingIsSafe | internal/config/provider_edit_install.go:52-75 | whatever selection of pending directory changes survives a crash, the promise holds |
| ConfigInstall.UntouchedIsSafe | internal/config/provider_edit_install.go:23-63 | until the rename the original survives every crash |
| ConfigInstall.NamesApart | internal/config/provider_edit_install.go:44-52 | no random suffix makes backup, stage and configuration meet |
| ConfigResolve.ResolvedNeverExceeds | internal/config/config.go:124-166 | a resolved configuration is within the project and the machine and copies the rest |
| ConfigResolve.ResolvedIsGreatest | internal/config/config.go:124-166 | the result respects the override and grants the most that project and override both allow |
| ConfigResolve.RefusedExactly | internal/config/config.go:124-166 | resolution succeeds if and only if machine and project are valid and the override nowhere exceeds the project |
| ConfigResolve.MergeModesNarrow | internal/config/config.go:124-166 | a manual project stays manual under every override, a guarded one becomes manual or guarded, an autonomous one needs the machine's leave, and a mode within that is the result |
| ConfigResolve.AdmittedExactly | internal/config/config.go:124-166 | without an override, exactly which limits and modes are resolved, and to what |
| ConfigResolve.NarrowingComposes | internal/config/config.go:124-166 | repeated overrides stay within the first grant |
| ConfigResolve.SnapshotRoundTrip | internal/config/config.go:124-211 | a frozen configuration reads back to itself if and only if the override leaves phases inside the ticket and the encoding fits |
| ConfigResolve.ShortTicketCannotThaw | internal/config/config.go:144-155 | a legal one-minute ticket under the default limits cannot be read back |
| ConfigResolve.ResolvedAgain | internal/config/config.go:124-166 | resolution accepts its own result again exactly when the phase timeout is at most the ticket timeout |
| ConfigResolve.ThawedIsAuthentic | internal/config/config.go:180-211 | only the frozen bytes read back, and only to a valid configuration that re-encodes to them |
| ConfigResolve.ClampDefaults | internal/config/load.go:573-582 | the successive assignments compute the meet of defaults and machine limits |
| ConfigResolve.DefaultsInNumbers | internal/config/load.go:573-582 | 2 tickets, 45 minutes, 4 hours and 100 dollars, or the machine's limit where it is stricter |
| ConfigResolve.ClampedDefaultsResolve | internal/config/load.go:573-582 | under every valid machine the clamped defaults resolve to themselves, read back, and grant the most that both allow |
| ConfigResolve.PhaseClampIsRedundant | internal/config/load.go:581 | the clamp of phase by ticket never decides under a valid machine |
| ShellWords.ShellWords | internal/cli/response.go:174-184 | splitting the printed line by POSIX quoting returns the argv, for every argv |
| ShellWords.SafeShellWord | internal/cli/response.go:189-203 | a word is printed bare exactly when it is non-empty and every character is in the allowlist |
| ShellWords.SafeCharacters | internal/cli/response.go:189-203 | the allowlist by ASCII codes |
| ShellWords.LineSplits | internal/cli/response.go:174-184 | the round trip for any list of printed words |
| ShellWords.PrintingIsInjective | internal/cli/response.go:174-184 | two vectors with one printed line are equal |
| BaseRefresh.Refresh | internal/baserefresh/coordinator.go:47-102 | every invocation over any Store and Git keeps to the observed discipline and ends with no open claim; completion ends with confirm and complete of one claim; and when no call fails it completes exactly when a reservation is pending or the proof is not already in execution |
| BaseRefresh.Prove | internal/baserefresh/coordinator.go:55-94 | the proof of the caller's base, with every failure after the claim reported as uncertain; when no call fails it is proved exactly unless it is already in execution |
| BaseRefresh.ApplyReservation | internal/baserefresh/coordinator.go:104-148 | the reserved effect from claim to completion, with every failure after the claim reported as uncertain |
| BaseRefresh.ClaimEffect | internal/baserefresh/coordinator.go:104-122 | an effect read in any other state than planned is reclaimed, also after a crash in execution; a planned one is planned again and then issued |
| BaseRefresh.ClaimProof | internal/baserefresh/coordinator.go:65-80 | a planned proof is issued, an uncertain one reclaimed, one in execution left alone |
| BaseRefresh.Run | internal/baserefresh/coordinator.go:47-148 | any sequence of invocations, each possibly cut by a crash, keeps to the discipline |
| BaseRefresh.EveryClaimSettles | internal/baserefresh/coordinator.go:37-148 | every granted claim is confirmed or its uncertainty reported before another is granted, unless the process dies holding it |
| BaseRefresh.ConfirmIsEarned | internal/baserefresh/coordinator.go:85-147 | every confirmation follows a Git success for the same claim, held since its grant |
| BaseRefresh.PendingIsNotReplaced | internal/baserefresh/coordinator.go:51-148 | once a pending reservation is found the caller's base is never used and only that reservation is prepared or applied |
| BaseRefresh.ReservationIsProved | internal/baserefresh/coordinator.go:55-99 | the caller's base is reserved only after its proof was confirmed, by this invocation or as the Store reports it |
| BaseRefresh.PreparedOnce | internal/baserefresh/coordinator.go:124-138 | when the Store's facts are true, a recorded object is never prepared again, across crashes and invocations, and only a recorded one is applied |
| Candidate.ApplyInvalidation | internal/candidate/candidate.go:90-106 | the loop clears exactly the listed gates |
| Candidate.RequireCurrent | internal/candidate/candidate.go:111-140 | passes if and only if every listed gate is current, and otherwise names the first that is not |
| Candidate.CurrentExactlyWhenFresh | internal/candidate/candidate.go:64-162 | after every run a gate is current if and only if it completed at a valid candidate and nothing disturbed it since |
| Candidate.StandingKeepsCandidate | internal/candidate/candidate.go:79-88 | an undisturbed downstream gate completed at the present snapshot, an undisturbed intent gate at the present intent |
| Candidate.SlotsFollowFreshness | internal/candidate/candidate.go:79-162 | every slot is the value wanted now when the gate is fresh and empty when it is not |
| Candidate.StaleWithoutInvalidation | internal/candidate/candidate.go:111-162 | without invalidation, short of a collision, currency is equality of candidates, or of intents for the intent gate |
| Candidate.BindTouchesOneGate | internal/candidate/candidate.go:142-162 | binding makes one gate current and leaves the others |
| Candidate.RefusedExactly | internal/candidate/candidate.go:42-62 | a snapshot is refused exactly without a generation or with an empty identity |
| EventPaging.Events | internal/events/events.go:83-122 | terminates for every reader; a returned list is strictly increasing, of one channel, and the pages up to the first short one, of 4096 events for batch size 0; the size is refused exactly below 0 and above 100000 |
| EventPaging.AppendPage | internal/events/events.go:107-117 | a page is appended if and only if it continues the order within the channel |
| EventPaging.ReadingIsTheLog | internal/events/events.go:83-122 | over an honest growing log a reading is the channel's whole log at the last query, or a query failed |
| EventPaging.ReadingIsAPrefix | internal/events/events.go:83-122 | a returned list is a prefix of every later log |
| EventPaging.BatchSizeIsIrrelevant | internal/events/events.go:87-93 | on a log at rest all batch sizes read the same list |
| EventPaging.SelectAfterCursor | internal/store/store.go:1328-1329 | behind the cursor of the first k events of a channel the query finds exactly the others |
| EventPaging.Write | internal/events/events.go:128-154 | lines are written up to the first invalid or disordered record, which is reported |
| EventPaging.Project | internal/events/events.go:128-154 | the projection of a Store reading is never out of order |

## Left out

- SHA-256, Ed25519 and random ids: digests are functions, collisions are excluded where two payloads are compared, signatures are not modelled.
- Byte-level JSON, TOML and UTF-8: parsed values, node ranges and text printers are inputs (for launch inputs only JSON text is, not the layout of members); strings that are not valid UTF-8, which the JSON library rewrites, are outside the assumption on encoders.
- Context cancellation: in the stream parsers and in paging it is a refusal or a failed query.
- Rejection.ObserveRejection: does not model the digest of the raw output, because it is SHA-256 of bytes the model does not have.
- Shards.BalancedPartition: weights are exact reals, so rounding of sums and the finiteness test are not modelled.
- Authoring.Daemon.TurnAuthoring: the replay of an active turn, the lease and the size limit of the request only refuse or read and are one condition or absent.
- AuthoringProtocol.CloseIsFinal: speaks of a close that returned without error; the timeout exit keeps ownership and promises nothing.
- Authoring recovery at start-up (internal/daemon/authoring.go:272-301): it only sets the quarantine latch, which the initial state covers.
- Engine.Transition: does not model event payload text and fences beyond the version, which the Store checks; the Store's own admission is an arbitrary answer.
- The typed paths of the engine other than the provider retry: each delegates its proof to the Store.
- ConfigInstall.EditProviderPreset: the checks of the source's identity are outcomes of the environment, the preset rewrite's text is an argument, and the plan's cached bytes and file information are not modelled.
- ConfigEdits.Rewrite: the second decoding of the result, which compares all other settings, is not modelled because it depends on TOML semantics; quoting covers names without special characters.
- ConfigResolve.ResolvedNeverExceeds: names, branch, commands and provider orders are one value judged by an arbitrary predicate, because resolution only copies them.
- ConfigResolve.ClampDefaults: the settings a repository document then overrides are not modelled; they pass through resolution like any project.
- ShellWords.ShellWords: reserved words, assignments and job-control arguments, which depend on a word's position and not on quoting.
- BaseRefresh.Refresh: the nil checks of the coordinator's fields; Store transactions behind each call are arbitrary answers.
- EventPaging.Project: redaction is an arbitrary function on the payload and the writer does not fail.
- The SQLite Store, process launch, sandboxing, Git and GitHub helpers, bundle and runtime scanning, CLI wiring and rendering, Doctor, provider prompts and test fixtures.
- Dollar amounts in configuration documents: a one-step conversion that would only add an easy member.
