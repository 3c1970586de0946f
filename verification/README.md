# Auditable MCP: a model of the audit protocol and proofs about it

An auditable tool says what it is about to do before it does it. Its host seals that attempt into a hash chain and
answers `accept`; only then does the tool act, and afterwards it says how it went. An auditor who sees nothing but
the chain can tell what was done, in which order, and what is missing. This project models the three parties of that
protocol and proves what each of them keeps, over every run and whatever its collaborators do.

## What is here

Files follow the parts of the system.

* `Records`, `Ledger`, `Storage`: events, hashes, the chain, and the conditional append it is stored by.
* `Accounting`, `Verify`, `Tampering`: the auditor. The accounting edits lists of runs; it is proved to be the
  four-step procedure its documentation pins, and optimal. A report is shown to hold exactly what the records deserve.
* `Host`, `AuditHost`: the host, as functions of its state and as an object proved to compute them. What its
  repository, clock, verifier and countersigner answer is an argument of each call, so every run covers every way
  they can fail.
* `Chains`, `HostInvariants`, `HostTidiness`, `Persistence`, `Unnoticed`, `HostDecisions`, `Adoption`, `HonestLedgers`,
  `Vouching`, `Trackers`, `Restarts`, `RestartRuns`: what runs of the host keep. `HonestLedgers` and `Vouching` join it
  to the auditor.
* `Sections`: the host's calls cut at every wait, interleaved under the lock.
* `Tool`, `ToolTurns`, `ToolRuns`, `ToolNumbering`, `ToolSequences`, `ToolAccounting`, `ToolInterleavings`, `Fleets`: the
  tool, its actions and its numbering over a host in the same process, cut at its waits in `ToolTurns` and
  `ToolInterleavings`, for one session and then for several at once, and back to the auditor's accounting.
* `Rounds`: the host's side of a round, and the queue that finishes what its deadline cut off.
* `Seam`, `SeamInvariants`, `SeamSteps`, `SeamRuns`, `SeamSettling`, `SeamAnswers`, `SeamTallies`,
  `SeamSessions`, `AuditTransport`: the tool's side of the wire.
* `Registry`, `RegistryInvariants`: the calls an HTTP entry holds, each with its own transport.
* `Ordering`: ascending lists, least members, and lists without repeats.

Objects that the system updates in place are classes (`Ledger`, `InMemoryLedgerRepository`, `AuditHost`, `Mutex`,
`AuditedAction`, `McpAuditTransport`, `HeldCallRegistry`). Each method is proved to take its object where a function
of the old state takes it, and theorems about runs are stated over those functions. A session, a call in flight and a
pending attempt have no methods of their own; they are values in a map or a list of the object that owns them.

## Where the code falls short of its documentation

* **Adoption.** After a failed append the host may find its record stored after all and adopt it. Of the record's
  session, if that is still open, it restores only that the attempt was accepted (src/host.ts:460-466), so it goes on
  to seal the same number, or a second terminal record, for that session. `Adoption.TidyUntilAdoption` says that is
  exactly when sessions lose track of the chain; by `AdoptionIsHarmful` one more event then makes the chain show it, by
  `OnlyAdoptionIsHarmful` nothing else does, and `AdoptionNeedsItsHypothesis` gives a run. The theorems about tidy chains
  assume it does not happen; the guard is `HostTidiness.AdoptsNow`, which is more permissive than "no record is adopted
  into an open session": adopting an unsigned attempt is harmless, and so is one whose number is decided.
* **One numbering, two keys.** A numbering is shared by every signer of a session (src/session.ts:84-147) while the
  host expects each key to count from 0 (src/host.ts:558-566). `ToolSequences.SecondKeyOpensGap` says exactly when
  that is flagged, and `TwoKeysAreFlagged` gives a run.
* **Empty sessions.** An id is issued once even if its session has ended (src/host.ts:376-379), but a resumed host knows
  only the ids something is sealed under: `Restarts.EmptySessionsAreForgotten`, and
  `RestartRuns.EmptySessionIsReopened` for a run.
* **A stray exception.** A repository that throws something other than its own error after the record landed leaves
  the store ahead with nothing in doubt (src/host.ts:504-512). `Unnoticed.DoubtIsKnownThroughout` has the exact
  condition over runs, and `ThrownAppendIsUnnoticed` a run.
* **A close that cannot see.** A record that landed and is not adopted yet is no part of what closing its session
  flags, and is part of what a resume flags: `Restarts.ResumeFlagsWhatClosingDid` says exactly when the two differ,
  and `RestartRuns.ResumeFlagsMore` gives a run.
* **A handler that outlives its cancellation.** Its final frame passes through once the cancellation is forgotten, on
  an id that a round may have answered (src/mcp/seam.ts:1117-1125). `SeamAnswers.TwiceIffLate` has the exact condition
  where ids are never used again, `TwiceIffPassed` the one where they are, and each has its run.
* **An id used again in flight.** The second call takes the first one's place while both count for their session
  (src/mcp/seam.ts:992-994). `SeamTallies.CountsAreRightThroughout` says exactly when the counts go wrong, `LiveCounts` by
  how much, `DisplacedIsNeverIdle` that the session is then never idle again until the connection is lost, and
  `ReusedIdIsCountedTwice` gives a run.
* **A retry on its way.** A call may be closed to make room after a retry took its token and before the retry is written
  (src/mcp/http.ts:967-998). `RegistryInvariants.MakingRoomIsSafe` says exactly which call goes, `ClaimedRetryIsServed`
  that the retry is served exactly where nothing closed its call meanwhile and refused otherwise, and
  `ClaimedCallMayBeClosed` gives a run.

## Model

| member | source | states |
|---|---|---|
| `Ledgers.Ledger.Seal` | src/ledger.ts:58-66 | seals an event at the next place, linked to the tail, and commits nothing |
| `Ledgers.Ledger.Commit` | src/ledger.ts:69-73 | the chain grows by exactly the record committed |
| `Ledgers.Ledger.Append` | src/ledger.ts:76-80 | seals and commits in one, and keeps a linked chain linked |
| `Ledgers.Ledger.ResumeFrom` | src/ledger.ts:88-97 | the ledger continues the chain whose tail it is given |
| `Ledgers.LinkedIsBuilt` | src/ledger.ts:58-80 | a list is linked if and only if it is what appending its bodies from genesis builds |
| `Ledgers.DigestFixesChain` | src/ledger.ts:105-107 | two linked chains with one tail digest have the same bodies and hashes throughout |
| `Storage.InMemoryLedgerRepository.Append` | src/storage/memory.ts:15-23 | stores a record exactly when it is the partition's next, and touches no other partition |
| `Storage.InMemoryLedgerRepository.LoadTail` | src/storage/memory.ts:25-28 | the last record stored, if any |
| `Storage.InMemoryLedgerRepository.ReadAll` | src/storage/memory.ts:30-32 | every record stored, in order |
| `Accounting.MissingRuns` | src/verify.ts:266-276 | the missing values up to the largest sealed one, as their only sorted, disjoint, maximal runs |
| `Accounting.RunsAreUnique` | src/verify.ts:266-276 | a set of values has one such list of runs |
| `Accounting.UnaccountedRuns` | src/verify.ts:336-348 | editing runs in place leaves the maximal runs of what the pinned four-step procedure leaves |
| `Accounting.AccountsForSmallestBelow` | src/verify.ts:278-294 | each refusal accounts for the smallest value still missing below it, or for none |
| `Accounting.GreedyIsOptimal` | src/verify.ts:336-348 | no assignment of distinct refusals to smaller missing values accounts for more of them |
| `Accounting.GreedyIsAssignment` | src/verify.ts:336-348 | what it accounts for is such an assignment, so the bound is met |
| `Accounting.NothingLeftWhenCovered` | src/verify.ts:336-348 | nothing is left if and only if some assignment covers every missing value |
| `Accounting.TallyGroups` | src/verify.ts:299-333 | per key and session, in order of first appearance, the sealed values and the refusals no earlier sealed attempt correlates with |
| `Accounting.UnaccountedSignerSeq` | src/verify.ts:299-354 | the report is, group by group, the maximal runs of what the procedure leaves |
| `Accounting.EmptyReport` | src/verify.ts:299-354 | nothing is reported if and only if every key and session is accounted for |
| `Accounting.GroupsAreDistinct` | src/verify.ts:299-333 | no key and session is reported on twice |
| `Accounting.GroupsAreAll` | src/verify.ts:311-333 | a key and session is reported on if and only if some sealed event takes a place in its sequence |
| `Verify.CheckCountersignature` | src/verify.ts:443-485 | a countersignature is reported when required and missing, partial, or refused by the registry, and noted when nobody could check it |
| `Verify.CheckRecord` | src/verify.ts:507-611 | one record's findings, its recomputed hash, and what it adds to the operations and numbers seen |
| `Verify.VerifyChain` | src/verify.ts:394-651 | the whole chain's findings in order, then the gaps and the anchor |
| `Verify.VerifyLedger` | src/verify.ts:678-733 | adds a schema finding exactly where the chain report has none |
| `Tampering.ChainFinds` | src/verify.ts:507-631 | a kind is reported if and only if some record deserves it, the numbering lacks values, or the anchor is missed |
| `Tampering.LedgerFinds` | src/verify.ts:703-721 | beyond the chain report, a ledger report holds a schema finding if and only if some event is invalid |
| `Tampering.IntactIsBuilt` | src/verify.ts:507-546 | over canonicalizable records no gap or hash mismatch is reported if and only if the list is what appending from genesis builds |
| `Tampering.AnchoredMeansUnaltered` | src/verify.ts:507-546 | against an honest ledger's digest a list is clean if and only if it has the same length, bodies and hashes throughout |
| `Tampering.SamePlain` | src/verify.ts:507-546 | and then it is that ledger record for record, countersignatures apart |
| `AuditHosts.AuditHost.constructor` | src/host.ts:217-257 | a new host holds nothing of its own |
| `AuditHosts.AuditHost.Settle` | src/host.ts:442-470 | tells from the stored tail whether the record landed, and adopts it if it did |
| `AuditHosts.AuditHost.TakeAttempt` | src/host.ts:635-702 | an attempt as it is taken up, from a tail in doubt to the accept that names its record |
| `AuditHosts.AuditHost.TakeOutcome` | src/host.ts:719-788 | an outcome as it is taken up, from what is not an object to the one terminal record |
| `AuditHosts.AuditHost.Open` | src/host.ts:380-388 | a session id is issued once, ever |
| `AuditHosts.AuditHost.Close` | src/host.ts:397-408 | the session goes, and each accepted operation without a terminal record is flagged, ascending |
| `AuditHosts.AuditHost.SignerTracker` | src/host.ts:351-360 | the tracker of an open session, each key's decided numbers ascending, that given back is what the session had |
| `AuditHosts.AuditHost.LoadRecords` | src/host.ts:281-289 | the stored records are remembered, and their sessions count as issued |
| `AuditHosts.AuditHost.ReopenSessions` | src/host.ts:290-305 | the named sessions are rebuilt from the records and their trackers |
| `AuditHosts.AuditHost.Restarted` | src/host.ts:275-308 | a host resumed from its repository |
| `AuditHosts.RestoredSession` | src/host.ts:148-170 | the fold of the records sealed in a session |
| `AuditHosts.OpenAttempts` | src/host.ts:311-330 | the attempts no later terminal record resolved, in the order they were opened |
| `HostInvariants.RunKeeps` | src/host.ts:425-430 | every run keeps: the chain linked, correlated and with one attempt an id; the store that chain or one record ahead; every index in agreement with the chain |
| `HostInvariants.TailTells` | src/host.ts:442-470 | the stored tail tells a record that landed from one that did not, and there is no third case |
| `Persistence.StoreIsChainOrOneAhead` | src/host.ts:442-517 | whatever each append did, the store is the committed chain or that and one sealed successor, every record at its own place |
| `Unnoticed.StepLandsUnnoticed` | src/host.ts:442-517 | one call: where a store ahead of the chain is known to be in doubt it still is, if and only if the call does not reach an append that throws, other than the repository may, after its record landed |
| `Unnoticed.DoubtIsKnownThroughout` | src/host.ts:442-517 | over a whole run: at every moment the store is ahead only while the tail is in doubt, if and only if no call of the run does |
| `Unnoticed.AheadOnlyInDoubt` | src/host.ts:442-517 | so a repository that throws nothing but its own error is enough |
| `Unnoticed.ThrownAppendIsUnnoticed` | src/host.ts:504-512 | a run of two calls that leaves the store ahead with nothing in doubt |
| `Persistence.HistoryGrows` | src/host.ts:478-517 | nothing sealed, and nothing that landed, is lost or moved by any later call |
| `Persistence.AcceptedForGood` | src/host.ts:644-702 | every accept names a record that is at that place for the rest of the run, sealing exactly the attempt sent |
| `Persistence.RecordsAreMade` | src/host.ts:478-503 | every record was made of an event some call brought, countersigned if and only if the host countersigns |
| `HostTidiness.RunTidied` | src/host.ts:442-470 | as long as nothing is adopted into an open session that forgets it, open sessions know all that is sealed in them |
| `HonestLedgers.AnyHostVerifies` | src/host.ts:644-788 | whatever the collaborators do, against the host's digest the auditor finds in the stored records at most missing or doubled numbers, and the digest missed if and only if a record that landed is not adopted yet |
| `HonestLedgers.HonestHostVerifies` | src/host.ts:644-788 | for a Level 2 host that forgets nothing, no doubled numbers |
| `HonestLedgers.UnsignedHostVerifies` | src/host.ts:644-788 | for events without Level 2 members, at either level and with no hypothesis on adoption, nothing about numbers at all |
| `HonestLedgers.MadeIsVouched` | src/host.ts:486-503 | without registries, countersignatures can be asked of a host that gives them |
| `Vouching.AgreeingIsVouched` | src/host.ts:486-503 | registries that agree with the host's verifier on what it let pass and with its countersigner on what that signed bear out every record of the run |
| `Vouching.AgreeingAuditorVerifies` | src/verify.ts:678-733 | so an auditor with such registries finds in what any host stored at most missing or doubled numbers, no doubled ones where nothing forgotten was adopted, and the digest missed if and only if a record that landed is not adopted yet |
| `HonestLedgers.AttemptsAreSealedOnce` | src/host.ts:661-687 | no run seals two attempts of one id, and every success or failure follows its attempt |
| `HonestLedgers.OperationsAreSealedInOrder` | src/host.ts:750-786 | two records of one operation are its attempt and then its one terminal record |
| `HostDecisions.AttemptIsDecidedByRecords` | src/host.ts:644-702 | an attempt is accepted at once when exactly it is sealed; else refused as a replay if and only if its id is taken, its operation concluded or its number decided; else accepted if and only if it can be recorded |
| `HostDecisions.RepeatChangesNothing` | src/host.ts:661-667 | a repeat gets the accept of the record it has, and nothing is sealed or decided |
| `HostDecisions.UnavailableDecidesNothing` | src/host.ts:688-696 | an attempt that could not be recorded leaves its number and its operation open |
| `HostDecisions.ReplayIsDecided` | src/host.ts:668-687 | a replay leaves its number decided, its id rejected and itself on record |
| `HostDecisions.OutcomeIsDecidedByRecords` | src/host.ts:735-788 | an outcome is a repeat if and only if exactly it is sealed; else refused if and only if its operation is concluded, its number decided or its attempt not sealed; else sealed if and only if it can be recorded |
| `Adoption.SettlingKnows` | src/host.ts:442-470 | settling a tail in doubt leaves every open session knowing the chain if and only if no record is adopted into one that forgets it |
| `Adoption.TidyUntilAdoption` | src/host.ts:442-475 | over a whole run: every call is decided by a host whose sessions know the chain if and only if no call adopts so |
| `Adoption.AdoptionIsHarmful` | src/host.ts:460-466 | from any tidied state about to adopt so, one more event has the chain hold a number or a terminal record twice |
| `Adoption.OnlyAdoptionIsHarmful` | src/host.ts:442-475 | and nothing else does: from a tidied state, whatever comes, chain and store stay tidy as long as no call adopts so |
| `Adoption.ForgottenNumberIsSealedAgain` | src/host.ts:460-466 | a signed attempt adopted into its open session: the next attempt under its number is accepted, and the auditor reports the replay |
| `Adoption.ForgottenOutcomeIsSealedAgain` | src/host.ts:460-466 | a terminal record adopted into its open session: a second one is sealed for the operation |
| `Adoption.AdoptionNeedsItsHypothesis` | src/host.ts:460-466 | a run of three calls that gets there |
| `Restarts.PastIsInvisible` | src/host.ts:420-422 | no answer and no seal depends on the anomalies, rejections and closed sessions so far |
| `Restarts.ReopenedAsItWas` | src/host.ts:148-170 | a session rebuilt from its records and given its tracker back is the session it was |
| `Restarts.RestartIsInvisible` | src/host.ts:275-308 | a host resumed with every open session and tracker answers, seals and flags from there on as the one never restarted |
| `Restarts.RestartInDoubtIsInvisible` | src/host.ts:442-475 | and as the one whose tail was in doubt, where its next call settles that: this call and all later ones are answered alike |
| `Trackers.RunReceives` | src/host.ts:558-566 | every number sealed in an open session was received there, as long as none is adopted that was not |
| `Restarts.UnresolvedAre` | src/host.ts:311-330 | the fold over the records finds, once each, exactly the sealed attempts of ended sessions without a sealed terminal record |
| `Restarts.ClosingFlags` | src/host.ts:397-408 | closing a session flags exactly its sealed attempts without a sealed terminal record |
| `Restarts.EmptySessionsAreForgotten` | src/host.ts:380-388 | after a restart a session may be opened if and only if nothing is sealed under its id and it is not named: one that ended empty is not remembered |
| `RestartRuns.EmptySessionIsReopened` | src/host.ts:380-388 | a run that opens a session and closes it: its id is refused, and handed out again after a restart |
| `Restarts.ResumeFlagsWhatClosingWould` | src/host.ts:311-330 | resumed with no session named, a host flags what closing each open one would have |
| `Restarts.ResumeFlagsWhatClosingDid` | src/host.ts:311-330 | and of a session closed earlier what its close flagged, if and only if no record bearing on it was waiting in the store then |
| `RestartRuns.ResumeFlagsMore` | src/host.ts:397-408 | a run of three calls whose close flags nothing and whose resume flags an attempt |
| `Sections.Mutex.Claim` | src/mutex.ts:17-23 | a caller waits for the one that came before it |
| `Sections.Mutex.Release` | src/mutex.ts:24-29 | however a section ends, the next caller may go in |
| `Sections.OneMayEnter` | src/mutex.ts:13-31 | at most one caller may be inside |
| `Sections.SegmentLeaves` | src/host.ts:635-788 | cut at each wait, a stretch of a call changes nothing about what the rest of it comes to |
| `Sections.SectionsNeverOverlap` | src/mutex.ts:13-31 | a caller is let in only once every earlier one is answered |
| `Sections.InterleavingIsSequential` | src/mutex.ts:13-31 | however calls interleave, answers and host are those of running them one after the other in call order |
| `Sections.SomeoneCanProceed` | src/mutex.ts:24-29 | nobody is stuck: the first unanswered caller can always go on, a throwing section included |
| `Sections.WithoutTheLock` | src/host.ts:618-626 | let in at once, any two attempts that a countersigning Level 1 host without a repository would seal take one place, and both are accepted |
| `Tools.SuccessIsMarked` | src/session.ts:472-505 | the terminal outcome is a success if and only if success was marked and failure was not |
| `Tools.AuditedAction.Succeeded` | src/session.ts:472-476 | marks a success |
| `Tools.AuditedAction.Failed` | src/session.ts:484-486 | marks a failure |
| `Tools.AuditedAction.Dispose` | src/session.ts:488-505 | however often disposed of, one terminal outcome goes out, that of the marks made before the first time |
| `Tools.WithAudit` | src/with-audit.ts:32-48 | the handler runs if and only if its attempt was accepted and nothing was found wrong with the accept; what is sent is the attempt and then one outcome, that of how the handler ended or an abort |
| `ToolRuns.AuditBeforeAct` | src/session.ts:333-426 | over all interleavings, signed or not, and whatever the host's collaborators do: a body was entered only where its attempt is sealed; an operation has sent its attempt and then the one terminal outcome o if and only if it is over with o sent; o is a success if and only if the body ran and was marked so, and an abort if and only if it never ran |
| `ToolRuns.EveryAttemptEnds` | src/session.ts:300-321 | from the finish an attempt owes to the end of the run, what was sent of it is the attempt and the outcome it owed, or the attempt alone where that could not be built |
| `ToolRuns.HonestHostPassesPollutedStop` | src/session.ts:414-422 | what a host accepted hashes to what it answered |
| `ToolNumbering.AttemptIsTaken` | src/session.ts:350-371 | an attempt under the number expected is sealed or unavailable, and nothing is flagged |
| `ToolNumbering.OutcomeIsTaken` | src/session.ts:300-304 | an outcome that is owed is sealed or not recorded, and nothing is flagged |
| `ToolTurns.EmissionsAreSequential` | src/session.ts:84-147 | emissions cut at their waits, under one lock and one next number that advances when a send returned: however they interleave the world is that of taking each whole, the signed ones in the order they asked |
| `ToolTurns.OneIsInside` | src/session.ts:94-125 | one signed emission is inside at a time, and holds the next number |
| `ToolTurns.SomeoneMayProceed` | src/session.ts:94-125 | the first signed emission still pending may always go on |
| `ToolSequences.NothingOfItIsFlagged` | src/session.ts:84-147 | whatever else uses the host, no emission of a session numbered under one key adds an anomaly |
| `ToolSequences.SecondKeyOpensGap` | src/session.ts:94-125 | after the first emission, an attempt of a shared numbering is flagged as a gap if and only if another key signs it |
| `ToolSequences.TwoKeysAreFlagged` | src/session.ts:94-125 | a run of two attempts that is |
| `ToolAccounting.DeliveredIsAccounted` | src/verify.ts:299-354 | once every outcome is sealed and every unsealed attempt is said to have aborted, nothing of the session is left unaccounted |
| `ToolAccounting.RunIsAccounted` | src/session.ts:84-147 | and so for every run of one session from the start |
| `ToolInterleavings.AuditBeforeActAtEveryWait` | src/session.ts:333-426 | audit before act, with the emissions cut at their waits and interleaved: at every moment a body was entered only where its attempt is sealed, and what was sent of an operation fits how it stands |
| `ToolInterleavings.NothingIsFlaggedAtAnyWait` | src/session.ts:84-147 | whichever stretch of whichever emission comes next, it adds no anomaly |
| `ToolInterleavings.InterleavedIsAccounted` | src/session.ts:84-147 | and once every outcome is delivered nothing of the session is left unaccounted |
| `Fleets.FleetIsNotFlagged` | src/session.ts:84-147 | any number of sessions over one host: no emission of any of them adds an anomaly |
| `Fleets.FleetIsAccounted` | src/verify.ts:299-354 | once each has delivered what it owes, the auditor's whole list of missing numbers is empty |
| `Rounds.ProcessRound` | src/mcp/seam.ts:1790-1866 | wherever the deadline falls: what is handed on, in order and once; exactly the ids asked about answered, each as the last attempt that asks; nothing decided after it |
| `Rounds.UntilDeadline` | src/mcp/seam.ts:1809-1839 | the loop stops at the first wait that meets the deadline |
| `Rounds.AnswerRemaining` | src/mcp/seam.ts:1840-1864 | what follows the deadline is answered unavailable or put aside |
| `Rounds.RecordedInOrder` | src/mcp/seam.ts:1595-1606 | over all rounds of a call, what arrived to be recorded is recorded in that order, once each |
| `AuditTransports.McpAuditTransport.Settle` | src/mcp/seam.ts:185-205 | the first settlement stands |
| `AuditTransports.McpAuditTransport.Unanswered` | src/mcp/seam.ts:211-216 | settles as unanswered what is not settled |
| `AuditTransports.McpAuditTransport.MakeIdle` | src/mcp/seam.ts:1044-1057 | keeps a session idle, evicting the least recently idle beyond the bound |
| `AuditTransports.McpAuditTransport.Hold` | src/mcp/seam.ts:1213-1230 | keeps a concluded call for its retry, dropping the least recently kept beyond the bound |
| `AuditTransports.McpAuditTransport.Write` | src/mcp/seam.ts:1131-1210 | a handler answers: its frame finishes the call of its id, is swallowed, or passes through |
| `AuditTransports.McpAuditTransport.Take` | src/mcp/seam.ts:986-1015 | a new call is tracked |
| `AuditTransports.McpAuditTransport.SettleAwaited` | src/mcp/seam.ts:904-911 | each attempt of the round, with its answer or none |
| `AuditTransports.McpAuditTransport.Retry` | src/mcp/seam.ts:969-985 | resumes the call whose round is out under the token, and refuses any other |
| `AuditTransports.McpAuditTransport.SendAttempt` | src/mcp/seam.ts:775-808 | buffers an attempt, or sends it on its own under the older binding |
| `AuditTransports.McpAuditTransport.SendOutcome` | src/mcp/seam.ts:811-828 | buffers an outcome, or sends it on its own |
| `AuditTransports.McpAuditTransport.FireRoundTimer` | src/mcp/seam.ts:831-843 | ends the round in the turn after |
| `AuditTransports.McpAuditTransport.CancelRequest` | src/mcp/seam.ts:1108-1126 | drops the call served under the id, and remembers it |
| `AuditTransports.McpAuditTransport.TakeAnswer` | src/mcp/seam.ts:940-960 | an answer on the older binding settles the attempt it is for |
| `AuditTransports.McpAuditTransport.OnConnectionLost` | src/mcp/seam.ts:1237-1254 | abandons everyone and keeps nothing |
| `SeamRuns.EventsAreConserved` | src/mcp/seam.ts:775-869 | what a call's frames carried and then what it still holds is what its handler emitted, in order and once each, less the attempts unsent when it finished |
| `SeamRuns.FinalFrameDeliversAll` | src/mcp/seam.ts:1171-1210 | after the final frame nothing is held back |
| `SeamRuns.RoundOutWhenNothingIsOpen` | src/mcp/seam.ts:846-923 | a call being served has a round out if and only if no id is open |
| `SeamRuns.TokensResumeOnce` | src/mcp/seam.ts:969-987 | a round token resumes one call, its own, one time |
| `SeamSettling.SettlesOnce` | src/mcp/seam.ts:185-205 | over every run, what an attempt was settled with stays |
| `SeamSettling.AcceptComesFromItsOwnRetry` | src/mcp/seam.ts:887-911 | an attempt of a call served in rounds is accepted only by the retry that closed its own round, under the call's session |
| `SeamSettling.IdleCallHasDelivered` | src/mcp/seam.ts:716-741 | a call being served that is neither busy nor undelivered has delivered all it owes |
| `SeamAnswers.TwiceIffPassed` | src/mcp/seam.ts:1131-1161 | whatever ids are used: a request is answered twice if and only if it is the first of a call, the transport answered it, and the frame of that call's handler passed through |
| `SeamAnswers.TwiceIffLate` | src/mcp/seam.ts:1108-1161 | where no id is used again: if and only if it is the first of a call, a round answered it, and the call's handler answers after its cancellation is remembered no longer |
| `SeamAnswers.RequestsAreAnsweredOnce` | src/mcp/seam.ts:846-923 | so without such a handler every request, first or retry, is answered at most once, frames that pass through included |
| `SeamAnswers.LateHandlerAnswersAgain` | src/mcp/seam.ts:1117-1125 | a run that answers a request twice so |
| `SeamAnswers.ReusedIdIsAnsweredAgain` | src/mcp/seam.ts:993-994 | a run that does so with an id used again, and no round and no late handler |
| `SeamTallies.LiveCounts` | src/mcp/seam.ts:1019-1057 | whatever ids are used: a session counts the requests being served that carry it and the requests of it that lost their place to another under their id since the connection was last lost; it is idle if and only if that is none, and no more are idle than allowed |
| `SeamTallies.TakingCounts` | src/mcp/seam.ts:986-1000 | one arrival leaves right counts right if and only if it does not take the place of a request that carries a session |
| `SeamTallies.CountsAreRightThroughout` | src/mcp/seam.ts:986-1000 | over a whole run: the counts are right at every moment if and only if no arrival does |
| `SeamTallies.DisplacedIsNeverIdle` | src/mcp/seam.ts:1036-1057 | a session that lost count of a request so is neither idle nor dropped until the connection is lost |
| `SeamTallies.ReusedIdIsCountedTwice` | src/mcp/seam.ts:992-994 | a run in which one does: the session counts two requests and one is served |
| `SeamTallies.KeptSessionsKeepNumbering` | src/mcp/seam.ts:1019-1034 | whatever ids are used, a session keeps its numbering for as long as it is kept |
| `SeamTallies.CarriedSessionsStay` | src/mcp/seam.ts:1036-1057 | a session a request carries is not idle, and all requests that carry it between two moments without a drop share one numbering |
| `SeamSessions.BooksAreRight` | src/mcp/seam.ts:1019-1100 | where no id is used again in flight, each session counts the requests carrying it, is idle if and only if that is none, and both bounds hold |
| `SeamSessions.KeptCallsAreServed` | src/mcp/seam.ts:1213-1230 | a concluded call that is kept for its retry is being served and has its final frame, and no more are kept than allowed, as long as no kept call loses its place to another under its id |
| `SeamSessions.LoseClearsBooks` | src/mcp/seam.ts:1237-1254 | nothing stays on the books when the connection is lost |
| `Registries.HeldCallRegistry.CloseCall` | src/mcp/http.ts:675-691 | nothing leads to a closed call |
| `Registries.HeldCallRegistry.FindVictim` | src/mcp/http.ts:917-920 | the least recently used call that may be closed |
| `Registries.HeldCallRegistry.OpenCall` | src/mcp/http.ts:915-930 | opens a call, making room if it has to and can |
| `Registries.HeldCallRegistry.MoveLast` | src/mcp/http.ts:932-937 | the call becomes the most recently used |
| `Registries.HeldCallRegistry.DeliverClaim` | src/mcp/http.ts:1000-1031 | a retry that took its token is written, unless its call is closed |
| `Registries.HeldCallRegistry.Abort` | src/mcp/http.ts:647-652 | a request whose client went away is waited for no longer |
| `Registries.HeldCallRegistry.TargetOf` | src/mcp/http.ts:967-998 | a retry claims its token, unless it comes from someone else |
| `Registries.HeldCallRegistry.Consume` | src/mcp/http.ts:621-629 | the token is consumed, and the own state it stood for given back |
| `Registries.HeldCallRegistry.TakeAnswer` | src/mcp/http.ts:739-769 | an answer issues a token, ends the call, or leaves it open with no token |
| `RegistryInvariants.RegistryIsRight` | src/mcp/http.ts:901-937 | never more sessions than allowed, each held by one open call; every token leads to an open call that owns it |
| `RegistryInvariants.OwnStateComesBackOnce` | src/mcp/http.ts:621-629 | a tool's own state comes back at most once, to the call that issued it |
| `RegistryInvariants.MakingRoomIsSafe` | src/mcp/http.ts:611-613 | opening a session closes a call if and only if the session is new, the registry is full, and the call is the least recently used one that may be closed; then it has no request in flight, and every call its transport serves has delivered all it owes |
| `RegistryInvariants.RefusingIsNeeded` | src/mcp/http.ts:915-930 | a new call is refused only where the registry is full and none may be closed |
| `RegistryInvariants.OpenUntilClosed` | src/mcp/http.ts:675-691 | between two moments a call stays open if and only if no occurrence closes it: room made with it, its last answer, or a close from outside |
| `RegistryInvariants.ClaimedRetryIsServed` | src/mcp/http.ts:1000-1031 | a retry that took its token, however long it is on its way, is written and waits for its answer if and only if nothing closed its call since; else it is refused, and the tool hears nothing of it |
| `RegistryInvariants.ClaimedCallMayBeClosed` | src/mcp/http.ts:967-998 | a run in which a call is closed while a retry that took its token is on its way |

## Left out

- Hashes are free terms: a record hash is an injective constructor that is never the genesis hash. An event stands for its own canonical form and digest. Signatures, verifiers and countersigners are answers given to each call.
- Canonicalization and the event schema are two flags of an event; members the model does not name are one opaque value. Positions and host times are taken to be canonicalizable.
- Ids, sessions, keys and tokens are natural numbers: equality and an order are all the code uses of them.
- Events are of the current version, so the verifier's version order and its treatment of earlier versions are not part of this model; nor are custom record adapters, expected principals and expected identities.
- Texts of details, messages, warnings and logs; real time and timers, which are steps that may happen at any moment.
- Verify.VerifyLedger: does not model that versions may not go backwards, because all events are of one version.
- Restarts.RestartIsInvisible: assumes of the run before that nothing was adopted that an open session forgets, or has not received the number of (`Trackers.NeverUnreceived`); about attempts, outcomes and closes; what may be opened afterwards differs, as EmptySessionsAreForgotten says.
- Sections.InterleavingIsSequential: opening a session and switching persistence off take no lock; they happen between the interleavings considered, not inside one.
- Sections.SegmentLeaves: what a call's collaborators will answer is fixed when it is called, so a store shared with another writer is not modelled.
- ToolSequences.NothingOfItIsFlagged: assumes fresh event ids, a verifying signature, appends that fail without storing, a tail that can be read, and a session that stays open.
- ToolTurns.EmissionsAreSequential: a send that reached the host is one step with its answer; `Sections` cuts that one further.
- A numbering starts at 0; resuming one at a later number is not part of this model.
- Fleets.FleetIsAccounted: assumes a ledger that starts empty and holds no other sessions than these.
- Tools.WithAudit: nothing else happens between the attempt and the outcome of the one operation it runs.
- Rounds.ProcessRound: a throw of the endpoint is an answer like another, since the receiver turns it into one. Its retry, hold and cancellation paths around rounds are not modelled.
- SeamRuns.EventsAreConserved: sending a frame is part of the step that sends it and does not fail; losing the connection is a step of its own. A call is held after an error's last round in that same step.
- SeamAnswers.RequestsAreAnsweredOnce: a handler's frame is one step with what becomes of it. A handler answers its request at most once, as the protocol layer has it; one whose answer that layer suppresses never answers here.
- SeamSessions.BooksAreRight: assumes no request reuses the id of one still being served; SeamTallies.LiveCounts is what holds without.
- Of several calls served under an id that is cancelled, the code takes the first it finds; the model allows any.
- AuditTransports.McpAuditTransport.SendAttempt: an attempt that cannot be sent under the older binding is not modelled apart from the loss of the connection.
- RegistryInvariants.MakingRoomIsSafe: what a held call's requests write to its transport is any sequence of steps of that transport, not tied to the request that is in flight. Forwarding a retry to another instance and the idle timer's own checks are left to the steps that close a call.
- Negotiation, degradation, declarations, affinity tokens, reconciliation, key registries, HTTP parsing, streaming and the official handler: short case splits or plumbing.
- Cryptography, RFC 8785, key management and the schemas' regular expressions: foreign code.
