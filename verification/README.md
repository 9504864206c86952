# Verified core of a connector gateway

This project models the parts of the gateway whose correctness is not visible from any
single function: who an agent's secret admits, what a shared catalog cache may serve, how
many calls reach a connector, how much authentication work may be outstanding, which call
arguments are echoed, and whether a projected search index answers like a fresh one. Each
part is a model of the program's behaviour plus proofs about every input and every run.

| part | files | form |
|---|---|---|
| agent token slots | `TokenStore`, `TokenProtocol`, `TokenInvariant`, `TokenMoves`, `TokenLanding`, `TokenSteps`, `TokenAdoptSteps`, `TokenRuns`, `TokenTheorems`, `TokenRevocations`, `TokenDemands`, `TokenVerdicts`, `TokenExamples` | interleaved transition system over one key-value store |
| catalog cache | `CatalogCacheModel`, `CatalogCacheInvariant`, `CatalogCacheSteps`, `CatalogCacheTheorems`, `CatalogCacheOutcomes`, `CatalogCacheExamples`, `CatalogChunks`, `ListingQueue` | transition system; loops for cutting chunks; a class for the listing queue |
| call admission | `CallAdmissionModel`, `CallAdmissionInvariant`, `CallAdmissionEvents`, `CallAdmissionTheorems`, `CallAdmissionVerdicts`, `CallAdmission` | a class proved against a state model, and theorems over runs of that model |
| authentication admission | `AuthAdmissionModel`, `AuthAdmissionTheorems`, `AuthAdmissionHistory`, `AuthAdmission` | the same |
| argument redaction | `RedactionPlan`, `RedactionSchema`, `RedactionPointer`, `RedactionSoundness`, `RedactionCompiles`, `RedactionApply`, `RedactionTheorems`, `RedactionCompiler` | functions and lemmas; a class for the compiler; a worklist loop |
| lexical index and bounded stores | `LexicalIndex`, `BoundedStore` | loops and lemmas; a class for the store |

`Options` holds the one type they share. A long conjunction is written `var holds := …; holds`
where a lemma uses it as a whole: the verifier then proves and hands on the predicate as one
fact instead of one per conjunct. It means the conjunction and nothing else.

**Token slots.** A call is a small program whose steps are single reads, issued writes and
answers. A write stays in flight until it lands or is lost, whether or not its caller still
waits, so an unanswered compare-and-set may have landed, may never land, or may land after
the caller has gone. Storage errors, deadlines, aborts and any number of retries may happen
at any step. A write whose answer is heard lands and is heard in one step, which loses no run:
between the two the call does nothing another call could notice. Record ids, revocation ids and digests are fresh; SHA-256 and the slot revision
are injective; the store starts with legacy records of distinct digests and no slots. The
theorems quantify over every run from every such store.

Three claims one would expect are false of the code, and the model keeps them as the code has
them:

- Every commit stores a new value, as the comments say (src/access-tokens.ts:81-83 and
  261-266). But an unconditional revocation reuses its revocation id; if its first swap goes unanswered but
  lands, and a rotation follows, its second swap in the same millisecond stores the identical
  revoked slot. `TokenExamples.RevokedValueReturns` is such a run, and
  `TokenTheorems.StoresNewValue` shows it is the only way: two commits store the same value if
  and only if one unconditional revocation made both at one clock reading.
- A refusal of `authorize` is correct at the read that decides it. But if an adoption
  moves the lookup between the lookup read and the record read, the legacy record is refused
  while the secret already admits (`TokenExamples.RefusedWhileAdmitting`).
  `TokenTheorems.AuthorizeRefusesNow` gives the exact condition, and
  `TokenTheorems.AuthorizeRefusedSometime` shows that every refusal is nevertheless correct at
  one of the call's own reads.
- A revocation with `expect` that reports `slot_changed` changed nothing, as its comment says
  (src/access-tokens.ts:574-577). But if the storage call of its swap throws although the swap
  lands, and a rotation follows, settling finds the rotation's slot and reports `slot_changed`
  (`TokenExamples.ChangedAfterOwnCommit`). `TokenRevocations.SlotChangedReport` gives the exact
  condition: one commit of the run left the slot the call had read, it came before the report,
  and the call committed if and only if it was settling an unanswered swap and that commit is
  its own. It commits nothing at or after the report (`TokenRevocations.NoCommitAfterChanged`),
  and if its swap was answered it never commits (`TokenRevocations.AnsweredNeverCommits`).

**Catalog cache.** Entries may expire at any time, the generation key does not. A set's
fingerprint stands for its value. `CatalogCacheTheorems.WholeReadsMatch` shows that the
fingerprint check never has to reject a complete read: fresh revisions already make torn
values impossible. An expired catalog that stands in for a failed listing is read like a get
and then asks for the generation and the fence in two reads. So one claim fails here too: an
invalidation does not retire it at once, since a replacement that lands between those two
reads goes unnoticed (`CatalogCacheExamples.StandsInAfterReplacement`).
`CatalogCacheTheorems.StandsInWhileCurrent` shows that the generation is current at the fence
read if and only if no replacement landed between them.

**Call admission.** One monotone clock is assumed; each waiter reads it when it is served, so
the model gives every reading its own non-negative tick. A partition callback's answer is an
input.

**Redaction.** A schema is a graph of objects with identity, so shared and cyclic schemas are
inputs like any other. `decodeURIComponent` is a function parameter. What is private is
defined independently of the compiler, as an inductive relation on chains of subschemas, and
so is which schemas compile: `RedactionCompiles.Compilable` speaks of the kinds of keyword
values, of where references lead, of chains and what they mark, and counts the schemas met.

## Model

| member | source | states |
|---|---|---|
| `TokenRuns.RunInv` | src/access-tokens.ts:457-842 | the invariant of the slot protocol holds in every state of every interleaving of rotate, revoke, adopt and authorize |
| `TokenTheorems.NamedOverOneInterval` | src/access-tokens.ts:515-535 | a record is named by one agent's slot only, over one contiguous stretch of the run |
| `TokenTheorems.SlotValueNeverRecurs` | src/access-tokens.ts:515-535 | an absent or issued slot value that has been left never comes back |
| `TokenTheorems.SlotChangesByCommit` | src/access-tokens.ts:443-446 | a slot changes only by a compare-and-set that some call issued, from exactly what it named |
| `TokenTheorems.OneCommitPerSlotValue` | src/access-tokens.ts:444-448 | of all swaps that start from the same absent or issued slot value at most one commits |
| `TokenTheorems.StoresNewValue` | src/access-tokens.ts:593-634 | two commits store the same value if and only if one unconditional revocation made both at one clock reading |
| `TokenExamples.RevokedValueReturns` | src/access-tokens.ts:593-634 | a concrete run in which a slot returns to an earlier revoked value |
| `TokenTheorems.RotatedSecretAdmits` | src/access-tokens.ts:443-446 | in every state the secret a rotation minted admits its agent if and only if the agent's slot names the minted record, so from the commit on, reported or not |
| `TokenTheorems.AdoptedSecretAdmits` | src/access-tokens.ts:812-842 | from a reported adoption on, the legacy secret admits the adopting agent if and only if its slot names the adopted record |
| `TokenTheorems.AdmitsWhileNamed` | src/access-tokens.ts:497-535 | a secret that admitted once admits in every later state whose slot still names its record |
| `TokenTheorems.NeverReadmitted` | src/access-tokens.ts:443-446 | a secret that stops admitting never admits again |
| `TokenTheorems.OneRecordPerDigest` | src/access-tokens.ts:693-789 | at most one committed record carries a given digest |
| `TokenTheorems.AdmittedForOneAgent` | src/access-tokens.ts:670-676 | a secret is admitted for at most one agent over the whole run |
| `TokenTheorems.AdoptionIsFinal` | src/access-tokens.ts:670-676 | once an adopted legacy digest is no longer named, no later adoption commits it again for any agent |
| `TokenTheorems.LookupNeverTaken` | src/access-tokens.ts:826-832 | the branch of an adoption that finds its lookup taken is never reached |
| `TokenTheorems.RotationReported` | src/access-tokens.ts:515-532 | a rotation that reports success committed its own slot swap, from the value it had read (`TokenDemands` says how that value relates to the one the caller named) |
| `TokenTheorems.RefusalNeverCommits` | src/access-tokens.ts:526-530 | an operation that ended in conflict, slot_changed or not_adoptable commits its record neither before nor after |
| `TokenTheorems.AbortedSecretNeverAdmits` | src/access-tokens.ts:531-535 | the undelivered secret of an aborted rotation admits in no later state |
| `TokenTheorems.ConditionalRevocation` | src/access-tokens.ts:640-665 | a conditional revocation that read an issued slot succeeds only by its own swap from exactly that slot (`TokenDemands.RevokedAsDemanded` ties it to the slot it named) |
| `TokenRevocations.SlotChangedReport` | src/access-tokens.ts:640-665 | for a revocation that read an issued slot and reports `slot_changed`: exactly one commit of the run left that slot, before the report; the call commits nothing else, and it committed if and only if it was settling an unanswered swap and that commit is its own |
| `TokenRevocations.NoCommitAfterChanged` | src/access-tokens.ts:640-665 | a revocation that reports `slot_changed` commits nothing at or after the step that reports it |
| `TokenRevocations.AnsweredNeverCommits` | src/access-tokens.ts:601-612 | a revocation that reports `slot_changed` other than by settling an unanswered swap commits at no step of the run |
| `TokenExamples.ChangedAfterOwnCommit` | src/access-tokens.ts:640-665 | a concrete run in which a conditional revocation commits from the slot it read and reports `slot_changed` |
| `TokenRevocations.RevocationReported` | src/access-tokens.ts:579-634 | the vacant or revoked slot a successful revocation reports is its agent's slot just before or just after the step that ends the call |
| `TokenRevocations.RevokedSecretNeverAdmits` | src/access-tokens.ts:579-634 | a secret that admitted the agent at any time up to the end of a successful revocation admits in no state from its report on |
| `TokenTheorems.AdoptionReported` | src/access-tokens.ts:812-842 | a reported adoption stands: its record is committed for the calling agent and the digest's lookup names it from then on |
| `TokenDemands.CommitsAsDemanded` | src/access-tokens.ts:474-535 | a rotation, adoption or revocation that named a slot value commits only from exactly that value, and one whose revision matches no slot commits nothing |
| `TokenDemands.RotatedAsDemanded` | src/access-tokens.ts:474-535 | a rotation that reports success took its agent's slot to the new secret, from the slot value named if one was |
| `TokenDemands.RevokedAsDemanded` | src/access-tokens.ts:593-634 | a revocation that named a slot succeeds by its own swap from exactly that slot, or reports that very slot, found vacant or revoked |
| `TokenDemands.FirstReadRefuses` | src/access-tokens.ts:470-475 | the first slot read refuses a call if and only if it named a slot value and the slot is not it |
| `TokenVerdicts.AuthorizeVerdict` | src/access-tokens.ts:908-948 | at every read of an authorization: how it goes on, and at the last that it admits exactly the agent the store admits at that instant, or refuses |
| `TokenVerdicts.RotationVerdict` | src/access-tokens.ts:515-535 | a rotation that learns its slot names its record reports success inside its window, is unknown outside it, and is undone if its request is gone; one whose swap lost reports conflict or `slot_changed` as it named a slot or not |
| `TokenVerdicts.OutcomeCaused` | src/access-tokens.ts:457-535 | `aborted` is reported only to an ended request, `slot_changed` only to a call that named a slot value, `conflict` only to one that named none and had proposed |
| `TokenVerdicts.AdoptionVerdict` | src/access-tokens.ts:693-789 | an adoption is refused as not adoptable at exactly the read that shows why |
| `TokenVerdicts.Advances` | src/access-tokens.ts:457-842 | every read and every answer brings a call nearer to its end, unless a compare-and-set lost |
| `TokenTheorems.DoneStays` | src/access-tokens.ts:457-842 | an operation that ended stays ended with the same outcome |
| `TokenTheorems.AuthorizeAdmitsNow` | src/access-tokens.ts:908-948 | an authorization admits only if lookup, record and slot all agree at the instant of its slot read |
| `TokenTheorems.AuthorizeRefusesNow` | src/access-tokens.ts:908-948 | a refused token admits at the refusing read if and only if an adoption overtook the call between its lookup and record reads and is still named |
| `TokenTheorems.AuthorizeRefusedSometime` | src/access-tokens.ts:908-948 | every refusal is correct at one of the steps in which the call itself read the store |
| `TokenExamples.RefusedWhileAdmitting` | src/access-tokens.ts:914-930 | a concrete run in which the record read refuses a secret that already admits |
| `CatalogCacheTheorems.RunInv` | src/catalog-cache.ts:949-1475 | the invariant of publication, generations and fences holds in every state of every run |
| `CatalogCacheTheorems.NoTornReads` | src/catalog-cache.ts:1194-1335 | a value a get returns is the complete value of one set, published at the address read, under the generation current at the step that returns it |
| `CatalogCacheTheorems.WholeReadsMatch` | src/catalog-cache.ts:1265-1295 | every complete read matches its manifest's fingerprint |
| `CatalogCacheTheorems.GenerationNeverReturns` | src/catalog-cache.ts:656-677 | a generation that is no longer current is never current again |
| `CatalogCacheTheorems.InvalidatedNeverServed` | src/catalog-cache.ts:949-997 | what was published under a replaced generation is served by no get that ends after the replacement, however the publication raced it |
| `CatalogCacheTheorems.CurrentChunksStay` | src/catalog-cache.ts:1391-1475 | every chunk of a current manifest is stored with its own part of the value, unless it expired |
| `CatalogCacheTheorems.CleanupSparesCurrent` | src/catalog-cache.ts:1445-1468 | a chunk that leaves a current entry left by expiry, never by the cleanup of superseded revisions |
| `CatalogCacheTheorems.StampsIncrease` | src/catalog-cache.ts:1417-1441 | an entry is replaced only by one with a later stamp |
| `CatalogCacheTheorems.FenceChanges` | src/catalog-cache.ts:1087-1105 | a standing fence goes only by expiry, by a newer refusal, or by a listing that captured that very fence |
| `CatalogCacheTheorems.RefusalSurvives` | src/catalog-cache.ts:1064-1105 | a refusal recorded after a listing captured its fence is never lifted by that listing |
| `CatalogCacheTheorems.FenceStands` | src/catalog-cache.ts:1083-1105 | a recorded refusal stands in every later state until its fence expires, a newer refusal is recorded at the same address, or a call that began only after it was recorded lifts it |
| `CatalogCacheOutcomes.RefusalRecorded` | src/catalog-cache.ts:1698-1725 | a refusal that ends has written a fence with a fresh mark at its own address, under its stored generation or else the one it read; the only exception is an attempt without a stored generation that found none |
| `CatalogCacheOutcomes.FencedUntilGone` | src/catalog-cache.ts:1083-1105 | from a fence's landing on, some fence stands at its address until one expires there or a call that began only afterwards lifts it |
| `CatalogCacheOutcomes.FencedNeverStandsIn` | src/catalog-cache.ts:1045-1063 | after a refusal ended with a generation to fence, no expired catalog of the address it fenced stands in until that fence is gone in one of those two ways |
| `CatalogCacheOutcomes.RefusedNeverStandsIn` | src/catalog-cache.ts:1698-1725 | the same for the refused attempt's own address, when its generation was stored |
| `CatalogCacheOutcomes.RemovalDone` | src/catalog-cache.ts:1477-1488 | a removal that ends has deleted its entry at that step |
| `CatalogCacheOutcomes.InvalidationDone` | src/catalog-cache.ts:656-677 | an invalidation that ends has stored, at that step, a generation it had drawn fresh |
| `CatalogCacheOutcomes.ReadVerdict` | src/catalog-cache.ts:1194-1335 | a step of a read ends in a miss if and only if the entry or the next chunk is absent, the generation is another or, to stand in, the fence stands, and in the whole value otherwise |
| `CatalogCacheOutcomes.MissingChunk` | src/catalog-cache.ts:1265-1295 | a chunk a read does not find has expired or its entry has been replaced |
| `CatalogCacheOutcomes.SetPublishes` | src/catalog-cache.ts:1340-1475 | a set that ends has published its value at its address and asked to lift exactly the fence it captured, or was overtaken by another generation |
| `CatalogCacheOutcomes.SetWithdraws` | src/catalog-cache.ts:1352-1362 | a set of a catalog that may not be reused ends only after deleting its entry or finding its generation gone |
| `CatalogCacheOutcomes.Advances` | src/catalog-cache.ts:949-1475 | every step and every answer brings a call nearer to its end, unless a compare-and-set lost |
| `CatalogCacheTheorems.StaleNeedsNoFence` | src/catalog-cache.ts:1045-1063 | an expired catalog that stands in is the complete value of one set, published at the address the call read; no fence stands at the step that decides it, and the call's last step before the fence read found that address's generation current |
| `CatalogCacheTheorems.StandsInWhileCurrent` | src/catalog-cache.ts:1045-1063 | at the fence read the generation is still current if and only if no replacement landed since the check before it |
| `CatalogCacheExamples.StandsInAfterReplacement` | src/catalog-cache.ts:1045-1063 | a concrete run in which a catalog stands in although its generation has just been replaced |
| `CatalogChunks.CutAtBoundary` | src/catalog-cache.ts:1393-1400 | valid UTF-8 may be cut before any byte that is not a continuation byte |
| `CatalogChunks.BoundaryNear` | src/catalog-cache.ts:1395 | a character boundary lies at most three bytes back |
| `CatalogChunks.Boundary` | src/catalog-cache.ts:1394-1395 | the backward loop stops within three bytes, at a boundary |
| `CatalogChunks.Split` | src/catalog-cache.ts:1385-1408 | the chunks are valid UTF-8, not empty, within the chunk limit, concatenate to the value, and never exceed the manifest's limit |
| `ListingQueue.Exclusive` | src/catalog-cache.ts:1519-1585 | whoever entered was preceded only by listings that are over: one at a time, in arrival order |
| `ListingQueue.NotStranded` | src/catalog-cache.ts:1580-1584 | once everyone ahead finished or was cancelled, the cancelled turns pass on and the waiting listing can enter |
| `ListingQueue.Gate.Enter` | src/catalog-cache.ts:1530-1541 | nobody else is active when a listing enters |
| `ListingQueue.Gate.Leave` | src/catalog-cache.ts:1575-1582 | the leaving listing is the active one and resolves only its own turn |
| `ListingQueue.Gate.Cancel` | src/catalog-cache.ts:1581-1584 | a cancelled waiter unlocks nobody |
| `CallAdmissionTheorems.RunGood` | src/call-admission.ts:216-551 | every event keeps the invariant of slots, queues, budgets, decisions and counts |
| `CallAdmissionTheorems.LimitsHold` | src/call-admission.ts:448-487 | active counts unreleased permits, every limit holds, calls wait only while all slots are taken, and every request is accounted for |
| `CallAdmissionTheorems.RollingWindow` | src/call-admission.ts:216-314 | no half-open window of the configured length holds more admissions and extra charges of a partition than the budget, across eviction and re-creation |
| `CallAdmissionTheorems.RetryIsLeast` | src/call-admission.ts:306-314 | the reported delay is the least after which the budget admits if nothing else is charged |
| `CallAdmissionTheorems.NoArrivalOvertakes` | src/call-admission.ts:473-475 | a call admitted on arrival found no waiter in its partition (`CallAdmissionVerdicts.ArrivalVerdict` says when it is admitted) |
| `CallAdmissionTheorems.GrantedInOrder` | src/call-admission.ts:262-290 | a call granted a slot queued before everyone of its partition who still waits |
| `CallAdmissionVerdicts.ArrivalVerdict` | src/call-admission.ts:392-487 | what every arriving call is told and what changes: with a place on the list it is admitted if and only if the window has room and no slot is missing, waits if and only if there is room, all slots are held and the queue is not full, and fails over budget with the least delay after which the window has room, or as too concurrent, otherwise |
| `CallAdmissionVerdicts.RoomIffNoRetry` | src/call-admission.ts:292-314 | the remembered admissions refuse a call exactly when the charges of its window reach the budget |
| `CallAdmissionVerdicts.RetryIsLeastDelay` | src/call-admission.ts:306-314 | the delay of such a refusal is the least after which the window has room |
| `CallAdmissionVerdicts.ServedVerdict` | src/call-admission.ts:262-290 | serving decides the first waiter only: refused if too late or over budget at its own clock reading, else granted the next permit and charged |
| `CallAdmissionVerdicts.DecisionVerdict` | src/call-admission.ts:262-290 | a waiting call that did not leave and was not closed out is decided only because a permit of its own partition came back |
| `CallAdmissionVerdicts.ExtraVerdict` | src/call-admission.ts:235-258 | an extra charge is admitted exactly when the permit is held and its window has room |
| `CallAdmissionVerdicts.ReturnedExactly` | src/call-admission.ts:228-233 | a permit comes back at exactly the step in which its holder is done or the call it was granted to turns out to be gone |
| `CallAdmissionVerdicts.EndingVerdict` | src/call-admission.ts:489-551 | a waiting call ends as its timeout, its abort, its scope or the decision it hears says |
| `CallAdmissionVerdicts.ClosingVerdict` | src/call-admission.ts:198-214 | closing refuses exactly the calls that still wait and takes nothing from anyone else |
| `CallAdmissionTheorems.DecidedOnce` | src/call-admission.ts:48-62 | decisions, endings and returned permits are never changed by any later event |
| `CallAdmissionTheorems.EveryoneDecided` | src/call-admission.ts:198-214 | every queued call still waits or is decided, never both; once closed all are decided |
| `CallAdmissionTheorems.NoSuccessAfterClose` | src/call-admission.ts:532-551 | no queued call succeeds after close |
| `CallAdmissionTheorems.UnusedIsReturned` | src/call-admission.ts:341-351 | a permit granted to a call that was interrupted or overtaken by close has been returned |
| `CallAdmissionTheorems.IdleIffAtRest` | src/call-admission.ts:164-168 | the controller is idle exactly when every partition has no permit out, no waiter, and no charge inside its window |
| `CallAdmission.Controller.PruneBudget` | src/call-admission.ts:292-304 | the loop drops exactly the admissions whose window has passed |
| `CallAdmission.Controller.PumpQueue` | src/call-admission.ts:262-290 | serves waiters first to last while a slot is free, each with the model's grant or refusal |
| `CallAdmission.Controller.ReleasePermit` | src/call-admission.ts:228-233 | returns the slot and serves the queue; a second release changes nothing |
| `CallAdmission.Controller.ChargeBudget` | src/call-admission.ts:235-258 | charges an extra call exactly when its permit is held and its window has room, and refuses it otherwise |
| `CallAdmission.Controller.EvictIdlePartitions` | src/call-admission.ts:316-327 | prunes every partition and removes exactly the idle ones |
| `CallAdmission.Controller.AcquireCall` | src/call-admission.ts:392-487 | the synchronous admission: a permit, a refusal or a place in the queue exactly as window, held permits and queue decide, with the whole new state |
| `CallAdmission.Controller.RemoveWaiter` | src/call-admission.ts:329-334 | takes the waiter out of its queue exactly when it is still there |
| `CallAdmission.Controller.GiveUpWaiting` | src/call-admission.ts:489-504 | a timeout or abort decides the waiter only by taking it out of the queue first |
| `CallAdmission.Controller.InterruptWaiting` | src/call-admission.ts:341-351 | an interrupted call withdraws, or returns the permit it was handed |
| `CallAdmission.Controller.HearOutcome` | src/call-admission.ts:532-547 | a grant is received unless the controller closed, in which case it is returned |
| `CallAdmission.Controller.CloseAll` | src/call-admission.ts:198-214 | refuses exactly the calls still queued and leaves everything else |
| `CallAdmission.Controller.IsIdle` | src/call-admission.ts:164-168 | answers true exactly when every partition is at rest |
| `AuthAdmissionTheorems.RunGood` | src/auth-admission.ts:59-236 | in every reachable state the counters are the numbers of active and abandoned charges, each at most 16, overdue charges are active, and they wait only while the allowance is full |
| `AuthAdmissionTheorems.ReleasedForGood` | src/auth-admission.ts:71-88 | whatever fires and in whatever order, a charge is released at most once and never charged again |
| `AuthAdmissionTheorems.NothingLeaks` | src/auth-admission.ts:205-235 | once all work has settled or been collected, both counters are zero and nothing is overdue |
| `AuthAdmissionTheorems.RefusedIffFull` | src/auth-admission.ts:196-204 | a request is refused exactly when a pool is full, and the reason tells which |
| `AuthAdmissionHistory.ReleasedExactly` | src/auth-admission.ts:71-88 | a charge is given back at exactly the event that settles its last pending piece of work, counted from the events, or reports it unreachable |
| `AuthAdmissionHistory.ChargedExactly` | src/auth-admission.ts:205-235 | in every state a charge is charged if and only if no event ended its work so far, and it is stalled if and only if its deadline has passed |
| `AuthAdmissionHistory.ArrivalCharged` | src/auth-admission.ts:186-212 | an arrival that finds both pools below their limits is charged for one piece of work, and any other is refused with the reason |
| `AuthAdmissionHistory.CollectedExactly` | src/auth-admission.ts:40-45 | every release by the collector is counted once and logged by the next arrival |
| `AuthAdmissionTheorems.DrainOrder` | src/auth-admission.ts:82-86 | freed room goes to the longest overdue charges, as far as it reaches |
| `AuthAdmission.Limiter.Expire` | src/auth-admission.ts:59-69 | a deadline moves an active charge to the allowance, or lists it as overdue when that is full |
| `AuthAdmission.Limiter.ReleaseCharge` | src/auth-admission.ts:76-88 | the release loop: frees the slot once and moves overdue charges while there is room |
| `AuthAdmission.Limiter.Authenticate` | src/auth-admission.ts:186-212 | admits with a new charge, or refuses with the reason |
| `AuthAdmission.Limiter.FinishWork` | src/auth-admission.ts:218-225 | a settlement releases the charge if and only if it is the last pending one, and then ends the watch |
| `AuthAdmission.Limiter.CollectToken` | src/auth-admission.ts:40-45 | the collector's release counts as unreachable only if it was the first |
| `RedactionPlan.MergeHides` | src/argument-redaction.ts:29-60 | merge hides a location exactly when one of its two plans does, prefix positions and tails included |
| `RedactionPlan.MergeNormal` | src/argument-redaction.ts:47-54 | every plan merge returns is in normal form, even from one that spells out public positions |
| `RedactionPlan.Canonical` | src/argument-redaction.ts:22-24 | normal plans that hide the same locations are equal |
| `RedactionPlan.EqualIffHidesSame` | src/argument-redaction.ts:22-24 | the comparison of alternatives decides whether they hide the same locations |
| `RedactionPlan.SensitiveIffHides` | src/argument-redaction.ts:19-21 | a normal plan is sensitive exactly when it hides some location |
| `RedactionPlan.MergeCommutes` | src/argument-redaction.ts:29-55 | merge is commutative on normal forms |
| `RedactionPlan.MergeAssociates` | src/argument-redaction.ts:29-55 | merge is associative on normal forms |
| `RedactionPlan.MergeIdempotent` | src/argument-redaction.ts:29-55 | merge is idempotent on normal forms |
| `RedactionPlan.MergePublic` | src/argument-redaction.ts:31-55 | merging with the public plan on either side is the rebuilding the model uses for one-sided properties |
| `RedactionSoundness.Sound` | src/argument-redaction.ts:83-152 | whatever a chain of subschemas of any length marks writeOnly, through any applicator, a successful walk hides |
| `RedactionSoundness.Exact` | src/argument-redaction.ts:83-152 | a walk's plan hides nothing that no such chain marks |
| `RedactionSoundness.CompiledExactly` | src/argument-redaction.ts:63-155 | a compiled plan is normal and hides exactly the private locations, none of which is private only through an applicator that is not implemented (`RedactionCompiles.CompilesIff` says which schemas compile) |
| `RedactionCompiles.CompilesIff` | src/argument-redaction.ts:63-155 | a schema compiles if and only if every chain of applied subschemas ends within 32 levels at schemas whose keyword values have the kinds required, whose references lead somewhere, whose unimplemented applicators mark nothing and, in strict mode, whose alternatives mark the same locations, and no more than 2048 schemas are met |
| `RedactionCompiles.WalkCounts` | src/argument-redaction.ts:84 | a finished walk has counted one visit for every occurrence of a subschema the graph holds within the levels |
| `RedactionSoundness.WalkNormal` | src/argument-redaction.ts:83-152 | every plan a walk returns is normal, and no walk visits more than 2048 schemas |
| `RedactionSoundness.StrictIsUnion` | src/argument-redaction.ts:115-127 | whenever strict compilation succeeds, uniting the alternatives succeeds with the same plan |
| `RedactionSoundness.ChainsEnd` | src/argument-redaction.ts:84-96 | a schema compiles only if no chain of applied subschemas exceeds the depth limit, so a cyclic one never does |
| `RedactionSoundness.WalkWithin` | src/argument-redaction.ts:84-96 | a plan compiled at some depth reaches no further down than the levels left |
| `RedactionPointer.UnescapeEscape` | src/argument-redaction.ts:76-77 | unescaping a reference token undoes the escaping of section 3 of RFC 6901 |
| `RedactionPointer.ReferenceResolves` | src/argument-redaction.ts:69-81 | a reference written as a JSON pointer resolves to the value at exactly those keys |
| `RedactionPointer.ReferenceIff` | src/argument-redaction.ts:69-81 | a reference resolves to a value if and only if it is a fragment that decodes to the pointer of some keys that lead to that value from the root |
| `RedactionCompiler.Compiler.Walk` | src/argument-redaction.ts:83-152 | the walk with its visited counter and active set returns the model's plan, or none, and restores the active set on every exit |
| `RedactionCompiler.RunCompile` | src/argument-redaction.ts:63-155 | running the compiler yields the model's plan or refusal |
| `RedactionApply.NeverTooDeep` | src/argument-redaction.ts:159-160 | applying a compiled plan never exceeds the depth limit |
| `RedactionTheorems.OmittedIff` | src/argument-redaction.ts:158-168 | a value is omitted exactly when it is hidden or holds a hidden value inside nested arrays |
| `RedactionTheorems.Survives` | src/argument-redaction.ts:165-177 | a location survives exactly when no hidden location is at it or forces an enclosing array out; scalars and array lengths are kept, so no index shifts |
| `RedactionTheorems.KeptWhole` | src/argument-redaction.ts:158-177 | a surviving location with nothing hidden below it keeps its whole value |
| `RedactionTheorems.NonInterference` | src/argument-redaction.ts:158-177 | inputs that differ only at or below hidden locations give the same output |
| `RedactionTheorems.HiddenIsMarked` | src/argument-redaction.ts:161-164 | every hidden value is reported, itself or inside a reported value |
| `RedactionTheorems.MarkedIsHidden` | src/argument-redaction.ts:161-164 | every reported value is the value of a hidden location |
| `RedactionTheorems.EchoNeverLeaks` | src/argument-redaction.ts:207-219 | the echo of call arguments does not depend on any private value, whatever the schema |
| `RedactionTheorems.EchoIsHonest` | src/argument-redaction.ts:207-219 | the redacted flag is set exactly when the schema does not meet the conditions for compiling or a private location is present; the value is missing exactly when it does not or a private value sits at the top or inside arrays nested from it; an unredacted echo is the whole value; no private location is in an echo |
| `RedactionCompiler.FindPrivate` | src/argument-redaction.ts:184-196 | the worklist finds a writeOnly annotation exactly when one is reachable, cycles included |
| `RedactionCompiler.VisitPrivateCallArguments` | src/argument-redaction.ts:181-205 | the values visited are the model's |
| `RedactionCompiler.EveryPrivateVisited` | src/argument-redaction.ts:181-205 | every private value is visited, itself or inside a visited value, or the whole argument is |
| `RedactionCompiler.OnlyPrivateVisited` | src/argument-redaction.ts:181-205 | a schema that carries the annotation but does not compile hands over the whole argument; otherwise only values at private locations are visited |
| `LexicalIndex.BuildIndex` | src/catalog.ts:245-272 | posts exactly the occurring tokens of each zone, each with all its positions in order |
| `LexicalIndex.BuiltOnce` | src/catalog.ts:280-289 | an index is determined by the indexed texts, so a kept one is the fresh one |
| `LexicalIndex.MatchesAgree` | src/catalog.ts:307-316 | the kept index, projected once or along any chain of order-preserving projections, matches the same tools as a fresh index of those left, for every zone and candidate set |
| `LexicalIndex.StatisticsAgree` | src/catalog.ts:431-487 | over any number of tool sets with their own synonyms, document count, match sets and document frequencies are the same through projected and fresh indexes, and a term's frequency is the number of visible tools that state it |
| `LexicalIndex.StatisticsExactly` | src/catalog.ts:440-490 | through the projected indexes, every visible tool of every set is counted, and a tool is a name, description or head match of a term exactly when a set it is visible in states the term in its name, its title, summary or tail, or all but its tail |
| `LexicalIndex.RanksAgree` | src/catalog.ts:567-599 | for any score, both indexes rank the same tools with the same orders, after any chain of projections |
| `LexicalIndex.RankTools` | src/catalog.ts:567-599 | the ranking loop passes over documents without a visible tool and does not count them |
| `BoundedStore.Store.Remember` | src/catalog.ts:297-304 | keeps at most four results whose sizes add up to the charged bytes within the limit, evicting oldest first |
| `BoundedStore.EvictedLeast` | src/catalog-cache.ts:711-715 | no entry is evicted that could have stayed beside the new one |

## Left out

- TokenRuns.RunInv: the token manager is modelled on values, as a transition system, because its calls interleave; one class per call would capture no more of the shared store.
- TokenTheorems.RotationReported: retry loops may run any number of rounds, so the bound of eight attempts is not modelled; every bounded run is one of the model's runs.
- Deadlines, abort signals and storage failures are nondeterministic choices; times are only compared.
- JSON text and key strings are typed values, with corrupt stored values, malformed presented tokens and slots revoked before revocation ids existed not modelled.
- What an adoption does after finding its lookup taken is not modelled: that branch is proved unreachable.
- Listing adoptable tokens and the snapshot read of `authorize` are not modelled; the snapshot is one of the interleavings of separate reads.
- CatalogCacheTheorems.RunInv: the cache client is modelled on values, as a transition system; credential identities, schema validation, redaction of stored catalogs and shared or private slots only choose the entry address.
- The 16-attempt bounds of publication and generation claims are not modelled, and neither is the time arithmetic of expiry and stale limits.
- The refresh observation of completed listings (`acceptCatalogRefresh`) is not modelled.
- CallAdmission.Controller.AcquireCall: queue-wait statistics and snapshots are not modelled; error texts are reduced to their kind and delay.
- AuthAdmissionTheorems.RunGood: timers may fire at any time and tokens may be collected at any time, so real deadlines and reachability are not modelled.
- RedactionSchema.Sections: the keywords of one schema are read before any of them is walked; the source interleaves the two, and a malformed keyword refuses the whole schema either way.
- RedactionPlan.Canonical: property order is not modelled, because merge sorts the names of every plan it returns and so equal plans serialize alike.
- LexicalIndex.RanksAgree: tokenizing, query expansion, inverse document frequency and score arithmetic are an arbitrary function of the document, the tool and the statistics.
- BoundedStore.Store.Remember: how the size of a result is estimated is an input.
- The evaluation harness, scripts, rendering of text and schemas, and activity records are not modelled: their properties are shallow beside these.
