# Verified models of browsertools

This project models the stateful cores of browsertools and proves what they promise. Each core pairs a
producer that changes state step by step with a checker that must accept exactly what the producer can
emit; the main theorems connect the two sides.

`dafny verify dfyconfig.toml` checks everything.

## What is modelled

**The private cache** (`CacheModel`, `CacheInvariant`, `CacheTheorems`, `CacheCalls`, `CachePrune`,
`CacheRuns`, `CacheSolo`, `CacheLimit`, `CacheLosses`). Any number of callers share one directory tree. A
state is the tree and every caller's program counter; one step is one atomic file-system operation of one
caller, so a schedule is an interleaving and a caller that is never scheduled again has crashed. Inspecting
a lease and renaming it are separate steps. The inductive invariant carries four kinds of results: the exact
capacity bound (for every number of displaced leases one lemma builds the interleaving that reaches it),
fencing, rightful removal, and refinement of a write-once map with deletion. What a caller checked before it
committed, removed, recovered or answered is read off the states its own earlier steps met. What a caller
can still do after it has lost its lease is shown by concrete interleavings.

**Registration authoring** (`RegistrationModel`, `Evidence`, `EvidenceMeaning`, `RegistrationLog`,
`RegistrationSession`, `RegistrationTrail`, `RegistrationReport`, `RegistrationReview`,
`RegistrationServer`, `RegistrationResult`, `RegistrationAcceptance`, `RegistrationHandoff`). The server is
a class with the source's fields; browser, output, clock and cancellation are nondeterministic, and the
browser keeps a ghost log of what it was asked to do and what it reported. Every call in it is one the
session's situation allows, and everything a completion states is on that log: each observation is a report,
each preview a successful call right before the observation it names. A browser may run the network guard
below; its session is then never refused by its own network policy. The evidence checker is a set of loops
proved equal to a declarative relation, and that relation to a statement position by position of the
history. The result builder and verifier are functions. The theorems run end to end: every completion a
session returns is built exactly when the remaining outside facts hold, and what is built verifies exactly
from its creation until its expiry.

**Network guards** (`NetworkGuard`, `InteractiveGuards`, `RegistrationGuard`). Classes over one accounting
core with 64-bit counters. Every method is one step, so a sequence of calls is an interleaving; each class
is proved equal to a step function, each method also says by its arguments alone when it admits a call and
which violation a refusal leaves, and the theorems range over all sequences of steps.

**Authenticated authoring** (`Contexts`, `AuthorModel`, `AuthorLog`, `AuthorInvariant`, `AuthorTheorems`,
`AuthorReports`, `AuthorClaims`, `AuthorTeardown`, `AuthorServer`, `AuthorResult`, `AuthorProfiles`,
`AuthorOutcome`). `AuthorLog` is a machine over everything that crosses a session's boundary: client
messages, browser calls with their answers and times, messages sent, the file stored. No event is a decision
of the session alone; the machine computes what follows from the answers. Approval safety, goal freshness,
trace order, immutable contexts and the exact teardown are theorems about every log it accepts, and what the
session holds, asks, does and stores is traced field by field to what the browser reported and the client
said. The server class, handler by handler, is proved to produce only such logs, with the client's messages
in them in order. The context forest is built by the session, validated by the result builder, and the least
ancestor-closed part of it is selected for each profile.

**Guided authoring and the revalidation gate** (`Guide`, `GuideActions`, `Revalidate`, `GuideMeaning`), the
**standard-error ring** (`StderrRing`) and the **surrogate-escape scanner** (`Escapes`). `Wrappers` and
`PageText` are shared vocabulary.

## Where documentation and code differ

- The cache's constant is a maximum number of entries. At the grain of single renames the code can exceed it
  by one entry for each lease that was displaced and committed afterwards, and by no more:
  `CacheTheorems.CapacityBound` is the bound and `CacheLimit.BoundIsExact` reaches it for every number of
  leases.
- DeletePrivate checks its lease and then removes the entry, in two operations. When the lease expires or is
  displaced in between it can remove an entry that is not private (`CacheLosses.ExpiredLeaseDeletes`,
  `CacheLosses.DisplacedLeaseDeletes`); while it holds its undisplaced lease it cannot
  (`CacheTheorems.DeletesOnlyPrivate`).
- A store that a displaced lease took over its limit cannot be read any more, so Prune cannot make room in
  it (`CacheLosses.OverfullStays`).
- An author session does not always close what it opened: a session that the browser opens with an error, or
  after the time budget is spent, is dropped (authorsession/session.go:402-418), and a server message that
  cannot be written ends the run at once (authorsession/session.go:296-298). `AuthorTeardown.Teardown`
  proves that exactly these runs leave a session open; `AuthorOutcome.ErrorLeaves`, `LateLeaves` and
  `UnwrittenLeaves` are such runs. The registration session closes in all of these cases.
- A completed author session can still be refused by its own result builder;
  `AuthorOutcome.SessionResultsBuild` gives the exact condition and `AuthorOutcome.CompletedAndRefused` a
  run that a human confirmed and the builder refuses.

## Model

| member | source | states |
|---|---|---|
| `CacheInvariant.StepKeepsInv` | cache/cache.go:119-569 | one step of any caller, in any of Put, lease recovery, release, DeletePrivate and Prune, keeps the protocol invariant of the tree and of every other caller |
| `CacheInvariant.ReachableInv` | cache/cache.go:119-569 | the invariant holds in every state that any interleaving of any number of callers reaches |
| `CacheTheorems.CapacityBound` | cache/cache.go:176-207 | published entries never exceed the limit plus the leases that were displaced and committed afterwards, hence the limit itself while no lease was displaced |
| `CacheLimit.BoundIsExact` | cache/cache.go:317-343 | for every positive limit and every k a reachable state holds k entries more than the limit with exactly k displaced leases, each of which committed afterwards |
| `CacheLimit.FlatLimitFails` | cache/cache.go:180-192 | one displaced lease already takes every cache that admits an entry past its limit |
| `CacheTheorems.Fencing` | cache/cache.go:371-382 | after stale recovery removed a lease, its writer's commit rename fails and changes nothing, unless that lease had been displaced before |
| `CacheTheorems.CommitExclusion` | cache/cache.go:354-382 | of the callers whose lease was never displaced at most one can be about to commit successfully |
| `CacheTheorems.RemovalIsRightful` | cache/cache.go:326-340 | a lease directory disappears only through its own release or through a recoverer that inspected this very lease and found it expired at its own clock |
| `CacheTheorems.EffectIsRightful` | cache/cache.go:432-458 | the same for the effect of one program counter on one tree: everything but release and recovery of the inspected lease leaves every lease directory somewhere |
| `CacheTheorems.StepRefines` | cache/cache.go:119-209 | every step is an insertion of a complete entry under an unused digest, a deletion, or no change of the visible map |
| `CacheTheorems.RunRefines` | cache/cache.go:119-569 | every interleaving from the empty cache is a run of the write-once map that ends in the same entries; which deletions Prune and DeletePrivate make is `CachePrune` and `CacheCalls` |
| `CacheTheorems.WriteOnce` | cache/cache.go:148-152 | in such a run a digest that is not deleted keeps payload and metadata forever |
| `CacheTheorems.StoredIsStored` | cache/cache.go:193-209 | a Put that decides to succeed returns the entry it was given, and at that step the store holds its payload and its manifest under its digest |
| `CacheTheorems.ConflictingMetadataFails` | cache/cache.go:586-599 | over any run in which the store never holds the entry given for its digest, because nothing or other metadata is there, that Put does not succeed |
| `CacheTheorems.SuccessWasStored` | cache/cache.go:180-209 | over any run a caller that comes to carry a success decided it at a state where the store held exactly the entry it reports |
| `CacheTheorems.SuccessIsDecidedOnce` | cache/cache.go:180-207 | success comes from the commit rename or from the comparison with the stored entry and nowhere else, and is only carried through release |
| `CacheTheorems.DeletesOnlyPrivate` | cache/cache.go:524-569 | DeletePrivate whose undisplaced lease is still at the lock removes nothing but a private raw entry, whatever other callers have done |
| `CachePrune.MarkedWereExpired` | cache/cache.go:490-514 | whatever a Prune means to remove was visited earlier in the same call, and a complete entry with an expiry not after the time of the call was stored there then |
| `CachePrune.ListedWereFound` | cache/cache.go:232-285 | a Prune that notes or removes anything has, in the same call, listed a store within its limit and found a complete entry under every digest of that listing, noting each that had expired; one that was gone by then would have ended it |
| `CachePrune.SweepIsRightful` | cache/cache.go:499-513 | a removal by Prune takes what is stored under one digest and nothing else, and this is the expired entry the same call found there unless somebody took that one away in between |
| `CachePrune.UndisturbedPrune` | cache/cache.go:490-519 | a Prune that nobody disturbs, in whatever order it goes, keeps every entry that had not expired, and when it succeeds exactly the expired ones are gone and listed; it fails only when cancelled or on a store over the limit, which it leaves as it is |
| `CachePrune.SoloPrune` | cache/cache.go:490-519 | within the limit such a Prune can always finish and remove every expired entry |
| `CachePrune.StaysOrIsTaken` | cache/cache.go:119-569 | a stored entry stays what it is through every run in which no step takes it away |
| `CacheCalls.CommitWasChecked` | cache/cache.go:185-201 | a caller about to publish has taken exactly four steps since it staged: its lease was at the lock, its digest was free, the store was below its limit, its lease was at the lock once more |
| `CacheCalls.RemovalWasChecked` | cache/cache.go:524-569 | a DeletePrivate about to remove found, two steps before, a complete private raw entry under its digest, the one it reports, and then its lease at the lock |
| `CacheCalls.RecoveryWasChecked` | cache/cache.go:317-342 | a caller about to remove a stale lease had inspected it at the lock, found it expired at its own clock, renamed what was there, and read the same expired lease again |
| `CacheCalls.SuccessWasReleased` | cache/cache.go:180-184 | a call that answers with success has found its lease, renamed it away, found it again and removed it, unless it is a Put that met its own entry before it took a lease |
| `CacheCalls.PruneAnswers` | cache/cache.go:490-519 | a Prune that answers has removed each digest it answers with, and every entry of its listing that was found expired is among them |
| `CacheCalls.FourAttempts` | cache/cache.go:296-344 | an acquisition gives up at its fifth attempt and not before, and touches nothing then |
| `CacheCalls.NoTemporaryLeft` | cache/cache.go:156-161 | a temporary directory belongs to a Put that is still under way: nobody who is done has left one |
| `CacheLosses.ExpiredLeaseDeletes` | cache/cache.go:524-569 | when the lease expires between the check and the removal, a reachable state lets DeletePrivate remove an entry that is not private |
| `CacheLosses.DisplacedLeaseDeletes` | cache/cache.go:524-569 | the same when the lease is displaced and put back in between, although it is at the lock when the removal happens |
| `CacheLosses.MisledRemoves` | cache/cache.go:556-569 | in such a state the removal takes place and takes the entry that is not private |
| `CacheLosses.OverfullStays` | cache/cache.go:259-263 | one displaced lease can leave a store over its limit that no Prune can help, since reading it fails whatever has expired |
| `CacheTheorems.StoredUntilRemoved` | cache/cache.go:148-152 | through any run in which nobody removes it a stored entry stays what it is, so DeletePrivate can only meet another entry if its own was removed meanwhile |
| `CacheRuns.SoloPut` | cache/cache.go:119-209 | an undisturbed Put of a new digest with room publishes exactly its entry, leaves every lease directory alone and succeeds |
| `CacheRuns.SoloPutAgain` | cache/cache.go:148-152 | an undisturbed Put of a stored digest changes nothing and returns the stored entry when the metadata agree, and fails otherwise |
| `CacheSolo.SoloBusy` | cache/cache.go:317-324 | an undisturbed Put of a new digest while an unexpired lease is at the lock fails and leaves entries and leases as they were |
| `CacheSolo.SoloFull` | cache/cache.go:198-200 | an undisturbed Put of a new digest into a full store fails, whatever has expired, and leaves entries and leases as they were |
| `CacheSolo.SoloMeets` | cache/cache.go:193-206 | a Put that meets its digest stored under its lease, at its own check or after a lost commit, succeeds exactly when what is stored is its entry, and releases its lease |
| `CacheSolo.SoloRecover` | cache/cache.go:317-343 | an undisturbed Put that finds an expired lease removes it, publishes exactly its entry and leaves the lock free |
| `CacheSolo.SoloGone` | cache/cache.go:326-329 | a lease that is gone by the time it was to be recovered is no obstacle: the next attempt publishes |
| `CacheSolo.SoloMistakenRecovery` | cache/cache.go:332-339 | a Put that, recovering, renamed away another lease than it had inspected fails and, when nobody comes in between, leaves every lease where it was |
| `CacheSolo.SoloMistakenRelease` | cache/cache.go:432-458 | a release that renamed away a lease not its own makes the call fail and, when nobody comes in between, leaves every lease where it was |
| `CacheSolo.SoloMistakenStage` | cache/cache.go:185-192 | a Put that staged its entry into another's lease takes it out again and fails, and every lease stays |
| `CacheRuns.SoloDelete` | cache/cache.go:524-569 | an undisturbed DeletePrivate of a private raw entry removes exactly that entry, leaves every lease directory alone and answers with the entry |
| `CacheRuns.SoloDeleteRefused` | cache/cache.go:524-569 | where no complete private raw entry is stored it fails and changes nothing |
| `Evidence.ValidateControlMetadata` | registrationauthorsession/inputs.go:62-102 | accepts exactly the closed, consistent control definitions |
| `Evidence.ValidatePreview` | registrationauthorsession/inputs.go:106-141 | accepts exactly the previews that act on one uniquely matching, non-reserved public control in the one way its kind admits |
| `Evidence.IndexHistory` | registrationauthorsession/inputs.go:208-234 | accepts exactly the histories whose generations number them and whose candidates are well formed, and indexes every candidate |
| `Evidence.CheckPreviews` | registrationauthorsession/inputs.go:235-242 | accepts exactly the previews bound to an observed candidate, leading to the very next observation, in strictly rising order |
| `Evidence.CheckSteps` | registrationauthorsession/inputs.go:243-358 | the recipe walk accepts exactly the bindings in which every located step but the permitted wait is bound to a unique candidate on the page reached so far and generations never fall, and returns exactly the bound candidates |
| `Evidence.PageBeforeIsLastLanding` | registrationauthorsession/inputs.go:248-262 | the page before a step is where the last navigate or previewed click before it landed |
| `Evidence.CheckControl` | registrationauthorsession/inputs.go:297-340 | typed steps are accepted exactly when their control fits the slot |
| `Evidence.CheckVerification` | registrationauthorsession/verification.go:93-111 | accepts exactly the descriptors observed on a candidate bound to a submit |
| `Evidence.CheckSelected` | registrationauthorsession/inputs.go:359-368 | the selection is accepted exactly when it is the set of bound candidates without repetition |
| `Evidence.ValidateTypedEvidence` | registrationauthorsession/inputs.go:192-369 | the whole checker accepts exactly the declarative relation of typed evidence |
| `EvidenceMeaning.EvidenceMeans` | registrationauthorsession/inputs.go:192-369 | typed evidence, the relation, holds exactly when each preview, step binding and verification widget was possible on the very observation at its position of the history, and the selection is the set of bound candidates |
| `EvidenceMeaning.StepsIff` | registrationauthorsession/inputs.go:243-358 | steps are judged alike one after the other: what a step needs of its page rests only on the previewed clicks and navigations before it |
| `EvidenceMeaning.PreviewIff` | registrationauthorsession/inputs.go:106-141 | a preview is admissible exactly when it is of this very candidate, unique, under a public name, and acts in the one way its control admits |
| `RegistrationSession.WhitelistSeparatesVersions` | registrationauthorsession/protocol.go:199-240 | a decoded message carries step bindings, previews or verification authority only in the message types and versions that have them |
| `RegistrationSession.ObservationKeeps` | registrationauthorsession/session.go:270-306 | a further observation replaces every candidate, extends the history of typed protocols and keeps the session invariant |
| `RegistrationSession.PreviewKeeps` | registrationauthorsession/inputs.go:153-173 | recording an executed and observed preview keeps every recorded preview acceptable to the evidence checker |
| `RegistrationLog.IdleMeansSessions` | registrationauthorsession/session.go:596-609 | a browser log that ends between sessions is made of refusals and whole sessions: each opened session is closed exactly once and nothing is called after its close |
| `RegistrationTrail.PreviewPerformed` | registrationauthorsession/inputs.go:153-173 | a preview is put on record only with its own successful call and the report right after it, under the generation that report led to |
| `RegistrationTrail.Adopting` | registrationauthorsession/session.go:270-306 | an observation is put on record only as the reduction of the report just made in the same session |
| `RegistrationTrail.ClosingEvidenced` | registrationauthorsession/session.go:440-468 | a completion handed over after the close is borne out by the log: every observation by its report, every preview by its call immediately before the report it names, the authority by its grant |
| `RegistrationServer.ValidateReviewedSubmit` | registrationauthorsession/session.go:410-438 | accepts exactly the flows with one submit, portable by name, that one reviewed candidate matches |
| `RegistrationServer.Server.Start` | registrationauthorsession/session.go:221-268 | a started session has exactly the message's profile, origins and bounds and nothing observed, and the browser was opened once with them |
| `RegistrationServer.Server.ReduceObservation` | registrationauthorsession/session.go:483-571 | accepts exactly the sound reports, condition by condition; the reduced observation is then the report, candidate by candidate, under identifiers of the new generation, with each reported warning once and in order |
| `RegistrationServer.Server.ReduceCandidates` | registrationauthorsession/session.go:512-549 | accepts exactly when every candidate is admissible and no two have the same role and name |
| `RegistrationServer.Server.Observe` | registrationauthorsession/session.go:270-306 | the message sent lists what the browser just reported, which is a sound report; the actionable candidates become exactly those disclosed, the generation advances by one and earlier history stays |
| `RegistrationServer.Server.Navigate` | registrationauthorsession/session.go:308-328 | a navigation that succeeds was performed by the browser, as asked, in this session; no candidate survives it and nothing else changes |
| `RegistrationServer.Server.Preview` | registrationauthorsession/inputs.go:153-173 | a preview that succeeds was performed by the browser on the candidate and with the request the client gave, and looked at right after; it adds one generation and one record binding the request to it |
| `RegistrationServer.Server.ApproveVerification` | registrationauthorsession/verification.go:56-74 | authority is set once, only for the widget observed on a current unique candidate and only when the browser granted it, and nothing else changes |
| `RegistrationServer.Server.SelectCandidates` | registrationauthorsession/session.go:375-397 | accepts exactly distinct identifiers of observed, unique candidates that may be disclosed by name, and returns those candidates in order |
| `RegistrationServer.Server.ReviewProfile` | registrationauthorsession/session.go:330-408 | accepts exactly the sound reviews, condition by condition: the profile fits the session at the time the clock gives, the selection names observed candidates that may be disclosed, and evidence and submit bear it out; the recorded review is the message's and the observations are untouched |
| `RegistrationServer.Server.CloseSession` | registrationauthorsession/session.go:596-609 | closes at most once: the log grows by exactly one close when a session was open and not at all otherwise |
| `RegistrationServer.Server.Finish` | registrationauthorsession/session.go:440-468 | a completion is exactly the session's facts and review with the summary of a clean, policy-conforming close that was the last browser event, and the log bears out everything in it; a guarded browser that closes cleanly is never refused |
| `RegistrationServer.Server.Handle` | registrationauthorsession/session.go:182-219 | a message the phase does not admit tears the session down, and an admitted one that leaves it open has exactly the effect of its type |
| `RegistrationServer.Serve` | registrationauthorsession/session.go:107-180 | on every input, with every failure of output, browser and clock, each opened session is closed exactly once with no call after it, every call was lawful when it was made, a completion exists only after a clean close and is borne out by the log, and a session whose browser runs the guard is never refused for its network traffic |
| `RegistrationResult.BuildFlowReview` | registrationauthorresult/result.go:539-594 | the loop over the recipe finds the one submit, its one candidate and the checkpoints in order, or refuses |
| `RegistrationResult.CanonicalReviewed` | registrationauthorresult/result.go:600-620 | accepts exactly the sorted, distinct, well-formed reviewed candidates |
| `RegistrationResult.CanonicalDiagnostics` | registrationauthorresult/result.go:641-653 | accepts exactly the sorted sets of known warnings |
| `RegistrationAcceptance.BuildAccepts` | registrationauthorresult/result.go:190-335 | Build returns an envelope exactly for the acceptable completions, condition by condition: canonical times, sound bounds and counts, for the typed versions a history as long as the observations whose evidence holds with each reviewed candidate the observed one, for the older versions no evidence fields at all |
| `RegistrationAcceptance.BuildCarries` | registrationauthorresult/result.go:226-335 | the envelope carries the completion and its fixed claims field by field |
| `RegistrationAcceptance.VerifyAccepts` | registrationauthorresult/result.go:339-399 | Verify accepts exactly the envelopes that Build derives from an acceptable completion with their own fields, between creation and expiry |
| `RegistrationResult.RebuildIsIdentity` | registrationauthorresult/result.go:339-399 | rebuilding a built envelope from its own source gives the same envelope |
| `RegistrationResult.BuildVerifies` | registrationauthorresult/result.go:339-399 | a built envelope verifies exactly at the instants from its creation until the expiry of its profile |
| `RegistrationResult.VerifiedIsDetermined` | registrationauthorresult/result.go:339-399 | two verified envelopes with the same inputs are equal, so no derived field can differ |
| `RegistrationResult.VerifiedClaims` | registrationauthorresult/result.go:190-335 | a verified envelope has consistent versions and digests, no mutation, no execution claim and the fixed call policy |
| `RegistrationHandoff.SessionsBuild` | registrationauthorresult/result.go:190-335 | in all four versions Build accepts a session's completion exactly at canonical times not before the observation, while the profile is current, for a confirmed flow that creates an account |
| `RegistrationHandoff.SessionsVerify` | registrationauthorresult/result.go:190-399 | what a session hands over is built and then verifies until its profile expires |
| `RegistrationHandoff.ReviewedEvidence` | registrationauthorresult/result.go:600-620 | the candidates of a session's review pass the builder's own canonical-list check |
| `RegistrationHandoff.FlowReviewExists` | registrationauthorresult/result.go:539-594 | for a flow bound to one reviewed submit the flow review exists exactly when confirmation is required and account creation declared |
| `NetworkGuard.NetworkGuardCore.BeginRequest` | capture/network_guard.go:19-29 | counts the request, admits it exactly while nothing was violated and the limit is kept, and records the violation of the first one over it |
| `NetworkGuard.NetworkGuardCore.ObserveFinishedResponse` | capture/network_guard.go:37-44 | adds the size and answers true exactly within the limit, without overflow, and otherwise records the first violation |
| `NetworkGuard.Counted` | capture/network_guard.go:19-29 | admission happens exactly without violation and below the limit |
| `NetworkGuard.FinishResponse` | capture/network_guard.go:37-44 | the accounting invariant is kept and bytes change only by a counted size |
| `InteractiveGuards.AuthNetworkGuard.AllowRequest` | capture/playwright_auth.go:341-377 | admits exactly a request to an approved URL that is no child document, loads, uses a safe method or a POST in an open window with budget left, below the request limit and with nothing violated; each refusal records its own violation, or none for an ignored resource |
| `InteractiveGuards.AuthNetworkGuard.BeginInteraction` | capture/playwright_auth.go:379-395 | a window opens exactly when the step arms it |
| `InteractiveGuards.AuthNetworkGuard.EndInteraction` | capture/playwright_auth.go:397-408 | the value returned is the window's count and the window shuts |
| `InteractiveGuards.AuthorNetworkGuard.AllowRequest` | capture/playwright_author.go:841-879 | admits exactly a request that no local policy matches, to an approved URL, navigating only in a navigation window, with a safe method or a POST in an open window with budget left, below the limit and with nothing violated; each refusal records its own violation |
| `InteractiveGuards.AuthorNetworkGuard.BeginPost` | capture/playwright_author.go:927-935 | a POST window opens exactly when the step arms it |
| `InteractiveGuards.AuthorNetworkGuard.EndPost` | capture/playwright_author.go:936-942 | the value returned is the window's count and the window shuts |
| `InteractiveGuards.AuthRuns` | capture/playwright_auth.go:341-446 | any interleaving of the authentication guard's calls is a run of the window machine; every admitted request has an approved URL and is no child document, and a guard that is clean at the end refused nothing but ignored resources |
| `InteractiveGuards.AuthorRuns` | capture/playwright_author.go:841-976 | any interleaving of the authoring guard's calls is a run of the window machine; every admitted request has an approved URL that no local policy matches and navigates only inside a navigation window, and before its close a guard that is clean at the end refused nothing but matched requests |
| `InteractiveGuards.PostsConserved` | capture/playwright_auth.go:379-408 | in every run the values returned when windows end, with the open window, sum to the POSTs admitted |
| `InteractiveGuards.PostsStayInWindows` | capture/playwright_author.go:841-942 | a POST is admitted only inside a window with budget left and no window passes its budget |
| `InteractiveGuards.ViolationIsFinal` | capture/network_guard.go:46-50 | the first violation never changes and nothing is admitted or armed after it |
| `InteractiveGuards.BytesBounded` | capture/network_guard.go:31-44 | counted bytes only grow and stay within the limit, and so do requests while nothing is violated |
| `RegistrationGuard.RegistrationNetworkGuard.AllowBrowser` | capture/playwright_registration.go:458-500 | admits exactly a GET or HEAD that is not persistent and is either a navigation to a navigable URL inside a navigation window or an approved resource, before the close, below the limit and with nothing violated; says which refusals leave a violation |
| `RegistrationGuard.RegistrationNetworkGuard.BeginHead` | capture/playwright_registration.go:518-529 | admits and counts a HEAD exactly on an approved URL, outside a navigation window, before the close, below the limit and with nothing violated |
| `RegistrationGuard.RegistrationNetworkGuard.ApproveVerification` | capture/playwright_registration_verification.go:58-70 | the method is the guard's approval step: the authority is set once, whatever happened since the health check |
| `RegistrationGuard.TrafficKeeps` | capture/playwright_registration.go:458-529 | traffic of any length without an approval keeps the law, the limit and the authority |
| `RegistrationGuard.RegistrationNetworkGuard.AdmitVerification` | capture/playwright_registration_verification.go:103-147 | admits a provider request exactly under an approved authority, as its policy permits, in time, from the bound frame, not persistent and below its limit; any other refusal under an authority leaves a violation |
| `RegistrationGuard.RegistrationNetworkGuard.CountVerification` | capture/playwright_registration_verification.go:148-189 | counts a provider body exactly in time, within the authority's byte limit and with nothing violated |
| `RegistrationGuard.StepConserves` | capture/playwright_registration.go:458-529 | one call keeps requests = GET + HEAD within the limit and provider traffic within its authority while nothing is violated |
| `RegistrationGuard.RunConserves` | capture/playwright_registration.go:458-607 | every interleaving of guard calls keeps the conservation law |
| `RegistrationGuard.AuthorityWasApproved` | capture/playwright_registration_verification.go:58-70 | an authority that a run has was handed to the guard by an approval in that run |
| `RegistrationGuard.AdmittedTraffic` | capture/playwright_registration.go:458-529 | in every run each admitted request is of the kinds above, and provider traffic came under an authority approved earlier in the same run |
| `RegistrationGuard.CleanRefusals` | capture/playwright_registration.go:458-500 | a guard that is clean at the end refused only resources of other origins, provider URLs outside any authority, and what came after the close began |
| `RegistrationGuard.ViolationFreezes` | capture/network_guard.go:46-50 | the first violation is final and freezes every counter of admitted traffic, provider POSTs included |
| `RegistrationGuard.CleanSummaryAccepted` | registrationauthorsession/verification.go:113-131 | after any run a clean guard's summary passes the session's network check |
| `RegistrationGuard.CleanSummaryBuilds` | registrationauthorresult/result.go:622-639 | the same summary passes the result builder's bounds check |
| `RegistrationGuard.RegistrationNetworkGuard.Result` | capture/playwright_registration.go:599-607 | a clean result carries a summary the session accepts |
| `Contexts.AddContext` | authorsession/session.go:911-961 | adds a context exactly when it is addable and keeps known contexts and the forest |
| `Contexts.AddContexts` | authorsession/session.go:963-992 | terminates and accepts exactly the batches whose union with the known contexts is such a forest, in any order, and then adds exactly the batch |
| `Contexts.NotAllHeldBack` | authorsession/session.go:971-990 | pending contexts of a forest cannot all wait for each other |
| `Contexts.ParentLower` | authorresult/result.go:318-331 | a context is strictly higher than its parent, so no chain of parents repeats |
| `Contexts.ValidateContexts` | authorresult/result.go:301-331 | accepts exactly the graphs of at most 64 admissible contexts rooted within four steps |
| `Contexts.ForestValidates` | authorresult/result.go:301-331 | a session's forest always passes the result builder's context checks |
| `Contexts.SelectContexts` | authorresult/result.go:671-684 | terminates and returns the least ancestor-closed part of the graph with the requested contexts |
| `AuthorInvariant.NextSane` | authorsession/session.go:361-708 | every event keeps everything a session knows coherent: its forest, candidates, approvals, proofs, trace and selections |
| `AuthorTheorems.ClicksAreApproved` | authorsession/session.go:577-610 | a click reaches the browser only right after the client sent Approve with the identifier that the server had just shown for this very request |
| `AuthorTheorems.ApprovalsAreConsumed` | authorsession/session.go:577-610 | two clicks are accepted by two client messages with different identifiers |
| `AuthorTheorems.AskedByClient` | authorsession/session.go:528-610 | whatever is pending, accepted or under way is the request of the client's last Execute message |
| `AuthorTheorems.AdmissionsAreApproved` | authorsession/session.go:590-610 | an origin is admitted only right after the client accepted the identifier under which that origin was shown |
| `AuthorTheorems.NavigationsAreAllowed` | authorsession/session.go:528-610 | a navigation was asked for by the client inside the approved origins, or comes right after its origin was admitted |
| `AuthorTheorems.OriginsAreApproved` | authorsession/session.go:361-610 | the approved origins are always those of the start message and those admitted since |
| `AuthorTheorems.RunsStayInside` | authorsession/session.go:528-575 | whatever is executed stays within the origins approved at that moment |
| `AuthorReports.RecordsAreReported` | authorsession/session.go:845-909 | in every run each record a session holds is the candidate at its position of the browser's newest report, with the input, challenge kinds and target reported there, and every reported position has its record |
| `AuthorReports.ClicksActOnReports` | authorsession/session.go:528-575 | in every run a click acts on the candidate of the newest report at the position of its identifier, matched once there, and if the browser reported a target origin for it, that origin is one the session started with or one admitted before the click |
| `AuthorReports.ApprovalsAsk` | authorsession/session.go:528-588 | an approval asks for the client's last request under a number never used before: for a navigation exactly when it leaves the approved origins, for a click with the origin the browser reported exactly when that one is not approved |
| `AuthorReports.ObservationsList` | authorsession/session.go:845-909 | an observation sent lists exactly the candidates reported in time for the context asked for, each under an identifier of its own observation, context and position |
| `AuthorReports.CountIsLooks` | authorsession/session.go:422-440 | the observation count is the number of looks that client requests led to |
| `AuthorReports.ReportsAreSound` | authorsession/session.go:845-909 | only reports of the context asked for, inside the origins approved by then and the limits of the start message, are disclosed |
| `AuthorReports.OpeningsAreAsked` | authorsession/session.go:361-400 | the browser is opened on the first page and the origins of the sound start message just received |
| `AuthorReports.ScopeIsStart` | authorsession/session.go:361-420 | what a session is for is, at every moment, what its start message said |
| `AuthorReports.GoalIff` | authorsession/session.go:1125-1143 | a goal is proved exactly by one candidate of its page and context, matched once, that alone fits it |
| `AuthorClaims.SuccessIff` | authorsession/session.go:1145-1181 | success evidence is the goal where it is proved, and else exactly the first usable candidate of the best role when nothing else on the page has its role and name |
| `AuthorClaims.ArrivalIsReported` | authorsession/session.go:440-470 | the authentication proof is success evidence on the first observation sent that shows the dashboard of the start message |
| `AuthorClaims.LooksAreAsked` | authorsession/session.go:422-440 | the browser is looked at only for a request just received, at its context, known by then and within the limit, or for a confirmation with outputs, where the goal was proved |
| `AuthorClaims.FocusesAreAsked` | authorsession/session.go:477-503 | the browser focuses only the unique typed input of the newest report that the client just named |
| `AuthorClaims.PromptsAreFocused` | authorsession/session.go:477-503 | a human is prompted right after the client asked for it and, unless the input is never typed into the page, right after the browser focused it in time |
| `AuthorClaims.InputIsPrompted` | authorsession/session.go:477-503 | an open human input was prompted for as the newest report showed it, with exactly the challenge kinds reported or all of its sort |
| `AuthorClaims.InputsAreTraced` | authorsession/session.go:505-526 | a completed input was prompted for, was answered with a kind it offers, and enters the trace as the browser reported it |
| `AuthorClaims.RunsAreTraced` | authorsession/session.go:620-662 | an execution reported as done was answered in time within its POST budget and enters the trace as asked for and as reported, as authentication exactly before the dashboard was shown |
| `AuthorClaims.OutputsAreProved` | authorsession/session.go:664-780 | the selections of a completion are those of the confirmed requests, in the order of their keys, each on a candidate of the newest report found exactly once more on the goal's page looked at for it |
| `AuthorClaims.OpenQuestionsBlock` | authorsession/session.go:319-331 | after an approval is asked for or a human input prompted, any message but its own answer ends the session before anything else is done or said |
| `AuthorClaims.LastWordsAreTrue` | authorsession/session.go:677-708 | a result is reported ready right after its file was written, and a session closed right after the client asked for it and the browser closed cleanly |
| `AuthorClaims.KnowledgeIsReported` | authorsession/session.go:893-992 | contexts and diagnostics are exactly those of the reports disclosed and of the popups of answered executions |
| `AuthorClaims.ResultsSayWhatHappened` | authorsession/session.go:677-708 | a stored document says what happened in its run: start message, approved origins, reported contexts and diagnostics, newest goal proof, first arrival and proved selections |
| `AuthorTheorems.TraceIsHistory` | authorsession/session.go:505-662 | the trace is exactly the executions the browser answered in time and the inputs the client completed, with the counts and popups the browser reported |
| `AuthorTheorems.AuthenticationComesFirst` | authorsession/session.go:422-475 | every authentication step of a trace precedes every exploration step, and no human input follows the dashboard |
| `AuthorTheorems.ContextsOnlyGrow` | authorsession/session.go:911-992 | in every run a known context never changes or disappears, and the known ones are a forest |
| `AuthorTheorems.ObservationsAreReports` | authorsession/session.go:422-475 | an observation sent is the reduction of what the browser just reported in time for the context asked for |
| `AuthorTheorems.ProofIsFresh` | authorsession/session.go:620-675 | a standing goal proof is that of the newest observation, which reduces what the browser reported, and nothing was executed since |
| `AuthorTheorems.AgreementIsConfirmed` | authorsession/session.go:664-675 | a session is completed only by a client message that confirms the goal |
| `AuthorTheorems.ResultsAreFresh` | authorsession/session.go:664-708 | a result is stored right after a clean close that the client's Finish asked for, after the client confirmed the goal, with nothing executed between the proving observation and that close, and it carries the log's trace and origins |
| `AuthorTeardown.Teardown` | authorsession/session.go:265-420 | a complete run leaves a session open exactly when the browser opened it with an error or too late, or a message in the middle of the session could not be written |
| `AuthorTeardown.NothingAfterEnd` | authorsession/session.go:798-838 | the browser is opened at most once and never called after its session was ended, so no end is repeated |
| `AuthorServer.Server.StartSession` | authorsession/session.go:361-420 | a started session is the one asked for, inside its own origins, with nothing done; one that is kept came without an error and in time |
| `AuthorServer.Server.Reduce` | authorsession/session.go:845-909 | refuses exactly the inadmissible reports; otherwise the observation is the report, candidate by candidate, and every record has the input, challenge kinds and target of the reported candidate at its position |
| `AuthorServer.Server.CollectDiagnostics` | authorsession/session.go:893-906 | adds exactly the reported codes, and refuses exactly a malformed code or more than the limit |
| `AuthorServer.Server.ObserveContext` | authorsession/session.go:422-475 | accepts exactly a timely admissible report whose contexts join the known ones and that proves arrival where it shows the dashboard; candidates, contexts, diagnostics, proof and phase are then those of that report |
| `AuthorServer.Server.Focus` | authorsession/session.go:477-503 | a human input opens only on a current, unique input candidate, with exactly its challenge kinds, and nothing else changes |
| `AuthorServer.Server.CompleteHumanInput` | authorsession/session.go:505-526 | accepts exactly the pending input with a challenge kind it offers, traces it without a value and changes nothing else |
| `AuthorServer.Server.RequestExecute` | authorsession/session.go:528-588 | a request that passes its checks runs when it is a navigation inside the approved origins; otherwise exactly the approval it needs is left pending under the next identifier and nothing is done |
| `AuthorServer.Server.ApprovePending` | authorsession/session.go:590-610 | only the pending identifier is accepted, and it is consumed: its request runs once, or its origin is admitted and the action's own approval is asked for |
| `AuthorServer.Server.Run` | authorsession/session.go:620-662 | the session goes on exactly when the browser answered in time within the POST budget with a popup that can be added; then the proof is withdrawn and exactly that answer is traced |
| `AuthorServer.Server.ReviewOutputs` | authorsession/session.go:710-780 | accepts exactly distinct requests for current safe candidates that a timely fresh look at the goal's page proves again, and returns their selections with the counts of that page |
| `AuthorInvariant.SelectionsInOrder` | authorsession/session.go:778 | the selections come in the order of their keys |
| `AuthorInvariant.SelectionsAre` | authorsession/session.go:710-780 | the selections are those of the requests, each once, with distinct keys and candidates |
| `AuthorServer.Server.Complete` | authorsession/session.go:664-675 | completes exactly on a confirmation with reviewed outputs while the goal proof stands, and changes nothing but the selections and the phase |
| `AuthorServer.Server.FinishSession` | authorsession/session.go:677-708 | closes first; the file is written exactly after a clean close of a session whose facts the builder accepts, and holds exactly those facts |
| `AuthorServer.Server.Handle` | authorsession/session.go:319-359 | a message is the next event of the log, a message the phase or a pending approval does not admit ends the run, and whatever follows is what the log machine allows; only Finish stores a result |
| `AuthorServer.Serve` | authorsession/session.go:265-317 | on every input the whole log is accepted by the log machine to its end, its client messages are those of the input in order, a session stays open exactly where Teardown says, and a result is returned exactly when it was stored |
| `AuthorOutcome.SessionResultsBuild` | authorresult/result.go:151-385 | the builder accepts what a completed session knows exactly when its two URLs were given exactly and with safe paths, no name it needs was redacted, and every popup was opened by a click in its parent |
| `AuthorOutcome.CompletedAndRefused` | authorresult/result.go:434-531 | a run with an approved click on a button whose name was redacted, confirmed by the client and closed cleanly, whose result the builder refuses |
| `AuthorOutcome.ErrorLeaves` | authorsession/session.go:402-418 | the browser opens a session together with an error: the run ends with that session never closed |
| `AuthorOutcome.LateLeaves` | authorsession/session.go:809-830 | the session opens after the time budget is spent: the run ends with it never closed |
| `AuthorOutcome.UnwrittenLeaves` | authorsession/session.go:296-298 | the first report of an opened session cannot be written: the run ends with that session open |
| `AuthorServer.Server.SuccessProof` | authorsession/session.go:1145-1181 | the loops compute the success evidence: the goal if it matches, else the best eligible candidate when its role and name are matched once |
| `AuthorModel.BestOf` | authorsession/session.go:1149-1165 | the first eligible candidate of the best role, or none exactly when none is eligible |
| `AuthorInvariant.MatchMeets` | authorsession/session.go:1125-1143 | a matched goal satisfies the typed goal predicate on the goal's page and context |
| `AuthorResult.ValidateSelections` | authorresult/result.go:269-299 | accepts exactly the distinct, bounded, proved output selections of one observation |
| `AuthorResult.ValidateBuildRequest` | authorresult/result.go:215-385 | accepts exactly the requests with title and goal, sound URLs, proofs, bounds, diagnostics, selections, context graph and trace steps |
| `AuthorProfiles.BuildableIff` | authorresult/result.go:215-385 | the builder accepts exactly the sound requests, condition by condition |
| `AuthorProfiles.ForestIff` | authorresult/result.go:301-331 | contexts are a forest exactly when there are at most 64, each is sound and each is within four parents of the main page |
| `AuthorResult.Build` | authorresult/result.go:151-176 | both profiles exist exactly when the typed goal is met, the request is valid and every step compiles |
| `AuthorResult.BuildCapabilityProfile` | authorresult/result.go:533-639 | compiles the exploration steps in order, declares each selected output by its fields, and its contexts are the least ancestor-closed part with every context mentioned |
| `AuthorProfiles.CapabilityIs` | authorresult/result.go:543-577 | the capability profile has one step for every exploration step, at the position that counts those before it, with that step's fields, and no other |
| `AuthorResult.BuildAuthenticationProfile` | authorresult/result.go:434-531 | compiles the authentication steps in order after the initial page with the arrival proof as its output, and its contexts are the least ancestor-closed part with every context mentioned |
| `AuthorProfiles.AuthenticationIs` | authorresult/result.go:450-500 | the authentication profile has one step for every input and click of the authentication phase, in order, and credentials go into slots numbered in the order they were typed |
| `AuthorResult.SessionTracesCompile` | authorresult/result.go:543-577 | for a session's trace an exploration step is supported unless it is a click without a portable name |
| `Guide.DecimalInjective` | guide/guide.go:933-941 | decimal lengths are unambiguous |
| `Guide.FieldSplits` | guide/guide.go:933-941 | a length-prefixed field can be split off from whatever follows it |
| `Guide.IdentityInjective` | guide/guide.go:924-941 | two locators have one identity exactly when they are the same portable locator |
| `Guide.NewCatalog` | guide/guide.go:170-278 | there is a catalog exactly for at most 256 records with at most 8192 locators and 4096 outputs, none of them refused, and it is exactly theirs: each record, locator and output under its position, each output bound to an entry of its record with its locator, and nothing else |
| `Guide.AddLocators` | guide/guide.go:222-244 | exactly the locators of the record are added, each under its position, and the identity map leads from each to an entry of this record with that portable locator |
| `Revalidate.PassesMeansNoFailure` | revalidate/revalidate.go:158-200 | an action passes the gate exactly when it deserves no failure |
| `GuideMeaning.GateIff` | revalidate/revalidate.go:158-253 | an action passes exactly when a record is its own, every locator it relies on was observed in a record of its own, and each one observed there with an ambiguity note has a decision for it with a reason |
| `GuideMeaning.FailuresIff` | revalidate/revalidate.go:158-200 | the failures an action deserves, field by field: no record of its own, or else each locator it relies on that none of them observed, and each one observed with a note that was not reviewed |
| `Revalidate.ActionLocators` | revalidate/revalidate.go:202-225 | lists exactly the locators an action declares |
| `Revalidate.MatchingCandidates` | revalidate/revalidate.go:227-243 | finds a match exactly when some record shows the locator, and an ambiguous one exactly when some record notes it |
| `Revalidate.HasDecision` | revalidate/revalidate.go:245-253 | holds exactly when a decision for this action and locator states a reason |
| `Revalidate.CheckEvidence` | revalidate/revalidate.go:158-200 | reports exactly the deserved failures, so none exactly when every action passes |
| `GuideActions.BuildStep` | guide/guide.go:670-773 | accepts exactly the steps that carry what their kind requires and nothing else, and builds the step they stand for |
| `GuideMeaning.StepIff` | guide/guide.go:670-773 | the step of an intent, kind by kind: what it must carry, what it must not, and what becomes of it |
| `GuideActions.BuildOutputs` | guide/guide.go:514-545 | accepts exactly distinct, bound, selected outputs without conflicting keys, and carries each under its key |
| `GuideActions.DeclareOutputs` | guide/guide.go:546-597 | accepts exactly the declarations of selected unbound hints with a portable source and no conflicting key |
| `GuideActions.BuildDecisions` | guide/guide.go:775-831 | accepts exactly the resolutions that answer the ambiguous locators in use and no other, and decides each of them |
| `GuideActions.BuildAction` | guide/guide.go:469-630 | accepts exactly the fitting intents, realizes them, and its records, action and decisions pass the revalidation gate |
| `GuideMeaning.ActionIff` | guide/guide.go:469-831 | the intents accepted and their actions, field by field: distinct chosen records, each step and output at its position as asked for and on locators of chosen records, and exactly the ambiguous locators in use resolved with a reason |
| `GuideMeaning.AcceptedIff` | guide/guide.go:469-630 | an intent is accepted exactly when it has such an action |
| `GuideActions.BuildActions` | guide/guide.go:283-335 | the actions of an intent are built exactly when each fits and the limits on generated evidence and matching work are kept, and then the gate has nothing to report |
| `GuideActions.OthersDoNotMatter` | revalidate/revalidate.go:158-200 | evidence and decisions of other actions neither help nor harm an action |
| `StderrRing.Ring.Write` | authordiagnostic/startup.go:106-124 | any write keeps the ring the tail of everything written, wrapped around at the next position |
| `StderrRing.Ring.Snapshot` | authordiagnostic/startup.go:126-138 | returns as many of the last bytes written as fit, byte by byte, oldest first, truncated exactly when more were written |
| `StderrRing.Rotate` | authordiagnostic/startup.go:113-123 | where each retained byte of the new tail lies in the storage |
| `StderrRing.Drain` | authordiagnostic/startup.go:98-138 | after any sequence of writes the snapshot is byte by byte the end of their concatenation |
| `Escapes.ScanText` | browser_shapes_decode.go:65-102 | the loop with its index and flag computes the scan of the whole text |
| `Escapes.ScanPieces` | browser_shapes_decode.go:65-102 | on the rendering of any pieces of JSON text the scan answers whether every string pairs its surrogates |
| `Escapes.PairedIff` | browser_shapes_decode.go:65-102 | pairing read from left to right is pairing of neighbours: each high surrogate is followed at once by a low one and each low one follows a high one at once |
| `Escapes.UnicodeEscapesOk` | browser_shapes_decode.go:65-102 | on every JSON text, as section 7 of RFC 8259 has it, the scanner accepts exactly when in every string the code units with the digits of surrogates pair with their neighbours |

## Left out

Weaker than the source:

- AuthorServer.Server.FinishSession: whether the private file can be written is nondeterministic, so a result is never promised.
- AuthorServer.Server.StartSession: the clock read at the start may fail at any time, so acceptance is stated in one direction.
- CachePrune.UndisturbedPrune: entries are read and removed in any order, where the code goes by digest, and what was removed is a map.
- Guide.NewCatalog: records, locators and outputs are numbered in the given order; normalization, sorting, byte limits and the search for secrets are not modelled.
- GuideActions.BuildActions: the observation kind of the selected evidence and its times against the assessment are not checked (guide/guide.go:337-347).
- GuideActions.BuildAction: parameters, descriptions, side effects, confirmation and templates are one flag of the intent, white space is not trimmed, and records keep the order of selection.
- CacheTheorems.SuccessIsDecidedOnce: I/O errors other than missing or existing directories, and cancellation after the lease is requested, are not among the outcomes; a caller that stops at any step is.

Assumptions:

- Cache: mkdir and rename are atomic, renaming onto an existing directory fails, creating a lease with its owner file is one step, reading a directory is a snapshot, a published entry is removed atomically, nonces are distinct, and expiry is judged against any clock. Removal of a lease directory after a failed owner write (cache/cache.go:303-310) is dropped.
- SHA-256, candidate identifiers and JSON encodings are injective: they are constructors. The length of an encoded observation is a number the backend may choose.
- Which labels, origins, paths, URLs and keys the string validators accept is a flag or constructor of the value. Navigation URLs obey a stricter path rule than observed paths; both are flags.
- A browser that opens without an error returns a session, and a session's title and goal text are one flag.
- Candidates arrive in the backend's order; sorting them is a library call. Identifiers are compared by a fixed stand-in order.
- Calendar durations: a profile's verification and expiry instants are given when they parse.
- Profile schema validation is a flag of the profile.
- Guard methods receive the URL policy's decision as an argument; request counters are unbounded integers, byte counters 64-bit ones.
- A reviewed decision of the gate is taken to match an action by hint and portable locator with a stated reason.

Not modelled:

- Playwright, the DevTools protocol, Chromium start-up, DOM and accessibility reading, popup and frame discovery.
- File modes, symbolic links, inode checks, fsync, JSON text and strict decoding.
- Wizard, command line, operator terminal, worker hosts, registry HTTP client.
- `authassist` and `authreview`, which repeat the producer and checker pattern with fewer branches.
- Registry scoring, discovery, draft assembly, expiry and wait checks of the revalidation gate, the times and codes of diagnostic messages.
