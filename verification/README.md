# Keybroker: the managed host, its installer and the broker

A verification model of Keybroker's managed health release. It covers three parts.

**The release manager** keeps one host on an approved release. Its durable state is `installed.json`, the
`transaction.json` journal, the `current` link, a store of releases named by the hash of their manifest, and an
append-only audit. A check authenticates channel metadata, records its sequence and revocations, stages the release,
opens a transaction, moves the link, restarts the service, proves the live release and only then records it. A
rollback swaps the installed release with the previous one. Both first try to end a transaction that an earlier run
left open; there are transactions that no run can end, and the model says which.

- `Protocol.dfy` holds the disk and every durable step, each with the condition under which it may happen. A history
  is legal when each step was allowed on the disk it found.
- `Runs.dfy` holds the theorems about all legal histories: crash consistency, the commit point, proof before commit,
  anti-replay, durable revocation and quarantine, the store, the lease, and rollback.
- `Host.dfy` is the world under the manager. A script decides, effect by effect, whether it fails before, part-way
  or after, whether the failure is an error or the death of the process, whether the supervisor stops or restarts the
  service meanwhile, and where the clock moves. Nothing limits the script. A host is calm when its script
  breaks nothing, leaves the service alone and never turns the clock back.
- `Manager.dfy` is the manager itself, effect by effect in the manager's own order. Each method may take only steps that
  `Protocol` allows, so every theorem of `Runs` holds of the manager under every script. Its contracts also say what
  each result means, which audit lines it leaves, and what succeeds on a calm host.
- `Lifetime.dfy` strings invocations together, each starting from the disk that the last one left.
- `Reload.dfy` is the text of `installed.json` and what the next start accepts of it.
- `Metadata.dfy` authenticates and checks manifests. `Download.dfy` is the bounded read loop.
- `Requirements.dfy` says what is required of metadata, releases, authentication and the live proof in terms of bytes,
  hashes, fields and letters alone, apart from the definitions that the operations use, and ties the two together in
  both directions. `Promises.dfy` says in those terms what each operation and each main theorem promises.
- `Findings.dfy` says exactly when the code falls short of what a reader would expect, and `Scenarios.dfy` has the
  manager itself drive freshly installed hosts into those states.

**Build and installation** (`Bundle.dfy`, `Install.dfy`) produce the first state. A bundle that the builder writes
loads back byte for byte, its manifest is accepted, and a completed installation is a disk from which every theorem of
`Runs` applies.

**The broker** (`Keys.dfy`, `Redaction.dfy`, `Audit.dfy`, `Broker.dfy`) redacts secrets and writes an audit record
before any output. Connections are interleaved freely; only the audit writes take turns.

## Where the code and its promises differ

- An upgrade consults only the manifest's own revocation list (`deploy/managed/release-manager.py:325`). A release that
  an earlier manifest revoked can be offered again, installed, and is then refused by the next check.
  `Findings.UpgradeLandsRevokedIff` gives the exact condition; in `Scenarios.OfferedAgain` it happens to a freshly
  installed host on which nothing fails.
- A transaction can be left that no check, rollback or status request ever ends (`Lifetime.StayUnending`, under every
  script). On a host that was installed the condition is exact: with a valid policy, a calm start and recovery end an
  open transaction if and only if it is not `Unending` and the clock has reached the installed release's issue
  (`Lifetime.EndTransaction`). `Findings.TransactionIsUnendingIff` lists all the causes. Recovery refuses a revoked
  target (lines 278 and 282), which leaves an upgrade to an already revoked release, cut after its commit, and an
  operator's rollback away from a revoked release, cut before its commit. A link move refuses to start over a
  temporary link (line 229), which one killed between the two calls of line 230 leaves behind; the refusal asks for a
  review, and nothing removes the link. And no start reads a state file over the size limit (line 190) or with a lease
  below clock 1 (line 196), so that an upgrade that records one and is cut before its journal goes is never ended.
  `Scenarios.OfferedAgain` passes the first two on a freshly installed host, `Scenarios.KilledInLink` ends in the
  third although nothing is revoked, `Scenarios.RevokedTooMany` passes the fourth and `Scenarios.CommittedAtClockZero`
  is a step into the fifth. No transaction onto or off a revoked release avoids its point
  (`Findings.LandingRevokedPassesStuck`, `Findings.LeavingRevokedPassesStuck`).
- The revocation and quarantine lists have no bound of their own, and the next start reads at most 65536 bytes. Up to
  972 entries together always reload; 975 or more never do (`Reload.ReloadLimit`). In `Scenarios.RevokedTooMany` two
  accepted manifests of 500 revocations each, of which either has under 35000 characters and an envelope under 47000
  (`Scenarios.HalfFits`), end a freshly installed host; `Lifetime.StayShut` says that no invocation repairs it.
  `Reload.EveryFileLoadsIff` is the exact condition for every history.
- A lease recorded at a clock below 1 is written and then refused by the next start (`Scenarios.RenewedAtClockZero`,
  exact condition in `Reload.StepKeepsSound` and, over whole histories, `Reload.EveryStateReloads`).
- `docs/how-keybroker-works.md:120` promises one JSON object per decision. After a torn write the next record shares
  its line (`Audit.TornWriteHidesNextRecord`). `Audit.EveryRecordHasItsLineIff` says for which sequences of writes and
  faults the promise holds.
- `docs/how-keybroker-works.md:122` names authorisation among the redacted keys. The marker is spelled with a z, so a
  key spelled with an s is not redacted (`Keys.AuthorisationIsNotRecognised`).

## Model

| member | source | states |
|---|---|---|
| Runs.StepKeepsConsistent | deploy/managed/release-manager.py:272-289 | One durable step, of any operation, keeps crash consistency: without a journal the link and the service are the installed release; with one they lie between its two distinct ends; every release named is fully verified |
| Runs.EveryReachableDiskIsConsistent | deploy/managed/release-manager.py:272-289 | Wherever a history of checks, rollbacks, recoveries and crashes stops, the disk is crash consistent |
| Runs.InsideTransaction | deploy/managed/release-manager.py:335-356 | Between the journal's creation and its removal the installed release is the candidate from the committing record on and the old release before it; before it nothing but the quarantine list has changed |
| Runs.CommitPoint | deploy/managed/release-manager.py:272-289 | However many recoveries were interrupted, once the journal goes the link names the candidate if and only if the committing record reached the disk; otherwise the old release, lease, sequence and revocations stand as the transaction found them |
| Runs.CommitFollowsProof | deploy/managed/release-manager.py:343-356 | Every commit follows a moment, inside its transaction and after the link last moved, at which the committed release was verified, linked, running and gave all seven right answers |
| Runs.ProofWasMade | deploy/managed/release-manager.py:247-270 | A proof on record stems from a probe that succeeded since the link last moved |
| Runs.EveryVouchedReleaseProves | deploy/managed/release-manager.py:343-371 | Once it does at the start, as after an installation, every release that current, previous or the standing proof names proves itself at every point of every history |
| Runs.UsableByClockAlone | deploy/managed/release-manager.py:211-270 | On an installed host the installed and the previous release stay verified and able to prove themselves, so that the clock alone decides whether they can be used |
| Runs.StoreOnlyGrows | deploy/managed/release-manager.py:291-309 | No step replaces or removes a stored manifest or executable |
| Runs.VerifiedStaysVerified | deploy/managed/release-manager.py:211-224 | A release that passed full verification passes at every later point of every history and every later clock, from the same manifest |
| Runs.LedgerOnlyAdvances | deploy/managed/release-manager.py:324-339 | Across every history the sequence never decreases, equal sequences mean the same metadata, and revocations and quarantines are never lost |
| Runs.NoEquivocation | deploy/managed/release-manager.py:327-328 | Two manifests accepted at one sequence number, anywhere in a history, are the same bytes, or are themselves two inputs with one hash |
| Runs.NoReplay | deploy/managed/release-manager.py:327-328 | No manifest is accepted after one with a higher sequence |
| Runs.RevocationsAreDurable | deploy/managed/release-manager.py:329-331 | Each revocation of each accepted manifest is on disk at every later point |
| Runs.RevocationsWereAccepted | deploy/managed/release-manager.py:329-331 | Nothing else is ever revoked: each new revocation stems from a manifest accepted meanwhile that lists it |
| Runs.FetchFollowsRecord | deploy/managed/release-manager.py:329-340 | When an artefact is fetched, its manifest has been recorded and all its revocations are already durable |
| Runs.RevokedCurrentBlocks | deploy/managed/release-manager.py:313-335 | Once the installed release is revoked, nothing is accepted, approved offline or upgraded until an operator's rollback has committed |
| Runs.RollbackLandsUnrevoked | deploy/managed/release-manager.py:358-371 | A rollback commits only to a release that no manifest accepted so far has revoked |
| Runs.QuarantineIsPermanent | deploy/managed/release-manager.py:326-351 | A quarantined release is never again the candidate of an upgrade |
| Runs.LeaseMovesOnlyWhenVerified | deploy/managed/release-manager.py:336-354 | The lease changes only in a renewal or a completed upgrade, to the clock and expiry just verified: it then ends after that clock and at most 604860 seconds later, and steps back by at most a minute |
| Runs.LeaseAlwaysBounded | deploy/managed/release-manager.py:311-354 | A lease bounded at the start is bounded at every point of every history |
| Runs.OfflineUseStaysInLease | deploy/managed/release-manager.py:318-322 | Offline approvals between two lease records lie between a minute before the last verification and the earlier of expiry and the policy's grace after it, with a grace of at most a day, and change nothing on disk |
| Runs.InstalledStands | deploy/managed/release-manager.py:272-289 | Link moves, restarts, proofs, staging and audit lines leave the installed state alone |
| Runs.TwoRollbacksRestore | deploy/managed/release-manager.py:358-372 | Two committed rollbacks with no acceptance, upgrade or quarantine between them restore the whole installed state |
| Protocol.GuardSurvivesService | deploy/managed/release-manager.py:240-245 | The supervisor acting between the manager's decision and its effect never disallows the effect, and moves nothing but the service |
| Protocol.WritesBeyond | deploy/managed/release-manager.py:200-201 | Whatever a longer history wrote beyond a shorter one is among the writes it adds |
| Hosts.Host.Atomic | deploy/managed/release-manager.py:68-80 | A replacement happens whole or not at all, fault by fault; it is refused when an interrupted one left its temporary file, and only a fault part-way leaves one |
| Hosts.Host.RestartService | deploy/managed/release-manager.py:235-245 | A completed restart runs what the link names; an interrupted one may leave the service down |
| Manager.Manager.Open | deploy/managed/release-manager.py:175-198 | A start succeeds exactly when the policy and the fields are valid and the written state fits the size limit |
| Manager.Manager.Record | deploy/managed/release-manager.py:200-201 | The state on disk is the old one or the new one; a return means the new one |
| Manager.Manager.Audit | deploy/managed/release-manager.py:203-209 | A return means exactly this entry was appended; earlier entries are never lost |
| Manager.Manager.RecordAndAudit | deploy/managed/release-manager.py:200-209 | A return means the new state is on disk and its audit line follows |
| Manager.Manager.Release | deploy/managed/release-manager.py:211-224 | Returns only for a release whose manifest hashes to its name and whose executables have exactly the described hash and length and are read-only, and on a calm host exactly for those, however long past their expiry |
| Manager.Manager.Link | deploy/managed/release-manager.py:226-233 | The link stays or names the given, fully verified end of the transaction; on a calm host it moves exactly when nothing was left over and the release is intact; over a leftover it never moves; killed part-way it leaves one and nothing else |
| Manager.Manager.Probe | deploy/managed/release-manager.py:247-270 | A return means the linked release's service was up and gave all seven right answers, written out, the denials included; on a calm host with the release running it returns exactly for an intact release that does so, and otherwise names the failed proof |
| Manager.Manager.Activate | deploy/managed/release-manager.py:344-346 | Link, restart and proof together change nothing but the link, its proof, the service and leftovers, and return only with the linked release live; on a calm host exactly when it is intact, proves itself and nothing is left over |
| Manager.Manager.Recover | deploy/managed/release-manager.py:272-289 | Recovery never changes the installed state or the store, never needs an operator on a consistent disk, and returns only without a journal and with the link on the installed release; on a calm host it ends the transaction exactly when its target is intact, proves itself, is unrevoked and nothing is left over; a blocked transaction it never ends and leaves as it is |
| Manager.Manager.Prepare | deploy/managed/release-manager.py:291-309 | Staging ends in a fully verified release made of what was there and what was offered, and touches no other release; with honest downloads on a calm host it resumes an interrupted staging whenever what is there is right and no temporary file blocks the rest, and only then unless the stored manifest collides with the announced one |
| Manager.Manager.OpenRelease | deploy/managed/release-manager.py:291-298 | Finds the directory with its own manifest or makes both; a directory whose manifest was never written is refused |
| Manager.Manager.MakeRelease | deploy/managed/release-manager.py:297-298 | A new release directory holds exactly its manifest; a leftover blocks it |
| Manager.Manager.StageRole | deploy/managed/release-manager.py:299-308 | An executable already there is kept or refused, never replaced; a new one has the described bytes and nothing else changes; on a calm host it succeeds exactly when the role is ready |
| Manager.Manager.StageRoles | deploy/managed/release-manager.py:299-308 | Every executable is kept or downloaded, no other release changes, and with honest downloads on a calm host this succeeds exactly when every role is ready |
| Manager.Manager.StagedIntact | deploy/managed/release-manager.py:291-309 | What staging leaves passes full verification when the staging was possible, and only then unless the stored manifest collides with the announced one |
| Manager.Manager.StagedProves | deploy/managed/release-manager.py:291-309 | A staged release proves itself exactly when the executable found or offered does |
| Manager.Manager.FetchArtefact | deploy/managed/release-manager.py:304-307 | Returns only the offered bytes, and only with exactly the described length and hash |
| Manager.Manager.OpenUpgrade | deploy/managed/release-manager.py:340-343 | The transaction opens only on a verified candidate that is already on the audit, and leaves the installed state and link alone; on a calm host it opens whenever the release can be staged |
| Manager.Manager.Begin | deploy/managed/release-manager.py:341-343 | The journal opens from the installed release to the verified one recorded last, and nothing else changes |
| Manager.Manager.Transact | deploy/managed/release-manager.py:344-356 | An open transaction ends in the promoted state with the candidate, or in the old state plus one quarantine; on a calm host the first exactly for a candidate that proves itself, the second for one that does not |
| Manager.Manager.Switch | deploy/managed/release-manager.py:340-356 | A return means the promoted state over a verified release; a reported failure means the old state plus one quarantine; both end without a journal and with link and service agreeing; on a calm host a release that can be staged is installed if it proves itself and put back if not, and one that cannot be is refused without a conclusion |
| Manager.Manager.PutBack | deploy/managed/release-manager.py:347-351 | A reported failure means the old release is linked, the service runs it or is down, the candidate is quarantined and the journal gone; on a calm host it gets there when the old release is usable and nothing is left over, and only then |
| Manager.Manager.Quarantine | deploy/managed/release-manager.py:350-351 | The candidate joins the quarantine list and nothing else in the state changes, then the journal goes |
| Manager.Manager.ProveOrAbandon | deploy/managed/release-manager.py:364-368 | Restart and proof of the rollback target, or the installed release again with the journal gone; on a calm host exactly when the target proves itself |
| Manager.Manager.OpenRollback | deploy/managed/release-manager.py:360-364 | A rollback opens its journal and links its target without touching the state; killed part-way through the link it leaves a transaction that is blocked |
| Manager.Manager.Complete | deploy/managed/release-manager.py:352-356 | A return means the new release is installed with the old one as previous, audited, and the journal gone |
| Manager.Manager.Accept | deploy/managed/release-manager.py:329-356 | What admitted metadata leaves, case by case, and every state it can leave when it is cut short; a newly revoked installed release is refused after its record and its audit line; on a calm host each case gets its answer (that the record precedes every download is Runs.FetchFollowsRecord) |
| Manager.Manager.Advance | deploy/managed/release-manager.py:339-356 | The record of another release comes first, then its switch, with every state and write that it can leave |
| Manager.Manager.Consider | deploy/managed/release-manager.py:324-356 | Each refusal of authenticated metadata holds for its own reason and leaves the state untouched; on a calm host the reason decides the refusal |
| Manager.Manager.UseOffline | deploy/managed/release-manager.py:318-322 | Approval only inside the lease, audited first, with the state unchanged, and refusal only outside it; on a calm host the answer depends on the lease alone |
| Manager.Manager.Ask | deploy/managed/release-manager.py:316-356 | Without authenticated metadata the installed state cannot change; offline approval needs an unreachable channel |
| Manager.Manager.Check | deploy/managed/release-manager.py:311-356 | Every conclusion, approval or refusal, with its reason, the exact state it leaves, what became of the store and the exact audit lines; a check that is cut short or fails leaves what it found, the record of the announcement, or that record with the quarantine or the upgrade; a consistent disk never needs an operator; on a calm host whose disk stands in no way of it, the answer is the one that state, channel and the clock it reads call for, each refusal included |
| Manager.Manager.DueOnAnnouncement | deploy/managed/release-manager.py:311-328 | With an authenticated announcement, an unrevoked release and a clock that stands, the answer due is decided by the announcement |
| Manager.Manager.DueDependsOn | deploy/managed/release-manager.py:311-356 | The answer due depends on the disk only through the installed state, the store and the leftovers |
| Manager.Manager.AdmissionConcludes | deploy/managed/release-manager.py:329-356 | Which conclusion each outcome of admitted metadata amounts to, and what it adds to the audit |
| Manager.Manager.AdmissionLands | deploy/managed/release-manager.py:329-356 | The installed states that admitted metadata can lead to |
| Manager.Manager.Exchange | deploy/managed/release-manager.py:360-372 | A return means current and previous changed places and nothing else in the state did; on a calm host it returns exactly when the previous release is usable and nothing is left over; a failed proof leaves the state alone and, on a calm host, is reported after the old release is back |
| Manager.Manager.Rollback | deploy/managed/release-manager.py:358-372 | Either the state is untouched or current and previous are exchanged, and then the previous release was not revoked; on a calm host it returns exactly when recovery and the swap are possible; a blocked transaction makes it fail and is left as it is |
| Lifetime.Invoke | deploy/managed/release-manager.py:374-392 | A report names the identity of the verified installed release; status changes nothing durable |
| Lifetime.LiveThrough | deploy/managed/release-manager.py:374-392 | Any sequence of invocations under any script keeps a consistent host consistent and its ledger advancing |
| Lifetime.StayUnending | deploy/managed/release-manager.py:272-289 | An unending transaction outlasts every check, rollback and status request under every script, and nothing on disk changes |
| Lifetime.EndTransaction | deploy/managed/release-manager.py:175-289 | On an installed host a calm start and recovery end an open transaction if and only if the policy is valid, the transaction is not unending and the clock has reached the installed release |
| Lifetime.RollBackCalmly | deploy/managed/release-manager.py:175-372 | On an installed host a calm start and rollback succeed if and only if the policy is valid, the state can be read, there is an unrevoked previous release, nothing was left over, no open transaction is stuck and the clock has reached the releases it verifies |
| Lifetime.StayShut | deploy/managed/release-manager.py:175-198 | A state that a start cannot read stays as it is and fails every invocation |
| Lifetime.RollBackTwice | deploy/managed/release-manager.py:358-372 | Two completed rollbacks restore the installed state and the link exactly |
| Lifetime.RecoverUntilDone | deploy/managed/release-manager.py:272-289 | After any number of interrupted recoveries and one that returns, the link names the candidate exactly when the installed state already did |
| Promises.PolicyOkIff | deploy/managed/release-manager.py:180-188 | A policy is valid exactly when it is enabled and each field is in its written-out range |
| Promises.StateOkIff | deploy/managed/release-manager.py:191-198 | A state is valid exactly when each field is in its written-out range |
| Promises.Start | deploy/managed/release-manager.py:175-198 | A start succeeds exactly for a valid policy and a valid state whose text has at most 65536 characters |
| Promises.TextLengthInPlain | deploy/managed/release-manager.py:82-83 | The exact length of the text of a valid state |
| Promises.AnnouncedIff | deploy/managed/release-manager.py:316-323 | What a manager takes as announced is exactly what the channel address authentically answers |
| Promises.DownloadsWhatWasBuilt | deploy/managed/release-manager.py:304-305 | An executable is fetched from under its release tag by the name the builder gave its file |
| Promises.CheckOnce | deploy/managed/release-manager.py:311-356 | A check from its start: every acceptance it adds to the history is authentic, every change of the state follows from authentic admissible metadata, every answer means what it says and is on record, and on a calm host it is the right one |
| Promises.DueInPlain | deploy/managed/release-manager.py:311-337 | The answer due on a calm host, written out for every state, every answer of the channel and every manifest |
| Promises.RecoverOnce | deploy/managed/release-manager.py:272-289 | A recovery from its start writes nothing of the state, and when it returns there is no transaction, the link is right and the record names what was ended |
| Promises.RollBackOnce | deploy/managed/release-manager.py:358-372 | A rollback from its start exchanges current and previous and nothing else, on condition only that previous is not revoked |
| Promises.CommittedAnsweredRight | deploy/managed/release-manager.py:343-371 | Whatever is committed was verified, linked, running and gave all seven right answers inside its transaction |
| Promises.ReachableInPlain | deploy/managed/release-manager.py:272-289 | Crash consistency of every reachable disk, release by release |
| Promises.LedgerInPlain | deploy/managed/release-manager.py:324-339 | What every later state keeps of an earlier one, field by field |
| Promises.CommitPointInPlain | deploy/managed/release-manager.py:272-289 | Where the link stands when a transaction ends, by the committing events |
| Promises.RevokedInPlain | deploy/managed/release-manager.py:313-335 | With a revoked release installed only a committed rollback lets acceptance, offline use or an upgrade go on |
| Promises.RollbacksInPlain | deploy/managed/release-manager.py:358-372 | Two rollbacks with no other write between them restore the installed state |
| Promises.BuildOnce | deploy/managed/build.py:35-65 | A build: the manifest field by field, every binary under its name, the bootstrap and the installer |
| Promises.InstallOnce | deploy/managed/install.py:151-224 | An installation completes only from a sealed bundle that fits host and account, on a quiet host from every one, and leaves exactly the written-out files, policy and state |
| Promises.InstallableIff | deploy/managed/install.py:151-224 | What fits, written out: platform, account, files, acceptable metadata still in force, executables as described, and a service that gives the right answers |
| Reload.TextLength | deploy/managed/release-manager.py:82-83 | The exact length of the written state, from its fields and the number of entries, in whatever order they are written |
| Reload.LoadsInAnyOrder | deploy/managed/release-manager.py:35-48 | Whether a written state loads does not depend on the order of its lists |
| Reload.ReloadLimit | deploy/managed/release-manager.py:35-48 | Up to 972 revoked and quarantined entries always reload, 975 or more never do |
| Reload.StepKeepsSound | deploy/managed/release-manager.py:191-198 | A step keeps the state acceptable to the next start if and only if a lease it records was verified at a clock of at least 1 |
| Reload.EveryStateReloads | deploy/managed/release-manager.py:191-198 | After every history from a sound state the fields pass the next start if and only if the lease that stands was recorded at a clock of at least 1 |
| Reload.EveryStateRestartsIff | deploy/managed/release-manager.py:189-198 | After every such history the next start succeeds if and only if, besides, the closed-form length is within 65536 |
| Reload.EveryFileLoadsIff | deploy/managed/release-manager.py:189-198 | After every such history the written file loads, in whatever order its lists are written, if and only if its lease and its closed-form length are in range |
| Findings.UpgradeLandsRevokedIff | deploy/managed/release-manager.py:325-354 | An upgrade lands on the release accepted last, which is then revoked if and only if it was in the durable list before its metadata was accepted |
| Findings.TransactionIsStuckIff | deploy/managed/release-manager.py:276-284 | The release that an interrupted transaction must recover to is revoked exactly for a committed upgrade to an already revoked release or an uncommitted rollback away from one |
| Findings.LeftoversStay | deploy/managed/release-manager.py:68-80 | A temporary file is there exactly when it was there before or an interruption left it since; nothing removes one |
| Findings.TransactionIsBlockedIff | deploy/managed/release-manager.py:226-289 | Recovery will always refuse an interrupted transaction in exactly three cases: those two, and a temporary link left by an interrupted link move |
| Findings.TransactionIsUnendingIff | deploy/managed/release-manager.py:175-289 | An interrupted transaction can never be ended in exactly these three cases, or when the lease that stands was recorded at a clock below 1, or the state has outgrown what a start reads |
| Findings.CommitBelowOneIsUnending | deploy/managed/release-manager.py:352-354 | Every upgrade that commits at a clock below 1 passes a point where its transaction can never be ended |
| Findings.LandingRevokedPassesStuck | deploy/managed/release-manager.py:325-356 | Every way onto a release that was already revoked leads through an upgrade that is beyond recovery if cut after its commit |
| Findings.LeavingRevokedPassesStuck | deploy/managed/release-manager.py:358-372 | Every way off a revoked release leads through a rollback that is beyond recovery if cut before its commit |
| Scenarios.RenewAndUpgrade | deploy/managed/release-manager.py:175-356 | On a freshly installed calm host the manager, started anew each time, renews its release and then upgrades to the next one |
| Scenarios.RefuseAndGoBack | deploy/managed/release-manager.py:175-372 | When that release is revoked, the next check refuses it and a rollback returns to the old one |
| Scenarios.OfferedAgain | deploy/managed/release-manager.py:325-372 | A freshly installed host upgrades to a release its own manifest had revoked and rolls back, passing both points at which stopping is beyond recovery |
| Scenarios.KilledInLink | deploy/managed/release-manager.py:226-233 | A freshly installed and upgraded host without a single revocation: a rollback killed part-way through the link move leaves a transaction that nothing ever ends |
| Scenarios.RevokedTooMany | deploy/managed/release-manager.py:330-356 | A freshly installed host accepts two manifests of 500 revocations each, and the manager does not start again; cut inside its upgrade the run leaves a transaction that recovery would end and no start can |
| Scenarios.FirstWasAccepted | deploy/managed/release-manager.py:330-339 | In that run the first half of the revocations stems from the first manifest |
| Scenarios.CutInUpgrade | deploy/managed/release-manager.py:330-356 | The second half stems from the second manifest, and just before the upgrade commits there is an open transaction that recovery does not refuse and a state that no start reads |
| Scenarios.HalfFits | deploy/managed/release-manager.py:35-48 | A manifest of 500 revocations has at most 35000 characters and its envelope at most 47000, inside the limit of 65536 |
| Scenarios.RenewedAtClockZero | deploy/managed/release-manager.py:196 | On a freshly installed host a renewal at clock zero is allowed and the next start refuses the state |
| Scenarios.CommittedAtClockZero | deploy/managed/release-manager.py:352-354 | An upgrade committed at clock zero and cut there is unending although recovery would not refuse it |
| Metadata.Authenticate | deploy/managed/release-manager.py:120-145 | Bytes are trusted exactly when their hash is approved, or the key and signature are well formed, the verifier is the pinned one and it accepts |
| Metadata.ReadManifest | deploy/managed/release-manager.py:147-172 | Metadata is accepted exactly when it is well formed and the clock lies between a minute before issue and expiry |
| Metadata.ManifestRefusals | deploy/managed/release-manager.py:147-172 | A refused manifest can never be mistaken for a decision about the installed release |
| Metadata.ExpiryNeverRejectsAcceptedRelease | deploy/managed/release-manager.py:211-218 | Metadata accepted once is accepted at every later clock when that clock is clamped below its expiry |
| Metadata.ClampedCheckIgnoresExpiry | deploy/managed/release-manager.py:211-218 | At the clamped clock only a clock more than a minute before issue can reject a well-formed manifest |
| Metadata.ReleaseTagReads | deploy/managed/release-manager.py:23 | The builder's release tag has the form the manager demands |
| Requirements.IsHexIff | deploy/managed/release-manager.py:22 | A hash is exactly so many of the sixteen lower-case hexadecimal digits |
| Requirements.IsUserIff | deploy/managed/release-manager.py:186 | An account name is a letter or underscore and up to 31 letters, digits, underscores and hyphens |
| Requirements.IsTagIff | deploy/managed/release-manager.py:23 | A tag is exactly v, four numbers, two full stops and -health. between them |
| Requirements.AcceptableIff | deploy/managed/release-manager.py:147-172 | The metadata check demands exactly the written-out schema, capability, ranges, week, tag, hashes, revocation limit, platforms and two executables |
| Requirements.AuthenticIff | deploy/managed/release-manager.py:120-145 | Authentication accepts exactly the payload of an envelope whose hash is approved or which the enrolled key signed by the pinned verifier |
| Requirements.VerifiedIff | deploy/managed/release-manager.py:211-224 | A stored release verifies exactly when its manifest hashes to its name, is acceptable, and both executables have the described hash and length and are read-only |
| Requirements.IntactIff | deploy/managed/release-manager.py:218 | At a clock it passes exactly when, besides, the issue is at most 60 seconds ahead |
| Requirements.NameFixesContents | deploy/managed/release-manager.py:211-224 | Two stores in which one name verifies hold the same manifest and executables, or hold two byte strings with one hash |
| Requirements.ProvesIff | deploy/managed/release-manager.py:258-270 | The live proof is passed exactly by codes 0 for four commands and 3 for the three denials, the one capability, and status allowed, ok and of this release and source |
| Requirements.AdmitsIff | deploy/managed/release-manager.py:314-328 | Metadata may be taken up exactly when it is acceptable, timely, newer or the same, neither self-revoked nor quarantined, and nothing stands against the installed release |
| Requirements.RecordsAre | deploy/managed/release-manager.py:329-354 | The record of a renewal, of another release and of an upgrade, field by field |
| Download.Download | deploy/managed/release-manager.py:99-111 | However the body is split, an untimed download returns the whole body when it fits and is refused otherwise; at most one byte beyond the limit is ever held |
| Bundle.CompilePlatform | deploy/managed/build.py:43-53 | Every role's binary is written under its own name, no other file changes, and the artefacts are those of the two executables |
| Bundle.Build | deploy/managed/build.py:40-65 | The bootstrap lists exactly the payload with its hashes, the pin is the bootstrap's hash, and the installer carries that pin |
| Bundle.LoadBundle | deploy/managed/install.py:49-62 | A bundle is read exactly when the bootstrap has the pinned hash and each listed file has a plain name and its listed hash; what is read is exactly those files |
| Bundle.BuiltBundleLoads | deploy/managed/install.py:49-62 | A built bundle loads as exactly the files that were written, whatever else lies beside them |
| Bundle.PinFixesContents | deploy/managed/install.py:49-62 | Any bundle that the built pin accepts yields the bytes the builder wrote, or holds a file that collides with the one the builder wrote |
| Bundle.BuiltManifestIsWellFormed | deploy/managed/build.py:54-57 | The built manifest is well formed exactly when the commit is a commit hash, the build clock is in range and both executables fit |
| Bundle.BuiltManifestAccepted | deploy/managed/build.py:54-58 | The manager accepts the built manifest at exactly the clocks from a minute before the build to expiry |
| Install.StageRelease | deploy/managed/install.py:91-105 | The store holds exactly the one release from the bundle, linked, and the bootstrap exactly the grant, the manager, the verifier and the unit |
| Install.StageFiles | deploy/managed/install.py:97-101 | The release directory holds the manifest and both executables of the bundle, and the link names it |
| Install.FreshHost | deploy/managed/install.py:200-223 | The first state over an intact release is consistent, and sound exactly when the final clock is in range |
| Install.Establish | deploy/managed/install.py:200-223 | A completed installation is a consistent host whose release is running and gave all right answers, as every later theorem about installed hosts asks; on a quiet host it completes exactly when policy, state and release are valid and the release proves itself |
| Install.InstallRelease | deploy/managed/install.py:151-224 | From bundle to host: completes only on a sealed bundle, leaves exactly the policy and state written out field by field and a host the manager can start from, and never a state file without its policy and linked release |
| Install.BuiltBundleInstalls | deploy/managed/build.py:35-65 | Everything the builder makes is installable, on every platform built, between the build and its expiry, if the built service gives the right answers |
| Install.BuildThenInstall | deploy/managed/build.py:35-65 | A bundle just built, whose service gives the right answers, installs on a quiet host to a live, consistent host whose releases prove themselves, with a state that the next start reads and a bounded lease |
| Install.Manage | deploy/managed/install.py:200-224 | A completed installation is a start that every theorem about installed hosts accepts, under whatever script |
| Keys.CheckKey | broker.go:169-177 | The search finds a marker exactly when the key is sensitive |
| Keys.SensitivityIgnoresSpelling | broker.go:169-177 | No number of underscores, hyphens and full stops put in or taken out and no change of a letter for the one whose code differs by 32, anywhere in the key, changes the verdict |
| Keys.SensitiveIffMarkerSpelled | broker.go:169-177 | A key is sensitive exactly when a stretch of it as written spells a marker, up to separators and case |
| Keys.SensitiveIffDisguised | broker.go:169-177 | A key is sensitive exactly when a stretch of it is one of the seven words in any case, with any separators between and any text around |
| Keys.AuthorisationIsNotRecognised | broker.go:169-177 | A key spelled with only the letters of "authorisation" is never redacted |
| Redaction.RedactMap | broker.go:139-152 | The copying loop yields the redaction, whatever order the fields are visited in |
| Redaction.RedactValue | broker.go:154-167 | The copying loop over nested lists and maps yields the redaction |
| Redaction.RedactionIsExact | broker.go:154-167 | Two values are redacted alike exactly when they agree outside sensitive fields, at any depth |
| Redaction.RedactionOfFieldsIsExact | broker.go:139-152 | Two inputs are redacted alike exactly when they have the same keys and agree on everything outside sensitive ones |
| Redaction.PathByPath | broker.go:139-167 | At any depth a scalar on a path without sensitive keys stands as it was, and the value of a sensitive key becomes [REDACTED], whatever it was |
| Redaction.RedactionIsIdempotent | broker.go:154-167 | Redacting a redacted value changes nothing |
| Redaction.RedactionOfFieldsIsIdempotent | audit.go:37 | The second redaction, in the audit writer, changes nothing |
| Audit.JSONLAudit.Write | audit.go:33-58 | Fault by fault, what is appended and what the caller hears: success means the whole redacted record and its newline |
| Audit.RecordIsItsOwnLineIff | audit.go:33-58 | A record is a line of its own exactly when the file was empty or ended in a newline |
| Audit.EveryRecordHasItsLineIff | audit.go:33-58 | Over any sequence of writes and faults the complete lines of the file are exactly the records if and only if no torn start comes before a later record |
| Audit.TornWriteHidesNextRecord | audit.go:48-54 | A short write and then a good one: the second record, reported as written, is no line of the file |
| Broker.Check | broker.go:94-105 | A request is allowed exactly for the two local callers and the one capability, and its reason tells the case |
| Broker.RecordIsTheEvent | audit.go:37 | What the file holds is what the broker decided to record |
| Broker.EventIsRecord | broker.go:114-121 | What the broker decides to record of a socket message is its record, field by field |
| Broker.Service.Invoke | broker.go:107-137 | Output appears exactly when the request is allowed and its record was confirmed, and then the record, field by field, is in the file; an audit failure turns every result into a denial |
| Broker.Service.HandleConnection | unix.go:105-140 | What the peer hears in each case, written out, and the record of an invocation field by field, under the socket caller whatever the message says; only an invocation touches the audit |
| Broker.StepKeepsAccounted | unix.go:105-140 | Any action of any connection keeps the account of outputs and records |
| Broker.HandlingIsThreeActions | unix.go:105-140 | A connection handled from start to end is three actions of the schedule, with the same response and the same addition to the file |
| Broker.ServeInTurn | unix.go:67-76 | Serving any list of messages one after another is a run of a schedule, response by response and record by record, so each output has its own record |
| Broker.EveryOutputHasItsOwnRecord | unix.go:105-140 | In every schedule each output owns a complete record with caller local-user, its own capability, the decision and the redacted input, and no two share one |
| Broker.RecordComesFirst | broker.go:107-137 | That record was in the file at an earlier moment, before the connection had answered |
| Broker.SpoofedCallersChangeNothing | unix.go:121-128 | Whatever callers the messages claim, every decision, answer and record of the whole schedule is the same |

## Left out

- Ownership and permission checks of paths (`protected`), symbolic links in the store, and the update lock; runs are
  taken one after another, as the lock makes them.
- What survives a power cut: each completed replacement is taken as durable, so the order of file and directory
  flushes is not modelled.
- HTTP transport, redirects, proxies and response status; a fetch either yields bytes, is rejected or is unavailable.
- SHA-256 and Ed25519: the hash and the signature check are parameters. Freedom from collisions is assumed nowhere:
  where two inputs with one hash would matter, the result names the pair.
- JSON, base64 and duplicate-field checks: parsed values are the starting point, and encoders are parameters that
  decode back. A `current` of JSON null, which start-up accepts and every operation then refuses, has no counterpart.
- The sorted order in which the revocation lists are written; their texts are measured for every order.
- The installer's own text of the first state, whose separators are wider than the manager's; it is rewritten by the
  manager's encoder before the installation completes.
- Torn lines in the manager's own audit file; an entry is there or not. The broker's file has them.
- Manager.Manager.Probe: what a service answers is a function of its executable, the client's and the command; the
  commands' environment, time limits and output decoding are not modelled.
- Service units, plists, sudoers, wrapper scripts, `installation.json`, and the installer's inspection of parent
  directories and existing targets.
- The builder's source-file list, its exclusions, its `go vet` step and the preparation receipt; the source manifest is
  any byte string.
- Peer credentials, socket preparation, deadlines and request size limits; every connection is a trusted peer's.
- The command-line and MCP adapters, exit codes and usage text.
- Letter case beyond ASCII; a key's other characters stay as they are.
