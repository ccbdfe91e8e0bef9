# Verification of the engine's crash-safe protocols

The engine is a set of small deterministic protocols over three unreliable stores: a graph
whose writes replace one declared predicate group at a time, an object store with put and
atomic create, and at-least-once delivery. This project models those protocols in Dafny and
proves what they promise over whole runs: effect batches that converge after any crash,
solution material that stays unknown until the denouement, a denouement that is always earned,
one instantiation per campaign, one companion outcome and one ledger manifest per turn, replays
that are honest in both directions, and projections that do not depend on the secret.

Conventions used throughout:

- `Graph` is the shared store: entities hold triples, `Reconcile` replaces one group, `CreateEntity`
  is create-or-fail. A reply is `Committed`, `Failed`, or `CommitUnknown`, which may have landed and
  whose confirming read may or may not answer. An attempt cut off at a store call is an attempt whose
  call failed or whose reply was lost, so crashes need no separate mechanism inside one attempt.
- Code that updates state is a method, mostly of a class, proved equal to a value function of the old
  state. The machines over whole runs (`EffectRecovery`, `SolutionLock`, `GrantRecovery`,
  `DenouementSafety`, `Instantiation`, `ExactClaims`, `Companion`, `LedgerArchive`) are built from those
  same value functions, take arbitrary event sequences, and treat an event that is not enabled as no
  step. `EffectRecovery.PerformIsRun`, `Accusation.Consumer.Handle`, `BootRuns.FreshBootIsRun` and
  `LedgerRuns.ArchiveTurnIsRun` tie the sequential methods to the steps of the machines.
- What upstream libraries decide (identity grammar, SHA-256, PCG, JSON, predicate-value indexes,
  injected relationship policies, clocks) enters as function parameters with only the facts the code
  relies on, such as injectivity of identities.

## Files

| file | what it holds |
|---|---|
| `Vocabulary.dfy`, `Graph.dfy`, `ByteOrder.dfy` | predicates and kind tables, the graph store, byte-wise order |
| `EffectPlan.dfy`, `EffectRendering.dfy`, `EffectApplier.dfy`, `EffectRecovery.dfy`, `EffectProgress.dfy`, `EffectRetry.dfy`, `EffectMeaning.dfy`, `EffectRefusals.dfy` | the effect engine, and what an applied batch and a refusal mean intent by intent |
| `CaseDecisions.dfy`, `KnowledgeAuthorizer.dfy`, `Refusals.dfy`, `KnowledgeLoader.dfy`, `SolutionLock.dfy`, `KnowledgeRoundTrip.dfy` | who may learn what, the solution lock, and grants read back |
| `KnowledgeReceipts.dfy`, `KnowledgeGranter.dfy`, `GrantRecovery.dfy`, `GrantMeaning.dfy` | grant receipts, the ordered grant commit, and what it leaves fact by fact |
| `CaseFlow.dfy`, `CaseProgress.dfy`, `CaseAdvances.dfy`, `Accusation.dfy`, `Barriers.dfy`, `DenouementSafety.dfy`, `DenouementReached.dfy`, `ReceiptRaces.dfy` | the case lifecycle and accusations, the denouement earned and within reach, and what a late receipt costs |
| `Campaign.dfy`, `Instantiation.dfy`, `BootRuns.dfy` | the instantiation gate and racing boots |
| `ExactClaims.dfy`, `Companion.dfy`, `CompanionOutcomes.dfy` | exact-resident claims and the companion's two exits |
| `LedgerManifest.dfy`, `LedgerWriter.dfy`, `LedgerReports.dfy`, `LedgerArchive.dfy`, `LedgerRuns.dfy` | the ledger |
| `Dice.dfy`, `Replay.dfy` | rolls and their replay |
| `Projection.dfy`, `EpistemicProjector.dfy`, `NonInterference.dfy`, `Disclosure.dfy`, `PublicScene.dfy` | what a persona may see, and what it is shown |
| `Sessions.dfy`, `MockModel.dfy`, `Identities.dfy`, `Subjects.dfy` | smaller algorithmic cores |

## Main results

Effects: `EffectRendering.RenderingRefinesUpdate`, `EffectRendering.OrderIndependent`, `EffectRecovery.Recovery`,
`EffectRecovery.ConvergesToUninterrupted`, `EffectRetry.BrokenAttemptsAreRepaired`, `EffectMeaning.AppliedMeansDone`.
Knowledge: `SolutionLock.SolutionStaysUnknown`, `GrantRecovery.GrantConverges`, `GrantMeaning.ReferenceMeansRecorded`,
`KnowledgeAuthorizer.GrantsExactly`, `KnowledgeLoader.SnapshotIsExact`. Case: `DenouementSafety.DenouementIsEarned`,
`DenouementReached.CorrectAccusationCanFinish`, `CaseProgress.Progressor.Process`, `Barriers.WrongAccusationEnds`.
Boot: `Instantiation.TwoWinnersExactlyOnEqualBirths`, `Instantiation.MarkerMeansImported`. Claims:
`ExactClaims.ClaimsAgree`, `Companion.OneOutcomePerTurn`, `Companion.FinishesExactly`, `Companion.SomeExitCanFinish`.
Ledger and dice: `LedgerArchive.OneManifestPerTurn`, `LedgerWriter.SecondPassWritesNothing`,
`LedgerManifest.ComposesExactly`, `Replay.ResolvedTurnReplaysExactly`, `Dice.RollSaysWhatItShows`. Projections:
`NonInterference.SolutionIsInvisible`, `Disclosure.ShownExactly`, `Projection.FinalizeIsIdempotent`. Smaller cores:
`MockModel.EveryRoleIsReachable`, `Sessions.TableIsBounded`, `Subjects.CoverageIsExact`,
`Identities.FramingIsInjective`.

Rows of the table below that begin with "Reading" say what one function's branches come to; they are there for the
reader of that function.

## Where the code does less than it seems to promise

- `internal/boot/checks.go` (`patternCovers`) accepts `a.*` for `a.>` and `a.>` for `a`. `Subjects.CoverageIsExact`
  gives the exact condition, `StarDoesNotCoverRest` and `RestDoesNotCoverNothing` the inputs.
- `internal/campaign/gate.go` (`Claim`) tells at most one boot that it created the campaign only when minted
  births differ in seed, experience or stamp: the commit-unknown readback of `internal/graphio/store.go` compares
  the resident birth with the caller's own. `Instantiation.TwoWinnersExactlyOnEqualBirths` states it both ways.
- `internal/ledger/writer.go` (`archiveTurn`) keeps one manifest per turn only while every writer publishes within the
  duplicate window of its empty read. `LedgerArchive.LatePublishDoubles` shows the other side of that boundary.
- `internal/companion/executor.go`: an exhaustion exit is not always able to replace a stalled persona. An exit
  finishes exactly when both its artifacts fit, each of their slots is free or already holds that artifact, and the
  turn exists (`Companion.FinishesExactly`). So exhaustion is stuck over a claimed decision that is not its own
  silence (`SilenceIsStuck`), and finishes over one that is while no other stage record is claimed
  (`SilenceOverSilence`); some exit that already began can always be repeated to the end (`SomeExitCanFinish`).
- `internal/caseflow/receipt.go`: a receipt is a read followed by a merge, so a late one overwrites a newer one.
  `ReceiptRaces.ReceiptCanBeLost` is a run that loses an accusation's receipt, `ReceiptRules` says exactly which rule
  a landed receipt leaves matching. Safety does not depend on it, and for an accusation of the solution
  `DenouementReached.CorrectAccusationCanFinish` shows that redelivery repairs it.

## Model

| member | source | states |
|---|---|---|
| EffectPlan.Resolver.Resolve | internal/effect/plan.go:88-146 | Every named entity is seen as the graph holds it: missing entity, unreadable kind, or its state with a declared kind; the cache never answers differently from the store |
| EffectPlan.MergeObject | internal/effect/plan.go:446-489 | A merge is refused exactly when the batch already spoke about that single-valued fact or that object, and otherwise yields the next desired value set |
| EffectPlan.WithoutObject | internal/effect/plan.go:535-543 | The removed object is gone wherever it occurred and every other entry keeps its place |
| EffectPlan.Plan.FoldValue | internal/effect/plan.go:278-286 | The plan, a map filled in place in first-touch order, is at every moment exactly what the folded prefix of the batch asks for, and a fold is refused exactly on a clash with an earlier intent |
| EffectPlan.FoldIntent | internal/effect/plan.go:318-357 | The checks happen in the engine's order: the first reason an intent is refused on its own wins over a contradiction with the batch |
| EffectPlan.BuildPlan | internal/effect/plan.go:294-315 | A batch is accepted if and only if every intent is individually admissible and no two clash; a refusal names the earliest offending intent and its code; an accepted plan represents the whole batch |
| EffectRendering.RenderProjections | internal/effect/plan.go:199-270 | One complete desired set per touched family, in first-touch order, untouched siblings verbatim |
| EffectRendering.FoldStepMeaning | internal/effect/plan.go:446-543 | Set semantics of one fold: removed objects leave, resident facts nobody removed stay verbatim and in order, and only genuinely new objects are caused by the batch |
| EffectRendering.DesiredIsUpdate | internal/effect/plan.go:446-543 | The desired set of every touched predicate is (resident plus added) minus removed on a relation, and exactly the new value on a single-valued fact |
| EffectRendering.PrefixRefinesUpdate | internal/effect/plan.go:204-270 | After any prefix of the per-family replacements, written families hold their final facts and every other predicate holds what it held |
| EffectRendering.RenderingRefinesUpdate | internal/effect/plan.go:199-270 | All rendered replacements together are the simple update: touched predicates get their value set, every other predicate of the entity keeps its triples even inside a touched family |
| EffectRendering.OrderIndependent | internal/effect/plan.go:294-357 | Any permutation of a batch is accepted or refused alike and asks for the same final object sets |
| EffectApplier.Applier.Apply | internal/effect/applier.go:129-279 | Refusals, anomalies and duplicates write nothing; otherwise the graph is exactly the attempt's writes issued until one is not confirmed, and the outcome says how far that got |
| EffectApplier.Applier.CommitTarget | internal/effect/applier.go:175-189 | One entity's families are written in order and the first unconfirmed write stops the batch |
| EffectRecovery.ProjectionAims | internal/effect/plan.go:199-270 | A family rendered from any half-applied graph carries exactly the goal objects, so re-applying converges |
| EffectRecovery.RunKeeps | internal/effect/applier.go:168-206 | Over any interleaving of attempts that read entity after entity at different moments, crashes, lost replies and unrelated writers, every touched fact holds either its first or its final objects, and the marker implies all final |
| EffectRecovery.Recovery | internal/effect/applier.go:129-279 | The turn holds the marker, and anyone reports the batch applied, only once every named fact holds its simple update; an attempt that reads the turn from then on writes nothing |
| EffectRecovery.PerformIsRun | internal/effect/applier.go:168-206 | What one `Apply` does is one run of the recovery machine |
| EffectRecovery.ConvergesToUninterrupted | internal/effect/applier.go:129-206 | The first attempt that reports applied leaves every target predicate with the objects one uninterrupted attempt leaves |
| EffectRecovery.UntouchedFactsStand | internal/effect/plan.go:226-262 | However far an attempt gets, a fact the batch does not name keeps its triples verbatim, provenance included |
| Graph.Store.Reconcile | internal/graphio/store.go:510-537 | One declared group becomes the desired set or nothing moves; success after an unknown commit is claimed only when the group reads back exactly |
| Graph.Store.CreateEntity | internal/graphio/store.go:211-255 | Atomic create-or-fail with the commit-unknown readback |
| Graph.ReconcileObjects | internal/graphio/store.go:506-612 | A confirmed reconcile left exactly the desired objects in the group; an unconfirmed one left it there or untouched; no other fact moved |
| KnowledgeAuthorizer.AuthorizesExactly | internal/knowledge/authorize.go:150-259 | A batch is authorized if and only if every proposed reveal is admissible under its kind's own rule: never partially |
| KnowledgeAuthorizer.FirstRefusalMeaning | internal/knowledge/authorize.go:164-182 | The refusal reported is the first one in proposal order |
| KnowledgeAuthorizer.GrantsAreGuarded | internal/knowledge/authorize.go:164-250 | Every grant is a proposed reveal, and solution material is among them only at denouement or when the snapshot says the sharer already knows it |
| KnowledgeAuthorizer.GrantsAreDistinct | internal/knowledge/authorize.go:183-267 | A plan from a valid decision names no pair twice and fits one receipt of 24 entries |
| KnowledgeLoader.Loader.Load | internal/knowledge/loader.go:52-148 | The snapshot, filled map by map, is the specified reading of the graph, with record and decision rebound to the triggered turn before any case read |
| KnowledgeLoader.CurrentCasePhase | internal/knowledge/loader.go:150-170 | The loop computes the furthest recorded phase, or refuses an undeclared one |
| KnowledgeLoader.LatestPhaseIsFurthest | internal/knowledge/loader.go:150-170 | The current phase is a recorded phase no recorded phase lies beyond, if and only if every recorded value is declared |
| KnowledgeLoader.KnownIsRecorded | internal/knowledge/loader.go:239-257 | What a sharer is taken to know is exactly what readable knowledge entities record for the pair |
| KnowledgeLoader.EligibilityIsRecorded | internal/knowledge/loader.go:172-200 | Eligibility is resolved for exactly the proposed evidence that exists, each from its own entity |
| SolutionLock.AuthorizedIsSafe | internal/knowledge/authorize.go:164-258 | A plan authorized from a view that is stale entity by entity contains solution material only if the case has reached denouement by now |
| SolutionLock.SolutionStaysUnknown | internal/knowledge/authorize.go:164-258 | In every reachable state before denouement no granted knowledge and no revelation names evidence of the authored solution, whatever loads, grants, crashes and phase moves interleaved |
| KnowledgeRoundTrip.GranterBirths | internal/knowledge/granter.go:146-173 | The granter's knowledge and revelation births are the grant steps of the lock machine |
| KnowledgeReceipts.Validate | internal/content/knowledge.go:55-89 | The loop over joined keys accepts exactly well-formed receipts whose entries are in canonical order with no pair named twice |
| KnowledgeReceipts.JoinedOrder | internal/content/knowledge.go:77-88 | Comparing NUL-joined keys is comparing the pairs, for NUL-free identities |
| KnowledgeReceipts.SortedReceiptIsValid | internal/content/knowledge.go:109-118 | Sorting by (recipient, evidence) makes any receipt of distinct pairs pass the check |
| KnowledgeReceipts.SortedIsUnique | internal/content/knowledge.go:109-118 | The canonical order is the only sorted arrangement, so it does not depend on the sorting algorithm |
| KnowledgeGranter.Granter.Commit | internal/knowledge/granter.go:94-193 | The commit writes testimonies, knowledge, revelations, receipt and turn reference in that order, stops at the first refusal, and returns a reference only when every write was accepted |
| KnowledgeGranter.Granter.CreateOrVerifyEntity | internal/knowledge/granter.go:195-263 | An entity that already exists is accepted exactly when it means the same, whoever recorded it and when |
| GrantRecovery.ReferenceImpliesGrant | internal/knowledge/granter.go:94-280 | Whatever plans race, a turn that carries a knowledge reference has the receipt of a plan of its own stored; every entity the receipt names exists and means what was granted, and every testimony is stored |
| GrantRecovery.KnowledgeAgrees | internal/knowledge/granter.go:105-109 | Grants of one pair by different turns want one and the same knowledge entity |
| GrantRecovery.CreateAgrees | internal/knowledge/granter.go:146-173 | A create of a started plan never meets a conflicting resident |
| GrantRecovery.GrantConverges | internal/knowledge/granter.go:94-193 | After any run, rerunning a plan undisturbed succeeds, stores its receipt, leaves the turn with exactly that receipt's reference, every entity meaning what an uninterrupted commit would have made it mean, and every testimony word for word |
| CaseFlow.DeclaredEdges | internal/caseflow/caseflow.go:37-63 | The declared transitions are exactly the edges of the four event kinds, each one rank up |
| CaseFlow.TransitionedPhase | internal/caseflow/caseflow.go:48-54 | A requested transition moves the phase along a declared edge or not at all, and moves nothing else |
| CaseFlow.ReceiptLiterals | internal/caseflow/receipt.go:117-123 | The receipt written for an event reads back as that event's kind |
| Accusation.Consumer.Record | internal/caseflow/receipt.go:82-129 | Recording is the specified read, rank check and single group write |
| Accusation.Consumer.Commit | internal/accusation/commit.go:82-135 | Object first, reference last; an exact resident converges and any other resident is refused, never rewritten |
| Accusation.Consumer.Handle | internal/accusation/consumer.go:84-147 | One delivery is the specified sequence of store interactions, with every early exit |
| Accusation.CorrectMeansExactMatch | internal/accusation/verifier.go:14-36 | Reading: a result is correct if and only if the stored decision is a valid accusation naming culprit, method and motive exactly |
| DenouementSafety.PhaseMovesOneEdge | internal/rulepack/caseflow.go:22-62 | At every step of anything, the phase stays or moves along one declared edge |
| DenouementSafety.PhasesAreEarned | internal/caseflow/receipt.go:82-153 | Over any run the phase never goes back, and by every edge it took some turn whose delivery was really taken up asks for that edge, or committed a correct accusation |
| DenouementSafety.AdvanceKeeps | internal/accusation/consumer.go:108-146 | Each store interaction of a delivery keeps barriers exact, receipts earned, and its own next step justified |
| DenouementSafety.DenouementIsEarned | internal/accusation/consumer.go:84-147 | A case that reached denouement holds a turn whose accusation was delivered and whose committed result belongs to a decision equal to the solution in all three identities |
| Campaign.GateKeeper.Claim | internal/campaign/gate.go:196-246 | The answer is fresh only on the claim's own create, and otherwise the stored seed and experience |
| Campaign.GateKeeper.MarkImported | internal/campaign/marker.go:74-118 | Only an untampered fresh claim of this campaign marks it |
| Campaign.AwaitImportCompletion | internal/campaign/marker.go:150-178 | The poll answers with the first read that carries a readable marker, exactly when every earlier read carried none |
| Campaign.BirthReadsBack | internal/campaign/gate.go:291-404 | A freshly written campaign reads back as exactly what was minted |
| Campaign.BirthsDiffer | internal/graphio/store.go:539-571 | Two births are the same facts only if seed, experience and stamp all agree |
| Instantiation.WinnersShareABirth | internal/campaign/gate.go:211-216 | All boots ever told they created the campaign minted one and the same birth |
| Instantiation.AtMostOneWinner | internal/campaign/gate.go:196-246 | With distinct births at most one boot is ever told so |
| Instantiation.TwoWinnersExactlyOnEqualBirths | internal/graphio/store.go:244-250 | Two boots can both be told they created the campaign if and only if their births are equal |
| Instantiation.AnswersAgree | internal/campaign/gate.go:218-241 | Every answer, at any time, is the one stored seed and experience |
| Instantiation.MarkerMeansImported | internal/boot/world.go:159-229 | Only a creating boot imports; a marker, or anyone serving, means such an import was read back entity by entity and edge by edge |
| Instantiation.AwaitEntitiesBorn | internal/boot/world.go:267-296 | The poll succeeds exactly when some read within the bound has every planned entity |
| Instantiation.AwaitMembershipIndexed | internal/boot/world.go:322-403 | The poll succeeds exactly when the plan has membership at all and some read positively carries every edge |
| ExactClaims.Backend.ClaimExact | internal/content/managed.go:103-135 | One claim is create, read, object read and repair in that order, with the object never overwritten |
| ExactClaims.ClaimsAgree | internal/content/store.go:128-156 | All winners ever returned for a key are equal and one client's candidate, the object copy is there and equal, and nobody meets the corrupt outcome |
| ExactClaims.ClaimsAreForever | internal/content/store.go:125-139 | What was claimed stays claimed, byte for byte |
| Companion.Executor.Commit | internal/companion/executor.go:170-200 | Decision, stage record and turn references are committed in that order and only past an exact claim each |
| Companion.OneOutcomePerTurn | internal/companion/executor.go:95-266 | A turn refers to its companion result only once one run's decision and record are both resident, and all runs that finish on a turn committed the same two values |
| Companion.LosersNeverFinish | internal/companion/executor.go:245-265 | A run whose decision differs from the claimed one never gets past the decision |
| LedgerManifest.ComposeReadsOnly | internal/ledger/manifest.go:34-108 | Composition depends on nothing but the predicates the ledger reads |
| LedgerManifest.ComposedMeansResolved | internal/ledger/manifest.go:116-200 | Reading: a composed record certifies a sole terminal phase, its stamp, and a gate advised by the mapping it names |
| LedgerArchive.OneManifestPerTurn | internal/ledger/writer.go:322-362 | For any mix of writers publishing within the window of their empty read, a subject holds at most one message, it is what the turn composes, and no writer meets a conflict |
| LedgerArchive.LatePublishDoubles | internal/ledger/stream.go:30-38 | Two writers that both read an empty subject archive the turn twice exactly when the second publishes a window or more after the first |
| LedgerWriter.Writer.ArchiveTurn | internal/ledger/writer.go:322-362 | An identical resident is success, a different one is refused, and only an empty subject is published to |
| LedgerWriter.Writer.Reconcile | internal/ledger/reconcile.go:100-137 | The paging loop reconciles exactly the turns the cursor chain reaches within the page budget and reports whether it reached the end |
| LedgerWriter.EveryTurnIsCounted | internal/ledger/reconcile.go:146-181 | Every scanned turn is counted exactly once |
| LedgerWriter.PassCovers | internal/ledger/reconcile.go:146-181 | An undisturbed pass leaves no resolved, composable turn without an archived manifest |
| LedgerWriter.SecondPassWritesNothing | internal/ledger/reconcile.go:60-137 | Another pass over the same turns writes nothing |
| Dice.RollDice | internal/dice/roller.go:141-153 | The loop draws each die from a generator of its own, in order, and the total is their sum |
| Dice.Roll | internal/dice/roller.go:86-123 | The record is the one the seed, the turn and the modifiers determine |
| Dice.RollsExactlyOnValidInputs | internal/payload/rollresult.go:72-154 | A roll is refused only for what its caller got wrong, never for what it drew |
| Dice.SeedInputUnambiguous | internal/dice/roller.go:23-50 | A fixed-width seed makes the plain concatenation unambiguous |
| Dice.WindowIsReachability | internal/payload/modifier.go:10-117 | Every band stays reachable if and only if the modifiers sum into the window |
| Replay.ResolvesOnce | internal/dice/resolver.go:93-201 | Once a resolved roll is recorded, every later resolve answers with that same roll and says it is not the first |
| Replay.Reader.ReplayTurn | internal/ledger/replay.go:190-401 | A replay fills its record step by step with every incoherence refused |
| Replay.ReplayIsHonest | internal/ledger/replay.go:246-349 | A successful replay with a roll proves the archived record is the one the campaign seed, turn and verdict determine |
| Replay.ResolvedRollsReplay | internal/ledger/replay.go:190-349 | A roll that was resolved and archived unchanged always replays to the identical record |
| Replay.TamperedRollsFail | internal/ledger/replay.go:336-349 | A roll changed in any field never replays |
| Projection.DedupeSorted | internal/epistemic/projector.go:487-505 | One entity per identity, excluded identities dropped, in byte order |
| Projection.DedupedFinds | internal/epistemic/projector.go:487-505 | Exactly the admitted identities survive, each as the last entity given for it |
| Projection.PruneDangling | internal/epistemic/projector.go:515-528 | Compacting in place keeps exactly the facts that are plain or point inside, in order |
| Projection.Builder.Finalize | internal/epistemic/projector.go:464-485 | The pass that rewrites a snapshot in place category by category |
| Projection.ReferencesAreClosed | internal/epistemic/projector.go:464-528 | Every reference a finalized snapshot states names an entity of that snapshot |
| Projection.IdentitiesAreDistinct | internal/epistemic/projector.go:464-505 | Members and neighbours are sorted and no identity appears twice |
| Projection.SurvivorsKeepPlainFacts | internal/epistemic/projector.go:464-528 | A survivor loses nothing but dangling references |
| Projection.FinalizeIsIdempotent | internal/epistemic/projector.go:464-528 | Finalizing twice is finalizing once |
| NonInterference.SolutionIsInvisible | internal/epistemic/projector.go:136-243 | Two worlds that differ only in the authored solution project identically to player, public adjudicator, companion and narrator whenever both project; for the first three even refusals agree |
| NonInterference.SameNarration | internal/epistemic/narration.go:31-86 | The narrator's guard reads the solution only to refuse, never to shape what is shown |
| NonInterference.OnlyClearedPurposesSeeTheSolution | internal/epistemic/policy.go:222-265 | The solution leaves only for the verifier, or at denouement under the authorizer's word, and is exactly the case's own |
| NonInterference.ProjectionsAreClosed | internal/epistemic/projector.go:238-242 | Whatever is projected is closed under references |
| Sessions.SessionTable.PutSession | internal/gateway/session.go:307-334 | Both maps, updated in place, become the specified table and stay inverse |
| Sessions.SessionTable.ForPlayer | internal/gateway/session.go:380-397 | Exactly the player's sessions, each once, sorted by connection |
| Sessions.PutKeeps | internal/gateway/session.go:307-334 | A put leaves every other connection alone, is refused exactly at a full set of other connections, and a refused connection is bound to nobody |
| Sessions.RemoveKeeps | internal/gateway/session.go:343-367 | A removal drops one connection from both indexes and leaves no empty entry |
| Sessions.TableIsBounded | internal/gateway/session.go:255-276 | After any history the table holds at most players times cap |
| MockModel.SubsumesIsInclusion | internal/mockmodel/fixture.go:285-308 | The static check holds if and only if every request matching one role matches the other |
| MockModel.ValidateRolesAreDistinguishable | internal/mockmodel/fixture.go:229-245 | The double loop accepts exactly fixtures in which no role subsumes another |
| MockModel.EveryRoleIsReachable | internal/mockmodel/handler.go:318-337 | In a validated fixture every role has a request that routes to it alone |
| MockModel.RejectedFixturesHaveAShadowedRole | internal/mockmodel/fixture.go:220-245 | A rejected fixture has a role that every matching request leaves ambiguous |
| MockModel.Script.Take | internal/mockmodel/handler.go:341-367 | A call is answered by the step under the cursor, which a repeating step does not advance |
| MockModel.StepsAreServedInOrder | internal/mockmodel/handler.go:341-367 | The k-th call reaches the k-th step, or stays at the first repeating step before it, or finds the script exhausted |
| Identities.FeedFramed | internal/content/knowledge.go:170-179 | The digest sees exactly the framed parts in order |
| Identities.FramingIsInjective | internal/content/knowledge.go:170-179 | Length-framed input determines the list of parts |
| Identities.ActionPreimageIsInjective | internal/gateway/actionid.go:70-111 | One preimage per player and idempotency key |
| Identities.ReferencesRoundTrip | internal/content/ref.go:59-129 | Parsing and writing a reference undo each other on exactly the valid references and the absent one |
| Identities.KeysAreInjective | internal/content/ref.go:186-200 | Object keys are injective in kind, subject and slot |
| Subjects.PatternCovers | internal/boot/checks.go:275-288 | The loop computes the coverage relation |
| Subjects.CoverageIsExact | internal/boot/checks.go:263-288 | A pattern captures every concrete subject of a wanted pattern if and only if the check passes and neither overlooked position occurs |
| Subjects.StarDoesNotCoverRest | internal/boot/checks.go:275-288 | The check passes `a.*` for `a.>`, and a subject escapes |
| Subjects.RestDoesNotCoverNothing | internal/boot/checks.go:275-288 | The check passes `a.>` for `a`, and the subject itself escapes |
| EffectRecovery.PermutedBatchesApplyAlike | internal/effect/plan.go:294-357 | Uninterrupted attempts of permuted batches leave every named fact with the same objects |
| CaseProgress.Progressor.Process | internal/caseflow/progress.go:96-260 | Success means the turn carries its reference and, when its decision asks for an event, the case states that event, already carried its id, or already stood beyond it; a case before the event's phase is a permanent refusal; without an event the case does not move; a done turn is left alone, and any other resident result is a permanent refusal that has written nothing |
| KnowledgeLoader.LoadReadsFrom | internal/knowledge/loader.go:97-147 | Reading: an applicable snapshot takes phase and solution from the case entity and prior knowledge from indexed knowledge entities |
| GrantRecovery.EntitiesLanded | internal/knowledge/granter.go:145-180 | Once a commit's entity writes are all accepted, everything its receipt will name exists |
| LedgerWriter.AppendedReadsBack | internal/ledger/writer.go:338-361 | What one attempt published, every later attempt of the unchanged turn finds resident |
| CaseFlow.ReceiptEnablesItsRule | internal/rulepack/caseflow.go:30-62 | A receipt that lands while the case stands at its edge enables that edge's rule and no other, the transition asked for is one the manager makes, and recording again changes nothing |
| KnowledgeRoundTrip.GrantedReadsBack | internal/knowledge/granter.go:146-153 | A granted pair is known to its recipient for sharing and shown to its recipient in projections, and for any other actor the record refuses the projection |
| KnowledgeRoundTrip.RevealedReadsBack | internal/epistemic/policy.go:46-83 | A revelation of this turn is shown this turn to its recipient and to nobody else |
| Campaign.MarkReadsBack | internal/campaign/marker.go:99-217 | A marker that landed reads back as the instant it was written for, and the provenance reads as it did |
| Companion.ResultReadsBack | internal/companion/executor.go:185-200 | A result that lands names this turn's own two artifact slots and trigger and nothing else |
| LedgerManifest.ComposedFieldsAreRecorded | internal/ledger/manifest.go:71-99 | Reading: every field of a manifest is what the turn records under that field's own predicate |
| EpistemicProjector.ProjectedFactsAreAllowed | internal/epistemic/projector.go:417-433 | An entity is shown with exactly its recorded facts under the allowed predicates, in canonical order |
| NonInterference.NarratorLearnsOnlyTheRefusal | internal/epistemic/narration.go:31-86 | Where one world projects for the narrator, the other projects the same if and only if its own guard passes |
| EffectPlan.AdmissibleExactly | internal/effect/plan.go:318-442 | Reading: an intent is admissible exactly when it is in vocabulary and both sets of bounds, its target and object exist with allowed kinds, and nothing relates to itself |
| EffectRecovery.AppliedAttributesStayInBounds | internal/effect/plan.go:379-395 | However brokenly a batch was applied, an attribute it set stays inside the world's own bounds once anyone reports it applied |
| Instantiation.Instantiate | internal/boot/world.go:159-229 | One boot claims, imports and reads back only if fresh, marks only a whole world with the store's next reply, and serves only after its own index caught up |
| EffectProgress.UndisturbedAttemptSucceeds | internal/effect/applier.go:168-206 | When every touched entity's effect facts are its own, an attempt nobody disturbs confirms every family write and the marker: an accepted batch cannot stop half way by itself |
| DenouementReached.CorrectAccusationCanFinish | internal/accusation/consumer.go:84-147 | From every world any run can lead to, whatever crashed or half landed, redelivering a turn that accuses the exact solution at the investigation or later can still take the case to its denouement |
| DenouementReached.FromCommitting | internal/accusation/commit.go:81-135 | A commit of a correct result finishes whether the barrier was already resident or still has to be stored and referenced |
| DenouementReached.FromInvestigation | internal/accusation/consumer.go:108-117 | An accusation first met in the investigation is receipted, waits for the transition, and is then taken to the end |
| EffectRecovery.MarkPersists | internal/effect/applier.go:206-279 | Once a turn was marked it stays marked, and every fact the batch names holds its simple update ever after, whatever attempts were still under way |
| EffectRetry.BrokenAttemptsAreRepaired | internal/effect/applier.go:129-279 | After any number of attempts broken off anywhere the batch is recorded, or it is still accepted and the next undisturbed attempt confirms every write and leaves the simple update of what stood before the first |
| EffectRetry.AcceptanceStays | internal/effect/plan.go:294-442 | Half applied, a batch is judged exactly as before: kinds, existence and references it relies on are not its own to change |
| GrantRecovery.ReferenceImpliesExactGrant | internal/knowledge/granter.go:94-263 | When reruns of a decision agree, a turn's reference leads to a plan whose every entity means what was granted and whose every testimony is stored word for word |
| DenouementSafety.BegunWasDelivered | internal/accusation/consumer.go:84-147 | A turn counts as taken up only when one of its own deliveries happened |
| ReceiptRaces.ReceiptRules | internal/caseflow/receipt.go:82-153 | After a receipt landed, a rule matches if and only if it is that of the receipt's own event and the case still stands where the event starts from |
| ReceiptRaces.ReceiptCanBeLost | internal/caseflow/receipt.go:60-153 | A run of three deliveries in which a late receipt overwrites the accusation's before its rule fires, so that no rule matches any more |
| ReceiptRaces.ContestedExample | internal/caseflow/progress.go:209-260 | A plain case with two turns, one that investigates and one that accuses, meets the hypotheses of the lost receipt |
| Companion.FinishesExactly | internal/companion/executor.go:170-265 | An undisturbed exit finishes if and only if both artifacts fit their slots, each slot is unclaimed or already holds this very artifact, and the turn exists |
| Companion.PutExactly | internal/content/store.go:415-501 | Storing an exact artifact undisturbed succeeds if and only if it fits and its slot is free or holds it, and then leaves claim and copy equal |
| Companion.SilenceIsStuck | internal/companion/executor.go:231-265 | Over any other claimed decision the exhaustion exit fails on every attempt, whatever the replies, and changes neither claims nor graph |
| Companion.SilenceOverSilence | internal/companion/executor.go:231-265 | Over the same silence claimed by the persona's own exit, its stage record not yet claimed, the exhaustion exit finishes |
| Companion.SomeExitCanFinish | internal/companion/executor.go:170-265 | Whatever raced and crashed, a turn with a claimed decision is never stuck: repeating one of the exits that already began lands its references |
| Companion.NeverBothExits | internal/companion/executor.go:170-265 | The persona's exit and the exhaustion exit of one turn never both finish, not even on the same silence |
| Replay.ResolvedTurnReplaysExactly | internal/ledger/replay.go:190-326 | A turn that was resolved, recorded and composed replays if and only if the archive still holds the very roll resolved and prose of its band, and then replays to that roll |
| Replay.RecordingCarries | internal/dice/resolver.go:93-199 | Recording a roll leaves the turn carrying exactly it, and moves no other family of the turn |
| LedgerRuns.ArchiveTurnIsRun | internal/ledger/writer.go:322-362 | What one archive attempt does is a run of the timed machine, and from any world timely writers reach it never refuses a resident manifest |
| BootRuns.FreshBootIsRun | internal/boot/world.go:159-229 | What the winning boot does is a run of the racing-boots machine: the planned world is there, the campaign is as claim and mark leave it, and it serves exactly when its mark was confirmed |
| Campaign.TamperedClaimsMarkNothing | internal/campaign/marker.go:74-110 | A claim changed in any exported field, or never sealed by the gate, marks nothing |
| Identities.LengthWraps | internal/content/knowledge.go:170-179 | The bound of injectivity is needed: a part of exactly 2^32 bytes that is itself framed hashes like an empty part and what it frames |
| MockModel.RouteRole | internal/mockmodel/handler.go:318-337 | The loop answers with the one matching role, and refuses when none or several match |
| Subjects.SubjectCaptured | internal/boot/checks.go:265-273 | A subject is captured if and only if one of the patterns covers it |
| EffectMeaning.AppliedMeansDone | internal/effect/plan.go:446-543 | After an attempt that reports the batch applied, every intent holds in the world: an added relation is there, a removed one is gone, a set attribute, status or place is the only value on its own predicate; and no relation, attribute, status or place that no intent speaks of has moved |
| EffectMeaning.ReportedMeansDone | internal/effect/applier.go:129-279 | The same over any run of broken, retried and racing attempts: once anyone reports the batch applied, every intent holds |
| EffectMeaning.AcceptedExactly | internal/effect/plan.go:294-357 | A batch is accepted exactly when every intent is admissible and no two set one fact twice or speak of one object of one relation twice |
| KnowledgeAuthorizer.GrantsExactly | internal/knowledge/authorize.go:147-258 | Who receives what, exactly: a share grants the one target what is revealed, a question the asker what the target believes with that belief's own words and stance, observing and investigating the actor and the named witness what was proposed, every other kind nothing |
| KnowledgeLoader.SnapshotIsExact | internal/knowledge/loader.go:52-257 | Every field of an applicable snapshot is what the turn, its player, the case, the proposed evidence and the indexed records say, and nothing more: beliefs are read for a question to one actor, prior knowledge for a share |
| GrantMeaning.ReferenceMeansRecorded | internal/knowledge/granter.go:94-280 | In every run, a turn's knowledge reference leads to a receipt that lists exactly the batch, with where each part is kept, and to knowledge and revelation entities that say exactly who learned what, when, and from whom, the testimony word for word |
| GrantMeaning.CommitRecords | internal/knowledge/granter.go:94-193 | From wherever a run left off, one undisturbed commit records its batch so and refers the turn to it alone |
| CaseFlow.DerivesExactly | internal/caseflow/progress.go:209-260 | Which event a decision asks for, in literals: observing the victim in the cold open, investigating evidence of the case in the discovery, and nothing else |
| CaseFlow.ConfirmedReceiptStates | internal/caseflow/receipt.go:82-153 | A confirmed receipt states the event's identity, kind and both phases, and no other fact of the case moved |
| CaseAdvances.ObservingDiscovers | internal/caseflow/progress.go:153-260 | A turn that observes the victim at the cold open leaves a case whose one matching rule takes it to the discovery |
| CaseAdvances.InvestigatingInvestigates | internal/caseflow/progress.go:153-260 | A turn that investigates the case's evidence in the discovery leaves a case whose one matching rule takes it to the investigation |
| Barriers.QuietTurnEnds | internal/accusation/consumer.go:84-147 | A delivery for a turn that accuses nobody is acknowledged with a stored record that holds no result and the turn's reference to it; nothing else moves, the case included, and a redelivery moves nothing at all |
| Barriers.WrongAccusationEnds | internal/accusation/consumer.go:84-147 | An accusation that misses culprit, method or motive ends, once the case has come to its accusation, with a result that says no more than that it is wrong; no receipt is written and the case stands as it stood |
| Barriers.EarlyAccusationWaits | internal/caseflow/receipt.go:96-119 | An accusation the case has not come to yet is left for redelivery, and nothing is stored |
| Campaign.FreshClaim | internal/campaign/gate.go:196-253 | The first boot with a birth worth storing is told it is the first, and the campaign stands with exactly that seed and those packs |
| Campaign.LaterClaim | internal/campaign/gate.go:196-253 | A later boot is told the stored seed, and that it is not the first, exactly when the campaign stands readable for its own selection of packs; the store does not move |
| Campaign.AnsweredExactly | internal/campaign/gate.go:196-253 | A boot is answered if and only if its birth may be stored and no campaign stands yet, or one stands readable for its own selection of packs |
| CompanionOutcomes.ExecutedExactly | internal/companion/executor.go:170-211 | A finished persona exit leaves the authorized decision and a record that says it was not exhausted, both with their copies, and the turn's four references in its own voice; no other key or entity moves |
| CompanionOutcomes.ExhaustedExactly | internal/companion/executor.go:213-265 | A finished exhaustion exit leaves silence that cites nothing and a record that says so, with the same frame |
| LedgerManifest.ComposesExactly | internal/ledger/manifest.go:34-272 | A turn is recorded if and only if it is a turn of some action, every field the ledger copies is legible, the verdict's three scalars are all there or all absent, it ended complete or failed with what each end demands, and its identities are canonical |
| LedgerReports.ReportsExactly | internal/ledger/reconcile.go:100-181 | The report of an undisturbed pass names, in order, exactly the unreadable turns and the ended turns the archive it leaves does not hold, and counts as in flight exactly the readable turns that have not ended |
| Dice.RollSaysWhatItShows | internal/dice/roller.go:91-153 | Every roll: a miss is a total of 6 or less, a partial 7 to 9, a full 10 or more; each die is its own draw modulo six plus one; the total is dice plus modifiers, and the digest is the hash of the seed followed by the turn |
| Replay.RollFreeTurnReplaysExactly | internal/ledger/replay.go:190-401 | A turn that names no roll replays if and only if its manifest is a valid one of this campaign, its verdict is its own and asked for no roll, and its prose is filed under the automatic band |
| Disclosure.ShownExactly | internal/epistemic/projector.go:136-243 | Whose knowledge a purpose is shown, exactly: beyond the public scene a companion sees its bond and what itself was granted, the player's purposes what the player's character was granted or, this turn, shown, narration also what was cited, and the casekeeper alone the case, what it refers to and the targets' beliefs |
| Disclosure.FactsShown | internal/epistemic/projector.go:385-433 | Of a disclosed entity exactly the recorded facts on its list are shown: name, kind and description of evidence, the terms of the bond, and case facts to the casekeeper alone |
| Disclosure.ProjectionsAreBound | internal/epistemic/projector.go:136-181 | A projection answers only for the turn asked, a verified actor, the projector's own case, and a companion whose bond with this turn's player was confirmed |
| Disclosure.NarratorCitesNoSolution | internal/epistemic/narration.go:31-87 | The ordinary narrator is never shown, as cited evidence, an identity the case records as its solution |
| PublicScene.TurnShown | internal/epistemic/projector.go:385-433 | The turn is shown with exactly its readable facts: what was granted and what the companion decided only for narration, the case decision and the accusation's result never |
| PublicScene.SceneShown | internal/epistemic/projector.go:385-433 | The scene is shown with exactly its public facts, references only to what is shown |
| PublicScene.MemberShown | internal/epistemic/projector.go:385-461 | A member of a public kind is shown among the members with exactly its public facts |
| PublicScene.RecordsAreOwned | internal/epistemic/policy.go:15-44 | Every existing record indexed under the reader is the reader's own knowledge of one piece of evidence; one that is not refuses the whole projection |
| PublicScene.BeliefsAreScoped | internal/epistemic/policy.go:102-199 | The beliefs of the questioned actors exist, are held by them, are about evidence of the case and take a declared stance |
| PublicScene.ProjectionsAreBounded | internal/epistemic/projector.go:245-278 | No more entities, no more of them beyond the public scene, and no more bytes than configured |
| EffectRefusals.JudgedExactly | internal/effect/plan.go:318-442 | Each refusal code exactly when its own cause comes first, with every bound, status and kind written out on the intent alone: malformed, then missing, then of the wrong kind, and only then its relations |
| Refusals.RefusalsAreCaused | internal/knowledge/authorize.go:147-259 | Every refusal of a batch of reveals names its own cause, and a policy that gave no answer is never reported as a denial, nor a denial as a policy that gave none |

## Left out

- EffectRetry.BrokenAttemptsAreRepaired: assumes that other writers neither remove a named entity nor change its kind, and write facts under their own entity's name.
- Companion.SomeExitCanFinish: assumes that every artifact an exit wants to store fits a claim and that no two slots share a key.
- BootRuns.FreshBootIsRun: ties the boot that wins; a boot that waits is in the machine only.
- EffectRecovery.Recovery: speaks of object sets, not of the provenance of single-valued facts, because a re-applied single-valued fact is restamped.
- EffectPlan.Plan.FoldValue: per-target and per-predicate writes are values inside the plan's map, so aliasing between nested writes is not captured; `fmt.Sprint` keys are the values themselves.
- EffectApplier.Applier.Apply: a transport error while reading an entity for the plan is not a separate outcome; confidence and expiry of triples are not modelled.
- Graph.Store.CreateEntity: the framework's own indexing fact and the entity envelope (message type, version, storage reference) are not modelled; a birth is its triples, stamps included.
- SolutionLock.SolutionStaysUnknown: assumes the granter is the only writer of knowledge and revelation facts, the authored solution is immutable, and the lifecycle never leaves denouement.
- GrantRecovery.GrantConverges: assumes reruns of one decision derive one plan, as its `Consistent` hypothesis says, and so does `ReferenceImpliesExactGrant`; without it only `ReferenceImpliesGrant` holds.
- KnowledgeGranter.Granter.Commit: the retry of a revision conflict on the turn reference is one reconcile with one reply, and the not-applicable receipt is not modelled.
- DenouementSafety.DenouementIsEarned: a turn's stored decision and the case's solution are fixed for the run; the progress record's own storage is in `CaseProgress`, not in this machine.
- DenouementReached.CorrectAccusationCanFinish: says some undisturbed continuation ends the case, not that every schedule does, and assumes an event id the case carries was recorded for that event (ids are hashes).
- Accusation.Consumer.Handle: failing a turn durably is only a verdict here, and a transport error during the preflight reads is not a separate outcome.
- Campaign.AwaitImportCompletion: the bound is a number of reads rather than a clock.
- Instantiation.MarkerMeansImported: publishing is one step per boot that may be partial; per-entity publish acknowledgements are not modelled.
- ExactClaims.Backend.ClaimExact: opening and caching the claim bucket under its lock is not modelled.
- Companion.Executor.Commit: bond transactions, trigger selection and evidence authorization before the first claim are not modelled.
- LedgerArchive.OneManifestPerTurn: the broker's clock and the writers' clock are one clock.
- LedgerManifest.ComposeReadsOnly: only the first version of the advisory roll-gate mapping exists, so the mapping's name is not a field.
- Projection.DedupeSorted: the map and the sort of the original are one insertion into a sorted list.
- Projection.Builder.Finalize: facts are compacted in place in an array of their own, so sharing of one backing array between two entities is not captured.
- Disclosure.ShownExactly: the predicate-value index is a given function of predicate and value, and the narration resolver is not told the purpose.
- NonInterference.SolutionIsInvisible: the bounded scene is given, and assumed to differ only in the same three predicates; how the assembler selects it is not modelled.
- Identities.FramingIsInjective: proved on the hash input; collision resistance of SHA-256 and the base32 last stage are not.
- JSON encoding, error text, logging, contexts, HTTP and WebSocket transport, stream provisioning, credentials, and the command-line and web front ends.
- The rule processor, the lifecycle manager and the agentic loop, beyond "advance if the declared transition allows it".
- Hint selection and trigger selection of the companion, single-record field validation that one branch settles, and any liveness of case receipts beyond what `DenouementReached` and `ReceiptRaces` say.
