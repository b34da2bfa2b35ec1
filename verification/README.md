# Verification of EnvBank's workflows

EnvBank is a client-encrypted secret store. Its hard parts are workflows that may stop anywhere and
be taken up again, over a store that only offers compare-and-set writes. This project models those
workflows in Dafny and proves what they promise, in every run: with crashes, lost acknowledgements
and other writers between any two steps.

Run `dafny verify dfyconfig.toml` to check everything.

## What is modelled

- **Rollout** (`rollout_*.dfy`). The write-ahead journal of provider writes. `rollout_machine` is the
  engine as a state machine over its external effects, with any number of engines; `rollout_invariant`,
  `rollout_at_most_once`, `rollout_settled`, `rollout_batch` and `rollout_final` prove what holds in
  every run; `rollout_engine` is the program itself, loops and all, verified to be a run of the
  machine; `rollout_checks` are the validation loops.
- **Bundles** (`template`, `derivations`, `evaluation_order`, `ordering`, `bundle`, `bundle_status`,
  `prepare`, `prepare_inputs`, `prepare_snapshot`, `prepare_facts`, `preparer`, `recovered_bundle`,
  `recovered_safety`). Templates, the evaluation order, and the resumable preparation whose journal is
  a cache. The prepare operation is verified against a vault in which others write between any two
  calls; its obligation, at each of its own writes, is to record only the truth. Then, what a journal
  and a snapshot are worth after recovery.
- **Observation gate** (`gate_machine`, `gate_safety`, `gate`). Gates, a latch file with unsynced
  contents, the process lock, driver contexts, kills and power losses as one machine; the gate and
  its coordinator as classes whose methods leave runs of that machine.
- **Sync service** (`service_vault`, `service`, `service_access`, `service_handlers`, `revisions`).
  Serialized transactions over devices, enrollments, invitations and nonces, who may do what in any
  run of them, the handlers proved against them, and the agreement of sealed revisions with row
  revisions.
- **Redactor** (`redactor`, `redaction`). Span search, merging, truncated tails and capture, stated
  over positions of the original output; then what the result is, character by character.
- **Password sampler, evidence chain, deployment, recovery** (`password`, `evidence`, `deployment`,
  `recovery`).

Digests, message authentication, canonical encodings and signatures are ideal: a digest stands for
what it was computed over, a ciphertext opens only under its own context, a signature names its
signer. Clocks are integers; formatting a time rounds down to the second. External calls answer
nondeterministically, and may fail before or after they took effect, which also covers a crash there.
The classes that stand for the outside world carry constants, `steady`, `obliging`, `quiet`, `smooth`,
`reliable` and `alone`, which say that no call fails or that nobody interferes; contracts conditioned
on them say that an undisturbed operation succeeds, or exactly when it does not, and what it leaves
alone. All other contracts hold without them.

## Where the code falls short of its documentation

- Recovery renumbers records but keeps journal and snapshot payloads. A bundle that was stale before
  may be reported as prepared afterwards (`RecoveredBundle.RecoveryCanMislead`), and a journal line
  may make the next preparation keep a stale value and publish it
  (`RecoveredSafety.RecoveredJournalMisleads`). When journal, snapshot and the whole vault can be
  trusted is `RecoveredSafety.JournalSafeExactly`, `ReportSafeExactly` and `SoundExactly`, each a
  condition on the old vault.
- The device header is not part of the signed bytes. A signed request is accepted at most once per
  claimed device; over the signed bytes alone that needs every signing key to be enrolled once
  (`Service.AcceptedOnceByKey`, `Service.AcceptedAgainExactly`, `Service.SharedKeyServesTwice`).
- A deleted object starts again at revision one, so an optimistic write may replace an object its
  writer never saw (`Revisions.DeletedRevisionIsReused`); deletion is the only way
  (`Revisions.UntouchedExactly`). Only lifecycle leases are ever deleted.
- A malformed target in the middle of a deployment stops it without rolling back what is staged
  (`Deployment.InvalidRollsNothingBack`, `Deployment.StagedMayBeAbandoned`).
- A gate whose latch could not be created stays barred, and recovery, which has to remove the latch,
  cannot open it again in that process (`ObservationGate.Coordinator.Recover`,
  `GateSafety.StuckForever`, `GateSafety.LatchMayBeMissing`).
- An untyped adapter error leaves a write ambiguous but a stage final, so that a committed batch may
  be journalled as pending (`RolloutSettled.UntypedStageMisleads`). The journal tells the truth exactly
  if final refusals only come from stages that did nothing when nothing had been done
  (`RolloutBatch.BatchTruthExactly`, `RolloutBatch.HonestRefusalsSuffice`).

## Operating assumptions of the at-most-once result

They are the conditions named in `RolloutAtMostOnce.Careful`: one engine at a time; when the provider
is inspected, the writes of actions in flight have settled and metadata is true about these actions
(an attested key was written, an absent variable was not); and a write refused as safe or final
committed nothing. That a settled action was committed needs other ones, `RolloutSettled.Prompt`:
what is accepted is committed, and only written keys are attested. The batch results need one engine
at a time (`RolloutSettled.OneAtATime`), and the exact one that no stage is left to settle after it
answered (`RolloutBatch.Prompted`). All other rollout results hold without any of them.

## Model

| member | source | states |
|---|---|---|
| `RolloutJournal.SanitizeError` | internal/provider/provider.go:260-279 | for any operation name the sanitized error is valid, carries the reported name, and keeps a status only if it is typed and an HTTP one; it is ambiguous exactly for an ambiguous typed error or for an untyped one of a write, and safe exactly for a safe typed one |
| `RolloutJournal.SafeIsToken` | internal/provider/provider.go:290-296 | exactly the short tokens are reported as they are |
| `RolloutJournal.ReportedName` | internal/provider/provider.go:281-296 | a name is reported exactly for itself within any white space; everything else is a "request" |
| `RolloutJournal.NewOperation` | internal/rollout/engine.go:494-520 | a new operation of a valid plan passes validation, matches its plan, and gives every action its own write key |
| `RolloutJournal.SoundIsValid` | internal/rollout/state.go:78-172 | the invariant kept by the engine is strong enough for validation and for matching the plan |
| `RolloutChecks.ValidateOperation` | internal/rollout/state.go:78-172 | the loop with its seen set and limited flag accepts exactly the valid operations |
| `RolloutChecks.CheckItems` | internal/rollout/state.go:115-156 | accepts exactly when every item is valid and no action identifier comes twice |
| `RolloutChecks.ValidateActions` | internal/rollout/plan.go:136-157 | accepts exactly when every action is valid and neither an identifier nor a variable comes twice |
| `RolloutChecks.ValidatePlan` | internal/rollout/plan.go:97-169 | accepts exactly the plans whose binding and actions are valid |
| `RolloutChecks.ValidateSnapshotBindings` | internal/rollout/store.go:122-161 | accepts exactly when the snapshot is the planned one and every planned record is at its planned revision in the snapshot and in the vault |
| `RolloutChecks.BoundPlansAreConsistent` | internal/rollout/store.go:99-161 | what a bound plan rolls out belongs to one consistent cut: a planned derived record is its template over the very values the snapshot records |
| `RolloutInvariant.StepKeeps` | internal/rollout/engine.go:188-457 | every step of every engine, crash or provider keeps the whole invariant |
| `RolloutInvariant.RunKeeps` | internal/rollout/engine.go:188-457 | the invariant holds in every world of every run, however engines interleave and wherever they crash |
| `RolloutInvariant.EverySaveIsSound` | internal/rollout/engine.go:188-457 | whatever any engine is about to save, and the journal at all times, passes validation, matches the plan and has its shape: settled items, at most one attempted item, untouched ones; or a batch in one phase sharing one version |
| `RolloutInvariant.CallsNeverOutnumberAttempts` | internal/rollout/engine.go:237-252 | over any interleaving of engines the writes and stages issued for an action never exceed its durable attempts |
| `RolloutInvariant.IssuedAreFew` | internal/rollout/engine.go:391-420 | calls carry distinct attempt numbers between one and the journal's |
| `RolloutInvariant.SaveKeepsPermits` | internal/rollout/store.go:72-82 | only the engine whose compare-and-set save succeeded may call next, with an attempt number nobody used |
| `RolloutInvariant.ReconcileOk` | internal/rollout/engine.go:539-563 | reconciliation yields a valid committed item with evidence or a valid pending one without |
| `RolloutAtMostOnce.StepStays` | internal/rollout/engine.go:188-287 | under the stated operating assumptions every step keeps the journal truthful about what the provider may have committed |
| `RolloutAtMostOnce.ReconcileTrue` | internal/rollout/engine.go:539-563 | an in-flight item resolved from truthful metadata is committed exactly if it was written and pending only if it was not |
| `RolloutAtMostOnce.AtMostOnce` | internal/rollout/engine.go:188-287 | on a provider with neither idempotency keys nor idempotent writes every action commits at most once over any number of crashes and resumes, writes still on their way included, and a pending action never did |
| `RolloutSettled.SettledWasCommitted` | internal/rollout/engine.go:188-457 | on any adapter, batch or not, with any number of engines: a settled action that stores a value was committed, as long as what is accepted is committed and only written keys are attested |
| `RolloutSettled.StepBacked` | internal/rollout/engine.go:188-457 | every such step keeps settled actions, and what engines were told, backed by commits |
| `RolloutSettled.ReconcileBacked` | internal/rollout/engine.go:539-563 | an action settled by reconciliation is settled on the word of metadata |
| `RolloutSettled.ExactlyOnce` | internal/rollout/engine.go:188-287 | with one engine at a time and a provider that has neither idempotency keys nor idempotent writes as well, exactly once |
| `RolloutSettled.BatchPendingExactly` | internal/rollout/engine.go:369-457 | the link to the results below: with one engine at a time what is recorded as pending stays true, so the journal of a batch is true up to a moment exactly if everything recorded by then was true when it was recorded |
| `RolloutBatch.HonestRefusalsSuffice` | internal/rollout/engine.go:408-457 | the journal of a batch never calls pending what reached the provider, whatever crashes and is lost, as long as each saved final refusal came from a stage that did nothing when no earlier one had done anything |
| `RolloutBatch.RefusedCommitLies` | internal/rollout/engine.go:421-441 | a final refusal given by a stage that committed, or after an earlier one did, makes the journal false once it is saved |
| `RolloutBatch.BatchTruthExactly` | internal/rollout/engine.go:408-457 | when stages are settled by the time they answer, the journal of a batch is true up to a moment exactly if every final refusal saved by then came from a stage that did nothing when nothing had been done |
| `RolloutBatch.RefusalBehindDenial` | internal/rollout/engine.go:421-434 | whatever is about to be saved as pending goes back to one final refusal, after which the engine did nothing but decide |
| `RolloutSettled.NoCallWhilePending` | internal/rollout/engine.go:408-420 | a batch is never staged while the journal calls an action pending |
| `RolloutSettled.UntypedStageMisleads` | internal/rollout/engine.go:421-441 | with any plan: a stage that commits and then fails with an untyped error leaves every action committed, journalled as pending and the operation failed for good |
| `RolloutFinal.FinishedForever` | internal/rollout/engine.go:155-172 | once the journal says ready, limited or failed it never changes again, whatever other engines still try |
| `RolloutFinal.SavesAreStamped` | internal/rollout/engine.go:212-290 | whatever is saved carries the clock reading of the one decision that made it; an attempt in it is dated then, and evidence is what was answered, dated then unless the answer had a time |
| `RolloutEngine.ReconciledExactly` | internal/rollout/engine.go:539-563 | metadata settles an action in flight exactly if it names its write key or says that the variable is absent; it is committed if the key is named or it is a revocation, and to be written again otherwise |
| `RolloutEngine.RefusalNoted` | internal/rollout/engine.go:257-275 | an ambiguous write error leaves the action in flight and asks for reconciliation exactly if the provider has neither idempotency keys nor idempotent writes; a final one fails the operation; any other may be retried |
| `RolloutEngine.StageRefusalNoted` | internal/rollout/engine.go:421-441 | an ambiguous stage error leaves all actions as they are and always asks for reconciliation; any other leaves them pending |
| `RolloutEngine.Cloud.constructor` | internal/rollout/engine.go:139-150 | the world right after Apply saved the confirmed operation |
| `RolloutEngine.Cloud.Take` | internal/rollout/engine.go:188-367 | one step extends the recorded run of the machine |
| `RolloutEngine.Cloud.Interfere` | internal/rollout/engine.go:188-367 | other engines and the provider may take any number of steps; this engine stands where it stood |
| `RolloutEngine.Cloud.Save` | internal/rollout/store.go:72-82 | an acknowledged save put exactly this operation into the journal at the next revision; an unacknowledged one ends the engine; undisturbed, a save at the current revision is always acknowledged |
| `RolloutEngine.Cloud.Inspect` | internal/rollout/engine.go:197-206 | metadata is read, or the engine is gone |
| `RolloutEngine.Cloud.LoadRecord` | internal/rollout/store.go:163-185 | a record at another revision, or none, ends the engine; what was read is at hand for the next call |
| `RolloutEngine.Cloud.Write` | internal/rollout/engine.go:252-269 | one provider call is issued for exactly the action the engine stands at, under its write key and only with the planned value at hand, whatever comes back |
| `RolloutEngine.Cloud.Stage` | internal/rollout/engine.go:409-420 | one atomic stage, only with all planned values at hand, whatever comes back |
| `RolloutEngine.Cloud.Verify` | internal/rollout/engine.go:311-330 | one verification of the action the engine stands at, whatever comes back |
| `RolloutEngine.Cloud.SaveIsValid` | internal/rollout/store.go:72-82 | nothing an engine is about to save is ever turned down for its contents |
| `RolloutEngine.BatchIsUniform` | internal/rollout/engine.go:369-386 | an atomic batch is in one phase throughout, so the check for partial commits never fires |
| `RolloutEngine.Engine.Advance` | internal/rollout/engine.go:188-367 | the loops are a run of the machine; success means that every action is checked, the status says whether any is limited, and the operation was saved in that very form; a refusal or an unresolved action is in the journal as such; reconciliation is never asked for by a batch, by a provider with idempotency keys or idempotent writes, or with no action in flight, and then an undisturbed run that the provider obliges succeeds with exactly one call for each action that was not settled, in order |
| `RolloutEngine.Engine.WriteAll` | internal/rollout/engine.go:207-290 | the write loop ends with every action settled, or stops for a reason that is in the journal; it asks for reconciliation only for an action in flight that may not be repeated and of which metadata says nothing, and goes on only if there is none; undisturbed it calls for exactly the actions that are owed a write, in order |
| `RolloutEngine.Engine.WriteOne` | internal/rollout/engine.go:210-290 | one action of the write loop leads from its saved state to the next loop head and leaves the others as they were, or the engine has stopped; undisturbed it stops only for the provider or an unresolved action, and calls exactly if a write is owed |
| `RolloutEngine.Engine.Resolve` | internal/rollout/engine.go:213-225 | an action in flight that may not be repeated is settled, or found to be written again, on the word of metadata alone and without a call |
| `RolloutEngine.Engine.SaveAttempt` | internal/rollout/engine.go:237-246 | the attempt is durable before the call: only an acknowledged save leads to the call, with the action in flight, dated, counted and without an earlier error |
| `RolloutEngine.Engine.Attempt` | internal/rollout/engine.go:226-287 | load, save the attempt, call, save the outcome, in this order |
| `RolloutEngine.Engine.Conclude` | internal/rollout/engine.go:252-287 | what the provider answered is saved before the next action: the evidence as it was given, refused exactly if it cannot be kept, or the error with the status of the action |
| `RolloutEngine.Engine.VerifyOne` | internal/rollout/engine.go:305-350 | one action of the verification loop, from head to head; an adapter that can verify is asked exactly if the action was not verified before, and without one it is limited |
| `RolloutEngine.Engine.Judge` | internal/rollout/engine.go:318-350 | a verification answer is saved as it was given, or refused exactly if it says nothing; a failure is in the journal with its error and status |
| `RolloutEngine.Engine.FinishWriting` | internal/rollout/engine.go:291-303 | written, then verifying, each saved |
| `RolloutEngine.Engine.FinishVerifying` | internal/rollout/engine.go:352-366 | every action is checked, the final status says whether any is limited, and it was saved |
| `RolloutEngine.Engine.VerifyAll` | internal/rollout/engine.go:304-366 | the verification loop and the final save; every action that was not verified is asked about once, in order; undisturbed it stops only when the provider does not prove |
| `RolloutEngine.Engine.AdvanceBatch` | internal/rollout/engine.go:369-457 | the atomic variant: loads everything, attempts everything in one save, stages once; afterwards everything is settled or the reason is in the journal; undisturbed it makes one call for each action exactly if they were not settled |
| `RolloutEngine.Engine.ConcludeAll` | internal/rollout/engine.go:421-457 | one answer settles all actions on the evidence given or refuses them together, pending unless the refusal is ambiguous |
| `RolloutEngine.Engine.Resume` | internal/rollout/engine.go:155-186 | a finished operation is returned as it is and nothing changes, a failed one with its first recorded error; any other is advanced from the journal, and undisturbed it then ends as Advance does, with the same calls |
| `RolloutEngine.Engine.FirstError` | internal/rollout/engine.go:163-172 | a failed operation reports the first recorded error, and one exactly when there is any |
| `Derivations.SortedNames` | internal/contract/manifest.go:488-495 | the keys each once and in byte order: the same sequence whatever order the map was iterated in |
| `Derivations.Sorter.VisitName` | internal/contract/manifest.go:505-526 | the recursive visit with its marks is the specified visit; it terminates because every open name leaves the unvisited set |
| `Derivations.Sorter.VisitNames` | internal/contract/manifest.go:514-537 | visiting names one after the other is the specified walk |
| `Derivations.TopologicalDerivations` | internal/contract/manifest.go:497-538 | the result is a function of the dependencies alone |
| `Derivations.OrderIsTopological` | internal/contract/manifest.go:497-538 | an error exactly when derived records depend on each other in a cycle, naming a record on one; otherwise each derived record once, after every derived record it references |
| `EvaluationOrder.OrderIsDepthFirst` | internal/contract/manifest.go:497-538 | of all topological orders it is the one that follows references depth first, in byte order: every way along references to a later record has an earlier way to any record before it |
| `Derivations.VisitGood` | internal/contract/manifest.go:505-526 | a visit that meets an open name has found a cycle through it; one that ends has placed its name after its inputs |
| `Ordering.SortingForgetsOrder` | internal/contract/manifest.go:488-495 | distinct listings of the same keys sort to the same sequence |
| `Ordering.StringLeqExactly` | internal/contract/manifest.go:488-495 | byte order: one string begins the other, or is smaller at the first place where they differ |
| `Bundle.DocumentIsOrdered` | internal/contract/manifest.go:355-362 | a validated document lists each derived record once, after the derived records its template references |
| `SecretTemplate.ParseTemplate` | internal/contract/template.go:21-53 | the single pass over the template computes the specified nodes, references and errors |
| `SecretTemplate.ParseIsInverse` | internal/contract/template.go:21-53 | parsing gives a node list exactly when the list is well formed and prints as the template |
| `SecretTemplate.ParsedPrints` | internal/contract/template.go:21-53 | printing the parsed nodes gives back the template |
| `SecretTemplate.PrintedParses` | internal/contract/template.go:21-53 | parsing the printed form of a well-formed list gives back the list |
| `SecretTemplate.CollectOne` | internal/contract/template.go:47-48 | references are the reference nodes in order |
| `SecretTemplate.Expand` | internal/bundle/prepare.go:480-493 | the result is cut into one piece for each node in order, its text or the value of the record it names, and nothing else; it is refused exactly when that text is longer than the limit |
| `SecretTemplate.FilledExactly` | internal/bundle/prepare.go:480-493 | there is exactly one text that consists of one piece for each node in order, and expansion gives it |
| `SecretTemplate.PlaceholdersGiveBack` | internal/bundle/prepare.go:480-493 | when every referenced record holds its own placeholder, expanding a template gives the template back |
| `SecretTemplate.ErrorExplained` | internal/contract/template.go:26-45 | a template that does not parse is a good one, plain text and the "${" the error is about: unterminated if no brace follows, unsupported if it does not name a secret, and otherwise a bad name |
| `Bundle.FilledAgrees` | internal/bundle/prepare.go:480-493 | an expansion depends on nothing but the referenced values |
| `Bundle.StepKeeps` | internal/bundle/prepare.go:300-323 | any record write, and every truthful journal or snapshot write, keeps all journals and snapshots true and all past values |
| `Bundle.RunsStaySound` | internal/bundle/prepare.go:97-285 | nothing cached or published ever becomes false, in any run of any writers |
| `Bundle.PublishedStaysConsistent` | internal/bundle/prepare.go:235-276 | a snapshot published at any moment is a consistent cut at every later moment |
| `Bundle.FollowsStill` | internal/bundle/prepare.go:188-208 | that a derived value follows from recorded revisions stays true as the vault grows |
| `BundleStatus.CalculateStatus` | internal/bundle/prepare.go:333-386 | the two loops compute the specified status |
| `BundleStatus.Propagate` | internal/bundle/prepare.go:369-384 | staleness is passed on to derived records in order |
| `BundleStatus.CheckInputs` | internal/bundle/prepare.go:377-383 | finds whether any input is not prepared |
| `BundleStatus.PreparedIsFresh` | internal/bundle/prepare.go:333-386 | "prepared" means that every current derived value equals a fresh expansion, whenever records and snapshot were read |
| `BundleStatus.PreparedRecordIsFresh` | internal/bundle/prepare.go:365-384 | a record reported as prepared is fresh and so are all its inputs, even when the bundle as a whole is stale |
| `BundleStatus.PreparedExactly` | internal/bundle/prepare.go:351-368 | "prepared" exactly when every record is at the revision and under the name the snapshot of this manifest records |
| `BundleStatus.StateExactly` | internal/bundle/prepare.go:345-384 | a record is missing exactly if it is not there, and prepared exactly if the snapshot of this manifest names it at its current revision and all it reads is prepared; otherwise it is stale |
| `BundleStatus.OverallExactly` | internal/bundle/prepare.go:333-386 | a bundle is missing if any record is, else stale if any is not prepared, else prepared |
| `BundleStatus.FreshExactly` | internal/bundle/prepare.go:182-214 | fresh derived records are exactly those that read like their templates: the texts and the stored values of the references, each in its place, and nothing else |
| `BundlePrepare.PermittedSpares` | internal/bundle/prepare.go:150-213 | a preparer leaves existing values alone, except that a derived record may move to a different value its template gave for values its inputs really had |
| `BundlePrepare.SharedVault.constructor` | internal/bundle/prepare.go:97-104 | a preparer starts from any sound vault |
| `BundlePrepare.SharedVault.Take` | internal/bundle/prepare.go:300-323 | an accepted write extends the recorded run |
| `BundlePrepare.SharedVault.Interfere` | internal/bundle/prepare.go:214-230 | anybody else may write any record, and other preparers truthfully |
| `BundlePrepare.SharedVault.ListRecords` | internal/bundle/prepare.go:287-298 | a listing shows real revisions with their values, as of one moment |
| `BundlePrepare.SharedVault.ListObjects` | internal/bundle/prepare.go:287-298 | the journal and the snapshot read are true |
| `BundlePrepare.SharedVault.Write` | internal/bundle/prepare.go:300-323 | an accepted write is one this preparer is permitted, and what was put is the value of its revision forever; undisturbed, a write at the current revision is taken |
| `PrepareInputs.EqualRevisions` | internal/bundle/prepare.go:555-565 | for recorded revisions, which are positive, the comparison is equality although missing keys read as zero |
| `PrepareInputs.DecodeObject` | internal/bundle/prepare.go:445-478 | accepts exactly the objects without duplicate keys |
| `PrepareInputs.ReadImports` | internal/bundle/prepare.go:408-443 | accepts exactly the objects whose keys are the required names, each once, and takes their values |
| `PrepareInputs.UniqueSortedRevisions` | internal/bundle/prepare.go:538-553 | the valid revisions other than the current one, strictly ascending |
| `PrepareSnapshot.HistoryOf` | internal/bundle/prepare.go:256-262 | exactly the revisions the previous snapshot names, other than the one recorded now |
| `PrepareInputs.MissingImports` | internal/bundle/prepare.go:126-134 | exactly the imported names that are not stored yet |
| `PrepareFacts.CachedIsFresh` | internal/bundle/prepare.go:192-194 | the journal shortcut is right: an unchanged record with unchanged input revisions equals a recomputation |
| `PrepareSnapshot.DescribedIsConsistent` | internal/bundle/prepare.go:235-276 | what is published is a consistent cut |
| `PrepareSnapshot.DescribedWasReal` | internal/bundle/prepare.go:225-240 | what is published after the refetch was the current state of the vault at one moment |
| `PrepareSnapshot.RecordedExactly` | internal/bundle/prepare.go:333-386 | the status is prepared exactly when the stored snapshot records every current record |
| `PrepareSnapshot.AllMapped` | internal/bundle/prepare.go:241-271 | the snapshot built is valid, describes exactly the known revisions and remembers exactly the earlier ones |
| `PrepareInputs.SuppliedExactly` | internal/bundle/prepare.go:126-143 | the imports are accepted exactly when nothing is missing or they are exactly what is missing |
| `PrepareFacts.AllKept` | internal/bundle/prepare.go:144-180 | once all names are seen every source is in, kept or stored as supplied |
| `PrepareFacts.PreparedIsSupplied` | internal/bundle/prepare.go:126-143 | a prepared bundle misses no import |
| `PrepareFacts.OneEvaluated` | internal/bundle/prepare.go:188-220 | evaluating one record keeps earlier records evaluated, the journal true and the sources in |
| `PrepareFacts.OthersStayFresh` | internal/bundle/prepare.go:182-220 | storing a record changes nothing for the templates that do not read it |
| `BundlePreparer.Preparer.Load` | internal/bundle/prepare.go:287-298 | records as of some moment of the call, then objects |
| `BundlePreparer.Preparer.StoreSource` | internal/bundle/prepare.go:144-179 | a source is stored only if missing, an import exactly as supplied; its checkpoint, with its revision, is saved and keeps the journal true |
| `BundlePreparer.Preparer.StoreSources` | internal/bundle/prepare.go:144-180 | afterwards every source is known: the old one, or the supplied or generated one |
| `BundlePreparer.Preparer.InputsOf` | internal/bundle/prepare.go:184-187 | the revisions of exactly the referenced records, all positive |
| `BundlePreparer.Preparer.IsCurrent` | internal/bundle/prepare.go:188-193 | called current exactly if its line in the journal names its own revision and the current ones of its inputs; then it equals its fresh expansion |
| `BundlePreparer.Preparer.Expanded` | internal/bundle/prepare.go:194-213 | a record that is not current is expanded and stored only when it differs; no other record changes; undisturbed it stops only when the expansion is too long |
| `BundlePreparer.Preparer.EvaluateOne` | internal/bundle/prepare.go:182-220 | one more derived record equals its template over the known records; one that did already is not written |
| `BundlePreparer.Preparer.EvaluateAll` | internal/bundle/prepare.go:182-221 | afterwards every derived record does |
| `BundlePreparer.Preparer.CheckUnmoved` | internal/bundle/prepare.go:223-239 | passing means that all known revisions were current together at a moment of this call; undisturbed it passes exactly when nothing moved |
| `BundlePreparer.Preparer.BuildSnapshot` | internal/bundle/prepare.go:241-271 | always a valid snapshot of exactly the known revisions; the earlier revisions it lists are exactly those the snapshot before names, less the current ones |
| `BundlePreparer.Preparer.FindMoved` | internal/bundle/prepare.go:231-240 | the first record that is no longer at its known revision, if there is one |
| `BundlePreparer.Preparer.StartJournal` | internal/bundle/prepare.go:114-124 | goes on with the stored journal of this manifest, or with an empty one that replaces one of another manifest first |
| `BundlePreparer.Preparer.PublishSnapshot` | internal/bundle/prepare.go:241-276 | what is published is only ever a consistent cut that the vault once was really at; success means that it was published on top of the snapshot that was read and forgets none of its revisions |
| `BundlePreparer.Preparer.StatusNow` | internal/bundle/prepare.go:87-93 | "prepared" is only reported of values that were fresh at a moment since the given one |
| `BundlePreparer.Preparer.Advance` | internal/bundle/prepare.go:110-276 | every write on the way is a permitted one; success needs exactly the missing imports; undisturbed it stops only for those or for an expansion that is too long |
| `BundlePreparer.Preparer.Complete` | internal/bundle/prepare.go:144-276 | undisturbed, sources are kept or stored as supplied and the published snapshot describes the stored records |
| `BundlePreparer.Preparer.Prepare` | internal/bundle/prepare.go:97-285 | with crashes, lost answers and concurrent writers anywhere: own writes are permitted ones, and success means that at some moment of the call every derived record read like its template, the texts and the stored values of its references each in place; left alone, it fails for imports exactly when they are not supplied exactly, otherwise only for an expansion that is too long, and else leaves derived records that read so, kept or supplied sources and a snapshot that records them all; a prepared bundle it does not change; a failure names a record that can fail so |
| `RecoveredBundle.RecoveredReport` | cmd/envbank/recovery.go:258-376 | right after recovery a bundle is reported as prepared exactly when its snapshot names first revisions throughout, and the values are fresh exactly when the old vault's were |
| `RecoveredBundle.PreparedBeforeIsFreshAfter` | cmd/envbank/recovery.go:258-376 | what was prepared before recovery is fresh after it |
| `RecoveredBundle.RecoveryCanMislead` | cmd/envbank/recovery.go:258-376 | a sound vault whose derived record lags behind its source that is reported as prepared once recovered |
| `RecoveredSafety.LineExactly` | cmd/envbank/recovery.go:258-376 | a carried-over claim about a derived record can be trusted in the new vault, whatever anybody writes there, exactly if it names first revisions only and was right about the old values |
| `RecoveredSafety.MakesStale` | cmd/envbank/recovery.go:258-376 | any other claim can be made to match a record that is not fresh |
| `RecoveredSafety.JournalSafeExactly` | internal/bundle/prepare.go:188-197 | the carried-over journal never makes a preparation keep a record that is not fresh, exactly when each usable line names first revisions only and its record was fresh in the old vault |
| `RecoveredSafety.ReportSafeExactly` | internal/bundle/prepare.go:333-386 | a carried-over snapshot never makes a stale bundle count as prepared, exactly when it covers nothing or names first revisions of all derived records and inputs, which were fresh in the old vault |
| `RecoveredSafety.SoundExactly` | cmd/envbank/recovery.go:251-376 | the recovered vault is in the state the prepare theorem relies on exactly when all journals and snapshots named first revisions only and were right about the old values |
| `RecoveredSafety.RecoveredJournalMisleads` | cmd/envbank/recovery.go:258-376 | a sound vault, not reported as prepared once recovered, whose journal makes the next preparation keep a stale value and publish it as prepared |
| `GateSafety.StepKeeps` | pkg/protectedfill/gate.go:33-190 | every step, kill and power loss keeps the invariant of files, contexts and gates |
| `GateSafety.RunKeeps` | pkg/protectedfill/gate.go:33-190 | the invariant holds in every run |
| `GateSafety.LiveMeansLatched` | pkg/protectedfill/gate.go:104-149 | while a validated context may be alive the latch is visible and durable, survives any power loss, and makes every gate opened start blocked |
| `GateSafety.ReasonIsTrue` | pkg/protectedfill/operation.go:81-134 | an operation about to open the gate really saw its context or all orphans destroyed, or a failed validation, and nothing else happened to it since |
| `GateSafety.OpensOnlyWhenDestroyed` | pkg/protectedfill/operation.go:81-168 | a gate is unblocked only by a resume with such a reason; no context is alive then nor was any since, and the latch is durably gone |
| `GateSafety.CancelledExactly` | pkg/protectedfill/gate.go:107-114 | a pending capture keeps its epoch and is cancelled exactly by the begins and closes it meets |
| `GateSafety.ReturnsExactly` | pkg/protectedfill/gate.go:88-101 | a value is returned exactly when the capture worked and no operation began and nobody closed the gate since its start; the epoch, which may come round, is not even needed |
| `GateSafety.ObservationsAreClean` | pkg/protectedfill/gate.go:67-102 | a returned observation overlapped no moment when the gate was blocked or closed or a validated context was alive |
| `GateSafety.EpochCounts` | pkg/protectedfill/gate.go:107-110 | the epoch of a gate counts, modulo 2^64, the begins, closes and openings it went through |
| `GateSafety.StuckForever` | pkg/protectedfill/gate.go:132-149 | a gate that is closed, or blocked without a latch to remove, stays barred until its process or the machine dies |
| `GateSafety.LatchMayBeMissing` | pkg/protectedfill/gate.go:104-118 | such a gate is reachable: the first operation of a gate whose latch cannot be created |
| `ObservationGate.OpenGate` | pkg/protectedfill/gate.go:33-60 | no second authority; a gate starts blocked exactly if the latch is there, hence whenever a context may be alive; on sound storage only another authority prevents it |
| `ObservationGate.Authority.Open` | pkg/protectedfill/gate.go:51-58 | takes the lock and the state of the latch |
| `ObservationGate.Authority.Interfere` | pkg/protectedfill/gate.go:67-102 | other threads and processes may do anything the machine allows; the operation and the pending capture stand |
| `ObservationGate.Authority.Observe` | pkg/protectedfill/gate.go:67-102 | a returned value is what was captured, and means that the gate was open and no context alive from start to end; a barred gate answers at once with nothing; alone on an open gate it returns what was captured |
| `ObservationGate.Authority.Finish` | pkg/protectedfill/gate.go:88-101 | a capture is clean exactly when the gate is not barred, the epoch is that of its start and no barrier cancelled it |
| `ObservationGate.Authority.Begin` | pkg/protectedfill/gate.go:104-128 | success leaves the gate blocked behind a durable latch with no context alive; failure leaves it barred; every pending capture is cancelled and the epoch moves; on sound storage an open gate never fails |
| `ObservationGate.Authority.CreateLatch` | pkg/protectedfill/gate.go:115-118 | creates the latch only if there is none |
| `ObservationGate.Authority.SyncLatch` | pkg/protectedfill/gate.go:119-126 | the latch is durable when this succeeds |
| `ObservationGate.Authority.Resume` | pkg/protectedfill/gate.go:132-149 | success leaves the gate open, the latch durably gone and no context alive; failure leaves it barred; on sound storage it succeeds exactly for a blocked gate that is not closed and has its latch |
| `ObservationGate.Authority.SyncRemoval` | pkg/protectedfill/gate.go:141-148 | an unsynced removal never opens the gate |
| `ObservationGate.Authority.Close` | pkg/protectedfill/gate.go:163-190 | the gate is closed for good and every pending capture cancelled; the lock is given up exactly when no operation runs by then, whoever acts between the two critical sections |
| `ObservationGate.Coordinator.Run` | pkg/protectedfill/operation.go:72-134 | unless recovery is required, the gate is open on return, the latch gone and no validated context alive; when it is, the gate stays barred; the receipt reports a submission attempt exactly when a value of the right size was read and submitted in time on an approved target; when nothing fails, recovery is not required after a run on an open gate |
| `ObservationGate.Coordinator.Use` | pkg/protectedfill/operation.go:115-133 | a validated context is destroyed whatever happened in it, or recovery is required |
| `ObservationGate.Coordinator.Fill` | pkg/protectedfill/operation.go:120-133 | attempted exactly when a value of the right size was read and submitted, all in time and before any Close |
| `ObservationGate.Coordinator.Recover` | pkg/protectedfill/operation.go:146-168 | opens a barred gate only after all orphans are destroyed; never a closed one; when nothing fails it succeeds unless the gate is busy, closed, or barred without a latch |
| `ServiceVault.ActKeeps` | internal/server/server.go:554-782 | every authenticated request keeps a vault in order and none is undone because a device name is taken |
| `ServiceVault.RevokedOk` | internal/server/server.go:716-782 | revocation always leaves somebody active |
| `ServiceVault.TransitionedOk` | internal/server/invitations.go:234-437 | approvals, rejections, cancellations, expiries and failed attempts keep the vault in order |
| `ServiceVault.ApprovedExactly` | internal/server/invitations.go:330-361 | an invitation is approved exactly when its enrollment is approved with an envelope and a device row with the same keys exists; exhausted exactly at five failures; pending implies fewer |
| `ServiceVault.ApprovalIsEarned` | internal/server/invitations.go:277-361 | an invitation becomes approved only by an active device other than its own, unexpired, with its version, device and keys confirmed and a well-formed envelope |
| `ServiceVault.ExpiresAtFirstLook` | internal/server/invitations.go:439-482 | the first look at or after its expiry ends a pending invitation, says when, and is the last to change anything |
| `ServiceVault.UndueStays` | internal/server/invitations.go:439-455 | looking at a pending invitation before its expiry changes nothing, however often |
| `ServiceVault.FifthFailureExhausts` | internal/server/invitations.go:386-437 | a new invitation bears four failures; the fifth exhausts it, says when and by whom, and whatever follows changes nothing |
| `ServiceVault.TerminalStays` | internal/server/invitations.go:268-276 | no request changes an invitation that is not pending |
| `ServiceVault.DevicesStay` | internal/server/server.go:716-782 | devices never go, keep their keys, and stay revoked |
| `Service.RunsStayOk` | internal/server/server.go:291-349 | every vault of every reachable state is in order |
| `Service.ReachableVaults` | internal/server/server.go:741-773 | in every reachable state each vault has an active device and every invitation is what it says |
| `Service.TerminalForever` | internal/server/invitations.go:234-482 | an invitation that is not pending is the same for the rest of the run |
| `Service.ApprovedWasEarned` | internal/server/invitations.go:277-361 | every approved invitation of a reachable state was approved by one request of the run, from an active device other than the invited one, in time, with the right version, device and keys and a well-formed envelope, and is as that request left it |
| `Service.AcceptanceSpends` | internal/server/server.go:1248-1271 | accepting a request leaves its nonce known or its device revoked |
| `Service.StillSpent` | internal/server/server.go:752-774 | pruning and revocation forget a nonce only when it can no longer be accepted |
| `Service.SpentIsRefused` | internal/server/server.go:1238-1271 | a spent nonce is refused: the five-minute window and the ten-minute retention leave no gap, with stored times rounded down |
| `Service.AcceptedOnce` | internal/server/server.go:1181-1282 | a signed request claimed by one device is accepted and committed at most once, ever |
| `Service.AcceptedOnceByKey` | internal/server/server.go:1229-1236 | while no signing key is enrolled twice in the vault, the signed bytes alone are accepted at most once |
| `Service.AcceptedAgainExactly` | internal/server/server.go:1201-1236 | once a request is accepted, the same signed bytes are accepted from another identity with the same key and an unused nonce exactly if that identity may make the call then |
| `Service.SharedKeyServesTwice` | internal/server/server.go:1201-1236 | a run of the service from the start: a founder admits a device with the same signing key, and an ordinary request one of them signs is served twice |
| `ServiceAccess.AcceptedExactly` | internal/server/server.go:1181-1282 | a request is accepted exactly if it is signed with the key of an active device, or of an enrollment that is no device yet and asks for no more than its enrollment, its invitation or a transition; at most five minutes off the clock; with a nonce that is not known |
| `ServiceAccess.RefusedLeavesNonce` | internal/server/server.go:1238-1282 | a request that is not accepted changes no vault; it leaves its nonce, and forgets those older than ten minutes, exactly if it was rightly signed, in time and fresh |
| `ServiceAccess.RevokedIsSilent` | internal/server/server.go:1209-1213 | no request of a revoked device is ever accepted again |
| `ServiceAccess.NoncesExactly` | internal/server/server.go:1248-1271 | after an accepted request exactly its own nonce and the earlier ones of the last ten minutes are known, with their times, less those of a device it revoked |
| `ServiceAccess.DeviceBecomes` | internal/server/server.go:716-782 | a request makes an active device revoked, as of its time, exactly if it asks for that and another device is active, and changes no device otherwise |
| `ServiceAccess.EnrollmentBecomes` | internal/server/server.go:554-623 | an enrollment becomes an active device with the enrolled keys and the very envelope of the request, both or neither, and is otherwise left as it is |
| `ServiceAccess.DeviceWasAdmitted` | internal/server/server.go:554-623 | every device of a reachable vault founded it, or was admitted by one accepted request of a device that was active then, and has the enrolled keys |
| `ServiceAccess.PendingBecomes` | internal/server/invitations.go:234-482 | what any request makes of a pending invitation: expired at the first late look, ended as asked if role, binding and envelope fit, one attempt less if they do not, exhausted at the fifth, and otherwise untouched |
| `ServiceAccess.InvitationWasMade` | internal/server/invitations.go:71-140 | every invitation of a reachable state was made by one request, for ten minutes in whole seconds, for the device it still names |
| `ServiceAccess.ApprovedInTime` | internal/server/invitations.go:268-361 | an approved invitation was approved less than ten minutes after it was made |
| `ServiceHandlers.SyncService.constructor` | internal/server/server.go:94-112 | an empty service is in order |
| `ServiceHandlers.SyncService.AuthenticateDevice` | internal/server/server.go:1181-1282 | the branches decide as specified, identity first, then time and nonce, authorization last; passed are exactly the requests that may pass |
| `ServiceHandlers.SyncService.TurnAway` | internal/server/server.go:1284-1309 | a refusal leaves at most a nonce behind |
| `ServiceHandlers.SyncService.CreateVault` | internal/server/server.go:351-397 | a vault with one active device, or nothing; refused exactly for a malformed body, and otherwise nothing only when the commit is lost |
| `ServiceHandlers.SyncService.RequestEnrollment` | internal/server/server.go:399-459 | one more pending enrollment, or nothing; an unknown vault and a malformed body are told apart |
| `ServiceHandlers.SyncService.CreateInvitation` | internal/server/invitations.go:71-140 | one more pending enrollment with its invitation, or nothing; an unknown vault and a malformed body are told apart |
| `ServiceHandlers.SyncService.RevokeDevice` | internal/server/server.go:716-782 | the specified transaction or nothing; done exactly when an active device became revoked, by an active one and not the last; an unknown device, and one that cannot be revoked, are told apart |
| `ServiceHandlers.SyncService.ApproveEnrollment` | internal/server/server.go:554-623 | the specified transaction or nothing; done exactly when the device is new among the devices, and then an active device asked; the insertion never collides; the refusals are told apart |
| `ServiceHandlers.SyncService.GetInvitation` | internal/server/invitations.go:188-232 | the specified transaction or nothing; shown exactly to the active devices and the invited one, as it is stored, expired if due |
| `ServiceHandlers.SyncService.ListInvitations` | internal/server/invitations.go:142-186 | the specified transaction or nothing; what is shown is every invitation as stored, none of them overdue |
| `ServiceHandlers.SyncService.ExpireInvitations` | internal/server/invitations.go:484-521 | the loop expires every overdue pending invitation and changes nothing else |
| `ServiceHandlers.SyncService.TransitionInvitation` | internal/server/invitations.go:234-384 | the specified transaction or nothing; done exactly when a pending invitation ended as asked, and then an approval added the device |
| `ServiceHandlers.SyncService.Transition` | internal/server/invitations.go:257-375 | what becomes of the vault is the specified action; not found, conflict, bad request and done are answered exactly for no invitation, one that is over, one that something does not fit, and one that ends as asked |
| `ServiceHandlers.SyncService.Fits` | internal/server/invitations.go:276-309 | role, binding and envelope decide together |
| `ServiceHandlers.SyncService.EndInvitation` | internal/server/invitations.go:310-375 | the invitation ends as asked, and an approval admits a device that was not there before |
| `Revisions.RunsAgree` | internal/server/server.go:784-1044 | with honest clients, in any interleaving, every row opens to an object of its own identity and revision |
| `Revisions.DecryptExactly` | internal/vaultobject/object.go:72-90 | a row opens exactly to what was sealed for it, under its identity, at its revision and, for an object, its time |
| `Revisions.TamperingIsNoticed` | internal/vaultobject/object.go:72-90 | whatever was ever stored opens nowhere but in its own row at its own revision |
| `Revisions.RevisionFixesRecord` | internal/server/server.go:810-834 | for records a name and a revision fix the value forever |
| `Revisions.WritesReplaceWhatWasRead` | internal/server/server.go:946-975 | a write that names the revision its writer read replaces exactly what was read, provided that, if anything was read, it was not deleted in between |
| `Revisions.UntouchedExactly` | internal/server/server.go:946-975 | nobody wrote or deleted the row between its reading and the write that names the revision read, exactly if nobody deleted it |
| `Revisions.FirstWritesReplaceNothing` | internal/server/server.go:946-963 | a write whose writer had read that there is nothing finds nothing, whatever happened in between |
| `Revisions.DeletedRevisionIsReused` | internal/server/server.go:1009-1034 | an accepted write to an object that was deleted and made again replaces something its writer never saw |
| `Revisions.DecryptRecords` | internal/client/records.go:12-27 | all records or none: exactly when every row opens and agrees with its row, sorted by name |
| `Revisions.DecryptAll` | internal/vaultobject/object.go:92-119 | all objects or none: exactly when every row opens, agrees and is listed once, sorted by kind and key |
| `Revisions.ObjectStore.PutVaultObject` | internal/server/server.go:918-987 | an accepted write is well formed, had the current revision and stored the next; when nothing is lost exactly those are accepted |
| `Revisions.ObjectStore.DeleteVaultObject` | internal/server/server.go:989-1044 | removes a row only at the stated revision |
| `Revisions.ObjectStore.PutObject` | internal/client/objects.go:29-53 | what comes back opens to what was sent, at the revision sealed before the server assigned it; a mismatch is never reported and no other row changes; when nothing is lost it succeeds exactly at the stated revision |
| `Redactor.Occurrences` | internal/agentbroker/redact.go:100-108 | all occurrences of a needle, overlapping ones too |
| `Redactor.Fragment` | internal/agentbroker/redact.go:109-117 | the longest fragment of a needle that ends the output, if there is any |
| `Redactor.FindSpans` | internal/agentbroker/redact.go:95-118 | exactly the occurrences and, of cut output, the longest trailing fragments |
| `Redactor.OneGroup` | internal/agentbroker/redact.go:126-132 | a merged span reaches over every overlapping span and leaves no seam inside |
| `Redactor.Merge` | internal/agentbroker/redact.go:123-137 | uncovered positions in order, one label where each merged span begins, and their number |
| `Redactor.Redact` | internal/agentbroker/redact.go:94-138 | the output as occurrences and positions say it: dropped positions gone, the others kept in order, one label where each merged span begins, and their number |
| `Redactor.DroppedExactly` | internal/agentbroker/redact.go:94-138 | dropped is exactly what lies in an occurrence and, when cut, in a trailing needle fragment |
| `Redactor.NewRedactor` | internal/agentbroker/redact.go:32-51 | one needle for every form of every value that is long enough, labelled with the first name that has it, longest first |
| `Redactor.Capture.Write` | internal/agentbroker/runner.go:74-89 | the buffer is the start of everything written, and the cut flag never misses a loss |
| `Redactor.NothingLeaks` | internal/agentbroker/runner.go:74-89 | every captured position inside an occurrence in the whole stream is dropped, also when the capture limit cut the occurrence off |
| `Redactor.Clip` | internal/agentbroker/broker.go:338-343 | the start of the text, up to the limit |
| `Redactor.Return` | internal/agentbroker/broker.go:285-296 | from the stream to the returned text: no captured character of any occurrence survives, the rest is kept in order and clipped last |
| `Redaction.RedactionExplained` | internal/agentbroker/redact.go:94-138 | said character by character: redacted output is the characters that are in no secret, in order, and one label with the mark of a secret where each run of overlapping secrets begins, and nothing else; the count is the number of these labels |
| `Redaction.CleanIsKept` | internal/agentbroker/redact.go:94-138 | output without secrets, and without the beginning of one where it was cut, is returned as it is |
| `Redaction.StreamSecretsAreGone` | internal/agentbroker/runner.go:74-89 | no captured character of a secret in the whole stream is kept, also when the rest of the secret was not captured |
| `Password.RandomIndex` | internal/password/password.go:88-99 | the first acceptable byte decides; rejected ones are used up |
| `Password.Uniform` | internal/password/password.go:88-99 | of the 256 bytes exactly 256/size yield each index, whatever follows them in the stream, and the rest are passed over |
| `Password.ShuffleIsInjective` | internal/password/password.go:78-84 | different choices give different orders |
| `Password.ShuffleIsOnto` | internal/password/password.go:78-84 | every permutation is reached |
| `Password.OneChoicePerPermutation` | internal/password/password.go:78-84 | choices and permutations match one to one |
| `Password.ShuffleInPlace` | internal/password/password.go:78-84 | the in-place swaps are the shuffle under the choices drawn |
| `Password.OneOfEach` | internal/password/password.go:63-71 | one character of each enabled class first, drawn one after the other |
| `Password.FillUp` | internal/password/password.go:72-77 | the rest drawn from any enabled class |
| `Password.Generate` | internal/password/password.go:44-86 | an invalid policy is refused; otherwise the stream alone decides the password, which has exactly the length, only characters of the enabled kinds, and each kind |
| `Password.EveryPassword` | internal/password/password.go:44-86 | every string that the policy permits comes out of some stream |
| `EvidenceChain.NewEvidence` | internal/lifecycle/policy.go:149-164 | refused exactly for an incomplete binding; otherwise the entry records the operation, stage, code, device and time it was asked for |
| `EvidenceChain.VerifyEvidenceChain` | internal/lifecycle/policy.go:172-193 | accepts exactly the chains numbered, linked, digested and signed throughout |
| `EvidenceChain.NewEvidenceExtends` | internal/lifecycle/policy.go:149-193 | an entry on top of a verified chain verifies exactly when it is signed with the chain's key |
| `EvidenceChain.BuiltChainsVerify` | internal/lifecycle/policy.go:149-193 | any chain built entry by entry under one key verifies, and its entry i is number i + 1 and records input i |
| `EvidenceChain.AcceptedIsBuilt` | internal/lifecycle/policy.go:149-193 | the chains that verify are exactly those that are built from what they record: any other was tampered with |
| `EvidenceChain.SameDigestSameContents` | internal/lifecycle/policy.go:172-193 | accepted chains with the same last digest have the same contents apart from signatures |
| `EvidenceChain.EvidenceStore.Put` | internal/lifecycle/store.go:154 | accepted only on top of the version that was read |
| `EvidenceChain.EvidenceStore.AppendEvidence` | internal/lifecycle/store.go:138-156 | success extended the durable chain by exactly this entry, also if the chain could not be read and counted as missing; left alone, it appends exactly the entries that verify |
| `EvidenceChain.EvidenceStore.VersionsArePrefixes` | internal/lifecycle/store.go:138-156 | every stored version is a prefix of every later one, one entry longer each |
| `Deployment.Workflow.RollBack` | internal/lifecycle/deployment.go:68-76 | each staged target once, the last first; failures do not stop the rest; reported are exactly the rollbacks that were done, in their order |
| `Deployment.ReportedExactly` | internal/lifecycle/deployment.go:68-76 | a name is reported exactly if a rollback of a target of that name was done |
| `Deployment.Workflow.StageAll` | internal/lifecycle/deployment.go:38-50 | all staged in order, or undone and the done rollbacks reported, or stopped at a malformed target |
| `Deployment.Workflow.ActivateAll` | internal/lifecycle/deployment.go:51-65 | one activation and check after the other, or everything undone and the done rollbacks reported |
| `Deployment.Workflow.DeployInOrder` | internal/lifecycle/deployment.go:32-66 | what reached the adapters has the shape the lemmas below speak about; it ends as invalid exactly when the first target that is malformed or refuses staging is malformed, and deploys exactly when all targets are well formed and play their part |
| `Deployment.ActivatesWhenAllStaged` | internal/lifecycle/deployment.go:38-56 | nothing is activated before every target is staged, each on its staging evidence |
| `Deployment.ActivatesAfterHealthy` | internal/lifecycle/deployment.go:51-65 | a target is activated only after every earlier one was found healthy |
| `Deployment.RollsBackEveryStaged` | internal/lifecycle/deployment.go:45-76 | on failure each staged target is rolled back exactly once, in reverse order, on its newest evidence |
| `Deployment.FailureIsNamed` | internal/lifecycle/deployment.go:38-66 | a failure names the phase and the target of the one thing that went wrong: all before it went well, and only rollbacks follow it |
| `Deployment.DeployedIsWhole` | internal/lifecycle/deployment.go:51-66 | a deployment is reported with the evidence each target gave when it was activated, in order |
| `Deployment.InvalidRollsNothingBack` | internal/lifecycle/deployment.go:39-43 | a malformed target stops the run without any rollback, however many targets are staged; well-formed input never ends that way |
| `Deployment.StagedMayBeAbandoned` | internal/lifecycle/deployment.go:39-43 | such a run: one target staged, the next malformed, nothing rolled back |
| `Recovery.Replacement.ValidateTarget` | cmd/envbank/recovery.go:296-322 | names what is there, at the moment it looks, exactly when all of it is expected |
| `Recovery.Replacement.RestoreRecords` | cmd/envbank/recovery.go:258-294 | on success the vault held exactly the snapshot at the last look, whoever else writes; if nobody does, it holds part of what is expected at any failure, is untouched if it held anything else, and a complete vault is not changed |
| `Recovery.Replacement.RestoreObjects` | cmd/envbank/recovery.go:324-376 | the same for objects |
| `Recovery.Replacement.RestoreSnapshot` | cmd/envbank/recovery.go:251-256 | both tables, in this order; success speaks of the objects while others write, and of both otherwise |
| `Recovery.Replacement.ResumeUntil` | cmd/envbank/recovery.go:231-249 | over any number of interrupted runs of the only writer the vault only ever holds part of the snapshot; one undisturbed run completes it |
| `Recovery.ExpectedAt` | cmd/envbank/recovery.go:258-265 | every record of the snapshot is expected once, as a first revision |

## Left out

- Names-only and binding-name plans, promotion and rollback statuses, deployment identifiers and error code texts of rollouts.
- RolloutChecks.ValidateOperation: does not model promoted and rolled-back statuses, deployment identifiers and the text form of times.
- RolloutChecks.ValidatePlan: does not model expiry, the names-only kinds and the digest, which is ideal.
- RolloutChecks.ValidateSnapshotBindings: does not model bindings of planned names.
- Building and confirming a plan, plan expiry, and re-checking the plan context on resume: a nondeterministic refusal.
- RolloutEngine.Engine.Advance: takes one clock reading per local decision where the code reads the clock for the reconciliation time and for the update time separately.
- Secret buffers and their wiping.
- Timestamps, versions and sensitivity inside the prepare journal and snapshot, and the error returns for undecodable ones: stored journals and snapshots are shown to be always valid.
- Password generation inside the prepare operation is a nondeterministic value; the sampler is modelled by itself.
- Manifest checks other than template parsing, reference existence and evaluation order.
- Time limits at the gate: whether an operation is still in time is part of what it is given; cancellation by begin and Close is modelled.
- ObservationGate.Coordinator.Run: a call that meets a Close between its two locks is answered as busy by the code and as in need of recovery by the model; the gate is closed either way.
- ObservationGate.Authority.Observe: the wait for the mutex is not modelled as progress; a capture that waits for a begin or resume has not answered yet.
- Access events, paging and limits of the service, record and device listings, the order of listed invitations, migration from older schemas; that a body is malformed is an input.
- Several clock readings within one service transaction are one reading.
- Identifiers made up by the service are new; a clash of random identifiers is not modelled.
- Redactor.NewRedactor: takes the forms of a value, its encodings and lines, as a parameter; they are library encodings.
- Policies, leases and the transition table of the lifecycle package.
- Deployment cancellation and a missing context; a missing adapter or request is modelled.
- Recovery artifacts, their sealing, and the creation of the replacement vault.
- The other service implementation, command-line handling, keychains, sockets and process control.
