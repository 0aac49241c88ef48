# AutPlay protocols and automata

A Dafny 4.11 model of the AutPlay code whose correctness rests on more than one function at a time: the
acquisition-to-Vault bridge, the SQL splitter of the migrations, the admission control of the inference
gateway, the external backup, the acceptance bundle, the migration chain, the model registry, the lineage
upgrade, and the audio plans. `dafny verify dfyconfig.toml` checks all of it.

| files | what they hold |
|---|---|
| `SqlSplitter`, `SqlSplitterLaws` | the seven-variable splitting loop, proved equal to a recursive token grammar, and the laws of that grammar |
| `ReferenceSelection` | selection of frozen reference statements by name, and the drops that undo it |
| `VaultBridge` | the durable store behind the import, library and Vault services, `Backend.advance` with a fault at every call, the chunk loop, the retry and metadata automata |
| `BridgeLaws`, `BridgeRuns`, `BridgeProgress` | the invariant of the store, replay convergence over every run of crashes, stale checkpoints, owner edits and workers, and that every receipt can be published |
| `CheckpointLaws` | the checkpoint automaton over any outcomes and clock |
| `BridgeScheduler` | the selection of work and the main loop with its eight workers |
| `SonaAdmission` | reserve, run, time out, cancel and release as interleaved steps, and the gateway with its counter |
| `TransferBudget`, `ExternalBackup` | the byte budget, and quiesce, dump, archive, seal, rename and restart with a failure at every operation |
| `BundlePaths`, `EvidenceBundle`, `EvidenceValidator`, `PassingBundle` | path spelling, what an accepted evidence bundle is and means, the nested loops that accept exactly those, and a bundle that passes |
| `MigrationGraph` | the walk that accepts exactly the linear chains |
| `ModelActivation` | the registry's triggers and constraints over runs of transactions, and the application's activation |
| `LineageBackfill` | the guards, the backfill and the constraints of the acquisition lineage upgrade |
| `SegmentPlan`, `ClipPlan` | segment starts under half-even rounding, and the clip plan |
| `AudioManifest`, `AudioSample` | the manifest loader, and the sampler that writes what it reads |
| `StableSort`, `FiniteSets`, `Rounding`, `Outcomes` | shared: stable sort, sizes of sets, half-even rounding, option and result types |

Code that changes things step by step is modelled by methods and classes that are proved against functions or
predicates; the theorems over all runs are lemmas about those. Failures are values of an oracle (`Fault`,
`Surroundings`, `Source`, `Round`) that the theorems quantify over, so that a statement holds whatever fails.
SHA-256, name-based UUIDs and canonical JSON are constructors of datatypes, which makes them injective.

Findings that the code's own documentation does not say:

- The splitter cannot be cut at an arbitrary character: `Split(a + b)` is `Split(a) + Split(b)` for every `b`
  exactly when only whitespace follows the last top-level `;` of `a` (`CutIff`).
- `BACKUP_SHA256` is counted as 65 bytes and written as text. Where a newline takes two bytes, the budget is one
  byte behind the disk at completion, and equal exactly where it takes one (`Backup.ExecuteBackup`).
- A submission to the executor that raises lies outside the handler's `try` and leaks its slot; the pool drains to
  the leaked slots and no further, and `max` leaks refuse every later request (`Drains`, `LeaksExhaust`).
- The three clips of a source are disjoint for every three seeds exactly from 80 998 ms on (`DisjointIff`).
- Segments cover the source exactly when the cap allows `ceil(D / s)` of them (`CoverageIff`).
- The loader's test for repeated file names never decides, and the first guard of the lineage upgrade refuses
  nothing that the other two would pass (`FilesFollowKeys`, `Refused`).
- Checkpoints of one receipt can name two library entries, but only after the owner has removed one
  (`RemovalDiverges`, `SameEntryThroughout`).
- In `--once` mode a selected key whose retry time lies ahead is marked as submitted and never is (`Scheduler.RunOnce`).
- A model registered before provenance was introduced can never leave BLOCKED (`LegacyBlocked`).
- A descriptor with a doubled slash or a single dot passes as a path; only the closed inventory rejects it (`SpellingMatters`, `Spelled`).

## Model

| member | source | states |
|---|---|---|
| SqlSplitter.SplitSql | server/migrations/migration_support.py:31-139 | The character loop over index, four flags, depth and tag returns exactly what the recursive token grammar gives, on every script. |
| SqlSplitterLaws.SplitIff | server/migrations/migration_support.py:31-139 | A list is the splitter's answer if and only if it is canonical (every statement but the last has one top-level `;`, at its end) and the script is that list with only whitespace between. |
| SqlSplitterLaws.Lossless | server/migrations/migration_support.py:128-139 | Every accepted script is its emitted statements interleaved with whitespace only. |
| SqlSplitterLaws.Rejoin | server/migrations/migration_support.py:128-139 | Any respacing of a canonical statement list splits into that list. |
| SqlSplitterLaws.SplitCompose | server/migrations/migration_support.py:42-139 | If the first script ends at a top-level `;`, the statements of the concatenation are those of both in turn. |
| SqlSplitterLaws.CutIff | server/migrations/migration_support.py:42-139 | For an accepted first script, what follows is split on its own, whatever it is, if and only if nothing but whitespace stands after the last top-level `;` of the first. |
| SqlSplitterLaws.RoundTrip | server/migrations/migration_support.py:42-139 | Each emitted statement splits into itself, and so does the concatenation of all of them. |
| SqlSplitterLaws.RejectIff | server/migrations/migration_support.py:134-139 | A script is refused exactly when some quote, block comment or dollar body that starts between tokens is never closed; an open line comment is accepted. |
| SqlSplitterLaws.ScanExtends | server/migrations/migration_support.py:42-127 | A token of a text that ends in `;` and that leaves some of it unread is the same token whatever is appended: no lookahead crosses a final `;`. |
| SqlSplitterLaws.QuoteEndIff | server/migrations/migration_support.py:77-97 | A quoted token ends at the first quote that is not doubled. |
| SqlSplitterLaws.LineEndIff | server/migrations/migration_support.py:56-61 | A line comment ends with the first newline, or with the script if there is none. |
| SqlSplitterLaws.DollarEndIff | server/migrations/migration_support.py:43-51 | A dollar body ends with the first occurrence of its own tag. |
| SqlSplitterLaws.BlockNests | server/migrations/migration_support.py:63-75 | Block comments nest: a comment n deep is one comment and then n - 1 more. |
| SqlSplitterLaws.TagLengthIff | server/migrations/migration_support.py:119-125 | The texts that open a dollar body are two dollar signs around an optional identifier. |
| ReferenceSelection.Select | server/migrations/migration_support.py:249-264 | Accepts exactly when the names are distinct and each names one statement of the kind; the result keeps the order of the reference. |
| ReferenceSelection.TestsMeanUnique | server/migrations/migration_support.py:251-264 | The two size tests and the set test together say that every requested name occurs exactly once. |
| ReferenceSelection.DropIndexes | server/migrations/migration_support.py:294-301 | Succeeds exactly when the names can be selected and every selected statement has a schema; then one drop a name, in the order of the names, each from the schema where the statement put the index. |
| ReferenceSelection.DropsUndo | server/migrations/migration_support.py:267-301 | From any database on which the selected statements succeed, the drops succeed after them and leave the indexes that were there before. |
| VaultBridge.AdvanceCalls | tools/acquisition_vault_bridge.py:583-606 | The loop of at most six calls ends as the recursive `AdvanceLoop` says, under any faults. |
| VaultBridge.SendChunks | tools/acquisition_vault_bridge.py:342-365 | The loop of at most 32 chunks ends as the recursive `Send` says, under any faults. |
| BridgeLaws.AdvanceOk | tools/acquisition_vault_bridge.py:266-453 | One call from any consistent checkpoint, with a fault anywhere, keeps the store's invariant, lets it only grow, and returns a consistent checkpoint. |
| BridgeLaws.SendKeeps | tools/acquisition_vault_bridge.py:344-365 | Whatever fails, an upload session holds a prefix of the audio cut at a multiple of 1 MiB or complete, and the reported offset is what it holds. |
| BridgeLaws.UploadProgress | tools/acquisition_vault_bridge.py:344-365 | Without faults a call sends up to 32 MiB; what is left strictly decreases, and the session is sealed exactly when nothing is left. |
| BridgeLaws.CommittedMatches | tools/acquisition_vault_bridge.py:379-391 | The check of a committed upload against the receipt cannot fail. |
| BridgeRuns.RunOk | tools/acquisition_vault_bridge.py:266-453 | The invariant holds after every event of every run, where one call of `advance` is one event: such calls by any number of workers with any faults, crashes, stale checkpoints, owner edits, ingest workers and expiry, in any order. |
| BridgeRuns.AdvanceCheckpointIsRun | tools/acquisition_vault_bridge.py:583-617 | A call of `advance_checkpoint` that nothing interrupts is one of these runs, from any state that a run reaches: up to six calls, the clean-up or the retry record, and the metadata hand-off. |
| BridgeRuns.Convergence | tools/acquisition_vault_bridge.py:266-453 | Any two checkpoints ever produced for one receipt name the same import, recording, ref, upload and variant, and of the library entries that are still active the same one. |
| BridgeProgress.SameEntryThroughout | tools/acquisition_vault_bridge.py:299-326 | In every run in which the owner removes no entry, any two checkpoints of one receipt name the same library entry. |
| BridgeProgress.RemovalDiverges | tools/acquisition_vault_bridge.py:299-326 | For every receipt there is a run with a removal in which two of its checkpoints name different entries. |
| BridgeRuns.AtMostOnce | tools/acquisition_vault_bridge.py:312-447 | One upload session and one sync event an identity, one active entry a ref, and `row_version` bumped by at most one publication. |
| BridgeRuns.UploadsArePrefixes | tools/acquisition_vault_bridge.py:344-365 | In every run each session holds a prefix of its audio, and is sealed and ingested only with all of it. |
| BridgeRuns.ReplayChangesNothing | tools/acquisition_vault_bridge.py:583-617 | Restarting a published receipt from any stale checkpoint publishes the same ids in one advance and leaves the store as it is. |
| BridgeProgress.ReplayUndisturbed | tools/acquisition_vault_bridge.py:583-617 | After any run without removals, failed imports and aborted uploads the replay of a published receipt needs no condition on the store. |
| BridgeProgress.CanPublish | tools/acquisition_vault_bridge.py:266-453 | After any such run, from any unpublished checkpoint, faultless calls and the services' own events can publish the receipt within 11 events and one more for each 32 MiB. |
| BridgeProgress.SomeRunPublishes | tools/acquisition_vault_bridge.py:266-453 | For every receipt some run publishes it. |
| CheckpointLaws.CallOutcomes | tools/acquisition_vault_bridge.py:583-617 | A call schedules a retry exactly when it reaches `advance` and an ordinary exception ends it; a receipt error or a changed file asks for review, a success keeps the ids reached and clears the retry record, and an exception drops them while the store keeps what was written; a published or waiting receipt is left as it is. |
| CheckpointLaws.PublishedForever | tools/acquisition_vault_bridge.py:587-588 | Once PUBLISHED, no call of any run changes the store that it meets or anything but the metadata keys. |
| CheckpointLaws.FiveFailures | tools/acquisition_vault_bridge.py:609-617 | Over every run of calls without a success, however many wait in between and whatever others write to the store between them, the failures grow by exactly the number of attempts, an attempt puts the receipt under review if and only if it brings them to five or more, and everything else is as the last success left it. |
| CheckpointLaws.DelayGrows | tools/acquisition_vault_bridge.py:616-617 | The retry delay never decreases and lies between 20 and 300 seconds. |
| CheckpointLaws.AttemptsAreSpaced | tools/acquisition_vault_bridge.py:589-590 | After a call that an exception ended, no call changes the store or the checkpoint before the delay has passed. |
| CheckpointLaws.AtMostFiveMetadataFailures | tools/acquisition_vault_bridge.py:549-580 | For one digest the hand-off fails at most five times over any run; the fifth failure is final, and only metadata keys change. |
| BridgeScheduler.SelectedHaveWork | tools/acquisition_vault_bridge.py:514-540 | Every selected key has work, and none is under review. |
| BridgeScheduler.LeftOutYields | tools/acquisition_vault_bridge.py:531-540 | A receipt with work is left out only when the limit is full of receipts that come before it: unpublished first, then the most recent. |
| BridgeScheduler.ScanOrderKept | tools/acquisition_vault_bridge.py:531-540 | Receipts of one rank are selected in the order of the scan: a selected one has before it all those with work that the scan lists earlier. |
| BridgeScheduler.NoLostUpdate | tools/acquisition_vault_bridge.py:670-722 | Between two submissions of a key lie the completion of the first and the saving of exactly the result that the second starts from. |
| BridgeScheduler.Scheduler.Drain | tools/acquisition_vault_bridge.py:670-676 | Collects the finished jobs and no other, and stores each result in memory and on disk before anything else happens to its key. |
| BridgeScheduler.Scheduler.Consider | tools/acquisition_vault_bridge.py:706-722 | A key is submitted once, with the checkpoint in memory (which is the saved one), unless it is in work or not due; the loop dies if and only if the key is not skipped and its receipt is missing. |
| BridgeScheduler.Scheduler.Submit | tools/acquisition_vault_bridge.py:703-722 | At most eight jobs and one a key; afterwards the loop is stopping, or all workers are busy, or every selected key is in work or not due. |
| BridgeScheduler.Scheduler.Iterate | tools/acquisition_vault_bridge.py:668-724 | One round keeps the invariant of the loop; only --once mode can meet a missing receipt. |
| BridgeScheduler.Scheduler.RunOnce | tools/acquisition_vault_bridge.py:668-748 | --once mode ends if running jobs finish sooner or later, however many rounds time out. Its keys are those that the first round selects; it cannot crash unless a later scan misses the receipt of one of them. Without a crash or a signal the turn of each comes, exactly those that do not wait for a retry at their turn are submitted, once each, and no other key ever is. |
| SonaAdmission.Safety | gpu/src/autplay_gpu/sona_http.py:67-88 | Over every interleaving at most `max` slots are held and at most `max` jobs are queued or running, less one for each leak among the jobs that a request waits for; jobs run in the order of arrival, and a request keeps its slot until the loop has seen its job end. |
| SonaAdmission.ReleasedOnce | gpu/src/autplay_gpu/sona_http.py:128-150 | A reservation is released at most once, and has been released exactly when the request is through: on success, error, timeout and cancellation alike. |
| SonaAdmission.SlotsConserved | gpu/src/autplay_gpu/sona_http.py:67-79 | In every run the slots granted are those released, over all requests, and those still held. |
| SonaAdmission.Drains | gpu/src/autplay_gpu/sona_http.py:80-88 | Without arrivals only finitely many steps remain, and where none is left no slot is held but the leaked ones. |
| SonaAdmission.LeaksStay | gpu/src/autplay_gpu/sona_http.py:128-133 | A slot leaks exactly where handing the job of a granted request to the executor raises, whether the job has been queued before that or not. |
| SonaAdmission.LeaksExhaust | gpu/src/autplay_gpu/sona_http.py:128-133 | Once `max` slots have leaked, every later request is refused. |
| SonaAdmission.Gateway.Arriving | gpu/src/autplay_gpu/sona_http.py:67-73 | The counter grants a slot exactly when the protocol counts fewer than `max` holders. |
| SonaAdmission.Gateway.Resuming | gpu/src/autplay_gpu/sona_http.py:133-150 | The handler's exits release at once when the job is done and else defer to a background task; the counter stays the number of holders. |
| SonaAdmission.Gateway.Waking | gpu/src/autplay_gpu/sona_http.py:80-88 | The background task releases the deferred slot and no other. |
| TransferBudget.Budget.Accept | scripts/admin_target_external_backup.py:129-151 | A refused block changes nothing, the total never exceeds the limit, the warning latches exactly at the threshold and is printed at most once, and fewer than 256 MiB stay unreported. |
| ExternalBackup.RestartCovers | scripts/admin_target_nas_backup.py:43-68 | The stateful containers are the disjoint union of the two restart orders. |
| ExternalBackup.Backup.RemoteToFile | scripts/admin_target_external_backup.py:762-806 | A block is counted before it is written; the file holds exactly the counted bytes on success, and never more. |
| ExternalBackup.Backup.WriteHashManifest | scripts/admin_target_external_backup.py:913-934 | The two hash files, and by how much their bytes differ from what was counted. |
| ExternalBackup.Backup.RestartOriginalRuntime | scripts/admin_target_external_backup.py:876-897 | Starts only what was stopped: PostgreSQL, then the core once it is healthy, then the rest once the core is; if nothing fails from here on, everything runs again. |
| ExternalBackup.Backup.Generate | scripts/admin_target_external_backup.py:1002-1113 | Dumps run with PostgreSQL as the only one of them, archives with PostgreSQL stopped too; success means every expected file in order. |
| ExternalBackup.Backup.ExecuteBackup | scripts/admin_target_external_backup.py:937-1186 | Whatever fails, the final running set is the initial one if the restart ends well, except when the caller wants the containers left stopped and the rename has returned; bytes on disk never exceed the counted ones by more than a newline. |
| EvidenceBundle.AcceptedIsClosed | scripts/admin_target_acceptance.py:659-667 | An accepted bundle is closed: good descriptors, no link, and no file but the manifest and what they name. |
| EvidenceBundle.Bijection | scripts/admin_target_acceptance.py:687-727 | Descriptors of a closed bundle are in bijection with the files but the manifest, each with its true digest. |
| EvidenceBundle.CountsAreTrue | scripts/admin_target_acceptance.py:703-761 | The reported counts are the number and the bytes of those files, and within the bounds. |
| EvidenceBundle.PassIsComplete | scripts/admin_target_acceptance.py:719-754 | A PASS means that all four gates pass, with every control evidenced, every gate target set, and a fixed acceptance window. |
| PassingBundle.PassIsPossible | scripts/admin_target_acceptance.py:719-754 | Some directory with its parsers is accepted as PASS: a file for each control, a sign-off for each gate, and no other file but the manifest. |
| EvidenceBundle.SignoffDetermines | scripts/admin_target_acceptance.py:552-656 | Two bundles in which a gate passes on the same sign-off bytes agree on the gate's targets and on every byte of its other evidence. |
| EvidenceBundle.AcceptedPasses | scripts/admin_target_acceptance.py:733-746 | A gate marked PASS in an accepted bundle has a valid sign-off over its targets and controls. |
| EvidenceBundle.ScaffoldIsAccepted | scripts/admin_target_acceptance.py:811-838 | What the scaffold writes is accepted as PENDING. |
| EvidenceBundle.Spelled | scripts/admin_target_acceptance.py:659-667 | In a closed inventory every descriptor spells its path the way the directory does. |
| BundlePaths.NameReadsBack | scripts/admin_target_acceptance.py:349-368 | A file's name reads back as its path, so no two files share one. |
| BundlePaths.SpellingMatters | scripts/admin_target_acceptance.py:349-368 | An acceptable text is the name of a file path, and reads back as itself, if and only if it has no empty component and no single dot. |
| EvidenceValidator.ValidateBundle | scripts/admin_target_acceptance.py:670-761 | The nested loops with their running set and total accept exactly the bundles of the declarative definition, and report the true counts. |
| EvidenceValidator.ListPrefix | scripts/admin_target_acceptance.py:703-714 | Checking the bounds after every descriptor decides as checking them at the end. |
| MigrationGraph.AlembicIdentity | scripts/finalize_production_release.py:302-349 | Accepts if and only if the revisions are one linear chain, and returns its first revision and its length. |
| MigrationGraph.HeadUnreferenced | scripts/finalize_production_release.py:324-333 | The head of a chain is its one unreferenced revision. |
| MigrationGraph.NoBranch | scripts/finalize_production_release.py:324-342 | Two revisions of a chain never share a predecessor. |
| MigrationGraph.NoCycle | scripts/finalize_production_release.py:334-342 | No cycle, attached or detached, lies on a chain. |
| MigrationGraph.Walk | scripts/finalize_production_release.py:334-342 | The walk from the head terminates on the revisions not visited and succeeds exactly on a chain with that head. |
| ModelActivation.ActivationSafety | server/migrations/versions/0014_gpu_enrichment.py:84-157 | After the migration, in every state of every run, an ACTIVE model was activated for its task on an approved report about itself, and is the only one for that task. |
| ModelActivation.StatementKeeps | server/migrations/versions/0014_gpu_enrichment.py:84-157 | Every statement that succeeds keeps the invariant, takes back no provenance, report or log row, and logs each move into or out of ACTIVE with its transaction's time stamp. |
| ModelActivation.TransactionSafe | server/migrations/versions/0014_gpu_enrichment.py:358-382 | The same for a whole transaction, whether it commits or rolls back. |
| ModelActivation.MigrationBase | server/migrations/versions/0014_gpu_enrichment.py:40 | The migration leaves every existing model BLOCKED and the invariant true. |
| ModelActivation.LegacyBlocked | server/migrations/versions/0014_gpu_enrichment.py:40-83 | A model from before the migration stays BLOCKED in every run. |
| ModelActivation.Registry.Activate | server/src/autplay/adapters/postgresql/enrichment.py:212-308 | The switch succeeds exactly when its own gates allow it; no trigger or constraint refuses its log, demote, promote order. |
| LineageBackfill.Lineage.Upgrade | server/migrations/versions/0025_a1c_automation_runtime.py:205-260 | On every database of the old shape the constraints after the guards hold; the upgrade fails at a guard exactly when some requested candidate lacks an authorization or some provider upload belongs to a candidate that was never requested. |
| LineageBackfill.CurrentAttempt | server/migrations/versions/0025_a1c_automation_runtime.py:220-237 | A requested candidate gets exactly one attempt, MANUAL and in the mapped state, with `completed_at` set exactly for terminal states. |
| LineageBackfill.LinksInjective | server/migrations/versions/0025_a1c_automation_runtime.py:239-250 | Provider uploads map injectively to attempts. |
| LineageBackfill.UploadLink | server/migrations/versions/0025_a1c_automation_runtime.py:239-241 | A provider upload is linked to the attempt of its own candidate, if that was requested. |
| LineageBackfill.ConstraintsHold | server/migrations/versions/0025_a1c_automation_runtime.py:247-260 | Every foreign key, unique index and check added after the guards holds. |
| LineageBackfill.Refused | server/migrations/versions/0025_a1c_automation_runtime.py:209-215 | What the first guard refuses the other two would refuse. |
| SegmentPlan.StartsAtEnds | gpu/src/autplay_gpu/preprocessing.py:125-134 | The plan begins at 0 and, with more than one segment, ends at the last possible start. |
| SegmentPlan.Increasing | gpu/src/autplay_gpu/preprocessing.py:125-134 | The rounded starts increase strictly. |
| SegmentPlan.EveryLength | gpu/src/autplay_gpu/preprocessing.py:89-91 | Every segment lies inside the source and has length min(s, D). |
| SegmentPlan.CoverageIff | gpu/src/autplay_gpu/preprocessing.py:125-134 | The segments cover the source without a gap if and only if the cap allows ceil(D / s) of them. |
| SegmentPlan.RoundedSpacing | gpu/src/autplay_gpu/preprocessing.py:134 | Half-even rounding keeps starts one apart and never widens a spacing of at most s beyond s. |
| SegmentPlan.Decode | gpu/src/autplay_gpu/preprocessing.py:83-122 | Decoding succeeds exactly when every segment comes back non-empty, in whole samples and within its bound, and then lists the starts in order. |
| ClipPlan.PlanClips | tools/face-experiment/audio_inputs.py:13-30 | The plan exists exactly for a well-formed digest and duration, with one clip in the first, third and fifth fifth. |
| ClipPlan.InsideSource | tools/face-experiment/audio_inputs.py:21-29 | Each clip ends at least a second before the source does. |
| ClipPlan.Separated | tools/face-experiment/audio_inputs.py:23-29 | Consecutive starts are at least 600 ms apart. |
| ClipPlan.SeparationIsTight | tools/face-experiment/audio_inputs.py:23-29 | Some seeds attain the 600 ms. |
| ClipPlan.DisjointIff | tools/face-experiment/audio_inputs.py:13-30 | The clips are pairwise disjoint for every three 64-bit seeds if and only if the source lasts at least 80 998 ms; hence from that duration on they are for every digest. |
| AudioManifest.LoadManifest | tools/face-experiment/audio_inputs.py:33-92 | The loader accepts exactly the manifests of the declarative definition. |
| AudioManifest.ClipsAreGrid | tools/face-experiment/audio_inputs.py:61-69 | The clips of an accepted manifest are exactly tracks times {0, 1, 2}, by counting. |
| AudioManifest.FilesFollowKeys | tools/face-experiment/audio_inputs.py:62-63 | Distinct clips have distinct file names, so that test never decides. |
| AudioSample.Probe | tools/face-experiment/prepare_audio.py:38-78 | Succeeds exactly on 24 to 5000 items whose first occurrences have safe paths, with the accepted and the rejected first occurrences in the order of the inventory. |
| AudioSample.CandidatesAreFirst | tools/face-experiment/prepare_audio.py:41-78 | The candidates are exactly the first items of their digests whose probe is in bounds; no digest has two, and each duration has a clip plan. |
| AudioSample.SelectSample | tools/face-experiment/prepare_audio.py:80-91 | Selection succeeds if and only if 24 candidates remain; each choice is the least digest among new artists of its tercile, or among what is left of it. |
| AudioSample.SampleUnique | tools/face-experiment/prepare_audio.py:80-91 | The candidates determine the sample: there are not two that follow the selection rule. |
| AudioSample.SampleUnrepeated | tools/face-experiment/prepare_audio.py:84-91 | No source is selected twice. |
| AudioSample.TercilesOrdered | tools/face-experiment/prepare_audio.py:80-83 | No source of an earlier tercile is longer than one of a later tercile, or is in both. |
| AudioSample.WriteSample | tools/face-experiment/prepare_audio.py:92-186 | The writer succeeds exactly when every source of the sample is unchanged before and after, decodes, and gives three clips of an acceptable length; what it writes, the loader accepts. |
| AudioSample.PrepareAudio | tools/face-experiment/prepare_audio.py:29-191 | The program succeeds exactly on an inventory of an acceptable size, with safe paths and 24 candidates, when every source of their sample is good; the tracks it writes are that sample in order, and the loader accepts its manifest. |
| StableSort.SortOrdered | tools/face-experiment/prepare_audio.py:80-80 | The sort by duration and digest is ordered and a permutation. |
| StableSort.SortStable | tools/acquisition_vault_bridge.py:531-540 | Elements of one rank keep their order. |

## Left out

- Server packages behind the services: their writes are modelled as transactions on a store, from the shape of the import, library and Vault adapters; authorization, leases and sessions are not.
- Hashes, name-based UUIDs and canonical JSON: constructors of datatypes, injective by construction.
- BridgeRuns.Convergence: an owner who selects another recording after the first selection, and a receipt whose duration changes, start another import and are not part of the runs.
- BridgeRuns.RunOk: one call of `advance` is one event, so the events of others fall between calls and not between the service calls inside one; an append is all or nothing, as the service's transaction makes it; an audio file that changes while the bridge reads it is not modelled.
- CheckpointLaws.AtMostFiveMetadataFailures: what the metadata service does with a hand-off that it accepts twice is outside the model.
- BridgeScheduler.Scheduler.RunOnce: one reading of the clock serves a whole round; no claim is made for a receipt whose import never decides, because unchanged receipts may hold their places.
- BridgeScheduler.Scheduler.Iterate: the authorization call, unreadable receipts, the status file and the waits between rounds are not modelled; a scan is a list of receipts.
- SonaAdmission.Drains: a job that was queued by a raising submission may wait for a thread that a later submission starts; holds before the application shuts down, when the executor drops its queue and background tasks are cancelled.
- SonaAdmission.Gateway: request parsing, error texts and the readiness endpoint are not modelled.
- ExternalBackup.Backup.ExecuteBackup: containers that something else starts or stops meanwhile, the preflight, access control lists, standard-error files and the contents of the JSON documents are not modelled; a failed local write leaves all of a small file or nothing.
- The sibling backup to the NAS repeats the protocol of the external one.
- EvidenceBundle.SignoffDetermines: the texts of JSON values and the gate reports are judged by functions that the theorems leave open; files that change during validation are not modelled.
- EvidenceValidator.ValidateBundle: error codes are one refusal, and the order in which two faults of a bundle are found is not part of the contract.
- The inspection command of the acceptance utility only prints what the validator has checked.
- MigrationGraph.AlembicIdentity: symbolic links, unreadable files and the digest of the head's file are not modelled; a file is its two literals.
- ModelActivation.ActivationSafety: transactions run one after another; TRUNCATE, role privileges, the tag and enrichment tables and the later privacy erasure of an actor are not modelled.
- ModelActivation.StatementKeeps: a log row may be stamped by its writer with another transaction's start time, so the time stamp and not the transaction is what the trigger binds.
- LineageBackfill.Lineage.Upgrade: the new policy and run tables start empty, and the constant purpose and origin columns cannot break an index that held without them.
- SegmentPlan.CoverageIff: quotients are exact, where the program rounds a floating-point quotient.
- SegmentPlan.Decode: FFmpeg is a function from the index of a segment to the size of its output.
- ClipPlan.PlanClips: the first eight bytes of the digest are a number that the theorems leave open.
- ClipPlan.DisjointIff: whether the seeds that make clips of a shorter source overlap come from any digest is not part of this model.
- BridgeProgress.CanPublish: a receipt under review is not resumed by the scheduler, so its publication takes an operator first; that the services answer in the end is an assumption about them.
- AudioManifest.LoadManifest: a digit in a track name is an ASCII digit.
- AudioSample.PrepareAudio: probe durations are real numbers; artist names are already normalised groups.
- SqlSplitter.SplitSql: escape strings and dollar signs inside identifiers are read as the program reads them, which is not how PostgreSQL reads them (sections 4.1.2.2 and 4.1.1 of its manual).
- Statement classification by regular expressions and the frozen inventory counts of the migration support are not modelled.
- The Android, P14 and release-audit drivers compare constants or tool output and would only add easy members.
- Numerics of ONNX, CUDA and numpy, embedding pooling and losses.
