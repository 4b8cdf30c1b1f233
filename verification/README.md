# Verified core logic of NeMo Speech utilities

A Dafny 4.11 model of the logic that several NeMo Speech utilities rely on, with proofs of
what they promise. `dafny verify dfyconfig.toml` checks the whole project.

| file | what it models |
|---|---|
| `FirstFit.dfy` | first-fit bin packing and its distance from the optimum |
| `SequencePacking.dfy` | histogram, assignment and filling of packs, end to end |
| `Training.dfy` | batch progress, the deadline timer and preemption saves, chains of interrupted runs |
| `RestartLoop.dfy` | the epoch loop that skips the validation of a restart once |
| `Publication.dfy` | staging, multi-file commit and rollback of a vLLM checkpoint |
| `OnnxRename.dfy` | renaming the inputs and outputs of an ONNX graph |
| `Singleton.dfy` | the double-checked locking of the Singleton metaclass |
| `LtorMasks.dfy` | attention masks and position ids by document |
| `Microbatches.dfy` | splitting a batch into microbatches |
| `RankPartition.dfy`, `ShardedTranscription.dfy` | division of manifests among ranks; split, transcribe, merge |
| `RankPaths.dfy` | model-parallel ranks in checkpoint paths |
| `ConfigMigration.dfy` | Hydra 0.x to 1.x configuration trees |
| `CheckpointChoice.dfy` | choosing the last checkpoint to resume from |
| `Lists.dfy`, `Decimal.dfy`, `Division.dfy` | sequences, multisets, numerals and quotients shared by the modules |

Where the source changes state step by step, the model has methods (of a class where the source has
an object) proved equal to a specification function; the properties are lemmas about that function.
Environment behaviour enters as parameters: random shuffles and directory listings are arbitrary
rearrangements, exceptions and crashes may strike at any step that the source leaves open. Helper lemmas about cut
points use `Times`, `Quot` and `Rest`, which `Division.dfy` proves to be `*`, `/` and `%`.

Results that differ from what the source or its comments say:

- `first_fit` documents indices in its bins (nemo/utils/sequence_packing_utils.py:53-55); the code stores lengths.
- An example without tokens has length -1, which addresses the last counter of the histogram, so it is dropped
  silently. Packing keeps a dataset exactly when no example is empty (`PipelineKeepsDatasetIff`).
- `inject_model_parallel_rank` says it does nothing without model parallelism
  (nemo/utils/model_utils.py:683-685); the code turns `last.ckpt` into `/last.ckpt` (`LastCheckpointMoves`). Without
  model parallelism and sharding it leaves a path alone exactly when the path carries no marker and its last slash
  follows a character other than a slash; when there are ranks to put in, exactly when the path lies in their directory
  already (`InjectDoesNothingIff`). `UninjectUndoesIff` and `InjectOverwritesIff` give the paths on which ranks can be
  taken out and replaced again. With pipeline parallelism the sharded data rank is not printed, so `PathsCollideIff`
  compares only the printed ranks.
- The error text of the checkpoint choice demands exactly one `step=<integer>` per name
  (nemo/utils/exp_manager.py:1040-1043); a second field that shares its separator with the first is overlooked
  (`OneMatchIff`, `TwoStepsAccepted`).
- The comment on the commit (examples/speechlm2/to_hf.py:541-545) says an interrupted first-time conversion never
  advertises incomplete artifacts. The rollback restores the root config last, so it does when the final replace
  raises after taking effect (`TraceOrderedIff`). Re-publishing an unchanged root config, which the comment does not
  speak of, is the only other way to see a root config before its artifacts.
- The flush before a save assumes that the batch in flight has been stepped
  (nemo/utils/exp_manager.py:1591-1598). A save after a batch is counted as ready and before its optimizer step leaves
  `completed` ahead of `global_step` (`CountersAgreeIff`, `GuardStopsDrift`). The guards that run before a sample is
  pulled (nemo/core/utils/lightning_utils.py:34-39) save there if Lightning has counted the batch by then. With a
  loader that saves its cursor they lose no sample, with or without the flush; a sample is lost when the batch
  counter places the loader, or when a save falls between the pull and the step (`ExactlyOnceIff`,
  `CounterReplaysOrSkips`, `CursorSkipsInHand`).
- The reapplied loader state is called the checkpoint's (nemo/utils/exp_manager.py:1692). It is that of the last
  checkpoint that had one, since only a reapplication clears it: resuming a checkpoint without loader state in the
  same process can put back the cursor of an earlier one (`SkipRestoresCursorIff`, `StaleCursorPutBack`).
- A graph input that is also an output gets two entries in the renaming; `OneNewNameEach` is the exact condition for
  the new names to agree with it, `PassThroughBreaks` a graph that stops running. Initializers are not renamed, so
  `Safe` asks that they keep their names; an output that is one cannot be found any more (`InitializerOutputBreaks`).
- A manifest whose name contains `--tpart_` is merged under a shortened name (`DataNameIff`).
- A migrated config is not always in the new form: a `params` section inside a `params` section survives one migration
  and needs another (`ConvertNormalIff`, `ConvertIdempotentIff`).
- Asking for a reset of the attention mask without computing it raises a TypeError exactly when the batch has an EOD
  token (`GetLtorMasksAndPositionIds`).

## Model

| member | source | states |
|---|---|---|
| FirstFit.FindFirstBinThatFits | nemo/utils/sequence_packing_utils.py:27-42 | the index returned is the first bin with room, and -1 means that no bin has room |
| FirstFit.FirstFit | nemo/utils/sequence_packing_utils.py:45-64 | the loop computes the packing that the laws below are about |
| FirstFit.PackAddsToFirstRoom | nemo/utils/sequence_packing_utils.py:57-64 | one more length goes to the first bin with room, and to a new last bin when none has room |
| FirstFit.PackIsFirstFit | nemo/utils/sequence_packing_utils.py:57-64 | in any order of the lengths: nothing in a later bin fits in an earlier one, no bin is empty, only single-item bins may be overfull, no length is lost or invented |
| FirstFit.PackWithinCapacityIff | nemo/utils/sequence_packing_utils.py:45-64 | all bins are within capacity exactly when no single length exceeds it |
| FirstFit.AnyTwoBinsExceed | nemo/utils/sequence_packing_utils.py:57-64 | any two bins together exceed the pack size |
| FirstFit.FirstFitWithinTwiceOptimal | nemo/utils/sequence_packing_utils.py:45-64 | if the lengths fit in k >= 1 bins by any means, first fit uses at most 2k-1, whatever the order |
| FirstFit.FirstFitDecreasing | nemo/utils/sequence_packing_utils.py:67-81 | packs the lengths sorted in decreasing order |
| FirstFit.SortedDownSorts | nemo/utils/sequence_packing_utils.py:80 | the order used is decreasing and holds the same lengths |
| FirstFit.FirstFitDecreasingWithinThreeHalves | nemo/utils/sequence_packing_utils.py:67-81 | if the lengths fit in k bins by any means, first fit decreasing uses m bins with 2m <= 3k |
| FirstFit.FirstFitShuffle | nemo/utils/sequence_packing_utils.py:84-99 | any shuffle packs exactly the given lengths |
| SequencePacking.CreateHist | nemo/utils/sequence_packing_utils.py:102-140 | groups the examples by length and counts each group; fails exactly when a length exceeds the truncation length |
| SequencePacking.CreatePackingStrategy | nemo/utils/sequence_packing_utils.py:143-192 | the division by zero exactly for no sequences or a zero pack size; otherwise the first-fit packing of the counted lengths in increasing, decreasing or shuffled order, within 2k-1 of every packing into k bins, and within 3k/2 for the decreasing order |
| SequencePacking.StrategyIsAsPromised | nemo/utils/sequence_packing_utils.py:166-171 | for every list of the counted lengths that is sorted as the algorithm says, the assignment is its first-fit packing, and the bounds against the optimum hold for that algorithm |
| SequencePacking.StrategyCounts | nemo/utils/sequence_packing_utils.py:166-171 | whatever the algorithm and the shuffle, the assignment uses each length as often as the histogram counts it |
| SequencePacking.GroupMasks | nemo/utils/sequence_packing_utils.py:227-248 | place k says whether token k + 1 is in the example's own loss mask, when every example of the length has one, else whether token k + 1 is in the answer; otherwise the error |
| SequencePacking.MasksAreAligned | nemo/utils/sequence_packing_utils.py:229-241 | the same, place by place, for any rearrangement of the group |
| SequencePacking.GroupKeepsOrder | nemo/utils/sequence_packing_utils.py:131 | a group lists its examples in the order of the dataset |
| SequencePacking.FillPackingStrategy | nemo/utils/sequence_packing_utils.py:195-277 | the packs of the examples drawn length by length, or the first of the errors: masks missing, unknown length, empty list, examples left over |
| SequencePacking.FillingErrors | nemo/utils/sequence_packing_utils.py:227-274 | which error comes when: missing masks first, then at the first length that runs short, KeyError if it never had examples and IndexError if they are used up, then examples left over |
| SequencePacking.FillingSucceedsIff | nemo/utils/sequence_packing_utils.py:254-276 | no pop fails and nothing is left over exactly when demand equals supply for every length and all masks can be built |
| SequencePacking.PipelineSucceedsIff | nemo/utils/sequence_packing_utils.py:102-277 | over histogram, assignment and filling, with any shuffles: success exactly when no sequence is longer than a pack |
| SequencePacking.PipelineKeepsExamples | nemo/utils/sequence_packing_utils.py:102-277 | the packs hold examples of the assigned lengths, every non-empty example as often as the dataset, and nothing else |
| SequencePacking.PipelineKeepsDatasetIff | nemo/utils/sequence_packing_utils.py:129-131 | the dataset survives exactly when it has no example without tokens |
| SequencePacking.CutGivesBack | nemo/utils/sequence_packing_utils.py:254-264 | cutting a pack at seq_start_id gives back each example's tokens and its own aligned mask |
| SequencePacking.OwnMaskIsAligned | nemo/utils/sequence_packing_utils.py:227-243 | the mask used for an example has as many entries as the example has tokens |
| SequencePacking.ExampleIsLabelled | nemo/utils/sequence_packing_utils.py:227-248 | what the packs carry for an example: its tokens, and at place k whether the dataset has the model trained on its token k + 1 |
| SequencePacking.PackingRoundTrip | nemo/utils/sequence_packing_utils.py:102-277 | all pieces of all packs are the dataset's examples, each as often as in the dataset, and the label at place k is trained on exactly when the dataset says so of token k + 1 |
| SequencePacking.PipelineRoundTrip | nemo/utils/sequence_packing_utils.py:102-277 | from the dataset alone, for any algorithm and shuffles: with lengths up to truncate_seq_len <= pack_size every step succeeds, and the pieces are the dataset's examples exactly once each, trained on where the dataset says |
| SequencePacking.PackTokens | nemo/utils/sequence_packing_utils.py:125-129 | a pack's token count is its bin sum plus its number of examples |
| Training.Trainer.FlushInFlightBatchProgress | nemo/utils/exp_manager.py:1591-1604 | raises completed by one exactly when a batch is in flight |
| Training.Trainer.CheckTimeRemaining | nemo/utils/exp_manager.py:1504-1543 | at the deadline: flush, save if a checkpoint callback is configured, exit; otherwise nothing |
| Training.Trainer.SaveLastCheckpointAndExit | nemo/utils/exp_manager.py:1607-1642 | the same flush and save for preemption |
| Training.Trainer.Handle | nemo/utils/exp_manager.py:1515-1522 | one event of a chain of runs: an advance of the loop, a save and restart, or a crash and restart |
| Training.StepKeepsLive | nemo/utils/exp_manager.py:1515-1523 | every event keeps the counters in step with the optimizer, and the samples trained on in step with the loader, except a save in a bad phase, after which the checkpoint is wrong |
| Training.CountersAgreeIff | nemo/utils/exp_manager.py:1515-1523 | over any chain of runs, stopped or killed anywhere: completed equals the optimizer steps in every checkpoint, exactly when no save falls between counting and step (with the flush), or between step and end of the batch (without) |
| Training.ExactlyOnceIff | nemo/utils/exp_manager.py:1515-1523 | over any chain of runs, stopped or killed anywhere: every checkpoint was trained on each sample before the one it resumes at once and in order, exactly when no save falls in the phases named, for loaders with a saved cursor and loaders placed by the batch counter |
| Training.ResumedTrainingIsUninterrupted | nemo/utils/exp_manager.py:1504-1543 | with saves only after the step or between batches, for either loader: the weights saw samples 0..n-1 once each, ready - completed is 0 or 1, every saved state has ready = completed = global_step = loader cursor |
| Training.UninterruptedTrains | nemo/utils/exp_manager.py:1515-1523 | from between batches, k undisturbed batches are counted, stepped and trained on the next k samples, and save nothing |
| Training.KillUndoesTheRun | nemo/utils/exp_manager.py:1504-1543 | a kill undoes all that happened since the run began |
| Training.StopWithoutCallback | nemo/utils/exp_manager.py:1516-1523 | without a checkpoint callback a stop saves nothing and undoes as much as a kill |
| Training.WithoutFlushStepsDrift | nemo/utils/exp_manager.py:1519-1521 | without the flush global_step runs ahead of completed by one per wall-time stop |
| Training.CounterReplaysOrSkips | nemo/utils/exp_manager.py:1519-1523 | the sample trained on after a stop in each phase, when the batch counter places the loader: replayed without the flush, skipped when a flush counts a batch before its step, the next one otherwise |
| Training.WithoutFlushReplays | nemo/utils/exp_manager.py:1519-1521 | one interruption of the first batch in its end hooks: trained on again without the flush, not with it |
| Training.CursorSkipsInHand | nemo/core/utils/lightning_utils.py:19-39 | the same for a loader that resumes at its own cursor: only a sample in hand is skipped, with or without the flush |
| Training.GuardStopsDrift | nemo/core/utils/lightning_utils.py:34-39 | stops before a sample is pulled, once its batch is counted: no sample is lost, and completed runs ahead of global_step by their number |
| RestartLoop.SkipResumeTrainingValidationLoop.LoadCombinedLoaderStates | nemo/utils/exp_manager.py:1655-1659 | a load while restarting keeps a copy of the loader state |
| RestartLoop.SkipResumeTrainingValidationLoop.ReloadUnconsumed | nemo/utils/exp_manager.py:1691-1700 | puts the kept cursor back once; does nothing without one, and keeps it when loading raises |
| RestartLoop.SkipResumeTrainingValidationLoop.Advance | nemo/utils/exp_manager.py:1681-1689 | a restart that wants validation skips the pass; every other pass trains a batch |
| RestartLoop.SkipResumeTrainingValidationLoop.ShouldCheckVal | nemo/utils/exp_manager.py:1709-1715 | no validation in a skipped pass or while restarting |
| RestartLoop.SkipResumeTrainingValidationLoop.OnAdvanceEnd | nemo/utils/exp_manager.py:1702-1707 | the flag is cleared on every way out |
| RestartLoop.FlagIsOneShot | nemo/utils/exp_manager.py:1702-1707 | over all runs the flag is never set outside one pass, even when calls raise |
| RestartLoop.ValidationsFollowBatches | nemo/utils/exp_manager.py:1681-1715 | over all runs there are never more validations than trained batches |
| RestartLoop.OrdinaryPass | nemo/utils/exp_manager.py:1689-1715 | in every run, a pass outside a restart trains the next batch and validates whenever Lightning wants to |
| RestartLoop.RestartTrains | nemo/utils/exp_manager.py:1683-1715 | the first pass of a restart with no validation to skip trains the next batch and does not validate |
| RestartLoop.RestartingSince | nemo/utils/exp_manager.py:1681-1689 | over all runs, when a pass can be skipped only prefetches have happened since the load that restarts |
| RestartLoop.CachedIsKept | nemo/utils/exp_manager.py:1652-1662 | over all runs the state kept is that of the last load that had any, unless it was put back since |
| RestartLoop.SkippedPass | nemo/utils/exp_manager.py:1681-1700 | over all runs a skipped pass trains no batch, validates nothing, ends the restart, and moves the loader to the kept cursor if there is one, and nowhere otherwise |
| RestartLoop.SkipRestoresCursorIff | nemo/utils/exp_manager.py:1652-1700 | after any run and however far the loader ran ahead, a skipped pass leaves it at the cursor of the load, exactly when the loader accepts state and the cursor kept is that of this load |
| RestartLoop.OwnStatesRestore | nemo/utils/exp_manager.py:1655-1659 | a checkpoint with loader state always gets its own cursor back |
| RestartLoop.StaleCursorPutBack | nemo/utils/exp_manager.py:1655-1662 | a checkpoint without loader state can get the cursor of an earlier one, from before a batch that was trained on |
| RestartLoop.ReappliedAtMostOncePerLoad | nemo/utils/exp_manager.py:1652-1662 | over all runs the kept state is reapplied at most once per load |
| Publication.StagedNames | examples/speechlm2/to_hf.py:516-539 | staged artifacts are distinct and never include the root config or a chat template file |
| Publication.StageIff | examples/speechlm2/to_hf.py:419-539 | the commit is reached exactly when metadata, model config, tokenizer and saved files are all in order |
| Publication.ValueErrors | examples/speechlm2/to_hf.py:419-484 | missing metadata, an audio token that does not fit the table, and an unknown pad token are ValueErrors |
| Publication.StagedContents | examples/speechlm2/to_hf.py:511-533 | the artifacts are the saved files without the chat template, the tokenizer config with the template inlined unless blank, and the generation config |
| Publication.OutputDir.CommitAll | examples/speechlm2/to_hf.py:560-564 | moving the staged files: the live files, and every state they pass through, for a fault before or after any operation; the backups stay |
| Publication.OutputDir.Restore | examples/speechlm2/to_hf.py:566-570 | the rollback from the backup files, and every state the live files pass through |
| Publication.OutputDir.PrepareForVllm | examples/speechlm2/to_hf.py:398-571 | an error before the commit, whatever it leaves written below the staging directory, changes no live file; otherwise the live files are those of the commit, or of its rollback; nothing staged remains |
| Publication.OutputDir.TryPrepareForVllm | examples/speechlm2/to_hf.py:574-589 | never raises a ValueError; the directory is fully published or exactly as before, whatever failed |
| Publication.RollbackRestores | examples/speechlm2/to_hf.py:546-571 | whatever operation raises, before or after it took effect, every file is as it was |
| Publication.CommitPublishes | examples/speechlm2/to_hf.py:561-564 | a successful commit has every artifact and the root config new, no chat template file, and leaves all other files alone |
| Publication.PublishedFiles | examples/speechlm2/to_hf.py:511-564 | the directory after a successful run, file by file |
| Publication.CommitProgress | examples/speechlm2/to_hf.py:541-564 | the old root config stays until the last step, and the artifacts are in place by then |
| Publication.CommitOrderedIff | examples/speechlm2/to_hf.py:541-564 | in every state of the commit a new root config comes with all its artifacts, exactly when the config changes or the artifacts were in place before |
| Publication.TraceOrderedIff | examples/speechlm2/to_hf.py:541-571 | the same for every state including the rollback, exactly when moreover the final replace does not raise after taking effect |
| OnnxRename.ModelFile.RenameOnnxIo | nemo/utils/export_utils.py:546-565 | the first inputs and outputs of the saved graph have the new names, the others their old ones; with distinct names every node reads and writes the new name in place of the old; operators, initializers and all other names stay; with more names than the graph has, nothing is saved |
| OnnxRename.RenamedIsRenamedBy | nemo/utils/export_utils.py:548-564 | the same of the renamed graph, and with repeated names each becomes the new name of its last place, outputs before inputs |
| OnnxRename.RenameMapFrom | nemo/utils/export_utils.py:548-552 | every input or output name is mapped to the new name of some place where it stands |
| OnnxRename.IoAgreesIff | nemo/utils/export_utils.py:548-564 | the new input and output names are those of the renaming exactly when equal names get equal new names |
| OnnxRename.ExecMirrors | nemo/utils/export_utils.py:553-559 | running renamed nodes mirrors running the nodes, overwriting included |
| OnnxRename.RenamingPreservesMeaning | nemo/utils/export_utils.py:546-565 | if the map extended by identity is injective on all names and fixes initializers, the renamed graph computes the same for every operator semantics and all arguments |
| OnnxRename.FreshNamesPreserveMeaning | nemo/utils/export_utils.py:546-565 | distinct inputs and outputs can be given any distinct names that the graph does not use: it computes the same |
| OnnxRename.SwapIsSafe | nemo/utils/export_utils.py:553-559 | swapping two input names is such a map |
| OnnxRename.PassThroughBreaks | nemo/utils/export_utils.py:548-552 | an input that is also an output and gets two names breaks the graph |
| OnnxRename.InitializerOutputBreaks | nemo/utils/export_utils.py:548-564 | an output that is an initializer and gets a new name breaks the graph |
| Singleton.StepKeepsInv | nemo/utils/metaclasses.py:30-40 | every step of every thread keeps the lock exclusive, a builder's class without instance, and instances unchanged |
| Singleton.BuiltAtMostOnce | nemo/utils/metaclasses.py:32-38 | in every interleaving each class is built at most once |
| Singleton.SameInstanceForAll | nemo/utils/metaclasses.py:40 | all callers of a class get the same object, built for it, and the final read never fails |
| Singleton.EveryReturnHandsOut | nemo/utils/metaclasses.py:40 | every call that returns hands out an object of its class |
| Singleton.FirstCallBuilds | nemo/utils/metaclasses.py:32-40 | a call for a class without instance can build one object, keep it and hand it out |
| Singleton.NoLockOnceBuilt | nemo/utils/metaclasses.py:32-40 | once there is an instance a call returns it without the lock, whoever holds it |
| Singleton.RaiseLeavesNothing | nemo/utils/metaclasses.py:34-38 | a constructor that raises leaves no instance, and the lock free |
| Singleton.InstanceNeverChanges | nemo/utils/metaclasses.py:36-38 | an instance once set stays set in every continuation |
| Singleton.NoDeadlock | nemo/utils/metaclasses.py:34 | while a call is under way some thread can take a step |
| Singleton.CallsFinish | nemo/utils/metaclasses.py:30-40 | without new calls every run ends within the steps left to the calls under way, and only with all threads back |
| LtorMasks.ResetRow | nemo/utils/megatron_utils.py:136-152 | the loop over EOD places of one row telescopes to the start of each document |
| LtorMasks.GetLtorMasksAndPositionIds | nemo/utils/megatron_utils.py:100-158 | positions count from the document start, the mask hides exactly what Visible excludes, EOD loss is masked on request; the error exactly when a mask that was not computed is to be reset |
| LtorMasks.DocStartIsLastEod | nemo/utils/megatron_utils.py:136-145 | a document starts after the last EOD token before it |
| LtorMasks.VisibleIsSameDocument | nemo/utils/megatron_utils.py:146-148 | no EOD between two places exactly when they share a document start |
| LtorMasks.VisibleCount | nemo/utils/megatron_utils.py:146-152 | with both resets row r sees exactly its position plus one columns |
| Microbatches.TensorSplitCovers | nemo/utils/megatron_utils.py:278 | tensor chunks lose nothing and differ by at most one row |
| Microbatches.EvenChunks | nemo/utils/megatron_utils.py:239-246 | when k divides the rows, lists and tensors are cut at the same places |
| Microbatches.KSplitIff | nemo/utils/megatron_utils.py:270-302 | a batch of n rows splits exactly when k divides n or need not, and no list would get chunks without rows; the enforced error is a ValueError |
| Microbatches.KSplitErrors | nemo/utils/megatron_utils.py:270-276 | a batch without tensors and a split into no microbatches are errors |
| Microbatches.MicrobatchRows | nemo/utils/megatron_utils.py:257-302 | when k divides n > 0, microbatch j holds exactly the kept keys and rows j*n/k to (j+1)*n/k of each |
| Microbatches.MicrobatchesRestore | nemo/utils/megatron_utils.py:257-302 | concatenating the microbatches restores every tensor and list |
| Microbatches.UnevenRows | nemo/utils/megatron_utils.py:279-302 | when k does not divide n and the split need not be even: k microbatches with exactly the kept keys, each with n // k rows from the item's own start |
| Microbatches.UnevenLoss | nemo/utils/megatron_utils.py:279-302 | then each tensor and list loses exactly n mod k rows over all microbatches |
| Microbatches.AlignedIff | nemo/utils/megatron_utils.py:278-295 | equal chunks of a tensor and of a list hold the same rows exactly when k divides n |
| RankPartition.GetManifestForCurrentRank | scripts/asr_eou/transcribe_speech_sharded.py:162-191 | the manifests at the places of the rank, in order; fails exactly for ranks out of range |
| RankPartition.RanksPartition | scripts/asr_eou/transcribe_speech_sharded.py:183-190 | every manifest goes to exactly one (node, GPU) pair |
| RankPartition.RankPlacesAre | scripts/asr_eou/transcribe_speech_sharded.py:183-190 | a rank keeps the order of the list |
| RankPartition.RankPlacesArePicked | scripts/asr_eou/transcribe_speech_sharded.py:183-190 | the places of a rank, in increasing order, are exactly those picked by (i + node) % nodes == 0 and, among these, by (j + gpu) % GPUs == 0 |
| RankPartition.PickedByOne | scripts/asr_eou/transcribe_speech_sharded.py:183-190 | each place is picked for exactly one rank |
| RankPartition.RanksAreEven | scripts/asr_eou/transcribe_speech_sharded.py:183-190 | every rank gets between the floor and the ceiling of n / (nodes * GPUs) manifests |
| ShardedTranscription.MaybeSplitManifest | scripts/asr_eou/transcribe_speech_sharded.py:194-227 | the shards of all manifests in order, or the manifests themselves without a split size |
| ShardedTranscription.PartsCover | scripts/asr_eou/transcribe_speech_sharded.py:220-225 | the shards put together are the manifest, and none is empty or longer than the split size |
| ShardedTranscription.PartRecords | scripts/asr_eou/transcribe_speech_sharded.py:222 | shard i holds the records from i * size to (i + 1) * size, under the name of its manifest with the separator and i |
| ShardedTranscription.SplitCovers | scripts/asr_eou/transcribe_speech_sharded.py:194-227 | all shards of all manifests, put together, are all records in order |
| ShardedTranscription.DataNameIff | scripts/asr_eou/transcribe_speech_sharded.py:223-256 | a shard is merged under its manifest's name exactly when that name is free of the separator |
| ShardedTranscription.SplitNamesDiffer | scripts/asr_eou/transcribe_speech_sharded.py:223 | shard names are distinct |
| ShardedTranscription.MergeManifests | scripts/asr_eou/transcribe_speech_sharded.py:254-268 | the files merged per manifest name, in listing order |
| ShardedTranscription.OnlyShardsAreMerged | scripts/asr_eou/transcribe_speech_sharded.py:247-256 | the merge gathers exactly the outputs whose name has the separator, each under the name before it |
| ShardedTranscription.MergeRestores | scripts/asr_eou/transcribe_speech_sharded.py:254-268 | merged in index order, each manifest is its transcription, record by record |
| ShardedTranscription.MergeKeepsRecords | scripts/asr_eou/transcribe_speech_sharded.py:247-268 | merged in any directory order, each manifest keeps each record exactly once |
| ShardedTranscription.GetUnfinishedManifest | scripts/asr_eou/transcribe_speech_sharded.py:143-159 | the shards without an output file, sorted |
| ShardedTranscription.ListingOrderDoesNotMatter | scripts/asr_eou/transcribe_speech_sharded.py:159 | ranks that list the manifests in different orders divide the same sorted list of shards |
| ShardedTranscription.StepKeepsInv | scripts/asr_eou/transcribe_speech_sharded.py:303-340 | every launch, write, finish and crash of any rank keeps outputs right, and merges only split jobs of which no output is missing |
| ShardedTranscription.MergedIsComplete | scripts/asr_eou/transcribe_speech_sharded.py:303-340 | in every interleaving of all ranks over all runs, whatever was merged holds every record of its manifest, transcribed, exactly once |
| ShardedTranscription.Workspace.RunDistributedTranscribe | scripts/asr_eou/transcribe_speech_sharded.py:303-340 | one run of one rank, from the split on: it writes the unfinished shards at the places picked for it, in order and transcribed, and nothing else; and the merge it does or does not do |
| ShardedTranscription.RunWritesPicked | scripts/asr_eou/transcribe_speech_sharded.py:305-330 | a run writes the i-th unfinished shard exactly when its node and then its GPU pick place i |
| ShardedTranscription.EachShardWrittenOnce | scripts/asr_eou/transcribe_speech_sharded.py:305-330 | of all ranks that start from the same outputs, exactly one writes a given unfinished shard |
| ShardedTranscription.RunsAreEven | scripts/asr_eou/transcribe_speech_sharded.py:305-330 | a run writes between the floor and the ceiling of the unfinished shards divided by the number of ranks |
| ShardedTranscription.OnlyFirstRankMerges | scripts/asr_eou/transcribe_speech_sharded.py:240-248 | a run of another rank than (0, 0) never merges |
| ShardedTranscription.RerunsFinish | scripts/asr_eou/transcribe_speech_sharded.py:305-337 | as many runs of rank (0, 0) alone as there are unfinished shards finish the job, whatever the number of ranks |
| ShardedTranscription.RunAsEvents | scripts/asr_eou/transcribe_speech_sharded.py:303-340 | a whole run of one rank is a history of launch, writes and finish, with the same outputs and the same merge |
| ShardedTranscription.RerunsMergeAll | scripts/asr_eou/transcribe_speech_sharded.py:305-340 | as many runs of rank (0, 0) alone as there are unfinished shards, and at least one, end in a merge that holds every record of every manifest, transcribed, exactly once |
| ShardedTranscription.EveryManifestMerged | scripts/asr_eou/transcribe_speech_sharded.py:240-340 | after these reruns every manifest with records has a merged file under its own name, with each of its transcribed records as often as the manifest gives it |
| ShardedTranscription.LastRunMerges | scripts/asr_eou/transcribe_speech_sharded.py:240-248 | a run of rank (0, 0) merges exactly when the job was split and nothing is unfinished after it |
| RankPaths.UninjectInject | nemo/utils/model_utils.py:671-702 | what is left of a path after ranks were put in and taken out |
| RankPaths.UninjectUndoesIff | nemo/utils/model_utils.py:671-702 | uninject undoes inject exactly on paths whose last slash follows a character other than a slash |
| RankPaths.InjectOverwritesIff | nemo/utils/model_utils.py:687-702 | injecting new ranks over old ones equals injecting the new ones exactly when the directory is neither empty nor made of slashes |
| RankPaths.InjectDoesNothingIff | nemo/utils/model_utils.py:682-702 | for every path and all ranks: injection changes nothing exactly when there are no ranks to put in and the path is regular and unmarked, or when the path lies in the directory of these ranks already |
| RankPaths.BareNameGetsSlash | nemo/utils/model_utils.py:700-702 | without ranks to put in, an unmarked file name without a directory gets a slash in front |
| RankPaths.LastCheckpointMoves | nemo/utils/model_utils.py:683-702 | last.ckpt carries no marker and becomes /last.ckpt without model parallelism |
| RankPaths.InjectedPath | nemo/utils/model_utils.py:687-702 | the path of a file in a directory, for each combination of parallel sizes and sharding, with the ranks in decimal |
| Decimal.PadIs | nemo/utils/model_utils.py:693-701 | a zero-padded rank has the width asked for, unless the number needs more, and reads as the number |
| RankPaths.PathsCollideIff | nemo/utils/model_utils.py:693-702 | two ranks share a path exactly when the branch taken prints the same numbers for both, however many digits |
| ConfigMigration.ConvertConfig | nemo/utils/model_utils.py:506-524 | the in-place steps compute the migrated tree, or fail exactly when a params entry has no items |
| ConfigMigration.ConvertFailsIff | nemo/utils/model_utils.py:506-524 | migration fails exactly when a dictionary on some path has a params entry without items |
| ConfigMigration.ConvertNormalIff | nemo/utils/model_utils.py:527-534 | the result has no params and no cls without _target_ exactly when no params section holds params, or a cls without a _target_ to go with it |
| ConfigMigration.PlainSectionsAreClean | nemo/utils/model_utils.py:527-534 | params sections with neither params nor cls reach the normal form |
| ConfigMigration.MigrationHalvesNesting | nemo/utils/model_utils.py:512-516 | of params sections nested directly in each other, one migration leaves half |
| ConfigMigration.ConvertIdempotentIff | nemo/utils/model_utils.py:506-562 | migrating twice is migrating once exactly on trees whose params sections hold neither params, nor a cls without a _target_ to go with it |
| ConfigMigration.LeavesComeFromSource | nemo/utils/model_utils.py:508-516 | every leaf of the result is the leaf at its source place in the original |
| ConfigMigration.LeavesSurvive | nemo/utils/model_utils.py:508-516 | every leaf of the original survives with its value unless a params entry of the same key overwrites it |
| CheckpointChoice.OneMatchIff | nemo/utils/exp_manager.py:1038-1043 | a name is accepted exactly when it has one step field, or two that share a separator |
| CheckpointChoice.TwoStepsAccepted | nemo/utils/exp_manager.py:1038-1044 | a name with two steps that is accepted for the first |
| CheckpointChoice.FieldIff | nemo/utils/exp_manager.py:1038 | a step field stands after the start or a separator and takes all its digits, up to the end, a separator or a dot |
| CheckpointChoice.StepIsWritten | nemo/utils/exp_manager.py:1038-1044 | a name with the field step=, any leading zeros and the digits of n has step n |
| CheckpointChoice.SelectLatest | nemo/utils/exp_manager.py:1035-1051 | succeeds exactly when every candidate has one step and all differ, and then returns the unique greatest; among names that spell distinct numbers, of whatever length, the one with the greatest |
| CheckpointChoice.LatestHasGreatestNumber | nemo/utils/exp_manager.py:1044-1051 | the latest of names that spell distinct numbers is the one with the greatest number |
| CheckpointChoice.ChooseLast | nemo/utils/exp_manager.py:1031-1063 | the whole branch over last checkpoints |
| CheckpointChoice.ChoiceIgnoresOrder | nemo/utils/exp_manager.py:1035-1051 | success and choice do not depend on the listing order |

## Left out

- Models, tensor values, CUDA, Lightning, OmegaConf, safetensors, real file systems and logging: library behaviour. Lightning enters only as the steps that the comments of the source describe, and the rule named for the restart loop.
- SequencePacking.FillPackingStrategy: loss masks of unequal length within one length group are passed through; what NumPy does with them is not modelled. The figures in the packing metadata are left out.
- Training.ResumedTrainingIsUninterrupted: one epoch with one optimizer step per batch, counted before its sample is pulled; epoch boundaries, gradient accumulation and prefetching fetchers, which pull first, are not modelled.
- Trainers without batch progress, where the flush does nothing: not modelled.
- RestartLoop.SkipRestoresCursorIff: takes from Lightning that the restarting phase is over after each pass of the loop, however it ends.
- Publication.OutputDir.PrepareForVllm: what the new root config holds is one opaque text; a template is blank when it has only spaces, tabs and line breaks; copying the backups may fail, but the rollback copies and the removal of the staging directory succeed.
- OnnxRename.RenamingPreservesMeaning: one direction; a renaming that merges names can be harmless by accident. Subgraphs and value_info are not part of this model.
- Singleton.BuiltAtMostOnce: completed constructions; a constructor that raises leaves no object and the next caller tries again. Constructors that build another Singleton under the same lock are excluded.
- The 3-D mask builders and the list-of-tensors form of microbatches are not modelled.
- ShardedTranscription.MergedIsComplete: manifests have distinct names free of the separator, and the output directory starts with no foreign or outdated files; writing one output file is one step.
- Parsing of the manifest argument, S3 checkpoints, end checkpoints and the filtering of unfinished checkpoints: not modelled.
- ConfigMigration.ConvertConfig: works on values, so shared sub-configurations and updates visible through another reference are not captured; interpolations, and lists as params entries, are not modelled.
- RankPaths.PathsCollideIff: the same parallel sizes on both sides; ranks are natural numbers.
- CheckpointChoice.OneMatchIff: digits are the ASCII digits.
- Decimal numerals are unbounded; the number of shards is computed exactly rather than in floating point.
