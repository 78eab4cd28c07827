# RAVEN core, modelled in Dafny

This project models five parts of RAVEN, the Risk Analysis Virtual
Environment. It states and proves what each part promises.

- **The job handler** (`framework/JobHandler.py`). It keeps a normal queue and a client queue of runners (a deque each), two fixed-size running lists with one slot per batch member, and the finished list. It also keeps the failed-job table and the batching books of grouped jobs. The model is the class `JobHandling.JobHandler`. Each method is proved against value-level functions, and the properties are proved about those functions:
  - `JobQueues`: filling and cleaning the slots.
  - `JobCollect`: `getFinished`.
  - `JobTerminate`: `terminateJobs`.
- **The simulation driver** (`framework/Simulation.py`). This covers:
  - the command splitter `splitCommand`;
  - the `printInput` entry of the run-info reader;
  - the parallel-settings part of `initialize`, with the default mode's `modifyInfo`;
  - `checkStep` and `getEntity`.

  The modelled part of the run-info dictionary is the class `SimulationCore.RunInfo`.
- **The DMDc surrogate** (`framework/SupervisedLearning/DynamicModeDecompositionControl.py`), dynamic mode decomposition with control:
  - `DmdcConfig`: input handling.
  - `DmdcData`: selecting variables and building snapshot matrices.
  - `DmdcIdentify`: the identification `_evaluateMatrices` of the triple (A, B, C).
  - `DmdcSurrogate`: training over all samples into preallocated arrays, and evaluation by propagating x[k+1] = A x[k] + B u[k], y[k] = C x[k]. The class is `DmdcSurrogate.Dmdc`.
  - `DmdcExport`: the XML export `writeXML`.
- **The AccelerateCFD code interface** (`framework/CodeInterfaces/AccelerateCFD/AccelerateCFD.py`). This covers:
  - reading the probe coordinates;
  - selecting files by type;
  - the ten-step command sequence of a reduced-order run, and the directories it walks through;
  - the sampler check of `createNewInput`;
  - the probe names and result keys that `finalizeCodeOutput` builds.
- **The PARCS code interface** (`ravenframework/CodeInterfaceClasses/PARCS/PARCSInterface.py`). This covers:
  - reading the run sequence;
  - sorting the input files by kind;
  - the command and its output root;
  - the output-failure check on the last 20 lines of the message file.

Shared helpers:
- `PyErrors`: Python's exception kinds and the `Result`/`Outcome` wrappers.
- `PyStr`: `strip`, ASCII `lower`, `split`, `startswith`, `replace`. Whitespace for `strip()` and `split()` is the `str.isspace` set; `string.whitespace` is kept apart for the command splitter.
- `PyList`: `list.index` and `list.remove`.
- `Matrices`: real matrices whose products check shapes the way numpy does.

Python exceptions become error values. Other things the core cannot compute itself are passed in as parameters:
- the numeric library: SVD, QR, determinant, inverse and pseudo-inverse;
- the nearest-neighbour search;
- `utils.stringIsFalse`;
- a runner's `isDone()` and return code.

A runner's object identity is its `uid` field.

## Model

| member | source | states |
|---|---|---|
| JobHandling.QueueSize | framework/JobHandler.py:133-140 | `maxQueueSize` is the configured value, or the batch size when none is configured, and never below 1 |
| JobHandling.SlotCount | framework/JobHandler.py:144-146 | the running lists get one free slot per batch member, none for a negative batch size |
| JobHandling.Enrol | framework/JobHandler.py:489-500 | adding a grouped job opens its group if needed, touches no other group, and appends a new group to the group order |
| JobHandling.EnrolCounts | framework/JobHandler.py:489-500 | a group's size is the one given with its first job; each job adds one to its counter; the job is refused with RuntimeError exactly when the counter then exceeds the size; only accepted identifiers are listed |
| JobHandling.EnrolWithinSize | framework/JobHandler.py:489-500 | an accepted job keeps the counter equal to the listed jobs, and a group never lists more jobs than its size |
| JobHandling.EnrolKeepsBooks | framework/JobHandler.py:489-500 | adding a job keeps every open group listed exactly once in the group order |
| JobHandling.NothingToCollectMeansNoGroups | framework/JobHandler.py:592-596 | the handler reports finished only when no group is open and no finished run of the default handler waits outside a group, and the peek leaves the finished list alone |
| JobHandling.Fill | framework/JobHandler.py:825-870 | one fill loop over a slot array computes `FillAt` on the free slots |
| JobHandling.Clean | framework/JobHandler.py:897-906 | one clean loop over a slot array computes `CleanUpTo` over all its slots |
| JobHandling.Mark | framework/JobHandler.py:958-964 | the marking loop of `terminateJobs` computes `MarkUpTo` over the whole list |
| JobHandling.RemoveJobs | framework/JobHandler.py:965-972 | the removal loop over a deque computes `RemoveEach` |
| JobHandling.ClearJobs | framework/JobHandler.py:965-970 | the removal loop over a slot list frees the first slot of each found job (`ClearEach`) |
| JobHandling.JobHandler.constructor | framework/JobHandler.py:52-115 | the handler starts with no queues, no running slots, no finished or failed runs, no groups and no queue limit |
| JobHandling.JobHandler.Initialize | framework/JobHandler.py:126-146 | sets the queue limit by `QueueSize` and allocates two fresh running lists of `SlotCount(batchSize)` free slots, leaving the queues and the books alone |
| JobHandling.JobHandler.ReAddJob | framework/JobHandler.py:504-517 | the runner joins the client or the normal queue by its flag and its identifier is recorded as submitted; nothing else changes |
| JobHandling.JobHandler.AddJob | framework/JobHandler.py:441-502 | the runner built from the arguments is queued (client or normal) and recorded as submitted exactly when its group accepts it; the groups change as `Enrol` says |
| JobHandling.JobHandler.Availability | framework/JobHandler.py:598-628 | with a queue limit, availability plus queued plus finished equals the limit; without one, it plus queued, finished and running equals the number of slots |
| JobHandling.JobHandler.NumRunning | framework/JobHandler.py:786-797 | the running count plus the free slots is the slot count, and it is 0 exactly when no slot is held |
| JobHandling.JobHandler.StartingNewStep | framework/JobHandler.py:916-923 | the submitted identifiers are cleared and nothing else changes |
| JobHandling.JobHandler.FillJobQueue | framework/JobHandler.py:807-884 | each queue's heads move, in order, into the free slots of its own list, ascending (`FillAt`), and `nextId` grows by the number started |
| JobHandling.JobHandler.CleanJobQueue | framework/JobHandler.py:886-906 | the done runners of the normal slots, then of the client slots, are appended to the finished list and their slots freed (`CleanUpTo`) |
| JobHandling.JobHandler.CheckAndRemoveFinished | framework/JobHandler.py:151-170 | a run with nonzero return code is entered in the failed table with its kept metadata; nothing else changes |
| JobHandling.JobHandler.IsFinished | framework/JobHandler.py:565-596 | false while a job is queued or running (books untouched); otherwise the answer and new books of a collection without removal |
| JobHandling.JobHandler.IsThisJobFinished | framework/JobHandler.py:630-660 | true when a finished run has the stripped identifier, false when only a queued or running one has it, RuntimeError when none has |
| JobHandling.JobHandler.AreTheseJobsFinished | framework/JobHandler.py:662-688 | true exactly when no finished, queued or running job carries the stripped handler |
| JobHandling.JobHandler.TerminateAll | framework/JobHandler.py:935-948 | both queues are emptied and every held runner is returned as killed, normal slots first; slots and books are kept |
| JobHandling.JobHandler.TerminateJobs | framework/JobHandler.py:950-975 | the four lists are scanned in turn; found jobs leave the queues or their slots are freed; returns the identifiers not found and the killed jobs |
| JobHandling.JobHandler.GetFinished | framework/JobHandler.py:698-766 | equals the value-level `GetFinishedSpec` on the books; queues and slots are kept |
| JobHandling.JobHandler.ScanFinished | framework/JobHandler.py:728-744 | the loop over the finished list computes `ScanUpTo` over all of it |
| JobHandling.JobHandler.ReleaseBatches | framework/JobHandler.py:746-756 | the loop over the open groups computes `CollectUpTo` |
| JobHandling.JobHandler.DeleteFinished | framework/JobHandler.py:760-763 | deleting the picked indices, highest first, leaves `RemoveAll` of the finished list |
| JobQueues.EmptySlots | framework/JobHandler.py:818 | the free slots listed in ascending order, and every free slot is listed |
| JobQueues.Occupied | framework/JobHandler.py:946 | never more runners than slots |
| JobQueues.SlotsPartition | framework/JobHandler.py:786-797 | the held slots and the free slots together count every slot |
| JobQueues.OccupiedHolds | framework/JobHandler.py:946 | a runner is held exactly when some slot holds it |
| JobQueues.FillAt | framework/JobHandler.py:825-870 | keeps the number of slots |
| JobQueues.FillPlacesHeads | framework/JobHandler.py:818-884 | filling puts the first n queued runners, in queue order, into the first n free slots, in slot order (n the smaller count); other slots keep their content and the queue loses exactly its first n runners |
| JobQueues.FillConserves | framework/JobHandler.py:818-884 | filling never copies or loses a runner: queue and slots hold the same multiset before and after |
| JobQueues.CleanUpTo | framework/JobHandler.py:897-906 | a slot below k is freed exactly when it held a done runner; the others are unchanged |
| JobQueues.DoneRuns | framework/JobHandler.py:898 | only done runners of the list |
| JobQueues.PendingRuns | framework/JobHandler.py:898 | only runners of the list that are not done |
| JobQueues.DoneAndPending | framework/JobHandler.py:898 | splitting by done-ness keeps every runner |
| JobQueues.CleanMovesDone | framework/JobHandler.py:897-906 | cleaning moves exactly the done runners, in slot order, and leaves exactly the pending ones |
| JobQueues.CleanConserves | framework/JobHandler.py:886-906 | moved plus still-held runners are the runners held before, and a runner not done stays |
| JobCollect.KeptMetadata | framework/JobHandler.py:159-166 | the metadata kept for a failed run is all of it except the "jobHandler" entry |
| JobCollect.ScanUpTo | framework/JobHandler.py:728-744 | the scan keeps the set of open groups |
| JobCollect.MatchedIndices | framework/JobHandler.py:731-733 | ascending indices below k, exactly those of the matching runs |
| JobCollect.Unmatched | framework/JobHandler.py:760-763 | only runs of the list that do not match |
| JobCollect.Loose | framework/JobHandler.py:735-739 | only single items of matching runs whose group is not open |
| JobCollect.Without | framework/JobHandler.py:751 | exactly the elements other than the group |
| JobCollect.Batches | framework/JobHandler.py:746-756 | only group items: one per group, or at most one with the full-only filter |
| JobCollect.ScanKeepsBatches | framework/JobHandler.py:735-737 | the scan keeps the same groups open with the same counter, ids and size, and only appends to a batch |
| JobCollect.ScanEntersOnce | framework/JobHandler.py:736-737 | a run enters its batch at most once |
| JobCollect.ScanFillsBatches | framework/JobHandler.py:731-737 | only matching runs of the group enter a batch, and every matching run of an open group ends up in it |
| JobCollect.ScanLoose | framework/JobHandler.py:735-739 | the runs handed out alone are the loose matching runs, in order |
| JobCollect.ScanPicks | framework/JobHandler.py:741-742 | with removal exactly the matching indices are picked, ascending; without removal none |
| JobCollect.ScanRecordsFailures | framework/JobHandler.py:741-743 | failures are only added, and exactly from matching runs with nonzero code when removing |
| JobCollect.CollectFrame | framework/JobHandler.py:746-756 | the group pass only closes groups and keeps the group order exact |
| JobCollect.CollectFails | framework/JobHandler.py:747-748 | the pass raises exactly when a visited batch is over-full |
| JobCollect.CollectHandsOut | framework/JobHandler.py:749-756 | without error the pass hands out the visited batches (only the full ones with removal) and closes exactly those |
| JobCollect.CollectStops | framework/JobHandler.py:747-748 | after an over-full batch nothing changes any more |
| JobCollect.CollectUnchanged | framework/JobHandler.py:753-755 | without removal no group is closed |
| JobCollect.DeleteMatched | framework/JobHandler.py:760-763 | deleting the matched indices, highest first, leaves exactly the unmatched runs, in order |
| JobCollect.GetFinishedFails | framework/JobHandler.py:746-748 | `getFinished` raises exactly when, after the scan, some batch holds more runs than its size |
| JobCollect.GetFinishedKeepsBooks | framework/JobHandler.py:698-766 | the books stay valid whether or not `getFinished` raises |
| JobCollect.GetFinishedDeletes | framework/JobHandler.py:741-763 | with removal and no error exactly the matched runs leave the finished list; otherwise it is unchanged |
| JobCollect.GetFinishedHandsOut | framework/JobHandler.py:728-766 | the result is the loose matching runs, in finished order, then the batches in group order |
| JobCollect.GetFinishedCloses | framework/JobHandler.py:749-752 | with removal and no error a group closes exactly when its batch is full |
| JobCollect.GetFinishedPeeks | framework/JobHandler.py:753-755 | without removal the finished list, failed table, group order and open groups stay, and the result has one element per loose run and per group |
| JobTerminate.ClearEach | framework/JobHandler.py:965-970 | keeps the number of slots |
| JobTerminate.MarkAccounts | framework/JobHandler.py:958-964 | identifiers left plus those of the found jobs are exactly the requested identifiers |
| JobTerminate.MarkFindsHeld | framework/JobHandler.py:958-964 | found jobs are jobs of the list, never more copies than it holds |
| JobTerminate.MarkMissesNone | framework/JobHandler.py:958-964 | a job not found has an identifier no longer requested at the end |
| JobTerminate.MarkFindsRequested | framework/JobHandler.py:961 | every found job carries a requested identifier |
| JobTerminate.RemoveEachTakes | framework/JobHandler.py:971-972 | removing found jobs from a deque that holds them takes exactly them out |
| JobTerminate.ClearEachTakes | framework/JobHandler.py:967-969 | freeing the slots of found jobs takes exactly them out and keeps the slot count |
| JobTerminate.LiftHolds | framework/JobHandler.py:956 | a deque holds, as runners, what its slot view holds |
| JobTerminate.TerminateDeque | framework/JobHandler.py:958-972 | over a deque: exactly the found jobs leave, each carries a requested identifier, the identifiers left are those not used, and no staying job is still requested |
| JobTerminate.TerminateSlots | framework/JobHandler.py:958-970 | the same over a slot list, which keeps its length |
| PyErrors.AllOrFirstError | framework/SupervisedLearning/DynamicModeDecompositionControl.py:207-213 | the training loop raises the first error it meets, otherwise collects every value in order |
| PyErrors.FirstErrorStands | framework/SupervisedLearning/DynamicModeDecompositionControl.py:207-213 | once a prefix fails, every longer prefix fails with the same error |
| SimulationCore.SplitCommand | framework/Simulation.py:115-146 | the character loop computes the value-level splitter, and no token is empty or holds a quote |
| SimulationCore.TokensWellFormed | framework/Simulation.py:115-146 | no token is empty and none contains a quote character |
| SimulationCore.DocumentedExample | framework/Simulation.py:117-119 | the documented call gives `['ab', 'bc', 'c', 'el f', 'bar foo']` |
| SimulationCore.QuotedTextIsOneToken | framework/Simulation.py:130-141 | a quoted non-empty quote-free text is one token, whitespace included, with or without its closing quote |
| SimulationCore.SplitWithoutQuotesIsWords | framework/Simulation.py:128-145 | on quote-free input whose whitespace characters all lie in `string.whitespace`, the splitter agrees with `str.split()` |
| SimulationCore.SplitKeepsOtherSpaces | framework/Simulation.py:130 | a character that `str.isspace` accepts but `string.whitespace` lacks, such as '\x1c', between two plain words stays inside the splitter's single token, while `str.split()` gives the two words |
| SimulationCore.InputStem | framework/Simulation.py:550-553 | no text gives the empty stem; otherwise the stripped text starts with the stem and is either the stem itself or, when it ends in ".xml" in any capitalisation, the stem plus those four characters; the stem does not start with whitespace |
| SimulationCore.PrintInputName | framework/Simulation.py:549-562 | a chosen file name ends in ".xml", and the copy is disabled exactly when the stem is a false-string |
| SimulationCore.PrintInputDefault | framework/Simulation.py:550-559 | no text, or only whitespace, gives "duplicated_input.xml" unless the empty string counts as false |
| SimulationCore.PrintInputAppendsExtension | framework/Simulation.py:550-562 | a stripped, non-empty name without an ".xml" extension that is not a false-string becomes that name plus ".xml" |
| SimulationCore.PrintInputDropsExtension | framework/Simulation.py:552-562 | a name given with any capitalisation of ".xml" keeps its stem and gets a lower-case ".xml" |
| SimulationCore.PrintInputIdempotent | framework/Simulation.py:549-562 | the chosen name read back chooses itself again |
| SimulationCore.ModifyInfo | framework/Simulation.py:80-100 | entries are returned exactly with more than one thread, and then they are exactly `threadParameter`, unchanged, and `postcommand`, which is the thread parameter between single spaces followed by the old post-command |
| SimulationCore.RunInfo.constructor | framework/Simulation.py:240-259 | the run-info defaults: one MPI process, one thread, batch size one, one core, no queue limit, the default thread parameter, empty post-command, no input copy |
| SimulationCore.RunInfo.ReadPrintInput | framework/Simulation.py:549-562 | sets `printInput` by `PrintInputName` and nothing else |
| SimulationCore.RunInfo.InitializeParallel | framework/Simulation.py:489-505 | cores per run is MPI times threads, total cores is `TotalCores`, and the post-command is replaced by `ModifyInfo` when threaded; the rest is kept |
| SimulationCore.TotalCores | framework/Simulation.py:490-494 | total cores are at least cores per run times batch size and at least the reserved value, and are one of the two |
| SimulationCore.GetEntity | framework/Simulation.py:717-731 | the entity when kind and name are known, KeyError otherwise |
| SimulationCore.CheckStep | framework/Simulation.py:513-530 | passes exactly when every entry names a known class and an entity in it; KeyError only via the class "Step" |
| DmdcConfig.KeepOutputs | framework/SupervisedLearning/DynamicModeDecompositionControl.py:176 | outputs are the targets that are neither states nor the pivot, in target order |
| DmdcConfig.OutputsInTargetOrder | framework/SupervisedLearning/DynamicModeDecompositionControl.py:176 | the outputs are a subsequence of the targets |
| DmdcConfig.HandleInput | framework/SupervisedLearning/DynamicModeDecompositionControl.py:147-178 | states must be targets and initial states features, else IOError (states first); outputs and scheduling parameters derived |
| DmdcData.Positions | framework/SupervisedLearning/DynamicModeDecompositionControl.py:189-202 | `list.index` of each name: ValueError for a missing name, otherwise each position holds its name |
| DmdcData.Pick | framework/SupervisedLearning/DynamicModeDecompositionControl.py:194 | picks the values at the given positions |
| DmdcData.Select | framework/SupervisedLearning/DynamicModeDecompositionControl.py:194-202 | the selected variables per sample and time step, keeping the shape |
| DmdcData.Series | framework/SupervisedLearning/DynamicModeDecompositionControl.py:197 | one variable over time |
| DmdcData.Snapshot | framework/SupervisedLearning/DynamicModeDecompositionControl.py:208-211 | column j is the trajectory at lo + j minus the reference |
| DmdcData.Reference | framework/SupervisedLearning/DynamicModeDecompositionControl.py:208-211 | the first value when centring, zero otherwise |
| DmdcData.Earlier | framework/SupervisedLearning/DynamicModeDecompositionControl.py:208 | X1: the first T-1 values |
| DmdcData.Later | framework/SupervisedLearning/DynamicModeDecompositionControl.py:209 | X2: the last T-1 values |
| DmdcData.SnapshotPairs | framework/SupervisedLearning/DynamicModeDecompositionControl.py:208-211 | X1 and X2 have T-1 columns, X2 is X1 one step later, adding the reference back gives the trajectory, and centred X1 starts at zero |
| DmdcIdentify.EffectiveRank | framework/SupervisedLearning/DynamicModeDecompositionControl.py:405 | never more than the number of singular values |
| DmdcIdentify.RankSplitsDescending | framework/SupervisedLearning/DynamicModeDecompositionControl.py:405 | for descending singular values, exactly the first rank values are at least 1e-6 |
| DmdcIdentify.ZeroRankBelowFloor | framework/SupervisedLearning/DynamicModeDecompositionControl.py:405 | when the largest value is below the floor nothing is kept |
| DmdcIdentify.TruncationKeepsRank | framework/SupervisedLearning/DynamicModeDecompositionControl.py:406-413 | exactly `EffectiveRank` columns are kept, rows unchanged, nothing cut when all values reach the floor |
| DmdcIdentify.KeptFactors | framework/SupervisedLearning/DynamicModeDecompositionControl.py:403-413 | the truncated factors have k columns each, k the effective rank |
| DmdcIdentify.Beta | framework/SupervisedLearning/DynamicModeDecompositionControl.py:420 | the product chain succeeds exactly when the shapes chain, with shape (rows of X2) x (rows of Q); otherwise numpy's ValueError |
| DmdcIdentify.Solve | framework/SupervisedLearning/DynamicModeDecompositionControl.py:420-423 | the only error of the three products is numpy's ValueError |
| DmdcIdentify.SolveShapes | framework/SupervisedLearning/DynamicModeDecompositionControl.py:420-423 | with consistent factors the solve succeeds with A n x n, B n x (rows of U - n), C p x (cols of pinv(X1)) |
| DmdcIdentify.EvaluateMatrices | framework/SupervisedLearning/DynamicModeDecompositionControl.py:387-425 | the only errors are RuntimeError (singular R) and ValueError (shapes) |
| DmdcIdentify.IdentifiedShapes | framework/SupervisedLearning/DynamicModeDecompositionControl.py:387-425 | for matching snapshot shapes identification fails only on singular R (RuntimeError), else A n x n, B n x m, C p x n |
| DmdcSurrogate.StateData | framework/SupervisedLearning/DynamicModeDecompositionControl.py:202 | entry (s, t, k) is the target column of state k |
| DmdcSurrogate.OutputData | framework/SupervisedLearning/DynamicModeDecompositionControl.py:199 | entry (s, t, k) is the target column of output k |
| DmdcSurrogate.ActuatorData | framework/SupervisedLearning/DynamicModeDecompositionControl.py:194 | entry (s, t, k) is the feature column of actuator k |
| DmdcSurrogate.ParameterPoint | framework/SupervisedLearning/DynamicModeDecompositionControl.py:189 | the point maps each scheduling parameter to its feature value |
| DmdcSurrogate.ParameterTable | framework/SupervisedLearning/DynamicModeDecompositionControl.py:188-192 | one point per sample |
| DmdcSurrogate.IdentifySample | framework/SupervisedLearning/DynamicModeDecompositionControl.py:208-213 | a successful triple is shaped n x n, n x m, p x n; the only error is RuntimeError |
| DmdcSurrogate.Identified | framework/SupervisedLearning/DynamicModeDecompositionControl.py:207-213 | k outcomes; successes are well shaped and failures are RuntimeError |
| DmdcSurrogate.IdentifiedAt | framework/SupervisedLearning/DynamicModeDecompositionControl.py:207-213 | entry i is the identification of sample i |
| DmdcSurrogate.IdentifyAll | framework/SupervisedLearning/DynamicModeDecompositionControl.py:207-213 | k well-shaped triples, or RuntimeError |
| DmdcSurrogate.IdentifyAllExtends | framework/SupervisedLearning/DynamicModeDecompositionControl.py:207-213 | one more sample extends a success or ends it with that sample's error |
| DmdcSurrogate.TrainGuard | framework/SupervisedLearning/DynamicModeDecompositionControl.py:188-206 | passes exactly when there is a sample, the actuators are features, the pivot is a target, no role is empty, and there is a time step where one is read; with samples and steps, ValueError exactly for a missing actuator or pivot |
| DmdcSurrogate.TrainSpec | framework/SupervisedLearning/DynamicModeDecompositionControl.py:180-215 | a trained bank is shaped, with one triple per sample and one time mark per step; errors are IndexError, ValueError or RuntimeError |
| DmdcSurrogate.TrainSucceeds | framework/SupervisedLearning/DynamicModeDecompositionControl.py:180-215 | training succeeds exactly when there are samples and two time steps, every role is non-empty, actuators are features, the pivot a target, and every sample is identified |
| DmdcSurrogate.TrainedFields | framework/SupervisedLearning/DynamicModeDecompositionControl.py:194-215 | a trained bank keeps the selected trajectories, the triples, the pivot series and time marks of sample 0, and the parameter table |
| DmdcSurrogate.TrainedPerSample | framework/SupervisedLearning/DynamicModeDecompositionControl.py:207-213 | each trained triple is the identification of its own sample |
| DmdcSurrogate.ChosenSample | framework/SupervisedLearning/DynamicModeDecompositionControl.py:226-231 | an index into the bank, and sample 0 without scheduling parameters |
| DmdcSurrogate.Centred | framework/SupervisedLearning/DynamicModeDecompositionControl.py:253-255 | keeps the vector's length |
| DmdcSurrogate.Decentred | framework/SupervisedLearning/DynamicModeDecompositionControl.py:264-266 | keeps the vector's length |
| DmdcSurrogate.CentringRoundTrip | framework/SupervisedLearning/DynamicModeDecompositionControl.py:253-266 | adding the reference back undoes the centring |
| DmdcSurrogate.InitialState | framework/SupervisedLearning/DynamicModeDecompositionControl.py:246-255 | one value per state |
| DmdcSurrogate.Inputs | framework/SupervisedLearning/DynamicModeDecompositionControl.py:236-254 | one vector per step, one value per actuator |
| DmdcSurrogate.EvalSetup | framework/SupervisedLearning/DynamicModeDecompositionControl.py:226-256 | evaluation goes ahead exactly for one request of at least one step with actuators among the features and one initial variable per state; otherwise IndexError or ValueError |
| DmdcSurrogate.Rollout | framework/SupervisedLearning/DynamicModeDecompositionControl.py:256-262 | x[0] = x0 and x[k+1] = A x[k] + B u[k] |
| DmdcSurrogate.Assemble | framework/SupervisedLearning/DynamicModeDecompositionControl.py:237-275 | the returned names are exactly the actuators, states, outputs and the pivot, and the pivot has the training time marks |
| DmdcSurrogate.Decentre | framework/SupervisedLearning/DynamicModeDecompositionControl.py:264-266 | each step is decentred and nothing changes without centring |
| DmdcSurrogate.Project | framework/SupervisedLearning/DynamicModeDecompositionControl.py:257-262 | y[k] = C x[k] |
| DmdcSurrogate.AssembledEntry | framework/SupervisedLearning/DynamicModeDecompositionControl.py:240-275 | the pivot gets the time marks, else an output, else a state, else an actuator |
| DmdcSurrogate.EvaluateModel | framework/SupervisedLearning/DynamicModeDecompositionControl.py:218-276 | fails exactly where `EvalSetup` does; returns every actuator, state, output and the pivot, the pivot with the training time marks; this models the corrected control-input indexing of Findings, not the as-written one |
| DmdcSurrogate.EvaluatedEntry | framework/SupervisedLearning/DynamicModeDecompositionControl.py:251-273 | an output is a row of C x, a state a component of x, each decentred, over the rollout from the centred initial state; other actuators are echoed |
| DmdcSurrogate.StartsAtInitialState | framework/SupervisedLearning/DynamicModeDecompositionControl.py:246-256 | each state's first predicted value is its initial variable's value in the request |
| DmdcSurrogate.ActuatorsEchoed | framework/SupervisedLearning/DynamicModeDecompositionControl.py:237-240 | an actuator that is no state, output or pivot is returned as supplied |
| DmdcSurrogate.AsWrittenInputs | framework/SupervisedLearning/DynamicModeDecompositionControl.py:260 | the as-written control input: the first actuator alone |
| DmdcSurrogate.AsWrittenRollout | framework/SupervisedLearning/DynamicModeDecompositionControl.py:259-262 | a successful as-written rollout has one state per step; its error is ValueError |
| DmdcSurrogate.AsWrittenRejectsSeveralActuators | framework/SupervisedLearning/DynamicModeDecompositionControl.py:260 | with two or more actuators and two or more steps the as-written rollout raises ValueError |
| DmdcSurrogate.AsWrittenPrefix | framework/SupervisedLearning/DynamicModeDecompositionControl.py:259-262 | the as-written rollout over k steps reads only the first k - 1 inputs |
| DmdcSurrogate.AsWrittenAgreesForOneActuator | framework/SupervisedLearning/DynamicModeDecompositionControl.py:260 | with one actuator the as-written rollout equals the corrected one |
| DmdcSurrogate.RolloutAgrees | framework/SupervisedLearning/DynamicModeDecompositionControl.py:260 | whenever the inputs have B's width the as-written loop computes the corrected rollout |
| DmdcSurrogate.FillSlots | framework/SupervisedLearning/DynamicModeDecompositionControl.py:204-213 | one slot per sample for A, B and C; passes exactly when `IdentifyAll` does, with slot i holding sample i's triple |
| DmdcSurrogate.IdentifyInto | framework/SupervisedLearning/DynamicModeDecompositionControl.py:207-213 | one loop pass stores sample smp's triple or ends with the error `IdentifyAll` reports |
| DmdcSurrogate.TrainSlots | framework/SupervisedLearning/DynamicModeDecompositionControl.py:180-213 | the training procedure computes `TrainSpec`, with its slots holding the triples |
| DmdcSurrogate.RolloutInto | framework/SupervisedLearning/DynamicModeDecompositionControl.py:248-262 | the propagation loop writes `Rollout` and its `Project` into arrays of the evaluation length |
| DmdcSurrogate.DecentreInPlace | framework/SupervisedLearning/DynamicModeDecompositionControl.py:264-266 | the array becomes its `Decentre` |
| DmdcSurrogate.Dmdc.constructor | framework/SupervisedLearning/DynamicModeDecompositionControl.py:132-145 | a configured, untrained surrogate |
| DmdcSurrogate.Dmdc.Train | framework/SupervisedLearning/DynamicModeDecompositionControl.py:180-215 | passes exactly when `TrainSpec` succeeds, and then the surrogate holds its bank; a failure leaves it untrained |
| DmdcSurrogate.Dmdc.Install | framework/SupervisedLearning/DynamicModeDecompositionControl.py:194-215 | the fields hold the trained bank |
| DmdcSurrogate.Dmdc.Evaluate | framework/SupervisedLearning/DynamicModeDecompositionControl.py:218-276 | returns `EvaluateModel` on the trained bank, and so models the corrected control-input indexing of Findings |
| DmdcExport.Preamble | framework/SupervisedLearning/DynamicModeDecompositionControl.py:278-294 | the description when trained, RuntimeError otherwise |
| DmdcExport.SkipIsDifference | framework/SupervisedLearning/DynamicModeDecompositionControl.py:318-320 | the skip loop leaves the multiset difference of requested and skipped names |
| DmdcExport.Selection | framework/SupervisedLearning/DynamicModeDecompositionControl.py:305-325 | every selected name is one the writer knows; the only error is IOError |
| DmdcExport.SurvivesSkip | framework/SupervisedLearning/DynamicModeDecompositionControl.py:318-320 | a name survives exactly when requested more often than skipped |
| DmdcExport.SurvivorOutside | framework/SupervisedLearning/DynamicModeDecompositionControl.py:318-323 | an unknown name survives exactly when one is requested more often than skipped |
| DmdcExport.UnknownNameRejected | framework/SupervisedLearning/DynamicModeDecompositionControl.py:322-323 | with targets the selection fails exactly when an unknown name survives the skips |
| DmdcExport.SelectedCounts | framework/SupervisedLearning/DynamicModeDecompositionControl.py:318-325 | the selection holds each name as often as requested and not skipped |
| DmdcExport.DefaultSelectionAccepted | framework/SupervisedLearning/DynamicModeDecompositionControl.py:313-314 | without targets the selection never fails |
| DmdcExport.SkipKeepsWithin | framework/SupervisedLearning/DynamicModeDecompositionControl.py:318-320 | skipping only removes names |
| DmdcExport.HeaderValue | framework/SupervisedLearning/DynamicModeDecompositionControl.py:329-346 | `rankSVD` is written as -1 when unset, and the name lists space-joined |
| DmdcExport.HeaderFrom | framework/SupervisedLearning/DynamicModeDecompositionControl.py:329-346 | the scalars of the requested header names, in order |
| DmdcExport.HeaderWritten | framework/SupervisedLearning/DynamicModeDecompositionControl.py:329-346 | a header name is written exactly when requested, with its value |
| DmdcExport.BankExportable | framework/SupervisedLearning/DynamicModeDecompositionControl.py:348-385 | a trained bank has what the block writer indexes |
| DmdcExport.BlocksFrom | framework/SupervisedLearning/DynamicModeDecompositionControl.py:354-385 | the blocks of one sample carry its parameters and data, and every emitted requested node has one |
| DmdcExport.SampleBlockRule | framework/SupervisedLearning/DynamicModeDecompositionControl.py:348-385 | a block is written for a sample exactly when `Emitted` says so, with that sample's parameters and data |
| DmdcExport.Blocks | framework/SupervisedLearning/DynamicModeDecompositionControl.py:348-385 | every block of the first k samples is emitted and carries its sample's scheduling parameters and data |
| DmdcExport.EveryBlockWritten | framework/SupervisedLearning/DynamicModeDecompositionControl.py:348-385 | a sample's block stays in the blocks of every longer prefix |
| DmdcExport.Export | framework/SupervisedLearning/DynamicModeDecompositionControl.py:296-385 | succeeds exactly for a valid selection on a trained surrogate; an unknown name fails with IOError before anything is written; an untrained surrogate fails with AttributeError after the header; a success writes the header, then every sample's blocks in sample order |
| DmdcExport.BlockWritten | framework/SupervisedLearning/DynamicModeDecompositionControl.py:348-385 | in a successful export a block is written for a sample exactly when `Emitted` says so |
| DmdcExport.RemoveSkipped | framework/SupervisedLearning/DynamicModeDecompositionControl.py:318-320 | the skip loop computes `SkipAll` |
| DmdcExport.SelectNames | framework/SupervisedLearning/DynamicModeDecompositionControl.py:305-325 | the selection step computes `Selection`, and the list the skip loop leaves is the requested list minus the skipped names |
| DmdcExport.WriteXml | framework/SupervisedLearning/DynamicModeDecompositionControl.py:296-385 | the procedure computes `Export`; once the selection passes, an unset rank is stored as -1; a caller's `targets` list loses the skipped names, even when the selection then fails |
| DmdcExport.PersistedRank | framework/SupervisedLearning/DynamicModeDecompositionControl.py:330 | the rank is set afterwards, a set rank is kept, and nothing else in the configuration changes |
| DmdcExport.PersistedRankExportsSame | framework/SupervisedLearning/DynamicModeDecompositionControl.py:330-333 | storing -1 for an unset rank leaves every later export unchanged |
| Parcs.KindByName | ravenframework/CodeInterfaceClasses/PARCS/PARCSInterface.py:62-68 | "parcsdata" is data, "input" is the main input, any other type a perturbation file |
| Parcs.OfKind | ravenframework/CodeInterfaceClasses/PARCS/PARCSInterface.py:62-68 | never more files than given |
| Parcs.KindsPartition | ravenframework/CodeInterfaceClasses/PARCS/PARCSInterface.py:62-68 | every file lands in exactly one of the three lists |
| Parcs.OfKindSound | ravenframework/CodeInterfaceClasses/PARCS/PARCSInterface.py:62-68 | a kind's list holds files of that kind only, taken from the input |
| Parcs.OfKindHolds | ravenframework/CodeInterfaceClasses/PARCS/PARCSInterface.py:62-68 | a file of a kind is in that kind's list |
| Parcs.ReadSequence | ravenframework/CodeInterfaceClasses/PARCS/PARCSInterface.py:46-50 | `["parcs"]` without a node; AttributeError for a node without text; success otherwise |
| Parcs.ReadSequenceEntries | ravenframework/CodeInterfaceClasses/PARCS/PARCSInterface.py:50 | one entry more than commas, each the stripped piece between commas |
| Parcs.LastLines | ravenframework/CodeInterfaceClasses/PARCS/PARCSInterface.py:145 | the last n lines, or all of them |
| Parcs.AnyContains | ravenframework/CodeInterfaceClasses/PARCS/PARCSInterface.py:145 | some line among the first k contains the word |
| Parcs.CheckForOutputFailure | ravenframework/CodeInterfaceClasses/PARCS/PARCSInterface.py:137-148 | a missing file is a failure; otherwise failure exactly when one of the last 20 lines contains "ERROR" |
| Parcs.TailContains | ravenframework/CodeInterfaceClasses/PARCS/PARCSInterface.py:145 | a line of the last n contains the word exactly when one at index len(lines) - n or later does |
| Parcs.EarlyErrorsIgnored | ravenframework/CodeInterfaceClasses/PARCS/PARCSInterface.py:145 | an error followed by twenty clean lines is not seen |
| Parcs.RelativeOfBareName | ravenframework/CodeInterfaceClasses/PARCS/PARCSInterface.py:97-99 | a bare name is its own relative input, up to spaces |
| Parcs.RelativeOfNestedName | ravenframework/CodeInterfaceClasses/PARCS/PARCSInterface.py:97-99 | `dir/name` is relative `name` |
| Parcs.DirnameOfNested | ravenframework/CodeInterfaceClasses/PARCS/PARCSInterface.py:98 | the directory of `dir/name` is `dir` |
| Parcs.ParcsInterface.constructor | ravenframework/CodeInterfaceClasses/PARCS/PARCSInterface.py:28-36 | an empty sequence and no output roots |
| Parcs.ParcsInterface.ReadMoreXml | ravenframework/CodeInterfaceClasses/PARCS/PARCSInterface.py:38-50 | the sequence becomes `ReadSequence`, or the error is returned and it is kept |
| Parcs.ParcsInterface.FindInps | ravenframework/CodeInterfaceClasses/PARCS/PARCSInterface.py:52-79 | the files sorted by kind; IOError for more than one of a kind or no data or perturbation file |
| Parcs.ParcsInterface.GenerateCommand | ravenframework/CodeInterfaceClasses/PARCS/PARCSInterface.py:82-105 | one parallel command on the main input's relative path; the base name becomes the root of the lower-cased first sequence entry; the last inserted root is returned; errors for a missing input, an empty sequence or a one-word printed form |
| AccelerateCfd.ParseToken | framework/CodeInterfaces/AccelerateCFD/AccelerateCFD.py:55-59 | an accepted token reads as exactly three coordinates; every refusal is IOError |
| AccelerateCfd.TokenAccepted | framework/CodeInterfaces/AccelerateCFD/AccelerateCFD.py:55-59 | a token is accepted exactly when bracketed with two commas |
| AccelerateCfd.ParseFormatted | framework/CodeInterfaces/AccelerateCFD/AccelerateCFD.py:55-59 | reading a written point gives back its three coordinates |
| AccelerateCfd.ParseEach | framework/CodeInterfaces/AccelerateCFD/AccelerateCFD.py:54-60 | each token read in order, the first error stops |
| AccelerateCfd.SpacedPointRefused | framework/CodeInterfaces/AccelerateCFD/AccelerateCFD.py:52-56 | a point written with spaces after its commas splits into several tokens and the first is refused |
| AccelerateCfd.Readings | framework/CodeInterfaces/AccelerateCFD/AccelerateCFD.py:47-61 | what each child contributes, in order |
| AccelerateCfd.LastLocationsWin | framework/CodeInterfaces/AccelerateCFD/AccelerateCFD.py:46-61 | without error the coordinates are the last child's, none without such a child |
| AccelerateCfd.LocationsFail | framework/CodeInterfaces/AccelerateCFD/AccelerateCFD.py:49-59 | the reading fails exactly when some child is bad, with the first one's error |
| AccelerateCfd.LocationsStop | framework/CodeInterfaces/AccelerateCFD/AccelerateCFD.py:46-61 | after a failed child nothing changes |
| AccelerateCfd.OfType | framework/CodeInterfaces/AccelerateCFD/AccelerateCFD.py:167-170 | never more files than given |
| AccelerateCfd.TypeIsMeans | framework/CodeInterfaces/AccelerateCFD/AccelerateCFD.py:169 | the type test is equality of the normalised names |
| AccelerateCfd.OfTypeMembers | framework/CodeInterfaces/AccelerateCFD/AccelerateCFD.py:167-170 | a file is selected exactly when its type matches |
| AccelerateCfd.OfTypeConcat | framework/CodeInterfaces/AccelerateCFD/AccelerateCFD.py:167-170 | selection distributes over concatenation, keeping input order |
| AccelerateCfd.OfTypeSkips | framework/CodeInterfaces/AccelerateCFD/AccelerateCFD.py:167-170 | a file whose normalised type differs is not selected |
| AccelerateCfd.CdIntoSystem | framework/CodeInterfaces/AccelerateCFD/AccelerateCFD.py:148 | entering `rom/<type>_<name>/system` goes three levels down |
| AccelerateCfd.CdUp | framework/CodeInterfaces/AccelerateCFD/AccelerateCFD.py:148 | `cd ../` climbs one level and `cd ../..` two |
| AccelerateCfd.IsCdStartsWith | framework/CodeInterfaces/AccelerateCFD/AccelerateCFD.py:148 | the `cd` test is `startswith("cd ")` |
| AccelerateCfd.PodStepsStay | framework/CodeInterfaces/AccelerateCFD/AccelerateCFD.py:148 | the four pod tools do not move the working directory |
| AccelerateCfd.SwapStepsStay | framework/CodeInterfaces/AccelerateCFD/AccelerateCFD.py:148 | removing and copying the control dictionary and `postProcess` do not move it |
| AccelerateCfd.CdStepsMove | framework/CodeInterfaces/AccelerateCFD/AccelerateCFD.py:148 | the three `cd` steps go down three levels, then up one, then up two |
| AccelerateCfd.PodCommandsDepth | framework/CodeInterfaces/AccelerateCFD/AccelerateCFD.py:148 | the pod tools run in the working directory, the dictionary swap three levels down, `postProcess` two levels down, and the sequence ends where it started |
| AccelerateCfd.RefusedAnyCase | framework/CodeInterfaces/AccelerateCFD/AccelerateCFD.py:186-187 | the refusal ignores case, wherever the words appear |
| AccelerateCfd.MangleIsReplaceChain | framework/CodeInterfaces/AccelerateCFD/AccelerateCFD.py:303 | the character mangling equals the chain of `replace` calls |
| AccelerateCfd.MangleClean | framework/CodeInterfaces/AccelerateCFD/AccelerateCFD.py:303 | a mangled name has no space, quote, parenthesis, comma or dot |
| AccelerateCfd.MangleConcat | framework/CodeInterfaces/AccelerateCFD/AccelerateCFD.py:303 | mangling distributes over concatenation |
| AccelerateCfd.ManglePlain | framework/CodeInterfaces/AccelerateCFD/AccelerateCFD.py:303 | a name without those characters is unchanged |
| AccelerateCfd.ProbeNameParts | framework/CodeInterfaces/AccelerateCFD/AccelerateCFD.py:301-303 | a probe name is the mangled class, a dash and the mangled shown coordinates joined by `_` |
| AccelerateCfd.ProbeNameJoined | framework/CodeInterfaces/AccelerateCFD/AccelerateCFD.py:301-303 | for quote-free coordinates, the mangled class, a dash and the mangled coordinates joined by `_` |
| AccelerateCfd.PlainProbeName | framework/CodeInterfaces/AccelerateCFD/AccelerateCFD.py:301-303 | for plain names the probe name is literally `class-x_y_z` |
| AccelerateCfd.AddKeysSpec | framework/CodeInterfaces/AccelerateCFD/AccelerateCFD.py:308-309 | registering keeps the old keys in front, adds exactly the new names, keeps keys distinct |
| AccelerateCfd.AddKeysConcat | framework/CodeInterfaces/AccelerateCFD/AccelerateCFD.py:305-321 | registering a + b is registering a, then b |
| AccelerateCfd.RegisterProbes | framework/CodeInterfaces/AccelerateCFD/AccelerateCFD.py:299-321 | the keys added for one field over all rows, in order |
| AccelerateCfd.AcceleratedCfd.constructor | framework/CodeInterfaces/AccelerateCFD/AccelerateCFD.py:109-110 | no locations, with the ROM type and name |
| AccelerateCfd.AcceleratedCfd.ParseCoordinates | framework/CodeInterfaces/AccelerateCFD/AccelerateCFD.py:52-60 | the loop computes `Rows` of the text |
| AccelerateCfd.AcceleratedCfd.ReadMoreXml | framework/CodeInterfaces/AccelerateCFD/AccelerateCFD.py:37-61 | the locations are cleared, then set by `Scan`; the first bad child raises |
| AccelerateCfd.AcceleratedCfd.FindInps | framework/CodeInterfaces/AccelerateCFD/AccelerateCFD.py:160-173 | `OfType`, or IOError when empty |
| AccelerateCfd.AcceleratedCfd.GenerateCommand | framework/CodeInterfaces/AccelerateCFD/AccelerateCFD.py:130-150 | the ten pod steps and `out~` plus the first input's base name; IOError without an input file |
| AccelerateCfd.AcceleratedCfd.CreateNewInput | framework/CodeInterfaces/AccelerateCFD/AccelerateCFD.py:175-193 | a dynamic event tree sampler is refused; both file lists must hold an input file; the current files are returned |

## Left out

- Ray, the remote nodes and ssh, the polling thread and the queue lock of the job handler (`__initializeRay`, `__shutdownParallel`, the socket helpers, `startLoop`, `shutdown`): they are process and network management. Every modelled method runs as one atomic step.
- Starting, killing and timing runners (`start`, `kill`, `trackTime`) and job profiling (`setProfileJobs`): these are side effects on external processes. Killed runners are returned as a list.
- `applyRunInfo`: the two run-info entries `initialize` reads are parameters of `JobHandling.JobHandler.Initialize`.
- `addClientJob`: this is `addJob` with the client flag set, which is a parameter of `JobHandling.JobHandler.AddJob`. The thread choice (`forceUseThreads`) and the function to run are not modelled.
- `addFinishedJob`: it builds a runner from a finished realization. That is data handling outside the queue logic.
- `getFailedJobs` and `numSubmitted`: they only read a field (`failedJobs`, `|submittedJobs|`).
- JobHandling.JobHandler.FillJobQueue: does not model the keyword arguments handed to a runner of a Code model, or the runner's `start`.
- JobHandling.JobHandler.TerminateJobs: the caller's `ids` list is changed in place; the model returns what is left of it instead.
- The simulation's XML reading other than `printInput`, remote runs (`remoteRunCommand`), step initiation and execution, the assemblers and the status files: these are I/O and orchestration outside the core.
- SimulationCore.CheckStep: the read of a non-file entity's `type` attribute into a local variable that is never used (`framework/Simulation.py:531-533`) is not modelled; it compares nothing.
- SimulationCore.RunInfo.InitializeParallel: does not model the change of working directory, the absolute file paths or the calls into the job handler. `initialize` makes these around the parallel settings.
- SimulationCore.PrintInputName: `utils.stringIsFalse` is not part of this model and is a predicate parameter.
- The DMDc input specification (`getInputSpecification`) and the base-class input handling: they are declarative schema code.
- The number formatting of the export (`%.8e`, `%.6e`, `%.3d`) and the time-scale values: values are written as reals and strings.
- DmdcSurrogate.Dmdc.Evaluate: requires a trained surrogate. The untrained check lives in the base class's `evaluate`, which is not part of this model.
- DmdcSurrogate.EvalSetup: several requests are refused. The source writes the initial states of all requests into the slot of the first request, which numpy refuses for more than one request, so only one request is modelled.
- DmdcSurrogate.Inputs: centres each actuator vector on the chosen sample's first actuator values, which is the evident intent. The source subtracts that vector from the time axis of its (actuator, request, time) array (`framework/SupervisedLearning/DynamicModeDecompositionControl.py:254`). That broadcast only agrees for one actuator.
- DmdcSurrogate.AsWrittenRollout: models the as-written input indexing without the centring of the control input.
- The KNeighbors regressor and the numeric routines of numpy and scipy: they are function parameters with only their output shapes assumed (`DmdcIdentify.Numerics`).
- Complex parts of the identified matrices: the model works over reals.
- AccelerateCfd.AcceleratedCfd.constructor: takes the ROM type and name as parameters. `initialize` reads them from the input file, along with the mesh files, the full-order data and the nearest-cell search, all of which are file I/O.
- `readFoamFile`, `checkForOutputFailure` and the numeric part of `finalizeCodeOutput` of AccelerateCFD: they read and parse output files. Only the probe names and result keys are modelled. In that numeric part the `srom` branch tests `fieldVector` where `fieldScalar` is meant (`framework/CodeInterfaces/AccelerateCFD/AccelerateCFD.py:291-294`): when a processor directory holds both `Urom` and `srom`, it concatenates the still unset `fieldScalar` and numpy raises, so the scalar probe keys that `AccelerateCfd.RegisterProbes` models are then never reached.
- AccelerateCfd.AcceleratedCfd.CreateNewInput: the `GenericParser` rewriting of the input files is not part of this model.
- `getInputExtension` of AccelerateCFD: it returns a constant.
- PARCS `createNewInput` and `finalizeCodeOutput`: they delegate to `SpecificParser` and `PARCSData`, which are not part of this model.
- Parcs.ParcsInterface.GenerateCommand: the printed form of an input file is a parameter string. Only its second word, the path, is used.
- AccelerateCfd.ProbeNameParts: Python's `repr` is modelled for printable characters only, with no escapes other than the backslash and the quote.
- PyStr.Lower: ASCII case folding only.
- DmdcSurrogate.EvaluateModel: rolls out with the corrected control-input indexing `uVector[:,cnt,i]` of Findings, not the as-written `uVector[cnt,:,i]`, which `DmdcSurrogate.AsWrittenRollout` models.
- DmdcExport.WriteXml: returns the configuration with the stored rank; `DmdcSurrogate.Dmdc` keeps its configuration as a constant, so the stored -1 is not written back into the object.

## Findings

| source | as written | input that shows it | evidently intended | confidence | as-written member | corrected member |
|---|---|---|---|---|---|---|
| framework/SupervisedLearning/DynamicModeDecompositionControl.py:260 | the control input at step i is `uVector[cnt,:,i]`, which indexes the actuator axis with the request counter: for the single request it is the first actuator alone | a surrogate with two actuators, evaluated over two time steps: `B.dot(u)` multiplies an n x 2 matrix by a 1-vector and numpy raises ValueError | all actuators of the request at step i, `uVector[:,cnt,i]` | not executed | DmdcSurrogate.AsWrittenRejectsSeveralActuators | DmdcSurrogate.RolloutAgrees |
