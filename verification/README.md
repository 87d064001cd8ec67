# T5 text-to-SQL: evaluation bookkeeping, data preparation and model utilities

This project models the parts of a T5 text-to-SQL training and evaluation
code base that are plain logic rather than calls into torch or the
tokenizer, and proves what they promise.

- **Mismatch finder** (`find_mismatches.py`) lines up the dev NL questions,
  the gold SQL and one model's predicted SQL, together with the fetched
  records and execution error messages when their caches exist. Its checks
  and outputs are:
  - it checks that the lengths agree;
  - it lists the record mismatches, comparing rows as sets of tuples (an
    integer equals the real number of the same value, as in Python), or
    compares stripped SQL strings when no records are available;
  - it lists the queries whose execution failed, and computes the match and
    error rates;
  - it renders previews of at most 10 rows in the saved report and 5 on the
    console.
- **Data preparation** (`load_data.py`) covers:
  - the NL prefix and the search for the decoder's start token;
  - the per-split dataset and the teacher-forcing shift;
  - dynamic padding with its attention mask;
  - the loader's shuffle and collate choice, and line loading.
- **Dataset statistics** (`compute_dataset_stats.py`): the example count,
  mean token lengths and vocabulary sizes. Means are kept as exact
  numerator/denominator pairs.
- **Test2 evaluation driver** (`evaluate_test2.py`) covers:
  - experiment discovery and selection, and the gold-record cache;
  - the paths derived for each experiment and the decoder start token;
  - the generation loop over batches and the per-experiment error rate.
- **Model utilities** (`t5_utils.py`) cover:
  - the dotted parameter-name walk and the weight-decay grouping;
  - optimizer and scheduler selection, and the scheduler's step arithmetic;
  - checkpoint names, saving and loading;
  - layer freezing, modelled as a class whose parameter blocks are updated
    in place.

The tokenizer is an abstract function from text to token ids. The file
system is a map of files (as lines) and directories (as listings). Rates
and means are `Ratio(num, den)` values, never floats.

The code is followed where it differs from its comments. In particular,
`freeze_layers` documents `None` as "freeze all", but the code freezes
nothing for `None` (t5_utils.py:53, 69). The model does what the code does
(`T5Utils.NoSelectionFreezesNothing`).

Other behaviour of the code that the model keeps:
- An index whose execution failed is skipped by the record comparison but
  still counts as a match in the match rate.
- An empty record list is falsy. It therefore turns on the string fallback,
  and its length is not checked.
- An empty dev split makes the rate computation divide by zero.
- Shifting an empty target list gives the one-token list `[bos]`.
- An optimizer type other than `AdamW` leaves the optimizer unbound.

Files:
- `common.dfy`: Option/Result, `Ratio`, Python's `str.strip`, the substring
  test and the abstract file system.
- `find_mismatches.dfy`, `load_data.dfy`, `dataset_stats.dfy`,
  `evaluate_test2.dfy`, `t5_utils.dfy`: one module per source file.

## Model

| member | source | states |
|---|---|---|
| Common.Strip | find_mismatches.py:143 | `strip` never lengthens a string, and a non-empty result neither starts nor ends with whitespace |
| Common.StripShape | find_mismatches.py:143 | `strip` keeps an infix whose first and last characters are not whitespace; everything cut off on either side is whitespace |
| Common.StripIdempotent | load_data.py:176 | stripping a stripped line changes nothing |
| Common.StripEmptyIffAllSpace | find_mismatches.py:150 | a message is blank after `strip` exactly when all its characters are whitespace |
| Common.NotContainsWithoutFirst | evaluate_test2.py:141 | a string lacking the first character of `sub` does not contain `sub` (`sub in s` is false) |
| Common.StripLines | load_data.py:176 | one stripped string per line, same count, same order |
| Common.StripLinesIdempotent | load_data.py:173-177 | stripping every line twice is the same as once |
| FileSystem.MakeDirs | evaluate_test2.py:128 | `makedirs(exist_ok=True)`: fails with `FileExistsError` exactly when the path is an existing file; otherwise the path is a directory afterwards, an existing directory leaves everything unchanged, no file changes, no other directory appears and every existing directory keeps its listing |
| FileSystem.WriteFile | evaluate_test2.py:129-130 | the written file holds the content; every other file is unchanged and the directories are untouched |
| FindMismatches.ChooseModelType | find_mismatches.py:27-30 | an explicit model type wins; otherwise `ft` exactly when `--finetune` |
| FindMismatches.FirstExisting | find_mismatches.py:57-63 | the primary path when it exists, else the fallback when it exists, else nothing; a chosen path exists |
| FindMismatches.LocateSources | find_mismatches.py:57-103 | this step stops the run, writing nothing, exactly when neither prediction path exists; otherwise the predicted SQL is read from the primary path when it exists, else the fallback, the model records from the first existing of their primary and fallback caches, and whether the gold cache exists is recorded |
| FindMismatches.Classify | find_mismatches.py:105-162 | fails exactly when a length check fails; an empty split fails on the division; otherwise the mode is record comparison iff both record lists are non-empty, the lists are the specified mismatch and error lists, the match rate is (n − mismatches)/n, and there is an error rate, \|errors\|/n, iff messages are present |
| FindMismatches.CompareRecords | find_mismatches.py:123-138 | the record loop builds exactly the specified mismatch list |
| FindMismatches.CompareSql | find_mismatches.py:139-144 | the fallback loop builds exactly the specified mismatch list |
| FindMismatches.CollectErrors | find_mismatches.py:146-151 | the error loop builds exactly the specified error list |
| FindMismatches.MismatchesSound | find_mismatches.py:123-144 | every listed mismatch is a mismatching index below the bound and carries that index's data |
| FindMismatches.MismatchesComplete | find_mismatches.py:123-144 | every mismatching index below the bound is listed |
| FindMismatches.MismatchesAscending | find_mismatches.py:123-144 | mismatch indices strictly increase, so each index is listed once |
| FindMismatches.MismatchesExact | find_mismatches.py:123-144 | an index is listed iff it is below the bound and mismatches; the indices strictly increase |
| FindMismatches.ErrorQueriesSound | find_mismatches.py:146-151 | each listed error is the tuple (index, NL, gold SQL, predicted SQL, message) of an index below the bound whose message is non-blank after strip, and indices strictly increase |
| FindMismatches.ErrorQueriesComplete | find_mismatches.py:146-151 | every index with a non-blank message is listed |
| FindMismatches.ErrorQueriesExact | find_mismatches.py:146-151 | an index is listed iff its message is non-blank after strip, in ascending order, once each |
| FindMismatches.NoErrorsWithoutMessages | find_mismatches.py:147-148 | with no (or an empty) message list there are no error queries |
| FindMismatches.ErroredIndexNotRecordMismatch | find_mismatches.py:130-131 | in record mode an index with a non-blank error message is never a record mismatch |
| FindMismatches.RecordMismatchIffRowSetsDiffer | find_mismatches.py:134-137 | in record mode an index without an error is a mismatch iff its gold and predicted row sets differ |
| FindMismatches.FallbackComparesStrippedSql | find_mismatches.py:139-144 | in fallback mode an index is a mismatch iff the stripped gold and predicted SQL differ, and the record fields are empty |
| FindMismatches.MismatchesAndErrorsWithinTotal | find_mismatches.py:154-162 | mismatches never exceed the total, and in record mode mismatches plus errors never exceed it either |
| FindMismatches.AbsentRecordsAreEmpty | find_mismatches.py:134-135 | absent and empty record lists both give the empty row set |
| FindMismatches.RowSetIgnoresOrder | find_mismatches.py:134-137 | reordering the rows does not change the row set |
| FindMismatches.RowSetIgnoresDuplicates | find_mismatches.py:134-137 | repeating a row does not change the row set |
| FindMismatches.NormalizeDecidesSameValue | find_mismatches.py:134-137 | two fetched values have the same representative exactly when they compare equal, an integer and a real of the same value included |
| FindMismatches.NormalizeRowDecidesSameRow | find_mismatches.py:134-135 | two rows have the same representative exactly when they have the same length and equal values column by column |
| FindMismatches.RowSetsEqualIffSameRows | find_mismatches.py:134-137 | two record lists, empty ones included, give equal row sets exactly when every row of each has an equal row in the other |
| FindMismatches.IntegralRealRowMatchesInt | find_mismatches.py:134-137 | a row holding an integer and a row holding the real of the same value compare as the same record |
| FindMismatches.RenderPreview | find_mismatches.py:204-219 | the preview shows the row count, the first min(n, limit) rows in order, a "k more rows" line with k = n − limit exactly when n > limit, and "(empty)" alone for absent or empty records |
| FindMismatches.RenderMismatches | find_mismatches.py:198-219 | one report entry per mismatch, numbered from 1 in list order, with that mismatch's data, and previews of both sides exactly in record mode |
| FindMismatches.ConsolePreviewIsPrefix | find_mismatches.py:284-300 | the 5-row console preview shows the same count and the same leading rows as the 10-row file preview |
| LoadData.PreprocessNlQuery | load_data.py:16-17 | the result is the fixed prefix followed by the question, 18 characters longer |
| LoadData.BosTokenId | load_data.py:35-44 | `<extra_id_0>` when known, else the first known `<extra_id_i>` for i in 1..99, else the pad id |
| LoadData.LoadLines | load_data.py:173-177 | a missing file is an error; otherwise one stripped string per line, in order |
| LoadData.LoadLinesOfStrippedFile | load_data.py:173-177 | loading a file whose lines are already stripped gives the same lines |
| LoadData.NewDataset | load_data.py:32-60 | fails on a missing NL file, a missing SQL file outside the test split, or unequal NL and SQL lengths, and succeeds in every other case; a dataset has the stripped lines, SQL exactly outside the test split, one prefixed entry per NL line in order, and the searched start token |
| LoadData.LoadLinesOrFail | load_data.py:47-52 | a missing file fails with its path, otherwise its stripped lines |
| LoadData.Length | load_data.py:62-63 | the dataset's length is the number of NL lines, equal to the number of prefixed entries |
| LoadData.ShiftRight | load_data.py:92-95 | the decoder input starts with the start token, has the targets' length (one token for empty targets), and input k+1 is target k |
| LoadData.ShiftRightRecoversTargets | load_data.py:92-95 | dropping the start token and appending the last target gives back the targets |
| LoadData.GetItem | load_data.py:65-99 | a test-split item is the encoder ids and start token only; other items add the SQL targets and, as decoder inputs, the targets shifted right behind the start token (just the start token for empty targets); the encoder ids are those of the prefixed question |
| LoadData.MaxLength | load_data.py:122 | the padded width bounds every row and is reached by some row (0 for no rows) |
| LoadData.Pad | load_data.py:122-124 | every row is padded to the batch's longest length, keeping its ids and filling with PAD_IDX |
| LoadData.Mask | load_data.py:126 | the mask has the shape of the ids |
| LoadData.MaskOfPaddedBatch | load_data.py:122-126 | the mask of a padded batch is 1 exactly at real tokens whose id is not PAD_IDX, else 0 |
| LoadData.NormalCollate | load_data.py:101-130 | a five-part batch: the padded encoder ids, their mask, the padded decoder inputs, the padded decoder targets, and each item's start token at its own position |
| LoadData.TestCollate | load_data.py:132-154 | a three-part batch: the padded encoder ids, their mask, and each item's start token at its own position |
| LoadData.DataLoaderConfig | load_data.py:156-163 | shuffling exactly for "train", the test collation exactly for "test", the given batch size |
| LoadData.CollateFitsItems | load_data.py:77-79 | the loader uses the test collation exactly when the dataset returns test items |
| DatasetStats.PreparedAll | compute_dataset_stats.py:37-39 | one text per NL query, in order, prefixed exactly when asked |
| DatasetStats.Mean | compute_dataset_stats.py:54-55 | the mean is the sum over the count, and 0 with no queries |
| DatasetStats.ComputeStats | compute_dataset_stats.py:13-65 | the loops compute the specified statistics |
| DatasetStats.TokenizeAll | compute_dataset_stats.py:37-51 | the loop builds the specified length list and vocabulary set |
| DatasetStats.SumOf | compute_dataset_stats.py:54 | the loop computes the sum |
| DatasetStats.TokenLengthsAt | compute_dataset_stats.py:37-41 | exactly one length per query, in order, each its token count |
| DatasetStats.VocabularyMembers | compute_dataset_stats.py:42 | a token id is in the vocabulary iff some query's tokens contain it |
| DatasetStats.SetOfSeqBound | compute_dataset_stats.py:42 | one tokenization adds at most as many ids as it has tokens |
| DatasetStats.VocabularyBound | compute_dataset_stats.py:40-51 | the vocabulary size is at most the sum of the token lengths |
| DatasetStats.MeanTimesCount | compute_dataset_stats.py:54-55 | for a non-empty list the mean's denominator is the query count and its numerator the total token count |
| DatasetStats.PrefixOnlyChangesNl | compute_dataset_stats.py:31-57 | the prefix changes neither the example count nor either SQL statistic; without it the NL vocabulary is that of the raw questions |
| EvaluateTest2.CountNonEmpty | evaluate_test2.py:169 | the count of non-empty messages never exceeds the message count |
| EvaluateTest2.CountNonEmptyIsCardinality | evaluate_test2.py:169 | the count is the number of positions holding a non-empty message |
| EvaluateTest2.ErrorRate | evaluate_test2.py:169 | 0 for an absent or empty list, otherwise the number of positions holding a non-empty message over the list length, at most 1 |
| EvaluateTest2.ErrorRateCountsUnstripped | evaluate_test2.py:169 | every message the mismatch finder treats as an error is counted, and a blank message `" "` is counted here though not there |
| EvaluateTest2.BestModelIsBestCheckpoint | evaluate_test2.py:77 | the file looked for is the best checkpoint that the model load reads |
| EvaluateTest2.WithCheckpoint | evaluate_test2.py:74-79 | at most one experiment per listed entry |
| EvaluateTest2.FindExperiments | evaluate_test2.py:65-81 | the nested loops return exactly the specified experiment list, or fail when a kind path is not a directory |
| EvaluateTest2.ScanKind | evaluate_test2.py:74-79 | the inner loop appends exactly the entries holding a best checkpoint, in listing order |
| EvaluateTest2.WithCheckpointMembers | evaluate_test2.py:74-79 | an experiment is found iff it is of the scanned kind, listed, a directory, and holds best_model.pt |
| EvaluateTest2.WithCheckpointOfKind | evaluate_test2.py:71-79 | everything found in a kind directory is of that kind |
| EvaluateTest2.Experiments | evaluate_test2.py:65-81 | nothing for a missing root; fails exactly when an existing kind directory is not a directory, naming the fine-tuned one when it fails, else the scratch one; otherwise at most one experiment per listed entry |
| EvaluateTest2.ExperimentsFound | evaluate_test2.py:65-81 | nothing for a missing root; otherwise exactly the listed directories holding a best checkpoint, with no fine-tuned experiment after a scratch one |
| EvaluateTest2.Selected | evaluate_test2.py:93-101 | at most one experiment per name |
| EvaluateTest2.SelectNamedExperiments | evaluate_test2.py:91-101 | the selection loop with its `break` builds exactly the specified selection |
| EvaluateTest2.LookupKind | evaluate_test2.py:96-101 | ft whenever its best checkpoint exists; a kind is returned only where its best checkpoint exists; none exactly when neither exists |
| EvaluateTest2.SelectedMembers | evaluate_test2.py:94-101 | a named experiment is taken from ft when its best checkpoint is there, else from scr, and a name with neither is skipped |
| EvaluateTest2.ChooseExperiments | evaluate_test2.py:91-104 | a non-empty name list is looked up; otherwise every experiment on disk is found |
| EvaluateTest2.FtOccursOnlyInFtDir | evaluate_test2.py:141 | "ft" occurs in the kind directory name exactly for fine-tuned experiments |
| EvaluateTest2.RunFor | evaluate_test2.py:140-158 | `finetune` holds exactly for fine-tuned experiments; the short type is "ft" or "scr" accordingly; the checkpoint directory and the test2 prediction and record paths are derived from it |
| EvaluateTest2.ChosenRunsLoadCheckpoints | evaluate_test2.py:91-104 | every chosen experiment has a best checkpoint where its run loads from, so the evaluated model is never the untrained one |
| EvaluateTest2.EnsureGoldRecords | evaluate_test2.py:114-131 | an existing cache leaves the file system unchanged; without it, a missing gold SQL file fails, then a file named `records` fails with `FileExistsError`, and otherwise it succeeds; on success `records` is a directory, the only file change is the cache, holding the records of the stripped gold queries, and no directory other than `records` appears or changes |
| EvaluateTest2.GoldRecordsIdempotent | evaluate_test2.py:119-131 | ensuring the cache twice is the same as once, so it is never recomputed or overwritten |
| EvaluateTest2.MainPlan | evaluate_test2.py:90-158 | succeeds exactly when choosing experiments succeeds and either none are chosen or the gold cache can be ensured; a failure is the error of the step that failed, choosing first; with no experiments the file system is untouched, otherwise it is the one the gold cache step leaves; one run per chosen experiment, in order, with that experiment's derived names |
| EvaluateTest2.NoExperimentsNoWork | evaluate_test2.py:106-108 | with no experiments nothing is evaluated and the file system, gold cache included, is unchanged |
| EvaluateTest2.CollectResults | evaluate_test2.py:134-178 | one result row per run, in order, with its name, short type and error rate |
| EvaluateTest2.DecoderStartId | evaluate_test2.py:36-38 | the id of `<extra_id_0>` when the vocabulary knows it, else the pad id; the start id is the unknown id only when the pad id is |
| EvaluateTest2.DecoderStartAgreesWithBos | evaluate_test2.py:36-38 | the inference start token equals the dataset's start token when `<extra_id_0>` is known or no later extra id is known, and differs from it when only a later non-pad extra id is known |
| EvaluateTest2.UnpackAsWritten | evaluate_test2.py:44 | unpacking succeeds exactly for three-part batches |
| EvaluateTest2.Test2BatchesFailAsWritten | evaluate_test2.py:43-44 | the test2 loader uses the normal collation, its items carry targets, and unpacking any of its batches fails |
| EvaluateTest2.Unpack | evaluate_test2.py:44 | the encoder ids, mask and start tokens of a batch of either shape |
| EvaluateTest2.WithoutTargets | load_data.py:77-79 | the test item with the same encoder ids and start token |
| EvaluateTest2.UnpackIgnoresTargets | evaluate_test2.py:44 | the intended unpacking agrees with the as-written one where that succeeds, and gives a five-part batch the inputs the test collation gives the same items without targets |
| EvaluateTest2.GenerateAll | evaluate_test2.py:40-60 | the loop, using the corrected unpacking of the finding below, appends each batch's generated queries in batch order |
| EvaluateTest2.GeneratedCount | evaluate_test2.py:59-60 | with one generated query per row, there is one prediction per example |
| T5Utils.Prefixed | t5_utils.py:186-190 | each child name becomes `child.name`, same count and order |
| T5Utils.ChildNamesMembers | t5_utils.py:185-190 | a child contributes exactly its prefixed names, and none when its type is forbidden |
| T5Utils.ChildrenNamesMembers | t5_utils.py:185-190 | the children contribute exactly the prefixed names of their non-forbidden subtrees |
| T5Utils.ParameterNames | t5_utils.py:183-193 | the module's own parameter names come last, in their order, after the children's names |
| T5Utils.ParameterNamesMembers | t5_utils.py:183-193 | a name is returned iff it is the module's own parameter or comes from a non-forbidden child |
| T5Utils.ForbiddingMoreRemovesNames | t5_utils.py:183-193 | forbidding more layer types only removes names |
| T5Utils.ChildrenForbiddingMore | t5_utils.py:185-190 | the same for the children's names |
| T5Utils.WithoutBias | t5_utils.py:145 | exactly the names without "bias", never more than the input |
| T5Utils.DecayNamesHaveNoBias | t5_utils.py:144-145 | a decay name is a parameter name of the model without "bias" in it, and every such name is one |
| T5Utils.GroupMembers | t5_utils.py:146-159 | a group holds exactly the trainable parameters whose name is (or is not) in the decay list |
| T5Utils.GroupParameters | t5_utils.py:146-159 | two groups: decayed names with the weight decay, the others with 0.0, all trainable |
| T5Utils.GroupsPartitionTrainable | t5_utils.py:146-159 | the two groups together hold each trainable parameter exactly as often as the model does |
| T5Utils.GroupsDisjoint | t5_utils.py:146-159 | no parameter is in both groups, and a parameter is in one iff it is trainable |
| T5Utils.InitializeOptimizer | t5_utils.py:143-168 | an optimizer exactly for "AdamW", with the two groups and the fixed eps and betas; any other type leaves it unbound |
| T5Utils.DecayedParamsHaveNoBias | t5_utils.py:144-151 | a parameter with weight decay has no "bias" in its name and is a parameter name of the model |
| T5Utils.InitializeScheduler | t5_utils.py:170-181 | "none" gives no scheduler, "cosine" and "linear" their schedules, anything else NotImplemented; steps are the epoch length times the epochs |
| T5Utils.WarmupWithinTraining | t5_utils.py:171-172 | with no more warm-up epochs than epochs, warm-up steps never exceed training steps |
| T5Utils.CheckpointPath | t5_utils.py:117-120 | the checkpoint is `best_model.pt` or `latest_model.pt` directly inside the checkpoint directory |
| T5Utils.CheckpointPathsDiffer | t5_utils.py:117-120 | the best and latest checkpoints are different files |
| T5Utils.Mkdir | t5_utils.py:108-113 | the directory exists afterwards, an existing path is left alone, no file changes, no other directory appears and every existing directory keeps its listing |
| T5Utils.SaveModel | t5_utils.py:115-121 | the checkpoint file holds the state, its directory exists, no other file appears, disappears or changes, and the directories are those `mkdir` leaves |
| T5Utils.LoadModelFromCheckpoint | t5_utils.py:123-136 | the initialized model exactly when the checkpoint is missing; when it is a file, exactly the weights stored in it |
| T5Utils.LoadAfterSave | t5_utils.py:115-136 | loading what was saved gives it back |
| T5Utils.SaveKeepsOtherCheckpoint | t5_utils.py:115-136 | saving one checkpoint kind, whether or not the directory existed, leaves what the other kind loads unchanged |
| T5Utils.FreezeAll | t5_utils.py:57-58 | every parameter is kept with `requires_grad` cleared |
| T5Utils.FreezeBlocks | t5_utils.py:53-82 | freezing keeps the number of blocks |
| T5Utils.TrainableAtMostTotal | t5_utils.py:97-99 | trainable parameters never exceed the total |
| T5Utils.BlocksTrainableAtMostTotal | t5_utils.py:97-99 | the same over blocks |
| T5Utils.FreezeAllCounts | t5_utils.py:57-58 | a frozen block keeps its size and has nothing trainable |
| T5Utils.FreezeBlocksCounts | t5_utils.py:53-82 | freezing keeps the total count and never adds trainable parameters |
| T5Utils.NoSelectionFreezesNothing | t5_utils.py:53-66 | `None`, an empty list or another non-"all" value freezes nothing |
| T5Utils.AllFreezesEveryBlock | t5_utils.py:54-58 | "all" leaves nothing trainable in any block |
| T5Utils.ListedBlocksFrozen | t5_utils.py:60-66 | with a non-empty list, a listed block has nothing trainable and an unlisted block is unchanged |
| T5Utils.T5Model.TrainableWithinTotal | t5_utils.py:97-99 | the model's trainable count never exceeds its total |
| T5Utils.T5Model.FreezeLayers | t5_utils.py:32-106 | freezes the selected encoder and decoder blocks and, when asked, the embeddings and LM head; the total count is unchanged, the trainable count does not grow, and frozen = total − trainable |
| T5Utils.FreezeStack | t5_utils.py:56-66 | the loop over block indices gives the specified frozen blocks |
| T5Utils.FreezeParams | t5_utils.py:57-58 | the loop over a block's parameters clears every `requires_grad` |

## Left out

- plot_training_curve.py: hard-coded series and plotting calls only.
- Printing, progress bars and argument parsing are not modelled.
  - The mismatch and error report files (find_mismatches.py:164-250) are
    written as text, not modelled. Their contents are modelled as
    `Entry`/`Preview` values.
  - Percentages are `Ratio` values, not formatted floats.
- Pickle files are not decoded. The record and message lists that
  find_mismatches.py loads are inputs of `FindMismatches.Classify`.
- Reading `data/dev.nl` and `data/dev.sql` (find_mismatches.py:43-50)
  comes before `FindMismatches.LocateSources`; a missing file there stops
  the run earlier, which this model does not chain in front of it.
- `read_queries`, `compute_records`, `compute_metrics` and
  `save_queries_and_records` are in `utils`, which is not part of this
  model.
  - Gold records are an opaque function of the stripped gold queries.
  - SQL EM, record EM and F1 are left out of `EvaluateTest2.ResultRow`.
- Tokenizer internals, including truncation to 512 tokens, live inside the
  abstract `encode` function. `model.generate` with beam search and batch
  decoding is the `generate` parameter of `EvaluateTest2.GenerateAll`.
- Torch tensors are not modelled. `pad_sequence` and `torch.stack` are
  modelled on sequences.
- The `DataLoader` is modelled only by its settings. Shuffling order and
  batch boundaries are not modelled.
- `initialize_model`, device placement, wandb, the AdamW and scheduler
  objects, and `torch.save`/`torch.load` are foreign calls.
  - Optimizers and schedules are records of their arguments.
  - A state dict is an opaque list of lines.
- T5Utils.T5Model: parameter tying between the shared embedding and the LM
  head is not modelled. The tying would make `model.parameters()` list a
  tied parameter once, and freezing one side would freeze both. Each listed
  parameter is counted once, where it is listed.
- T5Utils.ParameterNames: `isinstance` is a membership test of the child's
  type name. Subclasses of a forbidden type are not recognised.
- T5Utils.T5Model.FreezeLayers: the percentages printed in the summary are
  left out. They would divide by zero for a model without parameters.
- FileSystem: `makedirs` does not create parent directories and directory
  listings are not updated by writes. This is enough for the paths the
  scripts create and list.
- EvaluateTest2.ErrorRate: messages are strings. A `None` message, which
  `msg != ""` would count, cannot occur in this model.
- EvaluateTest2.MainPlan: the test2 loader is built before experiments are
  chosen (evaluate_test2.py:88), and its load failures are modelled by
  `LoadData.NewDataset` rather than chained into the plan.
- FindMismatches.RowSet: database reals are exact `real` values. The
  rounding of floating-point columns, and NaN, are not modelled.
- T5Utils.SaveModel: when the checkpoint directory path is an existing
  file, `mkdir` leaves it and `torch.save` would fail; the model writes the
  checkpoint path regardless.
- The `FileExistsError` race in `mkdir` concerns concurrent processes and is
  not modelled.
- `load_prompting_data` and `load_t5_data` are thin wrappers that only call
  the modelled functions.

## Findings

| source | as written | input that shows it | evidently intended | confidence | as-written member | corrected member |
|---|---|---|---|---|---|---|
| evaluate_test2.py:44 | the test2 loader is built for split "test2", which is not "test", so items carry SQL targets and `normal_collate_fn` makes five-part batches (load_data.py:77, 160); the inference loop unpacks each batch into three names | any test2 split with at least one example: the first batch has five parts and the unpacking raises ValueError | take the encoder ids, mask and start tokens from the batch whatever its collation; `EvaluateTest2.GenerateAll` is modelled with this unpacking | high (not executed) | EvaluateTest2.Test2BatchesFailAsWritten | EvaluateTest2.UnpackIgnoresTargets |
