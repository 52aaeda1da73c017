# AVLetters converters, the evaluation routine and the gesture embedding, in Dafny

This project models four parts of a TensorFlow research code base for lip reading and gesture
recognition and proves properties of the model:

- **The evaluation routine** (`src/routines/evaluate.py`). `Evaluate.evaluate` fills in the
  batch size and the step count. It then runs the subclass hooks in a fixed order:
  `get_data`, then `compute` inside the argument scope, then `compute_log_data`, then
  `init_model`, then `number_of_steps - 1` calls of `step_log_info` and one of
  `last_step_log_info`. The module-level `evaluate` driver moves keyword arguments that name
  instance attributes onto the instance and forwards the rest. The model is the class
  `Evaluation.Evaluator`. It records every hook call in a `trace` field. Its methods are proved
  against the specification function `EvaluateRun`, and the lemmas state what that function
  promises.
- **The AVLetters video converter** (`src/data/lips/convert_TFRecord.py`). It lists the `train` and
  `validation` directories and separates the files into two splits: 'user' keeps the directories,
  'mixed' uses a random split. Each split is written as sharded TFRecord files, and each example
  carries the class of its file's first letter.
- **The audio-visual converter** (`src/data/mfcc_lips/convert_TFRecord.py`). It pairs the sorted
  MFCC files with the sorted video files, shuffles the pairs, and splits off `num_val_samples` for
  validation. It divides both parts into A..T and U..Z by the audio file's first letter and
  writes six splits.
- **The gesture embedding** (`multimodal/gesture/embedding.py`). `get_init_fn` renames the `Color*`
  and `Depth*` variables to `CAE*` checkpoint names and restores the colour checkpoint, then the
  depth one. `config_embedding` writes the projector metadata: a header, the colour rows, then the
  depth rows.

Both converters share one shard loop, `Sharding.WriteShards`. A shard writer receives the
examples `range(s * per, min((s + 1) * per, n))` with `per = ceil(n / num_shards)`. The proof
shows that the files, read one after another, hold every example exactly once, in order.

How Python is modelled:

- `os.listdir` is a map from directory to entries (`Paths.FileSystem`). A missing directory raises
  `OSError`.
- `random.shuffle` is the Fisher-Yates shuffle, and its random choices are an input.
- `sorted` on strings is code-point lexicographic order.
- `'%d'` is decimal printing.
- Python slicing with negative bounds, and `-0 == 0`, are written out in `Seqs`.
- Exceptions are the `Failure` side of a `Result` (`AssertionError`, `ZeroDivisionError`,
  `IndexError`, `KeyError`, `ValueError`, `TypeError`, `OSError`). Each loop is proved to stop at
  the first exception, exactly where Python does.

Edge cases, as the code behaves:

- The driver raises `TypeError` only for a keyword that collides with a parameter the driver binds
  itself (`self`, `tfrecord_dir`, `checkpoint_dirs`, `log_dir`, `number_of_steps`). It does not
  check collisions with `compute`'s parameters.
- A planned step count of zero or less still runs `last_step_log_info` once, and through it
  `step_log_info` once.
- With `batch_size=None` and an empty dataset, `ceil(0 / 0)` raises `ZeroDivisionError`.
- `num_val_samples == 0` puts every sample in validation and none in training (`s[:-0] == []`).

## Model

| member | source | states |
|---|---|---|
| Evaluation.NormalizeCheckpointDirs | src/routines/evaluate.py:154-155 | a single path becomes a one-element list; a list or tuple is kept as it is |
| Evaluation.CeilQuotient | src/routines/evaluate.py:171 | `int(np.ceil(n / b))` is the least integer at or above the exact quotient, for either sign of `b` |
| Evaluation.CeilQuotientPositive | src/routines/evaluate.py:171 | for a positive batch size the ceiling equals `(n + b - 1) / b` |
| Evaluation.PlanCoversDataset | src/routines/evaluate.py:166-171 | a given step count and a given batch size are kept; `batch_size=None` uses all samples; otherwise the step count is the fewest batches covering the dataset; a zero batch size, or none with an empty dataset, raises `ZeroDivisionError` |
| Evaluation.Repeat | src/routines/evaluate.py:194-195 | the ordinary steps are `k` identical `step_log_info` calls |
| Evaluation.CountRepeat | src/routines/evaluate.py:194-195 | `k` repetitions of a hook hold `k` calls of that hook and none of any other |
| Evaluation.Evaluator.constructor | src/routines/evaluate.py:235 | a fresh instance has its attributes, no hook calls yet, no global step op and no file writer |
| Evaluation.Evaluator.GetDataHook | src/routines/evaluate.py:162-163 | `get_data` is recorded with its four arguments and reports the dataset size |
| Evaluation.Evaluator.ComputeHook | src/routines/evaluate.py:175-177 | `compute` is recorded with its argument scope and keyword arguments |
| Evaluation.Evaluator.ComputeLogDataHook | src/routines/evaluate.py:101-103 | `compute_log_data` is recorded and changes nothing else |
| Evaluation.Evaluator.InitModelHook | src/routines/evaluate.py:220-225 | `init_model` asserts exactly one directory, then restores its latest checkpoint; a directory without a checkpoint raises `ValueError` |
| Evaluation.Evaluator.StepLogInfoHook | src/routines/evaluate.py:92-94 | one ordinary step is recorded |
| Evaluation.Evaluator.LastStepLogInfoHook | src/routines/evaluate.py:216-218 | the last step receives the batch size and then runs one ordinary step |
| Evaluation.Evaluator.Evaluate | src/routines/evaluate.py:119-197 | the hook calls and the outcome are those of `EvaluateRun`; the global step op and, when `log_dir` is given, the file writer are created exactly when the model is built |
| Evaluation.Evaluator.RunSession | src/routines/evaluate.py:189-196 | `init_model`, then `number_of_steps - 1` ordinary steps and the last step; a failed restore stops the session before any step |
| Evaluation.Evaluator.ConsumeAttributeKwargs | src/routines/evaluate.py:236-239 | keys naming attributes are set on the instance and removed; every other key is forwarded unchanged |
| Evaluation.KwargsPartition | src/routines/evaluate.py:236-242 | each keyword argument is either set as an attribute or forwarded, never both, with its value unchanged; what reaches `compute` is what is neither an attribute nor an option of `evaluate` |
| Evaluation.Evaluate | src/routines/evaluate.py:228-242 | the driver creates a fresh instance, applies the attribute overrides, binds the options with their defaults and runs `evaluate` as `DriverRun` describes |
| Evaluation.DriverRoutesKwargs | src/routines/evaluate.py:124-129 | a `self` keyword that is not an attribute raises `TypeError`; otherwise `compute` receives exactly the remaining keys, and `batch_stat` and `batch_size` come from the keywords or their defaults `False` and `24` |
| Evaluation.StepEventsCounts | src/routines/evaluate.py:194-196 | a session has `max(number_of_steps - 1, 0)` ordinary steps, then the last step with the batch size; `step_log_info` runs one time more than that |
| Evaluation.EvaluateSucceedsWhen | src/routines/evaluate.py:166-196 | `evaluate` succeeds exactly when the step count can be worked out and exactly one directory with a checkpoint is given; a failed run performs no step |
| Evaluation.EvaluateHookOrder | src/routines/evaluate.py:162-196 | on success the hooks run as `get_data`, `compute` under `is_training = batch_stat`, `compute_log_data`, `init_model` with its restore, then the steps; the step counts are given exactly |
| Evaluation.EvaluateFailures | src/routines/evaluate.py:166-171 | which exception a failed run raises: `ZeroDivisionError` for a zero batch size, `TypeError` for a string batch size, `AssertionError` unless there is one directory, `ValueError` for a missing checkpoint; the model is built exactly when the step count is known |
| Evaluation.DefaultBatchScenario | src/routines/evaluate.py:124 | 100 samples with batches of 24 take five steps, and the last of them receives the batch size 24 |
| Evaluation.WholeDatasetScenario | src/routines/evaluate.py:166-167 | without a batch size or a step count, a non-empty dataset is read in one step |
| Evaluation.FewStepsScenario | src/routines/evaluate.py:194-196 | a step count of one or less still runs the last step, and only that |
| Evaluation.EmptyDatasetScenario | src/routines/evaluate.py:170-196 | an empty dataset with a positive batch size plans zero steps, and the last step still runs once |
| Sharding.CeilDiv | src/data/lips/convert_TFRecord.py:90 | `num_per_shard` is the least count whose `num_shards` shards cover all items |
| Sharding.Shards | src/data/lips/convert_TFRecord.py:94-102 | there is one item list per shard id |
| Sharding.ShardsCover | src/data/lips/convert_TFRecord.py:100-102 | the shards, read in order, hold every item exactly once, in input order |
| Sharding.ShardsBounded | src/data/lips/convert_TFRecord.py:100-101 | no shard holds more than `num_per_shard` items; a shard starting at or after the end is empty |
| Sharding.ShardLocation | src/data/lips/convert_TFRecord.py:100-102 | item `i` is in shard `i / per` at position `i % per` |
| Sharding.ConvertAllMeaning | src/data/mfcc_lips/convert_TFRecord.py:76-97 | converting items succeeds exactly when every item converts, and yields each item's example in order; otherwise it fails with the first item's exception |
| Sharding.ConvertAllPrefixFailure | src/data/mfcc_lips/convert_TFRecord.py:76-97 | once a prefix fails, the rest of the list is never converted |
| Sharding.ConvertRange | src/data/lips/convert_TFRecord.py:102-115 | the inner loop converts items `start .. end - 1` in order and extends the examples written so far, or stops with the first exception |
| Sharding.WriteShards | src/data/lips/convert_TFRecord.py:90-115 | the shard loops produce exactly `WriteShardsResult`: `ZeroDivisionError` for zero shards, no files for a negative count, otherwise the files or the first exception |
| Sharding.ShardFileNameInjective | src/data/lips/convert_TFRecord.py:65-68 | distinct shard ids of one split give distinct file names |
| Sharding.ShardFilesCover | src/data/lips/convert_TFRecord.py:94-115 | file `s` is named for shard `s` and holds at most `num_per_shard` examples; together the files hold every example exactly once, in order |
| Decimal.ParseNatToString | src/data/lips/convert_TFRecord.py:66-67 | `'%d'` printing of a natural number reads back as that number |
| Decimal.NatToStringInjective | src/data/lips/convert_TFRecord.py:66-67 | distinct numbers print differently |
| Decimal.IntToStringInjective | multimodal/gesture/embedding.py:148 | distinct integers, negative ones included, print differently |
| Paths.BasenameIsSuffix | src/data/lips/convert_TFRecord.py:111 | `os.path.basename` has no `/` and is a suffix of the path |
| Paths.BasenameOfJoin | src/data/lips/convert_TFRecord.py:146-147 | the base name of a listed entry joined to its directory is the entry's name |
| Paths.JoinInjective | src/data/lips/convert_TFRecord.py:146-147 | joining distinct relative names to one directory gives distinct paths |
| Sorting.Sort | src/data/mfcc_lips/convert_TFRecord.py:128-134 | `sorted` returns a sorted rearrangement of its input |
| Sorting.LexLeTotal | src/data/mfcc_lips/convert_TFRecord.py:128 | any two strings are comparable |
| Sorting.LexLeTransitive | src/data/mfcc_lips/convert_TFRecord.py:128 | string order is transitive |
| Sorting.LexLeAntisymmetric | src/data/mfcc_lips/convert_TFRecord.py:128 | two strings each at most the other are equal |
| Sorting.SortedUnique | src/data/mfcc_lips/convert_TFRecord.py:128-134 | a multiset of strings has only one sorted arrangement, so the model's sort agrees with Python's |
| Shuffling.ShufflePermutes | src/data/lips/convert_TFRecord.py:159-160 | whatever the random choices, `random.shuffle` only rearranges the list |
| Seqs.PrefixSuffix | src/data/lips/convert_TFRecord.py:167-168 | `s[:i] + s[i:] == s` for every integer `i` |
| Seqs.NegativeSplit | src/data/mfcc_lips/convert_TFRecord.py:142-143 | `s[-k:]` holds exactly `k` items when `1 <= k <= len(s)`; for `k == 0` the head is empty and the tail is all of `s` |
| Seqs.FilterAppend | src/data/mfcc_lips/convert_TFRecord.py:147-151 | filtering distributes over concatenation, so it keeps relative order |
| Seqs.FilterPartition | src/data/mfcc_lips/convert_TFRecord.py:147-151 | a test and its complement split a list into two parts that hold every item exactly as often as the list does, each passing its own test |
| ClassIds.Alphabets | src/data/lips/convert_TFRecord.py:152 | there are 26 single-letter class names, 'A' to 'Z' |
| ClassIds.ClassNamesAreCapitals | src/data/lips/convert_TFRecord.py:154 | a one-letter name has an id exactly when it is a capital, and the id is its alphabet position |
| ClassIds.LabelsInvertClassIds | src/data/lips/convert_TFRecord.py:177 | the label map covers ids 0..25 and is the exact inverse of the class-id map |
| ClassIds.ClassIdOf | src/data/lips/convert_TFRecord.py:111-112 | a file with an empty base name raises `IndexError`, and one whose first letter is not a class raises `KeyError`; otherwise its class is looked up |
| ClassIds.ClassIdOfLetter | src/data/lips/convert_TFRecord.py:111-112 | with the A..Z map, a file has a class exactly when its name starts with a capital, and the class is that letter's position |
| LipsConvert.TfrecordFilenamesDistinct | src/data/lips/convert_TFRecord.py:65-68 | the shards of a split are written to distinct files |
| LipsConvert.ConvertDataset | src/data/lips/convert_TFRecord.py:71-115 | the split assertion followed by the shard loops, as `ConvertDatasetResult` |
| LipsConvert.ConvertDatasetWritesEachFileOnce | src/data/lips/convert_TFRecord.py:88-115 | an unknown split fails the assertion; otherwise the conversion succeeds exactly when every file has a class, and then each file becomes one example, in order, with its class, in files named by shard |
| LipsConvert.UserSeparationPermutes | src/data/lips/convert_TFRecord.py:158-160 | 'user' keeps each directory's files in its own split, only rearranged |
| LipsConvert.MixedSeparation | src/data/lips/convert_TFRecord.py:162-168 | 'mixed' splits the shuffled list of all files, so training and validation together rearrange all files; `k` files go to validation for `1 <= k <= n`, and all of them for `k == 0` |
| LipsConvert.SeparationNeedsKnownMode | src/data/lips/convert_TFRecord.py:156 | only 'user' and 'mixed' pass the assertion |
| LipsConvert.ConvertLips | src/data/lips/convert_TFRecord.py:121-178 | listing, separation, both conversions and the label file, as `ConvertLipsResult` |
| LipsConvert.ListedFilesClassified | src/data/lips/convert_TFRecord.py:145-154 | the listed files all have a class exactly when every entry name starts with a capital |
| LipsConvert.ConvertLipsConvertsEveryListedFile | src/data/lips/convert_TFRecord.py:121-178 | with both directories listed, `convert_lips` succeeds exactly when every name starts with a capital; then every listed file is written exactly once ('user': in its own directory's split), and the labels map 0..25 to 'A'..'Z' |
| MfccLipsConvert.TfrecordFilenamesDistinct | src/data/mfcc_lips/convert_TFRecord.py:36-39 | the shards of a split are written to distinct files |
| MfccLipsConvert.ConvertDataset | src/data/mfcc_lips/convert_TFRecord.py:42-97 | the shard loops over the pairs, as `ConvertDatasetResult` |
| MfccLipsConvert.ConvertDatasetWritesEachPairOnce | src/data/mfcc_lips/convert_TFRecord.py:64-97 | the conversion succeeds exactly when every audio file has a class; then each pair becomes one example, in order, with its audio and video path and the audio file's class |
| MfccLipsConvert.PairUpByRank | src/data/mfcc_lips/convert_TFRecord.py:128-136 | pair `i` is the `i`-th audio and the `i`-th video file in name order, whatever order the listing gives; the pairs are in audio-name order; equal counts pair every audio file exactly once |
| MfccLipsConvert.CollectPairs | src/data/mfcc_lips/convert_TFRecord.py:124-136 | the loop over 'train' and 'validation' extends the pairs as `CollectPairsResult`, or stops at the first missing directory |
| MfccLipsConvert.SplitPairsSucceed | src/data/mfcc_lips/convert_TFRecord.py:127-136 | with both directories of a split present, its pairs are the sorted listings zipped |
| MfccLipsConvert.CollectPairsConcatenates | src/data/mfcc_lips/convert_TFRecord.py:124-136 | with all four directories present, the pairs are those of 'train' followed by those of 'validation' |
| MfccLipsConvert.PartitionByLetter | src/data/mfcc_lips/convert_TFRecord.py:145-159 | the append loop produces `PartitionResult`: `IndexError` for an empty audio name, otherwise the A..T and U..Z lists |
| MfccLipsConvert.LetterSplitFilters | src/data/mfcc_lips/convert_TFRecord.py:145-159 | appending pair by pair, with `IndexError` at the first empty audio name, gives the same result as filtering the whole list by letter |
| MfccLipsConvert.PartitionSplitsByLetter | src/data/mfcc_lips/convert_TFRecord.py:147-151 | the two lists hold every pair exactly once between them, U..Z pairs on one side and the rest on the other; each list is the input filtered by letter, so cutting the input in two cuts each list into the lists of the two pieces (input order kept) |
| MfccLipsConvert.ConvertSplits | src/data/mfcc_lips/convert_TFRecord.py:170-176 | the six conversions run in order and stop at the first exception |
| MfccLipsConvert.SplitsWritePairs | src/data/mfcc_lips/convert_TFRecord.py:161-176 | the six conversions succeed exactly when every part's pairs all have a class; then each part is written under its own name with exactly its pairs, in order |
| MfccLipsConvert.SplitAtValidation | src/data/mfcc_lips/convert_TFRecord.py:141-143 | training followed by validation is the shuffled list, a rearrangement of all pairs; validation holds `k` pairs for `1 <= k <= n`, and all of them for `k == 0` |
| MfccLipsConvert.PartsCoverPairs | src/data/mfcc_lips/convert_TFRecord.py:141-168 | the six lists fail with `IndexError` exactly when some audio name is empty; otherwise they are training, its A..T and U..Z pairs, validation, and its A..T and U..Z pairs |
| MfccLipsConvert.PartsProperties | src/data/mfcc_lips/convert_TFRecord.py:141-168 | training and validation hold every pair exactly once between them, and each half splits into its A..T and U..Z pairs |
| MfccLipsConvert.SixParts | src/data/mfcc_lips/convert_TFRecord.py:147-168 | for halves whose audio names are all present, each half is split between its A..T and U..Z lists with nothing lost or added |
| MfccLipsConvert.PartsClassified | src/data/mfcc_lips/convert_TFRecord.py:165-176 | all six parts have classes exactly when every pair does |
| MfccLipsConvert.ClassifiedByCapital | src/data/mfcc_lips/convert_TFRecord.py:93-94 | with the A..Z map a pair converts exactly when its audio file name starts with a capital |
| MfccLipsConvert.ConvertMfccLips | src/data/mfcc_lips/convert_TFRecord.py:103-179 | pairing, shuffling, splitting, the six conversions and the label file, as `ConvertMfccLipsResult` |
| MfccLipsConvert.ConvertMfccLipsWritesEveryPair | src/data/mfcc_lips/convert_TFRecord.py:103-179 | with the four directories present, the run succeeds exactly when every audio name starts with a capital; the six parts are written in order under their names; 'train_all' and 'validation' hold every pair exactly once, 'validation' `num_val_samples` of them when that is between 1 and the number of pairs; the A..T and U..Z parts hold exactly their half's pairs of those letters; the labels map 0..25 to 'A'..'Z' |
| GestureEmbedding.CheckpointName | multimodal/gesture/embedding.py:79 | a checkpoint name starts with `CAE` and is two characters shorter than the variable name |
| GestureEmbedding.CheckpointNameInjective | multimodal/gesture/embedding.py:79-81 | two variables of the same scope never get the same checkpoint name |
| GestureEmbedding.ScopeVariablesEntries | multimodal/gesture/embedding.py:77-81 | every variable of the scope is in its dictionary under its checkpoint name and is never overwritten; every entry is such a variable |
| GestureEmbedding.ScopeVariablesLookup | multimodal/gesture/embedding.py:77-81 | a key is present exactly when some variable of the scope has that checkpoint name, and it maps back to the scope name followed by the key after `CAE` |
| GestureEmbedding.VariablesSplitByScope | multimodal/gesture/embedding.py:77-81 | a variable is in the colour dictionary exactly when it starts with `Color`, in the depth one exactly when it starts with `Depth`, and never in both |
| GestureEmbedding.GetInitFn | multimodal/gesture/embedding.py:71-94 | unpacking anything but two directories raises `ValueError`; otherwise the loop builds both dictionaries as `ScopeVariables` and looks up both latest checkpoints |
| GestureEmbedding.RestoreColorThenDepth | multimodal/gesture/embedding.py:91-94 | restoring succeeds exactly when both directories hold a checkpoint; the colour variables come first from the colour checkpoint, the depth variables second from the depth checkpoint |
| GestureEmbedding.WriteMetadata | multimodal/gesture/embedding.py:145-151 | the header and the two `enumerate` loops write exactly `MetadataLines` |
| GestureEmbedding.MetadataLinesAt | multimodal/gesture/embedding.py:145-151 | `2n + 1` lines: the header, colour line `i` with index `i`, and depth line `i` with index `i + n`, both with label `i` |
| GestureEmbedding.MetadataLinesSplit | multimodal/gesture/embedding.py:145-151 | the metadata is the header, then the colour line of every sample, then the depth line of every sample |
| GestureEmbedding.RepresentationsMatchMetadata | multimodal/gesture/embedding.py:130 | row `j` of the concatenated representations is the sample and modality described by metadata row `j`, which carries that sample's label |
| GestureEmbedding.RowLineInjective | multimodal/gesture/embedding.py:148-151 | a metadata line determines its index, modality and label |
| GestureEmbedding.MetadataIndexReadsBack | multimodal/gesture/embedding.py:148-151 | each metadata line starts with its index's digits and a tab, and the digits read back as the index |

## Left out

- The TensorFlow graph, sessions, queue runners, savers, `slim` layers, summaries and the projector
  configuration are not modelled. Hooks appear only as recorded calls, the model variables only
  as names, and a restore only as the variables and the checkpoint path it uses.
- `tf.gfile.MakeDirs`, the TFRecord byte format, `read_mat`, `parse_mfcc` and their numerics are
  not modelled. An example records the paths its data comes from.
- A file a shard writer has opened before an exception is not modelled as a partial file. A
  failed conversion is reported as the exception alone.
- Progress output to `sys.stdout` and `tf.logging` is not modelled.
- `random.shuffle`'s generator is not modelled. Its choices are an input (`draws`), read modulo
  the range `randbelow` would use.
- `Sharding.CeilDiv`: computed exactly. `ceil(n / float(k))` would round differently for counts
  beyond 2^53.
- `Evaluation.CeilQuotient`: computed exactly on integers. NumPy's float division and `np.ceil`
  would lose precision for counts beyond 2^53.
- `Evaluation.Evaluate`: argument values are limited to `None`, integers, booleans and strings
  (`Value`). `number_of_steps` is `None` or an integer. Setting an attribute that names a method
  does not change which hook runs. The driver's own parameters cannot appear among the keyword
  arguments, because Python binds them first.
- `Evaluation.Evaluator.Evaluate`: the global step op is a flag and the file writer only its
  directory. `used_arg_scope` is the pair of values passed to `nets_arg_scope`, which is not part
  of this model.
- `GestureEmbedding.GetInitFn`: `tf.train.Saver` raising for an empty variable dictionary is not
  modelled. Unpacking a string of two characters as two directories is not modelled either.
- `GestureEmbedding.WriteMetadata`: the `repr.ckpt` save and the absolute metadata path are not
  modelled.
- The `compute`, `compute_embedding`, loss, summary and `*_log_info` methods of
  `multimodal/gesture/embedding.py` only build graph operations and are not modelled.
- Python default arguments are not modelled as defaults. Every argument is an explicit parameter:
  `convert_lips`'s `sep='user'`, `num_shards=5` and `num_val_samples=None`, and
  `convert_mfcc_lips`'s `num_shards=5` and `num_val_samples=100`, are passed by the caller.
- `multimodal/gesture/basics.py`, `nets_base/arg_scope.py` and `data/dataset_utils.py` are not part
  of this model.
