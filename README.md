# Prototypical-network meta-learning: training controller and episode data preparation

This project models, in Dafny, two sequential pieces of the MetaLearningForNER
repository and proves properties of them.

1. **The prototypical-network controller** (`models/proto_network.py`,
   module `ProtoNetwork` in `proto_network.dfy`). Construction reads a
   configuration, defaults the improvement margin to 0.001 and selects the
   encoder variant by substring tests on the model name, the "online" test
   overriding the "seq" one. `Training` is the early-stopping loop over
   `(epoch, best_f1, best_loss, patience)`. An epoch improves when its
   validation F1 beats `best_f1 + stopping_threshold`. On improvement,
   patience resets, best F1 and loss are taken from the epoch, and a
   checkpoint is written. Otherwise patience grows by one and the loop breaks
   when it equals `early_stopping`. The loop is a `for` loop with a `break`,
   proved equal to a pure fold `Run` over the per-epoch outcomes; every
   property of the loop is a lemma about `Run`. `EpisodicTesting` averages the
   first F1 of each episode. `Testing` concatenates predictions and labels in
   episode order and scores them against the last episode's tags.
2. **Episode data preparation** (`abuse.py`, module `Abuse` in `abuse.dfy`).
   This covers tokenising on a single space and parsing `int(clazz)`. The
   dataset reader skips the header and falls back to `<UNK>`. The vocabulary
   loader gives `<PAD>` id 0, each entry line's word `len(vocab)`, and
   `<UNK>` the last id. `produce_loaders` keeps first-come buckets of at most
   `num_shots + num_test_samples` samples per class and pads them in place on
   arrays. It then splits them into support and query datasets.

The learner is opaque. Its per-epoch validation result enters `Training` as a
sequence of `EpochOutcome(valF1, valLoss)` values. Its per-episode outputs enter
the two testing methods as `LearnerOutput` values. The sequence scorer enters
`Testing` as a function parameter. A checkpoint write is an entry in
`TrainState.saves`: the 0-based epoch at which it happened. Every write goes
to the same file, so after training the file holds the learner as it was at
the last entry. Python exceptions that end a call are `Err` values of a
`Result` (`results.dfy`).

`Training` returns the whole final loop state: `bestF1` is the value the
Python method returns. The other fields (`epochsRun`, `patience`, `saves`,
`stopped`, `bestLoss`) expose what the loop did. The controller's configuration
fields are `const` fields of the class `PrototypicalNetwork`, because the
source sets them once in `__init__` and never reassigns them.

Where the code and the design description differ, the model follows the code:

- A class label is used as a Python list index into the two buckets, so `-1`
  and `-2` select bucket 1 and bucket 0. Only labels outside `-2..1` raise
  the IndexError (`Abuse.BucketIndex`).
- `vocab.get(t, vocab['<UNK>'])` evaluates `vocab['<UNK>']` for every token.
  A vocabulary without `<UNK>` therefore fails on every data row, known
  tokens included (`RowFault.NoUnknownToken`).
- The early-stopping test runs only after patience is incremented. A limit of
  0 or less never stops the loop; the code does not reject it as a
  configuration error.
- The improvement margin `stopping_threshold` is used as given, with no
  check of its sign. Best F1 never decreases only when the margin is
  non-negative (`ProtoNetwork.BestMonotone`); with a negative margin a worse
  epoch can still count as an improvement and lower it
  (`ProtoNetwork.NegativeMarginLowersBest`).
- Training with no selected learner fails at the first epoch (AttributeError),
  before the validation sample size is checked. With `num_meta_epochs <= 0`
  neither check is reached and the result is the initial state (best F1 0).

## Model

| member | source | states |
|---|---|---|
| `ProtoNetwork.PrototypicalNetwork.constructor` | models/proto_network.py:21-36 | fields copied from the configuration; the margin is the configured `stopping_threshold` or 0.001 when absent; a name containing "online" selects the online variant, one containing "seq" but not "online" the plain one, a name with neither selects none |
| `ProtoNetwork.ContainsIffOccurs` | models/proto_network.py:33-36 | the substring test used for model selection holds exactly when the word occurs at some position of the name |
| `ProtoNetwork.SelectionByOccurrence` | models/proto_network.py:33-36 | for every model name: the online variant is selected iff "online" occurs somewhere in it, the plain one iff "seq" occurs and "online" does not, and none iff neither occurs |
| `ProtoNetwork.BothWordsSelectOnline` | models/proto_network.py:33-36 | every name in which both "seq" and "online" occur, at any positions, passes both substring tests and ends with the online variant selected, the later assignment overriding the earlier |
| `ProtoNetwork.PrototypicalNetwork.Training` | models/proto_network.py:40-109 | with at least one epoch: no learner gives AttributeError; a validation pool under 200 episodes gives the sampling error; otherwise the result is the state `Run` reaches after `max(meta_epochs, 0)` epochs |
| `ProtoNetwork.RunConsistent` | models/proto_network.py:41-98 | in every reachable state the saves are increasing, already-run epochs. Best F1 and loss are those of the last save (0 and infinity before any). Patience counts the epochs since the last save. The stop flag means patience reached a positive limit. At most `n` epochs ran, and exactly `n` if not stopped |
| `ProtoNetwork.SaveIffImproved` | models/proto_network.py:86-98 | epoch `e` wrote a checkpoint if and only if its F1 exceeded the best held before it plus the margin |
| `ProtoNetwork.PatienceRule` | models/proto_network.py:86-95 | an improved epoch sets patience to 0 and takes its F1 and loss as best with one more save; any other epoch adds exactly 1 to patience and leaves best values and saves unchanged |
| `ProtoNetwork.BestMonotone` | models/proto_network.py:86-89 | with a non-negative margin, best F1 never decreases from one epoch to a later one |
| `ProtoNetwork.NegativeMarginLowersBest` | models/proto_network.py:86-89 | the margin's sign is never checked: with margin -0.1, F1 0.5 then 0.45 both count as improvements, both epochs are saved, and best F1 falls from 0.5 to 0.45 |
| `ProtoNetwork.BestIsLastSaved` | models/proto_network.py:42-109 | the returned best F1 is the F1 of the last checkpointed epoch, or 0 if no epoch improved; the best loss is that epoch's loss, or infinity |
| `ProtoNetwork.PatienceBounded` | models/proto_network.py:94-98 | with a limit of at least 1, patience never exceeds it, and the loop has stopped exactly when patience equals it |
| `ProtoNetwork.StopsAtFirstReach` | models/proto_network.py:94-98 | every state before the last executed epoch was running, with patience below a positive limit: the break fires the first time patience reaches the limit |
| `ProtoNetwork.NoEarlyStopWhenLimitNonPositive` | models/proto_network.py:51-98 | with a limit of 0 or less the loop never breaks and every allowed epoch runs |
| `ProtoNetwork.ScenarioEarlyStop` | models/proto_network.py:86-98 | limit 3, margin 0.001, F1 0.40, 0.55, 0.54, 0.53, 0.50: after four epochs best 0.55, patience 2, saves at epochs 0 and 1; the fifth epoch reaches patience 3 and stops the loop |
| `ProtoNetwork.PrototypicalNetwork.EpisodicTesting` | models/proto_network.py:111-131 | without a learner it fails (AttributeError); otherwise it returns the arithmetic mean of element 0 of each episode's F1 list, one value per episode in episode order |
| `ProtoNetwork.MeanBounds` | models/proto_network.py:131 | the mean of a non-empty list lies between any lower and upper bound of its elements |
| `ProtoNetwork.MeanSmall` | models/proto_network.py:131 | the mean of one value is that value, and of two values their average |
| `ProtoNetwork.MeanOfThreeEpisodes` | models/proto_network.py:117-131 | episode F1 scores 0.2, 0.6 and 0.7 average to 0.5 |
| `ProtoNetwork.PrototypicalNetwork.Testing` | models/proto_network.py:133-157 | no episodes fail at the scoring call (the loop variable is unbound). With episodes and no learner it is AttributeError. Otherwise predictions and labels are the in-order concatenation of every episode's, and the result is the scorer's F1 on them against the last episode's tags |
| `ProtoNetwork.FlattenBlock` | models/proto_network.py:139-145 | each episode's items form one contiguous block of the concatenation, placed after all earlier episodes' items |
| `ProtoNetwork.FlattenSameLength` | models/proto_network.py:139-145 | equal per-episode lengths give equal concatenated lengths |
| `ProtoNetwork.TestingLengthsAgree` | models/proto_network.py:139-145 | if every episode yields as many predictions as labels, the accumulated predictions and labels have equal length |
| `Abuse.Split` | abuse.py:57-58 | splitting yields at least one token and no token contains the separator |
| `Abuse.JoinSplit` | abuse.py:57-58 | joining the split tokens with the separator restores the text |
| `Abuse.SplitJoin` | abuse.py:57-58 | a non-empty list of separator-free tokens joined with the separator splits back into itself |
| `Abuse.TokenizeRoundTrip` | abuse.py:57-58 | tokenising is never empty and joining with a space restores the text; space-free tokens joined with spaces tokenise back to themselves |
| `Abuse.EmptyTokensKept` | abuse.py:57-58 | two consecutive spaces produce an empty token |
| `Abuse.ParseIntRoundTrip` | abuse.py:74 | every integer written in decimal parses back to itself |
| `Abuse.TokenIds` | abuse.py:76 | one id per token: the token's own id when it is in the vocabulary, `<UNK>`'s id otherwise; every id is a vocabulary value |
| `Abuse.ReadDataset` | abuse.py:61-78 | the first row is never examined. It succeeds iff every later row parses, and then it yields equally many samples and labels, one per later row, in order. Otherwise it reports the first faulty row and its fault |
| `Abuse.DatasetServesAll` | abuse.py:44-54 | every index below the dataset's length (its number of labels) can be fetched exactly when there are at least as many samples as labels |
| `Abuse.FirstWordOfEntry` | abuse.py:133-134 | an embedding line `word v1 v2 ...`, with any leading whitespace, yields its word |
| `Abuse.EntryWordsAt` | abuse.py:129-134 | the k-th inserted word is the first word of line k + 1, the header line being skipped |
| `Abuse.Assign` | abuse.py:126-134 | `<PAD>` and every processed word are keys and nothing else is; ids lie in 0..n; every key other than `<PAD>` has id at least 1; at most n+1 keys |
| `Abuse.WithUnknown` | abuse.py:138-140 | `<UNK>` gets the size of the map before its insertion; other ids are unchanged; the size grows by one unless `<UNK>` was already a key |
| `Abuse.LoadVocab` | abuse.py:120-141 | the first line is skipped. It succeeds iff every later line has a word, and then the ids are those of inserting the words in order, followed by `<UNK>`, and the vocabulary size is the number of keys. Otherwise it reports the first blank line |
| `Abuse.PadIsZero` | abuse.py:126-134 | `<PAD>` keeps id 0 unless some line's word is `<PAD>` |
| `Abuse.DistinctWordsConsecutive` | abuse.py:126-134 | with distinct words other than `<PAD>`, the k-th word gets id k+1 and the map has one key per word plus `<PAD>` |
| `Abuse.DenseIds` | abuse.py:126-140 | with distinct words other than `<PAD>`/`<UNK>`: `<PAD>` is 0, the words are 1..n in file order, `<UNK>` is n+1, the size is n+2, and ids are exactly 0..n+1 with no two words sharing one |
| `Abuse.RepeatedWordCollides` | abuse.py:134 | a word seen again re-assigns itself without growing the map, so the next new word gets the very same id |
| `Abuse.BucketedErrors` | abuse.py:85-86 | bucketing fails iff some paired class is outside -2..1, and the error names the first such pair |
| `Abuse.BucketsFirstCome` | abuse.py:82-89 | each bucket holds the first `num_shots + num_test_samples` samples of its class in input order (all of them if fewer), and `max_len` is the greatest length among the kept samples (0 if none) |
| `Abuse.Padded` | abuse.py:91-94 | padding to `n` gives length `max(len, n)`, keeps the tokens as a prefix and fills the tail with the pad id |
| `Abuse.PadEntry` | abuse.py:91-92 | the inner `while` loop pads one array entry in place and leaves every other entry unchanged |
| `Abuse.PadBuckets` | abuse.py:90-94 | it fails exactly when bucket 1 is shorter than bucket 0. On success every entry of bucket 0 and the same-index entries of bucket 1 are padded, and later entries of bucket 1 are untouched. On failure the entries visited before the IndexError are padded |
| `Abuse.PaddingEqualises` | abuse.py:89-94 | after padding, bucket 0 and its partner entries all have length exactly `max_len`, keep their tokens as a prefix and end in pad ids; entries of bucket 1 beyond bucket 0's length are unchanged |
| `Abuse.SupportAligned` | abuse.py:95-102 | support samples and labels have equal length iff both buckets hold at least `num_shots`; then the first `num_shots` samples come from bucket 0 labelled 0 and the rest from bucket 1 labelled 1 |
| `Abuse.QueryAligned` | abuse.py:103-110 | query samples never outnumber labels, and they line up iff `num_test_samples` is 0 or both buckets are full (a zero count is then rejected by the batching step, which is not modelled) |
| `Abuse.ProduceLoaders` | abuse.py:81-117 | a class outside -2..1 is an IndexError at its first pair. Bucket 1 shorter than bucket 0 is an IndexError during padding. Otherwise the result is the support/query split of the padded buckets |

## Left out

- Tensorboard scalars and histograms, logging, tqdm and coloredlogs: telemetry with no effect on control flow.
- The learner (`SeqPrototypicalNetwork`, `SeqPrototypicalOnlineNetwork`): an opaque encoder whose outputs are inputs of the model. This includes the training-phase call at the start of each epoch and the means computed from it, which only feed telemetry.
- `random.sample`: which validation episodes are drawn is not modelled. Only its failure on a pool smaller than 200 is; the drawn episodes affect only the opaque learner's output.
- `utils.calculate_seqeval_metrics` is not part of this model. In training its F1 is folded into `EpochOutcome.valF1`; in `Testing` it is a function parameter.
- `torch.save` and `load_state_dict`: a save is recorded as an epoch in `TrainState.saves`. The checkpoint path built with `os.path.join` and the load of `Supervised-stable.h5` in episodic testing are file I/O. A missing file's error is not modelled.
- `np.mean` floating-point rounding and NaN. F1 and loss values are Dafny `real`s, and `best_loss`'s initial infinity is `Loss.Infinite`.
- ProtoNetwork.PrototypicalNetwork.EpisodicTesting: requires at least one episode (NumPy returns NaN for an empty mean, which has no `real` counterpart). It also requires every per-episode metric list to be non-empty (the learner returns one value per episode); the IndexError on an empty list is not modelled.
- Abuse.ProduceLoaders: requires `<PAD>` in the vocabulary. The KeyError when padding is needed without it is not modelled; `Abuse.Assign` shows the loaded vocabulary always contains `<PAD>`.
- Abuse.LoadVocab: the embedding values of each entry line are not modelled. The source parses the last `embed_dim` fields with `float()` and stacks them with `torch.stack`, which fail on a non-numeric field (for `["header", "cat"]` it parses the word itself) or on fewer than `embed_dim` values. The model succeeds on such lines whenever they have a first word.
- Abuse.ProduceLoaders: `data.DataLoader` with `batch_size=2*num_shots` or `2*num_test_samples` rejects a batch size of 0 with a ValueError, so a zero `num_shots` or `num_test_samples` fails in the source. The model returns the two datasets in that case.
- ProtoNetwork.PrototypicalNetwork.constructor: the configuration is a record with every field present. A Python configuration dictionary missing `base_path`, `stamp`, `num_updates`, `num_meta_epochs`, `early_stopping` or `meta_model` raises a KeyError, which is not modelled.
- `torch.LongTensor` conversion and `data.DataLoader` batching are left out. Ragged rows (unpadded entries of bucket 1 beyond bucket 0's length) would make the conversion fail; this is not modelled.
- Aliasing: in Python the bucket entries are the caller's own sample lists, so padding also lengthens them. The model pads copies held in the bucket arrays.
- File reading, CSV parsing and line iteration: rows and lines are given as sequences of strings.
- Abuse.ParseInt covers an optional sign followed by ASCII digits. Python's `int()` also accepts surrounding whitespace, underscores between digits and non-ASCII digits.
- Embedding float parsing, `torch.rand`, `torch.stack` and the write of the embeddings and `vocab_size` into the global configuration: floating-point numerics and global state.
- The `__main__` driver, `MetaLearning` and `Baseline` are not part of this model. Neither is `torch.manual_seed`.
