# Verified model of the PrimeQA preprocessing and glue core

This project is a Dafny model of three parts of the PrimeQA / OneQA question-answering toolkit, with proofs about each.

1. **The default MRC preprocessor** (`DefaultPreProcessor` in `oneqa/mrc/processors/preprocessors/default.py`). Its job, step by step:
   - It cleans every question.
   - It expands each (question, contexts) example into one pair per context.
   - It works out which example and which context each tokenized window came from.
   - For training, it labels each window with start/end token positions and an answer type. It then tags negative windows for subsampling and filters them.
   - For evaluation, it masks the offsets of non-context tokens.

   Modules: `PyList`, `MrcTypes`, `MrcExpansion`, `MrcSpans`, `MrcTargets`, `MrcSubsample` and `MrcPreprocessor`.
2. **The MRC-prediction-to-dataset flattener** (`oneqa/boolqa/processors/dataset/mrc2dataset.py`).
   - Its input is an ordered map from example id to a ranked list of prediction records.
   - It optionally unpacks the nested `target_type_logits` and `span_answer` fields of each record.
   - It stamps every record with `order` (its key's position) and `rank` (its position in that key's list).
   - It keeps only the top-ranked rows.

   Module: `Mrc2Dataset`.
3. **ColBERT model-family selection** (`primeqa/ir/dense/colbert_top/colbert/modeling/factory.py`).
   - It holds the `map_model_type` table.
   - It makes the family, maximum-length and class decisions of `get_query_tokenizer`, `get_doc_tokenizer` and `get_colbert_from_pretrained`.
   - `get_colbert_from_pretrained` overwrites `colbert_config.model_type` in place.

   Module: `ColbertFactory`.

The model renders each part of the code in the form the source gives it:
- The loops of the source are `method`s with loop invariants. Each is proved equal to a specification function, and the properties are proved about those functions as lemmas.
- `_create_eval_targets` rewrites an `array` of offset lists in place.
- `unpack_target_type` and `unpack_span_answer` mutate a `Row` object's field map.
- `read_mrc_inner` stamps each record through a `Row` object (`StampRow`, which calls the two unpack methods) and writes it back into the records held by a `Predictions` object.
- `get_colbert_from_pretrained` updates a `ColBERTConfig` object.
- `_spans_intersect`, `_keep_feature`, `map_model_type` and the query-style filter are pure functions.

Python behaviour the source relies on is written out:
- negative list indexing and `IndexError`;
- `list.index` raising `ValueError`;
- `str.lstrip` and slicing with a negative bound;
- `KeyError`/`TypeError` on JSON values;
- first-error-wins for exceptions raised while a generator is consumed.

Module `Wrappers` holds the `Result`/`Option` types used for error paths.

Inputs that come from libraries outside the core become parameters:
- The tokenizer's output (`Encoding`), including `sequence_ids(i)` and `overflow_to_sample_mapping`.
- The values drawn by `random.random()` (`draw: nat -> real`).
- The loaded `.dnn` checkpoint (`DnnCheckpoint`).
- The hub config's `model_type` (`hubModelType`).

## Model

| member | source | states |
|---|---|---|
| PyList.Normalize | oneqa/mrc/processors/preprocessors/default.py:225-226 | The position a Python index in range denotes: itself if non-negative, otherwise counted from the end. |
| PyList.At | oneqa/mrc/processors/preprocessors/default.py:225 | `s[k]` succeeds iff `-len(s) <= k < len(s)`: a non-negative `k` gives `s[k]`, a negative one the element `-k` places from the end (`s[len(s)+k]`); any other `k` raises IndexError. |
| PyList.IndexOf | oneqa/mrc/processors/preprocessors/default.py:153 | `list.index`: Ok iff the value occurs; the result holds it and no earlier position does; otherwise ValueError. |
| PyList.Prefix | oneqa/mrc/processors/preprocessors/default.py:89 | `s[:n]` is a prefix of `s` of length `min(n, len)` for `n >= 0`, and drops `-n` elements (to no less than empty) for `n < 0`. |
| PyList.LastIndexOf | oneqa/mrc/processors/preprocessors/default.py:177-179 | The last position holding a value exists iff the value occurs, and no later position holds it. |
| MrcExpansion.LStrip | oneqa/mrc/processors/preprocessors/default.py:89 | `lstrip` returns a suffix, everything removed is whitespace, and the result does not start with whitespace. |
| MrcExpansion.CleanQuestionProperties | oneqa/mrc/processors/preprocessors/default.py:89 | A cleaned question is a prefix of the stripped question, starts with no whitespace, has at most `max_q_char_len` characters, and is the whole stripped question when that fits. |
| MrcExpansion.ExpandedLengths | oneqa/mrc/processors/preprocessors/default.py:92-100 | The expanded index list and the flattened context list both have length equal to the total number of contexts. |
| MrcExpansion.ExpandedIndexBlock | oneqa/mrc/processors/preprocessors/default.py:94-100 | Expanded position `p` is tagged with a valid example `k`, lies within that example's block, and holds that example's context at the matching offset. |
| MrcExpansion.ExpandedIndicesSorted | oneqa/mrc/processors/preprocessors/default.py:94-99 | The expanded example indices are non-decreasing. |
| MrcExpansion.ExpandedIndexOfBlock | oneqa/mrc/processors/preprocessors/default.py:94-99 | Every position inside example `k`'s block is tagged `k`. |
| MrcExpansion.BaseMonotone | oneqa/mrc/processors/preprocessors/default.py:94-99 | Later examples start no earlier in the expanded lists. |
| MrcExpansion.ExpandExamples | oneqa/mrc/processors/preprocessors/default.py:91-100 | Fails iff single-context mode is set and some example has other than one context. On success the index list is the expansion and every expanded question equals the (already cleaned) question of the example it is tagged with. |
| MrcSpans.RunStart | oneqa/mrc/processors/preprocessors/default.py:312 | The start of the maximal run of equal values containing `i`: every value from it to `i` is equal and the value before it differs. |
| MrcSpans.GeneratePreviousSpansPerExample | oneqa/mrc/processors/preprocessors/default.py:310-319 | The group loop yields exactly one value per window, and window `i` gets `sample_mapping` at the first position of its run. |
| MrcSpans.ContextIndexZeroAtRunStart | oneqa/mrc/processors/preprocessors/default.py:119-120 | The first window of each example has context index 0. |
| MrcSpans.ContextIndicesNonNegative | oneqa/mrc/processors/preprocessors/default.py:119-120 | A non-decreasing sample mapping gives non-negative context indices. |
| MrcSpans.WindowsSorted | oneqa/mrc/processors/preprocessors/default.py:102-110 | A tokenizer that numbers its windows in input order produces a non-decreasing sample mapping. |
| MrcSpans.ContextIndexIsPositionInExample | oneqa/mrc/processors/preprocessors/default.py:112-120 | For such a tokenizer, a window's context index is the position, within its example, of the context it was cut from. |
| MrcTargets.SpansIntersectSymmetric | oneqa/mrc/processors/preprocessors/default.py:351-354 | `_spans_intersect` does not depend on the order of its arguments. |
| MrcTargets.SpansIntersectIffOverlap | oneqa/mrc/processors/preprocessors/default.py:351-354 | For well-formed closed intervals it holds iff `max(a0, b0) <= min(a1, b1)`. |
| MrcTargets.ClsIndex | oneqa/mrc/processors/preprocessors/default.py:153 | `cls_index` is the first position of the CLS token; a ValueError if it is absent. |
| MrcTargets.ContextStart | oneqa/mrc/processors/preprocessors/default.py:172-174 | The upward scan stops at the first context token; if there is none it runs off the list (IndexError). |
| MrcTargets.ContextEnd | oneqa/mrc/processors/preprocessors/default.py:177-179 | The downward scan stops at the last context token. |
| MrcTargets.ScanToAnswerStart | oneqa/mrc/processors/preprocessors/default.py:222-223 | The scan stops at the first index at or after the start whose start offset exceeds `start_char`, or at `len(offsets)`. |
| MrcTargets.ScanToAnswerEnd | oneqa/mrc/processors/preprocessors/default.py:225-226 | The scan stops at the last index at or before the end whose end offset is below `end_char`. Negative indices wrap as in Python, and running past `-len` raises. |
| MrcTargets.WindowLabelCases | oneqa/mrc/processors/preprocessors/default.py:181-228 | The four label cases, once inputs are readable: (1) a passage or yes/no answer sets both positions to CLS with type YES/NO/PASSAGE_ANSWER; (2) no passage or no answer gives CLS with NO_ANSWER; (3) an answer outside the window gives CLS with PASSAGE_ANSWER; (4) otherwise the positions are one before the start scan and one after the end scan, with type SPAN_ANSWER; the end scan raises IndexError exactly when no index from the last context token down to `-len(offsets)` ends before the answer's end. |
| MrcTargets.FindContextBounds | oneqa/mrc/processors/preprocessors/default.py:171-179 | The two while-loops find the first and the last context token, and fail exactly when there is none. |
| MrcTargets.ScanAnswer | oneqa/mrc/processors/preprocessors/default.py:222-227 | The two answer loops stop where `ScanToAnswerStart` and `ScanToAnswerEnd` say. |
| MrcTargets.LabelWindow | oneqa/mrc/processors/preprocessors/default.py:150-228 | The loop body labels one window exactly as `WindowLabel` specifies. |
| MrcTargets.CreateTrainTargets | oneqa/mrc/processors/preprocessors/default.py:135-230 | Succeeds iff every window can be labelled, giving one start, end and type per window, each equal to that window's label. Otherwise it fails with the error of the first window that fails. |
| MrcTargets.MaskOffsetsMeaning | oneqa/mrc/processors/preprocessors/default.py:241-244 | Masking keeps the length; entry `k` becomes None iff its sequence id is not the context's, and otherwise is unchanged. |
| MrcTargets.CreateEvalTargets | oneqa/mrc/processors/preprocessors/default.py:232-246 | Every window's offset list in the array is replaced by its masked version. |
| MrcTargets.LabelFeaturesForSubsampling | oneqa/mrc/processors/preprocessors/default.py:248-273 | Unchanged when both probabilities are 1. Otherwise one type per window: POSITIVE iff the type is not NO_ANSWER; among negatives, NEGATIVE_HAS_ANSWER iff the example's first passage index is not -1. |
| MrcSubsample.KeepFeatureProperties | oneqa/mrc/processors/preprocessors/default.py:287-295 | POSITIVE is always kept; with both probabilities 0 only positives are kept; a probability of at least 1 keeps every negative of its kind. |
| MrcSubsample.KeepIndices | oneqa/mrc/processors/preprocessors/default.py:279 | The kept positions are strictly increasing, in range, and contain `i` iff feature `i` is kept. |
| MrcSubsample.KeepIndicesAll | oneqa/mrc/processors/preprocessors/default.py:279 | When every feature is kept, the kept positions are all positions in order. |
| MrcSubsample.Select | oneqa/mrc/processors/preprocessors/default.py:281 | `select` returns a rectangular table with one row per kept position. |
| MrcSubsample.SelectColumnAll | oneqa/mrc/processors/preprocessors/default.py:281 | Selecting every position in order gives back the column. |
| MrcSubsample.SelectAll | oneqa/mrc/processors/preprocessors/default.py:281 | Selecting every row in order gives back the table. |
| MrcSubsample.SubsampleFeatures | oneqa/mrc/processors/preprocessors/default.py:275-285 | The table is returned unchanged when both probabilities are 1. Otherwise the kept rows come back in order without `subsample_type`, and the only error is "no features remaining". |
| MrcSubsample.SubsampleFeaturesRows | oneqa/mrc/processors/preprocessors/default.py:279-283 | Subsampling raises "no features remaining" iff no feature passes `_keep_feature`. |
| MrcSubsample.KeepIndicesPositives | oneqa/mrc/processors/preprocessors/default.py:279-289 | Every POSITIVE feature is among the kept positions, whatever the random draws. |
| MrcSubsample.SubsampleFeaturesAllKept | oneqa/mrc/processors/preprocessors/default.py:276-284 | When every row is kept, only the `subsample_type` column is dropped. |
| MrcSubsample.SubsampleKeepsPositive | oneqa/mrc/processors/preprocessors/default.py:279-289 | A table with a POSITIVE row survives subsampling, whatever the random draws, and that row is among those kept. |
| MrcSubsample.SubsampleFeaturesColumns | oneqa/mrc/processors/preprocessors/default.py:275-285 | A subsampled table is rectangular and has the same columns as the table, except that `subsample_type` is dropped when rows were drawn; it then has at least one row, and each of its example indices is one of the table's. |
| MrcPreprocessor.LocalExampleIdx | oneqa/mrc/processors/preprocessors/default.py:112 | One batch-local example index per window, each a valid row of the batch. |
| MrcPreprocessor.LabelledWindowHasPassageIndex | oneqa/mrc/processors/preprocessors/default.py:162 | A window that gets a label has read its example's first passage index, so that example has at least one. |
| MrcPreprocessor.TrainColumns | oneqa/mrc/processors/preprocessors/default.py:122-124 | The training branch fails iff some window cannot be labelled, with the error of the first failing window; classifying the labelled windows for subsampling never raises. On success every window's label and its POSITIVE / NEGATIVE_HAS_ANSWER category are given. |
| MrcPreprocessor.ProcessBatch | oneqa/mrc/processors/preprocessors/default.py:83-133 | Fails iff the single-context check fails or, for training, labelling fails; the error is the first one raised. On success the table is `BatchTable` (see the list after this table). |
| MrcPreprocessor.BatchTableShape | oneqa/mrc/processors/preprocessors/default.py:112-133 | A batch table of the whole dataset is rectangular, has no sample-mapping column, has the training columns iff training, and its example indices are rows of the dataset; a window with an answer is a POSITIVE row. |
| MrcPreprocessor.SubsampledBatchTable | oneqa/mrc/processors/preprocessors/default.py:79-80 | Subsampling such a training table succeeds whenever some window has an answer. Its result keeps the table's columns apart from `subsample_type`, has at least one row when rows were drawn, and its example indices are rows of the dataset. |
| MrcPreprocessor.Process | oneqa/mrc/processors/preprocessors/default.py:63-81 | An empty dataset raises ValueError, and a multi-context example in single-context mode raises ValueError. A training call with a window that cannot be labelled fails with the error of the first such window. Otherwise the examples come back unchanged with a table that is `SubsampleFeatures` of the batch table for training, and the batch table itself for evaluation. A non-empty evaluation call that passes the single-context check always succeeds. A training call whose windows are all labelled succeeds when some window has an answer, and otherwise can fail only with "no features remaining". Every example index is valid. |
| Mrc2Dataset.LogitKeyInjective | oneqa/boolqa/processors/dataset/mrc2dataset.py:50 | Distinct target types give distinct `target_type_logits_<t>` keys, all different from `target_type_logits` itself. |
| Mrc2Dataset.ElementAt | oneqa/boolqa/processors/dataset/mrc2dataset.py:51 | `v[k]` on a JSON value: an element of a list or a one-character string, IndexError past the end, KeyError on an object, TypeError on anything else. |
| Mrc2Dataset.MemberOf | oneqa/boolqa/processors/dataset/mrc2dataset.py:60-61 | `v[key]` on a JSON value: the member of an object, KeyError if absent, TypeError on a non-object. |
| Mrc2Dataset.AddLogitColumnsOk | oneqa/boolqa/processors/dataset/mrc2dataset.py:49-51 | The per-type loop succeeds iff the logits value can be indexed at 0..4. |
| Mrc2Dataset.AddLogitColumnsKeys | oneqa/boolqa/processors/dataset/mrc2dataset.py:49-51 | The loop adds exactly the remaining logit keys and leaves every other key's value unchanged. |
| Mrc2Dataset.AddLogitColumnsValues | oneqa/boolqa/processors/dataset/mrc2dataset.py:49-51 | The key of type `t` holds `ttlogits[int(t)]`. |
| Mrc2Dataset.UnpackedTargetTypeMeaning | oneqa/boolqa/processors/dataset/mrc2dataset.py:41-53 | Succeeds iff the row has `target_type_logits` and it is indexable. The keys become the old keys plus one `target_type_logits_<t>` per type, holding `ttlogits[int(t)]`. `target_type_logits` and every other field are kept. |
| Mrc2Dataset.UnpackTargetType | oneqa/boolqa/processors/dataset/mrc2dataset.py:41-53 | The row's map is updated in place to the unpacked record, or the error is raised. Either way no field other than the logit keys changes. |
| Mrc2Dataset.UnpackedSpanAnswerMeaning | oneqa/boolqa/processors/dataset/mrc2dataset.py:55-63 | Succeeds iff `span_answer` is an object with both positions. Then `span_answer` is removed, the two position keys hold its inner values, and every other field is unchanged. |
| Mrc2Dataset.UnpackSpanAnswer | oneqa/boolqa/processors/dataset/mrc2dataset.py:55-63 | The row's map is updated in place to the unpacked record, or the error is raised. On failure no field other than the start-position key has changed (it is written before the end position is read). |
| Mrc2Dataset.StampRecordMeaning | oneqa/boolqa/processors/dataset/mrc2dataset.py:95-99 | A stamped record has `order` and `rank` set, and its keys are those of the (unpacked, if asked) record plus `order` and `rank`. Without unpacking, it is the input record with only those two fields set. |
| Mrc2Dataset.StampListAt | oneqa/boolqa/processors/dataset/mrc2dataset.py:94-100 | The records from one key keep their count and order, and record `j` is stamped with rank `j`. |
| Mrc2Dataset.StampListLength | oneqa/boolqa/processors/dataset/mrc2dataset.py:94-100 | One output record per input record of a key. |
| Mrc2Dataset.ReadFromAt | oneqa/boolqa/processors/dataset/mrc2dataset.py:92-100 | Record `k` of key `o'` is emitted after all records of earlier keys, with `order == o'` and `rank == k`. |
| Mrc2Dataset.ReadFromLength | oneqa/boolqa/processors/dataset/mrc2dataset.py:92-100 | One emitted record per input record. |
| Mrc2Dataset.TopRankedAppend | oneqa/boolqa/processors/dataset/mrc2dataset.py:102 | The `rank==0` query distributes over concatenation. |
| Mrc2Dataset.NonEmptyKeys | oneqa/boolqa/processors/dataset/mrc2dataset.py:93-94 | The positions of keys with non-empty lists, strictly increasing and complete. |
| Mrc2Dataset.TopRankedStampList | oneqa/boolqa/processors/dataset/mrc2dataset.py:94-102 | Of one key's stamped records only the first survives the filter. |
| Mrc2Dataset.TopRankedReadFrom | oneqa/boolqa/processors/dataset/mrc2dataset.py:92-102 | Filtering all emitted records to rank 0 gives the first record of each non-empty key, in key order. |
| Mrc2Dataset.FirstsAt | oneqa/boolqa/processors/dataset/mrc2dataset.py:92-102 | The `j`-th top-ranked row is the first record of the `j`-th non-empty key. |
| Mrc2Dataset.FirstsLength | oneqa/boolqa/processors/dataset/mrc2dataset.py:92-102 | One top-ranked row per non-empty key. |
| Mrc2Dataset.TopRankedRows | oneqa/boolqa/processors/dataset/mrc2dataset.py:92-103 | The filtered rows number the non-empty keys. Row `j` is the stamped first record of the `j`-th non-empty key, with `order` that key's position and `rank` 0, so empty keys contribute nothing and rows come in increasing order. |
| Mrc2Dataset.StampRow | oneqa/boolqa/processors/dataset/mrc2dataset.py:95-99 | One record is unpacked (if asked) and stamped in place; its final map is the stamped record, or the error is raised. |
| Mrc2Dataset.StampExample | oneqa/boolqa/processors/dataset/mrc2dataset.py:94-100 | The inner loop stamps one key's records in place, one `StampRow` call per record. A successful pass leaves that list equal to its stamped version, and no other list changes. |
| Mrc2Dataset.ReadMrcInner | oneqa/boolqa/processors/dataset/mrc2dataset.py:92-100 | The generator yields exactly the specified sequence of stamped records, or raises the first error. On success every list in the container has been stamped in place. |
| Mrc2Dataset.CreateDatasetFromJsonStr | oneqa/boolqa/processors/dataset/mrc2dataset.py:80-104 | The first unpacking error is raised. A prediction set with no records has no `rank` column and fails the query. Otherwise the result is the rank-0 rows of all emitted records. |
| ColbertFactory.MapModelType | primeqa/ir/dense/colbert_top/colbert/modeling/factory.py:22-37 | Succeeds iff the subtype is in the table, and then returns one of `bert`, `roberta`, `xlm-roberta`; otherwise the assertion fails naming the subtype. |
| ColbertFactory.MapModelTypeIdempotent | primeqa/ir/dense/colbert_top/colbert/modeling/factory.py:23-33 | Every value the table returns maps to itself. |
| ColbertFactory.MapModelTypeByPrefix | primeqa/ir/dense/colbert_top/colbert/modeling/factory.py:23-33 | A subtype maps to family `f` iff it is `f`, `f-base` or `f-large`. |
| ColbertFactory.FamilyOf | primeqa/ir/dense/colbert_top/colbert/modeling/factory.py:72-91 | The if-chain recognises a model type iff it is the name of a supported family. |
| ColbertFactory.MappedTypeIsSupported | primeqa/ir/dense/colbert_top/colbert/modeling/factory.py:63-91 | Every mapped type is recognised by the if-chain, so the NotImplementedError branch is unreachable after mapping. |
| ColbertFactory.EndsWithMeaning | primeqa/ir/dense/colbert_top/colbert/modeling/factory.py:48 | `endswith` holds iff the string is some prefix followed by the suffix. |
| ColbertFactory.GetColbertFromPretrained | primeqa/ir/dense/colbert_top/colbert/modeling/factory.py:42-93 | Succeeds iff the checkpoint type is found and mapped. Then `colbert_config.model_type` equals the mapped type, the encoder class is that family's, and construction is from the config and state dict exactly when a config was found. On failure the model type is unchanged. No other config field changes. |
| ColbertFactory.GetQueryTokenizer | primeqa/ir/dense/colbert_top/colbert/modeling/factory.py:96-110 | Succeeds iff the config's model type maps. Then the tokenizer family is the mapped one, maxlen is `query_maxlen`, and `attend_to_mask_tokens` is passed (from the config) exactly for `bert`. |
| ColbertFactory.GetDocTokenizer | primeqa/ir/dense/colbert_top/colbert/modeling/factory.py:113-126 | Succeeds iff the config's model type maps. Then the family is the mapped one, and maxlen is `teacher_doc_maxlen` iff `is_teacher`, else `doc_maxlen`. |

`MrcPreprocessor.ProcessBatch` raises for a multi-context example in single-context mode, and otherwise always succeeds for evaluation; for training it succeeds iff `TrainBatchLabelled` holds: every window gets a label (which also means every window's example has a passage index, so the subsampling categories cannot raise). On success the table it returns satisfies `BatchTable`, which states:
- It has one row per window.
- `overflow_to_sample_mapping` is removed.
- `example_idx[i]` is `indices[local example index]`, and `example_id` is that example's id.
- `context_idx` is present iff not in single-context mode, and then equals the mapping minus the previous-spans value.
- Evaluation offsets are masked.
- Training labels are the window labels.
- `subsample_type` is present iff training and not keeping all features. It is POSITIVE iff the target type is not NO_ANSWER, and NEGATIVE_HAS_ANSWER iff the type is NO_ANSWER and the example's first passage index is not -1.

It is cited as oneqa/mrc/processors/preprocessors/default.py:83-133.

## Left out

- The tokenizer call (default.py:102-110) is an input. Its output (`input_ids`, offsets, sequence ids, sample mapping) is given, with the guarantees the code relies on stated as `WellFormedEncoding`.
- `Dataset.map` is modelled as one call of `_process_batch` on the whole dataset with `indices` `0..n-1`. Batching, `num_proc` and the cache are not modelled.
- The `isinstance(examples_question, str)` wrapping of a single pair (default.py:86-88) is not modelled: batches are always lists.
- `adapt_dataset`, `_insert_example_ids` and the UUIDs they generate (default.py:37-55) are not modelled. Example ids are part of the input batch.
- `validate_schema`, logging and `print_message` have no effect on the modelled results and are left out.
- `random.random()` is the parameter `draw: nat -> real`, giving the value drawn for feature `i`. The real draw order for negatives only is not modelled.
- The sampling probabilities are compared as reals, so float rounding is not modelled.
- `TargetType`, `SubsampleType` and `TargetType.from_bool_label` live in files that are not part of this model. The model assumes:
  - the member order NO_ANSWER, SPAN_ANSWER, PASSAGE_ANSWER, YES, NO, with values 0..4;
  - `str(t)` rendered as the member name, as an abstraction. What `str(t)` really gives depends on how `TargetType` is declared and on the Python version: for an `IntEnum`, Python 3.11 and later give the value (`0`) and earlier versions give `TargetType.NO_ANSWER`. The properties proved need only that distinct types give distinct keys (`LogitKeyInjective`), which holds under each of these renderings.
- `Dataset.select([])` is assumed to raise IndexError, which `subsample_features` turns into its "No features remaining" error.
- The pandas `DataFrame` built from records is left out: the union of columns, NaN filling and `Dataset.from_pandas`. The result is the list of row maps that the `rank==0` query keeps.
- Mrc2Dataset.CreateDatasetFromJsonStr: the parameter called `json_str` is used as an already-parsed ordered dict (`.items()`), and the model takes it that way. JSON values that are not lists of objects are not modelled.
- `create_dataset_from_run_mrc_output` (mrc2dataset.py:66-78) only reads a file and calls the modelled function. File reading, argparse and `main` are left out.
- `main` (mrc2dataset.py:111) calls `create_dataset_from_run_mrc_output` with one argument where two are required, so it would raise TypeError as written.
- Floating-point logits and other numbers are opaque JSON payloads.
- Mrc2Dataset.ReadMrcInner: after an exception, the records of lists already stamped stay mutated in the source. The model does not state the container's partial state on error.
- Mrc2Dataset.StampExample: the same applies; the partial state on error is not stated.
- `torch_load_dnn` and `AutoConfig.from_pretrained` are inputs: the checkpoint's `config` and `model_type` entries, and the hub config's `model_type`.
- The `PretrainedConfig` manipulation (the `model_type` attribute deletion and the `hidden_size` fixup, factory.py:52-56) is left out.
- The `HF_ColBERT*` and tokenizer constructors, `from_pretrained` and `load_state_dict` are modelled only as tags: the class chosen and whether it is built from a config and state dict or from the name.
- The "Using model type" log message in `get_colbert_from_pretrained` is left out. The assignment at factory.py:65-67 is modelled as the source writes it: only when the mapped type differs from the configured one.
- MrcPreprocessor.WrapOffsets: offsets are stored as optional pairs so that the evaluation masking can write None.
- The tokenizer's `attention_mask` and `token_type_ids` columns are not modelled. `_process_batch` passes them through untouched, and no modelled step reads them.
