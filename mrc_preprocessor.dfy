/** `DefaultPreProcessor._process_batch` and `_process` (default.py:63-133):
    the whole path from a batch of examples, through the tokenizer's answer for
    the expanded pairs, to the feature table. */
module MrcPreprocessor {
  import opened Wrappers
  import PyList
  import opened MrcTypes
  import opened MrcExpansion
  import opened MrcSpans
  import opened MrcTargets
  import opened MrcSubsample

  /** The tokenizer's offsets as stored in the table (a tuple is never None). */
  function WrapOffsets(o: seq<Offset>): (r: seq<Option<Offset>>)
    ensures |r| == |o| && forall k :: 0 <= k < |o| ==> r[k] == Some(o[k])
  {
    seq(|o|, k requires 0 <= k < |o| => Some(o[k]))
  }

  /** What `_process_batch` needs of its inputs: the batch's columns agree in
      length (`target` and `passage_answer_candidates` only matter for
      training), `indices` gives every row its position in the dataset, and
      `enc` is the tokenizer's answer for the expanded pairs. */
  predicate BatchInputs(batch: Batch, indices: seq<int>, isTrain: bool, enc: Encoding) {
    && |batch.context| == |batch.question|
    && |batch.exampleId| == |batch.question|
    && |indices| == |batch.question|
    && (isTrain ==> |batch.target| == |batch.question| && |batch.passageAnswerCandidates| == |batch.question|)
    && WellFormedEncoding(enc, TotalContexts(batch.context))
  }

  /** The example (row of the batch) each window belongs to. */
  function LocalExampleIdx(batch: Batch, enc: Encoding): (r: seq<int>)
    requires WellFormedEncoding(enc, TotalContexts(batch.context))
    ensures |r| == |enc.overflowToSampleMapping|
    ensures forall i :: 0 <= i < |r| ==> 0 <= r[i] < |batch.context|
  {
    ExpandedLengths(batch.context);
    forall p | 0 <= p < TotalContexts(batch.context)
      ensures 0 <= ExpandedIndices(batch.context)[p] < |batch.context|
    {
      ExpandedIndexBlock(batch.context, p);
    }
    ExampleIndices(ExpandedIndices(batch.context), enc.overflowToSampleMapping)
  }

  /** The `context_idx` column `_process_batch` computes: none in
      single-context mode, otherwise each window's sample index minus the
      sample index at the start of its example's run of windows. */
  function BatchContextIdx(cfg: Config, batch: Batch, enc: Encoding): (c: Option<seq<int>>)
    requires WellFormedEncoding(enc, TotalContexts(batch.context))
    ensures c.Some? <==> !cfg.singleContextMultiplePassages
    ensures c.Some? ==> |c.value| == |enc.inputIds|
  {
    if cfg.singleContextMultiplePassages then None
    else
      var e := LocalExampleIdx(batch, enc);
      Some(ContextIndices(enc.overflowToSampleMapping, PreviousSpans(e, enc.overflowToSampleMapping)))
  }

  /** What labelling the windows of a training batch needs of its inputs. */
  predicate TrainBatchInputs(batch: Batch, enc: Encoding) {
    && |batch.context| == |batch.question|
    && |batch.target| == |batch.question|
    && |batch.passageAnswerCandidates| == |batch.question|
    && WellFormedEncoding(enc, TotalContexts(batch.context))
  }

  /** The label `_create_train_targets` computes for window `i` of a batch. */
  function BatchLabel(cfg: Config, batch: Batch, enc: Encoding, i: nat): Result<Label, PreprocessError>
    requires TrainBatchInputs(batch, enc) && i < |enc.inputIds|
  {
    WindowLabelAt(cfg, enc, batch.target, batch.passageAnswerCandidates,
                  LocalExampleIdx(batch, enc), BatchContextIdx(cfg, batch, enc), i)
  }

  /** Labelling a training batch raises nothing: every window gets a label. */
  predicate TrainBatchLabelled(cfg: Config, batch: Batch, enc: Encoding)
    requires TrainBatchInputs(batch, enc)
  {
    forall i :: 0 <= i < |enc.inputIds| ==> BatchLabel(cfg, batch, enc, i).Ok?
  }

  /** A window that gets a label has read its example's first passage index
      (default.py:162), so `label_features_for_subsampling`, which reads the
      same index for NO_ANSWER windows, cannot raise after a successful
      labelling. */
  lemma LabelledWindowHasPassageIndex(cfg: Config, batch: Batch, enc: Encoding, i: nat)
    requires TrainBatchInputs(batch, enc) && i < |enc.inputIds|
    requires BatchLabel(cfg, batch, enc, i).Ok?
    ensures |batch.target[LocalExampleIdx(batch, enc)[i]].passageIndices| > 0
  {
    var t := batch.target[LocalExampleIdx(batch, enc)[i]];
    assert Get(t.passageIndices, 0).Ok?;
  }

  /** `f` is the table `_process_batch` returns: one row per window and no
      `overflow_to_sample_mapping` column; `example_idx` is the dataset index
      and `example_id` the id of the window's example; `context_idx` is present
      unless `_single_context_multiple_passages` is set; training tables carry
      every window's label and (unless both sampling probabilities are 1) its
      subsampling category, evaluation tables carry the offsets masked to the
      context. */
  predicate BatchTable(cfg: Config, batch: Batch, indices: seq<int>, isTrain: bool, enc: Encoding, f: Features)
    requires BatchInputs(batch, indices, isTrain, enc)
  {
    && f.Rectangular() && f.Rows() == |enc.inputIds|
    && f.inputIds == enc.inputIds && f.overflowToSampleMapping.None?
    && (forall i :: 0 <= i < |enc.inputIds| ==>
          && f.exampleIdx[i] == indices[LocalExampleIdx(batch, enc)[i]]
          && f.exampleId[i] == batch.exampleId[LocalExampleIdx(batch, enc)[i]])
    && f.contextIdx == BatchContextIdx(cfg, batch, enc)
    && (!isTrain ==> forall i :: 0 <= i < |enc.inputIds| ==>
          f.offsetMapping[i] == MaskOffsets(WrapOffsets(enc.offsetMapping[i]), enc.sequenceIds[i], ContextSequenceId(cfg)))
    && (isTrain ==> forall i :: 0 <= i < |enc.inputIds| ==>
          f.offsetMapping[i] == WrapOffsets(enc.offsetMapping[i]))
    && (f.targetType.Some? <==> isTrain)
    && (f.startPositions.Some? <==> isTrain) && (f.endPositions.Some? <==> isTrain)
    && (isTrain ==> forall i :: 0 <= i < |enc.inputIds| ==>
          var l := BatchLabel(cfg, batch, enc, i);
          && l.Ok?
          && f.startPositions.value[i] == l.value.startPosition
          && f.endPositions.value[i] == l.value.endPosition
          && f.targetType.value[i] == l.value.targetType)
    && (f.subsampleType.Some? <==> isTrain && !SubsampleAllFeatures(cfg))
    && (f.subsampleType.Some? ==> forall i :: 0 <= i < |enc.inputIds| ==>
          && (f.subsampleType.value[i] == Positive <==> f.targetType.value[i] != NoAnswer)
          && (f.subsampleType.value[i] == NegativeHasAnswer <==>
                var pi := batch.target[LocalExampleIdx(batch, enc)[i]].passageIndices;
                f.targetType.value[i] == NoAnswer && |pi| > 0 && pi[0] != -1))
  }

  /** The training branch of `_process_batch`: `_create_train_targets`, then
      `label_features_for_subsampling`. It fails iff some window cannot be
      labelled, with the error of the first such window (the subsampling
      labels cannot fail once every window is labelled); on success it gives
      every window's label and (unless both sampling probabilities are 1) its
      subsampling category. */
  method TrainColumns(cfg: Config, batch: Batch, enc: Encoding)
    returns (r: Result<(TrainTargets, Option<seq<SubsampleType>>), PreprocessError>)
    requires TrainBatchInputs(batch, enc)
    ensures r.Ok? <==> TrainBatchLabelled(cfg, batch, enc)
    ensures r.Ok? ==>
      && |r.value.0.startPositions| == |enc.inputIds|
      && |r.value.0.endPositions| == |enc.inputIds|
      && |r.value.0.targetType| == |enc.inputIds|
    ensures r.Ok? ==> forall i :: 0 <= i < |enc.inputIds| ==>
      var l := BatchLabel(cfg, batch, enc, i);
      && l.Ok?
      && r.value.0.startPositions[i] == l.value.startPosition
      && r.value.0.endPositions[i] == l.value.endPosition
      && r.value.0.targetType[i] == l.value.targetType
    ensures r.Ok? ==> (r.value.1.Some? <==> !SubsampleAllFeatures(cfg))
    ensures r.Ok? && r.value.1.Some? ==> |r.value.1.value| == |enc.inputIds| && forall i :: 0 <= i < |enc.inputIds| ==>
      && (r.value.1.value[i] == Positive <==> r.value.0.targetType[i] != NoAnswer)
      && (r.value.1.value[i] == NegativeHasAnswer <==>
            var pi := batch.target[LocalExampleIdx(batch, enc)[i]].passageIndices;
            r.value.0.targetType[i] == NoAnswer && |pi| > 0 && pi[0] != -1)
    ensures r.Err? ==> exists i :: FirstFailingWindow(cfg, enc, batch.target, batch.passageAnswerCandidates,
                                                     LocalExampleIdx(batch, enc), BatchContextIdx(cfg, batch, enc), i, r.error)
  {
    var exampleIdx := LocalExampleIdx(batch, enc);
    var contextIdx := BatchContextIdx(cfg, batch, enc);
    var targets := CreateTrainTargets(cfg, enc, batch.target, batch.passageAnswerCandidates, exampleIdx, contextIdx);
    if targets.Err? {
      var j :| 0 <= j < |enc.inputIds| && !WindowLabelAt(cfg, enc, batch.target, batch.passageAnswerCandidates, exampleIdx, contextIdx, j).Ok?;
      assert !BatchLabel(cfg, batch, enc, j).Ok?;
      return Err(targets.error);
    }
    var t := targets.value;
    assert forall i :: 0 <= i < |enc.inputIds| ==> BatchLabel(cfg, batch, enc, i).value.targetType == t.targetType[i];
    forall i | 0 <= i < |enc.inputIds|
      ensures |batch.target[exampleIdx[i]].passageIndices| > 0
    {
      LabelledWindowHasPassageIndex(cfg, batch, enc, i);
    }
    var types := LabelFeaturesForSubsampling(cfg, t.targetType, exampleIdx, batch.target);
    assert types.Ok?;
    r := Ok((t, types.value));
  }

  /** `_process_batch`. It fails iff the single-context check fails or, for
      training, some window cannot be labelled; the error is the first one
      raised. On success the table is `BatchTable`. */
  method ProcessBatch(cfg: Config, batch: Batch, indices: seq<int>, isTrain: bool, enc: Encoding)
    returns (r: Result<Features, PreprocessError>)
    requires BatchInputs(batch, indices, isTrain, enc)
    ensures cfg.singleContextMultiplePassages && SomeExampleNotSingle(batch.context) ==> r == Err(NotSingleContext)
    ensures r.Ok? <==>
      && !(cfg.singleContextMultiplePassages && SomeExampleNotSingle(batch.context))
      && (isTrain ==> TrainBatchLabelled(cfg, batch, enc))
    ensures r.Ok? ==> BatchTable(cfg, batch, indices, isTrain, enc, r.value)
    ensures r.Err? && isTrain && !(cfg.singleContextMultiplePassages && SomeExampleNotSingle(batch.context)) ==>
      exists i :: FirstFailingWindow(cfg, enc, batch.target, batch.passageAnswerCandidates,
                                     LocalExampleIdx(batch, enc), BatchContextIdx(cfg, batch, enc), i, r.error)
  {
    var questions := CleanQuestions(batch.question, cfg.maxQCharLen);
    var expansion :- ExpandExamples(questions, batch.context, cfg.singleContextMultiplePassages);
    var expandedIdx := expansion.1;
    ExpandedLengths(batch.context);

    // The tokenizer call on the expanded pairs is not modelled: `enc` is its answer.
    var overflow := enc.overflowToSampleMapping;
    var n := |enc.inputIds|;
    var exampleIdx := LocalExampleIdx(batch, enc);
    assert exampleIdx == ExampleIndices(expandedIdx, overflow);
    var exampleId := seq(n, i requires 0 <= i < n => batch.exampleId[exampleIdx[i]]);

    var contextIdx: Option<seq<int>> := None;
    if !cfg.singleContextMultiplePassages {
      var spans := GeneratePreviousSpansPerExample(exampleIdx, overflow);
      assert spans == PreviousSpans(exampleIdx, overflow);
      contextIdx := Some(ContextIndices(overflow, spans));
    }
    assert contextIdx == BatchContextIdx(cfg, batch, enc);

    var offsetMapping: seq<seq<Option<Offset>>>;
    var startPositions: Option<seq<int>> := None;
    var endPositions: Option<seq<int>> := None;
    var targetType: Option<seq<TargetType>> := None;
    var subsampleType: Option<seq<SubsampleType>> := None;
    if isTrain {
      offsetMapping := seq(n, i requires 0 <= i < n => WrapOffsets(enc.offsetMapping[i]));
      var columns := TrainColumns(cfg, batch, enc);
      if columns.Err? {
        return Err(columns.error);
      }
      var t := columns.value.0;
      startPositions, endPositions, targetType := Some(t.startPositions), Some(t.endPositions), Some(t.targetType);
      subsampleType := columns.value.1;
    } else {
      var a := new seq<Option<Offset>>[n](i requires 0 <= i < n => WrapOffsets(enc.offsetMapping[i]));
      CreateEvalTargets(cfg, a, enc.sequenceIds);
      offsetMapping := a[..];
    }

    var datasetIdx := seq(n, i requires 0 <= i < n => indices[exampleIdx[i]]);
    // `overflow_to_sample_mapping` is popped: the table has no such column.
    r := Ok(Features(enc.inputIds, offsetMapping, None, datasetIdx, exampleId, contextIdx,
                     startPositions, endPositions, targetType, subsampleType));
  }

  /** The indices `Dataset.map(..., with_indices=True)` passes for a dataset
      of `n` rows processed as one batch: every row's own position. */
  function DatasetIndices(n: nat): (r: seq<int>)
    ensures |r| == n && forall i :: 0 <= i < n ==> r[i] == i
  {
    seq(n, i requires 0 <= i < n => i)
  }

  /** What `_process` relies on in the table of a dataset processed as one
      batch: its shape, that every example index is a row of the dataset, and
      that a window with an answer is a positive row. */
  lemma BatchTableShape(cfg: Config, batch: Batch, isTrain: bool, enc: Encoding, f: Features)
    requires BatchInputs(batch, DatasetIndices(|batch.question|), isTrain, enc)
    requires BatchTable(cfg, batch, DatasetIndices(|batch.question|), isTrain, enc, f)
    ensures f.Rectangular() && f.Rows() == |enc.inputIds| && f.overflowToSampleMapping.None?
    ensures (f.targetType.Some? <==> isTrain) && (f.contextIdx.Some? <==> !cfg.singleContextMultiplePassages)
    ensures f.subsampleType.Some? <==> isTrain && !SubsampleAllFeatures(cfg)
    ensures forall k :: 0 <= k < f.Rows() ==> 0 <= f.exampleIdx[k] < |batch.question|
    ensures forall i ::
      isTrain && !SubsampleAllFeatures(cfg) && 0 <= i < |enc.inputIds|
      && BatchLabel(cfg, batch, enc, i).Ok? && BatchLabel(cfg, batch, enc, i).value.targetType != NoAnswer
      ==> f.subsampleType.value[i] == Positive
  {
    var indices := DatasetIndices(|batch.question|);
    forall k | 0 <= k < f.Rows()
      ensures 0 <= f.exampleIdx[k] < |batch.question|
    {
      assert f.exampleIdx[k] == indices[LocalExampleIdx(batch, enc)[k]];
    }
  }

  /** Subsampling the training table of a dataset processed as one batch
      succeeds whenever some window has an answer, since positive rows are
      never dropped. Its result keeps the table's columns but
      `subsample_type`, has at least one row when rows were drawn, and every
      example index in it is a row of the dataset. */
  lemma SubsampledBatchTable(cfg: Config, batch: Batch, enc: Encoding, f: Features, draw: nat -> real)
    requires BatchInputs(batch, DatasetIndices(|batch.question|), true, enc)
    requires BatchTable(cfg, batch, DatasetIndices(|batch.question|), true, enc, f)
    ensures (|| SubsampleAllFeatures(cfg)
             || exists i :: 0 <= i < |enc.inputIds| && BatchLabel(cfg, batch, enc, i).Ok?
                            && BatchLabel(cfg, batch, enc, i).value.targetType != NoAnswer)
            ==> SubsampleFeatures(cfg, f, draw).Ok?
    ensures SubsampleFeatures(cfg, f, draw).Ok? ==>
      var g := SubsampleFeatures(cfg, f, draw).value;
      && g.Rectangular() && g.overflowToSampleMapping.None? && g.targetType.Some?
      && (g.contextIdx.Some? <==> !cfg.singleContextMultiplePassages)
      && (!SubsampleAllFeatures(cfg) ==> g.subsampleType.None? && g.Rows() > 0)
      && forall j :: 0 <= j < g.Rows() ==> 0 <= g.exampleIdx[j] < |batch.question|
  {
    BatchTableShape(cfg, batch, true, enc, f);
    SubsampleFeaturesColumns(cfg, f, draw);
    if !SubsampleAllFeatures(cfg) &&
       exists i :: 0 <= i < |enc.inputIds| && BatchLabel(cfg, batch, enc, i).Ok?
                   && BatchLabel(cfg, batch, enc, i).value.targetType != NoAnswer {
      var i :| 0 <= i < |enc.inputIds| && BatchLabel(cfg, batch, enc, i).Ok?
               && BatchLabel(cfg, batch, enc, i).value.targetType != NoAnswer;
      SubsampleKeepsPositive(cfg, f, draw, i);
    }
    if SubsampleFeatures(cfg, f, draw).Ok? {
      var g := SubsampleFeatures(cfg, f, draw).value;
      forall j | 0 <= j < g.Rows()
        ensures 0 <= g.exampleIdx[j] < |batch.question|
      {
        var k :| 0 <= k < |f.exampleIdx| && f.exampleIdx[k] == g.exampleIdx[j];
      }
    }
  }

  /** `_process` on a dataset processed as one batch: an empty dataset raises;
      otherwise the batch is processed with every row's own index, and a
      training table is then subsampled (`draw(i)` is the random draw for
      feature `i`). The examples are returned as given.

      An evaluation call on a non-empty dataset that passes the single-context
      check always succeeds; a training call whose windows are all labelled
      succeeds whenever some window has an answer (positive features are never
      dropped), and otherwise can fail only because subsampling kept nothing. */
  method Process(cfg: Config, examples: Batch, isTrain: bool, enc: Encoding, draw: nat -> real)
    returns (r: Result<(Batch, Features), PreprocessError>)
    requires BatchInputs(examples, DatasetIndices(|examples.question|), isTrain, enc)
    ensures |examples.question| == 0 ==> r == Err(NoExamples)
    ensures (&& |examples.question| > 0 && cfg.singleContextMultiplePassages
             && SomeExampleNotSingle(examples.context)) ==> r == Err(NotSingleContext)
    ensures (&& |examples.question| > 0 && isTrain
             && !(cfg.singleContextMultiplePassages && SomeExampleNotSingle(examples.context))
             && !TrainBatchLabelled(cfg, examples, enc)) ==>
      && r.Err?
      && exists i :: FirstFailingWindow(cfg, enc, examples.target, examples.passageAnswerCandidates,
                                        LocalExampleIdx(examples, enc), BatchContextIdx(cfg, examples, enc), i, r.error)
    ensures r.Ok? ==> r.value.0 == examples && r.value.1.Rectangular()
    ensures r.Ok? ==> exists f ::
      && BatchTable(cfg, examples, DatasetIndices(|examples.question|), isTrain, enc, f)
      && (isTrain ==> SubsampleFeatures(cfg, f, draw) == Ok(r.value.1))
      && (!isTrain ==> r.value.1 == f)
    ensures (&& |examples.question| > 0 && !isTrain
             && !(cfg.singleContextMultiplePassages && SomeExampleNotSingle(examples.context))) ==> r.Ok?
    ensures (&& |examples.question| > 0 && isTrain
             && !(cfg.singleContextMultiplePassages && SomeExampleNotSingle(examples.context))
             && TrainBatchLabelled(cfg, examples, enc)
             && (|| SubsampleAllFeatures(cfg)
                 || exists i :: 0 <= i < |enc.inputIds| && BatchLabel(cfg, examples, enc, i).Ok?
                                && BatchLabel(cfg, examples, enc, i).value.targetType != NoAnswer)) ==> r.Ok?
    ensures (&& r.Err? && |examples.question| > 0 && isTrain
             && !(cfg.singleContextMultiplePassages && SomeExampleNotSingle(examples.context))
             && TrainBatchLabelled(cfg, examples, enc)) ==> r.error == NoFeaturesRemaining
    ensures r.Ok? ==> r.value.1.overflowToSampleMapping.None?
    ensures r.Ok? ==> (r.value.1.targetType.Some? <==> isTrain)
    ensures r.Ok? ==> (r.value.1.contextIdx.Some? <==> !cfg.singleContextMultiplePassages)
    ensures r.Ok? && isTrain && !SubsampleAllFeatures(cfg) ==>
      r.value.1.subsampleType.None? && r.value.1.Rows() > 0
    ensures r.Ok? && !isTrain ==> r.value.1.Rows() == |enc.inputIds|
    ensures r.Ok? ==> forall i :: 0 <= i < r.value.1.Rows() ==> 0 <= r.value.1.exampleIdx[i] < |examples.question|
  {
    if |examples.question| == 0 {
      return Err(NoExamples);
    }
    var indices := DatasetIndices(|examples.question|);
    var batch := ProcessBatch(cfg, examples, indices, isTrain, enc);
    if batch.Err? {
      return Err(batch.error);
    }
    var features := batch.value;
    BatchTableShape(cfg, examples, isTrain, enc, features);
    if isTrain {
      SubsampledBatchTable(cfg, examples, enc, features, draw);
      var subsampled := SubsampleFeatures(cfg, features, draw);
      if subsampled.Err? {
        return Err(subsampled.error);
      }
      r := Ok((examples, subsampled.value));
      assert SubsampleFeatures(cfg, features, draw) == Ok(r.value.1);
    } else {
      r := Ok((examples, features));
    }
  }
}
