/** The data the MRC preprocessor (oneqa/mrc/processors/preprocessors/default.py)
    reads and writes: the examples of one batch, its configuration, and the
    tokenizer's answer for the expanded question/context pairs. */
module MrcTypes {
  import opened Wrappers
  import PyList

  /** The answer categories of a feature, in the order of their integer values
      0..4 (NO_ANSWER = 0, ..., NO = 4). */
  datatype TargetType = NoAnswer | SpanAnswer | PassageAnswer | Yes | No

  /** Why a negative (no-answer) feature exists, or that it is positive. */
  datatype SubsampleType = Positive | NegativeHasAnswer | NegativeNoAnswer

  /** A character span `(start, end)` of one token in the context. */
  type Offset = (int, int)

  /** The gold annotation of one example; only element 0 of each list is read.
      `yesNoAnswer` holds the labels after `TargetType.from_bool_label`. */
  datatype Target = Target(
    passageIndices: seq<int>,
    startPositions: seq<int>,
    endPositions: seq<int>,
    yesNoAnswer: seq<TargetType>)

  /** Byte spans of the candidate passages of one example. */
  datatype PassageCandidates = PassageCandidates(
    plaintextStartByte: seq<int>,
    plaintextEndByte: seq<int>)

  /** One batch of examples, column by column. `target` and
      `passageAnswerCandidates` are read only when building training targets. */
  datatype Batch = Batch(
    question: seq<string>,
    context: seq<seq<string>>,
    exampleId: seq<string>,
    target: seq<Target>,
    passageAnswerCandidates: seq<PassageCandidates>)

  /** The preprocessor's settings. `padOnRight` is the tokenizer's
      `padding_side == "right"`; `clsTokenId` is its `cls_token_id`. */
  datatype Config = Config(
    maxQCharLen: int,
    singleContextMultiplePassages: bool,
    padOnRight: bool,
    clsTokenId: int,
    negativeSamplingProbWhenHasAnswer: real,
    negativeSamplingProbWhenNoAnswer: real)

  /** What the tokenizer returns for the expanded pairs: one entry per window.
      `sequenceIds[i]` is `sequence_ids(i)`: 0 or 1 for a token of the first or
      second text, None for a special token. */
  datatype Encoding = Encoding(
    inputIds: seq<seq<int>>,
    offsetMapping: seq<seq<Offset>>,
    sequenceIds: seq<seq<Option<int>>>,
    overflowToSampleMapping: seq<int>)

  /** The feature table `_process_batch` returns, column by column (one entry
      per window). A column that is not in the table is None. */
  datatype Features = Features(
    inputIds: seq<seq<int>>,
    offsetMapping: seq<seq<Option<Offset>>>,
    overflowToSampleMapping: Option<seq<int>>,
    exampleIdx: seq<int>,
    exampleId: seq<string>,
    contextIdx: Option<seq<int>>,
    startPositions: Option<seq<int>>,
    endPositions: Option<seq<int>>,
    targetType: Option<seq<TargetType>>,
    subsampleType: Option<seq<SubsampleType>>)
  {
    /** The number of features (rows) of the table. */
    function Rows(): nat { |inputIds| }

    /** Every column that is present has one entry per row. */
    predicate Rectangular() {
      && |offsetMapping| == Rows()
      && (overflowToSampleMapping.Some? ==> |overflowToSampleMapping.value| == Rows())
      && |exampleIdx| == Rows()
      && |exampleId| == Rows()
      && (contextIdx.Some? ==> |contextIdx.value| == Rows())
      && (startPositions.Some? ==> |startPositions.value| == Rows())
      && (endPositions.Some? ==> |endPositions.value| == Rows())
      && (targetType.Some? ==> |targetType.value| == Rows())
      && (subsampleType.Some? ==> |subsampleType.value| == Rows())
    }
  }

  /** The exceptions the preprocessor raises. */
  datatype PreprocessError =
    | NoExamples             // "No examples to process"
    | NotSingleContext       // "Must have exactly one context for each question ..."
    | ClsTokenMissing        // `input_ids.index(cls_token_id)` fails
    | IndexOutOfRange        // an IndexError from list indexing
    | NoFeaturesRemaining    // "No features remaining after subsampling"

  /** The Python list errors, as the preprocessor reports them. */
  function FromListError(e: PyList.ListError): (r: PreprocessError)
    ensures r == (if e == PyList.ValueError then ClsTokenMissing else IndexOutOfRange)
  {
    match e
    case IndexError => IndexOutOfRange
    case ValueError => ClsTokenMissing
  }

  /** `s[k]` with an IndexError reported as a preprocessing error. */
  function Get<T>(s: seq<T>, k: int): (r: Result<T, PreprocessError>)
    ensures r.Ok? <==> -|s| <= k < |s|
    ensures r.Err? ==> r.error == IndexOutOfRange
    ensures 0 <= k < |s| ==> r == Ok(s[k])
    ensures -|s| <= k < 0 ==> r == Ok(s[|s| + k])
  {
    match PyList.At(s, k)
    case Ok(v) => Ok(v)
    case Err(e) => Err(FromListError(e))
  }

  /** The sequence id of context tokens: the context is the second text when
      padding is on the right, the first otherwise. */
  function ContextSequenceId(cfg: Config): (id: int)
    ensures id == 0 || id == 1
    ensures id == 1 <==> cfg.padOnRight
  {
    if cfg.padOnRight then 1 else 0
  }

  /** `_subsample_all_features`: both negative-sampling probabilities are 1. */
  predicate SubsampleAllFeatures(cfg: Config) {
    cfg.negativeSamplingProbWhenHasAnswer == 1.0 && cfg.negativeSamplingProbWhenNoAnswer == 1.0
  }

  /** `_subsample_no_features`: both negative-sampling probabilities are 0. */
  predicate SubsampleNoFeatures(cfg: Config) {
    cfg.negativeSamplingProbWhenHasAnswer == 0.0 && cfg.negativeSamplingProbWhenNoAnswer == 0.0
  }

  /** The tokenizer's guarantees about its output for `nSamples` input pairs:
      one entry per window in every column, per-token columns of equal length,
      and every window mapped back to an input pair. */
  predicate WellFormedEncoding(enc: Encoding, nSamples: nat) {
    && |enc.offsetMapping| == |enc.inputIds|
    && |enc.sequenceIds| == |enc.inputIds|
    && |enc.overflowToSampleMapping| == |enc.inputIds|
    && (forall i :: 0 <= i < |enc.inputIds| ==>
          |enc.offsetMapping[i]| == |enc.inputIds[i]| && |enc.sequenceIds[i]| == |enc.inputIds[i]|)
    && (forall i :: 0 <= i < |enc.overflowToSampleMapping| ==>
          0 <= enc.overflowToSampleMapping[i] < nSamples)
  }
}
