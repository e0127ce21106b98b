/** Labels of the tokenized windows (default.py:135-273): start/end token
    positions and answer type for training, context-only offsets for
    evaluation, and the subsampling category of every training window. */
module MrcTargets {
  import opened Wrappers
  import PyList
  import opened MrcTypes

  /** The training label of one window. */
  datatype Label = Label(startPosition: int, endPosition: int, targetType: TargetType)

  /** The training columns `start_positions`, `end_positions` and `target_type`. */
  datatype TrainTargets = TrainTargets(startPositions: seq<int>, endPositions: seq<int>, targetType: seq<TargetType>)

  /** `_spans_intersect`: some end point of either span lies in the other span. */
  function SpansIntersect(s1: (int, int), s2: (int, int)): bool {
    || (s1.0 <= s2.0 <= s1.1) || (s2.0 <= s1.0 <= s2.1)
    || (s1.0 <= s2.1 <= s1.1) || (s2.0 <= s1.1 <= s2.1)
  }

  function Max(a: int, b: int): int { if a >= b then a else b }
  function Min(a: int, b: int): int { if a <= b then a else b }

  /** The intersection test does not depend on the order of its arguments. */
  lemma SpansIntersectSymmetric(s1: (int, int), s2: (int, int))
    ensures SpansIntersect(s1, s2) == SpansIntersect(s2, s1)
  {
  }

  /** For well-formed closed intervals the test is exactly "they overlap". */
  lemma SpansIntersectIffOverlap(s1: (int, int), s2: (int, int))
    requires s1.0 <= s1.1 && s2.0 <= s2.1
    ensures SpansIntersect(s1, s2) <==> Max(s1.0, s2.0) <= Min(s1.1, s2.1)
  {
  }

  /** Where `cls_index = input_ids.index(cls_token_id)` lands; a ValueError if the
      window has no CLS token. */
  function ClsIndex(inputIds: seq<int>, clsTokenId: int): (r: Result<nat, PreprocessError>)
    ensures r.Ok? <==> clsTokenId in inputIds
    ensures r.Err? ==> r.error == ClsTokenMissing
    ensures r.Ok? ==> r.value < |inputIds| && inputIds[r.value] == clsTokenId
    ensures r.Ok? ==> forall k :: 0 <= k < r.value ==> inputIds[k] != clsTokenId
  {
    match PyList.IndexOf(inputIds, clsTokenId)
    case Ok(k) => Ok(k)
    case Err(_) => Err(ClsTokenMissing)
  }

  /** The first context token: where the loop stepping `token_start_index` up
      from 0 stops; it runs past the end (an IndexError) when the window has none. */
  function ContextStart(seqIds: seq<Option<int>>, ctx: int): (r: Result<nat, PreprocessError>)
    ensures r.Ok? <==> Some(ctx) in seqIds
    ensures r.Err? ==> r.error == IndexOutOfRange
    ensures r.Ok? ==> r.value < |seqIds| && seqIds[r.value] == Some(ctx)
    ensures r.Ok? ==> forall k :: 0 <= k < r.value ==> seqIds[k] != Some(ctx)
  {
    match PyList.IndexOf(seqIds, Some(ctx))
    case Ok(k) => Ok(k)
    case Err(_) => Err(IndexOutOfRange)
  }

  /** The last context token: where the loop stepping `token_end_index` down from
      the last token stops. */
  function ContextEnd(seqIds: seq<Option<int>>, ctx: int): (r: nat)
    requires Some(ctx) in seqIds
    ensures r < |seqIds| && seqIds[r] == Some(ctx)
    ensures forall k :: r < k < |seqIds| ==> seqIds[k] != Some(ctx)
  {
    PyList.LastIndexOf(seqIds, Some(ctx)).value
  }

  /** Where `while token_start_index < len(offsets) and offsets[token_start_index][0] <= start_char`
      stops: the first index at or after `k` whose start offset is beyond
      `startChar`, or `|offsets|`. */
  function ScanToAnswerStart(offsets: seq<Offset>, k: nat, startChar: int): (r: nat)
    requires k <= |offsets|
    ensures k <= r <= |offsets|
    ensures forall j :: k <= j < r ==> offsets[j].0 <= startChar
    ensures r < |offsets| ==> offsets[r].0 > startChar
    decreases |offsets| - k
  {
    if k == |offsets| || offsets[k].0 > startChar then k else ScanToAnswerStart(offsets, k + 1, startChar)
  }

  /** Where `while offsets[token_end_index][1] >= end_char` stops, stepping down
      from `k` with Python's indexing (negative indices count from the end): the
      last index at or before `k` whose end offset is below `endChar`; None when
      the index runs below `-|offsets|` (an IndexError). */
  function ScanToAnswerEnd(offsets: seq<Offset>, k: int, endChar: int): (r: Option<int>)
    requires k < |offsets|
    ensures r.Some? ==> PyList.InRange(|offsets|, r.value) && r.value <= k
    ensures r.Some? ==> offsets[PyList.Normalize(|offsets|, r.value)].1 < endChar
    ensures r.Some? ==> forall j :: r.value < j <= k ==> offsets[PyList.Normalize(|offsets|, j)].1 >= endChar
    ensures r.None? ==> forall j :: 0 <= j + |offsets| && j <= k ==> offsets[PyList.Normalize(|offsets|, j)].1 >= endChar
    decreases k + |offsets|
  {
    if k + |offsets| < 0 then None
    else if offsets[PyList.Normalize(|offsets|, k)].1 < endChar then Some(k)
    else ScanToAnswerEnd(offsets, k - 1, endChar)
  }

  /** `window_contains_correct_passage`: false for an example without a gold
      passage; with a single context holding several passages, whether the gold
      passage's byte span meets the window's character span; otherwise whether
      the window was cut from the gold context. */
  function WindowContainsCorrectPassage(
    cfg: Config, passageIndex: int, cands: PassageCandidates,
    offsets: seq<Offset>, tokenStart: nat, tokenEnd: nat, contextIdx: int): (r: Result<bool, PreprocessError>)
    requires tokenStart < |offsets| && tokenEnd < |offsets|
  {
    if passageIndex == -1 then Ok(false)
    else if cfg.singleContextMultiplePassages then
      var psb :- Get(cands.plaintextStartByte, passageIndex);
      var peb :- Get(cands.plaintextEndByte, passageIndex);
      Ok(SpansIntersect((psb, peb), (offsets[tokenStart].0, offsets[tokenEnd].1)))
    else Ok(passageIndex == contextIdx)
  }

  /** The body of the loop of `_create_train_targets` for one window. */
  function WindowLabel(
    cfg: Config, inputIds: seq<int>, offsets: seq<Offset>, seqIds: seq<Option<int>>,
    t: Target, cands: PassageCandidates, contextIdx: int): (r: Result<Label, PreprocessError>)
    requires |offsets| == |inputIds| && |seqIds| == |inputIds|
  {
    var cls :- ClsIndex(inputIds, cfg.clsTokenId);
    var passageIndex :- Get(t.passageIndices, 0);
    var startChar :- Get(t.startPositions, 0);
    var endChar :- Get(t.endPositions, 0);
    var yesNo :- Get(t.yesNoAnswer, 0);
    var ctx := ContextSequenceId(cfg);
    var tokenStart :- ContextStart(seqIds, ctx);
    var tokenEnd := ContextEnd(seqIds, ctx);
    var contains :- WindowContainsCorrectPassage(cfg, passageIndex, cands, offsets, tokenStart, tokenEnd, contextIdx);
    if contains && startChar == -1 then
      Ok(Label(cls, cls, if yesNo == Yes || yesNo == No then yesNo else PassageAnswer))
    else if !contains || startChar == -1 then
      Ok(Label(cls, cls, NoAnswer))
    else if !(offsets[tokenStart].0 <= startChar && offsets[tokenEnd].1 >= endChar) then
      Ok(Label(cls, cls, PassageAnswer))
    else
      var s := ScanToAnswerStart(offsets, tokenStart, startChar);
      match ScanToAnswerEnd(offsets, tokenEnd, endChar)
      case None => Err(IndexOutOfRange)
      case Some(e) => Ok(Label(s - 1, e + 1, SpanAnswer))
  }

  /** The label cases of one window whose CLS token, gold annotation, context
      tokens and gold passage can be read. Without the gold passage in the
      window the label is NO_ANSWER at the CLS token; with it and no answer
      span, YES/NO (or PASSAGE_ANSWER) at the CLS token; with an answer span
      that the window's context does not cover, PASSAGE_ANSWER at the CLS token;
      otherwise SPAN_ANSWER, whose start is the last token at or after the first
      context token that starts at or before the answer, and whose end is one
      past the last token at or before the last context token that ends before
      the answer's end. That last step fails, with an IndexError, exactly when
      no index from the last context token down to `-len(offsets)` (Python
      indexing) ends before the answer's end. */
  lemma WindowLabelCases(
    cfg: Config, inputIds: seq<int>, offsets: seq<Offset>, seqIds: seq<Option<int>>,
    t: Target, cands: PassageCandidates, contextIdx: int)
    requires |offsets| == |inputIds| && |seqIds| == |inputIds|
    requires cfg.clsTokenId in inputIds && Some(ContextSequenceId(cfg)) in seqIds
    requires |t.passageIndices| > 0 && |t.startPositions| > 0 && |t.endPositions| > 0 && |t.yesNoAnswer| > 0
    requires WindowContainsCorrectPassage(cfg, t.passageIndices[0], cands, offsets,
      ContextStart(seqIds, ContextSequenceId(cfg)).value, ContextEnd(seqIds, ContextSequenceId(cfg)), contextIdx).Ok?
    ensures
      var r := WindowLabel(cfg, inputIds, offsets, seqIds, t, cands, contextIdx);
      var cls := ClsIndex(inputIds, cfg.clsTokenId).value;
      var ts := ContextStart(seqIds, ContextSequenceId(cfg)).value;
      var te := ContextEnd(seqIds, ContextSequenceId(cfg));
      var startChar, endChar, yesNo := t.startPositions[0], t.endPositions[0], t.yesNoAnswer[0];
      var contains := WindowContainsCorrectPassage(cfg, t.passageIndices[0], cands, offsets, ts, te, contextIdx).value;
      && (t.passageIndices[0] == -1 ==> !contains)
      && (!cfg.singleContextMultiplePassages ==> (contains <==> t.passageIndices[0] != -1 && t.passageIndices[0] == contextIdx))
      && (!contains ==> r == Ok(Label(cls, cls, NoAnswer)))
      && (contains && startChar == -1 ==>
            r == Ok(Label(cls, cls, if yesNo == Yes || yesNo == No then yesNo else PassageAnswer)))
      && (contains && startChar != -1 && !(offsets[ts].0 <= startChar && offsets[te].1 >= endChar) ==>
            r == Ok(Label(cls, cls, PassageAnswer)))
      && (contains && startChar != -1 && offsets[ts].0 <= startChar && offsets[te].1 >= endChar ==>
            && (r.Ok? <==> exists j :: -|offsets| <= j <= te && offsets[PyList.Normalize(|offsets|, j)].1 < endChar)
            && (r.Err? ==> r.error == IndexOutOfRange)
            && (r.Ok? ==>
                  var s, e := r.value.startPosition, r.value.endPosition;
                  && r.value.targetType == SpanAnswer
                  && ts <= s < |offsets|
                  && (forall j :: ts <= j <= s ==> offsets[j].0 <= startChar)
                  && (s + 1 < |offsets| ==> offsets[s + 1].0 > startChar)
                  && PyList.InRange(|offsets|, e - 1) && e <= te
                  && offsets[PyList.Normalize(|offsets|, e - 1)].1 < endChar
                  && (forall j :: e <= j <= te ==> offsets[PyList.Normalize(|offsets|, j)].1 >= endChar)))
  {
  }

  /** The loops of `_create_train_targets` that find the first and the last
      context token of a window; an IndexError when it has none. */
  method FindContextBounds(seqIds: seq<Option<int>>, ctx: int) returns (r: Result<(nat, nat), PreprocessError>)
    ensures r.Ok? <==> ContextStart(seqIds, ctx).Ok?
    ensures r.Err? ==> r.error == IndexOutOfRange
    ensures r.Ok? ==> r.value.0 == ContextStart(seqIds, ctx).value && r.value.1 == ContextEnd(seqIds, ctx)
  {
    var tokenStart := 0;
    while tokenStart < |seqIds| && seqIds[tokenStart] != Some(ctx)
      invariant 0 <= tokenStart <= |seqIds|
      invariant forall k :: 0 <= k < tokenStart ==> seqIds[k] != Some(ctx)
    {
      tokenStart := tokenStart + 1;
    }
    if tokenStart == |seqIds| {
      return Err(IndexOutOfRange);
    }
    assert tokenStart == ContextStart(seqIds, ctx).value by {
      var k := ContextStart(seqIds, ctx).value;
      assert !(k < tokenStart) && !(tokenStart < k);
    }
    var tokenEnd := |seqIds| - 1;
    while seqIds[tokenEnd] != Some(ctx)
      invariant tokenStart <= tokenEnd < |seqIds|
      invariant forall k :: tokenEnd < k < |seqIds| ==> seqIds[k] != Some(ctx)
      decreases tokenEnd
    {
      tokenEnd := tokenEnd - 1;
    }
    assert tokenEnd == ContextEnd(seqIds, ctx) by {
      var k := ContextEnd(seqIds, ctx);
      assert !(k < tokenEnd) && !(tokenEnd < k);
    }
    r := Ok((tokenStart, tokenEnd));
  }

  /** The two loops that move `token_start_index` and `token_end_index` to the
      ends of the answer. */
  method ScanAnswer(offsets: seq<Offset>, tokenStart: nat, tokenEnd: nat, startChar: int, endChar: int)
    returns (s: nat, e: Option<int>)
    requires tokenStart <= |offsets| && tokenEnd < |offsets|
    ensures s == ScanToAnswerStart(offsets, tokenStart, startChar)
    ensures e == ScanToAnswerEnd(offsets, tokenEnd, endChar)
  {
    s := tokenStart;
    while s < |offsets| && offsets[s].0 <= startChar
      invariant tokenStart <= s <= |offsets|
      invariant ScanToAnswerStart(offsets, s, startChar) == ScanToAnswerStart(offsets, tokenStart, startChar)
    {
      s := s + 1;
    }
    var k: int := tokenEnd;
    while 0 <= k + |offsets| && offsets[PyList.Normalize(|offsets|, k)].1 >= endChar
      invariant -1 <= k + |offsets| && k <= tokenEnd
      invariant ScanToAnswerEnd(offsets, k, endChar) == ScanToAnswerEnd(offsets, tokenEnd, endChar)
      decreases k + |offsets|
    {
      k := k - 1;
    }
    e := if k + |offsets| < 0 then None else Some(k);
  }

  /** One window's label, computed with the loops of `_create_train_targets`. */
  method LabelWindow(
    cfg: Config, inputIds: seq<int>, offsets: seq<Offset>, seqIds: seq<Option<int>>,
    t: Target, cands: PassageCandidates, contextIdx: int) returns (r: Result<Label, PreprocessError>)
    requires |offsets| == |inputIds| && |seqIds| == |inputIds|
    ensures r == WindowLabel(cfg, inputIds, offsets, seqIds, t, cands, contextIdx)
  {
    var cls :- ClsIndex(inputIds, cfg.clsTokenId);
    var passageIndex :- Get(t.passageIndices, 0);
    var startChar :- Get(t.startPositions, 0);
    var endChar :- Get(t.endPositions, 0);
    var yesNo :- Get(t.yesNoAnswer, 0);
    var bounds :- FindContextBounds(seqIds, ContextSequenceId(cfg));
    var (tokenStart, tokenEnd) := bounds;
    var contains :- WindowContainsCorrectPassage(cfg, passageIndex, cands, offsets, tokenStart, tokenEnd, contextIdx);
    if contains && startChar == -1 {
      var tt := yesNo;
      if tt != Yes && tt != No {
        tt := PassageAnswer;
      }
      r := Ok(Label(cls, cls, tt));
    } else if !contains || startChar == -1 {
      r := Ok(Label(cls, cls, NoAnswer));
    } else if !(offsets[tokenStart].0 <= startChar && offsets[tokenEnd].1 >= endChar) {
      r := Ok(Label(cls, cls, PassageAnswer));
    } else {
      var s, e := ScanAnswer(offsets, tokenStart, tokenEnd, startChar, endChar);
      if e.None? {
        return Err(IndexOutOfRange);
      }
      r := Ok(Label(s - 1, e.value + 1, SpanAnswer));
    }
  }

  /** What `_create_train_targets` needs of its inputs: the tokenizer's columns
      agree in length, every window's example has a target and a candidate
      list, and without `_single_context_multiple_passages` the `context_idx`
      column is present. */
  predicate TrainInputs(
    cfg: Config, enc: Encoding, targets: seq<Target>, cands: seq<PassageCandidates>,
    exampleIdx: seq<int>, contextIdx: Option<seq<int>>)
  {
    && |enc.offsetMapping| == |enc.inputIds|
    && |enc.sequenceIds| == |enc.inputIds|
    && (forall i :: 0 <= i < |enc.inputIds| ==>
          |enc.offsetMapping[i]| == |enc.inputIds[i]| && |enc.sequenceIds[i]| == |enc.inputIds[i]|)
    && |exampleIdx| == |enc.inputIds|
    && (forall i :: 0 <= i < |exampleIdx| ==> 0 <= exampleIdx[i] < |targets| && exampleIdx[i] < |cands|)
    && (!cfg.singleContextMultiplePassages ==> contextIdx.Some?)
    && (contextIdx.Some? ==> |contextIdx.value| == |enc.inputIds|)
  }

  /** The label of window `i`. */
  function WindowLabelAt(
    cfg: Config, enc: Encoding, targets: seq<Target>, cands: seq<PassageCandidates>,
    exampleIdx: seq<int>, contextIdx: Option<seq<int>>, i: nat): Result<Label, PreprocessError>
    requires TrainInputs(cfg, enc, targets, cands, exampleIdx, contextIdx)
    requires i < |enc.inputIds|
  {
    WindowLabel(cfg, enc.inputIds[i], enc.offsetMapping[i], enc.sequenceIds[i],
                targets[exampleIdx[i]], cands[exampleIdx[i]],
                if contextIdx.Some? then contextIdx.value[i] else 0)
  }

  /** Window `i` is the first whose labelling raises, and it raises `err`. */
  predicate FirstFailingWindow(
    cfg: Config, enc: Encoding, targets: seq<Target>, cands: seq<PassageCandidates>,
    exampleIdx: seq<int>, contextIdx: Option<seq<int>>, i: int, err: PreprocessError)
    requires TrainInputs(cfg, enc, targets, cands, exampleIdx, contextIdx)
  {
    && 0 <= i < |enc.inputIds|
    && WindowLabelAt(cfg, enc, targets, cands, exampleIdx, contextIdx, i) == Err(err)
    && forall j :: 0 <= j < i ==> WindowLabelAt(cfg, enc, targets, cands, exampleIdx, contextIdx, j).Ok?
  }

  /** `_create_train_targets`: one entry per window in each of the three label
      columns, each the window's label; the first window whose labelling
      raises ends the whole call with that error. */
  method CreateTrainTargets(
    cfg: Config, enc: Encoding, targets: seq<Target>, cands: seq<PassageCandidates>,
    exampleIdx: seq<int>, contextIdx: Option<seq<int>>) returns (r: Result<TrainTargets, PreprocessError>)
    requires TrainInputs(cfg, enc, targets, cands, exampleIdx, contextIdx)
    ensures r.Ok? <==> forall i :: 0 <= i < |enc.inputIds| ==>
      WindowLabelAt(cfg, enc, targets, cands, exampleIdx, contextIdx, i).Ok?
    ensures r.Ok? ==>
      && |r.value.startPositions| == |enc.inputIds|
      && |r.value.endPositions| == |enc.inputIds|
      && |r.value.targetType| == |enc.inputIds|
    ensures r.Ok? ==> forall i :: 0 <= i < |enc.inputIds| ==>
      var l := WindowLabelAt(cfg, enc, targets, cands, exampleIdx, contextIdx, i).value;
      && r.value.startPositions[i] == l.startPosition
      && r.value.endPositions[i] == l.endPosition
      && r.value.targetType[i] == l.targetType
    ensures r.Err? ==> exists i :: FirstFailingWindow(cfg, enc, targets, cands, exampleIdx, contextIdx, i, r.error)
  {
    var startPositions: seq<int> := [];
    var endPositions: seq<int> := [];
    var targetType: seq<TargetType> := [];
    var i := 0;
    while i < |enc.inputIds|
      invariant 0 <= i <= |enc.inputIds|
      invariant |startPositions| == i && |endPositions| == i && |targetType| == i
      invariant forall j :: 0 <= j < i ==> WindowLabelAt(cfg, enc, targets, cands, exampleIdx, contextIdx, j).Ok?
      invariant forall j :: 0 <= j < i ==>
        var l := WindowLabelAt(cfg, enc, targets, cands, exampleIdx, contextIdx, j).value;
        && startPositions[j] == l.startPosition
        && endPositions[j] == l.endPosition
        && targetType[j] == l.targetType
    {
      var e := exampleIdx[i];
      var windowLabel := LabelWindow(cfg, enc.inputIds[i], enc.offsetMapping[i], enc.sequenceIds[i],
                               targets[e], cands[e], if contextIdx.Some? then contextIdx.value[i] else 0);
      assert windowLabel == WindowLabelAt(cfg, enc, targets, cands, exampleIdx, contextIdx, i);
      if windowLabel.Err? {
        assert FirstFailingWindow(cfg, enc, targets, cands, exampleIdx, contextIdx, i, windowLabel.error);
        return Err(windowLabel.error);
      }
      startPositions := startPositions + [windowLabel.value.startPosition];
      endPositions := endPositions + [windowLabel.value.endPosition];
      targetType := targetType + [windowLabel.value.targetType];
      i := i + 1;
    }
    r := Ok(TrainTargets(startPositions, endPositions, targetType));
  }

  /** The comprehension of `_create_eval_targets` for one window: offsets of
      tokens outside the context become None. */
  function MaskOffsets(offsets: seq<Option<Offset>>, seqIds: seq<Option<int>>, ctx: int): seq<Option<Offset>>
    requires |seqIds| >= |offsets|
  {
    seq(|offsets|, k requires 0 <= k < |offsets| => if seqIds[k] == Some(ctx) then offsets[k] else None)
  }

  /** Masking keeps the length, and (for offsets the tokenizer produced) entry `k`
      becomes None exactly when token `k` is not a context token, and is
      otherwise unchanged. */
  lemma MaskOffsetsMeaning(offsets: seq<Option<Offset>>, seqIds: seq<Option<int>>, ctx: int)
    requires |seqIds| >= |offsets|
    requires forall k :: 0 <= k < |offsets| ==> offsets[k].Some?
    ensures |MaskOffsets(offsets, seqIds, ctx)| == |offsets|
    ensures forall k :: 0 <= k < |offsets| ==>
      (MaskOffsets(offsets, seqIds, ctx)[k].None? <==> seqIds[k] != Some(ctx))
    ensures forall k :: 0 <= k < |offsets| && seqIds[k] == Some(ctx) ==>
      MaskOffsets(offsets, seqIds, ctx)[k] == offsets[k]
  {
  }

  /** `_create_eval_targets`: overwrites every window's offset list, in place,
      with its masked version; nothing else changes. */
  method CreateEvalTargets(cfg: Config, offsetMapping: array<seq<Option<Offset>>>, sequenceIds: seq<seq<Option<int>>>)
    requires |sequenceIds| == offsetMapping.Length
    requires forall i :: 0 <= i < offsetMapping.Length ==> |sequenceIds[i]| >= |offsetMapping[i]|
    modifies offsetMapping
    ensures forall i :: 0 <= i < offsetMapping.Length ==>
      offsetMapping[i] == MaskOffsets(old(offsetMapping[i]), sequenceIds[i], ContextSequenceId(cfg))
  {
    var contextIndex := ContextSequenceId(cfg);
    var i := 0;
    while i < offsetMapping.Length
      invariant 0 <= i <= offsetMapping.Length
      invariant forall j :: 0 <= j < i ==>
        offsetMapping[j] == MaskOffsets(old(offsetMapping[j]), sequenceIds[j], contextIndex)
      invariant forall j :: i <= j < offsetMapping.Length ==> offsetMapping[j] == old(offsetMapping[j])
    {
      offsetMapping[i] := MaskOffsets(offsetMapping[i], sequenceIds[i], contextIndex);
      i := i + 1;
    }
  }

  /** `label_features_for_subsampling`: with both sampling probabilities 1 the
      features are returned without a `subsample_type` column; otherwise every
      window gets one category: POSITIVE exactly when it has an answer label,
      and a negative is NEGATIVE_HAS_ANSWER exactly when its example has a gold
      passage. Reading the gold passage of an example without one raises. */
  method LabelFeaturesForSubsampling(
    cfg: Config, targetType: seq<TargetType>, exampleIdx: seq<int>, targets: seq<Target>)
    returns (r: Result<Option<seq<SubsampleType>>, PreprocessError>)
    requires |exampleIdx| == |targetType|
    requires forall i :: 0 <= i < |exampleIdx| ==> 0 <= exampleIdx[i] < |targets|
    ensures SubsampleAllFeatures(cfg) ==> r == Ok(None)
    ensures !SubsampleAllFeatures(cfg) ==>
      (r.Ok? <==> forall i :: 0 <= i < |targetType| && targetType[i] == NoAnswer ==>
                    |targets[exampleIdx[i]].passageIndices| > 0)
    ensures r.Err? ==> r.error == IndexOutOfRange
    ensures r.Ok? && !SubsampleAllFeatures(cfg) ==> r.value.Some? && |r.value.value| == |targetType|
    ensures r.Ok? && r.value.Some? ==> forall i :: 0 <= i < |targetType| ==>
      && (r.value.value[i] == Positive <==> targetType[i] != NoAnswer)
      && (r.value.value[i] == NegativeHasAnswer <==>
            targetType[i] == NoAnswer && targets[exampleIdx[i]].passageIndices[0] != -1)
  {
    if SubsampleAllFeatures(cfg) {
      return Ok(None);
    }
    var types: seq<SubsampleType> := [];
    var i := 0;
    while i < |targetType|
      invariant 0 <= i <= |targetType| && |types| == i
      invariant forall j :: 0 <= j < i && targetType[j] == NoAnswer ==> |targets[exampleIdx[j]].passageIndices| > 0
      invariant forall j :: 0 <= j < i ==>
        && (types[j] == Positive <==> targetType[j] != NoAnswer)
        && (types[j] == NegativeHasAnswer <==>
              targetType[j] == NoAnswer && targets[exampleIdx[j]].passageIndices[0] != -1)
    {
      var st;
      if targetType[i] != NoAnswer {
        st := Positive;
      } else {
        var passageIdx := Get(targets[exampleIdx[i]].passageIndices, 0);
        if passageIdx.Err? {
          return Err(passageIdx.error);
        }
        st := if passageIdx.value != -1 then NegativeHasAnswer else NegativeNoAnswer;
      }
      types := types + [st];
      i := i + 1;
    }
    r := Ok(Some(types));
  }
}
