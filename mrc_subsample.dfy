/** Negative subsampling of training features (default.py:275-295): positive
    features are always kept, a negative one is kept when the random draw made
    for it falls below its category's sampling probability. */
module MrcSubsample {
  import opened Wrappers
  import opened MrcTypes

  /** `_keep_feature`, with `draw` standing for the value of `random.random()`
      drawn for this feature (a number in [0, 1)). */
  function KeepFeature(cfg: Config, st: SubsampleType, draw: real): bool {
    match st
    case Positive => true
    case NegativeHasAnswer => draw < cfg.negativeSamplingProbWhenHasAnswer
    case NegativeNoAnswer => draw < cfg.negativeSamplingProbWhenNoAnswer
  }

  /** Positive features are kept whatever the draw; with both probabilities 0
      no negative feature is kept, and a negative category whose probability is
      at least 1 is always kept. */
  lemma KeepFeatureProperties(cfg: Config, st: SubsampleType, draw: real)
    requires 0.0 <= draw < 1.0
    ensures st == Positive ==> KeepFeature(cfg, st, draw)
    ensures SubsampleNoFeatures(cfg) ==> (KeepFeature(cfg, st, draw) <==> st == Positive)
    ensures st == NegativeHasAnswer && cfg.negativeSamplingProbWhenHasAnswer >= 1.0 ==> KeepFeature(cfg, st, draw)
    ensures st == NegativeNoAnswer && cfg.negativeSamplingProbWhenNoAnswer >= 1.0 ==> KeepFeature(cfg, st, draw)
  {
  }

  /** `keep_indices`: the positions of the kept features, in increasing order;
      `draw(i)` is the draw made for feature `i`. */
  function KeepIndices(cfg: Config, types: seq<SubsampleType>, draw: nat -> real): (r: seq<nat>)
    ensures forall j :: 0 <= j < |r| ==> r[j] < |types|
    ensures forall j, k :: 0 <= j < k < |r| ==> r[j] < r[k]
    ensures forall i :: 0 <= i < |types| ==> (i in r <==> KeepFeature(cfg, types[i], draw(i)))
  {
    if |types| == 0 then []
    else
      var n := |types| - 1;
      KeepIndices(cfg, types[..n], draw) + (if KeepFeature(cfg, types[n], draw(n)) then [n] else [])
  }

  /** When every feature is kept, the kept positions are all positions. */
  lemma {:induction false} KeepIndicesAll(cfg: Config, types: seq<SubsampleType>, draw: nat -> real)
    requires forall i :: 0 <= i < |types| ==> KeepFeature(cfg, types[i], draw(i))
    ensures |KeepIndices(cfg, types, draw)| == |types|
    ensures forall j :: 0 <= j < |types| ==> KeepIndices(cfg, types, draw)[j] == j
  {
    if |types| > 0 {
      var n := |types| - 1;
      KeepIndicesAll(cfg, types[..n], draw);
    }
  }

  /** `dataset.select(keep)`: the rows at the given positions, in that order. */
  function Select(f: Features, keep: seq<nat>): (g: Features)
    requires f.Rectangular()
    requires forall j :: 0 <= j < |keep| ==> keep[j] < f.Rows()
    ensures g.Rectangular() && g.Rows() == |keep|
  {
    Features(
      seq(|keep|, j requires 0 <= j < |keep| => f.inputIds[keep[j]]),
      seq(|keep|, j requires 0 <= j < |keep| => f.offsetMapping[keep[j]]),
      SelectColumn(f.overflowToSampleMapping, keep, f.Rows()),
      seq(|keep|, j requires 0 <= j < |keep| => f.exampleIdx[keep[j]]),
      seq(|keep|, j requires 0 <= j < |keep| => f.exampleId[keep[j]]),
      SelectColumn(f.contextIdx, keep, f.Rows()),
      SelectColumn(f.startPositions, keep, f.Rows()),
      SelectColumn(f.endPositions, keep, f.Rows()),
      SelectColumn(f.targetType, keep, f.Rows()),
      SelectColumn(f.subsampleType, keep, f.Rows()))
  }

  function SelectColumn<T>(c: Option<seq<T>>, keep: seq<nat>, rows: nat): (r: Option<seq<T>>)
    requires c.Some? ==> |c.value| == rows
    requires forall j :: 0 <= j < |keep| ==> keep[j] < rows
    ensures r.Some? <==> c.Some?
    ensures r.Some? ==> |r.value| == |keep|
  {
    if c.None? then None else Some(seq(|keep|, j requires 0 <= j < |keep| => c.value[keep[j]]))
  }

  lemma SelectColumnAll<T>(c: Option<seq<T>>, keep: seq<nat>, rows: nat)
    requires c.Some? ==> |c.value| == rows
    requires |keep| == rows && forall j :: 0 <= j < rows ==> keep[j] == j
    ensures SelectColumn(c, keep, rows) == c
  {
    if c.Some? {
      assert SelectColumn(c, keep, rows).value == c.value;
    }
  }

  /** Selecting every row in order gives back the same table. */
  lemma SelectAll(f: Features, keep: seq<nat>)
    requires f.Rectangular()
    requires |keep| == f.Rows() && forall j :: 0 <= j < f.Rows() ==> keep[j] == j
    ensures Select(f, keep) == f
  {
    var g := Select(f, keep);
    assert g.inputIds == f.inputIds;
    assert g.offsetMapping == f.offsetMapping;
    assert g.exampleIdx == f.exampleIdx;
    assert g.exampleId == f.exampleId;
    SelectColumnAll(f.overflowToSampleMapping, keep, f.Rows());
    SelectColumnAll(f.contextIdx, keep, f.Rows());
    SelectColumnAll(f.startPositions, keep, f.Rows());
    SelectColumnAll(f.endPositions, keep, f.Rows());
    SelectColumnAll(f.targetType, keep, f.Rows());
    SelectColumnAll(f.subsampleType, keep, f.Rows());
  }

  /** `subsample_features`: with both probabilities 1 the table is returned
      as it is; otherwise the kept rows, in their original order, without the
      `subsample_type` column, and an error when no row is kept. */
  function SubsampleFeatures(cfg: Config, f: Features, draw: nat -> real): (r: Result<Features, PreprocessError>)
    requires f.Rectangular()
    requires !SubsampleAllFeatures(cfg) ==> f.subsampleType.Some?
    ensures SubsampleAllFeatures(cfg) ==> r == Ok(f)
    ensures r.Err? ==> r.error == NoFeaturesRemaining
    ensures r.Ok? && !SubsampleAllFeatures(cfg) ==>
      var keep := KeepIndices(cfg, f.subsampleType.value, draw);
      && keep != []
      && r.value == Select(f, keep).(subsampleType := None)
  {
    if SubsampleAllFeatures(cfg) then Ok(f)
    else
      var keep := KeepIndices(cfg, f.subsampleType.value, draw);
      if keep == [] then Err(NoFeaturesRemaining)
      else Ok(Select(f, keep).(subsampleType := None))
  }

  /** Subsampling fails exactly when no row is kept. */
  lemma SubsampleFeaturesRows(cfg: Config, f: Features, draw: nat -> real)
    requires f.Rectangular() && !SubsampleAllFeatures(cfg) && f.subsampleType.Some?
    ensures SubsampleFeatures(cfg, f, draw).Ok? <==>
      exists i :: 0 <= i < f.Rows() && KeepFeature(cfg, f.subsampleType.value[i], draw(i))
  {
    var types := f.subsampleType.value;
    var keep := KeepIndices(cfg, types, draw);
    assert SubsampleFeatures(cfg, f, draw).Ok? <==> keep != [];
    if exists i :: 0 <= i < f.Rows() && KeepFeature(cfg, types[i], draw(i)) {
      var i :| 0 <= i < f.Rows() && KeepFeature(cfg, types[i], draw(i));
      assert i in keep;
    } else if keep != [] {
      assert keep[0] in keep;
    }
  }

  /** The kept positions include every positive row, whatever the draws. */
  lemma KeepIndicesPositives(cfg: Config, types: seq<SubsampleType>, draw: nat -> real, i: nat)
    requires i < |types| && types[i] == Positive
    ensures i in KeepIndices(cfg, types, draw)
  {
    assert KeepFeature(cfg, types[i], draw(i));
  }

  /** When every row is kept, subsampling only drops the `subsample_type` column. */
  lemma SubsampleFeaturesAllKept(cfg: Config, f: Features, draw: nat -> real)
    requires f.Rectangular() && !SubsampleAllFeatures(cfg) && f.subsampleType.Some? && f.Rows() > 0
    requires forall i :: 0 <= i < f.Rows() ==> KeepFeature(cfg, f.subsampleType.value[i], draw(i))
    ensures SubsampleFeatures(cfg, f, draw) == Ok(f.(subsampleType := None))
  {
    var keep := KeepIndices(cfg, f.subsampleType.value, draw);
    KeepIndicesAll(cfg, f.subsampleType.value, draw);
    SelectAll(f, keep);
  }

  /** Subsampling never drops a positive row, so a table with one succeeds. */
  lemma SubsampleKeepsPositive(cfg: Config, f: Features, draw: nat -> real, i: nat)
    requires f.Rectangular() && !SubsampleAllFeatures(cfg) && f.subsampleType.Some?
    requires i < f.Rows() && f.subsampleType.value[i] == Positive
    ensures SubsampleFeatures(cfg, f, draw).Ok?
    ensures i in KeepIndices(cfg, f.subsampleType.value, draw)
  {
    KeepIndicesPositives(cfg, f.subsampleType.value, draw, i);
  }

  /** A subsampled table keeps every column the table has, except that
      `subsample_type` is dropped when rows were drawn; it then has at least
      one row, and every row's example index is one of the table's. */
  lemma SubsampleFeaturesColumns(cfg: Config, f: Features, draw: nat -> real)
    requires f.Rectangular()
    requires !SubsampleAllFeatures(cfg) ==> f.subsampleType.Some?
    ensures SubsampleFeatures(cfg, f, draw).Ok? ==>
      var g := SubsampleFeatures(cfg, f, draw).value;
      && g.Rectangular()
      && (g.overflowToSampleMapping.Some? <==> f.overflowToSampleMapping.Some?)
      && (g.contextIdx.Some? <==> f.contextIdx.Some?)
      && (g.startPositions.Some? <==> f.startPositions.Some?)
      && (g.endPositions.Some? <==> f.endPositions.Some?)
      && (g.targetType.Some? <==> f.targetType.Some?)
      && (!SubsampleAllFeatures(cfg) ==> g.subsampleType.None? && g.Rows() > 0)
      && forall j :: 0 <= j < g.Rows() ==> g.exampleIdx[j] in f.exampleIdx
  {
    if !SubsampleAllFeatures(cfg) {
      var keep := KeepIndices(cfg, f.subsampleType.value, draw);
      if keep != [] {
        var g := Select(f, keep).(subsampleType := None);
        forall j | 0 <= j < g.Rows()
          ensures g.exampleIdx[j] in f.exampleIdx
        {
          assert g.exampleIdx[j] == f.exampleIdx[keep[j]];
        }
      }
    }
  }
}
