/** Which context each tokenized window was cut from (default.py:112, 119-120,
    310-319): windows are grouped into maximal runs of equal `example_idx`, and
    `context_idx` is a window's sample index minus the sample index at the
    start of its run. */
module MrcSpans {
  import PyList
  import opened MrcExpansion

  /** The first position of the maximal run of equal values that contains `i`. */
  function RunStart(e: seq<int>, i: nat): (r: nat)
    requires i < |e|
    ensures r <= i
    ensures forall k :: r <= k <= i ==> e[k] == e[i]
    ensures r == 0 || e[r - 1] != e[r]
  {
    if i == 0 || e[i - 1] != e[i] then i else RunStart(e, i - 1)
  }

  /** Inside a run, a position's run starts where its predecessor's does. */
  lemma RunStartStep(e: seq<int>, k: nat)
    requires 0 < k < |e| && e[k - 1] == e[k]
    ensures RunStart(e, k) == RunStart(e, k - 1)
  {
  }

  /** What `_generate_previous_spans_per_example` yields: for every window, the
      sample mapping at the first window of its run. */
  function PreviousSpans(e: seq<int>, m: seq<int>): (r: seq<int>)
    requires |m| >= |e|
    ensures |r| == |e|
  {
    seq(|e|, i requires 0 <= i < |e| => m[RunStart(e, i)])
  }

  /** `_generate_previous_spans_per_example`: walks the groups of equal
      `example_idx` values, counting each group's length and repeating
      the sample mapping at the group's start that many times. */
  method GeneratePreviousSpansPerExample(e: seq<int>, m: seq<int>) returns (spans: seq<int>)
    requires |m| >= |e|
    ensures |spans| == |e|
    ensures forall i :: 0 <= i < |e| ==> spans[i] == m[RunStart(e, i)]
  {
    spans := [];
    var groupStart := 0;
    while groupStart < |e|
      invariant 0 <= groupStart <= |e|
      invariant |spans| == groupStart
      invariant groupStart < |e| ==> RunStart(e, groupStart) == groupStart
      invariant forall i :: 0 <= i < groupStart ==> spans[i] == m[RunStart(e, i)]
    {
      var groupLen := 1;
      while groupStart + groupLen < |e| && e[groupStart + groupLen] == e[groupStart]
        invariant 1 <= groupLen && groupStart + groupLen <= |e|
        invariant e[groupStart + groupLen - 1] == e[groupStart]
        invariant forall k :: groupStart <= k < groupStart + groupLen ==> RunStart(e, k) == groupStart
      {
        RunStartStep(e, groupStart + groupLen);
        groupLen := groupLen + 1;
      }
      spans := spans + PyList.Repeat(m[groupStart], groupLen);
      groupStart := groupStart + groupLen;
    }
  }

  /** `example_idx`: the example each window belongs to,
      `[expanded_examples_idx[oidx] for oidx in overflow_to_sample_mapping]`. */
  function ExampleIndices(expandedIdx: seq<int>, overflow: seq<int>): (r: seq<int>)
    requires forall i :: 0 <= i < |overflow| ==> 0 <= overflow[i] < |expandedIdx|
    ensures |r| == |overflow|
  {
    seq(|overflow|, i requires 0 <= i < |overflow| => expandedIdx[overflow[i]])
  }

  /** `context_idx = list(map(sub, overflow_to_sample_mapping, spans_per_example))`. */
  function ContextIndices(overflow: seq<int>, spans: seq<int>): (r: seq<int>)
    requires |spans| == |overflow|
    ensures |r| == |overflow|
  {
    seq(|overflow|, i requires 0 <= i < |overflow| => overflow[i] - spans[i])
  }

  /** The first window of every run has context index 0. */
  lemma ContextIndexZeroAtRunStart(e: seq<int>, overflow: seq<int>, i: nat)
    requires |e| == |overflow| && i < |e|
    requires i == 0 || e[i - 1] != e[i]
    ensures ContextIndices(overflow, PreviousSpans(e, overflow))[i] == 0
  {
    assert RunStart(e, i) == i;
  }

  /** A non-decreasing sample mapping gives non-negative context indices. */
  lemma ContextIndicesNonNegative(e: seq<int>, overflow: seq<int>)
    requires |e| == |overflow|
    requires forall i, j :: 0 <= i <= j < |overflow| ==> overflow[i] <= overflow[j]
    ensures forall i :: 0 <= i < |e| ==> ContextIndices(overflow, PreviousSpans(e, overflow))[i] >= 0
  {
    forall i | 0 <= i < |e|
      ensures ContextIndices(overflow, PreviousSpans(e, overflow))[i] >= 0
    {
      assert PreviousSpans(e, overflow)[i] == overflow[RunStart(e, i)];
    }
  }

  /** How a sliding-window tokenizer numbers its windows: in input order, every
      input pair yielding at least one window. */
  predicate WindowsInInputOrder(overflow: seq<int>, nSamples: nat) {
    && (|overflow| > 0 ==> overflow[0] == 0)
    && (forall i :: 0 < i < |overflow| ==> overflow[i - 1] <= overflow[i] <= overflow[i - 1] + 1)
    && (forall i :: 0 <= i < |overflow| ==> 0 <= overflow[i] < nSamples)
  }

  lemma {:induction false} WindowsSorted(overflow: seq<int>, nSamples: nat, i: nat, j: nat)
    requires WindowsInInputOrder(overflow, nSamples)
    requires i <= j < |overflow|
    ensures overflow[i] <= overflow[j]
  {
    if i < j {
      WindowsSorted(overflow, nSamples, i, j - 1);
    }
  }

  /** The meaning of `context_idx`: when the tokenizer numbers its windows in
      input order, window `i` was cut from context number `context_idx[i]` of
      example `example_idx[i]`, and that number is a valid context position. */
  lemma ContextIndexIsPositionInExample(ctxs: seq<seq<string>>, overflow: seq<int>, i: nat)
    requires WindowsInInputOrder(overflow, TotalContexts(ctxs))
    requires i < |overflow|
    ensures |ExpandedIndices(ctxs)| == |FlattenContexts(ctxs)| == TotalContexts(ctxs)
    ensures var e := ExampleIndices(ExpandedIndices(ctxs), overflow);
      var c := ContextIndices(overflow, PreviousSpans(e, overflow));
      && 0 <= e[i] < |ctxs|
      && 0 <= c[i] < |ctxs[e[i]]|
      && FlattenContexts(ctxs)[overflow[i]] == ctxs[e[i]][c[i]]
  {
    ExpandedLengths(ctxs);
    var ex := ExpandedIndices(ctxs);
    var e := ExampleIndices(ex, overflow);
    var r := RunStart(e, i);
    var c := ContextIndices(overflow, PreviousSpans(e, overflow));
    assert e[r] == e[i] == ex[overflow[i]];
    assert r > 0 ==> e[r - 1] != e[r];
    assert c[i] == overflow[i] - overflow[r];
    WindowInBlock(ctxs, overflow, r, i);
  }

  /** Window `i` shares its example with window `r`, the first window of its
      run: `r` was cut from the example's first context, so `i` was cut from
      context number `overflow[i] - overflow[r]` of that example. */
  lemma WindowInBlock(ctxs: seq<seq<string>>, overflow: seq<int>, r: nat, i: nat)
    requires WindowsInInputOrder(overflow, TotalContexts(ctxs))
    requires r <= i < |overflow| && |ExpandedIndices(ctxs)| == TotalContexts(ctxs)
    requires ExpandedIndices(ctxs)[overflow[r]] == ExpandedIndices(ctxs)[overflow[i]]
    requires r > 0 ==> ExpandedIndices(ctxs)[overflow[r - 1]] != ExpandedIndices(ctxs)[overflow[r]]
    ensures |FlattenContexts(ctxs)| == TotalContexts(ctxs)
    ensures var k := ExpandedIndices(ctxs)[overflow[i]];
      && 0 <= k < |ctxs|
      && overflow[r] == Base(ctxs, k)
      && 0 <= overflow[i] - overflow[r] < |ctxs[k]|
      && FlattenContexts(ctxs)[overflow[i]] == ctxs[k][overflow[i] - overflow[r]]
  {
    ExpandedIndexBlock(ctxs, overflow[r]);
    ExpandedIndexBlock(ctxs, overflow[i]);
    if r > 0 {
      assert overflow[r] == overflow[r - 1] + 1;
      BlockStart(ctxs, overflow[r]);
    }
  }

  /** A position of the expanded list whose example differs from the one
      before it is where that example's block starts. */
  lemma BlockStart(ctxs: seq<seq<string>>, p: nat)
    requires 0 < p < TotalContexts(ctxs)
    ensures |ExpandedIndices(ctxs)| == TotalContexts(ctxs) && 0 <= ExpandedIndices(ctxs)[p] < |ctxs|
    ensures ExpandedIndices(ctxs)[p - 1] != ExpandedIndices(ctxs)[p] ==> p == Base(ctxs, ExpandedIndices(ctxs)[p])
  {
    ExpandedLengths(ctxs);
    var ex := ExpandedIndices(ctxs);
    ExpandedIndexBlock(ctxs, p - 1);
    ExpandedIndexBlock(ctxs, p);
    ExpandedIndicesSorted(ctxs, p - 1, p);
    if ex[p - 1] != ex[p] {
      var k' := ex[p - 1];
      BaseMonotone(ctxs, k' + 1, ex[p]);
      assert ctxs[..k' + 1][..k'] == ctxs[..k'];
      assert Base(ctxs, k' + 1) == Base(ctxs, k') + |ctxs[k']|;
    }
  }
}
