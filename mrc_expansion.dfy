/** The first half of `_process_batch` (default.py:84-100): questions are
    cleaned, and every (question, list of contexts) example is expanded into
    one (question, context) pair per context. */
module MrcExpansion {
  import opened Wrappers
  import PyList
  import opened MrcTypes

  /** Python's `str.isspace` for a single character. */
  predicate IsSpace(c: char) {
    || ('\U{9}' <= c <= '\U{D}')
    || ('\U{1C}' <= c <= '\U{20}')
    || c == '\U{85}' || c == '\U{A0}' || c == '\U{1680}'
    || ('\U{2000}' <= c <= '\U{200A}')
    || c == '\U{2028}' || c == '\U{2029}' || c == '\U{202F}' || c == '\U{205F}' || c == '\U{3000}'
  }

  /** `s.lstrip()`: the longest suffix of `s` that does not start with whitespace. */
  function LStrip(s: string): (r: string)
    ensures |r| <= |s| && r == s[|s| - |r|..]
    ensures forall i :: 0 <= i < |s| - |r| ==> IsSpace(s[i])
    ensures r != [] ==> !IsSpace(r[0])
  {
    if |s| > 0 && IsSpace(s[0]) then LStrip(s[1..]) else s
  }

  /** `q.lstrip()[:_max_q_char_len]`. */
  function CleanQuestion(q: string, maxQCharLen: int): (r: string)
  {
    PyList.Prefix(LStrip(q), maxQCharLen)
  }

  /** A cleaned question is a prefix of the stripped question, starts with no
      whitespace and, for a non-negative limit, is at most that long. */
  lemma CleanQuestionProperties(q: string, maxQCharLen: int)
    ensures CleanQuestion(q, maxQCharLen) <= LStrip(q)
    ensures CleanQuestion(q, maxQCharLen) != [] ==> !IsSpace(CleanQuestion(q, maxQCharLen)[0])
    ensures maxQCharLen >= 0 ==> |CleanQuestion(q, maxQCharLen)| <= maxQCharLen
    ensures maxQCharLen >= |LStrip(q)| ==> CleanQuestion(q, maxQCharLen) == LStrip(q)
  {
    var r := CleanQuestion(q, maxQCharLen);
    if r != [] {
      assert r[0] == LStrip(q)[0];
    }
  }

  /** The questions of a batch after cleaning. */
  function CleanQuestions(qs: seq<string>, maxQCharLen: int): (r: seq<string>)
    ensures |r| == |qs|
    ensures forall i :: 0 <= i < |qs| ==> r[i] == CleanQuestion(qs[i], maxQCharLen)
  {
    seq(|qs|, i requires 0 <= i < |qs| => CleanQuestion(qs[i], maxQCharLen))
  }

  /** The number of contexts of all examples together. */
  function TotalContexts(ctxs: seq<seq<string>>): nat
  {
    if |ctxs| == 0 then 0 else TotalContexts(ctxs[..|ctxs| - 1]) + |ctxs[|ctxs| - 1]|
  }

  /** The position, in the expanded list, of the first pair of example `k`. */
  function Base(ctxs: seq<seq<string>>, k: nat): nat
    requires k <= |ctxs|
  {
    TotalContexts(ctxs[..k])
  }

  /** `expanded_examples_idx`: example `i` repeated once per context. */
  function ExpandedIndices(ctxs: seq<seq<string>>): seq<int>
  {
    if |ctxs| == 0 then []
    else ExpandedIndices(ctxs[..|ctxs| - 1]) + PyList.Repeat(|ctxs| - 1, |ctxs[|ctxs| - 1]|)
  }

  /** `expanded_examples_context`: `itertools.chain.from_iterable(examples_context)`. */
  function FlattenContexts(ctxs: seq<seq<string>>): seq<string>
  {
    if |ctxs| == 0 then [] else FlattenContexts(ctxs[..|ctxs| - 1]) + ctxs[|ctxs| - 1]
  }

  /** True if some example has other than exactly one context. */
  predicate SomeExampleNotSingle(ctxs: seq<seq<string>>) {
    exists i :: 0 <= i < |ctxs| && |ctxs[i]| != 1
  }

  /** The expanded lists have one entry per context. */
  lemma {:induction false} ExpandedLengths(ctxs: seq<seq<string>>)
    ensures |ExpandedIndices(ctxs)| == TotalContexts(ctxs)
    ensures |FlattenContexts(ctxs)| == TotalContexts(ctxs)
  {
    if |ctxs| > 0 {
      ExpandedLengths(ctxs[..|ctxs| - 1]);
    }
  }

  /** Every expanded position `p` belongs to the example `k` it is tagged with:
      `p` lies in the block of `k`'s contexts, and the expanded context at `p`
      is context number `p - Base(ctxs, k)` of example `k`. */
  lemma {:induction false} ExpandedIndexBlock(ctxs: seq<seq<string>>, p: nat)
    requires p < TotalContexts(ctxs)
    ensures |ExpandedIndices(ctxs)| == |FlattenContexts(ctxs)| == TotalContexts(ctxs)
    ensures 0 <= ExpandedIndices(ctxs)[p] < |ctxs|
    ensures var k := ExpandedIndices(ctxs)[p];
      Base(ctxs, k) <= p < Base(ctxs, k) + |ctxs[k]|
      && FlattenContexts(ctxs)[p] == ctxs[k][p - Base(ctxs, k)]
  {
    ExpandedLengths(ctxs);
    var n := |ctxs|;
    var init := ctxs[..n - 1];
    ExpandedLengths(init);
    assert ctxs[..n - 1] == init;
    if p < TotalContexts(init) {
      ExpandedIndexBlock(init, p);
      var k := ExpandedIndices(init)[p];
      assert ExpandedIndices(ctxs)[p] == k;
      assert FlattenContexts(ctxs)[p] == FlattenContexts(init)[p];
      assert ctxs[..k] == init[..k];
    } else {
      assert ExpandedIndices(ctxs)[p] == n - 1;
      assert FlattenContexts(ctxs)[p] == ctxs[n - 1][p - TotalContexts(init)];
      assert ctxs[..n - 1] == init;
    }
  }

  /** The expanded example indices never decrease. */
  lemma {:induction false} ExpandedIndicesSorted(ctxs: seq<seq<string>>, i: nat, j: nat)
    requires i <= j < |ExpandedIndices(ctxs)|
    ensures ExpandedIndices(ctxs)[i] <= ExpandedIndices(ctxs)[j]
  {
    var n := |ctxs|;
    var init := ctxs[..n - 1];
    var e0 := ExpandedIndices(init);
    if j < |e0| {
      ExpandedIndicesSorted(init, i, j);
    } else if i < |e0| {
      ExpandedLengths(init);
      ExpandedIndexBlock(init, i);
    }
  }

  /** The index at expanded position `p` is the example whose block of
      contexts contains `p` (the converse of ExpandedIndexBlock). */
  lemma ExpandedIndexOfBlock(ctxs: seq<seq<string>>, k: nat, p: nat)
    requires k < |ctxs| && Base(ctxs, k) <= p < Base(ctxs, k) + |ctxs[k]|
    ensures p < TotalContexts(ctxs) == |ExpandedIndices(ctxs)|
    ensures ExpandedIndices(ctxs)[p] == k
  {
    BaseMonotone(ctxs, k + 1, |ctxs|);
    assert ctxs[..k + 1][..k] == ctxs[..k];
    assert ctxs[..|ctxs|] == ctxs;
    ExpandedIndexBlock(ctxs, p);
    var k' := ExpandedIndices(ctxs)[p];
    assert ctxs[..k' + 1][..k'] == ctxs[..k'];
    if k' < k {
      BaseMonotone(ctxs, k' + 1, k);
    } else if k' > k {
      BaseMonotone(ctxs, k + 1, k');
    }
  }

  /** Later examples start no earlier in the expanded list. */
  lemma {:induction false} BaseMonotone(ctxs: seq<seq<string>>, k: nat, l: nat)
    requires k <= l <= |ctxs|
    ensures Base(ctxs, k) <= Base(ctxs, l)
  {
    if k < l {
      BaseMonotone(ctxs, k, l - 1);
      assert ctxs[..l][..l - 1] == ctxs[..l - 1];
    }
  }

  /** The expansion loop of `_process_batch`: with
      `_single_context_multiple_passages` set, an example whose context count is
      not exactly one raises; otherwise every cleaned question is repeated once
      per context of its example, together with the example's index. */
  method ExpandExamples(questions: seq<string>, ctxs: seq<seq<string>>, singleContextMultiplePassages: bool)
    returns (r: Result<(seq<string>, seq<int>), PreprocessError>)
    requires |questions| == |ctxs|
    ensures r.Err? <==> singleContextMultiplePassages && SomeExampleNotSingle(ctxs)
    ensures r.Err? ==> r.error == NotSingleContext
    ensures r.Ok? ==> r.value.1 == ExpandedIndices(ctxs)
    ensures r.Ok? ==> |r.value.0| == |r.value.1|
    ensures r.Ok? ==> forall j :: 0 <= j < |r.value.0| ==>
      0 <= r.value.1[j] < |questions| && r.value.0[j] == questions[r.value.1[j]]
  {
    var expandedQuestion: seq<string> := [];
    var expandedIdx: seq<int> := [];
    var i := 0;
    while i < |ctxs|
      invariant 0 <= i <= |ctxs|
      invariant singleContextMultiplePassages ==> forall k :: 0 <= k < i ==> |ctxs[k]| == 1
      invariant expandedIdx == ExpandedIndices(ctxs[..i])
      invariant |expandedQuestion| == |expandedIdx|
      invariant forall j :: 0 <= j < |expandedQuestion| ==>
        0 <= expandedIdx[j] < i && expandedQuestion[j] == questions[expandedIdx[j]]
    {
      var n := |ctxs[i]|;
      if singleContextMultiplePassages && n != 1 {
        return Err(NotSingleContext);
      }
      assert ctxs[..i + 1][..i] == ctxs[..i];
      expandedQuestion := expandedQuestion + PyList.Repeat(questions[i], n);
      expandedIdx := expandedIdx + PyList.Repeat(i, n);
      i := i + 1;
    }
    assert ctxs[..i] == ctxs;
    r := Ok((expandedQuestion, expandedIdx));
  }
}
