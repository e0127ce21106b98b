/** Python list semantics that the modelled code relies on: indexing with
    negative indices, `list.index`, and slicing with `[:n]`. */
module PyList {
  import opened Wrappers

  /** The Python exceptions that list access can raise. */
  datatype ListError = IndexError | ValueError

  /** True if `k` is a valid Python index of a list of length `n` (negative
      indices count from the end). */
  predicate InRange(n: nat, k: int) { 0 <= n + k && k < n }

  /** The position `s[k]` denotes in Python, for an index in range. */
  function Normalize(n: nat, k: int): (p: nat)
    requires InRange(n, k)
    ensures p < n
    ensures k >= 0 ==> p == k
    ensures k < 0 ==> p + (-k) == n
  {
    if k >= 0 then k else n + k
  }

  /** `s[k]`: an IndexError unless `-|s| <= k < |s|`. */
  function At<T>(s: seq<T>, k: int): (r: Result<T, ListError>)
    ensures r.Ok? <==> -|s| <= k < |s|
    ensures r.Err? ==> r.error == IndexError
    ensures 0 <= k < |s| ==> r == Ok(s[k])
    ensures -|s| <= k < 0 ==> r == Ok(s[|s| + k])
  {
    if InRange(|s|, k) then Ok(s[Normalize(|s|, k)]) else Err(IndexError)
  }

  /** `s.index(x)`: the first position holding `x`; a ValueError if there is none. */
  function IndexOf<T(==)>(s: seq<T>, x: T): (r: Result<nat, ListError>)
    ensures r.Ok? <==> x in s
    ensures r.Err? ==> r.error == ValueError
    ensures r.Ok? ==> r.value < |s| && s[r.value] == x
    ensures r.Ok? ==> forall k :: 0 <= k < r.value ==> s[k] != x
  {
    if |s| == 0 then Err(ValueError)
    else if s[0] == x then Ok(0)
    else
      match IndexOf(s[1..], x)
      case Ok(k) => Ok(k + 1)
      case Err(e) => Err(e)
  }

  /** `s[:n]`, where a negative `n` drops `-n` elements from the end. */
  function Prefix<T>(s: seq<T>, n: int): (r: seq<T>)
    ensures r <= s
    ensures n >= 0 ==> |r| == if n <= |s| then n else |s|
    ensures n < 0 ==> |r| == if |s| + n >= 0 then |s| + n else 0
  {
    if n >= 0 then (if n <= |s| then s[..n] else s)
    else if |s| + n >= 0 then s[..|s| + n]
    else []
  }

  /** `n` copies of `x` (`itertools.repeat(x, n)`). */
  function Repeat<T>(x: T, n: nat): (r: seq<T>)
    ensures |r| == n && forall i :: 0 <= i < n ==> r[i] == x
  {
    seq(n, _ => x)
  }

  /** The last position holding `x`, if any. */
  function LastIndexOf<T(==)>(s: seq<T>, x: T): (r: Option<nat>)
    ensures r.Some? <==> x in s
    ensures r.Some? ==> r.value < |s| && s[r.value] == x
    ensures r.Some? ==> forall k :: r.value < k < |s| ==> s[k] != x
  {
    if |s| == 0 then None
    else if s[|s| - 1] == x then Some(|s| - 1)
    else LastIndexOf(s[..|s| - 1], x)
  }
}
