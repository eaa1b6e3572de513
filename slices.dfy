/** Python's list-slicing forms used by the source, with negative bounds. */
module Slices {

  function Min(a: int, b: int): int { if a <= b then a else b }

  function Max(a: int, b: int): int { if a <= b then b else a }

  /** `s[:n]`: the first `n` elements, or, for negative `n`, all but the last `-n`. */
  function PyPrefix<T>(s: seq<T>, n: int): (r: seq<T>)
    ensures n >= 0 ==> |r| == Min(n, |s|)
    ensures n < 0 ==> |r| == Max(0, |s| + n)
    ensures r == s[..|r|]
  {
    if n >= 0 then s[..Min(n, |s|)]
    else if |s| + n <= 0 then []
    else s[..|s| + n]
  }

  /** `s[-n:]`: the last `n` elements for positive `n`; the whole list for `n == 0`
      (because `-0 == 0`); all but the first `-n` for negative `n`. */
  function PyTail<T>(s: seq<T>, n: int): (r: seq<T>)
    ensures n > 0 ==> |r| == Min(n, |s|)
    ensures n == 0 ==> r == s
    ensures n < 0 ==> |r| == Max(0, |s| + n)
    ensures r == s[|s| - |r|..]
  {
    if n > 0 then s[|s| - Min(n, |s|)..]
    else if n == 0 then s
    else if -n >= |s| then []
    else s[-n..]
  }

  /** Taking the last `n` twice is taking them once. */
  lemma PyTailTwice<T>(s: seq<T>, n: int)
    requires n > 0
    ensures PyTail(PyTail(s, n), n) == PyTail(s, n)
  {
  }
}
