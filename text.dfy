/** Text operations: ASCII lower-casing and substring search (Python's `str.lower` and `in`). */
module Text {

  function LowerChar(c: char): (r: char)
    ensures 'A' <= c <= 'Z' ==> r as int == c as int + 32
    ensures !('A' <= c <= 'Z') ==> r == c
  {
    if 'A' <= c <= 'Z' then (c as int + 32) as char else c
  }

  /** `s.lower()` restricted to ASCII letters. */
  function Lower(s: string): (r: string)
    ensures |r| == |s|
    ensures forall i :: 0 <= i < |s| ==> r[i] == LowerChar(s[i])
    ensures forall i :: 0 <= i < |r| ==> !('A' <= r[i] <= 'Z')
  {
    seq(|s|, i requires 0 <= i < |s| => LowerChar(s[i]))
  }

  /** `k` occurs in `t` starting at position `i`. */
  predicate OccursAt(k: string, t: string, i: int) {
    0 <= i <= |t| - |k| && t[i..i + |k|] == k
  }

  /** `k in t` for strings: `k` occurs in `t` at some position. */
  ghost predicate IsSubstring(k: string, t: string) {
    exists i :: OccursAt(k, t, i)
  }

  /** Executable substring search, scanning `t` from the left. */
  function Contains(t: string, k: string): bool
    decreases |t|
  {
    if |k| > |t| then false
    else if t[..|k|] == k then true
    else Contains(t[1..], k)
  }

  lemma {:induction false} ContainsIsSubstring(t: string, k: string)
    ensures Contains(t, k) <==> IsSubstring(k, t)
    decreases |t|
  {
    if |k| > |t| {
    } else if t[..|k|] == k {
      assert OccursAt(k, t, 0);
    } else {
      ContainsIsSubstring(t[1..], k);
      if IsSubstring(k, t) {
        var i :| OccursAt(k, t, i);
        assert i != 0;
        assert t[1..][i - 1..i - 1 + |k|] == t[i..i + |k|];
        assert OccursAt(k, t[1..], i - 1);
      }
      if IsSubstring(k, t[1..]) {
        var j :| OccursAt(k, t[1..], j);
        assert t[j + 1..j + 1 + |k|] == t[1..][j..j + |k|];
        assert OccursAt(k, t, j + 1);
      }
    }
  }
}
