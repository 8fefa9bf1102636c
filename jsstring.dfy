/**
 * The three JavaScript string primitives the counter relies on:
 * `lastIndexOf`, one-argument `slice` and `padEnd`, with their
 * negative-index and short-input rules written out.
 */
module JsString {

  /** `s.lastIndexOf(c)`: the index of the last `c` in `s`, or -1 when there is none. */
  function LastIndexOf(s: string, c: char): (i: int)
    ensures -1 <= i < |s|
  {
    if |s| == 0 then -1
    else if s[|s| - 1] == c then |s| - 1
    else LastIndexOf(s[..|s| - 1], c)
  }

  /** The result is -1 exactly when `c` does not occur, and otherwise an index of `c` with no `c` after it. */
  lemma {:induction false} LastIndexOfSpec(s: string, c: char)
    ensures var r := LastIndexOf(s, c);
      -1 <= r < |s| &&
      (r == -1 <==> c !in s) &&
      (0 <= r ==> s[r] == c && c !in s[r + 1..])
  {
    if |s| > 0 && s[|s| - 1] != c {
      var init := s[..|s| - 1];
      LastIndexOfSpec(init, c);
      assert s == init + [s[|s| - 1]];
      var r := LastIndexOf(init, c);
      if 0 <= r {
        assert s[r + 1..] == init[r + 1..] + [s[|s| - 1]];
      }
    }
  }

  /** `s.slice(start)`: the suffix of `s` from `start` on, a negative `start` counting from the end. */
  function Slice(s: string, start: int): (r: string)
    ensures |r| <= |s|
  {
    var from := if start < 0 then (if |s| + start < 0 then 0 else |s| + start)
                else if start > |s| then |s| else start;
    s[from..]
  }

  /**
   * `slice` keeps a suffix: a non-negative `start` drops that many characters
   * (all of them when it is past the end), and a negative `start` keeps the
   * last `-start` characters (all of them when `s` is shorter).
   */
  lemma SliceSpec(s: string, start: int)
    ensures var r := Slice(s, start);
      |r| <= |s| && r == s[|s| - |r|..] &&
      (0 <= start ==> |r| == if start <= |s| then |s| - start else 0) &&
      (start < 0 ==> |r| == if -start <= |s| then -start else |s|)
  {
  }

  /**
   * `fill` repeated and cut to exactly `n` characters: it starts with `fill`
   * and repeats with period `|fill|`.
   */
  function Repeat(fill: string, n: nat): (r: string)
    requires fill != ""
    ensures |r| == n
    ensures forall k :: 0 <= k < n ==> r[k] == if k < |fill| then fill[k] else r[k - |fill|]
    decreases n
  {
    if n <= |fill| then fill[..n] else fill + Repeat(fill, n - |fill|)
  }

  /** A one-character fill repeats that character throughout. */
  lemma {:induction false} RepeatOne(c: char, n: nat, k: nat)
    requires k < n
    ensures Repeat([c], n)[k] == c
    decreases k
  {
    if k >= 1 {
      RepeatOne(c, n, k - 1);
    }
  }

  /**
   * `s.padEnd(n, fill)`: `s` itself when it already has `n` characters or
   * `fill` is empty; otherwise `s` followed by copies of `fill`, cut so that
   * the result has exactly `n` characters.
   */
  function PadEnd(s: string, n: int, fill: string): (r: string)
    ensures n <= |s| || fill == "" ==> r == s
    ensures |s| < n && fill != "" ==>
      |r| == n && r[..|s|] == s &&
      r[|s|..] == Repeat(fill, n - |s|)
  {
    if n <= |s| || fill == "" then s else s + Repeat(fill, n - |s|)
  }
}
