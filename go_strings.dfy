/** The two functions of Go's `strings` package the trace-header parsers rely on.
    Strings are sequences of characters; the only characters searched for
    ('/', ';', '0') are ASCII, so character positions stand in for byte offsets. */
module GoStrings {

  /** True when every character of `s` is `c` (vacuously true of ""). */
  predicate AllOf(s: string, c: char) {
    forall k | 0 <= k < |s| :: s[k] == c
  }

  /** strings.IndexByte: the position of the first `c` in `s`, or -1 when there is none. */
  function IndexByte(s: string, c: char): (i: int)
    ensures -1 <= i < |s|
    ensures i == -1 <==> c !in s
    ensures 0 <= i ==> s[i] == c && c !in s[..i]
  {
    if |s| == 0 then -1
    else if s[0] == c then 0
    else
      var j := IndexByte(s[1..], c);
      if j == -1 then -1 else j + 1
  }

  /** strings.Count with a one-character pattern: how many times `c` occurs in `s`. */
  function CountByte(s: string, c: char): (n: nat)
    ensures n <= |s|
    ensures n == |s| <==> AllOf(s, c)
  {
    if |s| == 0 then 0
    else (if s[0] == c then 1 else 0) + CountByte(s[1..], c)
  }

  /** When `c` does not occur in `t`, the first `c` of `t + [c] + rest` is the one right after `t`. */
  lemma IndexByteAfter(t: string, c: char, rest: string)
    requires c !in t
    ensures IndexByte(t + [c] + rest, c) == |t|
  {
    var s := t + [c] + rest;
    assert s[|t|] == c;
  }
}
