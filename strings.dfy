/**
 * The few `java.lang.String` operations the model relies on, over `seq<char>`:
 * `indexOf` (from the start or from a position) and `trim`.
 */
module JavaStrings {

  /** `s.indexOf(c)`: the index of the first occurrence of `c`, or -1. */
  function IndexOf(s: string, c: char): (i: int)
    ensures -1 <= i < |s|
    ensures i >= 0 ==> s[i] == c && c !in s[..i]
    ensures i == -1 <==> c !in s
  {
    IndexOfFrom(s, c, 0)
  }

  /** `s.indexOf(c, from)` for a position inside or at the end of `s`. */
  function IndexOfFrom(s: string, c: char, from: nat): (i: int)
    requires from <= |s|
    ensures i == -1 || from <= i < |s|
    ensures i >= 0 ==> s[i] == c && c !in s[from..i]
    ensures i == -1 <==> c !in s[from..]
    decreases |s| - from
  {
    if from == |s| then -1
    else if s[from] == c then from
    else
      var j := IndexOfFrom(s, c, from + 1);
      assert s[from..] == [s[from]] + s[from + 1..];
      assert j >= 0 ==> s[from..j] == [s[from]] + s[from + 1..j];
      j
  }

  /** The first occurrence of `c` at or after `from` is where `indexOf` stops. */
  lemma {:induction false} IndexOfFromIs(s: string, c: char, from: nat, k: nat)
    requires from <= k < |s| && s[k] == c
    requires forall j :: from <= j < k ==> s[j] != c
    ensures IndexOfFrom(s, c, from) == k
    decreases k - from
  {
    if from < k {
      IndexOfFromIs(s, c, from + 1, k);
    }
  }

  /** Characters `trim` removes: the space and every control character. */
  predicate IsTrimmed(c: char)
  {
    c <= ' '
  }

  /** The number of leading characters `trim` removes. */
  function TrimStart(s: string): (i: nat)
    ensures i <= |s|
    ensures forall k :: 0 <= k < i ==> IsTrimmed(s[k])
    ensures i == |s| || !IsTrimmed(s[i])
  {
    if |s| == 0 || !IsTrimmed(s[0]) then 0
    else 1 + TrimStart(s[1..])
  }

  /** The end of `s[lo..]` once trailing trimmed characters are removed. */
  function TrimEnd(s: string, lo: nat): (j: nat)
    requires lo <= |s|
    ensures lo <= j <= |s|
    ensures forall k :: j <= k < |s| ==> IsTrimmed(s[k])
    ensures j == lo || !IsTrimmed(s[j - 1])
    decreases |s| - lo
  {
    if |s| == lo || !IsTrimmed(s[|s| - 1]) then |s|
    else TrimEnd(s[..|s| - 1], lo)
  }

  /**
   * `s.trim()`: `s` without its leading and trailing spaces and control
   * characters. The result is empty or starts and ends with another character.
   */
  function Trim(s: string): (t: string)
    ensures |t| == 0 || (!IsTrimmed(t[0]) && !IsTrimmed(t[|t| - 1]))
    ensures |t| == 0 <==> forall k :: 0 <= k < |s| ==> IsTrimmed(s[k])
    ensures |t| <= |s|
    ensures TrimStart(s) + |t| <= |s| && t == s[TrimStart(s)..TrimStart(s) + |t|]
    ensures forall k :: TrimStart(s) + |t| <= k < |s| ==> IsTrimmed(s[k])
  {
    var i := TrimStart(s);
    var j := TrimEnd(s, i);
    s[i..j]
  }
}
