/**
 * The part of java.lang.String that the ticket validator relies on:
 * `trim()`, which removes every character whose code is at most U+0020
 * (the space and all control characters) from both ends of a string,
 * and `isEmpty()`, which is the test `s == []`.
 */
module JavaStrings {

  /** True when every character of `s` is one that `trim()` strips. */
  predicate IsBlank(s: string)
  {
    forall i :: 0 <= i < |s| ==> s[i] <= ' '
  }

  /** The first loop of `trim()`: drop characters at most ' ' from the front. */
  function TrimLeading(s: string): (r: string)
    ensures |r| <= |s| && r == s[|s| - |r|..]
    ensures r == [] || r[0] > ' '
    ensures forall i :: 0 <= i < |s| - |r| ==> s[i] <= ' '
    decreases |s|
  {
    if s != [] && s[0] <= ' ' then TrimLeading(s[1..]) else s
  }

  /** The second loop of `trim()`: drop characters at most ' ' from the back. */
  function TrimTrailing(s: string): (r: string)
    ensures |r| <= |s| && r == s[..|r|]
    ensures r == [] || r[|r| - 1] > ' '
    ensures forall i :: |r| <= i < |s| ==> s[i] <= ' '
    decreases |s|
  {
    if s != [] && s[|s| - 1] <= ' ' then TrimTrailing(s[..|s| - 1]) else s
  }

  /**
   * `s.trim()`: the slice of `s` between the leading and the trailing run
   * of characters at most ' '. It is empty exactly when `s` is blank, and
   * otherwise it starts and ends with a character above ' '.
   */
  function Trim(s: string): (r: string)
    ensures |r| <= |s|
    ensures r == [] <==> IsBlank(s)
    ensures r != [] ==> r[0] > ' ' && r[|r| - 1] > ' '
    ensures exists i, j :: 0 <= i <= j <= |s| && r == s[i..j] &&
              forall k :: 0 <= k < i || j <= k < |s| ==> s[k] <= ' '
  {
    var t := TrimLeading(s);
    var r := TrimTrailing(t);
    var i := |s| - |t|;
    assert r == s[i..i + |r|];
    r
  }

  /** A string that already starts and ends with a character above ' ' is left as it is. */
  lemma TrimKeepsTrimmed(s: string)
    requires s == [] || (s[0] > ' ' && s[|s| - 1] > ' ')
    ensures Trim(s) == s
  {
  }

  /** Trimming twice is trimming once. */
  lemma TrimIdempotent(s: string)
    ensures Trim(Trim(s)) == Trim(s)
  {
    TrimKeepsTrimmed(Trim(s));
  }
}
