/**
 * The slice of Python's value model that the chat page relies on: the JSON-shaped
 * values a foreign call can hand back, their truthiness (what `if x:` and `a or b`
 * test), and `str.strip()` with Python's own notion of whitespace.
 */
module PyValues {

  /** A JSON-shaped Python value. Numbers are integers here; see README for floats. */
  datatype PyValue =
    | PyNone
    | PyBool(b: bool)
    | PyInt(i: int)
    | PyStr(s: string)
    | PyList(items: seq<PyValue>)
    | PyDict(entries: map<string, PyValue>)

  /** Python truthiness: None, False, 0 and empty containers are falsy, all else truthy. */
  predicate Truthy(v: PyValue)
  {
    match v
    case PyNone => false
    case PyBool(b) => b
    case PyInt(i) => i != 0
    case PyStr(s) => s != ""
    case PyList(items) => items != []
    case PyDict(entries) => entries != map[]
  }

  /**
   * The characters for which Python's `str.isspace()` holds, which are exactly the
   * characters `str.strip()` with no argument removes.
   */
  predicate IsSpace(c: char)
  {
    || ('\U{9}' <= c <= '\U{D}')
    || ('\U{1C}' <= c <= '\U{20}')
    || c == '\U{85}' || c == '\U{A0}' || c == '\U{1680}'
    || ('\U{2000}' <= c <= '\U{200A}')
    || c == '\U{2028}' || c == '\U{2029}' || c == '\U{202F}' || c == '\U{205F}' || c == '\U{3000}'
  }

  /** Every character of `s` from index `lo` up to (not including) `hi` is whitespace. */
  ghost predicate SpaceBetween(s: string, lo: int, hi: int)
    requires 0 <= lo <= hi <= |s|
  {
    forall k :: lo <= k < hi ==> IsSpace(s[k])
  }

  /** Every character of `s` is whitespace (vacuously true of the empty string). */
  ghost predicate AllSpace(s: string)
  {
    SpaceBetween(s, 0, |s|)
  }

  /**
   * The index of the first non-whitespace character of `s` at or after `i`, or `|s|`
   * when there is none: how `strip()` scans from the left.
   */
  function SkipLeading(s: string, i: nat): (n: nat)
    requires i <= |s|
    ensures i <= n <= |s| && SpaceBetween(s, i, n)
    ensures n == |s| || !IsSpace(s[n])
    decreases |s| - i
  {
    if i < |s| && IsSpace(s[i]) then SkipLeading(s, i + 1) else i
  }

  /**
   * The index just past the last non-whitespace character of `s` before `j`, never
   * going below `lo`: how `strip()` scans from the right.
   */
  function SkipTrailing(s: string, lo: nat, j: nat): (n: nat)
    requires lo <= j <= |s|
    ensures lo <= n <= j && SpaceBetween(s, n, j)
    ensures n == lo || !IsSpace(s[n - 1])
  {
    if lo < j && IsSpace(s[j - 1]) then SkipTrailing(s, lo, j - 1) else j
  }

  /**
   * `s.strip()`: whitespace removed from both ends. The result is the slice of `s`
   * between a whitespace-only prefix and a whitespace-only suffix, it neither starts
   * nor ends with whitespace, and it is empty exactly when `s` is whitespace only
   * (which is how the name check of the chat form reads).
   */
  function Strip(s: string): (r: string)
    ensures exists i :: 0 <= i <= |s| - |r| && r == s[i..i + |r|] && SpaceBetween(s, 0, i) && SpaceBetween(s, i + |r|, |s|)
    ensures r == [] || (!IsSpace(r[0]) && !IsSpace(r[|r| - 1]))
    ensures r == [] <==> AllSpace(s)
  {
    var lo := SkipLeading(s, 0);
    var hi := SkipTrailing(s, lo, |s|);
    assert lo < hi ==> !AllSpace(s) by {
      if lo < hi { assert !IsSpace(s[lo]); }
    }
    s[lo..hi]
  }
}
