/** Python list slicing `s[start:]`, including negative starts, which count
    from the end of the list and are clamped at its beginning. */
module PyList {

  function Min(a: int, b: int): int {
    if a <= b then a else b
  }

  /** `s[start:]` with Python's index normalisation: a negative `start` is
      offset by `len(s)` and clamped to 0, a start past the end gives `[]`. */
  function SliceFrom<T>(s: seq<T>, start: int): (r: seq<T>)
    ensures |r| <= |s| && r == s[|s| - |r|..]
    ensures start >= 0 ==> |r| == |s| - Min(start, |s|)
    ensures start < 0 ==> |r| == Min(-start, |s|)
  {
    var n := |s|;
    var b := if start < 0 then (if start + n < 0 then 0 else start + n)
             else (if start > n then n else start);
    s[b..]
  }
}
