/** A value that may be missing. */
module Basics {
  datatype Option<+T> = None | Some(value: T)

  function Max(a: int, b: int): int {
    if a >= b then a else b
  }

  function Min(a: int, b: int): int {
    if a <= b then a else b
  }

  lemma SliceOfSlice<T>(s: seq<T>, from: int, to: int, i: int, j: int)
    requires 0 <= from <= to <= |s| && 0 <= i <= j <= to - from
    ensures s[from..to][i..j] == s[from + i..from + j]
  {
    var part, whole := s[from..to][i..j], s[from + i..from + j];
    forall k | 0 <= k < |part| ensures part[k] == whole[k] {
      assert part[k] == s[from..to][i + k] == s[from + (i + k)];
    }
  }
}
