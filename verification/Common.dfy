/** Small types shared by the models. */
module Common {

  datatype Option<+T> = None | Some(value: T)

  datatype Result<+T, +E> = Ok(value: T) | Err(error: E)

  type byte = x: int | 0 <= x < 256

  /** Nanoseconds; 0 stands for Go's zero time. */
  type Time = int

  const SECOND: int := 1_000_000_000
  const MINUTE: int := 60 * SECOND
  const HOUR: int := 60 * MINUTE

  const TWO_63: int := 0x8000_0000_0000_0000
  const TWO_64: int := 0x1_0000_0000_0000_0000

  /** Go's int64 wrap-around. */
  function Int64(x: int): int {
    (x + TWO_63) % TWO_64 - TWO_63
  }

  function Max(a: int, b: int): int { if a < b then b else a }

  function Min(a: int, b: int): int { if a < b then a else b }

  function Filter<T>(p: T -> bool, s: seq<T>): seq<T>
    decreases |s|
  {
    if s == [] then []
    else
      var n := |s| - 1;
      if p(s[n]) then Filter(p, s[..n]) + [s[n]] else Filter(p, s[..n])
  }

  lemma {:induction false} FilterShorter<T>(p: T -> bool, s: seq<T>)
    ensures |Filter(p, s)| <= |s| && (|Filter(p, s)| == |s| ==> Filter(p, s) == s)
    decreases |s|
  {
    if s != [] {
      FilterShorter(p, s[..|s| - 1]);
      assert s == s[..|s| - 1] + [s[|s| - 1]];
    }
  }

  lemma {:induction false} FilterFacts<T>(p: T -> bool, s: seq<T>)
    ensures |Filter(p, s)| <= |s|
    ensures forall x :: x in Filter(p, s) <==> x in s && p(x)
    decreases |s|
  {
    if s != [] {
      FilterFacts(p, s[..|s| - 1]);
      assert s == s[..|s| - 1] + [s[|s| - 1]];
    }
  }
}
