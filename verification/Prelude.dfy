/** Shared vocabulary: optional values and Python's slice arithmetic. */
module Prelude {

  datatype Option<+T> = None | Some(value: T)

  function Min(a: int, b: int): int {
    if a <= b then a else b
  }

  function Max(a: int, b: int): int {
    if a <= b then b else a
  }

  /** Where a Python slice bound falls in a list of length n. */
  function Bound(i: int, n: nat): (k: nat)
    ensures k <= n
  {
    if i < 0 then Max(0, n + i) else Min(i, n)
  }

  /** Python's `s[a:b]` for arbitrary integers. */
  function Slice<T>(s: seq<T>, a: int, b: int): seq<T> {
    var lo, hi := Bound(a, |s|), Bound(b, |s|);
    if lo < hi then s[lo..hi] else []
  }

  /** Python's `s[a:]`. */
  function SliceFrom<T>(s: seq<T>, a: int): seq<T> {
    s[Bound(a, |s|)..]
  }

  /** Concatenation of a list of lists. */
  function Concat<T>(ss: seq<seq<T>>): seq<T> {
    if ss == [] then [] else ss[0] + Concat(ss[1..])
  }

  lemma {:induction false} ConcatSnoc<T>(ss: seq<seq<T>>, last: seq<T>)
    ensures Concat(ss + [last]) == Concat(ss) + last
  {
    if ss == [] {
      assert ss + [last] == [last];
      assert Concat([last]) == last + Concat<T>([]);
    } else {
      assert (ss + [last])[1..] == ss[1..] + [last];
      ConcatSnoc(ss[1..], last);
    }
  }
}
