/**
 * The few ECMAScript built-in semantics the browser code depends on:
 * relative indices of `Array.prototype.slice` and `splice`, and the
 * remainder operator `%`, which truncates toward zero.
 */
module Js {

  /**
   * ECMAScript's resolution of a relative index against a length:
   * a negative index counts from the end and is clamped at 0,
   * a non-negative one is clamped at the length.
   */
  function RelativeIndex(rel: int, len: nat): (r: nat)
    ensures r <= len
    ensures 0 <= rel <= len ==> r == rel
  {
    if rel < 0 then (if len + rel < 0 then 0 else len + rel)
    else if rel < len then rel
    else len
  }

  /** `s.slice(0, end)`. */
  function SliceTo<T>(s: seq<T>, end: int): (r: seq<T>)
    ensures |r| == RelativeIndex(end, |s|)
    ensures r == s[..|r|]
  {
    s[..RelativeIndex(end, |s|)]
  }

  /** The position `s.splice(start, 1)` removes from, when it removes anything. */
  function SpliceStart(start: int, len: nat): nat
  {
    RelativeIndex(start, len)
  }

  /** The contents of `s` after `s.splice(start, 1)`. */
  function SpliceOne<T>(s: seq<T>, start: int): (r: seq<T>)
    ensures SpliceStart(start, |s|) < |s| ==> |r| == |s| - 1
    ensures SpliceStart(start, |s|) == |s| ==> r == s
  {
    var k := SpliceStart(start, |s|);
    if k < |s| then s[..k] + s[k + 1..] else s
  }

  /** JavaScript's `a % n` for a positive divisor: the result takes the sign of `a`. */
  function Rem(a: int, n: int): (r: int)
    requires n > 0
    ensures a >= 0 ==> 0 <= r < n
    ensures a < 0 ==> -n < r <= 0
    ensures (a - r) % n == 0
  {
    var r := if a >= 0 then a % n else -((-a) % n);
    MultipleRem(if a >= 0 then a / n else -((-a) / n), n);
    r
  }

  /** A multiple of n leaves no remainder. */
  lemma MultipleRem(q: int, n: int)
    requires n > 0
    ensures (q * n) % n == 0
  {
    var d := q - (q * n) / n;
    assert d * n == (q * n) % n by {
      assert q * n == ((q * n) / n) * n + (q * n) % n;
    }
    MulBounds(d, n);
  }

  /** A non-zero multiple of n is at least n away from zero. */
  lemma MulBounds(d: int, n: int)
    requires n > 0
    ensures d >= 1 ==> d * n >= n
    ensures d <= -1 ==> d * n <= -n
  {
    if d >= 1 {
      assert d * n == (d - 1) * n + n;
    } else if d <= -1 {
      assert d * n == (d + 1) * n - n;
    }
  }


}
