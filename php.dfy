/** The few PHP value semantics the guard relies on: values that are either
    null or a string, the `empty()` test, and `array_pad`. */
module Php {

  /** A PHP value that is null or a string. */
  datatype Option<+T> = None | Some(value: T)

  /** PHP's `empty()` on a null-or-string value: null, "" and "0" are empty,
      every other string (" ", "00", "false", ...) is not. */
  predicate IsEmpty(v: Option<string>)
    ensures v.None? ==> IsEmpty(v)
    ensures v.Some? && |v.value| != 1 ==> (IsEmpty(v) <==> v.value == [])
    ensures v.Some? && |v.value| == 1 ==> (IsEmpty(v) <==> v.value[0] == '0')
  {
    v.None? || v.value == "" || v.value == "0"
  }

  /** PHP's `is_null($x) ? $fallback : $x` for a string fallback: only
      null is replaced; every string, "" and "0" included, is kept. */
  function OrElse(v: Option<string>, fallback: string): (r: string)
    ensures v.None? ==> r == fallback
    ensures v.Some? ==> r == v.value
  {
    if v.None? then fallback else v.value
  }

  /** PHP's `array_pad($s, n, $fill)` for a list and a non-negative size:
      the list itself when it already has `n` elements or more, otherwise the
      list followed by copies of `fill` up to length `n`. */
  function ArrayPad<T>(s: seq<T>, n: nat, fill: T): (r: seq<T>)
    ensures |r| == if |s| < n then n else |s|
    ensures r[..|s|] == s
    ensures forall i :: |s| <= i < |r| ==> r[i] == fill
    decreases n - |s|
  {
    if |s| >= n then s else ArrayPad(s + [fill], n, fill)
  }
}
