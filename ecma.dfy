/**
 * The few pieces of ECMAScript semantics (ECMA-262) that the product server's
 * handlers rely on: numbers as `parseInt` produces them, strict equality on
 * numbers, the ToIntegerOrInfinity conversion and `Array.prototype.splice`
 * called without items to insert.
 */
module Ecma {

  /**
   * The numbers the handlers see: `parseInt` yields an integer or NaN, and
   * `ToNumber` of an object or of `undefined` yields NaN.  Infinities and
   * fractions never arise there and are not represented.
   */
  datatype JsNumber = NaN | Int(value: int)

  /** `a === b` on two numbers: NaN is unequal to every number, itself included. */
  predicate StrictEquals(a: JsNumber, b: JsNumber)
  {
    a.Int? && b.Int? && a.value == b.value
  }

  /** ToIntegerOrInfinity (section 7.1.5 of ECMA-262): NaN becomes 0, an integer stays itself. */
  function ToIntegerOrInfinity(n: JsNumber): int
  {
    match n
    case NaN => 0
    case Int(k) => k
  }

  /**
   * The index at which `splice` starts for a relative start on an array of
   * length `len`: a negative start counts from the end, and both ends clamp.
   */
  function ActualStart(relativeStart: int, len: nat): (r: nat)
    ensures r <= len
    ensures 0 <= relativeStart <= len ==> r == relativeStart
    ensures relativeStart < 0 && 0 <= len + relativeStart ==> r == len + relativeStart
  {
    if relativeStart < 0 then
      (if len + relativeStart < 0 then 0 else len + relativeStart)
    else if relativeStart < len then relativeStart
    else len
  }

  /** The number of elements `splice` removes: the requested count, clamped to what lies after the start. */
  function ActualDeleteCount(deleteCount: int, start: nat, len: nat): (r: nat)
    requires start <= len
    ensures start + r <= len
    ensures 0 <= deleteCount <= len - start ==> r == deleteCount
  {
    if deleteCount < 0 then 0
    else if deleteCount < len - start then deleteCount
    else len - start
  }

  /**
   * The array that `s.splice(start, deleteCount)` leaves behind (Array.prototype.splice,
   * ECMA-262): the elements before the actual start stay where they are, the
   * deleted run disappears and the rest moves down.
   */
  function Splice<T>(s: seq<T>, start: JsNumber, deleteCount: JsNumber): (r: seq<T>)
    ensures var a := ActualStart(ToIntegerOrInfinity(start), |s|);
            var d := ActualDeleteCount(ToIntegerOrInfinity(deleteCount), a, |s|);
            && |r| == |s| - d
            && (forall k :: 0 <= k < a ==> r[k] == s[k])
            && (forall k :: a <= k < |r| ==> r[k] == s[k + d])
  {
    var a := ActualStart(ToIntegerOrInfinity(start), |s|);
    var d := ActualDeleteCount(ToIntegerOrInfinity(deleteCount), a, |s|);
    s[..a] + s[a + d..]
  }

  /** A NaN start counts as 0: `splice(NaN, 1)` drops the first element, or nothing from an empty array. */
  lemma SpliceNaNStart<T>(s: seq<T>)
    ensures Splice(s, NaN, Int(1)) == if |s| == 0 then s else s[1..]
  {
  }
}
