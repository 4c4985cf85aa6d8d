/**
 * The two pure helpers of main.js that the rest of the script shares:
 * `convertToArray`, which normalises a "value or array" argument, and
 * `isRangeWithinLargerRange`, inclusive rectangle containment.
 */
module MainUtilities {
  import opened Wrappers
  import opened Host

  /** A JavaScript argument that may be null, undefined, an array, or one bare value. */
  datatype JsArg<T> = Null | Undefined | Arr(items: seq<T>) | One(item: T)

  /** `convertToArray`: null and undefined pass through, arrays are kept, anything else is wrapped. */
  function ConvertToArray<T>(v: JsArg<T>): (r: JsArg<T>)
    ensures !r.One?
    ensures r.Null? <==> v.Null?
    ensures r.Undefined? <==> v.Undefined?
    ensures v.Arr? ==> r == v
    ensures v.One? ==> r == Arr([v.item])
  {
    match v
    case Null => Null
    case Undefined => Undefined
    case Arr(_) => v
    case One(x) => Arr([x])
  }

  /** Converting twice is converting once. */
  lemma ConvertToArrayIdempotent<T>(v: JsArg<T>)
    ensures ConvertToArray(ConvertToArray(v)) == ConvertToArray(v)
  {
  }

  /** What a `for ... in` loop visits after `convertToArray`: nothing for null or undefined. */
  function Items<T>(v: JsArg<T>): (r: seq<T>)
    ensures v.Arr? ==> r == v.items
    ensures v.One? ==> r == [v.item]
    ensures v.Null? || v.Undefined? ==> r == []
  {
    match ConvertToArray(v)
    case Arr(xs) => xs
    case _ => []
  }

  /** `if (x)` after `convertToArray`: any array is truthy, even an empty one; null and undefined are not. */
  function Truthy<T>(v: JsArg<T>): (r: Option<seq<T>>)
    ensures r.Some? <==> !(v.Null? || v.Undefined?)
    ensures r.Some? ==> r.value == Items(v)
  {
    match ConvertToArray(v)
    case Arr(xs) => Some(xs)
    case _ => None
  }

  /**
   * `isRangeWithinLargerRange(inner, outer)`: inner's first and last rows and
   * columns lie inside outer's, bounds included.
   */
  function IsRangeWithinLargerRange(inner: Rect, outer: Rect): (r: bool)
    ensures r ==> forall c :: InRect(c, inner) ==> InRect(c, outer)
  {
    inner.row >= outer.row && inner.lastRow <= outer.lastRow
      && inner.col >= outer.col && inner.lastCol <= outer.lastCol
  }

  lemma WithinReflexive(r: Rect)
    ensures IsRangeWithinLargerRange(r, r)
  {
  }

  lemma WithinTransitive(a: Rect, b: Rect, c: Rect)
    requires IsRangeWithinLargerRange(a, b) && IsRangeWithinLargerRange(b, c)
    ensures IsRangeWithinLargerRange(a, c)
  {
  }

  predicate NonEmpty(r: Rect)
  {
    r.row <= r.lastRow && r.col <= r.lastCol
  }

  /** For a non-empty inner range, the bound comparison is exactly "every cell of inner is in outer". */
  lemma WithinIffCellsInside(inner: Rect, outer: Rect)
    requires NonEmpty(inner)
    ensures IsRangeWithinLargerRange(inner, outer) <==> forall c :: InRect(c, inner) ==> InRect(c, outer)
  {
    if forall c :: InRect(c, inner) ==> InRect(c, outer) {
      assert InRect(Cell(inner.row, inner.col), inner);
      assert InRect(Cell(inner.lastRow, inner.lastCol), inner);
    }
  }

  /** A single active cell lies in a range exactly when it is one of the range's cells. */
  lemma CellWithinIffInRect(c: Cell, outer: Rect)
    ensures IsRangeWithinLargerRange(Rect(c.row, c.col, c.row, c.col), outer) <==> InRect(c, outer)
  {
  }
}
