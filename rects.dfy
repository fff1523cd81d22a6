// The rectangle re-centring extensions of pointgraph/utils/Extensions.kt (and
// their copy in lagrange/utils/Extensions.kt), over models of Android's
// RectF (Float edges) and Rect (Int edges) with the parts of their API the
// extensions call: width, height, centre and offsetTo.

module Rects {
  import opened Geometry

  /** android.graphics.RectF: four Float edges, moved in place. */
  class RectF {
    var left: real
    var top: real
    var right: real
    var bottom: real

    constructor (left: real, top: real, right: real, bottom: real)
      ensures this.left == left && this.top == top && this.right == right && this.bottom == bottom
    {
      this.left, this.top, this.right, this.bottom := left, top, right, bottom;
    }

    function Width(): real reads this { right - left }
    function Height(): real reads this { bottom - top }
    function CenterX(): real reads this { (left + right) / 2.0 }
    function CenterY(): real reads this { (top + bottom) / 2.0 }

    /** offsetTo: moves the top-left corner to the given point, keeping the size. */
    method OffsetTo(newLeft: real, newTop: real)
      modifies this
      ensures left == newLeft && top == newTop
      ensures Width() == old(Width()) && Height() == old(Height())
    {
      right := right + (newLeft - left);
      bottom := bottom + (newTop - top);
      left := newLeft;
      top := newTop;
    }

    /** setXMiddle: moves the rectangle horizontally so that its centre is at x. */
    method SetXMiddle(x: real)
      modifies this
      ensures left == x - old(Width()) / 2.0 && top == old(top)
      ensures Width() == old(Width()) && Height() == old(Height())
      ensures CenterX() == x && CenterY() == old(CenterY())
      ensures GetXPosition() == x
    {
      OffsetTo(x - Width() / 2.0, top);
    }

    /** setYMiddle: moves the rectangle vertically so that its centre is at y. */
    method SetYMiddle(y: real)
      modifies this
      ensures top == y - old(Height()) / 2.0 && left == old(left)
      ensures Width() == old(Width()) && Height() == old(Height())
      ensures CenterY() == y && CenterX() == old(CenterX())
    {
      OffsetTo(left, y - Height() / 2.0);
    }

    /** setMiddle: both centres at once; the size is kept. */
    method SetMiddle(x: real, y: real)
      modifies this
      ensures CenterX() == x && CenterY() == y
      ensures Width() == old(Width()) && Height() == old(Height())
    {
      SetXMiddle(x);
      SetYMiddle(y);
    }

    /** getXPosition: the horizontal centre. */
    function GetXPosition(): real
      reads this
    {
      CenterX()
    }
  }

  // ---------------------------------------------------------------------
  // Rect (Int edges)
  // ---------------------------------------------------------------------

  /**
   * Rect.centerX() of Android is (left + right) >> 1, the sum halved and
   * rounded down; Dafny's division by 2 rounds down as well.
   */
  function IntCenter(a: int, b: int): (c: int)
    ensures 2 * c <= a + b < 2 * c + 2
  {
    (a + b) / 2
  }

  /**
   * The left edge setXMiddle gives a Rect of width w centred at x: half
   * the width, rounded toward zero, to the left of x.
   */
  function CenteredStart(x: int, w: int): int
  {
    x - TruncDiv(w, 2)
  }

  /**
   * A Rect of non-negative size centred at x by setXMiddle has its
   * centerX() exactly at x, whether the size is even or odd.
   */
  lemma CenteredStartExact(x: int, w: int)
    requires w >= 0
    ensures IntCenter(CenteredStart(x, w), CenteredStart(x, w) + w) == x
  {
    var h := TruncDiv(w, 2);
    assert 2 * h <= w < 2 * h + 2;
    var s := CenteredStart(x, w);
    assert s + s + w == 2 * x + (w - 2 * h);
  }

  /**
   * With a negative odd width (right edge left of the left edge) the
   * centre lands one to the left of x.
   */
  lemma CenteredStartNegativeOdd(x: int, w: int)
    requires w < 0 && w % 2 == 1
    ensures IntCenter(CenteredStart(x, w), CenteredStart(x, w) + w) == x - 1
  {
    var h := TruncDiv(w, 2);
    assert 2 * h == w + 1;
    var s := CenteredStart(x, w);
    assert s + s + w == 2 * x - 1;
  }

  /** android.graphics.Rect: four Int edges, moved in place. */
  class Rect {
    var left: int
    var top: int
    var right: int
    var bottom: int

    constructor (left: int, top: int, right: int, bottom: int)
      ensures this.left == left && this.top == top && this.right == right && this.bottom == bottom
    {
      this.left, this.top, this.right, this.bottom := left, top, right, bottom;
    }

    function Width(): int reads this { right - left }
    function Height(): int reads this { bottom - top }
    function CenterX(): int reads this { IntCenter(left, right) }
    function CenterY(): int reads this { IntCenter(top, bottom) }

    method OffsetTo(newLeft: int, newTop: int)
      modifies this
      ensures left == newLeft && top == newTop
      ensures Width() == old(Width()) && Height() == old(Height())
    {
      right := right + (newLeft - left);
      bottom := bottom + (newTop - top);
      left := newLeft;
      top := newTop;
    }

    /** setXMiddle: left becomes x - width / 2 in Int arithmetic; the size is kept. */
    method SetXMiddle(x: int)
      modifies this
      ensures left == CenteredStart(x, old(Width())) && top == old(top)
      ensures Width() == old(Width()) && Height() == old(Height())
      ensures old(Width()) >= 0 ==> CenterX() == x
    {
      OffsetTo(x - TruncDiv(Width(), 2), top);
      if Width() >= 0 {
        CenteredStartExact(x, Width());
      }
    }

    /** setYMiddle: top becomes y - height / 2 in Int arithmetic; the size is kept. */
    method SetYMiddle(y: int)
      modifies this
      ensures top == CenteredStart(y, old(Height())) && left == old(left)
      ensures Width() == old(Width()) && Height() == old(Height())
      ensures old(Height()) >= 0 ==> CenterY() == y
    {
      OffsetTo(left, y - TruncDiv(Height(), 2));
      if Height() >= 0 {
        CenteredStartExact(y, Height());
      }
    }

    method SetMiddle(x: int, y: int)
      modifies this
      ensures left == CenteredStart(x, old(Width())) && top == CenteredStart(y, old(Height()))
      ensures Width() == old(Width()) && Height() == old(Height())
    {
      SetXMiddle(x);
      SetYMiddle(y);
    }

    function GetXPosition(): int
      reads this
    {
      CenterX()
    }
  }
}
