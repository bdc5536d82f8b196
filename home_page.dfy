/** The home menu: the start button's hit test and the slowly scrolling city
    skyline behind it. */
module HomePage {
  import opened Geometry

  /** The start button image is scaled to 287 x 62. */
  const ButtonWidth: nat := 287
  const ButtonHeight: nat := 62

  /** The city image is scaled to 2400 x 500 and scrolls 1 pixel per update. */
  const CityWidth: nat := 2400
  const CityHeight: nat := 500
  const CitySpeed: nat := 1
  /** CityBackground.update compares the right edge with the literal 923. */
  const CityWrapRight: int := 923
  /** The leftmost position the image can take: 923 - 2400 + 1. */
  const CityMinLeft: int := -1476

  /** ImageButton.is_clicked for the button whose top-left corner is (x, y). */
  function IsClicked(x: int, y: int, mouseX: int, mouseY: int): (r: bool)
    ensures r <==> x <= mouseX < x + 287 && y <= mouseY < y + 62
  {
    Rect(x, y, ButtonWidth, ButtonHeight).ContainsPoint(mouseX, mouseY)
  }

  class CityBackground {
    var left: int
    const top: int

    constructor (x: int, y: int)
      ensures left == x && top == y
    {
      left := x;
      top := y;
    }

    function Bounds(): Rect
      reads this`left
    {
      Rect(left, top, CityWidth, CityHeight)
    }

    /** The image covers the whole window. */
    ghost predicate Valid()
      reads this`left
    {
      CityMinLeft <= left <= 0
    }

    method Update()
      modifies this`left
      ensures left == Scroll(old(left), CitySpeed, CityWidth, CityWrapRight)
      ensures left == old(left) - 1 || left == 0
      ensures old(Valid()) ==> Valid() && Bounds().Right() > CityWrapRight
    {
      left := left - CitySpeed;
      if left + CityWidth <= CityWrapRight {
        left := 0;
      }
    }
  }

  /** Starting from 0, the k-th update leaves the image k pixels to the left,
      up to the leftmost position. */
  lemma {:induction false} CityScrollsOnePixel(k: nat)
    requires k <= -CityMinLeft
    ensures ScrollAfter(0, CitySpeed, CityWidth, CityWrapRight, k) == -(k as int)
  {
    if k > 0 {
      CityScrollsOnePixel(k - 1);
    }
  }

  /** The skyline loops: it is back at 0 after exactly 1477 updates and not
      before; in between it stays within [CityMinLeft, 0]. */
  lemma CityLoopPeriod()
    ensures ScrollAfter(0, CitySpeed, CityWidth, CityWrapRight, 1477) == 0
    ensures forall k: nat :: 0 < k < 1477 ==>
      ScrollAfter(0, CitySpeed, CityWidth, CityWrapRight, k) != 0
    ensures forall k: nat :: k < 1477 ==>
      CityMinLeft <= ScrollAfter(0, CitySpeed, CityWidth, CityWrapRight, k) <= 0
  {
    forall k: nat | k < 1477
      ensures ScrollAfter(0, CitySpeed, CityWidth, CityWrapRight, k) == -(k as int)
    {
      CityScrollsOnePixel(k);
    }
    CityScrollsOnePixel(1476);
  }
}
