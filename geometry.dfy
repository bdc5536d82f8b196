/** Integer axis-aligned rectangles as pygame's Rect stores them, and the
    wrap-around scrolling shared by the two scrolling backgrounds. */
module Geometry {

  /** The window is opened 923.72 wide; every rect field is an integer, so
      assigning that width stores 923 and comparisons against it are made
      with integer thresholds where they are used. */
  const ScreenWidth: int := 923
  const ScreenHeight: int := 480

  datatype Rect = Rect(left: int, top: int, width: nat, height: nat) {

    function Right(): int { left + width }

    function Bottom(): int { top + height }

    function CenterX(): int { left + width / 2 }

    function CenterY(): int { top + height / 2 }

    /** pygame's colliderect: the interiors overlap; rects whose edges only
        touch, and empty rects, do not collide. */
    predicate Overlaps(other: Rect) {
      && width > 0 && height > 0 && other.width > 0 && other.height > 0
      && left < other.Right() && other.left < Right()
      && top < other.Bottom() && other.top < Bottom()
    }

    /** pygame's collidepoint: half-open on both axes. */
    predicate ContainsPoint(x: int, y: int) {
      left <= x < Right() && top <= y < Bottom()
    }

    /** Assigning `rect.right` moves the rect and keeps its size. */
    function WithRight(r: int): Rect { this.(left := r - width) }

    /** Assigning `rect.bottom` moves the rect and keeps its size. */
    function WithBottom(b: int): Rect { this.(top := b - height) }
  }

  /** One update of a horizontally repeating strip `width` wide: move left by
      `speed`; once its right edge is at or inside the window's right edge
      `window`, put its left edge back at 0. */
  function Scroll(left: int, speed: nat, width: nat, window: int): (r: int)
    ensures r == left - speed || r == 0
    ensures r == 0 || r + width > window
    ensures left - speed + width > window ==> r == left - speed
  {
    if left - speed + width <= window then 0 else left - speed
  }

  /** The strip starts at or before the window's left edge and reaches past
      its right edge: the window is covered. */
  predicate Covers(left: int, width: nat, window: int) {
    left <= 0 && left + width > window
  }

  /** The left edge after `n` scroll updates. */
  function ScrollAfter(left: int, speed: nat, width: nat, window: int, n: nat): int
  {
    if n == 0 then left else Scroll(ScrollAfter(left, speed, width, window, n - 1), speed, width, window)
  }

  /** A strip wider than the window that covers it keeps covering it, however
      many updates run. */
  lemma {:induction false} ScrollKeepsCovering(left: int, speed: nat, width: nat, window: int, n: nat)
    requires width > window
    requires Covers(left, width, window)
    ensures Covers(ScrollAfter(left, speed, width, window, n), width, window)
  {
    if n > 0 {
      ScrollKeepsCovering(left, speed, width, window, n - 1);
    }
  }
}
