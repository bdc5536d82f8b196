/** The sprites of the play screen that do not travel: the top and bottom
    boundaries and the scrolling city background. */
module StaticSprites {
  import opened Geometry

  /** The background scrolls 10 pixels per update. */
  const BackgroundSpeed: nat := 10

  /** A black bar the player touches to count as grounded or on the ceiling.
      Nothing moves it, so it is a value. */
  datatype Boundary = Boundary(rect: Rect)

  class Background {
    var left: int
    const top: int
    /** Size of the repeating city image, which the model does not know. */
    const imageWidth: nat
    const imageHeight: nat
    /** The window's width, read with screen.get_width(). */
    const windowWidth: int
    /** Whether the boss-fight image is shown instead of the normal one. */
    var bossImage: bool

    constructor (windowWidth: int, imageWidth: nat, imageHeight: nat)
      ensures left == 0 && top == 0 && !bossImage
      ensures this.windowWidth == windowWidth
      ensures this.imageWidth == imageWidth && this.imageHeight == imageHeight
    {
      left := 0;
      top := 0;
      this.windowWidth := windowWidth;
      this.imageWidth := imageWidth;
      this.imageHeight := imageHeight;
      bossImage := false;
    }

    function Bounds(): Rect
      reads this`left
    {
      Rect(left, top, imageWidth, imageHeight)
    }

    /** The image covers the window (possible only if it is wider). */
    ghost predicate Valid()
      reads this`left
    {
      imageWidth > windowWidth ==> Covers(left, imageWidth, windowWidth)
    }

    method Update()
      modifies this`left
      ensures left == Scroll(old(left), BackgroundSpeed, imageWidth, windowWidth)
      ensures left == old(left) - 10 || left == 0
      ensures old(Valid()) ==> Valid()
      ensures old(Valid()) && imageWidth > windowWidth ==> left <= 0 && Bounds().Right() > windowWidth
    {
      left := left - BackgroundSpeed;
      if left + imageWidth <= windowWidth {
        left := 0;
      }
    }

    /** Shows the boss-fight image; the rect is untouched. */
    method BossFight()
      modifies this`bossImage
      ensures bossImage
    {
      bossImage := true;
    }

    /** Shows the normal image again; the rect is untouched. */
    method Normal()
      modifies this`bossImage
      ensures !bossImage
    {
      bossImage := false;
    }
  }
}
