/** The sprites that travel across the play screen: obstacles (flying cars),
    gems, the player's projectiles (shurikens), the sword and the boss. */
module MovingSprites {
  import opened Geometry

  // ---------------------------------------------------------------- Obstacle

  /** An obstacle's image is scaled to 100 x 50, whatever size it is given. */
  const ObstacleWidth: nat := 100
  const ObstacleHeight: nat := 50
  /** A recycled obstacle's left edge is set to SCREEN_WIDTH, stored as 923. */
  const RecycleLeft: int := 923
  /** A recycled obstacle's bottom is drawn from [50, SCREEN_HEIGHT - 50]. */
  const RecycleMinBottom: int := 50
  const RecycleMaxBottom: int := 430

  /** One Obstacle.update: move left by `speed`; an obstacle that has left the
      screen (right edge below 0) is recycled to the right edge at the bottom
      `newBottom` drawn by the caller. */
  function ObstacleStep(r: Rect, speed: int, newBottom: int): (r': Rect)
    requires RecycleMinBottom <= newBottom <= RecycleMaxBottom
    ensures r'.width == r.width && r'.height == r.height
    ensures r'.Right() >= 0
    ensures r.Right() - speed >= 0 ==> r' == r.(left := r.left - speed)
    ensures r.Right() - speed < 0 ==>
      r'.left == RecycleLeft && r'.Bottom() == newBottom
  {
    var moved := r.(left := r.left - speed);
    if moved.Right() < 0 then moved.(left := RecycleLeft).WithBottom(newBottom) else moved
  }

  class Obstacle {
    var left: int
    var top: int
    const speed: int

    constructor (x: int, y: int, speed: int)
      ensures left == x && top == y && this.speed == speed
    {
      left := x;
      top := y;
      this.speed := speed;
    }

    function Bounds(): Rect
      reads this`left, this`top
    {
      Rect(left, top, ObstacleWidth, ObstacleHeight)
    }

    method Update(newBottom: int)
      requires RecycleMinBottom <= newBottom <= RecycleMaxBottom
      modifies this`left, this`top
      ensures Bounds() == ObstacleStep(old(Bounds()), speed, newBottom)
      ensures Bounds().Right() >= 0
    {
      left := left - speed;
      if left + ObstacleWidth < 0 {
        left := RecycleLeft;
        top := newBottom - ObstacleHeight;
      }
    }
  }

  // --------------------------------------------------------------------- Gem

  /** A gem's image is scaled to 35 x 35; there are four look-alike variants. */
  const GemSize: nat := 35
  const GemVariants: int := 4

  class Gem {
    var left: int
    var top: int
    const speed: int
    /** Which of the four images is shown; it has no effect on play. */
    const variant: int

    constructor (x: int, y: int, speed: int, variant: int)
      requires 0 <= variant < GemVariants
      ensures left == x && top == y && this.speed == speed && this.variant == variant
    {
      left := x;
      top := y;
      this.speed := speed;
      this.variant := variant;
    }

    function Bounds(): Rect
      reads this`left, this`top
    {
      Rect(left, top, GemSize, GemSize)
    }

    /** Moves left by `speed`; `killed` says the gem removes itself from its
        groups, which happens exactly when it has left the screen. */
    method Update() returns (killed: bool)
      modifies this`left
      ensures left == old(left) - speed
      ensures killed <==> Bounds().Right() < 0
    {
      left := left - speed;
      killed := left + GemSize < 0;
    }
  }

  // -------------------------------------------------------------- Projectile

  /** A shuriken is 25 x 25, travels 15 to the right per update and cycles
      through 4 images, changing image when more than 2 ms have passed. */
  const ProjectileSize: nat := 25
  const ProjectileSpeed: int := 15
  const ProjectileFrames: int := 4
  const ProjectileFrameDelay: int := 2
  /** `rect.left > 923.72` holds of an integer left exactly when left > 923. */
  const ProjectileLastLeft: int := 923

  /** A projectile as a value: nothing but its group refers to it. */
  datatype Projectile = Projectile(left: int, top: int, imageIndex: int, lastUpdate: int) {

    function Bounds(): Rect {
      Rect(left, top, ProjectileSize, ProjectileSize)
    }

    predicate Valid() {
      0 <= imageIndex < ProjectileFrames
    }
  }

  predicate AllValid(ps: seq<Projectile>) {
    forall p | p in ps :: p.Valid()
  }

  /** A new projectile with its top-left corner at (x, y), created at `now`. */
  function NewProjectile(x: int, y: int, now: int): (p: Projectile)
    ensures p.Valid() && p.Bounds() == Rect(x, y, ProjectileSize, ProjectileSize)
    ensures p.imageIndex == 0 && p.lastUpdate == now
  {
    Projectile(x, y, 0, now)
  }

  /** One Projectile.update at pygame time `now`, before the off-screen test. */
  function ProjectileStep(p: Projectile, now: int): (q: Projectile)
    requires p.Valid()
    ensures q.Valid()
    ensures q.left == p.left + ProjectileSpeed && q.top == p.top
    ensures now - p.lastUpdate > ProjectileFrameDelay ==>
      q.imageIndex == (p.imageIndex + 1) % ProjectileFrames && q.lastUpdate == now
    ensures now - p.lastUpdate <= ProjectileFrameDelay ==>
      q.imageIndex == p.imageIndex && q.lastUpdate == p.lastUpdate
  {
    var p' := if now - p.lastUpdate > ProjectileFrameDelay
      then p.(lastUpdate := now, imageIndex := (p.imageIndex + 1) % ProjectileFrames)
      else p;
    p'.(left := p'.left + ProjectileSpeed)
  }

  /** A projectile past the right edge of the window removes itself. */
  predicate OffScreen(p: Projectile) {
    p.left > ProjectileLastLeft
  }

  /** What one update of the projectile group leaves in it: every projectile
      moved, those that went off screen removed, in group order. */
  function UpdateAll(ps: seq<Projectile>, now: int): seq<Projectile>
    requires AllValid(ps)
  {
    if ps == [] then []
    else
      var q := ProjectileStep(ps[|ps| - 1], now);
      UpdateAll(ps[..|ps| - 1], now) + (if OffScreen(q) then [] else [q])
  }

  /** The group after an update holds exactly the moved projectiles that are
      still on screen, and each of them is valid and on screen. */
  lemma {:induction false} UpdateAllKeepsOnScreen(ps: seq<Projectile>, now: int)
    requires AllValid(ps)
    ensures AllValid(UpdateAll(ps, now))
    ensures |UpdateAll(ps, now)| <= |ps|
    ensures forall q | q in UpdateAll(ps, now) :: !OffScreen(q)
    ensures forall q | q in UpdateAll(ps, now) :: exists p | p in ps :: q == ProjectileStep(p, now)
    ensures forall p | p in ps :: !OffScreen(ProjectileStep(p, now)) ==> ProjectileStep(p, now) in UpdateAll(ps, now)
  {
    if ps != [] {
      var init := ps[..|ps| - 1];
      var last := ps[|ps| - 1];
      assert ps == init + [last];
      UpdateAllKeepsOnScreen(init, now);
      var q := ProjectileStep(last, now);
      var tail := if OffScreen(q) then [] else [q];
      assert UpdateAll(ps, now) == UpdateAll(init, now) + tail;
      forall r | r in UpdateAll(ps, now)
        ensures exists p | p in ps :: r == ProjectileStep(p, now)
      {
        if r in UpdateAll(init, now) {
          var p :| p in init && r == ProjectileStep(p, now);
          assert p in ps;
        } else {
          assert r == q && last in ps;
        }
      }
    }
  }

  /** The group update (`projectiles.update()`): each projectile moves, and
      those past the right edge kill themselves. */
  method UpdateProjectiles(ps: seq<Projectile>, now: int) returns (kept: seq<Projectile>)
    requires AllValid(ps)
    ensures kept == UpdateAll(ps, now)
    ensures AllValid(kept)
  {
    kept := [];
    var i := 0;
    while i < |ps|
      invariant 0 <= i <= |ps|
      invariant kept == UpdateAll(ps[..i], now)
    {
      assert ps[..i + 1][..i] == ps[..i];
      var q := ProjectileStep(ps[i], now);
      if !OffScreen(q) {
        kept := kept + [q];
      }
      i := i + 1;
    }
    assert ps[..i] == ps;
    UpdateAllKeepsOnScreen(ps, now);
  }

  // ------------------------------------------------------------------- Sword

  /** The sword animation has 5 frames. */
  const SwordFrames: int := 5
  /** The sword's rect sits 50 left of and 60 above the player's corner. */
  const SwordOffsetX: int := 50
  const SwordOffsetY: int := 60

  datatype SwingState = SwingState(swinging: bool, frame: int) {
    predicate Valid() {
      0 <= frame < SwordFrames && (!swinging ==> frame == 0)
    }
  }

  /** The outcome of one animation update: the next state and whether the
      sword removed itself from its group. */
  datatype SwingStep = SwingStep(next: SwingState, killed: bool)

  /** Sword.swing: a no-op during a swing, otherwise a swing from frame 0. */
  function StartSwing(s: SwingState): SwingState
  {
    if s.swinging then s else SwingState(true, 0)
  }

  /** The animation half of Sword.update (one frame per update). */
  function AdvanceSwing(s: SwingState): (r: SwingStep)
    requires s.Valid()
    ensures r.next.Valid()
    ensures r.killed <==> s.swinging && s.frame == SwordFrames - 1
    ensures r.killed ==> r.next == SwingState(false, 0)
    ensures s.swinging && s.frame < SwordFrames - 1 ==> r.next == SwingState(true, s.frame + 1)
    ensures !s.swinging ==> r.next == s
  {
    if !s.swinging then SwingStep(s, false)
    else if s.frame + 1 >= SwordFrames then SwingStep(SwingState(false, 0), true)
    else SwingStep(SwingState(true, s.frame + 1), false)
  }

  /** The animation state after `n` updates. */
  function SwingAfter(s: SwingState, n: nat): (r: SwingState)
    requires s.Valid()
    ensures r.Valid()
  {
    if n == 0 then s else AdvanceSwing(SwingAfter(s, n - 1)).next
  }

  /** A swing started from rest shows frames 0..4 on the next updates, and the
      fifth update ends it and removes the sword. */
  lemma {:induction false} SwingRunsFiveUpdates(k: nat)
    requires k < SwordFrames
    ensures SwingAfter(StartSwing(SwingState(false, 0)), k) == SwingState(true, k)
    ensures AdvanceSwing(SwingState(true, k)).killed <==> k == SwordFrames - 1
  {
    if k > 0 {
      SwingRunsFiveUpdates(k - 1);
    }
  }

  class Sword {
    var left: int
    var top: int
    /** Size of the first sword image, which the model does not know; the rect
        is never resized afterwards. */
    const width: nat
    const height: nat
    var isSwinging: bool
    var frameIndex: int
    var flipped: bool

    constructor (playerLeft: int, playerTop: int, width: nat, height: nat)
      ensures left == playerLeft - SwordOffsetX && top == playerTop - SwordOffsetY
      ensures this.width == width && this.height == height
      ensures State() == SwingState(false, 0) && !flipped
      ensures Valid()
    {
      left := playerLeft - SwordOffsetX;
      top := playerTop - SwordOffsetY;
      this.width := width;
      this.height := height;
      isSwinging := false;
      frameIndex := 0;
      flipped := false;
    }

    function State(): SwingState
      reads this`isSwinging, this`frameIndex
    {
      SwingState(isSwinging, frameIndex)
    }

    ghost predicate Valid()
      reads this`isSwinging, this`frameIndex
    {
      State().Valid()
    }

    function Bounds(): Rect
      reads this`left, this`top
    {
      Rect(left, top, width, height)
    }

    method Swing()
      requires Valid()
      modifies this`isSwinging, this`frameIndex
      ensures Valid()
      ensures State() == StartSwing(old(State()))
    {
      if !isSwinging {
        isSwinging := true;
        frameIndex := 0;
      }
    }

    /** Follows the player's corner and advances the swing by one frame;
        `killed` says the sword removed itself from its group. */
    method Update(playerLeft: int, playerTop: int) returns (killed: bool)
      requires Valid()
      modifies this`left, this`top, this`isSwinging, this`frameIndex
      ensures Valid()
      ensures left == playerLeft - SwordOffsetX && top == playerTop - SwordOffsetY
      ensures SwingStep(State(), killed) == AdvanceSwing(old(State()))
    {
      left := playerLeft - SwordOffsetX;
      top := playerTop - SwordOffsetY;
      killed := false;
      if isSwinging {
        frameIndex := frameIndex + 1;
        if frameIndex >= SwordFrames {
          frameIndex := 0;
          isSwinging := false;
          killed := true;
        }
      }
    }

    method SwitchGravity()
      modifies this`flipped
      ensures flipped == !old(flipped)
    {
      flipped := !flipped;
    }
  }

  // -------------------------------------------------------------------- Boss

  /** The boss image is scaled to 300 x 300 and starts off screen at 1300. */
  const BossSize: nat := 300
  const BossStartLeft: int := 1300
  const BossTop: int := 80
  const BossStartHealth: int := 100
  /** `rect.right >= SCREEN_WIDTH + 100` holds of an integer right exactly when
      right >= 1024. */
  const BossHaltRight: int := 1024
  const BossSpeed: int := 50
  const BossFrames: int := 5

  /** The movement half of Boss.update. */
  function BossApproach(left: int): (r: int)
    ensures r <= left
    ensures left + BossSize < BossHaltRight ==> r == left
    ensures left + BossSize >= BossHaltRight ==> r == left - BossSpeed
  {
    if left + BossSize >= BossHaltRight then left - BossSpeed else left
  }

  /** The boss's left edge after `n` updates. */
  function BossAfter(left: int, n: nat): int
  {
    if n == 0 then left else BossAfter(BossApproach(left), n - 1)
  }

  /** A boss that has halted stays where it is. */
  lemma {:induction false} BossStaysHalted(left: int, n: nat)
    requires left + BossSize < BossHaltRight
    ensures BossAfter(left, n) == left
  {
    if n > 0 {
      BossStaysHalted(left, n - 1);
    }
  }

  /** From any start at or right of its resting band, the boss comes to rest
      with its right edge in [974, 1023] after (right - 974) / 50 updates, and
      never moves right on the way. */
  lemma {:induction false} BossSettles(left: int, n: nat)
    requires left + BossSize >= BossHaltRight - BossSpeed
    requires n >= (left + BossSize - (BossHaltRight - BossSpeed)) / BossSpeed
    ensures BossHaltRight - BossSpeed <= BossAfter(left, n) + BossSize < BossHaltRight
    ensures BossAfter(left, n) <= left
  {
    if left + BossSize >= BossHaltRight {
      BossSettles(left - BossSpeed, n - 1);
    } else {
      BossStaysHalted(left, n);
    }
  }

  /** The health bar's clamp: a negative health reads as 0. */
  function ClampHealth(h: int): (r: int)
    ensures r >= 0
    ensures r == h || (h < 0 && r == 0)
  {
    if h < 0 then 0 else h
  }

  class Boss {
    var left: int
    const top: int
    var imageIndex: int
    var health: int

    constructor ()
      ensures left == BossStartLeft && top == BossTop
      ensures imageIndex == 0 && health == BossStartHealth
      ensures Valid()
    {
      left := BossStartLeft;
      top := BossTop;
      imageIndex := 0;
      health := BossStartHealth;
    }

    function Bounds(): Rect
      reads this`left
    {
      Rect(left, top, BossSize, BossSize)
    }

    ghost predicate Valid()
      reads this`imageIndex
    {
      0 <= imageIndex < BossFrames
    }

    /** Moves in until halted and shows the next of its 5 images. */
    method Update()
      requires Valid()
      modifies this`left, this`imageIndex
      ensures Valid()
      ensures left == BossApproach(old(left))
      ensures imageIndex == (old(imageIndex) + 1) % BossFrames
    {
      if left + BossSize >= BossHaltRight {
        left := left - BossSpeed;
      }
      imageIndex := (imageIndex + 1) % BossFrames;
    }

    /** The state-changing half of Boss.draw_health_bar: a negative health is
        overwritten with 0. */
    method DrawHealthBar()
      modifies this`health
      ensures health == ClampHealth(old(health))
    {
      if health < 0 {
        health := 0;
      }
    }
  }
}
