/** The player: gravity, running animation, collision response against the
    obstacles, burst firing of shurikens, the dash and the sword slash. */
module PlayerSprites {
  import opened Geometry
  import opened Cooldown
  import opened MovingSprites

  /** Gravity directions (and forces) are +15 (down) and -15 (up) per update. */
  const GravityDown: int := 15
  const GravityUp: int := -15

  /** The running images are scaled to 100 x 100; the player starts at (350, 220). */
  const PlayerSize: nat := 100
  const StartLeft: int := 350
  const StartTop: int := 220

  /** The running animation has 6 images and changes image every 2nd update. */
  const AnimationDelay: int := 2
  const RunningFrames: int := 6

  /** Controller cooldowns, in milliseconds of wall-clock time. */
  const BurstCooldown: int := 2000
  const SlashCooldown: int := 2000
  const StartDashCooldown: int := 10000
  /** Spacing of the shots within a burst, in pygame milliseconds. */
  const ShotInterval: int := 100

  const StartShurikens: int := 3
  const StartDashDistance: int := 100
  const StartSize: int := 200
  const StartHealth: int := 100

  // ----------------------------------------------------------------- Gravity

  /** The gravity half of Player.update: one 15-pixel move in the direction of
      gravity unless the player is already at (or past) that edge. This is
      not a clamp: the last move may overshoot the edge by up to 14. */
  function GravityStep(top: int, direction: int): (r: int)
    requires direction == GravityDown || direction == GravityUp
    ensures r == top || r == top + direction
    ensures r == top + direction <==>
      if direction == GravityDown then top + PlayerSize < ScreenHeight else top > 0
  {
    if direction == GravityDown then
      if top + PlayerSize < ScreenHeight then top + direction else top
    else
      if top > 0 then top + direction else top
  }

  /** The player's top after `n` gravity steps with no collision. */
  function FallAfter(top: int, direction: int, n: nat): int
    requires direction == GravityDown || direction == GravityUp
    decreases n
  {
    if n == 0 then top else FallAfter(GravityStep(top, direction), direction, n - 1)
  }

  /** Falling down from anywhere above the 14-pixel overshoot band, the player
      comes to rest with its bottom in [480, 494] once it has had enough
      updates to cover the distance. */
  lemma {:induction false} FallSettles(top: int, n: nat)
    requires top + PlayerSize <= ScreenHeight + 14
    requires 15 * n >= ScreenHeight - (top + PlayerSize)
    ensures ScreenHeight <= FallAfter(top, GravityDown, n) + PlayerSize <= ScreenHeight + 14
    decreases n
  {
    if n > 0 {
      FallSettles(GravityStep(top, GravityDown), n - 1);
    }
  }

  /** Rising up, the player comes to rest with its top in [-14, 0]. */
  lemma {:induction false} RiseSettles(top: int, n: nat)
    requires top >= -14
    requires 15 * n >= top
    ensures -14 <= FallAfter(top, GravityUp, n) <= 0
    decreases n
  {
    if n > 0 {
      RiseSettles(GravityStep(top, GravityUp), n - 1);
    }
  }

  // --------------------------------------------------------------- Animation

  datatype Animation = Animation(counter: int, imageNum: int) {
    predicate Valid() {
      0 <= counter < AnimationDelay && 0 <= imageNum < RunningFrames
    }
  }

  /** The animation half of Player.update. */
  function Animate(a: Animation): (r: Animation)
    requires a.Valid()
    ensures r.Valid()
    ensures r.imageNum == a.imageNum || r.imageNum == (a.imageNum + 1) % RunningFrames
  {
    if a.counter + 1 >= AnimationDelay then Animation(0, (a.imageNum + 1) % RunningFrames)
    else Animation(a.counter + 1, a.imageNum)
  }

  function AnimateAfter(a: Animation, n: nat): (r: Animation)
    requires a.Valid()
    ensures r.Valid()
  {
    if n == 0 then a else Animate(AnimateAfter(a, n - 1))
  }

  /** The image advances once every second update: after 2k updates from a
      fresh counter the image has moved k places round the 6 images. */
  lemma {:induction false} ImageEverySecondUpdate(a: Animation, k: nat)
    requires a.Valid() && a.counter == 0
    ensures AnimateAfter(a, 2 * k) == Animation(0, (a.imageNum + k) % RunningFrames)
  {
    if k > 0 {
      ImageEverySecondUpdate(a, k - 1);
      var mid := AnimateAfter(a, 2 * k - 2);
      assert AnimateAfter(a, 2 * k - 1) == Animate(mid);
      assert AnimateAfter(a, 2 * k) == Animate(Animate(mid));
      NextImage(a.imageNum + k - 1);
    }
  }

  lemma NextImage(n: int)
    ensures ((n % RunningFrames) + 1) % RunningFrames == (n + 1) % RunningFrames
  {
  }

  // --------------------------------------------------------------- Collision

  /** How far the player reaches into `o` from each side. */
  function OverlapRight(r: Rect, o: Rect): int { r.Right() - o.left }
  function OverlapLeft(r: Rect, o: Rect): int { o.Right() - r.left }
  function OverlapDown(r: Rect, o: Rect): int { r.Bottom() - o.top }
  function OverlapUp(r: Rect, o: Rect): int { o.Bottom() - r.top }

  function Min(a: int, b: int): int { if a <= b then a else b }

  function MinOverlap(r: Rect, o: Rect): int {
    Min(Min(OverlapRight(r, o), OverlapLeft(r, o)), Min(OverlapDown(r, o), OverlapUp(r, o)))
  }

  /** The response to one object of the collision list. Grounded (on the
      ground or the ceiling), only a rightward push into the object is
      blocked. Airborne, the player is snapped out along the side of smallest
      overlap, first by an if/elif chain whose vertical cases depend on the
      gravity direction, then by four independent checks that do not. */
  function Snap(r: Rect, o: Rect, grounded: bool, direction: int): (r': Rect)
    ensures r'.width == r.width && r'.height == r.height
    ensures grounded ==> r'.top == r.top && r'.Right() == Min(r.Right(), o.left)
  {
    if grounded then
      if r.Right() >= o.left then r.WithRight(o.left) else r
    else
      var m := MinOverlap(r, o);
      var r1 :=
        if m == OverlapRight(r, o) then r.WithRight(o.left)
        else if m == OverlapLeft(r, o) then r.(left := o.Right())
        else if m == OverlapDown(r, o) then (if direction == GravityDown then r.WithBottom(o.top) else r)
        else if m == OverlapUp(r, o) then (if direction == GravityUp then r.(top := o.Bottom()) else r)
        else r;
      var r2 := if OverlapRight(r, o) == m && r1.Right() > o.left then r1.WithRight(o.left) else r1;
      var r3 := if OverlapLeft(r, o) == m && r2.left < o.Right() then r2.(left := o.Right()) else r2;
      var r4 := if OverlapDown(r, o) == m && r3.Bottom() > o.top then r3.WithBottom(o.top) else r3;
      if OverlapUp(r, o) == m && r4.top < o.Bottom() then r4.(top := o.Bottom()) else r4
  }

  /** Airborne, when one side's overlap is strictly the smallest, the player
      is snapped out along that side alone, whatever the gravity direction. */
  lemma SnapOutRight(r: Rect, o: Rect, direction: int)
    requires r.Overlaps(o)
    requires OverlapRight(r, o) < Min(OverlapLeft(r, o), Min(OverlapDown(r, o), OverlapUp(r, o)))
    ensures Snap(r, o, false, direction) == r.WithRight(o.left)
  {
  }

  lemma SnapOutLeft(r: Rect, o: Rect, direction: int)
    requires r.Overlaps(o)
    requires OverlapLeft(r, o) < Min(OverlapRight(r, o), Min(OverlapDown(r, o), OverlapUp(r, o)))
    ensures Snap(r, o, false, direction) == r.(left := o.Right())
  {
  }

  lemma SnapOutTop(r: Rect, o: Rect, direction: int)
    requires r.Overlaps(o)
    requires OverlapDown(r, o) < Min(Min(OverlapRight(r, o), OverlapLeft(r, o)), OverlapUp(r, o))
    ensures Snap(r, o, false, direction) == r.WithBottom(o.top)
  {
  }

  lemma SnapOutBottom(r: Rect, o: Rect, direction: int)
    requires r.Overlaps(o)
    requires OverlapUp(r, o) < Min(Min(OverlapRight(r, o), OverlapLeft(r, o)), OverlapDown(r, o))
    ensures Snap(r, o, false, direction) == r.(top := o.Bottom())
  {
  }

  /** On a tie the second block snaps along every tied side: when the right
      and downward overlaps tie for the smallest, the player is put against
      the object's left edge and on its top, whatever the gravity direction. */
  lemma SnapTieSnapsTwice(r: Rect, o: Rect, direction: int)
    requires r.Overlaps(o)
    requires OverlapRight(r, o) == OverlapDown(r, o) < Min(OverlapLeft(r, o), OverlapUp(r, o))
    ensures Snap(r, o, false, direction) == r.WithRight(o.left).WithBottom(o.top)
  {
  }

  /** spritecollide(self, collidable): the objects overlapping the player, in
      group order. */
  function CollisionList(r: Rect, objs: seq<Rect>): (hits: seq<Rect>)
    ensures forall o | o in hits :: o in objs && r.Overlaps(o)
    ensures forall o | o in objs && r.Overlaps(o) :: o in hits
  {
    if objs == [] then []
    else CollisionList(r, objs[..|objs| - 1]) + (if r.Overlaps(objs[|objs| - 1]) then [objs[|objs| - 1]] else [])
  }

  /** The snaps applied one after the other, in list order. */
  function ResolveAll(r: Rect, hits: seq<Rect>, grounded: bool, direction: int): (r': Rect)
    ensures r'.width == r.width && r'.height == r.height
  {
    if hits == [] then r else Snap(ResolveAll(r, hits[..|hits| - 1], grounded, direction), hits[|hits| - 1], grounded, direction)
  }

  /** Grounded, the response never moves the player vertically or to the
      right, and afterwards the player's right edge is at or left of every
      object's left edge. */
  lemma {:induction false} GroundedOnlyBlocksRight(r: Rect, hits: seq<Rect>, direction: int)
    ensures ResolveAll(r, hits, true, direction).top == r.top
    ensures ResolveAll(r, hits, true, direction).Right() <= r.Right()
    ensures forall o | o in hits :: ResolveAll(r, hits, true, direction).Right() <= o.left
  {
    if hits != [] {
      var init := hits[..|hits| - 1];
      GroundedOnlyBlocksRight(r, init, direction);
      assert hits == init + [hits[|hits| - 1]];
    }
  }

  /** The loop over collision_list in Player.update. */
  method ResolveCollisions(r: Rect, objs: seq<Rect>, grounded: bool, direction: int) returns (r': Rect)
    ensures r' == ResolveAll(r, CollisionList(r, objs), grounded, direction)
  {
    var hits := CollisionList(r, objs);
    r' := r;
    var i := 0;
    while i < |hits|
      invariant 0 <= i <= |hits|
      invariant r' == ResolveAll(r, hits[..i], grounded, direction)
    {
      assert hits[..i + 1][..i] == hits[..i];
      r' := Snap(r', hits[i], grounded, direction);
      i := i + 1;
    }
    assert hits[..i] == hits;
  }

  // ------------------------------------------------------------------- Burst

  datatype Burst = Burst(active: bool, shotsFired: int, lastShotTick: int)

  /** The outcome of one update of the burst: its next state and whether a
      projectile was spawned. */
  datatype BurstStep = BurstStep(next: Burst, fired: bool)

  /** The burst half of Player.update at pygame time `now`. */
  function AdvanceBurst(b: Burst, total: int, now: int): (r: BurstStep)
    ensures r.fired ==> b.active && now - b.lastShotTick > ShotInterval && b.shotsFired < total
    ensures r.next.shotsFired == b.shotsFired + (if r.fired then 1 else 0)
    ensures r.next.lastShotTick == if r.fired then now else b.lastShotTick
    ensures r.next.active ==> r.next.shotsFired < total
    ensures b.shotsFired <= total ==> r.next.shotsFired <= total
    ensures !b.active ==> r == BurstStep(b, false)
  {
    if !b.active then BurstStep(b, false)
    else
      var fire := now - b.lastShotTick > ShotInterval && b.shotsFired < total;
      var b1 := if fire then Burst(true, b.shotsFired + 1, now) else b;
      BurstStep(b1.(active := b1.shotsFired < total), fire)
  }

  /** The burst after updates at the pygame times `times`. */
  function BurstAfter(b: Burst, total: int, times: seq<int>): Burst
    decreases |times|
  {
    if times == [] then b else BurstAfter(AdvanceBurst(b, total, times[0]).next, total, times[1..])
  }

  /** Updates spaced more than 100 ms apart. */
  predicate Spaced(last: int, times: seq<int>) {
    (|times| > 0 ==> times[0] - last > ShotInterval)
    && forall i :: 0 < i < |times| ==> times[i] - times[i - 1] > ShotInterval
  }

  lemma {:induction false} IdleBurstStaysIdle(b: Burst, total: int, times: seq<int>)
    requires !b.active
    ensures BurstAfter(b, total, times) == b
    decreases |times|
  {
    if times != [] {
      IdleBurstStaysIdle(b, total, times[1..]);
    }
  }

  /** A burst whose updates come more than 100 ms apart fires one shot per
      update until `total` shots are out, then ends. */
  lemma {:induction false} BurstFiresOnePerUpdate(b: Burst, total: int, times: seq<int>)
    requires b.active && 0 <= b.shotsFired < total
    requires Spaced(b.lastShotTick, times)
    ensures BurstAfter(b, total, times).shotsFired == Min(b.shotsFired + |times|, total)
    ensures BurstAfter(b, total, times).active <==> b.shotsFired + |times| < total
    decreases |times|
  {
    if times != [] {
      var b' := AdvanceBurst(b, total, times[0]).next;
      assert b'.shotsFired == b.shotsFired + 1;
      if b'.active {
        assert Spaced(b'.lastShotTick, times[1..]) by {
          forall i | 0 < i < |times[1..]|
            ensures times[1..][i] - times[1..][i - 1] > ShotInterval
          {
            assert times[1..][i] == times[i + 1];
          }
        }
        BurstFiresOnePerUpdate(b', total, times[1..]);
      } else {
        IdleBurstStaysIdle(b', total, times[1..]);
      }
    }
  }

  // ------------------------------------------------------------------ Player

  /** The orientation state switch_gravity touches. */
  datatype Orientation = Orientation(direction: int, force: int, flipped: bool, swordFlipped: bool)

  function Flip(g: Orientation): Orientation {
    Orientation(-g.direction, -g.force, !g.flipped, !g.swordFlipped)
  }

  /** Switching gravity twice restores all four fields. */
  lemma FlipTwiceRestores(g: Orientation)
    ensures Flip(Flip(g)) == g
  {
  }

  class Player {
    var left: int
    var top: int
    var gravityDirection: int
    var gravityForce: int
    var flipped: bool
    var animationCounter: int
    var imageNum: int
    var projectiles: seq<Projectile>
    /** Raised by the sword upgrade; nothing else reads it. */
    var size: int
    const sword: Sword
    /** Wall-clock time of the last accepted burst, in ms. */
    var lastShotTime: int
    var burstActive: bool
    var shotsFiredInBurst: int
    /** pygame time of the last shot of the burst, in ms. */
    var lastShotInBurstTime: int
    var totalShurikens: int
    var lastSlashTime: int
    var slashActive: bool
    /** Dash cooldown in ms; the upgrade lowers it by 1500 each time. */
    var dashCooldown: int
    var lastDashTime: int
    var dashDistance: int
    var health: int

    /** A new player; the sword's rect size comes from its first image. */
    constructor (swordWidth: nat, swordHeight: nat)
      ensures Valid() && fresh(sword)
      ensures left == StartLeft && top == StartTop
      ensures gravityDirection == GravityDown && !flipped && !sword.flipped
      ensures projectiles == [] && !burstActive && shotsFiredInBurst == 0 && !slashActive
      ensures lastShotTime == 0 && lastSlashTime == 0 && lastDashTime == 0 && lastShotInBurstTime == 0
      ensures totalShurikens == StartShurikens && size == StartSize
      ensures dashCooldown == StartDashCooldown && dashDistance == StartDashDistance
      ensures health == StartHealth
      ensures sword.left == StartLeft - SwordOffsetX && sword.top == StartTop - SwordOffsetY
    {
      left := StartLeft;
      top := StartTop;
      gravityDirection := GravityDown;
      gravityForce := GravityDown;
      flipped := false;
      animationCounter := 0;
      imageNum := 0;
      projectiles := [];
      size := StartSize;
      sword := new Sword(StartLeft, StartTop, swordWidth, swordHeight);
      lastShotTime := 0;
      burstActive := false;
      shotsFiredInBurst := 0;
      lastShotInBurstTime := 0;
      totalShurikens := StartShurikens;
      lastSlashTime := 0;
      slashActive := false;
      dashCooldown := StartDashCooldown;
      lastDashTime := 0;
      dashDistance := StartDashDistance;
      health := StartHealth;
    }

    function Bounds(): Rect
      reads this`left, this`top
    {
      Rect(left, top, PlayerSize, PlayerSize)
    }

    function Orient(): Orientation
      reads this`gravityDirection, this`gravityForce, this`flipped, sword`flipped
    {
      Orientation(gravityDirection, gravityForce, flipped, sword.flipped)
    }

    function Anim(): Animation
      reads this`animationCounter, this`imageNum
    {
      Animation(animationCounter, imageNum)
    }

    function BurstState(): Burst
      reads this`burstActive, this`shotsFiredInBurst, this`lastShotInBurstTime
    {
      Burst(burstActive, shotsFiredInBurst, lastShotInBurstTime)
    }

    /** The projectile a burst step spawns: at the player's right edge and
        vertical centre. */
    function Spawned(step: BurstStep, ticks: int): seq<Projectile>
      reads this`left, this`top
    {
      if step.fired then [NewProjectile(Bounds().Right(), Bounds().CenterY(), ticks)] else []
    }

    ghost predicate Valid()
      reads this`gravityDirection, this`gravityForce, this`animationCounter, this`imageNum
      reads this`projectiles, sword`isSwinging, sword`frameIndex
    {
      && (gravityDirection == GravityDown || gravityDirection == GravityUp)
      && gravityForce == gravityDirection
      && Anim().Valid()
      && AllValid(projectiles)
      && sword.Valid()
    }

    method SwitchGravity()
      requires Valid()
      modifies this`gravityDirection, this`gravityForce, this`flipped, sword`flipped
      ensures Valid()
      ensures Orient() == Flip(old(Orient()))
    {
      gravityDirection := -gravityDirection;
      gravityForce := -gravityForce;
      flipped := !flipped;
      sword.SwitchGravity();
    }

    /** Starts a burst if more than 2 s of wall-clock time have passed since
        the last one started; otherwise changes nothing. */
    method Shoot(wall: int, ticks: int)
      modifies this`burstActive, this`shotsFiredInBurst, this`lastShotTime, this`lastShotInBurstTime
      ensures Ready(Strict, wall, old(lastShotTime), BurstCooldown) ==>
        burstActive && shotsFiredInBurst == 0 && lastShotTime == wall && lastShotInBurstTime == ticks
      ensures !Ready(Strict, wall, old(lastShotTime), BurstCooldown) ==>
        BurstState() == old(BurstState()) && lastShotTime == old(lastShotTime)
    {
      if wall - lastShotTime > BurstCooldown {
        burstActive := true;
        shotsFiredInBurst := 0;
        lastShotTime := wall;
        lastShotInBurstTime := ticks;
      }
    }

    /** Jumps `dashDistance` to the right if more than `dashCooldown` ms have
        passed since the last dash; otherwise changes nothing. */
    method Dash(wall: int)
      modifies this`left, this`lastDashTime
      ensures Ready(Strict, wall, old(lastDashTime), dashCooldown) ==>
        left == old(left) + dashDistance && lastDashTime == wall
      ensures !Ready(Strict, wall, old(lastDashTime), dashCooldown) ==>
        left == old(left) && lastDashTime == old(lastDashTime)
    {
      if wall - lastDashTime > dashCooldown {
        left := left + dashDistance;
        lastDashTime := wall;
      }
    }

    /** Arms a sword swing for the next update if more than 2 s have passed
        since the last slash; otherwise changes nothing. */
    method Slash(wall: int)
      modifies this`slashActive, this`lastSlashTime
      ensures Ready(Strict, wall, old(lastSlashTime), SlashCooldown) ==>
        slashActive && lastSlashTime == wall
      ensures !Ready(Strict, wall, old(lastSlashTime), SlashCooldown) ==>
        slashActive == old(slashActive) && lastSlashTime == old(lastSlashTime)
    {
      if wall - lastSlashTime > SlashCooldown {
        slashActive := true;
        lastSlashTime := wall;
      }
    }

    /** The second `projectiles.update()` of a frame, run by the game loop. */
    method UpdateProjectileGroup(ticks: int)
      requires Valid()
      modifies this`projectiles
      ensures Valid()
      ensures projectiles == UpdateAll(old(projectiles), ticks)
    {
      projectiles := UpdateProjectiles(projectiles, ticks);
    }

    /** The drawing half of draw_health_bar is left out; its clamp applies to
        a local copy, so the player's health is not touched. */
    method DrawHealthBar(shownHealth: int) returns (shown: int)
      ensures shown == ClampHealth(shownHealth)
    {
      shown := if shownHealth < 0 then 0 else shownHealth;
    }

    /** Gravity phase of update. */
    method Fall()
      requires gravityDirection == GravityDown || gravityDirection == GravityUp
      requires gravityForce == gravityDirection
      modifies this`top
      ensures top == GravityStep(old(top), gravityDirection)
    {
      if gravityDirection == GravityDown {
        if top + PlayerSize < ScreenHeight {
          top := top + gravityForce;
        }
      } else {
        if top > 0 {
          top := top + gravityForce;
        }
      }
    }

    /** Animation phase of update. */
    method AdvanceAnimation()
      requires Anim().Valid()
      modifies this`animationCounter, this`imageNum
      ensures Anim() == Animate(old(Anim()))
    {
      animationCounter := animationCounter + 1;
      if animationCounter >= AnimationDelay {
        imageNum := (imageNum + 1) % RunningFrames;
        animationCounter := 0;
      }
    }

    /** Collision phase of update: the snaps against the obstacles that
        overlap the player after the gravity move. */
    method Collide(obstacles: seq<Rect>, grounded: bool)
      modifies this`left, this`top
      ensures Bounds() == ResolveAll(old(Bounds()), CollisionList(old(Bounds()), obstacles), grounded, gravityDirection)
    {
      var resolved := ResolveCollisions(Bounds(), obstacles, grounded, gravityDirection);
      left, top := resolved.left, resolved.top;
    }

    /** Burst phase of update: at most one projectile, spawned at the
        player's right edge and vertical centre. */
    method FireBurst(ticks: int)
      requires AllValid(projectiles)
      modifies this`projectiles, this`burstActive, this`shotsFiredInBurst, this`lastShotInBurstTime
      ensures AllValid(projectiles)
      ensures BurstState() == AdvanceBurst(old(BurstState()), totalShurikens, ticks).next
      ensures projectiles == old(projectiles) + Spawned(AdvanceBurst(old(BurstState()), totalShurikens, ticks), ticks)
    {
      if burstActive {
        if ticks - lastShotInBurstTime > ShotInterval && shotsFiredInBurst < totalShurikens {
          projectiles := projectiles + [NewProjectile(Bounds().Right(), Bounds().CenterY(), ticks)];
          shotsFiredInBurst := shotsFiredInBurst + 1;
          lastShotInBurstTime := ticks;
        }
        if shotsFiredInBurst >= totalShurikens {
          burstActive := false;
        }
      }
    }

    /** Slash phase of update: an armed slash starts the sword's swing. */
    method HandOffSlash()
      requires sword.Valid()
      modifies this`slashActive, sword`isSwinging, sword`frameIndex
      ensures sword.Valid() && !slashActive
      ensures sword.State() == if old(slashActive) then StartSwing(old(sword.State())) else old(sword.State())
    {
      if slashActive {
        sword.Swing();
        slashActive := false;
      }
    }

    /** The movement phases of update: gravity, animation and the collision
        response against the obstacles the player overlaps after falling. */
    method Move(obstacles: seq<Rect>, grounded: bool)
      requires Valid()
      modifies this`top, this`left, this`animationCounter, this`imageNum
      ensures Valid()
      ensures var fallen := Rect(old(left), GravityStep(old(top), gravityDirection), PlayerSize, PlayerSize);
        Bounds() == ResolveAll(fallen, CollisionList(fallen, obstacles), grounded, gravityDirection)
      ensures Anim() == Animate(old(Anim()))
    {
      Fall();
      AdvanceAnimation();
      Collide(obstacles, grounded);
    }

    /** The sword phases of update: hand off an armed slash, then let the
        sword follow the player and advance its swing. */
    method SwordPhase() returns (swordKilled: bool)
      requires sword.Valid()
      modifies this`slashActive, sword`left, sword`top, sword`isSwinging, sword`frameIndex
      ensures sword.Valid() && !slashActive
      ensures SwingStep(sword.State(), swordKilled)
        == AdvanceSwing(if old(slashActive) then StartSwing(old(sword.State())) else old(sword.State()))
      ensures sword.left == left - SwordOffsetX && sword.top == top - SwordOffsetY
    {
      HandOffSlash();
      swordKilled := sword.Update(left, top);
    }

    /** The shuriken phases of update: the burst step, then the projectile
        group's own update. */
    method Shooting(ticks: int)
      requires AllValid(projectiles)
      modifies this`projectiles, this`burstActive, this`shotsFiredInBurst, this`lastShotInBurstTime
      ensures AllValid(projectiles)
      ensures BurstState() == AdvanceBurst(old(BurstState()), totalShurikens, ticks).next
      ensures projectiles == UpdateAll(old(projectiles) + Spawned(AdvanceBurst(old(BurstState()), totalShurikens, ticks), ticks), ticks)
    {
      FireBurst(ticks);
      projectiles := UpdateProjectiles(projectiles, ticks);
    }

    /** The phases of update after the movement: the sword's, then the
        shurikens'. */
    method Act(ticks: int) returns (swordKilled: bool)
      requires sword.Valid() && AllValid(projectiles)
      modifies this`projectiles, this`burstActive, this`shotsFiredInBurst, this`lastShotInBurstTime, this`slashActive
      modifies sword`left, sword`top, sword`isSwinging, sword`frameIndex
      ensures sword.Valid() && AllValid(projectiles)
      ensures BurstState() == AdvanceBurst(old(BurstState()), totalShurikens, ticks).next
      ensures projectiles == UpdateAll(old(projectiles) + Spawned(AdvanceBurst(old(BurstState()), totalShurikens, ticks), ticks), ticks)
      ensures !slashActive
      ensures SwingStep(sword.State(), swordKilled)
        == AdvanceSwing(if old(slashActive) then StartSwing(old(sword.State())) else old(sword.State()))
      ensures sword.left == left - SwordOffsetX && sword.top == top - SwordOffsetY
    {
      swordKilled := SwordPhase();
      Shooting(ticks);
    }

    /** One Player.update at pygame time `ticks` against the rects of the
        obstacle group. `swordKilled` says the sword removed itself from the
        game's sword group. The sword phases touch no state the shuriken
        phases read, so running them first gives the same result as the
        source order. */
    method Update(obstacles: seq<Rect>, onGround: bool, onCeil: bool, ticks: int) returns (swordKilled: bool)
      requires Valid()
      modifies this`top, this`left, this`animationCounter, this`imageNum, this`projectiles
      modifies this`burstActive, this`shotsFiredInBurst, this`lastShotInBurstTime, this`slashActive
      modifies sword`left, sword`top, sword`isSwinging, sword`frameIndex
      ensures Valid()
      ensures var fallen := Rect(old(left), GravityStep(old(top), gravityDirection), PlayerSize, PlayerSize);
        Bounds() == ResolveAll(fallen, CollisionList(fallen, obstacles), onGround || onCeil, gravityDirection)
      ensures Anim() == Animate(old(Anim()))
      ensures BurstState() == AdvanceBurst(old(BurstState()), totalShurikens, ticks).next
      ensures projectiles == UpdateAll(old(projectiles) + Spawned(AdvanceBurst(old(BurstState()), totalShurikens, ticks), ticks), ticks)
      ensures !slashActive
      ensures SwingStep(sword.State(), swordKilled)
        == AdvanceSwing(if old(slashActive) then StartSwing(old(sword.State())) else old(sword.State()))
      ensures sword.left == left - SwordOffsetX && sword.top == top - SwordOffsetY
    {
      Move(obstacles, onGround || onCeil);
      swordKilled := Act(ticks);
    }
  }
}
