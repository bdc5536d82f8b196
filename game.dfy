/** The game controller: input handling, spawning, collision handling
    between the player, its weapons, the obstacle, the gem and the boss, the
    upgrade cycle, the off-map penalties and the reset after a game ends. */
module Game {
  import opened Geometry
  import opened Cooldown
  import opened HomePage
  import opened StaticSprites
  import opened MovingSprites
  import opened PlayerSprites

  /** At most two gravity switches between two contacts with a boundary. */
  const MaxGravitySwitches: int := 2
  /** Set at start-up but never consulted by any gate. */
  const GravityCooldownTime: int := 3000
  /** Event-layer cooldowns, in pygame milliseconds. */
  const SlashCooldownTime: int := 2000
  const ShootCooldownTime: int := 1000
  const DashCooldownTime: int := 1000
  const DamageCooldownTime: int := 1000

  const ObstacleDamage: int := 2
  const OffMapDamage: int := 10
  const RightEdgeDamage: int := 5
  /** The player is penalised while its centre is at or right of x = 650. */
  const RightEdgeCenterX: int := 650
  /** The game is lost once the player's health is at or below -10. */
  const DeathHealth: int := -10
  const BossScore: int := 2500
  const KillScore: int := 40
  const BossHitDamage: int := 4
  /** The boss is defeated once its health is at or below -4. */
  const BossDefeatHealth: int := -4
  const SpawnSpeed: int := 10
  const FirstThreshold: int := 10
  const ThresholdStep: int := 5
  /** The dash upgrade takes 1.5 s off the dash cooldown. */
  const DashUpgradeCooldown: int := 1500
  const DashUpgradeDistance: int := 25
  const SwordUpgradeSize: int := 50
  const ResetSwordSize: int := 100
  /** reset_game sets the dash cooldown to 10 s. */
  const ResetDashCooldown: int := 10000
  /** The start button's top-left corner. */
  const ButtonLeft: int := 310
  const ButtonTop: int := 300
  /** Spawned obstacles and gems start at SCREEN_WIDTH + randint(100, 500),
      which truncates to 923 + the offset, with their top in
      [SCREEN_HEIGHT // 2, SCREEN_HEIGHT - 50]. */
  const SpawnBaseLeft: int := 923
  const SpawnMinOffset: int := 100
  const SpawnMaxOffset: int := 500
  const SpawnMinTop: int := 240
  const SpawnMaxTop: int := 430
  /** The two boundaries span SCREEN_WIDTH (923 once truncated) and are one
      pixel tall, at y = 0 and y = SCREEN_HEIGHT - 5. */
  const BoundaryTopRect: Rect := Rect(0, 0, 923, 1)
  const BoundaryBottomRect: Rect := Rect(0, 475, 923, 1)

  datatype Key = Space | KeyD | KeyE | KeyF | Return | KeyQ | OtherKey

  /** The random draws one frame may consume. */
  datatype Dice = Dice(obstacleOffset: int, obstacleTop: int,
                       gemOffset: int, gemTop: int, gemVariant: int,
                       firstRecycleBottom: int, secondRecycleBottom: int)
  {
    predicate Valid() {
      && SpawnMinOffset <= obstacleOffset <= SpawnMaxOffset
      && SpawnMinTop <= obstacleTop <= SpawnMaxTop
      && SpawnMinOffset <= gemOffset <= SpawnMaxOffset
      && SpawnMinTop <= gemTop <= SpawnMaxTop
      && 0 <= gemVariant < GemVariants
      && RecycleMinBottom <= firstRecycleBottom <= RecycleMaxBottom
      && RecycleMinBottom <= secondRecycleBottom <= RecycleMaxBottom
    }
  }

  // ----------------------------------------------------- Gravity switch budget

  datatype SwitchEvent = SpacePressed | FrameInAir | FrameTouching

  /** The switch counter after one event and whether gravity flipped. */
  datatype Budget = Budget(switches: int, flipped: bool)

  function SpendSwitch(switches: int, e: SwitchEvent): (r: Budget)
    ensures r.flipped <==> e == SpacePressed && switches < MaxGravitySwitches
    ensures e == FrameTouching ==> r.switches == 0
    ensures e != FrameTouching ==> r.switches == switches + (if r.flipped then 1 else 0)
  {
    match e
    case SpacePressed =>
      if switches < MaxGravitySwitches then Budget(switches + 1, true) else Budget(switches, false)
    case FrameInAir => Budget(switches, false)
    case FrameTouching => Budget(0, false)
  }

  /** How many flips a run of events produces. */
  function FlipsDuring(switches: int, es: seq<SwitchEvent>): nat
    decreases |es|
  {
    if es == [] then 0
    else
      var b := SpendSwitch(switches, es[0]);
      (if b.flipped then 1 else 0) + FlipsDuring(b.switches, es[1..])
  }

  /** Without touching a boundary the player can flip gravity at most twice
      (counting the switches already spent). */
  lemma {:induction false} AtMostTwoFlipsInAir(switches: int, es: seq<SwitchEvent>)
    requires 0 <= switches <= MaxGravitySwitches
    requires forall i :: 0 <= i < |es| ==> es[i] != FrameTouching
    ensures FlipsDuring(switches, es) <= MaxGravitySwitches - switches
    decreases |es|
  {
    if es != [] {
      AtMostTwoFlipsInAir(SpendSwitch(switches, es[0]).switches, es[1..]);
    }
  }

  // ------------------------------------------------------------- Upgrades

  datatype Reward = MoreShurikens | BiggerSword | BetterDash

  /** The upgrade cycle: which upgrade is next (1, 2, 3), the gems collected
      towards it and the three gem thresholds. */
  datatype Upgrades = Upgrades(cycle: int, gems: int, projectileT: int, swordT: int, dashT: int) {
    predicate Valid() {
      && 1 <= cycle <= 3 && gems >= 0
      && projectileT >= FirstThreshold && swordT >= FirstThreshold && dashT >= FirstThreshold
    }

    /** The threshold of the upgrade the cycle points at. */
    function Threshold(): int {
      if cycle == 1 then projectileT else if cycle == 2 then swordT else dashT
    }
  }

  datatype UpgradeCheck = UpgradeCheck(next: Upgrades, rewards: seq<Reward>)

  /** The three upgrade checks of one pass of the gem loop, one after the
      other: each resets the gems, raises its threshold by 5 and moves the
      cycle on. */
  function CheckUpgrades(u: Upgrades): (r: UpgradeCheck)
    requires u.Valid()
    ensures r.next.Valid()
  {
    var c1 := if u.cycle == 1 && u.gems >= u.projectileT
      then UpgradeCheck(u.(gems := 0, projectileT := u.projectileT + ThresholdStep, cycle := 2), [MoreShurikens])
      else UpgradeCheck(u, []);
    var c2 := if c1.next.cycle == 2 && c1.next.gems >= c1.next.swordT
      then UpgradeCheck(c1.next.(gems := 0, swordT := c1.next.swordT + ThresholdStep, cycle := 3), c1.rewards + [BiggerSword])
      else c1;
    if c2.next.cycle == 3 && c2.next.gems >= c2.next.dashT
      then UpgradeCheck(c2.next.(gems := 0, dashT := c2.next.dashT + ThresholdStep, cycle := 1), c2.rewards + [BetterDash])
      else c2
  }

  /** One pass of the gem loop: the gem counted if it was touched, then the
      upgrade checks. */
  function GemPass(u: Upgrades, touched: bool): UpgradeCheck
    requires u.Valid()
  {
    CheckUpgrades(u.(gems := u.gems + if touched then 1 else 0))
  }

  /** One pass brings at most one upgrade, and one exactly when the gems
      have reached the threshold the cycle points at; then the gems go back
      to 0, the cycle moves on, the matching reward is handed out and only
      that upgrade's threshold rises by 5. Otherwise nothing changes. */
  lemma CheckUpgradesSpec(u: Upgrades)
    requires u.Valid()
    ensures |CheckUpgrades(u).rewards| <= 1
    ensures |CheckUpgrades(u).rewards| == 1 <==> u.gems >= u.Threshold()
    ensures u.gems < u.Threshold() ==> CheckUpgrades(u).next == u
    ensures u.gems >= u.Threshold() ==>
      && CheckUpgrades(u).next.gems == 0
      && CheckUpgrades(u).next.cycle == u.cycle % 3 + 1
      && CheckUpgrades(u).rewards[0] == (if u.cycle == 1 then MoreShurikens else if u.cycle == 2 then BiggerSword else BetterDash)
    ensures CheckUpgrades(u).next.projectileT == u.projectileT + (if u.cycle == 1 && |CheckUpgrades(u).rewards| == 1 then ThresholdStep else 0)
    ensures CheckUpgrades(u).next.swordT == u.swordT + (if u.cycle == 2 && |CheckUpgrades(u).rewards| == 1 then ThresholdStep else 0)
    ensures CheckUpgrades(u).next.dashT == u.dashT + (if u.cycle == 3 && |CheckUpgrades(u).rewards| == 1 then ThresholdStep else 0)
  {
  }

  /** The player's upgradable equipment. */
  datatype Loadout = Loadout(shurikens: int, dashCooldown: int, dashDistance: int, swordSize: int)

  function Apply(l: Loadout, r: Reward): Loadout {
    match r
    case MoreShurikens => l.(shurikens := l.shurikens + 1)
    case BiggerSword => l.(swordSize := l.swordSize + SwordUpgradeSize)
    case BetterDash => l.(dashCooldown := l.dashCooldown - DashUpgradeCooldown,
                          dashDistance := l.dashDistance + DashUpgradeDistance)
  }

  function ApplyAll(l: Loadout, rs: seq<Reward>): Loadout
  {
    if rs == [] then l else Apply(ApplyAll(l, rs[..|rs| - 1]), rs[|rs| - 1])
  }

  /** Gems in the order they are collected, one check per collected gem. */
  function UpgradesAfter(u: Upgrades, k: nat): (r: Upgrades)
    requires u.Valid()
    ensures r.Valid()
  {
    if k == 0 then u
    else
      var prev := UpgradesAfter(u, k - 1);
      CheckUpgrades(prev.(gems := prev.gems + 1)).next
  }

  /** Counting from a fresh cycle with all thresholds at t, the first upgrade
      needs t gems: before that the cycle does not move. */
  lemma {:induction false} NoUpgradeBeforeThreshold(u: Upgrades, k: nat)
    requires u.Valid() && u.cycle == 1 && u.gems == 0
    requires k < u.projectileT
    ensures UpgradesAfter(u, k) == u.(gems := k)
  {
    if k > 0 {
      NoUpgradeBeforeThreshold(u, k - 1);
    }
  }

  /** ... and the t-th gem brings it: the shuriken upgrade, cycle 2, gems back
      to 0 and the next shuriken threshold 5 higher. */
  lemma ShurikenUpgradeAtThreshold(u: Upgrades)
    requires u.Valid() && u.cycle == 1 && u.gems == 0
    ensures UpgradesAfter(u, u.projectileT as nat) == u.(cycle := 2, projectileT := u.projectileT + ThresholdStep)
  {
    var t: nat := u.projectileT;
    var v := u.(gems := t);
    assert UpgradesAfter(u, t) == CheckUpgrades(v).next by {
      NoUpgradeBeforeThreshold(u, t - 1);
    }
    ShurikenUpgrade(v);
  }

  /** In cycle 1 with enough gems, exactly the shuriken upgrade happens:
      the later checks of the same pass see 0 gems and let it be. */
  lemma ShurikenUpgrade(u: Upgrades)
    requires u.Valid() && u.cycle == 1 && u.gems >= u.projectileT
    ensures CheckUpgrades(u) == UpgradeCheck(u.(gems := 0, projectileT := u.projectileT + ThresholdStep, cycle := 2), [MoreShurikens])
  {
  }

  // ------------------------------------------------------ Projectile sweep

  /** The outcome of the projectile loop of detect_collision. */
  datatype Sweep = Sweep(kept: seq<Projectile>, obstaclePresent: bool, kills: nat)

  /** Each projectile in group order checks the obstacle group, which holds
      at most the one obstacle; the first projectile that overlaps it kills
      both. */
  function SweepAll(ps: seq<Projectile>, o: Rect, present: bool): Sweep
  {
    if ps == [] then Sweep([], present, 0)
    else
      var s := SweepAll(ps[..|ps| - 1], o, present);
      var p := ps[|ps| - 1];
      if s.obstaclePresent && p.Bounds().Overlaps(o) then Sweep(s.kept, false, s.kills + 1)
      else Sweep(s.kept + [p], s.obstaclePresent, s.kills)
  }

  predicate Hits(p: Projectile, o: Rect) {
    p.Bounds().Overlaps(o)
  }

  /** `i` is the first projectile that overlaps the obstacle. */
  predicate FirstHitAt(ps: seq<Projectile>, o: Rect, i: int) {
    0 <= i < |ps| && Hits(ps[i], o) && forall j :: 0 <= j < i ==> !Hits(ps[j], o)
  }

  /** At most one projectile is spent, and none exactly when the obstacle is
      absent or no projectile overlaps it; then nothing changes. */
  lemma {:induction false} SweepKillsAtMostOne(ps: seq<Projectile>, o: Rect, present: bool)
    ensures SweepAll(ps, o, present).kills <= 1
    ensures SweepAll(ps, o, present).kills == 0 <==> !present || forall j :: 0 <= j < |ps| ==> !Hits(ps[j], o)
    ensures SweepAll(ps, o, present).kills == 0 ==>
      SweepAll(ps, o, present).kept == ps && SweepAll(ps, o, present).obstaclePresent == present
    ensures SweepAll(ps, o, present).kills == 1 ==> !SweepAll(ps, o, present).obstaclePresent
  {
    if ps != [] {
      var init := ps[..|ps| - 1];
      SweepKillsAtMostOne(init, o, present);
      assert ps == init + [ps[|ps| - 1]];
      assert forall j :: 0 <= j < |init| ==> init[j] == ps[j];
    }
  }

  /** With a kill, the projectile removed is the first one that overlaps the
      obstacle, and the others keep their order. */
  lemma SweepRemovesFirstHit(ps: seq<Projectile>, o: Rect, present: bool)
    requires SweepAll(ps, o, present).kills == 1
    ensures exists i :: FirstHitAt(ps, o, i) && SweepAll(ps, o, present).kept == ps[..i] + ps[i + 1..]
  {
    var i := SweptIndex(ps, o, present);
  }

  /** The index of the projectile a killing sweep spends. */
  lemma {:induction false} SweptIndex(ps: seq<Projectile>, o: Rect, present: bool) returns (i: int)
    requires SweepAll(ps, o, present).kills == 1
    ensures FirstHitAt(ps, o, i) && SweepAll(ps, o, present).kept == ps[..i] + ps[i + 1..]
  {
    var init := ps[..|ps| - 1];
    var p := ps[|ps| - 1];
    var s0 := SweepAll(init, o, present);
    SweepKillsAtMostOne(init, o, present);
    assert forall j :: 0 <= j < |init| ==> init[j] == ps[j];
    if s0.kills == 1 {
      i := SweptIndex(init, o, present);
      assert SweepAll(ps, o, present).kept == s0.kept + [p];
      assert FirstHitAt(ps, o, i);
      assert ps[..i] == init[..i];
      assert ps[i + 1..] == init[i + 1..] + [p];
      calc {
        SweepAll(ps, o, present).kept;
        (init[..i] + init[i + 1..]) + [p];
        init[..i] + (init[i + 1..] + [p]);
        ps[..i] + ps[i + 1..];
      }
    } else {
      i := |ps| - 1;
      assert SweepAll(ps, o, present).kept == s0.kept;
      assert FirstHitAt(ps, o, i);
      assert ps[..i] == init;
      assert ps[i + 1..] == [];
    }
  }

  /** The projectile loop as it runs, one projectile at a time. */
  method SweepProjectiles(ps: seq<Projectile>, o: Rect, present: bool) returns (s: Sweep)
    ensures s == SweepAll(ps, o, present)
  {
    s := Sweep([], present, 0);
    var i := 0;
    while i < |ps|
      invariant 0 <= i <= |ps|
      invariant s == SweepAll(ps[..i], o, present)
    {
      assert ps[..i + 1][..i] == ps[..i];
      if s.obstaclePresent && ps[i].Bounds().Overlaps(o) {
        s := Sweep(s.kept, false, s.kills + 1);
      } else {
        s := Sweep(s.kept + [ps[i]], s.obstaclePresent, s.kills);
      }
      i := i + 1;
    }
    assert ps[..i] == ps;
  }

  /** Every kept projectile was in the group. */
  lemma {:induction false} SweepKeepsSubset(ps: seq<Projectile>, o: Rect, present: bool)
    ensures forall q | q in SweepAll(ps, o, present).kept :: q in ps
  {
    if ps != [] {
      SweepKeepsSubset(ps[..|ps| - 1], o, present);
    }
  }

  // ------------------------------------------------------------- Boss hits

  /** spritecollide(boss, projectiles, True): the projectiles that survive. */
  function Misses(ps: seq<Projectile>, b: Rect): (kept: seq<Projectile>)
  {
    if ps == [] then []
    else Misses(ps[..|ps| - 1], b) + (if Hits(ps[|ps| - 1], b) then [] else [ps[|ps| - 1]])
  }

  /** Exactly the projectiles overlapping the boss are removed, and the boss
      was hit exactly when some projectile overlaps it. */
  lemma {:induction false} MissesRemovesExactlyHits(ps: seq<Projectile>, b: Rect)
    ensures forall q | q in Misses(ps, b) :: q in ps && !Hits(q, b)
    ensures forall q | q in ps && !Hits(q, b) :: q in Misses(ps, b)
    ensures |Misses(ps, b)| <= |ps|
    ensures |Misses(ps, b)| == |ps| <==> forall q | q in ps :: !Hits(q, b)
  {
    if ps != [] {
      var init := ps[..|ps| - 1];
      MissesRemovesExactlyHits(init, b);
      assert ps == init + [ps[|ps| - 1]];
    }
  }

  /** The boss's health after `k` frames in which it was hit, each hit taking
      4 and the health bar clamping it at 0. */
  function HealthAfterHits(h: int, k: nat): int
  {
    if k == 0 then h else ClampHealth(HealthAfterHits(h, k - 1) - BossHitDamage)
  }

  /** From full health the boss survives 25 hit frames and falls on the 26th:
      the health is 100 - 4k after k hits, above the defeat line until the
      26th hit takes it to -4. */
  lemma {:induction false} BossFallsOnTwentySixthHit(k: nat)
    requires k <= 25
    ensures HealthAfterHits(BossStartHealth, k) == BossStartHealth - BossHitDamage * k
    ensures HealthAfterHits(BossStartHealth, k) - BossHitDamage <= BossDefeatHealth <==> k == 25
  {
    if k > 0 {
      BossFallsOnTwentySixthHit(k - 1);
    }
  }

  // -------------------------------------------------------- Obstacle damage

  datatype DamageState = DamageState(health: int, lastDamage: int)

  /** One frame in which the player touches the obstacle from its left: the
      2 points are taken every frame; only the time stamp (and the death
      check behind it) waits for the 1000 ms cooldown. */
  function ContactFrame(s: DamageState, now: int): (r: DamageState)
    ensures r.health == s.health - ObstacleDamage
    ensures Ready(Inclusive, now, s.lastDamage, DamageCooldownTime) ==> r.lastDamage == now
    ensures !Ready(Inclusive, now, s.lastDamage, DamageCooldownTime) ==> r.lastDamage == s.lastDamage
  {
    DamageState(s.health - ObstacleDamage,
                if now - s.lastDamage >= DamageCooldownTime then now else s.lastDamage)
  }

  /** Whether a contact frame ends the game: the death check sits behind
      the cooldown gate, so the frame must pass the gate and leave the health
      at or below -10. */
  predicate ContactKills(s: DamageState, now: int) {
    Ready(Inclusive, now, s.lastDamage, DamageCooldownTime) && ContactFrame(s, now).health <= DeathHealth
  }

  function ContactFrames(s: DamageState, times: seq<int>): DamageState
    decreases |times|
  {
    if times == [] then s else ContactFrames(ContactFrame(s, times[0]), times[1..])
  }

  /** Over contact frames at any times, however close together, the player
      loses 2 points per frame, and the damage time stamp is the last of the
      frames the cooldown gate accepts. */
  lemma {:induction false} DamageIgnoresCooldown(s: DamageState, times: seq<int>)
    ensures ContactFrames(s, times).health == s.health - ObstacleDamage * |times|
    ensures var a := Accepted(Inclusive, s.lastDamage, DamageCooldownTime, times);
      ContactFrames(s, times).lastDamage == if a == [] then s.lastDamage else a[|a| - 1]
    decreases |times|
  {
    if times != [] {
      DamageIgnoresCooldown(ContactFrame(s, times[0]), times[1..]);
    }
  }

  // ------------------------------------------------------------------ Game

  /** The state reset_game writes, which is also what the win and loss paths
      are judged on. */
  datatype Progress = Progress(
    score: int, gemsCollected: int, gravitySwitches: int,
    health: int, playerLeft: int, playerTop: int,
    obstacleInGroup: bool, gemInGroup: bool,
    bossLeft: int, bossHealth: int, bossImage: bool, bossSpawned: bool,
    loadout: Loadout, projectileT: int, swordT: int, dashT: int)

  /** reset_game centres the player at (SCREEN_WIDTH // 2, SCREEN_HEIGHT // 2)
      = (461, 240), so its corner is at (411, 190), and puts the boss's right
      edge back at 1300, so its left edge is at 1000. */
  const ResetPlayerLeft: int := 461 - PlayerSize / 2
  const ResetPlayerTop: int := 240 - PlayerSize / 2
  const ResetBossLeft: int := 1300 - BossSize
  const ResetProgress: Progress := Progress(
    0, 0, 0,
    StartHealth, ResetPlayerLeft, ResetPlayerTop,
    false, false,
    ResetBossLeft, BossStartHealth, false, false,
    Loadout(StartShurikens, ResetDashCooldown, StartDashDistance, ResetSwordSize),
    FirstThreshold, FirstThreshold, FirstThreshold)

  /** The sprites the game owns for its whole life, as game_variables and
      sprite_entities create them. */
  method NewParts(bgImageWidth: nat, bgImageHeight: nat, swordWidth: nat, swordHeight: nat)
    returns (player: Player, boss: Boss, bg: Background, cityBg: CityBackground)
    ensures fresh(player) && fresh(player.sword) && fresh(boss) && fresh(bg) && fresh(cityBg)
    ensures player.Valid() && boss.Valid() && bg.Valid() && cityBg.Valid()
    ensures !bg.bossImage && bg.left == 0 && bg.top == 0 && bg.windowWidth == ScreenWidth
    ensures cityBg.left == 0 && cityBg.top == 0
    ensures boss.left == BossStartLeft && boss.top == BossTop && boss.imageIndex == 0 && boss.health == BossStartHealth
    ensures player.health == StartHealth && player.left == StartLeft && player.top == StartTop
    ensures player.totalShurikens == StartShurikens && player.size == StartSize
    ensures player.dashCooldown == StartDashCooldown && player.dashDistance == StartDashDistance
    ensures player.projectiles == [] && !player.burstActive && !player.slashActive
  {
    bg := new Background(ScreenWidth, bgImageWidth, bgImageHeight);
    cityBg := new CityBackground(0, 0);
    boss := new Boss();
    player := new Player(swordWidth, swordHeight);
  }

  /** What check_off_map takes from a player whose centre is at x = c and
      who is not killed by it. */
  function OffMapPenalty(c: int): int {
    if c <= 0 then OffMapDamage else if c >= RightEdgeCenterX then RightEdgeDamage else 0
  }

  class MetroRunnersGame {
    const player: Player
    const boss: Boss
    const bg: Background
    const cityBg: CityBackground
    const boundaryTop: Boundary
    const boundaryBottom: Boundary
    /** The obstacle group only ever holds the current obstacle, and the gem
        group the current gem; membership is a flag. */
    var obstacle: Obstacle
    var obstacleInGroup: bool
    var gem: Gem
    var gemInGroup: bool
    /** Whether the player's sword is in the sword group. */
    var swordInGroup: bool

    var running: bool
    var gameActive: bool
    var onGround: bool
    var onCeil: bool
    var endGame: bool
    var bossSpawned: bool
    var gravitySwitches: int
    /** Event-layer time stamps, in pygame milliseconds. */
    var gravityLastUsed: int
    var slashLastUsed: int
    var shootLastUsed: int
    var dashLastUsed: int
    var lastDamageTime: int
    var projectileUpgrade: int
    var swordUpgrade: int
    var dashUpgrade: int
    var cycle: int
    var score: int
    var gemsCollected: int

    /** The game before the first frame. The background and sword image sizes
        are not known to the model; `d` holds the first spawn draws. */
    constructor (bgImageWidth: nat, bgImageHeight: nat, swordWidth: nat, swordHeight: nat, d: Dice)
      requires d.Valid()
      ensures Valid() && fresh(player) && fresh(player.sword) && fresh(boss) && fresh(bg) && fresh(cityBg)
      ensures running && !gameActive && onGround && !onCeil && !endGame && !bossSpawned
      ensures obstacleInGroup && gemInGroup && !swordInGroup
      ensures obstacle.Bounds() == Rect(SpawnBaseLeft + d.obstacleOffset, d.obstacleTop, ObstacleWidth, ObstacleHeight)
      ensures gem.Bounds() == Rect(SpawnBaseLeft + d.gemOffset, d.gemTop, GemSize, GemSize)
      ensures gravityLastUsed == -GravityCooldownTime && slashLastUsed == -SlashCooldownTime
      ensures shootLastUsed == -ShootCooldownTime && dashLastUsed == -DashCooldownTime && lastDamageTime == 0
      ensures UpgradeState() == Upgrades(1, 0, FirstThreshold, FirstThreshold, FirstThreshold)
      ensures score == 0 && gravitySwitches == 0
      ensures player.health == StartHealth && player.left == StartLeft && player.top == StartTop
      ensures Equipment() == Loadout(StartShurikens, StartDashCooldown, StartDashDistance, StartSize)
      ensures player.projectiles == [] && !player.burstActive && !player.slashActive
      ensures boss.left == BossStartLeft && boss.top == BossTop && boss.health == BossStartHealth
      ensures bg.left == 0 && cityBg.left == 0
    {
      boundaryTop := Boundary(BoundaryTopRect);
      boundaryBottom := Boundary(BoundaryBottomRect);
      obstacle := new Obstacle(SpawnBaseLeft + d.obstacleOffset, d.obstacleTop, SpawnSpeed);
      gem := new Gem(SpawnBaseLeft + d.gemOffset, d.gemTop, SpawnSpeed, d.gemVariant);
      var p, b, back, city := NewParts(bgImageWidth, bgImageHeight, swordWidth, swordHeight);
      player, boss, bg, cityBg := p, b, back, city;
      running := true;
      gameActive := false;
      onGround := true;
      onCeil := false;
      endGame := false;
      bossSpawned := false;
      gravitySwitches := 0;
      gravityLastUsed := -GravityCooldownTime;
      slashLastUsed := -SlashCooldownTime;
      shootLastUsed := -ShootCooldownTime;
      dashLastUsed := -DashCooldownTime;
      lastDamageTime := 0;
      obstacleInGroup := true;
      gemInGroup := true;
      swordInGroup := false;
      projectileUpgrade := FirstThreshold;
      swordUpgrade := FirstThreshold;
      dashUpgrade := FirstThreshold;
      cycle := 1;
      score := 0;
      gemsCollected := 0;
    }

    function UpgradeState(): Upgrades
      reads this`cycle, this`gemsCollected, this`projectileUpgrade, this`swordUpgrade, this`dashUpgrade
    {
      Upgrades(cycle, gemsCollected, projectileUpgrade, swordUpgrade, dashUpgrade)
    }

    function Equipment(): Loadout
      reads player`totalShurikens, player`dashCooldown, player`dashDistance, player`size
    {
      Loadout(player.totalShurikens, player.dashCooldown, player.dashDistance, player.size)
    }

    function Snapshot(): Progress
      reads this`score, this`gemsCollected, this`gravitySwitches, this`obstacleInGroup, this`gemInGroup
      reads this`bossSpawned, this`projectileUpgrade, this`swordUpgrade, this`dashUpgrade
      reads player`health, player`left, player`top
      reads player`totalShurikens, player`dashCooldown, player`dashDistance, player`size
      reads boss`left, boss`health, bg`bossImage
    {
      Progress(score, gemsCollected, gravitySwitches,
               player.health, player.left, player.top,
               obstacleInGroup, gemInGroup,
               boss.left, boss.health, bg.bossImage, bossSpawned,
               Equipment(), projectileUpgrade, swordUpgrade, dashUpgrade)
    }

    /** The sprites' own invariants. */
    ghost predicate PartsValid()
      reads player`gravityDirection, player`gravityForce, player`animationCounter, player`imageNum
      reads player`projectiles, player.sword`isSwinging, player.sword`frameIndex
      reads boss`imageIndex, bg`left, cityBg`left
    {
      player.Valid() && boss.Valid() && bg.Valid() && cityBg.Valid()
    }

    /** The game's own counters and flags. */
    ghost predicate CountersValid()
      reads this`gravitySwitches, this`cycle, this`gemsCollected
      reads this`projectileUpgrade, this`swordUpgrade, this`dashUpgrade
      reads this`onGround, this`onCeil, this`score
    {
      && 0 <= gravitySwitches <= MaxGravitySwitches
      && Upgrades(cycle, gemsCollected, projectileUpgrade, swordUpgrade, dashUpgrade).Valid()
      && !(onGround && onCeil)
      && score >= 0
    }

    /** What holds at every step of a frame: the sprites' invariants, the
        counters', the background image matching the boss flag, and the end
        screen never being up during play. */
    ghost predicate Consistent()
      reads player`gravityDirection, player`gravityForce, player`animationCounter, player`imageNum
      reads player`projectiles, player.sword`isSwinging, player.sword`frameIndex
      reads boss`imageIndex, bg`left, cityBg`left
      reads this`gravitySwitches, this`cycle, this`gemsCollected
      reads this`projectileUpgrade, this`swordUpgrade, this`dashUpgrade
      reads this`onGround, this`onCeil, this`score
      reads this`bossSpawned, bg`bossImage, this`gameActive, this`endGame
    {
      PartsValid() && CountersValid() && bg.bossImage == bossSpawned && (gameActive ==> !endGame)
    }

    /** What holds between frames: a dead player has been caught and reset,
        and the boss is out whenever the score has reached 2500. */
    ghost predicate Valid()
      reads player`gravityDirection, player`gravityForce, player`animationCounter, player`imageNum
      reads player`projectiles, player.sword`isSwinging, player.sword`frameIndex
      reads boss`imageIndex, bg`left, cityBg`left
      reads this`gravitySwitches, this`cycle, this`gemsCollected
      reads this`projectileUpgrade, this`swordUpgrade, this`dashUpgrade
      reads this`onGround, this`onCeil, this`score
      reads this`bossSpawned, bg`bossImage, player`health, this`gameActive, this`endGame
    {
      && Consistent()
      && player.health > DeathHealth
      && (score >= BossScore ==> bossSpawned)
    }

    /** The player's half of reset_game. */
    method ResetPlayer()
      modifies player`health, player`left, player`top
      modifies player`totalShurikens, player`dashDistance, player`dashCooldown, player`size
      ensures player.health == StartHealth && player.left == ResetPlayerLeft && player.top == ResetPlayerTop
      ensures Equipment() == ResetProgress.loadout
    {
      player.health := StartHealth;
      player.left := ResetPlayerLeft;
      player.top := ResetPlayerTop;
      player.totalShurikens := StartShurikens;
      player.dashDistance := StartDashDistance;
      player.dashCooldown := ResetDashCooldown;
      player.size := ResetSwordSize;
    }

    /** The boss's and the background's half of reset_game. */
    method ResetBoss()
      modifies boss`left, boss`health, bg`bossImage
      ensures boss.left == ResetBossLeft && boss.health == BossStartHealth && !bg.bossImage
    {
      boss.left := ResetBossLeft;
      boss.health := BossStartHealth;
      bg.Normal();
    }

    /** The game's own half of reset_game. */
    method ResetCounters()
      requires CountersValid()
      modifies this`score, this`gemsCollected, this`gravitySwitches
      modifies this`obstacleInGroup, this`gemInGroup, this`bossSpawned
      modifies this`projectileUpgrade, this`swordUpgrade, this`dashUpgrade
      ensures CountersValid()
      ensures score == 0 && gemsCollected == 0 && gravitySwitches == 0
      ensures !obstacleInGroup && !gemInGroup && !bossSpawned
      ensures projectileUpgrade == FirstThreshold && swordUpgrade == FirstThreshold && dashUpgrade == FirstThreshold
    {
      score, gemsCollected, gravitySwitches := 0, 0, 0;
      obstacleInGroup, gemInGroup, bossSpawned := false, false, false;
      projectileUpgrade, swordUpgrade, dashUpgrade := FirstThreshold, FirstThreshold, FirstThreshold;
    }

    method ResetGame()
      requires PartsValid() && CountersValid() && (gameActive ==> !endGame)
      modifies this`score, this`gemsCollected, this`gravitySwitches
      modifies player`health, player`left, player`top
      modifies this`obstacleInGroup, this`gemInGroup, boss`left, boss`health, bg`bossImage, this`bossSpawned
      modifies player`totalShurikens, player`dashDistance, player`dashCooldown, player`size
      modifies this`projectileUpgrade, this`swordUpgrade, this`dashUpgrade
      ensures Consistent()
      ensures Snapshot() == ResetProgress
    {
      ResetPlayer();
      ResetBoss();
      ResetCounters();
    }

    // ------------------------------------------------------------- Events

    /** Closing the window stops the main loop. */
    method HandleQuit()
      modifies this`running
      ensures !running
    {
      running := false;
    }

    /** A click on the start button starts (or restarts) play. The button
        keeps answering clicks after it is taken off the screen. */
    method HandleClick(mouseX: int, mouseY: int)
      modifies this`endGame, this`gameActive
      ensures IsClicked(ButtonLeft, ButtonTop, mouseX, mouseY) ==> !endGame && gameActive
      ensures !IsClicked(ButtonLeft, ButtonTop, mouseX, mouseY) ==>
        endGame == old(endGame) && gameActive == old(gameActive)
    {
      if IsClicked(ButtonLeft, ButtonTop, mouseX, mouseY) {
        endGame := false;
        gameActive := true;
      }
    }

    /** Space: flip gravity while fewer than two switches have been spent
        since the last boundary contact. Works in any screen state. */
    method PressSpace(ticks: int)
      requires Valid()
      modifies this`gravitySwitches, this`gravityLastUsed
      modifies player`gravityDirection, player`gravityForce, player`flipped, player.sword`flipped
      ensures Valid()
      ensures var b := SpendSwitch(old(gravitySwitches), SpacePressed);
        && gravitySwitches == b.switches
        && (b.flipped ==> player.Orient() == Flip(old(player.Orient())) && gravityLastUsed == ticks)
        && (!b.flipped ==> player.Orient() == old(player.Orient()) && gravityLastUsed == old(gravityLastUsed))
    {
      if gravitySwitches < MaxGravitySwitches {
        player.SwitchGravity();
        gravitySwitches := gravitySwitches + 1;
        gravityLastUsed := ticks;
      }
    }

    /** D: during play, at least 1000 ms after the last accepted press, ask
        the player for a burst (which applies its own 2 s gate). */
    method PressShoot(ticks: int, wall: int)
      requires Valid()
      modifies this`shootLastUsed
      modifies player`burstActive, player`shotsFiredInBurst, player`lastShotTime, player`lastShotInBurstTime
      ensures Valid()
      ensures var accepted := old(gameActive) && Ready(Inclusive, ticks, old(shootLastUsed), ShootCooldownTime);
        && shootLastUsed == (if accepted then ticks else old(shootLastUsed))
        && (accepted && Ready(Strict, wall, old(player.lastShotTime), BurstCooldown) ==>
              player.BurstState() == Burst(true, 0, ticks) && player.lastShotTime == wall)
        && (!(accepted && Ready(Strict, wall, old(player.lastShotTime), BurstCooldown)) ==>
              player.BurstState() == old(player.BurstState()) && player.lastShotTime == old(player.lastShotTime))
    {
      if ticks - shootLastUsed >= ShootCooldownTime && gameActive {
        player.Shoot(wall, ticks);
        shootLastUsed := ticks;
      }
    }

    /** E: during play, at least 1000 ms after the last accepted press, ask
        the player to dash (which applies its own dash cooldown). */
    method PressDash(ticks: int, wall: int)
      requires Valid()
      modifies this`dashLastUsed, player`left, player`lastDashTime
      ensures Valid()
      ensures var accepted := old(gameActive) && Ready(Inclusive, ticks, old(dashLastUsed), DashCooldownTime);
        && dashLastUsed == (if accepted then ticks else old(dashLastUsed))
        && (accepted && Ready(Strict, wall, old(player.lastDashTime), player.dashCooldown) ==>
              player.left == old(player.left) + player.dashDistance && player.lastDashTime == wall)
        && (!(accepted && Ready(Strict, wall, old(player.lastDashTime), player.dashCooldown)) ==>
              player.left == old(player.left) && player.lastDashTime == old(player.lastDashTime))
    {
      if ticks - dashLastUsed >= DashCooldownTime && gameActive {
        player.Dash(wall);
        dashLastUsed := ticks;
      }
    }

    /** F: during play, at least 2000 ms after the last accepted press, ask
        the player to slash and put the sword in the sword group, whether or
        not the player's own 2 s gate accepted the slash. */
    method PressSlash(ticks: int, wall: int)
      requires Valid()
      modifies this`slashLastUsed, this`swordInGroup, player`slashActive, player`lastSlashTime
      ensures Valid()
      ensures var accepted := old(gameActive) && Ready(Inclusive, ticks, old(slashLastUsed), SlashCooldownTime);
        && slashLastUsed == (if accepted then ticks else old(slashLastUsed))
        && swordInGroup == (old(swordInGroup) || accepted)
        && (accepted && Ready(Strict, wall, old(player.lastSlashTime), SlashCooldown) ==>
              player.slashActive && player.lastSlashTime == wall)
        && (!(accepted && Ready(Strict, wall, old(player.lastSlashTime), SlashCooldown)) ==>
              player.slashActive == old(player.slashActive) && player.lastSlashTime == old(player.lastSlashTime))
    {
      if ticks - slashLastUsed >= SlashCooldownTime && gameActive {
        player.Slash(wall);
        swordInGroup := true;
        slashLastUsed := ticks;
      }
    }

    /** On the end screen, Return goes back to the home menu and Q quits. */
    method EndScreenKey(key: Key)
      requires Valid()
      modifies this`endGame, this`running
      ensures Valid()
      ensures endGame == (old(endGame) && key != Return)
      ensures running == (old(running) && !(old(endGame) && key == KeyQ))
    {
      if endGame {
        if key == Return {
          endGame := false;
        }
        if key == KeyQ {
          running := false;
        }
      }
    }

    /** One KEYDOWN event at pygame time `ticks` and wall-clock time `wall`. */
    method HandleKey(key: Key, ticks: int, wall: int)
      requires Valid()
      modifies this`gravitySwitches, this`gravityLastUsed
      modifies player`gravityDirection, player`gravityForce, player`flipped, player.sword`flipped
      modifies this`shootLastUsed, player`burstActive, player`shotsFiredInBurst, player`lastShotTime, player`lastShotInBurstTime
      modifies this`dashLastUsed, player`left, player`lastDashTime
      modifies this`slashLastUsed, this`swordInGroup, player`slashActive, player`lastSlashTime
      modifies this`endGame, this`running
      ensures Valid()
      ensures key == Space ==> gravitySwitches == SpendSwitch(old(gravitySwitches), SpacePressed).switches
      ensures key != Space ==> gravitySwitches == old(gravitySwitches) && player.gravityDirection == old(player.gravityDirection)
      ensures key != KeyE ==> player.left == old(player.left)
      ensures endGame == (old(endGame) && key != Return)
      ensures running == (old(running) && !(old(endGame) && key == KeyQ))
    {
      // The source tests the keys one after the other; they exclude each other.
      if key == Space {
        PressSpace(ticks);
      } else if key == KeyD {
        PressShoot(ticks, wall);
      } else if key == KeyE {
        PressDash(ticks, wall);
      } else if key == KeyF {
        PressSlash(ticks, wall);
      } else {
        EndScreenKey(key);
      }
    }

    // ------------------------------------------------------ Frame: collisions

    /** The state after a game has ended, won or lost: everything reset_game
        writes is back at its start value, play has stopped and the end
        screen is up. */
    ghost predicate Over()
      reads this`score, this`gemsCollected, this`gravitySwitches, this`obstacleInGroup, this`gemInGroup
      reads this`bossSpawned, this`projectileUpgrade, this`swordUpgrade, this`dashUpgrade
      reads player`health, player`left, player`top
      reads player`totalShurikens, player`dashCooldown, player`dashDistance, player`size
      reads boss`left, boss`health, bg`bossImage, this`gameActive, this`endGame
    {
      Snapshot() == ResetProgress && !gameActive && endGame
    }

    /** A step that did not end the game left the score, the boss flag and
        the screen state alone. */
    twostate predicate Kept()
      reads this`score, this`bossSpawned, this`gameActive, this`endGame
    {
      && score == old(score) && bossSpawned == old(bossSpawned)
      && gameActive == old(gameActive) && endGame == old(endGame)
    }

    /** Ends the game: play stops, the end screen comes up and reset_game runs. */
    method GameOver()
      requires PartsValid() && CountersValid()
      modifies this`gameActive, this`endGame
      modifies this`score, this`gemsCollected, this`gravitySwitches
      modifies player`health, player`left, player`top
      modifies this`obstacleInGroup, this`gemInGroup, boss`left, boss`health, bg`bossImage, this`bossSpawned
      modifies player`totalShurikens, player`dashDistance, player`dashCooldown, player`size
      modifies this`projectileUpgrade, this`swordUpgrade, this`dashUpgrade
      ensures Consistent() && Over()
    {
      gameActive := false;
      endGame := true;
      ResetGame();
    }

    /** Touching the top boundary puts the player on the ceiling, otherwise
        touching the bottom one on the ground; either contact gives back
        both gravity switches. */
    method CheckBoundaries()
      requires Consistent()
      modifies this`onGround, this`onCeil, this`gravitySwitches
      ensures Consistent()
      ensures onCeil == player.Bounds().Overlaps(boundaryTop.rect)
      ensures onGround == (!onCeil && player.Bounds().Overlaps(boundaryBottom.rect))
      ensures gravitySwitches == if onGround || onCeil then 0 else old(gravitySwitches)
    {
      if player.Bounds().Overlaps(boundaryTop.rect) {
        onCeil, onGround := true, false;
      } else if player.Bounds().Overlaps(boundaryBottom.rect) {
        onGround, onCeil := true, false;
      } else {
        onGround, onCeil := false, false;
      }
      if onGround || onCeil {
        gravitySwitches := 0;
      }
    }

    /** The player overlaps the obstacle of the group from its left. */
    predicate ObstacleContact()
      reads this`obstacleInGroup, this`obstacle, obstacle`left, obstacle`top, player`left, player`top
    {
      obstacleInGroup && player.Bounds().Overlaps(obstacle.Bounds()) && player.left < obstacle.left
    }

    function Damage(): DamageState
      reads player`health, this`lastDamageTime
    {
      DamageState(player.health, lastDamageTime)
    }

    /** The obstacle contact of one frame, judged by ContactFrame: the 2
        points always, the time stamp and the death check only when the
        cooldown gate accepts. */
    method TakeObstacleDamage(ticks: int)
      requires Consistent()
      modifies this`lastDamageTime, this`gameActive, this`endGame
      modifies this`score, this`gemsCollected, this`gravitySwitches
      modifies player`health, player`left, player`top
      modifies this`obstacleInGroup, this`gemInGroup, boss`left, boss`health, bg`bossImage, this`bossSpawned
      modifies player`totalShurikens, player`dashDistance, player`dashCooldown, player`size
      modifies this`projectileUpgrade, this`swordUpgrade, this`dashUpgrade
      ensures Consistent()
      ensures !old(ObstacleContact()) ==> Damage() == old(Damage()) && Kept() && Snapshot() == old(Snapshot())
      ensures old(ObstacleContact()) && !ContactKills(old(Damage()), ticks) ==>
        && Damage() == ContactFrame(old(Damage()), ticks) && Kept()
        && Snapshot() == old(Snapshot()).(health := old(player.health) - ObstacleDamage)
      ensures old(ObstacleContact()) && ContactKills(old(Damage()), ticks) ==> Over() && lastDamageTime == ticks
    {
      if ObstacleContact() {
        player.health := player.health - ObstacleDamage;
        if ticks - lastDamageTime >= DamageCooldownTime {
          lastDamageTime := ticks;
          if player.health <= DeathHealth {
            GameOver();
          }
        }
      }
    }

    /** The projectile loop: the sweep's survivors stay in the group, a hit
        obstacle leaves its group, and each kill scores 40. */
    method ShootObstacle()
      requires Consistent()
      modifies player`projectiles, this`obstacleInGroup, this`score
      ensures Consistent()
      ensures var sw := SweepAll(old(player.projectiles), obstacle.Bounds(), old(obstacleInGroup));
        && player.projectiles == sw.kept && obstacleInGroup == sw.obstaclePresent
        && score == old(score) + KillScore * sw.kills
    {
      var sw := SweepProjectiles(player.projectiles, obstacle.Bounds(), obstacleInGroup);
      SweepKeepsSubset(player.projectiles, obstacle.Bounds(), obstacleInGroup);
      player.projectiles := sw.kept;
      obstacleInGroup := sw.obstaclePresent;
      score := score + KillScore * sw.kills;
    }

    /** spritecollide(boss, projectiles, True): every projectile overlapping
        the boss goes, and if any did the boss loses 4 health. */
    method HitBoss() returns (hit: bool)
      requires player.Valid()
      modifies player`projectiles, boss`health
      ensures player.Valid()
      ensures player.projectiles == Misses(old(player.projectiles), boss.Bounds())
      ensures hit == exists q | q in old(player.projectiles) :: Hits(q, boss.Bounds())
      ensures boss.health == old(boss.health) - if hit then BossHitDamage else 0
    {
      var before := player.projectiles;
      var kept := Misses(before, boss.Bounds());
      MissesRemovesExactlyHits(before, boss.Bounds());
      player.projectiles := kept;
      hit := |kept| < |before|;
      if hit {
        boss.health := boss.health - BossHitDamage;
      }
    }

    /** The boss check of detect_collision: after the hits, a boss at -4 or
        below means the player has won and the game ends. The check does not
        ask whether the boss has been spawned. */
    method ShootBoss()
      requires Consistent()
      modifies player`projectiles, this`gameActive, this`endGame
      modifies this`score, this`gemsCollected, this`gravitySwitches
      modifies player`health, player`left, player`top
      modifies this`obstacleInGroup, this`gemInGroup, boss`left, boss`health, bg`bossImage, this`bossSpawned
      modifies player`totalShurikens, player`dashDistance, player`dashCooldown, player`size
      modifies this`projectileUpgrade, this`swordUpgrade, this`dashUpgrade
      ensures Consistent()
      ensures player.projectiles == Misses(old(player.projectiles), old(boss.Bounds()))
      ensures var hit := exists q | q in old(player.projectiles) :: Hits(q, old(boss.Bounds()));
        && (!hit ==> Snapshot() == old(Snapshot()) && Kept())
        && (hit && old(boss.health) - BossHitDamage > BossDefeatHealth ==>
              Snapshot() == old(Snapshot()).(bossHealth := old(boss.health) - BossHitDamage) && Kept())
        && (hit && old(boss.health) - BossHitDamage <= BossDefeatHealth ==> Over())
    {
      var hit := HitBoss();
      assert PartsValid();
      if hit && boss.health <= BossDefeatHealth {
        bossSpawned := false;
        GameOver();
      }
    }

    /** upgrade_projectiles: one more shuriken per burst. */
    method UpgradeProjectiles()
      modifies player`totalShurikens
      ensures Equipment() == Apply(old(Equipment()), MoreShurikens)
    {
      player.totalShurikens := player.totalShurikens + 1;
    }

    /** upgrade_sword: raises the player's size, which nothing reads. */
    method UpgradeSword()
      modifies player`size
      ensures Equipment() == Apply(old(Equipment()), BiggerSword)
    {
      player.size := player.size + SwordUpgradeSize;
    }

    /** upgrade_dash: 1.5 s off the dash cooldown, 25 pixels onto the dash. */
    method UpgradeDash()
      modifies player`dashCooldown, player`dashDistance
      ensures Equipment() == Apply(old(Equipment()), BetterDash)
    {
      player.dashCooldown := player.dashCooldown - DashUpgradeCooldown;
      player.dashDistance := player.dashDistance + DashUpgradeDistance;
    }

    /** The three upgrade checks of the gem loop, one after the other, with
        the rewards handed to the player as CheckUpgrades names them. */
    method ApplyUpgrades()
      requires CountersValid()
      modifies this`gemsCollected, this`cycle, this`projectileUpgrade, this`swordUpgrade, this`dashUpgrade
      modifies player`totalShurikens, player`size, player`dashCooldown, player`dashDistance
      ensures CountersValid()
      ensures UpgradeState() == CheckUpgrades(old(UpgradeState())).next
      ensures Equipment() == ApplyAll(old(Equipment()), CheckUpgrades(old(UpgradeState())).rewards)
    {
      ghost var rewards: seq<Reward> := [];
      if cycle == 1 && gemsCollected >= projectileUpgrade {
        gemsCollected := 0;
        projectileUpgrade := projectileUpgrade + ThresholdStep;
        cycle := cycle + 1;
        UpgradeProjectiles();
        rewards := [MoreShurikens];
      }
      if cycle == 2 && gemsCollected >= swordUpgrade {
        gemsCollected := 0;
        swordUpgrade := swordUpgrade + ThresholdStep;
        cycle := cycle + 1;
        UpgradeSword();
        rewards := rewards + [BiggerSword];
      }
      if cycle == 3 && gemsCollected >= dashUpgrade {
        gemsCollected := 0;
        dashUpgrade := dashUpgrade + ThresholdStep;
        cycle := 1;
        UpgradeDash();
        rewards := rewards + [BetterDash];
      }
      assert rewards == CheckUpgrades(old(UpgradeState())).rewards;
    }

    /** Whether the player overlaps the gem. */
    predicate GemTouched()
      reads this`gem, gem`left, gem`top, player`left, player`top
    {
      player.Bounds().Overlaps(gem.Bounds())
    }

    /** The collision half of the gem loop: a touched gem leaves its group
        and counts as collected. */
    method TouchGem()
      requires CountersValid()
      modifies this`gemInGroup, this`gemsCollected
      ensures CountersValid()
      ensures gemInGroup == (old(gemInGroup) && !GemTouched())
      ensures gemsCollected == old(gemsCollected) + (if GemTouched() then 1 else 0)
    {
      if GemTouched() {
        gemInGroup := false;
        gemsCollected := gemsCollected + 1;
      }
    }

    /** One pass of the gem loop: a touched gem is collected, then the
        upgrade checks run. */
    method GemLoopPass()
      requires CountersValid()
      modifies this`gemInGroup, this`gemsCollected, this`cycle
      modifies this`projectileUpgrade, this`swordUpgrade, this`dashUpgrade
      modifies player`totalShurikens, player`size, player`dashCooldown, player`dashDistance
      ensures CountersValid()
      ensures gemInGroup == (old(gemInGroup) && !GemTouched())
      ensures UpgradeState() == GemPass(old(UpgradeState()), GemTouched()).next
      ensures Equipment() == ApplyAll(old(Equipment()), GemPass(old(UpgradeState()), GemTouched()).rewards)
    {
      ghost var u := UpgradeState();
      TouchGem();
      assert GemPass(u, GemTouched()) == CheckUpgrades(UpgradeState());
      ApplyUpgrades();
    }

    /** The gem loop runs its pass only while the gem is in its group. */
    method PickUpGem()
      requires CountersValid()
      modifies this`gemInGroup, this`gemsCollected, this`cycle
      modifies this`projectileUpgrade, this`swordUpgrade, this`dashUpgrade
      modifies player`totalShurikens, player`size, player`dashCooldown, player`dashDistance
      ensures CountersValid()
      ensures !old(gemInGroup) ==> UpgradeState() == old(UpgradeState()) && Equipment() == old(Equipment()) && !gemInGroup
      ensures old(gemInGroup) ==> gemInGroup == !GemTouched()
      ensures old(gemInGroup) ==> UpgradeState() == GemPass(old(UpgradeState()), GemTouched()).next
      ensures old(gemInGroup) ==> Equipment() == ApplyAll(old(Equipment()), GemPass(old(UpgradeState()), GemTouched()).rewards)
    {
      if gemInGroup {
        GemLoopPass();
      }
    }

    /** The gem loop as the rest of the frame sees it: it keeps the
        counters' invariant and touches only the gem and upgrade state. */
    method GemLoop()
      requires CountersValid()
      modifies this`gemInGroup, this`gemsCollected, this`cycle
      modifies this`projectileUpgrade, this`swordUpgrade, this`dashUpgrade
      modifies player`totalShurikens, player`size, player`dashCooldown, player`dashDistance
      ensures CountersValid()
    {
      PickUpGem();
    }

    /** The gem loop within the rest of the game's state. */
    method CollectGem()
      requires Consistent()
      modifies this`gemInGroup, this`gemsCollected, this`cycle
      modifies this`projectileUpgrade, this`swordUpgrade, this`dashUpgrade
      modifies player`totalShurikens, player`size, player`dashCooldown, player`dashDistance
      ensures Consistent()
    {
      GemLoop();
    }

    /** The sword loop: while the sword is in its group and overlaps the
        obstacle of the group, the obstacle is killed for 40 points. */
    method SlashObstacle()
      requires Consistent()
      modifies this`obstacleInGroup, this`score
      ensures Consistent()
      ensures var hit := swordInGroup && old(obstacleInGroup) && player.sword.Bounds().Overlaps(obstacle.Bounds());
        && obstacleInGroup == (old(obstacleInGroup) && !hit)
        && score == old(score) + (if hit then KillScore else 0)
    {
      if swordInGroup && obstacleInGroup && player.sword.Bounds().Overlaps(obstacle.Bounds()) {
        score := score + KillScore;
        obstacleInGroup := false;
      }
    }

    /** The first half of detect_collision: boundaries, obstacle damage and
        the projectiles against the obstacle. */
    method DetectHazards(ticks: int)
      requires Consistent()
      modifies this, player, boss, bg
      ensures Consistent()
      ensures obstacle == old(obstacle) && gem == old(gem)
    {
      CheckBoundaries();
      TakeObstacleDamage(ticks);
      ShootObstacle();
    }

    /** The second half of detect_collision: the projectiles against the
        boss, the gem and its upgrades, and the sword. */
    method DetectRewards()
      requires Consistent()
      modifies this, player, boss, bg
      ensures Consistent()
      ensures obstacle == old(obstacle) && gem == old(gem)
    {
      ShootBoss();
      CollectGem();
      SlashObstacle();
    }

    /** detect_collision. */
    method DetectCollision(ticks: int)
      requires Consistent()
      modifies this, player, boss, bg
      ensures Consistent()
      ensures obstacle == old(obstacle) && gem == old(gem)
    {
      DetectHazards(ticks);
      DetectRewards();
    }

    // --------------------------------------------------------- Frame: sprites

    /** The obstacle group, as the rects Player.update tests against. */
    function ObstacleRects(): seq<Rect>
      reads this`obstacleInGroup, this`obstacle, obstacle`left, obstacle`top
    {
      if obstacleInGroup then [obstacle.Bounds()] else []
    }

    /** One update of the obstacle group: the obstacle moves only while it
        is in the group. */
    method MoveObstacle(newBottom: int)
      requires RecycleMinBottom <= newBottom <= RecycleMaxBottom
      modifies obstacle`left, obstacle`top
      ensures obstacle.Bounds() ==
        if obstacleInGroup then ObstacleStep(old(obstacle.Bounds()), obstacle.speed, newBottom) else old(obstacle.Bounds())
    {
      if obstacleInGroup {
        obstacle.Update(newBottom);
      }
    }

    /** One update of the gem group: the gem moves only while it is in the
        group, and leaves the group once it is off the left of the screen. */
    method MoveGem()
      modifies gem`left, this`gemInGroup
      ensures gem.left == old(gem.left) - (if old(gemInGroup) then gem.speed else 0)
      ensures gemInGroup == (old(gemInGroup) && gem.Bounds().Right() >= 0)
    {
      if gemInGroup {
        var killed := gem.Update();
        if killed {
          gemInGroup := false;
        }
      }
    }

    /** all_sprites.update(): the background, the obstacle and the gem while
        in their groups, and the boss once spawned. The boundaries have no
        update of their own. */
    method UpdateScenery(newBottom: int)
      requires Consistent()
      requires RecycleMinBottom <= newBottom <= RecycleMaxBottom
      modifies bg`left, obstacle`left, obstacle`top, gem`left, this`gemInGroup, boss`left, boss`imageIndex
      ensures Consistent()
      ensures bg.left == Scroll(old(bg.left), BackgroundSpeed, bg.imageWidth, bg.windowWidth)
      ensures obstacle.Bounds() ==
        if obstacleInGroup then ObstacleStep(old(obstacle.Bounds()), obstacle.speed, newBottom) else old(obstacle.Bounds())
      ensures gem.left == old(gem.left) - (if old(gemInGroup) then gem.speed else 0)
      ensures gemInGroup == (old(gemInGroup) && gem.Bounds().Right() >= 0)
      ensures boss.left == if bossSpawned then BossApproach(old(boss.left)) else old(boss.left)
      ensures boss.imageIndex == if bossSpawned then (old(boss.imageIndex) + 1) % BossFrames else old(boss.imageIndex)
    {
      bg.Update();
      MoveObstacle(newBottom);
      MoveGem();
      if bossSpawned {
        boss.Update();
      }
      assert PartsValid();
    }

    /** Player.update against the obstacle group; a sword that ends its
        swing leaves the sword group. */
    method UpdatePlayer(ticks: int)
      requires Consistent()
      modifies player`top, player`left, player`animationCounter, player`imageNum, player`projectiles
      modifies player`burstActive, player`shotsFiredInBurst, player`lastShotInBurstTime, player`slashActive
      modifies player.sword`left, player.sword`top, player.sword`isSwinging, player.sword`frameIndex
      modifies this`swordInGroup
      ensures Consistent()
      ensures player.Anim() == Animate(old(player.Anim()))
      ensures player.projectiles == UpdateAll(old(player.projectiles)
        + player.Spawned(AdvanceBurst(old(player.BurstState()), player.totalShurikens, ticks), ticks), ticks)
      ensures var fallen := Rect(old(player.left), GravityStep(old(player.top), player.gravityDirection), PlayerSize, PlayerSize);
        player.Bounds() == ResolveAll(fallen, CollisionList(fallen, old(ObstacleRects())), old(onGround || onCeil), player.gravityDirection)
      ensures swordInGroup == (old(swordInGroup) && !AdvanceSwing(
        if old(player.slashActive) then StartSwing(old(player.sword.State())) else old(player.sword.State())).killed)
    {
      var swordKilled := player.Update(ObstacleRects(), onGround, onCeil, ticks);
      if swordKilled {
        swordInGroup := false;
      }
      assert PartsValid();
    }

    /** The group updates that follow the drawing: the gem group again, the
        projectile group, the obstacle group again, and the boss's health
        bar, which clamps the boss's health at 0. The player's health bar
        clamps only a copy and is left out. */
    method UpdateGroups(ticks: int, newBottom: int)
      requires Consistent()
      requires RecycleMinBottom <= newBottom <= RecycleMaxBottom
      modifies gem`left, this`gemInGroup, player`projectiles, obstacle`left, obstacle`top, boss`health
      ensures Consistent()
      ensures gem.left == old(gem.left) - (if old(gemInGroup) then gem.speed else 0)
      ensures gemInGroup == (old(gemInGroup) && gem.Bounds().Right() >= 0)
      ensures player.projectiles == UpdateAll(old(player.projectiles), ticks)
      ensures obstacle.Bounds() ==
        if obstacleInGroup then ObstacleStep(old(obstacle.Bounds()), obstacle.speed, newBottom) else old(obstacle.Bounds())
      ensures boss.health == if bossSpawned then ClampHealth(old(boss.health)) else old(boss.health)
    {
      MoveGem();
      player.UpdateProjectileGroup(ticks);
      MoveObstacle(newBottom);
      if bossSpawned {
        boss.DrawHealthBar();
      }
      assert PartsValid();
    }

    /** update_sprites: nothing moves while the end screen is up. */
    method UpdateSprites(ticks: int, d: Dice)
      requires Consistent() && d.Valid()
      modifies bg`left, obstacle`left, obstacle`top, gem`left, this`gemInGroup, boss`left, boss`imageIndex, boss`health
      modifies player`top, player`left, player`animationCounter, player`imageNum, player`projectiles
      modifies player`burstActive, player`shotsFiredInBurst, player`lastShotInBurstTime, player`slashActive
      modifies player.sword`left, player.sword`top, player.sword`isSwinging, player.sword`frameIndex
      modifies this`swordInGroup
      ensures Consistent()
      ensures old(endGame) ==> unchanged(this, player, player.sword, boss, bg, obstacle, gem)
      ensures !old(endGame) ==> bg.left == Scroll(old(bg.left), BackgroundSpeed, bg.imageWidth, bg.windowWidth)
      ensures !old(endGame) ==> obstacle.Bounds() == if obstacleInGroup then
        ObstacleStep(ObstacleStep(old(obstacle.Bounds()), obstacle.speed, d.firstRecycleBottom), obstacle.speed, d.secondRecycleBottom)
        else old(obstacle.Bounds())
      ensures !old(endGame) && gemInGroup ==> gem.left == old(gem.left) - 2 * gem.speed
      ensures !old(endGame) ==>
        (gemInGroup == (old(gemInGroup) && old(gem.left) - gem.speed + GemSize >= 0
           && old(gem.left) - 2 * gem.speed + GemSize >= 0))
      ensures !old(endGame) ==> swordInGroup == (old(swordInGroup) && !AdvanceSwing(
        if old(player.slashActive) then StartSwing(old(player.sword.State())) else old(player.sword.State())).killed)
      ensures !old(endGame) && bossSpawned ==>
        && boss.left == BossApproach(old(boss.left))
        && boss.imageIndex == (old(boss.imageIndex) + 1) % BossFrames
        && boss.health == ClampHealth(old(boss.health))
      ensures !old(endGame) && !bossSpawned ==>
        boss.left == old(boss.left) && boss.imageIndex == old(boss.imageIndex) && boss.health == old(boss.health)
    {
      if !endGame {
        MoveSprites(ticks, d);
      }
    }

    /** The three updates of a frame whose end screen is not up. */
    method MoveSprites(ticks: int, d: Dice)
      requires Consistent() && d.Valid()
      modifies bg`left, obstacle`left, obstacle`top, gem`left, this`gemInGroup, boss`left, boss`imageIndex, boss`health
      modifies player`top, player`left, player`animationCounter, player`imageNum, player`projectiles
      modifies player`burstActive, player`shotsFiredInBurst, player`lastShotInBurstTime, player`slashActive
      modifies player.sword`left, player.sword`top, player.sword`isSwinging, player.sword`frameIndex
      modifies this`swordInGroup
      ensures Consistent()
      ensures bg.left == Scroll(old(bg.left), BackgroundSpeed, bg.imageWidth, bg.windowWidth)
      ensures obstacle.Bounds() == if obstacleInGroup then
        ObstacleStep(ObstacleStep(old(obstacle.Bounds()), obstacle.speed, d.firstRecycleBottom), obstacle.speed, d.secondRecycleBottom)
        else old(obstacle.Bounds())
      ensures gemInGroup ==> gem.left == old(gem.left) - 2 * gem.speed
      ensures gemInGroup == (old(gemInGroup) && old(gem.left) - gem.speed + GemSize >= 0
        && old(gem.left) - 2 * gem.speed + GemSize >= 0)
      ensures swordInGroup == (old(swordInGroup) && !AdvanceSwing(
        if old(player.slashActive) then StartSwing(old(player.sword.State())) else old(player.sword.State())).killed)
      ensures bossSpawned ==>
        && boss.left == BossApproach(old(boss.left))
        && boss.imageIndex == (old(boss.imageIndex) + 1) % BossFrames
        && boss.health == ClampHealth(old(boss.health))
      ensures !bossSpawned ==>
        boss.left == old(boss.left) && boss.imageIndex == old(boss.imageIndex) && boss.health == old(boss.health)
    {
      UpdateSceneryAndPlayer(ticks, d.firstRecycleBottom);
      UpdateGroups(ticks, d.secondRecycleBottom);
    }

    /** all_sprites.update() and then Player.update. */
    method UpdateSceneryAndPlayer(ticks: int, newBottom: int)
      requires Consistent()
      requires RecycleMinBottom <= newBottom <= RecycleMaxBottom
      modifies bg`left, obstacle`left, obstacle`top, gem`left, this`gemInGroup, boss`left, boss`imageIndex
      modifies player`top, player`left, player`animationCounter, player`imageNum, player`projectiles
      modifies player`burstActive, player`shotsFiredInBurst, player`lastShotInBurstTime, player`slashActive
      modifies player.sword`left, player.sword`top, player.sword`isSwinging, player.sword`frameIndex
      modifies this`swordInGroup
      ensures Consistent()
      ensures bg.left == Scroll(old(bg.left), BackgroundSpeed, bg.imageWidth, bg.windowWidth)
      ensures obstacle.Bounds() ==
        if obstacleInGroup then ObstacleStep(old(obstacle.Bounds()), obstacle.speed, newBottom) else old(obstacle.Bounds())
      ensures gem.left == old(gem.left) - (if old(gemInGroup) then gem.speed else 0)
      ensures gemInGroup == (old(gemInGroup) && gem.Bounds().Right() >= 0)
      ensures swordInGroup == (old(swordInGroup) && !AdvanceSwing(
        if old(player.slashActive) then StartSwing(old(player.sword.State())) else old(player.sword.State())).killed)
      ensures boss.left == if bossSpawned then BossApproach(old(boss.left)) else old(boss.left)
      ensures boss.imageIndex == if bossSpawned then (old(boss.imageIndex) + 1) % BossFrames else old(boss.imageIndex)
    {
      UpdateScenery(newBottom);
      UpdatePlayer(ticks);
    }

    // -------------------------------------------------------- Frame: the rest

    /** generate_obstacle: an empty obstacle group gets a new obstacle to the
        right of the screen. */
    method GenerateObstacle(d: Dice)
      requires d.Valid()
      modifies this`obstacle, this`obstacleInGroup
      ensures obstacleInGroup
      ensures old(obstacleInGroup) ==> obstacle == old(obstacle)
      ensures !old(obstacleInGroup) ==> fresh(obstacle) && obstacle.speed == SpawnSpeed
      ensures !old(obstacleInGroup) ==>
        obstacle.Bounds() == Rect(SpawnBaseLeft + d.obstacleOffset, d.obstacleTop, ObstacleWidth, ObstacleHeight)
    {
      if !obstacleInGroup {
        obstacle := new Obstacle(SpawnBaseLeft + d.obstacleOffset, d.obstacleTop, SpawnSpeed);
        obstacleInGroup := true;
      }
    }

    /** generate_gems: an empty gem group gets a new gem, but not once the
        boss is out. */
    method GenerateGems(d: Dice)
      requires d.Valid()
      modifies this`gem, this`gemInGroup
      ensures gemInGroup == (old(gemInGroup) || !bossSpawned)
      ensures old(gemInGroup) || bossSpawned ==> gem == old(gem)
      ensures !old(gemInGroup) && !bossSpawned ==> fresh(gem) && gem.speed == SpawnSpeed && gem.variant == d.gemVariant
      ensures !old(gemInGroup) && !bossSpawned ==> gem.Bounds() == Rect(SpawnBaseLeft + d.gemOffset, d.gemTop, GemSize, GemSize)
    {
      if !gemInGroup && !bossSpawned {
        gem := new Gem(SpawnBaseLeft + d.gemOffset, d.gemTop, SpawnSpeed, d.gemVariant);
        gemInGroup := true;
      }
    }

    /** final_boss: the boss joins the sprites and the background changes. */
    method FinalBoss()
      requires Consistent()
      modifies this`bossSpawned, bg`bossImage
      ensures Consistent() && bossSpawned
    {
      bg.BossFight();
      bossSpawned := true;
    }

    /** The score goes up by one each frame; from 2500 on the boss is out. */
    method ScoreTick()
      requires Consistent()
      modifies this`score, this`bossSpawned, bg`bossImage
      ensures Consistent()
      ensures score == old(score) + 1
      ensures score >= BossScore ==> bossSpawned
      ensures score < BossScore ==> bossSpawned == old(bossSpawned)
    {
      score := score + 1;
      if score >= BossScore {
        FinalBoss();
      }
    }

    /** check_off_map: a player pushed off the left edge loses 10 and may
        lose the game; a player whose centre is at or right of x = 650 loses
        5. The second test reads the position after a possible reset. */
    method CheckOffMap()
      requires Consistent()
      modifies this`gameActive, this`endGame
      modifies this`score, this`gemsCollected, this`gravitySwitches
      modifies player`health, player`left, player`top
      modifies this`obstacleInGroup, this`gemInGroup, boss`left, boss`health, bg`bossImage, this`bossSpawned
      modifies player`totalShurikens, player`dashDistance, player`dashCooldown, player`size
      modifies this`projectileUpgrade, this`swordUpgrade, this`dashUpgrade
      ensures Consistent()
      ensures var c := old(player.Bounds().CenterX());
        var dies := c <= 0 && old(player.health) - OffMapDamage <= DeathHealth;
        && (dies ==> Over())
        && (!dies ==> Kept())
        && (!dies ==> Snapshot() == old(Snapshot()).(health := old(player.health) - OffMapPenalty(c)))
    {
      if player.Bounds().CenterX() <= 0 {
        player.health := player.health - OffMapDamage;
        if player.health <= DeathHealth {
          GameOver();
        }
      }
      if player.Bounds().CenterX() >= RightEdgeCenterX {
        player.health := player.health - RightEdgeDamage;
      }
    }

    /** check_death: health at or below -10 loses the game. */
    method CheckDeath()
      requires Consistent()
      modifies this`gameActive, this`endGame
      modifies this`score, this`gemsCollected, this`gravitySwitches
      modifies player`health, player`left, player`top
      modifies this`obstacleInGroup, this`gemInGroup, boss`left, boss`health, bg`bossImage, this`bossSpawned
      modifies player`totalShurikens, player`dashDistance, player`dashCooldown, player`size
      modifies this`projectileUpgrade, this`swordUpgrade, this`dashUpgrade
      ensures Consistent() && player.health > DeathHealth
      ensures old(player.health) <= DeathHealth ==> Over()
      ensures old(player.health) > DeathHealth ==> Kept() && Snapshot() == old(Snapshot())
    {
      if player.health <= DeathHealth {
        GameOver();
      }
    }

    /** The spawning at the start of a played frame. */
    method Spawn(d: Dice)
      requires d.Valid()
      modifies this`obstacle, this`obstacleInGroup, this`gem, this`gemInGroup
      ensures obstacleInGroup && gemInGroup == (old(gemInGroup) || !bossSpawned)
      ensures old(obstacleInGroup) ==> obstacle == old(obstacle)
      ensures !old(obstacleInGroup) ==> fresh(obstacle) && obstacle.speed == SpawnSpeed
      ensures !old(obstacleInGroup) ==>
        obstacle.Bounds() == Rect(SpawnBaseLeft + d.obstacleOffset, d.obstacleTop, ObstacleWidth, ObstacleHeight)
      ensures old(gemInGroup) || bossSpawned ==> gem == old(gem)
      ensures !old(gemInGroup) && !bossSpawned ==> fresh(gem) && gem.speed == SpawnSpeed && gem.variant == d.gemVariant
      ensures !old(gemInGroup) && !bossSpawned ==> gem.Bounds() == Rect(SpawnBaseLeft + d.gemOffset, d.gemTop, GemSize, GemSize)
    {
      GenerateObstacle(d);
      GenerateGems(d);
    }

    /** The checks at the end of a played frame. */
    method Penalties()
      requires Consistent()
      modifies this`gameActive, this`endGame
      modifies this`score, this`gemsCollected, this`gravitySwitches
      modifies player`health, player`left, player`top
      modifies this`obstacleInGroup, this`gemInGroup, boss`left, boss`health, bg`bossImage, this`bossSpawned
      modifies player`totalShurikens, player`dashDistance, player`dashCooldown, player`size
      modifies this`projectileUpgrade, this`swordUpgrade, this`dashUpgrade
      ensures Consistent() && player.health > DeathHealth
      ensures var c := old(player.Bounds().CenterX());
        var offMapDeath := c <= 0 && old(player.health) - OffMapDamage <= DeathHealth;
        var h := old(player.health) - OffMapPenalty(c);
        && (offMapDeath || h <= DeathHealth ==> Over())
        && (!offMapDeath && h > DeathHealth ==> Kept() && Snapshot() == old(Snapshot()).(health := h))
    {
      CheckOffMap();
      CheckDeath();
    }

    /** The second half of a played frame: score, sprite updates and the
        off-map and death checks. */
    method ScoreAndMove(ticks: int, d: Dice)
      requires Consistent() && d.Valid()
      modifies this, player, player.sword, boss, bg, obstacle, gem
      ensures Valid()
    {
      ScoreTick();
      UpdateSprites(ticks, d);
      Penalties();
    }

    /** The body of update_game while the game is active. */
    method PlayFrame(ticks: int, d: Dice)
      requires Valid() && d.Valid()
      modifies this, player, player.sword, boss, bg, obstacle, gem
      ensures Valid()
    {
      Spawn(d);
      DetectCollision(ticks);
      ScoreAndMove(ticks, d);
    }

    /** update_game: the home-page skyline always scrolls; everything else
        runs only during play. */
    method UpdateGame(ticks: int, d: Dice)
      requires Valid() && d.Valid()
      modifies this, player, player.sword, boss, bg, cityBg, obstacle, gem
      ensures Valid()
      ensures cityBg.left == Scroll(old(cityBg.left), CitySpeed, CityWidth, CityWrapRight)
      ensures !old(gameActive) ==> unchanged(this, player, player.sword, boss, bg, old(obstacle), old(gem))
    {
      cityBg.Update();
      if gameActive {
        PlayFrame(ticks, d);
      }
    }
  }
}
