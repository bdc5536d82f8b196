# MetroRunners in Dafny

MetroRunners is a side-scrolling runner written with pygame. The player
character runs on the floor or the ceiling of a 923 x 480 window and can
flip gravity with Space (at most twice between two boundary contacts). It
can throw a burst of shurikens (D), dash forward (E) and swing a sword (F),
each behind its own cooldowns. Flying cars come in from the right: touching
one from its left costs health, and a shuriken or the sword destroys it for
40 points. Gems come in the same way. Collected gems upgrade, in turn, the shuriken
count, the sword size and the dash. Each of the three upgrades has its own
threshold, which starts at 10 and rises by 5 after that upgrade, and the gem
count goes back to 0 at every upgrade. So the upgrades come after 10, 10,
10, 15, 15, 15, 20, ... gems.
The score rises by one per frame. From 2500 the boss arrives, and 26 frames
with a shuriken hit defeat it. Health at or below -10 loses the game. Both
endings reset the game and show an end screen, from which Return goes back
to the home menu and Q quits.

This project models that game logic as Dafny classes and methods, in the
shape the program has:

- `geometry.dfy`: integer rectangles with pygame's strict overlap test and
  half-open point test, and the scroll-and-wrap step shared by both
  scrolling backgrounds.
- `cooldown.dfy`: the two cooldown gates, `>=` in the event handler and `>`
  in the player, and which requests a gate accepts.
- `home_page.dfy`: `ImageButton.is_clicked` and the home page's
  `CityBackground`.
- `static_sprites.dfy`: the boundaries and the play-screen `Background`.
- `moving_sprites.dfy`: `Obstacle`, `Gems`, `Projectile`, `Sword` and
  `Boss`.
- `player_sprites.dfy`: `Player`, including gravity, animation, the
  collision response, the shuriken burst and the sword hand-off.
- `game.dfy`: `MetroRunnersGame`. This covers key and mouse handling,
  spawning, `detect_collision`, the upgrade cycle, the sprite updates, the
  off-map and death checks, and `reset_game`.

Each object that the program mutates is a Dafny `class` whose methods state
the object's new state. Each of those states is given by a pure function of
the old state: `Scroll`, `ObstacleStep`, `ProjectileStep` and `UpdateAll`,
`AdvanceSwing`, `BossApproach`, `GravityStep`, `Animate`, `ResolveAll`,
`AdvanceBurst`, `SpendSwitch`, `CheckUpgrades`, `SweepAll`, `Misses` and
`ContactFrame`. Lemmas prove what those functions promise over many frames.

Timing uses two integer millisecond clocks, both given as parameters:

- `ticks` is pygame's `get_ticks()`, read by the event layer and by the
  burst.
- `wall` is `time.time()` scaled to milliseconds, read by the player's own
  shoot, dash and slash gates.

Random draws are also parameters: the `Dice` of a frame.

The model follows the code as written, including these behaviours:

- **Obstacle damage ignores the cooldown.** The 2 points are taken on every
  frame of contact. Only the damage time stamp and the death check wait for
  the 1000 ms cooldown (`ContactFrame`, `DamageIgnoresCooldown`).
- **`gravity_cooldown_time` is never consulted.** Space is limited only by
  the two-switch budget, and it works on every screen, not only during play
  (`PressSpace`).
- **Two cooldown layers.** D, E and F pass the event layer's `>=` gate and
  then the player's own strict `>` gate. F puts the sword in its group even
  when the player's gate refuses the slash (`PressSlash`).
- **Player health is never clamped.** Only the shown copy is clamped to 0.
  The boss's health bar clamps the boss's actual health to 0 once it has
  been drawn, and the boss is defeated when a hit takes its health to -4 or
  below. From 100 this happens on the 26th hit frame
  (`BossFallsOnTwentySixthHit`).
- **The boss check does not ask whether the boss is out.** The hit test
  and the defeat test run on every frame of play (`ShootBoss`).
- **One obstacle per sweep.** In the projectile loop, at most one projectile
  is spent: the first one that overlaps the obstacle (`SweepKillsAtMostOne`,
  `SweepRemovesFirstHit`).
- **Ties in the collision response snap on two axes.** When the right and
  downward overlaps tie for the smallest, the player is put against the
  object's left edge and on its top, whatever the gravity direction
  (`SnapTieSnapsTwice`).
- **`reset_game` differs from start-up.** It sets the sword size to 100
  where start-up uses 200, and the dash cooldown to 10 s. It does not reset
  the upgrade cycle, does not move the sword or empty the projectile group,
  and puts the boss's right edge, not its left edge, at 1300.
- **A game that ends inside `detect_collision` leaves a score of 1.** When
  the obstacle kills the player or the boss falls, the score tick of the
  same frame runs after the reset.
- **Pygame truncates floats to integers.** `SCREEN_WIDTH` is 923.72; as a
  rect coordinate it becomes 923. The boss halts once its right edge is
  below 1023.72, that is, below 1024.

## Model

| member | source | states |
|---|---|---|
| Geometry.Scroll | staticSprites.py:76-78 | the new left edge is `speed` further left, or 0 exactly when the image's right edge would reach the window's edge; it keeps covering the window |
| Geometry.ScrollKeepsCovering | staticSprites.py:76-78 | an image wider than the window that covers it keeps covering it after any number of scroll steps |
| Cooldown.AcceptedAreSpaced | main.py:113-122 | every use a gate accepts was requested, and consecutive accepted uses are at least (or, for the strict gate, more than) one cooldown apart; the first request is accepted exactly when it is ready against the previous use |
| Cooldown.AcceptedOneMore | main.py:113-122 | a further request is accepted exactly when it is ready against the last accepted use (or the previous use when none was accepted), so a repeat at exactly the cooldown passes the `>=` gate; the earlier acceptances are unchanged |
| HomePage.IsClicked | homePageSprites.py:31-45 | a click hits the 287 x 62 start button exactly when the mouse is inside its half-open rectangle |
| HomePage.CityBackground.constructor | homePageSprites.py:120-124 | the skyline starts with its corner at the given point |
| HomePage.CityBackground.Update | homePageSprites.py:126-140 | the skyline moves one pixel left, or wraps to 0 when its right edge reaches 923, and keeps covering the window |
| HomePage.CityScrollsOnePixel | homePageSprites.py:136-140 | starting from 0, after k updates (k up to 1476) the skyline's left edge is at -k |
| HomePage.CityLoopPeriod | homePageSprites.py:136-140 | the skyline returns to 0 after exactly 1477 updates and not earlier |
| StaticSprites.Background.constructor | staticSprites.py:58-68 | the background starts at the window's corner, showing the normal image |
| StaticSprites.Background.Update | staticSprites.py:70-78 | the background scrolls 10 pixels left and wraps to 0 when its right edge reaches the window's width; an image wider than the window stays covering it |
| StaticSprites.Background.BossFight | staticSprites.py:80-86 | the boss-fight image is shown |
| StaticSprites.Background.Normal | staticSprites.py:88-94 | the normal image is shown again |
| MovingSprites.ObstacleStep | movingSprites.py:60-63 | the obstacle moves `speed` left; once its right edge is past 0 it reappears with its left edge at x = 923 and its bottom at the drawn value; its size is unchanged and its right edge is never left of 0 afterwards |
| MovingSprites.Obstacle.constructor | movingSprites.py:42-47 | the obstacle starts at the given corner with the given speed |
| MovingSprites.Obstacle.Update | movingSprites.py:49-63 | the obstacle's rect after the update is ObstacleStep of the old one |
| MovingSprites.Gem.constructor | movingSprites.py:102-106 | the gem starts at the given corner, speed and image variant |
| MovingSprites.Gem.Update | movingSprites.py:108-120 | the gem moves `speed` left and kills itself exactly when its right edge is past 0 |
| MovingSprites.NewProjectile | movingSprites.py:153-165 | a new shuriken is a 25 x 25 rect at the given point, on image 0, stamped with the current tick |
| MovingSprites.ProjectileStep | movingSprites.py:178-185 | a shuriken moves 15 right; its image advances (mod 4) and its stamp becomes `now` exactly when more than 2 ms have passed |
| MovingSprites.UpdateAllKeepsOnScreen | movingSprites.py:167-187 | after the group update every survivor is the step of some old shuriken and on screen, and every old shuriken whose step is on screen survives |
| MovingSprites.UpdateProjectiles | movingSprites.py:167-187 | the group update loop computes exactly UpdateAll |
| MovingSprites.AdvanceSwing | movingSprites.py:267-277 | an idle sword stays put; a swinging sword before its last frame moves to the next frame; on its fifth frame the swing ends, the sword goes back to idle on frame 0 and leaves its group, and only then |
| MovingSprites.SwingRunsFiveUpdates | movingSprites.py:267-289 | a swing started from rest is on frame k after k updates and ends on the fifth update |
| MovingSprites.Sword.constructor | movingSprites.py:229-247 | the sword starts 50 left and 60 above the player's corner, idle on frame 0, unflipped |
| MovingSprites.Sword.Swing | movingSprites.py:279-289 | a swing starts from frame 0 unless one is already running |
| MovingSprites.Sword.Update | movingSprites.py:249-277 | the sword follows the player at offset (-50, -60), and its swing advances as AdvanceSwing says, reporting whether it killed itself |
| MovingSprites.Sword.SwitchGravity | movingSprites.py:291-297 | the sword's flip flag toggles |
| MovingSprites.BossApproach | movingSprites.py:366-367 | the boss moves 50 left while its right edge is at or right of 1024, and stays put otherwise |
| MovingSprites.BossStaysHalted | movingSprites.py:366-367 | a boss whose right edge is left of 1024 never moves again |
| MovingSprites.BossSettles | movingSprites.py:366-367 | after enough updates the boss halts with its right edge in [974, 1024) and never moves right |
| MovingSprites.ClampHealth | movingSprites.py:389-390 | the shown health is never negative and equals the health unless that is negative |
| MovingSprites.Boss.constructor | movingSprites.py:338-351 | the boss starts at (1300, 80), on image 0, with health 100 |
| MovingSprites.Boss.Update | movingSprites.py:356-374 | the boss moves by BossApproach and its image advances mod 5 |
| MovingSprites.Boss.DrawHealthBar | movingSprites.py:389-390 | drawing the bar clamps the boss's health at 0 |
| PlayerSprites.GravityStep | playerSprites.py:205-211 | the player moves 15 in the gravity direction exactly when it is not yet at the screen edge it falls toward |
| PlayerSprites.FallSettles | playerSprites.py:206-208 | falling down, the player comes to rest with its bottom in [480, 494] |
| PlayerSprites.RiseSettles | playerSprites.py:209-211 | falling up, the player comes to rest with its top in [-14, 0] |
| PlayerSprites.Animate | playerSprites.py:213-218 | the running image stays or advances by one (mod 6), and the counter stays below the delay |
| PlayerSprites.ImageEverySecondUpdate | playerSprites.py:213-218 | from a reset counter the running image advances once every two updates |
| PlayerSprites.Snap | playerSprites.py:222-264 | one collision response keeps the player's size; a grounded player is only pushed back to the obstacle's left edge |
| PlayerSprites.SnapOutRight | playerSprites.py:234-236 | an airborne player whose smallest overlap is from the right is put against the obstacle's left edge |
| PlayerSprites.SnapOutLeft | playerSprites.py:238-240 | an airborne player whose smallest overlap is from the left is put against the obstacle's right edge |
| PlayerSprites.SnapOutTop | playerSprites.py:242-258 | an airborne player whose smallest overlap is from above lands on the obstacle's top |
| PlayerSprites.SnapOutBottom | playerSprites.py:247-260 | an airborne player whose smallest overlap is from below is put under the obstacle's bottom |
| PlayerSprites.SnapTieSnapsTwice | playerSprites.py:232-260 | for any overlapping player and object whose right and downward overlaps tie below the other two, in either gravity direction, the player ends against the object's left edge and on its top |
| PlayerSprites.CollisionList | playerSprites.py:220 | the collision list holds exactly the obstacles the player overlaps |
| PlayerSprites.ResolveAll | playerSprites.py:222-264 | resolving the whole collision list keeps the player's size |
| PlayerSprites.GroundedOnlyBlocksRight | playerSprites.py:262-264 | a grounded player keeps its height and ends left of every obstacle it hit |
| PlayerSprites.ResolveCollisions | playerSprites.py:220-264 | the collision loop computes ResolveAll over the collision list |
| PlayerSprites.AdvanceBurst | playerSprites.py:266-275 | a burst fires a shuriken only when active, more than 100 ms after the last, and under the shuriken count; the count never passes the total and an idle burst is unchanged |
| PlayerSprites.IdleBurstStaysIdle | playerSprites.py:266-275 | an idle burst stays idle and fires nothing over any updates |
| PlayerSprites.BurstFiresOnePerUpdate | playerSprites.py:266-275 | with updates more than 100 ms apart, an active burst fires one shuriken per update until the total, and stays active exactly while below it |
| PlayerSprites.FlipTwiceRestores | playerSprites.py:144-154 | two gravity switches restore the orientation |
| PlayerSprites.Player.constructor | playerSprites.py:44-117 | the player starts at (350, 220), falling down, with 3 shurikens, sword size 200, dash 100 px every 10 s, health 100, and the sword at its offset |
| PlayerSprites.Player.SwitchGravity | playerSprites.py:144-154 | direction, force, the image flag and the sword's flag all flip |
| PlayerSprites.Player.Shoot | playerSprites.py:156-168 | more than 2 s after the last burst a new burst starts (0 fired, stamped on both clocks); otherwise nothing changes |
| PlayerSprites.Player.Dash | playerSprites.py:170-180 | more than the dash cooldown after the last dash the player moves `dashDistance` right; otherwise nothing changes |
| PlayerSprites.Player.Slash | playerSprites.py:182-192 | more than 2 s after the last slash a slash is requested; otherwise nothing changes |
| PlayerSprites.Player.UpdateProjectileGroup | main.py:192 | the player's shurikens become UpdateAll of the old ones |
| PlayerSprites.Player.DrawHealthBar | playerSprites.py:314-315 | the health shown is clamped at 0 and the player's health is left alone |
| PlayerSprites.Player.Fall | playerSprites.py:205-211 | the player's top moves as GravityStep says |
| PlayerSprites.Player.AdvanceAnimation | playerSprites.py:213-218 | the animation state moves as Animate says |
| PlayerSprites.Player.Collide | playerSprites.py:220-264 | the player's rect becomes ResolveAll over its collision list |
| PlayerSprites.Player.FireBurst | playerSprites.py:266-275 | the burst moves as AdvanceBurst says and a fired shuriken is added at the player's right edge and vertical centre |
| PlayerSprites.Player.HandOffSlash | playerSprites.py:277-281 | a requested slash starts the sword's swing and the request is cleared |
| PlayerSprites.Player.Move | playerSprites.py:205-264 | the player falls, animates, then is resolved against the obstacles |
| PlayerSprites.Player.SwordPhase | playerSprites.py:277-284 | the slash hand-off then the sword update, which follows the player |
| PlayerSprites.Player.Shooting | playerSprites.py:266-285 | the burst step, then the group update of old and new shurikens |
| PlayerSprites.Player.Act | playerSprites.py:266-285 | the burst, the sword and the shuriken group of one update, as the functions above say |
| PlayerSprites.Player.Update | playerSprites.py:194-285 | one player update: fall, animation, collisions, burst, sword and shurikens, each as its function says, keeping the player's invariant |
| Game.SpendSwitch | main.py:109-112 | Space flips gravity exactly when fewer than two switches are spent and then spends one; a boundary contact gives both back |
| Game.AtMostTwoFlipsInAir | main.py:109-112 | without a boundary contact, gravity flips at most twice (fewer if switches are already spent) |
| Game.CheckUpgrades | main.py:460-479 | the three upgrade checks keep the upgrade cycle valid |
| Game.CheckUpgradesSpec | main.py:460-479 | one pass gives at most one upgrade, exactly when the gems reach the current threshold; then the gems reset, the cycle moves on and only that threshold rises by 5 |
| Game.UpgradesAfter | main.py:454-479 | collecting gems one at a time keeps the upgrade cycle valid |
| Game.NoUpgradeBeforeThreshold | main.py:460-466 | from a fresh cycle, fewer gems than the threshold bring no upgrade |
| Game.ShurikenUpgradeAtThreshold | main.py:460-466 | from a fresh cycle, the threshold-th gem brings the shuriken upgrade and moves the cycle to the sword |
| Game.ShurikenUpgrade | main.py:460-466 | in the shuriken stage with enough gems, exactly the shuriken reward is given and the stage advances |
| Game.SweepKillsAtMostOne | main.py:430-437 | the projectile loop kills at most one obstacle, none exactly when no shuriken overlaps a present obstacle, and a kill removes it |
| Game.SweepRemovesFirstHit | main.py:430-437 | on a kill, the shuriken spent is the first one overlapping the obstacle and all others stay in order |
| Game.SweepProjectiles | main.py:430-437 | the projectile loop computes SweepAll |
| Game.SweepKeepsSubset | main.py:430-437 | the loop only removes shurikens |
| Game.MissesRemovesExactlyHits | main.py:440-442 | exactly the shurikens overlapping the boss are removed, and some were removed exactly when one overlapped |
| Game.BossFallsOnTwentySixthHit | main.py:440-444 | from health 100 the boss survives 25 hit frames and is defeated by the 26th |
| Game.ContactFrame | main.py:413-420 | a contact frame always takes 2 health; the damage stamp moves to `now` exactly when 1000 ms have passed |
| Game.DamageIgnoresCooldown | main.py:413-420 | over any contact frames the player loses 2 per frame, and the stamp is the last time the cooldown gate accepted |
| Game.NewParts | main.py:296-343 | the player, boss and backgrounds are created fresh in their start states: the player at (350, 220) with health 100, 3 shurikens, sword size 200, dash 100 px every 10 s, an empty shuriken group and no burst or slash; the boss at (1300, 80) on image 0 with health 100; both backgrounds at x = 0, the play background on its normal image |
| Game.MetroRunnersGame.constructor | main.py:254-348 | the game starts on the home page with an obstacle and a gem spawned off the right edge, all cooldowns ready, upgrade cycle 1 at thresholds 10, the player's start equipment and an empty shuriken group, the boss at (1300, 80) with health 100 and both backgrounds at x = 0 |
| Game.MetroRunnersGame.ResetPlayer | main.py:550-564 | the player gets 100 health, is centred at (461, 240) and gets the reset loadout |
| Game.MetroRunnersGame.ResetBoss | main.py:557-559 | the boss's right edge goes back to 1300 with 100 health and the normal background |
| Game.MetroRunnersGame.ResetCounters | main.py:547-567 | score, gems and switches become 0, the groups empty, the boss is gone and all thresholds are 10 |
| Game.MetroRunnersGame.ResetGame | main.py:541-567 | everything reset_game writes is back at its reset value |
| Game.MetroRunnersGame.HandleQuit | main.py:96-97 | closing the window stops the loop |
| Game.MetroRunnersGame.HandleClick | main.py:98-105 | a click on the button starts play and clears the end screen; any other click changes nothing |
| Game.MetroRunnersGame.PressSpace | main.py:109-112 | Space flips gravity and stamps the time exactly when SpendSwitch allows it |
| Game.MetroRunnersGame.PressShoot | main.py:113-115 | during play and 1000 ms after the last accepted D, a burst is asked for and starts if the player's 2 s gate allows |
| Game.MetroRunnersGame.PressDash | main.py:116-118 | during play and 1000 ms after the last accepted E, a dash is asked for and happens if the player's dash gate allows |
| Game.MetroRunnersGame.PressSlash | main.py:119-122 | during play and 2000 ms after the last accepted F, the sword joins its group and a slash starts if the player's gate allows |
| Game.MetroRunnersGame.EndScreenKey | main.py:123-128 | on the end screen Return leaves it and Q stops the loop |
| Game.MetroRunnersGame.HandleKey | main.py:106-128 | a key press: Space spends a switch, only E moves the player, Return and Q act on the end screen, and the game's invariant holds |
| Game.MetroRunnersGame.GameOver | main.py:508-514 | play stops, the end screen comes up and the game is reset |
| Game.MetroRunnersGame.CheckBoundaries | main.py:397-409 | the player is on the ceiling when touching the top boundary, otherwise on the ground when touching the bottom one, and a contact gives back the switches |
| Game.MetroRunnersGame.TakeObstacleDamage | main.py:411-427 | without contact nothing changes; with contact the frame goes as ContactFrame says; when the player survives only the health (by 2) and the damage state change, and the game is over when the gate accepts and the health is at or below -10 |
| Game.MetroRunnersGame.ShootObstacle | main.py:430-437 | the shurikens and the obstacle group become what SweepAll says, with 40 points per kill |
| Game.MetroRunnersGame.HitBoss | main.py:440-442 | the shurikens overlapping the boss are removed and the boss loses 4 exactly when there were any |
| Game.MetroRunnersGame.ShootBoss | main.py:440-451 | after the hits, a boss at -4 or below ends the game as won; otherwise nothing else in the game state changes: without a hit nothing at all, with a hit only the boss's health, by 4 |
| Game.MetroRunnersGame.UpgradeProjectiles | main.py:516-522 | one more shuriken per burst |
| Game.MetroRunnersGame.UpgradeSword | main.py:533-539 | the player's `size` grows by 50; nothing reads it afterwards, as the sword keeps the size it was built with |
| Game.MetroRunnersGame.UpgradeDash | main.py:524-531 | the dash cooldown drops by 1.5 s and the distance grows by 25 |
| Game.MetroRunnersGame.ApplyUpgrades | main.py:460-479 | the upgrade state becomes CheckUpgrades of the old one and the player gets exactly its rewards |
| Game.MetroRunnersGame.TouchGem | main.py:454-459 | a touched gem leaves its group and counts as collected |
| Game.MetroRunnersGame.GemLoopPass | main.py:454-479 | one pass: the gem is collected if touched, then the upgrades are applied as GemPass says |
| Game.MetroRunnersGame.PickUpGem | main.py:454-479 | the pass runs only while the gem is in its group; otherwise nothing changes |
| Game.MetroRunnersGame.GemLoop | main.py:454-479 | the gem loop keeps the counters' invariant |
| Game.MetroRunnersGame.CollectGem | main.py:453-479 | the gem loop keeps the game's invariant |
| Game.MetroRunnersGame.SlashObstacle | main.py:482-487 | a sword in its group that overlaps the obstacle kills it for 40 points |
| Game.MetroRunnersGame.DetectHazards | main.py:396-437 | boundaries, obstacle damage and the projectile sweep keep the game's invariant |
| Game.MetroRunnersGame.DetectRewards | main.py:439-487 | the boss hits, the gem loop and the sword keep the game's invariant |
| Game.MetroRunnersGame.DetectCollision | main.py:390-487 | detect_collision keeps the game's invariant |
| Game.MetroRunnersGame.MoveObstacle | main.py:197 | an obstacle in its group moves as ObstacleStep says |
| Game.MetroRunnersGame.MoveGem | main.py:189 | a gem in its group moves left and leaves the group once off the left edge |
| Game.MetroRunnersGame.UpdateScenery | main.py:181 | the background scrolls, the obstacle in its group moves as ObstacleStep says, the gem in its group moves left by its speed and leaves the group once past the left edge, and a spawned boss approaches and moves on one image |
| Game.MetroRunnersGame.UpdatePlayer | main.py:182 | the player falls and is resolved against the obstacle group as ResolveAll says, animates, fires and moves its shurikens, and the sword leaves its group exactly when its swing ends |
| Game.MetroRunnersGame.UpdateGroups | main.py:189-202 | the gem and the obstacle move a second time, the shurikens become UpdateAll of the old ones and a spawned boss's health is clamped at 0 |
| Game.MetroRunnersGame.UpdateSceneryAndPlayer | main.py:181-182 | the effects of all_sprites.update and Player.update together: scroll, first obstacle and gem moves, the gem leaving its group exactly once past the left edge, boss approach and image, and the sword-group rule |
| Game.MetroRunnersGame.MoveSprites | main.py:180-202 | over a whole update the background scrolls once, the obstacle takes two ObstacleSteps with the two drawn bottoms, a gem still in its group has moved twice its speed, and the gem stays in its group exactly when neither move took it past the left edge; the sword leaves its group exactly when its swing ends; a spawned boss approaches, moves on one image and has its health clamped, and a boss not yet spawned keeps its position, image and health |
| Game.MetroRunnersGame.UpdateSprites | main.py:173-202 | nothing changes while the end screen is up; otherwise the effects MoveSprites states |
| Game.MetroRunnersGame.GenerateObstacle | main.py:355-373 | an empty obstacle group gets a fresh obstacle at 923 + offset with the drawn top |
| Game.MetroRunnersGame.GenerateGems | main.py:375-388 | an empty gem group gets a fresh gem exactly while the boss is not out |
| Game.MetroRunnersGame.FinalBoss | main.py:581-589 | the boss is out and the boss background shows |
| Game.MetroRunnersGame.ScoreTick | main.py:145-148 | the score rises by one and from 2500 the boss is out |
| Game.MetroRunnersGame.CheckOffMap | main.py:158-171 | a centre at or left of 0 costs 10 and may end the game; a centre at or right of 650 costs 5; when the game goes on nothing but the health changes |
| Game.MetroRunnersGame.CheckDeath | main.py:502-514 | health at or below -10 ends the game; otherwise nothing changes |
| Game.MetroRunnersGame.Spawn | main.py:140-141 | an obstacle is always present afterwards, and a gem unless the boss is out; a missing obstacle is created at x = 923 plus the drawn offset with the drawn top, a missing gem likewise with the drawn image, both at speed 10; present ones are kept |
| Game.MetroRunnersGame.Penalties | main.py:152-153 | after the end-of-frame checks the player is alive; the game is over when the off-map penalty (10 at or left of 0, 5 at or right of 650) kills or leaves the health at or below -10, and otherwise only the health changes, by that penalty |
| Game.MetroRunnersGame.ScoreAndMove | main.py:145-153 | the second half of a frame restores the between-frames invariant |
| Game.MetroRunnersGame.PlayFrame | main.py:139-153 | a played frame keeps the between-frames invariant |
| Game.MetroRunnersGame.UpdateGame | main.py:130-153 | the skyline always scrolls, nothing else changes off play, and the invariant holds |

## Left out

- Drawing, fonts, sounds, `adjust_brightness` and the cooldown icons are not modelled. They change no game state.
- The main loop `alter`, `home_menu`, `ScoreKeeper` and `End_Screen` only draw or pace frames. A frame is modelled as one call of `HandleKey`, `HandleClick` or `HandleQuit` per event, followed by `UpdateGame`.
- The `Instructions` and `MetroRunners` logo sprites are not modelled. They are only drawn, and killing the button and logo has no effect on the logic.
- `Background.draw` is not modelled. It is never called, and it reads fade attributes that no code sets.
- Randomness: each `random.randint`/`randrange` result is a field of the `Dice` parameter, constrained to the range the call draws from.
- Clocks: `pygame.time.get_ticks()` and `time.time()` are parameters in integer milliseconds. One `ticks` value serves the whole frame, although the program reads the clock several times per frame. Second-valued cooldowns are converted: the dash cooldown of 10 s is 10000, and the dash upgrade of 1.5 s is 1500.
- Floating point: `SCREEN_WIDTH` 923.72 enters every rect as 923, as pygame truncates it. The boss-halt test against 1023.72 is modelled as `>= 1024`.
- `MovingSprites.Sword.Update`: the sword's and the boss's animation accumulators (`current_time += get_ticks()` against 0.4) are modelled as advancing one frame per update. This holds whenever pygame's clock has passed 0 ms. The image scaling with the sword size is not modelled.
- `MovingSprites.Boss.Update`: the boss animation is modelled as one image per update, for the same reason.
- Projectiles are values (`Projectile` datatype) in a sequence, not objects. Pygame groups are membership flags, as each group only ever holds the current obstacle, gem or sword.
- `PlayerSprites.Player.DrawHealthBar` clamps only a copy of the health. It is modelled as a method that changes nothing and is not called from the frame.
- `Game.MetroRunnersGame.UpdatePlayer` does not restate the player's burst state or the sword's position. `PlayerSprites.Player.Update` states them.
- `Game.MetroRunnersGame.HandleKey` states, for keys other than Space, only that the switch count and the gravity direction are unchanged. `PressShoot`, `PressDash` and `PressSlash` state the full effect of their keys.
- `Game.MetroRunnersGame.GemLoop`, `Game.MetroRunnersGame.CollectGem`, `Game.MetroRunnersGame.DetectHazards`, `Game.MetroRunnersGame.DetectRewards` and `Game.MetroRunnersGame.DetectCollision` state only the invariant they keep. The effect of each step is stated by the methods they call.
- `Game.MetroRunnersGame.ScoreAndMove`, `Game.MetroRunnersGame.PlayFrame` and `Game.MetroRunnersGame.UpdateGame` state the between-frames invariant. They do not state the composed effect of the whole frame.
- `Game.MetroRunnersGame.MoveSprites` and `Game.MetroRunnersGame.UpdateSprites` do not state the player's new position or the shuriken group after the whole update. `UpdatePlayer` and `UpdateGroups` state each step of them. `MoveSprites` also leaves out where a gem that left its group ended.
- `Game.MetroRunnersGame.UpdateSceneryAndPlayer` does not restate the player's position or shurikens. `UpdatePlayer` states them.
- `Game.CheckUpgrades` and `Game.UpgradesAfter` state only validity in their own contracts. Their meaning is proved in `CheckUpgradesSpec` and the upgrade lemmas.
- `PlayerSprites.ResolveAll` states only that the size is kept. The response itself is stated by the `Snap` lemmas and `GroundedOnlyBlocksRight`.
- The key handler's sequential `if`s are modelled as one dispatch on the key. They test different keys, so at most one of them can fire.
- `reset_game` leaves the upgrade cycle as it was, as the program does.
