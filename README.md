# Heros go! — the combat and entity-lifecycle engine, modelled in Dafny

Heros go! is a two-sided lane battle. The player spends energy to send
heroes (Archer, Warrior, Mage, Healer) rightward from the player's
stronghold, while enemies walk leftward from the enemy stronghold. This
project models the engine behind a match:

- the cooldown-gated attack and its `take_damage` dispatch;
- the three skill effects: area damage, attack-speed buff and group heal;
- the skill's cooldown-and-chance gate;
- straight-line projectiles with a one-shot arrival callback and a range cut-off;
- the energy economy with its five-step upgrade;
- the stronghold proxy that mirrors its health into the stronghold;
- the per-tick update of heroes (buff expiry, cast timer, targeting, role skills) and of enemies;
- the frame and death-timer animation state machine;
- the match analytics counters and their five-second snapshots;
- the spawn and upgrade buttons;
- `idk.py`, the earlier self-contained version of the game, including the whole-tick `GameManager.update`.

Modules follow the source layout:

| module | file | source |
|---|---|---|
| `Common`, `Screen` | common.dfy | shared vocabulary: `Option`, `Abs`/`Max`/`Min`, the cooldown gate `Ready`, the 800×400 screen |
| `Stronghold` | base.dfy | units/base.py `Base` |
| `Combat` | combat.dfy | combat/character.py and combat/skill.py |
| `Projectiles` | projectile.dfy | combat/projectile.py |
| `Animations` | animation.dfy | core/animation.py |
| `Resources` | resource.dfy | core/resource.py |
| `Tracking` | tracker.dfy | core/tracker.py |
| `Heroes` | hero.dfy | units/hero.py |
| `Enemies` | enemy.dfy | units/enemy.py |
| `Buttons` | button.dfy | ui/button.py |
| `Prototype` | prototype.dfy | idk.py |

Why combat/character.py and combat/skill.py share one module: skills act on
characters and characters carry skills. Heroes, enemies and the stronghold
proxy are all `Combat.Character` objects, told apart by a `Kind` tag.

The game's `hasattr(target, 'take_damage')` probe becomes `base != null`,
because only the stronghold proxy has `take_damage`. The probes for
`original_cooldown` and `buff_end_time` become `Option` fields.

Objects the game updates in place are classes with field-level `modifies`
frames. Pure selections are functions: targeting, the label choice, the
economy's rules and the counters.

Each method is proved against a twostate predicate or a function of the
old state. Examples:

- `Damaged`, `Struck`, `Buffed`, `Healed` and `Applied` for combat;
- `Regenerated` and `Upgraded` for the economy;
- `Bump` and `MostCounted` for the tracker;
- `Choice`, `Nearby` and `FirstStrikable` for targeting;
- `Blows`, `CountPast` and `Survivors` for the prototype's tick.

The game reads a clock and a random number generator in several places.
The model replaces them with parameters:

- Every `time.time()` becomes a `now: real` parameter. Within one call the same `now` is used throughout.
- Every `random.random()` becomes a `roll: real` parameter. `Hero.try_skill` draws twice, so it takes two rolls.
- `random.randint(1, 100)` becomes `roll: int`.

The screen size comes from a module that is not part of this model. It is
taken to be 800×400, the values `idk.py` uses.

Health and positions are reals in the main game. They are integers and
reals in the prototype, as its constants are.

## Model

| member | source | states |
|---|---|---|
| `Stronghold.Base.constructor` | units/base.py:7-9 | a stronghold starts with health 100 at the given x |
| `Combat.Character.constructor` | combat/character.py:4-8 | a new entity has health == max health, is alive and not dying, stands where it was put, moves at its speed; the hero/enemy extras start in state "move" with no buff on record |
| `Combat.Character.ProxyFor` | units/base.py:25-30 | the stronghold proxy stands 20 left of the stronghold at half screen height, has the stronghold's health as health and max, speed 0, is alive and not dying |
| `Combat.Character.TakeDamage` | units/base.py:32-36 | the proxy loses exactly the damage, writes its health through to the stronghold, stops being alive at or below 0 and never becomes dying |
| `Combat.Character.Move` | combat/character.py:10-12 | a living entity advances by its speed; a dead one does not move |
| `Combat.Attack.constructor` | combat/character.py:15-18 | damage and cooldown as given, last attack at time 0 |
| `Combat.Attack.AttackTarget` | combat/character.py:23-32 | with the cooldown elapsed the target is `Damaged`: health drops by exactly dmg, at or below 0 it stops being alive, and a plain target becomes dying while a proxy mirrors the health into its stronghold instead. Last time becomes now. Before the cooldown elapses nothing at all changes |
| `Combat.AttackTwiceWithinCooldown` | combat/character.py:20-32 | two attacks less than a cooldown apart damage the target once and leave the first time stamped |
| `Combat.AttackOnStronghold` | units/base.py:32-36 | an attack on a proxy reaches the stronghold's health, kills the proxy exactly when health runs out, and never marks it dying |
| `Combat.BuffedCooldown` | combat/skill.py:29 | a buffed cooldown is never below 0.1, is either 0.1 or lowered by exactly the amount, and a non-negative buff never raises a cooldown above the floor |
| `Combat.Snapshot` | combat/skill.py:27-28 | a snapshot always exists after a buff and an existing one is kept |
| `Combat.BuffedTwice` | combat/skill.py:29 | lowering to the floor by one amount and then another equals lowering once by their sum |
| `Combat.RepeatedBuffs` | combat/skill.py:25-30 | n buffs compound: the cooldown is lowered by the n-fold total, down to the floor, while the snapshot keeps the cooldown from before the first buff |
| `Combat.RepeatedBuffsLowerByProduct` | combat/skill.py:29 | after n buffs of a the cooldown is max(0.1, cooldown − n·a) |
| `Combat.HealedHealth` | combat/skill.py:37-41 | a heal never lifts health above max (unless it already was), leaves dead or full targets unchanged, and keeps a wounded living target between its old health and max |
| `Combat.ApplyAreaDamage` | combat/skill.py:13-18 | each target alive and within the radius on the lane axis loses exactly the damage and, at or below 0, stops being alive, without becoming dying; every other target is untouched |
| `Combat.ApplyBuff` | combat/skill.py:25-30 | each ally's cooldown becomes `BuffedCooldown`, the snapshot is taken only if none exists, and the buff ends at now + duration |
| `Combat.ApplyGroupHeal` | combat/skill.py:36-41 | each target's health becomes `HealedHealth` of its old health |
| `Combat.Skill.constructor` | combat/skill.py:44-50 | name, cooldown, effect, chance and cast duration as given; never used |
| `Combat.Skill.Use` | combat/skill.py:57-60 | when the cooldown has elapsed and the roll is below the chance, the effect is `Applied` and the use is stamped now; otherwise nothing changes, so a failed roll does not consume the cooldown |
| `Combat.RollMissThenHit` | combat/skill.py:52-60 | a missed roll leaves the skill ready, and the next successful roll fires it and stamps that time |
| `Projectiles.RangeTestIsExact` | combat/projectile.py:34-35 | the square-root-free range test agrees with `sqrt(dx²+dy²) >= max_range` |
| `Projectiles.UnitDirection` | combat/projectile.py:16-23 | the distance is zero exactly when origin equals target; otherwise the normalised direction has length one |
| `Projectiles.Projectile.constructor` | combat/projectile.py:2-23 | records the start point, target, speed, damage, callback and range; alive; the direction is (0,0) when origin equals target and otherwise the unit vector toward the target |
| `Projectiles.Projectile.Update` | combat/projectile.py:25-36 | moves by exactly (dir_x·speed, dir_y·speed). The hit flag is the axis-wise arrival test. On a hit the callback's area strike is applied to its captured target; without a hit the target is untouched. Alive afterwards iff alive before, no hit and not beyond range: an update never revives a projectile |
| `Projectiles.LaunchedOnTarget` | combat/projectile.py:16-32 | a projectile launched at its own target point never moves, hits on its first update, is dead after it, and hits again if updated again |
| `Projectiles.ExpiresWithoutHit` | combat/projectile.py:34-36 | a projectile that has flown its range without reaching the target point dies without a hit |
| `Animations.Advance` | core/animation.py:18-24 | one advance keeps the index in range, moves to the next frame or, past the last, to frame 0 (looping) or the last frame with finished set (not looping) |
| `Animations.OneShotFinishes` | core/animation.py:17-24 | a non-looping animation from frame i after n advances is at frame i+n, or finished on the last frame once it runs out |
| `Animations.LoopCycles` | core/animation.py:19-21 | a looping animation is never finished, stays in range and wraps to frame 0 past the last frame |
| `Animations.LoopPeriodic` | core/animation.py:19-21 | a looping animation repeats every `len(frames)` advances |
| `Animations.Animation.constructor` | core/animation.py:6-12 | frame 0, not finished, interval started now |
| `Animations.Animation.Spent` | units/base.py:29-30 | the proxy's death animation has no frames and is already finished |
| `Animations.Animation.Update` | core/animation.py:14-25 | a finished animation, or one whose interval has not elapsed, is unchanged; otherwise the cursor makes one `Advance` and last time becomes now; the index stays in range |
| `Animations.Animation.GetFrame` | core/animation.py:27-28 | with frames and a valid index, the current frame; with no frames, the game's index error (None) |
| `Animations.DeathAnimationEnds` | core/animation.py:14-25 | a three-frame death animation is unfinished after two timed updates, finished after the third, and shows its last frame |
| `Resources.UpgradeCost` | core/resource.py:24 | the price 20 + 10·clicks is at least 20 |
| `Resources.Regenerated` | core/resource.py:17-21 | at or above the ceiling nothing changes; below it energy gains the rate clamped to the ceiling, never decreasing and never passing it; nothing else changes |
| `Resources.Upgraded` | core/resource.py:23-29 | succeeds exactly when clicks < 5 and energy covers 20 + 10·clicks: pays it, ceiling +10, rate +0.01, clicks +1; otherwise nothing changes; energy never goes negative and clicks never pass 5 |
| `Resources.UpgradesAreBounded` | core/resource.py:23-29 | after any number of upgrade attempts clicks stay within 0..5, energy stays non-negative, and the ceiling has risen by 10 per upgrade bought |
| `Resources.CeilingNeverPast150` | core/resource.py:25-27 | from the initial economy no click sequence lifts the ceiling past 150 |
| `Resources.ResourceManager.constructor` | core/resource.py:4-9 | energy 100, ceiling 100, rate 0.1, no upgrades |
| `Resources.ResourceManager.Spend` | core/resource.py:14-15 | energy drops by exactly the amount, unchecked |
| `Resources.ResourceManager.Regenerate` | core/resource.py:17-21 | the economy becomes `Regenerated` of the old one |
| `Resources.ResourceManager.UpgradeEnergy` | core/resource.py:23-30 | the economy becomes `Upgraded` of the old one, and a successful upgrade is stamped now |
| `Resources.SpendThenRegenerate` | core/resource.py:14-21 | from the initial state, spending 20 and regenerating once leaves 80.1 |
| `Resources.SixthUpgradeRefused` | core/resource.py:23-29 | with plenty of energy five upgrades succeed (ceiling 150) and a sixth is refused |
| `Tracking.Count` | core/tracker.py:49-51 | a name never counted reads 0; otherwise its entry's count |
| `Tracking.Bump` | core/tracker.py:33-37 | counting keeps the names distinct and in first-counted order, adding a new entry only at the end |
| `Tracking.BumpCounts` | core/tracker.py:33-37 | counting a name raises its count by exactly one and no other name's |
| `Tracking.MostCounted` | core/tracker.py:48 | ("None", 0) for an empty counter; otherwise an entry with the maximum count, the first such in counting order, as Python's `max` picks |
| `Tracking.Tracker.constructor` | core/tracker.py:7-16 | all counters 0 and empty, no rows buffered, snapshot period starting now |
| `Tracking.Tracker.LogHeroDefeated` | core/tracker.py:30-31 | the heroes-defeated counter rises by one |
| `Tracking.Tracker.LogHeroSpawnCount` | core/tracker.py:33-34 | the spawn counter counts the hero's name once more |
| `Tracking.Tracker.LogAbilityUsed` | core/tracker.py:36-37 | the ability counter counts the skill's name once more |
| `Tracking.Tracker.LogEnemyDefeated` | core/tracker.py:39-40 | the enemies-defeated counter rises by one |
| `Tracking.Tracker.LogEnergySpent` | core/tracker.py:42-43 | energy spent rises by exactly the amount |
| `Tracking.Tracker.CurrentRow` | core/tracker.py:48-63 | the row holds now, energy spent, both defeat counts, the most spawned hero and its count, and the "Buff", "AOE" and "Group Heal" counts (0 when unused) |
| `Tracking.Tracker.TrySnapshot` | core/tracker.py:45-68 | less than 5 s after the last snapshot nothing changes; otherwise exactly one row is appended, defeats, spawns and abilities are reset, the period restarts now, and energy spent is kept |
| `Tracking.Tracker.AppendNewRows` | core/tracker.py:70-77 | hands over exactly the buffered rows and leaves the buffer empty (nothing when it was empty) |
| `Tracking.SnapshotScenario` | core/tracker.py:45-68 | a tie for most spawned goes to the hero spawned first, unused abilities read 0, and the next period starts from zero |
| `Heroes.NewHero` | units/hero.py:10-158 | a new hero stands at x = 50 with its sprite's foot on the lane, full health, state "move", no buff, and its role's stats: Archer 60/2/10/0.5, range 500, "Buff" 5 s 0.4; Warrior 150/2/15/0.5, range 40, no skill; Mage 80/1/10/1, range 350, "AOE" 3 s 0.6; Healer 70/1.5/3/1, range 200, "Group Heal" 5 s 1.0 cast 1.5 |
| `Heroes.CandidatesAreInFront` | units/hero.py:106-110 | the candidates are exactly the enemies alive, within attack range on x and 40 on y, strictly ahead, and not a stronghold proxy |
| `Heroes.NearestIsFirstLeast` | units/hero.py:113 | the chosen candidate has the least x, and every candidate listed before it stands strictly further ahead (Python's `min` keeps the first) |
| `Heroes.Choice` | units/hero.py:106-119 | the target is an enemy of the list that is not a proxy, or the enemy stronghold's proxy |
| `Heroes.NearbyAreHelpable` | units/hero.py:132 | the allies an Archer buffs (or a Healer heals, also requiring health below max) are exactly the other living allies within 150 |
| `Heroes.NearbyKeepsDistinct` | units/hero.py:163 | no ally is buffed or healed twice |
| `Heroes.NearbyKeepsArmed` | units/hero.py:132 | every ally a buff reaches has an attack of its own to buff |
| `Heroes.ExpireBuff` | units/hero.py:96-100 | once now reaches the buff's end and a snapshot exists, the cooldown is restored and both buff fields are cleared; otherwise nothing changes |
| `Heroes.UpdateSkillTimer` | units/hero.py:27-32 | a cast that has run its duration and is not yet completed ends once: state "move", completed set; otherwise unchanged |
| `Heroes.TryAttack` | units/hero.py:63-66 | with the cooldown ready the hero is "attack" and the target is `Damaged`; otherwise nothing changes, the state included |
| `Heroes.Engage` | units/hero.py:106-119 | with a target (nearest in front, else the stronghold proxy within range) the hero stays put and attempts the attack, and every other enemy keeps its health, life and dying flag, as do the stronghold proxy and its stronghold when the target is not the proxy; with none it becomes "move", advances if alive, and nobody is hit |
| `Heroes.Prepare` | units/hero.py:96-102 | buff expiry then the cast timer, with both effects stated |
| `Heroes.Update` | units/hero.py:95-119 | buff expiry and the cast timer, then, while a cast is still running, no movement and no attack; otherwise the targeting outcome judged from the positions before the step, in which no enemy but the one attacked is touched |
| `Heroes.Bolt` | units/hero.py:81-89 | a mage bolt flies from the mage toward where the target stands, at speed 4 with range 300, and on arrival strikes that target alone around the mage |
| `Heroes.Bolts` | units/hero.py:77-90 | one bolt per target, in target order |
| `Heroes.StartCast` | units/hero.py:70-75 | the hero enters "skill", the cast timer starts now with the skill's cast duration, and the use is logged under the skill's name |
| `Heroes.Cast` | units/hero.py:70-75 | the cast starts and is logged whatever the second roll; the effect is `Applied` and the cooldown consumed only if the skill's own check passes |
| `Heroes.Attempt` | units/hero.py:68-75 | when the first check passes, the cast starts and is logged; the effect is `Applied` to the targets and the cooldown stamped only when the second, independent check passes too, and otherwise the targets are untouched. When the first check fails nothing changes |
| `Heroes.TrySkill` | units/hero.py:68-90 | the cast half as `Attempt` states it; on a cast of an area blast, one bolt per target in target order, and no bolt otherwise |
| `Heroes.Support` | units/hero.py:130-164 | an archer's or a healer's skill attempt is aimed at exactly the allies other than the caster that are alive and within 150 of it (and wounded, for the healer) when the attempt starts, with none twice; on a double pass the effect is `Applied` to them, otherwise no ally but the caster changes. In every case each ally that is neither the caster nor a target, and its attack, is left as it was (`Bystanders`) |
| `Heroes.BaseUpdate` | units/hero.py:95-119 | when the hero and enemy lists share no unit, the base update changes no ally other than the hero itself, nor any other ally's attack |
| `Heroes.ArcherUpdate` | units/hero.py:130-133 | after the base update, the buff is aimed at exactly the other allies that were alive and stand within 150 of the archer's new position, with none twice; on a double pass each is `Buffed` (cooldown lowered to the floor at most, snapshot kept, end time now + duration) with health and life untouched, otherwise no other ally changes; on any pass, each ally that is neither the archer nor a target, and its attack, is left as it was. The cast starts, is logged and stamps the cooldown as in `Attempt` |
| `Heroes.HealerUpdate` | units/hero.py:161-164 | after the base update, the heal is aimed at exactly the other allies that were alive, wounded and within 150 of the healer's new position, with none twice; on a double pass the heal is `Applied` to exactly them (each `Healed` by the skill's amount; life, buff record and attack untouched), otherwise no other ally and no other ally's attack changes; on any pass, each ally that is neither the healer nor a target, and its attack, is left as it was. The cast starts, is logged and stamps the cooldown as in `Attempt` |
| `Heroes.MageUpdate` | units/hero.py:148-150 | after the base update, a cast that passes the first check launches one bolt per enemy, in list order, from the mage's new position; the cast is logged and the cooldown stamped only when the second check passes; with no cast, no bolt and no log |
| `Enemies.NewEnemy` | units/enemy.py:7-15 | an enemy starts at x = 750 with 200 health, speed −1.5, a 20-damage attack with cooldown 0.5, state "move", not dying |
| `Enemies.FirstStrikableIsFirst` | units/enemy.py:22-28 | the enemy picks the first hero in list order that is alive, not dying and within 40 of the hero's centre; every earlier hero is not strikable, and "none" means no hero is |
| `Enemies.Update` | units/enemy.py:17-29 | the stronghold proxy, which stands in the enemy list and whose `update` (units/base.py lines 38-39) does nothing, changes nothing when ticked: not itself, no hero, no stronghold. A dying enemy changes nothing either. Otherwise the first strikable hero gets an attack attempt, the enemy stays put, and no other hero and no stronghold but the target's own is touched. With none, the enemy walks. On every path but a landed strike no stronghold changes |
| `Enemies.ProxyStandsStill` | units/base.py:38-39 | a proxy ticked with a living hero right at it neither moves nor strikes, and the hero keeps its health |
| `Enemies.SkipsTheDying` | units/enemy.py:22-28 | a dying hero in reach is passed over for the next one, which takes the blow |
| `Buttons.Button.constructor` | ui/button.py:5-12 | rect, label and callback as given; enabled |
| `Buttons.Button.HandleEvent` | ui/button.py:27-31 | a disabled button or one without callback never fires; otherwise exactly a mouse press inside the rectangle fires |
| `Buttons.DecimalRoundTrip` | ui/button.py:48 | the price written into the label reads back as the number it was written from |
| `Buttons.LabelPrecedence` | ui/button.py:39-48 | "Maxed" iff clicks ≥ 5; "Upgraded!" iff not maxed and within 1 s of an upgrade; "Not enough!" iff neither and within 1 s of a refusal |
| `Buttons.PriceLabelShowsCost` | ui/button.py:46-48 | otherwise the label is "Upgrade (…)" around the price 20 + 10·clicks |
| `Buttons.UpgradeButton.constructor` | ui/button.py:34-37 | a 120×55 button by default, empty label, no upgrade or refusal on record |
| `Buttons.UpgradeButton.UpdateLabel` | ui/button.py:39-48 | the label becomes `LabelFor` the clicks and the two timestamps |
| `Buttons.UpgradeButton.TryClick` | ui/button.py:64-71 | outside the button nothing changes; inside, the economy is `Upgraded` and the upgrade stamped exactly when `CanUpgrade` holds, otherwise the refusal is stamped and the economy untouched |
| `Buttons.HeroButton.constructor` | ui/button.py:74-82 | an 80×55 button 70 above the screen bottom, labelled with the role's name, ready from the start |
| `Buttons.HeroButton.CooldownRatio` | ui/button.py:112-113 | the bar's fill is the elapsed share of the cooldown clamped to [0, 1] |
| `Buttons.HeroButton.CoolingBarNotFull` | ui/button.py:111-113 | while the button cools down the bar is never full |
| `Buttons.HeroButton.TrySpawn` | ui/button.py:117-123 | when ready and affordable, exactly one new hero of the role is appended, in its recruit state (as `Heroes.NewHero` builds it), and its spawn counted (the hero is built and counted as the game's `create_hero`, heros go!.py lines 78-81, does), the cost is spent and added to energy spent, and the cooldown restarts now; otherwise nothing changes |
| `Buttons.SpawnThenCooldown` | ui/button.py:117-123 | a spawn from 100 energy leaves 80 and 20 spent; a press one second later is refused by the cooldown |
| `Prototype.FirstWithinIsFirst` | idk.py:125-126 | the scan finds the first position within reach and reports none only when none is |
| `Prototype.SurvivorsAreKept` | idk.py:256 | filtering keeps exactly the flagged units, in order, and lists none twice |
| `Prototype.Enemy.constructor` | idk.py:54-58 | an enemy at x = 750 at mid-height with 30 health and its last attack at time 0 |
| `Prototype.Enemy.Move` | idk.py:49-51 | a living enemy steps by −1.5; a dead one does not move |
| `Prototype.Enemy.AttackHero` | idk.py:60-65 | once a second has elapsed the hero loses 5, dying at or below 0, and the time is stamped; otherwise nothing changes |
| `Prototype.Hero.constructor` | idk.py:72-171 | a hero at x = 50, mid-height, with its class's health, speed, attack, range and cooldown (Archer 60/2/5/500/0.5, Warrior 150/2/15/40/1.5, Mage 80/1/10/350/2, Tank 300/2/0/–/1, Healer 70/1.5/–/–/1) |
| `Prototype.Hero.Move` | idk.py:49-51 | a living hero steps by its speed; a dead one does not move |
| `Prototype.Hero.Update` | idk.py:104-164 | with no enemy in reach (Tank: strictly within 40) the hero walks and nobody is hit. Otherwise it holds its ground: a Tank does nothing; the others, once ready, strike and restart the cooldown (a Warrior its target, an Archer every enemy within 500, a Mage every enemy within 100); if not ready, nobody is hit |
| `Prototype.Hero.Engage` | idk.py:107-153 | what a hero that has stopped does: a Tank nothing; the others, once ready, `Volleyed` their enemies and stamped now; otherwise nobody is hit |
| `Prototype.Hero.FirstAllyIsFirst` | idk.py:174-175 | the Healer's scan finds the first other living ally within 100, and none only when none is |
| `Prototype.Hero.Heal` | idk.py:173-179 | once ready with an ally in range, the first such ally gains 5 with no ceiling, the cooldown restarts and the Healer stays; otherwise the Healer walks and nobody is healed |
| `Prototype.Volley` | idk.py:108-112 | every enemy within the radius loses the damage and dies at or below 0; every other enemy is untouched |
| `Prototype.Advance` | idk.py:259-266 | an enemy blocked by a hero strictly within 40 attacks the first such hero in list order (landing only when ready) and does not move; with none it walks; no other hero is touched |
| `Prototype.Base.constructor` | idk.py:182-185 | a stronghold with 100 health at the given x |
| `Prototype.ResourceManager.constructor` | idk.py:193-194 | energy starts at 100 |
| `Prototype.ResourceManager.Spend` | idk.py:199-200 | energy drops by exactly the amount, unchecked |
| `Prototype.ResourceManager.Regenerate` | idk.py:202-203 | energy rises by 1 with no upper bound |
| `Prototype.HeroButton.constructor` | idk.py:206-212 | a 70×30 button 50 above the screen bottom, ready from the start |
| `Prototype.HeroButton.TrySpawn` | idk.py:223-227 | when ready and affordable exactly one new hero of the class joins the end of the list, at x = 50 on the lane, alive, with its class's stats and full health and never having attacked, the cost is spent and the cooldown restarts; otherwise nothing changes; no unit is ever listed twice |
| `Prototype.Outcome` | idk.py:282-287 | the match is lost iff the player's stronghold is at or below 0, won iff it stands and the enemy's has fallen, and ongoing iff both stand |
| `Prototype.Game.constructor` | idk.py:230-243 | strongholds at x = 10 and 740 with 100 health, no units, 100 energy, running, and the five spawn buttons with their positions, costs and cooldowns |
| `Prototype.Game.SpawnEnemy` | idk.py:245-247 | a roll above 98 appends one new enemy, 50 from the right edge on the lane, alive, with 30 health and never having attacked; any other roll changes nothing |
| `Prototype.Game.HeroesAct` | idk.py:250-254 | over the heroes' phase each hero moves at most one step and stamps its cooldown at most once, hero health only rises, and enemy health and life only fall |
| `Prototype.Game.Act` | idk.py:251-254 | one hero's turn (a Healer heals, any other hero updates) extends the phase's bounds to that hero |
| `Prototype.Game.EnemiesAct` | idk.py:258-266 | each enemy stays put when a hero blocked it at the start of the phase (restarting its cooldown if it was ready) and otherwise walks; each hero loses 5 for every ready enemy it is the first blocker of, dying when a blow leaves it at or below 0 |
| `Prototype.Game.Turns` | idk.py:258-266 | all the enemy turns, in list order, carry the phase from its start to its end |
| `Prototype.Game.Turn` | idk.py:259-266 | one enemy's turn adds its blow, if any, to the blows counted so far |
| `Prototype.Game.HeroesStorm` | idk.py:270-273 | the enemy stronghold loses 5 per listed hero at or past x = 740 (`HeroesAtGate`), exactly those heroes die, and no enemy and not the player's stronghold is touched |
| `Prototype.Game.Storm` | idk.py:271-273 | one hero at the enemy's gate extends the storm's count |
| `Prototype.Game.EnemiesBreach` | idk.py:275-278 | the player's stronghold loses 5 per listed enemy at or before x = 50 (`EnemiesAtGate`), exactly those enemies die, and no hero and not the enemy stronghold is touched |
| `Prototype.Game.Gates` | idk.py:270-278 | both gates, heroes first: each stronghold loses 5 per unit at its gate, and exactly the units at the gates die |
| `Prototype.HeroesAtGateCount` | idk.py:271-272 | the heroes counted at the enemy's gate are exactly the positions at or past x = 740 |
| `Prototype.EnemiesAtGateCount` | idk.py:276-277 | the enemies counted at the player's gate are exactly the positions at or before x = 50 |
| `Prototype.Game.Breach` | idk.py:276-278 | one enemy at the player's gate extends the breach's count |
| `Prototype.Game.CheckOutcome` | idk.py:282-287 | the verdict is `Outcome` of the strongholds' health, a loss checked before a win, and the match stops running unless it is ongoing |
| `Prototype.Game.Update` | idk.py:249-287 | one tick keeps the lists free of repeats and newcomers, drops only dead units, takes 5 off each stronghold per unit then at its gate, raises energy by 1, and ends the match exactly when `Outcome` is not ongoing |
| `Prototype.Game.Fight` | idk.py:250-268 | after both phases and both sweeps every listed unit is alive and was listed before, and every unit dropped is dead; every hero moved at most one step and attacked, if at all, now; no enemy gained health or came back to life |
| `Prototype.Game.HeroesTurn` | idk.py:250-256 | the heroes act and dead enemies are dropped; the heroes' list is unchanged, each hero moved at most one step, attacked at most now and lost no health, and no enemy gained health or came back to life |
| `Prototype.Game.EnemiesTurn` | idk.py:258-268 | the enemies act and dead heroes are dropped; each enemy stays put when blocked at the start of the phase (restarting its cooldown if ready) and walks otherwise, and each hero, listed or dropped, loses 5 per ready enemy it first blocks and dies when that leaves it at or below 0 |
| `Prototype.Game.Settle` | idk.py:270-287 | each stronghold loses 5 per unit at its gate and exactly the units at the gates die; energy rises by 1, and the verdict is decided |
| `Prototype.Game.Conclude` | idk.py:280-287 | energy rises by 1 and the verdict is `Outcome` of the strongholds' health, which are untouched |
| `Prototype.Game.Cull` | idk.py:256 | the enemy list becomes exactly its living members, in order |
| `Prototype.Game.Bury` | idk.py:268 | the hero list becomes exactly its living members, in order |

## Left out

- Rendering is not modelled. That covers every `draw` method, health bars, the casting pulse circle, the cooldown bar's drawing (only its clamped ratio is modelled), and fonts and colours.
- Sprite and image loading is not modelled: `AnimationManager`, `load_sprite_sheet` and `Base`'s image scaling. A sprite's height enters as an integer parameter.
- The per-state animations a hero or enemy advances during its update are not modelled. `Animations.Animation` models the state machine once; no unit in the model holds one.
- The sweep that removes a dying unit once its death animation is finished lives in the game loop, which is not part of this model. `Animations.Animation.Update` states when `finished` is set.
- The CSV file is not modelled: neither its creation and header nor the writing. `AppendNewRows` returns the rows that would be written.
- The main event loop, `clock.tick` and pygame event plumbing are not modelled. A mouse position is a pair of integers, and `Rect.collidepoint` is the half-open `Rect.Contains`.
- The square root in `Projectile.__init__` is passed in as a `dist` argument constrained by `dist² = dx² + dy²`. The range check compares squared lengths, and `RangeTestIsExact` shows the two tests agree.
- A mage's cast does not build `Projectile` objects; it returns `Launch` descriptors.
  - Building a projectile needs that square root.
  - Each descriptor carries exactly the arguments the game passes, with the callback as an `AreaStrike` value.
  - `Projectile.Update` applies that value when the projectile arrives.
- The hero button reads its screen height from the display surface; the model uses the screen height constant instead.
- The prototype's `Hero.update_animation` is not modelled: it only cycles sprite frames and is called only from `draw`.
- ArcherUpdate (`Heroes.ArcherUpdate`), HealerUpdate and MageUpdate leave the base update's effects on the hero and the enemies to `Heroes.Update`, which states them; restating both in one contract exceeds what the verifier can carry through the two calls.
- ArcherUpdate: whom the buff reaches and what it does are stated only when the hero list and the enemy list share no unit (`Apart`), as they never do in the game. Otherwise the base update could already have changed a target before the buff.
- HealerUpdate: whom the heal reaches and what it does are stated only under `Apart`, for the same reason.
- MageUpdate: the blast's effect on the enemies is not restated. The base update's own attack may hit one of them in the same call, so the effect holds against the state the base update leaves, which is what `TrySkill` states. A warrior has no update of its own; `Heroes.Update` is its whole update.
- Cast (`Heroes.Cast`) applies the effect before it starts the cast timer and logs the use, whereas the game sets the "skill" state first. These writes touch different fields, so the order changes nothing observable.
- HeroesAct (`Prototype.Game.HeroesAct`) states only bounds over the whole phase: at most one step and one strike per hero, hero health only rising, enemy health and life only falling. An exact statement of what an Archer's or Mage's volley does to enemies already hit by earlier heroes is not stated. Each hero's own rule is stated exactly by `Prototype.Hero.Update` and `Prototype.Hero.Heal`.
- Update (`Prototype.Game.Update`) does not restate, unit by unit, who died at the gates; `Prototype.Game.Settle` states that. Nor does it restate the exact blows of the enemies' phase, which depend on where the heroes stood after their own phase; `Prototype.Game.EnemiesTurn` states those.
- Fight (`Prototype.Game.Fight`) states bounds rather than the exact blows: those depend on positions in the middle of the tick, and `Prototype.Game.EnemiesTurn` states them against that state. It does not state that each enemy moved at most one step; `Prototype.Game.EnemiesTurn` states each enemy's step.
- The game's hero and enemy lists never hold a unit twice, and a hero's attack object is its own. The operations that walk those lists require this (`Common.Distinct`, and `Combat.Armed` for buffs). They are the skill effects (`Combat.Skill.Use` and the `Apply` methods), the skill attempts and role updates in `Heroes` (`Attempt`, `Support`, `ArcherUpdate`, `HealerUpdate`, `MageUpdate`), the prototype's volleys, and the prototype's tick, through `Prototype.Game.Valid`. The Python methods accept any list; with a unit listed twice they would act on it twice.
- The prototype's per-class `update` methods (Archer, Warrior, Mage, Tank) are one `Prototype.Hero.Update` dispatching on the class, with the Healer's rule as `Prototype.Hero.Heal`.
- The loop bodies of the tick are step methods (`Act`, `Turn`, `Storm`, `Breach`) whose contracts are the loop invariants.
- The prototype prints "Game Over! You lost!" or "Victory! You won!"; these become the returned `Verdict`.

## Where the code departs from what one might expect

The model follows the code in each of these cases.

- **Negative health.** Health is never clamped at 0, so it can go negative. The prototype's Healer heals with no ceiling. So `0 ≤ health ≤ max`, which one might expect of every unit, does not hold.
- **Compounding buffs.** Re-buffing an already buffed ally lowers its cooldown again, down to the 0.1 floor (`RepeatedBuffs`). Only the snapshot is idempotent, so one might expect a second buff to leave the cooldown alone; it does not.
- **Projectile on its target.** A projectile launched at its target point has a zero direction, so it arrives immediately. It fires its callback on the first update rather than expiring silently (`LaunchedOnTarget`).
- **Range check.** A projectile dies when the distance travelled reaches the range (`>=`), not only once it exceeds it.
- **Repeated arrival.** `Projectile.update` does not look at `alive`, so a second update at the target fires the callback again.
- **Area damage and dying.** Area damage sets `alive = False` but never `is_dying`. Only a direct attack on a plain entity sets `is_dying`.
- **Double skill roll.** `Hero.try_skill` checks `can_use_skill` and `use` checks it again with a fresh roll. A hero can therefore enter "skill" and log the ability while the effect does not run and the cooldown is not consumed (`TrySkill`).
- **Enemy target choice.** An enemy attacks the first hero in list order that it can reach, not the nearest.
- **Regeneration above the ceiling.** Energy already at or above the ceiling is left unchanged, never lowered to the ceiling.
- **Stronghold mirroring.** The proxy mirrors health in one direction only: the stronghold receives the proxy's health when the proxy takes damage.
