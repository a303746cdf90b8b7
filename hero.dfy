/** The player's heroes: the four role presets, buff expiry, the cast
    timer that ends the "skill" state, nearest-in-front targeting with the
    stronghold as fallback, and each role's skill attempt. */
module Heroes {
  import opened Common
  import opened Combat
  import opened Projectiles
  import Screen
  import Tracking

  /** How far, along the lane, archers buff and healers heal. */
  const AllyRange: real := 150.0

  /** How far off the lane, vertically, a hero still engages an enemy. */
  const LaneTolerance: real := 40.0

  /** AOE projectiles: their speed and their range. */
  const BoltSpeed: real := 4.0
  const BoltRange: real := 300.0

  function RoleName(role: Role): string
  {
    match role
    case Archer => "Archer"
    case Warrior => "Warrior"
    case Mage => "Mage"
    case Healer => "Healer"
  }

  /** The state a hero of `role` is recruited in: at the left edge of the
      lane with its sprite's foot on the lane line (`spriteHeight` is the
      height of its first "move" frame), alive and moving, at full health,
      unbuffed, ready to attack, and with its role's stats. */
  predicate Recruit(h: Character, role: Role, spriteHeight: int)
    reads h, h.Weapon(), if h.skill == null then {} else {h.skill}
  {
    && h.attack != null
    && h.kind == HeroUnit(role) && h.base == null
    && h.x == 50.0 && h.y == (Screen.Height / 2 + 50 - spriteHeight) as real
    && h.alive && !h.isDying && h.state == Moving && h.health == h.maxHealth
    && h.originalCooldown == None && h.buffEndTime == None
    && h.attack.lastTime == 0.0
    && (h.skill != null ==> h.skill.lastUsedTime == 0.0)
    && (role == Archer ==>
      && h.health == 60.0 && h.speed == 2.0 && h.attack.dmg == 10.0 && h.attack.cooldown == 0.5
      && h.attackRange == 500.0 && h.skill != null && h.skill.name == "Buff"
      && h.skill.skillCooldown == 5.0 && h.skill.effect == DefaultBuff
      && h.skill.skillChance == 0.4 && h.skill.castDuration == 0.3)
    && (role == Warrior ==>
      && h.health == 150.0 && h.speed == 2.0 && h.attack.dmg == 15.0 && h.attack.cooldown == 0.5
      && h.attackRange == 40.0 && h.skill == null)
    && (role == Mage ==>
      && h.health == 80.0 && h.speed == 1.0 && h.attack.dmg == 10.0 && h.attack.cooldown == 1.0
      && h.attackRange == 350.0 && h.skill != null && h.skill.name == "AOE"
      && h.skill.skillCooldown == 3.0 && h.skill.effect == DefaultAreaDamage
      && h.skill.skillChance == 0.6 && h.skill.castDuration == 0.3)
    && (role == Healer ==>
      && h.health == 70.0 && h.speed == 1.5 && h.attack.dmg == 3.0 && h.attack.cooldown == 1.0
      && h.attackRange == 200.0 && h.skill != null && h.skill.name == "Group Heal"
      && h.skill.skillCooldown == 5.0 && h.skill.effect == DefaultGroupHeal
      && h.skill.skillChance == 1.0 && h.skill.castDuration == 1.5)
  }

  /** A new hero of `role`, in its recruit state. */
  method NewHero(role: Role, spriteHeight: int) returns (h: Character)
    ensures fresh(h) && fresh(h.attack) && (h.skill != null ==> fresh(h.skill))
    ensures Recruit(h, role, spriteHeight)
  {
    var y := (Screen.Height / 2 + 50 - spriteHeight) as real;
    match role {
      case Archer =>
        var a := new Attack(10.0, 0.5);
        var s := new Skill("Buff", 5.0, DefaultBuff, 0.4, 0.3);
        h := new Character(HeroUnit(role), 50.0, y, 60.0, 2.0, a, s, 500.0);
      case Warrior =>
        var a := new Attack(15.0, 0.5);
        h := new Character(HeroUnit(role), 50.0, y, 150.0, 2.0, a, null, 40.0);
      case Mage =>
        var a := new Attack(10.0, 1.0);
        var s := new Skill("AOE", 3.0, DefaultAreaDamage, 0.6, 0.3);
        h := new Character(HeroUnit(role), 50.0, y, 80.0, 1.0, a, s, 350.0);
      case Healer =>
        var a := new Attack(3.0, 1.0);
        var s := new Skill("Group Heal", 5.0, DefaultGroupHeal, 1.0, 1.5);
        h := new Character(HeroUnit(role), 50.0, y, 70.0, 1.5, a, s, 200.0);
    }
  }

  // ---------------------------------------------------------------------
  // Targeting

  /** An enemy a hero may engage: alive, within attack range along the
      lane and 40 off it, strictly ahead, and not a stronghold proxy. */
  predicate InFront(h: Character, e: Character)
    reads h`x, e`alive, e`x
  {
    && e.alive
    && Abs(h.x - e.x) <= h.attackRange
    && Abs(h.y - e.y) <= LaneTolerance
    && e.x > h.x
    && e.base == null
  }

  /** The enemies a hero may engage, in list order. */
  function Candidates(h: Character, enemies: seq<Character>): seq<Character>
    reads h`x, enemies`alive, enemies`x
  {
    if enemies == [] then []
    else (if InFront(h, enemies[0]) then [enemies[0]] else []) + Candidates(h, enemies[1..])
  }

  /** The candidates are the enemies in front, and only those. */
  lemma {:induction false} CandidatesAreInFront(h: Character, enemies: seq<Character>)
    ensures forall c :: c in Candidates(h, enemies) ==> c in enemies && InFront(h, c)
    ensures forall i :: 0 <= i < |enemies| && InFront(h, enemies[i]) ==> enemies[i] in Candidates(h, enemies)
  {
    if enemies != [] {
      CandidatesAreInFront(h, enemies[1..]);
    }
  }

  /** The candidate furthest back (least x); among equals, the first. */
  function Nearest(cs: seq<Character>): (r: Character)
    requires cs != []
    reads cs`x
    ensures r in cs
  {
    if |cs| == 1 then cs[0]
    else
      var m := Nearest(cs[..|cs| - 1]);
      if cs[|cs| - 1].x < m.x then cs[|cs| - 1] else m
  }

  /** No candidate stands further back than the nearest one, and every
      candidate listed before it stands strictly further ahead. */
  lemma {:induction false} NearestIsFirstLeast(cs: seq<Character>)
    requires cs != []
    ensures forall c :: c in cs ==> Nearest(cs).x <= c.x
    ensures exists i :: 0 <= i < |cs| && cs[i] == Nearest(cs) && forall j :: 0 <= j < i ==> cs[j].x > Nearest(cs).x
  {
    if |cs| > 1 {
      var init := cs[..|cs| - 1];
      var last := cs[|cs| - 1];
      NearestIsFirstLeast(init);
      var m := Nearest(init);
      var i :| 0 <= i < |init| && init[i] == m && forall j :: 0 <= j < i ==> init[j].x > m.x;
      assert forall c :: c in cs ==> c in init || c == last;
      if last.x < m.x {
        assert Nearest(cs) == last;
        assert forall j :: 0 <= j < |cs| - 1 ==> cs[j].x > last.x by {
          forall j | 0 <= j < |cs| - 1
            ensures cs[j].x > last.x
          {
            assert cs[j] == init[j];
          }
        }
        var k := |cs| - 1;
        assert 0 <= k < |cs| && cs[k] == Nearest(cs) && forall j :: 0 <= j < k ==> cs[j].x > Nearest(cs).x;
      } else {
        assert Nearest(cs) == m;
        assert forall j :: 0 <= j < i ==> cs[j] == init[j];
        assert 0 <= i < |cs| && cs[i] == Nearest(cs) && forall j :: 0 <= j < i ==> cs[j].x > Nearest(cs).x;
      }
    } else {
      assert 0 < |cs| && cs[0] == Nearest(cs);
    }
  }

  /** What a hero's targeting settles on: the nearest enemy in front;
      failing that, the enemy stronghold if it is within attack range along
      the lane; failing that, nothing (the hero walks). */
  function Choice(h: Character, enemies: seq<Character>, enemyBase: Character?): (r: Character?)
    reads h`x, enemies`alive, enemies`x, AsSet(enemyBase)`x
    ensures r != null ==> (r in enemies && r.base == null) || r == enemyBase
  {
    var front := Candidates(h, enemies);
    if front != [] then
      CandidatesAreInFront(h, enemies);
      assert forall i :: 0 <= i < |front| ==> front[i] in enemies;
      Nearest(front)
    else if enemyBase != null && Abs(h.x - enemyBase.x) <= h.attackRange then enemyBase
    else null
  }

  /** Another living ally (when `woundedOnly`, a wounded one) within
      reach of an archer's buff or a healer's heal. */
  predicate Helpable(h: Character, a: Character, woundedOnly: bool)
    reads h, a
  {
    a != h && a.alive && (woundedOnly ==> a.health < a.maxHealth) && Abs(h.x - a.x) <= AllyRange
  }

  /** The other living allies within reach of an archer's buff or (when
      `woundedOnly`, the wounded ones) of a healer's heal, in list order. */
  function Nearby(h: Character, allies: seq<Character>, woundedOnly: bool): seq<Character>
    reads h, allies
  {
    if allies == [] then []
    else (if Helpable(h, allies[0], woundedOnly) then [allies[0]] else []) + Nearby(h, allies[1..], woundedOnly)
  }

  /** The allies helped are exactly those within reach. */
  lemma {:induction false} NearbyAreHelpable(h: Character, allies: seq<Character>, woundedOnly: bool)
    ensures forall a :: a in Nearby(h, allies, woundedOnly) ==> a in allies && Helpable(h, a, woundedOnly)
    ensures forall i :: 0 <= i < |allies| && Helpable(h, allies[i], woundedOnly) ==>
      allies[i] in Nearby(h, allies, woundedOnly)
  {
    if allies != [] {
      NearbyAreHelpable(h, allies[1..], woundedOnly);
      assert forall b :: b in Nearby(h, allies[1..], woundedOnly) ==> b in allies[1..];
    }
  }

  /** Each ally is helped at most once. */
  lemma {:induction false} NearbyKeepsDistinct(h: Character, allies: seq<Character>, woundedOnly: bool)
    requires Distinct(allies)
    ensures Distinct(Nearby(h, allies, woundedOnly))
  {
    if allies != [] {
      var rest := Nearby(h, allies[1..], woundedOnly);
      NearbyKeepsDistinct(h, allies[1..], woundedOnly);
      NearbyAreHelpable(h, allies[1..], woundedOnly);
      if Helpable(h, allies[0], woundedOnly) {
        var r := [allies[0]] + rest;
        forall j | 0 < j < |r|
          ensures r[j] != allies[0]
        {
          assert r[j] == rest[j - 1] && rest[j - 1] in allies[1..];
        }
      }
    }
  }

  /** When every ally has an attack of its own, so does every ally helped. */
  lemma {:induction false} NearbyKeepsArmed(h: Character, allies: seq<Character>, woundedOnly: bool)
    requires Armed(allies)
    ensures Armed(Nearby(h, allies, woundedOnly))
  {
    if allies != [] {
      var rest := Nearby(h, allies[1..], woundedOnly);
      NearbyKeepsArmed(h, allies[1..], woundedOnly);
      NearbyAreHelpable(h, allies[1..], woundedOnly);
      if Helpable(h, allies[0], woundedOnly) {
        var r := [allies[0]] + rest;
        forall j | 0 < j < |r|
          ensures r[j].attack != allies[0].attack
        {
          assert r[j] == rest[j - 1] && rest[j - 1] in allies[1..];
        }
      }
    }
  }

  // ---------------------------------------------------------------------
  // The hero's own update

  /** A buff has run out and its snapshot can be restored. */
  predicate BuffOver(h: Character, now: real)
    reads h
  {
    h.buffEndTime.Some? && now >= h.buffEndTime.value && h.originalCooldown.Some?
  }

  /** The buffed cooldown is restored once the buff has run out: from then
      on neither the snapshot nor the end time exists. A buff end time
      without a snapshot is left alone. */
  method ExpireBuff(h: Character, now: real)
    requires h.attack != null
    modifies h`originalCooldown, h`buffEndTime, h.attack`cooldown
    ensures old(BuffOver(h, now)) ==>
      h.attack.cooldown == old(h.originalCooldown).value && h.originalCooldown == None && h.buffEndTime == None
    ensures !old(BuffOver(h, now)) ==>
      h.attack.cooldown == old(h.attack.cooldown) && h.originalCooldown == old(h.originalCooldown)
      && h.buffEndTime == old(h.buffEndTime)
  {
    if h.buffEndTime.Some? && now >= h.buffEndTime.value {
      if h.originalCooldown.Some? {
        h.attack.cooldown := h.originalCooldown.value;
        h.buffEndTime := None;
        h.originalCooldown := None;
      }
    }
  }

  /** Whether a cast in progress has run its duration and not yet been
      completed. */
  predicate CastDue(h: Character, now: real)
    reads h
  {
    h.state == Channeling && now - h.skillAnimStartTime >= h.skillAnimDuration && !h.skillCompleted
  }

  /** Ends a cast that has run its full duration, once: the hero returns
      to moving and the cast is marked completed. */
  method UpdateSkillTimer(h: Character, now: real)
    modifies h`state, h`skillCompleted
    ensures old(CastDue(h, now)) ==> h.state == Moving && h.skillCompleted
    ensures !old(CastDue(h, now)) ==> h.state == old(h.state) && h.skillCompleted == old(h.skillCompleted)
  {
    if h.state == Channeling {
      if now - h.skillAnimStartTime >= h.skillAnimDuration && !h.skillCompleted {
        h.skillCompleted := true;
        h.state := Moving;
      }
    }
  }

  /** What one attack attempt on `t` did: with the cooldown ready the hero
      is attacking, the attack is stamped and `t` took the damage; with it
      not ready nothing changed and the hero is still in state `before`. */
  twostate predicate Engaged(h: Character, now: real, t: Character, before: State)
    reads h, h.Weapon(), t, t.Mirror()
  {
    && h.attack != null
    && if Ready(now, old(h.attack.lastTime), h.attack.cooldown) then
         && h.state == Attacking && h.attack.lastTime == now && t.Damaged(h.attack.dmg)
       else
         && h.state == before && h.attack.lastTime == old(h.attack.lastTime)
         && unchanged(t`health) && unchanged(t`alive) && unchanged(t`isDying) && unchanged(t.Mirror()`health)
  }

  method TryAttack(h: Character, now: real, t: Character)
    requires h.attack != null && h != t
    modifies h`state, h.attack`lastTime, t`health, t`alive, t`isDying, t.Mirror()`health
    ensures Engaged(h, now, t, old(h.state))
  {
    assert h.attack in h.Weapon();
    if h.attack.CanAttack(now) {
      h.state := Attacking;
      h.attack.AttackTarget(now, t);
    }
  }

  /** Nothing the targeting step could have hit took any damage. */
  twostate predicate Untouched(enemies: seq<Character>, enemyBase: Character?)
    reads enemies, AsSet(enemyBase), MirrorOf(enemyBase)
  {
    && unchanged(enemies`health) && unchanged(enemies`alive) && unchanged(enemies`isDying)
    && unchanged(AsSet(enemyBase)`health) && unchanged(AsSet(enemyBase)`alive)
    && unchanged(AsSet(enemyBase)`isDying) && unchanged(MirrorOf(enemyBase)`health)
  }

  /** Every enemy other than the target `t` keeps its vitals, and when the
      target is not the enemy stronghold's proxy, neither the proxy nor the
      stronghold it mirrors is touched. */
  twostate predicate Spared(enemies: seq<Character>, enemyBase: Character?, t: Character)
    reads enemies, AsSet(enemyBase), MirrorOf(enemyBase)
  {
    && (forall e :: e in enemies && e != t ==>
          e.health == old(e.health) && e.alive == old(e.alive) && e.isDying == old(e.isDying))
    && (t != enemyBase ==>
          && unchanged(AsSet(enemyBase)`health) && unchanged(AsSet(enemyBase)`alive)
          && unchanged(AsSet(enemyBase)`isDying) && unchanged(MirrorOf(enemyBase)`health))
  }

  /** The outcome of the targeting step, judged by the positions before
      it: an attack attempt on the choice, which keeps the hero in place
      and spares everyone else, or, with nothing to attack, a step forward
      that hits nobody. */
  twostate predicate Targeted(h: Character, now: real, enemies: seq<Character>, enemyBase: Character?,
                              before: State)
    reads h, h.Weapon(), enemies, AsSet(enemyBase), MirrorOf(enemyBase)
  {
    && h.attack != null
    && var t := old(Choice(h, enemies, enemyBase));
       if t != null then
         assert t.Mirror() <= MirrorOf(enemyBase);
         h.x == old(h.x) && Engaged(h, now, t, before) && Spared(enemies, enemyBase, t)
       else
         && h.state == Moving && h.x == (if h.alive then old(h.x) + h.speed else old(h.x))
         && h.attack.lastTime == old(h.attack.lastTime) && Untouched(enemies, enemyBase)
  }

  method Engage(h: Character, now: real, enemies: seq<Character>, enemyBase: Character?)
    requires h.attack != null && h !in enemies && h != enemyBase
    modifies h`x, h`state, h.attack`lastTime, enemies`health, enemies`alive, enemies`isDying,
      AsSet(enemyBase)`health, AsSet(enemyBase)`alive,
      AsSet(enemyBase)`isDying, MirrorOf(enemyBase)`health
    ensures Targeted(h, now, enemies, enemyBase, old(h.state))
  {
    var t := Choice(h, enemies, enemyBase);
    if t != null {
      assert t.Mirror() <= MirrorOf(enemyBase);
      TryAttack(h, now, t);
    } else {
      h.state := Moving;
      h.Move();
    }
  }

  /** The part of an update before targeting: buff expiry, then the cast
      timer. */
  method Prepare(h: Character, now: real)
    requires h.attack != null
    modifies h`state, h`skillCompleted, h`originalCooldown, h`buffEndTime, h.attack`cooldown
    ensures old(BuffOver(h, now)) ==>
      h.attack.cooldown == old(h.originalCooldown).value && h.originalCooldown == None && h.buffEndTime == None
    ensures !old(BuffOver(h, now)) ==>
      h.attack.cooldown == old(h.attack.cooldown) && h.originalCooldown == old(h.originalCooldown)
      && h.buffEndTime == old(h.buffEndTime)
    ensures h.skillCompleted == (old(h.skillCompleted) || old(CastDue(h, now)))
    ensures h.state == if old(CastDue(h, now)) then Moving else old(h.state)
  {
    ExpireBuff(h, now);
    UpdateSkillTimer(h, now);
  }

  /** The whole update of a hero: buff expiry, the cast timer, and, unless
      a cast is still running, targeting. While a cast runs the hero stays
      put and hits nobody. */
  method Update(h: Character, now: real, enemies: seq<Character>, enemyBase: Character?)
    requires h.attack != null && h !in enemies && h != enemyBase
    modifies h`x, h`state, h`skillCompleted, h`originalCooldown, h`buffEndTime,
      h.attack`cooldown, h.attack`lastTime, enemies`health, enemies`alive, enemies`isDying,
      AsSet(enemyBase)`health, AsSet(enemyBase)`alive, AsSet(enemyBase)`isDying, MirrorOf(enemyBase)`health
    ensures old(BuffOver(h, now)) ==>
      h.attack.cooldown == old(h.originalCooldown).value && h.originalCooldown == None && h.buffEndTime == None
    ensures !old(BuffOver(h, now)) ==>
      h.attack.cooldown == old(h.attack.cooldown) && h.originalCooldown == old(h.originalCooldown)
      && h.buffEndTime == old(h.buffEndTime)
    ensures h.skillCompleted == (old(h.skillCompleted) || old(CastDue(h, now)))
    ensures old(h.state) == Channeling && !old(CastDue(h, now)) ==>
      && h.state == Channeling && h.x == old(h.x) && h.attack.lastTime == old(h.attack.lastTime)
      && Untouched(enemies, enemyBase)
    ensures old(h.state) != Channeling || old(CastDue(h, now)) ==>
      Targeted(h, now, enemies, enemyBase, if old(CastDue(h, now)) then Moving else old(h.state))
  {
    Prepare(h, now);
    if h.state == Channeling {
      return;
    }
    assert h.x == old(h.x) && h.attack.lastTime == old(h.attack.lastTime);
    assert unchanged(enemies) && unchanged(AsSet(enemyBase)) && unchanged(MirrorOf(enemyBase));
    assert Choice(h, enemies, enemyBase) == old(Choice(h, enemies, enemyBase));
    Engage(h, now, enemies, enemyBase);
  }

  // ---------------------------------------------------------------------
  // Skills

  /** A hero's skill, as a frame (empty for a warrior). */
  function Talent(h: Character): set<Skill>
  {
    if h.skill == null then {} else {h.skill}
  }

  /** The first of the two skill checks a cast makes passes. */
  predicate Casts(h: Character, now: real, roll: real)
    reads Talent(h)
  {
    h.skill != null && h.skill.CanUseSkill(now, roll)
  }

  /** A projectile to be launched: where from, where to, and what it does
      on arrival. */
  datatype Launch = Launch(x: real, y: real, targetX: real, targetY: real, speed: real,
                           damage: real, onHit: Callback, maxRange: real)

  /** The bolt a mage's cast sends at `t`: from the mage toward where `t`
      stands, exploding on arrival against `t` alone, around the mage. */
  function Bolt(h: Character, t: Character, radius: real, damage: real): (r: Launch)
    reads h`x, t`x
    ensures r.x == h.x && r.y == h.y && r.targetX == t.x && r.targetY == t.y
    ensures r.speed == BoltSpeed && r.maxRange == BoltRange && r.damage == damage
    ensures r.onHit == AreaStrike(h, t, radius, damage)
  {
    Launch(h.x, h.y, t.x, t.y, BoltSpeed, damage, AreaStrike(h, t, radius, damage), BoltRange)
  }

  /** One bolt per target, in target order. */
  method Bolts(h: Character, targets: seq<Character>, radius: real, damage: real)
    returns (launches: seq<Launch>)
    ensures |launches| == |targets|
    ensures forall i :: 0 <= i < |targets| ==> launches[i] == Bolt(h, targets[i], radius, damage)
  {
    launches := [];
    for i := 0 to |targets|
      invariant |launches| == i
      invariant forall j :: 0 <= j < i ==> launches[j] == Bolt(h, targets[j], radius, damage)
    {
      launches := launches + [Bolt(h, targets[i], radius, damage)];
    }
  }

  /** The hero enters the "skill" state, the cast timer starts and the
      use is logged under the skill's name. */
  method StartCast(h: Character, now: real, tracker: Tracking.Tracker)
    requires h.skill != null && tracker.Valid()
    modifies h`state, h`skillAnimStartTime, h`skillAnimDuration, h`skillCompleted,
      tracker`abilityUsageCounter
    ensures tracker.Valid()
    ensures h.state == Channeling && h.skillAnimStartTime == now && !h.skillCompleted
    ensures h.skillAnimDuration == h.skill.castDuration
    ensures tracker.abilityUsageCounter == Tracking.Bump(old(tracker.abilityUsageCounter), h.skill.name)
  {
    h.state := Channeling;
    tracker.LogAbilityUsed(h.skill.name);
    h.skillAnimStartTime := now;
    h.skillAnimDuration := h.skill.castDuration;
    h.skillCompleted := false;
  }

  /** A cast whose first check has passed: the cast starts and is logged,
      and the skill's own check, rolling `roll2`, decides the effect. */
  method Cast(h: Character, now: real, roll2: real, targets: seq<Character>, tracker: Tracking.Tracker)
    requires h.skill != null && h !in targets && Distinct(targets) && tracker.Valid()
    requires h.skill.effect.BuffAttackSpeed? ==> Armed(targets)
    modifies h`state, h`skillAnimStartTime, h`skillAnimDuration, h`skillCompleted,
      h.skill`lastUsedTime, targets`health, targets`alive, targets`originalCooldown,
      targets`buffEndTime, Attacks(targets)`cooldown, tracker`abilityUsageCounter
    ensures tracker.Valid()
    ensures h.state == Channeling && h.skillAnimStartTime == now && !h.skillCompleted
    ensures h.skillAnimDuration == h.skill.castDuration
    ensures tracker.abilityUsageCounter == Tracking.Bump(old(tracker.abilityUsageCounter), h.skill.name)
    ensures h.skill.lastUsedTime == if old(h.skill.CanUseSkill(now, roll2)) then now else old(h.skill.lastUsedTime)
    ensures old(h.skill.CanUseSkill(now, roll2)) ==> Applied(h.skill.effect, h.x, now, targets)
    ensures !old(h.skill.CanUseSkill(now, roll2)) ==> unchanged(targets) && unchanged(Attacks(targets))
  {
    var skill := h.skill;
    ghost var fired := skill.CanUseSkill(now, roll2);
    skill.Use(now, roll2, h.x, targets);
    assert fired ==> Applied(skill.effect, h.x, now, targets);
    label Used:
    StartCast(h, now, tracker);
    assert unchanged@Used(targets);
    assert unchanged@Used(Attacks(targets));
    assert fired ==> Applied(skill.effect, h.x, now, targets);
  }

  /** The cast half of a skill attempt on `targets`: a cast when the
      first check, rolling `roll1`, passes; nothing at all otherwise. */
  method Attempt(h: Character, now: real, roll1: real, roll2: real, targets: seq<Character>,
                 tracker: Tracking.Tracker)
    requires h !in targets && Distinct(targets) && tracker.Valid()
    requires h.skill != null && h.skill.effect.BuffAttackSpeed? ==> Armed(targets)
    modifies h`state, h`skillAnimStartTime, h`skillAnimDuration, h`skillCompleted,
      Talent(h)`lastUsedTime, targets`health, targets`alive, targets`originalCooldown,
      targets`buffEndTime, Attacks(targets)`cooldown, tracker`abilityUsageCounter
    ensures tracker.Valid()
    ensures old(Casts(h, now, roll1)) ==>
      && h.state == Channeling && h.skillAnimStartTime == now && !h.skillCompleted
      && h.skillAnimDuration == h.skill.castDuration
      && tracker.abilityUsageCounter == Tracking.Bump(old(tracker.abilityUsageCounter), h.skill.name)
    ensures old(Casts(h, now, roll1)) && old(Casts(h, now, roll2)) ==>
      h.skill.lastUsedTime == now && Applied(h.skill.effect, h.x, now, targets)
    ensures old(Casts(h, now, roll1)) && !old(Casts(h, now, roll2)) ==>
      && h.skill.lastUsedTime == old(h.skill.lastUsedTime)
      && unchanged(targets) && unchanged(Attacks(targets))
    ensures !old(Casts(h, now, roll1)) ==>
      && unchanged(h) && unchanged(Talent(h)) && unchanged(targets) && unchanged(Attacks(targets))
      && tracker.abilityUsageCounter == old(tracker.abilityUsageCounter)
  {
    if h.skill != null && h.skill.CanUseSkill(now, roll1) {
      Cast(h, now, roll2, targets, tracker);
    }
  }

  /** A skill attempt on `targets`: the cast half, and on a cast of an
      area blast one bolt per target. */
  method TrySkill(h: Character, now: real, roll1: real, roll2: real, targets: seq<Character>,
                  tracker: Tracking.Tracker)
    returns (launches: seq<Launch>)
    requires h !in targets && Distinct(targets) && tracker.Valid()
    requires h.skill != null && h.skill.effect.BuffAttackSpeed? ==> Armed(targets)
    modifies h`state, h`skillAnimStartTime, h`skillAnimDuration, h`skillCompleted,
      Talent(h)`lastUsedTime, targets`health, targets`alive, targets`originalCooldown,
      targets`buffEndTime, Attacks(targets)`cooldown, tracker`abilityUsageCounter
    ensures tracker.Valid()
    ensures old(Casts(h, now, roll1)) ==>
      && h.state == Channeling && h.skillAnimStartTime == now && !h.skillCompleted
      && h.skillAnimDuration == h.skill.castDuration
      && tracker.abilityUsageCounter == Tracking.Bump(old(tracker.abilityUsageCounter), h.skill.name)
    ensures old(Casts(h, now, roll1)) && old(Casts(h, now, roll2)) ==>
      h.skill.lastUsedTime == now && Applied(h.skill.effect, h.x, now, targets)
    ensures old(Casts(h, now, roll1)) && !old(Casts(h, now, roll2)) ==>
      && h.skill.lastUsedTime == old(h.skill.lastUsedTime)
      && unchanged(targets) && unchanged(Attacks(targets))
    ensures old(Casts(h, now, roll1)) && h.skill.effect.AreaDamage? ==>
      && |launches| == |targets|
      && forall i :: 0 <= i < |targets| ==>
           launches[i] == Bolt(h, targets[i], h.skill.effect.radius, h.skill.effect.damage)
    ensures !(old(Casts(h, now, roll1)) && h.skill.effect.AreaDamage?) ==> launches == []
    ensures !old(Casts(h, now, roll1)) ==>
      && unchanged(h) && unchanged(Talent(h)) && unchanged(targets) && unchanged(Attacks(targets))
      && tracker.abilityUsageCounter == old(tracker.abilityUsageCounter)
  {
    var casts := h.skill != null && h.skill.CanUseSkill(now, roll1);
    Attempt(h, now, roll1, roll2, targets, tracker);
    launches := [];
    if casts && h.skill.effect.AreaDamage? {
      launches := Bolts(h, targets, h.skill.effect.radius, h.skill.effect.damage);
    }
  }

  // ---------------------------------------------------------------------
  // The four roles

  /** A hero carries its role's skill: archers a buff, mages an area
      blast, healers a group heal, warriors none. */
  predicate Kit(h: Character)
  {
    match h.kind
    case HeroUnit(Archer) => h.skill != null && h.skill.effect.BuffAttackSpeed?
    case HeroUnit(Mage) => h.skill != null && h.skill.effect.AreaDamage?
    case HeroUnit(Healer) => h.skill != null && h.skill.effect.GroupHeal?
    case _ => h.skill == null
  }

  /** The game's hero and enemy lists never share a unit: no ally is an
      enemy or the enemy stronghold, and no other ally shares the hero's
      attack. */
  predicate Apart(h: Character, allies: seq<Character>, enemies: seq<Character>, enemyBase: Character?)
  {
    forall a :: a in allies ==> a !in enemies && a != enemyBase && (a != h ==> a.attack != h.attack)
  }

  /** The allies other than the hero itself. */
  function Others(h: Character, allies: seq<Character>): set<Character>
  {
    set a | a in allies && a != h
  }

  /** The allies a skill attempt on `targets` leaves alone: every ally
      other than the hero that is not a target. */
  function Bystanders(h: Character, allies: seq<Character>, targets: seq<Character>): set<Character>
  {
    set a | a in allies && a != h && a !in targets
  }

  /** The base update as a role's update calls it, with the allies in
      view: it reaches no ally other than the hero itself. */
  method BaseUpdate(h: Character, now: real, enemies: seq<Character>, allies: seq<Character>,
                    enemyBase: Character?)
    requires h.attack != null && h !in enemies && h != enemyBase
    modifies h`x, h`state, h`skillCompleted, h`originalCooldown, h`buffEndTime,
      h.attack`cooldown, h.attack`lastTime, enemies`health, enemies`alive, enemies`isDying,
      AsSet(enemyBase)`health, AsSet(enemyBase)`alive, AsSet(enemyBase)`isDying, MirrorOf(enemyBase)`health
    ensures Apart(h, allies, enemies, enemyBase) ==>
      unchanged(Others(h, allies)) && unchanged(Attacks(allies) - h.Weapon())
  {
    Update(h, now, enemies, enemyBase);
  }

  /** The skill half of an archer's or a healer's update: a skill
      attempt on the other living allies within reach (the wounded ones,
      when `woundedOnly`), returned as `targets`. */
  method Support(h: Character, now: real, roll1: real, roll2: real, allies: seq<Character>,
                 woundedOnly: bool, tracker: Tracking.Tracker)
    returns (ghost targets: seq<Character>)
    requires h.skill != null && Distinct(allies) && tracker.Valid()
    requires h.skill.effect.BuffAttackSpeed? ==> Armed(allies)
    modifies h`state, h`skillAnimStartTime, h`skillAnimDuration, h`skillCompleted, Talent(h)`lastUsedTime,
      allies`health, allies`alive, allies`originalCooldown, allies`buffEndTime, Attacks(allies)`cooldown,
      tracker`abilityUsageCounter
    ensures tracker.Valid()
    ensures old(Casts(h, now, roll1)) ==>
      && h.state == Channeling && h.skillAnimStartTime == now
      && tracker.abilityUsageCounter == Tracking.Bump(old(tracker.abilityUsageCounter), h.skill.name)
      && h.skill.lastUsedTime == if old(Casts(h, now, roll2)) then now else old(h.skill.lastUsedTime)
    ensures !old(Casts(h, now, roll1)) ==>
      && h.skill.lastUsedTime == old(h.skill.lastUsedTime)
      && tracker.abilityUsageCounter == old(tracker.abilityUsageCounter)
    ensures Distinct(targets) && forall i :: 0 <= i < |targets| ==> targets[i] in allies
    ensures forall a :: a in targets <==> a in allies && old(Helpable(h, a, woundedOnly))
    ensures old(Casts(h, now, roll1)) && old(Casts(h, now, roll2)) ==> Applied(h.skill.effect, h.x, now, targets)
    ensures !(old(Casts(h, now, roll1)) && old(Casts(h, now, roll2))) ==>
      unchanged(Others(h, allies)) && unchanged(Attacks(allies) - h.Weapon())
    ensures unchanged(Bystanders(h, allies, targets))
    ensures unchanged(Attacks(allies) - Attacks(targets) - h.Weapon())
  {
    var nearby := Nearby(h, allies, woundedOnly);
    NearbyAreHelpable(h, allies, woundedOnly);
    NearbyKeepsDistinct(h, allies, woundedOnly);
    if h.skill.effect.BuffAttackSpeed? {
      NearbyKeepsArmed(h, allies, woundedOnly);
    }
    assert forall i :: 0 <= i < |nearby| ==> nearby[i] in allies;
    assert Attacks(nearby) <= Attacks(allies);
    targets := nearby;
    Attempt(h, now, roll1, roll2, nearby, tracker);
  }

  /** An archer's per-frame update: the base update, then a buff attempt
      on the other living allies within reach of where the archer now
      stands. The buff is attempted even while a cast is running. The
      allies buffed are returned as `targets`. */
  method ArcherUpdate(h: Character, now: real, roll1: real, roll2: real, enemies: seq<Character>,
                      allies: seq<Character>, enemyBase: Character?, tracker: Tracking.Tracker)
    returns (ghost targets: seq<Character>)
    requires h.kind == HeroUnit(Archer) && Kit(h)
    requires h.attack != null && h !in enemies && h != enemyBase && tracker.Valid()
    requires Distinct(allies) && Armed(allies)
    modifies h`x, h`state, h`skillCompleted, h`originalCooldown, h`buffEndTime, h`skillAnimStartTime,
      h`skillAnimDuration, h.attack`cooldown, h.attack`lastTime, Talent(h)`lastUsedTime,
      enemies`health, enemies`alive, enemies`isDying, AsSet(enemyBase)`health, AsSet(enemyBase)`alive,
      AsSet(enemyBase)`isDying, MirrorOf(enemyBase)`health,
      allies`health, allies`alive, allies`originalCooldown, allies`buffEndTime, Attacks(allies)`cooldown,
      tracker`abilityUsageCounter
    ensures tracker.Valid()
    ensures old(Casts(h, now, roll1)) ==>
      && h.state == Channeling && h.skillAnimStartTime == now
      && tracker.abilityUsageCounter == Tracking.Bump(old(tracker.abilityUsageCounter), h.skill.name)
      && h.skill.lastUsedTime == if old(Casts(h, now, roll2)) then now else old(h.skill.lastUsedTime)
    ensures !old(Casts(h, now, roll1)) ==>
      && h.skill.lastUsedTime == old(h.skill.lastUsedTime)
      && tracker.abilityUsageCounter == old(tracker.abilityUsageCounter)
    ensures Distinct(targets) && forall i :: 0 <= i < |targets| ==> targets[i] in allies
    ensures Apart(h, allies, enemies, enemyBase) ==>
      forall a :: a in targets <==> a in allies && a != h && old(a.alive) && Abs(h.x - a.x) <= AllyRange
    ensures (Apart(h, allies, enemies, enemyBase) && old(Casts(h, now, roll1)) && old(Casts(h, now, roll2))) ==>
      && Buffed(h.skill.effect.amount, h.skill.effect.duration, now, targets)
      && unchanged(targets`health) && unchanged(targets`alive)
    ensures (Apart(h, allies, enemies, enemyBase) && !(old(Casts(h, now, roll1)) && old(Casts(h, now, roll2)))) ==>
      unchanged(Others(h, allies)) && unchanged(Attacks(allies) - h.Weapon())
    ensures Apart(h, allies, enemies, enemyBase) ==>
      unchanged(Bystanders(h, allies, targets)) && unchanged(Attacks(allies) - Attacks(targets) - h.Weapon())
  {
    ghost var casts := Casts(h, now, roll1);
    BaseUpdate(h, now, enemies, allies, enemyBase);
    assert Casts(h, now, roll1) == casts;
    assert tracker.abilityUsageCounter == old(tracker.abilityUsageCounter) && tracker.Valid();
    targets := Support(h, now, roll1, roll2, allies, false, tracker);
  }

  /** A healer's per-frame update: the base update, then a heal attempt
      on the other living, wounded allies within reach of where the healer
      now stands. The heal is attempted even while a cast is running. The
      allies healed are returned as `targets`. */
  method HealerUpdate(h: Character, now: real, roll1: real, roll2: real, enemies: seq<Character>,
                      allies: seq<Character>, enemyBase: Character?, tracker: Tracking.Tracker)
    returns (ghost targets: seq<Character>)
    requires h.kind == HeroUnit(Healer) && Kit(h)
    requires h.attack != null && h !in enemies && h != enemyBase && tracker.Valid()
    requires Distinct(allies)
    modifies h`x, h`state, h`skillCompleted, h`originalCooldown, h`buffEndTime, h`skillAnimStartTime,
      h`skillAnimDuration, h.attack`cooldown, h.attack`lastTime, Talent(h)`lastUsedTime,
      enemies`health, enemies`alive, enemies`isDying, AsSet(enemyBase)`health, AsSet(enemyBase)`alive,
      AsSet(enemyBase)`isDying, MirrorOf(enemyBase)`health,
      allies`health, allies`alive, allies`originalCooldown, allies`buffEndTime, Attacks(allies)`cooldown,
      tracker`abilityUsageCounter
    ensures tracker.Valid()
    ensures old(Casts(h, now, roll1)) ==>
      && h.state == Channeling && h.skillAnimStartTime == now
      && tracker.abilityUsageCounter == Tracking.Bump(old(tracker.abilityUsageCounter), h.skill.name)
      && h.skill.lastUsedTime == if old(Casts(h, now, roll2)) then now else old(h.skill.lastUsedTime)
    ensures !old(Casts(h, now, roll1)) ==>
      && h.skill.lastUsedTime == old(h.skill.lastUsedTime)
      && tracker.abilityUsageCounter == old(tracker.abilityUsageCounter)
    ensures Distinct(targets) && forall i :: 0 <= i < |targets| ==> targets[i] in allies
    ensures Apart(h, allies, enemies, enemyBase) ==>
      forall a :: a in targets <==>
        && a in allies && a != h && old(a.alive) && old(a.health) < a.maxHealth
        && Abs(h.x - a.x) <= AllyRange
    ensures (Apart(h, allies, enemies, enemyBase) && old(Casts(h, now, roll1)) && old(Casts(h, now, roll2))) ==>
      Applied(h.skill.effect, h.x, now, targets)
    ensures (Apart(h, allies, enemies, enemyBase) && !(old(Casts(h, now, roll1)) && old(Casts(h, now, roll2)))) ==>
      unchanged(Others(h, allies)) && unchanged(Attacks(allies) - h.Weapon())
    ensures Apart(h, allies, enemies, enemyBase) ==>
      unchanged(Bystanders(h, allies, targets)) && unchanged(Attacks(allies) - Attacks(targets) - h.Weapon())
  {
    ghost var casts := Casts(h, now, roll1);
    BaseUpdate(h, now, enemies, allies, enemyBase);
    assert Casts(h, now, roll1) == casts;
    assert tracker.abilityUsageCounter == old(tracker.abilityUsageCounter) && tracker.Valid();
    targets := Support(h, now, roll1, roll2, allies, true, tracker);
  }

  /** A mage's per-frame update: the base update, then a blast attempt
      at every enemy, launching one bolt per enemy from where the mage now
      stands. The blast is attempted even while a cast is running. */
  method MageUpdate(h: Character, now: real, roll1: real, roll2: real, enemies: seq<Character>,
                    enemyBase: Character?, tracker: Tracking.Tracker)
    returns (launches: seq<Launch>)
    requires h.kind == HeroUnit(Mage) && Kit(h)
    requires h.attack != null && h !in enemies && h != enemyBase && tracker.Valid()
    requires Distinct(enemies)
    modifies h`x, h`state, h`skillCompleted, h`originalCooldown, h`buffEndTime, h`skillAnimStartTime,
      h`skillAnimDuration, h.attack`cooldown, h.attack`lastTime, Talent(h)`lastUsedTime,
      enemies`health, enemies`alive, enemies`isDying, AsSet(enemyBase)`health, AsSet(enemyBase)`alive,
      AsSet(enemyBase)`isDying, MirrorOf(enemyBase)`health,
      enemies`originalCooldown, enemies`buffEndTime, Attacks(enemies)`cooldown,
      tracker`abilityUsageCounter
    ensures tracker.Valid()
    ensures old(Casts(h, now, roll1)) ==>
      && h.state == Channeling && h.skillAnimStartTime == now
      && tracker.abilityUsageCounter == Tracking.Bump(old(tracker.abilityUsageCounter), h.skill.name)
      && h.skill.lastUsedTime == if old(Casts(h, now, roll2)) then now else old(h.skill.lastUsedTime)
    ensures !old(Casts(h, now, roll1)) ==>
      && h.skill.lastUsedTime == old(h.skill.lastUsedTime)
      && tracker.abilityUsageCounter == old(tracker.abilityUsageCounter)
    ensures old(Casts(h, now, roll1)) ==>
      && |launches| == |enemies|
      && forall i :: 0 <= i < |enemies| ==>
           launches[i] == Bolt(h, enemies[i], h.skill.effect.radius, h.skill.effect.damage)
    ensures !old(Casts(h, now, roll1)) ==> launches == []
  {
    ghost var casts := Casts(h, now, roll1);
    Update(h, now, enemies, enemyBase);
    assert Casts(h, now, roll1) == casts;
    assert tracker.abilityUsageCounter == old(tracker.abilityUsageCounter) && tracker.Valid();
    launches := TrySkill(h, now, roll1, roll2, enemies, tracker);
  }
}
