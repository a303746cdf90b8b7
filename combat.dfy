/** The combat package: the positional, health-bearing entity, the
    cooldown-gated attack, the three skill effects and the skill that gates
    them behind a cooldown and a chance roll. */
module Combat {
  import opened Common
  import opened Stronghold
  import Screen

  /** A unit's behaviour mode ("move", "attack", "skill" in the game). */
  datatype State = Moving | Attacking | Channeling

  datatype Role = Archer | Warrior | Mage | Healer

  /** What a Character stands for: a bare entity, a hero of some role, an
      enemy, or the proxy through which heroes damage the enemy stronghold. */
  datatype Kind = Plain | HeroUnit(role: Role) | EnemyUnit | BaseProxy

  class Character {
    var x: real
    const y: real
    var health: real
    const maxHealth: real
    const speed: real
    var alive: bool
    var isDying: bool
    const kind: Kind
    /** Non-null exactly for a stronghold proxy: the structure whose health
        it mirrors. Its presence is what gives the entity `take_damage`. */
    const base: Base?
    const attack: Attack?
    const skill: Skill?
    const attackRange: real
    var state: State
    var skillAnimStartTime: real
    var skillAnimDuration: real
    var skillCompleted: bool
    /** The attack cooldown before the first attack-speed buff, while buffed. */
    var originalCooldown: Option<real>
    var buffEndTime: Option<real>

    /** A new entity starts at full health and alive; heroes and enemies
        add their attack, skill and range. */
    constructor (kind: Kind, x: real, y: real, health: real, speed: real,
                 attack: Attack?, skill: Skill?, attackRange: real)
      ensures this.kind == kind && this.x == x && this.y == y && this.speed == speed
      ensures this.health == health && maxHealth == health && alive && !isDying
      ensures this.attack == attack && this.skill == skill && this.attackRange == attackRange
      ensures base == null && state == Moving
      ensures skillAnimStartTime == 0.0 && skillAnimDuration == 0.0 && !skillCompleted
      ensures originalCooldown == None && buffEndTime == None
    {
      this.kind := kind;
      this.x, this.y := x, y;
      this.health, maxHealth := health, health;
      this.speed := speed;
      alive, isDying := true, false;
      base := null;
      this.attack, this.skill, this.attackRange := attack, skill, attackRange;
      state := Moving;
      skillAnimStartTime, skillAnimDuration, skillCompleted := 0.0, 0.0, false;
      originalCooldown, buffEndTime := None, None;
    }

    /** The stand-in heroes attack for a stronghold: 20 to its left, half
        way down the screen, with the stronghold's health, never moving. */
    constructor ProxyFor(b: Base)
      ensures base == b && kind == BaseProxy
      ensures x == b.x - 20.0 && y == (Screen.Height / 2) as real && speed == 0.0
      ensures health == b.health && maxHealth == b.health && alive && !isDying
      ensures attack == null && skill == null && state == Moving
      ensures originalCooldown == None && buffEndTime == None
    {
      kind := BaseProxy;
      x, y := b.x - 20.0, (Screen.Height / 2) as real;
      health, maxHealth := b.health, b.health;
      speed := 0.0;
      alive, isDying := true, false;
      base := b;
      attack, skill, attackRange := null, null, 0.0;
      state := Moving;
      skillAnimStartTime, skillAnimDuration, skillCompleted := 0.0, 0.0, false;
      originalCooldown, buffEndTime := None, None;
    }

    /** The stronghold this entity mirrors, as a frame (empty for others). */
    function Mirror(): set<Base>
    {
      if base == null then {} else {base}
    }

    /** This entity's attack, as a frame (empty when it has none). */
    function Weapon(): set<Attack>
    {
      if attack == null then {} else {attack}
    }

    /** What taking `amount` damage does: health drops by exactly `amount`
        (it is never clamped at 0); at or below 0 the entity stops being
        alive. A plain entity also enters its death pipeline (isDying); a
        stronghold proxy instead writes its health through to the
        stronghold and never sets isDying. */
    twostate predicate Damaged(amount: real)
      reads this, Mirror()
    {
      && health == old(health) - amount
      && alive == (old(alive) && health > 0.0)
      && (if base == null then isDying == (old(isDying) || health <= 0.0)
          else isDying == old(isDying) && base.health == health)
    }

    /** A proxy's own way of taking damage. */
    method TakeDamage(amount: real)
      requires base != null
      modifies this`health, this`alive, base`health
      ensures Damaged(amount)
    {
      health := health - amount;
      base.health := health;
      if health <= 0.0 {
        alive := false;
      }
    }

    method Move()
      modifies this`x
      ensures x == if alive then old(x) + speed else old(x)
    {
      if alive {
        x := x + speed;
      }
    }
  }

  /** The frame of an optional entity. */
  function AsSet(c: Character?): set<Character>
  {
    if c == null then {} else {c}
  }

  /** The stronghold an optional entity mirrors, as a frame. */
  function MirrorOf(c: Character?): set<Base>
  {
    if c == null then {} else c.Mirror()
  }

  /** The strongholds mirrored by the proxies in a list, as a frame. */
  function Mirrors(s: seq<Character>): set<Base>
  {
    set c, b | c in s && b in c.Mirror() :: b
  }

  class Attack {
    const dmg: real
    var cooldown: real
    var lastTime: real

    constructor (dmg: real, cooldown: real)
      ensures this.dmg == dmg && this.cooldown == cooldown && lastTime == 0.0
    {
      this.dmg, this.cooldown, lastTime := dmg, cooldown, 0.0;
    }

    predicate CanAttack(now: real)
      reads this
    {
      Ready(now, lastTime, cooldown)
    }

    /** Hits `target` when the cooldown has elapsed and records the time;
        otherwise does nothing at all. A stronghold proxy takes the damage
        through its own TakeDamage. */
    method AttackTarget(now: real, target: Character)
      modifies this`lastTime, target`health, target`alive, target`isDying, target.Mirror()`health
      ensures lastTime == if old(CanAttack(now)) then now else old(lastTime)
      ensures old(CanAttack(now)) ==> target.Damaged(dmg)
      ensures !old(CanAttack(now)) ==> unchanged(target) && unchanged(target.Mirror())
    {
      if CanAttack(now) {
        if target.base != null {
          target.TakeDamage(dmg);
        } else {
          target.health := target.health - dmg;
          if target.health <= 0.0 {
            target.alive := false;
            target.isDying := true;
          }
        }
        lastTime := now;
      }
    }
  }

  /** Two attacks less than a cooldown apart damage the target once. */
  method AttackTwiceWithinCooldown(dmg: real, cooldown: real, startHealth: real, t0: real, t1: real)
    returns (health: real, lastTime: real)
    requires t0 >= cooldown && 0.0 <= t1 - t0 < cooldown
    ensures health == startHealth - dmg
    ensures lastTime == t0
  {
    var a := new Attack(dmg, cooldown);
    var target := new Character(Plain, 0.0, 0.0, startHealth, 0.0, null, null, 0.0);
    a.AttackTarget(t0, target);
    a.AttackTarget(t1, target);
    health, lastTime := target.health, a.lastTime;
  }

  /** Damage to a stronghold proxy reaches the stronghold and leaves the
      proxy out of the death pipeline, even when it brings it to zero. */
  method AttackOnStronghold(dmg: real, now: real) returns (baseHealth: real, alive: bool, dying: bool)
    requires now >= 0.0
    ensures baseHealth == 100.0 - dmg
    ensures alive <==> 100.0 - dmg > 0.0
    ensures !dying
  {
    var b := new Base(760.0);
    var proxy := new Character.ProxyFor(b);
    var a := new Attack(dmg, 0.0);
    a.AttackTarget(now, proxy);
    baseHealth, alive, dying := b.health, proxy.alive, proxy.isDying;
  }

  // ---------------------------------------------------------------------
  // Skill effects

  datatype Effect =
    | AreaDamage(radius: real, damage: real)
    | BuffAttackSpeed(amount: real, duration: real)
    | GroupHeal(amount: real)

  /** The effects' default tunings. */
  const DefaultAreaDamage: Effect := AreaDamage(100.0, 20.0)
  const DefaultBuff: Effect := BuffAttackSpeed(0.5, 5.0)
  const DefaultGroupHeal: Effect := GroupHeal(15.0)

  /** A buffed attack never fires faster than once per this many seconds. */
  const BuffFloor: real := 0.1

  /** Every entity in `s` has an attack of its own. */
  predicate Armed(s: seq<Character>)
  {
    && (forall i :: 0 <= i < |s| ==> s[i].attack != null)
    && (forall i, j :: 0 <= i < j < |s| ==> s[i].attack != s[j].attack)
  }

  function Attacks(s: seq<Character>): set<Attack>
  {
    set c, a | c in s && a in c.Weapon() :: a
  }

  /** The cooldown after one buff: lowered by `amount` but never below the
      floor. A buff never raises a cooldown that is above the floor. */
  function BuffedCooldown(cooldown: real, amount: real): (r: real)
    ensures r >= BuffFloor
    ensures r == BuffFloor || r == cooldown - amount
    ensures amount >= 0.0 && cooldown >= BuffFloor ==> r <= cooldown
  {
    Max(BuffFloor, cooldown - amount)
  }

  /** The snapshot of the unbuffed cooldown: taken only if none exists. */
  function Snapshot(original: Option<real>, cooldown: real): (r: Option<real>)
    ensures r.Some?
    ensures original.Some? ==> r == original
  {
    if original.None? then Some(cooldown) else original
  }

  /** An attack's (cooldown, snapshot) after `n` buffs of `amount`. */
  function BuffedTimes(cooldown: real, original: Option<real>, amount: real, n: nat): (real, Option<real>)
  {
    if n == 0 then (cooldown, original)
    else
      var (c, o) := BuffedTimes(cooldown, original, amount, n - 1);
      (BuffedCooldown(c, amount), Snapshot(o, c))
  }

  /** Lowering to the floor twice is lowering once by the sum. */
  lemma BuffedTwice(cooldown: real, first: real, second: real)
    requires second >= 0.0
    ensures BuffedCooldown(BuffedCooldown(cooldown, first), second) == BuffedCooldown(cooldown, first + second)
  {
  }

  /** The total reduction `n` buffs of `amount` ask for. */
  function Stacked(amount: real, n: nat): (r: real)
  {
    if n == 0 then 0.0 else Stacked(amount, n - 1) + amount
  }

  lemma {:induction false} StackedIsProduct(amount: real, n: nat)
    ensures Stacked(amount, n) == n as real * amount
  {
    if n > 0 {
      StackedIsProduct(amount, n - 1);
      calc {
        Stacked(amount, n);
      ==
        (n - 1) as real * amount + amount;
      ==
        ((n - 1) as real + 1.0) * amount;
      }
    }
  }

  /** Re-buffing compounds: each buff lowers the cooldown it finds, so
      after `n` buffs the total reduction asked for is n times the amount
      (down to the floor), while the snapshot still holds the cooldown from
      before the first buff. */
  lemma {:induction false} RepeatedBuffs(cooldown: real, amount: real, n: nat)
    requires amount >= 0.0 && n >= 1
    ensures BuffedTimes(cooldown, None, amount, n).0 == BuffedCooldown(cooldown, Stacked(amount, n))
    ensures BuffedTimes(cooldown, None, amount, n).1 == Some(cooldown)
  {
    if n > 1 {
      RepeatedBuffs(cooldown, amount, n - 1);
      BuffedTwice(cooldown, Stacked(amount, n - 1), amount);
    }
  }

  /** The same with the total written as a product. */
  lemma RepeatedBuffsLowerByProduct(cooldown: real, amount: real, n: nat)
    requires amount >= 0.0 && n >= 1
    ensures BuffedTimes(cooldown, None, amount, n).0 == Max(BuffFloor, cooldown - n as real * amount)
  {
    RepeatedBuffs(cooldown, amount, n);
    StackedIsProduct(amount, n);
  }

  /** A target's health after a group heal: only a living, wounded target
      gains, and never beyond its maximum. */
  function HealedHealth(health: real, maxHealth: real, alive: bool, amount: real): (r: real)
    ensures r <= Max(health, maxHealth)
    ensures !alive || health >= maxHealth ==> r == health
    ensures alive && health < maxHealth && amount >= 0.0 ==> health <= r <= maxHealth
  {
    if alive && health < maxHealth then Min(health + amount, maxHealth) else health
  }

  /** One target of an area blast: a living target within `radius` of the
      caster on the lane axis loses exactly `damage` and, at or below 0,
      stops being alive; any other target is untouched. */
  twostate predicate Struck(radius: real, damage: real, userX: real, t: Character)
    reads t
  {
    if old(t.alive) && Abs(userX - t.x) <= radius then
      t.health == old(t.health) - damage && t.alive == (t.health > 0.0)
    else
      t.health == old(t.health) && t.alive == old(t.alive)
  }

  twostate predicate AreaDamaged(radius: real, damage: real, userX: real, targets: seq<Character>)
    reads targets
  {
    forall t :: t in targets ==> Struck(radius, damage, userX, t)
  }

  method ApplyAreaDamage(radius: real, damage: real, userX: real, targets: seq<Character>)
    requires Distinct(targets)
    modifies targets`health, targets`alive
    ensures AreaDamaged(radius, damage, userX, targets)
  {
    for i := 0 to |targets|
      invariant forall j :: 0 <= j < i ==> Struck(radius, damage, userX, targets[j])
      invariant forall j :: i <= j < |targets| ==>
        targets[j].health == old(targets[j].health) && targets[j].alive == old(targets[j].alive)
    {
      var t := targets[i];
      if Abs(userX - t.x) <= radius && t.alive {
        t.health := t.health - damage;
        if t.health <= 0.0 {
          t.alive := false;
        }
      }
    }
  }

  /** One ally after an attack-speed buff: its cooldown lowered to the
      floor at most, the unbuffed cooldown snapshotted only if no snapshot
      exists, and the buff set to end `duration` after `now`. */
  twostate predicate BuffedAlly(amount: real, duration: real, now: real, a: Character)
    reads a, a.Weapon()
  {
    && a.attack != null
    && a.attack.cooldown == BuffedCooldown(old(a.attack.cooldown), amount)
    && a.originalCooldown == Snapshot(old(a.originalCooldown), old(a.attack.cooldown))
    && a.buffEndTime == Some(now + duration)
  }

  twostate predicate Buffed(amount: real, duration: real, now: real, allies: seq<Character>)
    reads allies, Attacks(allies)
  {
    forall a :: a in allies ==> BuffedAlly(amount, duration, now, a)
  }

  method ApplyBuff(amount: real, duration: real, now: real, allies: seq<Character>)
    requires Armed(allies)
    modifies allies`originalCooldown, allies`buffEndTime, Attacks(allies)`cooldown
    ensures Buffed(amount, duration, now, allies)
  {
    for i := 0 to |allies|
      invariant forall j :: 0 <= j < i ==> BuffedAlly(amount, duration, now, allies[j])
      invariant forall j :: i <= j < |allies| ==>
        && allies[j].attack.cooldown == old(allies[j].attack.cooldown)
        && allies[j].originalCooldown == old(allies[j].originalCooldown)
        && allies[j].buffEndTime == old(allies[j].buffEndTime)
    {
      var a := allies[i];
      assert a.attack in a.Weapon();
      if a.originalCooldown.None? {
        a.originalCooldown := Some(a.attack.cooldown);
      }
      a.attack.cooldown := Max(BuffFloor, a.attack.cooldown - amount);
      a.buffEndTime := Some(now + duration);
    }
  }

  twostate predicate Healed(amount: real, targets: seq<Character>)
    reads targets
  {
    forall t :: t in targets ==>
      t.health == HealedHealth(old(t.health), t.maxHealth, old(t.alive), amount)
  }

  method ApplyGroupHeal(amount: real, targets: seq<Character>)
    requires Distinct(targets)
    modifies targets`health
    ensures Healed(amount, targets)
  {
    for i := 0 to |targets|
      invariant forall j :: 0 <= j < i ==>
        targets[j].health == HealedHealth(old(targets[j].health), targets[j].maxHealth, old(targets[j].alive), amount)
      invariant forall j :: i <= j < |targets| ==> targets[j].health == old(targets[j].health)
    {
      var t := targets[i];
      if t.alive && t.health < t.maxHealth {
        t.health := t.health + amount;
        if t.health > t.maxHealth {
          t.health := t.maxHealth;
        }
      }
    }
  }

  /** What applying `effect` did to `targets`, naming every field an
      effect may touch. */
  twostate predicate Applied(effect: Effect, userX: real, now: real, targets: seq<Character>)
    reads targets, Attacks(targets)
  {
    match effect
    case AreaDamage(r, d) =>
      AreaDamaged(r, d, userX, targets)
      && unchanged(targets`originalCooldown) && unchanged(targets`buffEndTime) && unchanged(Attacks(targets))
    case BuffAttackSpeed(a, dur) =>
      Buffed(a, dur, now, targets) && unchanged(targets`health) && unchanged(targets`alive)
    case GroupHeal(a) =>
      Healed(a, targets) && unchanged(targets`alive)
      && unchanged(targets`originalCooldown) && unchanged(targets`buffEndTime) && unchanged(Attacks(targets))
  }

  class Skill {
    const name: string
    const skillCooldown: real
    const effect: Effect
    const skillChance: real
    const castDuration: real
    var lastUsedTime: real

    constructor (name: string, skillCooldown: real, effect: Effect, skillChance: real, castDuration: real)
      ensures this.name == name && this.skillCooldown == skillCooldown && this.effect == effect
      ensures this.skillChance == skillChance && this.castDuration == castDuration
      ensures lastUsedTime == 0.0
    {
      this.name, this.skillCooldown, this.effect := name, skillCooldown, effect;
      this.skillChance, this.castDuration := skillChance, castDuration;
      lastUsedTime := 0.0;
    }

    /** The skill fires when its cooldown has elapsed and the uniform draw
        `roll` falls below its chance. */
    predicate CanUseSkill(now: real, roll: real)
      reads this
    {
      Ready(now, lastUsedTime, skillCooldown) && roll < skillChance
    }

    /** Applies the effect and consumes the cooldown only when the gate
        passes; a failed gate (including a failed roll) changes nothing. */
    method Use(now: real, roll: real, userX: real, targets: seq<Character>)
      requires Distinct(targets)
      requires effect.BuffAttackSpeed? ==> Armed(targets)
      modifies this`lastUsedTime, targets`health, targets`alive, targets`originalCooldown,
        targets`buffEndTime, Attacks(targets)`cooldown
      ensures lastUsedTime == if old(CanUseSkill(now, roll)) then now else old(lastUsedTime)
      ensures old(CanUseSkill(now, roll)) ==> Applied(effect, userX, now, targets)
      ensures !old(CanUseSkill(now, roll)) ==> unchanged(targets) && unchanged(Attacks(targets))
    {
      if CanUseSkill(now, roll) {
        match effect {
          case AreaDamage(r, d) => ApplyAreaDamage(r, d, userX, targets);
          case BuffAttackSpeed(a, dur) => ApplyBuff(a, dur, now, targets);
          case GroupHeal(a) => ApplyGroupHeal(a, targets);
        }
        lastUsedTime := now;
      }
    }
  }

  /** A failed roll leaves the skill ready: the next tick's roll can fire
      it without waiting for another cooldown. */
  method RollMissThenHit(cooldown: real, chance: real, now: real, later: real, miss: real, hit: real)
    returns (firstFired: bool, secondFired: bool, lastUsed: real)
    requires now >= cooldown && later >= now
    requires miss >= chance && hit < chance
    ensures !firstFired && secondFired && lastUsed == later
  {
    var s := new Skill("AOE", cooldown, DefaultAreaDamage, chance, 0.3);
    firstFired := s.CanUseSkill(now, miss);
    s.Use(now, miss, 0.0, []);
    secondFired := s.CanUseSkill(later, hit);
    s.Use(later, hit, 0.0, []);
    lastUsed := s.lastUsedTime;
  }
}
