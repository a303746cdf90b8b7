/** The earlier, self-contained version of the game: five hero classes with
    their own update rules, a weak enemy that bites whatever blocks it, an
    unbounded energy pool, spawn buttons, and the tick that drives the
    lane and decides the match. */
module Prototype {
  import opened Common
  import Screen
  import Buttons

  /** The hero classes of this version; the Tank exists only here. */
  datatype Role = Archer | Warrior | Mage | Tank | Healer

  // ---------------------------------------------------------------------
  // Stat tables

  function StartHealth(role: Role): int
  {
    match role
    case Archer => 60
    case Warrior => 150
    case Mage => 80
    case Tank => 300
    case Healer => 70
  }

  function Speed(role: Role): real
  {
    match role
    case Archer => 2.0
    case Warrior => 2.0
    case Mage => 1.0
    case Tank => 2.0
    case Healer => 1.5
  }

  function Damage(role: Role): (d: int)
    ensures d >= 0
  {
    match role
    case Archer => 5
    case Warrior => 15
    case Mage => 10
    case Tank => 0
    case Healer => 0
  }

  /** How far an Archer, Warrior or Mage sees an enemy to engage; the Tank
      and the Healer have no attack range. */
  function Range(role: Role): real
  {
    match role
    case Archer => 500.0
    case Warrior => 40.0
    case Mage => 350.0
    case Tank => 0.0
    case Healer => 0.0
  }

  function Cooldown(role: Role): real
  {
    match role
    case Archer => 0.5
    case Warrior => 1.5
    case Mage => 2.0
    case Tank => 1.0
    case Healer => 1.0
  }

  /** How far around the shooter an Archer's or a Mage's volley lands. */
  function SplashRadius(role: Role): real
  {
    if role == Archer then 500.0 else if role == Mage then 100.0 else 0.0
  }

  /** A Tank stops as soon as an enemy is strictly closer than this. */
  const TankHold: real := 40.0
  const HealAmount: int := 5
  const HealRange: real := 100.0

  /** An enemy is blocked by a hero strictly closer than this. */
  const Block: real := 40.0
  const EnemyAttack: int := 5
  const EnemyCooldown: real := 1.0
  const EnemySpeed: real := -1.5

  /** A hero at or past this line reaches the enemy stronghold. */
  const EnemyGate: real := (Screen.Width - 60) as real
  /** An enemy at or before this line reaches the player's stronghold. */
  const PlayerGate: real := 50.0
  const GateDamage: int := 5

  // ---------------------------------------------------------------------
  // Searching and counting along the lane

  /** Whether `b` lies within `reach` of `a`; `inclusive` says whether the
      boundary itself counts. */
  predicate Within(a: real, b: real, reach: real, inclusive: bool)
  {
    if inclusive then Abs(a - b) <= reach else Abs(a - b) < reach
  }

  /** The index of the first position in `xs` within `reach` of `a`, or
      -1 when there is none. */
  function FirstWithin(a: real, xs: seq<real>, reach: real, inclusive: bool): (i: int)
    ensures -1 <= i < |xs|
  {
    if xs == [] then -1
    else if Within(a, xs[0], reach, inclusive) then 0
    else
      var i := FirstWithin(a, xs[1..], reach, inclusive);
      if i < 0 then -1 else i + 1
  }

  /** The search finds the first position within reach, and reports -1
      only when there is none. */
  lemma {:induction false} FirstWithinIsFirst(a: real, xs: seq<real>, reach: real, inclusive: bool)
    ensures FirstWithin(a, xs, reach, inclusive) >= 0 ==>
      && Within(a, xs[FirstWithin(a, xs, reach, inclusive)], reach, inclusive)
      && forall j :: 0 <= j < FirstWithin(a, xs, reach, inclusive) ==> !Within(a, xs[j], reach, inclusive)
    ensures FirstWithin(a, xs, reach, inclusive) == -1 <==>
      forall j :: 0 <= j < |xs| ==> !Within(a, xs[j], reach, inclusive)
  {
    if xs != [] && !Within(a, xs[0], reach, inclusive) {
      FirstWithinIsFirst(a, xs[1..], reach, inclusive);
      assert forall j :: 1 <= j < |xs| ==> xs[j] == xs[1..][j - 1];
    }
  }

  /** Whether `x` has reached `line`: from the left when `rightward`,
      from the right otherwise. */
  predicate Past(x: real, line: real, rightward: bool)
  {
    if rightward then x >= line else x <= line
  }

  /** How many positions in `xs` have reached `line`. */
  function CountPast(xs: seq<real>, line: real, rightward: bool): (n: nat)
    ensures n <= |xs|
  {
    if xs == [] then 0
    else CountPast(xs[..|xs| - 1], line, rightward) + if Past(xs[|xs| - 1], line, rightward) then 1 else 0
  }

  /** Counting one position further along `xs`. */
  lemma CountPastNext(xs: seq<real>, i: int, line: real, rightward: bool)
    requires 0 <= i < |xs|
    ensures CountPast(xs[..i + 1], line, rightward) ==
      CountPast(xs[..i], line, rightward) + (if Past(xs[i], line, rightward) then 1 else 0)
  {
    assert xs[..i + 1][..i] == xs[..i];
  }

  /** The elements of `s` whose flag in `keep` is set, in their order. */
  function Survivors<T>(s: seq<T>, keep: seq<bool>): seq<T>
    requires |keep| == |s|
  {
    if s == [] then []
    else (if keep[0] then [s[0]] else []) + Survivors(s[1..], keep[1..])
  }

  /** Filtering keeps exactly the flagged elements, and no element twice
      when none was listed twice. */
  lemma {:induction false} SurvivorsAreKept<T>(s: seq<T>, keep: seq<bool>)
    requires |keep| == |s|
    ensures forall x :: x in Survivors(s, keep) ==> exists j :: 0 <= j < |s| && s[j] == x && keep[j]
    ensures forall j :: 0 <= j < |s| && keep[j] ==> s[j] in Survivors(s, keep)
    ensures Distinct(s) ==> Distinct(Survivors(s, keep))
  {
    if s != [] {
      var t, kt := s[1..], keep[1..];
      SurvivorsAreKept(t, kt);
      assert Survivors(s, keep) == (if keep[0] then [s[0]] else []) + Survivors(t, kt);
      forall x | x in Survivors(s, keep)
        ensures exists j :: 0 <= j < |s| && s[j] == x && keep[j]
      {
        if !(keep[0] && x == s[0]) {
          assert x in Survivors(t, kt);
          assert exists j :: 0 <= j < |t| && t[j] == x && kt[j];
          var j :| 0 <= j < |t| && t[j] == x && kt[j];
          assert s[j + 1] == x && keep[j + 1];
        }
      }
      forall j | 1 <= j < |s| && keep[j]
        ensures s[j] in Survivors(s, keep)
      {
        assert t[j - 1] == s[j] && kt[j - 1];
      }
      if Distinct(s) {
        assert Distinct(t);
        if keep[0] {
          assert s[0] !in t;
          assert s[0] !in Survivors(t, kt);
        }
      }
    }
  }

  // ---------------------------------------------------------------------
  // Units

  class Enemy {
    var x: real
    const y: real
    var health: int
    const speed: real := EnemySpeed
    var alive: bool
    const attack: int := EnemyAttack
    var lastAttack: real
    const cooldown: real := EnemyCooldown

    /** A new enemy at the right end of the lane, at mid-height. */
    constructor ()
      ensures x == (Screen.Width - 50) as real && y == (Screen.Height / 2) as real
      ensures health == 30 && alive && lastAttack == 0.0
    {
      x, y := (Screen.Width - 50) as real, (Screen.Height / 2) as real;
      health, alive, lastAttack := 30, true, 0.0;
    }

    /** A living enemy steps by its speed; a dead one stays put. */
    method Move()
      modifies this`x
      ensures x == if alive then old(x) + speed else old(x)
    {
      if alive {
        x := x + speed;
      }
    }

    predicate CanAttack(now: real)
      reads this`lastAttack
    {
      Ready(now, lastAttack, cooldown)
    }

    /** Once the cooldown has elapsed the hero loses the enemy's attack,
        dying when nothing is left, and the cooldown restarts; before
        that nothing happens. */
    method AttackHero(hero: Hero, now: real)
      modifies this`lastAttack, hero`health, hero`alive
      ensures Wounded(hero, old(CanAttack(now)), attack)
      ensures lastAttack == if old(CanAttack(now)) then now else old(lastAttack)
    {
      if now - lastAttack >= cooldown {
        hero.health := hero.health - attack;
        lastAttack := now;
        if hero.health <= 0 {
          hero.alive := false;
        }
      }
    }
  }

  class Hero {
    const role: Role
    var x: real
    const y: real
    var health: int
    const speed: real
    var alive: bool
    const attack: int
    const attackRange: real
    const cooldown: real
    var lastAttack: real

    /** The stats this hero's class gives it. */
    predicate Stock()
    {
      && speed == Speed(role) && attack == Damage(role)
      && attackRange == Range(role) && cooldown == Cooldown(role)
    }

    /** A new hero of `role` at the left end of the lane, at mid-height,
        with its class's health and able to act at once. */
    constructor (role: Role)
      ensures this.role == role && Stock()
      ensures x == 50.0 && y == (Screen.Height / 2) as real
      ensures health == StartHealth(role) && alive && lastAttack == 0.0
    {
      this.role := role;
      x, y := 50.0, (Screen.Height / 2) as real;
      health, speed, alive := StartHealth(role), Speed(role), true;
      attack, attackRange, cooldown := Damage(role), Range(role), Cooldown(role);
      lastAttack := 0.0;
    }

    method Move()
      modifies this`x
      ensures x == if alive then old(x) + speed else old(x)
    {
      if alive {
        x := x + speed;
      }
    }

    predicate CanAttack(now: real)
      reads this`lastAttack
    {
      Ready(now, lastAttack, cooldown)
    }

    /** How close an enemy must be for this hero to stop for it. */
    function Reach(): real
    {
      if role == Tank then TankHold else attackRange
    }

    /** The enemy this hero stops for: the first one within its reach, or
        -1 when there is none. */
    function Target(enemies: seq<Enemy>): (t: int)
      reads this`x, enemies`x
      ensures -1 <= t < |enemies|
    {
      FirstWithin(x, EnemyXs(enemies), Reach(), role != Tank)
    }

    /** The update of an Archer, Warrior, Mage or Tank. With no enemy in
        reach the hero walks. Otherwise it holds its ground; a Tank does
        nothing more, while the others, once their cooldown has elapsed,
        strike and restart the cooldown: a Warrior hits the enemy it
        stopped for, an Archer or a Mage every enemy within its splash. */
    method Update(now: real, enemies: seq<Enemy>)
      requires role != Healer && Stock() && Distinct(enemies)
      modifies this`x, this`lastAttack, enemies`health, enemies`alive
      ensures old(Target(enemies)) == -1 ==>
        && x == (if alive then old(x) + speed else old(x))
        && lastAttack == old(lastAttack) && Calm(enemies)
      ensures old(Target(enemies)) >= 0 ==> x == old(x)
      ensures old(Target(enemies)) >= 0 && role != Tank && old(CanAttack(now)) ==>
        lastAttack == now && Volleyed(enemies, role, x, old(Target(enemies)), attack)
      ensures old(Target(enemies)) >= 0 && (role == Tank || !old(CanAttack(now))) ==>
        lastAttack == old(lastAttack) && Calm(enemies)
    {
      var i := 0;
      while i < |enemies|
        invariant 0 <= i <= |enemies|
        invariant forall j :: 0 <= j < i ==> !Within(x, EnemyXs(enemies)[j], Reach(), role != Tank)
      {
        var enemy := enemies[i];
        if Within(x, enemy.x, Reach(), role != Tank) {
          FirstWithinIsFirst(x, EnemyXs(enemies), Reach(), role != Tank);
          assert Target(enemies) == i;
          Engage(now, enemies, i);
          return;
        }
        i := i + 1;
      }
      FirstWithinIsFirst(x, EnemyXs(enemies), Reach(), role != Tank);
      Move();
    }

    /** What a hero that has stopped for the enemy at index `t` does: a
        Tank nothing; the others, once their cooldown has elapsed, strike
        and restart the cooldown. */
    method Engage(now: real, enemies: seq<Enemy>, t: int)
      requires role != Healer && Stock() && Distinct(enemies) && 0 <= t < |enemies|
      modifies this`lastAttack, enemies`health, enemies`alive
      ensures role != Tank && old(CanAttack(now)) ==>
        lastAttack == now && Volleyed(enemies, role, x, t, attack)
      ensures role == Tank || !old(CanAttack(now)) ==>
        lastAttack == old(lastAttack) && Calm(enemies)
    {
      if role != Tank && now - lastAttack >= cooldown {
        if role == Warrior {
          var enemy := enemies[t];
          enemy.health := enemy.health - attack;
          if enemy.health <= 0 {
            enemy.alive := false;
          }
        } else {
          Volley(enemies, x, SplashRadius(role), attack);
        }
        lastAttack := now;
      }
    }

    /** An ally this Healer may heal: another hero, alive, within its heal
        range. */
    predicate Helpable(h: Hero)
      reads this`x, h`x, h`alive
    {
      h != this && h.alive && Abs(x - h.x) <= HealRange
    }

    /** Where, in list order, the first helpable ally stands; -1 when
        there is none. */
    function FirstAlly(heroes: seq<Hero>): (i: int)
      reads this`x, heroes`x, heroes`alive
      ensures -1 <= i < |heroes|
    {
      if heroes == [] then -1
      else if Helpable(heroes[0]) then 0
      else
        var i := FirstAlly(heroes[1..]);
        if i < 0 then -1 else i + 1
    }

    /** The Healer heals the first helpable ally and no earlier one, and
        finds none only when there is none. */
    lemma {:induction false} FirstAllyIsFirst(heroes: seq<Hero>)
      ensures FirstAlly(heroes) >= 0 ==>
        && Helpable(heroes[FirstAlly(heroes)])
        && forall j :: 0 <= j < FirstAlly(heroes) ==> !Helpable(heroes[j])
      ensures FirstAlly(heroes) == -1 <==> forall j :: 0 <= j < |heroes| ==> !Helpable(heroes[j])
    {
      if heroes != [] && !Helpable(heroes[0]) {
        FirstAllyIsFirst(heroes[1..]);
        assert forall j :: 1 <= j < |heroes| ==> heroes[j] == heroes[1..][j - 1];
      }
    }

    /** The Healer's update. Once its cooldown has elapsed and an ally is
        helpable, the first such ally gains the heal amount, with no
        ceiling, the cooldown restarts and the Healer stays put; otherwise
        it walks and nobody is healed. */
    method Heal(now: real, heroes: seq<Hero>)
      requires role == Healer
      modifies this`x, this`lastAttack, heroes`health
      ensures old(CanAttack(now)) && old(FirstAlly(heroes)) >= 0 ==>
        && x == old(x) && lastAttack == now
        && Mended(heroes, heroes[old(FirstAlly(heroes))])
      ensures !(old(CanAttack(now)) && old(FirstAlly(heroes)) >= 0) ==>
        && x == (if alive then old(x) + speed else old(x))
        && lastAttack == old(lastAttack) && Mended(heroes, null)
    {
      FirstAllyIsFirst(heroes);
      var i := 0;
      while i < |heroes|
        invariant 0 <= i <= |heroes|
        invariant forall j :: 0 <= j < i ==> !(Helpable(heroes[j]) && CanAttack(now))
      {
        var ally := heroes[i];
        if ally != this && ally.alive && Abs(x - ally.x) <= HealRange && now - lastAttack >= cooldown {
          assert FirstAlly(heroes) == i;
          ally.health := ally.health + HealAmount;
          lastAttack := now;
          return;
        }
        i := i + 1;
      }
      Move();
    }
  }

  /** The positions of `s`, in order. */
  function EnemyXs(s: seq<Enemy>): (r: seq<real>)
    reads s`x
    ensures |r| == |s| && forall j :: 0 <= j < |s| ==> r[j] == s[j].x
  {
    if s == [] then [] else [s[0].x] + EnemyXs(s[1..])
  }

  /** When each enemy of `s` last attacked, in order. */
  function EnemyLasts(s: seq<Enemy>): (r: seq<real>)
    reads s`lastAttack
    ensures |r| == |s| && forall j :: 0 <= j < |s| ==> r[j] == s[j].lastAttack
  {
    if s == [] then [] else [s[0].lastAttack] + EnemyLasts(s[1..])
  }

  function EnemyAlive(s: seq<Enemy>): (r: seq<bool>)
    reads s`alive
    ensures |r| == |s| && forall j :: 0 <= j < |s| ==> r[j] == s[j].alive
  {
    if s == [] then [] else [s[0].alive] + EnemyAlive(s[1..])
  }

  function EnemyHealth(s: seq<Enemy>): (r: seq<int>)
    reads s`health
    ensures |r| == |s| && forall j :: 0 <= j < |s| ==> r[j] == s[j].health
  {
    if s == [] then [] else [s[0].health] + EnemyHealth(s[1..])
  }

  function HeroXs(s: seq<Hero>): (r: seq<real>)
    reads s`x
    ensures |r| == |s| && forall j :: 0 <= j < |s| ==> r[j] == s[j].x
  {
    if s == [] then [] else [s[0].x] + HeroXs(s[1..])
  }

  /** How many heroes of `s` stand at or beyond the enemy's gate, read
      off the heroes themselves. */
  function HeroesAtGate(s: seq<Hero>): (n: nat)
    reads s`x
    ensures n <= |s|
  {
    if s == [] then 0
    else HeroesAtGate(s[..|s| - 1]) + if s[|s| - 1].x >= EnemyGate then 1 else 0
  }

  /** The heroes at the gate are those whose positions are past it. */
  lemma {:induction false} HeroesAtGateCount(s: seq<Hero>)
    ensures HeroesAtGate(s) == CountPast(HeroXs(s), EnemyGate, true)
  {
    if s != [] {
      HeroesAtGateCount(s[..|s| - 1]);
      assert HeroXs(s)[..|s| - 1] == HeroXs(s[..|s| - 1]);
    }
  }

  /** How many enemies of `s` stand at or beyond the player's gate, read
      off the enemies themselves. */
  function EnemiesAtGate(s: seq<Enemy>): (n: nat)
    reads s`x
    ensures n <= |s|
  {
    if s == [] then 0
    else EnemiesAtGate(s[..|s| - 1]) + if s[|s| - 1].x <= PlayerGate then 1 else 0
  }

  /** The enemies at the gate are those whose positions are past it. */
  lemma {:induction false} EnemiesAtGateCount(s: seq<Enemy>)
    ensures EnemiesAtGate(s) == CountPast(EnemyXs(s), PlayerGate, false)
  {
    if s != [] {
      EnemiesAtGateCount(s[..|s| - 1]);
      assert EnemyXs(s)[..|s| - 1] == EnemyXs(s[..|s| - 1]);
    }
  }

  function HeroLasts(s: seq<Hero>): (r: seq<real>)
    reads s`lastAttack
    ensures |r| == |s| && forall j :: 0 <= j < |s| ==> r[j] == s[j].lastAttack
  {
    if s == [] then [] else [s[0].lastAttack] + HeroLasts(s[1..])
  }

  function HeroHealth(s: seq<Hero>): (r: seq<int>)
    reads s`health
    ensures |r| == |s| && forall j :: 0 <= j < |s| ==> r[j] == s[j].health
  {
    if s == [] then [] else [s[0].health] + HeroHealth(s[1..])
  }

  function HeroAlive(s: seq<Hero>): (r: seq<bool>)
    reads s`alive
    ensures |r| == |s| && forall j :: 0 <= j < |s| ==> r[j] == s[j].alive
  {
    if s == [] then [] else [s[0].alive] + HeroAlive(s[1..])
  }

  /** Hit or not, the enemy `e`: a hit takes `dmg` off its health and
      fells it when that leaves none; a miss changes nothing. */
  twostate predicate Struck(e: Enemy, hit: bool, dmg: int)
    reads e
  {
    && e.health == (if hit then old(e.health) - dmg else old(e.health))
    && e.alive == (if hit && e.health <= 0 then false else old(e.alive))
  }

  /** The same for a hero. */
  twostate predicate Wounded(h: Hero, hit: bool, dmg: int)
    reads h
  {
    && h.health == (if hit then old(h.health) - dmg else old(h.health))
    && h.alive == (if hit && h.health <= 0 then false else old(h.alive))
  }

  /** No enemy's health or life changed. */
  twostate predicate Calm(enemies: seq<Enemy>)
    reads enemies
  {
    forall j :: 0 <= j < |enemies| ==> enemies[j].health == old(enemies[j].health) && enemies[j].alive == old(enemies[j].alive)
  }

  /** Whether a striking hero of `role` at `hx`, having stopped for the
      enemy at index `t`, hits the enemy at index `j` standing at `ex`: a
      Warrior hits its target alone, an Archer or a Mage every enemy
      within its splash. */
  predicate Hits(role: Role, hx: real, t: int, j: int, ex: real)
  {
    if role == Warrior then j == t else Abs(hx - ex) <= SplashRadius(role)
  }

  twostate predicate Volleyed(enemies: seq<Enemy>, role: Role, hx: real, t: int, dmg: int)
    reads enemies
  {
    forall j :: 0 <= j < |enemies| ==> Struck(enemies[j], Hits(role, hx, t, j, enemies[j].x), dmg)
  }

  /** Each hero's health rose by the heal amount if it is `t`, and
      otherwise stayed. */
  twostate predicate Mended(heroes: seq<Hero>, t: Hero?)
    reads heroes
  {
    forall j :: 0 <= j < |heroes| ==>
      heroes[j].health == old(heroes[j].health) + if heroes[j] == t then HealAmount else 0
  }

  /** An Archer's or a Mage's volley: every enemy within `radius` of `hx`
      is struck for `dmg`, every other one is spared. */
  method Volley(enemies: seq<Enemy>, hx: real, radius: real, dmg: int)
    requires Distinct(enemies)
    modifies enemies`health, enemies`alive
    ensures forall j :: 0 <= j < |enemies| ==> Struck(enemies[j], Abs(hx - enemies[j].x) <= radius, dmg)
  {
    for k := 0 to |enemies|
      invariant forall j :: 0 <= j < k ==> Struck(enemies[j], Abs(hx - enemies[j].x) <= radius, dmg)
      invariant forall j :: k <= j < |enemies| ==>
        enemies[j].health == old(enemies[j].health) && enemies[j].alive == old(enemies[j].alive)
    {
      var e := enemies[k];
      if Abs(hx - e.x) <= radius {
        e.health := e.health - dmg;
        if e.health <= 0 {
          e.alive := false;
        }
      }
    }
  }

  /** The hero, if any, that blocks an enemy at `ex`: the first whose
      position is strictly within the blocking distance. */
  function Blocker(ex: real, hxs: seq<real>): (j: int)
    ensures -1 <= j < |hxs|
  {
    FirstWithin(ex, hxs, Block, false)
  }

  /** Which hero blocks each of the enemies at `exs`. */
  function Blockers(exs: seq<real>, hxs: seq<real>): seq<int>
  {
    seq(|exs|, m requires 0 <= m < |exs| => Blocker(exs[m], hxs))
  }

  /** Whether each enemy, having last attacked at `lasts`, may attack at
      time `now`. */
  function Readies(lasts: seq<real>, now: real): seq<bool>
  {
    seq(|lasts|, m requires 0 <= m < |lasts| => Ready(now, lasts[m], EnemyCooldown))
  }

  /** How many blows the hero at index `j` takes from enemies blocked by
      the heroes at `blockers` and ready as `ready` says: one from every
      ready enemy it blocks. */
  function Blows(blockers: seq<int>, ready: seq<bool>, j: int): (n: nat)
    requires |ready| == |blockers|
    ensures n <= |blockers|
  {
    if blockers == [] then 0
    else
      var k := |blockers| - 1;
      Blows(blockers[..k], ready[..k], j) + if blockers[k] == j && ready[k] then 1 else 0
  }

  lemma BlowsNext(blockers: seq<int>, ready: seq<bool>, k: int)
    requires |ready| == |blockers| && 0 <= k < |blockers|
    ensures forall j ::
      Blows(blockers[..k + 1], ready[..k + 1], j) == Blows(blockers[..k], ready[..k], j) + (if blockers[k] == j && ready[k] then 1 else 0)
  {
    assert blockers[..k + 1][..k] == blockers[..k] && ready[..k + 1][..k] == ready[..k];
  }

  /** One enemy's turn in the tick: it scans the heroes in list order and
      attacks the first one blocking it, holding its ground; with none in
      the way it walks. */
  method Advance(e: Enemy, now: real, heroes: seq<Hero>)
    requires Distinct(heroes)
    modifies e`x, e`lastAttack, heroes`health, heroes`alive
    ensures old(Blocker(e.x, HeroXs(heroes))) >= 0 ==>
      && e.x == old(e.x)
      && e.lastAttack == (if old(e.CanAttack(now)) then now else old(e.lastAttack))
      && forall j :: 0 <= j < |heroes| ==>
        Wounded(heroes[j], j == old(Blocker(e.x, HeroXs(heroes))) && old(e.CanAttack(now)), e.attack)
    ensures old(Blocker(e.x, HeroXs(heroes))) == -1 ==>
      && e.x == (if e.alive then old(e.x) + e.speed else old(e.x))
      && e.lastAttack == old(e.lastAttack)
      && forall j :: 0 <= j < |heroes| ==> Wounded(heroes[j], false, 0)
  {
    var canMove := true;
    var i := 0;
    while i < |heroes|
      invariant 0 <= i <= |heroes|
      invariant forall j :: 0 <= j < i ==> !Within(e.x, heroes[j].x, Block, false)
    {
      var hero := heroes[i];
      if Within(e.x, hero.x, Block, false) {
        FirstWithinIsFirst(e.x, HeroXs(heroes), Block, false);
        assert Blocker(e.x, HeroXs(heroes)) == i;
        canMove := false;
        e.AttackHero(hero, now);
        break;
      }
      i := i + 1;
    }
    if canMove {
      FirstWithinIsFirst(e.x, HeroXs(heroes), Block, false);
      e.Move();
    }
  }

  // ---------------------------------------------------------------------
  // Strongholds, energy and spawning

  class Base {
    var health: int
    const x: int

    constructor (x: int)
      ensures health == 100 && this.x == x
    {
      health, this.x := 100, x;
    }
  }

  /** This version's energy pool: no ceiling and no upgrades. */
  class ResourceManager {
    var energy: int

    constructor ()
      ensures energy == 100
    {
      energy := 100;
    }

    predicate CanAfford(cost: int)
      reads this`energy
    {
      energy >= cost
    }

    /** Spending is unchecked: energy drops by exactly `amount`. */
    method Spend(amount: int)
      modifies this`energy
      ensures energy == old(energy) - amount
    {
      energy := energy - amount;
    }

    /** One point per tick, without bound. */
    method Regenerate()
      modifies this`energy
      ensures energy == old(energy) + 1
    {
      energy := energy + 1;
    }
  }

  class HeroButton {
    const x: int
    const role: Role
    const cost: int
    const cooldown: real
    var lastPressed: real
    const rect: Buttons.Rect

    /** A 70 by 30 button, 50 above the bottom of the screen, ready from
        the start. */
    constructor (x: int, role: Role, cost: int, cooldown: real)
      ensures this.x == x && this.role == role && this.cost == cost && this.cooldown == cooldown
      ensures lastPressed == 0.0 && rect == Buttons.Rect(x, Screen.Height - 50, 70, 30)
    {
      this.x, this.role, this.cost, this.cooldown := x, role, cost, cooldown;
      lastPressed := 0.0;
      rect := Buttons.Rect(x, Screen.Height - 50, 70, 30);
    }

    predicate IsReady(now: real)
      reads this`lastPressed
    {
      Ready(now, lastPressed, cooldown)
    }

    /** A press. When the cooldown has elapsed and the energy covers the
        price, a new hero of the button's class joins the end of the list,
        the price is paid and the cooldown restarts; otherwise nothing
        happens. The game's lists stay free of repeats either way. */
    method TrySpawn(game: Game, now: real)
      requires game.Valid()
      modifies this`lastPressed, game`heroes, game.res`energy
      ensures game.Valid()
      ensures old(IsReady(now) && game.res.CanAfford(cost)) ==>
        && |game.heroes| == old(|game.heroes|) + 1
        && game.heroes[..old(|game.heroes|)] == old(game.heroes)
        && game.res.energy == old(game.res.energy) - cost
        && lastPressed == now
        && fresh(game.heroes[old(|game.heroes|)])
        && var h := game.heroes[old(|game.heroes|)];
           && h.role == role && h.Stock() && h.x == 50.0 && h.y == (Screen.Height / 2) as real
           && h.health == StartHealth(role) && h.alive && h.lastAttack == 0.0
      ensures !old(IsReady(now) && game.res.CanAfford(cost)) ==>
        unchanged(this) && unchanged(game) && unchanged(game.res)
    {
      if now - lastPressed >= cooldown && game.res.energy >= cost {
        var hero := new Hero(role);
        game.heroes := game.heroes + [hero];
        game.res.Spend(cost);
        lastPressed := now;
      }
    }
  }

  // ---------------------------------------------------------------------
  // The game

  /** How a tick ends: with the player's stronghold fallen, with the
      enemy's fallen, or with the match going on. */
  datatype Verdict = Lost | Won | Ongoing

  /** The match is decided by the strongholds' health, and a fallen
      player stronghold counts as a loss even when the enemy's has fallen
      too. */
  function Outcome(playerHealth: int, enemyHealth: int): (v: Verdict)
    ensures v == Lost <==> playerHealth <= 0
    ensures v == Won <==> playerHealth > 0 && enemyHealth <= 0
    ensures v == Ongoing <==> playerHealth > 0 && enemyHealth > 0
  {
    if playerHealth <= 0 then Lost
    else if enemyHealth <= 0 then Won
    else Ongoing
  }

  class Game {
    const playerBase: Base
    const enemyBase: Base
    var heroes: seq<Hero>
    var enemies: seq<Enemy>
    const res: ResourceManager
    const buttons: seq<HeroButton>
    var running: bool

    /** No unit is listed twice, every hero carries its class's stats,
        and the two strongholds are different objects. */
    predicate Valid()
      reads this`heroes, this`enemies
    {
      && Distinct(heroes) && Distinct(enemies) && playerBase != enemyBase
      && forall j :: 0 <= j < |heroes| ==> heroes[j].Stock()
    }

    /** Strongholds at both ends of the lane, no units, full energy, and
        one spawn button per hero class. */
    constructor ()
      ensures Valid() && heroes == [] && enemies == [] && running
      ensures playerBase.x == 10 && playerBase.health == 100
      ensures enemyBase.x == Screen.Width - 60 && enemyBase.health == 100
      ensures res.energy == 100
      ensures |buttons| == 5
      ensures buttons[0].x == 100 && buttons[0].role == Archer && buttons[0].cost == 10 && buttons[0].cooldown == 1.0
      ensures buttons[1].x == 180 && buttons[1].role == Warrior && buttons[1].cost == 15 && buttons[1].cooldown == 2.0
      ensures buttons[2].x == 260 && buttons[2].role == Mage && buttons[2].cost == 20 && buttons[2].cooldown == 3.0
      ensures buttons[3].x == 340 && buttons[3].role == Tank && buttons[3].cost == 20 && buttons[3].cooldown == 4.0
      ensures buttons[4].x == 420 && buttons[4].role == Healer && buttons[4].cost == 15 && buttons[4].cooldown == 2.0
    {
      playerBase := new Base(10);
      enemyBase := new Base(Screen.Width - 60);
      heroes, enemies := [], [];
      res := new ResourceManager();
      var b0 := new HeroButton(100, Archer, 10, 1.0);
      var b1 := new HeroButton(180, Warrior, 15, 2.0);
      var b2 := new HeroButton(260, Mage, 20, 3.0);
      var b3 := new HeroButton(340, Tank, 20, 4.0);
      var b4 := new HeroButton(420, Healer, 15, 2.0);
      buttons := [b0, b1, b2, b3, b4];
      running := true;
    }

    /** An enemy joins the end of the list when the roll of a hundred-sided
        die exceeds 98. */
    method SpawnEnemy(roll: int)
      requires 1 <= roll <= 100 && Valid()
      modifies this`enemies
      ensures Valid()
      ensures roll > 98 ==>
        && |enemies| == old(|enemies|) + 1 && enemies[..old(|enemies|)] == old(enemies)
        && fresh(enemies[old(|enemies|)])
        && var e := enemies[old(|enemies|)];
           && e.x == (Screen.Width - 50) as real && e.y == (Screen.Height / 2) as real
           && e.health == 30 && e.alive && e.lastAttack == 0.0
      ensures roll <= 98 ==> enemies == old(enemies)
    {
      if roll > 98 {
        var e := new Enemy();
        enemies := enemies + [e];
      }
    }

    /** Every hero acts in list order, a Healer on the heroes and the
        others on the enemies. Over the whole phase each hero moves at
        most one step and strikes or heals at most once, the heroes'
        health only rises, and the enemies stay where they are and only
        lose health and life. */
    method HeroesAct(now: real)
      requires Valid()
      modifies heroes`x, heroes`lastAttack, heroes`health, enemies`health, enemies`alive
      ensures forall j :: 0 <= j < |heroes| ==>
        && (heroes[j].x == old(heroes[j].x) || heroes[j].x == old(heroes[j].x) + heroes[j].speed)
        && (heroes[j].lastAttack == old(heroes[j].lastAttack) || heroes[j].lastAttack == now)
        && heroes[j].health >= old(heroes[j].health)
      ensures forall k :: 0 <= k < |enemies| ==>
        enemies[k].health <= old(enemies[k].health) && (enemies[k].alive ==> old(enemies[k].alive))
    {
      ghost var xs, lasts, hp := HeroXs(heroes), HeroLasts(heroes), HeroHealth(heroes);
      ghost var ehp, eup := EnemyHealth(enemies), EnemyAlive(enemies);
      for i := 0 to |heroes|
        invariant ActedAt(i, now, xs, lasts, hp, ehp, eup)
      {
        Act(i, now, xs, lasts, hp, ehp, eup);
      }
    }

    /** The heroes' phase after the first `i` heroes have acted, measured
        against the heroes' positions `xs`, attack times `lasts` and health
        `hp`, and the enemies' health `ehp` and life `eup`, at its start. */
    ghost predicate ActedAt(i: int, now: real, xs: seq<real>, lasts: seq<real>, hp: seq<int>, ehp: seq<int>, eup: seq<bool>)
      reads this`heroes, this`enemies, heroes`x, heroes`lastAttack, heroes`health, enemies`health, enemies`alive
    {
      && 0 <= i <= |heroes| == |xs| == |lasts| == |hp|
      && |enemies| == |ehp| == |eup|
      && (forall j :: 0 <= j < i ==>
        && (heroes[j].x == xs[j] || heroes[j].x == xs[j] + heroes[j].speed)
        && (heroes[j].lastAttack == lasts[j] || heroes[j].lastAttack == now))
      && (forall j :: i <= j < |heroes| ==> heroes[j].x == xs[j] && heroes[j].lastAttack == lasts[j])
      && (forall j :: 0 <= j < |heroes| ==> heroes[j].health >= hp[j])
      && (forall k :: 0 <= k < |enemies| ==> enemies[k].health <= ehp[k] && (enemies[k].alive ==> eup[k]))
    }

    /** The turn of the hero at index `i`: a Healer tends the heroes, any
        other hero takes on the enemies. */
    method Act(i: int, now: real, ghost xs: seq<real>, ghost lasts: seq<real>, ghost hp: seq<int>,
               ghost ehp: seq<int>, ghost eup: seq<bool>)
      requires Valid() && 0 <= i < |heroes| && ActedAt(i, now, xs, lasts, hp, ehp, eup)
      modifies heroes`x, heroes`lastAttack, heroes`health, enemies`health, enemies`alive
      ensures ActedAt(i + 1, now, xs, lasts, hp, ehp, eup)
    {
      var hero := heroes[i];
      if hero.role == Healer {
        hero.Heal(now, heroes);
      } else {
        hero.Update(now, enemies);
      }
    }

    /** Every listed enemy takes its turn, in list order: one blocked by a
        hero attacks the first hero blocking it and stays put, any other
        walks. Heroes do not move in this phase, so which hero blocks an
        enemy is decided by the positions at the start of the phase, and
        each hero loses one enemy attack for every blow it takes, dying
        once its health is gone. */
    method EnemiesAct(now: real)
      requires Valid()
      modifies enemies`x, enemies`lastAttack, heroes`health, heroes`alive
      ensures forall k :: 0 <= k < |enemies| ==>
        Stepped(enemies[k], old(Blocker(enemies[k].x, HeroXs(heroes))) >= 0, old(enemies[k].CanAttack(now)), now)
      ensures forall j :: 0 <= j < |heroes| ==>
        var n := old(Blows(Blockers(EnemyXs(enemies), HeroXs(heroes)), Readies(EnemyLasts(enemies), now), j));
        && heroes[j].health == old(heroes[j].health) - EnemyAttack * n
        && heroes[j].alive == (old(heroes[j].alive) && !(n > 0 && heroes[j].health <= 0))
    {
      ghost var exs, lasts, hxs := EnemyXs(enemies), EnemyLasts(enemies), HeroXs(heroes);
      ghost var bl, rd := Blockers(exs, hxs), Readies(lasts, now);
      ghost var hp, up := HeroHealth(heroes), HeroAlive(heroes);
      Turns(now, exs, lasts, bl, rd, hp, up);
      assert bl[..|enemies|] == bl && rd[..|enemies|] == rd;
      assert bl == old(Blockers(EnemyXs(enemies), HeroXs(heroes))) && rd == old(Readies(EnemyLasts(enemies), now));
      forall k | 0 <= k < |enemies|
        ensures Stepped(enemies[k], old(Blocker(enemies[k].x, HeroXs(heroes))) >= 0, old(enemies[k].CanAttack(now)), now)
      {
        assert bl[k] == old(Blocker(enemies[k].x, HeroXs(heroes))) && rd[k] == old(enemies[k].CanAttack(now));
      }
      forall j | 0 <= j < |heroes|
        ensures var n := old(Blows(Blockers(EnemyXs(enemies), HeroXs(heroes)), Readies(EnemyLasts(enemies), now), j));
          && heroes[j].health == old(heroes[j].health) - EnemyAttack * n
          && heroes[j].alive == (old(heroes[j].alive) && !(n > 0 && heroes[j].health <= 0))
      {
        assert hp[j] == old(heroes[j].health) && up[j] == old(heroes[j].alive);
      }
    }

    /** All the enemies' turns, in list order, from the start of the
        phase to its end. */
    method Turns(now: real, ghost exs: seq<real>, ghost lasts: seq<real>, ghost blockers: seq<int>,
                 ghost ready: seq<bool>, ghost hp: seq<int>, ghost up: seq<bool>)
      requires Distinct(heroes) && Distinct(enemies) && PhaseAt(0, now, exs, lasts, blockers, ready, hp, up)
      requires blockers == Blockers(exs, HeroXs(heroes)) && ready == Readies(lasts, now)
      modifies enemies`x, enemies`lastAttack, heroes`health, heroes`alive
      ensures PhaseAt(|enemies|, now, exs, lasts, blockers, ready, hp, up)
    {
      for k := 0 to |enemies|
        invariant PhaseAt(k, now, exs, lasts, blockers, ready, hp, up)
        invariant HeroXs(heroes) == old(HeroXs(heroes))
      {
        Turn(k, now, exs, lasts, blockers, ready, hp, up);
      }
    }

    /** The enemy phase after the first `k` turns, measured against the
        enemies' positions `exs` and attack times `lasts`, the heroes'
        health `hp` and life `up` at its start, which hero blocks each
        enemy (`blockers`) and which enemies were ready (`ready`). */
    ghost predicate PhaseAt(k: int, now: real, exs: seq<real>, lasts: seq<real>, blockers: seq<int>, ready: seq<bool>,
                            hp: seq<int>, up: seq<bool>)
      reads this`heroes, this`enemies, enemies`x, enemies`lastAttack, enemies`alive, heroes`health, heroes`alive
    {
      && 0 <= k <= |enemies| == |exs| == |lasts| == |blockers| == |ready|
      && |heroes| == |hp| == |up|
      && (forall m {:trigger enemies[m]} :: 0 <= m < k ==>
        && enemies[m].x == (if blockers[m] >= 0 || !enemies[m].alive then exs[m] else exs[m] + EnemySpeed)
        && enemies[m].lastAttack == (if blockers[m] >= 0 && ready[m] then now else lasts[m]))
      && (forall m {:trigger enemies[m]} :: k <= m < |enemies| ==> enemies[m].x == exs[m] && enemies[m].lastAttack == lasts[m])
      && (forall j {:trigger heroes[j]} :: 0 <= j < |heroes| ==>
        var n := Blows(blockers[..k], ready[..k], j);
        && heroes[j].health == hp[j] - EnemyAttack * n
        && heroes[j].alive == (up[j] && !(n > 0 && heroes[j].health <= 0)))
    }

    /** The turn of the enemy at index `k`. */
    method Turn(k: int, now: real, ghost exs: seq<real>, ghost lasts: seq<real>, ghost blockers: seq<int>,
                ghost ready: seq<bool>, ghost hp: seq<int>, ghost up: seq<bool>)
      requires Distinct(heroes) && Distinct(enemies) && 0 <= k < |enemies| && PhaseAt(k, now, exs, lasts, blockers, ready, hp, up)
      requires blockers[k] == Blocker(exs[k], HeroXs(heroes)) && ready[k] == Ready(now, lasts[k], EnemyCooldown)
      modifies enemies`x, enemies`lastAttack, heroes`health, heroes`alive
      ensures PhaseAt(k + 1, now, exs, lasts, blockers, ready, hp, up)
    {
      var e := enemies[k];
      assert e.x == exs[k] && e.lastAttack == lasts[k];
      BlowsNext(blockers, ready, k);
      Advance(e, now, heroes);
    }

    /** Every listed hero at or past the enemy's gate costs the enemy
        stronghold the gate damage and dies; the others are untouched. */
    method HeroesStorm()
      requires Distinct(heroes) && playerBase != enemyBase
      modifies enemyBase`health, heroes`alive
      ensures enemyBase.health == old(enemyBase.health) - GateDamage * HeroesAtGate(heroes)
      ensures forall j :: 0 <= j < |heroes| ==> heroes[j].alive == (old(heroes[j].alive) && heroes[j].x < EnemyGate)
      ensures forall k :: 0 <= k < |enemies| ==> enemies[k].alive == old(enemies[k].alive)
      ensures playerBase.health == old(playerBase.health)
    {
      ghost var xs, up := HeroXs(heroes), HeroAlive(heroes);
      for i := 0 to |heroes|
        invariant StormedAt(i, xs, old(enemyBase.health), up)
      {
        Storm(i, xs, old(enemyBase.health), up);
      }
      assert xs[..|heroes|] == xs && HeroXs(heroes) == xs;
      HeroesAtGateCount(heroes);
    }

    /** The storm after the first `i` heroes, measured against their
        positions `xs` and life `up` and the enemy stronghold's health
        `health` before it. */
    ghost predicate StormedAt(i: int, xs: seq<real>, health: int, up: seq<bool>)
      reads this`heroes, heroes`x, heroes`alive, enemyBase`health
    {
      && 0 <= i <= |heroes| == |xs| == |up|
      && enemyBase.health == health - GateDamage * CountPast(xs[..i], EnemyGate, true)
      && (forall j {:trigger heroes[j]} :: 0 <= j < |heroes| ==> heroes[j].x == xs[j])
      && (forall j {:trigger heroes[j]} :: 0 <= j < i ==> heroes[j].alive == (up[j] && xs[j] < EnemyGate))
      && (forall j {:trigger heroes[j]} :: i <= j < |heroes| ==> heroes[j].alive == up[j])
    }

    /** The hero at index `i` at the enemy's gate. */
    method Storm(i: int, ghost xs: seq<real>, ghost health: int, ghost up: seq<bool>)
      requires Distinct(heroes) && 0 <= i < |heroes| && StormedAt(i, xs, health, up)
      modifies enemyBase`health, heroes`alive
      ensures StormedAt(i + 1, xs, health, up)
    {
      CountPastNext(xs, i, EnemyGate, true);
      var hero := heroes[i];
      if hero.x >= EnemyGate {
        enemyBase.health := enemyBase.health - GateDamage;
        hero.alive := false;
      }
    }

    /** Every listed enemy at or before the player's gate costs the
        player's stronghold the gate damage and dies; the others are
        untouched. */
    method EnemiesBreach()
      requires Distinct(enemies) && playerBase != enemyBase
      modifies playerBase`health, enemies`alive
      ensures playerBase.health == old(playerBase.health) - GateDamage * EnemiesAtGate(enemies)
      ensures forall k :: 0 <= k < |enemies| ==> enemies[k].alive == (old(enemies[k].alive) && enemies[k].x > PlayerGate)
      ensures forall j :: 0 <= j < |heroes| ==> heroes[j].alive == old(heroes[j].alive)
      ensures enemyBase.health == old(enemyBase.health)
    {
      ghost var xs, up := EnemyXs(enemies), EnemyAlive(enemies);
      for i := 0 to |enemies|
        invariant BreachedAt(i, xs, old(playerBase.health), up)
      {
        Breach(i, xs, old(playerBase.health), up);
      }
      assert xs[..|enemies|] == xs && EnemyXs(enemies) == xs;
      EnemiesAtGateCount(enemies);
    }

    /** The breach after the first `i` enemies, measured against their
        positions `xs` and life `up` and the player's stronghold's health
        `health` before it. */
    ghost predicate BreachedAt(i: int, xs: seq<real>, health: int, up: seq<bool>)
      reads this`enemies, enemies`x, enemies`alive, playerBase`health
    {
      && 0 <= i <= |enemies| == |xs| == |up|
      && playerBase.health == health - GateDamage * CountPast(xs[..i], PlayerGate, false)
      && (forall k {:trigger enemies[k]} :: 0 <= k < |enemies| ==> enemies[k].x == xs[k])
      && (forall k {:trigger enemies[k]} :: 0 <= k < i ==> enemies[k].alive == (up[k] && xs[k] > PlayerGate))
      && (forall k {:trigger enemies[k]} :: i <= k < |enemies| ==> enemies[k].alive == up[k])
    }

    /** The enemy at index `i` at the player's gate. */
    method Breach(i: int, ghost xs: seq<real>, ghost health: int, ghost up: seq<bool>)
      requires Distinct(enemies) && 0 <= i < |enemies| && BreachedAt(i, xs, health, up)
      modifies playerBase`health, enemies`alive
      ensures BreachedAt(i + 1, xs, health, up)
    {
      CountPastNext(xs, i, PlayerGate, false);
      var enemy := enemies[i];
      if enemy.x <= PlayerGate {
        playerBase.health := playerBase.health - GateDamage;
        enemy.alive := false;
      }
    }

    /** The match ends when a stronghold has fallen, a loss taking
        precedence over a win. */
    method CheckOutcome() returns (verdict: Verdict)
      modifies this`running
      ensures verdict == Outcome(playerBase.health, enemyBase.health)
      ensures running == (old(running) && verdict == Ongoing)
    {
      if playerBase.health <= 0 {
        running := false;
        verdict := Lost;
      } else if enemyBase.health <= 0 {
        running := false;
        verdict := Won;
      } else {
        verdict := Ongoing;
      }
    }

    /** One tick: heroes act, dead enemies are dropped, enemies act, dead
        heroes are dropped, units at the far gates damage the strongholds
        and die there, energy regenerates and the match may end. After it
        the lists hold no newcomers and no living unit has been dropped,
        each stronghold has lost the gate damage once per unit standing at
        its gate, energy has risen by one and the verdict is read off the
        strongholds' health. Which units die at the gates is stated unit by
        unit by Settle. */
    method Update(now: real) returns (verdict: Verdict)
      requires Valid()
      modifies this`heroes, this`enemies, this`running
      modifies heroes`x, heroes`lastAttack, heroes`health, heroes`alive
      modifies enemies`x, enemies`lastAttack, enemies`health, enemies`alive
      modifies playerBase`health, enemyBase`health, res`energy
      ensures Valid()
      ensures forall j :: 0 <= j < |heroes| ==> heroes[j] in old(heroes)
      ensures forall k :: 0 <= k < |enemies| ==> enemies[k] in old(enemies)
      ensures forall h :: h in old(heroes) && h !in heroes ==> !h.alive
      ensures forall e :: e in old(enemies) && e !in enemies ==> !e.alive
      ensures playerBase.health <= old(playerBase.health) && enemyBase.health <= old(enemyBase.health)
      ensures enemyBase.health == old(enemyBase.health) - GateDamage * HeroesAtGate(heroes)
      ensures playerBase.health == old(playerBase.health) - GateDamage * EnemiesAtGate(enemies)
      ensures res.energy == old(res.energy) + 1
      ensures verdict == Outcome(playerBase.health, enemyBase.health)
      ensures running == (old(running) && verdict == Ongoing)
    {
      Fight(now);
      verdict := Settle();
    }

    /** The fighting half of a tick: heroes act, dead enemies are dropped,
        enemies act, dead heroes are dropped. Afterwards every listed unit
        is alive and was listed before, and every unit dropped is dead;
        every hero has moved at most one step and attacked, if at all, now;
        no enemy has gained health or come back to life. */
    method Fight(now: real)
      requires Valid()
      modifies this`heroes, this`enemies
      modifies heroes`x, heroes`lastAttack, heroes`health, heroes`alive
      modifies enemies`x, enemies`lastAttack, enemies`health, enemies`alive
      ensures Valid()
      ensures forall j :: 0 <= j < |heroes| ==> heroes[j] in old(heroes) && heroes[j].alive
      ensures forall k :: 0 <= k < |enemies| ==> enemies[k] in old(enemies) && enemies[k].alive
      ensures forall h :: h in old(heroes) && h !in heroes ==> !h.alive
      ensures forall e :: e in old(enemies) && e !in enemies ==> !e.alive
      ensures forall j :: 0 <= j < |old(heroes)| ==>
        && (old(heroes)[j].x == old(heroes[j].x) || old(heroes)[j].x == old(heroes[j].x) + old(heroes)[j].speed)
        && (old(heroes)[j].lastAttack == old(heroes[j].lastAttack) || old(heroes)[j].lastAttack == now)
      ensures forall k :: 0 <= k < |old(enemies)| ==>
        old(enemies)[k].health <= old(enemies[k].health) && (old(enemies)[k].alive ==> old(enemies[k].alive))
    {
      HeroesTurn(now);
      EnemiesTurn(now);
    }

    /** The heroes' half of the fighting: the heroes act, then dead
        enemies are dropped. */
    method HeroesTurn(now: real)
      requires Valid()
      modifies this`enemies
      modifies heroes`x, heroes`lastAttack, heroes`health, enemies`health, enemies`alive
      ensures Valid() && heroes == old(heroes)
      ensures forall k :: 0 <= k < |enemies| ==> enemies[k] in old(enemies) && enemies[k].alive
      ensures forall e :: e in old(enemies) && e !in enemies ==> !e.alive
      ensures forall j :: 0 <= j < |heroes| ==>
        && (heroes[j].x == old(heroes[j].x) || heroes[j].x == old(heroes[j].x) + heroes[j].speed)
        && (heroes[j].lastAttack == old(heroes[j].lastAttack) || heroes[j].lastAttack == now)
        && heroes[j].health >= old(heroes[j].health)
      ensures forall k :: 0 <= k < |old(enemies)| ==>
        old(enemies)[k].health <= old(enemies[k].health) && (old(enemies)[k].alive ==> old(enemies[k].alive))
    {
      HeroesAct(now);
      Cull();
    }

    /** The enemies' half of the fighting: the enemies act, then dead
        heroes are dropped. */
    method EnemiesTurn(now: real)
      requires Valid()
      modifies this`heroes
      modifies enemies`x, enemies`lastAttack, heroes`health, heroes`alive
      ensures Valid() && enemies == old(enemies)
      ensures forall j :: 0 <= j < |heroes| ==> heroes[j] in old(heroes) && heroes[j].alive
      ensures forall h :: h in old(heroes) && h !in heroes ==> !h.alive
      ensures forall k :: 0 <= k < |enemies| ==>
        Stepped(enemies[k], old(Blocker(enemies[k].x, HeroXs(heroes))) >= 0, old(enemies[k].CanAttack(now)), now)
      ensures forall j :: 0 <= j < |old(heroes)| ==>
        var n := old(Blows(Blockers(EnemyXs(enemies), HeroXs(heroes)), Readies(EnemyLasts(enemies), now), j));
        && old(heroes)[j].health == old(heroes[j].health) - EnemyAttack * n
        && old(heroes)[j].alive == (old(heroes[j].alive) && !(n > 0 && old(heroes)[j].health <= 0))
    {
      EnemiesAct(now);
      Bury();
    }

    /** The second half of a tick: the heroes at the enemy's gate and the
        enemies at the player's gate cost the strongholds the gate damage
        and die there, energy regenerates and the match may end. */
    method Settle() returns (verdict: Verdict)
      requires Distinct(heroes) && Distinct(enemies) && playerBase != enemyBase
      modifies heroes`alive, enemies`alive, playerBase`health, enemyBase`health, res`energy, this`running
      ensures playerBase.health <= old(playerBase.health) && enemyBase.health <= old(enemyBase.health)
      ensures enemyBase.health == old(enemyBase.health) - GateDamage * HeroesAtGate(heroes)
      ensures playerBase.health == old(playerBase.health) - GateDamage * EnemiesAtGate(enemies)
      ensures forall j :: 0 <= j < |heroes| ==> heroes[j].alive == (old(heroes[j].alive) && heroes[j].x < EnemyGate)
      ensures forall k :: 0 <= k < |enemies| ==> enemies[k].alive == (old(enemies[k].alive) && enemies[k].x > PlayerGate)
      ensures res.energy == old(res.energy) + 1
      ensures verdict == Outcome(playerBase.health, enemyBase.health)
      ensures running == (old(running) && verdict == Ongoing)
    {
      Gates();
      verdict := Conclude();
    }

    /** The end of a tick: energy regenerates and the match may end;
        no unit and no stronghold is touched. */
    method Conclude() returns (verdict: Verdict)
      modifies res`energy, this`running
      ensures playerBase.health == old(playerBase.health) && enemyBase.health == old(enemyBase.health)
      ensures res.energy == old(res.energy) + 1
      ensures verdict == Outcome(playerBase.health, enemyBase.health)
      ensures running == (old(running) && verdict == Ongoing)
    {
      res.Regenerate();
      verdict := CheckOutcome();
    }

    /** Both gates, heroes first: the enemy stronghold loses the gate
        damage per hero at or past its gate and the player's per enemy at
        or before the player's, and exactly those units die. */
    method Gates()
      requires Distinct(heroes) && Distinct(enemies) && playerBase != enemyBase
      modifies heroes`alive, enemies`alive, playerBase`health, enemyBase`health
      ensures enemyBase.health == old(enemyBase.health) - GateDamage * HeroesAtGate(heroes)
      ensures playerBase.health == old(playerBase.health) - GateDamage * EnemiesAtGate(enemies)
      ensures forall j :: 0 <= j < |heroes| ==> heroes[j].alive == (old(heroes[j].alive) && heroes[j].x < EnemyGate)
      ensures forall k :: 0 <= k < |enemies| ==> enemies[k].alive == (old(enemies[k].alive) && enemies[k].x > PlayerGate)
    {
      HeroesStorm();
      EnemiesBreach();
    }

    /** Dead enemies leave the list; the living keep their order. */
    method Cull()
      requires Valid()
      modifies this`enemies
      ensures Valid()
      ensures enemies == Survivors(old(enemies), EnemyAlive(old(enemies)))
      ensures forall e :: e in enemies <==> e in old(enemies) && e.alive
      ensures forall k :: 0 <= k < |enemies| ==> enemies[k] in old(enemies)
    {
      SurvivorsAreKept(enemies, EnemyAlive(enemies));
      enemies := Survivors(enemies, EnemyAlive(enemies));
    }

    /** Dead heroes leave the list; the living keep their order. */
    method Bury()
      requires Valid()
      modifies this`heroes
      ensures Valid()
      ensures heroes == Survivors(old(heroes), HeroAlive(old(heroes)))
      ensures forall h :: h in heroes <==> h in old(heroes) && h.alive
      ensures forall j :: 0 <= j < |heroes| ==> heroes[j] in old(heroes)
    {
      SurvivorsAreKept(heroes, HeroAlive(heroes));
      ghost var before := heroes;
      heroes := Survivors(heroes, HeroAlive(heroes));
      forall j | 0 <= j < |heroes|
        ensures heroes[j].Stock()
      {
        assert heroes[j] in Survivors(before, HeroAlive(before));
        var k :| 0 <= k < |before| && before[k] == heroes[j] && HeroAlive(before)[k];
      }
    }
  }

  /** An enemy's turn, as it ends: a blocked enemy stays put and restarts
      its cooldown if it was ready; an unblocked one walks if alive. */
  twostate predicate Stepped(e: Enemy, blocked: bool, ready: bool, now: real)
    reads e
  {
    && e.x == (if blocked then old(e.x) else if e.alive then old(e.x) + e.speed else old(e.x))
    && e.lastAttack == (if blocked && ready then now else old(e.lastAttack))
  }
}
