/** The enemy side: a slow, sturdy walker that strikes the first hero it
    meets and otherwise keeps walking toward the player's stronghold. */
module Enemies {
  import opened Common
  import opened Combat
  import Screen

  /** How far, along the lane, from the centre of a hero's sprite an
      enemy still strikes it. */
  const Reach: real := 40.0

  /** How far right of a hero's position the centre of its sprite lies. */
  const HeroCentre: real := 20.0

  /** A new enemy, at the right edge of the lane with its sprite's foot on
      the lane line, walking left. `spriteHeight` is the height of its
      first "move" frame. */
  method NewEnemy(spriteHeight: int) returns (e: Character)
    ensures fresh(e) && fresh(e.attack) && e.attack != null
    ensures e.kind == EnemyUnit && e.base == null && e.skill == null
    ensures e.x == (Screen.Width - 50) as real && e.y == (Screen.Height / 2 + 50 - spriteHeight) as real
    ensures e.health == 200.0 && e.maxHealth == 200.0 && e.speed == -1.5
    ensures e.alive && !e.isDying && e.state == Moving
    ensures e.attack.dmg == 20.0 && e.attack.cooldown == 0.5 && e.attack.lastTime == 0.0
  {
    var a := new Attack(20.0, 0.5);
    var y := (Screen.Height / 2 + 50 - spriteHeight) as real;
    e := new Character(EnemyUnit, (Screen.Width - 50) as real, y, 200.0, -1.5, a, null, 0.0);
  }

  /** A hero the enemy `e` may strike: alive, not dying, and with its
      sprite centre within reach. */
  predicate Strikable(e: Character, h: Character)
    reads e`x, h`x, h`alive, h`isDying
  {
    h.alive && !h.isDying && Abs(e.x - (h.x + HeroCentre)) <= Reach
  }

  /** Where, in list order, the first hero `e` may strike stands; -1 when
      there is none. */
  function FirstStrikable(e: Character, heroes: seq<Character>): (i: int)
    reads e`x, heroes`x, heroes`alive, heroes`isDying
    ensures -1 <= i < |heroes|
  {
    if heroes == [] then -1
    else if Strikable(e, heroes[0]) then 0
    else
      var i := FirstStrikable(e, heroes[1..]);
      if i < 0 then -1 else i + 1
  }

  /** The enemy strikes the first strikable hero and no other: every hero
      before it is out of reach, dying or dead, and with none at all every
      hero is. */
  lemma {:induction false} FirstStrikableIsFirst(e: Character, heroes: seq<Character>)
    ensures FirstStrikable(e, heroes) >= 0 ==>
      && Strikable(e, heroes[FirstStrikable(e, heroes)])
      && forall j :: 0 <= j < FirstStrikable(e, heroes) ==> !Strikable(e, heroes[j])
    ensures FirstStrikable(e, heroes) == -1 ==> forall j :: 0 <= j < |heroes| ==> !Strikable(e, heroes[j])
  {
    if heroes != [] && !Strikable(e, heroes[0]) {
      FirstStrikableIsFirst(e, heroes[1..]);
      assert forall j :: 1 <= j < |heroes| ==> heroes[j] == heroes[1..][j - 1];
    }
  }

  /** The vitals of every hero other than `t` are as they were. */
  twostate predicate OthersUntouched(heroes: seq<Character>, t: Character?)
    reads heroes
  {
    forall h :: h in heroes && h != t ==>
      h.health == old(h.health) && h.alive == old(h.alive) && h.isDying == old(h.isDying)
  }

  /** One tick of an entity in the enemy list. The stronghold proxy
      stands in that list too, and its tick does nothing. A dying enemy
      does nothing either. Otherwise the enemy scans the heroes in list
      order: the first strikable one receives an attack attempt (which
      lands only when the attack is ready) and the enemy holds its ground;
      with none, it walks. */
  method Update(e: Character, now: real, heroes: seq<Character>)
    requires e.kind == BaseProxy || e.attack != null
    requires e !in heroes
    modifies e`x, e.Weapon()`lastTime, heroes`health, heroes`alive, heroes`isDying, Mirrors(heroes)`health
    ensures e.kind == BaseProxy ==> unchanged(e) && unchanged(heroes) && unchanged(Mirrors(heroes))
    ensures e.kind != BaseProxy && old(e.isDying) ==>
      && e.x == old(e.x) && e.attack.lastTime == old(e.attack.lastTime)
      && OthersUntouched(heroes, null) && unchanged(Mirrors(heroes))
    ensures e.kind != BaseProxy && !old(e.isDying) && old(FirstStrikable(e, heroes)) >= 0 ==>
      var t := heroes[old(FirstStrikable(e, heroes))];
      && e.x == old(e.x)
      && e.attack.lastTime == (if old(e.attack.CanAttack(now)) then now else old(e.attack.lastTime))
      && (old(e.attack.CanAttack(now)) ==> t.Damaged(e.attack.dmg))
      && (!old(e.attack.CanAttack(now)) ==> OthersUntouched(heroes, null) && unchanged(Mirrors(heroes)))
      && OthersUntouched(heroes, t) && unchanged(Mirrors(heroes) - t.Mirror())
    ensures e.kind != BaseProxy && !old(e.isDying) && old(FirstStrikable(e, heroes)) == -1 ==>
      && e.x == (if e.alive then old(e.x) + e.speed else old(e.x))
      && e.attack.lastTime == old(e.attack.lastTime)
      && OthersUntouched(heroes, null) && unchanged(Mirrors(heroes))
  {
    if e.kind == BaseProxy || e.isDying {
      return;
    }
    var i := 0;
    while i < |heroes|
      invariant 0 <= i <= |heroes|
      invariant forall j :: 0 <= j < i ==> !Strikable(e, heroes[j])
    {
      var h := heroes[i];
      if h.alive && !h.isDying && Abs(e.x - (h.x + HeroCentre)) <= Reach {
        FirstStrikableIsFirst(e, heroes);
        assert FirstStrikable(e, heroes) == i;
        assert h.Mirror() <= Mirrors(heroes);
        e.attack.AttackTarget(now, h);
        return;
      }
      i := i + 1;
    }
    FirstStrikableIsFirst(e, heroes);
    e.Move();
  }

  /** The enemy stronghold's proxy, ticked with a living hero right at
      it: the proxy does not strike and does not move, and the hero is
      untouched. */
  method ProxyStandsStill(now: real) returns (x: real, health: real, heroHealth: real)
    ensures x == 720.0 && health == 100.0 && heroHealth == 100.0
  {
    var b := new Stronghold.Base(740.0);
    var p := new Character.ProxyFor(b);
    var h := new Character(HeroUnit(Warrior), 700.0, 0.0, 100.0, 2.0, null, null, 40.0);
    Update(p, now, [h]);
    x, health, heroHealth := p.x, p.health, h.health;
  }

  /** Two heroes in reach, the first already dying: the enemy passes over
      the dying one and strikes the second, and does not move. */
  method SkipsTheDying(now: real) returns (firstHealth: real, secondHealth: real, x: real)
    requires now >= 0.5
    ensures firstHealth == 10.0 && secondHealth == 80.0 && x == 750.0
  {
    var e := NewEnemy(0);
    var dying := new Character(HeroUnit(Warrior), 730.0, 0.0, 10.0, 2.0, null, null, 40.0);
    dying.isDying := true;
    var standing := new Character(HeroUnit(Archer), 725.0, 0.0, 100.0, 2.0, null, null, 500.0);
    assert !Strikable(e, dying) && Strikable(e, standing);
    assert FirstStrikable(e, [dying, standing]) == 1 by {
      assert [dying, standing][1..] == [standing];
    }
    Update(e, now, [dying, standing]);
    firstHealth, secondHealth, x := dying.health, standing.health, e.x;
  }
}
