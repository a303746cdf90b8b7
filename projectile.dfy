/** A ranged payload flying in a straight line toward a point fixed at
    launch, firing a one-shot callback on arrival or expiring past its
    range. */
module Projectiles {
  import opened Common
  import opened Combat

  /** What a projectile does on arrival: nothing, or the mage's area blast
      against the one target captured at launch, centred on wherever the
      caster stands at the moment of impact. */
  datatype Callback =
    | NoCallback
    | AreaStrike(user: Character, target: Character, radius: real, damage: real)

  /** Arrival is tested per axis (within 5 on x and within 5 on y), not
      within a radius. */
  predicate Arrived(x: real, y: real, targetX: real, targetY: real)
  {
    Abs(x - targetX) < 5.0 && Abs(y - targetY) < 5.0
  }

  /** The range cut-off `sqrt(dx² + dy²) >= maxRange`, stated without the
      square root: a length is never negative, so any maxRange <= 0 is
      always reached. */
  predicate BeyondRange(dx: real, dy: real, maxRange: real)
  {
    maxRange <= 0.0 || dx * dx + dy * dy >= maxRange * maxRange
  }

  /** The square-root-free range test agrees with the Euclidean one. */
  lemma RangeTestIsExact(dx: real, dy: real, maxRange: real, dist: real)
    requires dist >= 0.0 && dist * dist == dx * dx + dy * dy
    ensures BeyondRange(dx, dy, maxRange) <==> dist >= maxRange
  {
    if maxRange > 0.0 {
      if dist >= maxRange {
        calc {
          dx * dx + dy * dy;
        ==
          dist * dist;
        >=
          maxRange * dist;
        >=
          maxRange * maxRange;
        }
      } else {
        calc {
          dx * dx + dy * dy;
        ==
          dist * dist;
        <=
          dist * maxRange;
        <
          maxRange * maxRange;
        }
      }
    }
  }

  /** The direction of flight: the offset to the target divided by its
      Euclidean length has length one, and the length is zero exactly when
      the target point is the launch point. */
  lemma UnitDirection(dx: real, dy: real, dist: real)
    requires dist >= 0.0 && dist * dist == dx * dx + dy * dy
    ensures dist == 0.0 <==> dx == 0.0 && dy == 0.0
    ensures dist != 0.0 ==> (dx / dist) * (dx / dist) + (dy / dist) * (dy / dist) == 1.0
  {
    if dist == 0.0 && dx != 0.0 {
      calc {
        0.0;
      ==
        dist * dist;
      ==
        dx * dx + dy * dy;
      >=
        dx * dx;
      >
        0.0;
      }
    }
    if dist == 0.0 && dy != 0.0 {
      calc {
        0.0;
      ==
        dist * dist;
      ==
        dx * dx + dy * dy;
      >=
        dy * dy;
      >
        0.0;
      }
    }
    if dist != 0.0 {
      if dx == 0.0 && dy == 0.0 {
        calc {
          0.0;
        ==
          dx * dx + dy * dy;
        ==
          dist * dist;
        >
          0.0;
        }
      }
      calc {
        (dx / dist) * (dx / dist) + (dy / dist) * (dy / dist);
      ==
        (dx * dx + dy * dy) / (dist * dist);
      ==
        (dist * dist) / (dist * dist);
      ==
        1.0;
      }
    }
  }

  class Projectile {
    var x: real
    var y: real
    const startX: real
    const startY: real
    const targetX: real
    const targetY: real
    const speed: real
    const damage: real
    const onHit: Callback
    const maxRange: real
    var alive: bool
    const dirX: real
    const dirY: real

    /** `dist` is the Euclidean distance from the launch point to the
        target point, which the game obtains from a square root. */
    constructor (x: real, y: real, targetX: real, targetY: real, speed: real, damage: real,
                 onHit: Callback, maxRange: real, dist: real)
      requires dist >= 0.0 && dist * dist == (targetX - x) * (targetX - x) + (targetY - y) * (targetY - y)
      ensures this.x == x && this.y == y && startX == x && startY == y
      ensures this.targetX == targetX && this.targetY == targetY && this.speed == speed
      ensures this.damage == damage && this.onHit == onHit && this.maxRange == maxRange && alive
      ensures x == targetX && y == targetY ==> dirX == 0.0 && dirY == 0.0
      ensures !(x == targetX && y == targetY) ==>
        dirX * dirX + dirY * dirY == 1.0 && dirX * dist == targetX - x && dirY * dist == targetY - y
    {
      this.x, this.y, startX, startY := x, y, x, y;
      this.targetX, this.targetY, this.speed, this.damage := targetX, targetY, speed, damage;
      this.onHit, this.maxRange, alive := onHit, maxRange, true;
      var dx, dy := targetX - x, targetY - y;
      UnitDirection(dx, dy, dist);
      if dist != 0.0 {
        dirX, dirY := dx / dist, dy / dist;
      } else {
        dirX, dirY := 0.0, 0.0;
      }
    }

    /** The target a callback may damage, as a frame. */
    function Victims(): set<Character>
    {
      if onHit.AreaStrike? then {onHit.target} else {}
    }

    /** One step of flight. `hit` tells whether the target point was reached
        and so whether the callback ran; reaching it or flying past the
        range ends the projectile, and nothing brings it back. */
    method Update() returns (hit: bool)
      modifies this`x, this`y, this`alive, Victims()`health, Victims()`alive
      ensures x == old(x) + dirX * speed && y == old(y) + dirY * speed
      ensures hit == Arrived(x, y, targetX, targetY)
      ensures alive == (old(alive) && !hit && !BeyondRange(x - startX, y - startY, maxRange))
      ensures hit && onHit.AreaStrike? ==>
        AreaDamaged(onHit.radius, onHit.damage, onHit.user.x, [onHit.target])
      ensures !hit ==> unchanged(Victims())
    {
      x := x + dirX * speed;
      y := y + dirY * speed;
      hit := Arrived(x, y, targetX, targetY);
      if hit {
        match onHit {
          case NoCallback =>
          case AreaStrike(user, target, radius, damage) =>
            ApplyAreaDamage(radius, damage, user.x, [target]);
        }
        alive := false;
      }
      if BeyondRange(x - startX, y - startY, maxRange) {
        alive := false;
      }
    }
  }

  /** A projectile launched at its own position never moves, fires its
      callback on the first update and ends; it fires again on a second
      update, since the update does not look at `alive`. */
  method LaunchedOnTarget(x: real, y: real, speed: real, damage: real, maxRange: real)
    returns (firstHit: bool, secondHit: bool, alive: bool, moved: bool)
    ensures firstHit && secondHit && !alive && !moved
  {
    var p := new Projectile(x, y, x, y, speed, damage, NoCallback, maxRange, 0.0);
    firstHit := p.Update();
    secondHit := p.Update();
    alive, moved := p.alive, p.x != x || p.y != y;
  }

  /** A projectile that has not reached its target point but has flown
      its range expires without firing its callback. */
  method ExpiresWithoutHit(speed: real, damage: real)
    returns (hit: bool, alive: bool)
    requires 300.0 <= speed <= 900.0
    ensures !hit && !alive
  {
    var p := new Projectile(0.0, 0.0, 1000.0, 0.0, speed, damage, NoCallback, 300.0, 1000.0);
    hit := p.Update();
    alive := p.alive;
  }
}
