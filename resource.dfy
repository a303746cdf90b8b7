/** The player's energy economy: energy spent on spawning heroes,
    regenerating toward a ceiling, and a five-step upgrade that raises the
    ceiling and the regeneration rate at a linearly growing price. */
module Resources {

  /** The most upgrades the economy accepts. */
  const MaxClicks: nat := 5

  /** The price of the next upgrade after `clicks` upgrades. */
  function UpgradeCost(clicks: int): (r: int)
    ensures clicks >= 0 ==> r >= 20
  {
    20 + 10 * clicks
  }

  /** The economy's numbers, as a value. */
  datatype Economy = Economy(energy: real, maxEnergy: real, regenRate: real, upgradeClicks: int)

  const Initial: Economy := Economy(100.0, 100.0, 0.1, 0)

  /** One regeneration tick: below the ceiling, energy gains the rate and
      is clamped to the ceiling; at or above it nothing changes. */
  function Regenerated(e: Economy): (r: Economy)
    ensures r.maxEnergy == e.maxEnergy && r.regenRate == e.regenRate && r.upgradeClicks == e.upgradeClicks
    ensures e.energy >= e.maxEnergy ==> r == e
    ensures e.energy < e.maxEnergy ==> r.energy == if e.energy + e.regenRate > e.maxEnergy then e.maxEnergy else e.energy + e.regenRate
    ensures e.energy < e.maxEnergy && e.regenRate >= 0.0 ==> e.energy <= r.energy <= e.maxEnergy
  {
    if e.energy < e.maxEnergy then
      var gained := e.energy + e.regenRate;
      e.(energy := if gained > e.maxEnergy then e.maxEnergy else gained)
    else e
  }

  /** An upgrade goes through while fewer than five have been bought and
      the energy covers the price. */
  predicate CanUpgrade(e: Economy)
  {
    e.upgradeClicks < MaxClicks && e.energy >= UpgradeCost(e.upgradeClicks) as real
  }

  /** The economy after an upgrade attempt: on success the price is paid,
      the ceiling rises by 10, the rate by 0.01 and the count by one; on
      failure nothing changes. */
  function Upgraded(e: Economy): (r: Economy)
    ensures CanUpgrade(e) ==> r == Economy(e.energy - UpgradeCost(e.upgradeClicks) as real,
                                            e.maxEnergy + 10.0, e.regenRate + 0.01, e.upgradeClicks + 1)
    ensures !CanUpgrade(e) ==> r == e
    ensures e.energy >= 0.0 ==> r.energy >= 0.0
    ensures e.upgradeClicks <= MaxClicks ==> r.upgradeClicks <= MaxClicks
  {
    if CanUpgrade(e) then
      Economy(e.energy - UpgradeCost(e.upgradeClicks) as real, e.maxEnergy + 10.0,
              e.regenRate + 0.01, e.upgradeClicks + 1)
    else e
  }

  /** `n` upgrade attempts in a row. */
  function UpgradedTimes(e: Economy, n: nat): Economy
  {
    if n == 0 then e else Upgraded(UpgradedTimes(e, n - 1))
  }

  /** However often the player clicks, the counter stops at five and the
      ceiling at 50 above where it started, and energy never goes negative. */
  lemma {:induction false} UpgradesAreBounded(e: Economy, n: nat)
    requires 0 <= e.upgradeClicks <= MaxClicks && e.energy >= 0.0
    ensures 0 <= UpgradedTimes(e, n).upgradeClicks <= MaxClicks
    ensures UpgradedTimes(e, n).energy >= 0.0
    ensures UpgradedTimes(e, n).maxEnergy - e.maxEnergy ==
      10.0 * (UpgradedTimes(e, n).upgradeClicks - e.upgradeClicks) as real
  {
    if n > 0 {
      UpgradesAreBounded(e, n - 1);
    }
  }

  /** From the initial state no sequence of upgrade clicks lifts the
      energy ceiling beyond 150. */
  lemma CeilingNeverPast150(n: nat)
    ensures UpgradedTimes(Initial, n).maxEnergy <= 150.0
  {
    UpgradesAreBounded(Initial, n);
  }

  class ResourceManager {
    var energy: real
    var maxEnergy: real
    var regenRate: real
    var upgradeClicks: int
    var lastUpgradeDisplayTime: real

    function State(): Economy
      reads this
    {
      Economy(energy, maxEnergy, regenRate, upgradeClicks)
    }

    constructor ()
      ensures State() == Initial && lastUpgradeDisplayTime == 0.0
    {
      energy, maxEnergy, regenRate, upgradeClicks := 100.0, 100.0, 0.1, 0;
      lastUpgradeDisplayTime := 0.0;
    }

    predicate CanAfford(cost: real)
      reads this
    {
      energy >= cost
    }

    /** Spending is unchecked: energy drops by exactly `amount` and may go
        negative. */
    method Spend(amount: real)
      modifies this`energy
      ensures energy == old(energy) - amount
    {
      energy := energy - amount;
    }

    method Regenerate()
      modifies this`energy
      ensures State() == Regenerated(old(State()))
    {
      if energy < maxEnergy {
        energy := energy + regenRate;
        if energy > maxEnergy {
          energy := maxEnergy;
        }
      }
    }

    /** An upgrade attempt at time `now`; a successful one is stamped for
        the button's "Upgraded!" label. */
    method UpgradeEnergy(now: real)
      modifies this`energy, this`maxEnergy, this`regenRate, this`upgradeClicks, this`lastUpgradeDisplayTime
      ensures State() == Upgraded(old(State()))
      ensures lastUpgradeDisplayTime == if CanUpgrade(old(State())) then now else old(lastUpgradeDisplayTime)
    {
      var cost := 20 + 10 * upgradeClicks;
      if upgradeClicks < 5 && energy >= cost as real {
        energy := energy - cost as real;
        maxEnergy := maxEnergy + 10.0;
        regenRate := regenRate + 0.01;
        upgradeClicks := upgradeClicks + 1;
        lastUpgradeDisplayTime := now;
      }
    }
  }

  /** Spawning a 20-energy hero from a full store and regenerating once
      leaves 80.1 energy. */
  method SpendThenRegenerate() returns (energy: real)
    ensures energy == 80.1
  {
    var r := new ResourceManager();
    r.Spend(20.0);
    r.Regenerate();
    energy := r.energy;
  }

  /** With energy to spare, five upgrades go through and a sixth is
      refused on the count alone. */
  method SixthUpgradeRefused(now: real) returns (clicks: int, maxEnergy: real, energy: real)
    ensures clicks == 5 && maxEnergy == 150.0 && energy == 900.0
  {
    var r := new ResourceManager();
    r.Spend(-1000.0);  // a refill from outside the economy
    r.UpgradeEnergy(now);  // costs 20
    r.UpgradeEnergy(now);  // costs 30
    r.UpgradeEnergy(now);  // costs 40
    r.UpgradeEnergy(now);  // costs 50
    r.UpgradeEnergy(now);  // costs 60
    r.UpgradeEnergy(now);  // refused: five already bought
    clicks, maxEnergy, energy := r.upgradeClicks, r.maxEnergy, r.energy;
  }
}
