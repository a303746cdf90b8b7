/** The clickable widgets of the battle screen: a generic button that
    fires its callback on a click inside it, the energy-upgrade button with
    its status label, and the hero buttons that spawn a hero when their
    cooldown has elapsed and the energy covers the price. */
module Buttons {
  import opened Common
  import opened Combat
  import Heroes
  import Resources
  import Tracking
  import Screen

  /** A screen rectangle, hit-tested the way the game's graphics library
      does it: the left and top edges are inside, the right and bottom
      edges are not. */
  datatype Rect = Rect(x: int, y: int, width: int, height: int)
  {
    predicate Contains(px: int, py: int)
    {
      x <= px < x + width && y <= py < y + height
    }
  }

  /** The input events a button looks at. */
  datatype Event = MouseDown(px: int, py: int) | OtherEvent

  class Button {
    const rect: Rect
    var labelText: string
    const hasCallback: bool
    var enabled: bool

    constructor (rect: Rect, labelText: string, hasCallback: bool)
      ensures this.rect == rect && this.labelText == labelText && this.hasCallback == hasCallback && enabled
    {
      this.rect, this.labelText, this.hasCallback := rect, labelText, hasCallback;
      enabled := true;
    }

    /** Whether `ev` fires the button's callback. A disabled button, or
        one without a callback, ignores every event; otherwise only a
        mouse press inside the button fires it. */
    function HandleEvent(ev: Event): (fired: bool)
      reads this`enabled
      ensures !enabled || !hasCallback ==> !fired
      ensures fired ==> ev.MouseDown? && rect.Contains(ev.px, ev.py)
      ensures enabled && hasCallback && ev.MouseDown? && rect.Contains(ev.px, ev.py) ==> fired
    {
      if !enabled || !hasCallback then false
      else ev.MouseDown? && rect.Contains(ev.px, ev.py)
    }
  }

  // ---------------------------------------------------------------------
  // Decimal text, as the label shows a price

  function Digit(d: nat): (c: char)
    requires d < 10
    ensures '0' <= c <= '9' && c as int - '0' as int == d
  {
    ('0' as int + d) as char
  }

  /** The decimal numeral of `n`, without leading zeros. */
  function Decimal(n: nat): (s: string)
    ensures |s| >= 1
    ensures forall i :: 0 <= i < |s| ==> '0' <= s[i] <= '9'
    ensures n >= 10 ==> s[0] != '0'
  {
    if n < 10 then [Digit(n)] else Decimal(n / 10) + [Digit(n % 10)]
  }

  /** An integer as text: a minus sign before negative numbers. */
  function IntText(i: int): (s: string)
    ensures |s| >= 1
  {
    if i < 0 then "-" + Decimal(-i) else Decimal(i)
  }

  /** The value of a string of decimal digits. */
  function DigitsValue(s: string): int
  {
    if s == [] then 0 else 10 * DigitsValue(s[..|s| - 1]) + (s[|s| - 1] as int - '0' as int)
  }

  /** Reading a numeral back gives the number it was written from. */
  lemma {:induction false} DecimalRoundTrip(n: nat)
    ensures DigitsValue(Decimal(n)) == n
  {
    if n >= 10 {
      DecimalRoundTrip(n / 10);
      var s := Decimal(n);
      assert s[..|s| - 1] == Decimal(n / 10);
    }
  }

  // ---------------------------------------------------------------------
  // The upgrade button

  /** The label of the upgrade button: "Maxed" once five upgrades are
      bought; otherwise "Upgraded!" for a second after an upgrade, then
      "Not enough!" for a second after a refused click, and failing both
      the price of the next upgrade. */
  function LabelFor(clicks: int, now: real, lastUpgrade: real, lastFail: real): string
  {
    if clicks >= Resources.MaxClicks then "Maxed"
    else if now - lastUpgrade < 1.0 then "Upgraded!"
    else if now - lastFail < 1.0 then "Not enough!"
    else "Upgrade (" + IntText(Resources.UpgradeCost(clicks)) + ")"
  }

  /** The four labels are told apart by the rule that chose them, in
      precedence order. */
  lemma LabelPrecedence(clicks: int, now: real, lastUpgrade: real, lastFail: real)
    ensures LabelFor(clicks, now, lastUpgrade, lastFail) == "Maxed" <==> clicks >= Resources.MaxClicks
    ensures LabelFor(clicks, now, lastUpgrade, lastFail) == "Upgraded!" <==>
      clicks < Resources.MaxClicks && now - lastUpgrade < 1.0
    ensures LabelFor(clicks, now, lastUpgrade, lastFail) == "Not enough!" <==>
      clicks < Resources.MaxClicks && now - lastUpgrade >= 1.0 && now - lastFail < 1.0
  {
    var price := "Upgrade (" + IntText(Resources.UpgradeCost(clicks)) + ")";
    assert price[0] == 'U' && price[7] == ' ';
    assert "Upgraded!"[7] == 'd';
  }

  /** The price label reads back as the price of the next upgrade. */
  lemma PriceLabelShowsCost(clicks: int, now: real, lastUpgrade: real, lastFail: real)
    requires 0 <= clicks < Resources.MaxClicks && now - lastUpgrade >= 1.0 && now - lastFail >= 1.0
    ensures var l := LabelFor(clicks, now, lastUpgrade, lastFail);
      && |l| > 10 && l[..9] == "Upgrade (" && l[|l| - 1] == ')'
      && DigitsValue(l[9..|l| - 1]) == Resources.UpgradeCost(clicks)
  {
    var digits := Decimal(Resources.UpgradeCost(clicks));
    var price := "Upgrade (" + digits + ")";
    assert LabelFor(clicks, now, lastUpgrade, lastFail) == price;
    DecimalRoundTrip(Resources.UpgradeCost(clicks));
    assert price[9..|price| - 1] == digits;
  }

  class UpgradeButton {
    const rect: Rect
    var labelText: string
    var lastUpgradeTime: real
    var lastFailTime: real

    /** An upgrade button, 120 by 55 unless sized otherwise, with an empty
        label and no upgrade or refusal on record. */
    constructor (x: int, y: int, width: int := 120, height: int := 55)
      ensures rect == Rect(x, y, width, height) && labelText == ""
      ensures lastUpgradeTime == 0.0 && lastFailTime == 0.0
    {
      rect := Rect(x, y, width, height);
      labelText := "";
      lastUpgradeTime, lastFailTime := 0.0, 0.0;
    }

    method UpdateLabel(res: Resources.ResourceManager, now: real)
      modifies this`labelText
      ensures labelText == LabelFor(res.upgradeClicks, now, lastUpgradeTime, lastFailTime)
    {
      if res.upgradeClicks >= 5 {
        labelText := "Maxed";
      } else if now - lastUpgradeTime < 1.0 {
        labelText := "Upgraded!";
      } else if now - lastFailTime < 1.0 {
        labelText := "Not enough!";
      } else {
        var cost := 20 + 10 * res.upgradeClicks;
        labelText := "Upgrade (" + IntText(cost) + ")";
      }
    }

    /** A click at (`px`, `py`). Outside the button nothing happens. Inside,
        the upgrade goes through exactly when the economy would accept it,
        and the button stamps the upgrade; otherwise it stamps the refusal
        and the economy is untouched. */
    method TryClick(px: int, py: int, res: Resources.ResourceManager, now: real)
      modifies this`lastUpgradeTime, this`lastFailTime, res`energy, res`maxEnergy, res`regenRate,
        res`upgradeClicks, res`lastUpgradeDisplayTime
      ensures !rect.Contains(px, py) ==> unchanged(this) && unchanged(res)
      ensures rect.Contains(px, py) && Resources.CanUpgrade(old(res.State())) ==>
        && res.State() == Resources.Upgraded(old(res.State())) && res.lastUpgradeDisplayTime == now
        && lastUpgradeTime == now && lastFailTime == old(lastFailTime)
      ensures rect.Contains(px, py) && !Resources.CanUpgrade(old(res.State())) ==>
        && unchanged(res) && lastFailTime == now && lastUpgradeTime == old(lastUpgradeTime)
    {
      if rect.Contains(px, py) {
        var cost := 20 + 10 * res.upgradeClicks;
        if res.energy >= cost as real && res.upgradeClicks < 5 {
          res.UpgradeEnergy(now);
          lastUpgradeTime := now;
        } else {
          lastFailTime := now;
        }
      }
    }
  }

  // ---------------------------------------------------------------------
  // Hero buttons

  class HeroButton {
    const role: Role
    const cost: int
    const cooldown: real
    var last: real
    const rect: Rect
    const labelText: string

    /** A button for `role`, 80 by 55, 70 above the bottom of the screen,
        labelled with the role's name and ready from the start. */
    constructor (x: int, role: Role, cost: int, cooldown: real)
      ensures this.role == role && this.cost == cost && this.cooldown == cooldown && last == 0.0
      ensures rect == Rect(x, Screen.Height - 70, 80, 55) && labelText == Heroes.RoleName(role)
    {
      this.role, this.cost, this.cooldown := role, cost, cooldown;
      last := 0.0;
      rect := Rect(x, Screen.Height - 70, 80, 55);
      labelText := Heroes.RoleName(role);
    }

    predicate IsReady(now: real)
      reads this`last
    {
      Ready(now, last, cooldown)
    }

    /** How far the cooldown bar is filled: the elapsed share of the
        cooldown, clamped to [0, 1]. */
    function CooldownRatio(now: real): (r: real)
      requires cooldown != 0.0
      reads this`last
      ensures 0.0 <= r <= 1.0
      ensures 0.0 <= (now - last) / cooldown <= 1.0 ==> r == (now - last) / cooldown
      ensures (now - last) / cooldown < 0.0 ==> r == 0.0
      ensures (now - last) / cooldown > 1.0 ==> r == 1.0
    {
      Min(Max((now - last) / cooldown, 0.0), 1.0)
    }

    /** While the button cools down the bar is never full. */
    lemma CoolingBarNotFull(now: real)
      requires cooldown > 0.0 && !IsReady(now)
      ensures CooldownRatio(now) < 1.0
    {
      var q := (now - last) / cooldown;
      assert q * cooldown == now - last < cooldown;
    }

    /** A spawn attempt. When the cooldown has elapsed and the energy
        covers the price, a new hero of the button's role joins the end of
        the list and its spawn is counted, the price is paid and added to
        the energy spent, and the cooldown restarts; otherwise nothing
        happens. */
    method TrySpawn(now: real, heroes: seq<Character>, spriteHeight: int,
                    res: Resources.ResourceManager, tracker: Tracking.Tracker)
      returns (spawned: seq<Character>)
      requires tracker.Valid()
      modifies this`last, res`energy, tracker`heroSpawnCounter, tracker`energySpent
      ensures tracker.Valid()
      ensures old(IsReady(now) && res.CanAfford(cost as real)) ==>
        && |spawned| == |heroes| + 1 && spawned[..|heroes|] == heroes
        && fresh(spawned[|heroes|]) && Heroes.Recruit(spawned[|heroes|], role, spriteHeight)
        && res.energy == old(res.energy) - cost as real
        && tracker.energySpent == old(tracker.energySpent) + cost
        && tracker.heroSpawnCounter == Tracking.Bump(old(tracker.heroSpawnCounter), Heroes.RoleName(role))
        && last == now
      ensures !old(IsReady(now) && res.CanAfford(cost as real)) ==>
        spawned == heroes && unchanged(this) && unchanged(res) && unchanged(tracker)
    {
      spawned := heroes;
      if IsReady(now) && res.CanAfford(cost as real) {
        var hero := Heroes.NewHero(role, spriteHeight);
        tracker.LogHeroSpawnCount(Heroes.RoleName(role));
        spawned := heroes + [hero];
        res.Spend(cost as real);
        tracker.LogEnergySpent(cost);
        last := now;
      }
    }
  }

  /** From the starting 100 energy, an Archer button costing 20 spawns once; a second
      press a second later is refused by its three-second cooldown. */
  method SpawnThenCooldown(t0: real, heroes: seq<Character>)
    returns (count: int, energy: real, spent: int)
    requires t0 >= 3.0
    ensures count == |heroes| + 1 && energy == 80.0 && spent == 20
  {
    var res := new Resources.ResourceManager();
    var tracker := new Tracking.Tracker(t0);
    var b := new HeroButton(100, Archer, 20, 3.0);
    var after := b.TrySpawn(t0, heroes, 48, res, tracker);
    after := b.TrySpawn(t0 + 1.0, after, 48, res, tracker);
    count, energy, spent := |after|, res.energy, tracker.energySpent;
  }
}
