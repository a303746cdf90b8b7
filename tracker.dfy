/** Match analytics: counters the game bumps as things happen, folded
    every five seconds into a snapshot row and reset, with the rows
    buffered until they are flushed to the data file. */
module Tracking {
  import opened Common

  /** A counter keyed by name that reads 0 for names never counted, kept
      in first-counted order: an association list with distinct keys. */
  type Counter = seq<(string, int)>

  predicate DistinctKeys(c: Counter)
  {
    forall i, j :: 0 <= i < j < |c| ==> c[i].0 != c[j].0
  }

  /** Where `k` is counted: the first entry with that name, or -1. */
  function Find(c: Counter, k: string): (i: int)
    ensures -1 <= i < |c|
    ensures i >= 0 ==> c[i].0 == k && forall j :: 0 <= j < i ==> c[j].0 != k
    ensures i == -1 ==> forall j :: 0 <= j < |c| ==> c[j].0 != k
  {
    if c == [] then -1
    else if c[0].0 == k then 0
    else
      var i := Find(c[1..], k);
      if i < 0 then -1 else i + 1
  }

  /** The count for `k`, 0 when `k` was never counted. */
  function Count(c: Counter, k: string): (n: int)
    ensures (forall i :: 0 <= i < |c| ==> c[i].0 != k) ==> n == 0
    ensures DistinctKeys(c) ==> forall i :: 0 <= i < |c| && c[i].0 == k ==> n == c[i].1
  {
    var i := Find(c, k);
    if i < 0 then 0 else c[i].1
  }

  /** The counter after counting `k` once more: its entry rises by one, or
      a new entry with count 1 goes at the end; the names keep their order. */
  function Bump(c: Counter, k: string): (r: Counter)
    requires DistinctKeys(c)
    ensures DistinctKeys(r)
    ensures |r| == |c| || r == c + [(k, 1)]
    ensures forall i :: 0 <= i < |c| ==> r[i].0 == c[i].0
  {
    var i := Find(c, k);
    if i < 0 then c + [(k, 1)] else c[i := (k, c[i].1 + 1)]
  }

  /** Counting `k` raises the count of `k` by one and of no other name. */
  lemma BumpCounts(c: Counter, k: string, k': string)
    requires DistinctKeys(c)
    ensures Count(Bump(c, k), k') == Count(c, k') + if k' == k then 1 else 0
  {
    var r := Bump(c, k);
    var i := Find(c, k);
    var j := Find(c, k');
    if j >= 0 {
      assert r[j].0 == k';
      if k' != k {
        assert r[j] == c[j];
      }
    } else if k' == k {
      assert r[|c|] == (k, 1);
    } else {
      assert forall m :: 0 <= m < |r| ==> r[m].0 != k';
    }
  }

  /** The most counted entry: the first, in counting order, of those with
      the highest count, or ("None", 0) when nothing has been counted. */
  function MostCounted(c: Counter): (r: (string, int))
    ensures c == [] ==> r == ("None", 0)
    ensures c != [] ==> exists i :: 0 <= i < |c| && c[i] == r && forall j :: 0 <= j < i ==> c[j].1 < r.1
    ensures forall i :: 0 <= i < |c| ==> c[i].1 <= r.1
  {
    if c == [] then ("None", 0)
    else if |c| == 1 then c[0]
    else
      var m := MostCounted(c[..|c| - 1]);
      if c[|c| - 1].1 > m.1 then c[|c| - 1] else m
  }

  /** One snapshot row, in the data file's column order. */
  datatype Row = Row(
    timestamp: real,
    totalEnergyUsed: int,
    enemiesDefeated: int,
    heroesDefeated: int,
    mostSpawnedHero: string,
    mostSpawnedCount: int,
    buffUsed: int,
    aoeUsed: int,
    groupHealUsed: int)

  /** Seconds between two snapshots. */
  const SnapshotInterval: real := 5.0

  class Tracker {
    var snapshotData: seq<Row>
    var lastSnapshotTime: real
    var enemiesDefeated: int
    var heroSpawnCounter: Counter
    var abilityUsageCounter: Counter
    var energySpent: int
    var heroesDefeated: int

    predicate Valid()
      reads this
    {
      DistinctKeys(heroSpawnCounter) && DistinctKeys(abilityUsageCounter)
    }

    /** Every counter starts at zero and no row is buffered. */
    constructor (now: real)
      ensures Valid() && snapshotData == [] && lastSnapshotTime == now
      ensures enemiesDefeated == 0 && heroesDefeated == 0 && energySpent == 0
      ensures heroSpawnCounter == [] && abilityUsageCounter == []
    {
      snapshotData, lastSnapshotTime := [], now;
      enemiesDefeated, heroesDefeated, energySpent := 0, 0, 0;
      heroSpawnCounter, abilityUsageCounter := [], [];
    }

    method LogHeroDefeated()
      modifies this`heroesDefeated
      ensures heroesDefeated == old(heroesDefeated) + 1
    {
      heroesDefeated := heroesDefeated + 1;
    }

    method LogHeroSpawnCount(heroName: string)
      requires Valid()
      modifies this`heroSpawnCounter
      ensures Valid()
      ensures heroSpawnCounter == Bump(old(heroSpawnCounter), heroName)
    {
      heroSpawnCounter := Bump(heroSpawnCounter, heroName);
    }

    method LogAbilityUsed(skillName: string)
      requires Valid()
      modifies this`abilityUsageCounter
      ensures Valid()
      ensures abilityUsageCounter == Bump(old(abilityUsageCounter), skillName)
    {
      abilityUsageCounter := Bump(abilityUsageCounter, skillName);
    }

    method LogEnemyDefeated()
      modifies this`enemiesDefeated
      ensures enemiesDefeated == old(enemiesDefeated) + 1
    {
      enemiesDefeated := enemiesDefeated + 1;
    }

    method LogEnergySpent(amount: int)
      modifies this`energySpent
      ensures energySpent == old(energySpent) + amount
    {
      energySpent := energySpent + amount;
    }

    /** The row a snapshot taken now would record. */
    function CurrentRow(now: real): (r: Row)
      reads this
      ensures r.timestamp == now && r.totalEnergyUsed == energySpent
      ensures r.enemiesDefeated == enemiesDefeated && r.heroesDefeated == heroesDefeated
      ensures (r.mostSpawnedHero, r.mostSpawnedCount) == MostCounted(heroSpawnCounter)
      ensures r.buffUsed == Count(abilityUsageCounter, "Buff")
      ensures r.aoeUsed == Count(abilityUsageCounter, "AOE")
      ensures r.groupHealUsed == Count(abilityUsageCounter, "Group Heal")
    {
      var (hero, count) := MostCounted(heroSpawnCounter);
      Row(now, energySpent, enemiesDefeated, heroesDefeated, hero, count,
          Count(abilityUsageCounter, "Buff"), Count(abilityUsageCounter, "AOE"),
          Count(abilityUsageCounter, "Group Heal"))
    }

    /** At least five seconds after the last snapshot, buffers exactly one
        row and starts a new period: defeats, spawns and abilities are
        cleared, while energy spent keeps accumulating. Earlier, nothing
        happens. */
    method TrySnapshot(now: real)
      requires Valid()
      modifies this`snapshotData, this`heroesDefeated, this`enemiesDefeated,
        this`heroSpawnCounter, this`abilityUsageCounter, this`lastSnapshotTime
      ensures Valid()
      ensures !Ready(now, old(lastSnapshotTime), SnapshotInterval) ==> unchanged(this)
      ensures Ready(now, old(lastSnapshotTime), SnapshotInterval) ==>
        && snapshotData == old(snapshotData) + [old(CurrentRow(now))]
        && heroesDefeated == 0 && enemiesDefeated == 0
        && heroSpawnCounter == [] && abilityUsageCounter == []
        && lastSnapshotTime == now
      ensures energySpent == old(energySpent)
    {
      if now - lastSnapshotTime >= SnapshotInterval {
        snapshotData := snapshotData + [CurrentRow(now)];
        heroesDefeated := 0;
        enemiesDefeated := 0;
        heroSpawnCounter := [];
        abilityUsageCounter := [];
        lastSnapshotTime := now;
      }
    }

    /** Hands the buffered rows over for writing and empties the buffer;
        with nothing buffered nothing is written. */
    method AppendNewRows() returns (written: seq<Row>)
      modifies this`snapshotData
      ensures written == old(snapshotData) && snapshotData == []
    {
      if snapshotData == [] {
        return [];
      }
      written := snapshotData;
      snapshotData := [];
    }
  }

  /** Ties for most spawned go to the hero spawned first, abilities never
      used read 0, and the next period starts from zero. */
  method SnapshotScenario(t0: real)
    returns (row: Row, spawnsAfter: Counter, rowsBuffered: nat, energyAfter: int)
    ensures row.mostSpawnedHero == "Mage" && row.mostSpawnedCount == 1
    ensures row.aoeUsed == 1 && row.buffUsed == 0 && row.groupHealUsed == 0
    ensures row.totalEnergyUsed == 20 && row.timestamp == t0 + 5.0
    ensures spawnsAfter == [] && rowsBuffered == 1 && energyAfter == 20
  {
    var t := new Tracker(t0);
    t.LogHeroSpawnCount("Mage");
    t.LogHeroSpawnCount("Archer");
    assert t.heroSpawnCounter == [("Mage", 1), ("Archer", 1)];
    t.LogAbilityUsed("AOE");
    assert t.abilityUsageCounter == [("AOE", 1)];
    t.LogEnergySpent(20);
    assert MostCounted(t.heroSpawnCounter) == ("Mage", 1);
    assert Count(t.abilityUsageCounter, "AOE") == 1 && Count(t.abilityUsageCounter, "Buff") == 0;
    t.TrySnapshot(t0 + 4.0);
    t.TrySnapshot(t0 + 5.0);
    row := t.snapshotData[|t.snapshotData| - 1];
    spawnsAfter, rowsBuffered, energyAfter := t.heroSpawnCounter, |t.snapshotData|, t.energySpent;
  }
}
