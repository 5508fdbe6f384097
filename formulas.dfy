/** The closed-form thresholds and prices: XP per level, storage cap, upgrade costs. */
module Formulas {

  /** b raised to a natural power, exactly. */
  function Pow(b: real, n: nat): (r: real)
    ensures b >= 1.0 ==> r >= 1.0
  {
    if n == 0 then 1.0
    else
      var p := Pow(b, n - 1);
      assert b >= 1.0 ==> b * p >= p;
      b * p
  }

  lemma PowGrowth(b: real, n: nat)
    requires b >= 1.0
    ensures Pow(b, n + 1) == b * Pow(b, n) >= Pow(b, n)
  {
  }

  /** XP needed to go from `level` to the next one: floor(1000 * L * 1.5^(L-1)).
      At level 0 the product is 0, whatever the power of 1.5. */
  function XPToNextLevel(level: nat): (r: int)
    ensures level == 0 ==> r == 0
    ensures level >= 1 ==> r >= 1000 * level
  {
    if level == 0 then 0
    else
      var p := Pow(1.5, level - 1);
      assert (1000 * level) as real * p >= (1000 * level) as real;
      ((1000 * level) as real * p).Floor
  }

  /** A gap of at least one between two reals separates their floors. */
  lemma FloorSeparated(x: real, y: real)
    requires x + 1.0 <= y
    ensures x.Floor < y.Floor
  {
  }

  lemma ThresholdGap(level: nat, p: real)
    requires level >= 1 && p >= 1.0
    ensures (1000 * level) as real * p + 1.0 <= (1000 * (level + 1)) as real * (1.5 * p)
  {
    var l := level as real;
    assert (1000 * level) as real * p == 1000.0 * (l * p);
    assert (1000 * (level + 1)) as real * (1.5 * p) == 1500.0 * (l * p) + 1500.0 * p;
  }

  /** The threshold strictly increases with the level. */
  lemma XPToNextLevelIncreasing(level: nat)
    ensures XPToNextLevel(level) < XPToNextLevel(level + 1)
  {
    if level >= 1 {
      var p := Pow(1.5, level - 1);
      var q := Pow(1.5, level);
      assert q == 1.5 * p;
      ThresholdGap(level, p);
      var x := (1000 * level) as real * p;
      var y := (1000 * (level + 1)) as real * q;
      assert XPToNextLevel(level) == x.Floor;
      assert XPToNextLevel(level + 1) == y.Floor;
      FloorSeparated(x, y);
    }
  }

  lemma XPToNextLevelMonotone(a: nat, b: nat)
    requires a <= b
    ensures XPToNextLevel(a) <= XPToNextLevel(b)
    decreases b - a
  {
    if a < b {
      XPToNextLevelIncreasing(a);
      XPToNextLevelMonotone(a + 1, b);
    }
  }

  /** Resource cap for a storage level. */
  function MaxStorage(level: nat): (r: real)
    ensures r >= 0.0
  {
    (5000 * level) as real
  }

  /** Each storage level adds 5000 units of room. */
  lemma MaxStorageIncreasing(level: nat)
    ensures MaxStorage(level + 1) == MaxStorage(level) + 5000.0
    ensures MaxStorage(level) < MaxStorage(level + 1)
  {
  }

  /** Price of the next storage level: floor(2500 * 1.8^(L-1)); at level 0 that is floor(2500 / 1.8). */
  function StorageUpgradeCost(level: nat): (r: int)
    ensures level == 0 ==> r == 1388
    ensures level >= 1 ==> r >= 2500
    ensures level == 1 ==> r == 2500
  {
    if level == 0 then (2500.0 / 1.8).Floor
    else
      var p := Pow(1.8, level - 1);
      assert 2500.0 * p >= 2500.0;
      (2500.0 * p).Floor
  }

  /** Price of the next auto-miner: floor(500 * 1.5^L). */
  function AutoMinerCost(level: nat): (r: int)
    ensures r >= 500
  {
    var p := Pow(1.5, level);
    assert 500.0 * p >= 500.0;
    (500.0 * p).Floor
  }

  lemma StorageUpgradeCostIncreasing(level: nat)
    ensures StorageUpgradeCost(level) < StorageUpgradeCost(level + 1)
  {
    if level >= 1 {
      var p := Pow(1.8, level - 1);
      PowGrowth(1.8, level - 1);
      FloorSeparated(2500.0 * p, 2500.0 * Pow(1.8, level));
    }
  }

  lemma AutoMinerCostIncreasing(level: nat)
    ensures AutoMinerCost(level) < AutoMinerCost(level + 1)
  {
    var p := Pow(1.5, level);
    PowGrowth(1.5, level);
    FloorSeparated(500.0 * p, 500.0 * Pow(1.5, level + 1));
  }

  /** The first values of each formula. */
  lemma ThirdThreshold()
    ensures XPToNextLevel(3) == 6750
  {
    assert Pow(1.5, 2) == 2.25;
  }

  lemma ThirdAutoMinerCost()
    ensures AutoMinerCost(2) == 1125
  {
    assert Pow(1.5, 2) == 2.25;
  }
}
