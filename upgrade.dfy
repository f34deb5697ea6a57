/**
 * A purchasable upgrade of the clicker game: a named record with a base
 * cost, a per-level cost growth factor, a kind and a level. Its price grows
 * exponentially with the level. Java doubles are modelled as reals.
 */
module Upgrades {

  /** The three kinds of upgrade. */
  datatype UpgradeType = Click | Auto | Multiplier

  /** x raised to a natural power. */
  function Pow(x: real, n: nat): real
  {
    if n == 0 then 1.0 else x * Pow(x, n - 1)
  }

  /** Price of the next level: baseCost * costMultiplier^level. */
  function Cost(baseCost: real, costMultiplier: real, level: nat): real
  {
    baseCost * Pow(costMultiplier, level)
  }

  /** The value held by an upgrade object at one moment. */
  datatype UpgradeView = UpgradeView(
    name: string,
    baseCost: real,
    costMultiplier: real,
    kind: UpgradeType,
    level: nat,
    description: string)
  {
    function CurrentCost(): real
    {
      Cost(baseCost, costMultiplier, level)
    }
  }

  lemma {:induction false} PowPositive(x: real, n: nat)
    requires x > 0.0
    ensures Pow(x, n) > 0.0
  {
    if n > 0 {
      PowPositive(x, n - 1);
      var p := Pow(x, n - 1);
      assert x * p > 0.0 by {
        assert x > 0.0 && p > 0.0;
      }
    }
  }

  /** One more level multiplies the price by the growth factor. */
  lemma CostNextLevel(baseCost: real, costMultiplier: real, level: nat)
    ensures Cost(baseCost, costMultiplier, level + 1)
         == Cost(baseCost, costMultiplier, level) * costMultiplier
  {
    var p := Pow(costMultiplier, level);
    assert Pow(costMultiplier, level + 1) == costMultiplier * p;
    assert baseCost * (costMultiplier * p) == (baseCost * p) * costMultiplier;
  }

  /** With a positive base cost and a growth factor above one, a higher level always costs more. */
  lemma {:induction false} CostStrictlyIncreasing(baseCost: real, costMultiplier: real, i: nat, j: nat)
    requires baseCost > 0.0 && costMultiplier > 1.0 && i < j
    ensures Cost(baseCost, costMultiplier, i) < Cost(baseCost, costMultiplier, j)
  {
    var c := Cost(baseCost, costMultiplier, j - 1);
    CostNextLevel(baseCost, costMultiplier, j - 1);
    PowPositive(costMultiplier, j - 1);
    assert c > 0.0 by {
      assert c == baseCost * Pow(costMultiplier, j - 1);
    }
    var d := Cost(baseCost, costMultiplier, j);
    assert d == c * costMultiplier;
    assert d - c == c * (costMultiplier - 1.0);
    assert c * (costMultiplier - 1.0) > 0.0;
    if i < j - 1 {
      CostStrictlyIncreasing(baseCost, costMultiplier, i, j - 1);
    }
  }

  /** An upgrade object; buying it raises its level in place. */
  class Upgrade {
    var name: string
    var baseCost: real
    var costMultiplier: real
    var kind: UpgradeType
    var level: nat
    var description: string

    /** The current value of this object. */
    function View(): UpgradeView
      reads this
    {
      UpgradeView(name, baseCost, costMultiplier, kind, level, description)
    }

    /** A new upgrade starts at level 0, so its price is its base cost. */
    constructor (name: string, baseCost: real, costMultiplier: real, kind: UpgradeType, description: string)
      ensures View() == UpgradeView(name, baseCost, costMultiplier, kind, 0, description)
      ensures View().CurrentCost() == baseCost
    {
      this.name := name;
      this.baseCost := baseCost;
      this.costMultiplier := costMultiplier;
      this.kind := kind;
      this.level := 0;
      this.description := description;
    }

    method GetName() returns (r: string)
      ensures r == name
    {
      r := name;
    }

    method GetBaseCost() returns (r: real)
      ensures r == baseCost
    {
      r := baseCost;
    }

    /** The price of the next level, exponential in the level. */
    method GetCurrentCost() returns (cost: real)
      ensures cost == baseCost * Pow(costMultiplier, level)
      ensures level == 0 ==> cost == baseCost
    {
      cost := baseCost * Pow(costMultiplier, level);
    }

    method GetCostMultiplier() returns (r: real)
      ensures r == costMultiplier
    {
      r := costMultiplier;
    }

    method GetType() returns (r: UpgradeType)
      ensures r == kind
    {
      r := kind;
    }

    method GetLevel() returns (r: nat)
      ensures r == level
    {
      r := level;
    }

    method GetDescription() returns (r: string)
      ensures r == description
    {
      r := description;
    }

    /** Raises the level by one; the next price is the old one times the growth factor. */
    method LevelUp()
      modifies this`level
      ensures View() == old(View()).(level := old(level) + 1)
      ensures View().CurrentCost() == old(View().CurrentCost()) * costMultiplier
      ensures baseCost > 0.0 && costMultiplier > 1.0 ==> View().CurrentCost() > old(View().CurrentCost())
    {
      CostNextLevel(baseCost, costMultiplier, level);
      if baseCost > 0.0 && costMultiplier > 1.0 {
        CostStrictlyIncreasing(baseCost, costMultiplier, level, level + 1);
      }
      level := level + 1;
    }

    /** Sets the level back to 0 whatever it was, which restores the base price. */
    method ResetLevel()
      modifies this`level
      ensures View() == old(View()).(level := 0)
      ensures View().CurrentCost() == baseCost
    {
      level := 0;
    }
  }
}
