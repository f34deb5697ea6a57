/**
 * The game state held by the main screen: six numeric fields and a list
 * of upgrade objects, all updated in place by taps, ticks, purchases,
 * prestige and reset. Every method is proved to move the snapshot State()
 * exactly as the corresponding function of GameRules says.
 */
module Clicker {
  import opened Upgrades
  import GameRules

  /** The values of a list of upgrade objects, in order. */
  ghost function Views(us: seq<Upgrade>): (vs: seq<UpgradeView>)
    reads us
    ensures |vs| == |us|
    ensures forall i {:trigger vs[i]} :: 0 <= i < |us| ==> vs[i] == us[i].View()
  {
    seq(|us|, i requires 0 <= i < |us| reads us => us[i].View())
  }

  /** Six distinct objects in a list: the list shows their six values and holds no object twice. */
  lemma ListOfSix(a: Upgrade, b: Upgrade, c: Upgrade, d: Upgrade, e: Upgrade, f: Upgrade)
    requires a != b && a != c && a != d && a != e && a != f
    requires b != c && b != d && b != e && b != f
    requires c != d && c != e && c != f
    requires d != e && d != f
    requires e != f
    ensures Views([a, b, c, d, e, f]) == [a.View(), b.View(), c.View(), d.View(), e.View(), f.View()]
    ensures var us := [a, b, c, d, e, f];
      forall i, j :: 0 <= i < j < |us| ==> us[i] != us[j]
    ensures var us := [a, b, c, d, e, f];
      forall i :: 0 <= i < |us| ==> us[i] in {a, b, c, d, e, f}
  {
  }

  /** When every object of a list but the k-th still shows its value in vs, the list shows vs with the k-th value replaced. */
  lemma ViewsAfterUpdate(us: seq<Upgrade>, vs: seq<UpgradeView>, k: nat)
    requires |vs| == |us| && k < |us|
    requires forall j :: 0 <= j < |us| && j != k ==> us[j].View() == vs[j]
    ensures Views(us) == vs[k := us[k].View()]
  {
  }

  /** When every object of a list still shows its value in vs, the list shows vs. */
  lemma ViewsUnchanged(us: seq<Upgrade>, vs: seq<UpgradeView>)
    requires |vs| == |us|
    requires forall j :: 0 <= j < |us| ==> us[j].View() == vs[j]
    ensures Views(us) == vs
  {
  }

  class Game {
    var points: real
    var pointsPerClick: real
    var pointsPerSecond: real
    var prestigeLevel: nat
    var prestigeMultiplier: real
    var prestigeRequirement: real
    var upgrades: seq<Upgrade>

    /** The upgrade list never holds the same object twice. */
    ghost predicate Valid()
      reads this
    {
      forall i, j :: 0 <= i < j < |upgrades| ==> upgrades[i] != upgrades[j]
    }

    /** The snapshot of the whole game. */
    ghost function State(): GameRules.GameState
      reads this, upgrades
    {
      GameRules.GameState(points, pointsPerClick, pointsPerSecond,
                          prestigeLevel, prestigeMultiplier, prestigeRequirement,
                          Views(upgrades))
    }

    /** A new game: the field defaults and the default catalog. */
    constructor ()
      ensures Valid() && State() == GameRules.Initial()
      ensures forall i :: 0 <= i < |upgrades| ==> fresh(upgrades[i])
    {
      points := 0.0;
      pointsPerClick := 1.0;
      pointsPerSecond := 0.0;
      prestigeLevel := 0;
      prestigeMultiplier := 1.0;
      prestigeRequirement := 5000.0;
      upgrades := [];
      new;
      InitUpgrades();
    }

    /** Rebuilds the upgrade list: six new objects, in catalog order, all at level 0. */
    method InitUpgrades()
      modifies this`upgrades
      ensures Valid() && Views(upgrades) == GameRules.DefaultCatalog()
      ensures forall i :: 0 <= i < |upgrades| ==> fresh(upgrades[i])
    {
      var u0 := new Upgrade(GameRules.TintaMejorada, 10.0, 1.2, Click, GameRules.TintaMejoradaText);
      var u1 := new Upgrade(GameRules.SuperTintaMejorada, 100.0, 1.5, Click, GameRules.SuperTintaMejoradaText);
      var u2 := new Upgrade(GameRules.TintaAutomatica, 50.0, 1.3, Auto, GameRules.TintaAutomaticaText);
      var u3 := new Upgrade(GameRules.M4TintosaAutomatica, 200.0, 1.4, Auto, GameRules.M4TintosaAutomaticaText);
      var u4 := new Upgrade(GameRules.FabricaDeTinta, 1000.0, 1.6, Auto, GameRules.FabricaDeTintaText);
      var u5 := new Upgrade(GameRules.TintaMultiplicadora, 500.0, 2.0, Multiplier, GameRules.TintaMultiplicadoraText);
      upgrades := [u0, u1, u2, u3, u4, u5];
      ListOfSix(u0, u1, u2, u3, u4, u5);
    }

    /** Adds amount * prestigeMultiplier to the points. */
    method AddPoints(amount: real)
      modifies this`points
      ensures State() == GameRules.AddPoints(old(State()), amount)
      ensures points == old(points) + amount * prestigeMultiplier
    {
      points := points + amount * prestigeMultiplier;
    }

    /** A tap on the character: pointsPerClick goes through AddPoints. */
    method Tap()
      modifies this`points
      ensures State() == GameRules.Tap(old(State()))
      ensures points == old(points) + pointsPerClick * prestigeMultiplier
    {
      AddPoints(pointsPerClick);
    }

    /** The body of the once-a-second auto-clicker. */
    method Tick()
      modifies this`points
      ensures State() == GameRules.Tick(old(State()))
      ensures points == old(points) + pointsPerSecond * prestigeMultiplier
    {
      points := points + pointsPerSecond * prestigeMultiplier;
    }

    /** Applies the effect of a bought upgrade, selected by its kind and name. */
    method ApplyUpgradeEffects(u: Upgrade)
      modifies this`pointsPerClick, this`pointsPerSecond
      ensures GameRules.Rates(pointsPerClick, pointsPerSecond)
           == GameRules.Boost(GameRules.Rates(old(pointsPerClick), old(pointsPerSecond)), prestigeMultiplier, u.View())
      ensures Views(upgrades) == old(Views(upgrades))
    {
      var kind := u.GetType();
      var name := u.GetName();
      match kind
      case Click =>
        if name == GameRules.TintaMejorada {
          pointsPerClick := pointsPerClick + 1.0 * prestigeMultiplier;
        } else if name == GameRules.SuperTintaMejorada {
          pointsPerClick := pointsPerClick + 5.0 * prestigeMultiplier;
        }
      case Auto =>
        if name == GameRules.TintaAutomatica {
          pointsPerSecond := pointsPerSecond + 1.0 * prestigeMultiplier;
        } else if name == GameRules.M4TintosaAutomatica {
          pointsPerSecond := pointsPerSecond + 5.0 * prestigeMultiplier;
        } else if name == GameRules.FabricaDeTinta {
          pointsPerSecond := pointsPerSecond + 10.0 * prestigeMultiplier;
        }
      case Multiplier =>
        if name == GameRules.TintaMultiplicadora {
          pointsPerClick := pointsPerClick * 1.5;
          pointsPerSecond := pointsPerSecond * 1.5;
        }
    }

    /**
     * Buys an upgrade when the points cover its current price: pays the
     * price, raises that upgrade's level and applies its effect. Otherwise
     * nothing changes. Reports whether the purchase happened.
     * The list view forwards the object it shows, which may belong to an
     * older list than the one in use (it is built before the saved game is
     * loaded again on resume). The ghost k is the position of u in the list
     * in use, or the length of the list when u is not in it; in that case
     * the points and rates change but the raised level is outside the state.
     */
    method BuyUpgrade(u: Upgrade, ghost k: nat) returns (bought: bool)
      requires Valid() && k <= |upgrades|
      requires k < |upgrades| ==> upgrades[k] == u
      requires k == |upgrades| ==> u !in upgrades
      modifies this`points, this`pointsPerClick, this`pointsPerSecond, u`level
      ensures Valid()
      ensures bought == (old(points) >= old(u.View().CurrentCost()))
      ensures u.View() == old(u.View()).(level := if bought then old(u.level) + 1 else old(u.level))
      ensures k < |upgrades| ==> State() == GameRules.Buy(old(State()), k)
      ensures k == |upgrades| ==> State() == GameRules.BuyDetached(old(State()), old(u.View()))
    {
      ghost var before := State();
      ghost var v := u.View();
      var cost := u.GetCurrentCost();
      if points >= cost {
        PayFor(u, k);
        ghost var paid := State();
        ApplyUpgradeEffects(u);
        GameRules.BuyByPay(before, k, v, paid, State());
        bought := true;
      } else {
        bought := false;
      }
    }

    /**
     * The payment step of a purchase: the current price leaves the points
     * and the upgrade goes up one level. When u is the k-th upgrade of the
     * list, the k-th value of the list is the raised one; when it is not in
     * the list, no value of the list changes.
     */
    method PayFor(u: Upgrade, ghost k: nat)
      requires Valid() && k <= |upgrades|
      requires k < |upgrades| ==> upgrades[k] == u
      requires k == |upgrades| ==> u !in upgrades
      modifies this`points, u`level
      ensures Valid()
      ensures u.View() == old(u.View()).(level := old(u.View()).level + 1)
      ensures k < |upgrades| ==> State() == GameRules.Pay(old(State()), k)
      ensures k == |upgrades| ==> State() == old(State()).(points := old(State()).points - old(u.View()).CurrentCost())
    {
      ghost var before := State();
      ghost var v := u.View();
      assert k < |upgrades| ==> before.upgrades[k] == v;
      var price := u.GetCurrentCost();
      points := points - price;
      u.LevelUp();
      if k < |upgrades| {
        forall j | 0 <= j < |upgrades| && j != k
          ensures upgrades[j].View() == before.upgrades[j]
        {
          assert upgrades[j] != u;
        }
        ViewsAfterUpdate(upgrades, before.upgrades, k);
      } else {
        forall j | 0 <= j < |upgrades|
          ensures upgrades[j].View() == before.upgrades[j]
        {
          assert upgrades[j] != u;
        }
        ViewsUnchanged(upgrades, before.upgrades);
      }
    }

    /** Whether the prestige button is shown. */
    method PrestigeAvailable() returns (visible: bool)
      ensures visible == GameRules.CanPrestige(State())
      ensures visible == (points >= prestigeRequirement)
    {
      visible := points >= prestigeRequirement;
    }

    /**
     * Prestige when the points reach the requirement: next level, its
     * multiplier, a half-again larger requirement, and progress and catalog
     * started over. Below the requirement nothing changes.
     */
    method Prestige()
      requires Valid()
      modifies this
      ensures Valid() && State() == GameRules.Prestige(old(State()))
      ensures old(points) < old(prestigeRequirement) ==> upgrades == old(upgrades)
      ensures old(points) >= old(prestigeRequirement) ==> forall i :: 0 <= i < |upgrades| ==> fresh(upgrades[i])
    {
      if points >= prestigeRequirement {
        prestigeLevel := prestigeLevel + 1;
        prestigeMultiplier := 1.0 + prestigeLevel as real * 0.5;
        prestigeRequirement := prestigeRequirement * 1.5;
        points := 0.0;
        pointsPerClick := 1.0 * prestigeMultiplier;
        pointsPerSecond := 0.0;
        InitUpgrades();
      }
    }

    /** Restores every default and a fresh catalog, whatever the state was. */
    method ResetGameStats()
      modifies this
      ensures Valid() && State() == GameRules.Initial()
      ensures forall i :: 0 <= i < |upgrades| ==> fresh(upgrades[i])
    {
      points := 0.0;
      pointsPerClick := 1.0;
      pointsPerSecond := 0.0;
      prestigeLevel := 0;
      prestigeMultiplier := 1.0;
      prestigeRequirement := 5000.0;
      InitUpgrades();
    }
  }
}
