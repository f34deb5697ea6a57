/**
 * The rules of the clicker game as functions on a value snapshot of its
 * state: the six numeric progress fields and the ordered upgrade catalog.
 * The class Clicker.Game updates its fields in place and is proved to
 * follow these functions; the invariants of the game are proved here.
 */
module GameRules {
  import opened Upgrades

  datatype Option<T> = None | Some(value: T)

  /** A snapshot of the game: points ("tinta"), production rates, prestige and the upgrades. */
  datatype GameState = GameState(
    points: real,
    pointsPerClick: real,
    pointsPerSecond: real,
    prestigeLevel: nat,
    prestigeMultiplier: real,
    prestigeRequirement: real,
    upgrades: seq<UpgradeView>)

  // Display names of the catalog; the purchase effects are chosen by these names.
  const TintaMejorada: string := "Tinta Mejorada"
  const SuperTintaMejorada: string := "Super Tinta Mejorada"
  const TintaAutomatica: string := "Tinta Automática"
  const M4TintosaAutomatica: string := "M4-Tintosa Automatica"
  const FabricaDeTinta: string := "Fábrica de Tinta"
  const TintaMultiplicadora: string := "Tinta Multiplicadora"

  // Their descriptions, shown under each name.
  const TintaMejoradaText: string := "Aumenta el poder de clic en 1"
  const SuperTintaMejoradaText: string := "Aumenta mucho el poder de clic en 5"
  const TintaAutomaticaText: string := "Añade 1 clic por segundo"
  const M4TintosaAutomaticaText: string := "Añade 5 clics por segundo"
  const FabricaDeTintaText: string := "Añade 10 clics por segundo"
  const TintaMultiplicadoraText: string := "Multiplica todos tus puntos por 1.5"

  // The six entries of the catalog at level 0: (base cost, cost growth) and kind.
  const TintaMejoradaEntry := UpgradeView(TintaMejorada, 10.0, 1.2, Click, 0, TintaMejoradaText)
  const SuperTintaMejoradaEntry := UpgradeView(SuperTintaMejorada, 100.0, 1.5, Click, 0, SuperTintaMejoradaText)
  const TintaAutomaticaEntry := UpgradeView(TintaAutomatica, 50.0, 1.3, Auto, 0, TintaAutomaticaText)
  const M4TintosaAutomaticaEntry := UpgradeView(M4TintosaAutomatica, 200.0, 1.4, Auto, 0, M4TintosaAutomaticaText)
  const FabricaDeTintaEntry := UpgradeView(FabricaDeTinta, 1000.0, 1.6, Auto, 0, FabricaDeTintaText)
  const TintaMultiplicadoraEntry := UpgradeView(TintaMultiplicadora, 500.0, 2.0, Multiplier, 0, TintaMultiplicadoraText)

  /** The fixed catalog, in display order, every upgrade at level 0. */
  function DefaultCatalog(): seq<UpgradeView>
  {
    [ TintaMejoradaEntry, SuperTintaMejoradaEntry, TintaAutomaticaEntry,
      M4TintosaAutomaticaEntry, FabricaDeTintaEntry, TintaMultiplicadoraEntry ]
  }

  /** The default catalog has six distinct names, every price starts at its base cost and grows with the level. */
  lemma DefaultCatalogFacts()
    ensures |DefaultCatalog()| == 6
    ensures forall i :: 0 <= i < 6 ==>
      var u := DefaultCatalog()[i];
      u.level == 0 && u.CurrentCost() == u.baseCost && u.baseCost > 0.0 && u.costMultiplier > 1.0
    ensures forall i, j :: 0 <= i < j < 6 ==> DefaultCatalog()[i].name != DefaultCatalog()[j].name
  {
  }

  /** The state of a new game. */
  function Initial(): GameState
  {
    GameState(0.0, 1.0, 0.0, 0, 1.0, 5000.0, DefaultCatalog())
  }

  /** The upgrade list in use after loading: a missing or empty saved list is replaced by the default catalog. */
  function CatalogAfterLoad(loaded: Option<seq<UpgradeView>>): (c: seq<UpgradeView>)
    ensures c != []
    ensures loaded.Some? && loaded.value != [] ==> c == loaded.value
    ensures loaded.None? || loaded.value == [] ==> c == DefaultCatalog()
    ensures loaded.None? || loaded.value == [] ==> |c| == 6 && forall i :: 0 <= i < |c| ==> c[i].level == 0
  {
    if loaded.None? || loaded.value == [] then DefaultCatalog() else loaded.value
  }

  /** Adds an amount, scaled by the prestige multiplier, to the points. */
  function AddPoints(g: GameState, amount: real): GameState
  {
    g.(points := g.points + amount * g.prestigeMultiplier)
  }

  /** A tap passes pointsPerClick to AddPoints, which scales it by the multiplier once more. */
  function Tap(g: GameState): GameState
  {
    AddPoints(g, g.pointsPerClick)
  }

  /** One second of automatic production. */
  function Tick(g: GameState): GameState
  {
    g.(points := g.points + g.pointsPerSecond * g.prestigeMultiplier)
  }

  /** Whether the prestige button is shown (and prestige succeeds). */
  predicate CanPrestige(g: GameState)
  {
    g.points >= g.prestigeRequirement
  }

  /** The two production rates. */
  datatype Rates = Rates(perClick: real, perSecond: real)

  /**
   * The effect of a purchased upgrade on the production rates, chosen first
   * by its kind and then by its display name. An unknown name changes
   * nothing, and with non-negative rates and multiplier no rate goes down.
   */
  function Boost(rates: Rates, multiplier: real, u: UpgradeView): (r: Rates)
    ensures (u.name !in {TintaMejorada, SuperTintaMejorada, TintaAutomatica,
                         M4TintosaAutomatica, FabricaDeTinta, TintaMultiplicadora}) ==> r == rates
    ensures multiplier >= 0.0 && rates.perClick >= 0.0 && rates.perSecond >= 0.0 ==>
              r.perClick >= rates.perClick && r.perSecond >= rates.perSecond
  {
    match u.kind
    case Click =>
      if u.name == TintaMejorada then
        rates.(perClick := rates.perClick + 1.0 * multiplier)
      else if u.name == SuperTintaMejorada then
        rates.(perClick := rates.perClick + 5.0 * multiplier)
      else rates
    case Auto =>
      if u.name == TintaAutomatica then
        rates.(perSecond := rates.perSecond + 1.0 * multiplier)
      else if u.name == M4TintosaAutomatica then
        rates.(perSecond := rates.perSecond + 5.0 * multiplier)
      else if u.name == FabricaDeTinta then
        rates.(perSecond := rates.perSecond + 10.0 * multiplier)
      else rates
    case Multiplier =>
      if u.name == TintaMultiplicadora then
        Rates(rates.perClick * 1.5, rates.perSecond * 1.5)
      else rates
  }

  // What buying each catalog entry adds, per unit of multiplier, to the tap
  // rate and to the tick rate; the last entry instead scales both by 1.5.
  const ClickBonus: seq<real> := [1.0, 5.0, 0.0, 0.0, 0.0]
  const SecondBonus: seq<real> := [0.0, 0.0, 1.0, 5.0, 10.0]

  /**
   * The effect table of the catalog: whatever its level, buying entry i of
   * the default catalog adds ClickBonus[i] and SecondBonus[i] times the
   * multiplier to the rates, except the last entry, which scales both rates
   * by 1.5 regardless of the multiplier.
   */
  lemma CatalogEffects(rates: Rates, multiplier: real, i: nat, level: nat)
    requires i < |DefaultCatalog()|
    ensures var r := Boost(rates, multiplier, DefaultCatalog()[i].(level := level));
      && (i < 5 ==> r == Rates(rates.perClick + ClickBonus[i] * multiplier,
                               rates.perSecond + SecondBonus[i] * multiplier))
      && (i == 5 ==> r == Rates(rates.perClick * 1.5, rates.perSecond * 1.5))
  {
  }

  /**
   * The effect needs both the kind and the name: an entry whose kind does
   * not match the branch its name belongs to has no effect at all.
   */
  lemma MismatchedKindNoEffect(rates: Rates, multiplier: real, i: nat, kind: UpgradeType)
    requires i < |DefaultCatalog()| && kind != DefaultCatalog()[i].kind
    ensures Boost(rates, multiplier, DefaultCatalog()[i].(kind := kind)) == rates
  {
  }

  /** Applying a purchased upgrade changes the two rates as Boost says, and nothing else. */
  function ApplyEffect(g: GameState, u: UpgradeView): GameState
  {
    var r := Boost(Rates(g.pointsPerClick, g.pointsPerSecond), g.prestigeMultiplier, u);
    g.(pointsPerClick := r.perClick, pointsPerSecond := r.perSecond)
  }

  /**
   * Buying the i-th upgrade. Below its current price nothing changes.
   * Otherwise the points drop by exactly the price read before the level
   * rises, only that upgrade's level goes up by one, the prestige fields
   * stay, the points stay non-negative, and the upgrade's effect is applied.
   */
  function Buy(g: GameState, i: nat): (r: GameState)
    requires i < |g.upgrades|
    ensures g.points < g.upgrades[i].CurrentCost() ==> r == g
    ensures g.points >= g.upgrades[i].CurrentCost() ==>
              && r.points == g.points - g.upgrades[i].CurrentCost()
              && r.points >= 0.0
              && r.upgrades == g.upgrades[i := g.upgrades[i].(level := g.upgrades[i].level + 1)]
              && Rates(r.pointsPerClick, r.pointsPerSecond)
                 == Boost(Rates(g.pointsPerClick, g.pointsPerSecond), g.prestigeMultiplier, g.upgrades[i])
              && r.prestigeLevel == g.prestigeLevel
              && r.prestigeMultiplier == g.prestigeMultiplier
              && r.prestigeRequirement == g.prestigeRequirement
  {
    if g.points >= g.upgrades[i].CurrentCost() then
      var paid := Pay(g, i);
      ApplyEffect(paid, paid.upgrades[i])
    else
      g
  }

  /**
   * Buying an upgrade object that is not in the list in use (the list view
   * still shows an older list): the price is paid and the effect applied
   * exactly as for a listed upgrade, but no level in the list rises, so the
   * purchased level is not part of the game state that is kept.
   */
  function BuyDetached(g: GameState, v: UpgradeView): (r: GameState)
    ensures g.points < v.CurrentCost() ==> r == g
    ensures g.points >= v.CurrentCost() ==>
              && r.points == g.points - v.CurrentCost()
              && r.points >= 0.0
              && r.upgrades == g.upgrades
              && Rates(r.pointsPerClick, r.pointsPerSecond)
                 == Boost(Rates(g.pointsPerClick, g.pointsPerSecond), g.prestigeMultiplier, v)
              && r.prestigeLevel == g.prestigeLevel
              && r.prestigeMultiplier == g.prestigeMultiplier
              && r.prestigeRequirement == g.prestigeRequirement
  {
    if g.points >= v.CurrentCost() then
      ApplyEffect(g.(points := g.points - v.CurrentCost()), v.(level := v.level + 1))
    else
      g
  }

  /**
   * A purchase through an object outside the list charges the same points
   * and gives the same rates as buying the listed upgrade with the same
   * value, but leaves every level in the list where it was.
   */
  lemma DetachedPurchaseLosesLevel(g: GameState, i: nat)
    requires i < |g.upgrades| && g.points >= g.upgrades[i].CurrentCost()
    ensures var listed := Buy(g, i);
      var detached := BuyDetached(g, g.upgrades[i]);
      && detached == listed.(upgrades := g.upgrades)
      && detached.upgrades[i].level + 1 == listed.upgrades[i].level
  {
  }

  /**
   * An affordable purchase is the payment followed by the effect of the
   * raised upgrade, whether the upgrade is the i-th of the list or, for
   * i == |g.upgrades|, outside it.
   */
  lemma BuyByPay(g: GameState, i: nat, v: UpgradeView, paid: GameState, r: GameState)
    requires i <= |g.upgrades| && g.points >= v.CurrentCost()
    requires i < |g.upgrades| ==> g.upgrades[i] == v && paid == Pay(g, i)
    requires i == |g.upgrades| ==> paid == g.(points := g.points - v.CurrentCost())
    requires r == ApplyEffect(paid, v.(level := v.level + 1))
    ensures i < |g.upgrades| ==> r == Buy(g, i)
    ensures i == |g.upgrades| ==> r == BuyDetached(g, v)
  {
  }

  /** Paying for the i-th upgrade: its price leaves the points and its level goes up by one. */
  function Pay(g: GameState, i: nat): (r: GameState)
    requires i < |g.upgrades|
    ensures |r.upgrades| == |g.upgrades|
  {
    var u := g.upgrades[i];
    g.(points := g.points - u.CurrentCost(), upgrades := g.upgrades[i := u.(level := u.level + 1)])
  }

  /**
   * Prestige: below the requirement nothing changes; otherwise the level
   * goes up, the multiplier is recomputed from it, the requirement grows by
   * half, and points, rates and catalog start over.
   */
  function Prestige(g: GameState): (r: GameState)
    ensures !CanPrestige(g) ==> r == g
  {
    if g.points >= g.prestigeRequirement then
      var level := g.prestigeLevel + 1;
      var multiplier := 1.0 + level as real * 0.5;
      GameState(0.0, 1.0 * multiplier, 0.0, level, multiplier, g.prestigeRequirement * 1.5, DefaultCatalog())
    else
      g
  }

  /** Reset: every field back to its default, whatever the state was, prestige included. */
  function Reset(g: GameState): (r: GameState)
    ensures r.points == 0.0 && r.pointsPerClick == 1.0 && r.pointsPerSecond == 0.0
    ensures r.prestigeLevel == 0 && r.prestigeMultiplier == 1.0 && r.prestigeRequirement == 5000.0
    ensures r.upgrades == DefaultCatalog()
    ensures |r.upgrades| == 6 && forall k :: 0 <= k < |r.upgrades| ==> r.upgrades[k].level == 0
  {
    Initial()
  }

  /** A catalog of the default shape: the default entries, each at some level. */
  predicate CatalogShape(us: seq<UpgradeView>)
  {
    |us| == |DefaultCatalog()| &&
    forall i :: 0 <= i < |us| ==> us[i] == DefaultCatalog()[i].(level := us[i].level)
  }

  /**
   * What holds in every reachable state: points never negative, the
   * multiplier determined by the prestige level, the tap rate at least the
   * multiplier, the tick rate non-negative, the requirement at least its
   * start value and the catalog of the default shape.
   */
  ghost predicate Inv(g: GameState)
  {
    && 0.0 <= g.points
    && g.prestigeMultiplier == 1.0 + g.prestigeLevel as real * 0.5
    && g.prestigeMultiplier <= g.pointsPerClick
    && 0.0 <= g.pointsPerSecond
    && 5000.0 <= g.prestigeRequirement
    && CatalogShape(g.upgrades)
  }

  lemma InitialInv()
    ensures Inv(Initial())
  {
  }

  /** n taps add n times pointsPerClick * prestigeMultiplier and change nothing else. */
  function Taps(g: GameState, n: nat): GameState
    decreases n
  {
    if n == 0 then g else Taps(Tap(g), n - 1)
  }

  /** n ticks add n times pointsPerSecond * prestigeMultiplier and change nothing else. */
  function Ticks(g: GameState, n: nat): GameState
    decreases n
  {
    if n == 0 then g else Ticks(Tick(g), n - 1)
  }

  lemma {:induction false} TapsAccumulate(g: GameState, n: nat)
    ensures Taps(g, n) == g.(points := g.points + n as real * (g.pointsPerClick * g.prestigeMultiplier))
    decreases n
  {
    if n > 0 {
      TapsAccumulate(Tap(g), n - 1);
      var c := g.pointsPerClick * g.prestigeMultiplier;
      assert (n - 1) as real * c + c == n as real * c;
    }
  }

  lemma {:induction false} TicksAccumulate(g: GameState, n: nat)
    ensures Ticks(g, n) == g.(points := g.points + n as real * (g.pointsPerSecond * g.prestigeMultiplier))
    decreases n
  {
    if n > 0 {
      TicksAccumulate(Tick(g), n - 1);
      var c := g.pointsPerSecond * g.prestigeMultiplier;
      assert (n - 1) as real * c + c == n as real * c;
    }
  }

  lemma TapPreservesInv(g: GameState)
    requires Inv(g)
    ensures Inv(Tap(g)) && Tap(g).points >= g.points
  {
    assert g.pointsPerClick * g.prestigeMultiplier >= 0.0;
  }

  lemma TickPreservesInv(g: GameState)
    requires Inv(g)
    ensures Inv(Tick(g)) && Tick(g).points >= g.points
  {
    assert g.pointsPerSecond * g.prestigeMultiplier >= 0.0;
  }

  lemma BuyPreservesInv(g: GameState, i: nat)
    requires Inv(g) && i < |g.upgrades|
    ensures Inv(Buy(g, i))
  {
    if g.points >= g.upgrades[i].CurrentCost() {
      var paid := Pay(g, i);
      assert Buy(g, i) == ApplyEffect(paid, paid.upgrades[i]);
      assert CatalogShape(paid.upgrades);
    }
  }

  /** A successful prestige adds exactly 0.5 to the multiplier, grows the requirement by half and restores the default catalog at level 0. */
  lemma PrestigeRaises(g: GameState)
    requires CanPrestige(g) && g.prestigeMultiplier == 1.0 + g.prestigeLevel as real * 0.5
    ensures var r := Prestige(g);
      && r.prestigeLevel == g.prestigeLevel + 1
      && r.prestigeMultiplier == g.prestigeMultiplier + 0.5
      && r.prestigeRequirement == g.prestigeRequirement * 1.5
      && r.points == 0.0 && r.pointsPerClick == r.prestigeMultiplier && r.pointsPerSecond == 0.0
      && r.upgrades == DefaultCatalog()
      && |r.upgrades| == 6 && forall k :: 0 <= k < |r.upgrades| ==> r.upgrades[k].level == 0
  {
  }

  /** A purchase through an object outside the list keeps the invariant and never lowers a rate. */
  lemma BuyDetachedPreservesInv(g: GameState, v: UpgradeView)
    requires Inv(g)
    ensures Inv(BuyDetached(g, v))
    ensures BuyDetached(g, v).pointsPerClick >= g.pointsPerClick
    ensures BuyDetached(g, v).pointsPerSecond >= g.pointsPerSecond
  {
  }

  /**
   * In a reachable state a purchase always makes the next level of that
   * upgrade strictly dearer.
   */
  lemma BuyRaisesPrice(g: GameState, i: nat)
    requires Inv(g) && i < |g.upgrades| && g.points >= g.upgrades[i].CurrentCost()
    ensures Buy(g, i).upgrades[i].CurrentCost() > g.upgrades[i].CurrentCost()
  {
    var u := g.upgrades[i];
    DefaultCatalogFacts();
    assert u.baseCost == DefaultCatalog()[i].baseCost && u.costMultiplier == DefaultCatalog()[i].costMultiplier;
    CostStrictlyIncreasing(u.baseCost, u.costMultiplier, u.level, u.level + 1);
  }

  lemma PrestigePreservesInv(g: GameState)
    requires Inv(g)
    ensures Inv(Prestige(g))
  {
  }

  /**
   * The multiplier is applied twice on a tap: right after a prestige the
   * tap rate already equals the multiplier, and a tap adds its square.
   */
  lemma TapAfterPrestige(g: GameState)
    requires CanPrestige(g)
    ensures var r := Prestige(g);
      Tap(r).points == r.prestigeMultiplier * r.prestigeMultiplier
  {
  }

  /**
   * What moves the game: a tap on the octopus, a second of the
   * auto-clicker, the button of the i-th upgrade in the list, the button of
   * an upgrade object the list view still shows from an older list, the
   * prestige button and the confirmation of the reset dialog.
   */
  datatype Event =
    | TapEvent
    | TickEvent
    | BuyEvent(index: nat)
    | DetachedBuyEvent(shown: UpgradeView)
    | PrestigeEvent
    | ResetEvent

  function Step(g: GameState, e: Event): GameState
  {
    match e
    case TapEvent => Tap(g)
    case TickEvent => Tick(g)
    case BuyEvent(i) => if i < |g.upgrades| then Buy(g, i) else g
    case DetachedBuyEvent(v) => BuyDetached(g, v)
    case PrestigeEvent => Prestige(g)
    case ResetEvent => Reset(g)
  }

  function Run(g: GameState, es: seq<Event>): GameState
    decreases es
  {
    if es == [] then g else Run(Step(g, es[0]), es[1..])
  }

  lemma StepPreservesInv(g: GameState, e: Event)
    requires Inv(g)
    ensures Inv(Step(g, e))
  {
    match e
    case TapEvent => TapPreservesInv(g);
    case TickEvent => TickPreservesInv(g);
    case BuyEvent(i) => if i < |g.upgrades| { BuyPreservesInv(g, i); }
    case DetachedBuyEvent(v) => BuyDetachedPreservesInv(g, v);
    case PrestigeEvent => PrestigePreservesInv(g);
    case ResetEvent => InitialInv();
  }

  lemma {:induction false} RunPreservesInv(g: GameState, es: seq<Event>)
    requires Inv(g)
    ensures Inv(Run(g, es))
    decreases es
  {
    if es != [] {
      StepPreservesInv(g, es[0]);
      RunPreservesInv(Step(g, es[0]), es[1..]);
    }
  }

  /**
   * Every state reached from a new game by any sequence of events keeps the
   * invariant; in particular the points are never negative and the
   * multiplier is 1 + 0.5 per prestige level.
   */
  lemma ReachableInv(es: seq<Event>)
    ensures Inv(Run(Initial(), es))
    ensures Run(Initial(), es).points >= 0.0
  {
    InitialInv();
    RunPreservesInv(Initial(), es);
  }

  /** From a new game, 10 taps give 10 points. */
  lemma TenTapsScenario()
    ensures Taps(Initial(), 10) == Initial().(points := 10.0)
  {
    TapsAccumulate(Initial(), 10);
  }

  /** With 10 points, buying "Tinta Mejorada" leaves 0 points, 2 per tap and level 1; one more tap gives 2 points. */
  lemma BuyAfterTapsScenario()
    ensures var b := Buy(Initial().(points := 10.0), 0);
      && b == Initial().(pointsPerClick := 2.0, upgrades := DefaultCatalog()[0 := DefaultCatalog()[0].(level := 1)])
      && Tap(b).points == 2.0
  {
    assert DefaultCatalog()[0].CurrentCost() == 10.0;
  }

  /**
   * First launch as the program runs it: the list view still shows the
   * default catalog while the list in use is empty. With 10 points, buying
   * "Tinta Mejorada" through the view leaves 0 points and 2 per tap, but the
   * list in use holds no raised level.
   */
  lemma DetachedScenario()
    ensures var g := Initial().(points := 10.0, upgrades := []);
      BuyDetached(g, DefaultCatalog()[0]) == g.(points := 0.0, pointsPerClick := 2.0)
  {
    assert DefaultCatalog()[0].CurrentCost() == 10.0;
  }

  /** At 5000 points with the start requirement, prestige reaches level 1, multiplier 1.5, requirement 7500 and 1.5 per tap. */
  lemma PrestigeScenario()
    ensures var r := Prestige(Initial().(points := 5000.0));
      && r.prestigeLevel == 1 && r.prestigeMultiplier == 1.5 && r.prestigeRequirement == 7500.0
      && r.points == 0.0 && r.pointsPerClick == 1.5 && r.pointsPerSecond == 0.0
      && r.upgrades == DefaultCatalog()
      && Tap(r).points == 2.25
  {
  }
}
