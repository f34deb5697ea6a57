# TxipiTap clicker core in Dafny

This project models the game logic of TxipiTap, an Android clicker game.
Tapping the octopus earns "tinta" (ink points). A one-second auto-clicker
adds more. Six upgrades raise the tap rate or the per-second rate, and their
price grows exponentially with their level. Prestige trades all progress
for a permanently larger multiplier, and a reset restores every default.

The model has three modules:

- `Upgrades` (`upgrade.dfy`) is the upgrade record. `Upgrade` is a class
  whose `level` field is changed in place by `LevelUp` and `ResetLevel`.
  `UpgradeView` is its value, and `Cost` is the price
  `baseCost * costMultiplier^level`.
- `GameRules` (`game_rules.dfy`) holds the rules as pure functions on a
  value snapshot `GameState`: tap, tick, purchase with its per-name effect
  table, prestige, reset and the default catalog. It proves the properties
  of those rules: accumulation of taps and ticks, an invariant kept by every
  modelled event and so by every state they reach from a new game, a price that only rises, the
  effects of prestige, and the concrete scenarios of a new game.
- `Clicker` (`clicker.dfy`) is the
  main screen's state as a class. It has the six numeric fields and the list
  of upgrade objects. Each of its methods is proved to move the snapshot
  `State()` exactly as the corresponding `GameRules` function says, so the
  lemmas of `GameRules` apply to it.

Java `double` values are modelled as mathematical reals, and the Java `int`
fields (upgrade level, prestige level) as `nat`. Two behaviours of the program are kept as written. First,
a tap passes `pointsPerClick` (which after a prestige already contains the
multiplier) to `addPoints`, which multiplies by the prestige multiplier once
more; `TapAfterPrestige` states the result. Second, an upgrade's effect is
selected by its kind and then by an exact match on its display name;
`MismatchedKindNoEffect` states that the name alone is not enough.

The upgrade list view is built in `onCreate` over the list in use at that
moment, and `onResume` then loads the saved game again, which installs a new
list object (an empty one when nothing was saved yet). From then until a
prestige or reset rebuilds the view, the buy button hands `buyUpgrade` an
upgrade object that is not in the list in use. `Clicker.Game.BuyUpgrade`
covers both cases: for a listed upgrade the new state is `GameRules.Buy`; for
an outside object it is `GameRules.BuyDetached`, which charges the price and
applies the effect but raises no level in the list (see "## Findings").

## Model

| member | source | states |
|---|---|---|
| Upgrades.Upgrade.constructor | app/src/main/java/com/example/txipitapv11/Upgrade.java:32-39 | a new upgrade holds the given name, costs, kind and description at level 0, so its price is its base cost |
| Upgrades.Upgrade.GetName | app/src/main/java/com/example/txipitapv11/Upgrade.java:45-47 | returns the name and changes nothing |
| Upgrades.Upgrade.GetBaseCost | app/src/main/java/com/example/txipitapv11/Upgrade.java:53-55 | returns the base cost and changes nothing |
| Upgrades.Upgrade.GetCurrentCost | app/src/main/java/com/example/txipitapv11/Upgrade.java:62-64 | the price is baseCost times costMultiplier to the power level; at level 0 it is the base cost; nothing changes |
| Upgrades.Upgrade.GetCostMultiplier | app/src/main/java/com/example/txipitapv11/Upgrade.java:70-72 | returns the growth factor and changes nothing |
| Upgrades.Upgrade.GetType | app/src/main/java/com/example/txipitapv11/Upgrade.java:78-80 | returns the kind and changes nothing |
| Upgrades.Upgrade.GetLevel | app/src/main/java/com/example/txipitapv11/Upgrade.java:86-88 | returns the level and changes nothing |
| Upgrades.Upgrade.GetDescription | app/src/main/java/com/example/txipitapv11/Upgrade.java:110-112 | returns the description and changes nothing |
| Upgrades.Upgrade.LevelUp | app/src/main/java/com/example/txipitapv11/Upgrade.java:94-96 | only the level changes, by exactly +1; the next price is the old price times the growth factor, and strictly larger when the base cost is positive and the factor above 1 |
| Upgrades.Upgrade.ResetLevel | app/src/main/java/com/example/txipitapv11/Upgrade.java:102-104 | only the level changes, to 0 whatever it was (so a second call changes nothing), and the price is back to the base cost |
| Upgrades.CostNextLevel | app/src/main/java/com/example/txipitapv11/Upgrade.java:62-64 | one more level multiplies the price by the growth factor |
| Upgrades.CostStrictlyIncreasing | app/src/main/java/com/example/txipitapv11/Upgrade.java:57-64 | with a positive base cost and a factor above 1, a higher level always costs strictly more |
| GameRules.DefaultCatalogFacts | app/src/main/java/com/example/txipitapv11/MainActivity.java:184-198 | the catalog has six entries with distinct names, all at level 0, each priced at its base cost, with positive base cost and growth factor above 1 |
| GameRules.CatalogAfterLoad | app/src/main/java/com/example/txipitapv11/MainActivity.java:116-120 | after the load in `onCreate` the list in use is never empty; a non-empty loaded list is kept as it is; with nothing or an empty list loaded it is the default catalog, six upgrades at level 0 |
| GameRules.Boost | app/src/main/java/com/example/txipitapv11/MainActivity.java:294-321 | an upgrade whose name is none of the six changes no rate; with non-negative rates and multiplier no rate goes down |
| GameRules.CatalogEffects | app/src/main/java/com/example/txipitapv11/MainActivity.java:294-321 | the effect table: at any level, the five additive entries add 1 or 5 times the multiplier per tap, or 1, 5 or 10 times it per second; "Tinta Multiplicadora" scales both rates by 1.5 without the multiplier |
| GameRules.MismatchedKindNoEffect | app/src/main/java/com/example/txipitapv11/MainActivity.java:295-320 | a catalog entry carrying a kind other than its own has no effect: the effect needs both the kind and the name |
| GameRules.Buy | app/src/main/java/com/example/txipitapv11/MainActivity.java:268-288 | below the current price nothing changes; otherwise the points drop by exactly the price read before the level rises and stay non-negative, only that upgrade's level rises by one, the two rates change as the effect table gives for that upgrade, and prestige is untouched |
| GameRules.BuyDetached | app/src/main/java/com/example/txipitapv11/MainActivity.java:268-275 | for an upgrade object outside the list: below its price nothing changes; otherwise the points drop by exactly its price, the rates change as the effect table gives, prestige is untouched and the list of upgrades stays exactly as it was |
| GameRules.DetachedPurchaseLosesLevel | app/src/main/java/com/example/txipitapv11/MainActivity.java:268-275 | buying through an outside object with the same value as the i-th listed upgrade gives the same points and rates as buying the listed one, but the i-th level in the list stays one lower |
| GameRules.Prestige | app/src/main/java/com/example/txipitapv11/MainActivity.java:329-330 | below the requirement prestige changes nothing |
| GameRules.PrestigeRaises | app/src/main/java/com/example/txipitapv11/MainActivity.java:329-344 | from any state whose multiplier is 1 + 0.5 per prestige level, whatever its list, an eligible prestige raises the level by one and the multiplier by exactly 0.5, multiplies the requirement by 1.5, zeroes points and per-second rate, sets the tap rate to the new multiplier and restores the default catalog, six upgrades at level 0 |
| GameRules.Reset | app/src/main/java/com/example/txipitapv11/MainActivity.java:433-443 | from any state: 0 points, tap rate 1, tick rate 0, prestige level 0, multiplier 1, requirement 5000 and the default catalog, six upgrades at level 0 |
| GameRules.InitialInv | app/src/main/java/com/example/txipitapv11/MainActivity.java:59-64 | the defaults of a new game satisfy the game invariant |
| GameRules.TapsAccumulate | app/src/main/java/com/example/txipitapv11/MainActivity.java:514-516 | n taps add exactly n times pointsPerClick times prestigeMultiplier and change nothing else |
| GameRules.TicksAccumulate | app/src/main/java/com/example/txipitapv11/MainActivity.java:533 | n ticks add exactly n times pointsPerSecond times prestigeMultiplier and change nothing else |
| GameRules.TapPreservesInv | app/src/main/java/com/example/txipitapv11/MainActivity.java:136 | a tap keeps the invariant and never lowers the points |
| GameRules.TickPreservesInv | app/src/main/java/com/example/txipitapv11/MainActivity.java:533 | a tick keeps the invariant and never lowers the points |
| GameRules.BuyPreservesInv | app/src/main/java/com/example/txipitapv11/MainActivity.java:268-323 | a purchase keeps the invariant: points non-negative, tap rate at least the multiplier, tick rate non-negative, catalog of the default shape |
| GameRules.BuyDetachedPreservesInv | app/src/main/java/com/example/txipitapv11/MainActivity.java:268-275 | a purchase through an object outside the list keeps the invariant and never lowers a rate |
| GameRules.BuyRaisesPrice | app/src/main/java/com/example/txipitapv11/MainActivity.java:268-272 | in a state satisfying the invariant, a purchase makes the next level of that upgrade strictly dearer |
| GameRules.PrestigePreservesInv | app/src/main/java/com/example/txipitapv11/MainActivity.java:329-344 | prestige keeps the invariant, including multiplier = 1 + 0.5 per prestige level |
| GameRules.TapAfterPrestige | app/src/main/java/com/example/txipitapv11/MainActivity.java:136 | right after a prestige a tap adds the square of the multiplier, since the multiplier is applied twice |
| GameRules.StepPreservesInv | app/src/main/java/com/example/txipitapv11/MainActivity.java:122-150 | every modelled event (tap, tick, purchase through the list or through an outside object, prestige, reset) keeps the invariant |
| GameRules.RunPreservesInv | app/src/main/java/com/example/txipitapv11/MainActivity.java:55-64 | any sequence of the modelled events keeps the invariant |
| GameRules.ReachableInv | app/src/main/java/com/example/txipitapv11/MainActivity.java:55-64 | every state reachable from a new game by the modelled events satisfies the invariant, so its points are never negative |
| GameRules.TenTapsScenario | app/src/main/java/com/example/txipitapv11/MainActivity.java:136 | ten taps on a new game give exactly 10 points and change nothing else |
| GameRules.BuyAfterTapsScenario | app/src/main/java/com/example/txipitapv11/MainActivity.java:268-288 | with 10 points, buying "Tinta Mejorada" leaves 0 points, 2 per tap and that upgrade at level 1; one more tap gives 2 points |
| GameRules.DetachedScenario | app/src/main/java/com/example/txipitapv11/MainActivity.java:268-275 | with an empty list in use and 10 points, buying "Tinta Mejorada" through an outside object leaves 0 points and 2 per tap, and the list in use stays empty |
| GameRules.PrestigeScenario | app/src/main/java/com/example/txipitapv11/MainActivity.java:329-344 | at 5000 points a new game prestiges to level 1, multiplier 1.5, requirement 7500 and 1.5 per tap; the next tap gives 2.25 |
| Clicker.Game.constructor | app/src/main/java/com/example/txipitapv11/MainActivity.java:55-64 | a new game holds the field defaults and six new upgrade objects showing the default catalog |
| Clicker.Game.InitUpgrades | app/src/main/java/com/example/txipitapv11/MainActivity.java:184-198 | the list is replaced by six new, distinct objects showing the default catalog in order |
| Clicker.Game.AddPoints | app/src/main/java/com/example/txipitapv11/MainActivity.java:514-523 | the points grow by amount times the prestige multiplier; nothing else changes |
| Clicker.Game.Tap | app/src/main/java/com/example/txipitapv11/MainActivity.java:136 | the points grow by pointsPerClick times the prestige multiplier; nothing else changes |
| Clicker.Game.Tick | app/src/main/java/com/example/txipitapv11/MainActivity.java:533 | the points grow by pointsPerSecond times the prestige multiplier; nothing else changes |
| Clicker.Game.ApplyUpgradeEffects | app/src/main/java/com/example/txipitapv11/MainActivity.java:294-323 | only the two rates change, and they change as the effect table says |
| Clicker.Game.BuyUpgrade | app/src/main/java/com/example/txipitapv11/MainActivity.java:268-288 | it reports a purchase exactly when the old points covered the old price, and the upgrade object's level rises by one exactly then; for the k-th upgrade of the list the new state is the one the purchase rule gives; for an object outside the list it is the outside-purchase rule, so the list's levels stay; only the points, the rates and that object's level may change |
| Clicker.Game.PayFor | app/src/main/java/com/example/txipitapv11/MainActivity.java:271-272 | the price leaves the points and the upgrade object rises one level; the k-th value of the list becomes the raised one, or no value of the list changes when the object is outside it |
| Clicker.Game.PrestigeAvailable | app/src/main/java/com/example/txipitapv11/MainActivity.java:572-576 | the prestige button is shown exactly when the points reach the requirement |
| Clicker.Game.Prestige | app/src/main/java/com/example/txipitapv11/MainActivity.java:329-371 | the new state is the one the prestige rule gives; an ineligible call keeps the same list; an eligible one installs new upgrade objects |
| Clicker.Game.ResetGameStats | app/src/main/java/com/example/txipitapv11/MainActivity.java:433-462 | from any state the game is back to a new game, with new upgrade objects |

## Left out

- Persistence is not modelled: `loadGameState`, `saveGameState`, the JSON serialisation of the upgrade list and the narrowing of the rates, multiplier and requirement to `float` on save. Only the rule for the list in use after the load in `onCreate`, with its fallback to the default catalog, is kept (`CatalogAfterLoad`). The second load, in `onResume`, has no such fallback and is not modelled; it can leave the list in use empty.
- Timers are not modelled. The one-second scheduling of the auto-clicker is left out and only its body is kept (`Tick`). The random 20% chance of saving on each tick only affects persistence, so it is left out too.
- The user interface is not modelled: labels, toasts, dialogs, button visibility updates, number formatting, the list adapter and the tap animation. The visibility test itself is kept as `PrestigeAvailable`.
- Floating point is modelled as mathematical reals, so rounding of `double` arithmetic and of `Math.pow` is not captured. `Pow` is exact exponentiation for a natural exponent.
- GameRules.ReachableInv: `Run` has no reload event. A reload in `onResume` can leave the list in use empty, which is outside `Inv` (its catalog conjunct needs six entries), so the invariant covers only the states the modelled events reach from a new game.
- Upgrades.Upgrade.LevelUp: the level is a `nat`, so Java `int` overflow of the level is not modelled.
- GameRules.Prestige: the prestige level is a `nat`, so Java `int` overflow of `prestigeLevel` is not modelled.
- Clicker.Game.InitUpgrades: the six objects are built first and then installed as the list in one assignment. The program instead appends them one by one to a new list. The resulting list is the same.
- Clicker.Game.BuyUpgrade: it takes a ghost argument, the position of the upgrade in the list in use, or the length of the list when the object is not in it. The program has no such argument; the object alone decides which case applies.
- Clicker.Game.PayFor: the two statements that pay and raise the level inside `buyUpgrade` are a separate method here; the order of the steps is the program's.
- Clicker.Game.Prestige: it requires the list to hold no object twice (`Valid()`). Every list the model builds has six distinct new objects.

## Findings

| source | as written | input that shows it | evidently intended | confidence | as-written member | corrected member |
|---|---|---|---|---|---|---|
| app/src/main/java/com/example/txipitapv11/MainActivity.java:122-126, 502-504, 226-231, 268-275 | the list view keeps the upgrade objects of the list built in `onCreate`, but `onResume` reloads the game and installs a new list, so `buyUpgrade` receives objects outside the list in use: the points are charged and the rates raised, but the level that is kept and saved does not rise | first launch: `onCreate` builds the default catalog and the view over it, `onResume` loads nothing and installs an empty list; then 10 taps and a tap on "Tinta Mejorada" leave 0 points and 2 per tap, while the list in use stays empty and no level is saved | the view shows the list in use, so a purchase raises the level of the upgrade in that list | not executed; follows from the Android lifecycle order and from the reload creating new objects | GameRules.DetachedScenario | GameRules.Buy |
