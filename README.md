# Crypto Tycoon economy, modelled in Dafny

Crypto Tycoon is a browser idle-clicker. One global `gameState` holds the
balance (`crypto`), the coins one click earns (`clickPower`), three upgrades
(`gpu`, `asic`, `quantum`, each with a level, a cost and a power) and the time of
the last passive payout (`lastUpdate`, in milliseconds). Three handlers change it:

- a click adds the click power to the balance;
- buying an upgrade, when the balance covers its cost, pays the cost, raises
  the level by one, multiplies the cost by 1.5 and adds the upgrade's power to
  the click power; otherwise it does nothing;
- a timer pays passive income: the seconds since the last payout times
  Σ level × power over the three upgrades, divided by 10, and moves the clock on.

The project has three modules:

- `Economy` (economy.dfy): the state as a value (`State`, `Upgrade`), the
  initial values, the three handlers as functions (`Clicked`, `Purchased`,
  `Accrued`), two invariants, and the lemmas that the handlers keep them.
  `Sound` is the safety invariant: no debt, click power at least 1, every cost
  positive, no negative power, exactly the three upgrades. `OnSchedule` is the
  exact shape of every state a game can reach while timer ticks never go back
  in time. Each cost is its initial cost times 1.5^level. Powers are the
  initial ones. The click power is 1 + Σ level × power.
- `Session` (session.dfy): the page's event loop as a sequence of events
  (`Click`, `Buy(key)`, `Tick(now)`) replayed in order. It proves by induction
  that, when timer ticks never go back in time, every state reachable from a
  new game is `OnSchedule` and `Sound`, and that levels and costs never go
  down.
- `Game` (game_state.dfy): the mutable `gameState` as the class `GameState`
  with the same four fields. `ClickCrypto`, `BuyUpgrade` and `PassiveIncome`
  update the fields in place. Each handler states its whole new state field by
  field. Each is also tied, through `Snapshot()`, to the matching `Economy`
  function, and it keeps both invariants.

Numbers are exact `real`s; `Date.now()` is the parameter `now` (an integer
number of milliseconds).

## Model

| member | source | states |
|---|---|---|
| `Game.GameState.constructor` | script.js:2-11 | a new game: balance 0, click power 1, gpu/asic/quantum at level 0 with costs 10/100/1000 and powers 1/10/100, clock at `now`; the state is Sound and OnSchedule |
| `Game.GameState.ClickCrypto` | script.js:53-56 | balance grows by exactly the old click power; click power, upgrades and clock unchanged; both invariants kept |
| `Game.GameState.BuyUpgrade` | script.js:59-69 | if balance < cost nothing changes; otherwise balance drops by exactly the old cost, level +1, cost × 1.5, power unchanged, click power + power; other upgrades, key set and clock unchanged; keeps both invariants and lowers no level or cost |
| `Game.GameState.PassiveIncome` | script.js:72-83 | balance grows by exactly (now − lastUpdate)/1000 × (gpu.level·gpu.power + asic.level·asic.power + quantum.level·quantum.power)/10; clock set to `now`; click power and upgrades unchanged; with the clock not going back the balance does not fall and both invariants hold |
| `Economy.Production` | script.js:75-79 | the income sum is never negative when no power is negative, and is 0 when nothing has been bought |
| `Economy.Purchased` | script.js:59-69 | a purchase leaves the state exactly as it was if and only if the balance is below the cost; it never adds or removes an upgrade |
| `Economy.PurchaseRaisesPrice` | script.js:61-64 | a successful purchase raises the level by exactly 1, sets the cost to exactly 1.5 × the old cost (so a positive cost strictly rises) and leaves balance − cost ≥ 0 |
| `Economy.Initial` | script.js:2-11 | a new game holds exactly the three upgrades, none bought, so its passive income is 0; its clock is `now` |
| `Economy.Clicked` | script.js:53-54 | a click changes only the balance; click power, upgrades and clock stay; in a sound state it earns at least one coin |
| `Economy.Raised` | script.js:63-64 | one more level: level + 1, power unchanged, its level × power share grows by exactly its power, and a positive cost strictly rises |
| `Economy.Contribution` | script.js:76-78 | one upgrade's share level × power is never negative for a non-negative power and is 0 at level 0 |
| `Economy.Accrued` | script.js:72-80 | a tick changes only the balance and moves the clock to `now`; click power and upgrades stay; a tick at the instant of the last payout changes nothing |
| `Economy.ClickCommutesWithAccrual` | script.js:53-80 | a click and a timer tick give the same state in either order |
| `Economy.ClockGoingBackLosesCoins` | script.js:73-80 | a state on schedule with one gpu, no coins and last payout at 20000 ms, ticked at 10000 ms, ends at −1 coins and is not sound |
| `Economy.InitialIsOnSchedule` | script.js:2-11 | the initial state satisfies both invariants |
| `Economy.OnScheduleIsSound` | script.js:61-65 | a state whose costs follow initial cost × 1.5^level and whose click power is 1 + Σ level × power has positive costs and click power ≥ 1 |
| `Economy.ClickKeepsInvariants` | script.js:53-54 | a click keeps Sound and OnSchedule and lowers no level or cost |
| `Economy.RaisedAddsPower` | script.js:63-65 | one more level of an upgrade raises the income sum by exactly its power, as much as the click power rises |
| `Economy.PurchaseKeepsInvariants` | script.js:61-65 | a purchase keeps Sound and OnSchedule (the new cost is the initial cost × 1.5^(level+1)) and lowers no level or cost |
| `Economy.AccrualNeverLoses` | script.js:73-80 | with the clock not going back and no negative power, passive income never lowers the balance; with all levels 0 it leaves it unchanged |
| `Economy.AccrualKeepsInvariants` | script.js:73-80 | with the clock not going back, a payout keeps Sound and OnSchedule and lowers no level or cost |
| `Economy.AccrualSplits` | script.js:72-80 | paying up to t1 and then up to t2 is the same state as paying once up to t2, so the timer's cadence does not change the total and a second payout at the same instant adds nothing |
| `Economy.PassiveIncomeFollowsClickPower` | script.js:65-79 | in a state on schedule the passive income per second is exactly (clickPower − 1)/10 |
| `Session.Step` | script.js:91-95 | handling one event (a click, a tick, or a `Buy` from an upgrade button's `onclick` at script.js line 35) never adds or removes an upgrade |
| `Session.Replay` | script.js:86-96 | handling a whole session in order never adds or removes an upgrade |
| `Session.StepKeepsInvariants` | script.js:53-83 | each handler, with ticks that do not go back in time, keeps Sound and OnSchedule and lowers no level or cost |
| `Session.ReplayAppend` | script.js:86-96 | handling two stretches of events one after the other is handling their concatenation |
| `Session.ReplayKeepsSound` | script.js:53-83 | any sequence of clicks, purchases of the three upgrades and chronological ticks keeps Sound and lowers no level or cost |
| `Session.ReplayKeepsOnSchedule` | script.js:53-83 | any such sequence keeps OnSchedule |
| `Session.ReachableIsOnSchedule` | script.js:2-11 | when timer ticks never go back in time, every state reached from a new game is OnSchedule and Sound (balance ≥ 0, click power ≥ 1, every cost > 0), and no level or cost is below its initial value |
| `Session.ClicksAddUp` | script.js:53-54 | n clicks raise the balance by exactly n × click power and change nothing else |
| `Session.FirstGpuScenario` | script.js:2-80 | from a new game at time 0: ten clicks, buying the gpu, then a tick at 20000 ms give balance 2, click power 2, gpu at level 1 costing 15 |

## Left out

- `loadGame` and `saveGame` (script.js:14-24): localStorage and JSON calls. Loading replaces the whole state without checking it, so nothing is proved about loaded states. The handlers therefore do not require `Valid()`; they only promise to keep it.
- `updateDisplay` (script.js:27-50) and the `updateDisplay()`/`saveGame()` calls at the end of each handler: rendering and storage only.
- The timer itself (`setInterval`, script.js:95) and the `load` listener (script.js:105): the `Session` module models the order in which the handlers run, one event at a time, but not when the timer fires.
- `toggleTheme` (script.js:99-102): a UI class toggle.
- `Date.now()`: the time is passed in as `now`.
- Floating point: `cost *= 1.5`, `/ 1000` and `/ 10` are exact real arithmetic here; IEEE-754 rounding is not modelled.
- Game.GameState.BuyUpgrade: requires `upgradeKey in upgrades`. In the script any other key makes `upgrade` undefined and reading `upgrade.cost` throws. The page only offers the existing keys. Names inherited from `Object.prototype` (such as `toString`) would make the call a silent no-op; the model does not cover that.
- Game.GameState.PassiveIncome: requires the `gpu`, `asic` and `quantum` entries, which the script reads by name and which throw when missing.
- A clock that goes back: `passiveIncome` reads `Date.now()` (script.js:73), which can move backwards, and `loadGame` can restore a `lastUpdate` later than the current time. The next tick then charges negative income and can leave the balance below zero (`Economy.ClockGoingBackLosesCoins`). The model follows the script here. The invariant lemmas therefore assume ticks never go back in time (`Session.Chronological`), and the handlers promise the invariants only under that assumption.
