/** The page's single mutable game state and the three handlers that change it
    in place. Each handler is specified field by field and, through Snapshot(),
    by the matching function of module Economy, so the lemmas proved there
    apply to it. */
module Game {
  import opened Economy

  class GameState {
    var crypto: real
    var clickPower: real
    var upgrades: map<string, Upgrade>
    var lastUpdate: int

    /** The fields as a value. */
    function Snapshot(): State
      reads this
    {
      State(crypto, clickPower, upgrades, lastUpdate)
    }

    ghost predicate Valid()
      reads this
    {
      Sound(Snapshot())
    }

    /** A new game at time `now`: no coins, one coin per click, the three
        upgrades at level 0. */
    constructor (now: int)
      ensures Snapshot() == Initial(now)
      ensures Valid() && OnSchedule(Snapshot())
    {
      crypto := 0.0;
      clickPower := 1.0;
      upgrades := InitialUpgrades;
      lastUpdate := now;
      new;
      InitialIsOnSchedule(now);
    }

    /** A click adds the click power to the balance and touches nothing else. */
    method ClickCrypto()
      modifies this
      ensures crypto == old(crypto) + old(clickPower)
      ensures clickPower == old(clickPower) && upgrades == old(upgrades) && lastUpdate == old(lastUpdate)
      ensures Snapshot() == Clicked(old(Snapshot()))
      ensures old(Valid()) ==> Valid()
      ensures old(OnSchedule(Snapshot())) ==> OnSchedule(Snapshot())
    {
      ghost var before := Snapshot();
      crypto := crypto + clickPower;
      ClickKeepsInvariants(before);
    }

    /** Buys one level of `upgradeKey` if the balance covers its price: the
        price is paid, the level rises by one, the price grows by half and the
        click power grows by the upgrade's power. Otherwise nothing changes.
        The key must name an upgrade (the page only offers existing ones). */
    method BuyUpgrade(upgradeKey: string)
      requires upgradeKey in upgrades
      modifies this
      ensures old(crypto) < old(upgrades[upgradeKey].cost) ==>
                crypto == old(crypto) && clickPower == old(clickPower)
                && upgrades == old(upgrades) && lastUpdate == old(lastUpdate)
      ensures old(crypto) >= old(upgrades[upgradeKey].cost) ==>
                crypto == old(crypto) - old(upgrades[upgradeKey].cost)
                && clickPower == old(clickPower) + old(upgrades[upgradeKey].power)
                && upgradeKey in upgrades
                && upgrades[upgradeKey].level == old(upgrades[upgradeKey].level) + 1
                && upgrades[upgradeKey].cost == old(upgrades[upgradeKey].cost) * 1.5
                && upgrades[upgradeKey].power == old(upgrades[upgradeKey].power)
      ensures upgrades.Keys == old(upgrades).Keys
      ensures forall k :: k in old(upgrades) && k != upgradeKey ==> upgrades[k] == old(upgrades)[k]
      ensures lastUpdate == old(lastUpdate)
      ensures Snapshot() == Purchased(old(Snapshot()), upgradeKey)
      ensures old(Valid()) ==> Valid() && Progressed(old(Snapshot()), Snapshot())
      ensures old(OnSchedule(Snapshot())) ==> OnSchedule(Snapshot())
    {
      ghost var before := Snapshot();
      var upgrade := upgrades[upgradeKey];
      if crypto >= upgrade.cost {
        crypto := crypto - upgrade.cost;
        upgrade := upgrade.(level := upgrade.level + 1);
        upgrade := upgrade.(cost := upgrade.cost * CostGrowth);
        upgrades := upgrades[upgradeKey := upgrade];
        clickPower := clickPower + upgrade.power;
      }
      PurchaseKeepsInvariants(before, upgradeKey);
    }

    /** Pays passive income up to time `now` (ms): the seconds since the last
        payout times the sum of level × power over the three upgrades, divided
        by ten; the clock then moves to `now`. */
    method PassiveIncome(now: int)
      requires HasCoreKeys(upgrades)
      modifies this
      ensures crypto == old(crypto) + (now - old(lastUpdate)) as real / 1000.0 * (
                old(upgrades[Gpu].level) as real * old(upgrades[Gpu].power)
                + old(upgrades[Asic].level) as real * old(upgrades[Asic].power)
                + old(upgrades[Quantum].level) as real * old(upgrades[Quantum].power)) / 10.0
      ensures lastUpdate == now
      ensures clickPower == old(clickPower) && upgrades == old(upgrades)
      ensures Snapshot() == Accrued(old(Snapshot()), now)
      ensures old(Valid()) && old(lastUpdate) <= now ==> Valid() && crypto >= old(crypto)
      ensures old(OnSchedule(Snapshot())) && old(lastUpdate) <= now ==> OnSchedule(Snapshot())
    {
      ghost var before := Snapshot();
      var timeDiff := (now - lastUpdate) as real / MillisPerSecond;
      crypto := crypto + timeDiff * (
        upgrades[Gpu].level as real * upgrades[Gpu].power
        + upgrades[Asic].level as real * upgrades[Asic].power
        + upgrades[Quantum].level as real * upgrades[Quantum].power) / PassiveDivisor;
      lastUpdate := now;
      if before.lastUpdate <= now {
        AccrualKeepsInvariants(before, now);
      }
    }
  }
}
