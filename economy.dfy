/** The economy of the Crypto Tycoon clicker game (script.js): the game state as
    a value, the three things that happen to it (a click, a purchase, a tick of
    passive income) as functions, and the invariants those keep. The class in
    game_state.dfy performs the same steps in place and is specified by these
    functions. */
module Economy {

  /** The three upgrades the game starts with. */
  const Gpu: string := "gpu"
  const Asic: string := "asic"
  const Quantum: string := "quantum"
  const UpgradeKeys: set<string> := {Gpu, Asic, Quantum}

  /** Every purchase multiplies an upgrade's price by this factor. */
  const CostGrowth: real := 1.5
  /** Passive income is this many times slower than the same power spent on clicks. */
  const PassiveDivisor: real := 10.0
  /** Timestamps are milliseconds; income is paid per second. */
  const MillisPerSecond: real := 1000.0

  datatype Upgrade = Upgrade(level: nat, cost: real, power: real)

  /** One snapshot of the game: the balance, the coins one click earns, the
      upgrades by name, and the time of the last passive payout (ms). */
  datatype State = State(crypto: real, clickPower: real, upgrades: map<string, Upgrade>, lastUpdate: int)

  const InitialUpgrades: map<string, Upgrade> :=
    map[Gpu := Upgrade(0, 10.0, 1.0), Asic := Upgrade(0, 100.0, 10.0), Quantum := Upgrade(0, 1000.0, 100.0)]

  /** A fresh game started at time `now`: the three upgrades, none of them
      bought yet, so no passive income. */
  function Initial(now: int): (r: State)
    ensures r.upgrades.Keys == UpgradeKeys && r.lastUpdate == now
    ensures NothingBought(r.upgrades) && Production(r.upgrades) == 0.0
  {
    State(0.0, 1.0, InitialUpgrades, now)
  }

  /** Passive income reads these three entries by name. */
  predicate HasCoreKeys(u: map<string, Upgrade>)
  {
    Gpu in u && Asic in u && Quantum in u
  }

  predicate PowersNonNegative(u: map<string, Upgrade>)
  {
    forall k :: k in u ==> u[k].power >= 0.0
  }

  predicate NothingBought(u: map<string, Upgrade>)
    requires HasCoreKeys(u)
  {
    u[Gpu].level == 0 && u[Asic].level == 0 && u[Quantum].level == 0
  }

  function Contribution(up: Upgrade): (r: real)
    ensures up.power >= 0.0 ==> r >= 0.0
    ensures up.level == 0 ==> r == 0.0
  {
    up.level as real * up.power
  }

  /** Coins per second the upgrades earn before the passive divisor: the sum of
      level × power over the three named upgrades. */
  function Production(u: map<string, Upgrade>): (r: real)
    requires HasCoreKeys(u)
    ensures PowersNonNegative(u) ==> r >= 0.0
    ensures NothingBought(u) ==> r == 0.0
  {
    Contribution(u[Gpu]) + Contribution(u[Asic]) + Contribution(u[Quantum])
  }

  /** Seconds between two millisecond timestamps (negative when the clock went back). */
  function Elapsed(since: int, now: int): real
  {
    (now - since) as real / MillisPerSecond
  }

  // ---------------------------------------------------------------------------
  // The three operations

  /** A click pays the click power into the balance: in a sound state at least
      one coin. Nothing but the balance changes. */
  function Clicked(s: State): (r: State)
    ensures r.clickPower == s.clickPower && r.upgrades == s.upgrades && r.lastUpdate == s.lastUpdate
    ensures Sound(s) ==> r.crypto >= s.crypto + 1.0
  {
    s.(crypto := s.crypto + s.clickPower)
  }

  /** An upgrade after one more level has been bought: its share of the
      income grows by its power, and a positive price strictly rises. */
  function Raised(up: Upgrade): (r: Upgrade)
    ensures r.level == up.level + 1 && r.power == up.power
    ensures Contribution(r) == Contribution(up) + up.power
    ensures up.cost > 0.0 ==> r.cost > up.cost
  {
    up.(level := up.level + 1, cost := up.cost * CostGrowth)
  }

  /** Buying upgrade `key`: paid for only when the balance covers the price,
      otherwise nothing happens at all. */
  function Purchased(s: State, key: string): (r: State)
    requires key in s.upgrades
    ensures r.upgrades.Keys == s.upgrades.Keys
    ensures r == s <==> s.crypto < s.upgrades[key].cost
  {
    var up := s.upgrades[key];
    if s.crypto >= up.cost then
      State(s.crypto - up.cost, s.clickPower + up.power, s.upgrades[key := Raised(up)], s.lastUpdate)
    else
      s
  }

  /** A tick of passive income at time `now`: the seconds since the last tick
      times the production, slowed by the divisor, and the clock moves to `now`. */
  function Accrued(s: State, now: int): (r: State)
    requires HasCoreKeys(s.upgrades)
    ensures r.clickPower == s.clickPower && r.upgrades == s.upgrades && r.lastUpdate == now
    ensures now == s.lastUpdate ==> r == s
  {
    s.(crypto := s.crypto + Elapsed(s.lastUpdate, now) * Production(s.upgrades) / PassiveDivisor,
       lastUpdate := now)
  }

  // ---------------------------------------------------------------------------
  // Invariants

  /** No debt, at least one coin per click, every price positive, no negative
      power, and exactly the three upgrades. */
  predicate Sound(s: State)
  {
    s.upgrades.Keys == UpgradeKeys
    && s.crypto >= 0.0
    && s.clickPower >= 1.0
    && forall k :: k in s.upgrades ==> s.upgrades[k].cost > 0.0 && s.upgrades[k].power >= 0.0
  }

  function Pow(b: real, n: nat): real
  {
    if n == 0 then 1.0 else b * Pow(b, n - 1)
  }

  /** The price of upgrade `key` once `level` of it have been bought. */
  function PriceAt(key: string, level: nat): real
    requires key in InitialUpgrades
  {
    InitialUpgrades[key].cost * Pow(CostGrowth, level)
  }

  /** What every state reachable from the start satisfies: each price follows
      the geometric schedule of its level, powers are the initial ones, and the
      click power is 1 plus everything the purchased levels added. */
  predicate OnSchedule(s: State)
  {
    s.upgrades.Keys == UpgradeKeys
    && s.crypto >= 0.0
    && (forall k :: k in s.upgrades ==>
          s.upgrades[k].power == InitialUpgrades[k].power
          && s.upgrades[k].cost == PriceAt(k, s.upgrades[k].level))
    && s.clickPower == 1.0 + Production(s.upgrades)
  }

  /** No upgrade lost a level, and no price fell. */
  predicate Progressed(before: State, after: State)
  {
    forall k :: k in before.upgrades ==>
      k in after.upgrades
      && after.upgrades[k].level >= before.upgrades[k].level
      && after.upgrades[k].cost >= before.upgrades[k].cost
  }

  // ---------------------------------------------------------------------------
  // Lemmas

  lemma {:induction false} PowAtLeastOne(b: real, n: nat)
    requires b >= 1.0
    ensures Pow(b, n) >= 1.0
  {
    if n > 0 {
      PowAtLeastOne(b, n - 1);
      var p := Pow(b, n - 1);
      assert b * p - p == (b - 1.0) * p;
      assert (b - 1.0) * p >= 0.0;
    }
  }

  lemma InitialIsOnSchedule(now: int)
    ensures OnSchedule(Initial(now))
    ensures Sound(Initial(now))
  {
    var s := Initial(now);
    assert s.upgrades.Keys == UpgradeKeys;
    forall k | k in s.upgrades
      ensures s.upgrades[k].cost == PriceAt(k, s.upgrades[k].level)
    {
      assert s.upgrades[k].level == 0;
    }
  }

  /** The schedule invariant is stronger than the safety invariant. */
  lemma OnScheduleIsSound(s: State)
    requires OnSchedule(s)
    ensures Sound(s)
  {
    forall k | k in s.upgrades
      ensures s.upgrades[k].cost > 0.0 && s.upgrades[k].power >= 0.0
    {
      PowAtLeastOne(CostGrowth, s.upgrades[k].level);
    }
    assert PowersNonNegative(s.upgrades);
  }

  lemma ClickKeepsInvariants(s: State)
    ensures Sound(s) ==> Sound(Clicked(s)) && Progressed(s, Clicked(s))
    ensures OnSchedule(s) ==> OnSchedule(Clicked(s))
  {
    if OnSchedule(s) {
      OnScheduleIsSound(s);
    }
  }

  /** Production after one more level of `key`: it grows by that upgrade's power. */
  lemma RaisedAddsPower(u: map<string, Upgrade>, key: string)
    requires u.Keys == UpgradeKeys && key in u
    ensures Production(u[key := Raised(u[key])]) == Production(u) + u[key].power
  {
  }

  /** One more level keeps a price on its geometric schedule. */
  lemma RaisedStaysOnSchedule(key: string, up: Upgrade)
    requires key in InitialUpgrades && up.cost == PriceAt(key, up.level)
    ensures Raised(up).cost == PriceAt(key, up.level + 1)
  {
    calc {
      Raised(up).cost;
      InitialUpgrades[key].cost * Pow(CostGrowth, up.level) * CostGrowth;
      InitialUpgrades[key].cost * Pow(CostGrowth, up.level + 1);
    }
  }

  lemma PurchaseKeepsOnSchedule(s: State, key: string)
    requires key in s.upgrades && OnSchedule(s)
    ensures OnSchedule(Purchased(s, key))
  {
    var r := Purchased(s, key);
    var up := s.upgrades[key];
    if s.crypto >= up.cost {
      RaisedAddsPower(s.upgrades, key);
      RaisedStaysOnSchedule(key, up);
      OnScheduleIsSound(s);
      assert r.crypto >= 0.0;
      assert r.clickPower == 1.0 + Production(r.upgrades);
    }
  }

  lemma PurchaseKeepsInvariants(s: State, key: string)
    requires key in s.upgrades
    ensures Sound(s) ==> Sound(Purchased(s, key)) && Progressed(s, Purchased(s, key))
    ensures OnSchedule(s) ==> OnSchedule(Purchased(s, key))
  {
    if OnSchedule(s) {
      PurchaseKeepsOnSchedule(s, key);
    }
  }

  /** A successful purchase raises the level by one and the price by half;
      a positive price therefore strictly rises. */
  lemma PurchaseRaisesPrice(s: State, key: string)
    requires key in s.upgrades && s.crypto >= s.upgrades[key].cost
    ensures Purchased(s, key).upgrades[key].level == s.upgrades[key].level + 1
    ensures Purchased(s, key).upgrades[key].cost == CostGrowth * s.upgrades[key].cost
    ensures s.upgrades[key].cost > 0.0 ==> Purchased(s, key).upgrades[key].cost > s.upgrades[key].cost
    ensures Purchased(s, key).crypto == s.crypto - s.upgrades[key].cost >= 0.0
  {
  }

  /** With the clock not going back and no negative power, passive income
      never lowers the balance; with no upgrade bought it leaves it as is. */
  lemma AccrualNeverLoses(s: State, now: int)
    requires HasCoreKeys(s.upgrades) && PowersNonNegative(s.upgrades)
    requires now >= s.lastUpdate
    ensures Accrued(s, now).crypto >= s.crypto
    ensures NothingBought(s.upgrades) ==> Accrued(s, now).crypto == s.crypto
  {
    var e := Elapsed(s.lastUpdate, now);
    var p := Production(s.upgrades);
    assert e >= 0.0 && p >= 0.0;
    assert e * p >= 0.0;
  }

  lemma AccrualKeepsInvariants(s: State, now: int)
    requires HasCoreKeys(s.upgrades) && now >= s.lastUpdate
    ensures Sound(s) ==> Sound(Accrued(s, now)) && Progressed(s, Accrued(s, now))
    ensures OnSchedule(s) ==> OnSchedule(Accrued(s, now))
  {
    if Sound(s) {
      AccrualNeverLoses(s, now);
    }
    if OnSchedule(s) {
      OnScheduleIsSound(s);
      AccrualNeverLoses(s, now);
    }
  }

  /** How often the timer fires does not matter: paying up to `t1` and then up
      to `t2` pays exactly what one payout up to `t2` would. In particular a
      second payout at the same instant adds nothing. */
  lemma AccrualSplits(s: State, t1: int, t2: int)
    requires HasCoreKeys(s.upgrades)
    ensures Accrued(Accrued(s, t1), t2) == Accrued(s, t2)
  {
    var p := Production(s.upgrades);
    var e1, e2 := Elapsed(s.lastUpdate, t1), Elapsed(t1, t2);
    assert e1 + e2 == Elapsed(s.lastUpdate, t2);
    assert e1 * p / PassiveDivisor + e2 * p / PassiveDivisor == (e1 + e2) * p / PassiveDivisor;
  }

  /** A click and a timer tick can be handled in either order. */
  lemma ClickCommutesWithAccrual(s: State, now: int)
    requires HasCoreKeys(s.upgrades)
    ensures Clicked(Accrued(s, now)) == Accrued(Clicked(s), now)
  {
  }

  /** When the clock goes back, the next tick takes coins away. A state on
      schedule with one gpu bought, no coins and its last payout at 20000 ms,
      ticked at 10000 ms, is charged ten seconds of income: it ends one coin in
      debt and is no longer sound. */
  lemma ClockGoingBackLosesCoins()
    ensures OnSchedule(State(0.0, 2.0, InitialUpgrades[Gpu := Upgrade(1, 15.0, 1.0)], 20000))
    ensures Accrued(State(0.0, 2.0, InitialUpgrades[Gpu := Upgrade(1, 15.0, 1.0)], 20000), 10000).crypto == -1.0
    ensures !Sound(Accrued(State(0.0, 2.0, InitialUpgrades[Gpu := Upgrade(1, 15.0, 1.0)], 20000), 10000))
  {
    var s := State(0.0, 2.0, InitialUpgrades[Gpu := Upgrade(1, 15.0, 1.0)], 20000);
    assert Production(s.upgrades) == 1.0;
    assert s.upgrades.Keys == UpgradeKeys;
    assert PriceAt(Gpu, 1) == 15.0;
  }

  lemma MultiplySame(e: real, x: real, y: real)
    requires x == y
    ensures e * x / PassiveDivisor == e * y / PassiveDivisor
  {
  }

  /** In a state on schedule, passive income per second is a tenth of what
      the click power adds beyond the initial single coin. */
  lemma PassiveIncomeFollowsClickPower(s: State, now: int)
    requires OnSchedule(s)
    ensures Accrued(s, now).crypto
              == s.crypto + Elapsed(s.lastUpdate, now) * (s.clickPower - 1.0) / PassiveDivisor
  {
    var e, p := Elapsed(s.lastUpdate, now), Production(s.upgrades);
    assert s.clickPower - 1.0 == p;
    MultiplySame(e, s.clickPower - 1.0, p);
  }
}
