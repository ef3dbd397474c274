/** A play session: the page wires clicks and purchases to the handlers and
    fires passive income from a timer, all on one thread, so a session is a
    sequence of events applied one after another to the game state. */
module Session {
  import opened Economy

  datatype Event = Click | Buy(key: string) | Tick(now: int)

  /** Every purchase names one of the three upgrades (the only buttons the page draws). */
  predicate KnownKeys(events: seq<Event>)
  {
    forall i :: 0 <= i < |events| && events[i].Buy? ==> events[i].key in UpgradeKeys
  }

  /** Timer ticks arrive at times that never go back, starting from `since`. */
  predicate Chronological(since: int, events: seq<Event>)
    decreases |events|
  {
    events == []
    || match events[0]
       case Tick(now) => since <= now && Chronological(now, events[1..])
       case _ => Chronological(since, events[1..])
  }

  function Step(s: State, e: Event): (r: State)
    requires s.upgrades.Keys == UpgradeKeys
    requires e.Buy? ==> e.key in UpgradeKeys
    ensures r.upgrades.Keys == UpgradeKeys
  {
    match e
    case Click => Clicked(s)
    case Buy(key) => Purchased(s, key)
    case Tick(now) => Accrued(s, now)
  }

  /** The state after handling `events` in order. */
  function Replay(s: State, events: seq<Event>): (r: State)
    requires s.upgrades.Keys == UpgradeKeys && KnownKeys(events)
    ensures r.upgrades.Keys == UpgradeKeys
    decreases |events|
  {
    if events == [] then s
    else
      assert KnownKeys(events[1..]) by {
        forall i | 0 <= i < |events| - 1 && events[1..][i].Buy?
          ensures events[1..][i].key in UpgradeKeys
        {
          assert events[1..][i] == events[i + 1];
        }
      }
      Replay(Step(s, events[0]), events[1..])
  }

  /** One event keeps both invariants, lowers no level or price, and leaves the
      clock no earlier than the next tick expects. */
  lemma StepKeepsInvariants(s: State, e: Event)
    requires s.upgrades.Keys == UpgradeKeys && (e.Buy? ==> e.key in UpgradeKeys)
    requires e.Tick? ==> s.lastUpdate <= e.now
    ensures Sound(s) ==> Sound(Step(s, e)) && Progressed(s, Step(s, e))
    ensures OnSchedule(s) ==> OnSchedule(Step(s, e))
  {
    match e
    case Click => ClickKeepsInvariants(s);
    case Buy(key) => PurchaseKeepsInvariants(s, key);
    case Tick(now) => AccrualKeepsInvariants(s, now);
  }

  /** Whatever the player does, and however the timer fires, a sound state
      stays sound and no level or price ever goes down. */
  lemma {:induction false} ReplayKeepsSound(s: State, events: seq<Event>)
    requires s.upgrades.Keys == UpgradeKeys && KnownKeys(events)
    requires Chronological(s.lastUpdate, events)
    requires Sound(s)
    ensures Sound(Replay(s, events))
    ensures Progressed(s, Replay(s, events))
    decreases |events|
  {
    if events != [] {
      var next := Step(s, events[0]);
      StepKeepsInvariants(s, events[0]);
      assert Chronological(next.lastUpdate, events[1..]);
      ReplayKeepsSound(next, events[1..]);
    }
  }

  /** The same for the stronger schedule invariant. */
  lemma {:induction false} ReplayKeepsOnSchedule(s: State, events: seq<Event>)
    requires s.upgrades.Keys == UpgradeKeys && KnownKeys(events)
    requires Chronological(s.lastUpdate, events)
    requires OnSchedule(s)
    ensures OnSchedule(Replay(s, events))
    decreases |events|
  {
    if events != [] {
      var next := Step(s, events[0]);
      StepKeepsInvariants(s, events[0]);
      assert Chronological(next.lastUpdate, events[1..]);
      ReplayKeepsOnSchedule(next, events[1..]);
    }
  }

  /** Every state a session reaches from a new game: no debt, click power at
      least one, positive prices that follow 10·1.5^level, 100·1.5^level and
      1000·1.5^level, and click power equal to 1 plus the production. */
  lemma ReachableIsOnSchedule(start: int, events: seq<Event>)
    requires KnownKeys(events) && Chronological(start, events)
    ensures OnSchedule(Replay(Initial(start), events))
    ensures Sound(Replay(Initial(start), events))
    ensures Progressed(Initial(start), Replay(Initial(start), events))
  {
    InitialIsOnSchedule(start);
    ReplayKeepsOnSchedule(Initial(start), events);
    ReplayKeepsSound(Initial(start), events);
  }

  /** `n` clicks in a row. */
  function Clicks(n: nat): (r: seq<Event>)
    ensures |r| == n && forall i :: 0 <= i < n ==> r[i] == Click
  {
    if n == 0 then [] else [Click] + Clicks(n - 1)
  }

  lemma KnownKeysSplit(a: seq<Event>, b: seq<Event>)
    ensures KnownKeys(a + b) <==> KnownKeys(a) && KnownKeys(b)
  {
    if KnownKeys(a) && KnownKeys(b) {
      forall i | 0 <= i < |a + b| && (a + b)[i].Buy?
        ensures (a + b)[i].key in UpgradeKeys
      {
        if i >= |a| {
          assert (a + b)[i] == b[i - |a|];
        }
      }
    }
    if KnownKeys(a + b) {
      forall i | 0 <= i < |a| && a[i].Buy?
        ensures a[i].key in UpgradeKeys
      {
        assert (a + b)[i] == a[i];
      }
      forall i | 0 <= i < |b| && b[i].Buy?
        ensures b[i].key in UpgradeKeys
      {
        assert (a + b)[|a| + i] == b[i];
      }
    }
  }

  /** Handling two stretches of a session one after the other is handling the
      whole session. */
  lemma {:induction false} ReplayAppend(s: State, a: seq<Event>, b: seq<Event>)
    requires s.upgrades.Keys == UpgradeKeys && KnownKeys(a) && KnownKeys(b)
    ensures KnownKeys(a + b)
    ensures Replay(s, a + b) == Replay(Replay(s, a), b)
    decreases |a|
  {
    KnownKeysSplit(a, b);
    if a != [] {
      assert (a + b)[0] == a[0];
      assert (a + b)[1..] == a[1..] + b;
      KnownKeysSplit([a[0]], a[1..]);
      assert [a[0]] + a[1..] == a;
      ReplayAppend(Step(s, a[0]), a[1..], b);
    } else {
      assert a + b == b;
    }
  }

  /** `n` clicks pay `n` times the click power and change nothing else. */
  lemma {:induction false} ClicksAddUp(s: State, n: nat)
    requires s.upgrades.Keys == UpgradeKeys
    ensures Replay(s, Clicks(n)) == s.(crypto := s.crypto + n as real * s.clickPower)
    decreases n
  {
    if n > 0 {
      var p := s.clickPower;
      var c := Clicked(s);
      assert Clicks(n)[1..] == Clicks(n - 1);
      ClicksAddUp(c, n - 1);
      assert s.crypto + p + (n - 1) as real * p == s.crypto + n as real * p;
    }
  }

  /** Buying the first gpu with ten coins, then twenty seconds of its income. */
  lemma FirstGpuSteps()
    ensures Step(Initial(0).(crypto := 10.0), Buy(Gpu))
            == State(0.0, 2.0, InitialUpgrades[Gpu := Upgrade(1, 15.0, 1.0)], 0)
    ensures Step(State(0.0, 2.0, InitialUpgrades[Gpu := Upgrade(1, 15.0, 1.0)], 0), Tick(20000))
            == State(2.0, 2.0, InitialUpgrades[Gpu := Upgrade(1, 15.0, 1.0)], 20000)
  {
    assert Production(InitialUpgrades[Gpu := Upgrade(1, 15.0, 1.0)]) == 1.0;
  }

  /** Ten clicks in a new game buy the first GPU; twenty seconds later that
      GPU has paid two coins of passive income. */
  lemma FirstGpuScenario()
    ensures KnownKeys(Clicks(10) + [Buy(Gpu), Tick(20000)])
    ensures Replay(Initial(0), Clicks(10) + [Buy(Gpu), Tick(20000)])
            == State(2.0, 2.0, InitialUpgrades[Gpu := Upgrade(1, 15.0, 1.0)], 20000)
  {
    var rest := [Buy(Gpu), Tick(20000)];
    var bought := State(0.0, 2.0, InitialUpgrades[Gpu := Upgrade(1, 15.0, 1.0)], 0);
    ReplayAppend(Initial(0), Clicks(10), rest);
    calc {
      Replay(Initial(0), Clicks(10) + rest);
      Replay(Replay(Initial(0), Clicks(10)), rest);
      { ClicksAddUp(Initial(0), 10); }
      Replay(Initial(0).(crypto := 10.0), rest);
      { assert rest[1..] == [Tick(20000)]; FirstGpuSteps(); }
      Replay(bought, [Tick(20000)]);
      { assert [Tick(20000)][1..] == []; FirstGpuSteps(); }
      State(2.0, 2.0, InitialUpgrades[Gpu := Upgrade(1, 15.0, 1.0)], 20000);
    }
  }
}
