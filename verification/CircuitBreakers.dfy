/** The circuit breakers: daily loss, fat finger, order rate and consecutive
    errors. The rate limiter is a sliding window over registration times plus a
    per-day counter; the theorem at the end says what the two guarantee about
    every run of checks and registrations. */
module CircuitBreakers {
  import opened Common

  datatype BreakerLimits = BreakerLimits(maxDailyLossPct: real, maxOrdersPerWindow: int, maxOrdersPerDay: int,
                                         maxConsecutiveErrors: int, fatFingerBandPct: real, windowSeconds: real)

  predicate LossTripped(limitPct: real, start: real, current: real) {
    start > 0.0 && (start - current) / start * 100.0 >= limitPct
  }

  predicate PriceTripped(limits: BreakerLimits, orderPrice: real, lastPrice: real) {
    lastPrice > 0.0 && Abs(orderPrice - lastPrice) / lastPrice * 100.0 > limits.fatFingerBandPct
  }

  /** The loss breaker trips once equity is down to a `limitPct` percent loss, on a day
      that started with something to lose. */
  lemma LossInDollars(limitPct: real, start: real, current: real)
    ensures LossTripped(limitPct, start, current) <==> start > 0.0 && current <= start * (1.0 - limitPct / 100.0)
  {
    if start > 0.0 {
      var down := (start - current) / start;
      assert down * start == start - current;
      if down * 100.0 >= limitPct {
        MulLe(start, limitPct / 100.0, down);
      } else {
        MulLt(start, down, limitPct / 100.0);
      }
    }
  }

  /** The fat-finger breaker refuses a price more than the band away from the last. */
  lemma PriceInDollars(limits: BreakerLimits, orderPrice: real, lastPrice: real)
    ensures PriceTripped(limits, orderPrice, lastPrice)
       <==> lastPrice > 0.0 && (orderPrice > lastPrice * (1.0 + limits.fatFingerBandPct / 100.0)
                             || orderPrice < lastPrice * (1.0 - limits.fatFingerBandPct / 100.0))
  {
    if lastPrice > 0.0 {
      var off, band := Abs(orderPrice - lastPrice) / lastPrice, limits.fatFingerBandPct / 100.0;
      assert off * lastPrice == Abs(orderPrice - lastPrice);
      if off > band {
        MulLt(lastPrice, band, off);
      } else {
        MulLe(lastPrice, off, band);
      }
    }
  }

  // ----- the limiter as a value -----

  /** Recent registration times, today's count, and the day it belongs to. */
  datatype Limiter = Limiter(times: seq<real>, today: nat, day: Option<int>)

  const FRESH: Limiter := Limiter([], 0, None)

  /** Drops from the front whatever has left the window ending at `now`. */
  function Expired(times: seq<real>, now: real, window: real): (r: seq<real>)
    decreases |times|
  {
    if times != [] && now - times[0] > window then Expired(times[1..], now, window) else times
  }

  /** A new trading day starts counting from zero. */
  function Rolled(l: Limiter, day: int): Limiter {
    if l.day == Some(day) then l else l.(today := 0, day := Some(day))
  }

  function Checked(limits: BreakerLimits, l: Limiter, now: real, day: int): Limiter {
    Rolled(l.(times := Expired(l.times, now, limits.windowSeconds)), day)
  }

  predicate RateOk(limits: BreakerLimits, l: Limiter) {
    |l.times| < limits.maxOrdersPerWindow && l.today < limits.maxOrdersPerDay
  }

  function Registered(l: Limiter, now: real, day: int): Limiter {
    var r := Rolled(l, day);
    r.(times := r.times + [now], today := r.today + 1)
  }

  // ----- the object -----

  class Breakers {
    const limits: BreakerLimits
    const etDay: real -> int
    var orderTimes: seq<real>
    var ordersToday: nat
    var orderDay: Option<int>
    var consecutiveErrors: nat

    constructor (limits: BreakerLimits, etDay: real -> int)
      ensures this.limits == limits && this.etDay == etDay
      ensures View() == FRESH && consecutiveErrors == 0
    {
      this.limits, this.etDay := limits, etDay;
      orderTimes, ordersToday, orderDay, consecutiveErrors := [], 0, None, 0;
    }

    function View(): Limiter
      reads this
    {
      Limiter(orderTimes, ordersToday, orderDay)
    }

    method CheckRateLimits(now: real) returns (ok: bool)
      modifies this`orderTimes, this`ordersToday, this`orderDay
      ensures View() == Checked(limits, old(View()), now, etDay(now))
      ensures ok == RateOk(limits, View())
    {
      Expire(now);
      RollDay(now);
      if |orderTimes| >= limits.maxOrdersPerWindow {
        return false;
      }
      ok := ordersToday < limits.maxOrdersPerDay;
    }

    method RegisterOrder(now: real)
      modifies this`orderTimes, this`ordersToday, this`orderDay
      ensures View() == Registered(old(View()), now, etDay(now))
    {
      RollDay(now);
      orderTimes := orderTimes + [now];
      ordersToday := ordersToday + 1;
    }

    method Expire(now: real)
      modifies this`orderTimes
      ensures orderTimes == Expired(old(orderTimes), now, limits.windowSeconds)
    {
      while orderTimes != [] && now - orderTimes[0] > limits.windowSeconds
        invariant Expired(orderTimes, now, limits.windowSeconds) == Expired(old(orderTimes), now, limits.windowSeconds)
        decreases |orderTimes|
      {
        orderTimes := orderTimes[1..];
      }
    }

    method RollDay(now: real)
      modifies this`ordersToday, this`orderDay
      ensures View() == Rolled(old(View()), etDay(now))
    {
      if orderDay != Some(etDay(now)) {
        ordersToday, orderDay := 0, Some(etDay(now));
      }
    }

    method RegisterError() returns (ok: bool)
      modifies this`consecutiveErrors
      ensures consecutiveErrors == old(consecutiveErrors) + 1
      ensures ok <==> consecutiveErrors < limits.maxConsecutiveErrors
    {
      consecutiveErrors := consecutiveErrors + 1;
      ok := consecutiveErrors < limits.maxConsecutiveErrors;
    }

    method ResetErrors()
      modifies this`consecutiveErrors
      ensures consecutiveErrors == 0
    {
      consecutiveErrors := 0;
    }
  }

  // ----- counting -----

  predicate Sorted(times: seq<real>) {
    forall i, j :: 0 <= i < j < |times| ==> times[i] <= times[j]
  }

  predicate UpTo(times: seq<real>, now: real) {
    forall i :: 0 <= i < |times| ==> times[i] <= now
  }

  function CountIn(times: seq<real>, from: real, to: real): nat {
    if times == [] then 0
    else CountIn(times[..|times| - 1], from, to) + if from <= times[|times| - 1] <= to then 1 else 0
  }

  function CountOn(times: seq<real>, etDay: real -> int, day: int): nat {
    if times == [] then 0
    else CountOn(times[..|times| - 1], etDay, day) + if etDay(times[|times| - 1]) == day then 1 else 0
  }

  /** How many fall in the closed window of the given length from `from`. */
  function CountFrom(times: seq<real>, from: real, window: real): nat {
    CountIn(times, from, from + window)
  }

  /** The most a window can hold is what remains once earlier times are cut off. */
  lemma {:induction false} CountInSuffix(times: seq<real>, from: real, to: real, k: nat)
    requires k <= |times| && forall i :: 0 <= i < k ==> times[i] < from
    ensures CountIn(times, from, to) <= |times| - k
  {
    if |times| > k {
      CountInSuffix(times[..|times| - 1], from, to, k);
    } else if times != [] {
      CountInSuffix(times[..|times| - 1], from, to, k - 1);
    }
  }

  /** On sorted times the deque after expiry is the in-window suffix: all that
      went left the window, and nothing kept did. */
  lemma {:induction false} ExpiredIsWindow(times: seq<real>, now: real, window: real)
    requires Sorted(times)
    ensures var kept := Expired(times, now, window);
      && |kept| <= |times| && kept == times[|times| - |kept|..]
      && (forall i :: 0 <= i < |times| - |kept| ==> now - times[i] > window)
      && (forall i :: 0 <= i < |kept| ==> now - kept[i] <= window)
    decreases |times|
  {
    if times != [] && now - times[0] > window {
      ExpiredIsWindow(times[1..], now, window);
      var kept := Expired(times[1..], now, window);
      forall i | 0 <= i < |times| - |kept| ensures now - times[i] > window {
        assert i > 0 ==> times[i] == times[1..][i - 1];
      }
    }
  }

  // ----- runs -----

  datatype Event = Check(now: real) | Register(now: real)

  function Step(limits: BreakerLimits, etDay: real -> int, l: Limiter, e: Event): Limiter {
    match e
    case Check(now) => Checked(limits, l, now, etDay(now))
    case Register(now) => Registered(l, now, etDay(now))
  }

  function Run(limits: BreakerLimits, etDay: real -> int, events: seq<Event>): Limiter {
    if events == [] then FRESH
    else Step(limits, etDay, Run(limits, etDay, events[..|events| - 1]), events[|events| - 1])
  }

  function History(events: seq<Event>): seq<real> {
    if events == [] then []
    else History(events[..|events| - 1]) + if events[|events| - 1].Register? then [events[|events| - 1].now] else []
  }

  /** The clock never runs backwards. */
  predicate Ordered(events: seq<Event>) {
    forall i, j :: 0 <= i < j < |events| ==> events[i].now <= events[j].now
  }

  /** The latest event is a check that passed. */
  predicate Armed(limits: BreakerLimits, etDay: real -> int, events: seq<Event>) {
    events != [] && events[|events| - 1].Check? && RateOk(limits, Run(limits, etDay, events))
  }

  /** Every registration comes straight after a check that passed, as evaluating,
      submitting and registering one order does. */
  predicate Guarded(limits: BreakerLimits, etDay: real -> int, events: seq<Event>) {
    events == [] ||
    var before := events[..|events| - 1];
    Guarded(limits, etDay, before) && (events[|events| - 1].Register? ==> Armed(limits, etDay, before))
  }

  ghost predicate DaysMoveForward(etDay: real -> int) {
    forall a: real, b: real :: a <= b ==> etDay(a) <= etDay(b)
  }

  /** What the limiter remembers of the full history at time `now`. */
  ghost predicate Remembers(limits: BreakerLimits, etDay: real -> int, l: Limiter, history: seq<real>, now: real) {
    && Sorted(history) && UpTo(history, now)
    && |l.times| <= |history| && l.times == history[|history| - |l.times|..]
    && (forall i :: 0 <= i < |history| - |l.times| ==> now - history[i] > limits.windowSeconds)
    && l.day == Some(etDay(now)) && l.today == CountOn(history, etDay, etDay(now))
  }

  lemma {:induction false} NoneOnLaterDay(times: seq<real>, etDay: real -> int, now: real, day: int)
    requires DaysMoveForward(etDay) && UpTo(times, now) && etDay(now) < day
    ensures CountOn(times, etDay, day) == 0
  {
    if times != [] {
      NoneOnLaterDay(times[..|times| - 1], etDay, now, day);
    }
  }

  /** Rolling to `later` keeps today's count true. */
  lemma RollCounts(etDay: real -> int, l: Limiter, history: seq<real>, now: real, later: real)
    requires DaysMoveForward(etDay) && now <= later && UpTo(history, now)
    requires l.day == Some(etDay(now)) && l.today == CountOn(history, etDay, etDay(now))
    ensures Rolled(l, etDay(later)).today == CountOn(history, etDay, etDay(later))
  {
    if etDay(now) != etDay(later) {
      NoneOnLaterDay(history, etDay, now, etDay(later));
    }
  }

  lemma CheckRemembers(limits: BreakerLimits, etDay: real -> int, l: Limiter, history: seq<real>, now: real, later: real)
    requires DaysMoveForward(etDay) && now <= later && Remembers(limits, etDay, l, history, now)
    ensures Remembers(limits, etDay, Checked(limits, l, later, etDay(later)), history, later)
  {
    var n := |history| - |l.times|;
    ExpiredIsWindow(l.times, later, limits.windowSeconds);
    RollCounts(etDay, l, history, now, later);
    var kept := Expired(l.times, later, limits.windowSeconds);
    forall i | 0 <= i < |history| - |kept| ensures later - history[i] > limits.windowSeconds {
      assert i >= n ==> history[i] == l.times[i - n];
    }
  }

  lemma RegisterRemembers(limits: BreakerLimits, etDay: real -> int, l: Limiter, history: seq<real>, now: real, later: real)
    requires DaysMoveForward(etDay) && now <= later && Remembers(limits, etDay, l, history, now)
    ensures Remembers(limits, etDay, Registered(l, later, etDay(later)), history + [later], later)
  {
    RollCounts(etDay, l, history, now, later);
    assert (history + [later])[..|history|] == history;
  }

  /** Within the caps over every closed window and every day. */
  ghost predicate WithinCaps(limits: BreakerLimits, etDay: real -> int, history: seq<real>) {
    && (forall from: real :: CountFrom(history, from, limits.windowSeconds) <= limits.maxOrdersPerWindow)
    && (forall day :: CountOn(history, etDay, day) <= limits.maxOrdersPerDay)
  }

  lemma RegisterStaysWithin(limits: BreakerLimits, etDay: real -> int, l: Limiter, history: seq<real>, now: real, later: real)
    requires DaysMoveForward(etDay) && now <= later && Remembers(limits, etDay, l, history, now)
    requires RateOk(limits, l) && WithinCaps(limits, etDay, history)
    ensures WithinCaps(limits, etDay, history + [later])
  {
    var longer := history + [later];
    assert longer[..|history|] == history;
    RollCounts(etDay, l, history, now, later);
    forall from: real ensures CountFrom(longer, from, limits.windowSeconds) <= limits.maxOrdersPerWindow {
      assert CountFrom(history, from, limits.windowSeconds) <= limits.maxOrdersPerWindow;
      if from <= later <= from + limits.windowSeconds {
        CountInSuffix(history, from, from + limits.windowSeconds, |history| - |l.times|);
      }
    }
    forall day ensures CountOn(longer, etDay, day) <= limits.maxOrdersPerDay {
      assert CountOn(history, etDay, day) <= limits.maxOrdersPerDay;
    }
  }

  lemma EmptyWithin(limits: BreakerLimits, etDay: real -> int)
    requires limits.maxOrdersPerWindow >= 0 && limits.maxOrdersPerDay >= 0
    ensures WithinCaps(limits, etDay, [])
  {
  }

  lemma FirstCheckRemembers(limits: BreakerLimits, etDay: real -> int, e: Event)
    ensures e.Check? ==> Remembers(limits, etDay, Step(limits, etDay, FRESH, e), [], e.now)
  {
  }

  /** For every run with a clock that never goes back and a passing check before
      each registration: any closed interval of window length holds at most the
      per-window cap, any trading day at most the per-day cap, and the limiter
      holds exactly the history's tail it needs to know that. */
  lemma {:induction false} RunsStayWithinCaps(limits: BreakerLimits, etDay: real -> int, events: seq<Event>)
    requires DaysMoveForward(etDay) && Ordered(events) && Guarded(limits, etDay, events)
    requires limits.maxOrdersPerWindow >= 0 && limits.maxOrdersPerDay >= 0
    ensures WithinCaps(limits, etDay, History(events))
    ensures events != [] ==>
      Remembers(limits, etDay, Run(limits, etDay, events), History(events), events[|events| - 1].now)
  {
    hide Expired, Rolled, CountIn, CountOn, DaysMoveForward;
    EmptyWithin(limits, etDay);
    if |events| == 1 {
      FirstCheckRemembers(limits, etDay, events[0]);
      assert events[..0] == [] && History(events) == [];
    } else if events != [] {
      var n := |events| - 1;
      var before, e := events[..n], events[n];
      hide Remembers, WithinCaps;
      RunsStayWithinCaps(limits, etDay, before);
      var l, history := Run(limits, etDay, before), History(before);
      var now := before[n - 1].now;
      assert before[n - 1] == events[n - 1];
      if e.Check? {
        CheckRemembers(limits, etDay, l, history, now, e.now);
        assert history + [] == history;
      } else {
        RegisterRemembers(limits, etDay, l, history, now, e.now);
        RegisterStaysWithin(limits, etDay, l, history, now, e.now);
      }
    }
  }

  /** Right after a check the deque is exactly the part of the whole history
      that lies within the window. */
  lemma DequeIsTheWindow(limits: BreakerLimits, etDay: real -> int, events: seq<Event>)
    requires DaysMoveForward(etDay) && Ordered(events) && Guarded(limits, etDay, events)
    requires limits.maxOrdersPerWindow >= 0 && limits.maxOrdersPerDay >= 0
    requires events != [] && events[|events| - 1].Check?
    ensures var times, history := Run(limits, etDay, events).times, History(events);
      && |times| <= |history|
      && forall i :: 0 <= i < |history| ==>
           (i >= |history| - |times| <==> events[|events| - 1].now - history[i] <= limits.windowSeconds)
  {
    RunsStayWithinCaps(limits, etDay, events);
    var n, now := |events| - 1, events[|events| - 1].now;
    var l, history := Run(limits, etDay, events[..n]), History(events);
    assert history == History(events[..n]);
    assert Sorted(l.times) by {
      if n > 0 { RunsStayWithinCaps(limits, etDay, events[..n]); }
    }
    ExpiredIsWindow(l.times, now, limits.windowSeconds);
    var times := Run(limits, etDay, events).times;
    assert times == Expired(l.times, now, limits.windowSeconds);
    forall i | |history| - |times| <= i < |history| ensures now - history[i] <= limits.windowSeconds {
      assert history[i] == times[i - (|history| - |times|)];
    }
  }

  /** A tail that lies in the window, after times that do not, is what the window
      holds. */
  lemma {:induction false} CountInTail(times: seq<real>, from: real, to: real, k: nat)
    requires k <= |times|
    requires forall i :: 0 <= i < |times| ==> if i < k then times[i] < from else from <= times[i] <= to
    ensures CountIn(times, from, to) == |times| - k
  {
    if |times| > k {
      CountInTail(times[..|times| - 1], from, to, k);
    } else if times != [] {
      CountInTail(times[..|times| - 1], from, to, k - 1);
    }
  }

  /** A check passes if and only if the whole history, not just what the deque still
      holds, has room in the window ending now and on the trading day of now. */
  lemma CheckPassesIff(limits: BreakerLimits, etDay: real -> int, events: seq<Event>)
    requires DaysMoveForward(etDay) && Ordered(events) && Guarded(limits, etDay, events)
    requires limits.maxOrdersPerWindow >= 0 && limits.maxOrdersPerDay >= 0
    requires events != [] && events[|events| - 1].Check?
    ensures var history, now := History(events), events[|events| - 1].now;
      RateOk(limits, Run(limits, etDay, events))
      <==> CountFrom(history, now - limits.windowSeconds, limits.windowSeconds) < limits.maxOrdersPerWindow
           && CountOn(history, etDay, etDay(now)) < limits.maxOrdersPerDay
  {
    hide Run, CountIn, CountOn;
    RunsStayWithinCaps(limits, etDay, events);
    DequeIsTheWindow(limits, etDay, events);
    var l, history, now := Run(limits, etDay, events), History(events), events[|events| - 1].now;
    CountInTail(history, now - limits.windowSeconds, now, |history| - |l.times|);
  }
}
