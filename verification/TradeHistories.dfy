/** Every position and every trade of a backtest, told from the bars alone: which
    signal asked for it, which open filled it, where its ladder stood after the
    closes since, and what ended it. */
module TradeHistories {
  import opened Common
  import opened Rounding
  import opened Ratchets
  import opened RiskGate
  import opened SentimentGate
  import opened Backtesting
  import opened BacktestLaws
  import opened TradeMath
  import EntryLoop

  // ----- bars -----

  /** The closes of a frame from one date on. */
  function ClosesFrom(f: Frame, from: Date): seq<real>
    decreases |f|
  {
    if f == [] || f[|f| - 1].date < from then [] else ClosesFrom(f[..|f| - 1], from) + [f[|f| - 1].close]
  }

  /** No bar falls after `early` and up to `late`. */
  predicate Gap(f: Frame, early: Date, late: Date) {
    forall j :: 0 <= j < |f| ==> f[j].date <= early || f[j].date > late
  }

  lemma {:induction false} GapAddsNothing(f: Frame, early: Date, late: Date)
    requires Chronological(f) && early <= late && Gap(f, early, late)
    ensures Upto(f, late) == Upto(f, early)
    decreases |f|
  {
    if f != [] && f[|f| - 1].date > early {
      GapAddsNothing(f[..|f| - 1], early, late);
    }
  }

  /** A day adds its own bar, if it has one. */
  lemma {:induction false} DayAddsBar(f: Frame, today: Date)
    requires Chronological(f)
    ensures BarOn(f, today).Some? ==> Upto(f, today) == Upto(f, today - 1) + [BarOn(f, today).value] && BarOn(f, today).value.date == today
    ensures BarOn(f, today).None? ==> Upto(f, today) == Upto(f, today - 1)
    decreases |f|
  {
    if f != [] {
      var n := |f| - 1;
      if f[n].date > today {
        DayAddsBar(f[..n], today);
      } else if f[n].date == today {
        assert n > 0 ==> f[n - 1].date < today;
        assert Upto(f[..n], today - 1) == f[..n];
      }
    }
  }

  lemma BetweenDaysNothing(data: Data, dates: seq<Date>, k: nat, symbol: Symbol)
    requires ValidData(data) && IsTimeline(data, dates) && 0 < k < |dates| && symbol in data.symbols
    ensures Upto(data.frames(symbol), dates[k] - 1) == Upto(data.frames(symbol), dates[k - 1])
  {
    var f := data.frames(symbol);
    forall j | 0 <= j < |f| ensures f[j].date <= dates[k - 1] || f[j].date >= dates[k] {
      BarOnIff(f, f[j].date);
      assert HasBar(f, f[j].date);
      assert TradingDay(data, f[j].date);
      assert f[j].date in dates;
    }
    GapAddsNothing(f, dates[k - 1], dates[k] - 1);
  }

  // ----- orders, positions and trades, from the bars -----

  /** On `day`, a day the symbol trades, the strategy routed to asks for this side. */
  predicate AskedFor(r: Rules, data: Data, symbol: Symbol, side: Side, strategy: string, day: Date) {
    && symbol in data.symbols && BarOn(data.frames(symbol), day).Some?
    && r.route(Upto(data.frames(symbol), day)) == Some(strategy)
    && Asked(r, data, day, symbol).Some? && Asked(r, data, day, symbol).value.side == side
  }

  /** Asked for at a close, and its symbol has not traded since. */
  predicate OrderAt(r: Rules, data: Data, o: Order, through: Date) {
    var f := data.frames(o.symbol);
    && AskedFor(r, data, o.symbol, o.side, o.strategy, o.signalDate) && o.qty >= 1.0
    && o.atr == BarOn(f, o.signalDate).value.atr && Upto(f, through) == Upto(f, o.signalDate)
  }

  /** Asked for at a close and filled, with slippage, at the open of the very next bar. */
  predicate Entered(r: Rules, data: Data, p: Held) {
    var f, target := data.frames(p.symbol), r.targetPct(p.strategy);
    && AskedFor(r, data, p.symbol, p.side, p.strategy, p.signalDate) && p.qty >= 1.0
    && BarOn(f, p.entryDate).Some? && Upto(f, p.entryDate - 1) == Upto(f, p.signalDate)
    && p.entryPrice == BarOn(f, p.entryDate).value.open * (if p.side.Long? then 1.0 + r.slip else 1.0 - r.slip)
    && p.takeProfit == if target.None? then None else Some(GainLevel(p.entryPrice, p.side, target.value))
  }

  /** The ladder it started with: its strategy's, at its entry, on the signal's ATR. */
  function FirstLadder(r: Rules, data: Data, p: Held): Ratchet
    requires Entered(r, data, p)
  {
    Build(r.ladder(p.strategy), p.entryPrice, p.side, Some(BarOn(data.frames(p.symbol), p.signalDate).value.atr)).value
  }

  /** Its ladder is the first one fed, in order, every close since the entry. */
  predicate TrailedThrough(r: Rules, data: Data, p: Held, through: Date) {
    && Entered(r, data, p)
    && p.ratchet == Ratchets.Feed(FirstLadder(r, data, p), ClosesFrom(Upto(data.frames(p.symbol), through), p.entryDate))
  }

  predicate ReachesStop(p: Held, bar: Bar) {
    if p.side.Long? then bar.low <= p.ratchet.stop else bar.high >= p.ratchet.stop
  }

  predicate ReachesTarget(p: Held, bar: Bar) {
    && p.takeProfit.Some? && p.takeProfit.value != 0.0
    && if p.side.Long? then bar.high >= p.takeProfit.value else bar.low <= p.takeProfit.value
  }

  /** What ended the position that day, and at which price. */
  predicate EndedBy(r: Rules, data: Data, p: Held, t: Trade) {
    var f := data.frames(p.symbol);
    && BarOn(f, t.exitDate).Some?
    && var bar := BarOn(f, t.exitDate).value;
       var exitSignal := r.shouldExit(p.strategy, p.symbol, Upto(f, t.exitDate), p.side);
       match t.reason
       case StopHit => ReachesStop(p, bar) && t == Close(r, p, p.ratchet.stop, t.exitDate, StopHit)
       case TargetHit => !ReachesStop(p, bar) && ReachesTarget(p, bar) && t == Close(r, p, p.takeProfit.value, t.exitDate, TargetHit)
       case SignalExit => !ReachesStop(p, bar) && !ReachesTarget(p, bar) && exitSignal && t == Close(r, p, bar.close, t.exitDate, SignalExit)
       case DataEnd =>
         && !ReachesStop(p, bar) && !ReachesTarget(p, bar) && !exitSignal && EndsOn(f, t.exitDate)
         && t == Close(r, p, bar.close, t.exitDate, DataEnd)
  }

  /** The trade closed a position whose ladder had been fed the closes from its entry
      to the day before, and was ended by the bar of its exit date. */
  ghost predicate Explained(r: Rules, data: Data, t: Trade) {
    exists p :: TrailedThrough(r, data, p, t.exitDate - 1) && p.entryDate <= t.exitDate && EndedBy(r, data, p, t)
  }

  ghost predicate AllExplained(r: Rules, data: Data, b: Book, through: Date) {
    && (forall o :: o in b.pending ==> OrderAt(r, data, o, through))
    && (forall p :: p in b.positions ==> TrailedThrough(r, data, p, through) && p.entryDate <= through)
    && (forall t :: t in b.trades ==> Explained(r, data, t))
  }

  // ----- one day -----

  predicate Fills(r: Rules, data: Data, today: Date, o: Order, p: Held) {
    TradesOn(data, o.symbol, today) && p == FillEntry(r, o, BarOn(data.frames(o.symbol), today).value, today)
  }

  lemma {:induction false} FilledBy(r: Rules, data: Data, today: Date, orders: seq<Order>, p: Held)
    requires p in Filled(r, data, today, orders)
    ensures exists o :: o in orders && Fills(r, data, today, o, p)
  {
    hide BarOn, FillEntry;
    var n := |orders| - 1;
    if p in Filled(r, data, today, orders[..n]) {
      FilledBy(r, data, today, orders[..n], p);
      var o :| o in orders[..n] && Fills(r, data, today, o, p);
      assert o in orders;
    } else {
      assert orders[n] in orders;
    }
  }

  lemma FillIsEntered(r: Rules, data: Data, today: Date, o: Order, p: Held)
    requires ValidData(data) && OrderAt(r, data, o, today - 1) && Fills(r, data, today, o, p)
    ensures TrailedThrough(r, data, p, today - 1) && p.entryDate == today
  {
    hide Upto, Asked;
    var f := data.frames(o.symbol);
    ClosesBefore(f, today);
  }

  lemma {:induction false} ClosesBefore(f: Frame, today: Date)
    ensures ClosesFrom(Upto(f, today - 1), today) == []
    decreases |f|
  {
    if f != [] && f[|f| - 1].date >= today {
      ClosesBefore(f[..|f| - 1], today);
    }
  }

  lemma KeptIsFed(r: Rules, data: Data, today: Date, p: Held, q: Held)
    requires ManageOn(r, data, today, p) == Kept(q)
    ensures var bar := BarOn(data.frames(p.symbol), today);
      q == p.(ratchet := if bar.Some? then Updated(p.ratchet, bar.value.close, None) else p.ratchet)
  {
    hide Upto, BarOn, Updated, Close;
  }

  lemma ClosesToday(f: Frame, today: Date, from: Date)
    requires Chronological(f) && from <= today
    ensures var before, bar := ClosesFrom(Upto(f, today - 1), from), BarOn(f, today);
      ClosesFrom(Upto(f, today), from) == if bar.Some? then before + [bar.value.close] else before
  {
    hide BarOn;
    DayAddsBar(f, today);
    if BarOn(f, today).Some? {
      assert Upto(f, today)[..|Upto(f, today)| - 1] == Upto(f, today - 1);
    }
  }

  lemma FeedOneMore(ladder: Ratchet, prices: seq<real>, price: real)
    ensures Ratchets.Feed(ladder, prices + [price]) == Updated(Ratchets.Feed(ladder, prices), price, None)
  {
    hide Updated;
    assert (prices + [price])[..|prices|] == prices;
  }

  /** A kept position's ladder is fed the day's close; nothing is fed on a day its
      symbol does not trade. */
  lemma KeptTrails(r: Rules, data: Data, today: Date, p: Held, q: Held)
    requires ValidData(data) && TrailedThrough(r, data, p, today - 1) && p.entryDate <= today
    requires ManageOn(r, data, today, p) == Kept(q)
    ensures TrailedThrough(r, data, q, today) && q.entryDate == p.entryDate
  {
    hide Upto, BarOn, Updated, AskedFor, GainLevel, ManageOn, ClosesFrom, Ratchets.Feed, Build;
    var f := data.frames(p.symbol);
    KeptIsFed(r, data, today, p, q);
    ClosesToday(f, today, p.entryDate);
    if BarOn(f, today).Some? {
      FeedOneMore(FirstLadder(r, data, p), ClosesFrom(Upto(f, today - 1), p.entryDate), BarOn(f, today).value.close);
    }
  }

  lemma ExitIsExplained(r: Rules, data: Data, today: Date, p: Held, t: Trade)
    requires TrailedThrough(r, data, p, today - 1) && p.entryDate <= today
    requires ManageOn(r, data, today, p) == Exited(t)
    ensures Explained(r, data, t)
  {
    hide Upto, BarOn, RoundTo, NetGain, TrailedThrough;
    assert t.exitDate == today;
    assert EndedBy(r, data, p, t);
  }

  lemma {:induction false} ExitComesFrom(r: Rules, data: Data, today: Date, ps: seq<Held>, t: Trade)
    requires t in Exits(r, data, today, ps)
    ensures exists p :: p in ps && ManageOn(r, data, today, p) == Exited(t)
  {
    hide ManageOn;
    var n := |ps| - 1;
    if t in Exits(r, data, today, ps[..n]) {
      ExitComesFrom(r, data, today, ps[..n], t);
      var p :| p in ps[..n] && ManageOn(r, data, today, p) == Exited(t);
      assert p in ps;
    } else {
      assert ps[n] in ps;
    }
  }

  lemma {:induction false} QueuedIsAsked(r: Rules, data: Data, today: Date, equity: real, ps: seq<Held>, pending: seq<Order>,
                                         todo: seq<Symbol>, o: Order)
    requires ValidData(data) && (forall s :: s in todo ==> s in data.symbols)
    requires o in Enter(r, data, today, equity, ps, pending, todo)
    ensures o in pending || OrderAt(r, data, o, today)
    decreases |todo|
  {
    hide Consider, BarOn, Upto, OrderAt, Holds, Queued;
    if todo != [] {
      var order := Consider(r, data, today, equity, ps, todo[0]);
      if Holds(ps, todo[0]) || Queued(pending, todo[0]) || BarOn(data.frames(todo[0]), today).None? {
        QueuedIsAsked(r, data, today, equity, ps, pending, todo[1..], o);
      } else if |ps| + |pending| < r.limits.maxOpenPositions {
        var more := if order.Some? then pending + [order.value] else pending;
        QueuedIsAsked(r, data, today, equity, ps, more, todo[1..], o);
        if order.Some? {
          ConsideredIsAsked(r, data, today, equity, ps, todo[0]);
        }
      }
    }
  }

  lemma ConsideredIsAsked(r: Rules, data: Data, today: Date, equity: real, ps: seq<Held>, symbol: Symbol)
    requires symbol in data.symbols && BarOn(data.frames(symbol), today).Some?
    requires Consider(r, data, today, equity, ps, symbol).Some?
    ensures OrderAt(r, data, Consider(r, data, today, equity, ps, symbol).value, today)
  {
    hide ApprovedShares, Apply, Upto, StateOn;
  }

  /** Through the night nothing trades: what held through yesterday's close holds up to
      this morning. */
  ghost predicate Overnight(data: Data, before: Date, today: Date) {
    before < today && forall s :: s in data.symbols ==> Upto(data.frames(s), today - 1) == Upto(data.frames(s), before)
  }

  lemma OrdersOvernight(r: Rules, data: Data, before: Date, today: Date, b: Book)
    requires Overnight(data, before, today) && AllExplained(r, data, b, before)
    ensures forall o :: o in b.pending ==> OrderAt(r, data, o, today - 1)
    ensures forall p :: p in b.positions ==> TrailedThrough(r, data, p, today - 1)
  {
    hide Upto, BarOn, Asked, ClosesFrom, Ratchets.Feed, Build, GainLevel;
  }

  lemma MorningExplained(r: Rules, data: Data, before: Date, today: Date, b: Book)
    requires ValidData(data) && Overnight(data, before, today) && AllExplained(r, data, b, before)
    ensures AllExplained(r, data, Morning(r, data, today, b), today)
  {
    hide Upto, OrderAt, TrailedThrough, Explained, ManageOn, Filled, Waiting, Surviving, Exits, Fills, TradesOn;
    OrdersOvernight(r, data, before, today, b);
    var m, ps := Morning(r, data, today, b), b.positions + Filled(r, data, today, b.pending);
    forall p | p in ps ensures TrailedThrough(r, data, p, today - 1) && p.entryDate <= today {
      if p !in b.positions {
        FilledBy(r, data, today, b.pending, p);
        var o :| o in b.pending && Fills(r, data, today, o, p);
        FillIsEntered(r, data, today, o, p);
      }
    }
    forall q | q in m.positions ensures TrailedThrough(r, data, q, today) && q.entryDate <= today {
      SurvivorComesFrom(r, data, today, ps, q);
      var p :| p in ps && ManageOn(r, data, today, p) == Kept(q);
      KeptTrails(r, data, today, p, q);
    }
    forall t | t in m.trades ensures Explained(r, data, t) {
      if t !in b.trades {
        ExitComesFrom(r, data, today, ps, t);
        var p :| p in ps && ManageOn(r, data, today, p) == Exited(t);
        ExitIsExplained(r, data, today, p, t);
      }
    }
    forall o | o in m.pending ensures OrderAt(r, data, o, today) {
      WaitingDidNotTrade(data, today, b.pending, o);
      StillWaiting(r, data, today, o);
    }
  }

  lemma StillWaiting(r: Rules, data: Data, today: Date, o: Order)
    requires ValidData(data) && OrderAt(r, data, o, today - 1) && !TradesOn(data, o.symbol, today)
    ensures OrderAt(r, data, o, today)
  {
    hide Upto, BarOn, Asked;
    DayAddsBar(data.frames(o.symbol), today);
  }

  lemma DayExplained(r: Rules, data: Data, start: Option<Date>, before: Date, today: Date, b: Book)
    requires ValidData(data) && Overnight(data, before, today) && AllExplained(r, data, b, before)
    ensures AllExplained(r, data, DayStep(r, data, start, today, b), today)
  {
    hide Morning, OrderAt, TrailedThrough, Explained, Enter, EquityOn, Upto;
    MorningExplained(r, data, before, today, b);
    var m := Morning(r, data, today, b);
    var equity := EquityOn(r, data, today, m);
    if Opens(start, today) {
      forall o | o in Enter(r, data, today, equity, m.positions, m.pending, data.symbols) ensures OrderAt(r, data, o, today) {
        QueuedIsAsked(r, data, today, equity, m.positions, m.pending, data.symbols, o);
      }
    }
  }

  // ----- whole runs -----

  /** At every day's end of every backtest: each waiting order was asked for by its
      signal and its symbol has not traded since; each open position was filled at the
      open right after its signal, and its ladder is a new one fed, in order, every
      close from its entry on; each trade closed such a position, at the stop, target or
      close the bar of its exit date calls for. */
  lemma {:induction false} RunIsExplained(r: Rules, data: Data, start: Option<Date>, dates: seq<Date>, k: nat)
    requires ValidData(data) && IsTimeline(data, dates) && 0 < k <= |dates|
    ensures AllExplained(r, data, RunDays(r, data, start, dates[..k]), dates[k - 1])
  {
    hide DayStep, AllExplained, Overnight;
    var today := dates[k - 1];
    assert dates[..k][..k - 1] == dates[..k - 1];
    if k == 1 {
      assert RunDays(r, data, start, dates[..0]) == EMPTY;
      FirstMorning(r, data, today);
      DayExplained(r, data, start, today - 1, today, EMPTY);
    } else {
      RunIsExplained(r, data, start, dates, k - 1);
      NightsAreQuiet(data, dates, k - 1);
      DayExplained(r, data, start, dates[k - 2], today, RunDays(r, data, start, dates[..k - 1]));
    }
  }

  lemma FirstMorning(r: Rules, data: Data, today: Date)
    ensures Overnight(data, today - 1, today) && AllExplained(r, data, EMPTY, today - 1)
  {
  }

  lemma NightsAreQuiet(data: Data, dates: seq<Date>, k: nat)
    requires ValidData(data) && IsTimeline(data, dates) && 0 < k < |dates|
    ensures Overnight(data, dates[k - 1], dates[k])
  {
    hide Upto;
    forall s | s in data.symbols ensures Upto(data.frames(s), dates[k] - 1) == Upto(data.frames(s), dates[k - 1]) {
      BetweenDaysNothing(data, dates, k, s);
    }
  }

  // ----- what each day asks for -----

  lemma {:induction false} NewlyQueued(r: Rules, data: Data, today: Date, equity: real, ps: seq<Held>, pending: seq<Order>,
                                       todo: seq<Symbol>, o: Order)
    requires o in Enter(r, data, today, equity, ps, pending, todo) && o !in pending
    ensures Consider(r, data, today, equity, ps, o.symbol) == Some(o)
    decreases |todo|
  {
    hide BarOn, Holds, Queued, Consider;
    var order := Consider(r, data, today, equity, ps, todo[0]);
    if Holds(ps, todo[0]) || Queued(pending, todo[0]) || BarOn(data.frames(todo[0]), today).None? {
      NewlyQueued(r, data, today, equity, ps, pending, todo[1..], o);
    } else {
      var more := if order.Some? then pending + [order.value] else pending;
      if o !in more {
        NewlyQueued(r, data, today, equity, ps, more, todo[1..], o);
      } else {
        ConsiderNames(r, data, today, equity, ps, todo[0]);
      }
    }
  }

  lemma ConsiderNames(r: Rules, data: Data, today: Date, equity: real, ps: seq<Held>, symbol: Symbol)
    requires Consider(r, data, today, equity, ps, symbol).Some?
    ensures Consider(r, data, today, equity, ps, symbol).value.symbol == symbol
  {
    hide ApprovedShares, StateOn, Upto, SentimentGate.Apply;
  }

  /** In any backtest an order queued today is the most whole shares that fit every
      limit at the equity the curve shows for today, beside the positions now held. */
  lemma QueuedTodayFits(r: Rules, data: Data, start: Option<Date>, dates: seq<Date>, k: nat, o: Order)
    requires ValidData(data) && IsTimeline(data, dates) && k < |dates| && r.limits.maxOpenPositions >= 0
    requires o in RunDays(r, data, start, dates[..k + 1]).pending && o.signalDate == dates[k]
    ensures var b, today := RunDays(r, data, start, dates[..k + 1]), dates[k];
      && b.curve != [] && Asked(r, data, today, o.symbol).Some?
      && var i, equity := Asked(r, data, today, o.symbol).value, b.curve[|b.curve| - 1].1;
         var hist := Upto(data.frames(o.symbol), today);
         && hist != []
         && var entry := if i.entryPrice.Some? && i.entryPrice.value != 0.0 then i.entryPrice.value else hist[|hist| - 1].close;
            && StopOf(i, entry).Some?
            && RoomFor(r, data, today, equity, b.positions, o.symbol, i, entry, StopOf(i, entry).value, o.qty)
            && !RoomFor(r, data, today, equity, b.positions, o.symbol, i, entry, StopOf(i, entry).value, o.qty + 1.0)
  {
    hide Morning, Enter, Consider, RoomFor, Upto, StopOf, Asked, EquityOn;
    var before, today := RunDays(r, data, start, dates[..k]), dates[k];
    assert dates[..k + 1][..k] == dates[..k];
    var m := Morning(r, data, today, before);
    NotFromBefore(r, data, start, dates, k, o);
    var equity := EquityOn(r, data, today, m);
    NewlyQueued(r, data, today, equity, m.positions, m.pending, data.symbols, o);
    QueuedOrderFits(r, data, today, equity, m.positions, o.symbol);
  }

  lemma NotFromBefore(r: Rules, data: Data, start: Option<Date>, dates: seq<Date>, k: nat, o: Order)
    requires ValidData(data) && IsTimeline(data, dates) && k < |dates| && r.limits.maxOpenPositions >= 0
    requires o.signalDate == dates[k]
    ensures o !in Morning(r, data, dates[k], RunDays(r, data, start, dates[..k])).pending
  {
    hide BookOk, DayStep, Filled, Surviving, Exits;
    var b := RunDays(r, data, start, dates[..k]);
    assert k == 0 ==> dates[..k] == [] && b == EMPTY;
    if o in Waiting(data, dates[k], b.pending) {
      WaitingDidNotTrade(data, dates[k], b.pending, o);
      SignalledBefore(r, data, start, dates, k, o);
    }
  }

  // ----- what that protects -----

  /** A percent ladder with a lock and a profit to lock. */
  predicate Locks(entry: real, rule: Rule) {
    SaneLadder(entry, rule) && rule.lockTriggerPct.Some? && rule.profitLockPct.Some?
  }

  /** In any backtest, once a position on such a ladder has seen a close at or past its
      trigger, its stop locks at least the configured profit. */
  lemma LockedOnceTriggered(r: Rules, data: Data, start: Option<Date>, dates: seq<Date>, k: nat, p: Held, close: real)
    requires ValidData(data) && IsTimeline(data, dates) && 0 < k <= |dates|
    requires p in RunDays(r, data, start, dates[..k]).positions && Locks(p.entryPrice, p.ratchet.rule)
    requires close in ClosesFrom(Upto(data.frames(p.symbol), dates[k - 1]), p.entryDate)
    requires Advance(p.side, close, GainLevel(p.entryPrice, p.side, p.ratchet.rule.lockTriggerPct.value)) >= 0.0
    ensures AtLeastAsTight(p.side, p.ratchet.stop, GainLevel(p.entryPrice, p.side, p.ratchet.rule.profitLockPct.value))
  {
    hide RunDays, Entered, Upto, GainLevel, LadderStop, Ratchets.Feed;
    RunIsExplained(r, data, start, dates, k);
    TriggeredLocks(r, data, p, dates[k - 1], close);
  }

  lemma TriggeredLocks(r: Rules, data: Data, p: Held, through: Date, close: real)
    requires TrailedThrough(r, data, p, through) && Locks(p.entryPrice, p.ratchet.rule)
    requires close in ClosesFrom(Upto(data.frames(p.symbol), through), p.entryDate)
    requires Advance(p.side, close, GainLevel(p.entryPrice, p.side, p.ratchet.rule.lockTriggerPct.value)) >= 0.0
    ensures AtLeastAsTight(p.side, p.ratchet.stop, GainLevel(p.entryPrice, p.side, p.ratchet.rule.profitLockPct.value))
  {
    hide Upto, GainLevel, LadderStop, Ratchets.Feed, ClosesFrom, InitialStop;
    var closes, first := ClosesFrom(Upto(data.frames(p.symbol), through), p.entryDate), FirstLadder(r, data, p);
    FeedKeepsRule(first, closes);
    StopIsLadderOfExtreme(p.entryPrice, p.side, p.ratchet.rule, closes);
    LockHoldsProfit(p.entryPrice, p.side, p.ratchet.rule, p.ratchet.extreme);
  }

  lemma {:induction false} FeedKeepsRule(ladder: Ratchet, prices: seq<real>)
    ensures var f := Ratchets.Feed(ladder, prices); f.rule == ladder.rule && f.side == ladder.side && f.entry == ladder.entry
  {
    if prices != [] {
      FeedKeepsRule(ladder, prices[..|prices| - 1]);
    }
  }
}
