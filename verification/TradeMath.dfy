/** What one backtested trade earns and costs, stated without reference to how
    the backtester computes it. */
module TradeMath {
  import opened Common
  import opened Rounding
  import opened Ratchets
  import opened RiskGate
  import opened SentimentGate
  import opened Backtesting
  import EntryLoop

  /** What trading `qty` at `price` costs at the far end: slippage once, commission
      twice. */
  function CostsOut(r: Rules, price: real, qty: real): real { r.slip * price * qty + 2.0 * r.commission * qty }

  /** Closing realizes the paper gain at that price, less slippage on the way out
      and commission both ways, to within half a cent. */
  lemma ClosedGainIsPaperGainLessCosts(r: Rules, p: Held, price: real, today: Date, reason: ExitReason)
    ensures Abs(Close(r, p, price, today, reason).pnl - (GainOf(p, price) - CostsOut(r, price, p.qty))) <= 0.005
  {
    hide RoundTo, NetGain, GainOf, CostsOut;
    var net := NetGain(r.commission, p, FillPrice(r.slip, Opposite(p.side), price));
    NetIsPaperLessCosts(r, p, price);
    RoundToNear(net, 100.0);
  }

  lemma NetIsPaperLessCosts(r: Rules, p: Held, price: real)
    ensures NetGain(r.commission, p, FillPrice(r.slip, Opposite(p.side), price)) == GainOf(p, price) - CostsOut(r, price, p.qty)
  {
    var x, q := r.slip * price, p.qty;
    assert price * (1.0 - r.slip) == price - x && price * (1.0 + r.slip) == price + x;
    assert (price - x - p.entryPrice) * q == (price - p.entryPrice) * q - x * q;
    assert (p.entryPrice - (price + x)) * q == (p.entryPrice - price) * q - x * q;
  }

  /** The record says what was traded, and at prices right to half a ten-thousandth. */
  lemma TradeIsOnRecord(r: Rules, p: Held, price: real, today: Date, reason: ExitReason)
    ensures var t, exit := Close(r, p, price, today, reason), if p.side.Long? then price * (1.0 - r.slip) else price * (1.0 + r.slip);
      && t.symbol == p.symbol && t.side == p.side && t.qty == p.qty && t.strategy == p.strategy
      && t.entryDate == p.entryDate && t.exitDate == today && t.reason == reason
      && Abs(t.entryPrice - p.entryPrice) <= 0.00005 && Abs(t.exitPrice - exit) <= 0.00005
  {
    hide RoundTo, NetGain;
    RoundToNear(p.entryPrice, 10000.0);
    RoundToNear(FillPrice(r.slip, Opposite(p.side), price), 10000.0);
  }

  /** In and out at one price loses exactly the slippage of two fills and two
      commissions: costs are charged on both sides of the trade, long or short. */
  lemma RoundTripLosesItsCosts(r: Rules, o: Order, bar: Bar, today: Date, later: Date, reason: ExitReason)
    ensures Abs(Close(r, FillEntry(r, o, bar, today), bar.open, later, reason).pnl
                + (r.slip * bar.open * o.qty + CostsOut(r, bar.open, o.qty))) <= 0.005
  {
    hide Close, CostsOut;
    var p := FillEntry(r, o, bar, today);
    ClosedGainIsPaperGainLessCosts(r, p, bar.open, later, reason);
    EntrySlips(r, o, bar, today);
  }

  lemma EntrySlips(r: Rules, o: Order, bar: Bar, today: Date)
    ensures var p := FillEntry(r, o, bar, today);
      p.qty == o.qty && GainOf(p, bar.open) == -(r.slip * bar.open * o.qty)
  {
    var x := r.slip * bar.open;
    assert bar.open * (1.0 + r.slip) == bar.open + x && bar.open * (1.0 - r.slip) == bar.open - x;
  }

  /** A better exit price never earns less. */
  lemma BetterExitEarnsNoLess(r: Rules, p: Held, worse: real, better: real, today: Date, a: ExitReason, b: ExitReason)
    requires p.qty >= 0.0 && 0.0 <= r.slip <= 1.0 && AtLeastAsTight(p.side, better, worse)
    ensures Close(r, p, worse, today, a).pnl <= Close(r, p, better, today, b).pnl
  {
    hide RoundTo, NetGain, FillPrice;
    var w, x := FillPrice(r.slip, Opposite(p.side), worse), FillPrice(r.slip, Opposite(p.side), better);
    if p.side.Long? {
      FillMono(r.slip, Short, worse, better);
    } else {
      FillMono(r.slip, Long, better, worse);
    }
    NetGainMono(r.commission, p, w, x);
    CentsMono(NetGain(r.commission, p, w), NetGain(r.commission, p, x));
  }

  lemma FillMono(slip: real, side: Side, low: real, high: real)
    requires 0.0 <= slip <= 1.0 && low <= high
    ensures FillPrice(slip, side, low) <= FillPrice(slip, side, high)
  {
    var k := if side.Long? then 1.0 + slip else 1.0 - slip;
    TimesMono(k, low, high);
    assert FillPrice(slip, side, low) == low * k && FillPrice(slip, side, high) == high * k;
  }

  lemma TimesMono(k: real, low: real, high: real)
    requires k >= 0.0 && low <= high
    ensures low * k <= high * k
  {
    MulLe(k, low, high);
  }

  lemma NetGainMono(commission: real, p: Held, worse: real, better: real)
    requires p.qty >= 0.0 && AtLeastAsTight(p.side, better, worse)
    ensures NetGain(commission, p, worse) <= NetGain(commission, p, better)
  {
    if p.side.Long? {
      TimesMono(p.qty, worse - p.entryPrice, better - p.entryPrice);
    } else {
      TimesMono(p.qty, p.entryPrice - worse, p.entryPrice - better);
    }
  }

  /** A position that survives a day it traded on was not touched: the bar stayed
      clear of stop and target, no exit was signalled, more data follows, and its
      stop did not loosen. */
  lemma SurvivorsWereNotTouched(r: Rules, data: Data, today: Date, p: Held)
    requires BarOn(data.frames(p.symbol), today).Some? && ManageOn(r, data, today, p).Kept?
    ensures var bar, q := BarOn(data.frames(p.symbol), today).value, ManageOn(r, data, today, p).position;
      && (if p.side.Long? then bar.low > p.ratchet.stop else bar.high < p.ratchet.stop)
      && (p.takeProfit.Some? && p.takeProfit.value != 0.0 ==>
            if p.side.Long? then bar.high < p.takeProfit.value else bar.low > p.takeProfit.value)
      && !r.shouldExit(p.strategy, p.symbol, Upto(data.frames(p.symbol), today), p.side)
      && !EndsOn(data.frames(p.symbol), today)
      && AtLeastAsTight(p.ratchet.side, q.ratchet.stop, p.ratchet.stop) && q == p.(ratchet := q.ratchet)
  {
    UpdateNeverLoosens(p.ratchet, BarOn(data.frames(p.symbol), today).value.close, None);
  }

  // ----- what survival means over a run -----

  function FirstStop(p: Held): real { InitialStop(p.ratchet.entry, p.ratchet.side, p.ratchet.rule) }

  /** If the symbol traded that day, the bar stayed inside the position's original
      bracket, nothing signalled an exit, and more data followed. */
  predicate Untouched(r: Rules, data: Data, p: Held, day: Date) {
    var f := data.frames(p.symbol);
    BarOn(f, day).Some? ==>
      var bar := BarOn(f, day).value;
      && (if p.side.Long? then bar.low > FirstStop(p) else bar.high < FirstStop(p))
      && (p.takeProfit.Some? && p.takeProfit.value != 0.0 ==>
            if p.side.Long? then bar.high < p.takeProfit.value else bar.low > p.takeProfit.value)
      && !r.shouldExit(p.strategy, p.symbol, Upto(f, day), p.side) && !EndsOn(f, day)
  }

  /** Its stop never fell back behind where it started, and no day since its entry
      touched it. */
  ghost predicate Seasoned(r: Rules, data: Data, dates: seq<Date>, p: Held) {
    && p.ratchet.side == p.side && AtLeastAsTight(p.side, p.ratchet.stop, FirstStop(p))
    && forall j :: 0 <= j < |dates| && dates[j] >= p.entryDate ==> Untouched(r, data, p, dates[j])
  }

  lemma {:induction false} SurvivorComesFrom(r: Rules, data: Data, today: Date, ps: seq<Held>, p: Held)
    requires p in Surviving(r, data, today, ps)
    ensures exists q :: q in ps && ManageOn(r, data, today, q) == Kept(p)
  {
    hide ManageOn;
    var n := |ps| - 1;
    var m := ManageOn(r, data, today, ps[n]);
    if m == Kept(p) {
      assert ps[n] in ps;
    } else {
      SurvivorComesFrom(r, data, today, ps[..n], p);
      var q :| q in ps[..n] && ManageOn(r, data, today, q) == Kept(p);
      assert q in ps;
    }
  }

  lemma {:induction false} FilledComesFrom(r: Rules, data: Data, today: Date, orders: seq<Order>, q: Held)
    requires q in Filled(r, data, today, orders)
    ensures q.entryDate == today && q.ratchet.side == q.side && q.ratchet.stop == FirstStop(q)
  {
    var n := |orders| - 1;
    if q in Filled(r, data, today, orders[..n]) {
      FilledComesFrom(r, data, today, orders[..n], q);
    }
  }

  lemma OneMoreDay(r: Rules, data: Data, dates: seq<Date>, today: Date, q: Held, p: Held)
    requires q.ratchet.side == q.side && AtLeastAsTight(q.side, q.ratchet.stop, FirstStop(q))
    requires forall j :: 0 <= j < |dates| && dates[j] >= q.entryDate ==> Untouched(r, data, q, dates[j])
    requires ManageOn(r, data, today, q) == Kept(p)
    ensures Seasoned(r, data, dates + [today], p)
  {
    hide Upto, InitialStop;
    if BarOn(data.frames(q.symbol), today).Some? {
      hide BarOn;
      SurvivorsWereNotTouched(r, data, today, q);
    }
    hide BarOn, ManageOn;
    SameBracket(r, data, today, q, p);
    forall j | 0 <= j < |dates + [today]| && (dates + [today])[j] >= p.entryDate
      ensures Untouched(r, data, p, (dates + [today])[j])
    {
      if j < |dates| {
        assert Untouched(r, data, q, dates[j]);
      }
    }
  }

  lemma SameBracket(r: Rules, data: Data, today: Date, q: Held, p: Held)
    requires ManageOn(r, data, today, q) == Kept(p)
    ensures p == q.(ratchet := p.ratchet) && p.ratchet == q.ratchet.(stop := p.ratchet.stop, extreme := p.ratchet.extreme)
    ensures AtLeastAsTight(q.ratchet.side, p.ratchet.stop, q.ratchet.stop)
  {
    hide BarOn, Upto;
    if BarOn(data.frames(q.symbol), today).Some? {
      UpdateNeverLoosens(q.ratchet, BarOn(data.frames(q.symbol), today).value.close, None);
    }
  }

  /** A position still open after a run was touched on none of its days: every bar
      since its entry stayed between the stop it started with and its target, none
      signalled an exit, and its stop never fell back. */
  lemma {:induction false} OpenMeansUntouched(r: Rules, data: Data, start: Option<Date>, dates: seq<Date>, p: Held)
    requires Increasing(dates) && p in RunDays(r, data, start, dates).positions
    ensures Seasoned(r, data, dates, p)
  {
    hide Filled, Surviving, ManageOn, Untouched, Enter, Waiting, Exits, EquityOn, FirstStop;
    var n, today := |dates| - 1, dates[|dates| - 1];
    var b := RunDays(r, data, start, dates[..n]);
    var ps := b.positions + Filled(r, data, today, b.pending);
    SurvivorComesFrom(r, data, today, ps, p);
    var q :| q in ps && ManageOn(r, data, today, q) == Kept(p);
    if q in b.positions {
      OpenMeansUntouched(r, data, start, dates[..n], q);
    } else {
      FilledComesFrom(r, data, today, b.pending, q);
    }
    OneMoreDay(r, data, dates[..n], today, q, p);
    assert dates == dates[..n] + [today];
  }

  /** The pessimistic reading of a bar: when both stop and target lie within the
      day's range, the trade is booked at the stop. */
  lemma StopBeatsTarget(r: Rules, p: Held, bar: Bar, today: Date, exitSignal: bool, isLast: bool)
    requires if p.side.Long? then bar.low <= p.ratchet.stop else bar.high >= p.ratchet.stop
    ensures var m := Manage(r, p, bar, today, exitSignal, isLast);
      && m.Exited? && m.trade.reason == StopHit
      && forall price, reason :: AtLeastAsTight(p.side, price, p.ratchet.stop) && p.qty >= 0.0 && 0.0 <= r.slip <= 1.0
           ==> m.trade.pnl <= Close(r, p, price, today, reason).pnl
  {
    var m := Manage(r, p, bar, today, exitSignal, isLast);
    forall price, reason | AtLeastAsTight(p.side, price, p.ratchet.stop) && p.qty >= 0.0 && 0.0 <= r.slip <= 1.0
      ensures m.trade.pnl <= Close(r, p, price, today, reason).pnl
    {
      BetterExitEarnsNoLess(r, p, p.ratchet.stop, price, today, StopHit, reason);
    }
  }

  /** A ladder that starts on the losing side. */
  predicate Protective(ladder: RatchetParams, atr: real) {
    match ladder
    case PercentParams(initial, _, _, _) => initial > 0.0
    case AtrParams(initial, _) => initial > 0.0 && atr > 0.0
  }

  /** A filled entry has its stop on the losing side of its fill, whichever ladder
      it rides, and its target, if it has one, on the winning side. */
  lemma EntryIsBracketed(r: Rules, o: Order, bar: Bar, today: Date)
    requires bar.open > 0.0 && 0.0 <= r.slip < 1.0 && Protective(r.ladder(o.strategy), o.atr)
    ensures var p := FillEntry(r, o, bar, today);
      && p.ratchet.stop != p.entryPrice && AtLeastAsTight(p.side, p.entryPrice, p.ratchet.stop)
      && (p.takeProfit.Some? <==> r.targetPct(o.strategy).Some?)
      && (r.targetPct(o.strategy).Some? && r.targetPct(o.strategy).value > 0.0 ==>
            p.takeProfit.value != p.entryPrice && AtLeastAsTight(p.side, p.takeProfit.value, p.entryPrice))
  {
    hide FillPrice, GainLevel;
    var fill, ladder := FillPrice(r.slip, o.side, bar.open), r.ladder(o.strategy);
    FillIsPositive(r.slip, o.side, bar.open);
    if r.targetPct(o.strategy).Some? && r.targetPct(o.strategy).value > 0.0 {
      GainMoves(fill, o.side, r.targetPct(o.strategy).value);
    }
    if ladder.PercentParams? {
      GainMoves(fill, o.side, -ladder.initialStopPct);
    } else {
      MulLt(ladder.initialMult, 0.0, o.atr);
    }
  }

  lemma FillIsPositive(slip: real, side: Side, raw: real)
    requires raw > 0.0 && 0.0 <= slip < 1.0
    ensures FillPrice(slip, side, raw) > 0.0
  {
    MulLt(raw, 0.0, 1.0 - slip);
    MulLt(raw, 0.0, 1.0 + slip);
  }

  lemma GainMoves(entry: real, side: Side, pct: real)
    requires entry > 0.0 && pct != 0.0
    ensures GainLevel(entry, side, pct) != entry
    ensures pct > 0.0 ==> AtLeastAsTight(side, GainLevel(entry, side, pct), entry)
    ensures pct < 0.0 ==> AtLeastAsTight(side, entry, GainLevel(entry, side, pct))
  {
    var x := pct / 100.0;
    if pct > 0.0 { MulLt(entry, 0.0, x); } else { MulLt(entry, x, 0.0); }
    assert entry * (1.0 + x) == entry + entry * x && entry * (1.0 - x) == entry - entry * x;
  }

  // ----- valuing the book -----

  /** The book's values are sums over its positions. */
  lemma {:induction false} ValuesAddUp(data: Data, today: Date, a: seq<Held>, b: seq<Held>)
    ensures MarketValue(data, today, a + b) == MarketValue(data, today, a) + MarketValue(data, today, b)
    ensures Unrealized(data, today, a + b) == Unrealized(data, today, a) + Unrealized(data, today, b)
    decreases |b|
  {
    if b == [] {
      assert a + b == a;
    } else {
      hide BarOn, GainOf;
      var n := |b| - 1;
      ValuesAddUp(data, today, a, b[..n]);
      assert (a + b)[..|a + b| - 1] == a + b[..n];
    }
  }

  /** One position is worth its shares at the day's close, has gained what the close is
      beyond its entry, and is at risk for its distance to the stop; on a day its symbol
      does not trade it counts for no value and no gain. */
  lemma ValueOfOne(data: Data, today: Date, p: Held)
    ensures var bar := BarOn(data.frames(p.symbol), today);
      && MarketValue(data, today, [p]) == (if bar.Some? then p.qty * bar.value.close else 0.0)
      && (bar.None? ==> Unrealized(data, today, [p]) == 0.0)
      && (bar.Some? && p.side.Long? ==> Unrealized(data, today, [p]) == (bar.value.close - p.entryPrice) * p.qty)
      && (bar.Some? && p.side.Short? ==> Unrealized(data, today, [p]) == (p.entryPrice - bar.value.close) * p.qty)
    ensures EntryLoop.OpenRisk(Holdings([p])) == p.qty * Abs(p.ratchet.entry - p.ratchet.stop)
  {
    hide BarOn;
    assert [p][..0] == [];
    assert Holdings([p]) == [EntryLoop.Holding(p.symbol, p.qty, 0.0, p.ratchet.entry, p.ratchet.stop)];
    EntryLoop.ExposureOfOne(Holdings([p])[0]);
  }

  lemma PnlOfOne(t: Trade)
    ensures SumPnl([t]) == t.pnl
  {
    assert [t][..0] == [];
  }

  /** What reaches the risk gate for a symbol: the routed strategy's intent, after
      sentiment. */
  function Asked(r: Rules, data: Data, today: Date, symbol: Symbol): Option<Intent> {
    var hist := Upto(data.frames(symbol), today);
    if hist == [] || r.route(hist).None? then None else
    var intent := r.generate(r.route(hist).value, symbol, hist);
    if intent.None? then None else Apply(r.sentiment, NoScorer, intent.value)
  }

  /** Room for `qty` of what was asked, at its own entry and stop, within every limit
      at today's mark-to-market exposure. */
  predicate RoomFor(r: Rules, data: Data, today: Date, equity: real, ps: seq<Held>, symbol: Symbol,
                    i: Intent, entry: real, stop: real, qty: real)
  {
    var lost, cost := qty * Abs(entry - stop), qty * entry;
    && lost <= RiskBudget(equity, r.limits.perTradeRiskPct, i.confidence)
    && cost <= PctOf(equity, OrElse(i.positionPctOverride, r.limits.maxPositionPct)) && cost <= equity * 2.0
    && MarketValue(data, today, ps) + cost <= PctOf(equity, r.limits.maxGrossPct)
    && EntryLoop.OpenRisk(Holdings(ps)) + lost <= PctOf(equity, OpenRiskPct(r.limits))
    && EntryLoop.Correlated(Holdings(ps), symbol, CorrelationOn(r, data, today, symbol), r.corrThreshold) + lost
       <= PctOf(equity, OrElse(r.limits.maxCorrelatedRiskPct, OpenRiskPct(r.limits) * 0.6))
  }

  /** An order the backtest queues is the most whole shares, at least one, that fit
      every limit at the asked entry and stop: that many fit and one more does not. */
  lemma QueuedOrderFits(r: Rules, data: Data, today: Date, equity: real, ps: seq<Held>, symbol: Symbol)
    requires Consider(r, data, today, equity, ps, symbol).Some?
    ensures Asked(r, data, today, symbol).Some?
    ensures var o, i := Consider(r, data, today, equity, ps, symbol).value, Asked(r, data, today, symbol).value;
      var hist := Upto(data.frames(symbol), today);
      hist != [] &&
      var a := StateOn(r, data, today, equity, ps, symbol, hist[|hist| - 1].close);
      var entry := EntryOf(i, a);
      && entry > 0.0 && StopOf(i, entry).Some? && StopOf(i, entry).value != entry
      && o.qty >= 1.0 && |ps| < r.limits.maxOpenPositions
      && o.symbol == symbol && o.side == i.side && Some(o.strategy) == r.route(hist) && o.signalDate == today
      && RoomFor(r, data, today, equity, ps, symbol, i, entry, StopOf(i, entry).value, o.qty)
      && !RoomFor(r, data, today, equity, ps, symbol, i, entry, StopOf(i, entry).value, o.qty + 1.0)
  {
    hide ApprovedShares, MaxShares, StopOf, Upto, RoomFor, MarketValue, EntryLoop.Correlated, EntryLoop.OpenRisk, FitsAll, Apply;
    var hist, i := Upto(data.frames(symbol), today), Asked(r, data, today, symbol).value;
    var a := StateOn(r, data, today, equity, ps, symbol, hist[|hist| - 1].close);
    var n, entry := ApprovedShares(r.limits, i, a, true), EntryOf(i, a);
    EntryLoop.ApprovedPassed(r.limits, i, a, true);
    var stop := StopOf(i, entry).value;
    MaxSharesIsTightest(r.limits, i, a, entry, stop, n);
    MaxSharesIsTightest(r.limits, i, a, entry, stop, n + 1);
    RoomIsFit(r, data, today, equity, ps, symbol, i, hist[|hist| - 1].close, entry, stop, n);
    RoomIsFit(r, data, today, equity, ps, symbol, i, hist[|hist| - 1].close, entry, stop, n + 1);
    assert (n + 1) as real == n as real + 1.0;
  }

  lemma RoomIsFit(r: Rules, data: Data, today: Date, equity: real, ps: seq<Held>, symbol: Symbol, i: Intent, close: real,
                  entry: real, stop: real, n: int)
    ensures RoomFor(r, data, today, equity, ps, symbol, i, entry, stop, n as real)
       <==> FitsAll(r.limits, i, StateOn(r, data, today, equity, ps, symbol, close), entry, stop, n)
  {
    hide RiskBudget, PctOf, MarketValue, EntryLoop.Correlated, EntryLoop.OpenRisk;
  }
}
