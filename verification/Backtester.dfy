/** The event-driven backtester: each day fills yesterday's orders at the open,
    manages open positions against the day's bar, and queues new entries from
    the history up to the close. Strategies, routing and correlation are
    functions of that history. */
module Backtesting {
  import opened Common
  import opened Rounding
  import opened Ratchets
  import opened RiskGate
  import opened SentimentGate
  import EntryLoop

  type Symbol = string
  type Date = int

  // ----- market data -----

  datatype Bar = Bar(date: Date, open: real, high: real, low: real, close: real, atr: real)

  type Frame = seq<Bar>

  /** Symbols in the order they are scanned, each with its bars. */
  datatype Data = Data(symbols: seq<Symbol>, frames: Symbol -> Frame)

  predicate Chronological(f: Frame) {
    forall i, j :: 0 <= i < j < |f| ==> f[i].date < f[j].date
  }

  ghost predicate ValidData(data: Data) {
    forall s :: Chronological(data.frames(s))
  }

  /** The bars dated up to and including `today`. */
  function Upto(f: Frame, today: Date): Frame
    decreases |f|
  {
    if f == [] || f[|f| - 1].date <= today then f else Upto(f[..|f| - 1], today)
  }

  function BarOn(f: Frame, today: Date): Option<Bar> {
    var h := Upto(f, today);
    if h != [] && h[|h| - 1].date == today then Some(h[|h| - 1]) else None
  }

  predicate EndsOn(f: Frame, today: Date) { f != [] && f[|f| - 1].date == today }

  // ----- what the backtest is run with -----

  datatype Rules = Rules(
    initialEquity: real, slip: real, commission: real, limits: Limits, sentiment: Policy, corrThreshold: real,
    route: Frame -> Option<string>,
    generate: (string, Symbol, Frame) -> Option<Intent>,
    shouldExit: (string, Symbol, Frame, Side) -> bool,
    correlation: (Frame, Frame) -> Option<real>,
    ladder: string -> RatchetParams, targetPct: string -> Option<real>)

  /** An entry waiting for the symbol's next open. */
  datatype Order = Order(symbol: Symbol, side: Side, qty: real, strategy: string, atr: real, signalDate: Date)

  datatype Held = Held(symbol: Symbol, side: Side, qty: real, entryPrice: real, entryDate: Date, ratchet: Ratchet,
                       takeProfit: Option<real>, strategy: string, signalDate: Date)

  datatype ExitReason = StopHit | TargetHit | SignalExit | DataEnd

  datatype Trade = Trade(symbol: Symbol, side: Side, strategy: string, entryDate: Date, exitDate: Date,
                         entryPrice: real, exitPrice: real, qty: real, pnl: real, reason: ExitReason, signalDate: Date)

  datatype Book = Book(positions: seq<Held>, pending: seq<Order>, realized: real, trades: seq<Trade>,
                       curve: seq<(Date, real)>)

  const EMPTY: Book := Book([], [], 0.0, [], [])

  // ----- fills -----

  function FillPrice(slip: real, side: Side, raw: real): real {
    if side.Long? then raw * (1.0 + slip) else raw * (1.0 - slip)
  }

  function FillEntry(r: Rules, o: Order, bar: Bar, today: Date): Held {
    var fill := FillPrice(r.slip, o.side, bar.open);
    var target := r.targetPct(o.strategy);
    Held(o.symbol, o.side, o.qty, fill, today, Build(r.ladder(o.strategy), fill, o.side, Some(o.atr)).value,
         if target.None? then None else Some(GainLevel(fill, o.side, target.value)), o.strategy, o.signalDate)
  }

  /** Orders whose symbol trades today become positions; the others wait on. */
  function Filled(r: Rules, data: Data, today: Date, orders: seq<Order>): seq<Held> {
    if orders == [] then []
    else
      var n := |orders| - 1;
      var bar := BarOn(data.frames(orders[n].symbol), today);
      Filled(r, data, today, orders[..n]) + if bar.Some? then [FillEntry(r, orders[n], bar.value, today)] else []
  }

  function Waiting(data: Data, today: Date, orders: seq<Order>): seq<Order> {
    if orders == [] then []
    else
      var n := |orders| - 1;
      Waiting(data, today, orders[..n]) + if BarOn(data.frames(orders[n].symbol), today).Some? then [] else [orders[n]]
  }

  // ----- exits -----

  function Close(r: Rules, p: Held, rawExit: real, today: Date, reason: ExitReason): Trade {
    var exit := FillPrice(r.slip, Opposite(p.side), rawExit);
    Trade(p.symbol, p.side, p.strategy, p.entryDate, today, RoundTo(p.entryPrice, 10000.0), RoundTo(exit, 10000.0),
          p.qty, Cents(NetGain(r.commission, p, exit)), reason, p.signalDate)
  }

  function NetGain(commission: real, p: Held, exit: real): real {
    (if p.side.Long? then exit - p.entryPrice else p.entryPrice - exit) * p.qty - commission * p.qty * 2.0
  }

  function Opposite(side: Side): Side { if side.Long? then Short else Long }

  datatype Managed = Kept(position: Held) | Exited(trade: Trade)

  /** Stop, target, signal, end of data, in that order; otherwise trail the stop. */
  function Manage(r: Rules, p: Held, bar: Bar, today: Date, exitSignal: bool, isLast: bool): Managed {
    var stop := p.ratchet.stop;
    var against, along := if p.side.Long? then bar.low else bar.high, if p.side.Long? then bar.high else bar.low;
    if AtLeastAsTight(p.side, stop, against) then Exited(Close(r, p, stop, today, StopHit))
    else if p.takeProfit.Some? && p.takeProfit.value != 0.0 && AtLeastAsTight(p.side, along, p.takeProfit.value)
    then Exited(Close(r, p, p.takeProfit.value, today, TargetHit))
    else if exitSignal then Exited(Close(r, p, bar.close, today, SignalExit))
    else if isLast then Exited(Close(r, p, bar.close, today, DataEnd))
    else Kept(p.(ratchet := Updated(p.ratchet, bar.close, None)))
  }

  /** A position on a day its symbol trades; None when it does not. */
  function ManageOn(r: Rules, data: Data, today: Date, p: Held): Managed {
    var f := data.frames(p.symbol);
    match BarOn(f, today)
    case None => Kept(p)
    case Some(bar) =>
      Manage(r, p, bar, today, r.shouldExit(p.strategy, p.symbol, Upto(f, today), p.side), EndsOn(f, today))
  }

  function Surviving(r: Rules, data: Data, today: Date, ps: seq<Held>): seq<Held> {
    if ps == [] then []
    else
      var n := |ps| - 1;
      var m := ManageOn(r, data, today, ps[n]);
      Surviving(r, data, today, ps[..n]) + if m.Kept? then [m.position] else []
  }

  function Exits(r: Rules, data: Data, today: Date, ps: seq<Held>): seq<Trade> {
    if ps == [] then []
    else
      var n := |ps| - 1;
      var m := ManageOn(r, data, today, ps[n]);
      Exits(r, data, today, ps[..n]) + if m.Exited? then [m.trade] else []
  }

  // ----- valuation -----

  function SumPnl(trades: seq<Trade>): real {
    if trades == [] then 0.0 else SumPnl(trades[..|trades| - 1]) + trades[|trades| - 1].pnl
  }

  function GainOf(p: Held, close: real): real {
    (if p.side.Long? then close - p.entryPrice else p.entryPrice - close) * p.qty
  }

  function Unrealized(data: Data, today: Date, ps: seq<Held>): real {
    if ps == [] then 0.0
    else
      var last := ps[|ps| - 1];
      var bar := BarOn(data.frames(last.symbol), today);
      Unrealized(data, today, ps[..|ps| - 1]) + if bar.Some? then GainOf(last, bar.value.close) else 0.0
  }

  function MarketValue(data: Data, today: Date, ps: seq<Held>): real {
    if ps == [] then 0.0
    else
      var last := ps[|ps| - 1];
      var bar := BarOn(data.frames(last.symbol), today);
      MarketValue(data, today, ps[..|ps| - 1]) + if bar.Some? then last.qty * bar.value.close else 0.0
  }

  function Holdings(ps: seq<Held>): (hs: seq<EntryLoop.Holding>)
    ensures |hs| == |ps|
    ensures forall i :: 0 <= i < |ps| ==> hs[i].symbol == ps[i].symbol
  {
    seq(|ps|, i requires 0 <= i < |ps| =>
      EntryLoop.Holding(ps[i].symbol, ps[i].qty, 0.0, ps[i].ratchet.entry, ps[i].ratchet.stop))
  }

  // ----- entries -----

  function CorrelationOn(r: Rules, data: Data, today: Date, symbol: Symbol): EntryLoop.Correlation {
    other => r.correlation(Upto(data.frames(symbol), today), Upto(data.frames(other), today))
  }

  function StateOn(r: Rules, data: Data, today: Date, equity: real, ps: seq<Held>, symbol: Symbol, close: real): AccountState {
    AccountState(equity, equity, equity * 2.0, close, |ps|, MarketValue(data, today, ps),
                 EntryLoop.OpenRisk(Holdings(ps)),
                 EntryLoop.Correlated(Holdings(ps), symbol, CorrelationOn(r, data, today, symbol), r.corrThreshold))
  }

  /** The order a symbol's close asks for, after sentiment and risk. */
  function Consider(r: Rules, data: Data, today: Date, equity: real, ps: seq<Held>, symbol: Symbol): Option<Order> {
    var hist := Upto(data.frames(symbol), today);
    var strategy := r.route(hist);
    if hist == [] || strategy.None? then None else
    var intent := r.generate(strategy.value, symbol, hist);
    if intent.None? then None else
    var gated := Apply(r.sentiment, NoScorer, intent.value);
    if gated.None? then None else
    var bar := hist[|hist| - 1];
    var n := ApprovedShares(r.limits, gated.value, StateOn(r, data, today, equity, ps, symbol, bar.close), true);
    if n == 0 then None else Some(Order(symbol, gated.value.side, n as real, strategy.value, bar.atr, today))
  }

  predicate Holds(ps: seq<Held>, symbol: Symbol) { exists i :: 0 <= i < |ps| && ps[i].symbol == symbol }

  predicate Queued(orders: seq<Order>, symbol: Symbol) { exists i :: 0 <= i < |orders| && orders[i].symbol == symbol }

  /** Symbols in turn, until the book is full. */
  function Enter(r: Rules, data: Data, today: Date, equity: real, ps: seq<Held>, pending: seq<Order>, todo: seq<Symbol>): seq<Order>
    decreases |todo|
  {
    if todo == [] then pending
    else if Holds(ps, todo[0]) || Queued(pending, todo[0]) || BarOn(data.frames(todo[0]), today).None?
    then Enter(r, data, today, equity, ps, pending, todo[1..])
    else if |ps| + |pending| >= r.limits.maxOpenPositions then pending
    else
      var order := Consider(r, data, today, equity, ps, todo[0]);
      Enter(r, data, today, equity, ps, if order.Some? then pending + [order.value] else pending, todo[1..])
  }

  // ----- a day, and a run -----

  predicate Opens(entriesStart: Option<Date>, today: Date) { entriesStart.None? || today >= entriesStart.value }

  /** Fills, then exits: the book the day's equity is struck on. */
  function Morning(r: Rules, data: Data, today: Date, b: Book): Book {
    var ps := b.positions + Filled(r, data, today, b.pending);
    var exits := Exits(r, data, today, ps);
    b.(positions := Surviving(r, data, today, ps), pending := Waiting(data, today, b.pending),
       trades := b.trades + exits, realized := b.realized + SumPnl(exits))
  }

  function EquityOn(r: Rules, data: Data, today: Date, b: Book): real {
    r.initialEquity + b.realized + Unrealized(data, today, b.positions)
  }

  function DayStep(r: Rules, data: Data, entriesStart: Option<Date>, today: Date, b: Book): Book {
    var m := Morning(r, data, today, b);
    var equity := EquityOn(r, data, today, m);
    m.(pending := if Opens(entriesStart, today) then Enter(r, data, today, equity, m.positions, m.pending, data.symbols)
                  else m.pending,
       curve := m.curve + [(today, equity)])
  }

  function RunDays(r: Rules, data: Data, entriesStart: Option<Date>, dates: seq<Date>): Book {
    if dates == [] then EMPTY
    else DayStep(r, data, entriesStart, dates[|dates| - 1], RunDays(r, data, entriesStart, dates[..|dates| - 1]))
  }

  /** Some symbol has a bar on this day. */
  ghost predicate TradingDay(data: Data, d: Date) {
    exists s :: s in data.symbols && BarOn(data.frames(s), d).Some?
  }

  predicate Increasing(dates: seq<Date>) {
    forall i, j :: 0 <= i < j < |dates| ==> dates[i] < dates[j]
  }

  /** The sorted union of every symbol's dates. */
  ghost predicate IsTimeline(data: Data, dates: seq<Date>) {
    Increasing(dates) && forall d :: d in dates <==> TradingDay(data, d)
  }

  /** A date put in its place among increasing ones, once. */
  function Insert(dates: seq<Date>, d: Date): seq<Date>
    decreases |dates|
  {
    if dates == [] || dates[|dates| - 1] < d then dates + [d]
    else if dates[|dates| - 1] == d then dates
    else Insert(dates[..|dates| - 1], d) + [dates[|dates| - 1]]
  }

  lemma {:induction false} InsertIs(dates: seq<Date>, d: Date)
    requires Increasing(dates)
    ensures Increasing(Insert(dates, d)) && forall x :: x in Insert(dates, d) <==> x in dates || x == d
    decreases |dates|
  {
    if dates != [] && dates[|dates| - 1] > d {
      var n := |dates| - 1;
      InsertIs(dates[..n], d);
      assert dates == dates[..n] + [dates[n]];
      var front := Insert(dates[..n], d);
      forall i | 0 <= i < |front| ensures front[i] < dates[n] {
        assert front[i] in front;
      }
    } else if dates != [] {
      assert dates == dates[..|dates| - 1] + [dates[|dates| - 1]];
    }
  }

  predicate HasBar(f: Frame, d: Date) { exists j :: 0 <= j < |f| && f[j].date == d }

  lemma {:induction false} BarOnIff(f: Frame, d: Date)
    requires Chronological(f)
    ensures BarOn(f, d).Some? <==> HasBar(f, d)
    decreases |f|
  {
    if f != [] && f[|f| - 1].date > d {
      BarOnIff(f[..|f| - 1], d);
      assert HasBar(f[..|f| - 1], d) <==> HasBar(f, d);
    } else if f != [] {
      assert f[|f| - 1].date < d ==> !HasBar(f, d);
    }
  }

  /** Some symbol scanned so far has a bar on this day. */
  predicate AnyBar(frames: Symbol -> Frame, symbols: seq<Symbol>, d: Date) {
    exists k :: 0 <= k < |symbols| && HasBar(frames(symbols[k]), d)
  }

  lemma AnyBarIsTradingDay(data: Data, d: Date)
    requires ValidData(data)
    ensures AnyBar(data.frames, data.symbols, d) <==> TradingDay(data, d)
  {
    if k :| 0 <= k < |data.symbols| && HasBar(data.frames(data.symbols[k]), d) {
      BarOnIff(data.frames(data.symbols[k]), d);
    }
    if s :| s in data.symbols && BarOn(data.frames(s), d).Some? {
      BarOnIff(data.frames(s), d);
    }
  }

  /** Gathers every date of every symbol, sorted, each once. */
  method AllDates(data: Data) returns (dates: seq<Date>)
    requires ValidData(data)
    ensures IsTimeline(data, dates)
  {
    hide HasBar, TradingDay;
    dates := [];
    for k := 0 to |data.symbols|
      invariant Increasing(dates) && forall d :: d in dates <==> AnyBar(data.frames, data.symbols[..k], d)
    {
      ghost var before := dates;
      dates := AddDates(dates, data.frames(data.symbols[k]));
      forall d ensures AnyBar(data.frames, data.symbols[..k + 1], d)
                  <==> AnyBar(data.frames, data.symbols[..k], d) || HasBar(data.frames(data.symbols[k]), d)
      {
        AnyBarSnoc(data.frames, data.symbols, k, d);
      }
    }
    assert data.symbols[..|data.symbols|] == data.symbols;
    forall d ensures d in dates <==> TradingDay(data, d) {
      AnyBarIsTradingDay(data, d);
    }
  }

  lemma AnyBarSnoc(frames: Symbol -> Frame, symbols: seq<Symbol>, k: nat, d: Date)
    requires k < |symbols|
    ensures AnyBar(frames, symbols[..k + 1], d) <==> AnyBar(frames, symbols[..k], d) || HasBar(frames(symbols[k]), d)
  {
    hide HasBar;
    var more := symbols[..k + 1];
    assert more[..k] == symbols[..k] && more[k] == symbols[k];
    if i :| 0 <= i < k && HasBar(frames(symbols[..k][i]), d) {
      assert more[i] == symbols[..k][i];
    }
    if i :| 0 <= i < k + 1 && HasBar(frames(more[i]), d) {
      assert i < k ==> symbols[..k][i] == more[i];
    }
  }

  lemma HasBarSnoc(f: Frame, bar: Bar, d: Date)
    ensures HasBar(f + [bar], d) <==> HasBar(f, d) || d == bar.date
  {
    var longer := f + [bar];
    assert longer[|f|] == bar;
    assert forall i :: 0 <= i < |f| ==> longer[i] == f[i];
  }

  method AddDates(before: seq<Date>, f: Frame) returns (dates: seq<Date>)
    requires Increasing(before)
    ensures Increasing(dates) && forall d :: d in dates <==> d in before || HasBar(f, d)
  {
    dates := before;
    for j := 0 to |f|
      invariant Increasing(dates)
      invariant forall d :: d in dates <==> d in before || HasBar(f[..j], d)
    {
      InsertIs(dates, f[j].date);
      dates := Insert(dates, f[j].date);
      forall d ensures HasBar(f[..j + 1], d) <==> HasBar(f[..j], d) || d == f[j].date {
        HasBarSnoc(f[..j], f[j], d);
        assert f[..j + 1] == f[..j] + [f[j]];
      }
    }
    assert f[..|f|] == f;
  }

  // ----- the loops -----

  class Backtester {
    const rules: Rules

    constructor (rules: Rules)
      ensures this.rules == rules
    {
      this.rules := rules;
    }

    method Run(data: Data, entriesStart: Option<Date>) returns (b: Book, dates: seq<Date>)
      requires ValidData(data)
      ensures IsTimeline(data, dates) && b == RunDays(rules, data, entriesStart, dates)
    {
      hide DayStep, IsTimeline;
      dates := AllDates(data);
      b := EMPTY;
      for d := 0 to |dates|
        invariant b == RunDays(rules, data, entriesStart, dates[..d])
      {
        assert dates[..d + 1][..d] == dates[..d];
        b := Day(data, entriesStart, dates[d], b);
      }
      assert dates[..|dates|] == dates;
    }

    method Day(data: Data, entriesStart: Option<Date>, today: Date, before: Book) returns (b: Book)
      ensures b == DayStep(rules, data, entriesStart, today, before)
    {
      hide Filled, Waiting, Surviving, Exits, SumPnl, Unrealized, Enter;
      var filled, waiting := FillPending(data, today, before.pending);
      var positions, exits, gained := ManagePositions(data, today, before.positions + filled);
      var realized := before.realized + gained;
      var open := UnrealizedGain(data, today, positions);
      var equity := rules.initialEquity + realized + open;
      var pending := waiting;
      if Opens(entriesStart, today) {
        pending := QueueEntries(data, today, equity, positions, pending);
      }
      b := Book(positions, pending, realized, before.trades + exits, before.curve + [(today, equity)]);
    }

    method FillPending(data: Data, today: Date, orders: seq<Order>) returns (filled: seq<Held>, waiting: seq<Order>)
      ensures filled == Filled(rules, data, today, orders) && waiting == Waiting(data, today, orders)
    {
      filled, waiting := [], [];
      for i := 0 to |orders|
        invariant filled == Filled(rules, data, today, orders[..i]) && waiting == Waiting(data, today, orders[..i])
      {
        assert orders[..i + 1][..i] == orders[..i];
        var bar := BarOn(data.frames(orders[i].symbol), today);
        if bar.None? {
          waiting := waiting + [orders[i]];
          continue;
        }
        filled := filled + [FillEntry(rules, orders[i], bar.value, today)];
      }
      assert orders[..|orders|] == orders;
    }

    method ManagePositions(data: Data, today: Date, ps: seq<Held>)
      returns (kept: seq<Held>, exits: seq<Trade>, gained: real)
      ensures kept == Surviving(rules, data, today, ps) && exits == Exits(rules, data, today, ps)
      ensures gained == SumPnl(exits)
    {
      kept, exits, gained := [], [], 0.0;
      for i := 0 to |ps|
        invariant gained == SumPnl(exits)
        invariant kept == Surviving(rules, data, today, ps[..i]) && exits == Exits(rules, data, today, ps[..i])
      {
        assert ps[..i + 1][..i] == ps[..i];
        var f := data.frames(ps[i].symbol);
        var bar := BarOn(f, today);
        if bar.None? {
          kept := kept + [ps[i]];
          continue;
        }
        var exitSignal := rules.shouldExit(ps[i].strategy, ps[i].symbol, Upto(f, today), ps[i].side);
        match Manage(rules, ps[i], bar.value, today, exitSignal, EndsOn(f, today))
        case Kept(p) => kept := kept + [p];
        case Exited(trade) =>
          assert (exits + [trade])[..|exits|] == exits;
          exits, gained := exits + [trade], gained + trade.pnl;
      }
      assert ps[..|ps|] == ps;
    }

    method UnrealizedGain(data: Data, today: Date, ps: seq<Held>) returns (total: real)
      ensures total == Unrealized(data, today, ps)
    {
      total := 0.0;
      for i := 0 to |ps|
        invariant total == Unrealized(data, today, ps[..i])
      {
        assert ps[..i + 1][..i] == ps[..i];
        var bar := BarOn(data.frames(ps[i].symbol), today);
        if bar.Some? {
          total := total + GainOf(ps[i], bar.value.close);
        }
      }
      assert ps[..|ps|] == ps;
    }

    method QueueEntries(data: Data, today: Date, equity: real, ps: seq<Held>, orders: seq<Order>) returns (pending: seq<Order>)
      ensures pending == Enter(rules, data, today, equity, ps, orders, data.symbols)
    {
      pending := orders;
      var i := 0;
      assert data.symbols[0..] == data.symbols;
      while i < |data.symbols|
        invariant 0 <= i <= |data.symbols|
        invariant Enter(rules, data, today, equity, ps, orders, data.symbols)
               == Enter(rules, data, today, equity, ps, pending, data.symbols[i..])
      {
        var symbol := data.symbols[i];
        assert data.symbols[i..][0] == symbol && data.symbols[i..][1..] == data.symbols[i + 1..];
        if Holds(ps, symbol) || Queued(pending, symbol) || BarOn(data.frames(symbol), today).None? {
          i := i + 1;
          continue;
        }
        if |ps| + |pending| >= rules.limits.maxOpenPositions {
          return;
        }
        var order := Consider(rules, data, today, equity, ps, symbol);
        if order.Some? {
          pending := pending + [order.value];
        }
        i := i + 1;
      }
    }
  }
}
