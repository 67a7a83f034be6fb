/** What every backtest keeps, day after day: its books balance, symbols are
    never doubled, slots are never oversubscribed, and every trade is filled
    strictly after its signal and before the symbol trades again. */
module BacktestLaws {
  import opened Common
  import opened Ratchets
  import opened RiskGate
  import opened Backtesting
  import opened CircuitBreakers
  import opened NoLookAhead
  import opened SentimentGate
  import EntryLoop

  // ----- symbols: conserved through a day, one each -----

  /** How many of `xs` are in a symbol. */
  function Count<T>(xs: seq<T>, symbolOf: T -> Symbol, symbol: Symbol): nat {
    if xs == [] then 0 else Count(xs[..|xs| - 1], symbolOf, symbol) + if symbolOf(xs[|xs| - 1]) == symbol then 1 else 0
  }

  function HeldIn(p: Held): Symbol { p.symbol }

  function OrderedIn(o: Order): Symbol { o.symbol }

  function TradedIn(t: Trade): Symbol { t.symbol }

  lemma CountSnoc<T>(xs: seq<T>, symbolOf: T -> Symbol, x: T, symbol: Symbol)
    ensures Count(xs + [x], symbolOf, symbol) == Count(xs, symbolOf, symbol) + if symbolOf(x) == symbol then 1 else 0
  {
    assert (xs + [x])[..|xs|] == xs;
  }

  lemma {:induction false} CountConcat<T>(a: seq<T>, b: seq<T>, symbolOf: T -> Symbol, symbol: Symbol)
    ensures Count(a + b, symbolOf, symbol) == Count(a, symbolOf, symbol) + Count(b, symbolOf, symbol)
    decreases |b|
  {
    if b == [] {
      assert a + b == a;
    } else {
      var n := |b| - 1;
      CountConcat(a, b[..n], symbolOf, symbol);
      CountSnoc(a + b[..n], symbolOf, b[n], symbol);
      assert a + b == a + b[..n] + [b[n]];
    }
  }

  predicate Occurs<T>(xs: seq<T>, symbolOf: T -> Symbol, symbol: Symbol) { exists i :: 0 <= i < |xs| && symbolOf(xs[i]) == symbol }

  lemma {:induction false} CountMeans<T>(xs: seq<T>, symbolOf: T -> Symbol, symbol: Symbol)
    ensures Count(xs, symbolOf, symbol) >= 1 <==> Occurs(xs, symbolOf, symbol)
  {
    if xs != [] {
      var n := |xs| - 1;
      CountMeans(xs[..n], symbolOf, symbol);
      assert Occurs(xs, symbolOf, symbol) <==> Occurs(xs[..n], symbolOf, symbol) || symbolOf(xs[n]) == symbol;
    }
  }

  /** Every order becomes a position or waits on: none lost, none doubled. */
  lemma {:induction false} FillsConserve(r: Rules, data: Data, today: Date, orders: seq<Order>, symbol: Symbol)
    ensures Count(Filled(r, data, today, orders), HeldIn, symbol) + Count(Waiting(data, today, orders), OrderedIn, symbol)
         == Count(orders, OrderedIn, symbol)
    ensures |Filled(r, data, today, orders)| + |Waiting(data, today, orders)| == |orders|
  {
    if orders != [] {
      hide Count, BarOn, FillEntry;
      var n := |orders| - 1;
      FillsConserve(r, data, today, orders[..n], symbol);
      var f, w, bar := Filled(r, data, today, orders[..n]), Waiting(data, today, orders[..n]), BarOn(data.frames(orders[n].symbol), today);
      if bar.Some? {
        var p := FillEntry(r, orders[n], bar.value, today);
        CountSnoc(f, HeldIn, p, symbol);
        assert p.symbol == orders[n].symbol by { FillKeepsSignal(r, orders[n], bar.value, today); }
      } else {
        CountSnoc(w, OrderedIn, orders[n], symbol);
      }
      assert f + [] == f && w + [] == w;
    }
  }

  lemma FillKeepsSignal(r: Rules, o: Order, bar: Bar, today: Date)
    ensures var p := FillEntry(r, o, bar, today);
      && p.symbol == o.symbol && p.signalDate == o.signalDate && p.entryDate == today
      && p.side == o.side && p.qty == o.qty && p.strategy == o.strategy
  {
  }

  /** A managed position keeps its identity, survivor or trade. */
  lemma ManageKeepsLife(r: Rules, data: Data, today: Date, p: Held)
    ensures match ManageOn(r, data, today, p)
      case Kept(q) => q == p.(ratchet := q.ratchet)
      case Exited(t) =>
        && t.symbol == p.symbol && t.entryDate == p.entryDate && t.signalDate == p.signalDate && t.exitDate == today
        && t.side == p.side && t.qty == p.qty && t.strategy == p.strategy
  {
  }

  /** Every position survives the day or leaves exactly one trade. */
  lemma {:induction false} ExitsConserve(r: Rules, data: Data, today: Date, ps: seq<Held>, symbol: Symbol)
    ensures Count(Surviving(r, data, today, ps), HeldIn, symbol) + Count(Exits(r, data, today, ps), TradedIn, symbol)
         == Count(ps, HeldIn, symbol)
    ensures |Surviving(r, data, today, ps)| + |Exits(r, data, today, ps)| == |ps|
  {
    if ps != [] {
      hide ManageOn;
      var n := |ps| - 1;
      ExitsConserve(r, data, today, ps[..n], symbol);
      var s, x, m := Surviving(r, data, today, ps[..n]), Exits(r, data, today, ps[..n]), ManageOn(r, data, today, ps[n]);
      ManageKeepsLife(r, data, today, ps[n]);
      if m.Kept? { CountSnoc(s, HeldIn, m.position, symbol); } else { CountSnoc(x, TradedIn, m.trade, symbol); }
      assert s + [] == s && x + [] == x;
    }
  }

  lemma HeldCounts(ps: seq<Held>, symbol: Symbol)
    ensures Count(ps, HeldIn, symbol) >= 1 <==> Holds(ps, symbol)
  {
    CountMeans(ps, HeldIn, symbol);
  }

  lemma OrderCounts(orders: seq<Order>, symbol: Symbol)
    ensures Count(orders, OrderedIn, symbol) >= 1 <==> Queued(orders, symbol)
  {
    CountMeans(orders, OrderedIn, symbol);
  }

  /** Held or queued at most once. */
  ghost predicate OneEach(ps: seq<Held>, orders: seq<Order>) {
    forall s :: Count(ps, HeldIn, s) + Count(orders, OrderedIn, s) <= 1
  }

  lemma QueueOneMore(ps: seq<Held>, pending: seq<Order>, o: Order)
    requires OneEach(ps, pending) && !Holds(ps, o.symbol) && !Queued(pending, o.symbol)
    ensures OneEach(ps, pending + [o])
  {
    forall s ensures Count(ps, HeldIn, s) + Count(pending + [o], OrderedIn, s) <= 1 {
      CountSnoc(pending, OrderedIn, o, s);
      HeldCounts(ps, s);
      OrderCounts(pending, s);
    }
  }

  /** `longer` is `shorter` followed by signals of `today` on scanned symbols. */
  ghost predicate Extended(shorter: seq<Order>, longer: seq<Order>, today: Date, scanned: seq<Symbol>) {
    && |shorter| <= |longer| && longer[..|shorter|] == shorter
    && forall i :: |shorter| <= i < |longer| ==> longer[i].signalDate == today && longer[i].symbol in scanned
  }

  /** New entries never touch a symbol that is held or queued, and never push the
      book past its limit. */
  lemma {:induction false} EntersKeepOneEach(r: Rules, data: Data, today: Date, equity: real, ps: seq<Held>,
                                             pending: seq<Order>, todo: seq<Symbol>)
    requires OneEach(ps, pending)
    ensures var after := Enter(r, data, today, equity, ps, pending, todo);
      && OneEach(ps, after) && Extended(pending, after, today, todo)
      && (|after| > |pending| ==> |ps| + |after| <= r.limits.maxOpenPositions)
    decreases |todo|
  {
    if todo != [] {
      hide Consider, OneEach, Holds, Queued, BarOn;
      var order := Consider(r, data, today, equity, ps, todo[0]);
      ConsiderSignals(r, data, today, equity, ps, todo[0]);
      EntersKeepOneEach(r, data, today, equity, ps, pending, todo[1..]);
      if order.Some? && !Holds(ps, todo[0]) && !Queued(pending, todo[0]) {
        var longer := pending + [order.value];
        QueueOneMore(ps, pending, order.value);
        EntersKeepOneEach(r, data, today, equity, ps, longer, todo[1..]);
        ExtendedChain(pending, order.value, Enter(r, data, today, equity, ps, longer, todo[1..]), today, todo);
      }
    }
  }

  lemma ExtendedChain(pending: seq<Order>, o: Order, after: seq<Order>, today: Date, todo: seq<Symbol>)
    requires todo != [] && Extended(pending + [o], after, today, todo[1..])
    requires o.signalDate == today && o.symbol == todo[0]
    ensures Extended(pending, after, today, todo)
  {
    assert after[..|pending|] == after[..|pending| + 1][..|pending|];
    assert after[|pending|] == after[..|pending| + 1][|pending|];
  }

  lemma ConsiderSignals(r: Rules, data: Data, today: Date, equity: real, ps: seq<Held>, symbol: Symbol)
    ensures var o := Consider(r, data, today, equity, ps, symbol);
      o.Some? ==> o.value.symbol == symbol && o.value.signalDate == today
  {
  }

  // ----- what is known of every order, position and trade -----

  predicate ExitedBy(trades: seq<Trade>, symbol: Symbol, date: Date) {
    forall i :: 0 <= i < |trades| && trades[i].symbol == symbol ==> trades[i].exitDate <= date
  }

  predicate ExitedBefore(trades: seq<Trade>, symbol: Symbol, date: Date) {
    forall i :: 0 <= i < |trades| && trades[i].symbol == symbol ==> trades[i].exitDate < date
  }

  predicate OrderOk(data: Data, start: Option<Date>, trades: seq<Trade>, today: Date, o: Order) {
    && o.signalDate <= today && Opens(start, o.signalDate) && o.symbol in data.symbols
    && ExitedBy(trades, o.symbol, o.signalDate)
  }

  predicate HeldOk(data: Data, start: Option<Date>, trades: seq<Trade>, today: Date, p: Held) {
    && p.signalDate < p.entryDate <= today && Opens(start, p.signalDate) && p.symbol in data.symbols
    && ExitedBefore(trades, p.symbol, p.entryDate)
  }

  predicate TradeOk(start: Option<Date>, today: Date, t: Trade) {
    t.signalDate < t.entryDate <= t.exitDate <= today && Opens(start, t.signalDate)
  }

  /** The symbol still trades on some day after `today`. */
  predicate RunsPast(data: Data, today: Date, symbol: Symbol) {
    var f := data.frames(symbol);
    f != [] && f[|f| - 1].date > today
  }

  predicate RunsTo(data: Data, today: Date, symbol: Symbol) {
    var f := data.frames(symbol);
    f != [] && f[|f| - 1].date >= today
  }

  predicate OrdersOk(data: Data, start: Option<Date>, trades: seq<Trade>, today: Date, orders: seq<Order>) {
    forall i :: 0 <= i < |orders| ==> OrderOk(data, start, trades, today, orders[i])
  }

  predicate PositionsOk(data: Data, start: Option<Date>, trades: seq<Trade>, today: Date, ps: seq<Held>) {
    forall i :: 0 <= i < |ps| ==> HeldOk(data, start, trades, today, ps[i])
  }

  predicate TradesOk(start: Option<Date>, today: Date, trades: seq<Trade>) {
    forall i :: 0 <= i < |trades| ==> TradeOk(start, today, trades[i])
  }

  predicate InOrder(t: Trade, u: Trade) { t.symbol == u.symbol ==> t.exitDate < u.entryDate }

  /** Two trades in one symbol never overlap: the second is entered strictly
      after the first is out. */
  predicate Lifetimes(trades: seq<Trade>) {
    forall i, j :: 0 <= i < j < |trades| ==> InOrder(trades[i], trades[j])
  }

  ghost predicate BookOk(r: Rules, data: Data, start: Option<Date>, today: Date, b: Book) {
    && OneEach(b.positions, b.pending)
    && |b.positions| + |b.pending| <= r.limits.maxOpenPositions
    && PositionsOk(data, start, b.trades, today, b.positions)
    && (forall i :: 0 <= i < |b.positions| ==> RunsPast(data, today, b.positions[i].symbol))
    && OrdersOk(data, start, b.trades, today, b.pending)
    && TradesOk(start, today, b.trades) && Lifetimes(b.trades)
    && b.realized == SumPnl(b.trades)
  }

  lemma {:induction false} FilledOk(r: Rules, data: Data, start: Option<Date>, trades: seq<Trade>, before: Date, today: Date, orders: seq<Order>)
    requires ValidData(data) && before < today && OrdersOk(data, start, trades, before, orders)
    ensures PositionsOk(data, start, trades, today, Filled(r, data, today, orders))
    ensures forall i :: 0 <= i < |Filled(r, data, today, orders)| ==> RunsTo(data, today, Filled(r, data, today, orders)[i].symbol)
    ensures OrdersOk(data, start, trades, today, Waiting(data, today, orders))
  {
    if orders != [] {
      hide BarOn, FillEntry;
      var n := |orders| - 1;
      FilledOk(r, data, start, trades, before, today, orders[..n]);
      var o := orders[n];
      assert OrderOk(data, start, trades, before, o);
      var bar := BarOn(data.frames(o.symbol), today);
      if bar.Some? {
        FillKeepsSignal(r, o, bar.value, today);
        BarMeansRunsTo(data, today, o.symbol);
      }
    }
  }

  lemma BarMeansRunsTo(data: Data, today: Date, symbol: Symbol)
    requires ValidData(data) && BarOn(data.frames(symbol), today).Some?
    ensures RunsTo(data, today, symbol)
    ensures EndsOn(data.frames(symbol), today) || RunsPast(data, today, symbol)
  {
    UptoIsPrefix(data.frames(symbol), today);
  }

  /** A symbol without a bar today whose last bar is not before today trades on. */
  lemma NoBarMeansRunsPast(data: Data, today: Date, symbol: Symbol)
    requires ValidData(data) && BarOn(data.frames(symbol), today).None? && RunsTo(data, today, symbol)
    ensures RunsPast(data, today, symbol)
  {
    UptoIsPrefix(data.frames(symbol), today);
  }

  lemma SurvivorRunsPast(r: Rules, data: Data, today: Date, p: Held)
    requires ValidData(data) && RunsTo(data, today, p.symbol) && ManageOn(r, data, today, p).Kept?
    ensures RunsPast(data, today, p.symbol)
  {
    if BarOn(data.frames(p.symbol), today).Some? {
      BarMeansRunsTo(data, today, p.symbol);
    } else {
      NoBarMeansRunsPast(data, today, p.symbol);
    }
  }

  lemma {:induction false} ManagedOk(r: Rules, data: Data, start: Option<Date>, trades: seq<Trade>, today: Date, ps: seq<Held>)
    requires ValidData(data) && PositionsOk(data, start, trades, today, ps)
    requires forall i :: 0 <= i < |ps| ==> RunsTo(data, today, ps[i].symbol)
    ensures PositionsOk(data, start, trades, today, Surviving(r, data, today, ps))
    ensures forall i :: 0 <= i < |Surviving(r, data, today, ps)| ==> RunsPast(data, today, Surviving(r, data, today, ps)[i].symbol)
    ensures TradesOk(start, today, Exits(r, data, today, ps))
    ensures forall i :: 0 <= i < |Exits(r, data, today, ps)| ==>
      ExitedBefore(trades, Exits(r, data, today, ps)[i].symbol, Exits(r, data, today, ps)[i].entryDate)
  {
    if ps != [] {
      hide ManageOn, RunsTo, RunsPast, ExitedBefore;
      var n := |ps| - 1;
      ManagedOk(r, data, start, trades, today, ps[..n]);
      assert HeldOk(data, start, trades, today, ps[n]);
      ManageKeepsLife(r, data, today, ps[n]);
      if ManageOn(r, data, today, ps[n]).Kept? {
        SurvivorRunsPast(r, data, today, ps[n]);
      }
    }
  }

  // ----- one day keeps it all -----

  lemma {:induction false} TwoTradesCount(trades: seq<Trade>, i: nat, j: nat)
    requires i < j < |trades| && trades[i].symbol == trades[j].symbol
    ensures Count(trades, TradedIn, trades[i].symbol) >= 2
  {
    var n := |trades| - 1;
    if j < n {
      TwoTradesCount(trades[..n], i, j);
    } else {
      assert trades[..n][i] == trades[i];
      CountMeans(trades[..n], TradedIn, trades[i].symbol);
    }
  }

  lemma NoTwins(exits: seq<Trade>, i: nat, j: nat)
    requires i < j < |exits| && forall s :: Count(exits, TradedIn, s) <= 1
    ensures exits[i].symbol != exits[j].symbol
  {
    if exits[i].symbol == exits[j].symbol {
      TwoTradesCount(exits, i, j);
    }
  }

  lemma LifetimesGrow(trades: seq<Trade>, exits: seq<Trade>)
    requires Lifetimes(trades) && forall s :: Count(exits, TradedIn, s) <= 1
    requires forall i :: 0 <= i < |exits| ==> ExitedBefore(trades, exits[i].symbol, exits[i].entryDate)
    ensures Lifetimes(trades + exits)
  {
    forall i, j | 0 <= i < j < |trades + exits| ensures InOrder((trades + exits)[i], (trades + exits)[j]) {
      hide Lifetimes, InOrder, ExitedBefore, Count;
      PairInOrder(trades, exits, i, j);
    }
  }

  lemma PairInOrder(trades: seq<Trade>, exits: seq<Trade>, i: nat, j: nat)
    requires Lifetimes(trades) && i < j < |trades + exits| && forall s :: Count(exits, TradedIn, s) <= 1
    requires forall i :: 0 <= i < |exits| ==> ExitedBefore(trades, exits[i].symbol, exits[i].entryDate)
    ensures InOrder((trades + exits)[i], (trades + exits)[j])
  {
    hide Count;
    var n := |trades|;
    if i >= n {
      hide Lifetimes;
      NoTwins(exits, i - n, j - n);
    } else if j >= n {
      hide Lifetimes;
      var t, u := trades[i], exits[j - n];
      assert (trades + exits)[i] == t && (trades + exits)[j] == u;
      assert ExitedBefore(trades, u.symbol, u.entryDate);
    } else {
      assert (trades + exits)[i] == trades[i] && (trades + exits)[j] == trades[j];
    }
  }

  /** Trades in other symbols say nothing about this one. */
  lemma ExitedAfterOthers(trades: seq<Trade>, exits: seq<Trade>, symbol: Symbol, date: Date)
    requires Count(exits, TradedIn, symbol) == 0
    ensures ExitedBefore(trades, symbol, date) ==> ExitedBefore(trades + exits, symbol, date)
    ensures ExitedBy(trades, symbol, date) ==> ExitedBy(trades + exits, symbol, date)
  {
    CountMeans(exits, TradedIn, symbol);
  }

  lemma {:induction false} SumPnlConcat(a: seq<Trade>, b: seq<Trade>)
    ensures SumPnl(a + b) == SumPnl(a) + SumPnl(b)
    decreases |b|
  {
    if b == [] {
      assert a + b == a;
    } else {
      var n := |b| - 1;
      SumPnlConcat(a, b[..n]);
      assert (a + b)[..|a + b| - 1] == a + b[..n];
    }
  }

  /** The next day of the timeline: no scanned symbol trades in between. */
  ghost predicate NextDay(data: Data, before: Date, today: Date) {
    before < today && forall s :: s in data.symbols && RunsPast(data, before, s) ==> RunsTo(data, today, s)
  }

  lemma MorningKeys(r: Rules, data: Data, today: Date, b: Book)
    requires OneEach(b.positions, b.pending)
    ensures var m := Morning(r, data, today, b);
      var exits := Exits(r, data, today, b.positions + Filled(r, data, today, b.pending));
      && OneEach(m.positions, m.pending)
      && |m.positions| + |m.pending| <= |b.positions| + |b.pending|
      && forall s :: Count(exits, TradedIn, s) + Count(m.positions, HeldIn, s) + Count(m.pending, OrderedIn, s) <= 1
  {
    hide Filled, Waiting, Surviving, Exits, Count;
    var m, ps := Morning(r, data, today, b), b.positions + Filled(r, data, today, b.pending);
    FillsConserve(r, data, today, b.pending, "");
    ExitsConserve(r, data, today, ps, "");
    forall s ensures Count(Exits(r, data, today, ps), TradedIn, s) + Count(m.positions, HeldIn, s) + Count(m.pending, OrderedIn, s) <= 1 {
      FillsConserve(r, data, today, b.pending, s);
      CountConcat(b.positions, Filled(r, data, today, b.pending), HeldIn, s);
      ExitsConserve(r, data, today, ps, s);
      assert Count(b.positions, HeldIn, s) + Count(b.pending, OrderedIn, s) <= 1;
    }
  }

  lemma MorningKeeps(r: Rules, data: Data, start: Option<Date>, before: Date, today: Date, b: Book)
    requires ValidData(data) && NextDay(data, before, today) && BookOk(r, data, start, before, b)
    ensures BookOk(r, data, start, today, Morning(r, data, today, b))
  {
    hide Filled, Waiting, Surviving, Exits, SumPnl, ExitedBefore, ExitedBy, RunsPast, RunsTo, OneEach, Lifetimes;
    var m, filled := Morning(r, data, today, b), Filled(r, data, today, b.pending);
    var ps := b.positions + filled;
    var exits := Exits(r, data, today, ps);
    FilledOk(r, data, start, b.trades, before, today, b.pending);
    ManagedOk(r, data, start, b.trades, today, ps);
    MorningKeys(r, data, today, b);
    SumPnlConcat(b.trades, exits);
    assert forall s :: Count(exits, TradedIn, s) <= 1;
    LifetimesGrow(b.trades, exits);
    forall i | 0 <= i < |m.positions| ensures HeldOk(data, start, m.trades, today, m.positions[i]) {
      HeldCounts(m.positions, m.positions[i].symbol);
      ExitedAfterOthers(b.trades, exits, m.positions[i].symbol, m.positions[i].entryDate);
      assert HeldOk(data, start, b.trades, today, m.positions[i]);
    }
    forall i | 0 <= i < |m.pending| ensures OrderOk(data, start, m.trades, today, m.pending[i]) {
      OrderCounts(m.pending, m.pending[i].symbol);
      ExitedAfterOthers(b.trades, exits, m.pending[i].symbol, m.pending[i].signalDate);
      assert OrderOk(data, start, b.trades, today, m.pending[i]);
    }
  }

  lemma DayKeeps(r: Rules, data: Data, start: Option<Date>, before: Date, today: Date, b: Book)
    requires ValidData(data) && NextDay(data, before, today) && BookOk(r, data, start, before, b)
    ensures BookOk(r, data, start, today, DayStep(r, data, start, today, b))
  {
    hide Morning, Enter, EquityOn, OneEach, RunsPast;
    MorningKeeps(r, data, start, before, today, b);
    var m := Morning(r, data, today, b);
    if Opens(start, today) {
      var equity := EquityOn(r, data, today, m);
      EntersKeepOneEach(r, data, today, equity, m.positions, m.pending, data.symbols);
      var after := Enter(r, data, today, equity, m.positions, m.pending, data.symbols);
      forall i | 0 <= i < |after| ensures OrderOk(data, start, m.trades, today, after[i]) {
        if i < |m.pending| {
          assert after[i] == after[..|m.pending|][i];
        } else {
          ExitedByToday(start, m.trades, today, after[i].symbol);
        }
      }
    }
  }

  lemma ExitedByToday(start: Option<Date>, trades: seq<Trade>, today: Date, symbol: Symbol)
    requires TradesOk(start, today, trades)
    ensures ExitedBy(trades, symbol, today)
  {
    forall i | 0 <= i < |trades| ensures trades[i].exitDate <= today {
      assert TradeOk(start, today, trades[i]);
    }
  }

  // ----- whole runs -----

  lemma LastBarIsTradingDay(data: Data, dates: seq<Date>, symbol: Symbol)
    requires ValidData(data) && IsTimeline(data, dates) && symbol in data.symbols && data.frames(symbol) != []
    ensures data.frames(symbol)[|data.frames(symbol)| - 1].date in dates
  {
    var f := data.frames(symbol);
    var d := f[|f| - 1].date;
    assert Upto(f, d) == f;
    assert BarOn(f, d).Some?;
    assert TradingDay(data, d);
    assert d in dates;
  }

  lemma TimelineIsConsecutive(data: Data, dates: seq<Date>, k: nat)
    requires ValidData(data) && IsTimeline(data, dates) && 0 < k < |dates|
    ensures NextDay(data, dates[k - 1], dates[k])
  {
    forall s | s in data.symbols && RunsPast(data, dates[k - 1], s) ensures RunsTo(data, dates[k], s) {
      LastBarIsTradingDay(data, dates, s);
      var f := data.frames(s);
      var d := f[|f| - 1].date;
      var i :| 0 <= i < |dates| && dates[i] == d;
      assert i >= k;
    }
  }

  /** The book is sound at the end of every day. */
  lemma {:induction false} RunKeeps(r: Rules, data: Data, start: Option<Date>, dates: seq<Date>, k: nat)
    requires ValidData(data) && IsTimeline(data, dates) && 0 < k <= |dates| && r.limits.maxOpenPositions >= 0
    ensures BookOk(r, data, start, dates[k - 1], RunDays(r, data, start, dates[..k]))
  {
    hide DayStep, BookOk;
    var today := dates[k - 1];
    assert dates[..k][..k - 1] == dates[..k - 1];
    if k == 1 {
      EmptyIsSound(r, data, start, today - 1);
      assert NextDay(data, today - 1, today);
      assert RunDays(r, data, start, dates[..0]) == EMPTY;
      DayKeeps(r, data, start, today - 1, today, EMPTY);
    } else {
      RunKeeps(r, data, start, dates, k - 1);
      TimelineIsConsecutive(data, dates, k - 1);
      DayKeeps(r, data, start, dates[k - 2], today, RunDays(r, data, start, dates[..k - 1]));
    }
  }

  lemma EmptyIsSound(r: Rules, data: Data, start: Option<Date>, today: Date)
    requires r.limits.maxOpenPositions >= 0
    ensures BookOk(r, data, start, today, EMPTY)
  {
  }

  /** No position outlives the data. */
  lemma NothingLeftOpen(r: Rules, data: Data, start: Option<Date>, dates: seq<Date>)
    requires ValidData(data) && IsTimeline(data, dates) && r.limits.maxOpenPositions >= 0
    ensures RunDays(r, data, start, dates).positions == []
  {
    hide DayStep;
    var b := RunDays(r, data, start, dates);
    if dates != [] {
      RunKeeps(r, data, start, dates, |dates|);
      assert dates[..|dates|] == dates;
      if b.positions != [] {
        LastDayEndsAll(data, start, dates, b.trades, b.positions[0]);
      }
    }
  }

  lemma LastDayEndsAll(data: Data, start: Option<Date>, dates: seq<Date>, trades: seq<Trade>, p: Held)
    requires ValidData(data) && IsTimeline(data, dates) && dates != []
    requires HeldOk(data, start, trades, dates[|dates| - 1], p)
    ensures !RunsPast(data, dates[|dates| - 1], p.symbol)
  {
    if data.frames(p.symbol) != [] {
      LastBarIsTradingDay(data, dates, p.symbol);
    }
  }

  /** The accounting identity: each day's equity is the initial equity, plus the
      profit of every trade closed by then, plus the paper gain of what is open. */
  lemma EquityIsAccounted(r: Rules, data: Data, start: Option<Date>, dates: seq<Date>, k: nat)
    requires ValidData(data) && IsTimeline(data, dates) && k < |dates| && r.limits.maxOpenPositions >= 0
    ensures var full, sofar := RunDays(r, data, start, dates), RunDays(r, data, start, dates[..k + 1]);
      && |full.curve| == |dates|
      && full.curve[k] == (dates[k], r.initialEquity + SumPnl(ClosedBy(full.trades, dates[k]))
                                     + Unrealized(data, dates[k], sofar.positions))
  {
    hide DayStep, BookOk, ClosedBy, Unrealized;
    var full, sofar := RunDays(r, data, start, dates), RunDays(r, data, start, dates[..k + 1]);
    CurveIsTimeline(r, data, start, dates, k);
    RecordUpto(r, data, start, dates, dates[k]);
    DatesUptoIs(dates, k);
    RunKeeps(r, data, start, dates, k + 1);
    DayEquity(r, data, start, dates[k], RunDays(r, data, start, dates[..k]));
    assert dates[..k + 1][..k] == dates[..k];
    SoundRealized(r, data, start, dates[k], sofar);
  }

  lemma SoundRealized(r: Rules, data: Data, start: Option<Date>, today: Date, b: Book)
    requires BookOk(r, data, start, today, b)
    ensures b.realized == SumPnl(b.trades)
  {
  }

  lemma DayEquity(r: Rules, data: Data, start: Option<Date>, today: Date, b: Book)
    ensures var after := DayStep(r, data, start, today, b);
      after.curve == b.curve + [(today, r.initialEquity + after.realized + Unrealized(data, today, after.positions))]
  {
    hide Filled, Waiting, Surviving, Exits, Enter, Unrealized;
  }

  lemma {:induction false} DatesUptoIs(dates: seq<Date>, k: nat)
    requires Increasing(dates) && k < |dates|
    ensures DatesUpto(dates, dates[k]) == dates[..k + 1]
    decreases |dates|
  {
    if k == |dates| - 1 {
      assert dates[..k + 1] == dates;
    } else {
      var n := |dates| - 1;
      DatesUptoIs(dates[..n], k);
      assert dates[..n][..k + 1] == dates[..k + 1];
    }
  }

  /** One equity point per day, in order, never revised. */
  lemma {:induction false} CurveIsTimeline(r: Rules, data: Data, start: Option<Date>, dates: seq<Date>, k: nat)
    requires k < |dates|
    ensures var full, sofar := RunDays(r, data, start, dates), RunDays(r, data, start, dates[..k + 1]);
      |full.curve| == |dates| && |sofar.curve| == k + 1 && full.curve[k] == sofar.curve[k]
    decreases |dates|
  {
    hide DayStep;
    var n := |dates| - 1;
    DayEquity(r, data, start, dates[n], RunDays(r, data, start, dates[..n]));
    if n > 0 {
      CurveIsTimeline(r, data, start, dates[..n], if k < n then k else n - 1);
    }
    if k < n {
      assert dates[..n][..k + 1] == dates[..k + 1];
    } else {
      assert dates[..k + 1] == dates;
    }
  }

  /** At the end nothing is open and the last equity is the initial equity plus
      the profit of the trades. */
  lemma FinalEquityIsRealized(r: Rules, data: Data, start: Option<Date>, dates: seq<Date>)
    requires ValidData(data) && IsTimeline(data, dates) && dates != [] && r.limits.maxOpenPositions >= 0
    ensures var b := RunDays(r, data, start, dates);
      && b.positions == [] && b.curve != []
      && b.curve[|b.curve| - 1] == (dates[|dates| - 1], r.initialEquity + SumPnl(b.trades))
  {
    hide DayStep, BookOk;
    var n := |dates|;
    NothingLeftOpen(r, data, start, dates);
    RunKeeps(r, data, start, dates, n);
    assert dates[..n] == dates;
    SoundRealized(r, data, start, dates[n - 1], RunDays(r, data, start, dates));
    DayEquity(r, data, start, dates[n - 1], RunDays(r, data, start, dates[..n - 1]));
  }

  /** Every trade of every run: filled strictly after its signal, out no earlier
      than in, never overlapping another trade of its symbol. */
  lemma TradesFollowSignals(r: Rules, data: Data, start: Option<Date>, dates: seq<Date>)
    requires ValidData(data) && IsTimeline(data, dates) && dates != [] && r.limits.maxOpenPositions >= 0
    ensures var trades := RunDays(r, data, start, dates).trades;
      && Lifetimes(trades)
      && forall i :: 0 <= i < |trades| ==> TradeOk(start, dates[|dates| - 1], trades[i])
  {
    hide DayStep;
    RunKeeps(r, data, start, dates, |dates|);
    assert dates[..|dates|] == dates;
  }

  // ----- an order that can never fill -----

  /** While its symbol does not trade, an order stays queued. */
  lemma {:induction false} DeadOrderNeverLeaves(r: Rules, data: Data, start: Option<Date>, dates: seq<Date>, k: nat, o: Order)
    requires k <= |dates| && o in RunDays(r, data, start, dates[..k]).pending
    requires forall i :: k <= i < |dates| ==> !TradesOn(data, o.symbol, dates[i])
    ensures o in RunDays(r, data, start, dates).pending
    decreases |dates|
  {
    hide DayStep, TradesOn;
    if k == |dates| {
      assert dates[..k] == dates;
    } else {
      var n := |dates| - 1;
      assert dates[..n][..k] == dates[..k];
      forall i | k <= i < n ensures !TradesOn(data, o.symbol, dates[..n][i]) {
        assert dates[..n][i] == dates[i];
      }
      DeadOrderNeverLeaves(r, data, start, dates[..n], k, o);
      DayKeepsDeadOrder(r, data, start, dates[n], RunDays(r, data, start, dates[..n]), o);
    }
  }

  predicate TradesOn(data: Data, symbol: Symbol, today: Date) { BarOn(data.frames(symbol), today).Some? }

  lemma DayKeepsDeadOrder(r: Rules, data: Data, start: Option<Date>, today: Date, b: Book, o: Order)
    requires o in b.pending && !TradesOn(data, o.symbol, today)
    ensures o in DayStep(r, data, start, today, b).pending
  {
    hide BarOn, Waiting, Enter, Filled, Surviving, Exits, EquityOn;
    var m := Morning(r, data, today, b);
    DeadOrderWaits(data, today, b.pending, o);
    EnterKeepsOrders(r, data, today, EquityOn(r, data, today, m), m.positions, m.pending, data.symbols, o);
  }

  lemma {:induction false} DeadOrderWaits(data: Data, today: Date, orders: seq<Order>, o: Order)
    requires o in orders && BarOn(data.frames(o.symbol), today).None?
    ensures o in Waiting(data, today, orders)
  {
    var n := |orders| - 1;
    assert orders == orders[..n] + [orders[n]];
    if o != orders[n] {
      DeadOrderWaits(data, today, orders[..n], o);
    }
  }

  lemma {:induction false} EnterKeepsOrders(r: Rules, data: Data, today: Date, equity: real, ps: seq<Held>,
                                            pending: seq<Order>, todo: seq<Symbol>, o: Order)
    requires o in pending
    ensures o in Enter(r, data, today, equity, ps, pending, todo)
    decreases |todo|
  {
    if todo != [] {
      hide Consider, BarOn, Holds, Queued;
      var order := Consider(r, data, today, equity, ps, todo[0]);
      EnterKeepsOrders(r, data, today, equity, ps, pending, todo[1..], o);
      EnterKeepsOrders(r, data, today, equity, ps, if order.Some? then pending + [order.value] else pending, todo[1..], o);
    }
  }

  // ----- and the day it does -----

  /** The first day its symbol trades, an order leaves: nothing that waits on is in a
      symbol that traded. */
  lemma {:induction false} WaitingDidNotTrade(data: Data, today: Date, orders: seq<Order>, o: Order)
    requires o in Waiting(data, today, orders)
    ensures !TradesOn(data, o.symbol, today) && o in orders
  {
    hide BarOn;
    var n := |orders| - 1;
    if o in Waiting(data, today, orders[..n]) {
      WaitingDidNotTrade(data, today, orders[..n], o);
    }
  }

  /** What is queued after a day was waiting, or is of that day. */
  lemma QueuedAfterDay(r: Rules, data: Data, start: Option<Date>, today: Date, b: Book, o: Order)
    requires o in DayStep(r, data, start, today, b).pending && OneEach(b.positions, b.pending)
    ensures o.signalDate == today || (o in b.pending && !TradesOn(data, o.symbol, today))
  {
    hide BarOn, Waiting, Enter, Filled, Surviving, Exits, EquityOn, OneEach, Consider;
    var m, after := Morning(r, data, today, b), DayStep(r, data, start, today, b).pending;
    var equity := EquityOn(r, data, today, m);
    MorningKeys(r, data, today, b);
    EntersKeepOneEach(r, data, today, equity, m.positions, m.pending, data.symbols);
    var i :| 0 <= i < |after| && after[i] == o;
    if i < |m.pending| {
      assert after[..|m.pending|][i] == m.pending[i];
      WaitingDidNotTrade(data, today, b.pending, o);
    }
  }

  /** Once its symbol has traded an order is never queued again. */
  lemma {:induction false} TradedOrderIsGone(r: Rules, data: Data, start: Option<Date>, dates: seq<Date>, k: nat, o: Order)
    requires ValidData(data) && IsTimeline(data, dates) && r.limits.maxOpenPositions >= 0
    requires k < |dates| && o.signalDate < dates[k] && TradesOn(data, o.symbol, dates[k])
    ensures forall j :: k < j <= |dates| ==> o !in RunDays(r, data, start, dates[..j]).pending
  {
    hide TradesOn;
    forall j | k < j <= |dates| ensures o !in RunDays(r, data, start, dates[..j]).pending {
      GoneBy(r, data, start, dates, k, o, j);
    }
  }

  lemma {:induction false} GoneBy(r: Rules, data: Data, start: Option<Date>, dates: seq<Date>, k: nat, o: Order, j: nat)
    requires ValidData(data) && IsTimeline(data, dates) && r.limits.maxOpenPositions >= 0
    requires k < j <= |dates| && o.signalDate < dates[k] && TradesOn(data, o.symbol, dates[k])
    ensures o !in RunDays(r, data, start, dates[..j]).pending
    decreases j
  {
    hide TradesOn, DayStep, BookOk, OneEach;
    var before, today := RunDays(r, data, start, dates[..j - 1]), dates[j - 1];
    assert dates[..j][..j - 1] == dates[..j - 1];
    BooksHoldOneEach(r, data, start, dates, j - 1);
    if o in RunDays(r, data, start, dates[..j]).pending {
      assert o.signalDate < today;
      QueuedAfterDay(r, data, start, today, before, o);
      if j - 1 > k {
        GoneBy(r, data, start, dates, k, o, j - 1);
      }
    }
  }

  lemma BooksHoldOneEach(r: Rules, data: Data, start: Option<Date>, dates: seq<Date>, k: nat)
    requires ValidData(data) && IsTimeline(data, dates) && k <= |dates| && r.limits.maxOpenPositions >= 0
    ensures var b := RunDays(r, data, start, dates[..k]); OneEach(b.positions, b.pending)
  {
    hide DayStep;
    if k == 0 {
      EmptyIsSound(r, data, start, 0);
    } else {
      RunKeeps(r, data, start, dates, k);
    }
  }

  lemma SignalledBefore(r: Rules, data: Data, start: Option<Date>, dates: seq<Date>, k: nat, o: Order)
    requires ValidData(data) && IsTimeline(data, dates) && 0 < k <= |dates| && r.limits.maxOpenPositions >= 0
    requires o in RunDays(r, data, start, dates[..k]).pending
    ensures o.signalDate <= dates[k - 1]
  {
    hide DayStep;
    RunKeeps(r, data, start, dates, k);
    var pending := RunDays(r, data, start, dates[..k]).pending;
    var i :| 0 <= i < |pending| && pending[i] == o;
    assert OrderOk(data, start, RunDays(r, data, start, dates[..k]).trades, dates[k - 1], pending[i]);
  }

  /** An order is still queued at the end of the run if and only if its symbol does not
      trade on any day after the one it was queued by. */
  lemma DeadOrderIff(r: Rules, data: Data, start: Option<Date>, dates: seq<Date>, k: nat, o: Order)
    requires ValidData(data) && IsTimeline(data, dates) && k <= |dates| && r.limits.maxOpenPositions >= 0
    requires o in RunDays(r, data, start, dates[..k]).pending
    ensures o in RunDays(r, data, start, dates).pending
       <==> forall i :: k <= i < |dates| ==> !TradesOn(data, o.symbol, dates[i])
  {
    hide TradesOn, DayStep;
    if forall i :: k <= i < |dates| ==> !TradesOn(data, o.symbol, dates[i]) {
      DeadOrderNeverLeaves(r, data, start, dates, k, o);
    } else {
      var i :| k <= i < |dates| && TradesOn(data, o.symbol, dates[i]);
      assert k > 0;
      SignalledBefore(r, data, start, dates, k, o);
      TradedOrderIsGone(r, data, start, dates, i, o);
      assert dates[..|dates|] == dates;
    }
  }

  // ----- a run it happens in -----

  /** GONE has one bar, LIVE three, and every bar asks for a share. */
  function Shown(s: Symbol): Frame {
    if s == "GONE" then [Bar(1, 10.0, 10.0, 10.0, 10.0, 1.0)]
    else if s == "LIVE" then
      [Bar(1, 10.0, 10.0, 10.0, 10.0, 1.0), Bar(2, 10.0, 10.0, 10.0, 10.0, 1.0), Bar(3, 10.0, 10.0, 10.0, 10.0, 1.0)]
    else []
  }

  const WISH: Intent := Intent(Long, 1.0, None, Some(9.0), None, None, None, None, None)

  /** One slot, no costs, no news, and a strategy that always wants in. */
  ghost predicate OneSlot(r: Rules) {
    && r.initialEquity == 1000.0
    && r.limits == Limits(BreakerLimits(4.0, 10, 50, 5, 20.0, 60.0), 1, Some(100.0), Some(100.0), 175.0, 1.0, 100.0)
    && !r.sentiment.enabled
    && (forall f :: r.route(f) == Some("eager")) && (forall n, s, f :: r.generate(n, s, f) == Some(WISH))
  }

  /** With room and a bar at 10, the strategy's wish is queued. */
  lemma WishIsQueued(r: Rules, data: Data, today: Date, symbol: Symbol)
    requires OneSlot(r) && BarOn(data.frames(symbol), today) == Some(Bar(today, 10.0, 10.0, 10.0, 10.0, 1.0))
    ensures var o := Consider(r, data, today, 1000.0, [], symbol);
      o.Some? && o.value.symbol == symbol && o.value.signalDate == today
  {
    hide MaxShares, Upto, BarOn, EntryLoop.Correlated;
    var hist := Upto(data.frames(symbol), today);
    LastBarIs(data, today, symbol);
    var a := StateOn(r, data, today, 1000.0, [], symbol, 10.0);
    assert EntryLoop.Correlated([], symbol, CorrelationOn(r, data, today, symbol), r.corrThreshold) == 0.0 by {
      NothingCorrelates(symbol, CorrelationOn(r, data, today, symbol), r.corrThreshold);
    }
    assert a == AccountState(1000.0, 1000.0, 2000.0, 10.0, 0, 0.0, 0.0, 0.0);
    assert Precheck(r.limits, WISH, a, true).None?;
    GateInDollars(r.limits, WISH, a, 10.0, 9.0, 1);
  }

  lemma NothingCorrelates(symbol: Symbol, corr: EntryLoop.Correlation, threshold: real)
    ensures EntryLoop.Correlated([], symbol, corr, threshold) == 0.0
  {
  }

  lemma LastBarIs(data: Data, today: Date, symbol: Symbol)
    requires BarOn(data.frames(symbol), today).Some?
    ensures var h := Upto(data.frames(symbol), today); h != [] && h[|h| - 1] == BarOn(data.frames(symbol), today).value
  {
  }

  /** A symbol signals on its only bar; its order holds the one slot for the rest of
      the run, and LIVE, which asks every day, never gets an order in. */
  lemma DeadOrderBlocksOthers(r: Rules, data: Data)
    requires OneSlot(r) && data == Data(["GONE", "LIVE"], data.frames) && forall s :: data.frames(s) == Shown(s)
    ensures var b := RunDays(r, data, None, [1, 2, 3]);
      && |b.pending| == 1 && b.pending[0].symbol == "GONE" && b.positions == [] && b.trades == []
    ensures ValidData(data) && IsTimeline(data, [1, 2, 3])
    ensures forall day :: 1 <= day <= 3 ==> Consider(r, data, day, 1000.0, [], "LIVE").Some?
  {
    hide Consider, Upto, EquityOn, DayStep, BarOn;
    ShownTimeline(data);
    forall day | 1 <= day <= 3 ensures Consider(r, data, day, 1000.0, [], "LIVE").Some? {
      ShownBars(day);
      WishIsQueued(r, data, day, "LIVE");
    }
    var first := RunDays(r, data, None, [1]);
    BlockedFirstDay(r, data);
    BlockedLater(r, data, 2, first);
    assert [1, 2][..1] == [1] && [1, 2, 3][..2] == [1, 2];
    BlockedLater(r, data, 3, RunDays(r, data, None, [1, 2]));
  }

  lemma ShownBars(day: Date)
    ensures BarOn(Shown("GONE"), day).Some? <==> day == 1
    ensures 1 <= day <= 3 ==> BarOn(Shown("LIVE"), day) == Some(Bar(day, 10.0, 10.0, 10.0, 10.0, 1.0))
    ensures BarOn(Shown("GONE"), 1) == Some(Bar(1, 10.0, 10.0, 10.0, 10.0, 1.0))
  {
    var f := Shown("LIVE");
    var one, two := [f[0]], [f[0], f[1]];
    assert f[..2] == two && two[..1] == one;
    assert Upto(f, 3) == f && Upto(f, 2) == Upto(two, 2) == two;
    assert Upto(f, 1) == Upto(two, 1) == Upto(one, 1) == one;
  }

  lemma ShownTimeline(data: Data)
    requires data == Data(["GONE", "LIVE"], data.frames) && forall s :: data.frames(s) == Shown(s)
    ensures ValidData(data) && IsTimeline(data, [1, 2, 3])
  {
    forall d ensures d in [1, 2, 3] <==> TradingDay(data, d) {
      ShownBars(d);
      if 1 <= d <= 3 {
        assert data.symbols[1] == "LIVE" && BarOn(data.frames("LIVE"), d).Some?;
      } else {
        NoBarOutside(data.frames("GONE"), d);
        NoBarOutside(data.frames("LIVE"), d);
      }
    }
  }

  lemma {:induction false} NoBarOutside(f: Frame, d: Date)
    requires forall i :: 0 <= i < |f| ==> f[i].date != d
    ensures BarOn(f, d).None?
    decreases |f|
  {
    if f != [] && f[|f| - 1].date > d {
      NoBarOutside(f[..|f| - 1], d);
    }
  }

  lemma BlockedFirstDay(r: Rules, data: Data)
    requires OneSlot(r) && data == Data(["GONE", "LIVE"], data.frames) && forall s :: data.frames(s) == Shown(s)
    ensures var b := RunDays(r, data, None, [1]);
      |b.pending| == 1 && b.pending[0].symbol == "GONE" && b.positions == [] && b.trades == []
  {
    hide Consider, BarOn, Upto;
    ShownBars(1);
    WishIsQueued(r, data, 1, "GONE");
    var b := DayStep(r, data, None, 1, EMPTY);
    assert [1][..0] == [];
    assert EquityOn(r, data, 1, Morning(r, data, 1, EMPTY)) == 1000.0;
    var o := Consider(r, data, 1, 1000.0, [], "GONE").value;
    assert data.symbols[1..] == ["LIVE"];
    assert Enter(r, data, 1, 1000.0, [], [o], ["LIVE"]) == [o];
    assert Enter(r, data, 1, 1000.0, [], [], data.symbols) == [o];
  }

  lemma BlockedLater(r: Rules, data: Data, today: Date, b: Book)
    requires OneSlot(r) && data == Data(["GONE", "LIVE"], data.frames) && forall s :: data.frames(s) == Shown(s)
    requires today in {2, 3} && |b.pending| == 1 && b.pending[0].symbol == "GONE" && b.positions == [] && b.trades == []
    ensures var a := DayStep(r, data, None, today, b);
      a.pending == b.pending && a.positions == [] && a.trades == []
  {
    hide Consider, BarOn, Upto, EquityOn;
    ShownBars(today);
    var o := b.pending[0];
    assert b.pending == [o] && b.pending[..0] == [];
    assert data.symbols[1..] == ["LIVE"];
    assert Waiting(data, today, [o]) == [o] && Filled(r, data, today, [o]) == [];
    var equity := EquityOn(r, data, today, Morning(r, data, today, b));
    assert Enter(r, data, today, equity, [], [o], ["LIVE"]) == [o];
    assert Queued([o], "GONE");
    assert Enter(r, data, today, equity, [], [o], data.symbols) == [o];
  }
}
