/** No look-ahead: what a backtest has decided by day t depends only on the bars
    dated up to t, and on which symbols stop trading by then. */
module NoLookAhead {
  import opened Common
  import opened Ratchets
  import opened RiskGate
  import opened Backtesting
  import EntryLoop

  // ----- two data sets, one past -----

  /** Equal bars up to `t`, and each symbol either ends at the same bar by `t` in
      both or runs on past `t` in both. */
  ghost predicate AgreeUpto(a: Data, b: Data, t: Date) {
    && a.symbols == b.symbols
    && forall s :: s in a.symbols ==>
         && Upto(a.frames(s), t) == Upto(b.frames(s), t)
         && (Upto(a.frames(s), t) == a.frames(s) <==> Upto(b.frames(s), t) == b.frames(s))
  }

  /** What one day may look at. */
  ghost predicate SameView(a: Data, b: Data, today: Date) {
    && a.symbols == b.symbols
    && forall s :: s in a.symbols ==>
         && Upto(a.frames(s), today) == Upto(b.frames(s), today)
         && (EndsOn(a.frames(s), today) <==> EndsOn(b.frames(s), today))
  }

  lemma {:induction false} UptoIsPrefix(f: Frame, today: Date)
    requires Chronological(f)
    ensures var h := Upto(f, today);
      && |h| <= |f| && h == f[..|h|]
      && (forall i :: 0 <= i < |h| ==> h[i].date <= today)
      && (forall i :: |h| <= i < |f| ==> f[i].date > today)
    decreases |f|
  {
    if f != [] && f[|f| - 1].date > today {
      UptoIsPrefix(f[..|f| - 1], today);
    }
  }

  lemma {:induction false} UptoTwice(f: Frame, early: Date, late: Date)
    requires Chronological(f) && early <= late
    ensures Upto(Upto(f, late), early) == Upto(f, early)
    decreases |f|
  {
    if f != [] && f[|f| - 1].date > late {
      UptoTwice(f[..|f| - 1], early, late);
    }
  }

  lemma AgreeingPastsLookAlike(a: Data, b: Data, t: Date, today: Date)
    requires ValidData(a) && ValidData(b) && AgreeUpto(a, b, t) && today <= t
    ensures SameView(a, b, today)
  {
    forall s | s in a.symbols
      ensures Upto(a.frames(s), today) == Upto(b.frames(s), today)
      ensures EndsOn(a.frames(s), today) <==> EndsOn(b.frames(s), today)
    {
      UptoTwice(a.frames(s), today, t);
      UptoTwice(b.frames(s), today, t);
      assert Upto(a.frames(s), t) == Upto(b.frames(s), t);
      assert EndsOn(a.frames(s), today) ==> Upto(a.frames(s), t) == a.frames(s);
      assert EndsOn(b.frames(s), today) ==> Upto(b.frames(s), t) == b.frames(s);
    }
  }

  // ----- each part of a day sees only the view -----

  /** Everything held or queued is a symbol the backtest scans. */
  ghost predicate Scanned(symbols: seq<Symbol>, ps: seq<Held>, orders: seq<Order>) {
    && (forall i :: 0 <= i < |ps| ==> ps[i].symbol in symbols)
    && forall i :: 0 <= i < |orders| ==> orders[i].symbol in symbols
  }

  lemma BarSame(a: Data, b: Data, today: Date, s: Symbol)
    requires SameView(a, b, today) && s in a.symbols
    ensures Upto(a.frames(s), today) == Upto(b.frames(s), today)
    ensures BarOn(a.frames(s), today) == BarOn(b.frames(s), today)
  {
  }

  lemma {:induction false} FillsSame(r: Rules, a: Data, b: Data, today: Date, orders: seq<Order>)
    requires SameView(a, b, today) && Scanned(a.symbols, [], orders)
    ensures Scanned(a.symbols, Filled(r, a, today, orders), Waiting(a, today, orders))
    ensures Filled(r, a, today, orders) == Filled(r, b, today, orders)
    ensures Waiting(a, today, orders) == Waiting(b, today, orders)
  {
    if orders != [] {
      FillsSame(r, a, b, today, orders[..|orders| - 1]);
      assert Upto(a.frames(orders[|orders| - 1].symbol), today) == Upto(b.frames(orders[|orders| - 1].symbol), today);
    }
  }

  lemma {:induction false} ManagedSame(r: Rules, a: Data, b: Data, today: Date, ps: seq<Held>)
    requires SameView(a, b, today) && Scanned(a.symbols, ps, [])
    ensures Scanned(a.symbols, Surviving(r, a, today, ps), [])
    ensures Surviving(r, a, today, ps) == Surviving(r, b, today, ps)
    ensures Exits(r, a, today, ps) == Exits(r, b, today, ps)
  {
    if ps != [] {
      ManagedSame(r, a, b, today, ps[..|ps| - 1]);
      assert Upto(a.frames(ps[|ps| - 1].symbol), today) == Upto(b.frames(ps[|ps| - 1].symbol), today);
    }
  }

  lemma {:induction false} ValuesSame(a: Data, b: Data, today: Date, ps: seq<Held>)
    requires SameView(a, b, today) && Scanned(a.symbols, ps, [])
    ensures Unrealized(a, today, ps) == Unrealized(b, today, ps)
    ensures MarketValue(a, today, ps) == MarketValue(b, today, ps)
  {
    if ps != [] {
      ValuesSame(a, b, today, ps[..|ps| - 1]);
      assert Upto(a.frames(ps[|ps| - 1].symbol), today) == Upto(b.frames(ps[|ps| - 1].symbol), today);
    }
  }

  lemma {:induction false} CorrelatedSame(open: seq<EntryLoop.Holding>, symbol: Symbol, c: EntryLoop.Correlation,
                                          d: EntryLoop.Correlation, threshold: real)
    requires forall i :: 0 <= i < |open| ==> c(open[i].symbol) == d(open[i].symbol)
    ensures EntryLoop.Correlated(open, symbol, c, threshold) == EntryLoop.Correlated(open, symbol, d, threshold)
  {
    if open != [] {
      CorrelatedSame(open[..|open| - 1], symbol, c, d, threshold);
    }
  }

  lemma ConsiderSame(r: Rules, a: Data, b: Data, today: Date, equity: real, ps: seq<Held>, symbol: Symbol)
    requires SameView(a, b, today) && Scanned(a.symbols, ps, []) && symbol in a.symbols
    ensures Consider(r, a, today, equity, ps, symbol) == Consider(r, b, today, equity, ps, symbol)
  {
    hide ApprovedShares;
    ValuesSame(a, b, today, ps);
    assert Upto(a.frames(symbol), today) == Upto(b.frames(symbol), today);
    var c, d := CorrelationOn(r, a, today, symbol), CorrelationOn(r, b, today, symbol);
    forall i | 0 <= i < |ps| ensures c(ps[i].symbol) == d(ps[i].symbol) {
      assert Upto(a.frames(ps[i].symbol), today) == Upto(b.frames(ps[i].symbol), today);
    }
    CorrelatedSame(Holdings(ps), symbol, c, d, r.corrThreshold);
  }

  lemma {:induction false} EnterSame(r: Rules, a: Data, b: Data, today: Date, equity: real, ps: seq<Held>,
                                     pending: seq<Order>, todo: seq<Symbol>)
    requires SameView(a, b, today) && Scanned(a.symbols, ps, pending) && forall i :: 0 <= i < |todo| ==> todo[i] in a.symbols
    ensures Enter(r, a, today, equity, ps, pending, todo) == Enter(r, b, today, equity, ps, pending, todo)
    ensures Scanned(a.symbols, ps, Enter(r, a, today, equity, ps, pending, todo))
    decreases |todo|
  {
    if todo != [] {
      hide Consider, Upto, SameView, Holds, Queued, Scanned;
      ConsiderKeepsSymbol(r, a, today, equity, ps, todo[0]);
      BarSame(a, b, today, todo[0]);
      ScannedParts(a.symbols, ps, [], pending);
      ConsiderSame(r, a, b, today, equity, ps, todo[0]);
      EnterSame(r, a, b, today, equity, ps, pending, todo[1..]);
      var order := Consider(r, a, today, equity, ps, todo[0]);
      if order.Some? {
        ScannedOneMore(a.symbols, ps, pending, order.value);
        EnterSame(r, a, b, today, equity, ps, pending + [order.value], todo[1..]);
      }
    }
  }

  lemma ScannedOneMore(symbols: seq<Symbol>, ps: seq<Held>, orders: seq<Order>, o: Order)
    requires Scanned(symbols, ps, orders) && o.symbol in symbols
    ensures Scanned(symbols, ps, orders + [o])
  {
  }

  lemma ConsiderKeepsSymbol(r: Rules, data: Data, today: Date, equity: real, ps: seq<Held>, symbol: Symbol)
    ensures Consider(r, data, today, equity, ps, symbol).Some? ==> Consider(r, data, today, equity, ps, symbol).value.symbol == symbol
  {
    hide ApprovedShares, Upto;
  }

  lemma ScannedParts(symbols: seq<Symbol>, ps: seq<Held>, more: seq<Held>, orders: seq<Order>)
    requires Scanned(symbols, ps, orders)
    ensures Scanned(symbols, ps, []) && Scanned(symbols, [], orders)
    ensures Scanned(symbols, more, []) ==> Scanned(symbols, ps + more, [])
  {
  }

  lemma MorningSame(r: Rules, a: Data, b: Data, today: Date, book: Book)
    requires SameView(a, b, today) && Scanned(a.symbols, book.positions, book.pending)
    ensures var m := Morning(r, a, today, book); m == Morning(r, b, today, book) && Scanned(a.symbols, m.positions, m.pending)
  {
    hide Filled, Waiting, Surviving, Exits, SumPnl, SameView;
    ScannedParts(a.symbols, book.positions, [], book.pending);
    FillsSame(r, a, b, today, book.pending);
    var filled := Filled(r, a, today, book.pending);
    ScannedParts(a.symbols, filled, [], Waiting(a, today, book.pending));
    ScannedParts(a.symbols, book.positions, filled, book.pending);
    ManagedSame(r, a, b, today, book.positions + filled);
  }

  lemma DaySame(r: Rules, a: Data, b: Data, entriesStart: Option<Date>, today: Date, book: Book)
    requires SameView(a, b, today) && Scanned(a.symbols, book.positions, book.pending)
    ensures DayStep(r, a, entriesStart, today, book) == DayStep(r, b, entriesStart, today, book)
    ensures var after := DayStep(r, a, entriesStart, today, book); Scanned(a.symbols, after.positions, after.pending)
  {
    hide Morning, Enter, Unrealized, Scanned;
    MorningSame(r, a, b, today, book);
    var m := Morning(r, a, today, book);
    ScannedParts(a.symbols, m.positions, [], m.pending);
    ValuesSame(a, b, today, m.positions);
    EnterSame(r, a, b, today, EquityOn(r, a, today, m), m.positions, m.pending, a.symbols);
  }

  lemma {:induction false} DaysSame(r: Rules, a: Data, b: Data, entriesStart: Option<Date>, dates: seq<Date>, t: Date)
    requires ValidData(a) && ValidData(b) && AgreeUpto(a, b, t)
    requires forall i :: 0 <= i < |dates| ==> dates[i] <= t
    ensures RunDays(r, a, entriesStart, dates) == RunDays(r, b, entriesStart, dates)
    ensures var after := RunDays(r, a, entriesStart, dates); Scanned(a.symbols, after.positions, after.pending)
  {
    if dates != [] {
      hide DayStep;
      var n := |dates| - 1;
      DaysSame(r, a, b, entriesStart, dates[..n], t);
      AgreeingPastsLookAlike(a, b, t, dates[n]);
      DaySame(r, a, b, entriesStart, dates[n], RunDays(r, a, entriesStart, dates[..n]));
    }
  }

  // ----- the days themselves -----

  function DatesUpto(dates: seq<Date>, t: Date): (r: seq<Date>)
    decreases |dates|
  {
    if dates == [] || dates[|dates| - 1] <= t then dates else DatesUpto(dates[..|dates| - 1], t)
  }

  lemma {:induction false} DatesUptoAre(dates: seq<Date>, t: Date)
    requires Increasing(dates)
    ensures Increasing(DatesUpto(dates, t))
    ensures forall d :: d in DatesUpto(dates, t) <==> d in dates && d <= t
    decreases |dates|
  {
    if dates != [] && dates[|dates| - 1] > t {
      DatesUptoAre(dates[..|dates| - 1], t);
      assert dates == dates[..|dates| - 1] + [dates[|dates| - 1]];
    }
  }

  lemma {:induction false} IncreasingUnique(a: seq<Date>, b: seq<Date>)
    requires Increasing(a) && Increasing(b) && forall d :: d in a <==> d in b
    ensures a == b
    decreases |a|
  {
    BothEmpty(a, b);
    if a != [] {
      var c, d := a[..|a| - 1], b[..|b| - 1];
      LastIsLargest(a);
      LastIsLargest(b);
      assert a[|a| - 1] == b[|b| - 1];
      forall z ensures z in c <==> z in d {
        assert z in a <==> z in b;
      }
      IncreasingUnique(c, d);
      assert a == c + [a[|a| - 1]] && b == d + [b[|b| - 1]];
    }
  }

  lemma BothEmpty(a: seq<Date>, b: seq<Date>)
    requires forall d :: d in a <==> d in b
    ensures a == [] <==> b == []
  {
    if |a| > 0 {
      var d := a[0];
      assert d in a && d in b;
    }
    if |b| > 0 {
      var d := b[0];
      assert d in b && d in a;
    }
  }

  /** The last date is in the sequence, and the rest is what lies before it. */
  lemma LastIsLargest(a: seq<Date>)
    requires Increasing(a) && a != []
    ensures a[|a| - 1] in a && forall d :: d in a ==> d <= a[|a| - 1]
    ensures forall d :: d in a[..|a| - 1] <==> d in a && d != a[|a| - 1]
  {
    assert a == a[..|a| - 1] + [a[|a| - 1]];
  }

  lemma TradingDaySame(a: Data, b: Data, today: Date)
    requires SameView(a, b, today) && TradingDay(a, today)
    ensures TradingDay(b, today)
  {
    var s :| s in a.symbols && BarOn(a.frames(s), today).Some?;
    assert Upto(a.frames(s), today) == Upto(b.frames(s), today);
    assert s in b.symbols && BarOn(b.frames(s), today).Some?;
  }

  lemma SamePastDates(a: Data, b: Data, datesA: seq<Date>, datesB: seq<Date>, t: Date)
    requires ValidData(a) && ValidData(b) && AgreeUpto(a, b, t) && IsTimeline(a, datesA) && IsTimeline(b, datesB)
    ensures DatesUpto(datesA, t) == DatesUpto(datesB, t)
  {
    hide TradingDay, AgreeUpto, SameView, Upto, DatesUpto;
    DatesUptoAre(datesA, t);
    DatesUptoAre(datesB, t);
    forall d ensures d in DatesUpto(datesA, t) <==> d in DatesUpto(datesB, t) {
      if d <= t {
        AgreeingPastsLookAlike(a, b, t, d);
        SameViewSymmetric(a, b, d);
        if TradingDay(a, d) { TradingDaySame(a, b, d); }
        if TradingDay(b, d) { TradingDaySame(b, a, d); }
      }
    }
    IncreasingUnique(DatesUpto(datesA, t), DatesUpto(datesB, t));
  }

  lemma SameViewSymmetric(a: Data, b: Data, today: Date)
    requires SameView(a, b, today)
    ensures SameView(b, a, today)
  {
  }

  // ----- what a finished run says about its past -----

  function CurveUpto(curve: seq<(Date, real)>, t: Date): seq<(Date, real)> {
    if curve == [] then []
    else CurveUpto(curve[..|curve| - 1], t) + if curve[|curve| - 1].0 <= t then [curve[|curve| - 1]] else []
  }

  function ClosedBy(trades: seq<Trade>, t: Date): seq<Trade> {
    if trades == [] then []
    else ClosedBy(trades[..|trades| - 1], t) + if trades[|trades| - 1].exitDate <= t then [trades[|trades| - 1]] else []
  }

  lemma {:induction false} ExitsToday(r: Rules, data: Data, today: Date, ps: seq<Held>)
    ensures forall i :: 0 <= i < |Exits(r, data, today, ps)| ==> Exits(r, data, today, ps)[i].exitDate == today
  {
    if ps != [] {
      ExitsToday(r, data, today, ps[..|ps| - 1]);
    }
  }

  lemma {:induction false} ClosedByConcat(early: seq<Trade>, late: seq<Trade>, t: Date, today: Date)
    requires forall i :: 0 <= i < |late| ==> late[i].exitDate == today
    ensures ClosedBy(early + late, t) == ClosedBy(early, t) + if today <= t then late else []
    decreases |late|
  {
    if late == [] {
      assert early + late == early;
    } else {
      hide ClosedBy;
      var n := |late| - 1;
      var front, last, done := late[..n], late[n], ClosedBy(early, t);
      ClosedByConcat(early, front, t, today);
      ClosedBySnoc(early + front, last, t);
      assert late == front + [last];
      assert early + late == (early + front) + [last];
      assert (done + front) + [last] == done + late;
    }
  }

  lemma ClosedBySnoc(trades: seq<Trade>, last: Trade, t: Date)
    ensures ClosedBy(trades + [last], t) == ClosedBy(trades, t) + if last.exitDate <= t then [last] else []
  {
    assert (trades + [last])[..|trades|] == trades;
  }

  lemma CurveUptoSnoc(curve: seq<(Date, real)>, point: (Date, real), t: Date)
    ensures CurveUpto(curve + [point], t) == CurveUpto(curve, t) + if point.0 <= t then [point] else []
  {
    assert (curve + [point])[..|curve|] == curve;
  }

  lemma DayRecord(r: Rules, data: Data, entriesStart: Option<Date>, today: Date, b: Book)
    ensures var after, m := DayStep(r, data, entriesStart, today, b), Morning(r, data, today, b);
      && after.trades == b.trades + Exits(r, data, today, b.positions + Filled(r, data, today, b.pending))
      && after.curve == b.curve + [(today, EquityOn(r, data, today, m))]
  {
    hide Filled, Waiting, Surviving, Exits, Enter, Unrealized;
  }

  /** The part of a book's record that lies up to `t`. */
  function RecordBy(b: Book, t: Date): (seq<(Date, real)>, seq<Trade>) {
    (CurveUpto(b.curve, t), ClosedBy(b.trades, t))
  }

  /** A day after `t` adds nothing to the record up to `t`; a day up to `t` adds
      everything it records. */
  lemma DayExtendsRecord(r: Rules, data: Data, entriesStart: Option<Date>, today: Date, b: Book, t: Date)
    ensures var after := DayStep(r, data, entriesStart, today, b);
      && (today > t ==> RecordBy(after, t) == RecordBy(b, t))
      && (today <= t && RecordBy(b, t) == (b.curve, b.trades) ==> RecordBy(after, t) == (after.curve, after.trades))
  {
    hide DayStep, Exits, Filled, Morning, CurveUpto, ClosedBy, EquityOn, BarOn;
    var ps := b.positions + Filled(r, data, today, b.pending);
    ExitsToday(r, data, today, ps);
    ClosedByConcat(b.trades, Exits(r, data, today, ps), t, today);
    CurveUptoSnoc(b.curve, (today, EquityOn(r, data, today, Morning(r, data, today, b))), t);
    DayRecord(r, data, entriesStart, today, b);
    var curve, closed := CurveUpto(b.curve, t), ClosedBy(b.trades, t);
    assert curve + [] == curve && closed + [] == closed;
  }

  /** Cutting a finished run's record at `t` gives the run stopped at `t`. */
  lemma {:induction false} RecordUpto(r: Rules, data: Data, entriesStart: Option<Date>, dates: seq<Date>, t: Date)
    requires Increasing(dates)
    ensures var stopped := RunDays(r, data, entriesStart, DatesUpto(dates, t));
      RecordBy(RunDays(r, data, entriesStart, dates), t) == (stopped.curve, stopped.trades)
    decreases |dates|
  {
    if dates != [] {
      hide DayStep, RecordBy;
      var n, today := |dates| - 1, dates[|dates| - 1];
      RecordUpto(r, data, entriesStart, dates[..n], t);
      DayExtendsRecord(r, data, entriesStart, today, RunDays(r, data, entriesStart, dates[..n]), t);
      assert today <= t ==> DatesUpto(dates[..n], t) == dates[..n];
    }
  }

  // ----- main results -----

  /** Two data sets that agree up to `t` give the same equity points and the same
      closed trades up to `t`, whatever comes after, for every strategy, route
      and correlation that are functions of the history. */
  lemma PastIgnoresFuture(r: Rules, a: Data, b: Data, datesA: seq<Date>, datesB: seq<Date>, entriesStart: Option<Date>, t: Date)
    requires ValidData(a) && ValidData(b) && AgreeUpto(a, b, t) && IsTimeline(a, datesA) && IsTimeline(b, datesB)
    ensures CurveUpto(RunDays(r, a, entriesStart, datesA).curve, t) == CurveUpto(RunDays(r, b, entriesStart, datesB).curve, t)
    ensures ClosedBy(RunDays(r, a, entriesStart, datesA).trades, t) == ClosedBy(RunDays(r, b, entriesStart, datesB).trades, t)
  {
    hide RunDays;
    SamePastDates(a, b, datesA, datesB, t);
    DatesUptoAre(datesA, t);
    RecordUpto(r, a, entriesStart, datesA, t);
    RecordUpto(r, b, entriesStart, datesB, t);
    var past := DatesUpto(datesA, t);
    forall i | 0 <= i < |past| ensures past[i] <= t {
      assert past[i] in past;
    }
    DaysSame(r, a, b, entriesStart, past, t);
  }

  /** Why the condition on where symbols end is there: on a day where one data
      set ends a symbol and the other does not, an open position is treated the
      same if and only if its stop, target or exit signal fires that day. */
  lemma EndingTodayShows(r: Rules, a: Data, b: Data, today: Date, p: Held)
    requires Upto(a.frames(p.symbol), today) == Upto(b.frames(p.symbol), today)
    requires EndsOn(a.frames(p.symbol), today) && !EndsOn(b.frames(p.symbol), today)
    requires Chronological(a.frames(p.symbol))
    ensures ManageOn(r, a, today, p) == ManageOn(r, b, today, p)
       <==> ManageOn(r, b, today, p).Exited?
  {
    UptoIsPrefix(a.frames(p.symbol), today);
  }
}
