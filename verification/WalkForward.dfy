/** Walk-forward evaluation: one independent backtest per chronological fold,
    with the full history before the fold for warm-up and nothing after it. */
module WalkForward {
  import opened Common
  import opened RiskGate
  import opened Backtesting
  import opened NoLookAhead
  import opened BacktestLaws

  // ----- the split -----

  /** Where the i-th of `n` nearly equal parts of `len` items begins. */
  function Cut(len: nat, n: nat, i: nat): nat
    requires n > 0
  {
    i * (len / n) + MinInt(i, len % n)
  }

  lemma CutsCover(len: nat, n: nat, i: nat)
    requires n > 0 && i < n
    ensures Cut(len, n, 0) == 0 && Cut(len, n, n) == len
    ensures Cut(len, n, i + 1) == Cut(len, n, i) + len / n + if i < len % n then 1 else 0
    ensures Cut(len, n, i + 1) <= len
  {
    assert (i + 1) * (len / n) == i * (len / n) + len / n;
    assert n * (len / n) + len % n == len;
    CutMono(len, n, i + 1, n);
  }

  lemma CutMono(len: nat, n: nat, i: nat, j: nat)
    requires n > 0 && i <= j
    ensures Cut(len, n, i) <= Cut(len, n, j)
    ensures i < j && len >= n ==> Cut(len, n, i) < Cut(len, n, j)
  {
    var k := len / n;
    assert j * k == i * k + (j - i) * k;
    if len >= n {
      assert k >= 1;
      assert (j - i) * k >= j - i;
    }
  }

  function Chunk(items: seq<Date>, n: nat, i: nat): (c: seq<Date>)
    requires i < n
    ensures |c| == |items| / n + if i < |items| % n then 1 else 0
    ensures Cut(|items|, n, i) <= Cut(|items|, n, i + 1) <= |items|
    ensures |items| >= n ==> c != [] && c[0] == items[Cut(|items|, n, i)]
    ensures |items| >= n ==> c[|c| - 1] == items[Cut(|items|, n, i + 1) - 1]
  {
    CutsCover(|items|, n, i);
    CutMono(|items|, n, i, i + 1);
    items[Cut(|items|, n, i)..Cut(|items|, n, i + 1)]
  }

  /** Contiguous chunks covering the list in order, sizes differing by at most
      one, the larger ones first. */
  method SplitEvenly(items: seq<Date>, n: nat) returns (chunks: seq<seq<Date>>)
    requires n > 0
    ensures |chunks| == n && forall i :: 0 <= i < n ==> chunks[i] == Chunk(items, n, i)
  {
    hide Cut;
    var k, m := |items| / n, |items| % n;
    chunks := [];
    var start := 0;
    CutsCover(|items|, n, 0);
    for i := 0 to n
      invariant |chunks| == i && start == Cut(|items|, n, i) <= |items|
      invariant forall j :: 0 <= j < i ==> chunks[j] == Chunk(items, n, j)
    {
      CutsCover(|items|, n, i);
      var size := k + if i < m then 1 else 0;
      chunks := chunks + [items[start..start + size]];
      start := start + size;
    }
  }

  // ----- one fold -----

  function Traded(symbols: seq<Symbol>, frames: Symbol -> Frame, end: Date): (r: seq<Symbol>)
    ensures forall s :: s in r <==> s in symbols && Upto(frames(s), end) != []
  {
    if symbols == [] then []
    else
      assert symbols == symbols[..|symbols| - 1] + [symbols[|symbols| - 1]];
      Traded(symbols[..|symbols| - 1], frames, end)
        + if Upto(frames(symbols[|symbols| - 1]), end) == [] then [] else [symbols[|symbols| - 1]]
  }

  /** The data a fold sees: everything up to its end, and symbols seen by then. */
  function Truncated(data: Data, end: Date): Data {
    Data(Traded(data.symbols, data.frames, end), s => Upto(data.frames(s), end))
  }

  datatype Fold = Fold(start: Date, end: Date, trades: seq<Trade>)

  function RunFold(r: Rules, data: Data, dates: seq<Date>, start: Date, end: Date): Fold {
    Fold(start, end, RunDays(r, Truncated(data, end), Some(start), DatesUpto(dates, end)).trades)
  }

  function FoldOf(r: Rules, data: Data, dates: seq<Date>, n: nat, i: nat): Fold
    requires i < n <= |dates|
  {
    var c := Chunk(dates, n, i);
    RunFold(r, data, dates, c[0], c[|c| - 1])
  }

  /** Fewer than two folds is an error; too little history gives no folds. */
  method Evaluate(r: Rules, data: Data, n: nat) returns (folds: Option<seq<Fold>>, dates: seq<Date>)
    requires ValidData(data)
    ensures IsTimeline(data, dates)
    ensures folds.None? <==> n < 2
    ensures n >= 2 && |dates| < n * 2 ==> folds == Some([])
    ensures n >= 2 && |dates| >= n * 2 ==> folds.Some? && |folds.value| == n
    ensures n >= 2 && |dates| >= n * 2 ==> forall i :: 0 <= i < n ==> folds.value[i] == FoldOf(r, data, dates, n, i)
  {
    hide Chunk, RunDays, Truncated, DatesUpto, IsTimeline, ValidData;
    dates := AllDates(data);
    if n < 2 {
      return None, dates;
    }
    if |dates| < n * 2 {
      return Some([]), dates;
    }
    var chunks := SplitEvenly(dates, n);
    var results := [];
    for i := 0 to n
      invariant |results| == i
      invariant forall j :: 0 <= j < i ==> results[j] == FoldOf(r, data, dates, n, j)
    {
      var start, end := chunks[i][0], chunks[i][|chunks[i]| - 1];
      var tester := new Backtester(r);
      TruncatedIsValid(data, end);
      var book, days := tester.Run(Truncated(data, end), Some(start));
      TruncatedTimeline(data, dates, end);
      OneTimeline(Truncated(data, end), days, DatesUpto(dates, end));
      results := results + [Fold(start, end, book.trades)];
    }
    folds := Some(results);
  }

  // ----- isolation -----

  lemma TruncatedIsValid(data: Data, end: Date)
    requires ValidData(data)
    ensures ValidData(Truncated(data, end))
  {
    forall s ensures Chronological(Truncated(data, end).frames(s)) {
      UptoIsPrefix(data.frames(s), end);
    }
  }

  lemma TruncatedBars(data: Data, end: Date, s: Symbol, d: Date)
    requires ValidData(data)
    ensures BarOn(Truncated(data, end).frames(s), d) == if d <= end then BarOn(data.frames(s), d) else None
  {
    if d <= end {
      UptoTwice(data.frames(s), d, end);
    } else {
      UptoIsPrefix(data.frames(s), end);
    }
  }

  lemma BarMeansSeen(f: Frame, d: Date, end: Date)
    requires Chronological(f) && d <= end && BarOn(f, d).Some?
    ensures Upto(f, end) != []
  {
    UptoTwice(f, d, end);
  }

  /** What the truncated run iterates over: the timeline, cut at the fold's end. */
  lemma TruncatedTimeline(data: Data, dates: seq<Date>, end: Date)
    requires ValidData(data) && IsTimeline(data, dates)
    ensures IsTimeline(Truncated(data, end), DatesUpto(dates, end))
  {
    hide BarOn, Upto, Truncated;
    DatesUptoAre(dates, end);
    forall d ensures d in DatesUpto(dates, end) <==> TradingDay(Truncated(data, end), d) {
      TruncatedTradingDay(data, end, d);
    }
  }

  lemma TruncatedTradingDay(data: Data, end: Date, d: Date)
    requires ValidData(data)
    ensures TradingDay(Truncated(data, end), d) <==> TradingDay(data, d) && d <= end
  {
    if s :| s in Truncated(data, end).symbols && BarOn(Truncated(data, end).frames(s), d).Some? {
      TruncatedBars(data, end, s, d);
      assert s in data.symbols && BarOn(data.frames(s), d).Some?;
    }
    if s :| s in data.symbols && BarOn(data.frames(s), d).Some? && d <= end {
      TruncatedBars(data, end, s, d);
      BarMeansSeen(data.frames(s), d, end);
      assert s in Truncated(data, end).symbols && BarOn(Truncated(data, end).frames(s), d).Some?;
    }
  }

  /** Data have one timeline. */
  lemma OneTimeline(data: Data, a: seq<Date>, b: seq<Date>)
    requires IsTimeline(data, a) && IsTimeline(data, b)
    ensures a == b
  {
    hide TradingDay;
    IncreasingUnique(a, b);
  }

  /** Every trade of a fold is entered after the fold's start and out by its end. */
  lemma TradesStayInFold(r: Rules, data: Data, dates: seq<Date>, start: Date, end: Date)
    requires ValidData(data) && IsTimeline(data, dates) && r.limits.maxOpenPositions >= 0
    ensures var trades := RunFold(r, data, dates, start, end).trades;
      forall i :: 0 <= i < |trades| ==> start < trades[i].entryDate <= trades[i].exitDate <= end
  {
    hide DayStep, Truncated;
    var past := DatesUpto(dates, end);
    TruncatedIsValid(data, end);
    TruncatedTimeline(data, dates, end);
    if past != [] {
      TradesFollowSignals(r, Truncated(data, end), Some(start), past);
      DatesUptoAre(dates, end);
      var last := past[|past| - 1];
      assert last in past;
      var trades := RunFold(r, data, dates, start, end).trades;
      forall i | 0 <= i < |trades| ensures start < trades[i].entryDate <= trades[i].exitDate <= end {
        assert TradeOk(Some(start), last, trades[i]);
      }
    }
  }

  /** The folds partition the timeline into non-empty, consecutive stretches of
      nearly equal size. */
  lemma FoldsPartition(len: nat, n: nat, i: nat, j: nat)
    requires n >= 2 && len >= n * 2 && i < j < n
    ensures 0 <= Cut(len, n, i) < Cut(len, n, i + 1) <= Cut(len, n, j) < Cut(len, n, j + 1) <= len
    ensures Cut(len, n, 0) == 0 && Cut(len, n, n) == len
    ensures -1 <= (Cut(len, n, i + 1) - Cut(len, n, i)) - (Cut(len, n, j + 1) - Cut(len, n, j)) <= 1
  {
    CutsCover(len, n, i);
    CutsCover(len, n, j);
    CutMono(len, n, i, i + 1);
    CutMono(len, n, i + 1, j);
    CutMono(len, n, j, j + 1);
  }

  /** Trades of different folds never overlap in time. */
  lemma FoldsNeverOverlap(r: Rules, data: Data, dates: seq<Date>, n: nat, i: nat, j: nat, t: Trade, u: Trade)
    requires ValidData(data) && IsTimeline(data, dates) && r.limits.maxOpenPositions >= 0
    requires n >= 2 && |dates| >= n * 2 && i < j < n
    requires t in FoldOf(r, data, dates, n, i).trades && u in FoldOf(r, data, dates, n, j).trades
    ensures t.entryDate <= t.exitDate < u.entryDate <= u.exitDate
  {
    hide RunFold, Cut, Chunk;
    FoldsPartition(|dates|, n, i, j);
    var c, d := Chunk(dates, n, i), Chunk(dates, n, j);
    TradesStayInFold(r, data, dates, c[0], c[|c| - 1]);
    TradesStayInFold(r, data, dates, d[0], d[|d| - 1]);
    assert c[|c| - 1] < d[0];
  }

  /** Nothing after a fold's end can change its trades. */
  lemma FoldIgnoresLaterData(r: Rules, a: Data, b: Data, datesA: seq<Date>, datesB: seq<Date>, start: Date, end: Date)
    requires ValidData(a) && ValidData(b) && IsTimeline(a, datesA) && IsTimeline(b, datesB)
    requires a.symbols == b.symbols && forall s :: s in a.symbols ==> Upto(a.frames(s), end) == Upto(b.frames(s), end)
    ensures RunFold(r, a, datesA, start, end) == RunFold(r, b, datesB, start, end)
  {
    hide RunDays;
    var ta, tb := Truncated(a, end), Truncated(b, end);
    TruncatedIsValid(a, end);
    TruncatedIsValid(b, end);
    TradedSame(a.symbols, a, b, end);
    forall s | s in ta.symbols
      ensures Upto(ta.frames(s), end) == ta.frames(s) == tb.frames(s) == Upto(tb.frames(s), end)
    {
      UptoTwice(a.frames(s), end, end);
      UptoTwice(b.frames(s), end, end);
    }
    assert AgreeUpto(ta, tb, end);
    TruncatedTimeline(a, datesA, end);
    TruncatedTimeline(b, datesB, end);
    SamePastDates(ta, tb, DatesUpto(datesA, end), DatesUpto(datesB, end), end);
    DatesUptoAre(datesA, end);
    DatesUptoAre(datesB, end);
    DatesUptoWhole(DatesUpto(datesA, end), end);
    DatesUptoWhole(DatesUpto(datesB, end), end);
    var past := DatesUpto(datesA, end);
    forall i | 0 <= i < |past| ensures past[i] <= end {
      var d := past[i];
      assert d in past;
    }
    DaysSame(r, ta, tb, Some(start), past, end);
  }

  lemma DatesUptoWhole(dates: seq<Date>, end: Date)
    requires forall d :: d in dates ==> d <= end
    ensures DatesUpto(dates, end) == dates
  {
    if dates != [] {
      var d := dates[|dates| - 1];
      assert d in dates;
    }
  }

  lemma {:induction false} TradedSame(symbols: seq<Symbol>, a: Data, b: Data, end: Date)
    requires forall s :: s in symbols ==> Upto(a.frames(s), end) == Upto(b.frames(s), end)
    ensures Traded(symbols, a.frames, end) == Traded(symbols, b.frames, end)
  {
    if symbols != [] {
      TradedSame(symbols[..|symbols| - 1], a, b, end);
    }
  }
}
