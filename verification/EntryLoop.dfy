/** The entries of one cycle: each candidate is gated against the exposure that
    already includes the entries before it, so the portfolio limits hold for the
    loop as a whole and not just for each entry alone. */
module EntryLoop {
  import opened Common
  import opened CircuitBreakers
  import opened RiskGate

  /** An open position as exposure sees it: ordered and filled quantity, and its
      ladder's entry and stop. */
  datatype Holding = Holding(symbol: string, qty: real, filledQty: real, entry: real, stop: real)

  /** The filled quantity, or the ordered one while nothing has filled. */
  function SharesOf(h: Holding): real { if h.filledQty != 0.0 then h.filledQty else h.qty }

  function CostOf(h: Holding): real { SharesOf(h) * h.entry }

  function RiskOf(h: Holding): real { SharesOf(h) * Abs(h.entry - h.stop) }

  // ----- exposure -----

  datatype Exposure = Exposure(gross: real, count: nat, openRisk: real)

  function Gross(open: seq<Holding>): real {
    if open == [] then 0.0
    else Gross(open[..|open| - 1]) + CostOf(open[|open| - 1])
  }

  function OpenRisk(open: seq<Holding>): real {
    if open == [] then 0.0 else OpenRisk(open[..|open| - 1]) + RiskOf(open[|open| - 1])
  }

  method ComputeExposure(open: seq<Holding>) returns (e: Exposure)
    ensures e == Exposure(Gross(open), |open|, OpenRisk(open))
  {
    var gross, risk, count := 0.0, 0.0, 0;
    for i := 0 to |open|
      invariant gross == Gross(open[..i]) && risk == OpenRisk(open[..i]) && count == i
    {
      assert open[..i + 1][..i] == open[..i];
      gross := gross + CostOf(open[i]);
      risk := risk + RiskOf(open[i]);
      count := count + 1;
    }
    assert open[..|open|] == open;
    e := Exposure(gross, count, risk);
  }

  /** Correlation of the candidate with another symbol; None when either side has
      too little history for one. */
  type Correlation = string -> Option<real>

  predicate Counts(h: Holding, symbol: string, corr: Correlation, threshold: real) {
    h.symbol != symbol && corr(h.symbol).Some? && corr(h.symbol).value >= threshold
  }

  function Correlated(open: seq<Holding>, symbol: string, corr: Correlation, threshold: real): real {
    if open == [] then 0.0
    else
      var last := open[|open| - 1];
      Correlated(open[..|open| - 1], symbol, corr, threshold) + if Counts(last, symbol, corr, threshold) then RiskOf(last) else 0.0
  }

  method CorrelatedOpenRisk(open: seq<Holding>, symbol: string, corr: Correlation, threshold: real) returns (total: real)
    ensures total == Correlated(open, symbol, corr, threshold)
  {
    total := 0.0;
    for i := 0 to |open|
      invariant total == Correlated(open[..i], symbol, corr, threshold)
    {
      assert open[..i + 1][..i] == open[..i];
      if open[i].symbol == symbol {
        continue;
      }
      var c := corr(open[i].symbol);
      if c.None? || c.value < threshold {
        continue;
      }
      total := total + RiskOf(open[i]);
    }
    assert open[..|open|] == open;
  }

  /** The correlated cluster never counts for more than the whole book. */
  lemma {:induction false} CorrelatedWithinOpenRisk(open: seq<Holding>, symbol: string, corr: Correlation, threshold: real)
    requires forall i :: 0 <= i < |open| ==> SharesOf(open[i]) >= 0.0
    ensures 0.0 <= Correlated(open, symbol, corr, threshold) <= OpenRisk(open)
  {
    if open != [] {
      var n := |open| - 1;
      CorrelatedWithinOpenRisk(open[..n], symbol, corr, threshold);
      MulLe(SharesOf(open[n]), 0.0, Abs(open[n].entry - open[n].stop));
    }
  }

  /** What stays out of a candidate's cluster: its own symbol, and whatever is not
      known to move with it. */
  function Apart(open: seq<Holding>, symbol: string, corr: Correlation, threshold: real): seq<Holding> {
    if open == [] then []
    else
      var h := open[|open| - 1];
      Apart(open[..|open| - 1], symbol, corr, threshold)
        + if h.symbol == symbol || corr(h.symbol).None? || corr(h.symbol).value < threshold then [h] else []
  }

  /** Nothing falls between: the cluster and what stays apart from it make up the whole
      open risk. */
  lemma {:induction false} ClusterAndRest(open: seq<Holding>, symbol: string, corr: Correlation, threshold: real)
    ensures Correlated(open, symbol, corr, threshold) + OpenRisk(Apart(open, symbol, corr, threshold)) == OpenRisk(open)
  {
    if open != [] {
      hide RiskOf;
      var n := |open| - 1;
      ClusterAndRest(open[..n], symbol, corr, threshold);
      var rest := Apart(open[..n], symbol, corr, threshold);
      ExposureAddsUp(rest, [open[n]]);
      ExposureOfOne(open[n]);
      assert rest + [] == rest;
    }
  }

  /** Exposure is additive, and one holding's is its shares at cost and its loss at the
      stop. */
  lemma {:induction false} ExposureAddsUp(a: seq<Holding>, b: seq<Holding>)
    ensures Gross(a + b) == Gross(a) + Gross(b) && OpenRisk(a + b) == OpenRisk(a) + OpenRisk(b)
    decreases |b|
  {
    if b == [] {
      assert a + b == a;
    } else {
      hide RiskOf, CostOf;
      var n := |b| - 1;
      ExposureAddsUp(a, b[..n]);
      assert (a + b)[|a + b| - 1] == b[n];
      assert (a + b)[..|a + b| - 1] == a + b[..n];
    }
  }

  lemma ExposureOfOne(h: Holding)
    ensures Gross([h]) == (if h.filledQty != 0.0 then h.filledQty else h.qty) * h.entry
    ensures OpenRisk([h]) == (if h.filledQty != 0.0 then h.filledQty else h.qty) * (if h.entry >= h.stop then h.entry - h.stop else h.stop - h.entry)
  {
    assert [h][..0] == [];
  }

  // ----- the loop -----

  /** Account figures read once per cycle. */
  datatype Base = Base(equity: real, startOfDayEquity: real, buyingPower: real, threshold: real)

  /** How opening an approved entry turns out: it raises, or it settles with some
      fill, possibly as a dead order that leaves nothing open. */
  datatype Opening = Raises | Settles(fills: nat -> real, dead: bool)

  datatype Candidate = Candidate(symbol: string, intent: Option<Intent>, lastPrice: real, corr: Correlation,
                                 ladderStop: real, opening: Opening, checkedAt: real, registeredAt: real)

  datatype Entering = Entering(open: seq<Holding>, limiter: Limiter, largest: nat)

  function StateFor(base: Base, open: seq<Holding>, c: Candidate): AccountState {
    AccountState(base.equity, base.startOfDayEquity, base.buyingPower, c.lastPrice,
                 |open|, Gross(open), OpenRisk(open), Correlated(open, c.symbol, c.corr, base.threshold))
  }

  function LimiterAfter(l: Limits, etDay: real -> int, a: AccountState, limiter: Limiter, now: real): Limiter {
    if LossTripped(l.breakers.maxDailyLossPct, a.startOfDayEquity, a.equity) || a.openPositions >= l.maxOpenPositions then limiter
    else Checked(l.breakers, limiter, now, etDay(now))
  }

  /** What the loop books for `n` approved shares: sized by the gate, laddered
      from the same entry with the strategy's own stop. */
  function Booked(c: Candidate, n: nat, entry: real): Holding
    requires c.opening.Settles?
  {
    Holding(c.symbol, n as real, c.opening.fills(n), entry, c.ladderStop)
  }

  function Consider(l: Limits, etDay: real -> int, base: Base, s: Entering, c: Candidate): Entering {
    if c.intent.None? then s else
    var i, a := c.intent.value, StateFor(base, s.open, c);
    var limiter := LimiterAfter(l, etDay, a, s.limiter, c.checkedAt);
    var n := ApprovedShares(l, i, a, RateOk(l.breakers, limiter));
    if n == 0 || c.opening.Raises? then s.(limiter := limiter)
    else Entering(if c.opening.dead then s.open else s.open + [Booked(c, n, EntryOf(i, a))],
                  Registered(limiter, c.registeredAt, etDay(c.registeredAt)),
                  if n > s.largest then n else s.largest)
  }

  function ConsiderAll(l: Limits, etDay: real -> int, base: Base, s: Entering, cs: seq<Candidate>): Entering {
    if cs == [] then s
    else Consider(l, etDay, base, ConsiderAll(l, etDay, base, s, cs[..|cs| - 1]), cs[|cs| - 1])
  }

  /** The loop as it runs, against the gate object and its breakers. */
  method EnterAll(risk: RiskManager, base: Base, start: seq<Holding>, cs: seq<Candidate>)
    returns (open: seq<Holding>, largest: nat)
    requires risk.breakers.limits == risk.limits.breakers
    modifies risk.breakers
    ensures Entering(open, risk.breakers.View(), largest)
         == ConsiderAll(risk.limits, risk.breakers.etDay, base, Entering(start, old(risk.breakers.View()), 0), cs)
  {
    open, largest := start, 0;
    ghost var first := Entering(start, risk.breakers.View(), 0);
    for k := 0 to |cs|
      invariant Entering(open, risk.breakers.View(), largest)
             == ConsiderAll(risk.limits, risk.breakers.etDay, base, first, cs[..k])
    {
      assert cs[..k + 1][..k] == cs[..k];
      open, largest := EnterOne(risk, base, open, largest, cs[k]);
    }
    assert cs[..|cs|] == cs;
  }

  method EnterOne(risk: RiskManager, base: Base, before: seq<Holding>, most: nat, c: Candidate)
    returns (open: seq<Holding>, largest: nat)
    requires risk.breakers.limits == risk.limits.breakers
    modifies risk.breakers
    ensures Entering(open, risk.breakers.View(), largest)
         == Consider(risk.limits, risk.breakers.etDay, base, Entering(before, old(risk.breakers.View()), most), c)
  {
    open, largest := before, most;
    if c.intent.None? {
      return;
    }
    var exposure := ComputeExposure(open);
    var correlated := CorrelatedOpenRisk(open, c.symbol, c.corr, base.threshold);
    var a := AccountState(base.equity, base.startOfDayEquity, base.buyingPower, c.lastPrice,
                          exposure.count, exposure.gross, exposure.openRisk, correlated);
    var v := risk.Evaluate(c.intent.value, a, c.checkedAt);
    if v.Vetoed? || c.opening.Raises? {
      return;
    }
    risk.breakers.RegisterOrder(c.registeredAt);
    largest := if v.qty > most then v.qty else most;
    if !c.opening.dead {
      open := open + [Booked(c, v.qty, EntryOf(c.intent.value, a))];
    }
  }

  // ----- the limits hold across the loop -----

  /** The broker never fills more than was ordered, and the ladder's stop is at
      most `delta` further from entry than the stop the gate sized with. */
  ghost predicate Faithful(c: Candidate, delta: real) {
    && (c.opening.Settles? ==> forall n: nat :: 0.0 <= c.opening.fills(n) <= n as real)
    && (c.intent.Some? ==>
          var entry := if c.intent.value.entryPrice.Some? && c.intent.value.entryPrice.value != 0.0
                       then c.intent.value.entryPrice.value else c.lastPrice;
          StopOf(c.intent.value, entry).Some? ==>
            Abs(entry - c.ladderStop) <= Abs(entry - StopOf(c.intent.value, entry).value) + delta)
  }

  function GrossLimit(l: Limits, base: Base): real { PctOf(base.equity, l.maxGrossPct) }

  function OpenRiskLimit(l: Limits, base: Base): real { PctOf(base.equity, OpenRiskPct(l)) }

  function RiskCeiling(l: Limits, base: Base, start: seq<Holding>, delta: real, largest: nat): real {
    Max(OpenRisk(start), OpenRiskLimit(l, base) + delta * largest as real)
  }

  lemma CeilingGrows(l: Limits, base: Base, start: seq<Holding>, delta: real, n: nat, m: nat)
    requires delta >= 0.0 && n <= m
    ensures OpenRiskLimit(l, base) + delta * n as real <= RiskCeiling(l, base, start, delta, n)
         <= RiskCeiling(l, base, start, delta, m)
  {
    MulLe(delta, n as real, m as real);
  }

  ghost predicate WithinLimits(l: Limits, base: Base, start: seq<Holding>, s: Entering, delta: real) {
    && |s.open| <= (if |start| > l.maxOpenPositions then |start| else l.maxOpenPositions)
    && Gross(s.open) <= Max(Gross(start), GrossLimit(l, base))
    && OpenRisk(s.open) <= RiskCeiling(l, base, start, delta, s.largest)
  }

  lemma BookingFits(n: nat, shares: real, entry: real, gateRisk: real, ladderRisk: real, delta: real)
    requires 0.0 <= shares <= n as real && entry > 0.0 && gateRisk >= 0.0 && 0.0 <= ladderRisk <= gateRisk + delta
    ensures shares * entry <= n as real * entry
    ensures shares * ladderRisk <= n as real * gateRisk + delta * n as real
  {
    MulLe(entry, shares, n as real);
    MulLe(ladderRisk, shares, n as real);
    MulLe(n as real, ladderRisk, gateRisk + delta);
  }

  lemma ApprovedPassed(l: Limits, i: Intent, a: AccountState, rateOk: bool)
    requires ApprovedShares(l, i, a, rateOk) >= 1
    ensures var entry := EntryOf(i, a);
      && entry > 0.0 && StopOf(i, entry).Some? && entry != StopOf(i, entry).value
      && a.openPositions < l.maxOpenPositions
      && ApprovedShares(l, i, a, rateOk) == MaxShares(l, i, a, entry, StopOf(i, entry).value)
  {
    hide StopOf, Shares, PriceTripped, LossTripped;
  }

  /** One approved entry, added to the book, stays within gross and risk limits. */
  lemma ApprovedFits(l: Limits, i: Intent, a: AccountState, rateOk: bool)
    requires ApprovedShares(l, i, a, rateOk) >= 1
    ensures var n, entry := ApprovedShares(l, i, a, rateOk), EntryOf(i, a);
      && entry > 0.0 && StopOf(i, entry).Some? && a.openPositions < l.maxOpenPositions
      && a.grossExposure + n as real * entry <= PctOf(a.equity, l.maxGrossPct)
      && a.openRisk + n as real * Abs(entry - StopOf(i, entry).value) <= PctOf(a.equity, OpenRiskPct(l))
  {
    hide ApprovedShares, MaxShares, StopOf;
    var n, entry := ApprovedShares(l, i, a, rateOk), EntryOf(i, a);
    ApprovedPassed(l, i, a, rateOk);
    var stop := StopOf(i, entry).value;
    MaxSharesIsTightest(l, i, a, entry, stop, n);
    FitsMeans(l, i, a, entry, stop, n);
  }

  lemma FitsMeans(l: Limits, i: Intent, a: AccountState, entry: real, stop: real, n: int)
    requires FitsAll(l, i, a, entry, stop, n)
    ensures a.grossExposure + n as real * entry <= PctOf(a.equity, l.maxGrossPct)
    ensures a.openRisk + n as real * Abs(entry - stop) <= PctOf(a.equity, OpenRiskPct(l))
  {
    assert Fits(l, i, a, entry, stop, GrossCap, n) && Fits(l, i, a, entry, stop, OpenRiskCap, n);
  }

  /** Booking within the room that was there keeps both sums within their caps. */
  lemma BookedStaysWithin(open: seq<Holding>, h: Holding, n: nat, gateRisk: real, delta: real, grossCap: real, riskCap: real)
    requires 0.0 <= SharesOf(h) <= n as real && h.entry > 0.0 && gateRisk >= 0.0
    requires Abs(h.entry - h.stop) <= gateRisk + delta
    requires Gross(open) + n as real * h.entry <= grossCap
    requires OpenRisk(open) + n as real * gateRisk <= riskCap
    ensures Gross(open + [h]) <= grossCap
    ensures OpenRisk(open + [h]) <= riskCap + delta * n as real
  {
    assert (open + [h])[..|open|] == open;
    BookingFits(n, SharesOf(h), h.entry, gateRisk, Abs(h.entry - h.stop), delta);
  }

  lemma ConsiderStaysWithin(l: Limits, etDay: real -> int, base: Base, start: seq<Holding>, s: Entering, c: Candidate, delta: real)
    requires delta >= 0.0 && Faithful(c, delta) && WithinLimits(l, base, start, s, delta)
    ensures WithinLimits(l, base, start, Consider(l, etDay, base, s, c), delta)
  {
    hide ApprovedShares, StopOf, Gross, OpenRisk, Correlated, RateOk, LimiterAfter, Registered, OpenRiskPct, RiskCeiling;
    var after := Consider(l, etDay, base, s, c);
    CeilingGrows(l, base, start, delta, s.largest, after.largest);
    if |after.open| > |s.open| {
      var i, a := c.intent.value, StateFor(base, s.open, c);
      var n, entry := ApprovedShares(l, i, a, RateOk(l.breakers, LimiterAfter(l, etDay, a, s.limiter, c.checkedAt))), EntryOf(i, a);
      ApprovedFits(l, i, a, RateOk(l.breakers, LimiterAfter(l, etDay, a, s.limiter, c.checkedAt)));
      CeilingGrows(l, base, start, delta, n, after.largest);
      assert 0.0 <= c.opening.fills(n) <= n as real;
      BookedStaysWithin(s.open, Booked(c, n, entry), n, Abs(entry - StopOf(i, entry).value), delta,
                        GrossLimit(l, base), OpenRiskLimit(l, base));
    }
  }

  /** Over every entry of one cycle: the open count never exceeds the larger of
      where it started and the configured maximum, gross cost never the larger of
      where it started and its cap, and open risk never the larger of where it
      started and its cap plus `delta` for each share of the largest entry. */
  lemma {:induction false} LoopStaysWithinLimits(l: Limits, etDay: real -> int, base: Base, s: Entering, cs: seq<Candidate>, delta: real)
    requires delta >= 0.0 && s.largest == 0
    requires forall k :: 0 <= k < |cs| ==> Faithful(cs[k], delta)
    ensures WithinLimits(l, base, s.open, ConsiderAll(l, etDay, base, s, cs), delta)
  {
    if cs != [] {
      var n := |cs| - 1;
      LoopStaysWithinLimits(l, etDay, base, s, cs[..n], delta);
      ConsiderStaysWithin(l, etDay, base, s.open, ConsiderAll(l, etDay, base, s, cs[..n]), cs[n], delta);
    }
  }

  // ----- the order rate over the loop -----

  /** Checked and registered on one trading day. */
  predicate OnDay(etDay: real -> int, c: Candidate, day: int) { etDay(c.checkedAt) == day && etDay(c.registeredAt) == day }

  /** Within both caps, as of `day`. */
  predicate RateKept(l: Limits, limiter: Limiter, day: int) {
    limiter.day == Some(day) && limiter.today <= l.breakers.maxOrdersPerDay && |limiter.times| <= l.breakers.maxOrdersPerWindow
  }

  lemma ConsiderKeepsRate(l: Limits, etDay: real -> int, base: Base, s: Entering, c: Candidate, day: int)
    requires OnDay(etDay, c, day) && RateKept(l, s.limiter, day)
    ensures var f := Consider(l, etDay, base, s, c);
      && RateKept(l, f.limiter, day) && s.limiter.today <= f.limiter.today
      && |f.open| - |s.open| <= f.limiter.today - s.limiter.today
  {
    hide ApprovedShares, StopOf, StateFor, LossTripped;
    if c.intent.Some? {
      var a := StateFor(base, s.open, c);
      var limiter := LimiterAfter(l, etDay, a, s.limiter, c.checkedAt);
      ExpiredIsShorter(s.limiter.times, c.checkedAt, l.breakers.windowSeconds);
      ApprovedNeedsRate(l, c.intent.value, a, RateOk(l.breakers, limiter));
    }
  }

  lemma ApprovedNeedsRate(l: Limits, i: Intent, a: AccountState, rateOk: bool)
    ensures ApprovedShares(l, i, a, rateOk) >= 1 ==> rateOk
  {
    hide StopOf, MaxShares, LossTripped, PriceTripped;
  }

  lemma {:induction false} ExpiredIsShorter(times: seq<real>, now: real, window: real)
    ensures |Expired(times, now, window)| <= |times|
    decreases |times|
  {
    if times != [] {
      ExpiredIsShorter(times[1..], now, window);
    }
  }

  /** The entries one cycle makes are each counted, and never take the day's count, or
      what the window holds, past its cap. */
  lemma {:induction false} LoopKeepsRateCaps(l: Limits, etDay: real -> int, base: Base, s: Entering, cs: seq<Candidate>, day: int)
    requires RateKept(l, s.limiter, day) && forall k :: 0 <= k < |cs| ==> OnDay(etDay, cs[k], day)
    ensures var f := ConsiderAll(l, etDay, base, s, cs);
      && RateKept(l, f.limiter, day) && s.limiter.today <= f.limiter.today
      && |f.open| - |s.open| <= f.limiter.today - s.limiter.today
  {
    hide Consider, RateKept;
    if cs != [] {
      var n := |cs| - 1;
      LoopKeepsRateCaps(l, etDay, base, s, cs[..n], day);
      ConsiderKeepsRate(l, etDay, base, ConsiderAll(l, etDay, base, s, cs[..n]), cs[n], day);
    }
  }

  // ----- exactly when the open-risk cap itself holds -----

  /** With no ladder stop further out than the gate's, the open-risk cap holds for
      the whole loop, to the dollar. */
  lemma LoopKeepsOpenRiskCap(l: Limits, etDay: real -> int, base: Base, s: Entering, cs: seq<Candidate>)
    requires s.largest == 0 && forall k :: 0 <= k < |cs| ==> Faithful(cs[k], 0.0)
    ensures OpenRisk(ConsiderAll(l, etDay, base, s, cs).open) <= Max(OpenRisk(s.open), OpenRiskLimit(l, base))
  {
    hide OpenRisk, OpenRiskLimit, Faithful;
    LoopStaysWithinLimits(l, etDay, base, s, cs, 0.0);
    assert 0.0 * ConsiderAll(l, etDay, base, s, cs).largest as real == 0.0;
  }

  /** Opens, and fills whole. */
  ghost predicate FillsWhole(c: Candidate) {
    c.opening.Settles? && !c.opening.dead && forall n: nat :: c.opening.fills(n) == n as real
  }

  /** What the loop adds for such a candidate. */
  lemma ConsiderOpens(l: Limits, etDay: real -> int, base: Base, s: Entering, c: Candidate)
    requires c.intent.Some? && FillsWhole(c)
    ensures var i, a := c.intent.value, StateFor(base, s.open, c);
      var n := ApprovedShares(l, i, a, RateOk(l.breakers, LimiterAfter(l, etDay, a, s.limiter, c.checkedAt)));
      Consider(l, etDay, base, s, c).open == if n == 0 then s.open else s.open + [Booked(c, n, EntryOf(i, a))]
    ensures forall n: nat, entry: real :: n >= 1 ==> SharesOf(Booked(c, n, entry)) == n as real
  {
    hide ApprovedShares, RateOk, LimiterAfter, Registered, StateFor;
  }

  lemma BookedRisk(open: seq<Holding>, h: Holding)
    ensures OpenRisk(open + [h]) == OpenRisk(open) + RiskOf(h)
  {
    assert (open + [h])[..|open|] == open;
  }

  /** Limits under which one share's gate risk is the whole open-risk cap. */
  function CapLimits(i: Intent, equity: real, entry: real, gap: real): Limits
    requires entry > 0.0 && equity > 0.0 && i.confidence > 0.0
  {
    TightLimits(i, equity, entry, gap, i.confidence).(maxOpenRiskPct := Some(100.0 * (gap / equity)))
  }

  lemma CapIsGap(equity: real, gap: real, confidence: real)
    requires equity > 0.0 && gap > 0.0 && 0.0 < confidence <= 1.0
    ensures PctOf(equity, 100.0 * (gap / equity)) == gap
    ensures RiskBudget(equity, 100.0 * (gap / equity) / confidence, confidence) == gap
  {
    BudgetIsGap(equity, gap, 0.0, confidence);
    assert equity * (gap / equity) == gap;
  }

  lemma CapAccountBuys(i: Intent, lastPrice: real)
    requires var entry := PriceOf(i, lastPrice); Tradable(i, entry) && 0.0 < i.confidence <= 1.0
    ensures var entry := PriceOf(i, lastPrice);
      var gap := Abs(entry - StopOf(i, entry).value);
      var a := TightAccount(i, lastPrice, entry, gap);
      a.equity > 0.0 && a.equity == a.startOfDayEquity &&
      var l := CapLimits(i, a.equity, entry, gap);
      && PctOf(a.equity, OpenRiskPct(l)) == gap && l.maxOpenPositions == 1
      && l.breakers.maxOrdersPerWindow == 1 && l.breakers.maxOrdersPerDay == 1
      && ApprovedShares(l, i, a, true) == 1
  {
    hide RiskBudget, PctOf, MaxShares, TightAccount;
    var entry := PriceOf(i, lastPrice);
    var stop := StopOf(i, entry).value;
    var gap := Abs(entry - stop);
    EquityCovers(i, lastPrice, entry, gap);
    var a := TightAccount(i, lastPrice, entry, gap);
    TightIs(i, lastPrice, entry, gap);
    var l := CapLimits(i, a.equity, entry, gap);
    CapIsGap(a.equity, gap, i.confidence);
    assert Precheck(l, i, a, true).None?;
    MaxSharesIsTightest(l, i, a, entry, stop, 1);
    MaxSharesIsTightest(l, i, a, entry, stop, 2);
    assert 1 as real * gap == gap && 1 as real * entry == entry && 2 as real * gap > gap;
    assert FitsAll(l, i, a, entry, stop, 1);
    assert !Fits(l, i, a, entry, stop, OpenRiskCap, 2);
  }

  /** Whether one entry can push open risk over its cap, on any account, under any
      limits and beside any positions: it can if and only if its ladder starts with a
      stop further out than the one the gate sized with. */
  lemma OpenRiskCapKeptIff(etDay: real -> int, c: Candidate)
    requires c.intent.Some? && FillsWhole(c)
    requires Tradable(c.intent.value, PriceOf(c.intent.value, c.lastPrice)) && 0.0 < c.intent.value.confidence <= 1.0
    ensures var entry := PriceOf(c.intent.value, c.lastPrice);
      Abs(entry - c.ladderStop) <= Abs(entry - StopOf(c.intent.value, entry).value)
      <==> forall l: Limits, base: Base, s: Entering ::
             OpenRisk(Consider(l, etDay, base, s, c).open) <= Max(OpenRisk(s.open), OpenRiskLimit(l, base))
  {
    hide StopOf, Consider, OpenRisk, OpenRiskLimit;
    var i := c.intent.value;
    var entry := PriceOf(i, c.lastPrice);
    if Abs(entry - c.ladderStop) <= Abs(entry - StopOf(i, entry).value) {
      forall l: Limits, base: Base, s: Entering
        ensures OpenRisk(Consider(l, etDay, base, s, c).open) <= Max(OpenRisk(s.open), OpenRiskLimit(l, base))
      {
        NarrowLadderKeepsCap(l, etDay, base, s, c);
      }
    } else {
      WideLadderBreaksCap(etDay, c);
    }
  }

  lemma NarrowLadderKeepsCap(l: Limits, etDay: real -> int, base: Base, s: Entering, c: Candidate)
    requires c.intent.Some? && FillsWhole(c)
    requires var entry := PriceOf(c.intent.value, c.lastPrice);
      StopOf(c.intent.value, entry).Some? && Abs(entry - c.ladderStop) <= Abs(entry - StopOf(c.intent.value, entry).value)
    ensures OpenRisk(Consider(l, etDay, base, s, c).open) <= Max(OpenRisk(s.open), OpenRiskLimit(l, base))
  {
    hide ApprovedShares, StopOf, OpenRisk, Gross, Correlated, RateOk, LimiterAfter, Consider, OpenRiskPct, PctOf, Booked, RiskOf;
    var i, a := c.intent.value, StateFor(base, s.open, c);
    var rateOk := RateOk(l.breakers, LimiterAfter(l, etDay, a, s.limiter, c.checkedAt));
    var n := ApprovedShares(l, i, a, rateOk);
    ConsiderOpens(l, etDay, base, s, c);
    if n >= 1 {
      ApprovedFits(l, i, a, rateOk);
      var entry := EntryOf(i, a);
      BookedRisk(s.open, Booked(c, n, entry));
      BookedRiskIs(c, n, entry, Abs(entry - StopOf(i, entry).value));
    }
  }

  lemma BookedRiskIs(c: Candidate, n: nat, entry: real, gateRisk: real)
    requires n >= 1 && FillsWhole(c) && Abs(entry - c.ladderStop) <= gateRisk
    ensures RiskOf(Booked(c, n, entry)) <= n as real * gateRisk
  {
    MulLe(n as real, Abs(entry - c.ladderStop), gateRisk);
  }

  /** From an empty book, one share is enough. */
  lemma WideLadderBreaksCap(etDay: real -> int, c: Candidate)
    requires c.intent.Some? && FillsWhole(c)
    requires Tradable(c.intent.value, PriceOf(c.intent.value, c.lastPrice)) && 0.0 < c.intent.value.confidence <= 1.0
    requires var entry := PriceOf(c.intent.value, c.lastPrice);
      Abs(entry - c.ladderStop) > Abs(entry - StopOf(c.intent.value, entry).value)
    ensures exists l: Limits, base: Base, s: Entering ::
      OpenRisk(Consider(l, etDay, base, s, c).open) > Max(OpenRisk(s.open), OpenRiskLimit(l, base))
  {
    hide ApprovedShares, StopOf, TightAccount, CapLimits, PctOf, Consider, RateOk, LimiterAfter, Booked;
    var i := c.intent.value;
    var entry := PriceOf(i, c.lastPrice);
    var gap := Abs(entry - StopOf(i, entry).value);
    CapAccountBuys(i, c.lastPrice);
    var a := TightAccount(i, c.lastPrice, entry, gap);
    TradableTight(i, c.lastPrice, entry, gap);
    var l := CapLimits(i, a.equity, entry, gap);
    var base, s := Base(a.equity, a.equity, entry, 0.0), Entering([], FRESH, 0);
    assert StateFor(base, [], c) == a;
    FreshRateOk(l, etDay, a, c.checkedAt);
    ConsiderOpens(l, etDay, base, s, c);
    var h := Booked(c, 1, entry);
    assert [] + [h] == [h];
    OneShareRisk(c, entry);
    assert OpenRiskLimit(l, base) == gap;
    assert OpenRisk(Consider(l, etDay, base, s, c).open) > Max(OpenRisk(s.open), OpenRiskLimit(l, base));
  }

  lemma OneShareRisk(c: Candidate, entry: real)
    requires FillsWhole(c)
    ensures OpenRisk([Booked(c, 1, entry)]) == Abs(entry - c.ladderStop) && OpenRisk([]) == 0.0
  {
    var h := Booked(c, 1, entry);
    BookedRisk([], h);
    assert [] + [h] == [h];
    assert SharesOf(h) == 1.0;
  }

  lemma TradableTight(i: Intent, lastPrice: real, entry: real, gap: real)
    requires Tradable(i, entry)
    ensures OrElse(i.positionPctOverride, 100.0) > 0.0
    ensures var a := TightAccount(i, lastPrice, entry, gap);
      a == AccountState(a.equity, a.equity, entry, lastPrice, 0, 0.0, 0.0, 0.0)
  {
  }

  lemma FreshRateOk(l: Limits, etDay: real -> int, a: AccountState, now: real)
    requires l.breakers.maxOrdersPerWindow >= 1 && l.breakers.maxOrdersPerDay >= 1
    ensures RateOk(l.breakers, LimiterAfter(l, etDay, a, FRESH, now))
  {
  }

  /** Ten thousand dollars, one percent at risk in all: entry at 100, the intent's stop
      at 99, the strategy's ladder starting at 95. A hundred shares are approved, and
      open risk ends at five times its cap. */
  lemma WiderLadderExceedsCap(etDay: real -> int, c: Candidate)
    requires c.intent == Some(EXAMPLE) && c.lastPrice == 100.0 && c.ladderStop == 95.0 && FillsWhole(c)
    ensures var base, s := Base(10000.0, 10000.0, 10000.0, 0.7), Entering([], FRESH, 0);
      && OpenRisk(s.open) == 0.0 && OpenRiskLimit(EXAMPLE_LIMITS, base) == 100.0
      && OpenRisk(Consider(EXAMPLE_LIMITS, etDay, base, s, c).open) == 500.0
  {
    hide ApprovedShares, Consider, RateOk, LimiterAfter;
    var base, s := Base(10000.0, 10000.0, 10000.0, 0.7), Entering([], FRESH, 0);
    var a := StateFor(base, [], c);
    ExampleBuysHundred();
    FreshRateOk(EXAMPLE_LIMITS, etDay, a, c.checkedAt);
    ConsiderOpens(EXAMPLE_LIMITS, etDay, base, s, c);
    var h := Booked(c, 100, 100.0);
    BookedRisk([], h);
    assert [] + [h] == [h];
    assert SharesOf(h) == 100.0;
  }

  const EXAMPLE: Intent := Intent(Long, 1.0, Some(100.0), Some(99.0), None, None, None, None, None)

  const EXAMPLE_LIMITS: Limits :=
    Limits(BreakerLimits(4.0, 10, 50, 5, 20.0, 60.0), 10, Some(1.0), Some(1.0), 175.0, 1.0, 100.0)

  lemma ExampleBuysHundred()
    ensures ApprovedShares(EXAMPLE_LIMITS, EXAMPLE, AccountState(10000.0, 10000.0, 10000.0, 100.0, 0, 0.0, 0.0, 0.0), true) == 100
  {
    hide MaxShares;
    var a := AccountState(10000.0, 10000.0, 10000.0, 100.0, 0, 0.0, 0.0, 0.0);
    assert Precheck(EXAMPLE_LIMITS, EXAMPLE, a, true).None?;
    GateInDollars(EXAMPLE_LIMITS, EXAMPLE, a, 100.0, 99.0, 100);
    ExampleHasNoRoom(a);
  }

  lemma ExampleHasNoRoom(a: AccountState)
    requires a == AccountState(10000.0, 10000.0, 10000.0, 100.0, 0, 0.0, 0.0, 0.0)
    ensures MaxShares(EXAMPLE_LIMITS, EXAMPLE, a, 100.0, 99.0) < 101
  {
    hide MaxShares;
    GateInDollars(EXAMPLE_LIMITS, EXAMPLE, a, 100.0, 99.0, 101);
  }
}
