/** The risk gate: the one place a strategy's intent becomes a number of shares.

    `Evaluate` walks the checks and caps in order, shrinking the quantity step by
    step; it is proved equal to one closed form, the largest whole number of
    shares that fits all six caps. */
module RiskGate {
  import opened Common
  import opened Ratchets
  import opened CircuitBreakers

  datatype Limits = Limits(breakers: BreakerLimits, maxOpenPositions: int, maxOpenRiskPct: Option<real>,
                           maxCorrelatedRiskPct: Option<real>, maxGrossPct: real,
                           perTradeRiskPct: real, maxPositionPct: real)

  /** An intent with what configuration says about its symbol and strategy:
      the per-symbol position override and the ladder's parameters. */
  datatype Intent = Intent(side: Side, confidence: real, entryPrice: Option<real>, stopLoss: Option<real>,
                           suggestedQty: Option<real>, limitPrice: Option<real>, atr: Option<real>,
                           positionPctOverride: Option<real>, ladder: Option<RatchetParams>)

  datatype AccountState = AccountState(equity: real, startOfDayEquity: real, buyingPower: real, lastPrice: real,
                                       openPositions: int, grossExposure: real, openRisk: real, correlatedRisk: real)

  datatype Cap = RiskCap | PositionCap | BuyingPowerCap | OpenRiskCap | CorrelatedCap | GrossCap

  datatype Cause = KillSwitchOn | TooManyPositions | RateLimited | NoPrice | NoStop | FatFinger | NoRoom(cap: Cap)

  datatype Verdict = Vetoed(cause: Cause) | Allowed(qty: int, resized: bool, cappedBy: Cap)

  // ----- entry and stop -----

  /** A missing or zero entry price falls back to the last price. */
  function EntryOf(i: Intent, a: AccountState): real {
    if i.entryPrice.Some? && i.entryPrice.value != 0.0 then i.entryPrice.value else a.lastPrice
  }

  function StopOf(i: Intent, entry: real): Option<real> {
    if i.stopLoss.Some? then i.stopLoss
    else if i.ladder.None? then None
    else match Build(i.ladder.value, entry, i.side, i.atr)
         case None => None
         case Some(r) => Some(r.stop)
  }

  /** Everything checked before sizing, in order; None when all pass. */
  function Precheck(l: Limits, i: Intent, a: AccountState, rateOk: bool): Option<Cause> {
    var entry := EntryOf(i, a);
    if LossTripped(l.breakers.maxDailyLossPct, a.startOfDayEquity, a.equity) then Some(KillSwitchOn)
    else if a.openPositions >= l.maxOpenPositions then Some(TooManyPositions)
    else if !rateOk then Some(RateLimited)
    else if entry <= 0.0 then Some(NoPrice)
    else if StopOf(i, entry).None? then Some(NoStop)
    else if PriceTripped(l.breakers, OrElse(i.limitPrice, entry), entry) then Some(FatFinger)
    else None
  }

  /** The gate goes on to sizing exactly when the day's loss is within its limit, a
      position slot and an order are left, entry and stop are known, and the limit
      price, if any, is within the band around the entry. */
  lemma GateOpensIff(l: Limits, i: Intent, a: AccountState, rateOk: bool)
    ensures Precheck(l, i, a, rateOk).None? <==>
      && (a.startOfDayEquity <= 0.0 || a.equity > a.startOfDayEquity * (1.0 - l.breakers.maxDailyLossPct / 100.0))
      && a.openPositions < l.maxOpenPositions && rateOk
      && EntryOf(i, a) > 0.0 && StopOf(i, EntryOf(i, a)).Some?
      && WithinBand(EntryOf(i, a), OrElse(i.limitPrice, EntryOf(i, a)), l.breakers.fatFingerBandPct)
  {
    hide LossTripped, PriceTripped, StopOf;
    LossInDollars(l.breakers.maxDailyLossPct, a.startOfDayEquity, a.equity);
    PriceInDollars(l.breakers, OrElse(i.limitPrice, EntryOf(i, a)), EntryOf(i, a));
  }

  predicate WithinBand(entry: real, price: real, bandPct: real) {
    entry * (1.0 - bandPct / 100.0) <= price <= entry * (1.0 + bandPct / 100.0)
  }

  // ----- the closed form -----

  function Clamp01(x: real): real { Max(0.0, Min(1.0, x)) }

  /** A weaker signal risks less of the per-trade budget, never more. */
  function RiskBudget(equity: real, pct: real, confidence: real): real {
    equity * (pct * Clamp01(confidence) / 100.0)
  }

  /** Dollars each cap allows, and what one share costs against it. */
  function Budget(l: Limits, i: Intent, a: AccountState, cap: Cap): real {
    match cap
    case RiskCap => RiskBudget(a.equity, l.perTradeRiskPct, i.confidence)
    case PositionCap => PctOf(a.equity, OrElse(i.positionPctOverride, l.maxPositionPct))
    case BuyingPowerCap => a.buyingPower
    case OpenRiskCap => PctOf(a.equity, OpenRiskPct(l)) - a.openRisk
    case CorrelatedCap => PctOf(a.equity, OrElse(l.maxCorrelatedRiskPct, OpenRiskPct(l) * 0.6)) - a.correlatedRisk
    case GrossCap => PctOf(a.equity, l.maxGrossPct) - a.grossExposure
  }

  function OpenRiskPct(l: Limits): real { OrElse(l.maxOpenRiskPct, l.breakers.maxDailyLossPct) }

  function PerShare(entry: real, stop: real, cap: Cap): real {
    if cap.RiskCap? || cap.OpenRiskCap? || cap.CorrelatedCap? then Abs(entry - stop) else entry
  }

  /** The most whole shares one cap allows. */
  function Shares(l: Limits, i: Intent, a: AccountState, entry: real, stop: real, cap: Cap): int
    requires entry > 0.0 && entry != stop
  {
    (Budget(l, i, a, cap) / PerShare(entry, stop, cap)).Floor
  }

  /** The three sizing caps together; a stop at the entry sizes to nothing. */
  function SizedShares(l: Limits, i: Intent, a: AccountState, entry: real, stop: real): int
    requires entry > 0.0
  {
    if entry == stop then 0
    else MinInt(Shares(l, i, a, entry, stop, RiskCap),
                MinInt(Shares(l, i, a, entry, stop, PositionCap), Shares(l, i, a, entry, stop, BuyingPowerCap)))
  }

  /** All six. */
  function MaxShares(l: Limits, i: Intent, a: AccountState, entry: real, stop: real): int
    requires entry > 0.0
  {
    if entry == stop then 0
    else MinInt(SizedShares(l, i, a, entry, stop),
                MinInt(Shares(l, i, a, entry, stop, OpenRiskCap),
                       MinInt(Shares(l, i, a, entry, stop, CorrelatedCap), Shares(l, i, a, entry, stop, GrossCap))))
  }

  /** Shares the whole gate hands to execution; zero for any veto. */
  function ApprovedShares(l: Limits, i: Intent, a: AccountState, rateOk: bool): nat {
    if Precheck(l, i, a, rateOk).Some? then 0
    else
      var entry := EntryOf(i, a);
      var n := MaxShares(l, i, a, entry, StopOf(i, entry).value);
      if n >= 1 then n else 0
  }

  /** `n` shares stay within one cap's budget. */
  predicate Fits(l: Limits, i: Intent, a: AccountState, entry: real, stop: real, cap: Cap, n: int) {
    n as real * PerShare(entry, stop, cap) <= Budget(l, i, a, cap)
  }

  /** Within all six at once: what trade, position and account can bear. */
  predicate FitsAll(l: Limits, i: Intent, a: AccountState, entry: real, stop: real, n: int) {
    && Fits(l, i, a, entry, stop, RiskCap, n) && Fits(l, i, a, entry, stop, PositionCap, n)
    && Fits(l, i, a, entry, stop, BuyingPowerCap, n) && Fits(l, i, a, entry, stop, OpenRiskCap, n)
    && Fits(l, i, a, entry, stop, CorrelatedCap, n) && Fits(l, i, a, entry, stop, GrossCap, n)
  }

  lemma FloorFits(budget: real, perShare: real, n: int)
    requires perShare > 0.0
    ensures n <= (budget / perShare).Floor <==> n as real * perShare <= budget
  {
    var q := budget / perShare;
    assert q * perShare == budget;
    assert n <= q.Floor <==> n as real <= q;
    if n as real <= q {
      MulLe(perShare, n as real, q);
      assert n as real * perShare == perShare * n as real;
    } else {
      MulLt(perShare, q, n as real);
      assert n as real * perShare == perShare * n as real;
    }
  }

  lemma SharesFit(l: Limits, i: Intent, a: AccountState, entry: real, stop: real, cap: Cap, n: int)
    requires entry > 0.0 && entry != stop
    ensures n <= Shares(l, i, a, entry, stop, cap) <==> Fits(l, i, a, entry, stop, cap, n)
  {
    FloorFits(Budget(l, i, a, cap), PerShare(entry, stop, cap), n);
  }

  /** The approved number is exactly the largest that fits: n shares are within
      the gate's number if and only if they are within every one of the six. */
  lemma MaxSharesIsTightest(l: Limits, i: Intent, a: AccountState, entry: real, stop: real, n: int)
    requires entry > 0.0 && entry != stop
    ensures n <= MaxShares(l, i, a, entry, stop) <==> FitsAll(l, i, a, entry, stop, n)
  {
    hide Shares, Fits;
    SharesFit(l, i, a, entry, stop, RiskCap, n);
    SharesFit(l, i, a, entry, stop, PositionCap, n);
    SharesFit(l, i, a, entry, stop, BuyingPowerCap, n);
    SharesFit(l, i, a, entry, stop, OpenRiskCap, n);
    SharesFit(l, i, a, entry, stop, CorrelatedCap, n);
    SharesFit(l, i, a, entry, stop, GrossCap, n);
  }

  /** The same in dollars: what n shares would lose at the stop, and what they
      cost, against every limit the configuration names. The correlated limit
      defaults to six tenths of the open-risk one, and that to the daily loss. */
  lemma GateInDollars(l: Limits, i: Intent, a: AccountState, entry: real, stop: real, n: int)
    requires entry > 0.0 && entry != stop && 0.0 <= i.confidence <= 1.0
    ensures n <= MaxShares(l, i, a, entry, stop) <==>
      var lost, cost := n as real * Abs(entry - stop), n as real * entry;
      var openPct := if l.maxOpenRiskPct.Some? then l.maxOpenRiskPct.value else l.breakers.maxDailyLossPct;
      var corrPct := if l.maxCorrelatedRiskPct.Some? then l.maxCorrelatedRiskPct.value else openPct * 0.6;
      var posPct := if i.positionPctOverride.Some? then i.positionPctOverride.value else l.maxPositionPct;
      && lost <= a.equity * (l.perTradeRiskPct * i.confidence / 100.0)
      && cost <= a.equity * (posPct / 100.0) && cost <= a.buyingPower
      && a.openRisk + lost <= a.equity * (openPct / 100.0)
      && a.correlatedRisk + lost <= a.equity * (corrPct / 100.0)
      && a.grossExposure + cost <= a.equity * (l.maxGrossPct / 100.0)
  {
    hide MaxShares, Fits;
    MaxSharesIsTightest(l, i, a, entry, stop, n);
    TradeCaps(l, i, a, entry, stop, n);
    AccountCaps(l, i, a, entry, stop, n);
    PortfolioCaps(l, i, a, entry, stop, n);
  }

  lemma TradeCaps(l: Limits, i: Intent, a: AccountState, entry: real, stop: real, n: int)
    requires 0.0 <= i.confidence <= 1.0
    ensures Fits(l, i, a, entry, stop, RiskCap, n)
       <==> n as real * Abs(entry - stop) <= a.equity * (l.perTradeRiskPct * i.confidence / 100.0)
  {
    assert Clamp01(i.confidence) == i.confidence;
  }

  lemma AccountCaps(l: Limits, i: Intent, a: AccountState, entry: real, stop: real, n: int)
    ensures Fits(l, i, a, entry, stop, PositionCap, n)
       <==> n as real * entry <= a.equity * (OrElse(i.positionPctOverride, l.maxPositionPct) / 100.0)
    ensures Fits(l, i, a, entry, stop, BuyingPowerCap, n) <==> n as real * entry <= a.buyingPower
    ensures Fits(l, i, a, entry, stop, GrossCap, n)
       <==> a.grossExposure + n as real * entry <= a.equity * (l.maxGrossPct / 100.0)
  {
  }

  lemma PortfolioCaps(l: Limits, i: Intent, a: AccountState, entry: real, stop: real, n: int)
    ensures Fits(l, i, a, entry, stop, OpenRiskCap, n)
       <==> a.openRisk + n as real * Abs(entry - stop) <= a.equity * (OpenRiskPct(l) / 100.0)
    ensures Fits(l, i, a, entry, stop, CorrelatedCap, n)
       <==> a.correlatedRisk + n as real * Abs(entry - stop)
            <= a.equity * (OrElse(l.maxCorrelatedRiskPct, OpenRiskPct(l) * 0.6) / 100.0)
  {
  }

  // ----- more room never means fewer shares -----

  /** `b` asks for the same trade with at least `a`'s conviction and room. */
  predicate Roomier(i: Intent, a: AccountState, j: Intent, b: AccountState) {
    && j == i.(confidence := j.confidence) && i.confidence <= j.confidence
    && b == a.(openRisk := b.openRisk, correlatedRisk := b.correlatedRisk, grossExposure := b.grossExposure)
    && b.openRisk <= a.openRisk && b.correlatedRisk <= a.correlatedRisk && b.grossExposure <= a.grossExposure
  }

  predicate SaneLimits(l: Limits, i: Intent) {
    && l.perTradeRiskPct > 0.0 && OrElse(i.positionPctOverride, l.maxPositionPct) > 0.0
  }

  lemma BudgetGrows(l: Limits, i: Intent, a: AccountState, j: Intent, b: AccountState, cap: Cap)
    requires Roomier(i, a, j, b) && l.perTradeRiskPct > 0.0 && a.equity >= 0.0
    ensures Budget(l, i, a, cap) <= Budget(l, j, b, cap)
  {
    hide RiskBudget, PctOf;
    if cap.RiskCap? {
      RiskBudgetGrows(a.equity, l.perTradeRiskPct, i.confidence, j.confidence);
    }
  }

  lemma RiskBudgetGrows(equity: real, pct: real, low: real, high: real)
    requires equity >= 0.0 && pct > 0.0 && low <= high
    ensures RiskBudget(equity, pct, low) <= RiskBudget(equity, pct, high)
  {
    var c, d := Clamp01(low), Clamp01(high);
    MulLe(pct, c, d);
    MulLe(equity, pct * c / 100.0, pct * d / 100.0);
  }

  lemma FitsGrows(l: Limits, i: Intent, a: AccountState, j: Intent, b: AccountState, entry: real, stop: real, n: int)
    requires Roomier(i, a, j, b) && l.perTradeRiskPct > 0.0 && a.equity >= 0.0
    requires FitsAll(l, i, a, entry, stop, n)
    ensures FitsAll(l, j, b, entry, stop, n)
  {
    hide Budget, PerShare;
    forall cap: Cap ensures Budget(l, i, a, cap) <= Budget(l, j, b, cap) {
      BudgetGrows(l, i, a, j, b, cap);
    }
  }

  /** With no equity there is no room at all. */
  lemma NoEquityNoShares(l: Limits, i: Intent, a: AccountState, entry: real, stop: real)
    requires SaneLimits(l, i) && entry > 0.0 && a.equity < 0.0
    ensures MaxShares(l, i, a, entry, stop) < 1
  {
    if entry != stop {
      MaxSharesIsTightest(l, i, a, entry, stop, 1);
      NegativeShare(a.equity, OrElse(i.positionPctOverride, l.maxPositionPct));
    }
  }

  lemma NegativeShare(equity: real, pct: real)
    requires equity < 0.0 && pct > 0.0
    ensures PctOf(equity, pct) < 0.0
  {
    MulLt(pct / 100.0, equity, 0.0);
  }

  /** The approved quantity is monotone in confidence and antitone in open risk,
      correlated risk and gross exposure, through every check of the gate. */
  lemma MoreRoomMoreShares(l: Limits, i: Intent, a: AccountState, j: Intent, b: AccountState, rateOk: bool)
    requires SaneLimits(l, i) && Roomier(i, a, j, b)
    ensures ApprovedShares(l, i, a, rateOk) <= ApprovedShares(l, j, b, rateOk)
  {
    hide MaxShares, FitsAll;
    assert Precheck(l, i, a, rateOk) == Precheck(l, j, b, rateOk);
    if Precheck(l, i, a, rateOk).None? {
      var entry := EntryOf(i, a);
      var stop := StopOf(i, entry).value;
      var n := MaxShares(l, i, a, entry, stop);
      if entry == stop {
        StopAtEntry(l, i, a, entry);
      } else if a.equity < 0.0 {
        NoEquityNoShares(l, i, a, entry, stop);
      } else {
        MaxSharesIsTightest(l, i, a, entry, stop, n);
        FitsGrows(l, i, a, j, b, entry, stop, n);
        MaxSharesIsTightest(l, j, b, entry, stop, n);
      }
    }
  }

  lemma StopAtEntry(l: Limits, i: Intent, a: AccountState, entry: real)
    requires entry > 0.0
    ensures MaxShares(l, i, a, entry, entry) == 0
  {
  }

  // ----- an account made to measure -----

  /** An intent the risk gate can price: it has an entry, and a stop away from it. */
  predicate Tradable(i: Intent, entry: real) {
    && entry > 0.0 && StopOf(i, entry).Some? && StopOf(i, entry).value != entry
    && (i.positionPctOverride.Some? ==> i.positionPctOverride.value > 0.0)
  }

  function PriceOf(i: Intent, lastPrice: real): real {
    if i.entryPrice.Some? && i.entryPrice.value != 0.0 then i.entryPrice.value else lastPrice
  }

  /** An account, and limits, on which one share at `entry` with risk `gap` uses up the
      risk budget of confidence `high` exactly, and nothing else binds. */
  function TightAccount(i: Intent, lastPrice: real, entry: real, gap: real): AccountState
    requires OrElse(i.positionPctOverride, 100.0) > 0.0
  {
    var equity := (entry + gap) * (1.0 + 100.0 / OrElse(i.positionPctOverride, 100.0));
    AccountState(equity, equity, entry, lastPrice, 0, 0.0, 0.0, 0.0)
  }

  function TightLimits(i: Intent, equity: real, entry: real, gap: real, high: real): Limits
    requires entry > 0.0 && equity > 0.0 && high > 0.0
  {
    var band := Abs(OrElse(i.limitPrice, entry) - entry) / entry * 100.0;
    Limits(BreakerLimits(4.0, 1, 1, 5, band, 60.0), 1, Some(100.0), Some(100.0), 100.0, 100.0 * (gap / equity) / high, 100.0)
  }

  lemma EquityCovers(i: Intent, lastPrice: real, entry: real, gap: real)
    requires OrElse(i.positionPctOverride, 100.0) > 0.0 && entry > 0.0 && gap > 0.0
    ensures var equity := TightAccount(i, lastPrice, entry, gap).equity;
      equity >= entry + gap && PctOf(equity, OrElse(i.positionPctOverride, 100.0)) >= entry && PctOf(equity, 100.0) == equity
  {
    var v, base := OrElse(i.positionPctOverride, 100.0), entry + gap;
    DivLe(0.0, 100.0, v);
    MulLe(base, 1.0, 1.0 + 100.0 / v);
    assert (1.0 + 100.0 / v) * (v / 100.0) == v / 100.0 + 1.0 by {
      assert (100.0 / v) * (v / 100.0) == 1.0;
    }
    var w := 1.0 + 100.0 / v;
    assert (base * w) * (v / 100.0) == base * (w * (v / 100.0));
    MulLe(base, 1.0, v / 100.0 + 1.0);
  }

  lemma BudgetIsGap(equity: real, gap: real, low: real, high: real)
    requires equity > 0.0 && gap > 0.0 && 0.0 <= low < high <= 1.0
    ensures var pct := 100.0 * (gap / equity) / high;
      pct > 0.0 && RiskBudget(equity, pct, high) == gap && RiskBudget(equity, pct, low) < gap
  {
    var share := gap / equity;
    var pct := 100.0 * share / high;
    assert share > 0.0 by { if share <= 0.0 { MulLe(equity, share, 0.0); } assert equity * share == gap; }
    assert pct * high == 100.0 * share;
    assert pct > 0.0 by { if pct <= 0.0 { MulLe(high, pct, 0.0); } }
    MulLt(pct, low, high);
    assert equity * share == gap;
    MulLt(equity, pct * low / 100.0, share);
    assert Clamp01(high) == high && Clamp01(low) == low;
    assert pct * high / 100.0 == share;
  }

  lemma TightIs(i: Intent, lastPrice: real, entry: real, gap: real)
    requires OrElse(i.positionPctOverride, 100.0) > 0.0
    ensures var a := TightAccount(i, lastPrice, entry, gap);
      a == AccountState(a.equity, a.equity, entry, lastPrice, 0, 0.0, 0.0, 0.0)
  {
  }

  // ----- the gate, step by step -----

  datatype Sizing = Sizing(qty: int, cappedBy: Cap)

  class RiskManager {
    const limits: Limits
    const breakers: Breakers

    constructor (limits: Limits, breakers: Breakers)
      requires breakers.limits == limits.breakers
      ensures this.limits == limits && this.breakers == breakers
    {
      this.limits, this.breakers := limits, breakers;
    }

    /** Which verdict the closed form asks for. */
    ghost predicate Decides(i: Intent, a: AccountState, rateOk: bool, v: Verdict) {
      match Precheck(limits, i, a, rateOk)
      case Some(cause) => v == Vetoed(cause)
      case None =>
        var entry := EntryOf(i, a);
        var stop := StopOf(i, entry).value;
        var n := MaxShares(limits, i, a, entry, stop);
        if n < 1 then v.Vetoed? && v.cause.NoRoom?
        else
          && v.Allowed? && v.qty == n && Shares(limits, i, a, entry, stop, v.cappedBy) == n
          && (v.resized <==> n < SizedShares(limits, i, a, entry, stop)
                             || (i.suggestedQty.Some? && n as real < i.suggestedQty.value))
    }

    method Evaluate(i: Intent, a: AccountState, now: real) returns (v: Verdict)
      requires breakers.limits == limits.breakers
      modifies breakers
      ensures breakers.consecutiveErrors == old(breakers.consecutiveErrors)
      ensures breakers.View() == if LossTripped(limits.breakers.maxDailyLossPct, a.startOfDayEquity, a.equity)
                                    || a.openPositions >= limits.maxOpenPositions
                                 then old(breakers.View())
                                 else Checked(limits.breakers, old(breakers.View()), now, breakers.etDay(now))
      ensures v == Vetoed(KillSwitchOn)
         <==> a.startOfDayEquity > 0.0 && a.equity <= a.startOfDayEquity * (1.0 - limits.breakers.maxDailyLossPct / 100.0)
      ensures Decides(i, a, RateOk(limits.breakers, breakers.View()), v)
      ensures (if v.Allowed? then v.qty else 0) == ApprovedShares(limits, i, a, RateOk(limits.breakers, breakers.View()))
    {
      hide LossTripped, PriceTripped;
      LossInDollars(limits.breakers.maxDailyLossPct, a.startOfDayEquity, a.equity);
      if LossTripped(limits.breakers.maxDailyLossPct, a.startOfDayEquity, a.equity) {
        return Vetoed(KillSwitchOn);
      }
      if a.openPositions >= limits.maxOpenPositions {
        return Vetoed(TooManyPositions);
      }
      var rateOk := breakers.CheckRateLimits(now);
      if !rateOk {
        return Vetoed(RateLimited);
      }
      var entry := if i.entryPrice.Some? && i.entryPrice.value != 0.0 then i.entryPrice.value else a.lastPrice;
      if entry <= 0.0 {
        return Vetoed(NoPrice);
      }
      var stop := StopOf(i, entry);
      if stop.None? {
        return Vetoed(NoStop);
      }
      if PriceTripped(limits.breakers, OrElse(i.limitPrice, entry), entry) {
        return Vetoed(FatFinger);
      }
      v := Shrink(i, a, entry, stop.value);
    }

    /** The size a trade starts from: the tightest of risk, position, cash. */
    method SizePosition(i: Intent, a: AccountState, entry: real, stop: real) returns (s: Sizing)
      requires entry > 0.0
      ensures s.qty == Max0(SizedShares(limits, i, a, entry, stop))
      ensures s.qty > 0 ==> entry != stop && Shares(limits, i, a, entry, stop, s.cappedBy) == s.qty
    {
      var perShare := Abs(entry - stop);
      if perShare <= 0.0 {
        return Sizing(0, RiskCap);
      }
      var tightest, cappedBy := Budget(limits, i, a, RiskCap) / perShare, RiskCap;
      var positionShares := Budget(limits, i, a, PositionCap) / entry;
      if positionShares < tightest {
        tightest, cappedBy := positionShares, PositionCap;
      }
      var affordable := a.buyingPower / entry;
      if affordable < tightest {
        tightest, cappedBy := affordable, BuyingPowerCap;
      }
      s := Sizing(if tightest.Floor <= 0 then 0 else tightest.Floor, cappedBy);
    }

    /** Sizing, then the three portfolio caps, each only ever cutting. */
    method Shrink(i: Intent, a: AccountState, entry: real, stop: real) returns (v: Verdict)
      requires entry > 0.0
      ensures var n := MaxShares(limits, i, a, entry, stop);
        if n < 1 then v.Vetoed? && v.cause.NoRoom?
        else
          && v.Allowed? && v.qty == n && Shares(limits, i, a, entry, stop, v.cappedBy) == n
          && (v.resized <==> n < SizedShares(limits, i, a, entry, stop)
                             || (i.suggestedQty.Some? && n as real < i.suggestedQty.value))
    {
      var sizing := SizePosition(i, a, entry, stop);
      var qty, cappedBy, resized := sizing.qty, sizing.cappedBy, false;
      if qty <= 0 {
        return Vetoed(NoRoom(cappedBy));
      }
      var ok;
      qty, cappedBy, resized, ok := Tighten(i, a, entry, stop, OpenRiskCap, qty, cappedBy, resized);
      if !ok {
        return Vetoed(NoRoom(OpenRiskCap));
      }
      qty, cappedBy, resized, ok := Tighten(i, a, entry, stop, CorrelatedCap, qty, cappedBy, resized);
      if !ok {
        return Vetoed(NoRoom(CorrelatedCap));
      }
      qty, cappedBy, resized, ok := Tighten(i, a, entry, stop, GrossCap, qty, cappedBy, resized);
      if !ok {
        return Vetoed(NoRoom(GrossCap));
      }
      if i.suggestedQty.Some? && (qty as real) < i.suggestedQty.value {
        resized := true;
      }
      v := Allowed(qty, resized, cappedBy);
    }

    /** One portfolio cap: no room vetoes, too little cuts the quantity. */
    method Tighten(i: Intent, a: AccountState, entry: real, stop: real, cap: Cap, qty: int, cappedBy: Cap, resized: bool)
      returns (nowQty: int, nowCappedBy: Cap, nowResized: bool, ok: bool)
      requires entry > 0.0 && entry != stop && qty >= 1
      ensures ok <==> Shares(limits, i, a, entry, stop, cap) >= 1
      ensures ok ==> nowQty == MinInt(qty, Shares(limits, i, a, entry, stop, cap))
      ensures ok ==> nowCappedBy == (if nowQty < qty then cap else cappedBy) && nowResized == (resized || nowQty < qty)
    {
      nowQty, nowCappedBy, nowResized := qty, cappedBy, resized;
      var room := Budget(limits, i, a, cap);
      if room <= 0.0 {
        NoRoomNoShares(limits, i, a, entry, stop, cap);
        return nowQty, nowCappedBy, nowResized, false;
      }
      var most := (room / PerShare(entry, stop, cap)).Floor;
      if nowQty > most {
        nowQty, nowCappedBy, nowResized := most, cap, true;
      }
      ok := nowQty > 0;
    }
  }

  function Max0(n: int): int { if n <= 0 then 0 else n }

  lemma NoRoomNoShares(l: Limits, i: Intent, a: AccountState, entry: real, stop: real, cap: Cap)
    requires entry > 0.0 && entry != stop && Budget(l, i, a, cap) <= 0.0
    ensures Shares(l, i, a, entry, stop, cap) < 1
  {
    SharesFit(l, i, a, entry, stop, cap, 1);
  }
}
