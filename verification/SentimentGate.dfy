/** The sentiment gate between strategy and risk gate: it can block an intent or
    haircut its confidence. What it cannot do, on the four-decimal grid the
    strategies work on, is raise the approved quantity. */
module SentimentGate {
  import opened Common
  import opened Rounding
  import opened CircuitBreakers
  import opened RiskGate

  datatype Policy = Policy(enabled: bool, longMin: int, shortMax: int, haircut: real)

  /** What the scorer came back with: nothing wired, a failure, or a score. */
  datatype Feed = NoScorer | ScorerFails | Scored(raw: int)

  function Score(feed: Feed): int
    requires !feed.ScorerFails?
  {
    if feed.NoScorer? then 0 else if feed.raw < -1 then -1 else if feed.raw > 1 then 1 else feed.raw
  }

  /** None blocks the trade. */
  function Apply(p: Policy, feed: Feed, i: Intent): Option<Intent> {
    if !p.enabled || feed.ScorerFails? then Some(i) else
    var s := Score(feed);
    if i.side.Long? && s < p.longMin then None
    else if i.side.Short? && s > p.shortMax then None
    else if (i.side.Long? && s > 0) || (i.side.Short? && s < 0) then Some(i)
    else Some(i.(confidence := Haircut(i.confidence, p.haircut)))
  }

  function Haircut(confidence: real, haircut: real): real { RoundTo(confidence * haircut, GRID) }

  const GRID: real := 10000.0

  predicate OnGrid(confidence: real) { (confidence * GRID).Floor as real == confidence * GRID }

  /** The cut confidence lies less than half a grid step above the last grid point at
      or below the confidence, or just half a step above an even one. */
  predicate RoundsDown(confidence: real, haircut: real) {
    var cut, point := confidence * haircut, (confidence * GRID).Floor;
    cut * GRID < point as real + 0.5 || (cut * GRID == point as real + 0.5 && point % 2 == 0)
  }

  /** Exactly when the rounded haircut stays at or below the confidence. */
  lemma HaircutNeverRaisesIff(confidence: real, haircut: real)
    ensures Haircut(confidence, haircut) <= confidence <==> RoundsDown(confidence, haircut)
  {
    hide RoundTo, RoundHalfEven;
    var cut := confidence * haircut;
    RoundToAtMostIff(cut, confidence, GRID);
    RoundHalfEvenAtMostIff(cut * GRID, (confidence * GRID).Floor);
  }

  /** On the grid, a haircut of at most one never raises confidence. */
  lemma HaircutOnGridNeverRaises(confidence: real, haircut: real)
    requires OnGrid(confidence) && confidence >= 0.0 && haircut <= 1.0
    ensures Haircut(confidence, haircut) <= confidence
  {
    hide RoundTo;
    MulLe(confidence, haircut, 1.0);
    RoundToMono(confidence * haircut, confidence, GRID);
    RoundToGrid(confidence, (confidence * GRID).Floor, GRID);
  }

  /** What the gate does to an intent on news of strength `s`, good or bad for its side:
      block it, let it pass, or cut its confidence to within half a grid step of the
      haircut's share. A gate switched off or without an answer lets everything pass. */
  lemma GateMeans(p: Policy, feed: Feed, i: Intent)
    ensures !p.enabled || feed.ScorerFails? ==> Apply(p, feed, i) == Some(i)
    ensures p.enabled && !feed.ScorerFails? ==>
      var s, gated := Max(-1.0, Min(1.0, if feed.NoScorer? then 0.0 else feed.raw as real)), Apply(p, feed, i);
      && (gated.None? <==> if i.side.Long? then s < p.longMin as real else s > p.shortMax as real)
      && (gated.Some? && (if i.side.Long? then s > 0.0 else s < 0.0) ==> gated == Some(i))
      && (gated.Some? && (if i.side.Long? then s <= 0.0 else s >= 0.0) ==>
            && gated.value == i.(confidence := gated.value.confidence)
            && Abs(gated.value.confidence - i.confidence * p.haircut) <= 0.00005)
  {
    hide Haircut;
    HaircutNear(i.confidence, p.haircut);
  }

  lemma HaircutNear(confidence: real, haircut: real)
    ensures Abs(Haircut(confidence, haircut) - confidence * haircut) <= 0.00005
  {
    hide RoundTo;
    RoundToNear(confidence * haircut, GRID);
  }

  function Mirrored(i: Intent): Intent { i.(side := if i.side.Long? then Short else Long) }

  /** The gate treats a short on bad news as it treats a long on good news: under
      mirrored limits a mirrored intent meets the same fate at the same confidence. */
  lemma GateIsSymmetric(p: Policy, raw: int, i: Intent)
    requires p.shortMax == -p.longMin
    ensures var here, there := Apply(p, Scored(raw), i), Apply(p, Scored(-raw), Mirrored(i));
      (here.None? <==> there.None?) && (here.Some? ==> there.value == Mirrored(here.value))
  {
    hide Haircut;
  }

  /** Passing an intent through the gate never raises what the risk gate approves. */
  lemma GateNeverRaisesShares(p: Policy, feed: Feed, l: Limits, i: Intent, a: AccountState, rateOk: bool)
    requires OnGrid(i.confidence) && i.confidence >= 0.0 && p.haircut <= 1.0 && SaneLimits(l, i)
    requires Apply(p, feed, i).Some?
    ensures ApprovedShares(l, Apply(p, feed, i).value, a, rateOk) <= ApprovedShares(l, i, a, rateOk)
  {
    HaircutOnGridNeverRaises(i.confidence, p.haircut);
    var gated := Apply(p, feed, i).value;
    assert Roomier(gated, a, i, a);
    MoreRoomMoreShares(l, gated, a, i, a, rateOk);
  }

  /** Off the grid rounding can raise confidence: half a grid step of conviction,
      cut by a fifth, comes out a whole step. */
  lemma OffGridHaircutCanRaise()
    ensures !OnGrid(0.00007) && Haircut(0.00007, 0.8) == 0.0001 > 0.00007
  {
    assert RoundHalfEven(0.56) == 1;
    assert RoundTo(0.000056, GRID) == 0.0001;
  }

  /** A concrete account on which that raise buys a share the intent did not earn. */
  lemma OffGridHaircutCanBuyMore(l: Limits)
    requires l == Limits(BreakerLimits(4.0, 10, 50, 5, 20.0, 60.0), 10, None, None, 175.0, 1.0, 10.0)
    ensures var i := Intent(Long, 0.00007, Some(100.0), Some(99.0), None, None, None, None, None);
      var a := AccountState(1000000.0, 1000000.0, 1000000.0, 100.0, 0, 0.0, 0.0, 0.0);
      var gated := Apply(Policy(true, 0, 0, 0.8), NoScorer, i);
      gated.Some? && ApprovedShares(l, i, a, true) == 0 && ApprovedShares(l, gated.value, a, true) >= 1
  {
    hide RoundTo, RoundHalfEven, MaxShares;
    var i := Intent(Long, 0.00007, Some(100.0), Some(99.0), None, None, None, None, None);
    var a := AccountState(1000000.0, 1000000.0, 1000000.0, 100.0, 0, 0.0, 0.0, 0.0);
    OffGridHaircutCanRaise();
    MaxSharesIsTightest(l, i, a, 100.0, 99.0, 1);
    MaxSharesIsTightest(l, i.(confidence := 0.0001), a, 100.0, 99.0, 1);
  }

  // ----- when a haircut can never buy more -----

  /** On that account the higher confidence buys a share and the lower none. */
  lemma TightAccountTells(i: Intent, lastPrice: real, high: real)
    requires var entry := PriceOf(i, lastPrice); Tradable(i, entry)
    requires 0.0 <= i.confidence < high <= 1.0
    ensures var entry := PriceOf(i, lastPrice);
      var gap := Abs(entry - StopOf(i, entry).value);
      var a := TightAccount(i, lastPrice, entry, gap);
      a.equity > 0.0 &&
      var l := TightLimits(i, a.equity, entry, gap, high);
      && SaneLimits(l, i)
      && ApprovedShares(l, i, a, true) == 0 && ApprovedShares(l, i.(confidence := high), a, true) >= 1
  {
    hide RiskBudget, PctOf, MaxShares, TightAccount;
    var entry, j := PriceOf(i, lastPrice), i.(confidence := high);
    var stop := StopOf(i, entry).value;
    var gap := Abs(entry - stop);
    EquityCovers(i, lastPrice, entry, gap);
    var a := TightAccount(i, lastPrice, entry, gap);
    TightIs(i, lastPrice, entry, gap);
    var l := TightLimits(i, a.equity, entry, gap, high);
    BudgetIsGap(a.equity, gap, i.confidence, high);
    assert StopOf(j, entry) == StopOf(i, entry) && EntryOf(i, a) == entry == EntryOf(j, a);
    assert Precheck(l, i, a, true).None? && Precheck(l, j, a, true).None?;
    MaxSharesIsTightest(l, i, a, entry, stop, 1);
    MaxSharesIsTightest(l, j, a, entry, stop, 1);
    assert 1 as real * gap == gap && 1 as real * entry == entry;
    assert !Fits(l, i, a, entry, stop, RiskCap, 1);
    assert FitsAll(l, j, a, entry, stop, 1);
  }

  /** A haircut never buys a share more, on any account and under any limits, if and
      only if the cut confidence rounds down. */
  lemma HaircutBuysNoMoreIff(i: Intent, haircut: real, lastPrice: real)
    requires 0.0 <= i.confidence <= 1.0 && haircut <= 1.0 && Tradable(i, PriceOf(i, lastPrice))
    ensures RoundsDown(i.confidence, haircut)
       <==> forall l: Limits, a: AccountState, rateOk: bool :: SaneLimits(l, i) ==>
              ApprovedShares(l, i.(confidence := Haircut(i.confidence, haircut)), a, rateOk) <= ApprovedShares(l, i, a, rateOk)
  {
    hide Haircut, ApprovedShares, RoundsDown, SaneLimits, StopOf;
    var cut := i.(confidence := Haircut(i.confidence, haircut));
    HaircutNeverRaisesIff(i.confidence, haircut);
    if RoundsDown(i.confidence, haircut) {
      forall l: Limits, a: AccountState, rateOk: bool | SaneLimits(l, i)
        ensures ApprovedShares(l, cut, a, rateOk) <= ApprovedShares(l, i, a, rateOk)
      {
        SaneAtAnyConfidence(l, i, cut);
        MoreRoomMoreShares(l, cut, a, i, a, rateOk);
      }
    } else {
      HaircutWithinOne(i.confidence, haircut);
      TightAccountTells(i, lastPrice, cut.confidence);
    }
  }

  lemma SaneAtAnyConfidence(l: Limits, i: Intent, j: Intent)
    requires j == i.(confidence := j.confidence) && SaneLimits(l, i)
    ensures SaneLimits(l, j)
  {
  }

  lemma HaircutWithinOne(confidence: real, haircut: real)
    requires 0.0 <= confidence <= 1.0 && haircut <= 1.0
    ensures Haircut(confidence, haircut) <= 1.0
  {
    hide RoundTo;
    MulLe(confidence, haircut, 1.0);
    RoundToMono(confidence * haircut, 1.0, GRID);
    RoundToGrid(1.0, 10000, GRID);
  }

  // ----- better news -----

  /** What the risk gate approves once the sentiment gate has had its say. */
  function SharesOn(p: Policy, feed: Feed, l: Limits, i: Intent, a: AccountState, rateOk: bool): nat {
    var gated := Apply(p, feed, i);
    if gated.None? then 0 else ApprovedShares(l, gated.value, a, rateOk)
  }

  /** Better news for a long, or worse for a short, never approves fewer shares, and an
      outage approves as many as the best of news. */
  lemma BetterNewsMoreShares(p: Policy, worse: int, better: int, l: Limits, i: Intent, a: AccountState, rateOk: bool)
    requires OnGrid(i.confidence) && i.confidence >= 0.0 && p.haircut <= 1.0 && SaneLimits(l, i)
    requires if i.side.Long? then worse <= better else better <= worse
    ensures SharesOn(p, Scored(worse), l, i, a, rateOk) <= SharesOn(p, Scored(better), l, i, a, rateOk)
         <= SharesOn(p, ScorerFails, l, i, a, rateOk)
  {
    hide ApprovedShares, Haircut, OnGrid, SaneLimits;
    if Apply(p, Scored(worse), i).Some? { GateNeverRaisesShares(p, Scored(worse), l, i, a, rateOk); }
    if Apply(p, Scored(better), i).Some? { GateNeverRaisesShares(p, Scored(better), l, i, a, rateOk); }
  }
}
