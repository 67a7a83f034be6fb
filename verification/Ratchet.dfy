/** The ratchet stop engine: stop levels that only ever move toward profit.

    `Ratchet` is the value of one stop ladder and `Updated` its transition; the
    classes `PercentRatchet` and `AtrRatchet` are the mutable objects the bot
    keeps, each proved to move along `Updated`. */
module Ratchets {
  import opened Common

  datatype Rule =
    | PercentRule(initialStopPct: real, lockTriggerPct: Option<real>,
                  profitLockPct: Option<real>, stepPct: Option<real>)
    | AtrRule(initialMult: real, trailMult: real, atr: real)

  datatype Ratchet = Ratchet(entry: real, side: Side, rule: Rule, stop: real, extreme: real)

  datatype RatchetParams =
    | PercentParams(initialStopPct: real, lockTriggerPct: Option<real>,
                    profitLockPct: Option<real>, stepPct: Option<real>)
    | AtrParams(initialMult: real, trailMult: Option<real>)

  /** Tolerance of the lock trigger and of the step count. */
  const EPS: real := 0.000000001

  /** `a` protects the position no worse than `b`. */
  predicate AtLeastAsTight(side: Side, a: real, b: real) {
    match side
    case Long => a >= b
    case Short => a <= b
  }

  function Tighter(side: Side, a: real, b: real): real {
    match side
    case Long => Max(a, b)
    case Short => Min(a, b)
  }

  /** The level `pct` percent of `entry` to the profitable side of `entry`. */
  function GainLevel(entry: real, side: Side, pct: real): real {
    match side
    case Long => entry * (1.0 + pct / 100.0)
    case Short => entry * (1.0 - pct / 100.0)
  }

  function InitialStop(entry: real, side: Side, rule: Rule): real {
    match rule
    case PercentRule(initialStopPct, _, _, _) => GainLevel(entry, side, -initialStopPct)
    case AtrRule(initialMult, _, atr) =>
      if side.Long? then entry - initialMult * atr else entry + initialMult * atr
  }

  function New(entry: real, side: Side, rule: Rule): Ratchet {
    Ratchet(entry, side, rule, InitialStop(entry, side, rule), entry)
  }

  /** None stands for the ValueError an ATR ladder without an ATR raises. */
  function Build(params: RatchetParams, entry: real, side: Side, atr: Option<real>): Option<Ratchet> {
    match params
    case AtrParams(initial, trail) =>
      if atr.None? then None else Some(New(entry, side, AtrRule(initial, OrElse(trail, initial), atr.value)))
    case PercentParams(initial, lock, profit, step) =>
      Some(New(entry, side, PercentRule(initial, lock, profit, step)))
  }

  /** How far `extreme` has run past `triggerPrice`, in the profitable direction. */
  function Advance(side: Side, extreme: real, triggerPrice: real): real {
    if side.Long? then extreme - triggerPrice else triggerPrice - extreme
  }

  /** Percent of entry locked in once price has reached `extreme`; None before
      the trigger, or when the ladder has no lock. */
  function LockedFloorPct(entry: real, side: Side, rule: Rule, extreme: real): Option<real>
    requires rule.PercentRule?
  {
    if rule.lockTriggerPct.None? || rule.profitLockPct.None? then None else
    var stepPct := OrElse(rule.stepPct, 0.0);
    LockedPct(Advance(side, extreme, GainLevel(entry, side, rule.lockTriggerPct.value)),
              rule.profitLockPct.value, stepPct, PctOf(entry, stepPct))
  }

  function LockedPct(advance: real, profitPct: real, stepPct: real, stepValue: real): Option<real> {
    if advance < -EPS then None
    else Some(SteppedUp(profitPct, ExtraSteps(advance, stepValue), stepPct))
  }

  function SteppedUp(pct: real, steps: int, stepPct: real): real { pct + steps as real * stepPct }

  function ExtraSteps(advance: real, stepValue: real): int {
    if stepValue > 0.0 then Trunc(advance / stepValue + EPS) else 0
  }

  /** The level the rule asks for at `extreme`; None when it asks for nothing. */
  function Candidate(entry: real, side: Side, rule: Rule, extreme: real, atr: Option<real>): Option<real> {
    match rule
    case PercentRule(_, _, _, _) =>
      (match LockedFloorPct(entry, side, rule, extreme)
       case None => None
       case Some(pct) => Some(GainLevel(entry, side, pct)))
    case AtrRule(_, trailMult, atr0) =>
      var distance := trailMult * OrElse(atr, atr0);
      Some(if side.Long? then extreme - distance else extreme + distance)
  }

  function Updated(r: Ratchet, price: real, atr: Option<real>): Ratchet {
    var extreme := Tighter(r.side, r.extreme, price);
    match Candidate(r.entry, r.side, r.rule, extreme, atr)
    case None => r.(extreme := extreme)
    case Some(level) => r.(extreme := extreme, stop := Tighter(r.side, r.stop, level))
  }

  function Feed(r: Ratchet, prices: seq<real>): Ratchet {
    if prices == [] then r
    else Updated(Feed(r, prices[..|prices| - 1]), prices[|prices| - 1], None)
  }

  // ----- the stop only ever moves toward profit -----

  lemma UpdateNeverLoosens(r: Ratchet, price: real, atr: Option<real>)
    ensures AtLeastAsTight(r.side, Updated(r, price, atr).stop, r.stop)
    ensures AtLeastAsTight(r.side, Updated(r, price, atr).extreme, r.extreme)
    ensures Updated(r, price, atr).side == r.side && Updated(r, price, atr).entry == r.entry
  {
  }

  // ----- a percent ladder remembers only its extreme -----

  /** Parameters a percent ladder is configured with: a positive entry and a
      step that, if given, does not step backwards. */
  predicate SaneLadder(entry: real, rule: Rule) {
    rule.PercentRule? && entry > 0.0 && OrElse(rule.stepPct, 0.0) >= 0.0
  }

  /** The stop written directly as a function of the most favourable price. */
  function LadderStop(entry: real, side: Side, rule: Rule, extreme: real): real
    requires rule.PercentRule?
  {
    StopFromFloor(entry, side, InitialStop(entry, side, rule), LockedFloorPct(entry, side, rule, extreme))
  }

  function StopFromFloor(entry: real, side: Side, initial: real, floorPct: Option<real>): real {
    match floorPct
    case None => initial
    case Some(pct) => Tighter(side, initial, GainLevel(entry, side, pct))
  }

  lemma StopFromFloorMono(entry: real, side: Side, initial: real, low: Option<real>, high: Option<real>)
    requires entry > 0.0 && (low.Some? ==> high.Some? && low.value <= high.value)
    ensures AtLeastAsTight(side, StopFromFloor(entry, side, initial, high), StopFromFloor(entry, side, initial, low))
  {
    if low.Some? {
      GainLevelMono(entry, side, low.value, high.value);
    }
  }

  lemma LockedPctMono(worse: real, better: real, profitPct: real, stepPct: real, stepValue: real)
    requires worse <= better && stepPct >= 0.0
    requires LockedPct(worse, profitPct, stepPct, stepValue).Some?
    ensures LockedPct(better, profitPct, stepPct, stepValue).Some?
    ensures LockedPct(worse, profitPct, stepPct, stepValue).value <= LockedPct(better, profitPct, stepPct, stepValue).value
  {
    hide SteppedUp, ExtraSteps;
    ExtraStepsMono(worse, better, stepValue);
    SteppedUpMono(profitPct, ExtraSteps(worse, stepValue), ExtraSteps(better, stepValue), stepPct);
  }

  lemma ExtraStepsMono(worse: real, better: real, stepValue: real)
    requires worse <= better
    ensures ExtraSteps(worse, stepValue) <= ExtraSteps(better, stepValue)
  {
    if stepValue > 0.0 {
      DivLe(worse, better, stepValue);
      TruncMono(worse / stepValue + EPS, better / stepValue + EPS);
    }
  }

  lemma SteppedUpMono(pct: real, fewer: int, more: int, stepPct: real)
    requires stepPct >= 0.0 && fewer <= more
    ensures SteppedUp(pct, fewer, stepPct) <= SteppedUp(pct, more, stepPct)
  {
    MulLe(stepPct, fewer as real, more as real);
  }

  lemma GainLevelMono(entry: real, side: Side, low: real, high: real)
    requires entry > 0.0 && low <= high
    ensures AtLeastAsTight(side, GainLevel(entry, side, high), GainLevel(entry, side, low))
  {
    MulLe(entry, 1.0 + low / 100.0, 1.0 + high / 100.0);
    MulLe(entry, 1.0 - high / 100.0, 1.0 - low / 100.0);
  }

  lemma LockedFloorMono(entry: real, side: Side, rule: Rule, worse: real, better: real)
    requires SaneLadder(entry, rule) && AtLeastAsTight(side, better, worse)
    ensures var low, high := LockedFloorPct(entry, side, rule, worse), LockedFloorPct(entry, side, rule, better);
      low.Some? ==> high.Some? && low.value <= high.value
  {
    if LockedFloorPct(entry, side, rule, worse).Some? {
      var trigger, stepPct := GainLevel(entry, side, rule.lockTriggerPct.value), OrElse(rule.stepPct, 0.0);
      var profit, stepValue := rule.profitLockPct.value, PctOf(entry, stepPct);
      var w, b := Advance(side, worse, trigger), Advance(side, better, trigger);
      assert LockedFloorPct(entry, side, rule, worse) == LockedPct(w, profit, stepPct, stepValue);
      assert LockedFloorPct(entry, side, rule, better) == LockedPct(b, profit, stepPct, stepValue);
      assert w <= b;
      LockedPctMono(w, b, profit, stepPct, stepValue);
    }
  }

  /** A more favourable extreme never locks in less. */
  lemma LadderMono(entry: real, side: Side, rule: Rule, worse: real, better: real)
    requires SaneLadder(entry, rule) && AtLeastAsTight(side, better, worse)
    ensures AtLeastAsTight(side, LadderStop(entry, side, rule, better), LadderStop(entry, side, rule, worse))
  {
    LockedFloorMono(entry, side, rule, worse, better);
    StopFromFloorMono(entry, side, InitialStop(entry, side, rule),
                      LockedFloorPct(entry, side, rule, worse), LockedFloorPct(entry, side, rule, better));
  }

  /** A ladder standing at its extreme's level still does after one more price. */
  lemma UpdateFollowsLadder(entry: real, side: Side, rule: Rule, extreme: real, price: real)
    requires SaneLadder(entry, rule)
    ensures var next := Tighter(side, extreme, price);
      Updated(Ratchet(entry, side, rule, LadderStop(entry, side, rule, extreme), extreme), price, None)
      == Ratchet(entry, side, rule, LadderStop(entry, side, rule, next), next)
  {
    hide LockedFloorPct, GainLevel;
    var next := Tighter(side, extreme, price);
    LadderMono(entry, side, rule, extreme, next);
    LockedFloorMono(entry, side, rule, extreme, next);
  }

  /** A new ladder stands at its entry's level, as if fed nothing. */
  lemma NewStandsAtInitial(entry: real, side: Side, rule: Rule, price: real)
    requires SaneLadder(entry, rule)
    ensures var next := Tighter(side, entry, price);
      Updated(New(entry, side, rule), price, None) == Ratchet(entry, side, rule, LadderStop(entry, side, rule, next), next)
  {
    hide LockedFloorPct, GainLevel, InitialStop;
  }

  /** Whatever prices were fed, in whatever order, the stop is the ladder's
      value at the extreme, and the extreme is the best of entry and prices. */
  lemma {:induction false} StopIsLadderOfExtreme(entry: real, side: Side, rule: Rule, prices: seq<real>)
    requires SaneLadder(entry, rule) && prices != []
    ensures var f := Feed(New(entry, side, rule), prices);
      && f == Ratchet(entry, side, rule, LadderStop(entry, side, rule, f.extreme), f.extreme)
      && (f.extreme == entry || f.extreme in prices)
      && AtLeastAsTight(side, f.extreme, entry)
      && forall p :: p in prices ==> AtLeastAsTight(side, f.extreme, p)
  {
    hide Updated, LadderStop, New;
    var n := |prices| - 1;
    assert prices == prices[..n] + [prices[n]];
    if n == 0 {
      NewStandsAtInitial(entry, side, rule, prices[0]);
      assert Feed(New(entry, side, rule), prices[..0]) == New(entry, side, rule);
    } else {
      StopIsLadderOfExtreme(entry, side, rule, prices[..n]);
      UpdateFollowsLadder(entry, side, rule, Feed(New(entry, side, rule), prices[..n]).extreme, prices[n]);
    }
  }

  /** Reordering the price history leaves the ladder in the same state. */
  lemma StopIgnoresPriceOrder(entry: real, side: Side, rule: Rule, prices: seq<real>, reordered: seq<real>)
    requires SaneLadder(entry, rule)
    requires multiset(prices) == multiset(reordered)
    ensures Feed(New(entry, side, rule), prices) == Feed(New(entry, side, rule), reordered)
  {
    assert |prices| == |multiset(prices)| == |multiset(reordered)| == |reordered|;
    if prices != [] {
      StopIsLadderOfExtreme(entry, side, rule, prices);
      StopIsLadderOfExtreme(entry, side, rule, reordered);
      forall p ensures p in prices <==> p in reordered {
        assert p in prices <==> p in multiset(prices);
        assert p in reordered <==> p in multiset(reordered);
      }
    }
  }

  /** Once the lock has engaged, the stop trails the extreme by less than the
      configured give-back plus one step. */
  lemma LockTrailsByLessThanOneStep(entry: real, side: Side, rule: Rule, extreme: real)
    requires SaneLadder(entry, rule) && OrElse(rule.stepPct, 0.0) > 0.0
    requires LockedFloorPct(entry, side, rule, extreme).Some?
    ensures Advance(side, extreme, LadderStop(entry, side, rule, extreme))
         < PctOf(entry, rule.lockTriggerPct.value - rule.profitLockPct.value + rule.stepPct.value)
  {
    hide InitialStop, GainLevel, ExtraSteps, PctOf, SteppedUp, StopFromFloor;
    var lock, profit, stepPct := rule.lockTriggerPct.value, rule.profitLockPct.value, rule.stepPct.value;
    var advance := Advance(side, extreme, GainLevel(entry, side, lock));
    var n := ExtraSteps(advance, PctOf(entry, stepPct));
    StopBehindFloor(entry, side, InitialStop(entry, side, rule), SteppedUp(profit, n, stepPct), extreme);
    TrailArithmetic(entry, side, lock, profit, n, stepPct, extreme);
  }

  /** The other side of it: nothing is locked before the trigger, and from the
      trigger on at least the configured profit is. */
  lemma LockHoldsProfit(entry: real, side: Side, rule: Rule, extreme: real)
    requires SaneLadder(entry, rule) && rule.lockTriggerPct.Some? && rule.profitLockPct.Some?
    ensures var advance := Advance(side, extreme, GainLevel(entry, side, rule.lockTriggerPct.value));
      && (advance < -EPS ==> LadderStop(entry, side, rule, extreme) == InitialStop(entry, side, rule))
      && (advance >= 0.0 ==>
            AtLeastAsTight(side, LadderStop(entry, side, rule, extreme), GainLevel(entry, side, rule.profitLockPct.value)))
  {
    var stepPct := OrElse(rule.stepPct, 0.0);
    var advance := Advance(side, extreme, GainLevel(entry, side, rule.lockTriggerPct.value));
    var floorPct := LockedFloorPct(entry, side, rule, extreme);
    assert floorPct == LockedPct(advance, rule.profitLockPct.value, stepPct, PctOf(entry, stepPct));
    if advance >= 0.0 {
      ExtraStepsMono(0.0, advance, PctOf(entry, stepPct));
      NoSteps(PctOf(entry, stepPct));
      SteppedUpMono(rule.profitLockPct.value, 0, ExtraSteps(advance, PctOf(entry, stepPct)), stepPct);
      GainLevelMono(entry, side, rule.profitLockPct.value, floorPct.value);
    }
  }

  lemma NoSteps(stepValue: real)
    ensures ExtraSteps(0.0, stepValue) == 0
  {
    if stepValue > 0.0 {
      assert 0.0 / stepValue == 0.0;
    }
  }

  lemma StopBehindFloor(entry: real, side: Side, initial: real, floorPct: real, extreme: real)
    ensures Advance(side, extreme, StopFromFloor(entry, side, initial, Some(floorPct)))
         <= Advance(side, extreme, GainLevel(entry, side, floorPct))
  {
  }

  lemma TrailArithmetic(entry: real, side: Side, lock: real, profit: real, n: int, stepPct: real, extreme: real)
    requires entry > 0.0 && stepPct > 0.0
    requires n == ExtraSteps(Advance(side, extreme, GainLevel(entry, side, lock)), PctOf(entry, stepPct))
    ensures Advance(side, extreme, GainLevel(entry, side, SteppedUp(profit, n, stepPct)))
         < PctOf(entry, lock - profit + stepPct)
  {
    hide GainLevel, ExtraSteps, PctOf, SteppedUp;
    StepsCoverAdvance(entry, stepPct, Advance(side, extreme, GainLevel(entry, side, lock)));
    GainIsPct(entry, side, SteppedUp(profit, n, stepPct));
    GainIsPct(entry, side, lock);
    SteppedUpPct(entry, profit, n, stepPct);
    PercentSum(entry, lock, profit, stepPct);
  }

  lemma StepsCoverAdvance(entry: real, stepPct: real, advance: real)
    requires entry > 0.0 && stepPct > 0.0
    ensures var stepValue := PctOf(entry, stepPct);
      advance < stepValue * ExtraSteps(advance, stepValue) as real + stepValue
  {
    var stepValue := PctOf(entry, stepPct);
    MulLt(entry, 0.0, stepPct / 100.0);
    var q := advance / stepValue;
    TruncAbove(q + EPS);
    MulLt(stepValue, q, Trunc(q + EPS) as real + 1.0);
    assert stepValue * q == advance;
  }

  lemma GainIsPct(entry: real, side: Side, pct: real)
    ensures Advance(side, GainLevel(entry, side, pct), entry) == PctOf(entry, pct)
  {
  }

  /** Dollars locked, plus dollars stepped. */
  lemma SteppedUpPct(entry: real, pct: real, n: int, stepPct: real)
    ensures PctOf(entry, SteppedUp(pct, n, stepPct)) == PctOf(entry, pct) + PctOf(entry, stepPct) * n as real
  {
    var k := n as real;
    assert (pct + k * stepPct) / 100.0 == pct / 100.0 + (stepPct / 100.0) * k;
    assert entry * (pct / 100.0 + (stepPct / 100.0) * k) == entry * (pct / 100.0) + entry * ((stepPct / 100.0) * k);
    assert entry * ((stepPct / 100.0) * k) == PctOf(entry, stepPct) * k;
  }

  lemma PercentSum(entry: real, lock: real, profit: real, stepPct: real)
    ensures PctOf(entry, lock - profit + stepPct) == PctOf(entry, lock) - PctOf(entry, profit) + PctOf(entry, stepPct)
  {
    assert (lock - profit + stepPct) / 100.0 == lock / 100.0 - profit / 100.0 + stepPct / 100.0;
  }

  /** A new ladder risks what it was configured to: so many percent of the entry, or so
      many ATRs, on the losing side. */
  lemma StartsItsRiskAway(entry: real, side: Side, rule: Rule)
    ensures Advance(side, entry, New(entry, side, rule).stop)
         == (if rule.PercentRule? then entry * rule.initialStopPct / 100.0 else rule.initialMult * rule.atr)
  {
  }

  /** What parameters ask for: an ATR ladder needs an ATR, starts its initial multiple of
      it away, and trails by its trail multiple, or the initial one where none is given;
      a percent ladder starts its initial percentage away. */
  lemma BuildMeans(params: RatchetParams, entry: real, side: Side, atr: Option<real>, price: real)
    ensures Build(params, entry, side, atr).None? <==> params.AtrParams? && atr.None?
    ensures Build(params, entry, side, atr).Some? ==>
      var r := Build(params, entry, side, atr).value;
      && r.entry == entry == r.extreme && r.side == side
      && Advance(side, entry, r.stop) == (if params.PercentParams? then entry * params.initialStopPct / 100.0
                                          else params.initialMult * atr.value)
      && (params.AtrParams? ==>
            var trail := if params.trailMult.Some? then params.trailMult.value else params.initialMult;
            AtLeastAsTight(side, Updated(r, price, None).stop, Back(side, Tighter(side, entry, price), trail * atr.value)))
  {
  }

  lemma StepsStayWithinAdvance(entry: real, stepPct: real, advance: real)
    requires entry > 0.0 && stepPct >= 0.0
    ensures var stepValue := PctOf(entry, stepPct);
      0.0 <= stepValue && stepValue * ExtraSteps(advance, stepValue) as real <= Max(0.0, advance + EPS * stepValue)
  {
    var stepValue := PctOf(entry, stepPct);
    MulLe(entry, 0.0, stepPct / 100.0);
    if stepValue > 0.0 {
      var q := advance / stepValue;
      MulLe(stepValue, Trunc(q + EPS) as real, Max(0.0, q + EPS));
      assert stepValue * q == advance;
      assert stepValue * (q + EPS) == advance + EPS * stepValue;
    }
  }

  /** A ladder that locks no more than its trigger never puts the stop past the best
      price seen, but for the tolerance. */
  lemma StopStaysBehindExtreme(entry: real, side: Side, rule: Rule, extreme: real)
    requires SaneLadder(entry, rule) && rule.initialStopPct >= 0.0 && AtLeastAsTight(side, extreme, entry)
    requires rule.lockTriggerPct.Some? && rule.profitLockPct.Some? ==> rule.profitLockPct.value <= rule.lockTriggerPct.value
    ensures Advance(side, extreme, LadderStop(entry, side, rule, extreme)) >= -EPS * (1.0 + PctOf(entry, OrElse(rule.stepPct, 0.0)))
  {
    hide ExtraSteps, SteppedUp, PctOf, GainLevel;
    var stepPct := OrElse(rule.stepPct, 0.0);
    InitialBehind(entry, side, rule);
    StepsStayWithinAdvance(entry, stepPct, 0.0);
    if LockedFloorPct(entry, side, rule, extreme).Some? {
      var lock, profit := rule.lockTriggerPct.value, rule.profitLockPct.value;
      var advance := Advance(side, extreme, GainLevel(entry, side, lock));
      var n := ExtraSteps(advance, PctOf(entry, stepPct));
      StepsStayWithinAdvance(entry, stepPct, advance);
      GainIsPct(entry, side, SteppedUp(profit, n, stepPct));
      GainIsPct(entry, side, lock);
      SteppedUpPct(entry, profit, n, stepPct);
      PctMono(entry, profit, lock);
    }
  }

  lemma InitialBehind(entry: real, side: Side, rule: Rule)
    requires entry > 0.0 && rule.PercentRule? && rule.initialStopPct >= 0.0
    ensures AtLeastAsTight(side, entry, InitialStop(entry, side, rule))
  {
    StartsItsRiskAway(entry, side, rule);
    MulLe(entry, 0.0, rule.initialStopPct);
  }

  lemma PctMono(base: real, low: real, high: real)
    requires base > 0.0 && low <= high
    ensures PctOf(base, low) <= PctOf(base, high)
  {
    MulLe(base, low / 100.0, high / 100.0);
  }

  // ----- an ATR ladder trails the extreme -----

  /** `distance` back from a price, on the losing side. */
  function Back(side: Side, price: real, distance: real): real {
    if side.Long? then price - distance else price + distance
  }

  /** After any price the stop is the old one or the trail behind the new extreme,
      whichever is tighter, on the latest ATR or else the entry's. */
  lemma AtrStopTrails(r: Ratchet, price: real, atr: Option<real>)
    requires r.rule.AtrRule?
    ensures var q, level := Updated(r, price, atr),
                            Back(r.side, Tighter(r.side, r.extreme, price), r.rule.trailMult * OrElse(atr, r.rule.atr));
      && AtLeastAsTight(r.side, q.stop, level) && AtLeastAsTight(r.side, q.stop, r.stop)
      && (q.stop == level || q.stop == r.stop)
      && q.extreme == Tighter(r.side, r.extreme, price)
  {
  }

  /** Where an ATR ladder stands once its best price is `extreme`. */
  function AtrStop(entry: real, side: Side, rule: Rule, extreme: real): real
    requires rule.AtrRule?
  {
    Tighter(side, Back(side, entry, rule.initialMult * rule.atr), Back(side, extreme, rule.trailMult * rule.atr))
  }

  lemma UpdateFollowsTrail(entry: real, side: Side, rule: Rule, stop: real, extreme: real, price: real)
    requires rule.AtrRule? && (stop == AtrStop(entry, side, rule, extreme) || stop == InitialStop(entry, side, rule))
    ensures var next := Tighter(side, extreme, price);
      Updated(Ratchet(entry, side, rule, stop, extreme), price, None)
      == Ratchet(entry, side, rule, AtrStop(entry, side, rule, next), next)
  {
  }

  /** On its entry ATR alone, an ATR ladder stands at its initial stop or one trail
      behind the best of entry and prices, whichever is tighter, whatever their order. */
  lemma {:induction false} AtrStopIsTrailOfExtreme(entry: real, side: Side, rule: Rule, prices: seq<real>)
    requires rule.AtrRule? && prices != []
    ensures var f := Feed(New(entry, side, rule), prices);
      && f == Ratchet(entry, side, rule, AtrStop(entry, side, rule, f.extreme), f.extreme)
      && (f.extreme == entry || f.extreme in prices) && AtLeastAsTight(side, f.extreme, entry)
      && forall p :: p in prices ==> AtLeastAsTight(side, f.extreme, p)
  {
    hide Updated, AtrStop, InitialStop;
    var n := |prices| - 1;
    assert prices == prices[..n] + [prices[n]];
    var before := Feed(New(entry, side, rule), prices[..n]);
    if n == 0 {
      assert before == New(entry, side, rule);
    } else {
      AtrStopIsTrailOfExtreme(entry, side, rule, prices[..n]);
    }
    UpdateFollowsTrail(entry, side, rule, before.stop, before.extreme, prices[n]);
  }

  // ----- the mutable ladders -----

  class PercentRatchet {
    const entry: real
    const side: Side
    const initialStopPct: real
    const lockTriggerPct: Option<real>
    const profitLockPct: Option<real>
    const stepPct: Option<real>
    var stop: real
    var extreme: real

    function View(): Ratchet
      reads this
    {
      Ratchet(entry, side, PercentRule(initialStopPct, lockTriggerPct, profitLockPct, stepPct), stop, extreme)
    }

    constructor (entry: real, side: Side, initialStopPct: real,
                 lockTriggerPct: Option<real>, profitLockPct: Option<real>, stepPct: Option<real>)
      ensures View() == New(entry, side, PercentRule(initialStopPct, lockTriggerPct, profitLockPct, stepPct))
    {
      this.entry, this.side, this.initialStopPct := entry, side, initialStopPct;
      this.lockTriggerPct, this.profitLockPct, this.stepPct := lockTriggerPct, profitLockPct, stepPct;
      extreme := entry;
      if side.Long? {
        stop := entry * (1.0 - initialStopPct / 100.0);
      } else {
        stop := entry * (1.0 + initialStopPct / 100.0);
      }
    }

    method Update(price: real) returns (level: real)
      modifies this
      ensures forall atr :: View() == Updated(old(View()), price, atr)
      ensures level == stop
    {
      extreme := if side.Long? then Max(extreme, price) else Min(extreme, price);
      var floorPct := LockedFloorPct(entry, side, View().rule, extreme);
      if floorPct.Some? {
        var candidate := GainLevel(entry, side, floorPct.value);
        stop := if side.Long? then Max(stop, candidate) else Min(stop, candidate);
      }
      level := stop;
    }
  }

  class AtrRatchet {
    const entry: real
    const side: Side
    const initialMult: real
    const trailMult: real
    const atr: real
    var stop: real
    var extreme: real

    function View(): Ratchet
      reads this
    {
      Ratchet(entry, side, AtrRule(initialMult, trailMult, atr), stop, extreme)
    }

    constructor (entry: real, side: Side, initialMult: real, trailMult: real, atr: real)
      ensures View() == New(entry, side, AtrRule(initialMult, trailMult, atr))
    {
      this.entry, this.side, this.initialMult, this.trailMult, this.atr := entry, side, initialMult, trailMult, atr;
      extreme := entry;
      stop := if side.Long? then entry - initialMult * atr else entry + initialMult * atr;
    }

    method Update(price: real, latestAtr: Option<real>) returns (level: real)
      modifies this
      ensures View() == Updated(old(View()), price, latestAtr)
      ensures level == stop
    {
      var a := if latestAtr.Some? then latestAtr.value else atr;
      if side.Long? {
        extreme := Max(extreme, price);
        stop := Max(stop, extreme - trailMult * a);
      } else {
        extreme := Min(extreme, price);
        stop := Min(stop, extreme + trailMult * a);
      }
      level := stop;
    }
  }

  /** Either kind of ladder, as a position holds it. */
  datatype RatchetRef = PercentRef(percent: PercentRatchet) | AtrRef(atr: AtrRatchet)
  {
    function Object(): object {
      match this
      case PercentRef(p) => p
      case AtrRef(a) => a
    }

    function View(): Ratchet
      reads Object()
    {
      match this
      case PercentRef(p) => p.View()
      case AtrRef(a) => a.View()
    }

    method Update(price: real, atr: Option<real>) returns (level: real)
      modifies Object()
      ensures View() == Updated(old(View()), price, atr)
      ensures level == View().stop
    {
      match this
      case PercentRef(p) => level := p.Update(price);
      case AtrRef(a) => level := a.Update(price, atr);
    }
  }

  /** Builds the ladder a strategy's parameters call for; None for the ValueError
      an ATR ladder without an ATR raises. */
  method BuildRatchet(params: RatchetParams, entry: real, side: Side, atr: Option<real>)
    returns (r: Option<RatchetRef>)
    ensures r.Some? <==> Build(params, entry, side, atr).Some?
    ensures r.Some? ==> fresh(r.value.Object()) && r.value.View() == Build(params, entry, side, atr).value
  {
    match params
    case AtrParams(initial, trail) =>
      if atr.None? {
        return None;
      }
      var a := new AtrRatchet(entry, side, initial, OrElse(trail, initial), atr.value);
      r := Some(AtrRef(a));
    case PercentParams(initial, lock, profit, step) =>
      var p := new PercentRatchet(entry, side, initial, lock, profit, step);
      r := Some(PercentRef(p));
  }

  /** A ladder object standing at a given value: constructed from its parameters,
      then given its high-water mark and stop. */
  method FromValue(r: Ratchet) returns (ref: RatchetRef)
    ensures fresh(ref.Object()) && ref.View() == r
  {
    match r.rule
    case AtrRule(initial, trail, atr) =>
      var a := new AtrRatchet(r.entry, r.side, initial, trail, atr);
      a.extreme, a.stop := r.extreme, r.stop;
      ref := AtrRef(a);
    case PercentRule(initial, lock, profit, step) =>
      var p := new PercentRatchet(r.entry, r.side, initial, lock, profit, step);
      p.extreme, p.stop := r.extreme, r.stop;
      ref := PercentRef(p);
  }
}
