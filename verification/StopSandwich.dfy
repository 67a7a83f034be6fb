/** The resting stop always sits between what the bot believes it placed and
    what its ladder asks for, whatever calls are lost on the way. */
module StopSandwich {
  import opened Common
  import opened Rounding
  import opened Ratchets
  import opened Brokers
  import opened OrderHistory
  import opened OrderManagers

  /** The client id the position's stop order carries: its own for a plain stop,
      a leg's for an OCO. Replacing an order keeps its client id. */
  function StopCoid(p: Pos): Coid {
    Coid(p.symbol, p.strategy, p.openTag, if p.takeProfit.Some? then StopLeg else ProtectOrder)
  }

  /** Order `i` is a working order with client id `coid`. */
  predicate Rests(orders: seq<Order>, coid: Coid, i: int) {
    0 <= i < |orders| && orders[i].coid == coid && IsWorking(orders[i].status)
  }

  ghost predicate SomeRests(orders: seq<Order>, coid: Coid) {
    exists i :: Rests(orders, coid, i)
  }

  predicate Between(side: Side, low: real, x: real, high: real) {
    AtLeastAsTight(side, x, low) && AtLeastAsTight(side, high, x)
  }

  /** A stop for the whole filled quantity, on the right symbol and side. */
  predicate Covers(o: Order, p: Pos) {
    o.kind.StopOrder? && o.symbol == p.symbol && o.side == p.side && o.qty == p.filledQty
  }

  /** Believed stop, resting stop and ladder stop, in that order of tightness, and
      at most one stop resting, for exactly the quantity filled. An order the bot
      still knows by id rests exactly at the believed stop. */
  ghost predicate Sandwiched(orders: seq<Order>, p: Pos) {
    && p.ratchet.side == p.side
    && AtLeastAsTight(p.side, p.ratchet.stop, p.currentStop)
    && p.stopOrderId.Some? && p.stopOrderId.value < |orders|
    && orders[p.stopOrderId.value].coid == StopCoid(p)
    && (IsWorking(orders[p.stopOrderId.value].status) ==>
          orders[p.stopOrderId.value].price == Cents(p.currentStop))
    && (forall i :: Rests(orders, StopCoid(p), i) ==>
          Covers(orders[i], p) && Between(p.side, Cents(p.currentStop), orders[i].price, Cents(p.ratchet.stop)))
    && (forall i, j :: Rests(orders, StopCoid(p), i) && Rests(orders, StopCoid(p), j) ==> i == j)
  }

  /** Nothing the position relies on moved away from profit. */
  ghost predicate NeverLoosened(before: seq<Order>, p: Pos, after: seq<Order>, q: Pos) {
    && AtLeastAsTight(p.side, q.currentStop, p.currentStop)
    && AtLeastAsTight(p.side, q.ratchet.stop, p.ratchet.stop)
    && (forall j :: Rests(after, StopCoid(p), j) ==> SomeRests(before, StopCoid(p)))
    && forall i, j :: Rests(before, StopCoid(p), i) && Rests(after, StopCoid(p), j) ==>
         AtLeastAsTight(p.side, after[j].price, before[i].price)
  }

  // ----- what others do to orders -----

  /** Whatever the market does, and whatever the bot does for other symbols. */
  lemma OthersKeepSandwich(a: seq<Order>, b: seq<Order>, p: Pos)
    requires LeavesAlone(a, b, p.symbol) && Sandwiched(a, p)
    ensures Sandwiched(b, p) && NeverLoosened(a, p, b, p)
  {
    assert b[p.stopOrderId.value].coid == StopCoid(p);
    forall i | Rests(b, StopCoid(p), i) ensures Rests(a, StopCoid(p), i) && SameTerms(a[i], b[i]) {
      assert i < |a|;
      assert b[i].coid == a[i].coid;
    }
  }

  lemma EvolvedKeepsSandwich(a: seq<Order>, b: seq<Order>, p: Pos)
    requires Evolved(a, b) && Sandwiched(a, p)
    ensures Sandwiched(b, p) && NeverLoosened(a, p, b, p)
  {
    EvolvedLeavesAlone(a, b, p.symbol);
    OthersKeepSandwich(a, b, p);
  }

  // ----- one replace, whatever its fate -----

  /** The position as it would stand had the replace to `level` been confirmed. */
  function Confirmed(p: Pos, level: real, id: OrderId): Pos {
    p.(currentStop := level, stopOrderId := Some(id))
  }

  lemma ReplaceKeepsSandwich(e: Env, p: Pos, level: real)
    requires Sandwiched(e.orders, p) && Between(p.side, p.currentStop, level, p.ratchet.stop)
    ensures var c := Exec(e, ReplaceStop(p.stopOrderId.value, level));
      && Sandwiched(c.env.orders, p)
      && NeverLoosened(e.orders, p, c.env.orders, p)
      && (c.result.Ok? ==>
            && c.result.reply.id < |c.env.orders|
            && Sandwiched(c.env.orders, Confirmed(p, level, c.result.reply.id)))
  {
    var k := p.stopOrderId.value;
    var call := ReplaceStop(k, level);
    ArriveEvolves(e, call);
    var here := Noted(Arrive(e), call);
    EvolvedKeepsSandwich(e.orders, here.orders, p);
    var after := Effect(here, call, true).env.orders;
    if IsWorking(here.orders[k].status) {
      ReplacedKeepsSandwich(here.orders, after, p, level);
      NeverLoosenedChain(e.orders, p, here.orders, p, after, p);
    }
  }

  lemma NeverLoosenedChain(a: seq<Order>, p: Pos, b: seq<Order>, q: Pos, c: seq<Order>, r: Pos)
    requires StopCoid(q) == StopCoid(p) && q.side == p.side
    requires NeverLoosened(a, p, b, q) && NeverLoosened(b, q, c, r)
    ensures NeverLoosened(a, p, c, r)
  {
    forall i, j | Rests(a, StopCoid(p), i) && Rests(c, StopCoid(p), j)
      ensures AtLeastAsTight(p.side, c[j].price, a[i].price)
    {
      assert SomeRests(b, StopCoid(p));
      var m :| Rests(b, StopCoid(p), m);
    }
    forall j | Rests(c, StopCoid(p), j) ensures SomeRests(a, StopCoid(p)) {
      assert SomeRests(b, StopCoid(p));
      var m :| Rests(b, StopCoid(p), m);
    }
  }

  lemma ReplacedKeepsSandwich(before: seq<Order>, after: seq<Order>, p: Pos, level: real)
    requires Sandwiched(before, p) && Between(p.side, p.currentStop, level, p.ratchet.stop)
    requires var k := p.stopOrderId.value;
      && IsWorking(before[k].status)
      && after == before[k := before[k].(status := Replaced)]
               + [before[k].(price := Cents(level), expiresInDays := Some(90))]
    ensures Rests(before, StopCoid(p), p.stopOrderId.value)
    ensures Sandwiched(after, p) && NeverLoosened(before, p, after, p)
    ensures Sandwiched(after, Confirmed(p, level, |before|))
  {
    var k, n, coid := p.stopOrderId.value, |before|, StopCoid(p);
    assert Rests(before, coid, k);
    forall i | Rests(after, coid, i) ensures i == n {
      assert i < n ==> Rests(before, coid, i);
    }
    if p.side.Long? {
      CentsMono(p.currentStop, level);
      CentsMono(level, p.ratchet.stop);
    } else {
      CentsMono(level, p.currentStop);
      CentsMono(p.ratchet.stop, level);
    }
  }

  // ----- a refresh, with its retries -----

  lemma {:induction false} RetryReplaceKeepsSandwich(e: Env, p: Pos, attempts: nat)
    requires attempts >= 1 && Sandwiched(e.orders, p)
    ensures var c := Retry(e, ReplaceStop(p.stopOrderId.value, p.currentStop), attempts);
      && NeverLoosened(e.orders, p, c.env.orders, p)
      && Sandwiched(c.env.orders, p)
      && (c.result.Ok? ==>
            && c.result.reply.id < |c.env.orders|
            && Sandwiched(c.env.orders, Confirmed(p, p.currentStop, c.result.reply.id)))
    decreases attempts
  {
    ReplaceKeepsSandwich(e, p, p.currentStop);
    var first := Exec(e, ReplaceStop(p.stopOrderId.value, p.currentStop));
    if !(first.result.Ok? || !first.result.transient || attempts == 1) {
      RetryReplaceKeepsSandwich(first.env, p, attempts - 1);
      NeverLoosenedChain(e.orders, p, first.env.orders, p,
                         Retry(e, ReplaceStop(p.stopOrderId.value, p.currentStop), attempts).env.orders, p);
    }
  }

  // ----- every operation, and every run of them -----

  /** What cycles do to an open position's stop. */
  datatype StopOp =
    | Raise(price: real, atr: Option<real>)
    | Trail(price: real, atr: Option<real>)
    | Refresh(minDaysRemaining: int)
    | Recheck

  function ApplyOp(e: Env, p: Pos, op: StopOp): Done {
    match op
    case Raise(price, atr) => RaiseStop(e, p, price, atr)
    case Trail(price, atr) => Done(e, ShadowTrail(p, price, atr), Returned(true))
    case Refresh(minDays) => RefreshStaleStop(e, p, minDays)
    case Recheck => RecheckPartialFill(e, p)
  }

  lemma RaiseKeepsSandwich(e: Env, p: Pos, price: real, atr: Option<real>)
    requires Sandwiched(e.orders, p)
    ensures var d := RaiseStop(e, p, price, atr);
      Sandwiched(d.env.orders, d.pos) && NeverLoosened(e.orders, p, d.env.orders, d.pos)
  {
    var q := ShadowTrail(p, price, atr);
    TrailKeepsSandwich(e.orders, p, price, atr);
    if MoreProtective(q.side, q.ratchet.stop, q.currentStop) {
      ReplaceKeepsSandwich(e, q, q.ratchet.stop);
      var c := Exec(e, ReplaceStop(q.stopOrderId.value, q.ratchet.stop));
      NeverLoosenedChain(e.orders, p, e.orders, q, c.env.orders, q);
    }
  }

  lemma TrailKeepsSandwich(orders: seq<Order>, p: Pos, price: real, atr: Option<real>)
    requires Sandwiched(orders, p)
    ensures Sandwiched(orders, ShadowTrail(p, price, atr))
    ensures NeverLoosened(orders, p, orders, ShadowTrail(p, price, atr))
  {
    UpdateNeverLoosens(p.ratchet, price, atr);
    var stop := Updated(p.ratchet, price, atr).stop;
    if p.side.Long? { CentsMono(p.ratchet.stop, stop); } else { CentsMono(stop, p.ratchet.stop); }
  }

  lemma RefreshKeepsSandwich(e: Env, p: Pos, minDays: int)
    requires Sandwiched(e.orders, p)
    ensures var d := RefreshStaleStop(e, p, minDays);
      Sandwiched(d.env.orders, d.pos) && NeverLoosened(e.orders, p, d.env.orders, d.pos)
  {
    var k := p.stopOrderId.value;
    RetryGetOrderEvolves(e, k, ATTEMPTS);
    var c := Retry(e, GetOrder(k), ATTEMPTS);
    EvolvedKeepsSandwich(e.orders, c.env.orders, p);
    RetryReplaceKeepsSandwich(c.env, p, ATTEMPTS);
    NeverLoosenedChain(e.orders, p, c.env.orders, p, Retry(c.env, ReplaceStop(k, p.currentStop), ATTEMPTS).env.orders, p);
  }

  lemma OpKeepsSandwich(e: Env, p: Pos, op: StopOp)
    requires Sandwiched(e.orders, p)
    ensures var d := ApplyOp(e, p, op);
      && Sandwiched(d.env.orders, d.pos) && NeverLoosened(e.orders, p, d.env.orders, d.pos)
      && StopCoid(d.pos) == StopCoid(p) && d.pos.side == p.side
  {
    match op
    case Raise(price, atr) => RaiseKeepsSandwich(e, p, price, atr);
    case Trail(price, atr) => TrailKeepsSandwich(e.orders, p, price, atr);
    case Refresh(minDays) => RefreshKeepsSandwich(e, p, minDays);
    case Recheck =>
      RetryGetOrderEvolves(e, p.entryOrderId, ATTEMPTS);
      EvolvedKeepsSandwich(e.orders, RecheckPartialFill(e, p).env.orders, p);
  }

  function RunOps(e: Env, p: Pos, ops: seq<StopOp>): Done
    decreases |ops|
  {
    if ops == [] then Done(e, p, Returned(true))
    else
      var d := ApplyOp(e, p, ops[0]);
      RunOps(d.env, d.pos, ops[1..])
  }

  /** Over any run of raises, shadow cycles, refreshes and rechecks, against any
      script of lost calls and market events, the resting stop stays sandwiched
      and none of the three levels ever moves away from profit. */
  lemma {:induction false} RunsKeepSandwich(e: Env, p: Pos, ops: seq<StopOp>)
    requires Sandwiched(e.orders, p)
    ensures var d := RunOps(e, p, ops);
      Sandwiched(d.env.orders, d.pos) && NeverLoosened(e.orders, p, d.env.orders, d.pos)
    decreases |ops|
  {
    if ops != [] {
      OpKeepsSandwich(e, p, ops[0]);
      var d := ApplyOp(e, p, ops[0]);
      RunsKeepSandwich(d.env, d.pos, ops[1..]);
      var f := RunOps(e, p, ops);
      NeverLoosenedChain(e.orders, p, d.env.orders, d.pos, f.env.orders, f.pos);
    }
  }

  /** What a run of operations feeds a ladder: the price of each raise and each shadow
      trail, in order, and nothing else. */
  function FedBy(r: Ratchet, ops: seq<StopOp>): Ratchet
    decreases |ops|
  {
    if ops == [] then r
    else
      match ops[0]
      case Raise(price, atr) => FedBy(Updated(r, price, atr), ops[1..])
      case Trail(price, atr) => FedBy(Updated(r, price, atr), ops[1..])
      case _ => FedBy(r, ops[1..])
  }

  /** The ladder follows the prices whatever happens to the calls: a lost replace, a
      refresh or a recheck leaves no trace on it. */
  lemma {:induction false} RunsFeedLadder(e: Env, p: Pos, ops: seq<StopOp>)
    requires p.stopOrderId.Some?
    ensures RunOps(e, p, ops).pos.ratchet == FedBy(p.ratchet, ops)
    decreases |ops|
  {
    hide Exec, Retry, Updated;
    if ops != [] {
      var d := ApplyOp(e, p, ops[0]);
      RunsFeedLadder(d.env, d.pos, ops[1..]);
    }
  }

  /** After any normal return of a raise, moved or not, believed stop and ladder
      stop agree and a resting stop sits exactly there. */
  lemma RaiseReturnsInAgreement(e: Env, p: Pos, price: real, atr: Option<real>)
    requires Sandwiched(e.orders, p)
    requires RaiseStop(e, p, price, atr).outcome.Returned?
    ensures var d := RaiseStop(e, p, price, atr);
      && d.pos.currentStop == d.pos.ratchet.stop
      && (forall i :: Rests(d.env.orders, StopCoid(p), i) ==> d.env.orders[i].price == Cents(d.pos.currentStop))
      && (d.outcome.answer ==> Rests(d.env.orders, StopCoid(p), d.pos.stopOrderId.value))
  {
    RaiseKeepsSandwich(e, p, price, atr);
    UpdateNeverLoosens(p.ratchet, price, atr);
    if RaiseStop(e, p, price, atr).outcome.answer {
      ReplacementRests(e, ReplaceStop(p.stopOrderId.value, Updated(p.ratchet, price, atr).stop));
    }
  }

  lemma ReplacementRests(e: Env, call: Call)
    requires call.ReplaceStop? && Exec(e, call).result.Ok?
    ensures var c := Exec(e, call);
      c.result.reply.id < |c.env.orders| && IsWorking(c.env.orders[c.result.reply.id].status)
  {
  }

  // ----- where the sandwich comes from -----

  /** A just-filled position whose protective client ids are unused and whose
      ladder is where its believed stop is. */
  ghost predicate ReadyToProtect(orders: seq<Order>, p: Pos) {
    && Unseen(orders, ProtectCoid(p)) && Unseen(orders, StopCoid(p))
    && p.ratchet.side == p.side && p.currentStop == p.ratchet.stop
  }

  function ProtectCall(p: Pos): Call {
    if p.takeProfit.Some?
    then SubmitOcoExit(p.symbol, p.filledQty, p.side, p.currentStop, p.takeProfit.value, ProtectCoid(p))
    else SubmitStop(p.symbol, p.filledQty, p.side, p.currentStop, ProtectCoid(p))
  }

  function ProtectId(p: Pos, reply: Reply): Option<OrderId>
    requires Fits(ProtectCall(p), reply)
  {
    if p.takeProfit.Some? then LegOfType(reply.legs, StopOrder) else Some(reply.id)
  }

  /** A used protective client id is rejected on every try. */
  lemma {:induction false} RetryProtectRejected(e: Env, p: Pos, attempts: nat)
    requires attempts >= 1 && CoidUsed(e.orders, ProtectCoid(p))
    ensures Retry(e, ProtectCall(p), attempts).result.Err?
    decreases attempts
  {
    ArriveEvolves(e, ProtectCall(p));
    var here := Noted(Arrive(e), ProtectCall(p));
    var i :| 0 <= i < |e.orders| && e.orders[i].coid == ProtectCoid(p);
    assert here.orders[i].coid == ProtectCoid(p);
    if attempts > 1 {
      assert Exec(e, ProtectCall(p)).env.orders == here.orders;
      RetryProtectRejected(Exec(e, ProtectCall(p)).env, p, attempts - 1);
    }
  }

  lemma PlacedIsSandwiched(here: Env, p: Pos, withLegs: bool)
    requires ReadyToProtect(here.orders, p)
    ensures var c := Effect(here, ProtectCall(p), withLegs);
      && CoidUsed(c.env.orders, ProtectCoid(p))
      && c.result.Ok?
      && (ProtectId(p, c.result.reply).Some? ==>
            Sandwiched(c.env.orders, p.(stopOrderId := ProtectId(p, c.result.reply))))
  {
    var c, n := Effect(here, ProtectCall(p), withLegs), |here.orders|;
    if p.takeProfit.Some? {
      assert c.env.orders[n + 2].coid == ProtectCoid(p);
      if withLegs {
        var legs := [(n, StopOrder), (n + 1, LimitOrder)];
        assert legs[..1] == [(n, StopOrder)];
        assert LegOfType(legs, StopOrder) == LegOfType(legs[..1], StopOrder) == Some(n);
      }
    } else {
      assert c.env.orders[n].coid == ProtectCoid(p);
    }
    forall i | Rests(c.env.orders, StopCoid(p), i) ensures i == n {
    }
  }

  lemma {:induction false} RetryProtectSandwiches(e: Env, p: Pos, attempts: nat)
    requires attempts >= 1 && ReadyToProtect(e.orders, p)
    requires Retry(e, ProtectCall(p), attempts).result.Ok?
    ensures var c := Retry(e, ProtectCall(p), attempts);
      ProtectId(p, c.result.reply).Some? ==>
        Sandwiched(c.env.orders, p.(stopOrderId := ProtectId(p, c.result.reply)))
    decreases attempts
  {
    hide Effect, Sandwiched, ReadyToProtect;
    StaysReady(e, p);
    var here := Noted(Arrive(e), ProtectCall(p));
    PlacedIsSandwiched(here, p, true);
    PlacedIsSandwiched(here, p, false);
    var first := Exec(e, ProtectCall(p));
    if first.result.Err? {
      if NextStep(e).fate.LostAfter? {
        RetryProtectRejected(first.env, p, attempts - 1);
      } else {
        RetryProtectSandwiches(first.env, p, attempts - 1);
      }
    }
  }

  lemma StaysReady(e: Env, p: Pos)
    requires ReadyToProtect(e.orders, p)
    ensures ReadyToProtect(Noted(Arrive(e), ProtectCall(p)).orders, p)
  {
    ArriveEvolves(e, ProtectCall(p));
    var here := Noted(Arrive(e), ProtectCall(p));
    forall i | 0 <= i < |here.orders| ensures here.orders[i].coid != ProtectCoid(p) && here.orders[i].coid != StopCoid(p) {
    }
  }

  /** Attaching protection to a fresh fill, whenever it returns, leaves the new
      stop sandwiched: the starting point of every run above. */
  lemma AttachStartsSandwich(e: Env, p: Pos)
    requires ReadyToProtect(e.orders, p) && AttachProtection(e, p).outcome.Returned?
    ensures Sandwiched(AttachProtection(e, p).env.orders, AttachProtection(e, p).pos)
  {
    RetryProtectSandwiches(e, p, ATTEMPTS);
  }

  lemma EvolvedStaysReady(a: seq<Order>, b: seq<Order>, p: Pos)
    requires Evolved(a, b) && ReadyToProtect(a, p)
    ensures ReadyToProtect(b, p)
  {
    forall i | 0 <= i < |b| ensures b[i].coid != ProtectCoid(p) && b[i].coid != StopCoid(p) {
      assert i < |a| ==> SameTerms(a[i], b[i]);
    }
  }

  /** Settling a pending entry that returns with any fill leaves it OPEN with its
      stop resting for exactly the quantity filled, sandwiched from the start. */
  lemma SettleStartsSandwich(e: Env, p: Pos)
    requires ReadyToProtect(e.orders, p) && p.stopOrderId.None?
    requires Settle(e, p).outcome.Returned? && Settle(e, p).pos.filledQty > 0.0
    ensures var d := Settle(e, p);
      d.pos.status.Open? && Sandwiched(d.env.orders, d.pos)
  {
    hide AttachProtection, Sandwiched;
    RetryGetOrderEvolves(e, p.entryOrderId, ATTEMPTS);
    var c := Retry(e, GetOrder(p.entryOrderId), ATTEMPTS);
    EvolvedStaysReady(e.orders, c.env.orders, p);
    var o := c.result.reply.order;
    var q := p.(filledQty := o.filledQty, lastOrderStatus := Some(o.status));
    ReadyWhateverTheFill(c.env.orders, p, q);
    AttachStartsSandwich(c.env, q);
    StatusApart(AttachProtection(c.env, q).env.orders, AttachProtection(c.env, q).pos);
  }

  lemma ReadyWhateverTheFill(orders: seq<Order>, p: Pos, q: Pos)
    requires ReadyToProtect(orders, p) && q == p.(filledQty := q.filledQty, lastOrderStatus := q.lastOrderStatus)
    ensures ReadyToProtect(orders, q)
  {
  }

  lemma StatusApart(orders: seq<Order>, p: Pos)
    requires Sandwiched(orders, p)
    ensures Sandwiched(orders, p.(status := PositionStatus.Open))
  {
  }

  // ----- what protection is placed -----

  /** Order `id` exits the whole fill of `p` at `price`. */
  predicate ExitsAt(orders: seq<Order>, id: OrderId, p: Pos, kind: OrderType, price: real) {
    && id < |orders|
    && orders[id].kind == kind && orders[id].symbol == p.symbol && orders[id].side == p.side
    && orders[id].qty == p.filledQty && orders[id].price == Cents(price) && IsWorking(orders[id].status)
  }

  /** A stop at the believed level and, with a target, a limit order at the target. */
  predicate Bracketed(orders: seq<Order>, p: Pos) {
    && p.stopOrderId.Some? && ExitsAt(orders, p.stopOrderId.value, p, StopOrder, p.currentStop)
    && (p.takeProfit.Some? <==> p.tpOrderId.Some?)
    && (p.takeProfit.Some? ==> ExitsAt(orders, p.tpOrderId.value, p, LimitOrder, p.takeProfit.value))
  }

  predicate RepliesWithBracket(orders: seq<Order>, p: Pos, reply: Reply)
    requires Fits(ProtectCall(p), reply)
  {
    if p.takeProfit.None? then ExitsAt(orders, reply.id, p, StopOrder, p.currentStop)
    else if reply.legs == [] then true
    else
      && |reply.legs| == 2 && reply.legs[0].1 == StopOrder && reply.legs[1].1 == LimitOrder
      && ExitsAt(orders, reply.legs[0].0, p, StopOrder, p.currentStop)
      && ExitsAt(orders, reply.legs[1].0, p, LimitOrder, p.takeProfit.value)
  }

  lemma {:induction false} RetryBrackets(e: Env, p: Pos, attempts: nat)
    requires attempts >= 1 && Retry(e, ProtectCall(p), attempts).result.Ok?
    ensures var c := Retry(e, ProtectCall(p), attempts); RepliesWithBracket(c.env.orders, p, c.result.reply)
    decreases attempts
  {
    hide Arrive, Cents;
    if Exec(e, ProtectCall(p)).result.Err? {
      RetryBrackets(Exec(e, ProtectCall(p)).env, p, attempts - 1);
    }
  }

  /** Protection that returns rests as asked: stop and target, each for the whole fill. */
  lemma AttachBrackets(e: Env, p: Pos)
    requires AttachProtection(e, p).outcome.Returned?
    ensures Bracketed(AttachProtection(e, p).env.orders, AttachProtection(e, p).pos)
  {
    hide Retry;
    RetryBrackets(e, p, ATTEMPTS);
    if p.takeProfit.Some? {
      var legs := Retry(e, ProtectCall(p), ATTEMPTS).result.reply.legs;
      TwoLegs(legs);
    }
  }

  lemma TwoLegs(legs: seq<(OrderId, OrderType)>)
    ensures legs == [] ==> LegOfType(legs, StopOrder).None?
    ensures |legs| == 2 && legs[0].1 == StopOrder && legs[1].1 == LimitOrder ==>
      LegOfType(legs, StopOrder) == Some(legs[0].0) && LegOfType(legs, LimitOrder) == Some(legs[1].0)
  {
    if |legs| == 2 {
      assert legs[..1][0] == legs[0];
    }
  }

  /** So a pending entry that settles with a fill is bracketed for just that fill. */
  lemma SettleBrackets(e: Env, p: Pos)
    requires p.stopOrderId.None? && Settle(e, p).outcome.Returned? && Settle(e, p).pos.filledQty > 0.0
    ensures Bracketed(Settle(e, p).env.orders, Settle(e, p).pos)
  {
    hide Retry, AttachProtection, ExitsAt;
    var c := Retry(e, GetOrder(p.entryOrderId), ATTEMPTS);
    var o := c.result.reply.order;
    var q := p.(filledQty := o.filledQty, lastOrderStatus := Some(o.status));
    AttachBrackets(c.env, q);
    StatusDoesNotMatter(AttachProtection(c.env, q).env.orders, AttachProtection(c.env, q).pos);
  }

  lemma StatusDoesNotMatter(orders: seq<Order>, p: Pos)
    requires Bracketed(orders, p)
    ensures Bracketed(orders, p.(status := PositionStatus.Open))
  {
  }
}
