/** The order manager: one position's life at the broker.

    The functions give each operation's effect on the broker and the position as
    values; the methods of `OrderManager` perform it in place on a
    `ManagedPosition` and are proved to have exactly that effect. */
module OrderManagers {
  import opened Common
  import opened Ratchets
  import opened Brokers

  datatype PositionStatus = PendingEntry | Open | PendingExit | Closed

  datatype Pos = Pos(
    symbol: Symbol, side: Side, qty: real, strategy: string,
    entryOrderId: OrderId, stopOrderId: Option<OrderId>,
    currentStop: real, ratchet: Ratchet, status: PositionStatus, filledQty: real,
    tpOrderId: Option<OrderId>, takeProfit: Option<real>,
    lastOrderStatus: Option<OrderStatus>, openTag: string)

  /** How an operation ended: normally, with its answer, or by raising. */
  datatype Outcome = Returned(answer: bool) | Raised(transient: bool)

  datatype Done = Done(env: Env, pos: Pos, outcome: Outcome)

  datatype Opened = Opened(env: Env, pos: Option<Pos>, transient: bool)

  /** A pending entry the broker killed before any of it filled. */
  predicate IsDeadEntry(p: Pos) {
    p.status.Closed? && p.filledQty == 0.0 && p.lastOrderStatus.Some? && IsDead(p.lastOrderStatus.value)
  }

  /** What an operation on an approved entry needs to know. */
  datatype EntryPlan = EntryPlan(symbol: Symbol, side: Side, qty: real, strategy: string,
                                 ratchet: Ratchet, takeProfit: Option<real>, tag: string)

  function EntryCoid(plan: EntryPlan): Coid { Coid(plan.symbol, plan.strategy, plan.tag, EntryOrder) }

  function ProtectCoid(p: Pos): Coid { Coid(p.symbol, p.strategy, p.openTag, ProtectOrder) }

  function NewPosition(plan: EntryPlan, entryId: OrderId): Pos {
    Pos(plan.symbol, plan.side, plan.qty, plan.strategy, entryId, None, plan.ratchet.stop, plan.ratchet,
        PendingEntry, 0.0, None, plan.takeProfit, None, plan.tag)
  }

  /** Submits the entry alone, once: a lost response is never retried. */
  function OpenPosition(e: Env, plan: EntryPlan): Opened {
    if plan.qty <= 0.0 then Opened(e, None, false) else
    var c := Exec(e, SubmitMarketEntry(plan.symbol, plan.qty, plan.side, EntryCoid(plan)));
    match c.result
    case Err(transient) => Opened(c.env, None, transient)
    case Ok(reply) => Opened(c.env, Some(NewPosition(plan, reply.id)), false)
  }

  /** The last leg of each kind, as the scan over an OCO's legs leaves it. */
  function LegOfType(legs: seq<(OrderId, OrderType)>, kind: OrderType): Option<OrderId> {
    if legs == [] then None
    else
      var last := legs[|legs| - 1];
      if last.1 == kind then Some(last.0) else LegOfType(legs[..|legs| - 1], kind)
  }

  function AttachProtection(e: Env, p: Pos): Done {
    if p.takeProfit.Some? then
      var c := Retry(e, SubmitOcoExit(p.symbol, p.filledQty, p.side, p.currentStop, p.takeProfit.value, ProtectCoid(p)), ATTEMPTS);
      match c.result
      case Err(transient) => Done(c.env, p, Raised(transient))
      case Ok(reply) =>
        var stop := LegOfType(reply.legs, StopOrder);
        if stop.None? then Done(c.env, p, Raised(false))
        else Done(c.env, p.(stopOrderId := stop, tpOrderId := LegOfType(reply.legs, LimitOrder)), Returned(true))
    else
      var c := Retry(e, SubmitStop(p.symbol, p.filledQty, p.side, p.currentStop, ProtectCoid(p)), ATTEMPTS);
      match c.result
      case Err(transient) => Done(c.env, p, Raised(transient))
      case Ok(reply) => Done(c.env, p.(stopOrderId := Some(reply.id), tpOrderId := None), Returned(true))
  }

  function Settle(e: Env, p: Pos): Done {
    var c := Retry(e, GetOrder(p.entryOrderId), ATTEMPTS);
    match c.result
    case Err(transient) => Done(c.env, p, Raised(transient))
    case Ok(reply) =>
      var q := p.(filledQty := reply.order.filledQty, lastOrderStatus := Some(reply.order.status));
      if q.filledQty > 0.0 then
        if q.stopOrderId.None? then
          var d := AttachProtection(c.env, q);
          if d.outcome.Raised? then d else d.(pos := d.pos.(status := Open))
        else Done(c.env, q.(status := Open), Returned(true))
      else if IsDead(reply.order.status) then Done(c.env, q.(status := Closed), Returned(true))
      else Done(c.env, q, Returned(true))
  }

  function RecheckPartialFill(e: Env, p: Pos): Done {
    var c := Retry(e, GetOrder(p.entryOrderId), ATTEMPTS);
    match c.result
    case Err(transient) => Done(c.env, p, Raised(transient))
    case Ok(reply) =>
      if reply.order.filledQty > p.filledQty then Done(c.env, p, Raised(false))
      else Done(c.env, p.(lastOrderStatus := Some(reply.order.status)), Returned(true))
  }

  predicate MoreProtective(side: Side, a: real, b: real) { if side.Long? then a > b else a < b }

  /** Feeds the price to the ladder and, if that tightens the stop, replaces the
      resting order, once. */
  function RaiseStop(e: Env, p: Pos, price: real, atr: Option<real>): Done {
    if p.stopOrderId.None? then Done(e, p, Raised(false)) else
    var q := p.(ratchet := Updated(p.ratchet, price, atr));
    var newStop := q.ratchet.stop;
    if !MoreProtective(q.side, newStop, q.currentStop) then Done(e, q, Returned(false)) else
    var c := Exec(e, ReplaceStop(q.stopOrderId.value, newStop));
    match c.result
    case Err(transient) => Done(c.env, q, Raised(transient))
    case Ok(reply) => Done(c.env, q.(stopOrderId := Some(reply.id), currentStop := newStop), Returned(true))
  }

  /** A shadow cycle trails the ladder but leaves the resting order alone. */
  function ShadowTrail(p: Pos, price: real, atr: Option<real>): Pos {
    p.(ratchet := Updated(p.ratchet, price, atr))
  }

  /** Re-places an ageing stop at its own level to reset the broker's clock. */
  function RefreshStaleStop(e: Env, p: Pos, minDaysRemaining: int): Done {
    if p.stopOrderId.None? then Done(e, p, Returned(false)) else
    var c := Retry(e, GetOrder(p.stopOrderId.value), ATTEMPTS);
    match c.result
    case Err(transient) => Done(c.env, p, Raised(transient))
    case Ok(reply) =>
      var days := reply.order.expiresInDays;
      if days.None? || days.value > minDaysRemaining then Done(c.env, p, Returned(false)) else
      var u := Retry(c.env, ReplaceStop(p.stopOrderId.value, p.currentStop), ATTEMPTS);
      match u.result
      case Err(transient) => Done(u.env, p, Raised(transient))
      case Ok(updated) => Done(u.env, p.(stopOrderId := Some(updated.id)), Returned(true))
  }

  function Close(e: Env, p: Pos): Done {
    var c := Exec(e, ClosePosition(p.symbol));
    match c.result
    case Err(transient) => Done(c.env, p, Raised(transient))
    case Ok(_) => Done(c.env, p.(status := Closed), Returned(true))
  }

  // ----- no position is OPEN without a stop id -----

  predicate Protected(p: Pos) { p.status.Open? ==> p.stopOrderId.Some? }

  /** Settling marks a position OPEN only with a stop id in hand, and leaves the
      status alone when it raises. */
  lemma SettleProtects(e: Env, p: Pos)
    requires Protected(p)
    ensures var d := Settle(e, p);
      && Protected(d.pos) && d.pos.symbol == p.symbol
      && (d.outcome.Raised? ==> d.pos.status == p.status)
      && (d.outcome.Returned? && d.pos.filledQty > 0.0 ==> d.pos.status.Open? && d.pos.stopOrderId.Some?)
  {
  }

  lemma StopOpsProtect(e: Env, p: Pos, price: real, atr: Option<real>, minDays: int)
    requires Protected(p)
    ensures Protected(RaiseStop(e, p, price, atr).pos) && RaiseStop(e, p, price, atr).pos.symbol == p.symbol
    ensures Protected(RefreshStaleStop(e, p, minDays).pos) && RefreshStaleStop(e, p, minDays).pos.symbol == p.symbol
    ensures Protected(RecheckPartialFill(e, p).pos) && RecheckPartialFill(e, p).pos.symbol == p.symbol
    ensures Protected(Close(e, p).pos) && Close(e, p).pos.symbol == p.symbol
  {
  }

  // ----- what settling believes is what the broker said -----

  lemma {:induction false} RetryReads(e: Env, id: OrderId, attempts: nat)
    requires attempts >= 1 && Retry(e, GetOrder(id), attempts).result.Ok?
    ensures var c := Retry(e, GetOrder(id), attempts);
      id < |c.env.orders| && c.result.reply.order == c.env.orders[id]
    decreases attempts
  {
    hide Arrive;
    if Exec(e, GetOrder(id)).result.Err? {
      RetryReads(Exec(e, GetOrder(id)).env, id, attempts - 1);
    }
  }

  /** A settle that returns has recorded the entry order's fill and status as the
      broker held them, and moved on accordingly: OPEN on any fill, CLOSED when the
      order died empty, otherwise still waiting. */
  lemma SettleRecordsFill(e: Env, p: Pos)
    requires Settle(e, p).outcome.Returned?
    ensures var c := Retry(e, GetOrder(p.entryOrderId), ATTEMPTS);
      && p.entryOrderId < |c.env.orders|
      && var entry, q := c.env.orders[p.entryOrderId], Settle(e, p).pos;
         && q.filledQty == entry.filledQty && q.lastOrderStatus == Some(entry.status)
         && (entry.filledQty > 0.0 ==> q.status.Open? && q.stopOrderId.Some?)
         && (entry.filledQty <= 0.0 ==> q.status == (if IsDead(entry.status) then Closed else p.status) && q.stopOrderId == p.stopOrderId)
  {
    RetryReads(e, p.entryOrderId, ATTEMPTS);
  }

  /** A recheck that gets its answer raises if and only if the entry has filled further
      than the position knows. */
  lemma RecheckRaisesIff(e: Env, p: Pos)
    requires Retry(e, GetOrder(p.entryOrderId), ATTEMPTS).result.Ok?
    ensures var d := RecheckPartialFill(e, p);
      && p.entryOrderId < |d.env.orders|
      && (d.outcome.Raised? <==> d.env.orders[p.entryOrderId].filledQty > p.filledQty)
      && (d.outcome.Returned? ==> d.pos == p.(lastOrderStatus := Some(d.env.orders[p.entryOrderId].status)))
  {
    hide Retry;
    RetryReads(e, p.entryOrderId, ATTEMPTS);
  }

  /** A stop that is refreshed, or found not to need it, has more than the asked-for days
      left; and it is only replaced when it had not. */
  lemma RefreshLeavesDays(e: Env, p: Pos, minDays: int)
    requires p.stopOrderId.Some? && minDays < 90 && RefreshStaleStop(e, p, minDays).outcome.Returned?
    ensures var d, read := RefreshStaleStop(e, p, minDays), Retry(e, GetOrder(p.stopOrderId.value), ATTEMPTS).env;
      && DaysLeft(d.env.orders, d.pos.stopOrderId, minDays)
      && (d.outcome.answer <==> !DaysLeft(read.orders, p.stopOrderId, minDays))
      && (!d.outcome.answer ==> d.env == read && d.pos == p)
  {
    hide Retry;
    var k := p.stopOrderId.value;
    RetryReads(e, k, ATTEMPTS);
    if RefreshStaleStop(e, p, minDays).outcome.answer {
      RetryReplaces(Retry(e, GetOrder(k), ATTEMPTS).env, k, p.currentStop, ATTEMPTS);
    }
  }

  /** The order exists, and either never expires or has more than `minDays` to go. */
  predicate DaysLeft(orders: seq<Order>, id: Option<OrderId>, minDays: int) {
    && id.Some? && id.value < |orders|
    && (orders[id.value].expiresInDays.None? || orders[id.value].expiresInDays.value > minDays)
  }

  lemma {:induction false} RetryReplaces(e: Env, id: OrderId, level: real, attempts: nat)
    requires attempts >= 1 && Retry(e, ReplaceStop(id, level), attempts).result.Ok?
    ensures var c := Retry(e, ReplaceStop(id, level), attempts);
      && c.result.reply.id < |c.env.orders| && c.env.orders[c.result.reply.id].expiresInDays == Some(90)
    decreases attempts
  {
    hide Arrive;
    if Exec(e, ReplaceStop(id, level)).result.Err? {
      RetryReplaces(Exec(e, ReplaceStop(id, level)).env, id, level, attempts - 1);
    }
  }

  // ----- only opening a position submits an entry -----

  lemma OpenJournal(e: Env, plan: EntryPlan)
    ensures OpenPosition(e, plan).env.journal
         == e.journal + if plan.qty > 0.0 then [EntrySubmitted(plan.symbol)] else []
  {
    ExecJournal(e, SubmitMarketEntry(plan.symbol, plan.qty, plan.side, EntryCoid(plan)));
  }

  lemma AttachJournal(e: Env, p: Pos)
    ensures AttachProtection(e, p).env.journal == e.journal
  {
    if p.takeProfit.Some? {
      RetryJournal(e, SubmitOcoExit(p.symbol, p.filledQty, p.side, p.currentStop, p.takeProfit.value, ProtectCoid(p)), ATTEMPTS);
    } else {
      RetryJournal(e, SubmitStop(p.symbol, p.filledQty, p.side, p.currentStop, ProtectCoid(p)), ATTEMPTS);
    }
  }

  lemma SettleJournal(e: Env, p: Pos)
    ensures Settle(e, p).env.journal == e.journal
    ensures RecheckPartialFill(e, p).env.journal == e.journal
  {
    RetryJournal(e, GetOrder(p.entryOrderId), ATTEMPTS);
    var c := Retry(e, GetOrder(p.entryOrderId), ATTEMPTS);
    if c.result.Ok? {
      AttachJournal(c.env, p.(filledQty := c.result.reply.order.filledQty,
                              lastOrderStatus := Some(c.result.reply.order.status)));
    }
  }

  lemma RaiseStopJournal(e: Env, p: Pos, price: real, atr: Option<real>)
    ensures RaiseStop(e, p, price, atr).env.journal == e.journal
  {
    if p.stopOrderId.Some? {
      ExecJournal(e, ReplaceStop(p.stopOrderId.value, Updated(p.ratchet, price, atr).stop));
    }
  }

  lemma RefreshJournal(e: Env, p: Pos, minDays: int)
    ensures RefreshStaleStop(e, p, minDays).env.journal == e.journal
  {
    if p.stopOrderId.Some? {
      RetryJournal(e, GetOrder(p.stopOrderId.value), ATTEMPTS);
      RetryJournal(Retry(e, GetOrder(p.stopOrderId.value), ATTEMPTS).env,
                   ReplaceStop(p.stopOrderId.value, p.currentStop), ATTEMPTS);
    }
  }

  lemma CloseJournal(e: Env, p: Pos)
    ensures Close(e, p).env.journal == e.journal
  {
    ExecJournal(e, ClosePosition(p.symbol));
  }

  // ----- the mutable objects -----

  class ManagedPosition {
    const symbol: Symbol
    const side: Side
    const qty: real
    const strategy: string
    const entryOrderId: OrderId
    const takeProfit: Option<real>
    const openTag: string
    const ratchet: RatchetRef
    var stopOrderId: Option<OrderId>
    var currentStop: real
    var status: PositionStatus
    var filledQty: real
    var tpOrderId: Option<OrderId>
    var lastOrderStatus: Option<OrderStatus>

    constructor (plan: EntryPlan, entryId: OrderId, ratchet: RatchetRef)
      requires plan.ratchet == ratchet.View()
      ensures this.ratchet == ratchet && View() == NewPosition(plan, entryId)
    {
      symbol, side, qty, strategy := plan.symbol, plan.side, plan.qty, plan.strategy;
      entryOrderId, takeProfit, openTag := entryId, plan.takeProfit, plan.tag;
      this.ratchet := ratchet;
      stopOrderId, tpOrderId, lastOrderStatus := None, None, None;
      currentStop, status, filledQty := ratchet.View().stop, PendingEntry, 0.0;
    }

    /** A position rebuilt from a saved record, around its rebuilt ladder. */
    constructor Restored(saved: Pos, ratchet: RatchetRef)
      requires ratchet.View() == saved.ratchet
      ensures this.ratchet == ratchet && View() == saved
    {
      symbol, side, qty, strategy := saved.symbol, saved.side, saved.qty, saved.strategy;
      entryOrderId, takeProfit, openTag := saved.entryOrderId, saved.takeProfit, saved.openTag;
      this.ratchet := ratchet;
      stopOrderId, tpOrderId, lastOrderStatus := saved.stopOrderId, saved.tpOrderId, saved.lastOrderStatus;
      currentStop, status, filledQty := saved.currentStop, saved.status, saved.filledQty;
    }

    function View(): Pos
      reads this, ratchet.Object()
    {
      Pos(symbol, side, qty, strategy, entryOrderId, stopOrderId, currentStop, ratchet.View(), status,
          filledQty, tpOrderId, takeProfit, lastOrderStatus, openTag)
    }
  }

  class OrderManager {
    const broker: Broker

    constructor (broker: Broker)
      ensures this.broker == broker
    {
      this.broker := broker;
    }

    method Open(plan: EntryPlan, ratchet: RatchetRef) returns (p: Option<ManagedPosition>, transient: bool)
      requires plan.ratchet == ratchet.View() && ratchet.Object() != broker
      modifies broker
      ensures var o := OpenPosition(old(broker.env), plan);
        && broker.env == o.env
        && (p.Some? <==> o.pos.Some?)
        && (p.Some? ==> fresh(p.value) && p.value.ratchet == ratchet && p.value.View() == o.pos.value)
        && (p.None? ==> transient == o.transient)
    {
      if plan.qty <= 0.0 {
        return None, false;
      }
      var r := broker.Perform(SubmitMarketEntry(plan.symbol, plan.qty, plan.side, EntryCoid(plan)));
      if r.Err? {
        return None, r.transient;
      }
      var position := new ManagedPosition(plan, r.reply.id, ratchet);
      return Some(position), false;
    }

    method Attach(p: ManagedPosition) returns (outcome: Outcome)
      requires p.ratchet.Object() != broker
      modifies broker, p
      ensures Done(broker.env, p.View(), outcome) == AttachProtection(old(broker.env), old(p.View()))
    {
      var coid := Coid(p.symbol, p.strategy, p.openTag, ProtectOrder);
      if p.takeProfit.Some? {
        var r := broker.RetryTransient(SubmitOcoExit(p.symbol, p.filledQty, p.side, p.currentStop, p.takeProfit.value, coid));
        if r.Err? {
          return Raised(r.transient);
        }
        var stopId, tpId := LegIds(r.reply.legs);
        if stopId.None? {
          return Raised(false);
        }
        p.stopOrderId, p.tpOrderId := stopId, tpId;
      } else {
        var r := broker.RetryTransient(SubmitStop(p.symbol, p.filledQty, p.side, p.currentStop, coid));
        if r.Err? {
          return Raised(r.transient);
        }
        p.stopOrderId, p.tpOrderId := Some(r.reply.id), None;
      }
      return Returned(true);
    }

    static method LegIds(legs: seq<(OrderId, OrderType)>) returns (stopId: Option<OrderId>, tpId: Option<OrderId>)
      ensures stopId == LegOfType(legs, StopOrder) && tpId == LegOfType(legs, LimitOrder)
    {
      stopId, tpId := None, None;
      for i := 0 to |legs|
        invariant stopId == LegOfType(legs[..i], StopOrder)
        invariant tpId == LegOfType(legs[..i], LimitOrder)
      {
        assert legs[..i + 1][..i] == legs[..i];
        if legs[i].1 == StopOrder {
          stopId := Some(legs[i].0);
        } else if legs[i].1 == LimitOrder {
          tpId := Some(legs[i].0);
        }
      }
      assert legs[..|legs|] == legs;
    }

    method SettleFill(p: ManagedPosition) returns (outcome: Outcome)
      requires p.ratchet.Object() != broker
      modifies broker, p
      ensures Done(broker.env, p.View(), outcome) == Settle(old(broker.env), old(p.View()))
    {
      var r := broker.RetryTransient(GetOrder(p.entryOrderId));
      if r.Err? {
        return Raised(r.transient);
      }
      p.filledQty, p.lastOrderStatus := r.reply.order.filledQty, Some(r.reply.order.status);
      if p.filledQty > 0.0 {
        if p.stopOrderId.None? {
          outcome := Attach(p);
          if outcome.Raised? {
            return;
          }
        }
        p.status := PositionStatus.Open;
      } else if IsDead(r.reply.order.status) {
        p.status := Closed;
      }
      return Returned(true);
    }

    method Recheck(p: ManagedPosition) returns (outcome: Outcome)
      requires p.ratchet.Object() != broker
      modifies broker, p
      ensures Done(broker.env, p.View(), outcome) == RecheckPartialFill(old(broker.env), old(p.View()))
    {
      var r := broker.RetryTransient(GetOrder(p.entryOrderId));
      if r.Err? {
        return Raised(r.transient);
      }
      if r.reply.order.filledQty > p.filledQty {
        return Raised(false);
      }
      p.lastOrderStatus := Some(r.reply.order.status);
      return Returned(true);
    }

    method Raise(p: ManagedPosition, price: real, atr: Option<real>) returns (outcome: Outcome)
      requires p.ratchet.Object() != broker && p.ratchet.Object() != p
      modifies broker, p, p.ratchet.Object()
      ensures Done(broker.env, p.View(), outcome) == RaiseStop(old(broker.env), old(p.View()), price, atr)
    {
      if p.stopOrderId.None? {
        return Raised(false);
      }
      var newStop := p.ratchet.Update(price, atr);
      if !(if p.side.Long? then newStop > p.currentStop else newStop < p.currentStop) {
        return Returned(false);
      }
      var r := broker.Perform(ReplaceStop(p.stopOrderId.value, newStop));
      if r.Err? {
        return Raised(r.transient);
      }
      p.stopOrderId := Some(r.reply.id);
      p.currentStop := newStop;
      return Returned(true);
    }

    method Refresh(p: ManagedPosition, minDaysRemaining: int) returns (outcome: Outcome)
      requires p.ratchet.Object() != broker
      modifies broker, p
      ensures Done(broker.env, p.View(), outcome) == RefreshStaleStop(old(broker.env), old(p.View()), minDaysRemaining)
    {
      if p.stopOrderId.None? {
        return Returned(false);
      }
      var r := broker.RetryTransient(GetOrder(p.stopOrderId.value));
      if r.Err? {
        return Raised(r.transient);
      }
      var days := r.reply.order.expiresInDays;
      if days.None? || days.value > minDaysRemaining {
        return Returned(false);
      }
      r := broker.RetryTransient(ReplaceStop(p.stopOrderId.value, p.currentStop));
      if r.Err? {
        return Raised(r.transient);
      }
      p.stopOrderId := Some(r.reply.id);
      return Returned(true);
    }

    method Liquidate(p: ManagedPosition) returns (outcome: Outcome)
      requires p.ratchet.Object() != broker
      modifies broker, p
      ensures Done(broker.env, p.View(), outcome) == Close(old(broker.env), old(p.View()))
    {
      var r := broker.Perform(ClosePosition(p.symbol));
      if r.Err? {
        return Raised(r.transient);
      }
      p.status := Closed;
      return Returned(true);
    }
  }
}
