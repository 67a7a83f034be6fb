/** The phone's actions on the shared desk. Each runs under the same lock as a
    cycle, so each is one atomic step. */
module TradeServices {
  import opened Common
  import opened Ratchets
  import opened Brokers
  import opened OrderManagers
  import opened Reconcilers
  import opened Cycles

  /** An order from the phone, manual or approved, with the price it found (None
      when the lookup failed) and the quantity the risk gate would approve
      (None for a veto). */
  datatype Order = Order(symbol: Symbol, side: Side, requestedQty: int, approvedQty: Option<int>,
                         priced: bool, strategy: string, ratchet: Ratchet, takeProfit: Option<real>, tag: string)

  datatype Answer =
    | Busy | HaltedAnswer | Exists | PriceError | MarketClosed | Vetoed | BrokerError
    | RejectedAnswer | Placed | NoPosition | ClosedAnswer | PartlyFlattened | Propagated(transient: bool)

  datatype Acted = Acted(desk: Desk, answer: Answer)

  function PlanOf(o: Order, qty: int): EntryPlan {
    EntryPlan(o.symbol, o.side, qty as real, o.strategy, o.ratchet, o.takeProfit, o.tag)
  }

  /** Refuses while halted or already tracking the symbol, then gates and opens. */
  function Place(o: Order, lockBusy: bool, d: Desk): Acted {
    if lockBusy then Acted(d, Busy)
    else if IsHalted(d.halt) then Acted(d, HaltedAnswer)
    else if Tracked(d.book, o.symbol) then Acted(d, Exists)
    else if !o.priced then Acted(d, PriceError)
    else GateAndOpen(o, d)
  }

  function GateAndOpen(o: Order, d: Desk): Acted {
    var m := Retry(d.env, IsMarketOpen, ATTEMPTS);
    if m.result.Err? then Acted(d.(env := m.env), Propagated(m.result.transient)) else
    if !m.result.reply.open then Acted(d.(env := m.env), MarketClosed) else
    var a := Retry(m.env, GetAccount, ATTEMPTS);
    if a.result.Err? then Acted(d.(env := a.env), Propagated(a.result.transient)) else
    if o.approvedQty.None? || MinInt(o.requestedQty, o.approvedQty.value) <= 0 then Acted(d.(env := a.env), Vetoed) else
    var plan := PlanOf(o, MinInt(o.requestedQty, o.approvedQty.value));
    var opening := OpenPosition(a.env, plan);
    if opening.pos.None? then Acted(d.(env := opening.env), BrokerError) else
    var s := Settle(opening.env, opening.pos.value);
    if s.outcome.Raised? then Acted(d.(env := s.env), BrokerError)
    else if IsDeadEntry(s.pos) then Acted(d.(env := s.env), RejectedAnswer)
    else Acted(d.(env := s.env, book := Put(d.book, s.pos)), Placed)
  }

  function Without(book: seq<Pos>, i: nat): seq<Pos>
    requires i < |book|
  {
    book[..i] + book[i + 1..]
  }

  function ClosePhone(symbol: Symbol, lockBusy: bool, d: Desk): Acted {
    if lockBusy then Acted(d, Busy) else
    var i := IndexOf(d.book, symbol);
    if i.None? || !Live(d.book[i.value]) then Acted(d, NoPosition) else
    var c := Close(d.env, d.book[i.value]);
    if c.outcome.Raised? then Acted(d.(env := c.env), BrokerError)
    else Acted(d.(env := c.env, book := Without(d.book, i.value)), ClosedAnswer)
  }

  datatype Flattened = Flattened(env: Env, book: seq<Pos>, failures: nat)

  /** Closes every live position in turn; one that fails stays in the book. */
  function FlattenFrom(e: Env, todo: seq<Pos>): Flattened
    decreases |todo|
  {
    if todo == [] then Flattened(e, [], 0)
    else if !Live(todo[0]) then
      var rest := FlattenFrom(e, todo[1..]);
      rest.(book := [todo[0]] + rest.book)
    else
      var c := Close(e, todo[0]);
      var rest := FlattenFrom(c.env, todo[1..]);
      if c.outcome.Raised? then rest.(book := [todo[0]] + rest.book, failures := rest.failures + 1) else rest
  }

  predicate AnyLive(book: seq<Pos>) { exists i :: 0 <= i < |book| && Live(book[i]) }

  function FlattenPhone(lockBusy: bool, d: Desk): Acted {
    if lockBusy then Acted(d, Busy) else
    if !AnyLive(d.book) then Acted(d, NoPosition) else
    var f := FlattenFrom(d.env, d.book);
    Acted(d.(env := f.env, book := f.book), if f.failures > 0 then PartlyFlattened else ClosedAnswer)
  }

  function HaltPhone(reason: string, lockBusy: bool, now: int, d: Desk): Acted {
    if lockBusy then Acted(d, Busy) else Acted(SetHalt(d, HaltRecord(reason, Manual, Some(now))), HaltedAnswer)
  }

  function ResetPhone(lockBusy: bool, d: Desk): Acted {
    if lockBusy then Acted(d, Busy)
    else Acted(d.(halt := Absent, env := d.env.(journal := d.env.journal + [HaltReset])), ClosedAnswer)
  }

  // ----- the object -----

  class TradeService {
    const shared: SharedState
    const broker: Broker
    const orders: OrderManager

    ghost predicate Valid() { shared.broker == broker && orders.broker == broker }

    constructor (shared: SharedState)
      ensures Valid() && this.shared == shared
    {
      this.shared, broker := shared, shared.broker;
      orders := new OrderManager(shared.broker);
    }

    method PlaceOrder(o: Order, lockBusy: bool) returns (answer: Answer)
      requires Valid()
      modifies shared, broker
      ensures Acted(shared.View(), answer) == Place(o, lockBusy, old(shared.View()))
    {
      hide GateAndOpen;
      if lockBusy {
        return Busy;
      }
      if IsHalted(shared.halt) {
        return HaltedAnswer;
      }
      if Tracked(shared.book, o.symbol) {
        return Exists;
      }
      if !o.priced {
        return PriceError;
      }
      answer := GateThenOpen(o);
    }

    method GateThenOpen(o: Order) returns (answer: Answer)
      requires Valid()
      modifies shared, broker
      ensures Acted(shared.View(), answer) == GateAndOpen(o, old(shared.View()))
    {
      hide Retry, OpenPosition, Settle, Put;
      var m := broker.RetryTransient(IsMarketOpen);
      if m.Err? {
        return Propagated(m.transient);
      }
      if !m.reply.open {
        return MarketClosed;
      }
      var a := broker.RetryTransient(GetAccount);
      if a.Err? {
        return Propagated(a.transient);
      }
      if o.approvedQty.None? || MinInt(o.requestedQty, o.approvedQty.value) <= 0 {
        return Vetoed;
      }
      answer := OpenAndBook(PlanOf(o, MinInt(o.requestedQty, o.approvedQty.value)));
    }

    /** Opens and settles; only what settled alive is booked and saved. */
    method OpenAndBook(plan: EntryPlan) returns (answer: Answer)
      requires Valid()
      modifies shared, broker
      ensures shared.halt == old(shared.halt)
      ensures var opening := OpenPosition(old(broker.env), plan);
        if opening.pos.None? then answer == BrokerError && broker.env == opening.env && shared.book == old(shared.book)
        else
          var s := Settle(opening.env, opening.pos.value);
          && broker.env == s.env
          && answer == (if s.outcome.Raised? then BrokerError else if IsDeadEntry(s.pos) then RejectedAnswer else Placed)
          && shared.book == if answer == Placed then Put(old(shared.book), s.pos) else old(shared.book)
    {
      hide OpenPosition, Settle, Put;
      var ladder := FromValue(plan.ratchet);
      var position, _ := orders.Open(plan, ladder);
      if position.None? {
        return BrokerError;
      }
      var outcome := orders.SettleFill(position.value);
      if outcome.Raised? {
        return BrokerError;
      }
      if IsDeadEntry(position.value.View()) {
        return RejectedAnswer;
      }
      shared.book := Put(shared.book, position.value.View());
      answer := Placed;
    }

    /** One saved position, loaded, closed at the broker, and not yet removed. */
    method CloseSaved(p: Pos) returns (outcome: Outcome)
      requires Valid()
      modifies broker
      ensures Done(broker.env, if outcome.Raised? then p else p.(status := PositionStatus.Closed), outcome) == Close(old(broker.env), p)
    {
      var ladder := FromValue(p.ratchet);
      var position := new ManagedPosition.Restored(p, ladder);
      outcome := orders.Liquidate(position);
    }

    method ClosePosition(symbol: Symbol, lockBusy: bool) returns (answer: Answer)
      requires Valid()
      modifies shared, broker
      ensures Acted(shared.View(), answer) == ClosePhone(symbol, lockBusy, old(shared.View()))
    {
      if lockBusy {
        return Busy;
      }
      var i := IndexOf(shared.book, symbol);
      if i.None? || !Live(shared.book[i.value]) {
        return NoPosition;
      }
      var outcome := CloseSaved(shared.book[i.value]);
      if outcome.Raised? {
        return BrokerError;
      }
      shared.book := Without(shared.book, i.value);
      answer := ClosedAnswer;
    }

    method FlattenAllPositions(lockBusy: bool) returns (answer: Answer)
      requires Valid()
      modifies shared, broker
      ensures Acted(shared.View(), answer) == FlattenPhone(lockBusy, old(shared.View()))
    {
      hide FlattenFrom;
      if lockBusy {
        return Busy;
      }
      if !AnyLive(shared.book) {
        return NoPosition;
      }
      var kept, failures := FlattenEach(shared.book);
      shared.book := kept;
      answer := if failures > 0 then PartlyFlattened else ClosedAnswer;
    }

    method FlattenEach(book: seq<Pos>) returns (kept: seq<Pos>, failures: nat)
      requires Valid()
      modifies broker
      ensures Flattened(broker.env, kept, failures) == FlattenFrom(old(broker.env), book)
    {
      hide FlattenFrom;
      kept, failures := [], 0;
      ghost var goal := FlattenFrom(broker.env, book);
      NothingFlattened(goal);
      assert book[0..] == book;
      for i := 0 to |book|
        invariant goal == After(kept, failures, FlattenFrom(broker.env, book[i..]))
      {
        FlattenStep(broker.env, kept, failures, book[i..]);
        assert book[i..][0] == book[i] && book[i..][1..] == book[i + 1..];
        if Live(book[i]) {
          var outcome := CloseSaved(book[i]);
          if outcome.Raised? {
            kept, failures := kept + [book[i]], failures + 1;
          }
        } else {
          kept := kept + [book[i]];
        }
      }
      FlattenedNone(broker.env, kept, failures, book[|book|..]);
    }

    method Halt(reason: string, lockBusy: bool, now: int) returns (answer: Answer)
      requires Valid()
      modifies shared, broker
      ensures Acted(shared.View(), answer) == HaltPhone(reason, lockBusy, now, old(shared.View()))
    {
      if lockBusy {
        return Busy;
      }
      shared.WriteHalt(HaltRecord(reason, Manual, Some(now)));
      answer := HaltedAnswer;
    }

    method Reset(lockBusy: bool) returns (answer: Answer)
      requires Valid()
      modifies shared, broker
      ensures Acted(shared.View(), answer) == ResetPhone(lockBusy, old(shared.View()))
    {
      if lockBusy {
        return Busy;
      }
      shared.ClearHalt(HaltReset);
      answer := ClosedAnswer;
    }
  }

  /** What a flatten comes to once `kept` and `failures` stand for the part done. */
  function After(kept: seq<Pos>, failures: nat, rest: Flattened): Flattened {
    Flattened(rest.env, kept + rest.book, failures + rest.failures)
  }

  lemma NothingFlattened(f: Flattened)
    ensures After([], 0, f) == f
  {
    assert [] + f.book == f.book;
  }

  lemma FlattenedNone(e: Env, kept: seq<Pos>, failures: nat, none: seq<Pos>)
    requires none == []
    ensures After(kept, failures, FlattenFrom(e, none)) == Flattened(e, kept, failures)
  {
    assert kept + [] == kept;
  }

  lemma FlattenStep(e: Env, kept: seq<Pos>, failures: nat, todo: seq<Pos>)
    requires todo != []
    ensures After(kept, failures, FlattenFrom(e, todo))
         == if !Live(todo[0]) then After(kept + [todo[0]], failures, FlattenFrom(e, todo[1..]))
            else
              var c := Close(e, todo[0]);
              if c.outcome.Raised? then After(kept + [todo[0]], failures + 1, FlattenFrom(c.env, todo[1..]))
              else After(kept, failures, FlattenFrom(c.env, todo[1..]))
  {
    hide Close;
    var c := Close(e, todo[0]);
    var rest := FlattenFrom(if Live(todo[0]) then c.env else e, todo[1..]).book;
    assert kept + ([todo[0]] + rest) == kept + [todo[0]] + rest;
  }
}
