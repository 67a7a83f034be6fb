/** Whose orders go out over whole runs: approved candidates' and gated phone orders',
    for no more than was requested and no more than was approved. */
module SystemOrders {
  import opened Common
  import opened Brokers
  import opened OrderManagers
  import opened Reconcilers
  import opened Cycles
  import opened CycleSafety
  import opened SentOrders
  import TradeServices
  import opened SelfHealing
  import opened TradingSystem

  // ----- one phone order -----

  /** For the order's symbol and side, and for a quantity that is the requested or the
      approved one, neither more than was requested nor more than was approved. */
  predicate Gated(o: TradeServices.Order, t: Ticket) {
    && t.symbol == o.symbol && t.side == o.side && t.kind.MarketOrder?
    && t.coid == Coid(o.symbol, o.strategy, o.tag, EntryOrder)
    && o.approvedQty.Some? && 0.0 < t.qty <= o.requestedQty as real && t.qty <= o.approvedQty.value as real
    && (t.qty == o.requestedQty as real || t.qty == o.approvedQty.value as real)
  }

  /** A phone order sends at most its own gated ticket. It books a position, of just
      that symbol, side and quantity, when and only when it answers that it was placed. */
  lemma PhoneOrderSends(o: TradeServices.Order, busy: bool, d: Desk)
    requires BookGrounded(d.env.orders, d.book)
    ensures var a := TradeServices.Place(o, busy, d);
      && Sends(d.env.orders, a.desk.env.orders, t => Gated(o, t))
      && BookGrounded(a.desk.env.orders, a.desk.book)
      && (if a.answer.Placed? then BooksGated(o, d, a.desk) else a.desk.book == d.book)
  {
    hide TradeServices.GateAndOpen, Sends, BookGrounded, BooksGated;
    SendsNothing(d.env.orders, t => Gated(o, t));
    GateAndOpenSends(o, d);
  }

  /** Nothing goes out unless the phone had the lock, the bot was not halted and did not
      track the symbol, a price was found, and the broker called the market open. */
  lemma PhoneOrderNeedsAll(o: TradeServices.Order, busy: bool, d: Desk)
    requires TradeServices.Place(o, busy, d).desk.env.journal != d.env.journal
    ensures !busy && !IsHalted(d.halt) && !Tracked(d.book, o.symbol) && o.priced
    ensures Retry(d.env, IsMarketOpen, ATTEMPTS).env.marketOpen
    ensures o.approvedQty.Some? && o.approvedQty.value > 0 && o.requestedQty > 0
  {
    hide OpenPosition, Settle, Retry;
    RetryJournal(d.env, IsMarketOpen, ATTEMPTS);
    var m := Retry(d.env, IsMarketOpen, ATTEMPTS);
    if m.result.Ok? {
      RetryReadsOpen(d.env, ATTEMPTS);
    }
    RetryJournal(m.env, GetAccount, ATTEMPTS);
  }

  lemma {:induction false} RetryReadsOpen(e: Env, attempts: nat)
    requires attempts >= 1 && Retry(e, IsMarketOpen, attempts).result.Ok?
    ensures Retry(e, IsMarketOpen, attempts).result.reply.open == Retry(e, IsMarketOpen, attempts).env.marketOpen
    decreases attempts
  {
    hide Arrive;
    if Exec(e, IsMarketOpen).result.Err? {
      RetryReadsOpen(Exec(e, IsMarketOpen).env, attempts - 1);
    }
  }

  /** One position is new, it is the order's, its entry went out just now, and every
      other position is as it was. */
  ghost predicate BooksGated(o: TradeServices.Order, before: Desk, after: Desk) {
    exists p ::
      && p in after.book && Grounded(after.env.orders, p) && |before.env.orders| <= p.entryOrderId
      && Gated(o, OwnTicket(p)) && LookedAt(p) && !IsDeadEntry(p)
      && (forall q :: q in after.book ==> q == p || q in before.book)
      && (forall q :: q in before.book && q.symbol != o.symbol ==> q in after.book)
  }

  lemma GateAndOpenSends(o: TradeServices.Order, d: Desk)
    requires BookGrounded(d.env.orders, d.book)
    ensures var a := TradeServices.GateAndOpen(o, d);
      && Sends(d.env.orders, a.desk.env.orders, t => Gated(o, t))
      && BookGrounded(a.desk.env.orders, a.desk.book)
      && (if a.answer.Placed? then BooksGated(o, d, a.desk) else a.desk.book == d.book)
  {
    hide Retry, OpenPosition, Settle, Sends, BookGrounded, Grounded, Put;
    var asked: Ticket -> bool := t => Gated(o, t);
    ReadSends(d.env, IsMarketOpen, d.book, asked);
    var m := Retry(d.env, IsMarketOpen, ATTEMPTS);
    ReadSends(m.env, GetAccount, d.book, asked);
    var a := Retry(m.env, GetAccount, ATTEMPTS);
    SendsChain(d.env.orders, m.env.orders, a.env.orders, asked);
    if m.result.Ok? && a.result.Ok? && o.approvedQty.Some? && MinInt(o.requestedQty, o.approvedQty.value) > 0 {
      var plan := TradeServices.PlanOf(o, MinInt(o.requestedQty, o.approvedQty.value));
      OpenSendsThePlan(a.env, plan);
      OpeningSends(a.env, plan, asked);
      var opening := OpenPosition(a.env, plan);
      SendsChain(d.env.orders, a.env.orders, opening.env.orders, asked);
      StaysGrounded(d.env.orders, opening.env.orders, d.book, asked);
      if opening.pos.Some? {
        SettleKeeps(opening.env, opening.pos.value, asked);
        var s := Settle(opening.env, opening.pos.value);
        SendsChain(d.env.orders, opening.env.orders, s.env.orders, asked);
        StaysGrounded(d.env.orders, s.env.orders, d.book, asked);
        SendsIsLonger(d.env.orders, a.env.orders, asked);
        PutKeepsOthers(d.book, s.pos);
        if s.outcome.Returned? { SettledIsLookedAt(opening.env, opening.pos.value); }
        PutGrounded(s.env.orders, d.book, s.pos);
      }
    }
  }

  lemma SendsIsLonger(a: seq<Order>, b: seq<Order>, asked: Ticket -> bool)
    requires Sends(a, b, asked)
    ensures |a| <= |b|
  {
  }

  lemma PutGrounded(orders: seq<Order>, book: seq<Pos>, p: Pos)
    requires BookGrounded(orders, book) && Grounded(orders, p)
    ensures BookGrounded(orders, Put(book, p))
  {
    hide Grounded;
  }

  /** And it does go out: on a quiet broker with the market open, an order under a fresh
      client id is sent once, for the smaller of the two quantities, and booked. */
  lemma QuietPhoneOrderOpens(o: TradeServices.Order, d: Desk, qty: int)
    requires d.env.script == [] && d.env.marketOpen && !IsHalted(d.halt) && !Tracked(d.book, o.symbol) && o.priced
    requires !CoidUsed(d.env.orders, Coid(o.symbol, o.strategy, o.tag, EntryOrder))
    requires qty > 0 && o.approvedQty.Some? && qty <= o.requestedQty && qty <= o.approvedQty.value
    requires qty == o.requestedQty || qty == o.approvedQty.value
    ensures var a := TradeServices.Place(o, false, d);
      && a.answer.Placed? && |a.desk.env.orders| == |d.env.orders| + 1
      && TicketOf(a.desk.env.orders[|d.env.orders|]) == EntryTicket(o.symbol, o.side, qty as real, o.strategy, o.tag)
      && a.desk.env.orders[..|d.env.orders|] == d.env.orders
  {
    hide Put, Tracked, AttachProtection;
    var e, plan := d.env, TradeServices.PlanOf(o, qty);
    QuietCall(e, IsMarketOpen);
    QuietCall(e, GetAccount);
    var opening := OpenPosition(e, plan);
    QuietOpening(e, plan);
    QuietCall(opening.env, GetOrder(|e.orders|));
  }

  lemma QuietOpening(e: Env, plan: EntryPlan)
    requires e.script == [] && plan.qty > 0.0 && !CoidUsed(e.orders, EntryCoid(plan))
    ensures var o := OpenPosition(e, plan);
      && o.pos == Some(NewPosition(plan, |e.orders|)) && o.env.script == []
      && |o.env.orders| == |e.orders| + 1 && o.env.orders[..|e.orders|] == e.orders
      && TicketOf(o.env.orders[|e.orders|]) == TicketFor(plan)
      && o.env.orders[|e.orders|].filledQty == 0.0 && o.env.orders[|e.orders|].status.New?
  {
    assert e.(script := []) == e;
  }

  // ----- whole runs -----

  /** What an action asks to be opened. */
  predicate Asks(a: Action, t: Ticket) {
    match a
    case ScheduledCycle(c) => Approves(c, t)
    case PhoneOrder(o, _) => Gated(o, t)
    case _ => false
  }

  predicate AskedIn(actions: seq<Action>, t: Ticket) {
    exists i :: 0 <= i < |actions| && Asks(actions[i], t)
  }

  lemma {:induction false} FlattenFromSends(e: Env, todo: seq<Pos>, asked: Ticket -> bool)
    requires BookGrounded(e.orders, todo)
    ensures var f := TradeServices.FlattenFrom(e, todo); Sends(e.orders, f.env.orders, asked) && BookGrounded(f.env.orders, f.book)
    decreases |todo|
  {
    hide Close, Sends, Grounded;
    SendsNothing(e.orders, asked);
    if todo != [] {
      CloseKeeps(e, todo[0], asked);
      var next := if Live(todo[0]) then Close(e, todo[0]).env else e;
      StaysGrounded(e.orders, next.orders, todo, asked);
      FlattenFromSends(next, todo[1..], asked);
      var rest := TradeServices.FlattenFrom(next, todo[1..]);
      SendsChain(e.orders, next.orders, rest.env.orders, asked);
      StaysGrounded(next.orders, rest.env.orders, todo, asked);
    }
  }

  lemma PhoneCloseSends(symbol: Symbol, busy: bool, d: Desk, asked: Ticket -> bool)
    requires BookGrounded(d.env.orders, d.book)
    ensures var after := TradeServices.ClosePhone(symbol, busy, d).desk;
      Sends(d.env.orders, after.env.orders, asked) && BookGrounded(after.env.orders, after.book)
  {
    hide Close, Sends, Grounded;
    SendsNothing(d.env.orders, asked);
    var i := IndexOf(d.book, symbol);
    if i.Some? {
      CloseKeeps(d.env, d.book[i.value], asked);
      StaysGrounded(d.env.orders, Close(d.env, d.book[i.value]).env.orders, d.book, asked);
    }
  }

  lemma ActSends(policy: Policy, w: World, a: Action)
    requires BookGrounded(w.desk.env.orders, w.desk.book)
    ensures var after := Act(policy, w, a).desk;
      Sends(w.desk.env.orders, after.env.orders, t => Asks(a, t)) && BookGrounded(after.env.orders, after.book)
  {
    hide TradeServices.Place, TradeServices.ClosePhone, TradeServices.FlattenFrom, RunCycle, Sends, BookGrounded, Gated, FromCandidate;
    var asked: Ticket -> bool := t => Asks(a, t);
    SendsNothing(w.desk.env.orders, asked);
    match a
    case ScheduledCycle(c) =>
      var later := c.(now := w.clock);
      CycleSends(later, w.desk);
      LaterApprovesSame(c, w.clock);
      SendsForMore(w.desk.env.orders, Act(policy, w, a).desk.env.orders, t => Approves(later, t), asked);
    case PhoneOrder(o, busy) =>
      PhoneOrderSends(o, busy, w.desk);
      SendsForMore(w.desk.env.orders, Act(policy, w, a).desk.env.orders, t => Gated(o, t), asked);
    case PhoneClose(symbol, busy) => PhoneCloseSends(symbol, busy, w.desk, asked);
    case PhoneFlatten(busy) => FlattenFromSends(w.desk.env, w.desk.book, asked);
    case _ =>
  }

  lemma LaterApprovesSame(c: CycleInput, now: int)
    ensures forall t :: Approves(c.(now := now), t) <==> Approves(c, t)
  {
    forall t ensures Approves(c.(now := now), t) <==> Approves(c, t) {
      assert forall k :: 0 <= k < |c.candidates| ==> FromCandidate(c.(now := now), c.candidates[k], t) == FromCandidate(c, c.candidates[k], t);
    }
  }

  /** Over every run of cycles, phone actions and heals, against any script: each order
      the bot ever sends to open a position is one that some approved candidate or some
      gated phone order asked for, with its symbol, side and quantity, sent once; and
      every position in the book has the symbol, side and quantity of its entry order. */
  lemma {:induction false} RunsSendOnlyWhatWasAsked(policy: Policy, w: World, actions: seq<Action>)
    requires BookGrounded(w.desk.env.orders, w.desk.book)
    ensures var after := Run(policy, w, actions).desk;
      && Sends(w.desk.env.orders, after.env.orders, t => AskedIn(actions, t))
      && BookGrounded(after.env.orders, after.book)
  {
    hide Act, Sends, BookGrounded, Asks;
    var n, asked: Ticket -> bool := |actions| - 1, t => AskedIn(actions, t);
    if actions == [] {
      SendsNothing(w.desk.env.orders, asked);
    } else {
      RunsSendOnlyWhatWasAsked(policy, w, actions[..n]);
      var before := Run(policy, w, actions[..n]);
      ActSends(policy, before, actions[n]);
      AskedInPart(actions);
      SendsForMore(w.desk.env.orders, before.desk.env.orders, t => AskedIn(actions[..n], t), asked);
      SendsForMore(before.desk.env.orders, Act(policy, before, actions[n]).desk.env.orders, t => Asks(actions[n], t), asked);
      SendsChain(w.desk.env.orders, before.desk.env.orders, Run(policy, w, actions).desk.env.orders, asked);
    }
  }

  lemma AskedInPart(actions: seq<Action>)
    requires actions != []
    ensures forall t :: AskedIn(actions[..|actions| - 1], t) || Asks(actions[|actions| - 1], t) ==> AskedIn(actions, t)
  {
    hide Asks;
    forall t | AskedIn(actions[..|actions| - 1], t) ensures AskedIn(actions, t) {
      var i :| 0 <= i < |actions| - 1 && Asks(actions[..|actions| - 1][i], t);
      assert Asks(actions[i], t);
    }
  }
}
