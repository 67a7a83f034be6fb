/** Which orders go out, and for whom. An opening sends the order it was asked for and
    no other; nothing else the bot does opens anything; and what the book says of a
    position is what its entry order says. */
module SentOrders {
  import opened Common
  import opened Ratchets
  import opened Brokers
  import opened OrderHistory
  import opened OrderManagers
  import opened StopSandwich
  import opened Reconcilers
  import opened Cycles

  /** What an order commits to, whatever becomes of it. */
  datatype Ticket = Ticket(coid: Coid, symbol: Symbol, side: Side, kind: OrderType, qty: real)

  function TicketOf(o: Order): Ticket { Ticket(o.coid, o.symbol, o.side, o.kind, o.qty) }

  /** Under a client id that opens a position. */
  predicate Opens(t: Ticket) { t.coid.Coid? && t.coid.kind.EntryOrder? }

  function EntryTicket(symbol: Symbol, side: Side, qty: real, strategy: string, tag: string): Ticket {
    Ticket(Coid(symbol, strategy, tag, EntryOrder), symbol, side, MarketOrder, qty)
  }

  /** Tickets stand; every new one that opens a position was asked for, under a client
      id no earlier order had. */
  ghost predicate Sends(a: seq<Order>, b: seq<Order>, asked: Ticket -> bool) {
    && |a| <= |b|
    && (forall i :: 0 <= i < |a| ==> TicketOf(b[i]) == TicketOf(a[i]))
    && forall i :: |a| <= i < |b| && Opens(TicketOf(b[i])) ==>
         asked(TicketOf(b[i])) && forall j :: 0 <= j < i ==> b[j].coid != b[i].coid
  }

  lemma SendsNothing(a: seq<Order>, asked: Ticket -> bool)
    ensures Sends(a, a, asked)
  {
  }

  lemma SendsChain(a: seq<Order>, b: seq<Order>, c: seq<Order>, asked: Ticket -> bool)
    requires Sends(a, b, asked) && Sends(b, c, asked)
    ensures Sends(a, c, asked)
  {
    forall i | |a| <= i < |c| && Opens(TicketOf(c[i]))
      ensures asked(TicketOf(c[i])) && forall j :: 0 <= j < i ==> c[j].coid != c[i].coid
    {
      if i < |b| {
        assert TicketOf(c[i]) == TicketOf(b[i]);
        forall j | 0 <= j < i ensures c[j].coid != c[i].coid {
          assert TicketOf(c[j]) == TicketOf(b[j]);
        }
      }
    }
  }

  lemma SendsForMore(a: seq<Order>, b: seq<Order>, asked: Ticket -> bool, more: Ticket -> bool)
    requires Sends(a, b, asked) && forall t :: asked(t) ==> more(t)
    ensures Sends(a, b, more)
  {
  }

  // ----- one call -----

  /** An entry is asked for, protection carries another kind of client id, and only
      what is no entry is replaced. */
  predicate InOrder(orders: seq<Order>, call: Call, asked: Ticket -> bool) {
    match call
    case SubmitMarketEntry(symbol, qty, side, coid) => asked(Ticket(coid, symbol, side, MarketOrder, qty))
    case SubmitStop(_, _, _, _, coid) => coid.Coid? && !coid.kind.EntryOrder?
    case SubmitOcoExit(_, _, _, _, _, coid) => coid.Coid? && !coid.kind.EntryOrder?
    case ReplaceStop(id, _) => NoEntry(orders, id)
    case _ => true
  }

  predicate NoEntry(orders: seq<Order>, id: OrderId) { id < |orders| && !Opens(TicketOf(orders[id])) }

  lemma EffectSends(e: Env, call: Call, withLegs: bool, asked: Ticket -> bool)
    requires InOrder(e.orders, call, asked)
    ensures Sends(e.orders, Effect(e, call, withLegs).env.orders, asked)
  {
    hide WorkingIds, WithoutSymbol, Rounding.Cents;
    var after := Effect(e, call, withLegs).env.orders;
    if call.SubmitMarketEntry? {
      UnseenIs(e.orders, call.coid);
    }
  }

  lemma InOrderLater(a: seq<Order>, b: seq<Order>, call: Call, asked: Ticket -> bool)
    requires Sends(a, b, asked) && InOrder(a, call, asked)
    ensures InOrder(b, call, asked)
  {
  }

  lemma ArrivalSends(e: Env, call: Call, asked: Ticket -> bool)
    ensures Sends(e.orders, Noted(Arrive(e), call).orders, asked)
  {
    hide Arrive;
    ArriveEvolves(e, call);
  }

  lemma ExecSends(e: Env, call: Call, asked: Ticket -> bool)
    requires InOrder(e.orders, call, asked)
    ensures Sends(e.orders, Exec(e, call).env.orders, asked)
  {
    hide Effect, Arrive, Sends, InOrder;
    ArrivalSends(e, call, asked);
    var here := Noted(Arrive(e), call);
    InOrderLater(e.orders, here.orders, call, asked);
    EffectSends(here, call, true, asked);
    EffectSends(here, call, false, asked);
    SendsChain(e.orders, here.orders, Effect(here, call, true).env.orders, asked);
    SendsChain(e.orders, here.orders, Effect(here, call, false).env.orders, asked);
  }

  lemma {:induction false} RetrySends(e: Env, call: Call, attempts: nat, asked: Ticket -> bool)
    requires attempts >= 1 && InOrder(e.orders, call, asked)
    ensures Sends(e.orders, Retry(e, call, attempts).env.orders, asked)
    decreases attempts
  {
    hide Exec, Sends, InOrder;
    ExecSends(e, call, asked);
    if Retry(e, call, attempts) != Exec(e, call) {
      var next := Exec(e, call).env;
      InOrderLater(e.orders, next.orders, call, asked);
      RetrySends(next, call, attempts - 1, asked);
      SendsChain(e.orders, next.orders, Retry(e, call, attempts).env.orders, asked);
    }
  }

  /** The orders a reply hands back to protect a position with open nothing. */
  predicate HandsBackNoEntry(orders: seq<Order>, reply: Reply) {
    match reply
    case OrderReply(id, _) => NoEntry(orders, id)
    case LegsReply(legs) => forall i :: 0 <= i < |legs| ==> NoEntry(orders, legs[i].0)
    case _ => true
  }

  predicate Protects(call: Call) { call.SubmitStop? || call.SubmitOcoExit? || call.ReplaceStop? }

  lemma ExecHandsBack(e: Env, call: Call, asked: Ticket -> bool)
    requires Protects(call) && InOrder(e.orders, call, asked) && Exec(e, call).result.Ok?
    ensures HandsBackNoEntry(Exec(e, call).env.orders, Exec(e, call).result.reply)
  {
    hide Arrive, Sends, Rounding.Cents;
    ArrivalSends(e, call, asked);
    InOrderLater(e.orders, Noted(Arrive(e), call).orders, call, asked);
  }

  lemma {:induction false} RetryHandsBack(e: Env, call: Call, attempts: nat, asked: Ticket -> bool)
    requires attempts >= 1 && Protects(call) && InOrder(e.orders, call, asked) && Retry(e, call, attempts).result.Ok?
    ensures HandsBackNoEntry(Retry(e, call, attempts).env.orders, Retry(e, call, attempts).result.reply)
    decreases attempts
  {
    hide Exec, Sends, InOrder, HandsBackNoEntry;
    if Exec(e, call).result.Ok? {
      ExecHandsBack(e, call, asked);
    } else {
      ExecSends(e, call, asked);
      InOrderLater(e.orders, Exec(e, call).env.orders, call, asked);
      RetryHandsBack(Exec(e, call).env, call, attempts - 1, asked);
    }
  }

  // ----- what a position says of itself -----

  /** What the position says it was opened with. */
  function OwnTicket(p: Pos): Ticket { EntryTicket(p.symbol, p.side, p.qty, p.strategy, p.openTag) }

  /** Its entry order went out as a market order for just its symbol, side and
      quantity, and the order it takes for its stop is no entry. */
  predicate Grounded(orders: seq<Order>, p: Pos) {
    && p.entryOrderId < |orders|
    && TicketOf(orders[p.entryOrderId]) == OwnTicket(p)
    && (p.stopOrderId.Some? ==> NoEntry(orders, p.stopOrderId.value))
  }

  ghost predicate BookGrounded(orders: seq<Order>, book: seq<Pos>) {
    forall i :: 0 <= i < |book| ==> Grounded(orders, book[i])
  }

  lemma StaysGrounded(a: seq<Order>, b: seq<Order>, book: seq<Pos>, asked: Ticket -> bool)
    requires Sends(a, b, asked)
    ensures forall p :: Grounded(a, p) ==> Grounded(b, p)
    ensures BookGrounded(a, book) ==> BookGrounded(b, book)
  {
  }

  // ----- one position -----

  /** An operation on one position sends nothing unasked and leaves it grounded, the
      position it was. */
  ghost predicate Keeps(e: Env, p: Pos, d: Done, asked: Ticket -> bool) {
    && Sends(e.orders, d.env.orders, asked) && Grounded(d.env.orders, d.pos)
    && OwnTicket(d.pos) == OwnTicket(p) && d.pos.entryOrderId == p.entryOrderId
  }

  lemma AttachKeeps(e: Env, p: Pos, asked: Ticket -> bool)
    requires Grounded(e.orders, p)
    ensures Keeps(e, p, AttachProtection(e, p), asked)
  {
    hide Retry, Sends;
    var call := ProtectCall(p);
    RetrySends(e, call, ATTEMPTS, asked);
    var c := Retry(e, call, ATTEMPTS);
    StaysGrounded(e.orders, c.env.orders, [], asked);
    if c.result.Ok? {
      RetryHandsBack(e, call, ATTEMPTS, asked);
      if p.takeProfit.Some? {
        LegIsNoEntry(c.env.orders, c.result.reply.legs, StopOrder);
      }
    }
  }

  lemma {:induction false} LegIsNoEntry(orders: seq<Order>, legs: seq<(OrderId, OrderType)>, kind: OrderType)
    requires HandsBackNoEntry(orders, LegsReply(legs))
    ensures LegOfType(legs, kind).Some? ==> NoEntry(orders, LegOfType(legs, kind).value)
  {
    if legs != [] {
      var n := |legs| - 1;
      assert forall i :: 0 <= i < n ==> legs[..n][i] == legs[i];
      LegIsNoEntry(orders, legs[..n], kind);
    }
  }

  lemma ReadKeeps(e: Env, call: Call, p: Pos, asked: Ticket -> bool)
    requires Grounded(e.orders, p) && InOrder(e.orders, call, asked)
    ensures var c := Retry(e, call, ATTEMPTS); Sends(e.orders, c.env.orders, asked) && Grounded(c.env.orders, p)
  {
    hide Retry, Sends, InOrder;
    RetrySends(e, call, ATTEMPTS, asked);
    StaysGrounded(e.orders, Retry(e, call, ATTEMPTS).env.orders, [], asked);
  }

  lemma SettleKeeps(e: Env, p: Pos, asked: Ticket -> bool)
    requires Grounded(e.orders, p)
    ensures Keeps(e, p, Settle(e, p), asked)
  {
    hide Retry, Sends, AttachProtection;
    ReadKeeps(e, GetOrder(p.entryOrderId), p, asked);
    var c := Retry(e, GetOrder(p.entryOrderId), ATTEMPTS);
    if c.result.Ok? {
      var o := c.result.reply.order;
      var q := p.(filledQty := o.filledQty, lastOrderStatus := Some(o.status));
      AttachKeeps(c.env, q, asked);
      SendsChain(e.orders, c.env.orders, AttachProtection(c.env, q).env.orders, asked);
    }
  }

  lemma RecheckKeeps(e: Env, p: Pos, asked: Ticket -> bool)
    requires Grounded(e.orders, p)
    ensures Keeps(e, p, RecheckPartialFill(e, p), asked)
  {
    hide Retry, Sends;
    ReadKeeps(e, GetOrder(p.entryOrderId), p, asked);
  }

  lemma RaiseKeeps(e: Env, p: Pos, price: real, atr: Option<real>, asked: Ticket -> bool)
    requires Grounded(e.orders, p)
    ensures Keeps(e, p, RaiseStop(e, p, price, atr), asked)
  {
    hide Exec, Sends, Updated;
    SendsNothing(e.orders, asked);
    if p.stopOrderId.Some? {
      var call := ReplaceStop(p.stopOrderId.value, Updated(p.ratchet, price, atr).stop);
      ExecSends(e, call, asked);
      StaysGrounded(e.orders, Exec(e, call).env.orders, [], asked);
      if Exec(e, call).result.Ok? {
        ExecHandsBack(e, call, asked);
      }
    }
  }

  lemma RefreshKeeps(e: Env, p: Pos, minDays: int, asked: Ticket -> bool)
    requires Grounded(e.orders, p)
    ensures Keeps(e, p, RefreshStaleStop(e, p, minDays), asked)
  {
    hide Retry, Sends;
    SendsNothing(e.orders, asked);
    if p.stopOrderId.Some? {
      ReadKeeps(e, GetOrder(p.stopOrderId.value), p, asked);
      var c := Retry(e, GetOrder(p.stopOrderId.value), ATTEMPTS);
      var call := ReplaceStop(p.stopOrderId.value, p.currentStop);
      ReadKeeps(c.env, call, p, asked);
      var u := Retry(c.env, call, ATTEMPTS);
      SendsChain(e.orders, c.env.orders, u.env.orders, asked);
      if u.result.Ok? {
        RetryHandsBack(c.env, call, ATTEMPTS, asked);
      }
    }
  }

  lemma CloseKeeps(e: Env, p: Pos, asked: Ticket -> bool)
    requires Grounded(e.orders, p)
    ensures Keeps(e, p, Close(e, p), asked)
  {
    hide Exec, Sends;
    ExecSends(e, ClosePosition(p.symbol), asked);
    StaysGrounded(e.orders, Exec(e, ClosePosition(p.symbol)).env.orders, [], asked);
  }

  // ----- one phase -----

  lemma TendSends(c: CycleInput, task: Task, e: Env, p: Pos, errors: nat, asked: Ticket -> bool)
    requires Grounded(e.orders, p)
    ensures var t := Tend(c, task, e, p, errors);
      && Sends(e.orders, t.env.orders, asked)
      && (t.kept.Some? ==> Grounded(t.env.orders, t.kept.value) && t.kept.value.symbol == p.symbol)
  {
    hide Exec, Settle, RecheckPartialFill, RaiseStop, RefreshStaleStop, Close, Sends, Updated;
    SendsNothing(e.orders, asked);
    match task
    case SettleTask => SettleKeeps(e, p, asked);
    case RecheckTask => RecheckKeeps(e, p, asked);
    case SyncTask(_) =>
      if p.stopOrderId.Some? {
        ExecSends(e, GetOrder(p.stopOrderId.value), asked);
        StaysGrounded(e.orders, Exec(e, GetOrder(p.stopOrderId.value)).env.orders, [], asked);
      }
    case RaiseTask =>
      var bars := c.barsForStops(p.symbol);
      if bars.FreshBars? {
        RaiseKeeps(e, p, bars.price, bars.atr, asked);
      }
    case RefreshTask => RefreshKeeps(e, p, c.minDaysRemaining, asked);
    case _ => CloseKeeps(e, p, asked);
  }

  /** Going over the book opens nothing, and every position stays grounded. */
  lemma {:induction false} PhaseSends(c: CycleInput, task: Task, e: Env, todo: seq<Pos>, errors: nat, asked: Ticket -> bool)
    requires BookGrounded(e.orders, todo)
    ensures var f := ForEach(c, task, e, todo, errors);
      Sends(e.orders, f.env.orders, asked) && BookGrounded(f.env.orders, f.book)
    decreases |todo|
  {
    hide Tend, Sends, Grounded;
    SendsNothing(e.orders, asked);
    if todo != [] {
      TendSends(c, task, e, todo[0], errors, asked);
      var t := Tend(c, task, e, todo[0], errors);
      StaysGrounded(e.orders, t.env.orders, todo[1..], asked);
      if t.outcome.Returned? {
        PhaseSends(c, task, t.env, todo[1..], t.errors, asked);
        var rest := ForEach(c, task, t.env, todo[1..], t.errors);
        SendsChain(e.orders, t.env.orders, rest.env.orders, asked);
        StaysGrounded(t.env.orders, rest.env.orders, Kept(t), asked);
      }
    }
  }

  // ----- one opening -----

  function TicketFor(plan: EntryPlan): Ticket {
    EntryTicket(plan.symbol, plan.side, plan.qty, plan.strategy, plan.tag)
  }

  /** Whatever the call's fate, at most one order is added that is not foreign, and it
      is the one planned. */
  ghost predicate OnlyEntryAdded(a: seq<Order>, b: seq<Order>, plan: EntryPlan) {
    && |a| <= |b|
    && (forall i :: |a| <= i < |b| ==> b[i].coid.Foreign? || TicketOf(b[i]) == TicketFor(plan))
    && forall i, j :: |a| <= i < |b| && |a| <= j < |b| && !b[i].coid.Foreign? && !b[j].coid.Foreign? ==> i == j
  }

  /** When a position comes back, that order is its entry, and the position says of
      itself what the order says. */
  lemma OpenSendsThePlan(e: Env, plan: EntryPlan)
    ensures OnlyEntryAdded(e.orders, OpenPosition(e, plan).env.orders, plan)
    ensures plan.qty <= 0.0 ==> OpenPosition(e, plan).env == e && OpenPosition(e, plan).pos.None?
    ensures var o := OpenPosition(e, plan);
      o.pos.Some? ==>
        var p := o.pos.value;
        && |e.orders| <= p.entryOrderId && Grounded(o.env.orders, p) && OwnTicket(p) == TicketFor(plan)
        && p.takeProfit == plan.takeProfit && p.ratchet == plan.ratchet && p.currentStop == plan.ratchet.stop
        && p.status.PendingEntry? && p.filledQty == 0.0 && p.stopOrderId.None?
  {
    hide Arrive, Effect;
    var call := SubmitMarketEntry(plan.symbol, plan.qty, plan.side, EntryCoid(plan));
    ArriveEvolves(e, call);
    EntryTakesEffect(Noted(Arrive(e), call), plan, true);
    EntryTakesEffect(Noted(Arrive(e), call), plan, false);
  }

  /** The call at the broker: rejected, or one order more. */
  lemma EntryTakesEffect(here: Env, plan: EntryPlan, withLegs: bool)
    ensures var c := Effect(here, SubmitMarketEntry(plan.symbol, plan.qty, plan.side, EntryCoid(plan)), withLegs);
      if c.result.Err? then c.env.orders == here.orders
      else
        && |c.env.orders| == |here.orders| + 1 && c.env.orders[..|here.orders|] == here.orders
        && c.result.reply.id == |here.orders| && TicketOf(c.env.orders[|here.orders|]) == TicketFor(plan)
  {
  }

  lemma OpeningSends(e: Env, plan: EntryPlan, asked: Ticket -> bool)
    requires plan.qty > 0.0 ==> asked(TicketFor(plan))
    ensures Sends(e.orders, OpenPosition(e, plan).env.orders, asked)
  {
    hide Exec, Sends;
    SendsNothing(e.orders, asked);
    if plan.qty > 0.0 {
      ExecSends(e, SubmitMarketEntry(plan.symbol, plan.qty, plan.side, EntryCoid(plan)), asked);
    }
  }

  /** Its fill has been read, and any fill is protected. */
  predicate LookedAt(p: Pos) {
    p.lastOrderStatus.Some? && (p.filledQty > 0.0 ==> p.status.Open? && p.stopOrderId.Some?)
  }

  lemma SettledIsLookedAt(e: Env, p: Pos)
    requires Settle(e, p).outcome.Returned?
    ensures LookedAt(Settle(e, p).pos)
  {
    SettleRecordsFill(e, p);
  }

  /** Opened, settled and booked: the only entry sent is the plan's, and what is booked
      is what was sent, its fill read and protected. */
  lemma OpenEntrySends(e: Env, book: seq<Pos>, plan: EntryPlan, asked: Ticket -> bool)
    requires BookGrounded(e.orders, book) && (plan.qty > 0.0 ==> asked(TicketFor(plan)))
    ensures var o := OpenEntry(e, book, plan);
      && Sends(e.orders, o.env.orders, asked) && BookGrounded(o.env.orders, o.book)
      && (o.outcome.Returned? ==>
            exists p :: p in o.book && p.entryOrderId >= |e.orders| && OwnTicket(p) == TicketFor(plan) && LookedAt(p))
  {
    hide Settle, OpenPosition, Sends, Grounded;
    OpeningSends(e, plan, asked);
    OpenSendsThePlan(e, plan);
    var o := OpenPosition(e, plan);
    StaysGrounded(e.orders, o.env.orders, book, asked);
    if o.pos.Some? {
      SettleKeeps(o.env, o.pos.value, asked);
      var d := Settle(o.env, o.pos.value);
      SendsChain(e.orders, o.env.orders, d.env.orders, asked);
      StaysGrounded(o.env.orders, d.env.orders, book, asked);
      PutIn(book, d.pos);
      if d.outcome.Returned? { SettledIsLookedAt(o.env, o.pos.value); }
      assert d.pos in Put(book, d.pos);
    }
  }

  lemma PutIn(book: seq<Pos>, p: Pos)
    ensures p in Put(book, p) && forall q :: q in Put(book, p) ==> q == p || q in book
  {
    var at := IndexOf(book, p.symbol);
    assert at.Some? ==> Put(book, p)[at.value] == p;
  }

  lemma PutKeepsOthers(book: seq<Pos>, p: Pos)
    ensures p in Put(book, p)
    ensures forall q :: q in Put(book, p) ==> q == p || q in book
    ensures forall q :: q in book && q.symbol != p.symbol ==> q in Put(book, p)
  {
    PutIn(book, p);
    forall q | q in book && q.symbol != p.symbol ensures q in Put(book, p) {
      var i :| 0 <= i < |book| && book[i] == q;
      assert Put(book, p)[i] == q;
    }
  }

  // ----- one cycle -----

  /** The ticket of an approved candidate, of a cycle that executes. */
  predicate FromCandidate(c: CycleInput, candidate: (Symbol, Verdict), t: Ticket) {
    var v := candidate.1;
    c.execute && v.Approved? && v.qty > 0.0 && t == EntryTicket(candidate.0, v.side, v.qty, v.strategy, c.today)
  }

  predicate Approves(c: CycleInput, t: Ticket) {
    exists k :: 0 <= k < |c.candidates| && FromCandidate(c, c.candidates[k], t)
  }

  lemma ConsiderSends(c: CycleInput, s: EntryPhase, symbol: Symbol, v: Verdict, asked: Ticket -> bool)
    requires BookGrounded(s.env.orders, s.book) && forall t :: FromCandidate(c, (symbol, v), t) ==> asked(t)
    ensures var f := ConsiderOne(c, s, symbol, v);
      Sends(s.env.orders, f.env.orders, asked) && BookGrounded(f.env.orders, f.book)
  {
    hide OpenEntry, Sends, BookGrounded;
    SendsNothing(s.env.orders, asked);
    if v.Approved? && c.execute && v.qty > 0.0 {
      var plan := PlanFor(c, symbol, v);
      assert FromCandidate(c, (symbol, v), TicketFor(plan));
      OpenEntrySends(s.env, s.book, plan, asked);
    }
  }

  lemma {:induction false} EntriesSend(c: CycleInput, s: EntryPhase, candidates: seq<(Symbol, Verdict)>, asked: Ticket -> bool)
    requires BookGrounded(s.env.orders, s.book)
    requires forall k, t :: 0 <= k < |candidates| && FromCandidate(c, candidates[k], t) ==> asked(t)
    ensures var f := ConsiderEntries(c, s, candidates);
      Sends(s.env.orders, f.env.orders, asked) && BookGrounded(f.env.orders, f.book)
    decreases |candidates|
  {
    hide ConsiderOne, Sends, BookGrounded, FromCandidate, Tracked;
    SendsNothing(s.env.orders, asked);
    if candidates != [] && !s.outcome.Raised? {
      var (symbol, v) := candidates[0];
      ConsiderSends(c, s, symbol, v, asked);
      var next := if Tracked(s.book, symbol) then s else ConsiderOne(c, s, symbol, v);
      assert forall k :: 0 <= k < |candidates[1..]| ==> candidates[1..][k] == candidates[k + 1];
      EntriesSend(c, next, candidates[1..], asked);
      SendsChain(s.env.orders, next.env.orders, ConsiderEntries(c, next, candidates[1..]).env.orders, asked);
    }
  }

  lemma {:induction false} CancelsSend(e: Env, ids: seq<OrderId>, asked: Ticket -> bool)
    ensures Sends(e.orders, CancelAll(e, ids).orders, asked)
    decreases |ids|
  {
    hide Retry, Sends;
    SendsNothing(e.orders, asked);
    if ids != [] {
      RetrySends(e, CancelOrder(ids[0]), ATTEMPTS, asked);
      var next := Retry(e, CancelOrder(ids[0]), ATTEMPTS).env;
      CancelsSend(next, ids[1..], asked);
      SendsChain(e.orders, next.orders, CancelAll(next, ids[1..]).orders, asked);
    }
  }

  lemma FlattenSends(c: CycleInput, e: Env, book: seq<Pos>, asked: Ticket -> bool)
    requires BookGrounded(e.orders, book)
    ensures Sends(e.orders, FlattenAll(c, e, book).orders, asked)
  {
    hide ForEach, Retry, Sends, BookGrounded;
    PhaseSends(c, FlattenTask, e, book, 0, asked);
    var f := ForEach(c, FlattenTask, e, book, 0);
    RetrySends(f.env, ListOpenOrders, ATTEMPTS, asked);
    var o := Retry(f.env, ListOpenOrders, ATTEMPTS);
    SendsChain(e.orders, f.env.orders, o.env.orders, asked);
    if o.result.Ok? {
      CancelsSend(o.env, o.result.reply.ids, asked);
      SendsChain(e.orders, o.env.orders, FlattenAll(c, e, book).orders, asked);
    }
  }

  /** Reading the broker. */
  lemma ReadSends(e: Env, call: Call, book: seq<Pos>, asked: Ticket -> bool)
    requires BookGrounded(e.orders, book) && InOrder(e.orders, call, asked)
    ensures var c := Retry(e, call, ATTEMPTS); Sends(e.orders, c.env.orders, asked) && BookGrounded(c.env.orders, book)
  {
    hide Retry, Sends, BookGrounded;
    RetrySends(e, call, ATTEMPTS, asked);
    StaysGrounded(e.orders, Retry(e, call, ATTEMPTS).env.orders, book, asked);
  }

  lemma TwoPhasesSend(c: CycleInput, one: Task, two: Task, e: Env, book: seq<Pos>, asked: Ticket -> bool)
    requires BookGrounded(e.orders, book)
    ensures var f := ForEach(c, one, e, book, 0);
      var g := ForEach(c, two, f.env, f.book, f.errors);
      && Sends(e.orders, f.env.orders, asked) && BookGrounded(f.env.orders, f.book)
      && Sends(e.orders, g.env.orders, asked) && BookGrounded(g.env.orders, g.book)
  {
    hide ForEach, Sends, BookGrounded;
    PhaseSends(c, one, e, book, 0, asked);
    var f := ForEach(c, one, e, book, 0);
    PhaseSends(c, two, f.env, f.book, f.errors, asked);
    SendsChain(e.orders, f.env.orders, ForEach(c, two, f.env, f.book, f.errors).env.orders, asked);
  }

  lemma SettlingSends(c: CycleInput, e: Env, book: seq<Pos>, asked: Ticket -> bool)
    requires BookGrounded(e.orders, book)
    ensures var s := SettleAndRecheck(c, e, book); Sends(e.orders, s.env.orders, asked) && BookGrounded(s.env.orders, s.book)
  {
    hide ForEach, Sends, BookGrounded;
    SendsNothing(e.orders, asked);
    PhaseSends(c, SettleTask, e, book, 0, asked);
    var f := ForEach(c, SettleTask, e, book, 0);
    PhaseSends(c, RecheckTask, f.env, f.book, 0, asked);
    SendsChain(e.orders, f.env.orders, ForEach(c, RecheckTask, f.env, f.book, 0).env.orders, asked);
  }

  lemma CheckpointSends(c: CycleInput, e: Env, book: seq<Pos>, asked: Ticket -> bool)
    requires BookGrounded(e.orders, book)
    ensures var k := UpToReconcile(c, e, book); Sends(e.orders, k.env.orders, asked) && BookGrounded(k.env.orders, k.book)
  {
    hide Retry, SettleAndRecheck, Sends, BookGrounded;
    ReadSends(e, GetAccount, book, asked);
    var a := Retry(e, GetAccount, ATTEMPTS);
    SettlingSends(c, a.env, book, asked);
    var s := SettleAndRecheck(c, a.env, book);
    ReadSends(s.env, ListPositions, s.book, asked);
    var r := Retry(s.env, ListPositions, ATTEMPTS);
    ReadSends(r.env, ListOpenOrders, s.book, asked);
    SendsChain(e.orders, a.env.orders, s.env.orders, asked);
    SendsChain(e.orders, s.env.orders, r.env.orders, asked);
    SendsChain(e.orders, r.env.orders, Retry(r.env, ListOpenOrders, ATTEMPTS).env.orders, asked);
  }

  ghost predicate AllApproved(c: CycleInput, asked: Ticket -> bool) {
    forall k, t :: 0 <= k < |c.candidates| && FromCandidate(c, c.candidates[k], t) ==> asked(t)
  }

  lemma WhileOpenSends(c: CycleInput, e: Env, saved: seq<Pos>, book: seq<Pos>, errors: nat, asked: Ticket -> bool)
    requires BookGrounded(e.orders, book) && BookGrounded(e.orders, saved) && AllApproved(c, asked)
    ensures var end := WhileOpen(c, e, saved, book, errors);
      Sends(e.orders, end.env.orders, asked) && BookGrounded(end.env.orders, end.book)
  {
    hide ForEach, ConsiderEntries, Sends, BookGrounded, FromCandidate;
    PhaseSends(c, ExitTask, e, book, errors, asked);
    var exits := ForEach(c, ExitTask, e, book, errors);
    var start := EntryPhase(exits.env, exits.book, exits.errors, 0, 0, Returned(true));
    EntriesSend(c, start, c.candidates, asked);
    var s := ConsiderEntries(c, start, c.candidates);
    SendsChain(e.orders, exits.env.orders, s.env.orders, asked);
    StaysGrounded(e.orders, s.env.orders, saved, asked);
  }

  lemma AfterReconcileSends(c: CycleInput, e: Env, saved: seq<Pos>, book: seq<Pos>, account: Account, asked: Ticket -> bool)
    requires BookGrounded(e.orders, book) && BookGrounded(e.orders, saved) && AllApproved(c, asked)
    ensures var end := AfterReconcile(c, e, saved, book, account);
      Sends(e.orders, end.env.orders, asked) && BookGrounded(end.env.orders, end.book)
  {
    hide ForEach, FlattenAll, WhileOpen, Retry, Sends, BookGrounded, AllApproved;
    SendsNothing(e.orders, asked);
    FlattenSends(c, e, book, asked);
    StaysGrounded(e.orders, FlattenAll(c, e, book).orders, saved, asked);
    ReadSends(e, IsMarketOpen, book, asked);
    var m := Retry(e, IsMarketOpen, ATTEMPTS);
    TwoPhasesSend(c, RaiseTask, RefreshTask, m.env, book, asked);
    var s := TrailStops(c, m.env, book);
    SendsChain(e.orders, m.env.orders, s.env.orders, asked);
    StaysGrounded(e.orders, s.env.orders, saved, asked);
    WhileOpenSends(c, s.env, saved, s.book, s.errors, asked);
    SendsChain(e.orders, s.env.orders, WhileOpen(c, s.env, saved, s.book, s.errors).env.orders, asked);
  }

  lemma BodySends(c: CycleInput, e: Env, saved: seq<Pos>, asked: Ticket -> bool)
    requires BookGrounded(e.orders, saved) && AllApproved(c, asked)
    ensures var end := Body(c, e, saved); Sends(e.orders, end.env.orders, asked) && BookGrounded(end.env.orders, end.book)
  {
    hide UpToReconcile, ForEach, AfterReconcile, Reconcile, Sends, BookGrounded, AllApproved;
    CheckpointSends(c, e, saved, asked);
    var k := UpToReconcile(c, e, saved);
    if k.Read? {
      var sync := SyncTask(Reconcile(k.book, k.snap).autoClosed);
      PhaseSends(c, sync, k.env, k.book, 0, asked);
      var synced := ForEach(c, sync, k.env, k.book, 0);
      SendsChain(e.orders, k.env.orders, synced.env.orders, asked);
      StaysGrounded(e.orders, synced.env.orders, saved, asked);
      AfterReconcileSends(c, synced.env, saved, synced.book, k.account, asked);
      SendsChain(e.orders, synced.env.orders, AfterReconcile(c, synced.env, saved, synced.book, k.account).env.orders, asked);
    }
  }

  /** Whatever way a cycle goes, each entry it sends is an approved candidate's, on its
      side, for its quantity, once. */
  lemma CycleSends(c: CycleInput, d: Desk)
    requires BookGrounded(d.env.orders, d.book)
    ensures var after := RunCycle(c, d);
      Sends(d.env.orders, after.env.orders, t => Approves(c, t)) && BookGrounded(after.env.orders, after.book)
  {
    hide Body, Sends, BookGrounded, FromCandidate;
    var asked: Ticket -> bool := t => Approves(c, t);
    SendsNothing(d.env.orders, asked);
    BodySends(c, d.env, d.book, asked);
  }
}
