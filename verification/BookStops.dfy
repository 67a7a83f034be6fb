/** Every stop in the book, through everything a cycle does: other positions'
    settles, raises and closes never disturb a position's own sandwich, and every
    cycle that saves its book saves one in which all stops stand. */
module BookStops {
  import opened Common
  import opened Ratchets
  import opened Brokers
  import opened OrderHistory
  import opened OrderManagers
  import opened StopSandwich
  import opened Reconcilers
  import opened Cycles
  import opened CycleSafety
  import opened EarlyReturns
  import CB = CircuitBreakers

  // ----- what is known of each stop -----

  /** Protection is placed all at once or not at all: while its client id is free,
      no stop rests under it. */
  ghost predicate Placeable(orders: seq<Order>, p: Pos) {
    CoidUsed(orders, ProtectCoid(p)) || Unseen(orders, StopCoid(p))
  }

  /** An entry whose protection the bot has not seen confirmed. */
  ghost predicate Awaiting(orders: seq<Order>, p: Pos) {
    && p.stopOrderId.None? && p.ratchet.side == p.side && p.currentStop == p.ratchet.stop
    && CoidUsed(orders, EntryIdFor(ProtectCoid(p))) && Placeable(orders, p)
  }

  ghost predicate StopOk(orders: seq<Order>, p: Pos) {
    && (p.status.Open? ==> Sandwiched(orders, p))
    && (p.status.PendingEntry? ==> Awaiting(orders, p))
  }

  ghost predicate StopsOk(orders: seq<Order>, book: seq<Pos>) {
    && Rooted(orders)
    && forall i :: 0 <= i < |book| ==> StopOk(orders, book[i])
  }

  // ----- minding one's own symbol -----

  ghost predicate OthersAlone(a: seq<Order>, b: seq<Order>, symbol: Symbol) {
    forall other :: other != symbol ==> LeavesAlone(a, b, other)
  }

  lemma OthersAloneChain(a: seq<Order>, b: seq<Order>, c: seq<Order>, symbol: Symbol)
    requires OthersAlone(a, b, symbol) && OthersAlone(b, c, symbol)
    ensures OthersAlone(a, c, symbol)
  {
    hide LeavesAlone;
    forall other | other != symbol ensures LeavesAlone(a, c, other) {
      LeavesAloneChain(a, b, c, other);
    }
  }

  lemma OthersKeepStop(a: seq<Order>, b: seq<Order>, p: Pos)
    requires LeavesAlone(a, b, p.symbol) && StopOk(a, p)
    ensures StopOk(b, p)
  {
    if p.status.Open? {
      OthersKeepSandwich(a, b, p);
    } else if p.status.PendingEntry? {
      CoidStays(a, b, EntryIdFor(ProtectCoid(p)), p.symbol);
      if CoidUsed(a, ProtectCoid(p)) {
        CoidStays(a, b, ProtectCoid(p), p.symbol);
      } else {
        forall i | 0 <= i < |b| ensures b[i].coid != StopCoid(p) {
          assert i < |a| ==> b[i].coid == a[i].coid;
        }
      }
    }
  }

  lemma CoidStays(a: seq<Order>, b: seq<Order>, coid: Coid, symbol: Symbol)
    requires LeavesAlone(a, b, symbol) && CoidUsed(a, coid)
    ensures CoidUsed(b, coid)
  {
    var i :| 0 <= i < |a| && a[i].coid == coid;
    assert b[i].coid == coid;
  }

  /** One call about `symbol`. */
  lemma ExecMinds(e: Env, call: Call, symbol: Symbol)
    requires Rooted(e.orders) && Roots(e.orders, call)
    requires forall other :: other != symbol ==> Spares(e.orders, call, other)
    ensures Rooted(Exec(e, call).env.orders) && OthersAlone(e.orders, Exec(e, call).env.orders, symbol)
  {
    hide Exec, Rooted, Roots, Spares, LeavesAlone;
    ExecKeepsRooted(e, call);
    forall other | other != symbol ensures LeavesAlone(e.orders, Exec(e, call).env.orders, other) {
      ExecLeavesAlone(e, call, other);
    }
  }

  lemma RetryMinds(e: Env, call: Call, attempts: nat, symbol: Symbol)
    requires attempts >= 1 && Rooted(e.orders) && Roots(e.orders, call)
    requires forall other :: other != symbol ==> Spares(e.orders, call, other)
    ensures Rooted(Retry(e, call, attempts).env.orders) && OthersAlone(e.orders, Retry(e, call, attempts).env.orders, symbol)
  {
    hide Retry, Rooted, Roots, Spares, LeavesAlone;
    RetryKeepsRooted(e, call, attempts);
    forall other | other != symbol ensures LeavesAlone(e.orders, Retry(e, call, attempts).env.orders, other) {
      RetryLeavesAlone(e, call, attempts, other);
    }
  }

  /** A read, a close or a cancel disturbs no stop at all. */
  predicate AddsNothing(call: Call) {
    !call.SubmitMarketEntry? && !call.SubmitStop? && !call.SubmitOcoExit? && !call.ReplaceStop?
  }

  ghost predicate AllAlone(a: seq<Order>, b: seq<Order>) { forall s :: LeavesAlone(a, b, s) }

  lemma AllAloneChain(a: seq<Order>, b: seq<Order>, c: seq<Order>)
    requires AllAlone(a, b) && AllAlone(b, c)
    ensures AllAlone(a, c)
  {
    hide LeavesAlone;
    forall s ensures LeavesAlone(a, c, s) {
      LeavesAloneChain(a, b, c, s);
    }
  }

  lemma ExecDisturbsNothing(e: Env, call: Call)
    requires Rooted(e.orders) && AddsNothing(call)
    ensures Rooted(Exec(e, call).env.orders) && AllAlone(e.orders, Exec(e, call).env.orders)
  {
    hide Exec, Rooted, LeavesAlone;
    ExecKeepsRooted(e, call);
    forall s ensures LeavesAlone(e.orders, Exec(e, call).env.orders, s) {
      ExecLeavesAlone(e, call, s);
    }
  }

  lemma RetryDisturbsNothing(e: Env, call: Call, attempts: nat)
    requires attempts >= 1 && Rooted(e.orders) && AddsNothing(call)
    ensures Rooted(Retry(e, call, attempts).env.orders) && AllAlone(e.orders, Retry(e, call, attempts).env.orders)
  {
    hide Retry, Rooted, LeavesAlone;
    RetryKeepsRooted(e, call, attempts);
    forall s ensures LeavesAlone(e.orders, Retry(e, call, attempts).env.orders, s) {
      RetryLeavesAlone(e, call, attempts, s);
    }
  }

  lemma UndisturbedStops(a: seq<Order>, b: seq<Order>, book: seq<Pos>)
    requires StopsOk(a, book) && Rooted(b) && AllAlone(a, b)
    ensures StopsOk(b, book)
  {
    hide StopOk, Rooted, LeavesAlone;
    forall i | 0 <= i < |book| ensures StopOk(b, book[i]) {
      OthersKeepStop(a, b, book[i]);
    }
  }

  // ----- placing protection -----

  lemma ProtectStaysPlaceable(e: Env, p: Pos)
    requires Placeable(e.orders, p)
    ensures Placeable(Exec(e, ProtectCall(p)).env.orders, p)
  {
    var call := ProtectCall(p);
    ExecAges(e, call);
    if CoidUsed(e.orders, ProtectCoid(p)) {
      AgedCoidUsed(e.orders, Exec(e, call).env.orders, ProtectCoid(p));
    } else {
      ArriveEvolves(e, call);
      var here := Noted(Arrive(e), call);
      forall i | 0 <= i < |here.orders| ensures here.orders[i].coid != StopCoid(p) {
        assert i < |e.orders| ==> SameTerms(e.orders[i], here.orders[i]);
      }
      PlacingUses(here, p, true);
      PlacingUses(here, p, false);
    }
  }

  lemma PlacingUses(here: Env, p: Pos, withLegs: bool)
    ensures CoidUsed(Effect(here, ProtectCall(p), withLegs).env.orders, ProtectCoid(p))
  {
    var after := Effect(here, ProtectCall(p), withLegs).env.orders;
    if !CoidUsed(here.orders, ProtectCoid(p)) {
      assert after[|after| - 1].coid == ProtectCoid(p);
    }
  }

  lemma {:induction false} RetryStaysPlaceable(e: Env, p: Pos, attempts: nat)
    requires attempts >= 1 && Placeable(e.orders, p)
    ensures Placeable(Retry(e, ProtectCall(p), attempts).env.orders, p)
    decreases attempts
  {
    hide Exec, Placeable, ProtectCall;
    ProtectStaysPlaceable(e, p);
    if attempts > 1 {
      RetryStaysPlaceable(Exec(e, ProtectCall(p)).env, p, attempts - 1);
    }
  }

  lemma AttachIsProtectCall(e: Env, p: Pos)
    ensures AttachProtection(e, p).env == Retry(e, ProtectCall(p), ATTEMPTS).env
    ensures AttachProtection(e, p).outcome.Returned? ==> Retry(e, ProtectCall(p), ATTEMPTS).result.Ok?
    ensures AttachProtection(e, p).outcome.Raised? ==> AttachProtection(e, p).pos == p
    ensures AttachProtection(e, p).pos.symbol == p.symbol
  {
    hide Retry;
  }

  lemma AttachKeepsStops(e: Env, p: Pos)
    requires Rooted(e.orders) && Awaiting(e.orders, p)
    ensures var d := AttachProtection(e, p);
      && Rooted(d.env.orders) && OthersAlone(e.orders, d.env.orders, p.symbol) && Awaiting(d.env.orders, p)
      && d.pos.symbol == p.symbol && (if d.outcome.Returned? then Sandwiched(d.env.orders, d.pos) else d.pos == p)
  {
    hide AttachProtection, Retry, Rooted, CoidUsed, Unseen, Sandwiched;
    AttachIsProtectCall(e, p);
    var call := ProtectCall(p);
    RetryMinds(e, call, ATTEMPTS, p.symbol);
    RetryStaysPlaceable(e, p, ATTEMPTS);
    RetryAges(e, call, ATTEMPTS);
    AgedCoidUsed(e.orders, Retry(e, call, ATTEMPTS).env.orders, EntryIdFor(ProtectCoid(p)));
    if AttachProtection(e, p).outcome.Returned? {
      if CoidUsed(e.orders, ProtectCoid(p)) {
        RetryProtectRejected(e, p, ATTEMPTS);
      }
      UnseenIs(e.orders, ProtectCoid(p));
      AttachStartsSandwich(e, p);
    }
  }

  lemma SettleKeepsStops(e: Env, p: Pos)
    requires Rooted(e.orders) && p.status.PendingEntry? && Awaiting(e.orders, p)
    ensures var d := Settle(e, p);
      && Rooted(d.env.orders) && OthersAlone(e.orders, d.env.orders, p.symbol)
      && d.pos.symbol == p.symbol && StopOk(d.env.orders, d.pos) && StopOk(d.env.orders, p)
  {
    hide AttachProtection, Retry, Rooted, CoidUsed, Unseen, Sandwiched, Awaiting;
    var c := Retry(e, GetOrder(p.entryOrderId), ATTEMPTS);
    RetryMinds(e, GetOrder(p.entryOrderId), ATTEMPTS, p.symbol);
    RetryDisturbsNothing(e, GetOrder(p.entryOrderId), ATTEMPTS);
    OthersKeepStop(e.orders, c.env.orders, p);
    if c.result.Ok? {
      var o := c.result.reply.order;
      var q := p.(filledQty := o.filledQty, lastOrderStatus := Some(o.status));
      AwaitingApart(c.env.orders, p, q);
      if q.filledQty > 0.0 {
        SettleAttaches(e, p);
        AttachKeepsStops(c.env, q);
        OthersAloneChain(e.orders, c.env.orders, AttachProtection(c.env, q).env.orders, p.symbol);
        AwaitingApart(AttachProtection(c.env, q).env.orders, q, p);
        if AttachProtection(c.env, q).outcome.Returned? {
          StatusApart(AttachProtection(c.env, q).env.orders, AttachProtection(c.env, q).pos);
        }
      }
    }
  }

  /** Unfolds a settle that finds a fill. */
  lemma SettleAttaches(e: Env, p: Pos)
    requires p.stopOrderId.None? || Awaiting(e.orders, p)
    requires var c := Retry(e, GetOrder(p.entryOrderId), ATTEMPTS); c.result.Ok? && c.result.reply.order.filledQty > 0.0
    ensures var c := Retry(e, GetOrder(p.entryOrderId), ATTEMPTS);
      var a := AttachProtection(c.env, p.(filledQty := c.result.reply.order.filledQty, lastOrderStatus := Some(c.result.reply.order.status)));
      Settle(e, p) == if a.outcome.Raised? then a else a.(pos := a.pos.(status := PositionStatus.Open))
  {
    hide AttachProtection, Retry;
  }

  lemma AwaitingApart(orders: seq<Order>, p: Pos, q: Pos)
    requires Awaiting(orders, p) && q == p.(filledQty := q.filledQty, lastOrderStatus := q.lastOrderStatus)
    ensures Awaiting(orders, q)
  {
  }

  // ----- the other operations on one position -----

  /** What an operation on an OPEN position keeps. */
  ghost predicate Tidy(e: Env, p: Pos, d: Done) {
    && Rooted(d.env.orders) && OthersAlone(e.orders, d.env.orders, p.symbol)
    && d.pos.symbol == p.symbol && d.pos.status == p.status
    && Sandwiched(d.env.orders, d.pos) && NeverLoosened(e.orders, p, d.env.orders, d.pos)
    && StopCoid(d.pos) == StopCoid(p) && d.pos.side == p.side
  }

  lemma OwnStopOnly(orders: seq<Order>, p: Pos, level: real)
    requires Sandwiched(orders, p)
    ensures forall other :: other != p.symbol ==> Spares(orders, ReplaceStop(p.stopOrderId.value, level), other)
  {
  }

  lemma RaiseIsTidy(e: Env, p: Pos, price: real, atr: Option<real>)
    requires Rooted(e.orders) && Sandwiched(e.orders, p)
    ensures Tidy(e, p, RaiseStop(e, p, price, atr))
  {
    hide Exec, Rooted, LeavesAlone, NeverLoosened, Spares;
    OpKeepsSandwich(e, p, Raise(price, atr));
    var level := Updated(p.ratchet, price, atr).stop;
    OwnStopOnly(e.orders, p, level);
    ExecMinds(e, ReplaceStop(p.stopOrderId.value, level), p.symbol);
    SameOrders(e.orders, p.symbol);
  }

  lemma SameOrders(orders: seq<Order>, symbol: Symbol)
    ensures OthersAlone(orders, orders, symbol)
  {
  }

  lemma RefreshIsTidy(e: Env, p: Pos, minDays: int)
    requires Rooted(e.orders) && Sandwiched(e.orders, p)
    ensures Tidy(e, p, RefreshStaleStop(e, p, minDays))
  {
    hide Retry, Rooted, LeavesAlone, NeverLoosened, Spares, Sandwiched;
    OpKeepsSandwich(e, p, Refresh(minDays));
    HasStopId(e.orders, p);
    var k := p.stopOrderId.value;
    RetryDisturbsNothing(e, GetOrder(k), ATTEMPTS);
    RetryGetOrderEvolves(e, k, ATTEMPTS);
    var c := Retry(e, GetOrder(k), ATTEMPTS);
    EvolvedKeepsSandwich(e.orders, c.env.orders, p);
    OwnStopOnly(c.env.orders, p, p.currentStop);
    RetryMinds(c.env, ReplaceStop(k, p.currentStop), ATTEMPTS, p.symbol);
    OthersAloneChain(e.orders, c.env.orders, Retry(c.env, ReplaceStop(k, p.currentStop), ATTEMPTS).env.orders, p.symbol);
  }

  lemma HasStopId(orders: seq<Order>, p: Pos)
    requires Sandwiched(orders, p)
    ensures p.stopOrderId.Some?
  {
  }

  lemma RecheckIsTidy(e: Env, p: Pos)
    requires Rooted(e.orders) && Sandwiched(e.orders, p)
    ensures Tidy(e, p, RecheckPartialFill(e, p))
  {
    hide Retry, Rooted, LeavesAlone, NeverLoosened, Spares, Sandwiched;
    OpKeepsSandwich(e, p, Recheck);
    RetryDisturbsNothing(e, GetOrder(p.entryOrderId), ATTEMPTS);
  }

  lemma TrailIsTidy(e: Env, p: Pos, price: real, atr: Option<real>)
    requires Rooted(e.orders) && Sandwiched(e.orders, p)
    ensures Tidy(e, p, Done(e, ShadowTrail(p, price, atr), Returned(true)))
  {
    OpKeepsSandwich(e, p, Trail(price, atr));
    SameOrders(e.orders, p.symbol);
  }

  lemma CloseDisturbsNothing(e: Env, p: Pos)
    requires Rooted(e.orders)
    ensures Rooted(Close(e, p).env.orders) && AllAlone(e.orders, Close(e, p).env.orders)
  {
    hide Exec, Rooted, LeavesAlone;
    ExecDisturbsNothing(e, ClosePosition(p.symbol));
  }

  // ----- one position's turn in a phase -----

  /** Its own stop stands, the others were left alone; and unless the phase was
      raising stops, so does the record the turn started from. */
  ghost predicate TurnOk(task: Task, e: Env, p: Pos, t: Tended) {
    && Rooted(t.env.orders) && OthersAlone(e.orders, t.env.orders, p.symbol)
    && (t.kept.Some? ==> StopOk(t.env.orders, t.kept.value) && t.kept.value.symbol == p.symbol)
    && (task.SettleTask? ==> StopOk(t.env.orders, p))
  }

  lemma TidyIsOk(task: Task, e: Env, p: Pos, d: Done, t: Tended)
    requires p.status.Open? && Tidy(e, p, d) && t.env == d.env && t.kept == Some(d.pos) && !task.SettleTask?
    ensures TurnOk(task, e, p, t)
  {
  }

  lemma UntouchedIsOk(task: Task, e: Env, p: Pos, t: Tended)
    requires Rooted(e.orders) && StopOk(e.orders, p) && t.env == e && (t.kept.Some? ==> t.kept == Some(p))
    ensures TurnOk(task, e, p, t)
  {
    SameOrders(e.orders, p.symbol);
  }

  lemma QuietIsOk(task: Task, e: Env, p: Pos, t: Tended)
    requires StopOk(e.orders, p) && Rooted(t.env.orders) && AllAlone(e.orders, t.env.orders) && !task.SettleTask?
    requires t.kept.Some? ==> t.kept.value == p || (t.kept.value == p.(status := Closed))
    ensures TurnOk(task, e, p, t)
  {
    OthersKeepStop(e.orders, t.env.orders, p);
  }

  lemma TendKeepsStops(c: CycleInput, task: Task, e: Env, p: Pos, errors: nat)
    requires Rooted(e.orders) && StopOk(e.orders, p)
    ensures TurnOk(task, e, p, Tend(c, task, e, p, errors))
  {
    hide Settle, RecheckPartialFill, RaiseStop, RefreshStaleStop, Exec, Rooted, Sandwiched, Awaiting, TurnOk, Tidy, AllAlone, Updated;
    var t := Tend(c, task, e, p, errors);
    if t.env == e && t.kept == Some(p) {
      UntouchedIsOk(task, e, p, t);
    } else {
      match task
      case SettleTask => SettleTurn(c, e, p, errors);
      case RecheckTask =>
        RecheckIsTidy(e, p);
        TidyIsOk(task, e, p, RecheckPartialFill(e, p), t);
      case SyncTask(closed) => SyncTurn(c, closed, e, p, errors);
      case RaiseTask =>
        if c.execute {
          RaiseIsTidy(e, p, c.barsForStops(p.symbol).price, c.barsForStops(p.symbol).atr);
          TidyIsOk(task, e, p, RaiseStop(e, p, c.barsForStops(p.symbol).price, c.barsForStops(p.symbol).atr), t);
        } else {
          TrailIsTidy(e, p, c.barsForStops(p.symbol).price, c.barsForStops(p.symbol).atr);
          TidyIsOk(task, e, p, Done(e, ShadowTrail(p, c.barsForStops(p.symbol).price, c.barsForStops(p.symbol).atr), Returned(true)), t);
        }
      case RefreshTask =>
        RefreshIsTidy(e, p, c.minDaysRemaining);
        TidyIsOk(task, e, p, RefreshStaleStop(e, p, c.minDaysRemaining), t);
      case _ =>
        CloseDisturbsNothing(e, p);
        QuietIsOk(task, e, p, t);
    }
  }

  lemma SettleTurn(c: CycleInput, e: Env, p: Pos, errors: nat)
    requires Rooted(e.orders) && StopOk(e.orders, p) && p.status.PendingEntry?
    ensures TurnOk(SettleTask, e, p, Tend(c, SettleTask, e, p, errors))
  {
    hide Settle, Rooted, Awaiting, Sandwiched;
    SettleKeepsStops(e, p);
  }

  lemma SyncTurn(c: CycleInput, closed: seq<Symbol>, e: Env, p: Pos, errors: nat)
    requires Rooted(e.orders) && StopOk(e.orders, p) && p.symbol in closed
    ensures TurnOk(SyncTask(closed), e, p, Tend(c, SyncTask(closed), e, p, errors))
  {
    hide Exec, Rooted, StopOk, TurnOk, AllAlone;
    var t := Tend(c, SyncTask(closed), e, p, errors);
    if p.stopOrderId.Some? {
      ExecDisturbsNothing(e, GetOrder(p.stopOrderId.value));
    } else {
      Undisturbed(e.orders);
    }
    QuietIsOk(SyncTask(closed), e, p, t);
  }

  lemma Undisturbed(orders: seq<Order>)
    ensures AllAlone(orders, orders)
  {
  }

  // ----- a phase over the book -----

  /** Symbols that had no turn were left alone. */
  ghost predicate StrangersAlone(a: seq<Order>, b: seq<Order>, todo: seq<Pos>) {
    forall s :: !HasSymbol(todo, s) ==> LeavesAlone(a, b, s)
  }

  lemma {:induction false} ForEachKeepsStops(c: CycleInput, task: Task, e: Env, todo: seq<Pos>, errors: nat)
    requires DistinctSymbols(todo) && StopsOk(e.orders, todo)
    ensures var f := ForEach(c, task, e, todo, errors);
      && StopsOk(f.env.orders, f.book) && StrangersAlone(e.orders, f.env.orders, todo)
      && (task.SettleTask? ==> StopsOk(f.env.orders, todo))
    decreases |todo|
  {
    hide Rooted, StopOk, LeavesAlone, Tend;
    if todo == [] {
      SameOrders(e.orders, "");
      Undisturbed(e.orders);
    } else {
      TendKeepsStops(c, task, e, todo[0], errors);
      var t := Tend(c, task, e, todo[0], errors);
      TailKeepsStops(e.orders, t.env.orders, todo);
      if t.outcome.Raised? {
        ConsStops(t.env.orders, Kept(t), todo[1..]);
        ConsStrangers(e.orders, t.env.orders, t.env.orders, todo);
        if task.SettleTask? { ConsStops(t.env.orders, [todo[0]], todo[1..]); }
      } else {
        ForEachKeepsStops(c, task, t.env, todo[1..], t.errors);
        var rest := ForEach(c, task, t.env, todo[1..], t.errors);
        ConsStrangers(e.orders, t.env.orders, rest.env.orders, todo);
        HeadIsStranger(todo);
        assert LeavesAlone(t.env.orders, rest.env.orders, todo[0].symbol);
        if t.kept.Some? { OthersKeepStop(t.env.orders, rest.env.orders, t.kept.value); }
        ConsStops(rest.env.orders, Kept(t), rest.book);
        if task.SettleTask? {
          OthersKeepStop(t.env.orders, rest.env.orders, todo[0]);
          ConsStops(rest.env.orders, [todo[0]], todo[1..]);
        }
      }
    }
  }

  lemma HeadIsStranger(todo: seq<Pos>)
    requires DistinctSymbols(todo) && todo != []
    ensures !HasSymbol(todo[1..], todo[0].symbol)
  {
    forall i | 0 <= i < |todo[1..]| ensures todo[1..][i].symbol != todo[0].symbol {
      assert todo[1..][i] == todo[i + 1];
    }
  }

  lemma TailKeepsStops(a: seq<Order>, b: seq<Order>, todo: seq<Pos>)
    requires DistinctSymbols(todo) && todo != [] && StopsOk(a, todo) && Rooted(b) && OthersAlone(a, b, todo[0].symbol)
    ensures StopsOk(b, todo[1..])
  {
    hide Rooted, StopOk, LeavesAlone;
    forall i | 0 <= i < |todo[1..]| ensures StopOk(b, todo[1..][i]) {
      assert todo[1..][i] == todo[i + 1];
      OthersKeepStop(a, b, todo[i + 1]);
    }
  }

  lemma ConsStops(orders: seq<Order>, head: seq<Pos>, tail: seq<Pos>)
    requires StopsOk(orders, tail) && forall i :: 0 <= i < |head| ==> StopOk(orders, head[i])
    ensures StopsOk(orders, head + tail)
    ensures |head| == 1 ==> head + tail == [head[0]] + tail
  {
    hide StopOk, Rooted;
  }

  lemma ConsStrangers(a: seq<Order>, b: seq<Order>, c: seq<Order>, todo: seq<Pos>)
    requires todo != [] && OthersAlone(a, b, todo[0].symbol) && (b == c || StrangersAlone(b, c, todo[1..]))
    ensures StrangersAlone(a, c, todo)
  {
    hide LeavesAlone;
    forall s | !HasSymbol(todo, s) ensures LeavesAlone(a, c, s) {
      StrangerToTail(todo, s);
      if b != c {
        LeavesAloneChain(a, b, c, s);
      }
    }
  }

  lemma StrangerToTail(todo: seq<Pos>, s: Symbol)
    requires todo != [] && !HasSymbol(todo, s)
    ensures !HasSymbol(todo[1..], s) && s != todo[0].symbol
  {
    forall i | 0 <= i < |todo[1..]| ensures todo[1..][i].symbol != s {
      assert todo[1..][i] == todo[i + 1];
    }
  }

  // ----- the phases that move stops, over the whole book -----

  predicate MovesStops(task: Task) { task.RaiseTask? || task.RefreshTask? || task.RecheckTask? }

  /** The position at `i` is OPEN before and after, sandwiched, and nothing it
      relies on moved away from profit. */
  ghost predicate Firm(a: seq<Order>, p: Pos, b: seq<Order>, q: Pos) {
    && q.symbol == p.symbol && q.status.Open? && Sandwiched(b, q)
    && NeverLoosened(a, p, b, q) && StopCoid(q) == StopCoid(p) && q.side == p.side
  }

  lemma TendIsFirm(c: CycleInput, task: Task, e: Env, p: Pos, errors: nat)
    requires MovesStops(task) && Rooted(e.orders) && p.status.Open? && Sandwiched(e.orders, p)
    ensures var t := Tend(c, task, e, p, errors);
      && t.kept.Some? && Firm(e.orders, p, t.env.orders, t.kept.value)
      && Rooted(t.env.orders) && OthersAlone(e.orders, t.env.orders, p.symbol)
  {
    hide RecheckPartialFill, RaiseStop, RefreshStaleStop, Rooted, Sandwiched, NeverLoosened, Updated;
    StaysPut(e.orders, p);
    if task.RaiseTask? {
      var bars := c.barsForStops(p.symbol);
      if bars.FreshBars? {
        RaiseIsTidy(e, p, bars.price, bars.atr);
        TrailIsTidy(e, p, bars.price, bars.atr);
      }
    } else if task.RefreshTask? {
      RefreshIsTidy(e, p, c.minDaysRemaining);
    } else {
      RecheckIsTidy(e, p);
    }
  }

  lemma StaysPut(orders: seq<Order>, p: Pos)
    requires Sandwiched(orders, p)
    ensures NeverLoosened(orders, p, orders, p) && OthersAlone(orders, orders, p.symbol)
  {
    SameOrders(orders, p.symbol);
    assert LeavesAlone(orders, orders, p.symbol);
    OthersKeepSandwich(orders, orders, p);
  }

  /** Over a phase that raises, refreshes or rechecks every stop in turn, whatever
      calls are lost and wherever it is cut short: every OPEN position is still
      there, still sandwiched, and none of its three levels ever loosened. */
  lemma {:induction false} PhaseNeverLoosens(c: CycleInput, task: Task, e: Env, todo: seq<Pos>, errors: nat, i: nat)
    requires MovesStops(task) && DistinctSymbols(todo) && StopsOk(e.orders, todo)
    requires i < |todo| && todo[i].status.Open?
    ensures var f := ForEach(c, task, e, todo, errors);
      |f.book| == |todo| && Firm(e.orders, todo[i], f.env.orders, f.book[i])
    decreases |todo|
  {
    hide Rooted, LeavesAlone, Tend, Firm, Sandwiched, Awaiting;
    KeptInPlace(c, task, e, todo, errors);
    var t := Tend(c, task, e, todo[0], errors);
    TendKeepsStops(c, task, e, todo[0], errors);
    TailKeepsStops(e.orders, t.env.orders, todo);
    var f := ForEach(c, task, e, todo, errors);
    if i == 0 {
      TendIsFirm(c, task, e, todo[0], errors);
      if t.outcome.Returned? {
        ForEachKeepsStops(c, task, t.env, todo[1..], t.errors);
        HeadIsStranger(todo);
        FirmAfterOthers(e.orders, todo[0], t.env.orders, t.kept.value, f.env.orders);
      }
    } else {
      assert todo[1..][i - 1] == todo[i];
      assert todo[i].symbol != todo[0].symbol;
      if t.outcome.Returned? {
        PhaseNeverLoosens(c, task, t.env, todo[1..], t.errors, i - 1);
        OthersThenFirm(e.orders, t.env.orders, todo[i], f.env.orders, f.book[i]);
      } else {
        OthersFirm(e.orders, t.env.orders, todo[i]);
      }
    }
  }

  lemma {:induction false} KeptInPlace(c: CycleInput, task: Task, e: Env, todo: seq<Pos>, errors: nat)
    requires MovesStops(task)
    ensures |ForEach(c, task, e, todo, errors).book| == |todo|
    ensures todo != [] ==> Tend(c, task, e, todo[0], errors).kept.Some?
    decreases |todo|
  {
    hide RecheckPartialFill, RaiseStop, RefreshStaleStop;
    if todo != [] {
      var t := Tend(c, task, e, todo[0], errors);
      KeptInPlace(c, task, t.env, todo[1..], t.errors);
    }
  }

  lemma OthersFirm(a: seq<Order>, b: seq<Order>, p: Pos)
    requires p.status.Open? && Sandwiched(a, p) && LeavesAlone(a, b, p.symbol)
    ensures Firm(a, p, b, p)
  {
    OthersKeepSandwich(a, b, p);
  }

  lemma FirmAfterOthers(a: seq<Order>, p: Pos, b: seq<Order>, q: Pos, c: seq<Order>)
    requires Firm(a, p, b, q) && LeavesAlone(b, c, q.symbol)
    ensures Firm(a, p, c, q)
  {
    hide NeverLoosened, LeavesAlone, Sandwiched;
    OthersKeepSandwich(b, c, q);
    NeverLoosenedChain(a, p, b, q, c, q);
  }

  lemma OthersThenFirm(a: seq<Order>, b: seq<Order>, p: Pos, c: seq<Order>, q: Pos)
    requires Sandwiched(a, p) && LeavesAlone(a, b, p.symbol) && Firm(b, p, c, q)
    ensures Firm(a, p, c, q)
  {
    hide NeverLoosened, LeavesAlone, Sandwiched;
    OthersKeepSandwich(a, b, p);
    NeverLoosenedChain(a, p, b, p, c, q);
  }

  // ----- entries -----

  /** A new entry starts with its protection still to be placed. */
  lemma NewEntryAwaits(e: Env, plan: EntryPlan)
    requires Rooted(e.orders) && plan.ratchet.side == plan.side
    ensures var o := OpenPosition(e, plan);
      && Rooted(o.env.orders) && OthersAlone(e.orders, o.env.orders, plan.symbol)
      && (o.pos.Some? ==> o.pos.value.symbol == plan.symbol && o.pos.value.status.PendingEntry? && Awaiting(o.env.orders, o.pos.value))
  {
    hide Exec, Rooted, LeavesAlone, Awaiting;
    SameOrders(e.orders, plan.symbol);
    if plan.qty > 0.0 {
      var call := SubmitMarketEntry(plan.symbol, plan.qty, plan.side, EntryCoid(plan));
      ExecMinds(e, call, plan.symbol);
      if Exec(e, call).result.Ok? {
        SubmittedEntryAwaits(e, plan);
      }
    }
  }

  lemma SubmittedEntryAwaits(e: Env, plan: EntryPlan)
    requires Rooted(e.orders) && plan.ratchet.side == plan.side
    requires Exec(e, SubmitMarketEntry(plan.symbol, plan.qty, plan.side, EntryCoid(plan))).result.Ok?
    ensures var c := Exec(e, SubmitMarketEntry(plan.symbol, plan.qty, plan.side, EntryCoid(plan)));
      Awaiting(c.env.orders, NewPosition(plan, c.result.reply.id))
  {
    hide Rooted, Arrive;
    var call := SubmitMarketEntry(plan.symbol, plan.qty, plan.side, EntryCoid(plan));
    var here, c := Noted(Arrive(e), call), Exec(e, call);
    var p := NewPosition(plan, c.result.reply.id);
    ArriveEvolves(e, call);
    EvolvedStaysRooted(e.orders, here.orders);
    var n := |here.orders|;
    assert c.env.orders[n].coid == EntryCoid(plan) == EntryIdFor(ProtectCoid(p));
    UnseenIs(here.orders, EntryCoid(plan));
    FreshEntryIsBare(here.orders, EntryCoid(plan), StopCoid(p).kind);
    assert Unseen(c.env.orders, StopCoid(p));
  }

  lemma OpenEntryKeepsStops(e: Env, book: seq<Pos>, plan: EntryPlan)
    requires DistinctSymbols(book) && StopsOk(e.orders, book) && !Tracked(book, plan.symbol) && plan.ratchet.side == plan.side
    ensures StopsOk(OpenEntry(e, book, plan).env.orders, OpenEntry(e, book, plan).book)
  {
    hide Settle, OpenPosition, Rooted, StopOk, Awaiting, Sandwiched;
    NewEntryAwaits(e, plan);
    var o := OpenPosition(e, plan);
    RestKeepStops(e.orders, o.env.orders, book, plan.symbol);
    if o.pos.Some? {
      SettleKeepsStops(o.env, o.pos.value);
      var d := Settle(o.env, o.pos.value);
      RestKeepStops(o.env.orders, d.env.orders, book, plan.symbol);
      PutKeepsStops(d.env.orders, book, d.pos);
    }
  }

  /** Stops of positions in other symbols; a closed record has none. */
  lemma RestKeepStops(a: seq<Order>, b: seq<Order>, book: seq<Pos>, symbol: Symbol)
    requires StopsOk(a, book) && Rooted(b) && OthersAlone(a, b, symbol) && !Tracked(book, symbol)
    ensures StopsOk(b, book)
  {
    hide Rooted, LeavesAlone, Awaiting, Sandwiched;
    forall i | 0 <= i < |book| ensures StopOk(b, book[i]) {
      if book[i].symbol != symbol {
        OthersKeepStop(a, b, book[i]);
      }
    }
  }

  lemma PutKeepsStops(orders: seq<Order>, book: seq<Pos>, p: Pos)
    requires StopsOk(orders, book) && StopOk(orders, p)
    ensures StopsOk(orders, Put(book, p))
  {
    hide Rooted, StopOk;
  }

  /** What a strategy hands over: a ladder on the side it trades. */
  predicate SaneVerdict(v: Verdict) { v.Approved? ==> v.ratchet.side == v.side }

  predicate SaneVerdicts(candidates: seq<(Symbol, Verdict)>) {
    forall i :: 0 <= i < |candidates| ==> SaneVerdict(candidates[i].1)
  }

  lemma {:induction false} EntriesKeepStops(c: CycleInput, s: EntryPhase, candidates: seq<(Symbol, Verdict)>)
    requires BookOk(s.book) && StopsOk(s.env.orders, s.book) && SaneVerdicts(candidates)
    ensures var f := ConsiderEntries(c, s, candidates); BookOk(f.book) && StopsOk(f.env.orders, f.book)
    decreases |candidates|
  {
    if candidates != [] && !s.outcome.Raised? {
      hide StopsOk, BookOk, OpenEntry;
      var (symbol, v) := candidates[0];
      if v.Approved? && !Tracked(s.book, symbol) {
        BookIsDistinct(s.book);
        OpenEntryKeepsStops(s.env, s.book, PlanFor(c, symbol, v));
        OpenEntryKeeps(s.env, s.book, PlanFor(c, symbol, v));
      }
      EntriesKeepStops(c, if Tracked(s.book, symbol) then s else ConsiderOne(c, s, symbol, v), candidates[1..]);
    }
  }

  lemma BookIsDistinct(book: seq<Pos>)
    requires BookOk(book)
    ensures DistinctSymbols(book)
  {
  }

  // ----- a whole cycle -----

  lemma {:induction false} CancelsDisturbNothing(e: Env, ids: seq<OrderId>)
    requires Rooted(e.orders)
    ensures Rooted(CancelAll(e, ids).orders) && AllAlone(e.orders, CancelAll(e, ids).orders)
    decreases |ids|
  {
    hide Retry, Rooted, AllAlone;
    if ids == [] {
      Undisturbed(e.orders);
    } else {
      RetryDisturbsNothing(e, CancelOrder(ids[0]), ATTEMPTS);
      var next := Retry(e, CancelOrder(ids[0]), ATTEMPTS).env;
      CancelsDisturbNothing(next, ids[1..]);
      AllAloneChain(e.orders, next.orders, CancelAll(next, ids[1..]).orders);
    }
  }

  /** The phases that only read or close. */
  predicate OnlyCloses(task: Task) { task.RecheckTask? || task.SyncTask? || task.FlattenTask? || task.ExitTask? }

  lemma TendDisturbsNothing(c: CycleInput, task: Task, e: Env, p: Pos, errors: nat)
    requires OnlyCloses(task) && Rooted(e.orders)
    ensures var t := Tend(c, task, e, p, errors); Rooted(t.env.orders) && AllAlone(e.orders, t.env.orders)
  {
    hide Exec, Retry, Rooted, AllAlone;
    Undisturbed(e.orders);
    if task.RecheckTask? {
      RetryDisturbsNothing(e, GetOrder(p.entryOrderId), ATTEMPTS);
    } else if task.SyncTask? {
      if p.stopOrderId.Some? { ExecDisturbsNothing(e, GetOrder(p.stopOrderId.value)); }
    } else {
      CloseDisturbsNothing(e, p);
    }
  }

  lemma {:induction false} ForEachDisturbsNothing(c: CycleInput, task: Task, e: Env, todo: seq<Pos>, errors: nat)
    requires OnlyCloses(task) && Rooted(e.orders)
    ensures var f := ForEach(c, task, e, todo, errors); Rooted(f.env.orders) && AllAlone(e.orders, f.env.orders)
    decreases |todo|
  {
    hide Tend, Rooted, AllAlone;
    if todo == [] {
      Undisturbed(e.orders);
    } else {
      TendDisturbsNothing(c, task, e, todo[0], errors);
      var t := Tend(c, task, e, todo[0], errors);
      if t.outcome.Returned? {
        ForEachDisturbsNothing(c, task, t.env, todo[1..], t.errors);
        AllAloneChain(e.orders, t.env.orders, ForEach(c, task, e, todo, errors).env.orders);
      }
    }
  }

  /** The kill switch closes and cancels; it places and moves nothing. */
  lemma FlattenDisturbsNothing(c: CycleInput, e: Env, book: seq<Pos>)
    requires Rooted(e.orders)
    ensures Rooted(FlattenAll(c, e, book).orders) && AllAlone(e.orders, FlattenAll(c, e, book).orders)
  {
    hide ForEach, Retry, Rooted, AllAlone;
    ForEachDisturbsNothing(c, FlattenTask, e, book, 0);
    var f := ForEach(c, FlattenTask, e, book, 0);
    RetryDisturbsNothing(f.env, ListOpenOrders, ATTEMPTS);
    var o := Retry(f.env, ListOpenOrders, ATTEMPTS);
    AllAloneChain(e.orders, f.env.orders, o.env.orders);
    if o.result.Ok? {
      CancelsDisturbNothing(o.env, o.result.reply.ids);
      AllAloneChain(e.orders, o.env.orders, FlattenAll(c, e, book).orders);
    }
  }

  lemma QuietCallKeepsStops(e: Env, call: Call, book: seq<Pos>)
    requires StopsOk(e.orders, book) && AddsNothing(call)
    ensures StopsOk(Retry(e, call, ATTEMPTS).env.orders, book)
  {
    hide Retry, Rooted, AllAlone, StopOk;
    RetryDisturbsNothing(e, call, ATTEMPTS);
    UndisturbedStops(e.orders, Retry(e, call, ATTEMPTS).env.orders, book);
  }

  /** Up to the reconciler, both the book in hand and the one on disk stand. */
  lemma CheckpointKeepsStops(c: CycleInput, e: Env, book: seq<Pos>)
    requires BookOk(book) && StopsOk(e.orders, book)
    ensures var k := UpToReconcile(c, e, book);
      BookOk(k.book) && StopsOk(k.env.orders, k.book) && StopsOk(k.env.orders, book)
  {
    hide Retry, ForEach, StopsOk, BookOk;
    QuietCallKeepsStops(e, GetAccount, book);
    var a := Retry(e, GetAccount, ATTEMPTS);
    if a.result.Ok? {
      SettlingKeepsStops(c, a.env, book);
      var s := SettleAndRecheck(c, a.env, book);
      if s.outcome.Returned? {
        ReadKeepsStops(s.env, s.book);
        ReadKeepsStops(s.env, book);
      }
    }
  }

  lemma SettlingKeepsStops(c: CycleInput, e: Env, book: seq<Pos>)
    requires BookOk(book) && StopsOk(e.orders, book)
    ensures var s := SettleAndRecheck(c, e, book);
      BookOk(s.book) && StopsOk(s.env.orders, s.book) && StopsOk(s.env.orders, book)
  {
    hide ForEach, StopsOk, BookOk;
    BookIsDistinct(book);
    ForEachKeepsStops(c, SettleTask, e, book, 0);
    ForEachKeeps(c, SettleTask, e, book, 0);
    var s := ForEach(c, SettleTask, e, book, 0);
    BookIsDistinct(s.book);
    ForEachKeepsStops(c, RecheckTask, s.env, s.book, 0);
    ForEachKeeps(c, RecheckTask, s.env, s.book, 0);
    PhaseKeepsRecord(c, RecheckTask, s.env, s.book, book);
  }

  /** A phase that adds nothing keeps any record's stops, not just its own book's. */
  lemma PhaseKeepsRecord(c: CycleInput, task: Task, e: Env, todo: seq<Pos>, record: seq<Pos>)
    requires OnlyCloses(task) && StopsOk(e.orders, record)
    ensures StopsOk(ForEach(c, task, e, todo, 0).env.orders, record)
  {
    hide ForEach, Rooted, AllAlone, StopOk;
    ForEachDisturbsNothing(c, task, e, todo, 0);
    UndisturbedStops(e.orders, ForEach(c, task, e, todo, 0).env.orders, record);
  }

  lemma ReadKeepsStops(e: Env, book: seq<Pos>)
    requires StopsOk(e.orders, book)
    ensures StopsOk(ReadSnapshot(e).env.orders, book)
  {
    hide Retry, StopsOk;
    QuietCallKeepsStops(e, ListPositions, book);
    QuietCallKeepsStops(Retry(e, ListPositions, ATTEMPTS).env, ListOpenOrders, book);
  }

  /** Whatever way a cycle ends, every stop of the book it leaves on disk stands,
      with one exception: the stale-data halt throws away the raises of its own
      cycle. */
  lemma BodyKeepsStops(c: CycleInput, e: Env, saved: seq<Pos>)
    requires BookOk(saved) && StopsOk(e.orders, saved) && SaneVerdicts(c.candidates)
    ensures var end := Body(c, e, saved);
      end.halt != Some(StaleData) ==> StopsOk(end.env.orders, end.book)
  {
    hide UpToReconcile, ForEach, AfterReconcile, Reconcile, StopsOk, BookOk;
    CheckpointKeepsStops(c, e, saved);
    var k := UpToReconcile(c, e, saved);
    if k.Read? {
      var sync := SyncTask(Reconcile(k.book, k.snap).autoClosed);
      BookIsDistinct(k.book);
      ForEachKeepsStops(c, sync, k.env, k.book, 0);
      ForEachKeeps(c, sync, k.env, k.book, 0);
      PhaseKeepsRecord(c, sync, k.env, k.book, saved);
      var synced := ForEach(c, sync, k.env, k.book, 0);
      AfterReconcileKeepsStops(c, synced.env, saved, synced.book, k.account);
    }
  }

  lemma AfterReconcileKeepsStops(c: CycleInput, e: Env, saved: seq<Pos>, book: seq<Pos>, account: Account)
    requires BookOk(book) && StopsOk(e.orders, book) && StopsOk(e.orders, saved) && SaneVerdicts(c.candidates)
    ensures var end := AfterReconcile(c, e, saved, book, account);
      end.halt != Some(StaleData) ==> StopsOk(end.env.orders, end.book)
  {
    hide ForEach, FlattenAll, Retry, WhileOpen, StopsOk, BookOk, TrailStops;
    if CB.LossTripped(c.maxDailyLossPct, account.lastEquity, account.equity) {
      FlattenKeepsStops(c, e, book, saved);
    } else {
      QuietCallKeepsStops(e, IsMarketOpen, book);
      var m := Retry(e, IsMarketOpen, ATTEMPTS);
      if m.result.Ok? {
        TrailKeepsStops(c, m.env, book);
        var s := TrailStops(c, m.env, book);
        WhileOpenKeepsStops(c, s.env, saved, s.book, s.errors);
      }
    }
  }

  lemma FlattenKeepsStops(c: CycleInput, e: Env, book: seq<Pos>, saved: seq<Pos>)
    requires StopsOk(e.orders, saved)
    ensures StopsOk(FlattenAll(c, e, book).orders, saved)
  {
    hide FlattenAll, Rooted, AllAlone, StopOk;
    FlattenDisturbsNothing(c, e, book);
    UndisturbedStops(e.orders, FlattenAll(c, e, book).orders, saved);
  }

  lemma TrailKeepsStops(c: CycleInput, e: Env, book: seq<Pos>)
    requires BookOk(book) && StopsOk(e.orders, book)
    ensures var s := TrailStops(c, e, book); BookOk(s.book) && StopsOk(s.env.orders, s.book)
  {
    hide ForEach, StopsOk, BookOk;
    BookIsDistinct(book);
    ForEachKeepsStops(c, RaiseTask, e, book, 0);
    ForEachKeeps(c, RaiseTask, e, book, 0);
    var r := ForEach(c, RaiseTask, e, book, 0);
    BookIsDistinct(r.book);
    ForEachKeepsStops(c, RefreshTask, r.env, r.book, r.errors);
    ForEachKeeps(c, RefreshTask, r.env, r.book, r.errors);
  }

  lemma WhileOpenKeepsStops(c: CycleInput, e: Env, saved: seq<Pos>, book: seq<Pos>, errors: nat)
    requires BookOk(book) && StopsOk(e.orders, book) && SaneVerdicts(c.candidates)
    ensures var end := WhileOpen(c, e, saved, book, errors);
      end.halt != Some(StaleData) ==> StopsOk(end.env.orders, end.book)
  {
    hide ForEach, ConsiderEntries, StopsOk, BookOk;
    BookIsDistinct(book);
    ForEachKeepsStops(c, ExitTask, e, book, errors);
    ForEachKeeps(c, ExitTask, e, book, errors);
    var exits := ForEach(c, ExitTask, e, book, errors);
    EntriesKeepStops(c, EntryPhase(exits.env, exits.book, exits.errors, 0, 0, Returned(true)), c.candidates);
  }

  lemma CycleKeepsStops(c: CycleInput, d: Desk)
    requires BookOk(d.book) && StopsOk(d.env.orders, d.book) && SaneVerdicts(c.candidates)
    requires !FeedGoesStale(c, d)
    ensures StopsOk(RunCycle(c, d).env.orders, RunCycle(c, d).book)
  {
    hide Body, StopsOk, FeedGoesStale;
    BodyKeepsStops(c, d.env, d.book);
    StaleReturnIff(c, d);
  }
}
