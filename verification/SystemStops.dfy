/** The stops of the whole book, over whole runs of the live system. */
module SystemStops {
  import opened Common
  import opened Ratchets
  import opened Brokers
  import opened OrderHistory
  import opened OrderManagers
  import opened StopSandwich
  import opened Reconcilers
  import opened Cycles
  import opened CycleSafety
  import opened EarlyReturns
  import opened BookStops
  import opened Forgetting
  import TradeServices
  import opened SelfHealing
  import opened TradingSystem

  ghost predicate StopsStand(d: Desk) { BookOk(d.book) && StopsOk(d.env.orders, d.book) }

  /** Ladders come on the side that is traded. */
  predicate SaneAction(a: Action) {
    match a
    case ScheduledCycle(c) => SaneVerdicts(c.candidates)
    case PhoneOrder(o, _) => o.ratchet.side == o.side
    case _ => true
  }

  /** The one way a run loses track of a stop. */
  predicate LosesTrack(w: World, a: Action) {
    a.ScheduledCycle? && FeedGoesStale(a.c.(now := w.clock), w.desk)
  }

  lemma OrderKeepsStops(o: TradeServices.Order, d: Desk)
    requires StopsStand(d) && !Tracked(d.book, o.symbol) && o.ratchet.side == o.side
    ensures var after := TradeServices.GateAndOpen(o, d).desk; StopsOk(after.env.orders, after.book)
  {
    hide Retry, OpenPosition, Settle, StopOk, Rooted, Awaiting;
    QuietCallKeepsStops(d.env, IsMarketOpen, d.book);
    var m := Retry(d.env, IsMarketOpen, ATTEMPTS);
    QuietCallKeepsStops(m.env, GetAccount, d.book);
    var a := Retry(m.env, GetAccount, ATTEMPTS);
    if o.approvedQty.Some? {
      var plan := TradeServices.PlanOf(o, MinInt(o.requestedQty, o.approvedQty.value));
      OpeningKeepsStops(a.env, d.book, plan);
    }
  }

  /** An opening in its two steps, whether or not the book takes the position. */
  lemma OpeningKeepsStops(e: Env, book: seq<Pos>, plan: EntryPlan)
    requires DistinctSymbols(book) && StopsOk(e.orders, book) && !Tracked(book, plan.symbol) && plan.ratchet.side == plan.side
    ensures var o := OpenPosition(e, plan);
      && StopsOk(o.env.orders, book)
      && (o.pos.Some? ==>
            var s := Settle(o.env, o.pos.value);
            StopsOk(s.env.orders, book) && StopsOk(s.env.orders, Put(book, s.pos)))
  {
    hide Settle, OpenPosition, Rooted, StopOk, Awaiting;
    NewEntryAwaits(e, plan);
    var o := OpenPosition(e, plan);
    RestKeepStops(e.orders, o.env.orders, book, plan.symbol);
    if o.pos.Some? {
      SettleKeepsStops(o.env, o.pos.value);
      var d := Settle(o.env, o.pos.value);
      RestKeepStops(o.env.orders, d.env.orders, book, plan.symbol);
      PutKeepsStops(d.env.orders, book, d.pos);
    }
  }

  lemma CloseKeepsStops(e: Env, p: Pos, book: seq<Pos>)
    requires StopsOk(e.orders, book)
    ensures StopsOk(Close(e, p).env.orders, book)
  {
    hide Close, Rooted, AllAlone, StopOk;
    CloseDisturbsNothing(e, p);
    UndisturbedStops(e.orders, Close(e, p).env.orders, book);
  }

  lemma WithoutKeepsStops(orders: seq<Order>, book: seq<Pos>, i: nat)
    requires StopsOk(orders, book) && i < |book|
    ensures StopsOk(orders, TradeServices.Without(book, i))
  {
    hide Rooted, StopOk;
  }

  lemma {:induction false} FlattenKeepsBook(e: Env, todo: seq<Pos>)
    requires StopsOk(e.orders, todo)
    ensures var f := TradeServices.FlattenFrom(e, todo); StopsOk(f.env.orders, f.book)
    ensures Rooted(TradeServices.FlattenFrom(e, todo).env.orders) && AllAlone(e.orders, TradeServices.FlattenFrom(e, todo).env.orders)
    decreases |todo|
  {
    hide Close, Rooted, AllAlone, StopOk;
    Undisturbed(e.orders);
    if todo != [] {
      CloseDisturbsNothing(e, todo[0]);
      var next := if Live(todo[0]) then Close(e, todo[0]).env else e;
      UndisturbedStops(e.orders, next.orders, todo);
      assert forall i :: 0 <= i < |todo[1..]| ==> todo[1..][i] == todo[i + 1];
      FlattenKeepsBook(next, todo[1..]);
      var rest := TradeServices.FlattenFrom(next, todo[1..]);
      AllAloneChain(e.orders, next.orders, rest.env.orders);
      UndisturbedStops(next.orders, rest.env.orders, todo);
      ConsStops(rest.env.orders, [todo[0]], rest.book);
    }
  }

  lemma ActKeepsStops(policy: Policy, w: World, a: Action)
    requires StopsStand(w.desk) && SaneAction(a) && !LosesTrack(w, a)
    ensures StopsOk(Act(policy, w, a).desk.env.orders, Act(policy, w, a).desk.book)
  {
    hide TradeServices.GateAndOpen, TradeServices.FlattenFrom, Close, RunCycle, StopsOk, BookOk, FeedGoesStale;
    var d := w.desk;
    match a
    case ScheduledCycle(c) => CycleKeepsStops(c.(now := w.clock), d);
    case PhoneOrder(o, busy) =>
      if !Tracked(d.book, o.symbol) { OrderKeepsStops(o, d); }
    case PhoneClose(symbol, busy) =>
      var i := IndexOf(d.book, symbol);
      if i.Some? {
        CloseKeepsStops(d.env, d.book[i.value], d.book);
        WithoutKeepsStops(Close(d.env, d.book[i.value]).env.orders, d.book, i.value);
      }
    case PhoneFlatten(busy) => FlattenKeepsBook(d.env, d.book);
    case _ =>
  }

  /** Whatever cycles, phone actions and heals take their turns, in any order and
      against any script of fills and lost calls: every OPEN position's resting
      stop stays between what the book believes and what its ladder asks, and
      every waiting entry can still be protected, unless some cycle ended in the
      stale-data return. */
  lemma {:induction false} RunsKeepStops(policy: Policy, w: World, actions: seq<Action>)
    requires StopsStand(w.desk)
    requires forall i :: 0 <= i < |actions| ==> SaneAction(actions[i]) && !LosesTrack(Run(policy, w, actions[..i]), actions[i])
    ensures StopsStand(Run(policy, w, actions).desk)
  {
    if actions != [] {
      hide Act, StopsOk, LosesTrack;
      var n := |actions| - 1;
      forall i | 0 <= i < n ensures SaneAction(actions[..n][i]) && !LosesTrack(Run(policy, w, actions[..n][..i]), actions[..n][i]) {
        assert actions[..n][..i] == actions[..i];
      }
      RunsKeepStops(policy, w, actions[..n]);
      ActKeepsStops(policy, Run(policy, w, actions[..n]), actions[n]);
      ActKeepsBook(policy, Run(policy, w, actions[..n]), actions[n]);
    }
  }

  // ----- what no later action brings back -----

  lemma OrderAges(o: TradeServices.Order, d: Desk)
    ensures Aged(d.env.orders, TradeServices.GateAndOpen(o, d).desk.env.orders)
  {
    hide Retry, OpenPosition, Settle, Aged;
    RetryAges(d.env, IsMarketOpen, ATTEMPTS);
    var m := Retry(d.env, IsMarketOpen, ATTEMPTS);
    RetryAges(m.env, GetAccount, ATTEMPTS);
    var a := Retry(m.env, GetAccount, ATTEMPTS);
    AgedChain(d.env.orders, m.env.orders, a.env.orders);
    if o.approvedQty.Some? {
      var plan := TradeServices.PlanOf(o, MinInt(o.requestedQty, o.approvedQty.value));
      OpeningAges(a.env, plan);
      var p := OpenPosition(a.env, plan);
      AgedChain(d.env.orders, a.env.orders, p.env.orders);
      if p.pos.Some? {
        SettleAges(p.env, p.pos.value);
        AgedChain(d.env.orders, p.env.orders, Settle(p.env, p.pos.value).env.orders);
      }
    }
  }

  lemma CloseAges(e: Env, p: Pos)
    ensures Aged(e.orders, Close(e, p).env.orders)
  {
    hide Exec, Aged;
    ExecAges(e, ClosePosition(p.symbol));
  }

  lemma {:induction false} FlattenFromAges(e: Env, todo: seq<Pos>)
    ensures Aged(e.orders, TradeServices.FlattenFrom(e, todo).env.orders)
    decreases |todo|
  {
    hide Close, Aged;
    StaysAged(e.orders);
    if todo != [] {
      CloseAges(e, todo[0]);
      var next := if Live(todo[0]) then Close(e, todo[0]).env else e;
      FlattenFromAges(next, todo[1..]);
      AgedChain(e.orders, next.orders, TradeServices.FlattenFrom(next, todo[1..]).env.orders);
    }
  }

  lemma ActAges(policy: Policy, w: World, a: Action)
    ensures Aged(w.desk.env.orders, Act(policy, w, a).desk.env.orders)
  {
    hide TradeServices.GateAndOpen, TradeServices.FlattenFrom, Close, RunCycle, Aged;
    var d := w.desk;
    StaysAged(d.env.orders);
    match a
    case ScheduledCycle(c) => CycleAges(c.(now := w.clock), d);
    case PhoneOrder(o, busy) => OrderAges(o, d);
    case PhoneClose(symbol, busy) =>
      if IndexOf(d.book, symbol).Some? { CloseAges(d.env, d.book[IndexOf(d.book, symbol).value]); }
    case PhoneFlatten(busy) => FlattenFromAges(d.env, d.book);
    case _ =>
  }

  lemma {:induction false} RunsAge(policy: Policy, w: World, actions: seq<Action>)
    ensures Aged(w.desk.env.orders, Run(policy, w, actions).desk.env.orders)
  {
    hide Act, Aged;
    if actions == [] {
      StaysAged(w.desk.env.orders);
    } else {
      var n := |actions| - 1;
      RunsAge(policy, w, actions[..n]);
      var before := Run(policy, w, actions[..n]);
      ActAges(policy, before, actions[n]);
      AgedChain(w.desk.env.orders, before.desk.env.orders, Act(policy, before, actions[n]).desk.env.orders);
    }
  }

  /** After a cycle forgot a raise no sequence of actions makes the forgotten record
      raisable again: at every later moment a raise of it that would move the stop
      fails. */
  lemma ForgottenForGood(policy: Policy, w: World, c: CycleInput, p: Pos, actions: seq<Action>, price: real, atr: Option<real>)
    requires BookOk(w.desk.book) && p in w.desk.book && p.stopOrderId.Some?
    requires ConfirmsRaise(c.(now := w.clock), w.desk, p.symbol) && FeedGoesStale(c.(now := w.clock), w.desk)
    requires MoreProtective(p.side, Updated(p.ratchet, price, atr).stop, p.currentStop)
    ensures var after := Run(policy, Act(policy, w, ScheduledCycle(c)), actions);
      RaiseStop(after.desk.env, p, price, atr).outcome.Raised?
  {
    hide RunCycle, ConfirmsRaise, FeedGoesStale, Aged, RaiseStop, Updated, BookOk, Run;
    var next := Act(policy, w, ScheduledCycle(c));
    RunsAge(policy, next, actions);
    ForgottenRaiseIsStuck(c.(now := w.clock), w.desk, p, Run(policy, next, actions).desk.env, price, atr);
  }
}
