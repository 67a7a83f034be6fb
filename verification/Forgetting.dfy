/** What a cycle's early returns cost. Three halts return before the book is
    saved; these are the exact stops the book on disk then does not know of, and
    what becomes of them. */
module Forgetting {
  import opened Common
  import opened Rounding
  import opened Ratchets
  import opened Brokers
  import opened OrderHistory
  import opened OrderManagers
  import opened StopSandwich
  import opened Reconcilers
  import opened Cycles
  import opened CycleSafety
  import opened EarlyReturns
  import opened BookStops
  import CB = CircuitBreakers

  // ----- a stop can only be raised while it works -----

  /** A raise that returns has moved a stop that was still working, and leaves the
      order id it started from dead. */
  lemma RaiseNeedsWorkingStop(e: Env, p: Pos, price: real, atr: Option<real>)
    requires RaiseStop(e, p, price, atr).outcome == Returned(true)
    ensures var d, k := RaiseStop(e, p, price, atr), p.stopOrderId.value;
      && (k < |e.orders| ==> IsWorking(e.orders[k].status))
      && k < |d.env.orders| && !IsWorking(d.env.orders[k].status)
      && MoreProtective(p.side, d.pos.currentStop, p.currentStop) && d.pos.symbol == p.symbol
  {
    var call := ReplaceStop(p.stopOrderId.value, Updated(p.ratchet, price, atr).stop);
    ArriveEvolves(e, call);
  }

  /** From a book whose stop order is dead, every raise that would move the stop
      fails, however much later and whatever the bot and the market did. */
  lemma DeadStopIsStuck(dead: seq<Order>, p: Pos, later: Env, price: real, atr: Option<real>)
    requires p.stopOrderId.Some? && p.stopOrderId.value < |dead| && !IsWorking(dead[p.stopOrderId.value].status)
    requires Aged(dead, later.orders)
    requires MoreProtective(p.side, Updated(p.ratchet, price, atr).stop, p.currentStop)
    ensures RaiseStop(later, p, price, atr).outcome.Raised?
  {
    if RaiseStop(later, p, price, atr).outcome.Returned? {
      RaiseNeedsWorkingStop(later, p, price, atr);
    }
  }

  /** The commoner way there: the replace took effect but its answer was lost, so
      the live book itself keeps an id that is dead. */
  lemma LostRaiseIsStuck(e: Env, p: Pos, price: real, atr: Option<real>, later: Env, next: (real, Option<real>))
    requires p.stopOrderId.Some? && MoreProtective(p.side, Updated(p.ratchet, price, atr).stop, p.currentStop)
    requires NextStep(e).fate.LostAfter? && p.stopOrderId.value < |Arrive(e).orders|
    requires var d := RaiseStop(e, p, price, atr);
      Aged(d.env.orders, later.orders) && MoreProtective(p.side, Updated(d.pos.ratchet, next.0, next.1).stop, p.currentStop)
    ensures var d := RaiseStop(e, p, price, atr);
      d.outcome.Raised? && RaiseStop(later, d.pos, next.0, next.1).outcome.Raised?
  {
    hide Arrive, Updated;
    var d := RaiseStop(e, p, price, atr);
    DeadStopIsStuck(d.env.orders, d.pos, later, next.0, next.1);
  }

  // ----- the broker's list grows through every phase -----

  lemma TendAges(c: CycleInput, task: Task, e: Env, p: Pos, errors: nat)
    ensures Aged(e.orders, Tend(c, task, e, p, errors).env.orders)
  {
    hide Exec, Retry, Aged, Updated;
    StaysAged(e.orders);
    match task
    case SettleTask => SettleAges(e, p);
    case RecheckTask => RetryAges(e, GetOrder(p.entryOrderId), ATTEMPTS);
    case SyncTask(closed) => if p.stopOrderId.Some? { ExecAges(e, GetOrder(p.stopOrderId.value)); }
    case RaiseTask =>
      if p.stopOrderId.Some? && c.barsForStops(p.symbol).FreshBars? {
        var bars := c.barsForStops(p.symbol);
        ExecAges(e, ReplaceStop(p.stopOrderId.value, Updated(p.ratchet, bars.price, bars.atr).stop));
      }
    case RefreshTask => RefreshAges(e, p, c.minDaysRemaining);
    case _ => ExecAges(e, ClosePosition(p.symbol));
  }

  lemma StaysAged(orders: seq<Order>)
    ensures Aged(orders, orders)
  {
  }

  lemma SettleAges(e: Env, p: Pos)
    ensures Aged(e.orders, Settle(e, p).env.orders)
  {
    hide Retry, Aged;
    RetryAges(e, GetOrder(p.entryOrderId), ATTEMPTS);
    var c := Retry(e, GetOrder(p.entryOrderId), ATTEMPTS);
    if c.result.Ok? {
      var o := c.result.reply.order;
      AttachAges(c.env, p.(filledQty := o.filledQty, lastOrderStatus := Some(o.status)));
      AgedChain(e.orders, c.env.orders, AttachProtection(c.env, p.(filledQty := o.filledQty, lastOrderStatus := Some(o.status))).env.orders);
    }
  }

  lemma AttachAges(e: Env, p: Pos)
    ensures Aged(e.orders, AttachProtection(e, p).env.orders)
  {
    hide Retry, Aged, AttachProtection;
    AttachIsProtectCall(e, p);
    RetryAges(e, ProtectCall(p), ATTEMPTS);
  }

  lemma RefreshAges(e: Env, p: Pos, minDays: int)
    ensures Aged(e.orders, RefreshStaleStop(e, p, minDays).env.orders)
  {
    hide Retry, Aged;
    StaysAged(e.orders);
    if p.stopOrderId.Some? {
      var k := p.stopOrderId.value;
      RetryAges(e, GetOrder(k), ATTEMPTS);
      var c := Retry(e, GetOrder(k), ATTEMPTS);
      RetryAges(c.env, ReplaceStop(k, p.currentStop), ATTEMPTS);
      AgedChain(e.orders, c.env.orders, Retry(c.env, ReplaceStop(k, p.currentStop), ATTEMPTS).env.orders);
    }
  }

  lemma {:induction false} ForEachAges(c: CycleInput, task: Task, e: Env, todo: seq<Pos>, errors: nat)
    ensures Aged(e.orders, ForEach(c, task, e, todo, errors).env.orders)
    decreases |todo|
  {
    hide Tend, Aged;
    StaysAged(e.orders);
    if todo != [] {
      TendAges(c, task, e, todo[0], errors);
      var t := Tend(c, task, e, todo[0], errors);
      if t.outcome.Returned? {
        ForEachAges(c, task, t.env, todo[1..], t.errors);
        AgedChain(e.orders, t.env.orders, ForEach(c, task, e, todo, errors).env.orders);
      }
    }
  }

  lemma OpenEntryAges(e: Env, book: seq<Pos>, plan: EntryPlan)
    ensures Aged(e.orders, OpenEntry(e, book, plan).env.orders)
  {
    hide Exec, Settle, Aged;
    OpeningAges(e, plan);
    var o := OpenPosition(e, plan);
    if o.pos.Some? {
      SettleAges(o.env, o.pos.value);
      AgedChain(e.orders, o.env.orders, Settle(o.env, o.pos.value).env.orders);
    }
  }

  lemma OpeningAges(e: Env, plan: EntryPlan)
    ensures Aged(e.orders, OpenPosition(e, plan).env.orders)
  {
    hide Exec, Aged;
    StaysAged(e.orders);
    ExecAges(e, SubmitMarketEntry(plan.symbol, plan.qty, plan.side, EntryCoid(plan)));
  }

  lemma {:induction false} EntriesAge(c: CycleInput, s: EntryPhase, candidates: seq<(Symbol, Verdict)>)
    ensures Aged(s.env.orders, ConsiderEntries(c, s, candidates).env.orders)
    decreases |candidates|
  {
    hide OpenEntry, Aged, Tracked;
    StaysAged(s.env.orders);
    if candidates != [] && !s.outcome.Raised? {
      var (symbol, v) := candidates[0];
      var next := if Tracked(s.book, symbol) then s else ConsiderOne(c, s, symbol, v);
      if v.Approved? { OpenEntryAges(s.env, s.book, PlanFor(c, symbol, v)); }
      EntriesAge(c, next, candidates[1..]);
      AgedChain(s.env.orders, next.env.orders, ConsiderEntries(c, next, candidates[1..]).env.orders);
    }
  }

  lemma {:induction false} CancelsAge(e: Env, ids: seq<OrderId>)
    ensures Aged(e.orders, CancelAll(e, ids).orders)
    decreases |ids|
  {
    hide Retry, Aged;
    StaysAged(e.orders);
    if ids != [] {
      RetryAges(e, CancelOrder(ids[0]), ATTEMPTS);
      var next := Retry(e, CancelOrder(ids[0]), ATTEMPTS).env;
      CancelsAge(next, ids[1..]);
      AgedChain(e.orders, next.orders, CancelAll(next, ids[1..]).orders);
    }
  }

  lemma FlattenAges(c: CycleInput, e: Env, book: seq<Pos>)
    ensures Aged(e.orders, FlattenAll(c, e, book).orders)
  {
    hide ForEach, Retry, Aged;
    ForEachAges(c, FlattenTask, e, book, 0);
    var f := ForEach(c, FlattenTask, e, book, 0);
    RetryAges(f.env, ListOpenOrders, ATTEMPTS);
    var o := Retry(f.env, ListOpenOrders, ATTEMPTS);
    AgedChain(e.orders, f.env.orders, o.env.orders);
    if o.result.Ok? {
      CancelsAge(o.env, o.result.reply.ids);
      AgedChain(e.orders, o.env.orders, FlattenAll(c, e, book).orders);
    }
  }

  lemma SettlingAges(c: CycleInput, e: Env, book: seq<Pos>)
    ensures Aged(e.orders, SettleAndRecheck(c, e, book).env.orders)
  {
    hide ForEach, Aged;
    StaysAged(e.orders);
    ForEachAges(c, SettleTask, e, book, 0);
    var s := ForEach(c, SettleTask, e, book, 0);
    ForEachAges(c, RecheckTask, s.env, s.book, 0);
    AgedChain(e.orders, s.env.orders, ForEach(c, RecheckTask, s.env, s.book, 0).env.orders);
  }

  lemma CheckpointAges(c: CycleInput, e: Env, book: seq<Pos>)
    ensures Aged(e.orders, UpToReconcile(c, e, book).env.orders)
  {
    hide Retry, ForEach, Aged, SettleAndRecheck;
    RetryAges(e, GetAccount, ATTEMPTS);
    var a := Retry(e, GetAccount, ATTEMPTS);
    if a.result.Ok? {
      SettlingAges(c, a.env, book);
      var s := SettleAndRecheck(c, a.env, book);
      AgedChain(e.orders, a.env.orders, s.env.orders);
      RetryAges(s.env, ListPositions, ATTEMPTS);
      var p := Retry(s.env, ListPositions, ATTEMPTS);
      AgedChain(e.orders, s.env.orders, p.env.orders);
      RetryAges(p.env, ListOpenOrders, ATTEMPTS);
      AgedChain(e.orders, p.env.orders, Retry(p.env, ListOpenOrders, ATTEMPTS).env.orders);
    }
  }

  lemma TrailAges(c: CycleInput, e: Env, book: seq<Pos>)
    ensures Aged(e.orders, TrailStops(c, e, book).env.orders)
  {
    hide ForEach, Aged;
    ForEachAges(c, RaiseTask, e, book, 0);
    var r := ForEach(c, RaiseTask, e, book, 0);
    ForEachAges(c, RefreshTask, r.env, r.book, r.errors);
    AgedChain(e.orders, r.env.orders, ForEach(c, RefreshTask, r.env, r.book, r.errors).env.orders);
  }

  lemma WhileOpenAges(c: CycleInput, e: Env, saved: seq<Pos>, book: seq<Pos>, errors: nat)
    ensures Aged(e.orders, WhileOpen(c, e, saved, book, errors).env.orders)
  {
    hide ForEach, ConsiderEntries, Aged;
    ForEachAges(c, ExitTask, e, book, errors);
    var exits := ForEach(c, ExitTask, e, book, errors);
    var s := EntryPhase(exits.env, exits.book, exits.errors, 0, 0, Returned(true));
    EntriesAge(c, s, c.candidates);
    AgedChain(e.orders, exits.env.orders, ConsiderEntries(c, s, c.candidates).env.orders);
  }

  lemma AfterReconcileAges(c: CycleInput, e: Env, saved: seq<Pos>, book: seq<Pos>, account: Account)
    ensures Aged(e.orders, AfterReconcile(c, e, saved, book, account).env.orders)
  {
    hide FlattenAll, Retry, WhileOpen, TrailStops, Aged;
    StaysAged(e.orders);
    FlattenAges(c, e, book);
    RetryAges(e, IsMarketOpen, ATTEMPTS);
    var m := Retry(e, IsMarketOpen, ATTEMPTS);
    TrailAges(c, m.env, book);
    var s := TrailStops(c, m.env, book);
    AgedChain(e.orders, m.env.orders, s.env.orders);
    WhileOpenAges(c, s.env, saved, s.book, s.errors);
    AgedChain(e.orders, s.env.orders, WhileOpen(c, s.env, saved, s.book, s.errors).env.orders);
  }

  lemma BodyAges(c: CycleInput, e: Env, saved: seq<Pos>)
    ensures Aged(e.orders, Body(c, e, saved).env.orders)
  {
    hide UpToReconcile, ForEach, AfterReconcile, Reconcile, Aged;
    CheckpointAges(c, e, saved);
    var k := UpToReconcile(c, e, saved);
    if k.Read? {
      var sync := SyncTask(Reconcile(k.book, k.snap).autoClosed);
      ForEachAges(c, sync, k.env, k.book, 0);
      var synced := ForEach(c, sync, k.env, k.book, 0);
      AgedChain(e.orders, k.env.orders, synced.env.orders);
      AfterReconcileAges(c, synced.env, saved, synced.book, k.account);
      AgedChain(e.orders, synced.env.orders, Body(c, e, saved).env.orders);
    }
  }

  lemma CycleAges(c: CycleInput, d: Desk)
    ensures Aged(d.env.orders, RunCycle(c, d).env.orders)
  {
    hide Body, Aged;
    StaysAged(d.env.orders);
    BodyAges(c, d.env, d.book);
  }

  // ----- one symbol's turn in a phase -----

  datatype Turn = Turn(env: Env, pos: Pos, errors: nat)

  /** The moment a phase comes to `symbol`; None when it never does. */
  function TurnOf(c: CycleInput, task: Task, e: Env, todo: seq<Pos>, errors: nat, symbol: Symbol): Option<Turn>
    decreases |todo|
  {
    if todo == [] then None
    else if todo[0].symbol == symbol then Some(Turn(e, todo[0], errors))
    else
      var t := Tend(c, task, e, todo[0], errors);
      if t.outcome.Raised? then None else TurnOf(c, task, t.env, todo[1..], t.errors, symbol)
  }

  function Taken(c: CycleInput, task: Task, t: Turn): Tended { Tend(c, task, t.env, t.pos, t.errors) }

  lemma TendKeepsSymbol(c: CycleInput, task: Task, e: Env, p: Pos, errors: nat)
    ensures var t := Tend(c, task, e, p, errors); t.kept.Some? ==> t.kept.value.symbol == p.symbol
  {
    hide Retry, Exec, AttachProtection;
    AttachIsProtectCall(e, p);
    if task.SettleTask? {
      SettleKeepsRecord(e, p);
    }
  }

  /** What a settle leaves of the record it worked on; it fills in a stop id only
      once the broker knows the entry. */
  lemma SettleKeepsRecord(e: Env, p: Pos)
    ensures var d := Settle(e, p);
      && d.pos.symbol == p.symbol && d.pos.currentStop == p.currentStop && d.pos.entryOrderId == p.entryOrderId
      && (d.pos.stopOrderId == p.stopOrderId || (p.stopOrderId.None? && d.pos.stopOrderId.Some? && p.entryOrderId < |d.env.orders|))
      && (p.stopOrderId.None? && d.pos.stopOrderId.Some? ==> CoidUsed(d.env.orders, ProtectCoid(p)))
      && d.pos.strategy == p.strategy && d.pos.openTag == p.openTag && d.pos.takeProfit == p.takeProfit
  {
    hide Retry, AttachProtection, CoidUsed;
    var c := Retry(e, GetOrder(p.entryOrderId), ATTEMPTS);
    if c.result.Ok? {
      RetryReads(e, p.entryOrderId, ATTEMPTS);
      var o := c.result.reply.order;
      var q := p.(filledQty := o.filledQty, lastOrderStatus := Some(o.status));
      AttachAges(c.env, q);
      AttachKeepsRecord(c.env, q);
    }
  }

  lemma AttachKeepsRecord(e: Env, p: Pos)
    ensures var d := AttachProtection(e, p);
      && d.pos == p.(stopOrderId := d.pos.stopOrderId, tpOrderId := d.pos.tpOrderId)
      && (if d.outcome.Raised? then d.pos == p else d.pos.stopOrderId.Some? && CoidUsed(d.env.orders, ProtectCoid(p)))
  {
    hide Retry, CoidUsed;
    AttachIsProtectCall(e, p);
    if AttachProtection(e, p).outcome.Returned? {
      RetryPlacedIsUsed(e, p, ATTEMPTS);
    }
  }

  lemma {:induction false} RetryPlacedIsUsed(e: Env, p: Pos, attempts: nat)
    requires attempts >= 1 && Retry(e, ProtectCall(p), attempts).result.Ok?
    ensures var c := Retry(e, ProtectCall(p), attempts);
      && CoidUsed(c.env.orders, ProtectCoid(p))
      && (ProtectId(p, c.result.reply).Some? ==> |e.orders| <= ProtectId(p, c.result.reply).value)
    decreases attempts
  {
    hide CoidUsed, Arrive;
    var call := ProtectCall(p);
    ExecAges(e, call);
    if Exec(e, call).result.Err? {
      RetryPlacedIsUsed(Exec(e, call).env, p, attempts - 1);
    } else {
      ArriveEvolves(e, call);
      var here := Noted(Arrive(e), call);
      PlacingUses(here, p, true);
      PlacingUses(here, p, false);
      PlacedIdIsNew(here, p, true);
      PlacedIdIsNew(here, p, false);
    }
  }

  lemma PlacedIdIsNew(here: Env, p: Pos, withLegs: bool)
    requires Effect(here, ProtectCall(p), withLegs).result.Ok?
    ensures var r := Effect(here, ProtectCall(p), withLegs).result.reply;
      ProtectId(p, r).Some? ==> |here.orders| <= ProtectId(p, r).value
  {
    var n := |here.orders|;
    var legs := [(n, StopOrder), (n + 1, LimitOrder)];
    assert legs[..1] == [(n, StopOrder)];
    assert LegOfType(legs, StopOrder) == LegOfType(legs[..1], StopOrder) == Some(n);
  }

  /** How `q`, after a phase, comes from `p`, before it. */
  predicate From(task: Task, p: Pos, q: Pos, known: nat) {
    && q.symbol == p.symbol && (p.stopOrderId.Some? ==> q.stopOrderId.Some?)
    && (!task.RaiseTask? ==> q.currentStop == p.currentStop)
    && (task.SettleTask? || task.RecheckTask? || task.SyncTask? ==>
          && q.entryOrderId == p.entryOrderId
          && (q.stopOrderId == p.stopOrderId || (p.stopOrderId.None? && p.entryOrderId < known)))
  }

  lemma TendFrom(c: CycleInput, task: Task, e: Env, p: Pos, errors: nat)
    ensures var t := Tend(c, task, e, p, errors);
      t.kept.Some? ==> From(task, p, t.kept.value, |t.env.orders|)
  {
    hide Retry, Exec, Settle, Updated;
    if task.SettleTask? {
      SettleKeepsRecord(e, p);
    }
  }

  ghost predicate AllFrom(task: Task, before: seq<Pos>, after: seq<Pos>, known: nat) {
    forall q :: q in after ==> exists p :: p in before && From(task, p, q, known)
  }

  lemma {:induction false} ForEachFrom(c: CycleInput, task: Task, e: Env, todo: seq<Pos>, errors: nat)
    ensures var f := ForEach(c, task, e, todo, errors);
      AllFrom(task, todo, f.book, |f.env.orders|) && |e.orders| <= |f.env.orders|
    decreases |todo|
  {
    hide Tend, From;
    var f := ForEach(c, task, e, todo, errors);
    ForEachAges(c, task, e, todo, errors);
    if todo != [] {
      TendFrom(c, task, e, todo[0], errors);
      var t := Tend(c, task, e, todo[0], errors);
      if t.outcome.Returned? {
        ForEachFrom(c, task, t.env, todo[1..], t.errors);
      }
      forall q | q in f.book ensures exists p :: p in todo && From(task, p, q, |f.env.orders|) {
        var tail := if t.outcome.Raised? then todo[1..] else ForEach(c, task, t.env, todo[1..], t.errors).book;
        assert f.book == Kept(t) + tail;
        if q in tail {
          SelfFrom(task, q, |f.env.orders|);
          var p :| p in todo[1..] && From(task, p, q, |f.env.orders|);
          assert p in todo;
        } else {
          assert q in Kept(t);
          MoreKnown(task, todo[0], q, |t.env.orders|, |f.env.orders|);
          assert todo[0] in todo;
        }
      }
    }
  }

  lemma SelfFrom(task: Task, p: Pos, known: nat)
    ensures From(task, p, p, known)
  {
  }

  lemma MoreKnown(task: Task, p: Pos, q: Pos, known: nat, more: nat)
    requires From(task, p, q, known) && known <= more
    ensures From(task, p, q, more)
  {
  }

  /** The symbol's record after a phase is what its turn left. */
  lemma {:induction false} TurnDecides(c: CycleInput, task: Task, e: Env, todo: seq<Pos>, errors: nat, symbol: Symbol)
    requires DistinctSymbols(todo) && TurnOf(c, task, e, todo, errors, symbol).Some?
    ensures var f, t := ForEach(c, task, e, todo, errors), TurnOf(c, task, e, todo, errors, symbol).value;
      && t.pos in todo && t.pos.symbol == symbol
      && Aged(Taken(c, task, t).env.orders, f.env.orders)
      && (forall q :: q in f.book && q.symbol == symbol ==> Taken(c, task, t).kept == Some(q))
    decreases |todo|
  {
    hide Tend, Aged;
    var f, t := ForEach(c, task, e, todo, errors), TurnOf(c, task, e, todo, errors, symbol).value;
    var head := Tend(c, task, e, todo[0], errors);
    TendKeepsSymbol(c, task, e, todo[0], errors);
    var tail := if head.outcome.Raised? then todo[1..] else ForEach(c, task, head.env, todo[1..], head.errors).book;
    assert f.book == Kept(head) + tail;
    if todo[0].symbol == symbol {
      StaysAged(head.env.orders);
      ForEachAges(c, task, head.env, todo[1..], head.errors);
      HeadIsStranger(todo);
      ForEachFrom(c, task, head.env, todo[1..], head.errors);
      forall q | q in tail ensures q.symbol != symbol {
        TailSymbols(task, todo[1..], tail, |f.env.orders|, q, head.outcome.Raised?);
      }
      assert todo[0] in todo;
    } else {
      TailIsDistinct(todo);
      TurnDecides(c, task, head.env, todo[1..], head.errors, symbol);
    }
  }

  lemma TailIsDistinct(todo: seq<Pos>)
    requires DistinctSymbols(todo) && todo != []
    ensures DistinctSymbols(todo[1..])
  {
  }

  lemma TailSymbols(task: Task, before: seq<Pos>, tail: seq<Pos>, known: nat, q: Pos, same: bool)
    requires q in tail && (if same then tail == before else AllFrom(task, before, tail, known))
    ensures HasSymbol(before, q.symbol)
  {
    var p :| p in before && p.symbol == q.symbol;
    var i :| 0 <= i < |before| && before[i] == p;
    assert before[i].symbol == q.symbol;
  }

  // ----- records that are no longer what the cycle started from -----

  /** Placed or entered after the broker had `known` orders. */
  predicate Newer(r: Pos, known: nat) {
    r.entryOrderId >= known && (r.stopOrderId.Some? ==> r.stopOrderId.value >= known)
  }

  /** Its stop, or failing that its entry, is one of the first `known` orders. */
  predicate Older(p: Pos, known: nat) {
    if p.stopOrderId.Some? then p.stopOrderId.value < known else p.entryOrderId < known
  }

  /** The record has moved on from `p`: its stop was raised, or it got one. */
  predicate MovedOn(p: Pos, r: Pos, raised: bool) {
    if raised then r.currentStop != p.currentStop else p.stopOrderId.None? && r.stopOrderId.Some?
  }

  ghost predicate AllMovedOn(p: Pos, book: seq<Pos>, raised: bool) {
    forall r :: r in book && r.symbol == p.symbol ==> MovedOn(p, r, raised)
  }

  lemma PhaseKeepsMovedOn(task: Task, p: Pos, before: seq<Pos>, after: seq<Pos>, known: nat, raised: bool)
    requires AllMovedOn(p, before, raised) && AllFrom(task, before, after, known) && (raised ==> !task.RaiseTask?)
    ensures AllMovedOn(p, after, raised)
  {
    forall r | r in after && r.symbol == p.symbol ensures MovedOn(p, r, raised) {
      var b :| b in before && From(task, b, r, known);
    }
  }

  lemma MovedOnIsGone(p: Pos, book: seq<Pos>, raised: bool)
    requires AllMovedOn(p, book, raised)
    ensures p !in book
  {
  }

  // ----- what the entry loop adds is new -----

  lemma NewEntryIsNewer(e: Env, plan: EntryPlan)
    requires OpenPosition(e, plan).pos.Some?
    ensures var o := OpenPosition(e, plan);
      var d := Settle(o.env, o.pos.value);
      && Newer(d.pos, |e.orders|) && d.pos.symbol == plan.symbol
  {
    hide Settle, Arrive;
    var o := OpenPosition(e, plan);
    ArriveEvolves(e, SubmitMarketEntry(plan.symbol, plan.qty, plan.side, EntryCoid(plan)));
    OpeningAges(e, plan);
    assert o.pos.value.entryOrderId >= |e.orders| && o.pos.value.stopOrderId.None?;
    SettleKeepsRecord(o.env, o.pos.value);
    SettledStopIsNew(o.env, o.pos.value);
  }

  lemma SettledStopIsNew(e: Env, p: Pos)
    requires p.stopOrderId.None?
    ensures Settle(e, p).pos.stopOrderId.Some? ==> Settle(e, p).pos.stopOrderId.value >= |e.orders|
  {
    hide Retry;
    var c := Retry(e, GetOrder(p.entryOrderId), ATTEMPTS);
    RetryAges(e, GetOrder(p.entryOrderId), ATTEMPTS);
    if c.result.Ok? && c.result.reply.order.filledQty > 0.0 {
      var q := p.(filledQty := c.result.reply.order.filledQty, lastOrderStatus := Some(c.result.reply.order.status));
      if AttachProtection(c.env, q).outcome.Returned? {
        RetryPlacedIsUsed(c.env, q, ATTEMPTS);
      }
    }
  }

  lemma {:induction false} EntriesAddNewer(c: CycleInput, s: EntryPhase, candidates: seq<(Symbol, Verdict)>, known: nat)
    requires known <= |s.env.orders|
    ensures var f := ConsiderEntries(c, s, candidates);
      forall r :: r in f.book ==> r in s.book || Newer(r, known)
    decreases |candidates|
  {
    if candidates != [] && !s.outcome.Raised? {
      hide OpenEntry, Newer, Tracked;
      var (symbol, v) := candidates[0];
      var next := if Tracked(s.book, symbol) then s else ConsiderOne(c, s, symbol, v);
      if v.Approved? {
        OpenEntryAges(s.env, s.book, PlanFor(c, symbol, v));
        OpenEntryAddsNewer(s.env, s.book, PlanFor(c, symbol, v), known);
      }
      EntriesAddNewer(c, next, candidates[1..], known);
    }
  }

  lemma OpenEntryAddsNewer(e: Env, book: seq<Pos>, plan: EntryPlan, known: nat)
    requires known <= |e.orders|
    ensures forall r :: r in OpenEntry(e, book, plan).book ==> r in book || Newer(r, known)
  {
    hide Settle, OpenPosition;
    var o := OpenPosition(e, plan);
    if o.pos.Some? {
      NewEntryIsNewer(e, plan);
    }
  }

  /** From the exits on: unless the feed is stale for everything, what is saved no
      longer holds a record that has moved on. */
  lemma WhileOpenMovesOn(c: CycleInput, e: Env, saved: seq<Pos>, book: seq<Pos>, errors: nat, p: Pos, raised: bool)
    requires AllMovedOn(p, book, raised) && Older(p, |e.orders|)
    ensures var end := WhileOpen(c, e, saved, book, errors);
      if end.halt == Some(StaleData) then end.book == saved else p !in end.book
  {
    hide ForEach, ConsiderEntries, AllFrom, AllMovedOn;
    ForEachFrom(c, ExitTask, e, book, errors);
    var exits := ForEach(c, ExitTask, e, book, errors);
    PhaseKeepsMovedOn(ExitTask, p, book, exits.book, |exits.env.orders|, raised);
    MovedOnIsGone(p, exits.book, raised);
    EntriesAddNewer(c, EntryPhase(exits.env, exits.book, exits.errors, 0, 0, Returned(true)), c.candidates, |e.orders|);
  }

  // ----- the raises and attaches of one cycle -----

  /** In this cycle the broker confirmed a raise of the symbol's stop. */
  predicate ConfirmsRaise(c: CycleInput, d: Desk, symbol: Symbol) {
    var s := StopsPhase(c, d);
    && c.execute && s.Some?
    && var t := TurnOf(c, RaiseTask, s.value.0, s.value.1, 0, symbol);
       t.Some? && Taken(c, RaiseTask, t.value).outcome == Returned(true)
  }

  /** In this cycle a settle got the symbol's protection confirmed. */
  predicate ConfirmsAttach(c: CycleInput, d: Desk, symbol: Symbol) {
    var a := Retry(d.env, GetAccount, ATTEMPTS);
    && Runs(c, d) && c.execute && a.result.Ok?
    && var t := TurnOf(c, SettleTask, a.env, d.book, 0, symbol);
       && t.Some? && t.value.pos.status.PendingEntry? && t.value.pos.stopOrderId.None?
       && Settle(t.value.env, t.value.pos).pos.stopOrderId.Some?
  }

  lemma RaiseTurnMeans(c: CycleInput, t: Turn)
    requires c.execute && Taken(c, RaiseTask, t).outcome == Returned(true)
    ensures var f, k := Taken(c, RaiseTask, t), t.pos.stopOrderId;
      && t.pos.status.Open? && f.kept.Some? && f.kept.value.currentStop != t.pos.currentStop
      && k.Some? && k.value < |f.env.orders| && !IsWorking(f.env.orders[k.value].status)
  {
    hide Exec, Updated;
    var bars := c.barsForStops(t.pos.symbol);
    assert bars.FreshBars?;
    assert RaiseStop(t.env, t.pos, bars.price, bars.atr).outcome == Returned(true);
    RaiseNeedsWorkingStop(t.env, t.pos, bars.price, bars.atr);
  }

  /** The book a cycle raises stops on holds the records it started from, settled
      and synced. */
  lemma StopsPhaseFrom(c: CycleInput, d: Desk, q: Pos)
    requires BookOk(d.book) && StopsPhase(c, d).Some? && q in StopsPhase(c, d).value.1
    ensures var s := StopsPhase(c, d).value;
      && BookOk(s.1)
      && exists p :: p in d.book && SameRecord(p, q, |s.0.orders|)
  {
    hide Retry, ForEach, Reconcile, AllFrom, SameRecord, UpToReconcile;
    var k := UpToReconcile(c, d.env, d.book);
    CheckpointKeeps(c, d.env, d.book);
    var sync := SyncTask(Reconcile(k.book, k.snap).autoClosed);
    var synced := ForEach(c, sync, k.env, k.book, 0);
    ForEachKeeps(c, sync, k.env, k.book, 0);
    ForEachFrom(c, sync, k.env, k.book, 0);
    RetryAges(synced.env, IsMarketOpen, ATTEMPTS);
    FromOne(sync, k.book, synced.book, |synced.env.orders|, q);
    var r :| r in k.book && From(sync, r, q, |synced.env.orders|);
    CheckpointFrom(c, d.env, d.book, r);
    var p :| p in d.book && SameRecord(p, r, |k.env.orders|);
    SameRecordChain(p, r, q, |k.env.orders|, |Retry(synced.env, IsMarketOpen, ATTEMPTS).env.orders|, sync);
  }

  /** The same position, with the stop it had or one placed for a known entry. */
  predicate SameRecord(p: Pos, q: Pos, known: nat) {
    && q.symbol == p.symbol && q.currentStop == p.currentStop
    && (q.stopOrderId == p.stopOrderId || (p.stopOrderId.None? && p.entryOrderId < known))
    && q.entryOrderId == p.entryOrderId
  }

  lemma FromOne(task: Task, before: seq<Pos>, after: seq<Pos>, known: nat, q: Pos)
    requires AllFrom(task, before, after, known) && q in after
    ensures exists p :: p in before && From(task, p, q, known)
  {
  }

  lemma SameRecordChain(p: Pos, r: Pos, q: Pos, known: nat, more: nat, task: Task)
    requires SameRecord(p, r, known) && From(task, r, q, more) && known <= more
    requires task.SettleTask? || task.RecheckTask? || task.SyncTask?
    ensures SameRecord(p, q, more)
  {
  }

  lemma CheckpointFrom(c: CycleInput, e: Env, book: seq<Pos>, r: Pos)
    requires r in UpToReconcile(c, e, book).book && UpToReconcile(c, e, book).Read?
    ensures exists p :: p in book && SameRecord(p, r, |UpToReconcile(c, e, book).env.orders|)
  {
    hide Retry, ForEach, AllFrom, SameRecord, From;
    var a := Retry(e, GetAccount, ATTEMPTS);
    var s := SettleAndRecheck(c, a.env, book);
    RetryAges(s.env, ListPositions, ATTEMPTS);
    var known := |UpToReconcile(c, e, book).env.orders|;
    RetryAges(Retry(s.env, ListPositions, ATTEMPTS).env, ListOpenOrders, ATTEMPTS);
    if !c.execute {
      SameRecordSelf(r, known);
    } else {
      ForEachFrom(c, SettleTask, a.env, book, 0);
      var t := ForEach(c, SettleTask, a.env, book, 0);
      ForEachFrom(c, RecheckTask, t.env, t.book, 0);
      FromOne(RecheckTask, t.book, s.book, |s.env.orders|, r);
      var q :| q in t.book && From(RecheckTask, q, r, |s.env.orders|);
      FromOne(SettleTask, book, t.book, |t.env.orders|, q);
      var p :| p in book && From(SettleTask, p, q, |t.env.orders|);
      SameRecordSelf(p, known);
      MoreKnown(SettleTask, p, q, |t.env.orders|, known);
      MoreKnown(RecheckTask, q, r, |s.env.orders|, known);
      SameRecordChain(p, p, q, known, known, SettleTask);
      SameRecordChain(p, q, r, known, known, RecheckTask);
    }
  }

  lemma SameRecordSelf(p: Pos, known: nat)
    ensures SameRecord(p, p, known)
  {
  }

  // ----- what is forgotten, exactly -----

  lemma OnlyRecord(book: seq<Pos>, p: Pos, q: Pos)
    requires DistinctSymbols(book) && p in book && q in book && p.symbol == q.symbol
    ensures p == q
  {
  }

  /** After a confirmed raise, the trailing phases end with a record that has moved on. */
  lemma TrailMovesOn(c: CycleInput, e: Env, book: seq<Pos>, p: Pos)
    requires c.execute && DistinctSymbols(book) && TurnOf(c, RaiseTask, e, book, 0, p.symbol).Some?
    requires var t := TurnOf(c, RaiseTask, e, book, 0, p.symbol).value;
      Taken(c, RaiseTask, t).outcome == Returned(true) && SameRecord(p, t.pos, |e.orders|)
    ensures var s := TrailStops(c, e, book);
      AllMovedOn(p, s.book, true) && Older(p, |s.env.orders|)
  {
    hide ForEach, Tend, AllFrom, TurnOf;
    var t := TurnOf(c, RaiseTask, e, book, 0, p.symbol).value;
    TurnDecides(c, RaiseTask, e, book, 0, p.symbol);
    RaiseTurnMeans(c, t);
    ForEachAges(c, RaiseTask, e, book, 0);
    var r := ForEach(c, RaiseTask, e, book, 0);
    assert AllMovedOn(p, r.book, true);
    ForEachFrom(c, RefreshTask, r.env, r.book, r.errors);
    var f := ForEach(c, RefreshTask, r.env, r.book, r.errors);
    PhaseKeepsMovedOn(RefreshTask, p, r.book, f.book, |f.env.orders|, true);
  }

  /** A stop raised in a cycle is forgotten, its old record left on disk as it was,
      if and only if the cycle ends in the stale-data return. */
  lemma RaiseForgottenIff(c: CycleInput, d: Desk, p: Pos)
    requires BookOk(d.book) && p in d.book && ConfirmsRaise(c, d, p.symbol)
    ensures p in RunCycle(c, d).book <==> FeedGoesStale(c, d)
  {
    hide StopsPhase, TurnOf, Taken, RunCycle, Body, TrailStops, WhileOpen, SameRecord, AllMovedOn, Older, BookOk;
    var (e, book, _) := StopsPhase(c, d).value;
    var t := TurnOf(c, RaiseTask, e, book, 0, p.symbol).value;
    RaiseRecord(c, d, p);
    TrailMovesOn(c, e, book, p);
    FromStopsPhase(c, d);
    var s := TrailStops(c, e, book);
    MovedOnIsGone(p, s.book, true);
    WhileOpenMovesOn(c, s.env, d.book, s.book, s.errors, p, true);
    StaleReturnIff(c, d);
  }

  /** The raised position is the one the saved record is about. */
  lemma RaiseRecord(c: CycleInput, d: Desk, p: Pos)
    requires BookOk(d.book) && p in d.book && ConfirmsRaise(c, d, p.symbol)
    ensures var (e, book, _) := StopsPhase(c, d).value;
      && DistinctSymbols(book)
      && SameRecord(p, TurnOf(c, RaiseTask, e, book, 0, p.symbol).value.pos, |e.orders|)
  {
    hide StopsPhase, TurnOf, Taken, SameRecord;
    var (e, book, _) := StopsPhase(c, d).value;
    var t := TurnOf(c, RaiseTask, e, book, 0, p.symbol).value;
    TurnIsInBook(c, RaiseTask, e, book, 0, p.symbol);
    StopsPhaseFrom(c, d, t.pos);
    var r :| r in d.book && SameRecord(r, t.pos, |e.orders|);
    SameRecordSymbol(r, t.pos, |e.orders|);
    OnlyRecord(d.book, p, r);
  }

  lemma SameRecordSymbol(p: Pos, q: Pos, known: nat)
    requires SameRecord(p, q, known)
    ensures p.symbol == q.symbol
  {
  }

  lemma {:induction false} TurnIsInBook(c: CycleInput, task: Task, e: Env, todo: seq<Pos>, errors: nat, symbol: Symbol)
    requires TurnOf(c, task, e, todo, errors, symbol).Some?
    ensures TurnOf(c, task, e, todo, errors, symbol).value.pos in todo
    ensures TurnOf(c, task, e, todo, errors, symbol).value.pos.symbol == symbol
    decreases |todo|
  {
    hide Tend;
    if todo[0].symbol != symbol {
      var t := Tend(c, task, e, todo[0], errors);
      TurnIsInBook(c, task, t.env, todo[1..], t.errors, symbol);
    }
  }

  /** What a forgotten raise costs: from the record left on disk no raise ever moves
      the stop again, whatever the bot and the market do afterwards. */
  lemma ForgottenRaiseIsStuck(c: CycleInput, d: Desk, p: Pos, later: Env, price: real, atr: Option<real>)
    requires BookOk(d.book) && p in d.book && p.stopOrderId.Some? && ConfirmsRaise(c, d, p.symbol) && FeedGoesStale(c, d)
    requires Aged(RunCycle(c, d).env.orders, later.orders)
    requires MoreProtective(p.side, Updated(p.ratchet, price, atr).stop, p.currentStop)
    ensures p in RunCycle(c, d).book && RaiseStop(later, p, price, atr).outcome.Raised?
  {
    hide StopsPhase, TurnOf, RaiseStop, RunCycle, FeedGoesStale, Updated, BookOk;
    RaiseForgottenIff(c, d, p);
    RaisedIdIsDead(c, d, p);
    DeadStopIsStuck(RunCycle(c, d).env.orders, p, later, price, atr);
  }

  lemma RaisedIdIsDead(c: CycleInput, d: Desk, p: Pos)
    requires BookOk(d.book) && p in d.book && p.stopOrderId.Some? && ConfirmsRaise(c, d, p.symbol)
    ensures var orders, k := RunCycle(c, d).env.orders, p.stopOrderId.value;
      k < |orders| && !IsWorking(orders[k].status)
  {
    hide StopsPhase, TurnOf, Taken, RunCycle, Body, TrailStops, WhileOpen, ForEach;
    var (e, book, _) := StopsPhase(c, d).value;
    var t := TurnOf(c, RaiseTask, e, book, 0, p.symbol).value;
    RaiseRecord(c, d, p);
    RaiseTurnMeans(c, t);
    TurnDecides(c, RaiseTask, e, book, 0, p.symbol);
    var r := ForEach(c, RaiseTask, e, book, 0);
    ForEachAges(c, RefreshTask, r.env, r.book, r.errors);
    var s := TrailStops(c, e, book);
    FromStopsPhase(c, d);
    WhileOpenAges(c, s.env, d.book, s.book, s.errors);
    TrailIs(c, e, book);
    EndOrders(c, d);
  }

  lemma TrailIs(c: CycleInput, e: Env, book: seq<Pos>)
    ensures var r := ForEach(c, RaiseTask, e, book, 0);
      TrailStops(c, e, book).env == r.env || TrailStops(c, e, book).env == ForEach(c, RefreshTask, r.env, r.book, r.errors).env
  {
    hide ForEach;
  }

  lemma EndOrders(c: CycleInput, d: Desk)
    requires Runs(c, d)
    ensures RunCycle(c, d).env.orders == Body(c, d.env, d.book).env.orders && RunCycle(c, d).book == Body(c, d.env, d.book).book
  {
    hide Body;
  }

  // ----- a stop attached and forgotten -----

  lemma AttachTurnMeans(c: CycleInput, d: Desk, p: Pos)
    requires BookOk(d.book) && p in d.book && ConfirmsAttach(c, d, p.symbol)
    ensures var a := Retry(d.env, GetAccount, ATTEMPTS);
      var s := ForEach(c, SettleTask, a.env, d.book, 0);
      && p.status.PendingEntry? && p.stopOrderId.None?
      && AllMovedOn(p, s.book, false) && Older(p, |s.env.orders|) && CoidUsed(s.env.orders, ProtectCoid(p))
  {
    hide Retry, Settle, TurnOf, ForEach, CoidUsed;
    var a := Retry(d.env, GetAccount, ATTEMPTS);
    var t := TurnOf(c, SettleTask, a.env, d.book, 0, p.symbol).value;
    TurnDecides(c, SettleTask, a.env, d.book, 0, p.symbol);
    OnlyRecord(d.book, p, t.pos);
    SettleKeepsRecord(t.env, p);
    AgedCoidUsed(Taken(c, SettleTask, t).env.orders, ForEach(c, SettleTask, a.env, d.book, 0).env.orders, ProtectCoid(p));
  }

  /** Up to the reconciler the record in hand has its stop, and the broker knows it. */
  lemma CheckpointMovesOn(c: CycleInput, d: Desk, p: Pos)
    requires BookOk(d.book) && p in d.book && ConfirmsAttach(c, d, p.symbol)
    ensures var k := UpToReconcile(c, d.env, d.book);
      AllMovedOn(p, k.book, false) && Older(p, |k.env.orders|) && CoidUsed(k.env.orders, ProtectCoid(p))
  {
    hide Retry, ForEach, TurnOf, AllFrom, AllMovedOn, CoidUsed, BookOk, ConfirmsAttach;
    AttachTurnMeans(c, d, p);
    ConfirmedExecutes(c, d, p.symbol);
    var a := Retry(d.env, GetAccount, ATTEMPTS);
    var s := ForEach(c, SettleTask, a.env, d.book, 0);
    ForEachFrom(c, RecheckTask, s.env, s.book, 0);
    ForEachAges(c, RecheckTask, s.env, s.book, 0);
    var r := ForEach(c, RecheckTask, s.env, s.book, 0);
    PhaseKeepsMovedOn(RecheckTask, p, s.book, r.book, |r.env.orders|, false);
    AgedCoidUsed(s.env.orders, r.env.orders, ProtectCoid(p));
    var now := SettleAndRecheck(c, a.env, d.book);
    ReadAges(now.env);
    AgedCoidUsed(now.env.orders, ReadSnapshot(now.env).env.orders, ProtectCoid(p));
  }

  lemma ConfirmedExecutes(c: CycleInput, d: Desk, symbol: Symbol)
    requires ConfirmsAttach(c, d, symbol)
    ensures c.execute && Runs(c, d) && Retry(d.env, GetAccount, ATTEMPTS).result.Ok?
  {
  }

  lemma ReadAges(e: Env)
    ensures Aged(e.orders, ReadSnapshot(e).env.orders)
  {
    hide Retry, Aged;
    RetryAges(e, ListPositions, ATTEMPTS);
    var p := Retry(e, ListPositions, ATTEMPTS);
    RetryAges(p.env, ListOpenOrders, ATTEMPTS);
    AgedChain(e.orders, p.env.orders, Retry(p.env, ListOpenOrders, ATTEMPTS).env.orders);
  }

  /** A stop a settle attached is forgotten, the entry left waiting on disk, if and
      only if the cycle ends in one of the three returns that save nothing. */
  lemma AttachForgottenIff(c: CycleInput, d: Desk, p: Pos)
    requires BookOk(d.book) && p in d.book && ConfirmsAttach(c, d, p.symbol)
    ensures p in RunCycle(c, d).book <==> ReturnsUnsaved(c, d)
  {
    hide UpToReconcile, ForEach, Reconcile, AfterReconcile, AllMovedOn, Older, ConfirmsAttach, BookOk, AllFrom, ReturnsUnsaved;
    UnsavedReturnIff(c, d);
    CheckpointMovesOn(c, d, p);
    ConfirmedExecutes(c, d, p.symbol);
    var k := UpToReconcile(c, d.env, d.book);
    MovedOnIsGone(p, k.book, false);
    if k.Read? {
      var sync := SyncTask(Reconcile(k.book, k.snap).autoClosed);
      ForEachFrom(c, sync, k.env, k.book, 0);
      var synced := ForEach(c, sync, k.env, k.book, 0);
      PhaseKeepsMovedOn(sync, p, k.book, synced.book, |synced.env.orders|, false);
      OlderStays(p, |k.env.orders|, |synced.env.orders|);
      AfterReconcileMovesOn(c, synced.env, d.book, synced.book, k.account, p);
    }
  }

  lemma OlderStays(p: Pos, known: nat, more: nat)
    requires Older(p, known) && known <= more
    ensures Older(p, more)
  {
  }

  lemma AfterReconcileMovesOn(c: CycleInput, e: Env, saved: seq<Pos>, book: seq<Pos>, account: Account, p: Pos)
    requires AllMovedOn(p, book, false) && Older(p, |e.orders|)
    ensures var end := AfterReconcile(c, e, saved, book, account);
      if end.halt == Some(StaleData) || end.halt == Some(KillSwitch) then end.book == saved
      else p !in end.book && end.halt != Some(ReconcileMismatch)
  {
    hide ForEach, FlattenAll, Retry, WhileOpen, AllMovedOn, Older, TrailStops;
    MovedOnIsGone(p, book, false);
    RetryAges(e, IsMarketOpen, ATTEMPTS);
    var m := Retry(e, IsMarketOpen, ATTEMPTS);
    TrailKeepsMovedOn(c, m.env, book, p);
    var s := TrailStops(c, m.env, book);
    MovedOnIsGone(p, s.book, false);
    OlderStays(p, |e.orders|, |s.env.orders|);
    WhileOpenMovesOn(c, s.env, saved, s.book, s.errors, p, false);
    WhileOpenEnds(c, s.env, saved, s.book, s.errors);
  }

  lemma TrailKeepsMovedOn(c: CycleInput, e: Env, book: seq<Pos>, p: Pos)
    requires AllMovedOn(p, book, false)
    ensures AllMovedOn(p, TrailStops(c, e, book).book, false) && |e.orders| <= |TrailStops(c, e, book).env.orders|
  {
    hide ForEach, AllFrom, AllMovedOn;
    ForEachFrom(c, RaiseTask, e, book, 0);
    var r := ForEach(c, RaiseTask, e, book, 0);
    PhaseKeepsMovedOn(RaiseTask, p, book, r.book, |r.env.orders|, false);
    ForEachFrom(c, RefreshTask, r.env, r.book, r.errors);
    var f := ForEach(c, RefreshTask, r.env, r.book, r.errors);
    PhaseKeepsMovedOn(RefreshTask, p, r.book, f.book, |f.env.orders|, false);
  }

  /** What a forgotten attach costs: the entry's protective client id is used up, so
      no later settle of the record on disk can return with a fill. */
  lemma ForgottenAttachIsStuck(c: CycleInput, d: Desk, p: Pos, later: Env)
    requires BookOk(d.book) && p in d.book && ConfirmsAttach(c, d, p.symbol) && ReturnsUnsaved(c, d)
    requires Aged(RunCycle(c, d).env.orders, later.orders)
    ensures p in RunCycle(c, d).book
    ensures Settle(later, p).outcome.Returned? ==> Settle(later, p).pos.filledQty <= 0.0
  {
    hide RunCycle, ConfirmsAttach, ReturnsUnsaved, UpToReconcile, Settle, CoidUsed, BookOk;
    AttachForgottenIff(c, d, p);
    CheckpointMovesOn(c, d, p);
    BodyAgesOn(c, d);
    AgedCoidUsed(UpToReconcile(c, d.env, d.book).env.orders, RunCycle(c, d).env.orders, ProtectCoid(p));
    AgedCoidUsed(RunCycle(c, d).env.orders, later.orders, ProtectCoid(p));
    AttachTurnMeans(c, d, p);
    UsedIdNeverSettles(later, p);
  }

  lemma UsedIdNeverSettles(e: Env, p: Pos)
    requires p.stopOrderId.None? && CoidUsed(e.orders, ProtectCoid(p))
    ensures Settle(e, p).outcome.Returned? ==> Settle(e, p).pos.filledQty <= 0.0
  {
    hide Retry, CoidUsed, AttachProtection;
    RetryAges(e, GetOrder(p.entryOrderId), ATTEMPTS);
    var c := Retry(e, GetOrder(p.entryOrderId), ATTEMPTS);
    AgedCoidUsed(e.orders, c.env.orders, ProtectCoid(p));
    if c.result.Ok? && c.result.reply.order.filledQty > 0.0 {
      var q := p.(filledQty := c.result.reply.order.filledQty, lastOrderStatus := Some(c.result.reply.order.status));
      AttachIsProtectCall(c.env, q);
      RetryProtectRejected(c.env, q, ATTEMPTS);
    }
  }

  /** From its reconcile on, a cycle's orders only age. */
  lemma BodyAgesOn(c: CycleInput, d: Desk)
    requires Runs(c, d) || ReturnsUnsaved(c, d)
    ensures Aged(UpToReconcile(c, d.env, d.book).env.orders, RunCycle(c, d).env.orders)
  {
    hide UpToReconcile, ForEach, AfterReconcile, Reconcile, Aged;
    var k := UpToReconcile(c, d.env, d.book);
    StaysAged(k.env.orders);
    if k.Read? {
      var sync := SyncTask(Reconcile(k.book, k.snap).autoClosed);
      ForEachAges(c, sync, k.env, k.book, 0);
      var synced := ForEach(c, sync, k.env, k.book, 0);
      AfterReconcileAges(c, synced.env, d.book, synced.book, k.account);
      AgedChain(k.env.orders, synced.env.orders, AfterReconcile(c, synced.env, d.book, synced.book, k.account).env.orders);
    }
  }

  // ----- both happen -----

  /** Ten shares of SPY bought at 100, stop at 95, locking one percent from 103 on. */
  const LADDER: Ratchet := Ratchet(100.0, Long, PercentRule(5.0, Some(3.0), Some(1.0), None), 95.0, 100.0)

  const BOUGHT: Order := Order(Coid("SPY", "trend", "d1", EntryOrder), "SPY", Long, MarketOrder, Filled, 10.0, 0.0, 10.0, None)

  const RESTING: Order := Order(Coid("SPY", "trend", "d1", ProtectOrder), "SPY", Long, StopOrder, Held, 10.0, 95.0, 0.0, Some(90))

  const HELD: Pos := Pos("SPY", Long, 10.0, "trend", 0, Some(1), 95.0, LADDER, PositionStatus.Open, 10.0, None, None, Some(Filled), "d1")

  const WEALTH: Account := Account(1000.0, 1000.0, 1000.0)

  const QUIET: Env := Env([BOUGHT, RESTING], [PositionView("SPY", 10.0, Long)], WEALTH, true, [], [])

  /** A quiet desk, a fresh bar at 110 and one candidate whose data is stale. */
  ghost predicate RaisesThenStale(c: CycleInput) {
    && c.execute && !LiveBlocked(c) && !c.lockBusy && c.maxDailyLossPct > 0.0 && c.minDaysRemaining < 90
    && c.barsForStops("SPY") == c.barsForExits("SPY") == FreshBars(110.0, None, false)
    && c.candidates == [("QQQ", StaleSymbol)]
  }

  /** That cycle raises the stop to 101 at the broker, halts on stale data, and leaves
      the old record on disk: its order is dead, and no price moves the stop again. */
  lemma StaleCycleForgetsItsRaise(c: CycleInput, price: real)
    requires RaisesThenStale(c) && MoreProtective(Long, Updated(LADDER, price, None).stop, 95.0)
    ensures var d := Desk(QUIET, [HELD], Absent);
      var after := RunCycle(c, d);
      && ConfirmsRaise(c, d, "SPY") && FeedGoesStale(c, d)
      && after.book == [HELD] && after.halt == Stored(HaltRecord(ReasonFor(StaleData), StaleData, Some(c.now)))
      && |after.env.orders| == 3 && after.env.orders[1].status.Replaced?
      && after.env.orders[2].status.Held? && after.env.orders[2].price == 101.0
      && RaiseStop(after.env, HELD, price, None).outcome.Raised?
  {
    hide UpToReconcile, ForEach, Reconcile, TrailStops, WhileOpen, Updated, RaiseStop, FeedGoesStale;
    var d := Desk(QUIET, [HELD], Absent);
    QuietCheckpoint(c);
    QuietSync(c);
    QuietCall(QUIET, IsMarketOpen);
    var (e, book, _) := StopsPhase(c, d).value;
    assert e == QUIET && book == [HELD];
    QuietRaise(c);
    QuietStale(c);
    FromStopsPhase(c, d);
    StaleReturnIff(c, d);
    StaysAged(RunCycle(c, d).env.orders);
    assert HELD in d.book;
    ForgottenRaiseIsStuck(c, d, HELD, RunCycle(c, d).env, price, None);
  }

  const AGREED: Snapshot := Snapshot([PositionView("SPY", 10.0, Long)], [RESTING])

  lemma QuietCheckpoint(c: CycleInput)
    requires RaisesThenStale(c)
    ensures UpToReconcile(c, QUIET, [HELD]) == Read(QUIET, [HELD], AGREED, WEALTH)
    ensures Reconcile([HELD], AGREED).ok && Reconcile([HELD], AGREED).autoClosed == []
  {
    hide Reconcile;
    QuietCall(QUIET, GetAccount);
    QuietCall(QUIET, ListPositions);
    QuietCall(QUIET, ListOpenOrders);
    assert WorkingIds(QUIET.orders[..1]) == WorkingIds(QUIET.orders[..1][..0]) + [];
    assert WorkingIds(QUIET.orders) == [1];
    assert ForEach(c, SettleTask, QUIET, [HELD], 0) == Phase(QUIET, [HELD], 0, Returned(true));
    assert ForEach(c, RecheckTask, QUIET, [HELD], 0) == Phase(QUIET, [HELD], 0, Returned(true));
    QuietAgrees();
  }

  lemma QuietAgrees()
    ensures Reconcile([HELD], AGREED).ok && Reconcile([HELD], AGREED).autoClosed == []
  {
    hide Untracked, IsMismatched, IsUnprotected, IsPendingLost, IsAutoClosed;
    HeldIsThere(AGREED);
    HeldAtIff(AGREED.positions, "SPY");
    assert AGREED.orders[0].symbol == "SPY" && AGREED.positions[0] in AGREED.positions;
    assert Tracked([HELD], "SPY") by { assert [HELD][0] == HELD; }
    ReconcileOkIff([HELD], AGREED);
  }

  lemma QuietSync(c: CycleInput)
    ensures ForEach(c, SyncTask([]), QUIET, [HELD], 0) == Phase(QUIET, [HELD], 0, Returned(true))
  {
  }

  const RAISED: Env := QUIET.(orders := [BOUGHT, RESTING.(status := Replaced), RESTING.(price := 101.0)])

  const RAISED_BOOK: Pos := HELD.(stopOrderId := Some(2), currentStop := 101.0, ratchet := LADDER.(stop := 101.0, extreme := 110.0))

  lemma QuietRaise(c: CycleInput)
    requires RaisesThenStale(c)
    ensures TurnOf(c, RaiseTask, QUIET, [HELD], 0, "SPY") == Some(Turn(QUIET, HELD, 0))
    ensures Taken(c, RaiseTask, Turn(QUIET, HELD, 0)).outcome == Returned(true)
    ensures TrailStops(c, QUIET, [HELD]) == Phase(RAISED, [RAISED_BOOK], 0, Returned(true))
  {
    assert GainLevel(100.0, Long, 3.0) == 103.0 && GainLevel(100.0, Long, 1.0) == 101.0;
    assert Updated(LADDER, 110.0, None) == RAISED_BOOK.ratchet;
    RoundToGrid(101.0, 10100, 100.0);
    assert Exec(QUIET, ReplaceStop(1, 101.0)) == Effect(QUIET, ReplaceStop(1, 101.0), true);
    assert RAISED.orders == QUIET.orders[1 := RESTING.(status := Replaced)] + [RESTING.(price := 101.0)];
    assert RaiseStop(QUIET, HELD, 110.0, None) == Done(RAISED, RAISED_BOOK, Returned(true));
    QuietCall(RAISED, GetOrder(2));
    assert RefreshStaleStop(RAISED, RAISED_BOOK, c.minDaysRemaining) == Done(RAISED, RAISED_BOOK, Returned(false));
    assert ForEach(c, RaiseTask, QUIET, [HELD], 0) == Phase(RAISED, [RAISED_BOOK], 0, Returned(true));
    assert ForEach(c, RefreshTask, RAISED, [RAISED_BOOK], 0) == Phase(RAISED, [RAISED_BOOK], 0, Returned(true));
  }

  lemma QuietStale(c: CycleInput)
    requires RaisesThenStale(c)
    ensures WhileOpen(c, RAISED, [HELD], [RAISED_BOOK], 0) == End(RAISED, [HELD], Some(StaleData))
  {
    assert ForEach(c, ExitTask, RAISED, [RAISED_BOOK], 0) == Phase(RAISED, [RAISED_BOOK], 0, Returned(true));
    var s := EntryPhase(RAISED, [RAISED_BOOK], 0, 0, 0, Returned(true));
    assert c.candidates[1..] == [];
    assert ConsiderEntries(c, s, c.candidates) == s.(checked := 1, stale := 1);
  }

  const WAITING: Pos := HELD.(stopOrderId := None, status := PendingEntry, filledQty := 0.0, lastOrderStatus := None)

  /** The same purchase not yet settled, beside a position nobody tracks. */
  const STRANGE: Env := QUIET.(orders := [BOUGHT], positions := [PositionView("SPY", 10.0, Long), PositionView("GME", 1.0, Long)])

  /** A cycle settles the purchase, places its stop, then halts on the stranger and
      saves nothing: on disk the entry still waits, and it can never be settled. */
  lemma MismatchForgetsItsAttach(c: CycleInput)
    requires c.execute && !LiveBlocked(c) && !c.lockBusy
    ensures var d := Desk(STRANGE, [WAITING], Absent);
      var after := RunCycle(c, d);
      && ConfirmsAttach(c, d, "SPY") && ReturnsUnsaved(c, d)
      && after.book == [WAITING]
      && after.halt == Stored(HaltRecord(ReasonFor(ReconcileMismatch), ReconcileMismatch, Some(c.now)))
      && |after.env.orders| == 2 && after.env.orders[1].status.Held? && after.env.orders[1].price == 95.0
      && Settle(after.env, WAITING).outcome.Raised?
  {
    hide Body, Settle, ReturnsUnsaved, TurnOf, Retry;
    var d := Desk(STRANGE, [WAITING], Absent);
    StrangeEnds(c);
    StrangeSettles();
    StrangeCheckpoint(c);
    UnsavedReturnIff(c, d);
    StrangeStuck(RunCycle(c, d).env);
  }

  lemma StrangeEnds(c: CycleInput)
    requires c.execute
    ensures Body(c, STRANGE, [WAITING]) == End(STRANGE.(orders := [BOUGHT, RESTING]), [WAITING], Some(ReconcileMismatch))
  {
    hide ForEach, Reconcile, Settle, UpToReconcile, AfterReconcile;
    StrangeCheckpoint(c);
    StrangeMismatch(c);
  }

  lemma StrangeSettles()
    ensures Settle(STRANGE, WAITING) == Done(STRANGE.(orders := [BOUGHT, RESTING]), HELD, Returned(true))
    ensures Retry(STRANGE, GetAccount, ATTEMPTS) == Called(STRANGE, Ok(AccountReply(WEALTH)))
  {
    QuietCall(STRANGE, GetAccount);
    QuietCall(STRANGE, GetOrder(0));
    var q := WAITING.(filledQty := 10.0, lastOrderStatus := Some(Filled));
    RoundToGrid(95.0, 9500, 100.0);
    QuietCall(STRANGE, SubmitStop("SPY", 10.0, Long, 95.0, ProtectCoid(WAITING)));
    assert [BOUGHT] + [RESTING] == [BOUGHT, RESTING];
    assert AttachProtection(STRANGE, q) == Done(STRANGE.(orders := [BOUGHT, RESTING]), q.(stopOrderId := Some(1)), Returned(true));
  }

  const STRANGE_SNAP: Snapshot := Snapshot(STRANGE.positions, [RESTING])

  lemma StrangeCheckpoint(c: CycleInput)
    requires c.execute
    ensures var settled := STRANGE.(orders := [BOUGHT, RESTING]);
      && UpToReconcile(c, STRANGE, [WAITING]) == Read(settled, [HELD], STRANGE_SNAP, WEALTH)
      && TurnOf(c, SettleTask, STRANGE, [WAITING], 0, "SPY") == Some(Turn(STRANGE, WAITING, 0))
  {
    hide Settle;
    var settled := STRANGE.(orders := [BOUGHT, RESTING]);
    StrangeSettles();
    QuietCall(settled, ListPositions);
    QuietCall(settled, ListOpenOrders);
    assert WorkingIds(settled.orders[..1]) == WorkingIds(settled.orders[..1][..0]) + [];
    assert WorkingIds(settled.orders) == [1];
    assert ForEach(c, SettleTask, STRANGE, [WAITING], 0) == Phase(settled, [HELD], 0, Returned(true));
    assert ForEach(c, RecheckTask, settled, [HELD], 0) == Phase(settled, [HELD], 0, Returned(true));
  }

  lemma StrangeMismatch(c: CycleInput)
    ensures var r := Reconcile([HELD], STRANGE_SNAP); !r.ok && r.autoClosed == []
    ensures ForEach(c, SyncTask([]), STRANGE.(orders := [BOUGHT, RESTING]), [HELD], 0).env == STRANGE.(orders := [BOUGHT, RESTING])
  {
    hide Untracked, IsMismatched, IsUnprotected, IsPendingLost, IsAutoClosed;
    var gme := STRANGE_SNAP.positions[1];
    assert gme in STRANGE_SNAP.positions && !Tracked([HELD], "GME");
    HeldIsThere(STRANGE_SNAP);
    ReconcileOkIff([HELD], STRANGE_SNAP);
  }

  /** A position the broker still holds has not closed itself. */
  lemma HeldIsThere(snap: Snapshot)
    requires snap.positions != [] && snap.positions[0].symbol == "SPY"
    ensures !IsAutoClosed(HELD, snap)
  {
    HeldAtIff(snap.positions, "SPY");
    assert snap.positions[0] in snap.positions;
  }

  lemma StrangeStuck(e: Env)
    requires e.script == [] && e.orders == [BOUGHT, RESTING]
    ensures Settle(e, WAITING).outcome.Raised?
  {
    QuietCall(e, GetOrder(0));
    assert e.orders[1].coid == ProtectCoid(WAITING);
    assert Settle(e, WAITING).outcome.Raised? by {
      UsedIdNeverSettles(e, WAITING);
    }
  }
}
