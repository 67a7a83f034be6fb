/** What each phase of a cycle gets done when it runs to its end: every ladder is fed,
    exactly the positions that signal an exit are closed, and every approved candidate
    is booked. */
module CyclePhases {
  import opened Common
  import opened Ratchets
  import opened Brokers
  import opened OrderManagers
  import opened Reconcilers
  import opened Cycles
  import opened CycleSafety
  import opened EarlyReturns
  import opened CycleHalts
  import opened SentOrders

  // ----- fills -----

  /** What settling makes of one position of the book. */
  ghost predicate SettledFrom(p: Pos, q: Pos) {
    if !p.status.PendingEntry? then q == p
    else
      && OwnTicket(q) == OwnTicket(p) && q.entryOrderId == p.entryOrderId && !IsDeadEntry(q)
      && (q.filledQty > 0.0 ==> q.status.Open?)
  }

  lemma SettleTurnSettles(c: CycleInput, e: Env, p: Pos, errors: nat)
    ensures var t := Tend(c, SettleTask, e, p, errors);
      t.outcome.Returned? && t.kept.Some? ==> SettledFrom(p, t.kept.value)
    ensures var t := Tend(c, SettleTask, e, p, errors);
      t.outcome.Returned? && t.kept.None? ==> p.status.PendingEntry? && IsDeadEntry(Settle(e, p).pos)
  {
    hide Retry, LegOfType;
  }

  /** A settling phase that reaches the end of the book leaves no entry in it that died
      empty and none still pending that has any fill; what was not pending is as it
      was. */
  lemma {:induction false} SettlePhaseSettles(c: CycleInput, e: Env, todo: seq<Pos>, errors: nat)
    requires ForEach(c, SettleTask, e, todo, errors).outcome.Returned?
    ensures var f := ForEach(c, SettleTask, e, todo, errors);
      && (forall q :: q in f.book ==> exists p :: p in todo && SettledFrom(p, q))
      && (forall p :: p in todo && !p.status.PendingEntry? ==> p in f.book)
    decreases |todo|
  {
    hide Tend, SettledFrom;
    if todo != [] {
      SettleTurnSettles(c, e, todo[0], errors);
      var t := Tend(c, SettleTask, e, todo[0], errors);
      SettlePhaseSettles(c, t.env, todo[1..], t.errors);
      var rest := ForEach(c, SettleTask, t.env, todo[1..], t.errors).book;
      assert todo == [todo[0]] + todo[1..];
      forall q | q in Kept(t) + rest ensures exists p :: p in todo && SettledFrom(p, q) {
        if q in rest {
          var p :| p in todo[1..] && SettledFrom(p, q);
          assert p in todo;
        }
      }
      if !todo[0].status.PendingEntry? {
        UnsettledStays(c, e, todo[0], errors);
      }
    }
  }

  lemma UnsettledStays(c: CycleInput, e: Env, p: Pos, errors: nat)
    requires !p.status.PendingEntry?
    ensures Tend(c, SettleTask, e, p, errors).kept == Some(p)
  {
  }

  // ----- stops -----

  /** The ladder after the phase, for the price the feed had, if it had a fresh one. */
  function FedOnce(c: CycleInput, p: Pos): Ratchet {
    var bars := c.barsForStops(p.symbol);
    if p.status.Open? && bars.FreshBars? then Updated(p.ratchet, bars.price, bars.atr) else p.ratchet
  }

  lemma RaiseTurnFeeds(c: CycleInput, e: Env, p: Pos, errors: nat)
    requires Protected(p)
    ensures var t := Tend(c, RaiseTask, e, p, errors);
      t.outcome.Returned? ==> t.kept.Some? && t.kept.value.ratchet == FedOnce(c, p)
  {
    hide Exec, Updated;
  }

  /** A phase that reaches the end of the book has fed every open position's ladder its
      fresh price, executing or not, and whichever replaces were lost on the way. */
  lemma {:induction false} RaisePhaseFeeds(c: CycleInput, e: Env, todo: seq<Pos>, errors: nat)
    requires ForEach(c, RaiseTask, e, todo, errors).outcome.Returned?
    requires forall i :: 0 <= i < |todo| ==> Protected(todo[i])
    ensures var f := ForEach(c, RaiseTask, e, todo, errors);
      |f.book| == |todo| && forall i :: 0 <= i < |todo| ==> f.book[i].ratchet == FedOnce(c, todo[i])
    decreases |todo|
  {
    hide Tend, FedOnce;
    if todo != [] {
      RaiseTurnFeeds(c, e, todo[0], errors);
      var t := Tend(c, RaiseTask, e, todo[0], errors);
      RaisePhaseFeeds(c, t.env, todo[1..], t.errors);
    }
  }

  // ----- partial fills -----

  /** An open position whose entry, as far as the broker says, has filled further. */
  predicate KeptFilling(orders: seq<Order>, p: Pos) {
    && p.status.Open? && p.filledQty < p.qty
    && (p.entryOrderId >= |orders| || orders[p.entryOrderId].filledQty > p.filledQty)
  }

  lemma QuietLookUp(e: Env, id: OrderId)
    requires e.script == []
    ensures var c := Retry(e, GetOrder(id), ATTEMPTS); c.env == e && (c.result.Err? <==> id >= |e.orders|)
    ensures var c := Retry(e, GetOrder(id), ATTEMPTS); c.result.Err? ==> !c.result.transient
    ensures var c := Retry(e, GetOrder(id), ATTEMPTS); c.result.Ok? ==> c.result.reply.order == e.orders[id]
  {
    assert e.(script := []) == e;
  }

  lemma QuietRecheckTurn(c: CycleInput, e: Env, p: Pos, errors: nat)
    requires e.script == []
    ensures var t := Tend(c, RecheckTask, e, p, errors);
      && t.env == e && t.errors == errors && t.kept.Some? && (t.outcome.Raised? <==> KeptFilling(e.orders, p))
      && (t.outcome.Raised? ==> !t.outcome.transient)
  {
    hide Retry;
    QuietLookUp(e, p.entryOrderId);
  }

  /** With no fault in the way, rechecking the book raises if and only if some entry has
      kept filling after its protection was sized. */
  lemma {:induction false} QuietRecheckRaisesIff(c: CycleInput, e: Env, todo: seq<Pos>, errors: nat)
    requires e.script == []
    ensures var f := ForEach(c, RecheckTask, e, todo, errors);
      && f.env == e && (f.outcome.Raised? ==> !f.outcome.transient)
      && (f.outcome.Raised? <==> exists i :: 0 <= i < |todo| && KeptFilling(e.orders, todo[i]))
    decreases |todo|
  {
    hide Tend, KeptFilling;
    if todo != [] {
      QuietRecheckTurn(c, e, todo[0], errors);
      QuietRecheckRaisesIff(c, e, todo[1..], errors);
      assert forall i :: 0 < i < |todo| ==> todo[i] == todo[1..][i - 1];
      if i :| 0 <= i < |todo[1..]| && KeptFilling(e.orders, todo[1..][i]) {
        assert todo[i + 1] == todo[1..][i];
      }
    }
  }

  /** An executing cycle over such a book halts as an exception, with no entry sent. */
  lemma KeptFillingHalts(c: CycleInput, d: Desk, i: nat)
    requires Runs(c, d) && c.execute && d.env.script == [] && BookOk(d.book)
    requires forall j :: 0 <= j < |d.book| ==> !d.book[j].status.PendingEntry?
    requires i < |d.book| && KeptFilling(d.env.orders, d.book[i])
    ensures var after := RunCycle(c, d);
      && after.halt == Stored(HaltRecord("cycle exception", Exception, Some(c.now)))
      && Entries(after.env.journal) == Entries(d.env.journal) && after.env.orders == d.env.orders
  {
    hide RunCycle, KeptFilling, Entries;
    QuietCall(d.env, GetAccount);
    NothingToSettle(c, d.env, d.book, 0);
    QuietRecheckRaisesIff(c, d.env, d.book, 0);
    CrashIsClassed(c, d);
    CrashLeavesOrders(c, d);
  }

  lemma CrashLeavesOrders(c: CycleInput, d: Desk)
    requires Runs(c, d) && UpToReconcile(c, d.env, d.book).Crashed? && BookOk(d.book)
    ensures RunCycle(c, d).env.orders == UpToReconcile(c, d.env, d.book).env.orders
    ensures Entries(RunCycle(c, d).env.journal) == Entries(d.env.journal)
  {
    hide UpToReconcile, Entries, BookOk;
    CheckpointKeeps(c, d.env, d.book);
    var k := UpToReconcile(c, d.env, d.book);
    EntriesSnoc(d.env.journal, HaltSet(HaltRecord("cycle exception", if k.transient then Disconnect else Exception, Some(c.now))));
  }

  lemma {:induction false} NothingToSettle(c: CycleInput, e: Env, todo: seq<Pos>, errors: nat)
    requires forall j :: 0 <= j < |todo| ==> !todo[j].status.PendingEntry?
    ensures ForEach(c, SettleTask, e, todo, errors) == Phase(e, todo, errors, Returned(true))
    decreases |todo|
  {
    hide Settle;
    if todo != [] {
      NothingToSettle(c, e, todo[1..], errors);
      assert [todo[0]] + todo[1..] == todo;
    }
  }

  // ----- ageing stops -----

  /** What is there keeps its days. */
  predicate KeepsDays(a: seq<Order>, b: seq<Order>) {
    |a| <= |b| && forall i :: 0 <= i < |a| ==> b[i].expiresInDays == a[i].expiresInDays
  }

  lemma QuietReplace(e: Env, id: OrderId, level: real)
    requires e.script == []
    ensures var c := Retry(e, ReplaceStop(id, level), ATTEMPTS); c.env.script == [] && KeepsDays(e.orders, c.env.orders)
  {
    hide Rounding.Cents;
    assert e.(script := []) == e;
  }

  lemma QuietRefreshTurn(c: CycleInput, e: Env, p: Pos, errors: nat)
    requires e.script == [] && Protected(p) && c.minDaysRemaining < 90
    ensures var t := Tend(c, RefreshTask, e, p, errors);
      && t.env.script == [] && KeepsDays(e.orders, t.env.orders) && t.kept.Some? && t.errors >= errors
      && t.kept.value.status == p.status
      && (p.status.Open? && t.errors == errors ==> DaysLeft(t.env.orders, t.kept.value.stopOrderId, c.minDaysRemaining))
  {
    hide Retry, DaysLeft;
    if p.status.Open? {
      QuietLookUp(e, p.stopOrderId.value);
      QuietReplace(e, p.stopOrderId.value, p.currentStop);
      if RefreshStaleStop(e, p, c.minDaysRemaining).outcome.Returned? {
        RefreshLeavesDays(e, p, c.minDaysRemaining);
      }
    }
  }

  lemma {:induction false} QuietRefreshLeavesDays(c: CycleInput, e: Env, todo: seq<Pos>, errors: nat)
    requires e.script == [] && c.minDaysRemaining < 90 && forall i :: 0 <= i < |todo| ==> Protected(todo[i])
    ensures var f := ForEach(c, RefreshTask, e, todo, errors);
      && f.errors >= errors && KeepsDays(e.orders, f.env.orders)
      && (f.errors == errors && f.outcome.Returned? ==>
            forall q :: q in f.book && q.status.Open? ==> DaysLeft(f.env.orders, q.stopOrderId, c.minDaysRemaining))
    decreases |todo|
  {
    hide Tend, DaysLeft, KeepsDays;
    DaysStay(e.orders, e.orders, e.orders);
    if todo != [] {
      QuietRefreshTurn(c, e, todo[0], errors);
      var t := Tend(c, RefreshTask, e, todo[0], errors);
      if t.outcome.Returned? {
        QuietRefreshLeavesDays(c, t.env, todo[1..], t.errors);
        var f := ForEach(c, RefreshTask, t.env, todo[1..], t.errors);
        DaysStay(e.orders, t.env.orders, f.env.orders);
        StillDaysLeft(t.env.orders, f.env.orders, t.kept.value.stopOrderId, c.minDaysRemaining);
      }
    }
  }

  lemma DaysStay(a: seq<Order>, b: seq<Order>, c: seq<Order>)
    ensures KeepsDays(a, b) && KeepsDays(b, c) ==> KeepsDays(a, c)
    ensures KeepsDays(a, a)
  {
  }

  lemma StillDaysLeft(a: seq<Order>, b: seq<Order>, id: Option<OrderId>, minDays: int)
    requires KeepsDays(a, b)
    ensures DaysLeft(a, id, minDays) ==> DaysLeft(b, id, minDays)
  {
  }

  /** After an executing cycle has trailed its stops, with no fault left and no failure
      counted, every open position's stop has more than the asked-for days to go. */
  lemma TrailedStopsHaveDays(c: CycleInput, e: Env, book: seq<Pos>)
    requires c.execute && c.minDaysRemaining < 90 && BookOk(book)
    requires ForEach(c, RaiseTask, e, book, 0).env.script == []
    requires TrailStops(c, e, book).outcome.Returned? && TrailStops(c, e, book).errors == 0
    ensures var s := TrailStops(c, e, book);
      forall q :: q in s.book && q.status.Open? ==> DaysLeft(s.env.orders, q.stopOrderId, c.minDaysRemaining)
  {
    hide ForEach, DaysLeft, KeepsDays;
    ForEachKeeps(c, RaiseTask, e, book, 0);
    var raised := ForEach(c, RaiseTask, e, book, 0);
    QuietRefreshLeavesDays(c, raised.env, raised.book, raised.errors);
  }

  // ----- exits -----

  predicate WantsOut(c: CycleInput, p: Pos) {
    var bars := c.barsForExits(p.symbol);
    p.status.Open? && c.execute && bars.FreshBars? && bars.exitSignal
  }

  lemma ExitTurn(c: CycleInput, e: Env, p: Pos, errors: nat)
    ensures var t := Tend(c, ExitTask, e, p, errors);
      && (t.outcome.Returned? ==> t.kept == if WantsOut(c, p) then None else Some(p))
      && (t.outcome.Returned? && WantsOut(c, p) ==> t.env == Exec(e, ClosePosition(p.symbol)).env && Exec(e, ClosePosition(p.symbol)).result.Ok?)
      && (!WantsOut(c, p) ==> t.env == e)
  {
    hide Exec;
  }

  /** A phase that reaches the end of the book has dropped exactly the open positions
      whose strategy signalled an exit, and left every other as it was. */
  lemma {:induction false} ExitPhaseClosesExactly(c: CycleInput, e: Env, todo: seq<Pos>, errors: nat)
    requires ForEach(c, ExitTask, e, todo, errors).outcome.Returned?
    ensures forall p :: p in ForEach(c, ExitTask, e, todo, errors).book <==> p in todo && !WantsOut(c, p)
    decreases |todo|
  {
    hide Tend, WantsOut;
    if todo != [] {
      ExitTurn(c, e, todo[0], errors);
      var t := Tend(c, ExitTask, e, todo[0], errors);
      ExitPhaseClosesExactly(c, t.env, todo[1..], t.errors);
      assert todo == [todo[0]] + todo[1..];
    }
  }

  /** And with no fault in the way, nothing is held any more of what was dropped. */
  lemma {:induction false} QuietExitsLeaveNothing(c: CycleInput, e: Env, todo: seq<Pos>, errors: nat, symbol: Symbol)
    requires e.script == []
    ensures var f := ForEach(c, ExitTask, e, todo, errors).env;
      && f.script == [] && (NoneHeld(e.positions, symbol) ==> NoneHeld(f.positions, symbol))
      && (ForEach(c, ExitTask, e, todo, errors).outcome.Returned? ==>
            forall i :: 0 <= i < |todo| && todo[i].symbol == symbol && WantsOut(c, todo[i]) ==> NoneHeld(f.positions, symbol))
    decreases |todo|
  {
    hide Close, NoneHeld;
    if todo != [] {
      QuietClose(e, todo[0], symbol);
      var t := Tend(c, ExitTask, e, todo[0], errors);
      QuietExitsLeaveNothing(c, t.env, todo[1..], t.errors, symbol);
      assert forall i :: 1 <= i < |todo| ==> todo[i] == todo[1..][i - 1];
    }
  }

  // ----- entries -----

  /** A position opened for just what the candidate was approved for. */
  predicate OpenedFor(c: CycleInput, candidate: (Symbol, Verdict), p: Pos) {
    FromCandidate(c, candidate, OwnTicket(p))
  }

  predicate Considerable(c: CycleInput, book: seq<Pos>, candidate: (Symbol, Verdict)) {
    c.execute && candidate.1.Approved? && candidate.1.qty > 0.0 && !Tracked(book, candidate.0)
  }

  lemma ConsideredIsBooked(c: CycleInput, s: EntryPhase, symbol: Symbol, v: Verdict)
    requires Considerable(c, s.book, (symbol, v)) && ConsiderOne(c, s, symbol, v).errors == s.errors
    ensures exists p :: p in ConsiderOne(c, s, symbol, v).book && OpenedFor(c, (symbol, v), p)
  {
    hide Settle, OpenPosition, Grounded, Tracked;
    var plan := PlanFor(c, symbol, v);
    OpenSendsThePlan(s.env, plan);
    var o := OpenPosition(s.env, plan);
    SettleKeeps(o.env, o.pos.value, t => true);
    var d := Settle(o.env, o.pos.value);
    PutIn(s.book, d.pos);
    assert d.pos in ConsiderOne(c, s, symbol, v).book && OpenedFor(c, (symbol, v), d.pos);
  }

  /** Considering one symbol touches no other position. */
  lemma ConsiderMinds(c: CycleInput, s: EntryPhase, symbol: Symbol, v: Verdict, p: Pos)
    requires p.symbol != symbol && p in s.book
    ensures p in ConsiderOne(c, s, symbol, v).book
  {
    hide Settle, OpenPosition, Put, Grounded;
    if v.Approved? {
      var plan := PlanFor(c, symbol, v);
      var o := OpenPosition(s.env, plan);
      OpenSendsThePlan(s.env, plan);
      if o.pos.Some? {
        SettleKeeps(o.env, o.pos.value, t => true);
        PutKeepsOthers(s.book, Settle(o.env, o.pos.value).pos);
      }
    }
  }

  lemma {:induction false} EntriesMind(c: CycleInput, s: EntryPhase, candidates: seq<(Symbol, Verdict)>, p: Pos)
    requires p in s.book && forall i :: 0 <= i < |candidates| ==> candidates[i].0 != p.symbol
    ensures p in ConsiderEntries(c, s, candidates).book
    decreases |candidates|
  {
    if candidates != [] && !s.outcome.Raised? {
      hide ConsiderOne, Tracked;
      var (symbol, v) := candidates[0];
      ConsiderMinds(c, s, symbol, v, p);
      EntriesMind(c, if Tracked(s.book, symbol) then s else ConsiderOne(c, s, symbol, v), candidates[1..], p);
    }
  }

  predicate OncePerSymbol(candidates: seq<(Symbol, Verdict)>) {
    forall i, j :: 0 <= i < j < |candidates| ==> candidates[i].0 != candidates[j].0
  }

  /** An executing entry phase in which nothing fails books every approved candidate it
      did not track yet: its symbol, side, quantity and strategy. */
  lemma {:induction false} CleanPhaseBooksAll(c: CycleInput, s: EntryPhase, candidates: seq<(Symbol, Verdict)>, k: nat)
    requires OncePerSymbol(candidates) && k < |candidates| && Considerable(c, s.book, candidates[k])
    requires s.outcome.Returned? && ConsiderEntries(c, s, candidates).errors == s.errors
    ensures exists p :: p in ConsiderEntries(c, s, candidates).book && OpenedFor(c, candidates[k], p)
    decreases |candidates|
  {
    hide ConsiderOne, Tracked, OpenedFor;
    var (symbol, v) := candidates[0];
    var next := if Tracked(s.book, symbol) then s else ConsiderOne(c, s, symbol, v);
    ErrorsOnlyGrow(c, s, symbol, v);
    ErrorsStillGrow(c, next, candidates[1..]);
    assert forall i :: 0 <= i < |candidates[1..]| ==> candidates[1..][i] == candidates[i + 1];
    if k == 0 {
      ConsideredIsBooked(c, s, symbol, v);
      var p :| p in next.book && OpenedFor(c, (symbol, v), p);
      OpenedSymbol(c, (symbol, v), p);
      EntriesMind(c, next, candidates[1..], p);
    } else {
      StaysUntracked(c, s, symbol, v, candidates[k].0);
      CleanPhaseBooksAll(c, next, candidates[1..], k - 1);
    }
  }

  lemma OpenedSymbol(c: CycleInput, candidate: (Symbol, Verdict), p: Pos)
    requires OpenedFor(c, candidate, p)
    ensures p.symbol == candidate.0
  {
  }

  lemma ErrorsOnlyGrow(c: CycleInput, s: EntryPhase, symbol: Symbol, v: Verdict)
    ensures var f := ConsiderOne(c, s, symbol, v); f.errors >= s.errors && (f.errors == s.errors ==> f.outcome == s.outcome)
  {
    hide OpenEntry;
  }

  lemma {:induction false} ErrorsStillGrow(c: CycleInput, s: EntryPhase, candidates: seq<(Symbol, Verdict)>)
    ensures ConsiderEntries(c, s, candidates).errors >= s.errors
    decreases |candidates|
  {
    if candidates != [] && !s.outcome.Raised? {
      hide ConsiderOne, Tracked;
      var (symbol, v) := candidates[0];
      ErrorsOnlyGrow(c, s, symbol, v);
      ErrorsStillGrow(c, if Tracked(s.book, symbol) then s else ConsiderOne(c, s, symbol, v), candidates[1..]);
    }
  }

  lemma StaysUntracked(c: CycleInput, s: EntryPhase, symbol: Symbol, v: Verdict, other: Symbol)
    requires other != symbol && !Tracked(s.book, other)
    ensures !Tracked(ConsiderOne(c, s, symbol, v).book, other)
  {
    hide Tracked, OpenEntry;
    if v.Approved? {
      OpenTracksOnlyItsSymbol(s.env, s.book, PlanFor(c, symbol, v), other);
    }
  }

  // ----- failures -----

  predicate MovesStop(task: Task) { task.RaiseTask? || task.RefreshTask? }

  predicate FeedAnswers(c: CycleInput, book: seq<Pos>) {
    forall i :: 0 <= i < |book| ==> !c.barsForStops(book[i].symbol).FeedFails?
  }

  /** While the data feed answers, one position's failure never stops the others: raising
      or refreshing the stops of a book is cut short if and only if it has counted a
      failure and the count has reached its cap. */
  lemma {:induction false} PhaseIsCutShortIff(c: CycleInput, task: Task, e: Env, todo: seq<Pos>, errors: nat)
    requires MovesStop(task) && FeedAnswers(c, todo) && errors < c.maxErrors
    ensures var f := ForEach(c, task, e, todo, errors);
      && errors <= f.errors <= errors + |todo|
      && (f.outcome.Raised? <==> f.errors >= c.maxErrors)
    decreases |todo|
  {
    hide RaiseStop, RefreshStaleStop;
    if todo != [] {
      var t := Tend(c, task, e, todo[0], errors);
      if t.outcome.Returned? {
        assert forall i :: 0 <= i < |todo[1..]| ==> todo[1..][i] == todo[i + 1];
        PhaseIsCutShortIff(c, task, t.env, todo[1..], t.errors);
      }
    }
  }
}
