/** A cycle that does not execute: it reads the broker and follows the prices, and that
    is all. */
module ShadowCycles {
  import opened Common
  import opened Ratchets
  import opened Brokers
  import opened OrderHistory
  import opened OrderManagers
  import opened Reconcilers
  import opened Cycles
  import opened Flattening
  import CB = CircuitBreakers

  /** Only the market has moved: no order of the bot's is new or has new terms, and
      nothing is held or dropped unless somebody else traded. */
  ghost predicate OnlyWatched(a: Env, b: Env) {
    && Evolved(a.orders, b.orders)
    && (Still(a.script) ==> Still(b.script) && b.positions == a.positions)
  }

  lemma WatchChain(a: Env, b: Env, c: Env)
    requires OnlyWatched(a, b) && OnlyWatched(b, c)
    ensures OnlyWatched(a, c)
  {
    hide Still;
  }

  lemma WatchNothing(e: Env)
    ensures OnlyWatched(e, e)
  {
  }

  predicate Reads(call: Call) {
    call.GetAccount? || call.IsMarketOpen? || call.ListPositions? || call.ListOpenOrders? || call.GetOrder?
  }

  lemma ExecWatches(e: Env, call: Call)
    requires Reads(call)
    ensures OnlyWatched(e, Exec(e, call).env)
  {
    hide Arrive, Still, WorkingIds;
    ArriveEvolves(e, call);
    if Still(e.script) {
      ExecHolds(e, call);
    }
  }

  lemma {:induction false} RetryWatches(e: Env, call: Call, attempts: nat)
    requires attempts >= 1 && Reads(call)
    ensures OnlyWatched(e, Retry(e, call, attempts).env)
    decreases attempts
  {
    hide Exec, OnlyWatched;
    ExecWatches(e, call);
    if Retry(e, call, attempts) != Exec(e, call) {
      RetryWatches(Exec(e, call).env, call, attempts - 1);
      WatchChain(e, Exec(e, call).env, Retry(e, call, attempts).env);
    }
  }

  /** The phases a shadow cycle goes through. */
  predicate InShadow(task: Task) { task.SyncTask? || task.RaiseTask? || task.ExitTask? }

  lemma TendWatches(c: CycleInput, task: Task, e: Env, p: Pos, errors: nat)
    requires !c.execute && InShadow(task)
    ensures OnlyWatched(e, Tend(c, task, e, p, errors).env)
  {
    hide Exec, Updated, OnlyWatched;
    WatchNothing(e);
    if task.SyncTask? && p.stopOrderId.Some? {
      ExecWatches(e, GetOrder(p.stopOrderId.value));
    }
  }

  lemma {:induction false} PhaseWatches(c: CycleInput, task: Task, e: Env, todo: seq<Pos>, errors: nat)
    requires !c.execute && InShadow(task)
    ensures OnlyWatched(e, ForEach(c, task, e, todo, errors).env)
    decreases |todo|
  {
    hide Tend, OnlyWatched;
    WatchNothing(e);
    if todo != [] {
      TendWatches(c, task, e, todo[0], errors);
      var t := Tend(c, task, e, todo[0], errors);
      PhaseWatches(c, task, t.env, todo[1..], t.errors);
      WatchChain(e, t.env, ForEach(c, task, t.env, todo[1..], t.errors).env);
    }
  }

  lemma {:induction false} EntriesWatch(c: CycleInput, s: EntryPhase, candidates: seq<(Symbol, Verdict)>)
    requires !c.execute
    ensures ConsiderEntries(c, s, candidates).env == s.env
    decreases |candidates|
  {
    if candidates != [] && !s.outcome.Raised? {
      hide OpenEntry, Tracked;
      var (symbol, v) := candidates[0];
      EntriesWatch(c, if Tracked(s.book, symbol) then s else ConsiderOne(c, s, symbol, v), candidates[1..]);
    }
  }

  lemma CheckpointWatches(c: CycleInput, e: Env, book: seq<Pos>)
    requires !c.execute
    ensures OnlyWatched(e, UpToReconcile(c, e, book).env)
  {
    hide Retry, OnlyWatched;
    RetryWatches(e, GetAccount, ATTEMPTS);
    var a := Retry(e, GetAccount, ATTEMPTS);
    RetryWatches(a.env, ListPositions, ATTEMPTS);
    var p := Retry(a.env, ListPositions, ATTEMPTS);
    RetryWatches(p.env, ListOpenOrders, ATTEMPTS);
    WatchChain(e, a.env, p.env);
    WatchChain(e, p.env, Retry(p.env, ListOpenOrders, ATTEMPTS).env);
  }

  lemma AfterReconcileWatches(c: CycleInput, e: Env, saved: seq<Pos>, book: seq<Pos>, account: Account)
    requires !c.execute
    ensures OnlyWatched(e, AfterReconcile(c, e, saved, book, account).env)
  {
    hide Retry, ForEach, ConsiderEntries, OnlyWatched, CB.LossTripped;
    WatchNothing(e);
    RetryWatches(e, IsMarketOpen, ATTEMPTS);
    var m := Retry(e, IsMarketOpen, ATTEMPTS);
    PhaseWatches(c, RaiseTask, m.env, book, 0);
    var raised := ForEach(c, RaiseTask, m.env, book, 0);
    WatchChain(e, m.env, raised.env);
    PhaseWatches(c, ExitTask, raised.env, raised.book, raised.errors);
    var exits := ForEach(c, ExitTask, raised.env, raised.book, raised.errors);
    WatchChain(e, raised.env, exits.env);
    EntriesWatch(c, EntryPhase(exits.env, exits.book, exits.errors, 0, 0, Returned(true)), c.candidates);
  }

  /** Whatever a shadow cycle meets, a tripped loss limit and approved candidates
      included, it leaves the broker to the market. */
  lemma ShadowCycleOnlyWatches(c: CycleInput, d: Desk)
    requires !c.execute
    ensures OnlyWatched(d.env, RunCycle(c, d).env)
  {
    hide UpToReconcile, ForEach, AfterReconcile, Reconcile, OnlyWatched;
    WatchNothing(d.env);
    CheckpointWatches(c, d.env, d.book);
    var k := UpToReconcile(c, d.env, d.book);
    if k.Read? {
      var sync := SyncTask(Reconcile(k.book, k.snap).autoClosed);
      PhaseWatches(c, sync, k.env, k.book, 0);
      var synced := ForEach(c, sync, k.env, k.book, 0);
      WatchChain(d.env, k.env, synced.env);
      AfterReconcileWatches(c, synced.env, d.book, synced.book, k.account);
      WatchChain(d.env, synced.env, AfterReconcile(c, synced.env, d.book, synced.book, k.account).env);
    }
    MarksApart(d.env, d.env, RunCycle(c, d).env);
    MarksApart(d.env, Body(c, d.env, d.book).env, RunCycle(c, d).env);
  }

  /** A halt leaves its mark in the journal alone. */
  lemma MarksApart(a: Env, b: Env, c: Env)
    requires OnlyWatched(a, b)
    ensures c == b.(journal := c.journal) ==> OnlyWatched(a, c)
  {
  }
}
