/** Why a cycle halts: the kill switch in the broker's own dollars, with what it leaves
    behind, and what a crash is taken for. */
module CycleHalts {
  import opened Common
  import opened Brokers
  import opened OrderManagers
  import opened Reconcilers
  import opened Cycles
  import opened CycleSafety
  import opened EarlyReturns
  import CB = CircuitBreakers

  /** Down to the limit or below, from a positive equity at the last close. */
  predicate DownToLimit(account: Account, limitPct: real) {
    account.lastEquity > 0.0 && account.equity <= account.lastEquity * (1.0 - limitPct / 100.0)
  }

  lemma {:induction false} RetryReadsAccount(e: Env, attempts: nat)
    requires attempts >= 1 && Retry(e, GetAccount, attempts).result.Ok?
    ensures Retry(e, GetAccount, attempts).result.reply.account == Retry(e, GetAccount, attempts).env.account
    decreases attempts
  {
    hide Arrive;
    if Exec(e, GetAccount).result.Err? {
      RetryReadsAccount(Exec(e, GetAccount).env, attempts - 1);
    }
  }

  /** The account a cycle judges by is the one the broker showed at its first call. */
  lemma CheckpointAccount(c: CycleInput, e: Env, book: seq<Pos>)
    requires UpToReconcile(c, e, book).Read?
    ensures UpToReconcile(c, e, book).account == Retry(e, GetAccount, ATTEMPTS).env.account
  {
    hide Retry, SettleAndRecheck, ReadSnapshot;
    RetryReadsAccount(e, ATTEMPTS);
  }

  /** A cycle that runs writes the kill-switch halt if and only if it read a broker in
      agreement and the account is down to the limit. It then sends no entry and leaves
      the saved book as it was. */
  lemma KillSwitchIff(c: CycleInput, d: Desk)
    requires Runs(c, d)
    ensures RunCycle(c, d).halt == Stored(HaltRecord("kill switch", KillSwitch, Some(c.now)))
       <==> PassesReconcile(c, d) && DownToLimit(Retry(d.env, GetAccount, ATTEMPTS).env.account, c.maxDailyLossPct)
    ensures BookOk(d.book) && RunCycle(c, d).halt == Stored(HaltRecord("kill switch", KillSwitch, Some(c.now)))
        ==> RunCycle(c, d).book == d.book && Entries(RunCycle(c, d).env.journal) == Entries(d.env.journal)
  {
    hide UpToReconcile, ForEach, Reconcile, TrailStops, Retry, FlattenAll, WhileOpen, CB.LossTripped, Entries, BookOk;
    var k := UpToReconcile(c, d.env, d.book);
    if k.Read? {
      CheckpointAccount(c, d.env, d.book);
      CB.LossInDollars(c.maxDailyLossPct, k.account.lastEquity, k.account.equity);
      var report := Reconcile(k.book, k.snap);
      var synced := ForEach(c, SyncTask(report.autoClosed), k.env, k.book, 0);
      var m := Retry(synced.env, IsMarketOpen, ATTEMPTS);
      var s := TrailStops(c, m.env, synced.book);
      WhileOpenEnds(c, s.env, d.book, s.book, s.errors);
      if BookOk(d.book) {
        CheckpointKeeps(c, d.env, d.book);
        ForEachKeeps(c, SyncTask(report.autoClosed), k.env, k.book, 0);
        FlattenJournal(c, synced.env, synced.book);
        EntriesSnoc(d.env.journal, HaltSet(HaltRecord("kill switch", KillSwitch, Some(c.now))));
      }
    }
  }

  // ----- what it leaves behind -----

  /** The auto-close sync marks exactly what is gone, whatever its look at the broker
      comes to, and with no fault left it only looks. */
  lemma {:induction false} SyncMarks(c: CycleInput, closed: seq<Symbol>, e: Env, todo: seq<Pos>)
    ensures var f := ForEach(c, SyncTask(closed), e, todo, 0);
      && f.outcome.Returned? && f.book == Synced(todo, closed) && (e.script == [] ==> f.env == e)
    decreases |todo|
  {
    if todo != [] {
      hide Exec;
      if todo[0].stopOrderId.Some? && e.script == [] { QuietLook(e, todo[0].stopOrderId.value); }
      SyncMarks(c, closed, Tend(c, SyncTask(closed), e, todo[0], 0).env, todo[1..]);
      assert Synced(todo, closed) == [Synced(todo, closed)[0]] + Synced(todo[1..], closed);
    }
  }

  lemma QuietLook(e: Env, id: OrderId)
    requires e.script == []
    ensures Exec(e, GetOrder(id)).env == e
  {
    assert e.(script := []) == e;
  }

  /** Open in the book, and held as the broker shows it. */
  predicate ShownOpen(p: Pos, snap: Snapshot) {
    (p.status.Open? || p.status.PendingExit?) && HeldAt(snap.positions, p.symbol).Some?
  }

  /** A kill switch that fires in an executing cycle, with no fault from the reconcile
      on: whatever open position the broker had shown is no longer held, and no order
      works anywhere. */
  lemma QuietKillSwitchFlattens(c: CycleInput, d: Desk)
    requires Runs(c, d) && c.execute && BookOk(d.book) && PassesReconcile(c, d)
    requires DownToLimit(Retry(d.env, GetAccount, ATTEMPTS).env.account, c.maxDailyLossPct)
    requires UpToReconcile(c, d.env, d.book).env.script == []
    ensures var k, after := UpToReconcile(c, d.env, d.book), RunCycle(c, d).env;
      && (forall i :: 0 <= i < |k.book| && ShownOpen(k.book[i], k.snap) ==> NoneHeld(after.positions, k.book[i].symbol))
      && forall i: OrderId :: i < |after.orders| ==> !IsWorking(after.orders[i].status)
  {
    hide UpToReconcile, ForEach, Retry, FlattenAll, CB.LossTripped, NoneHeld, HeldAt, Reconcile, Synced;
    var k := UpToReconcile(c, d.env, d.book);
    CheckpointAccount(c, d.env, d.book);
    CheckpointKeeps(c, d.env, d.book);
    CB.LossInDollars(c.maxDailyLossPct, k.account.lastEquity, k.account.equity);
    var closed := Reconcile(k.book, k.snap).autoClosed;
    SyncMarks(c, closed, k.env, k.book);
    QuietFlattenLeavesNothing(c, k.env, Synced(k.book, closed));
    forall i | 0 <= i < |k.book| && ShownOpen(k.book[i], k.snap)
      ensures Synced(k.book, closed)[i] == k.book[i]
    {
      HeldStaysOpen(k.book, k.snap, i);
    }
  }

  lemma HeldStaysOpen(book: seq<Pos>, snap: Snapshot, i: nat)
    requires DistinctSymbols(book) && i < |book| && HeldAt(snap.positions, book[i].symbol).Some?
    ensures Synced(book, Reconcile(book, snap).autoClosed)[i] == book[i]
  {
    hide HeldAt;
  }

  // ----- what a crash is taken for -----

  /** A cycle that cannot finish its reads or fills halts as a lost connection if the
      failure was transient and as an exception otherwise, and saves the book it had. */
  lemma CrashIsClassed(c: CycleInput, d: Desk)
    requires Runs(c, d) && UpToReconcile(c, d.env, d.book).Crashed?
    ensures var k, after := UpToReconcile(c, d.env, d.book), RunCycle(c, d);
      && after.halt == Stored(HaltRecord("cycle exception", if k.transient then Disconnect else Exception, Some(c.now)))
      && after.book == k.book
  {
    hide UpToReconcile;
  }

  /** The first call shows the difference: lost for good it is an exception at once, lost
      three times over it is a disconnect, which the healer may lift. */
  lemma FirstCallDecides(c: CycleInput, d: Desk)
    requires Runs(c, d) && |d.env.script| >= 3
    requires d.env.script[0].fate.LostBefore? && d.env.script[0].events == []
    requires d.env.script[1] == d.env.script[0] == d.env.script[2]
    ensures RunCycle(c, d).book == d.book
    ensures RunCycle(c, d).halt
         == Stored(HaltRecord("cycle exception", if d.env.script[0].fate.transient then Disconnect else Exception, Some(c.now)))
  {
    hide RunCycle, Happen;
    var e := d.env;
    var one := Exec(e, GetAccount);
    var two := Exec(one.env, GetAccount);
    assert one.env.script == e.script[1..] && two.env.script == e.script[2..];
    assert Retry(e, GetAccount, 3) == if e.script[0].fate.transient then Exec(two.env, GetAccount) else one;
    CrashIsClassed(c, d);
  }

  /** Whatever a cycle halts for, the record it writes names a reason, so it stops every
      order and every cycle after it. */
  lemma CycleHaltsBind(c: CycleInput, d: Desk)
    requires RunCycle(c, d).halt != d.halt
    ensures IsHalted(RunCycle(c, d).halt) && RunCycle(c, d).halt.record.ts == Some(c.now)
  {
    hide Body;
  }
}
