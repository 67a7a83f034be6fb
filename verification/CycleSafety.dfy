/** What every cycle keeps, against every script of faults and market events. */
module CycleSafety {
  import opened Common
  import opened Ratchets
  import opened Brokers
  import opened OrderManagers
  import opened Reconcilers
  import opened Cycles

  // ----- the book -----

  predicate HasSymbol(book: seq<Pos>, symbol: Symbol) {
    exists i :: 0 <= i < |book| && book[i].symbol == symbol
  }

  /** One position per symbol, and none OPEN without a stop id. */
  predicate BookOk(book: seq<Pos>) {
    && DistinctSymbols(book)
    && forall i :: 0 <= i < |book| ==> Protected(book[i])
  }

  /** `after` holds and tracks nothing that `before` did not. */
  ghost predicate NoneAdded(before: seq<Pos>, after: seq<Pos>) {
    && (forall s :: HasSymbol(after, s) ==> HasSymbol(before, s))
    && (forall s :: Tracked(after, s) ==> Tracked(before, s))
  }

  lemma TendKeeps(c: CycleInput, task: Task, e: Env, p: Pos, errors: nat)
    requires Protected(p)
    ensures var t := Tend(c, task, e, p, errors);
      && t.env.journal == e.journal
      && (t.kept.Some? ==> t.kept.value.symbol == p.symbol && Protected(t.kept.value) && (Live(t.kept.value) ==> Live(p)))
  {
    hide Settle, RecheckPartialFill, RaiseStop, RefreshStaleStop, Close, Exec;
    match task
    case SettleTask => SettleJournal(e, p); SettleProtects(e, p);
    case RecheckTask => SettleJournal(e, p); StopOpsProtect(e, p, 0.0, None, 0);
    case SyncTask(closed) =>
      if p.stopOrderId.Some? { ExecJournal(e, GetOrder(p.stopOrderId.value)); }
    case RaiseTask =>
      if c.barsForStops(p.symbol).FreshBars? {
        RaiseStopJournal(e, p, c.barsForStops(p.symbol).price, c.barsForStops(p.symbol).atr);
        StopOpsProtect(e, p, c.barsForStops(p.symbol).price, c.barsForStops(p.symbol).atr, 0);
      }
    case RefreshTask => RefreshJournal(e, p, c.minDaysRemaining); StopOpsProtect(e, p, 0.0, None, c.minDaysRemaining);
    case _ => CloseJournal(e, p); StopOpsProtect(e, p, 0.0, None, 0);
  }

  lemma {:induction false} ForEachKeeps(c: CycleInput, task: Task, e: Env, todo: seq<Pos>, errors: nat)
    requires BookOk(todo)
    ensures var f := ForEach(c, task, e, todo, errors);
      f.env.journal == e.journal && BookOk(f.book) && NoneAdded(todo, f.book)
    decreases |todo|
  {
    if todo != [] {
      TendKeeps(c, task, e, todo[0], errors);
      var t := Tend(c, task, e, todo[0], errors);
      var tail := if t.outcome.Raised? then todo[1..] else ForEach(c, task, t.env, todo[1..], t.errors).book;
      if !t.outcome.Raised? {
        ForEachKeeps(c, task, t.env, todo[1..], t.errors);
      }
      ConsKeeps(todo, Kept(t), tail);
    }
  }

  lemma ConsKeeps(todo: seq<Pos>, kept: seq<Pos>, tail: seq<Pos>)
    requires BookOk(todo) && todo != [] && BookOk(tail) && NoneAdded(todo[1..], tail)
    requires |kept| <= 1
    requires |kept| == 1 ==> kept[0].symbol == todo[0].symbol && Protected(kept[0]) && (Live(kept[0]) ==> Live(todo[0]))
    ensures BookOk(kept + tail) && NoneAdded(todo, kept + tail)
  {
    var book := kept + tail;
    forall s | HasSymbol(tail, s) ensures HasSymbol(todo, s) && s != todo[0].symbol {
      assert HasSymbol(todo[1..], s);
    }
    forall i | 0 <= i < |tail| ensures tail[i].symbol != todo[0].symbol {
      assert HasSymbol(tail, tail[i].symbol);
    }
    forall s | Tracked(book, s) ensures Tracked(todo, s) {
      var i :| 0 <= i < |book| && book[i].symbol == s && Live(book[i]);
      if i >= |kept| {
        assert tail[i - |kept|] == book[i];
        assert Tracked(tail, s);
        assert Tracked(todo[1..], s);
        var j :| 0 <= j < |todo[1..]| && todo[1..][j].symbol == s && Live(todo[1..][j]);
        assert todo[j + 1] == todo[1..][j];
      }
    }
    forall s | HasSymbol(book, s) ensures HasSymbol(todo, s) {
      var i :| 0 <= i < |book| && book[i].symbol == s;
      if i >= |kept| {
        assert tail[i - |kept|] == book[i];
        assert HasSymbol(tail, s);
      }
    }
  }

  lemma NoneAddedChain(a: seq<Pos>, b: seq<Pos>, c: seq<Pos>)
    requires NoneAdded(a, b) && NoneAdded(b, c)
    ensures NoneAdded(a, c)
  {
  }

  lemma PutKeeps(book: seq<Pos>, p: Pos)
    requires BookOk(book) && Protected(p)
    ensures BookOk(Put(book, p))
  {
  }

  // ----- reaching the reconciler -----

  lemma CheckpointKeeps(c: CycleInput, e: Env, book: seq<Pos>)
    requires BookOk(book)
    ensures var k := UpToReconcile(c, e, book);
      k.env.journal == e.journal && BookOk(k.book) && NoneAdded(book, k.book)
  {
    RetryJournal(e, GetAccount, ATTEMPTS);
    var a := Retry(e, GetAccount, ATTEMPTS);
    if a.result.Ok? {
      ForEachKeeps(c, SettleTask, a.env, book, 0);
      var s := ForEach(c, SettleTask, a.env, book, 0);
      ForEachKeeps(c, RecheckTask, s.env, s.book, 0);
      NoneAddedChain(book, s.book, ForEach(c, RecheckTask, s.env, s.book, 0).book);
      ReadJournal(SettleAndRecheck(c, a.env, book).env);
    }
  }

  // ----- entries -----

  function Entries(journal: seq<Mark>): nat {
    if journal == [] then 0
    else Entries(journal[..|journal| - 1]) + if journal[|journal| - 1].EntrySubmitted? then 1 else 0
  }

  /** `after` is `before` followed by entry marks only. */
  ghost predicate OnlyEntriesAdded(before: seq<Mark>, after: seq<Mark>) {
    && |before| <= |after| && after[..|before|] == before
    && forall i :: |before| <= i < |after| ==> after[i].EntrySubmitted?
  }

  lemma OpenEntryKeeps(e: Env, book: seq<Pos>, plan: EntryPlan)
    requires BookOk(book)
    ensures var o := OpenEntry(e, book, plan);
      && OnlyEntriesAdded(e.journal, o.env.journal) && BookOk(o.book)
      && (o.outcome.Raised? ==> o.book == book)
  {
    OpenJournal(e, plan);
    var o := OpenPosition(e, plan);
    if o.pos.Some? {
      SettleJournal(o.env, o.pos.value);
      SettleProtects(o.env, o.pos.value);
      PutKeeps(book, Settle(o.env, o.pos.value).pos);
    }
  }

  lemma OnlyEntriesChain(a: seq<Mark>, b: seq<Mark>, c: seq<Mark>)
    requires OnlyEntriesAdded(a, b) && OnlyEntriesAdded(b, c)
    ensures OnlyEntriesAdded(a, c)
  {
    assert c[..|a|] == c[..|b|][..|a|];
    forall i | |a| <= i < |c| ensures c[i].EntrySubmitted? {
      assert i < |b| ==> c[i] == c[..|b|][i] == b[i];
    }
  }

  lemma ConsiderOneKeeps(c: CycleInput, s: EntryPhase, symbol: Symbol, v: Verdict)
    requires BookOk(s.book)
    ensures var f := ConsiderOne(c, s, symbol, v);
      && OnlyEntriesAdded(s.env.journal, f.env.journal) && BookOk(f.book)
      && (!c.execute ==> f.env.journal == s.env.journal)
  {
    if v.Approved? {
      OpenEntryKeeps(s.env, s.book, PlanFor(c, symbol, v));
    }
  }

  lemma {:induction false} ConsiderEntriesKeeps(c: CycleInput, s: EntryPhase, candidates: seq<(Symbol, Verdict)>)
    requires BookOk(s.book)
    ensures var f := ConsiderEntries(c, s, candidates);
      && OnlyEntriesAdded(s.env.journal, f.env.journal) && BookOk(f.book)
      && (!c.execute ==> f.env.journal == s.env.journal)
    decreases |candidates|
  {
    if candidates != [] && !s.outcome.Raised? {
      var (symbol, v) := candidates[0];
      ConsiderOneKeeps(c, s, symbol, v);
      var next := if Tracked(s.book, symbol) then s else ConsiderOne(c, s, symbol, v);
      ConsiderEntriesKeeps(c, next, candidates[1..]);
      OnlyEntriesChain(s.env.journal, next.env.journal, ConsiderEntries(c, next, candidates[1..]).env.journal);
    }
  }

  // ----- the whole body -----

  lemma {:induction false} CancelAllJournal(e: Env, ids: seq<OrderId>)
    ensures CancelAll(e, ids).journal == e.journal
    decreases |ids|
  {
    if ids != [] {
      RetryJournal(e, CancelOrder(ids[0]), ATTEMPTS);
      CancelAllJournal(Retry(e, CancelOrder(ids[0]), ATTEMPTS).env, ids[1..]);
    }
  }

  lemma FlattenJournal(c: CycleInput, e: Env, book: seq<Pos>)
    requires BookOk(book)
    ensures FlattenAll(c, e, book).journal == e.journal
  {
    ForEachKeeps(c, FlattenTask, e, book, 0);
    var f := ForEach(c, FlattenTask, e, book, 0);
    RetryJournal(f.env, ListOpenOrders, ATTEMPTS);
    var o := Retry(f.env, ListOpenOrders, ATTEMPTS);
    if o.result.Ok? {
      CancelAllJournal(o.env, o.result.reply.ids);
    }
  }

  lemma AfterReconcileKeeps(c: CycleInput, e: Env, saved: seq<Pos>, book: seq<Pos>, account: Account)
    requires BookOk(saved) && BookOk(book)
    ensures var end := AfterReconcile(c, e, saved, book, account);
      && OnlyEntriesAdded(e.journal, end.env.journal) && BookOk(end.book)
      && (!c.execute ==> end.env.journal == e.journal)
  {
    hide ForEach, WhileOpen, FlattenAll, Retry;
    FlattenJournal(c, e, book);
    RetryJournal(e, IsMarketOpen, ATTEMPTS);
    var m := Retry(e, IsMarketOpen, ATTEMPTS);
    ForEachKeeps(c, RaiseTask, m.env, book, 0);
    var raised := ForEach(c, RaiseTask, m.env, book, 0);
    ForEachKeeps(c, RefreshTask, raised.env, raised.book, raised.errors);
    var s := TrailStops(c, m.env, book);
    WhileOpenKeeps(c, s.env, saved, s.book, s.errors);
  }

  lemma WhileOpenKeeps(c: CycleInput, e: Env, saved: seq<Pos>, book: seq<Pos>, errors: nat)
    requires BookOk(saved) && BookOk(book)
    ensures var end := WhileOpen(c, e, saved, book, errors);
      && OnlyEntriesAdded(e.journal, end.env.journal) && BookOk(end.book)
      && (!c.execute ==> end.env.journal == e.journal)
  {
    ForEachKeeps(c, ExitTask, e, book, errors);
    var exits := ForEach(c, ExitTask, e, book, errors);
    ConsiderEntriesKeeps(c, EntryPhase(exits.env, exits.book, exits.errors, 0, 0, Returned(true)), c.candidates);
  }

  /** What the cycle would compare at its reconcile, if it gets that far. */
  function CheckpointOf(c: CycleInput, d: Desk): Option<Checkpoint> {
    if IsHalted(d.halt) || LiveBlocked(c) || c.lockBusy then None else Some(UpToReconcile(c, d.env, d.book))
  }

  predicate PassesReconcile(c: CycleInput, d: Desk) {
    var k := CheckpointOf(c, d);
    k.Some? && k.value.Read? && Reconcile(k.value.book, k.value.snap).ok
  }

  lemma BodyKeeps(c: CycleInput, d: Desk)
    requires BookOk(d.book)
    ensures var end := Body(c, d.env, d.book);
      && OnlyEntriesAdded(d.env.journal, end.env.journal) && BookOk(end.book)
      && (end.env.journal != d.env.journal && !IsHalted(d.halt) && !LiveBlocked(c) && !c.lockBusy ==>
            c.execute && PassesReconcile(c, d))
  {
    CheckpointKeeps(c, d.env, d.book);
    var k := UpToReconcile(c, d.env, d.book);
    if k.Read? {
      var report := Reconcile(k.book, k.snap);
      ForEachKeeps(c, SyncTask(report.autoClosed), k.env, k.book, 0);
      var synced := ForEach(c, SyncTask(report.autoClosed), k.env, k.book, 0);
      AfterReconcileKeeps(c, synced.env, d.book, synced.book, k.account);
    }
  }

  // ----- main results -----

  /** A cycle submits an entry only when it executes, was not halted, and read a
      broker in agreement with its book: every broker position tracked live,
      with a resting stop, and of the right size once OPEN. */
  lemma EntriesOnlyInAgreement(c: CycleInput, d: Desk)
    requires BookOk(d.book)
    requires Entries(RunCycle(c, d).env.journal) > Entries(d.env.journal)
    ensures c.execute && !IsHalted(d.halt)
    ensures var k := CheckpointOf(c, d);
      && k.Some? && k.value.Read? && InAgreement(k.value.book, k.value.snap)
      && forall v :: v in k.value.snap.positions ==>
           Tracked(k.value.book, v.symbol) && HasStop(k.value.snap.orders, v.symbol)
  {
    if !IsHalted(d.halt) && !LiveBlocked(c) && !c.lockBusy {
      BodyKeeps(c, d);
      var end := Body(c, d.env, d.book);
      if end.halt.Some? {
        EntriesSnoc(end.env.journal, HaltSet(HaltRecord(ReasonFor(end.halt.value), end.halt.value, Some(c.now))));
      }
      var k := UpToReconcile(c, d.env, d.book);
      ReconcileOkIff(k.book, k.snap);
      forall v | v in k.snap.positions ensures HasStop(k.snap.orders, v.symbol) {
        AgreementProtects(k.book, k.snap, v);
      }
    } else if LiveBlocked(c) && !IsHalted(d.halt) {
      EntriesSnoc(d.env.journal, HaltSet(HaltRecord(ReasonFor(Config), Config, Some(c.now))));
    }
  }

  lemma AgreementProtects(book: seq<Pos>, snap: Snapshot, v: PositionView)
    requires InAgreement(book, snap) && v in snap.positions
    ensures HasStop(snap.orders, v.symbol)
  {
    HeldAtIff(snap.positions, v.symbol);
    var i :| 0 <= i < |book| && book[i].symbol == v.symbol && Live(book[i]);
    assert Agrees(book[i], snap);
  }

  lemma EntriesSnoc(journal: seq<Mark>, m: Mark)
    ensures Entries(journal + [m]) == Entries(journal) + if m.EntrySubmitted? then 1 else 0
  {
    assert (journal + [m])[..|journal|] == journal;
  }

  /** The result above is about something: a quiet market, an empty book and one
      approved candidate do get an entry submitted. */
  lemma QuietCycleEnters(c: CycleInput, d: Desk, ladder: Ratchet)
    requires c.execute && !LiveBlocked(c) && !c.lockBusy && c.maxDailyLossPct > 0.0
    requires c.candidates == [("SPY", Approved(Long, 1.0, "manual", ladder, None))]
    requires d == Desk(Env([], [], Account(1000.0, 1000.0, 1000.0), true, [], []), [], Absent)
    ensures Entries(RunCycle(c, d).env.journal) == 1 && RunCycle(c, d).halt.Absent?
  {
    var e := d.env;
    QuietCall(e, GetAccount);
    QuietCall(e, ListPositions);
    QuietCall(e, ListOpenOrders);
    QuietCall(e, IsMarketOpen);
    assert UpToReconcile(c, e, []) == Read(e, [], Snapshot([], []), e.account);
    assert Reconcile([], Snapshot([], [])).ok;
    var s := EntryPhase(e, [], 0, 0, 0, Returned(true));
    QuietEntry(c, s, ladder);
    var t := ConsiderOne(c, s, "SPY", c.candidates[0].1);
    assert c.candidates[1..] == [];
    assert ConsiderEntries(c, s, c.candidates) == t;
    assert AfterReconcile(c, e, [], [], e.account) == WhileOpen(c, e, [], [], 0);
    assert Body(c, e, []) == End(t.env, t.book, None);
    EntriesSnoc([], EntrySubmitted("SPY"));
  }

  /** With no script left, a call simply takes effect, first time. */
  lemma QuietCall(e: Env, call: Call)
    requires e.script == [] && !call.SubmitMarketEntry? && Effect(e, call, true).result.Ok?
    ensures Retry(e, call, ATTEMPTS) == Effect(e, call, true) == Exec(e, call)
  {
    assert e.(script := []) == e;
  }

  lemma QuietEntry(c: CycleInput, s: EntryPhase, ladder: Ratchet)
    requires c.execute && s.outcome == Returned(true) && s.book == []
    requires s.env == Env([], [], s.env.account, true, [], [])
    ensures var t := ConsiderOne(c, s, "SPY", Approved(Long, 1.0, "manual", ladder, None));
      && t.env.journal == [EntrySubmitted("SPY")] && t.outcome == Returned(true)
      && t.checked == s.checked + 1 && t.stale == s.stale && t.errors == s.errors
  {
    var plan := PlanFor(c, "SPY", Approved(Long, 1.0, "manual", ladder, None));
    var call := SubmitMarketEntry("SPY", 1.0, Long, EntryCoid(plan));
    var here := Noted(s.env, call);
    assert Exec(s.env, call) == Effect(here, call, true);
    var o := OpenPosition(s.env, plan);
    QuietCall(o.env, GetOrder(0));
    assert Settle(o.env, o.pos.value).outcome == Returned(true);
    SettleJournal(o.env, o.pos.value);
  }

  /** A cycle that reads a broker position it does not track, or one without a
      resting stop, halts for it: no entry goes out, the reconcile halt is on
      disk, and the saved book is the one it started from. */
  lemma ExposedPositionHalts(c: CycleInput, d: Desk, v: PositionView)
    requires BookOk(d.book)
    requires var k := CheckpointOf(c, d);
      && k.Some? && k.value.Read? && v in k.value.snap.positions
      && (!Tracked(d.book, v.symbol) || !HasStop(k.value.snap.orders, v.symbol))
    ensures var after := RunCycle(c, d);
      && Entries(after.env.journal) == Entries(d.env.journal)
      && after.halt == Stored(HaltRecord(ReasonFor(ReconcileMismatch), ReconcileMismatch, Some(c.now)))
      && IsHalted(after.halt)
      && after.book == d.book
  {
    hide UpToReconcile, Reconcile, AfterReconcile, ForEach, Entries;
    var k := CheckpointOf(c, d).value;
    CheckpointKeeps(c, d.env, d.book);
    if InAgreement(k.book, k.snap) {
      AgreementProtects(k.book, k.snap, v);
    }
    ReconcileOkIff(k.book, k.snap);
    ForEachKeeps(c, SyncTask(Reconcile(k.book, k.snap).autoClosed), k.env, k.book, 0);
    EntriesSnoc(d.env.journal, HaltSet(HaltRecord(ReasonFor(ReconcileMismatch), ReconcileMismatch, Some(c.now))));
  }

  /** An entry whose opening or settling raises is not in the book, so what it
      bought is exactly the untracked position the next reconcile halts on. */
  lemma FailedOpenIsUntracked(e: Env, book: seq<Pos>, plan: EntryPlan)
    requires !Tracked(book, plan.symbol) && OpenEntry(e, book, plan).outcome.Raised?
    ensures OpenEntry(e, book, plan).book == book
    ensures plan.qty > 0.0 ==> Entries(OpenEntry(e, book, plan).env.journal) == Entries(e.journal) + 1
  {
    OpenJournal(e, plan);
    var o := OpenPosition(e, plan);
    if o.pos.Some? {
      SettleJournal(o.env, o.pos.value);
    }
    EntriesSnoc(e.journal, EntrySubmitted(plan.symbol));
  }

  /** The three halts that return before the book is saved: whatever the cycle
      settled, raised or closed, the next process starts from the old book. */
  lemma UnsavedHalts(c: CycleInput, d: Desk)
    requires !IsHalted(d.halt) && IsHalted(RunCycle(c, d).halt)
    ensures HaltInfo(RunCycle(c, d).halt).value.cls in {ReconcileMismatch, KillSwitch, StaleData, Config}
        ==> RunCycle(c, d).book == d.book
  {
    hide UpToReconcile, Reconcile, ForEach, TrailStops, ConsiderEntries, FlattenAll;
  }

  // ----- an entry that failed halfway -----

  lemma {:induction false} OthersStayUntracked(c: CycleInput, s: EntryPhase, candidates: seq<(Symbol, Verdict)>, symbol: Symbol)
    requires !Tracked(s.book, symbol)
    requires forall i :: 0 <= i < |candidates| ==> candidates[i].0 != symbol
    ensures !Tracked(ConsiderEntries(c, s, candidates).book, symbol)
    decreases |candidates|
  {
    if candidates != [] && !s.outcome.Raised? {
      var (other, v) := candidates[0];
      if v.Approved? {
        OpenTracksOnlyItsSymbol(s.env, s.book, PlanFor(c, other, v), symbol);
      }
      OthersStayUntracked(c, if Tracked(s.book, other) then s else ConsiderOne(c, s, other, v), candidates[1..], symbol);
    }
  }

  lemma OpenTracksOnlyItsSymbol(e: Env, book: seq<Pos>, plan: EntryPlan, symbol: Symbol)
    requires plan.symbol != symbol && !Tracked(book, symbol)
    ensures !Tracked(OpenEntry(e, book, plan).book, symbol)
  {
    var o := OpenPosition(e, plan);
    if o.pos.Some? {
      SettleProtects(o.env, o.pos.value);
      PutTracksOnlyItsSymbol(book, Settle(o.env, o.pos.value).pos, symbol);
    }
  }

  lemma PutTracksOnlyItsSymbol(book: seq<Pos>, p: Pos, symbol: Symbol)
    requires p.symbol != symbol && !Tracked(book, symbol)
    ensures !Tracked(Put(book, p), symbol)
  {
    var put := Put(book, p);
    forall i | 0 <= i < |put| ensures put[i] == p || (i < |book| && put[i] == book[i]) {
    }
  }

  // ----- what the kill switch achieves when nothing fails -----

  predicate NoneHeld(positions: seq<PositionView>, symbol: Symbol) {
    forall i :: 0 <= i < |positions| ==> positions[i].symbol != symbol
  }

  lemma {:induction false} WithoutSymbolIs(positions: seq<PositionView>, gone: Symbol, symbol: Symbol)
    ensures NoneHeld(WithoutSymbol(positions, gone), gone)
    ensures NoneHeld(positions, symbol) ==> NoneHeld(WithoutSymbol(positions, gone), symbol)
  {
    if positions != [] {
      WithoutSymbolIs(positions[1..], gone, symbol);
      var rest := WithoutSymbol(positions[1..], gone);
      assert NoneHeld(positions, symbol) ==> NoneHeld(positions[1..], symbol);
      assert WithoutSymbol(positions, gone) == (if positions[0].symbol == gone then [] else [positions[0]]) + rest;
    }
  }

  lemma QuietClose(e: Env, p: Pos, symbol: Symbol)
    requires e.script == []
    ensures var f := Close(e, p).env;
      && f.script == [] && NoneHeld(f.positions, p.symbol)
      && (NoneHeld(e.positions, symbol) ==> NoneHeld(f.positions, symbol))
  {
    QuietCall(e, ClosePosition(p.symbol));
    WithoutSymbolIs(e.positions, p.symbol, symbol);
  }

  lemma {:induction false} QuietSweep(c: CycleInput, e: Env, todo: seq<Pos>, symbol: Symbol)
    requires e.script == []
    ensures var f := ForEach(c, FlattenTask, e, todo, 0).env;
      && f.script == []
      && (NoneHeld(e.positions, symbol) ==> NoneHeld(f.positions, symbol))
      && forall i :: 0 <= i < |todo| && (todo[i].status.Open? || todo[i].status.PendingExit?) && todo[i].symbol == symbol
           ==> NoneHeld(f.positions, symbol)
    decreases |todo|
  {
    if todo != [] {
      hide Close, NoneHeld;
      QuietClose(e, todo[0], symbol);
      var t := Tend(c, FlattenTask, e, todo[0], 0);
      QuietSweep(c, t.env, todo[1..], symbol);
      assert forall i :: 1 <= i < |todo| ==> todo[i] == todo[1..][i - 1];
    }
  }

  lemma {:induction false} QuietCancels(e: Env, ids: seq<OrderId>)
    requires e.script == [] && forall k :: 0 <= k < |ids| ==> ids[k] < |e.orders|
    ensures var f := CancelAll(e, ids);
      && f.positions == e.positions && |f.orders| == |e.orders|
      && forall i: OrderId :: i < |e.orders| && IsWorking(f.orders[i].status) ==> IsWorking(e.orders[i].status) && i !in ids
    decreases |ids|
  {
    if ids != [] {
      QuietCall(e, CancelOrder(ids[0]));
      QuietCancels(Retry(e, CancelOrder(ids[0]), ATTEMPTS).env, ids[1..]);
    }
  }

  /** With no fault in the way, the kill switch leaves nothing held of what the bot
      had open or closing, and no order working anywhere. */
  lemma QuietFlattenLeavesNothing(c: CycleInput, e: Env, book: seq<Pos>)
    requires e.script == []
    ensures var f := FlattenAll(c, e, book);
      && (forall i :: 0 <= i < |book| && (book[i].status.Open? || book[i].status.PendingExit?) ==> NoneHeld(f.positions, book[i].symbol))
      && forall i: OrderId :: i < |f.orders| ==> !IsWorking(f.orders[i].status)
  {
    hide ForEach, NoneHeld;
    var swept := ForEach(c, FlattenTask, e, book, 0).env;
    forall i | 0 <= i < |book| && (book[i].status.Open? || book[i].status.PendingExit?)
      ensures NoneHeld(swept.positions, book[i].symbol)
    {
      QuietSweep(c, e, book, book[i].symbol);
    }
    QuietSweep(c, e, book, "");
    QuietCall(swept, ListOpenOrders);
    QuietCancels(swept, WorkingIds(swept.orders));
  }
}
