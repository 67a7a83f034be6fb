/** An order nobody tracks may fill long after the action that placed it. Over whole
    runs: as long as its symbol is not traded anew, whatever it buys halts the first
    cycle that sees it. */
module LateFills {
  import opened Common
  import opened Brokers
  import opened OrderManagers
  import opened Reconcilers
  import opened Cycles
  import opened CycleSafety
  import opened FailedEntries
  import TradeServices
  import opened SelfHealing
  import opened TradingSystem

  /** The action does not approve a new entry in `symbol`. */
  predicate LeavesSymbol(a: Action, symbol: Symbol) {
    match a
    case ScheduledCycle(c) => NotApproved(c.candidates, symbol)
    case PhoneOrder(o, _) => o.symbol != symbol
    case _ => true
  }

  predicate NotApproved(candidates: seq<(Symbol, Verdict)>, symbol: Symbol) {
    forall i :: 0 <= i < |candidates| && candidates[i].0 == symbol ==> !candidates[i].1.Approved?
  }

  lemma {:induction false} EntriesLeaveUntracked(c: CycleInput, s: EntryPhase, candidates: seq<(Symbol, Verdict)>, symbol: Symbol)
    requires !Tracked(s.book, symbol) && NotApproved(candidates, symbol)
    ensures !Tracked(ConsiderEntries(c, s, candidates).book, symbol)
    decreases |candidates|
  {
    if candidates != [] && !s.outcome.Raised? {
      hide Tracked, OpenEntry;
      var (other, v) := candidates[0];
      if v.Approved? {
        OpenTracksOnlyItsSymbol(s.env, s.book, PlanFor(c, other, v), symbol);
      }
      EntriesLeaveUntracked(c, if Tracked(s.book, other) then s else ConsiderOne(c, s, other, v), candidates[1..], symbol);
    }
  }

  lemma PhaseLeavesUntracked(c: CycleInput, task: Task, e: Env, book: seq<Pos>, errors: nat, symbol: Symbol)
    requires BookOk(book) && !Tracked(book, symbol)
    ensures var f := ForEach(c, task, e, book, errors); BookOk(f.book) && !Tracked(f.book, symbol)
  {
    hide ForEach, BookOk, Tracked;
    ForEachKeeps(c, task, e, book, errors);
  }

  lemma TrailLeavesUntracked(c: CycleInput, e: Env, book: seq<Pos>, symbol: Symbol)
    requires BookOk(book) && !Tracked(book, symbol)
    ensures var s := TrailStops(c, e, book); BookOk(s.book) && !Tracked(s.book, symbol)
  {
    hide ForEach, BookOk, Tracked;
    PhaseLeavesUntracked(c, RaiseTask, e, book, 0, symbol);
    var r := ForEach(c, RaiseTask, e, book, 0);
    PhaseLeavesUntracked(c, RefreshTask, r.env, r.book, r.errors, symbol);
  }

  lemma WhileOpenLeavesUntracked(c: CycleInput, e: Env, saved: seq<Pos>, book: seq<Pos>, errors: nat, symbol: Symbol)
    requires BookOk(book) && !Tracked(book, symbol) && !Tracked(saved, symbol) && NotApproved(c.candidates, symbol)
    ensures !Tracked(WhileOpen(c, e, saved, book, errors).book, symbol)
  {
    hide ForEach, ConsiderEntries, BookOk, Tracked;
    PhaseLeavesUntracked(c, ExitTask, e, book, errors, symbol);
    var exits := ForEach(c, ExitTask, e, book, errors);
    EntriesLeaveUntracked(c, EntryPhase(exits.env, exits.book, exits.errors, 0, 0, Returned(true)), c.candidates, symbol);
  }

  lemma AfterReconcileLeavesUntracked(c: CycleInput, e: Env, saved: seq<Pos>, book: seq<Pos>, account: Account, symbol: Symbol)
    requires BookOk(book) && !Tracked(book, symbol) && !Tracked(saved, symbol) && NotApproved(c.candidates, symbol)
    ensures !Tracked(AfterReconcile(c, e, saved, book, account).book, symbol)
  {
    hide Retry, FlattenAll, TrailStops, WhileOpen, BookOk, Tracked;
    var m := Retry(e, IsMarketOpen, ATTEMPTS);
    TrailLeavesUntracked(c, m.env, book, symbol);
    var s := TrailStops(c, m.env, book);
    WhileOpenLeavesUntracked(c, s.env, saved, s.book, s.errors, symbol);
  }

  lemma CycleLeavesUntracked(c: CycleInput, d: Desk, symbol: Symbol)
    requires BookOk(d.book) && !Tracked(d.book, symbol) && NotApproved(c.candidates, symbol)
    ensures !Tracked(RunCycle(c, d).book, symbol)
  {
    hide UpToReconcile, ForEach, Reconcile, AfterReconcile, BookOk, Tracked;
    CheckpointKeeps(c, d.env, d.book);
    var k := UpToReconcile(c, d.env, d.book);
    if k.Read? {
      var sync := SyncTask(Reconcile(k.book, k.snap).autoClosed);
      PhaseLeavesUntracked(c, sync, k.env, k.book, 0, symbol);
      var synced := ForEach(c, sync, k.env, k.book, 0);
      AfterReconcileLeavesUntracked(c, synced.env, d.book, synced.book, k.account, symbol);
    }
  }

  lemma OrderLeavesUntracked(o: TradeServices.Order, d: Desk, symbol: Symbol)
    requires !Tracked(d.book, symbol) && o.symbol != symbol
    ensures !Tracked(TradeServices.GateAndOpen(o, d).desk.book, symbol)
  {
    hide Retry, OpenPosition, Settle, Put, Tracked;
    var m := Retry(d.env, IsMarketOpen, ATTEMPTS);
    var a := Retry(m.env, GetAccount, ATTEMPTS);
    if o.approvedQty.Some? {
      var plan := TradeServices.PlanOf(o, MinInt(o.requestedQty, o.approvedQty.value));
      var opening := OpenPosition(a.env, plan);
      if opening.pos.Some? {
        OpenedSymbol(a.env, plan);
        SettleKeepsSymbol(opening.env, opening.pos.value);
        PutTracksOnlyItsSymbol(d.book, Settle(opening.env, opening.pos.value).pos, symbol);
      }
    }
  }

  lemma OpenedSymbol(e: Env, plan: EntryPlan)
    ensures OpenPosition(e, plan).pos.Some? ==>
      var p := OpenPosition(e, plan).pos.value; p.symbol == plan.symbol && p.status.PendingEntry?
  {
    hide Exec;
  }

  lemma SettleKeepsSymbol(e: Env, p: Pos)
    requires p.status.PendingEntry?
    ensures Settle(e, p).pos.symbol == p.symbol
  {
    hide Settle;
    SettleProtects(e, p);
  }

  lemma ActLeavesUntracked(policy: Policy, w: World, a: Action, symbol: Symbol)
    requires BookOk(w.desk.book) && !Tracked(w.desk.book, symbol) && LeavesSymbol(a, symbol)
    ensures !Tracked(Act(policy, w, a).desk.book, symbol)
  {
    hide TradeServices.GateAndOpen, TradeServices.FlattenFrom, Close, RunCycle, BookOk;
    var d := w.desk;
    match a
    case ScheduledCycle(c) => CycleLeavesUntracked(c.(now := w.clock), d, symbol);
    case PhoneOrder(o, busy) => OrderLeavesUntracked(o, d, symbol);
    case PhoneFlatten(busy) => FlattenFromKeeps(d.env, d.book);
    case _ =>
  }

  lemma {:induction false} RunsLeaveUntracked(policy: Policy, w: World, actions: seq<Action>, symbol: Symbol)
    requires BookOk(w.desk.book) && !Tracked(w.desk.book, symbol)
    requires forall i :: 0 <= i < |actions| ==> LeavesSymbol(actions[i], symbol)
    ensures var after := Run(policy, w, actions); BookOk(after.desk.book) && !Tracked(after.desk.book, symbol)
  {
    if actions != [] {
      hide Act, BookOk, Tracked, LeavesSymbol;
      var n := |actions| - 1;
      RunsLeaveUntracked(policy, w, actions[..n], symbol);
      ActLeavesUntracked(policy, Run(policy, w, actions[..n]), actions[n], symbol);
      ActKeepsBook(policy, Run(policy, w, actions[..n]), actions[n]);
    }
  }

  /** The cycle reads a position in `symbol` at its reconcile. */
  predicate Sees(c: CycleInput, d: Desk, symbol: Symbol) {
    var k := CheckpointOf(c, d);
    k.Some? && k.value.Read? && HeldAt(k.value.snap.positions, symbol).Some?
  }

  /** It halts on the mismatch, submits no entry, and leaves the book as it was. */
  ghost predicate HaltsThere(c: CycleInput, d: Desk) {
    var after := RunCycle(c, d);
    && Entries(after.env.journal) == Entries(d.env.journal)
    && after.halt == Stored(HaltRecord(ReasonFor(ReconcileMismatch), ReconcileMismatch, Some(c.now)))
    && after.book == d.book
  }

  lemma SeenUntrackedHalts(c: CycleInput, d: Desk, symbol: Symbol)
    requires BookOk(d.book) && !Tracked(d.book, symbol) && Sees(c, d, symbol)
    ensures HaltsThere(c, d)
  {
    hide RunCycle, CheckpointOf, Entries, BookOk, Tracked;
    var k := CheckpointOf(c, d);
    HeldAtIff(k.value.snap.positions, symbol);
    ExposedPositionHalts(c, d, HeldAt(k.value.snap.positions, symbol).value);
  }

  /** From any moment at which `symbol` is untracked: however many cycles, phone actions,
      heals and resets go by without entering it anew, the cycle that then reads a
      position in it halts there, with no entry and the book as it was. */
  lemma LateFillHalts(policy: Policy, w: World, actions: seq<Action>, symbol: Symbol, c: CycleInput)
    requires BookOk(w.desk.book) && !Tracked(w.desk.book, symbol)
    requires forall i :: 0 <= i < |actions| ==> LeavesSymbol(actions[i], symbol)
    requires Sees(c, Run(policy, w, actions).desk, symbol)
    ensures HaltsThere(c, Run(policy, w, actions).desk)
  {
    hide Sees, HaltsThere, BookOk, Tracked, Run;
    RunsLeaveUntracked(policy, w, actions, symbol);
    SeenUntrackedHalts(c, Run(policy, w, actions).desk, symbol);
  }

  /** So for an entry that failed in a cycle and fills any time later. */
  lemma FailedEntryFillsLate(policy: Policy, w: World, first: CycleInput, symbol: Symbol, actions: seq<Action>, c: CycleInput)
    requires BookOk(w.desk.book) && DistinctCandidates(first.candidates) && EntryFails(first.(now := w.clock), w.desk, symbol)
    requires forall i :: 0 <= i < |actions| ==> LeavesSymbol(actions[i], symbol)
    requires Sees(c, Run(policy, Act(policy, w, ScheduledCycle(first)), actions).desk, symbol)
    ensures HaltsThere(c, Run(policy, Act(policy, w, ScheduledCycle(first)), actions).desk)
  {
    hide RunCycle, Sees, HaltsThere, BookOk, Tracked, Run, EntryFails, LeavesSymbol;
    FailedEntryIsSavedUntracked(first.(now := w.clock), w.desk, symbol);
    CycleKeepsBook(first.(now := w.clock), w.desk);
    LateFillHalts(policy, Act(policy, w, ScheduledCycle(first)), actions, symbol, c);
  }

  /** And for a phone order that was answered with a broker error. */
  lemma FailedPhoneOrderFillsLate(policy: Policy, w: World, o: TradeServices.Order, busy: bool, actions: seq<Action>, c: CycleInput)
    requires BookOk(w.desk.book) && TradeServices.Place(o, busy, w.desk).answer.BrokerError?
    requires forall i :: 0 <= i < |actions| ==> LeavesSymbol(actions[i], o.symbol)
    requires Sees(c, Run(policy, Act(policy, w, PhoneOrder(o, busy)), actions).desk, o.symbol)
    ensures HaltsThere(c, Run(policy, Act(policy, w, PhoneOrder(o, busy)), actions).desk)
  {
    hide TradeServices.Place, Sees, HaltsThere, BookOk, Tracked, Run, LeavesSymbol;
    ErrorLeavesBook(o, busy, w.desk);
    LateFillHalts(policy, Act(policy, w, PhoneOrder(o, busy)), actions, o.symbol, c);
  }

  lemma ErrorLeavesBook(o: TradeServices.Order, busy: bool, d: Desk)
    requires TradeServices.Place(o, busy, d).answer.BrokerError?
    ensures TradeServices.Place(o, busy, d).desk.book == d.book && !Tracked(d.book, o.symbol)
  {
    hide Retry, OpenPosition, Settle, Tracked;
  }
}
