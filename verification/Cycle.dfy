/** One scheduled cycle of the orchestrator, as a function of the desk it finds
    and of what the outside supplies: settle, reconcile, kill switch, stops,
    exits, entries. Constructing the orchestrator and running its cycle is one
    atomic step here. */
module Cycles {
  import opened Common
  import opened Ratchets
  import opened Brokers
  import opened OrderManagers
  import opened Reconcilers
  import CB = CircuitBreakers

  // ----- the halt file -----

  datatype HaltFile = Absent | Unreadable | Stored(record: HaltRecord)

  /** A file that cannot be read still means halted. */
  function HaltInfo(f: HaltFile): Option<HaltRecord> {
    match f
    case Absent => None
    case Unreadable => Some(HaltRecord("halt file unreadable (treating as halted)", Unknown, None))
    case Stored(record) => Some(record)
  }

  /** What every order path asks: a record whose reason is a non-empty text. */
  predicate IsHalted(f: HaltFile) {
    HaltInfo(f).Some? && HaltInfo(f).value.reason != ""
  }

  /** The bot's shared state: the broker, the saved book and the halt file. */
  datatype Desk = Desk(env: Env, book: seq<Pos>, halt: HaltFile)

  function SetHalt(d: Desk, record: HaltRecord): Desk {
    d.(halt := Stored(record), env := d.env.(journal := d.env.journal + [HaltSet(record)]))
  }

  // ----- what the outside supplies -----

  datatype Bars = FeedFails(transient: bool) | NoBars | StaleBars | FreshBars(price: real, atr: Option<real>, exitSignal: bool)

  /** What considering one symbol comes to before any order is placed. */
  datatype Verdict =
    | NoTrade(checked: bool)
    | StaleSymbol
    | SymbolFails(checked: bool, transient: bool)
    | Approved(side: Side, qty: real, strategy: string, ratchet: Ratchet, takeProfit: Option<real>)

  datatype CycleInput = CycleInput(
    execute: bool, isLive: bool, allowLive: bool, lockBusy: bool,
    maxDailyLossPct: real, maxErrors: nat, minDaysRemaining: int,
    barsForStops: Symbol -> Bars, barsForExits: Symbol -> Bars,
    candidates: seq<(Symbol, Verdict)>, today: string, now: int)

  // ----- one phase over every position -----

  /** The per-position phases of a cycle. */
  datatype Task = SettleTask | RecheckTask | SyncTask(closed: seq<Symbol>) | FlattenTask | RaiseTask | RefreshTask | ExitTask

  /** A position after a phase dealt with it; None when it left the book. */
  datatype Tended = Tended(env: Env, kept: Option<Pos>, errors: nat, outcome: Outcome)

  /** An isolated failure is counted; too many of them raise, keeping the cause. */
  function Isolated(c: CycleInput, e: Env, p: Pos, errors: nat, transient: bool): Tended {
    Tended(e, Some(p), errors + 1, if errors + 1 >= c.maxErrors then Raised(transient) else Returned(false))
  }

  function Finished(d: Done, errors: nat): Tended { Tended(d.env, Some(d.pos), errors, d.outcome) }

  function Tend(c: CycleInput, task: Task, e: Env, p: Pos, errors: nat): Tended {
    var untouched := Tended(e, Some(p), errors, Returned(false));
    match task
    case SettleTask =>
      if !p.status.PendingEntry? then untouched else
      var d := Settle(e, p);
      if d.outcome.Returned? && IsDeadEntry(d.pos) then Tended(d.env, None, errors, d.outcome) else Finished(d, errors)
    case RecheckTask =>
      if p.status.Open? && p.filledQty < p.qty then Finished(RecheckPartialFill(e, p), errors) else untouched
    case SyncTask(closed) =>
      if p.symbol !in closed then untouched else
      var looked := if p.stopOrderId.Some? then Exec(e, GetOrder(p.stopOrderId.value)).env else e;
      Tended(looked, Some(p.(status := Closed)), errors, Returned(true))
    case FlattenTask =>
      if !p.status.Open? && !p.status.PendingExit? then untouched else
      Tended(Close(e, p).env, Some(Close(e, p).pos), errors, Returned(true))
    case RaiseTask =>
      if !p.status.Open? then untouched else
      (match c.barsForStops(p.symbol)
       case FeedFails(transient) => Tended(e, Some(p), errors, Raised(transient))
       case NoBars => untouched
       case StaleBars => untouched
       case FreshBars(price, atr, _) =>
         var d := if c.execute then RaiseStop(e, p, price, atr) else Done(e, ShadowTrail(p, price, atr), Returned(true));
         if d.outcome.Raised? then Isolated(c, d.env, d.pos, errors, d.outcome.transient) else Finished(d, errors))
    case RefreshTask =>
      if !p.status.Open? then untouched else
      var d := RefreshStaleStop(e, p, c.minDaysRemaining);
      if d.outcome.Raised? then Isolated(c, d.env, d.pos, errors, d.outcome.transient) else Finished(d, errors)
    case ExitTask =>
      if !p.status.Open? then untouched else
      (match c.barsForExits(p.symbol)
       case FeedFails(transient) => Tended(e, Some(p), errors, Raised(transient))
       case NoBars => untouched
       case StaleBars => untouched
       case FreshBars(_, _, exitSignal) =>
         if !exitSignal || !c.execute then untouched else
         var d := Close(e, p);
         if d.outcome.Raised? then Finished(d, errors) else Tended(d.env, None, errors, d.outcome))
  }

  datatype Phase = Phase(env: Env, book: seq<Pos>, errors: nat, outcome: Outcome)

  function Kept(t: Tended): seq<Pos> { if t.kept.Some? then [t.kept.value] else [] }

  /** Each position in turn; raising leaves the rest as they were. */
  function ForEach(c: CycleInput, task: Task, e: Env, todo: seq<Pos>, errors: nat): Phase
    decreases |todo|
  {
    if todo == [] then Phase(e, [], errors, Returned(true))
    else
      var t := Tend(c, task, e, todo[0], errors);
      if t.outcome.Raised? then Phase(t.env, Kept(t) + todo[1..], t.errors, t.outcome)
      else
        var rest := ForEach(c, task, t.env, todo[1..], t.errors);
        rest.(book := Kept(t) + rest.book)
  }

  // ----- entries -----

  function IndexOf(book: seq<Pos>, symbol: Symbol): (r: Option<nat>)
    ensures r.Some? ==> r.value < |book| && book[r.value].symbol == symbol
    ensures r.None? ==> forall i :: 0 <= i < |book| ==> book[i].symbol != symbol
  {
    if book == [] then None
    else
      var n := |book| - 1;
      if book[n].symbol == symbol then Some(n) else IndexOf(book[..n], symbol)
  }

  /** Storing under a symbol replaces what the book held for it, in place. */
  function Put(book: seq<Pos>, p: Pos): seq<Pos> {
    match IndexOf(book, p.symbol)
    case Some(i) => book[i := p]
    case None => book + [p]
  }

  datatype EntryPhase = EntryPhase(env: Env, book: seq<Pos>, errors: nat, checked: nat, stale: nat, outcome: Outcome)

  /** Opens and settles one approved entry. A failure anywhere leaves the book
      without it, whatever has happened at the broker. */
  function OpenEntry(e: Env, book: seq<Pos>, plan: EntryPlan): Phase {
    var o := OpenPosition(e, plan);
    if o.pos.None? then Phase(o.env, book, 0, Raised(o.transient)) else
    var d := Settle(o.env, o.pos.value);
    if d.outcome.Raised? then Phase(d.env, book, 0, d.outcome)
    else Phase(d.env, Put(book, d.pos), 0, Returned(true))
  }

  function PlanFor(c: CycleInput, symbol: Symbol, v: Verdict): EntryPlan
    requires v.Approved?
  {
    EntryPlan(symbol, v.side, v.qty, v.strategy, v.ratchet, v.takeProfit, c.today)
  }

  function ConsiderOne(c: CycleInput, s: EntryPhase, symbol: Symbol, v: Verdict): EntryPhase {
    match v
    case NoTrade(checked) => s.(checked := s.checked + if checked then 1 else 0)
    case StaleSymbol => s.(checked := s.checked + 1, stale := s.stale + 1)
    case SymbolFails(checked, transient) =>
      CountError(c, s.(checked := s.checked + if checked then 1 else 0), transient)
    case Approved(_, qty, _, _, _) =>
      var s := s.(checked := s.checked + 1);
      if !c.execute || qty <= 0.0 then s else
      var o := OpenEntry(s.env, s.book, PlanFor(c, symbol, v));
      var s := s.(env := o.env, book := o.book);
      if o.outcome.Raised? then CountError(c, s, o.outcome.transient) else s
  }

  function CountError(c: CycleInput, s: EntryPhase, transient: bool): EntryPhase {
    s.(errors := s.errors + 1, outcome := if s.errors + 1 >= c.maxErrors then Raised(transient) else s.outcome)
  }

  function ConsiderEntries(c: CycleInput, s: EntryPhase, candidates: seq<(Symbol, Verdict)>): EntryPhase
    decreases |candidates|
  {
    if candidates == [] || s.outcome.Raised? then s
    else
      var (symbol, v) := candidates[0];
      ConsiderEntries(c, if Tracked(s.book, symbol) then s else ConsiderOne(c, s, symbol, v), candidates[1..])
  }

  // ----- the kill switch -----

  function CancelAll(e: Env, ids: seq<OrderId>): Env
    decreases |ids|
  {
    if ids == [] then e else CancelAll(Retry(e, CancelOrder(ids[0]), ATTEMPTS).env, ids[1..])
  }

  /** Best effort: closes what is open, then cancels whatever still rests. */
  function FlattenAll(c: CycleInput, e: Env, book: seq<Pos>): Env {
    var f := ForEach(c, FlattenTask, e, book, 0);
    var o := Retry(f.env, ListOpenOrders, ATTEMPTS);
    if o.result.Err? then o.env else CancelAll(o.env, o.result.reply.ids)
  }

  // ----- the cycle -----

  /** How a cycle ends: the book it leaves on disk, and the halt it writes. */
  datatype End = End(env: Env, book: seq<Pos>, halt: Option<HaltClass>)

  function Crash(e: Env, book: seq<Pos>, transient: bool): End {
    End(e, book, Some(if transient then Disconnect else Exception))
  }

  /** Everything up to the reconciler's verdict. */
  datatype Checkpoint =
    | Crashed(env: Env, book: seq<Pos>, transient: bool)
    | Read(env: Env, book: seq<Pos>, snap: Snapshot, account: Account)

  /** Fills first, so that reconcile and sizing act on what is really held. */
  function SettleAndRecheck(c: CycleInput, e: Env, book: seq<Pos>): Phase {
    if !c.execute then Phase(e, book, 0, Returned(true)) else
    var s := ForEach(c, SettleTask, e, book, 0);
    if s.outcome.Raised? then s else ForEach(c, RecheckTask, s.env, s.book, 0)
  }

  function UpToReconcile(c: CycleInput, e: Env, book: seq<Pos>): Checkpoint {
    var a := Retry(e, GetAccount, ATTEMPTS);
    if a.result.Err? then Crashed(a.env, book, a.result.transient) else
    var s := SettleAndRecheck(c, a.env, book);
    if s.outcome.Raised? then Crashed(s.env, s.book, s.outcome.transient) else
    var read := ReadSnapshot(s.env);
    if read.snap.None? then Crashed(read.env, s.book, read.transient)
    else Read(read.env, s.book, read.snap.value, a.result.reply.account)
  }

  function Body(c: CycleInput, e: Env, saved: seq<Pos>): End {
    match UpToReconcile(c, e, saved)
    case Crashed(env, book, transient) => Crash(env, book, transient)
    case Read(env, book, snap, account) =>
      var report := Reconcile(book, snap);
      var synced := ForEach(c, SyncTask(report.autoClosed), env, book, 0);
      if !report.ok then End(synced.env, saved, Some(ReconcileMismatch))
      else AfterReconcile(c, synced.env, saved, synced.book, account)
  }

  function AfterReconcile(c: CycleInput, e: Env, saved: seq<Pos>, book: seq<Pos>, account: Account): End {
    if CB.LossTripped(c.maxDailyLossPct, account.lastEquity, account.equity) then
      End(if c.execute then FlattenAll(c, e, book) else e, saved, Some(KillSwitch))
    else
    var m := Retry(e, IsMarketOpen, ATTEMPTS);
    if m.result.Err? then Crash(m.env, book, m.result.transient) else
    var s := TrailStops(c, m.env, book);
    if s.outcome.Raised? then Crash(s.env, s.book, s.outcome.transient)
    else if !m.result.reply.open then End(s.env, s.book, None)
    else WhileOpen(c, s.env, saved, s.book, s.errors)
  }

  /** Raises every stop; an executing cycle also refreshes ageing ones. */
  function TrailStops(c: CycleInput, e: Env, book: seq<Pos>): Phase {
    var raised := ForEach(c, RaiseTask, e, book, 0);
    if raised.outcome.Raised? || !c.execute then raised
    else ForEach(c, RefreshTask, raised.env, raised.book, raised.errors)
  }

  /** Exits and entries. A feed stale for every symbol checked halts the bot
      without saving the book. */
  function WhileOpen(c: CycleInput, e: Env, saved: seq<Pos>, book: seq<Pos>, errors: nat): End {
    var exits := ForEach(c, ExitTask, e, book, errors);
    if exits.outcome.Raised? then Crash(exits.env, exits.book, exits.outcome.transient) else
    var s := ConsiderEntries(c, EntryPhase(exits.env, exits.book, exits.errors, 0, 0, Returned(true)), c.candidates);
    if s.outcome.Raised? then Crash(s.env, s.book, s.outcome.transient)
    else if s.checked > 0 && s.stale == s.checked then End(s.env, saved, Some(StaleData))
    else End(s.env, s.book, None)
  }

  function ReasonFor(cls: HaltClass): string {
    match cls
    case ReconcileMismatch => "reconcile mismatch"
    case KillSwitch => "kill switch"
    case StaleData => "stale data on all checked symbols"
    case Config => "live execution requested without allow_live=True"
    case _ => "cycle exception"
  }

  predicate LiveBlocked(c: CycleInput) { c.isLive && c.execute && !c.allowLive }

  function RunCycle(c: CycleInput, d: Desk): Desk {
    if IsHalted(d.halt) then d
    else if LiveBlocked(c) then SetHalt(d, HaltRecord(ReasonFor(Config), Config, Some(c.now)))
    else if c.lockBusy then d
    else
      var end := Body(c, d.env, d.book);
      var after := d.(env := end.env, book := end.book);
      if end.halt.None? then after
      else SetHalt(after, HaltRecord(ReasonFor(end.halt.value), end.halt.value, Some(c.now)))
  }

  // ----- the files every process shares -----

  /** The saved book and the halt file, next to the broker. */
  class SharedState {
    const broker: Broker
    var book: seq<Pos>
    var halt: HaltFile

    constructor (broker: Broker, book: seq<Pos>, halt: HaltFile)
      ensures this.broker == broker && this.book == book && this.halt == halt
    {
      this.broker, this.book, this.halt := broker, book, halt;
    }

    function View(): Desk
      reads this, broker
    {
      Desk(broker.env, book, halt)
    }

    method WriteHalt(record: HaltRecord)
      modifies this`halt, broker
      ensures View() == SetHalt(old(View()), record)
    {
      halt := Stored(record);
      broker.env := broker.env.(journal := broker.env.journal + [HaltSet(record)]);
    }

    /** Erases the halt file; `mark` says who did. */
    method ClearHalt(mark: Mark)
      modifies this`halt, broker
      ensures View() == old(View()).(halt := Absent, env := old(broker.env).(journal := old(broker.env).journal + [mark]))
    {
      halt := Absent;
      broker.env := broker.env.(journal := broker.env.journal + [mark]);
    }
  }
}
