/** The three places a cycle returns before its book is saved, by the guards that
    send it there: a report that is not ok, a tripped loss limit, and a feed stale
    for everything the entry loop checked. */
module EarlyReturns {
  import opened Common
  import opened Brokers
  import opened OrderManagers
  import opened Reconcilers
  import opened Cycles
  import opened CycleSafety
  import CB = CircuitBreakers

  // ----- how far a cycle gets -----

  predicate Runs(c: CycleInput, d: Desk) { !IsHalted(d.halt) && !LiveBlocked(c) && !c.lockBusy }

  /** Where a cycle starts raising stops, if it gets that far: the broker, the book,
      and whether the market is open. */
  function StopsPhase(c: CycleInput, d: Desk): Option<(Env, seq<Pos>, bool)> {
    if !Runs(c, d) then None else
    match UpToReconcile(c, d.env, d.book)
    case Crashed(_, _, _) => None
    case Read(env, book, snap, account) =>
      var report := Reconcile(book, snap);
      var synced := ForEach(c, SyncTask(report.autoClosed), env, book, 0);
      if !report.ok || CB.LossTripped(c.maxDailyLossPct, account.lastEquity, account.equity) then None else
      var m := Retry(synced.env, IsMarketOpen, ATTEMPTS);
      if m.result.Err? then None else Some((m.env, synced.book, m.result.reply.open))
  }

  /** Where a cycle starts considering entries, if it gets that far. */
  function EntriesStart(c: CycleInput, d: Desk): Option<EntryPhase> {
    if StopsPhase(c, d).None? then None else
    var (e, book, open) := StopsPhase(c, d).value;
    var s := TrailStops(c, e, book);
    if s.outcome.Raised? || !open then None else
    var exits := ForEach(c, ExitTask, s.env, s.book, s.errors);
    if exits.outcome.Raised? then None else Some(EntryPhase(exits.env, exits.book, exits.errors, 0, 0, Returned(true)))
  }

  /** Unfolds a cycle from the moment it raises stops. */
  lemma FromStopsPhase(c: CycleInput, d: Desk)
    requires StopsPhase(c, d).Some?
    ensures var (e, book, open) := StopsPhase(c, d).value;
      var s, end := TrailStops(c, e, book), Body(c, d.env, d.book);
      && Runs(c, d) && RunCycle(c, d).book == end.book
      && end == if s.outcome.Raised? then Crash(s.env, s.book, s.outcome.transient)
                else if !open then End(s.env, s.book, None) else WhileOpen(c, s.env, d.book, s.book, s.errors)
  {
    hide UpToReconcile, ForEach, Reconcile, TrailStops, WhileOpen, Retry;
  }

  // ----- when the entry loop finds everything stale -----

  /** Seen through no fresh bar: stale, without bars, or failing before its age was
      checked. */
  predicate NothingFresh(v: Verdict) {
    v.StaleSymbol? || (v.NoTrade? && !v.checked) || (v.SymbolFails? && !v.checked)
  }

  /** Nothing the loop will look at has a fresh bar. */
  predicate NothingFreshIn(book: seq<Pos>, candidates: seq<(Symbol, Verdict)>) {
    forall i :: 0 <= i < |candidates| && !Tracked(book, candidates[i].0) ==> NothingFresh(candidates[i].1)
  }

  function StaleIn(book: seq<Pos>, candidates: seq<(Symbol, Verdict)>): nat {
    if candidates == [] then 0
    else (if !Tracked(book, candidates[0].0) && candidates[0].1.StaleSymbol? then 1 else 0) + StaleIn(book, candidates[1..])
  }

  function FailuresIn(book: seq<Pos>, candidates: seq<(Symbol, Verdict)>): nat {
    if candidates == [] then 0
    else (if !Tracked(book, candidates[0].0) && candidates[0].1.SymbolFails? then 1 else 0) + FailuresIn(book, candidates[1..])
  }

  /** The failures do not use up the error allowance. */
  predicate WithinErrors(c: CycleInput, errors: nat, failures: nat) { failures == 0 || errors + failures < c.maxErrors }

  /** Stale symbols never outnumber checked ones by more than they did. */
  lemma {:induction false} StaleKeepsBehind(c: CycleInput, s: EntryPhase, candidates: seq<(Symbol, Verdict)>, gap: nat)
    requires s.stale + gap <= s.checked
    ensures var f := ConsiderEntries(c, s, candidates); f.stale + gap <= f.checked
    decreases |candidates|
  {
    if candidates != [] && !s.outcome.Raised? {
      hide OpenEntry, Tracked;
      var (symbol, v) := candidates[0];
      StaleKeepsBehind(c, if Tracked(s.book, symbol) then s else ConsiderOne(c, s, symbol, v), candidates[1..], gap);
    }
  }

  /** From a loop that has found everything checked to be stale so far: it ends that
      way, with something checked, if and only if nothing left to look at is fresh,
      something is stale, and no failure is one too many. */
  lemma {:induction false} StaleLoopIff(c: CycleInput, s: EntryPhase, candidates: seq<(Symbol, Verdict)>)
    requires s.stale == s.checked && s.outcome.Returned?
    ensures var f := ConsiderEntries(c, s, candidates);
      f.outcome.Returned? && f.checked > 0 && f.stale == f.checked
      <==> NothingFreshIn(s.book, candidates) && s.checked + StaleIn(s.book, candidates) > 0
           && WithinErrors(c, s.errors, FailuresIn(s.book, candidates))
    decreases |candidates|
  {
    if candidates != [] {
      hide OpenEntry, Tracked;
      var (symbol, v) := candidates[0];
      var next := if Tracked(s.book, symbol) then s else ConsiderOne(c, s, symbol, v);
      TailFresh(s.book, candidates);
      if !Tracked(s.book, symbol) && !NothingFresh(v) {
        StaleKeepsBehind(c, next, candidates[1..], 1);
      } else if next.outcome.Returned? {
        StaleLoopIff(c, next, candidates[1..]);
      }
    }
  }

  lemma TailFresh(book: seq<Pos>, candidates: seq<(Symbol, Verdict)>)
    requires candidates != []
    ensures NothingFreshIn(book, candidates)
       <==> (Tracked(book, candidates[0].0) || NothingFresh(candidates[0].1)) && NothingFreshIn(book, candidates[1..])
  {
    hide Tracked;
    assert forall i :: 0 <= i < |candidates[1..]| ==> candidates[1..][i] == candidates[i + 1];
    if NothingFreshIn(book, candidates[1..]) {
      forall i | 0 < i < |candidates| && !Tracked(book, candidates[i].0) ensures NothingFresh(candidates[i].1) {
        assert candidates[1..][i - 1] == candidates[i];
      }
    }
  }

  // ----- the guards of the unsaved returns -----

  /** The cycle reaches its entry loop, market open and nothing raised on the way, and
      the loop finds only stale data, some of it, without too many failures. */
  predicate FeedGoesStale(c: CycleInput, d: Desk) {
    var s := EntriesStart(c, d);
    && s.Some? && NothingFreshIn(s.value.book, c.candidates) && StaleIn(s.value.book, c.candidates) > 0
    && WithinErrors(c, s.value.errors, FailuresIn(s.value.book, c.candidates))
  }

  /** It reads the broker, and then its report is not ok, the day's loss trips the
      limit, or its feed goes stale. */
  predicate ReturnsUnsaved(c: CycleInput, d: Desk) {
    && Runs(c, d)
    && match UpToReconcile(c, d.env, d.book)
       case Crashed(_, _, _) => false
       case Read(_, book, snap, account) =>
         || !Reconcile(book, snap).ok
         || CB.LossTripped(c.maxDailyLossPct, account.lastEquity, account.equity)
         || FeedGoesStale(c, d)
  }

  lemma WhileOpenEnds(c: CycleInput, e: Env, saved: seq<Pos>, book: seq<Pos>, errors: nat)
    ensures var h := WhileOpen(c, e, saved, book, errors).halt; h != Some(KillSwitch) && h != Some(ReconcileMismatch)
  {
    hide ForEach, ConsiderEntries;
  }

  lemma StaleReturnIff(c: CycleInput, d: Desk)
    ensures FeedGoesStale(c, d) <==> Runs(c, d) && Body(c, d.env, d.book).halt == Some(StaleData)
  {
    hide UpToReconcile, ForEach, Reconcile, TrailStops, Retry, ConsiderEntries, FlattenAll, NothingFreshIn, StaleIn, FailuresIn;
    if EntriesStart(c, d).Some? {
      StaleLoopIff(c, EntriesStart(c, d).value, c.candidates);
    }
  }

  /** The halts of the three returns are written for exactly these guards. */
  lemma UnsavedReturnIff(c: CycleInput, d: Desk)
    ensures ReturnsUnsaved(c, d)
       <==> Runs(c, d) && Body(c, d.env, d.book).halt in {Some(ReconcileMismatch), Some(KillSwitch), Some(StaleData)}
  {
    hide UpToReconcile, ForEach, Reconcile, TrailStops, Retry, FlattenAll, FeedGoesStale, WhileOpen;
    StaleReturnIff(c, d);
    var k := UpToReconcile(c, d.env, d.book);
    if k.Read? {
      var report := Reconcile(k.book, k.snap);
      var synced := ForEach(c, SyncTask(report.autoClosed), k.env, k.book, 0);
      var m := Retry(synced.env, IsMarketOpen, ATTEMPTS);
      var s := TrailStops(c, m.env, synced.book);
      WhileOpenEnds(c, s.env, d.book, s.book, s.errors);
    }
  }
}
