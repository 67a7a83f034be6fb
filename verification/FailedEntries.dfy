/** An entry that fails halfway, across two cycles: whatever it bought is untracked
    in the book that cycle saves, and the next one to see it halts there. */
module FailedEntries {
  import opened Common
  import opened Brokers
  import opened OrderManagers
  import opened Reconcilers
  import opened Cycles
  import opened CycleSafety
  import opened EarlyReturns

  /** The moment the loop comes to `symbol`, untracked, with what it came to. */
  function EntryTurn(c: CycleInput, s: EntryPhase, candidates: seq<(Symbol, Verdict)>, symbol: Symbol): Option<(EntryPhase, Verdict)>
    decreases |candidates|
  {
    if candidates == [] || s.outcome.Raised? then None
    else
      var (other, v) := candidates[0];
      if other == symbol then (if Tracked(s.book, symbol) then None else Some((s, v)))
      else EntryTurn(c, if Tracked(s.book, other) then s else ConsiderOne(c, s, other, v), candidates[1..], symbol)
  }

  /** In this cycle the symbol's entry was tried, and opening or settling it raised. */
  predicate EntryFails(c: CycleInput, d: Desk, symbol: Symbol) {
    && EntriesStart(c, d).Some? && c.execute
    && var turn := EntryTurn(c, EntriesStart(c, d).value, c.candidates, symbol);
       && turn.Some? && turn.value.1.Approved? && turn.value.1.qty > 0.0
       && OpenEntry(turn.value.0.env, turn.value.0.book, PlanFor(c, symbol, turn.value.1)).outcome.Raised?
  }

  predicate DistinctCandidates(candidates: seq<(Symbol, Verdict)>) {
    forall i, j :: 0 <= i < j < |candidates| ==> candidates[i].0 != candidates[j].0
  }

  /** From a failed entry on: the symbol stays untracked, and not everything that was
      checked is stale. */
  lemma {:induction false} FailedTurnEnds(c: CycleInput, s: EntryPhase, candidates: seq<(Symbol, Verdict)>, symbol: Symbol)
    requires DistinctCandidates(candidates) && s.stale <= s.checked && c.execute
    requires var turn := EntryTurn(c, s, candidates, symbol);
      && turn.Some? && turn.value.1.Approved? && turn.value.1.qty > 0.0
      && OpenEntry(turn.value.0.env, turn.value.0.book, PlanFor(c, symbol, turn.value.1)).outcome.Raised?
    ensures var f := ConsiderEntries(c, s, candidates); !Tracked(f.book, symbol) && f.stale < f.checked
    decreases |candidates|
  {
    hide OpenEntry, Tracked;
    var (other, v) := candidates[0];
    if other == symbol {
      FailedOpenIsUntracked(s.env, s.book, PlanFor(c, symbol, v));
      var next := ConsiderOne(c, s, symbol, v);
      OthersStayUntracked(c, next, candidates[1..], symbol);
      StaleKeepsBehind(c, next, candidates[1..], 1);
    } else {
      FailedTurnEnds(c, if Tracked(s.book, other) then s else ConsiderOne(c, s, other, v), candidates[1..], symbol);
    }
  }

  /** However that cycle goes on, crashed or completed, the book it saves does not
      track the symbol; the stale-data return, which would bring back the old book,
      cannot happen, because an approved symbol was checked and not stale. */
  lemma FailedEntryIsSavedUntracked(c: CycleInput, d: Desk, symbol: Symbol)
    requires DistinctCandidates(c.candidates) && EntryFails(c, d, symbol)
    ensures !Tracked(RunCycle(c, d).book, symbol) && !ReturnsUnsaved(c, d)
  {
    hide StopsPhase, TrailStops, ForEach, ConsiderEntries, OpenEntry, Tracked, RunCycle, Body, ReturnsUnsaved;
    FromStopsPhase(c, d);
    FailedTurnEnds(c, EntriesStart(c, d).value, c.candidates, symbol);
    UnsavedReturnIff(c, d);
  }

  /** An entry that failed in one cycle halts the next cycle that reads a position in
      its symbol, whatever the broker did in between and whoever reset the halt: no
      entry goes out, the mismatch is on disk, and the book is as it was. */
  lemma FailedEntryHaltsNextCycle(first: CycleInput, d: Desk, symbol: Symbol, next: CycleInput, later: Desk, v: PositionView)
    requires BookOk(d.book) && DistinctCandidates(first.candidates) && EntryFails(first, d, symbol)
    requires later.book == RunCycle(first, d).book
    requires var k := CheckpointOf(next, later);
      k.Some? && k.value.Read? && v in k.value.snap.positions && v.symbol == symbol
    ensures var after := RunCycle(next, later);
      && Entries(after.env.journal) == Entries(later.env.journal)
      && after.halt == Stored(HaltRecord(ReasonFor(ReconcileMismatch), ReconcileMismatch, Some(next.now)))
      && after.book == later.book
  {
    hide RunCycle, CheckpointOf, EntryFails, Tracked, BookOk, Entries, ReturnsUnsaved;
    FailedEntryIsSavedUntracked(first, d, symbol);
    CycleKeepsBook(first, d);
    ExposedPositionHalts(next, later, v);
  }

  lemma CycleKeepsBook(c: CycleInput, d: Desk)
    requires BookOk(d.book)
    ensures BookOk(RunCycle(c, d).book)
  {
    hide Body, BookOk;
    BodyKeeps(c, d);
  }
}
