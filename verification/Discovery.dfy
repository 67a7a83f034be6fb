/** The two layers of concurrency in one statement: sources race a deadline while
    each fetches on a pool of its own. */
module Discovery {
  import opened Common
  import G = Gathering
  import opened Scoring

  /** One source's call: what its fetches come to, and its pool. */
  datatype Source = Source(outcomes: seq<G.Outcome<Contribution>>, maxWorkers: int)

  /** The call has collected every result under this schedule. */
  predicate Done(source: Source, schedule: seq<G.Step>) {
    var s := G.After(source.outcomes, source.maxWorkers, schedule);
    s.Some? && |s.value.collected| == |source.outcomes|
  }

  /** What the source then reports: a failure if some fetch raised, otherwise what it
      fetched, in the order it came. */
  function ReportAfter(source: Source, schedule: seq<G.Step>): Report
    requires Done(source, schedule)
  {
    var s := G.After(source.outcomes, source.maxWorkers, schedule).value;
    if s.firstExc.Some? then Failed else Gathered(s.out)
  }

  /** Failed in both, or holding the same contributions. */
  ghost predicate SameReport(a: Report, b: Report) {
    && (a.Failed? <==> b.Failed?)
    && (a.Gathered? ==> multiset(a.contributions) == multiset(b.contributions))
  }

  /** A source's report is settled by what its fetches come to, not by how they were
      interleaved. */
  lemma ReportIgnoresSchedule(source: Source, one: seq<G.Step>, other: seq<G.Step>)
    requires Done(source, one) && Done(source, other)
    ensures SameReport(ReportAfter(source, one), ReportAfter(source, other))
  {
    hide G.Sound, G.After;
    G.SchedulesAreSound(source.outcomes, source.maxWorkers, one);
    G.SchedulesAreSound(source.outcomes, source.maxWorkers, other);
    G.FinishedCall(source.outcomes, source.maxWorkers, G.After(source.outcomes, source.maxWorkers, one).value);
    G.FinishedCall(source.outcomes, source.maxWorkers, G.After(source.outcomes, source.maxWorkers, other).value);
  }

  /** One whole gather: a schedule for each source, and the race between them. */
  datatype Run = Run(schedules: seq<seq<G.Step>>, events: seq<Event>)

  /** The sources whose reports the collector took before it stopped, in order. */
  function Got(n: nat, run: Run): seq<nat>
    requires Ran(n, run.events).Some?
  {
    var r := Ran(n, run.events).value;
    if r.received <= |r.finished| then r.finished[..r.received] else r.finished
  }

  /** A possible gather: only sources whose calls are done get in. */
  ghost predicate Gathers(sources: seq<Source>, run: Run) {
    && |run.schedules| == |sources| && Ran(|sources|, run.events).Some?
    && forall i :: 0 <= i < |sources| && i in Got(|sources|, run) ==> Done(sources[i], run.schedules[i])
  }

  /** The reports, by source; those that did not get in count as failed. */
  function ReportsOf(sources: seq<Source>, run: Run): (r: seq<Report>)
    requires |run.schedules| == |sources|
    ensures |r| == |sources|
  {
    seq(|sources|, i requires 0 <= i < |sources| =>
      if Done(sources[i], run.schedules[i]) then ReportAfter(sources[i], run.schedules[i]) else Failed)
  }

  /** What a gather files under one symbol. */
  function FiledUnder(sources: seq<Source>, run: Run, symbol: string): seq<Contribution>
    requires |run.schedules| == |sources| && Ran(|sources|, run.events).Some?
  {
    Arrived(Received(ReportsOf(sources, run), Got(|sources|, run)), symbol)
  }

  lemma FiledWithin(sources: seq<Source>, one: Run, other: Run, symbol: string, c: Contribution)
    requires Gathers(sources, one) && Gathers(sources, other)
    requires forall i: nat :: i in Got(|sources|, one) <==> i in Got(|sources|, other)
    requires c in FiledUnder(sources, one, symbol)
    ensures c in FiledUnder(sources, other, symbol)
  {
    hide Ran, Arrived, Done, ReportAfter;
    var n := |sources|;
    var ra, rb := Received(ReportsOf(sources, one), Got(n, one)), Received(ReportsOf(sources, other), Got(n, other));
    ArrivedHas(ra, symbol, c);
    ArrivedHas(rb, symbol, c);
    var r :| r in ra && r.Gathered? && c in r.contributions;
    var k :| 0 <= k < |ra| && ra[k] == r;
    var i := Got(n, one)[k];
    assert i in Got(n, one) && i in Got(n, other);
    assert i < n;
    ReportIgnoresSchedule(sources[i], one.schedules[i], other.schedules[i]);
    var m :| 0 <= m < |Got(n, other)| && Got(n, other)[m] == i;
    assert c in multiset(r.contributions);
    assert rb[m] in rb && c in rb[m].contributions;
  }

  /** Any two gathers in which the same sources get in before the deadline give every
      symbol the same score, however each source's fetches were interleaved and
      whatever order the sources came in. */
  lemma ScoresIgnoreInterleaving(sources: seq<Source>, one: Run, other: Run, weights: Weights, active: seq<string>, symbol: string)
    requires Gathers(sources, one) && Gathers(sources, other)
    requires forall i: nat :: i in Got(|sources|, one) <==> i in Got(|sources|, other)
    ensures ScoreOf(weights, active, FiledUnder(sources, one, symbol)) == ScoreOf(weights, active, FiledUnder(sources, other, symbol))
    ensures FiledUnder(sources, one, symbol) == [] <==> FiledUnder(sources, other, symbol) == []
  {
    hide FiledUnder, Ran, Done;
    var ca, cb := FiledUnder(sources, one, symbol), FiledUnder(sources, other, symbol);
    forall c ensures c in ca <==> c in cb {
      if c in ca { FiledWithin(sources, one, other, symbol, c); }
      if c in cb { FiledWithin(sources, other, one, symbol, c); }
    }
    BlendSame(weights, active, ca, cb);
    SameEmptiness(ca, cb);
  }

  /** A source one of whose fetches never comes back, or that has no worker, never gets
      in; the deadline is what keeps it from holding up the rest. */
  lemma HungSourceStaysOut(sources: seq<Source>, run: Run, i: nat)
    requires Gathers(sources, run) && i < |sources| && G.CannotFinish(sources[i].outcomes, sources[i].maxWorkers)
    ensures i !in Got(|sources|, run)
  {
    if i in Got(|sources|, run) {
      G.NeverFinishes(sources[i].outcomes, sources[i].maxWorkers, run.schedules[i]);
    }
  }
}
