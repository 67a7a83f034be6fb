/** Fetching many items on a pool of worker threads, as interleaved steps over a
    work queue, the workers' hands and a results queue. Items are their positions
    in the list; what fetching each one comes to is given, and a fetch may never
    come back at all. */
module Gathering {
  import opened Common

  datatype Outcome<+R> = Value(value: R) | Nothing | Raises | NeverReturns

  datatype Worker = Idle | Holding(item: nat) | Retired

  /** `started` counts the threads the caller has launched; it collects only
      once all of them are. `firstExc` is the item whose exception it will raise. */
  datatype State<R> = State(work: seq<nat>, workers: seq<Worker>, started: nat, results: seq<nat>,
                            collected: seq<nat>, out: seq<R>, firstExc: Option<nat>)

  datatype Step = Start | Take(w: nat) | Retire(w: nat) | Post(w: nat) | Collect

  function Upfrom(n: nat): seq<nat> { seq(n, i => i) }

  function Pool(maxWorkers: int, n: nat): nat {
    if maxWorkers <= 0 then 0 else if maxWorkers < n then maxWorkers else n
  }

  function Init<R>(n: nat, maxWorkers: int): State<R> {
    State(Upfrom(n), seq(Pool(maxWorkers, n), _ => Idle), 0, [], [], [], None)
  }

  /** A worker posts once its fetch has come back. */
  predicate Enabled<R>(s: State<R>, outcomes: seq<Outcome<R>>, step: Step) {
    match step
    case Start => s.started < |s.workers|
    case Take(w) => w < s.started && w < |s.workers| && s.workers[w].Idle? && s.work != []
    case Retire(w) => w < s.started && w < |s.workers| && s.workers[w].Idle? && s.work == []
    case Post(w) => w < |s.workers| && s.workers[w].Holding? && !OutcomeOf(outcomes, s.workers[w].item).NeverReturns?
    case Collect => s.started >= |s.workers| && s.results != [] && |s.collected| < |outcomes|
  }

  function OutcomeOf<R>(outcomes: seq<Outcome<R>>, i: nat): Outcome<R> {
    if i < |outcomes| then outcomes[i] else Nothing
  }

  function Next<R>(s: State<R>, outcomes: seq<Outcome<R>>, step: Step): State<R>
    requires Enabled(s, outcomes, step)
  {
    match step
    case Start => s.(started := s.started + 1)
    case Take(w) => s.(work := s.work[1..], workers := s.workers[w := Holding(s.work[0])])
    case Retire(w) => s.(workers := s.workers[w := Retired])
    case Post(w) => s.(workers := s.workers[w := Idle], results := s.results + [s.workers[w].item])
    case Collect =>
      var i := s.results[0];
      s.(results := s.results[1..], collected := s.collected + [i],
         out := if OutcomeOf(outcomes, i).Value? then s.out + [OutcomeOf(outcomes, i).value] else s.out,
         firstExc := if OutcomeOf(outcomes, i).Raises? && s.firstExc.None? then Some(i) else s.firstExc)
  }

  // ----- exactly once -----

  function Times(items: seq<nat>, i: nat): nat {
    if items == [] then 0 else Times(items[..|items| - 1], i) + if items[|items| - 1] == i then 1 else 0
  }

  function InHand(workers: seq<Worker>, i: nat): nat {
    if workers == [] then 0
    else InHand(workers[..|workers| - 1], i) + if workers[|workers| - 1] == Holding(i) then 1 else 0
  }

  /** Wherever it is, each item is in exactly one place. */
  ghost predicate EachOnce<R>(s: State<R>, n: nat) {
    forall i: nat ::
      Times(s.work, i) + InHand(s.workers, i) + Times(s.results, i) + Times(s.collected, i) == if i < n then 1 else 0
  }

  lemma TimesSnoc(items: seq<nat>, x: nat, i: nat)
    ensures Times(items + [x], i) == Times(items, i) + if x == i then 1 else 0
  {
    assert (items + [x])[..|items|] == items;
  }

  lemma {:induction false} TimesCons(items: seq<nat>, i: nat)
    requires items != []
    ensures Times(items, i) == Times(items[1..], i) + if items[0] == i then 1 else 0
    decreases |items|
  {
    var n := |items| - 1;
    if n > 0 {
      TimesCons(items[..n], i);
      assert items[..n][1..] == items[1..][..n - 1];
      assert items[1..][n - 1] == items[n];
    } else {
      assert items[1..] == [];
    }
  }

  lemma {:induction false} InHandUpdate(workers: seq<Worker>, w: nat, new': Worker, i: nat)
    requires w < |workers|
    ensures InHand(workers[w := new'], i) + (if workers[w] == Holding(i) then 1 else 0)
         == InHand(workers, i) + if new' == Holding(i) then 1 else 0
  {
    var n := |workers| - 1;
    if w < n {
      InHandUpdate(workers[..n], w, new', i);
      assert workers[w := new'][..n] == workers[..n][w := new'];
    } else {
      assert workers[w := new'][..n] == workers[..n];
    }
  }

  lemma {:induction false} TimesUpfrom(n: nat, i: nat)
    ensures Times(Upfrom(n), i) == if i < n then 1 else 0
  {
    if n > 0 {
      TimesUpfrom(n - 1, i);
      assert Upfrom(n)[..n - 1] == Upfrom(n - 1);
    }
  }

  lemma {:induction false} NoneInHand(k: nat, i: nat)
    ensures InHand(seq(k, _ => Idle), i) == 0
  {
    if k > 0 {
      NoneInHand(k - 1, i);
      assert seq(k, _ => Idle)[..k - 1] == seq(k - 1, _ => Idle);
    }
  }

  lemma InitOnce<R>(n: nat, maxWorkers: int)
    ensures EachOnce<R>(Init(n, maxWorkers), n)
  {
    forall i: nat ensures Times(Upfrom(n), i) + InHand(seq(Pool(maxWorkers, n), _ => Idle), i) == if i < n then 1 else 0 {
      TimesUpfrom(n, i);
      NoneInHand(Pool(maxWorkers, n), i);
    }
  }

  lemma StepOnce<R>(s: State<R>, outcomes: seq<Outcome<R>>, step: Step)
    requires EachOnce(s, |outcomes|) && Enabled(s, outcomes, step)
    ensures EachOnce(Next(s, outcomes, step), |outcomes|)
  {
    var t, n := Next(s, outcomes, step), |outcomes|;
    forall i: nat
      ensures Times(t.work, i) + InHand(t.workers, i) + Times(t.results, i) + Times(t.collected, i) == if i < n then 1 else 0
    {
      assert Times(s.work, i) + InHand(s.workers, i) + Times(s.results, i) + Times(s.collected, i) == if i < n then 1 else 0;
      match step
      case Start =>
      case Take(w) => TimesCons(s.work, i); InHandUpdate(s.workers, w, Holding(s.work[0]), i);
      case Retire(w) => InHandUpdate(s.workers, w, Retired, i);
      case Post(w) => InHandUpdate(s.workers, w, Idle, i); TimesSnoc(s.results, s.workers[w].item, i);
      case Collect => TimesCons(s.results, i); TimesSnoc(s.collected, s.results[0], i);
    }
  }

  // ----- what the caller has gathered so far -----

  function ValuesOf<R>(outcomes: seq<Outcome<R>>, order: seq<nat>): seq<R> {
    if order == [] then []
    else
      var last := OutcomeOf(outcomes, order[|order| - 1]);
      ValuesOf(outcomes, order[..|order| - 1]) + if last.Value? then [last.value] else []
  }

  ghost predicate Faithful<R>(s: State<R>, outcomes: seq<Outcome<R>>) {
    && |s.collected| <= |outcomes| && s.out == ValuesOf(outcomes, s.collected)
    && (s.firstExc.Some? ==> s.firstExc.value in s.collected && OutcomeOf(outcomes, s.firstExc.value).Raises?)
    && (s.firstExc.None? ==> forall i :: i in s.collected ==> !OutcomeOf(outcomes, i).Raises?)
  }

  lemma StepFaithful<R>(s: State<R>, outcomes: seq<Outcome<R>>, step: Step)
    requires Faithful(s, outcomes) && Enabled(s, outcomes, step)
    ensures Faithful(Next(s, outcomes, step), outcomes)
  {
    if step.Collect? {
      var t := Next(s, outcomes, step);
      assert t.collected[..|s.collected|] == s.collected;
    }
  }

  // ----- every schedule -----

  /** Where an interleaving of launches, workers and collector leads from the
      start; None if it asks for a step that is not possible. */
  function After<R>(outcomes: seq<Outcome<R>>, maxWorkers: int, schedule: seq<Step>): Option<State<R>> {
    if schedule == [] then Some(Init(|outcomes|, maxWorkers))
    else
      match After(outcomes, maxWorkers, schedule[..|schedule| - 1])
      case None => None
      case Some(s) =>
        var step := schedule[|schedule| - 1];
        if Enabled(s, outcomes, step) then Some(Next(s, outcomes, step)) else None
  }

  ghost predicate Sound<R>(outcomes: seq<Outcome<R>>, maxWorkers: int, s: State<R>) {
    && EachOnce(s, |outcomes|) && Faithful(s, outcomes)
    && |s.workers| == Pool(maxWorkers, |outcomes|) && s.started <= |s.workers|
    && (forall w :: s.started <= w < |s.workers| ==> s.workers[w].Idle?)
    && (s.work != [] ==> forall w :: 0 <= w < |s.workers| ==> !s.workers[w].Retired?)
  }

  // ----- it ends -----

  function Busy(workers: seq<Worker>): nat {
    if workers == [] then 0
    else
      var last := workers[|workers| - 1];
      Busy(workers[..|workers| - 1]) + if last.Holding? then 3 else if last.Idle? then 1 else 0
  }

  /** Work left in the system; every step spends some. */
  function Left<R>(s: State<R>): int {
    |s.workers| - s.started + 3 * |s.work| + Busy(s.workers) + |s.results|
  }

  lemma {:induction false} BusyUpdate(workers: seq<Worker>, w: nat, new': Worker)
    requires w < |workers|
    ensures Busy(workers[w := new']) - Busy([new']) == Busy(workers) - Busy([workers[w]])
  {
    var n := |workers| - 1;
    assert [new'][..0] == [] && [workers[w]][..0] == [];
    if w < n {
      BusyUpdate(workers[..n], w, new');
      assert workers[w := new'][..n] == workers[..n][w := new'];
    } else {
      assert workers[w := new'][..n] == workers[..n];
    }
  }

  lemma {:induction false} NoneBusy(k: nat)
    ensures Busy(seq(k, _ => Idle)) == k
  {
    if k > 0 {
      NoneBusy(k - 1);
      assert seq(k, _ => Idle)[..k - 1] == seq(k - 1, _ => Idle);
    }
  }

  lemma StepSpends<R>(s: State<R>, outcomes: seq<Outcome<R>>, step: Step)
    requires Enabled(s, outcomes, step)
    ensures Left(Next(s, outcomes, step)) < Left(s)
  {
    match step
    case Take(w) => BusyUpdate(s.workers, w, Holding(s.work[0]));
    case Retire(w) => BusyUpdate(s.workers, w, Retired);
    case Post(w) => BusyUpdate(s.workers, w, Idle);
    case _ =>
  }

  /** However the steps interleave, each item is in exactly one place, what has
      been collected is what was returned, and every step spends some of a
      budget fixed at the start: no schedule is longer than it. */
  lemma {:induction false} SchedulesAreSound<R>(outcomes: seq<Outcome<R>>, maxWorkers: int, schedule: seq<Step>)
    requires After(outcomes, maxWorkers, schedule).Some?
    ensures var s := After(outcomes, maxWorkers, schedule).value;
      Sound(outcomes, maxWorkers, s) && Left(s) + |schedule| <= 3 * |outcomes| + 2 * Pool(maxWorkers, |outcomes|)
  {
    if schedule == [] {
      InitOnce<R>(|outcomes|, maxWorkers);
      NoneBusy(Pool(maxWorkers, |outcomes|));
    } else {
      var step := schedule[|schedule| - 1];
      SchedulesAreSound(outcomes, maxWorkers, schedule[..|schedule| - 1]);
      var s := After(outcomes, maxWorkers, schedule[..|schedule| - 1]).value;
      StepOnce(s, outcomes, step);
      StepFaithful(s, outcomes, step);
      StepSpends(s, outcomes, step);
      StepIdle(s, outcomes, step, maxWorkers);
    }
  }

  lemma StepIdle<R>(s: State<R>, outcomes: seq<Outcome<R>>, step: Step, maxWorkers: int)
    requires Sound(outcomes, maxWorkers, s) && Enabled(s, outcomes, step)
    ensures var t := Next(s, outcomes, step);
      && |t.workers| == |s.workers| && t.started <= |t.workers|
      && (forall w :: t.started <= w < |t.workers| ==> t.workers[w].Idle?)
      && (t.work != [] ==> forall w :: 0 <= w < |t.workers| ==> !t.workers[w].Retired?)
  {
  }

  // ----- it never gets stuck -----

  ghost predicate Stuck<R>(s: State<R>, outcomes: seq<Outcome<R>>) { forall step: Step :: !Enabled(s, outcomes, step) }

  predicate AllReturn<R>(outcomes: seq<Outcome<R>>) { forall i :: 0 <= i < |outcomes| ==> !outcomes[i].NeverReturns? }

  lemma {:induction false} SomeoneHolds(workers: seq<Worker>, i: nat)
    requires InHand(workers, i) > 0
    ensures exists w :: 0 <= w < |workers| && workers[w] == Holding(i)
  {
    var n := |workers| - 1;
    if workers[n] != Holding(i) {
      SomeoneHolds(workers[..n], i);
      var w :| 0 <= w < n && workers[..n][w] == Holding(i);
      assert workers[w] == Holding(i);
    }
  }

  /** Distinct small numbers: `n` of them cannot be fewer than all below `n`. */
  lemma {:induction false} MissingItem(items: seq<nat>, n: nat)
    requires |items| < n && forall i: nat :: Times(items, i) <= 1
    ensures exists i: nat :: i < n && Times(items, i) == 0
    decreases n
  {
    if n == 1 {
      assert Times(items, 0) == 0;
    } else if Times(items, n - 1) == 0 {
    } else {
      var k := TakeOut(items, n - 1);
      var rest := items[..k] + items[k + 1..];
      forall i: nat ensures Times(rest, i) <= 1 {
        WithoutOne(items, k, i);
      }
      MissingItem(rest, n - 1);
      var i: nat :| i < n - 1 && Times(rest, i) == 0;
      WithoutOne(items, k, i);
      assert i < n && Times(items, i) == 0;
    }
  }

  lemma LastCounts(items: seq<nat>)
    requires items != []
    ensures Times(items, items[|items| - 1]) > 0
  {
  }

  lemma {:induction false} TakeOut(items: seq<nat>, i: nat) returns (k: nat)
    requires Times(items, i) > 0
    ensures k < |items| && items[k] == i
  {
    var n := |items| - 1;
    if items[n] == i {
      k := n;
    } else {
      k := TakeOut(items[..n], i);
    }
  }

  lemma {:induction false} TimesConcat(a: seq<nat>, b: seq<nat>, i: nat)
    ensures Times(a + b, i) == Times(a, i) + Times(b, i)
    decreases |b|
  {
    if b == [] {
      assert a + b == a;
    } else {
      var n := |b| - 1;
      TimesConcat(a, b[..n], i);
      assert a + b == a + b[..n] + [b[n]];
      TimesSnoc(a + b[..n], b[n], i);
    }
  }

  lemma WithoutOne(items: seq<nat>, k: nat, i: nat)
    requires k < |items|
    ensures Times(items, i) == Times(items[..k] + items[k + 1..], i) + if items[k] == i then 1 else 0
  {
    assert items == items[..k] + ([items[k]] + items[k + 1..]);
    TimesConcat(items[..k], [items[k]] + items[k + 1..], i);
    TimesConcat([items[k]], items[k + 1..], i);
    TimesConcat(items[..k], items[k + 1..], i);
    TimesSnoc([], items[k], i);
    assert [] + [items[k]] == [items[k]];
  }

  /** With at least one worker allowed and fetches that all come back, every reachable
      state either has collected all items or can take another step. */
  lemma NeverStuck<R>(outcomes: seq<Outcome<R>>, maxWorkers: int, s: State<R>)
    requires Sound(outcomes, maxWorkers, s) && maxWorkers >= 1 && AllReturn(outcomes) && |s.collected| < |outcomes|
    ensures !Stuck(s, outcomes)
  {
    var n := |outcomes|;
    forall i: nat ensures Times(s.collected, i) <= 1 {
      assert Times(s.work, i) + InHand(s.workers, i) + Times(s.results, i) + Times(s.collected, i) == if i < n then 1 else 0;
    }
    MissingItem(s.collected, n);
    var i: nat :| i < n && Times(s.collected, i) == 0;
    assert Times(s.work, i) + InHand(s.workers, i) + Times(s.results, i) + Times(s.collected, i) == 1;
    assert |s.workers| >= 1;
    if s.started < |s.workers| {
      assert Enabled(s, outcomes, Start);
    } else if InHand(s.workers, i) > 0 {
      SomeoneHolds(s.workers, i);
      var w :| 0 <= w < |s.workers| && s.workers[w] == Holding(i);
      assert Enabled(s, outcomes, Post(w));
    } else if s.results != [] {
      assert Enabled(s, outcomes, Collect);
    } else if s.workers[0].Holding? {
      assert Enabled(s, outcomes, Post(0));
    } else {
      assert s.work != [] && Enabled(s, outcomes, Take(0));
    }
  }

  /** Only what came back was posted. */
  predicate CameBack<R>(outcomes: seq<Outcome<R>>, items: seq<nat>) {
    forall k :: 0 <= k < |items| ==> !OutcomeOf(outcomes, items[k]).NeverReturns?
  }

  lemma {:induction false} PostedCameBack<R>(outcomes: seq<Outcome<R>>, maxWorkers: int, schedule: seq<Step>)
    requires After(outcomes, maxWorkers, schedule).Some?
    ensures var s := After(outcomes, maxWorkers, schedule).value;
      CameBack(outcomes, s.results) && CameBack(outcomes, s.collected)
  {
    if schedule != [] {
      PostedCameBack(outcomes, maxWorkers, schedule[..|schedule| - 1]);
    }
  }

  /** The caller waits for more than can ever come. */
  predicate CannotFinish<R>(outcomes: seq<Outcome<R>>, maxWorkers: int) {
    |outcomes| > 0 && (maxWorkers <= 0 || !AllReturn(outcomes))
  }

  lemma {:induction false} NoWorkerNothingCollected<R>(outcomes: seq<Outcome<R>>, maxWorkers: int, schedule: seq<Step>)
    requires After(outcomes, maxWorkers, schedule).Some? && maxWorkers <= 0
    ensures var s := After(outcomes, maxWorkers, schedule).value; s.collected == [] && s.results == [] && s.workers == []
  {
    if schedule != [] {
      NoWorkerNothingCollected(outcomes, maxWorkers, schedule[..|schedule| - 1]);
    }
  }

  /** No schedule at all collects everything when the call cannot finish. */
  lemma NeverFinishes<R>(outcomes: seq<Outcome<R>>, maxWorkers: int, schedule: seq<Step>)
    requires After(outcomes, maxWorkers, schedule).Some? && CannotFinish(outcomes, maxWorkers)
    ensures |After(outcomes, maxWorkers, schedule).value.collected| < |outcomes|
  {
    var s := After(outcomes, maxWorkers, schedule).value;
    if maxWorkers <= 0 {
      NoWorkerNothingCollected(outcomes, maxWorkers, schedule);
    } else {
      SchedulesAreSound(outcomes, maxWorkers, schedule);
      PostedCameBack(outcomes, maxWorkers, schedule);
      if |s.collected| >= |outcomes| {
        var i :| 0 <= i < |outcomes| && outcomes[i].NeverReturns?;
        AllCollected(s, |outcomes|, i);
        var k := TakeOut(s.collected, i);
      }
    }
  }

  /** Wherever a schedule runs out of steps, whether everything has been collected is
      settled by the inputs alone. */
  lemma StuckMeans<R>(outcomes: seq<Outcome<R>>, maxWorkers: int, schedule: seq<Step>)
    requires After(outcomes, maxWorkers, schedule).Some? && Stuck(After(outcomes, maxWorkers, schedule).value, outcomes)
    ensures |After(outcomes, maxWorkers, schedule).value.collected| < |outcomes| <==> CannotFinish(outcomes, maxWorkers)
  {
    SchedulesAreSound(outcomes, maxWorkers, schedule);
    var s := After(outcomes, maxWorkers, schedule).value;
    if CannotFinish(outcomes, maxWorkers) {
      NeverFinishes(outcomes, maxWorkers, schedule);
    } else if |s.collected| < |outcomes| {
      NeverStuck(outcomes, maxWorkers, s);
    }
  }

  /** Every schedule can be run on until no step is left. */
  lemma {:induction false} RunOn<R>(outcomes: seq<Outcome<R>>, maxWorkers: int, schedule: seq<Step>) returns (longer: seq<Step>)
    requires After(outcomes, maxWorkers, schedule).Some?
    ensures After(outcomes, maxWorkers, longer).Some? && Stuck(After(outcomes, maxWorkers, longer).value, outcomes)
    decreases 3 * |outcomes| + 2 * Pool(maxWorkers, |outcomes|) - |schedule|
  {
    SchedulesAreSound(outcomes, maxWorkers, schedule);
    var s := After(outcomes, maxWorkers, schedule).value;
    LeftIsNonNegative(outcomes, maxWorkers, s);
    if Stuck(s, outcomes) {
      longer := schedule;
    } else {
      var step: Step :| Enabled(s, outcomes, step);
      assert (schedule + [step])[..|schedule|] == schedule;
      StepSpends(s, outcomes, step);
      SchedulesAreSound(outcomes, maxWorkers, schedule + [step]);
      LeftIsNonNegative(outcomes, maxWorkers, Next(s, outcomes, step));
      longer := RunOn(outcomes, maxWorkers, schedule + [step]);
    }
  }

  lemma LeftIsNonNegative<R>(outcomes: seq<Outcome<R>>, maxWorkers: int, s: State<R>)
    requires Sound(outcomes, maxWorkers, s)
    ensures Left(s) >= 0
  {
  }

  /** The exact condition: the call can hang, indeed does under every schedule, if and
      only if there is something to fetch and either no worker is allowed or some
      fetch never comes back. */
  lemma HangsIff<R>(outcomes: seq<Outcome<R>>, maxWorkers: int)
    ensures (exists schedule ::
               var s := After(outcomes, maxWorkers, schedule);
               s.Some? && Stuck(s.value, outcomes) && |s.value.collected| < |outcomes|)
       <==> CannotFinish(outcomes, maxWorkers)
    ensures CannotFinish(outcomes, maxWorkers)
       <==> forall schedule ::
              var s := After(outcomes, maxWorkers, schedule);
              s.Some? && Stuck(s.value, outcomes) ==> |s.value.collected| < |outcomes|
  {
    assert After(outcomes, maxWorkers, []).Some?;
    var last := RunOn(outcomes, maxWorkers, []);
    StuckMeans(outcomes, maxWorkers, last);
    forall schedule |
      var s := After(outcomes, maxWorkers, schedule);
      s.Some? && Stuck(s.value, outcomes)
      ensures |After(outcomes, maxWorkers, schedule).value.collected| < |outcomes| <==> CannotFinish(outcomes, maxWorkers)
    {
      StuckMeans(outcomes, maxWorkers, schedule);
    }
  }

  // ----- what a finished call gives back -----

  /** Reordering the items handled reorders the values and nothing else. */
  lemma {:induction false} ValuesOfPermuted<R>(outcomes: seq<Outcome<R>>, n: nat, order: seq<nat>)
    requires forall i: nat :: Times(order, i) == if i < n then 1 else 0
    ensures multiset(ValuesOf(outcomes, order)) == multiset(ValuesOf(outcomes, Upfrom(n)))
    decreases n
  {
    if n == 0 {
      if order != [] {
        LastCounts(order);
      }
    } else {
      var k := TakeOut(order, n - 1);
      var rest := order[..k] + order[k + 1..];
      forall i: nat ensures Times(rest, i) == if i < n - 1 then 1 else 0 {
        WithoutOne(order, k, i);
      }
      ValuesOfPermuted(outcomes, n - 1, rest);
      ValuesWithoutOne(outcomes, order, k);
      assert Upfrom(n)[..n - 1] == Upfrom(n - 1);
    }
  }

  function One<R>(o: Outcome<R>): seq<R> { if o.Value? then [o.value] else [] }

  lemma {:induction false} ValuesConcat<R>(outcomes: seq<Outcome<R>>, a: seq<nat>, b: seq<nat>)
    ensures ValuesOf(outcomes, a + b) == ValuesOf(outcomes, a) + ValuesOf(outcomes, b)
    decreases |b|
  {
    if b == [] {
      assert a + b == a;
    } else {
      var n := |b| - 1;
      ValuesConcat(outcomes, a, b[..n]);
      assert (a + b)[..|a + b| - 1] == a + b[..n];
    }
  }

  lemma ValuesWithoutOne<R>(outcomes: seq<Outcome<R>>, order: seq<nat>, k: nat)
    requires k < |order|
    ensures multiset(ValuesOf(outcomes, order))
         == multiset(ValuesOf(outcomes, order[..k] + order[k + 1..])) + multiset(One(OutcomeOf(outcomes, order[k])))
  {
    assert order == order[..k] + ([order[k]] + order[k + 1..]);
    ValuesConcat(outcomes, order[..k], [order[k]] + order[k + 1..]);
    ValuesConcat(outcomes, [order[k]], order[k + 1..]);
    ValuesConcat(outcomes, order[..k], order[k + 1..]);
    assert [order[k]][..0] == [];
    assert ValuesOf(outcomes, [order[k]]) == One(OutcomeOf(outcomes, order[k]));
  }

  /** When everything is collected: each item was handled exactly once; the call
      raises if and only if some fetch raised, with that fetch's exception; and
      otherwise returns exactly the multiset of the values fetched. */
  lemma FinishedCall<R>(outcomes: seq<Outcome<R>>, maxWorkers: int, s: State<R>)
    requires Sound(outcomes, maxWorkers, s) && |s.collected| == |outcomes|
    ensures forall i: nat :: Times(s.collected, i) == if i < |outcomes| then 1 else 0
    ensures s.firstExc.Some? <==> exists i :: 0 <= i < |outcomes| && outcomes[i].Raises?
    ensures s.firstExc.Some? ==> s.firstExc.value < |outcomes| && outcomes[s.firstExc.value].Raises?
    ensures multiset(s.out) == multiset(ValuesOf(outcomes, Upfrom(|outcomes|)))
  {
    var n := |outcomes|;
    forall i: nat ensures Times(s.collected, i) == if i < n then 1 else 0 {
      AllCollected(s, n, i);
    }
    ValuesOfPermuted(outcomes, n, s.collected);
    forall i: nat | i < n ensures i in s.collected {
      var k := TakeOut(s.collected, i);
    }
    if i :| 0 <= i < n && outcomes[i].Raises? {
      assert i in s.collected && OutcomeOf(outcomes, i).Raises?;
    }
  }

  /** Holding `n` distinct items below `n` means holding them all. */
  lemma AllCollected<R>(s: State<R>, n: nat, i: nat)
    requires EachOnce(s, n) && |s.collected| == n
    ensures Times(s.collected, i) == if i < n then 1 else 0
  {
    forall j: nat ensures Times(s.collected, j) <= if j < n then 1 else 0 {
      assert Times(s.work, j) + InHand(s.workers, j) + Times(s.results, j) + Times(s.collected, j) == if j < n then 1 else 0;
    }
    if i < n && Times(s.collected, i) == 0 {
      DistinctFit(s.collected, n, i);
    }
  }

  /** Distinct numbers below `n`, none of them `gap`, are fewer than `n`. */
  lemma {:induction false} DistinctFit(items: seq<nat>, n: nat, gap: nat)
    requires gap < n && Times(items, gap) == 0
    requires forall j: nat :: Times(items, j) <= if j < n then 1 else 0
    ensures |items| < n
    decreases n
  {
    if items != [] {
      var top := n - 1;
      if Times(items, top) == 0 {
        if gap < top {
          DistinctFit(items, top, gap);
        } else if top > 0 {
          AtMost(items, top);
        } else {
          LastCounts(items);
        }
      } else {
        var k := TakeOut(items, top);
        var rest := items[..k] + items[k + 1..];
        forall j: nat ensures Times(rest, j) <= if j < top then 1 else 0 {
          WithoutOne(items, k, j);
        }
        WithoutOne(items, k, gap);
        DistinctFit(rest, top, gap);
      }
    }
  }

  lemma {:induction false} AtMost(items: seq<nat>, n: nat)
    requires forall j: nat :: Times(items, j) <= if j < n then 1 else 0
    ensures |items| <= n
    decreases n
  {
    if items != [] {
      var x := items[|items| - 1];
      assert Times(items, x) > 0;
      var rest := items;
      if Times(items, n - 1) > 0 {
        var k := TakeOut(items, n - 1);
        rest := items[..k] + items[k + 1..];
        forall j: nat ensures Times(rest, j) <= if j < n - 1 then 1 else 0 {
          WithoutOne(items, k, j);
        }
      }
      AtMost(rest, n - 1);
    }
  }
}
