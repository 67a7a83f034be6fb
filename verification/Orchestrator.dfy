/** The orchestrator as an object: it holds the managed positions, changes them
    and the broker in place, phase by phase, and is proved to leave the desk
    exactly where `Cycles.RunCycle` says. */
module Orchestrators {
  import opened Common
  import opened Ratchets
  import opened Brokers
  import opened OrderManagers
  import opened Reconcilers
  import opened Cycles
  import CB = CircuitBreakers

  /** No two positions share an object, and none shares one with the broker. */
  ghost predicate Separate(ps: seq<ManagedPosition>, broker: Broker) {
    && (forall i, j :: 0 <= i < j < |ps| ==> ps[i] != ps[j] && ps[i].ratchet.Object() != ps[j].ratchet.Object())
    && (forall i, j :: 0 <= i < |ps| && 0 <= j < |ps| ==> ps[i].ratchet.Object() != ps[j])
    && (forall i :: 0 <= i < |ps| ==> ps[i].ratchet.Object() != broker)
  }

  ghost function Ladders(ps: seq<ManagedPosition>): set<object> {
    set i | 0 <= i < |ps| :: ps[i].ratchet.Object()
  }

  ghost function Views(ps: seq<ManagedPosition>): (book: seq<Pos>)
    reads ps, Ladders(ps)
    ensures |book| == |ps|
    ensures forall i :: 0 <= i < |ps| ==> book[i] == ps[i].View()
  {
    seq(|ps|, i requires 0 <= i < |ps| reads ps, Ladders(ps) => ps[i].View())
  }

  lemma ShrinkSeparate(kept: seq<ManagedPosition>, rest: seq<ManagedPosition>, keep: bool, broker: Broker)
    requires rest != [] && Separate(kept + rest, broker)
    ensures Separate(kept + (if keep then [rest[0]] else []) + rest[1..], broker)
    ensures Ladders(kept + (if keep then [rest[0]] else []) + rest[1..]) <= Ladders(kept + rest)
  {
    var all, n := kept + rest, |kept|;
    var shrunk := kept + (if keep then [rest[0]] else []) + rest[1..];
    if keep {
      assert shrunk == all;
    } else {
      forall i | 0 <= i < |shrunk| ensures shrunk[i] == all[if i < n then i else i + 1] {
      }
    }
  }

  lemma InLadders(kept: seq<ManagedPosition>, rest: seq<ManagedPosition>)
    requires rest != []
    ensures rest[0] in kept + rest && rest[0].ratchet.Object() in Ladders(kept + rest)
  {
    assert (kept + rest)[|kept|] == rest[0];
  }

  /** A phase picked up midway: `done` dealt with, `rest` to come, unless raised. */
  function Resumed(c: CycleInput, task: Task, e: Env, done: seq<Pos>, rest: seq<Pos>, errors: nat, outcome: Outcome): Phase {
    if outcome.Raised? then Phase(e, done + rest, errors, outcome)
    else
      var f := ForEach(c, task, e, rest, errors);
      f.(book := done + f.book)
  }

  /** A phase run to its end, or to its first raise, is the phase itself. */
  lemma ResumedEnds(c: CycleInput, task: Task, e0: Env, before: seq<Pos>, errors0: nat,
                    e: Env, done: seq<Pos>, rest: seq<Pos>, errors: nat, outcome: Outcome)
    requires Resumed(c, task, e, done, rest, errors, outcome) == Resumed(c, task, e0, [], before, errors0, Returned(true))
    requires outcome.Raised? || rest == []
    ensures ForEach(c, task, e0, before, errors0)
         == Phase(e, done + rest, errors, if outcome.Raised? then outcome else Returned(true))
  {
    hide Tend;
    var f := ForEach(c, task, e0, before, errors0);
    assert [] + f.book == f.book;
  }

  lemma ResumedStep(c: CycleInput, task: Task, e: Env, done: seq<Pos>, rest: seq<Pos>, errors: nat)
    requires rest != []
    ensures var t := Tend(c, task, e, rest[0], errors);
      Resumed(c, task, e, done, rest, errors, Returned(true))
      == Resumed(c, task, t.env, done + Kept(t), rest[1..], t.errors, t.outcome)
  {
    var t := Tend(c, task, e, rest[0], errors);
    if t.outcome.Raised? {
      assert done + (Kept(t) + rest[1..]) == done + Kept(t) + rest[1..];
    } else {
      var f := ForEach(c, task, t.env, rest[1..], t.errors);
      assert done + (Kept(t) + f.book) == done + Kept(t) + f.book;
    }
  }

  lemma ViewsTail(ps: seq<ManagedPosition>)
    requires ps != []
    ensures Views(ps[1..]) == Views(ps)[1..]
  {
    forall i | 0 <= i < |ps| - 1 ensures Views(ps[1..])[i] == Views(ps)[1..][i] {
      assert ps[1..][i] == ps[i + 1];
    }
  }

  /** The objects of the first of `rest` belong to no other position. */
  lemma OthersApart(kept: seq<ManagedPosition>, rest: seq<ManagedPosition>, broker: Broker)
    requires rest != [] && Separate(kept + rest, broker)
    ensures forall q :: q in kept + rest[1..] ==>
      && q != rest[0] && q.ratchet.Object() != rest[0].ratchet.Object()
      && q != rest[0].ratchet.Object() && q.ratchet.Object() != rest[0] && q.ratchet.Object() != broker
  {
    var all, others, n := kept + rest, kept + rest[1..], |kept|;
    forall q | q in others
      ensures q != rest[0] && q.ratchet.Object() != rest[0].ratchet.Object()
      ensures q != rest[0].ratchet.Object() && q.ratchet.Object() != rest[0] && q.ratchet.Object() != broker
    {
      var i :| 0 <= i < |others| && others[i] == q;
      assert q == all[if i < n then i else i + 1] && rest[0] == all[n];
    }
  }

  lemma ViewsConcat(a: seq<ManagedPosition>, b: seq<ManagedPosition>)
    ensures Views(a + b) == Views(a) + Views(b)
  {
    forall i | 0 <= i < |a + b| ensures Views(a + b)[i] == (Views(a) + Views(b))[i] {
      assert (a + b)[i] == if i < |a| then a[i] else b[i - |a|];
    }
  }

  function Placed(ps: seq<ManagedPosition>, p: ManagedPosition, i: Option<nat>): seq<ManagedPosition>
    requires i.Some? ==> i.value < |ps|
  {
    if i.Some? then ps[i.value := p] else ps + [p]
  }

  lemma PlacedSeparate(ps: seq<ManagedPosition>, p: ManagedPosition, i: Option<nat>, broker: Broker)
    requires Separate(ps + [p], broker) && i == IndexOf(Views(ps), p.symbol)
    ensures Separate(Placed(ps, p, i), broker)
    ensures Ladders(Placed(ps, p, i)) <= Ladders(ps) + {p.ratchet.Object()}
    ensures forall q :: q in Placed(ps, p, i) ==> q in ps || q == p
    ensures Views(Placed(ps, p, i)) == Put(Views(ps), p.View())
  {
    hide Views, IndexOf, Put;
    var all, ns := ps + [p], Placed(ps, p, i);
    forall k | 0 <= k < |ns|
      ensures ns[k] == all[if i.Some? && k == i.value then |ps| else k]
    {
    }
    SeparateSelect(all, ns, k => if i.Some? && k == i.value then |ps| else k, broker);
    PlacedViews(ps, p, i);
  }

  lemma PlacedViews(ps: seq<ManagedPosition>, p: ManagedPosition, i: Option<nat>)
    requires i == IndexOf(Views(ps), p.symbol)
    ensures Views(Placed(ps, p, i)) == Put(Views(ps), p.View())
  {
    var ns, book := Placed(ps, p, i), Put(Views(ps), p.View());
    forall k | 0 <= k < |ns| ensures Views(ns)[k] == book[k] {
      assert Views(ns)[k] == ns[k].View();
    }
  }

  /** Picking distinct elements of a separate sequence leaves it separate. */
  lemma SeparateSelect(all: seq<ManagedPosition>, ns: seq<ManagedPosition>, pick: int -> int, broker: Broker)
    requires Separate(all, broker)
    requires forall k :: 0 <= k < |ns| ==> 0 <= pick(k) < |all| && ns[k] == all[pick(k)]
    requires forall j, k :: 0 <= j < k < |ns| ==> pick(j) != pick(k)
    ensures Separate(ns, broker)
  {
    forall j, k | 0 <= j < k < |ns|
      ensures ns[j] != ns[k] && ns[j].ratchet.Object() != ns[k].ratchet.Object()
    {
      if pick(j) < pick(k) { } else { assert pick(k) < pick(j); }
    }
  }

  lemma SameViews(book: seq<Pos>, ps: seq<ManagedPosition>)
    requires |book| == |ps| && forall i :: 0 <= i < |ps| ==> book[i] == ps[i].View()
    ensures Views(ps) == book
  {
  }

  lemma FreshSeparate(ps: seq<ManagedPosition>, p: ManagedPosition, broker: Broker)
    requires Separate(ps, broker)
    requires p !in ps && p.ratchet.Object() !in Ladders(ps) && p.ratchet.Object() != broker && p.ratchet.Object() != p
    requires forall q :: q in ps ==> p.ratchet.Object() != q && q.ratchet.Object() != p
    ensures Separate(ps + [p], broker)
  {
    assert forall k :: 0 <= k < |ps| ==> ps[k].ratchet.Object() in Ladders(ps);
  }

  lemma ConsiderStep(c: CycleInput, s: EntryPhase, rest: seq<(Symbol, Verdict)>)
    requires rest != [] && s.outcome.Returned?
    ensures ConsiderEntries(c, s, rest)
         == ConsiderEntries(c, if Tracked(s.book, rest[0].0) then s else ConsiderOne(c, s, rest[0].0, rest[0].1), rest[1..])
  {
  }

  lemma ConsiderEnds(c: CycleInput, s: EntryPhase, rest: seq<(Symbol, Verdict)>)
    requires rest == [] || s.outcome.Raised?
    ensures ConsiderEntries(c, s, rest) == s
  {
  }

  /** Only stop and entry failures are isolated and counted. */
  predicate Counts(task: Task) { task.RaiseTask? || task.RefreshTask? }

  lemma {:induction false} ForEachCounts(c: CycleInput, task: Task, e: Env, todo: seq<Pos>, errors: nat)
    requires !Counts(task)
    ensures ForEach(c, task, e, todo, errors).errors == errors
    decreases |todo|
  {
    if todo != [] {
      var t := Tend(c, task, e, todo[0], errors);
      ForEachCounts(c, task, t.env, todo[1..], t.errors);
    }
  }

  lemma NoErrorsCounted(c: CycleInput)
    ensures forall task, e, todo, errors | !Counts(task) :: ForEach(c, task, e, todo, errors).errors == errors
  {
    forall task, e, todo, errors | !Counts(task) ensures ForEach(c, task, e, todo, errors).errors == errors {
      ForEachCounts(c, task, e, todo, errors);
    }
  }

  class Orchestrator {
    const broker: Broker
    const manager: OrderManager
    var positions: seq<ManagedPosition>
    var errors: nat

    ghost predicate Valid()
      reads this
    {
      manager.broker == broker && Separate(positions, broker)
    }

    constructor (broker: Broker, positions: seq<ManagedPosition>)
      requires Separate(positions, broker)
      ensures Valid() && this.broker == broker && this.positions == positions && errors == 0
    {
      this.broker := broker;
      manager := new OrderManager(broker);
      this.positions, errors := positions, 0;
    }

    /** Too many isolated failures in a row stop the cycle. */
    method Isolate(c: CycleInput, transient: bool) returns (outcome: Outcome)
      modifies this`errors
      ensures errors == old(errors) + 1
      ensures outcome == if errors >= c.maxErrors then Raised(transient) else Returned(false)
    {
      errors := errors + 1;
      outcome := if errors >= c.maxErrors then Raised(transient) else Returned(false);
    }

    /** One position's turn in one phase. */
    method TendPosition(c: CycleInput, task: Task, p: ManagedPosition) returns (keep: bool, outcome: Outcome)
      requires manager.broker == broker
      requires p.ratchet.Object() != broker && p.ratchet.Object() != p && p.ratchet.Object() != this
      modifies broker, p, p.ratchet.Object(), this`errors
      ensures Tended(broker.env, if keep then Some(p.View()) else None, errors, outcome)
           == Tend(c, task, old(broker.env), old(p.View()), old(errors))
    {
      keep, outcome := true, Returned(false);
      match task
      case SettleTask =>
        if p.status.PendingEntry? {
          outcome := manager.SettleFill(p);
          keep := outcome.Raised? || !IsDeadEntry(p.View());
        }
      case RecheckTask =>
        if p.status.Open? && p.filledQty < p.qty {
          outcome := manager.Recheck(p);
        }
      case SyncTask(closed) =>
        if p.symbol in closed {
          if p.stopOrderId.Some? {
            var _ := broker.Perform(GetOrder(p.stopOrderId.value));
          }
          p.status, outcome := PositionStatus.Closed, Returned(true);
        }
      case FlattenTask =>
        if p.status.Open? || p.status.PendingExit? {
          var _ := manager.Liquidate(p);
          outcome := Returned(true);
        }
      case RaiseTask =>
        if p.status.Open? {
          var bars := c.barsForStops(p.symbol);
          if bars.FeedFails? {
            outcome := Raised(bars.transient);
          } else if bars.FreshBars? {
            if c.execute {
              outcome := manager.Raise(p, bars.price, bars.atr);
              if outcome.Raised? {
                outcome := Isolate(c, outcome.transient);
              }
            } else {
              var _ := p.ratchet.Update(bars.price, bars.atr);
              outcome := Returned(true);
            }
          }
        }
      case RefreshTask =>
        if p.status.Open? {
          outcome := manager.Refresh(p, c.minDaysRemaining);
          if outcome.Raised? {
            outcome := Isolate(c, outcome.transient);
          }
        }
      case ExitTask =>
        if p.status.Open? {
          var bars := c.barsForExits(p.symbol);
          if bars.FeedFails? {
            outcome := Raised(bars.transient);
          } else if bars.FreshBars? && bars.exitSignal && c.execute {
            outcome := manager.Liquidate(p);
            keep := outcome.Raised?;
          }
        }
    }

    /** The turn of the first of `rest`, with the others held still. */
    method TendFirst(c: CycleInput, task: Task, kept: seq<ManagedPosition>, rest: seq<ManagedPosition>)
      returns (keep: bool, outcome: Outcome)
      requires manager.broker == broker && rest != []
      requires Separate(kept + rest, broker) && this !in Ladders(kept + rest)
      modifies broker, rest[0], rest[0].ratchet.Object(), this`errors
      ensures Tended(broker.env, if keep then Some(rest[0].View()) else None, errors, outcome)
           == Tend(c, task, old(broker.env), old(rest[0].View()), old(errors))
      ensures Views(kept) == old(Views(kept)) && Views(rest[1..]) == old(Views(rest))[1..]
    {
      hide Tend, Views;
      ghost var others, n := kept + rest[1..], |kept|;
      ghost var views := Views(others);
      OthersApart(kept, rest, broker);
      InLadders(kept, rest);
      ViewsTail(rest);
      ViewsConcat(kept, rest[1..]);
      keep, outcome := TendPosition(c, task, rest[0]);
      SameViews(views, others);
      ViewsConcat(kept, rest[1..]);
    }

    method SetPositions(ps: seq<ManagedPosition>)
      requires this !in Ladders(ps)
      modifies this`positions
      ensures positions == ps && Views(ps) == old(Views(ps))
    {
      assert forall i :: 0 <= i < |ps| ==> ps[i].ratchet.Object() in Ladders(ps);
      positions := ps;
    }

    /** One turn of the loop below. */
    method Advance(c: CycleInput, task: Task, kept: seq<ManagedPosition>, rest: seq<ManagedPosition>)
      returns (nowKept: seq<ManagedPosition>, outcome: Outcome)
      requires manager.broker == broker && rest != []
      requires Separate(kept + rest, broker) && this !in Ladders(kept + rest)
      modifies broker, rest[0], rest[0].ratchet.Object(), this`errors
      ensures Separate(nowKept + rest[1..], broker) && Ladders(nowKept + rest[1..]) <= Ladders(kept + rest)
      ensures forall p :: p in nowKept + rest[1..] ==> p in kept + rest
      ensures Resumed(c, task, broker.env, Views(nowKept), Views(rest[1..]), errors, outcome)
           == Resumed(c, task, old(broker.env), old(Views(kept)), old(Views(rest)), old(errors), Returned(true))
    {
      hide Tend, Resumed;
      ghost var done, todo := Views(kept), Views(rest);
      ResumedStep(c, task, broker.env, done, todo, errors);
      var keep, result := TendFirst(c, task, kept, rest);
      ShrinkSeparate(kept, rest, keep, broker);
      nowKept, outcome := if keep then kept + [rest[0]] else kept, result;
      assert keep ==> Views(nowKept) == Views(kept) + [rest[0].View()];
      assert !keep ==> nowKept + rest[1..] == kept + [] + rest[1..];
      assert Views(kept) + [] == Views(kept);
    }

    /** The loop of a phase: in turn, until the book is through or one raises. */
    method Sweep(c: CycleInput, task: Task, todo: seq<ManagedPosition>)
      returns (kept: seq<ManagedPosition>, rest: seq<ManagedPosition>, outcome: Outcome)
      requires manager.broker == broker && Separate(todo, broker) && this !in Ladders(todo)
      modifies this`errors, broker, todo, Ladders(todo)
      ensures Separate(kept + rest, broker) && Ladders(kept + rest) <= Ladders(todo)
      ensures forall p :: p in kept + rest ==> p in todo
      ensures outcome.Raised? || rest == []
      ensures Resumed(c, task, broker.env, Views(kept), Views(rest), errors, outcome)
           == Resumed(c, task, old(broker.env), [], old(Views(todo)), old(errors), Returned(true))
    {
      kept, rest, outcome := [], todo, Returned(true);
      assert kept + rest == todo;
      while rest != [] && outcome.Returned?
        invariant manager.broker == broker
        invariant Separate(kept + rest, broker) && Ladders(kept + rest) <= Ladders(todo)
        invariant forall p :: p in kept + rest ==> p in todo
        invariant Resumed(c, task, broker.env, Views(kept), Views(rest), errors, outcome)
               == Resumed(c, task, old(broker.env), [], old(Views(todo)), old(errors), Returned(true))
        decreases |rest|
      {
        hide Tend, Resumed;
        InLadders(kept, rest);
        kept, outcome := Advance(c, task, kept, rest);
        rest := rest[1..];
      }
    }

    /** A phase over the book: positions it drops leave, and raising leaves the
        rest untouched. */
    method EachPosition(c: CycleInput, task: Task) returns (outcome: Outcome)
      requires Valid() && this !in Ladders(positions)
      modifies this, broker, positions, Ladders(positions)
      ensures Valid() && Ladders(positions) <= old(Ladders(positions))
      ensures Phase(broker.env, Views(positions), errors, outcome)
           == ForEach(c, task, old(broker.env), old(Views(positions)), old(errors))
      ensures forall p :: p in positions ==> p in old(positions)
    {
      hide ForEach, Resumed;
      var kept, rest, result := Sweep(c, task, positions);
      ResumedEnds(c, task, old(broker.env), old(Views(positions)), old(errors),
                  broker.env, Views(kept), Views(rest), errors, result);
      ViewsConcat(kept, rest);
      SetPositions(kept + rest);
      outcome := if result.Raised? then result else Returned(true);
    }

    method Find(symbol: Symbol) returns (i: Option<nat>)
      ensures i == IndexOf(Views(positions), symbol)
    {
      var n := |positions|;
      ghost var book := Views(positions);
      assert book[..n] == book;
      while n > 0 && positions[n - 1].symbol != symbol
        invariant n <= |positions|
        invariant IndexOf(book[..n], symbol) == IndexOf(book, symbol)
      {
        assert book[..n][..n - 1] == book[..n - 1];
        n := n - 1;
      }
      i := if n == 0 then None else Some(n - 1);
    }

    /** Stores a fresh position under its symbol. */
    method Store(p: ManagedPosition)
      requires Valid() && this !in Ladders(positions) && p.ratchet.Object() != this
      requires Separate(positions + [p], broker)
      modifies this`positions
      ensures Valid() && Ladders(positions) <= old(Ladders(positions)) + {p.ratchet.Object()}
      ensures forall q :: q in positions ==> q in old(positions) || q == p
      ensures Views(positions) == Put(old(Views(positions)), old(p.View()))
    {
      hide Put, Views, Separate;
      var i := Find(p.symbol);
      PlacedSeparate(positions, p, i, broker);
      SetPositions(Placed(positions, p, i));
    }

    /** Submits and settles an entry; the position is not booked yet. */
    method OpenAndSettle(plan: EntryPlan) returns (p: Option<ManagedPosition>, outcome: Outcome)
      requires manager.broker == broker
      modifies broker
      ensures p.Some? ==> fresh(p.value) && fresh(p.value.ratchet.Object()) && p.value.ratchet.Object() != p.value
      ensures var o := OpenPosition(old(broker.env), plan);
        if o.pos.None? then p.None? && broker.env == o.env && outcome == Raised(o.transient)
        else p.Some? && Done(broker.env, p.value.View(), outcome) == Settle(o.env, o.pos.value)
    {
      hide Settle, OpenPosition;
      var ladder := FromValue(plan.ratchet);
      var transient;
      p, transient := manager.Open(plan, ladder);
      if p.None? {
        outcome := Raised(transient);
      } else {
        outcome := manager.SettleFill(p.value);
      }
    }

    /** Opens, settles and books one approved entry; whatever raises on the way
        leaves the book without it. */
    method OpenOne(plan: EntryPlan) returns (outcome: Outcome)
      requires Valid() && this !in Ladders(positions)
      modifies this`positions, broker
      ensures Valid() && this !in Ladders(positions)
      ensures forall q :: q in positions ==> q in old(positions) || fresh(q)
      ensures forall o :: o in Ladders(positions) ==> o in old(Ladders(positions)) || fresh(o)
      ensures Phase(broker.env, Views(positions), 0, outcome)
           == OpenEntry(old(broker.env), old(Views(positions)), plan)
    {
      hide Put, Settle, OpenPosition;
      ghost var book := Views(positions);
      assert forall k :: 0 <= k < |positions| ==> positions[k].ratchet.Object() in Ladders(positions);
      var p, settled := OpenAndSettle(plan);
      SameViews(book, positions);
      outcome := settled;
      if outcome.Returned? {
        FreshSeparate(positions, p.value, broker);
        Store(p.value);
        outcome := Returned(true);
      }
    }

    method IsTracked(symbol: Symbol) returns (tracked: bool)
      ensures Views(positions) == old(Views(positions))
      ensures tracked == Tracked(Views(positions), symbol)
    {
      tracked := false;
      ghost var book := Views(positions);
      for i := 0 to |positions|
        invariant tracked <==> exists k :: 0 <= k < i && book[k].symbol == symbol && Live(book[k])
      {
        if positions[i].symbol == symbol && !positions[i].status.Closed? {
          tracked := true;
        }
      }
    }

    /** One symbol nobody tracks yet: pass over it, count it, or open it. */
    method ConsiderSymbol(c: CycleInput, symbol: Symbol, v: Verdict, checked: nat, stale: nat)
      returns (nowChecked: nat, nowStale: nat, outcome: Outcome)
      requires Valid() && this !in Ladders(positions)
      modifies this, broker
      ensures Valid() && this !in Ladders(positions)
      ensures forall q :: q in positions ==> q in old(positions) || fresh(q)
      ensures forall o :: o in Ladders(positions) ==> o in old(Ladders(positions)) || fresh(o)
      ensures outcome.Raised? || outcome == Returned(true)
      ensures EntryPhase(broker.env, Views(positions), errors, nowChecked, nowStale, outcome)
           == ConsiderOne(c, EntryPhase(old(broker.env), old(Views(positions)), old(errors), checked, stale, Returned(true)), symbol, v)
    {
      hide OpenEntry, Views;
      nowChecked, nowStale, outcome := checked, stale, Returned(true);
      match v
      case NoTrade(wasChecked) =>
        nowChecked := if wasChecked then checked + 1 else checked;
      case StaleSymbol =>
        nowChecked, nowStale := checked + 1, stale + 1;
      case SymbolFails(wasChecked, transient) =>
        nowChecked := if wasChecked then checked + 1 else checked;
        outcome := CountFailure(c, transient);
      case Approved(_, qty, _, _, _) =>
        nowChecked := checked + 1;
        if c.execute && qty > 0.0 {
          var opening := OpenOne(PlanFor(c, symbol, v));
          if opening.Raised? {
            outcome := CountFailure(c, opening.transient);
          }
        }
    }

    method CountFailure(c: CycleInput, transient: bool) returns (outcome: Outcome)
      requires this !in Ladders(positions)
      modifies this`errors
      ensures errors == old(errors) + 1 && Views(positions) == old(Views(positions))
      ensures outcome == if errors >= c.maxErrors then Raised(transient) else Returned(true)
    {
      assert forall k :: 0 <= k < |positions| ==> positions[k].ratchet.Object() in Ladders(positions);
      errors := errors + 1;
      outcome := if errors >= c.maxErrors then Raised(transient) else Returned(true);
    }

    /** Every enabled symbol in turn, until too many fail. */
    method ConsiderAll(c: CycleInput) returns (checked: nat, stale: nat, outcome: Outcome)
      requires Valid() && this !in Ladders(positions)
      modifies this, broker
      ensures Valid() && this !in Ladders(positions)
      ensures EntryPhase(broker.env, Views(positions), errors, checked, stale, outcome)
           == ConsiderEntries(c, EntryPhase(old(broker.env), old(Views(positions)), old(errors), 0, 0, Returned(true)), c.candidates)
    {
      hide ConsiderOne, ConsiderEntries, Views, Separate, Ladders, Tracked;
      checked, stale, outcome := 0, 0, Returned(true);
      ghost var goal := ConsiderEntries(c, EntryPhase(broker.env, Views(positions), errors, 0, 0, outcome), c.candidates);
      assert c.candidates[0..] == c.candidates;
      var i := 0;
      while i < |c.candidates| && outcome.Returned?
        invariant 0 <= i <= |c.candidates| && (outcome.Returned? ==> outcome == Returned(true))
        invariant Valid() && this !in Ladders(positions)
        invariant forall q :: q in positions ==> q in old(positions) || fresh(q)
        invariant goal == ConsiderEntries(c, EntryPhase(broker.env, Views(positions), errors, checked, stale, outcome), c.candidates[i..])
        decreases |c.candidates| - i
      {
        var (symbol, v) := c.candidates[i];
        var tracked := IsTracked(symbol);
        ghost var before := EntryPhase(broker.env, Views(positions), errors, checked, stale, outcome);
        ghost var next := if Tracked(before.book, symbol) then before else ConsiderOne(c, before, symbol, v);
        ConsiderStep(c, before, c.candidates[i..]);
        assert c.candidates[i..][0] == (symbol, v) && c.candidates[i..][1..] == c.candidates[i + 1..];
        if !tracked {
          checked, stale, outcome := ConsiderSymbol(c, symbol, v, checked, stale);
        }
        assert next == EntryPhase(broker.env, Views(positions), errors, checked, stale, outcome);
        i := i + 1;
      }
      ConsiderEnds(c, EntryPhase(broker.env, Views(positions), errors, checked, stale, outcome), c.candidates[i..]);
    }

    /** A retried call to the broker; the book does not notice. */
    method Ask(call: Call) returns (r: Result)
      requires Valid() && this !in Ladders(positions)
      modifies broker
      ensures Called(broker.env, r) == Retry(old(broker.env), call, ATTEMPTS) && (r.Ok? ==> Fits(call, r.reply))
      ensures Views(positions) == old(Views(positions))
    {
      ghost var book := Views(positions);
      r := broker.RetryTransient(call);
      SameViews(book, positions);
    }

    method SettleThenRecheck(c: CycleInput) returns (outcome: Outcome)
      requires Valid() && this !in Ladders(positions) && errors == 0
      modifies this, broker, positions, Ladders(positions)
      ensures Valid() && Ladders(positions) <= old(Ladders(positions)) && errors == 0
      ensures forall p :: p in positions ==> p in old(positions)
      ensures Phase(broker.env, Views(positions), 0, outcome)
           == SettleAndRecheck(c, old(broker.env), old(Views(positions)))
    {
      hide ForEach, Views, Separate;
      NoErrorsCounted(c);
      outcome := Returned(true);
      if c.execute {
        outcome := EachPosition(c, SettleTask);
        if outcome.Returned? {
          assert forall i :: 0 <= i < |positions| ==> positions[i] in old(positions);
          outcome := EachPosition(c, RecheckTask);
        }
      }
    }

    /** Reads the broker and compares, leaving the book as it is. */
    method ReadAndCompare() returns (report: Option<Report>, transient: bool)
      requires Valid() && this !in Ladders(positions)
      modifies broker
      ensures Views(positions) == old(Views(positions))
      ensures var read := ReadSnapshot(old(broker.env));
        && broker.env == read.env
        && (read.snap.None? ==> report.None? && transient == read.transient)
        && (read.snap.Some? ==> report == Some(Reconcile(Views(positions), read.snap.value)))
    {
      hide ReadSnapshot, Reconcile;
      var book := Snapshotted();
      var reconciler := new Reconciler(broker);
      report, transient := reconciler.Run(book);
      SameViews(book, positions);
    }

    /** Settle and recheck, then read the broker and compare. */
    method CheckIn(c: CycleInput) returns (outcome: Outcome, account: Account, report: Report)
      requires Valid() && this !in Ladders(positions) && errors == 0
      modifies this, broker, positions, Ladders(positions)
      ensures Valid() && Ladders(positions) <= old(Ladders(positions)) && errors == 0
      ensures forall p :: p in positions ==> p in old(positions)
      ensures var k := UpToReconcile(c, old(broker.env), old(Views(positions)));
        && broker.env == k.env && Views(positions) == k.book
        && match k
           case Crashed(_, _, transient) => outcome == Raised(transient)
           case Read(_, book, snap, acct) => outcome.Returned? && account == acct && report == Reconcile(book, snap)
    {
      hide SettleAndRecheck, Reconcile, ReadSnapshot, Retry, Views, Separate, Ladders;
      account, report := Account(0.0, 0.0, 0.0), Report(true, [], [], [], [], []);
      var a := Ask(GetAccount);
      if a.Err? {
        return Raised(a.transient), account, report;
      }
      account := a.reply.account;
      outcome := SettleThenRecheck(c);
      if outcome.Raised? {
        return;
      }
      var r, transient := ReadAndCompare();
      if r.None? {
        return Raised(transient), account, report;
      }
      outcome, report := Returned(true), r.value;
    }

    /** The managed positions as the reconciler reads them. */
    method Snapshotted() returns (book: seq<Pos>)
      ensures book == Views(positions) == old(Views(positions))
    {
      book := [];
      for i := 0 to |positions|
        invariant book == Views(positions)[..i]
      {
        book := book + [positions[i].View()];
      }
    }

    /** Best effort: close every position, then cancel whatever still rests. */
    method Flatten(c: CycleInput)
      requires Valid() && this !in Ladders(positions) && errors == 0
      modifies this, broker, positions, Ladders(positions)
      ensures broker.env == FlattenAll(c, old(broker.env), old(Views(positions)))
    {
      hide ForEach, Views, Separate, Ladders, Retry;
      var _ := EachPosition(c, FlattenTask);
      var o := Ask(ListOpenOrders);
      if o.Ok? {
        CancelEach(o.reply.ids);
      }
    }

    method CancelEach(ids: seq<OrderId>)
      modifies broker
      ensures broker.env == CancelAll(old(broker.env), ids)
    {
      for i := 0 to |ids|
        invariant CancelAll(old(broker.env), ids) == CancelAll(broker.env, ids[i..])
      {
        var _ := broker.RetryTransient(CancelOrder(ids[i]));
      }
    }

    method TrailAllStops(c: CycleInput) returns (outcome: Outcome)
      requires Valid() && this !in Ladders(positions) && errors == 0
      modifies this, broker, positions, Ladders(positions)
      ensures Valid() && Ladders(positions) <= old(Ladders(positions))
      ensures forall p :: p in positions ==> p in old(positions)
      ensures Phase(broker.env, Views(positions), errors, outcome) == TrailStops(c, old(broker.env), old(Views(positions)))
    {
      hide ForEach, Views, Separate;
      outcome := EachPosition(c, RaiseTask);
      if outcome.Returned? && c.execute {
        assert forall i :: 0 <= i < |positions| ==> positions[i] in old(positions);
        outcome := EachPosition(c, RefreshTask);
      }
    }

    /** Exits, then entries; returns the book to save and the halt to write. */
    method Trade(c: CycleInput, saved: seq<Pos>) returns (book: seq<Pos>, halt: Option<HaltClass>)
      requires Valid() && this !in Ladders(positions)
      modifies this, broker, positions, Ladders(positions)
      ensures End(broker.env, book, halt) == WhileOpen(c, old(broker.env), saved, old(Views(positions)), old(errors))
    {
      hide ForEach, ConsiderEntries, Views, Separate;
      var outcome := EachPosition(c, ExitTask);
      var checked, stale := 0, 0;
      if outcome.Returned? {
        checked, stale, outcome := ConsiderAll(c);
      }
      book := Snapshotted();
      if outcome.Raised? {
        return book, Some(if outcome.transient then Disconnect else Exception);
      }
      if checked > 0 && stale == checked {
        return saved, Some(StaleData);
      }
      return book, None;
    }

    /** Kill switch, stops, then trading while the market is open. */
    method Proceed(c: CycleInput, saved: seq<Pos>, account: Account) returns (book: seq<Pos>, halt: Option<HaltClass>)
      requires Valid() && this !in Ladders(positions) && errors == 0
      modifies this, broker, positions, Ladders(positions)
      ensures End(broker.env, book, halt) == AfterReconcile(c, old(broker.env), saved, old(Views(positions)), account)
    {
      hide TrailStops, WhileOpen, FlattenAll, Retry, Views, Separate, Ladders;
      if CB.LossTripped(c.maxDailyLossPct, account.lastEquity, account.equity) {
        if c.execute {
          Flatten(c);
        }
        return saved, Some(KillSwitch);
      }
      var m := Ask(IsMarketOpen);
      if m.Err? {
        book := Snapshotted();
        return book, Some(if m.transient then Disconnect else Exception);
      }
      var outcome := TrailAllStops(c);
      book := Snapshotted();
      if outcome.Raised? {
        return book, Some(if outcome.transient then Disconnect else Exception);
      }
      if !m.reply.open {
        return book, None;
      }
      assert forall i :: 0 <= i < |positions| ==> positions[i] in old(positions);
      book, halt := Trade(c, saved);
    }

    /** The work of a cycle that is neither halted nor blocked. */
    method Work(c: CycleInput, saved: seq<Pos>) returns (book: seq<Pos>, halt: Option<HaltClass>)
      requires Valid() && this !in Ladders(positions) && errors == 0 && Views(positions) == saved
      modifies this, broker, positions, Ladders(positions)
      ensures End(broker.env, book, halt) == Body(c, old(broker.env), saved)
    {
      hide UpToReconcile, AfterReconcile, ForEach, Reconcile, Views, Separate, Ladders;
      NoErrorsCounted(c);
      var outcome, account, report := CheckIn(c);
      if outcome.Raised? {
        book := Snapshotted();
        return book, Some(if outcome.transient then Disconnect else Exception);
      }
      assert forall i :: 0 <= i < |positions| ==> positions[i] in old(positions);
      var _ := EachPosition(c, SyncTask(report.autoClosed));
      if !report.ok {
        return saved, Some(ReconcileMismatch);
      }
      assert forall i :: 0 <= i < |positions| ==> positions[i] in old(positions);
      book, halt := Proceed(c, saved, account);
    }

    /** One cycle against the halt file and the saved book. */
    method Cycle(c: CycleInput, saved: seq<Pos>, halt: HaltFile) returns (book: seq<Pos>, nowHalt: HaltFile)
      requires Valid() && this !in Ladders(positions) && errors == 0 && Views(positions) == saved
      modifies this, broker, positions, Ladders(positions)
      ensures Desk(broker.env, book, nowHalt) == RunCycle(c, Desk(old(broker.env), saved, halt))
    {
      hide Body, Views, Separate, Ladders;
      book, nowHalt := saved, halt;
      if IsHalted(halt) {
        return;
      }
      if c.isLive && c.execute && !c.allowLive {
        nowHalt := WriteHalt(Config, c.now);
        return;
      }
      if c.lockBusy {
        return;
      }
      var cls;
      book, cls := Work(c, saved);
      if cls.Some? {
        nowHalt := WriteHalt(cls.value, c.now);
      }
    }

    method WriteHalt(cls: HaltClass, now: int) returns (halt: HaltFile)
      modifies broker
      ensures forall book, before ::
        Desk(broker.env, book, halt) == SetHalt(Desk(old(broker.env), book, before), HaltRecord(ReasonFor(cls), cls, Some(now)))
    {
      var record := HaltRecord(ReasonFor(cls), cls, Some(now));
      broker.env := broker.env.(journal := broker.env.journal + [HaltSet(record)]);
      halt := HaltFile.Stored(record);
    }
  }
}
