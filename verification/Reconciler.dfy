/** Comparing the bot's book with what the broker reports. */
module Reconcilers {
  import opened Common
  import opened Brokers
  import opened OrderManagers

  datatype Snapshot = Snapshot(positions: seq<PositionView>, orders: seq<Order>)

  datatype Report = Report(ok: bool, quantityMismatches: seq<Symbol>, unknownPositions: seq<Symbol>,
                           unprotectedPositions: seq<Symbol>, pendingLost: seq<Symbol>, autoClosed: seq<Symbol>)

  const QTY_TOLERANCE: real := 0.000001

  /** The broker's entry for a symbol; a later view replaces an earlier one. */
  function HeldAt(views: seq<PositionView>, symbol: Symbol): Option<PositionView> {
    if views == [] then None
    else
      var last := views[|views| - 1];
      if last.symbol == symbol then Some(last) else HeldAt(views[..|views| - 1], symbol)
  }

  lemma {:induction false} HeldAtIff(views: seq<PositionView>, symbol: Symbol)
    ensures HeldAt(views, symbol).Some? <==> exists v :: v in views && v.symbol == symbol
    ensures HeldAt(views, symbol).Some? ==> HeldAt(views, symbol).value in views && HeldAt(views, symbol).value.symbol == symbol
  {
    if views != [] {
      var n := |views| - 1;
      HeldAtIff(views[..n], symbol);
      assert views == views[..n] + [views[n]];
    }
  }

  predicate HasOrder(orders: seq<Order>, symbol: Symbol) {
    exists i :: 0 <= i < |orders| && orders[i].symbol == symbol
  }

  predicate HasStop(orders: seq<Order>, symbol: Symbol) {
    exists i :: 0 <= i < |orders| && orders[i].symbol == symbol && orders[i].kind.StopOrder?
  }

  function Signed(qty: real, side: Side): real { if side.Long? then qty else -qty }

  function ExpectedSize(p: Pos): real {
    Signed(if p.filledQty != 0.0 then p.filledQty else p.qty, p.side)
  }

  predicate SizeMatches(p: Pos, v: PositionView) {
    Abs(Signed(v.qty, v.side) - ExpectedSize(p)) <= QTY_TOLERANCE
  }

  /** A filled position matches what the broker holds if and only if it is on the same
      side and the quantities differ by no more than the tolerance. */
  lemma SizeMatchesIff(p: Pos, v: PositionView)
    requires p.filledQty > QTY_TOLERANCE && v.qty >= 0.0
    ensures SizeMatches(p, v)
       <==> Abs(v.qty - p.filledQty) <= QTY_TOLERANCE && (v.side == p.side)
  {
  }

  predicate Live(p: Pos) { !p.status.Closed? }

  predicate Tracked(book: seq<Pos>, symbol: Symbol) {
    exists i :: 0 <= i < |book| && book[i].symbol == symbol && Live(book[i])
  }

  // ----- the report, finding by finding -----

  predicate IsPendingLost(p: Pos, snap: Snapshot) {
    p.status.PendingEntry? && !HasOrder(snap.orders, p.symbol) && HeldAt(snap.positions, p.symbol).None?
  }

  predicate IsUnprotected(p: Pos, snap: Snapshot) {
    Live(p) && HeldAt(snap.positions, p.symbol).Some? && !HasStop(snap.orders, p.symbol)
  }

  predicate IsMismatched(p: Pos, snap: Snapshot) {
    var held := HeldAt(snap.positions, p.symbol);
    && (p.status.Open? || p.status.PendingExit?)
    && if held.Some? then !SizeMatches(p, held.value) else HasOrder(snap.orders, p.symbol)
  }

  predicate IsAutoClosed(p: Pos, snap: Snapshot) {
    && (p.status.Open? || p.status.PendingExit?)
    && HeldAt(snap.positions, p.symbol).None? && !HasOrder(snap.orders, p.symbol)
  }

  function Flagged(book: seq<Pos>, flag: Pos -> bool): (symbols: seq<Symbol>)
    ensures forall s :: s in symbols <==> exists i :: 0 <= i < |book| && book[i].symbol == s && flag(book[i])
    ensures symbols == [] <==> forall i :: 0 <= i < |book| ==> !flag(book[i])
  {
    if book == [] then []
    else
      var n := |book| - 1;
      Flagged(book[..n], flag) + if flag(book[n]) then [book[n].symbol] else []
  }

  lemma FlaggedSnoc(book: seq<Pos>, flag: Pos -> bool, i: nat)
    requires i < |book|
    ensures Flagged(book[..i + 1], flag) == Flagged(book[..i], flag) + if flag(book[i]) then [book[i].symbol] else []
  {
    assert book[..i + 1][..i] == book[..i];
  }

  /** Broker symbols in order of first appearance that the book does not track. */
  function Untracked(views: seq<PositionView>, book: seq<Pos>): (symbols: seq<Symbol>)
    ensures forall s :: s in symbols <==> !Tracked(book, s) && exists v :: v in views && v.symbol == s
    ensures symbols == [] <==> forall v :: v in views ==> Tracked(book, v.symbol)
  {
    if views == [] then []
    else
      var n := |views| - 1;
      assert views == views[..n] + [views[n]];
      var earlier := Untracked(views[..n], book);
      earlier + if Tracked(book, views[n].symbol) || views[n].symbol in earlier then [] else [views[n].symbol]
  }

  function Reconcile(book: seq<Pos>, snap: Snapshot): Report {
    var mismatches := Flagged(book, p => IsMismatched(p, snap));
    var unknown := Untracked(snap.positions, book);
    var unprotected := Flagged(book, p => IsUnprotected(p, snap));
    var lost := Flagged(book, p => IsPendingLost(p, snap));
    Report(mismatches == [] && unknown == [] && unprotected == [] && lost == [],
           mismatches, unknown, unprotected, lost, Flagged(book, p => IsAutoClosed(p, snap)))
  }

  // ----- what an ok report means -----

  /** The broker holds nothing the bot does not track; everything tracked that it
      holds has a resting stop, and the right size once OPEN; a pending entry has
      an order or a position; and nothing vanished leaving orders behind. */
  ghost predicate InAgreement(book: seq<Pos>, snap: Snapshot) {
    && (forall v :: v in snap.positions ==> Tracked(book, v.symbol))
    && (forall i :: 0 <= i < |book| && Live(book[i]) ==> Agrees(book[i], snap))
  }

  predicate Agrees(p: Pos, snap: Snapshot) {
    var held := HeldAt(snap.positions, p.symbol);
    if held.Some? then
      HasStop(snap.orders, p.symbol) && (!p.status.PendingEntry? ==> SizeMatches(p, held.value))
    else
      p.status.PendingEntry? <==> HasOrder(snap.orders, p.symbol)
  }

  lemma ReconcileOkIff(book: seq<Pos>, snap: Snapshot)
    ensures Reconcile(book, snap).ok <==> InAgreement(book, snap)
  {
    forall i | 0 <= i < |book|
      ensures !IsMismatched(book[i], snap) && !IsUnprotected(book[i], snap) && !IsPendingLost(book[i], snap)
         <==> (Live(book[i]) ==> Agrees(book[i], snap))
    {
    }
  }

  /** The book once the positions gone from the broker are marked CLOSED. */
  function Synced(book: seq<Pos>, closed: seq<Symbol>): (r: seq<Pos>)
    ensures |r| == |book|
    ensures forall i :: 0 <= i < |book| ==>
      r[i] == if book[i].symbol in closed then book[i].(status := Closed) else book[i]
  {
    seq(|book|, i requires 0 <= i < |book| =>
      if book[i].symbol in closed then book[i].(status := Closed) else book[i])
  }

  predicate DistinctSymbols(book: seq<Pos>) {
    forall i, j :: 0 <= i < j < |book| ==> book[i].symbol != book[j].symbol
  }

  predicate WorkingEntry(book: seq<Pos>, snap: Snapshot, symbol: Symbol) {
    && HeldAt(snap.positions, symbol).None? && HasOrder(snap.orders, symbol)
    && exists i :: 0 <= i < |book| && book[i].symbol == symbol && book[i].status.PendingEntry?
  }

  /** After an ok report and the auto-close sync the bot tracks exactly the
      broker's positions and the entries still working. */
  lemma SyncedBookIsBrokerBook(book: seq<Pos>, snap: Snapshot, symbol: Symbol)
    requires DistinctSymbols(book) && Reconcile(book, snap).ok
    ensures Tracked(Synced(book, Reconcile(book, snap).autoClosed), symbol)
       <==> HeldAt(snap.positions, symbol).Some? || WorkingEntry(book, snap, symbol)
  {
    ReconcileOkIff(book, snap);
    HeldAtIff(snap.positions, symbol);
    forall i | 0 <= i < |book|
      ensures Live(Synced(book, Reconcile(book, snap).autoClosed)[i])
         <==> Live(book[i]) && (book[i].status.PendingEntry? || HeldAt(snap.positions, book[i].symbol).Some?)
    {
      SyncedAt(book, snap, i);
    }
  }

  lemma SyncedAt(book: seq<Pos>, snap: Snapshot, i: nat)
    requires DistinctSymbols(book) && InAgreement(book, snap) && i < |book|
    ensures Live(Synced(book, Reconcile(book, snap).autoClosed)[i])
       <==> Live(book[i]) && (book[i].status.PendingEntry? || HeldAt(snap.positions, book[i].symbol).Some?)
  {
    var closed := Reconcile(book, snap).autoClosed;
    assert book[i].symbol in closed <==> IsAutoClosed(book[i], snap) by {
      if j :| 0 <= j < |book| && book[j].symbol == book[i].symbol && IsAutoClosed(book[j], snap) {
        assert j == i;
      }
    }
    assert Live(book[i]) ==> Agrees(book[i], snap);
  }

  // ----- the reads, and the loop that builds the report -----

  datatype ReadDone = ReadDone(env: Env, snap: Option<Snapshot>, transient: bool)

  function ReadSnapshot(e: Env): ReadDone {
    var p := Retry(e, ListPositions, ATTEMPTS);
    if p.result.Err? then ReadDone(p.env, None, p.result.transient) else
    var o := Retry(p.env, ListOpenOrders, ATTEMPTS);
    if o.result.Err? then ReadDone(o.env, None, o.result.transient)
    else ReadDone(o.env, Some(Snapshot(p.result.reply.positions, o.result.reply.orders)), false)
  }

  lemma ReadJournal(e: Env)
    ensures ReadSnapshot(e).env.journal == e.journal
  {
    RetryJournal(e, ListPositions, ATTEMPTS);
    RetryJournal(Retry(e, ListPositions, ATTEMPTS).env, ListOpenOrders, ATTEMPTS);
  }

  lemma {:induction false} RetryReadsPositions(e: Env, attempts: nat)
    requires attempts >= 1 && Retry(e, ListPositions, attempts).result.Ok?
    ensures Retry(e, ListPositions, attempts).result.reply.positions == Retry(e, ListPositions, attempts).env.positions
    decreases attempts
  {
    hide Arrive;
    if Exec(e, ListPositions).result.Err? {
      RetryReadsPositions(Exec(e, ListPositions).env, attempts - 1);
    }
  }

  ghost predicate ListsWorking(listed: seq<Order>, orders: seq<Order>) {
    forall o :: o in listed <==> exists i :: 0 <= i < |orders| && orders[i] == o && IsWorking(o.status)
  }

  lemma EffectListsWorking(e: Env, withLegs: bool)
    ensures ListsWorking(Effect(e, ListOpenOrders, withLegs).result.reply.orders, e.orders)
    ensures Effect(e, ListOpenOrders, withLegs).env == e
  {
    var ids, listed := WorkingIds(e.orders), Effect(e, ListOpenOrders, withLegs).result.reply.orders;
    forall o ensures o in listed <==> exists i :: 0 <= i < |e.orders| && e.orders[i] == o && IsWorking(o.status) {
      if o in listed {
        var k :| 0 <= k < |listed| && listed[k] == o;
        assert e.orders[ids[k]] == o;
      }
      if i: OrderId :| i < |e.orders| && e.orders[i] == o && IsWorking(o.status) {
        var k :| 0 <= k < |ids| && ids[k] == i;
        assert listed[k] == o;
      }
    }
  }

  lemma {:induction false} RetryListsWorking(e: Env, attempts: nat)
    requires attempts >= 1 && Retry(e, ListOpenOrders, attempts).result.Ok?
    ensures var c := Retry(e, ListOpenOrders, attempts); ListsWorking(c.result.reply.orders, c.env.orders)
    decreases attempts
  {
    hide Arrive, Effect, ListsWorking;
    EffectListsWorking(Noted(Arrive(e), ListOpenOrders), true);
    EffectListsWorking(Noted(Arrive(e), ListOpenOrders), false);
    if Exec(e, ListOpenOrders).result.Err? {
      RetryListsWorking(Exec(e, ListOpenOrders).env, attempts - 1);
    }
  }

  /** A snapshot is the broker's own truth at its two reads: the positions it held at the
      first, exactly the orders working at the second. */
  lemma SnapshotIsBroker(e: Env)
    requires ReadSnapshot(e).snap.Some?
    ensures var read := ReadSnapshot(e);
      && read.snap.value.positions == Retry(e, ListPositions, ATTEMPTS).env.positions
      && ListsWorking(read.snap.value.orders, read.env.orders)
  {
    hide Retry;
    RetryReadsPositions(e, ATTEMPTS);
    RetryListsWorking(Retry(e, ListPositions, ATTEMPTS).env, ATTEMPTS);
  }

  class Reconciler {
    const broker: Broker

    constructor (broker: Broker)
      ensures this.broker == broker
    {
      this.broker := broker;
    }

    method Run(book: seq<Pos>) returns (report: Option<Report>, transient: bool)
      modifies broker
      ensures var read := ReadSnapshot(old(broker.env));
        && broker.env == read.env
        && (read.snap.None? ==> report.None? && transient == read.transient)
        && (read.snap.Some? ==> report == Some(Reconcile(book, read.snap.value)))
    {
      var p := broker.RetryTransient(ListPositions);
      if p.Err? {
        return None, p.transient;
      }
      var o := broker.RetryTransient(ListOpenOrders);
      if o.Err? {
        return None, o.transient;
      }
      var r := Compare(book, Snapshot(p.reply.positions, o.reply.orders));
      return Some(r), false;
    }

    /** What one tracked position contributes to the report. */
    static method Judge(p: Pos, snap: Snapshot) returns (mismatched: bool, unprotected: bool, lost: bool, autoClosed: bool)
      ensures mismatched == IsMismatched(p, snap) && unprotected == IsUnprotected(p, snap)
      ensures lost == IsPendingLost(p, snap) && autoClosed == IsAutoClosed(p, snap)
    {
      mismatched, unprotected, lost, autoClosed := false, false, false, false;
      if p.status.Closed? {
        return;
      }
      var held := HeldAt(snap.positions, p.symbol);
      if p.status.PendingEntry? {
        if !HasOrder(snap.orders, p.symbol) && held.None? {
          lost := true;
        } else if held.Some? && !HasStop(snap.orders, p.symbol) {
          unprotected := true;
        }
        return;
      }
      if held.None? {
        if HasOrder(snap.orders, p.symbol) {
          mismatched := true;
        } else {
          autoClosed := true;
        }
        return;
      }
      if Abs(Signed(held.value.qty, held.value.side) - ExpectedSize(p)) > QTY_TOLERANCE {
        mismatched := true;
      }
      if !HasStop(snap.orders, p.symbol) {
        unprotected := true;
      }
    }

    static method FindUnknown(views: seq<PositionView>, book: seq<Pos>) returns (unknown: seq<Symbol>)
      ensures unknown == Untracked(views, book)
    {
      unknown := [];
      for i := 0 to |views|
        invariant unknown == Untracked(views[..i], book)
      {
        assert views[..i + 1][..i] == views[..i];
        if !Tracked(book, views[i].symbol) && views[i].symbol !in unknown {
          unknown := unknown + [views[i].symbol];
        }
      }
      assert views[..|views|] == views;
    }

    static method Compare(book: seq<Pos>, snap: Snapshot) returns (r: Report)
      ensures r == Reconcile(book, snap)
    {
      hide IsMismatched, IsUnprotected, IsPendingLost, IsAutoClosed, Untracked;
      var mismatches, unprotected, lost, autoClosed := [], [], [], [];
      for i := 0 to |book|
        invariant mismatches == Flagged(book[..i], p => IsMismatched(p, snap))
        invariant unprotected == Flagged(book[..i], p => IsUnprotected(p, snap))
        invariant lost == Flagged(book[..i], p => IsPendingLost(p, snap))
        invariant autoClosed == Flagged(book[..i], p => IsAutoClosed(p, snap))
      {
        hide Flagged;
        FlaggedSnoc(book, p => IsMismatched(p, snap), i);
        FlaggedSnoc(book, p => IsUnprotected(p, snap), i);
        FlaggedSnoc(book, p => IsPendingLost(p, snap), i);
        FlaggedSnoc(book, p => IsAutoClosed(p, snap), i);
        var m, u, l, a := Judge(book[i], snap);
        mismatches := mismatches + if m then [book[i].symbol] else [];
        unprotected := unprotected + if u then [book[i].symbol] else [];
        lost := lost + if l then [book[i].symbol] else [];
        autoClosed := autoClosed + if a then [book[i].symbol] else [];
      }
      assert book[..|book|] == book;
      var unknown := FindUnknown(snap.positions, book);
      r := Report(mismatches == [] && unknown == [] && unprotected == [] && lost == [],
                  mismatches, unknown, unprotected, lost, autoClosed);
    }
  }
}
