/** What the kill switch leaves behind when calls are lost. */
module Flattening {
  import opened Common
  import opened Brokers
  import opened OrderManagers
  import opened Reconcilers
  import opened Cycles
  import opened CycleSafety
  import opened Forgetting
  import TradeServices

  /** Orders may fill or die and calls may be lost, but nobody else trades. */
  predicate Still(script: seq<Step>) {
    forall i :: 0 <= i < |script| ==> NoTrades(script[i].events)
  }

  predicate NoTrades(events: seq<Event>) { forall i :: 0 <= i < |events| ==> !events[i].PositionsBecome? }

  lemma {:induction false} HappenAllHolds(e: Env, events: seq<Event>)
    requires NoTrades(events)
    ensures HappenAll(e, events).positions == e.positions
    decreases |events|
  {
    if events != [] {
      HappenAllHolds(Happen(e, events[0]), events[1..]);
    }
  }

  lemma ArriveHolds(e: Env)
    requires Still(e.script)
    ensures Arrive(e).positions == e.positions && Still(Arrive(e).script)
  {
    var tail := if e.script == [] then [] else e.script[1..];
    HappenAllHolds(e.(script := tail), NextStep(e).events);
    HappenAllKeepsJournal(e.(script := tail), NextStep(e).events);
  }

  /** The only call that changes what is held is a close that gets through. */
  lemma ExecHolds(e: Env, call: Call)
    requires Still(e.script)
    ensures Still(Exec(e, call).env.script)
    ensures Exec(e, call).env.positions
         == if call.ClosePosition? && !NextStep(e).fate.LostBefore? then WithoutSymbol(e.positions, call.symbol) else e.positions
  {
    hide Arrive, WithoutSymbol, CoidUsed, WorkingIds;
    ArriveHolds(e);
  }

  lemma {:induction false} RetryHolds(e: Env, call: Call, attempts: nat)
    requires attempts >= 1 && Still(e.script) && !call.ClosePosition?
    ensures Still(Retry(e, call, attempts).env.script) && Retry(e, call, attempts).env.positions == e.positions
    decreases attempts
  {
    hide Exec, Still;
    ExecHolds(e, call);
    if attempts > 1 {
      RetryHolds(Exec(e, call).env, call, attempts - 1);
    }
  }

  lemma {:induction false} CancelsHold(e: Env, ids: seq<OrderId>)
    requires Still(e.script)
    ensures CancelAll(e, ids).positions == e.positions
    decreases |ids|
  {
    if ids != [] {
      hide Retry, Still;
      RetryHolds(e, CancelOrder(ids[0]), ATTEMPTS);
      CancelsHold(Retry(e, CancelOrder(ids[0]), ATTEMPTS).env, ids[1..]);
    }
  }

  lemma {:induction false} OthersStayHeld(positions: seq<PositionView>, gone: Symbol, symbol: Symbol)
    requires gone != symbol
    ensures NoneHeld(WithoutSymbol(positions, gone), symbol) <==> NoneHeld(positions, symbol)
  {
    if positions != [] {
      hide NoneHeld;
      OthersStayHeld(positions[1..], gone, symbol);
      assert positions == [positions[0]] + positions[1..];
      HeadOrRest(positions[0], positions[1..], symbol);
      HeadOrRest(positions[0], WithoutSymbol(positions[1..], gone), symbol);
      assert [] + WithoutSymbol(positions[1..], gone) == WithoutSymbol(positions[1..], gone);
    }
  }

  lemma HeadOrRest(head: PositionView, rest: seq<PositionView>, symbol: Symbol)
    ensures NoneHeld([head] + rest, symbol) <==> head.symbol != symbol && NoneHeld(rest, symbol)
  {
    var all := [head] + rest;
    assert forall i :: 0 <= i < |rest| ==> all[i + 1] == rest[i];
    assert all[0] == head;
  }

  /** The close of `symbol` is tried, and lost before it reaches the broker. */
  predicate CloseIsLost(c: CycleInput, e: Env, todo: seq<Pos>, symbol: Symbol) {
    var t := TurnOf(c, FlattenTask, e, todo, 0, symbol);
    t.Some? && NextStep(t.value.env).fate.LostBefore?
  }

  lemma {:induction false} SweepLeaves(c: CycleInput, e: Env, todo: seq<Pos>, i: nat)
    requires DistinctSymbols(todo) && Still(e.script)
    requires i < |todo| && (todo[i].status.Open? || todo[i].status.PendingExit?)
    ensures var f := ForEach(c, FlattenTask, e, todo, 0).env;
      && Still(f.script)
      && (NoneHeld(f.positions, todo[i].symbol) <==> NoneHeld(e.positions, todo[i].symbol) || !CloseIsLost(c, e, todo, todo[i].symbol))
    decreases |todo|
  {
    hide Still, NoneHeld, WithoutSymbol, Exec;
    var symbol := todo[i].symbol;
    var t := Tend(c, FlattenTask, e, todo[0], 0);
    ExecHolds(e, ClosePosition(todo[0].symbol));
    if i == 0 {
      WithoutSymbolIs(e.positions, symbol, symbol);
      StrangersStayHeld(c, t.env, todo[1..], symbol, todo);
    } else {
      assert todo[0].symbol != symbol;
      OthersStayHeld(e.positions, todo[0].symbol, symbol);
      assert todo[1..][i - 1] == todo[i];
      SweepLeaves(c, t.env, todo[1..], i - 1);
    }
  }

  /** Closing the rest leaves this symbol as it was. */
  lemma {:induction false} StrangersStayHeld(c: CycleInput, e: Env, rest: seq<Pos>, symbol: Symbol, todo: seq<Pos>)
    requires Still(e.script) && DistinctSymbols(todo) && |rest| < |todo| && rest == todo[|todo| - |rest|..] && todo[0].symbol == symbol
    ensures var f := ForEach(c, FlattenTask, e, rest, 0).env;
      Still(f.script) && (NoneHeld(f.positions, symbol) <==> NoneHeld(e.positions, symbol))
    decreases |rest|
  {
    hide Still, NoneHeld, WithoutSymbol, Exec;
    if rest != [] {
      assert rest[0] == todo[|todo| - |rest|];
      var t := Tend(c, FlattenTask, e, rest[0], 0);
      ExecHolds(e, ClosePosition(rest[0].symbol));
      OthersStayHeld(e.positions, rest[0].symbol, symbol);
      assert rest[1..] == todo[|todo| - |rest[1..]|..];
      StrangersStayHeld(c, t.env, rest[1..], symbol, todo);
    }
  }

  /** Whatever calls are lost on the way, the kill switch leaves a position it set out
      to close if and only if that close itself was lost before it reached the broker. */
  lemma FlattenLeavesIff(c: CycleInput, e: Env, book: seq<Pos>, i: nat)
    requires DistinctSymbols(book) && Still(e.script)
    requires i < |book| && (book[i].status.Open? || book[i].status.PendingExit?) && !NoneHeld(e.positions, book[i].symbol)
    ensures !NoneHeld(FlattenAll(c, e, book).positions, book[i].symbol) <==> CloseIsLost(c, e, book, book[i].symbol)
  {
    hide ForEach, Retry, Still, NoneHeld, CloseIsLost;
    SweepLeaves(c, e, book, i);
    var swept := ForEach(c, FlattenTask, e, book, 0).env;
    RetryHolds(swept, ListOpenOrders, ATTEMPTS);
    var o := Retry(swept, ListOpenOrders, ATTEMPTS);
    if o.result.Ok? {
      CancelsHold(o.env, o.result.reply.ids);
    }
  }

  // ----- the phone's own closes -----

  /** With no fault in the way, closing a live position from the phone leaves nothing held
      in its symbol and exactly the other symbols in the book. */
  lemma QuietPhoneCloseCloses(symbol: Symbol, d: Desk)
    requires d.env.script == [] && DistinctSymbols(d.book) && Tracked(d.book, symbol)
    ensures var a := TradeServices.ClosePhone(symbol, false, d);
      && a.answer.ClosedAnswer? && NoneHeld(a.desk.env.positions, symbol)
      && forall p :: p in a.desk.book <==> p in d.book && p.symbol != symbol
  {
    hide NoneHeld;
    var i := IndexOf(d.book, symbol).value;
    QuietCall(d.env, ClosePosition(symbol));
    QuietClose(d.env, d.book[i], symbol);
    WithoutIs(d.book, i);
  }

  lemma WithoutIs(book: seq<Pos>, i: nat)
    requires DistinctSymbols(book) && i < |book|
    ensures forall p :: p in TradeServices.Without(book, i) <==> p in book && p.symbol != book[i].symbol
  {
    var rest := TradeServices.Without(book, i);
    forall p | p in book && p.symbol != book[i].symbol ensures p in rest {
      var j :| 0 <= j < |book| && book[j] == p;
      assert rest[if j < i then j else j - 1] == p;
    }
    forall p | p in rest ensures p in book && p.symbol != book[i].symbol {
      var j :| 0 <= j < |rest| && rest[j] == p;
      assert book[if j < i then j else j + 1] == p;
    }
  }

  /** And flattening leaves nothing held of what was live, and only closed records. */
  lemma {:induction false} QuietPhoneFlattenCloses(e: Env, todo: seq<Pos>, symbol: Symbol)
    requires e.script == []
    ensures var f := TradeServices.FlattenFrom(e, todo);
      && f.failures == 0 && f.env.script == [] && (forall p :: p in f.book <==> p in todo && !Live(p))
      && (NoneHeld(e.positions, symbol) || Tracked(todo, symbol) ==> NoneHeld(f.env.positions, symbol))
    decreases |todo|
  {
    hide NoneHeld;
    if todo != [] {
      QuietCall(e, ClosePosition(todo[0].symbol));
      QuietClose(e, todo[0], symbol);
      var next := if Live(todo[0]) then Close(e, todo[0]).env else e;
      QuietPhoneFlattenCloses(next, todo[1..], symbol);
      assert todo == [todo[0]] + todo[1..];
      assert Tracked(todo, symbol) ==> (Live(todo[0]) && todo[0].symbol == symbol) || Tracked(todo[1..], symbol);
    }
  }
}
