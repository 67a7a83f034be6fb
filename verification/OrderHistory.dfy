/** What the broker's list of orders can become: which changes the market alone
    makes, which changes any call makes, and which calls leave a symbol alone. */
module OrderHistory {
  import opened Common
  import opened Brokers
  import opened Rounding

  predicate SameTerms(a: Order, b: Order) {
    && b.coid == a.coid && b.price == a.price && b.qty == a.qty
    && b.symbol == a.symbol && b.side == a.side && b.kind == a.kind
  }

  // ----- the market alone -----

  /** Orders keep their client id and terms, finished ones stay finished, and
      whatever is new is not the bot's. */
  ghost predicate Evolved(a: seq<Order>, b: seq<Order>) {
    && |a| <= |b|
    && (forall i :: 0 <= i < |a| ==> SameTerms(a[i], b[i]) && (IsWorking(b[i].status) ==> IsWorking(a[i].status)))
    && (forall i :: |a| <= i < |b| ==> b[i].coid.Foreign?)
  }

  lemma {:induction false} HappenAllEvolves(e: Env, events: seq<Event>)
    ensures Evolved(e.orders, HappenAll(e, events).orders)
    decreases |events|
  {
    if events != [] {
      HappenAllEvolves(Happen(e, events[0]), events[1..]);
    }
  }

  lemma ArriveEvolves(e: Env, c: Call)
    ensures Evolved(e.orders, Noted(Arrive(e), c).orders)
  {
    HappenAllEvolves(e.(script := if e.script == [] then [] else e.script[1..]), NextStep(e).events);
  }

  lemma {:induction false} RetryGetOrderEvolves(e: Env, id: OrderId, attempts: nat)
    requires attempts >= 1
    ensures Evolved(e.orders, Retry(e, GetOrder(id), attempts).env.orders)
    decreases attempts
  {
    hide Arrive;
    ArriveEvolves(e, GetOrder(id));
    if attempts > 1 {
      RetryGetOrderEvolves(Exec(e, GetOrder(id)).env, id, attempts - 1);
    }
  }

  // ----- any call at all -----

  /** Orders only get older: none disappears, none changes its client id, and a
      finished one never works again. */
  ghost predicate Aged(a: seq<Order>, b: seq<Order>) {
    && |a| <= |b|
    && forall i :: 0 <= i < |a| ==> b[i].coid == a[i].coid && (IsWorking(b[i].status) ==> IsWorking(a[i].status))
  }

  lemma AgedChain(a: seq<Order>, b: seq<Order>, c: seq<Order>)
    requires Aged(a, b) && Aged(b, c)
    ensures Aged(a, c)
  {
  }

  lemma EffectAges(e: Env, c: Call, withLegs: bool)
    ensures Aged(e.orders, Effect(e, c, withLegs).env.orders)
  {
    hide CoidUsed, WorkingIds, WithoutSymbol, Cents;
  }

  lemma ExecAges(e: Env, c: Call)
    ensures Aged(e.orders, Exec(e, c).env.orders)
  {
    hide Effect, Arrive;
    ArriveEvolves(e, c);
    var here := Noted(Arrive(e), c);
    EffectAges(here, c, true);
    EffectAges(here, c, false);
    AgedChain(e.orders, here.orders, Exec(e, c).env.orders);
  }

  lemma {:induction false} RetryAges(e: Env, c: Call, attempts: nat)
    requires attempts >= 1
    ensures Aged(e.orders, Retry(e, c, attempts).env.orders)
    decreases attempts
  {
    hide Exec, Aged;
    ExecAges(e, c);
    if Retry(e, c, attempts) != Exec(e, c) {
      RetryAges(Exec(e, c).env, c, attempts - 1);
      AgedChain(e.orders, Exec(e, c).env.orders, Retry(e, c, attempts).env.orders);
    }
  }

  lemma AgedCoidUsed(a: seq<Order>, b: seq<Order>, coid: Coid)
    requires Aged(a, b) && CoidUsed(a, coid)
    ensures CoidUsed(b, coid)
  {
    var i :| 0 <= i < |a| && a[i].coid == coid;
    assert b[i].coid == coid;
  }

  // ----- calls about other symbols -----

  predicate ForSymbol(coid: Coid, symbol: Symbol) { coid.Coid? && coid.symbol == symbol }

  /** As far as the bot's orders for `symbol` go, only the market has moved: their
      terms stand, finished ones stay finished, and none was added. */
  ghost predicate LeavesAlone(a: seq<Order>, b: seq<Order>, symbol: Symbol) {
    && |a| <= |b|
    && (forall i :: 0 <= i < |a| ==> b[i].coid == a[i].coid)
    && (forall i :: 0 <= i < |a| && ForSymbol(a[i].coid, symbol) ==>
          SameTerms(a[i], b[i]) && (IsWorking(b[i].status) ==> IsWorking(a[i].status)))
    && (forall i :: |a| <= i < |b| ==> !ForSymbol(b[i].coid, symbol))
  }

  lemma LeavesAloneChain(a: seq<Order>, b: seq<Order>, c: seq<Order>, symbol: Symbol)
    requires LeavesAlone(a, b, symbol) && LeavesAlone(b, c, symbol)
    ensures LeavesAlone(a, c, symbol)
  {
    forall i | 0 <= i < |a| ensures b[i].coid == a[i].coid && c[i].coid == b[i].coid {
    }
  }

  lemma EvolvedLeavesAlone(a: seq<Order>, b: seq<Order>, symbol: Symbol)
    requires Evolved(a, b)
    ensures LeavesAlone(a, b, symbol)
  {
  }

  /** Only submitting and replacing can add to a symbol's orders. */
  predicate Spares(orders: seq<Order>, c: Call, symbol: Symbol) {
    match c
    case SubmitMarketEntry(_, _, _, coid) => !ForSymbol(coid, symbol)
    case SubmitStop(_, _, _, _, coid) => !ForSymbol(coid, symbol)
    case SubmitOcoExit(_, _, _, _, _, coid) => !ForSymbol(coid, symbol)
    case ReplaceStop(id, _) => id < |orders| ==> !ForSymbol(orders[id].coid, symbol)
    case _ => true
  }

  lemma EffectLeavesAlone(e: Env, c: Call, withLegs: bool, symbol: Symbol)
    requires Spares(e.orders, c, symbol)
    ensures LeavesAlone(e.orders, Effect(e, c, withLegs).env.orders, symbol)
  {
    hide CoidUsed, WorkingIds, WithoutSymbol, Cents;
  }

  lemma ExecLeavesAlone(e: Env, c: Call, symbol: Symbol)
    requires Spares(e.orders, c, symbol)
    ensures LeavesAlone(e.orders, Exec(e, c).env.orders, symbol)
    ensures Spares(Exec(e, c).env.orders, c, symbol)
  {
    hide Effect, Arrive;
    ArriveEvolves(e, c);
    var here := Noted(Arrive(e), c);
    EvolvedLeavesAlone(e.orders, here.orders, symbol);
    assert Spares(here.orders, c, symbol);
    EffectLeavesAlone(here, c, true, symbol);
    EffectLeavesAlone(here, c, false, symbol);
    LeavesAloneChain(e.orders, here.orders, Exec(e, c).env.orders, symbol);
  }

  lemma {:induction false} RetryLeavesAlone(e: Env, c: Call, attempts: nat, symbol: Symbol)
    requires attempts >= 1 && Spares(e.orders, c, symbol)
    ensures LeavesAlone(e.orders, Retry(e, c, attempts).env.orders, symbol)
    decreases attempts
  {
    hide Exec, LeavesAlone, Spares;
    ExecLeavesAlone(e, c, symbol);
    if Retry(e, c, attempts) != Exec(e, c) {
      RetryLeavesAlone(Exec(e, c).env, c, attempts - 1, symbol);
      LeavesAloneChain(e.orders, Exec(e, c).env.orders, Retry(e, c, attempts).env.orders, symbol);
    }
  }

  // ----- protection comes after its entry -----

  function EntryIdFor(coid: Coid): Coid
    requires coid.Coid?
  {
    coid.(kind := EntryOrder)
  }

  /** Every order of the bot's belongs to an entry it submitted. */
  ghost predicate Rooted(orders: seq<Order>) {
    forall i :: 0 <= i < |orders| && orders[i].coid.Coid? ==> CoidUsed(orders, EntryIdFor(orders[i].coid))
  }

  /** A call that keeps it so: protection is only placed for a submitted entry. */
  predicate Roots(orders: seq<Order>, c: Call) {
    match c
    case SubmitMarketEntry(_, _, _, coid) => coid.Coid? && coid.kind.EntryOrder?
    case SubmitStop(_, _, _, _, coid) => coid.Coid? && CoidUsed(orders, EntryIdFor(coid))
    case SubmitOcoExit(_, _, _, _, _, coid) => coid.Coid? && CoidUsed(orders, EntryIdFor(coid))
    case _ => true
  }

  /** Old orders keep their ids, and new ones are foreign, copies of a known id,
      or belong to an entry that is there. */
  lemma StaysRooted(a: seq<Order>, b: seq<Order>)
    requires Rooted(a) && Aged(a, b)
    requires forall i :: |a| <= i < |b| ==>
      b[i].coid.Foreign? || CoidUsed(a, b[i].coid) || CoidUsed(b, EntryIdFor(b[i].coid))
    ensures Rooted(b)
  {
    forall i | 0 <= i < |b| && b[i].coid.Coid? ensures CoidUsed(b, EntryIdFor(b[i].coid)) {
      if CoidUsed(a, b[i].coid) {
        var j :| 0 <= j < |a| && a[j].coid == b[i].coid;
        AgedCoidUsed(a, b, EntryIdFor(a[j].coid));
      }
    }
  }

  lemma EffectKeepsRooted(e: Env, c: Call, withLegs: bool)
    requires Rooted(e.orders) && Roots(e.orders, c)
    ensures Rooted(Effect(e, c, withLegs).env.orders)
  {
    hide Rooted, CoidUsed;
    var after := Effect(e, c, withLegs).env.orders;
    EffectAges(e, c, withLegs);
    forall i | |e.orders| <= i < |after| && after[i].coid.Coid?
      ensures CoidUsed(e.orders, after[i].coid) || CoidUsed(after, EntryIdFor(after[i].coid))
    {
      NewOrderIsRooted(e, c, withLegs, i);
    }
    StaysRooted(e.orders, after);
  }

  lemma NewOrderIsRooted(e: Env, c: Call, withLegs: bool, i: nat)
    requires Roots(e.orders, c)
    requires var after := Effect(e, c, withLegs).env.orders; |e.orders| <= i < |after| && after[i].coid.Coid?
    ensures var after := Effect(e, c, withLegs).env.orders;
      CoidUsed(e.orders, after[i].coid) || CoidUsed(after, EntryIdFor(after[i].coid))
  {
    var after := Effect(e, c, withLegs).env.orders;
    match c
    case SubmitMarketEntry(_, _, _, _) => assert after[i].coid == EntryIdFor(after[i].coid);
    case SubmitStop(_, _, _, _, coid) =>
      EffectAges(e, c, withLegs);
      AgedCoidUsed(e.orders, after, EntryIdFor(coid));
    case SubmitOcoExit(_, _, _, _, _, coid) =>
      EffectAges(e, c, withLegs);
      AgedCoidUsed(e.orders, after, EntryIdFor(coid));
    case ReplaceStop(id, _) => assert e.orders[id].coid == after[i].coid;
    case _ =>
  }

  lemma EvolvedStaysRooted(a: seq<Order>, b: seq<Order>)
    requires Rooted(a) && Evolved(a, b)
    ensures Rooted(b)
  {
    hide Rooted, CoidUsed;
    StaysRooted(a, b);
  }

  lemma ExecKeepsRooted(e: Env, c: Call)
    requires Rooted(e.orders) && Roots(e.orders, c)
    ensures Rooted(Exec(e, c).env.orders) && Roots(Exec(e, c).env.orders, c)
  {
    hide Effect, Arrive, Rooted, CoidUsed;
    ArriveEvolves(e, c);
    var here := Noted(Arrive(e), c);
    EvolvedStaysRooted(e.orders, here.orders);
    RootsLater(e.orders, here.orders, c);
    EffectKeepsRooted(here, c, true);
    EffectKeepsRooted(here, c, false);
    ExecAges(e, c);
    RootsLater(e.orders, Exec(e, c).env.orders, c);
  }

  lemma RootsLater(a: seq<Order>, b: seq<Order>, c: Call)
    requires Aged(a, b) && Roots(a, c)
    ensures Roots(b, c)
  {
    hide CoidUsed;
    match c
    case SubmitStop(_, _, _, _, coid) => AgedCoidUsed(a, b, EntryIdFor(coid));
    case SubmitOcoExit(_, _, _, _, _, coid) => AgedCoidUsed(a, b, EntryIdFor(coid));
    case _ =>
  }

  lemma {:induction false} RetryKeepsRooted(e: Env, c: Call, attempts: nat)
    requires attempts >= 1 && Rooted(e.orders) && Roots(e.orders, c)
    ensures Rooted(Retry(e, c, attempts).env.orders)
    decreases attempts
  {
    hide Exec, Rooted, Roots;
    ExecKeepsRooted(e, c);
    if attempts > 1 {
      RetryKeepsRooted(Exec(e, c).env, c, attempts - 1);
    }
  }

  // ----- what a symbol's own past says -----

  ghost predicate Unseen(orders: seq<Order>, coid: Coid) {
    forall i :: 0 <= i < |orders| ==> orders[i].coid != coid
  }

  lemma UnseenIs(orders: seq<Order>, coid: Coid)
    ensures Unseen(orders, coid) <==> !CoidUsed(orders, coid)
  {
  }

  /** An entry id nobody has used yet has no protection resting under it either. */
  lemma FreshEntryIsBare(orders: seq<Order>, coid: Coid, kind: CoidKind)
    requires Rooted(orders) && coid.Coid? && Unseen(orders, EntryIdFor(coid))
    ensures Unseen(orders, coid.(kind := kind))
  {
    UnseenIs(orders, EntryIdFor(coid));
  }
}
