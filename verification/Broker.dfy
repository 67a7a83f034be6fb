/** The broker the bot talks to, as a state machine with faults.

    `Env` is everything outside the bot: resting orders, positions, the account,
    and a `script` deciding, call by call, what the market does first and whether
    the call is delivered, lost before it takes effect, or lost after. Proofs
    that hold for every script hold for every pattern of fills, cancellations
    and dropped connections. */
module Brokers {
  import opened Common
  import opened Rounding

  type Symbol = string
  type OrderId = nat

  datatype CoidKind = EntryOrder | ProtectOrder | StopLeg | LimitLeg

  /** Client order ids: deterministic for the bot's own orders. */
  datatype Coid = Coid(symbol: Symbol, strategy: string, tag: string, kind: CoidKind) | Foreign(n: nat)

  datatype OrderType = MarketOrder | StopOrder | LimitOrder

  datatype OrderStatus =
    | New | Accepted | Held | PartiallyFilled
    | Filled | Replaced
    | Rejected | Canceled | Expired | Suspended | Stopped

  predicate IsWorking(s: OrderStatus) { s.New? || s.Accepted? || s.Held? || s.PartiallyFilled? }

  /** Terminal statuses of an order that will never fill. */
  predicate IsDead(s: OrderStatus) { s.Rejected? || s.Canceled? || s.Expired? || s.Suspended? || s.Stopped? }

  /** An order's id is its index in `Env.orders`; `side` is the side of the
      position it opens or protects; a stop or limit order waits for `price`. */
  datatype Order = Order(coid: Coid, symbol: Symbol, side: Side, kind: OrderType, status: OrderStatus,
                         qty: real, price: real, filledQty: real, expiresInDays: Option<int>)

  datatype PositionView = PositionView(symbol: Symbol, qty: real, side: Side)

  datatype Account = Account(equity: real, lastEquity: real, buyingPower: real)

  /** What the market, or a human at the broker, may do between two calls. */
  datatype Event =
    | OrderBecomes(id: OrderId, status: OrderStatus, filledQty: real, expiresInDays: Option<int>)
    | ForeignOrder(n: nat, symbol: Symbol, side: Side, kind: OrderType, qty: real, stopPrice: real)
    | PositionsBecome(positions: seq<PositionView>)
    | AccountBecomes(account: Account)
    | MarketBecomes(open: bool)

  datatype Fate = Delivered | DeliveredWithoutLegs | LostBefore(transient: bool) | LostAfter(transient: bool)

  datatype Step = Step(events: seq<Event>, fate: Fate)

  datatype HaltClass =
    | Manual | ReconcileMismatch | KillSwitch | StaleData | Disconnect
    | Exception | SymbolErrors | Config | Unknown

  datatype HaltRecord = HaltRecord(reason: string, cls: HaltClass, ts: Option<int>)

  /** Marks left in the order things happened: orders that open positions, and
      writes and erasures of the halt file. */
  datatype Mark =
    | EntrySubmitted(symbol: Symbol)
    | HaltSet(record: HaltRecord)
    | HaltReset
    | HaltHealed(record: HaltRecord, day: int)
    | HaltDamaged

  datatype Env = Env(orders: seq<Order>, positions: seq<PositionView>, account: Account,
                     marketOpen: bool, script: seq<Step>, journal: seq<Mark>)

  datatype Call =
    | GetAccount
    | IsMarketOpen
    | ListPositions
    | ListOpenOrders
    | GetOrder(id: OrderId)
    | SubmitMarketEntry(symbol: Symbol, qty: real, side: Side, coid: Coid)
    | SubmitStop(symbol: Symbol, qty: real, side: Side, stopPrice: real, coid: Coid)
    | SubmitOcoExit(symbol: Symbol, qty: real, side: Side, stopPrice: real, takeProfit: real, coid: Coid)
    | ReplaceStop(id: OrderId, stopPrice: real)
    | CancelOrder(id: OrderId)
    | ClosePosition(symbol: Symbol)

  datatype Reply =
    | AccountReply(account: Account)
    | OpenReply(open: bool)
    | PositionsReply(positions: seq<PositionView>)
    | OrdersReply(ids: seq<OrderId>, orders: seq<Order>)
    | OrderReply(id: OrderId, order: Order)
    | LegsReply(legs: seq<(OrderId, OrderType)>)
    | Acknowledged

  datatype Result = Ok(reply: Reply) | Err(transient: bool)

  datatype Called = Called(env: Env, result: Result)

  predicate Fits(c: Call, r: Reply) {
    match c
    case GetAccount => r.AccountReply?
    case IsMarketOpen => r.OpenReply?
    case ListPositions => r.PositionsReply?
    case ListOpenOrders => r.OrdersReply? && |r.ids| == |r.orders|
    case GetOrder(id) => r.OrderReply? && r.id == id
    case SubmitMarketEntry(_, _, _, _) => r.OrderReply?
    case SubmitStop(_, _, _, _, _) => r.OrderReply?
    case SubmitOcoExit(_, _, _, _, _, _) => r.LegsReply?
    case ReplaceStop(_, _) => r.OrderReply?
    case CancelOrder(_) => r.Acknowledged?
    case ClosePosition(_) => r.Acknowledged?
  }

  /** A working order may fill, die or age; a finished one stays as it is. */
  function Happen(e: Env, ev: Event): Env {
    match ev
    case OrderBecomes(id, status, filledQty, days) =>
      if id < |e.orders| && IsWorking(e.orders[id].status)
      then e.(orders := e.orders[id := e.orders[id].(status := status, filledQty := filledQty, expiresInDays := days)])
      else e
    case ForeignOrder(n, symbol, side, kind, qty, stopPrice) =>
      e.(orders := e.orders + [Order(Foreign(n), symbol, side, kind, Accepted, qty, stopPrice, 0.0, None)])
    case PositionsBecome(positions) => e.(positions := positions)
    case AccountBecomes(account) => e.(account := account)
    case MarketBecomes(open) => e.(marketOpen := open)
  }

  function HappenAll(e: Env, events: seq<Event>): Env
    decreases |events|
  {
    if events == [] then e else HappenAll(Happen(e, events[0]), events[1..])
  }

  predicate CoidUsed(orders: seq<Order>, coid: Coid) {
    exists i :: 0 <= i < |orders| && orders[i].coid == coid
  }

  function WorkingIds(orders: seq<Order>): (ids: seq<OrderId>)
    ensures forall k :: 0 <= k < |ids| ==> ids[k] < |orders| && IsWorking(orders[ids[k]].status)
    ensures forall i :: 0 <= i < |orders| && IsWorking(orders[i].status) ==> i in ids
  {
    if orders == [] then []
    else
      var n := |orders| - 1;
      WorkingIds(orders[..n]) + if IsWorking(orders[n].status) then [n] else []
  }

  /** Closing a symbol also cancels every order still working for it. */
  function CancelSymbol(orders: seq<Order>, symbol: Symbol): seq<Order> {
    seq(|orders|, i requires 0 <= i < |orders| =>
      if orders[i].symbol == symbol && IsWorking(orders[i].status)
      then orders[i].(status := Canceled) else orders[i])
  }

  function WithoutSymbol(positions: seq<PositionView>, symbol: Symbol): seq<PositionView> {
    if positions == [] then []
    else (if positions[0].symbol == symbol then [] else [positions[0]]) + WithoutSymbol(positions[1..], symbol)
  }

  /** The effect of a call that reaches the broker. */
  function Effect(e: Env, c: Call, withLegs: bool): (r: Called)
    ensures r.result.Ok? ==> Fits(c, r.result.reply)
    ensures r.env.journal == e.journal && r.env.script == e.script
  {
    var n := |e.orders|;
    match c
    case GetAccount => Called(e, Ok(AccountReply(e.account)))
    case IsMarketOpen => Called(e, Ok(OpenReply(e.marketOpen)))
    case ListPositions => Called(e, Ok(PositionsReply(e.positions)))
    case ListOpenOrders =>
      var ids := WorkingIds(e.orders);
      Called(e, Ok(OrdersReply(ids, seq(|ids|, i requires 0 <= i < |ids| => e.orders[ids[i]]))))
    case GetOrder(id) =>
      if id < n then Called(e, Ok(OrderReply(id, e.orders[id]))) else Called(e, Err(false))
    case SubmitMarketEntry(symbol, qty, side, coid) =>
      if CoidUsed(e.orders, coid) then Called(e, Err(false)) else
      var o := Order(coid, symbol, side, MarketOrder, New, qty, 0.0, 0.0, None);
      Called(e.(orders := e.orders + [o]), Ok(OrderReply(n, o)))
    case SubmitStop(symbol, qty, side, stopPrice, coid) =>
      if CoidUsed(e.orders, coid) then Called(e, Err(false)) else
      var o := Order(coid, symbol, side, StopOrder, Held, qty, Cents(stopPrice), 0.0, Some(90));
      Called(e.(orders := e.orders + [o]), Ok(OrderReply(n, o)))
    case SubmitOcoExit(symbol, qty, side, stopPrice, takeProfit, coid) =>
      if CoidUsed(e.orders, coid) || coid.Foreign? then Called(e, Err(false)) else
      var stop := Order(coid.(kind := StopLeg), symbol, side, StopOrder, Held, qty, Cents(stopPrice), 0.0, Some(90));
      var limit := Order(coid.(kind := LimitLeg), symbol, side, LimitOrder, Held, qty, Cents(takeProfit), 0.0, Some(90));
      var parent := Order(coid, symbol, side, LimitOrder, Held, qty, Cents(takeProfit), 0.0, Some(90));
      Called(e.(orders := e.orders + [stop, limit, parent]),
             Ok(LegsReply(if withLegs then [(n, StopOrder), (n + 1, LimitOrder)] else [])))
    case ReplaceStop(id, stopPrice) =>
      if id >= n || !IsWorking(e.orders[id].status) then Called(e, Err(false)) else
      var o := e.orders[id].(price := Cents(stopPrice), expiresInDays := Some(90));
      Called(e.(orders := e.orders[id := e.orders[id].(status := Replaced)] + [o]), Ok(OrderReply(n, o)))
    case CancelOrder(id) =>
      if id < n && IsWorking(e.orders[id].status)
      then Called(e.(orders := e.orders[id := e.orders[id].(status := Canceled)]), Ok(Acknowledged))
      else Called(e, Ok(Acknowledged))
    case ClosePosition(symbol) =>
      Called(e.(orders := CancelSymbol(e.orders, symbol), positions := WithoutSymbol(e.positions, symbol)),
             Ok(Acknowledged))
  }

  /** The market moves, then the call meets its fate. */
  function NextStep(e: Env): Step { if e.script == [] then Step([], Delivered) else e.script[0] }

  function Arrive(e: Env): Env {
    HappenAll(e.(script := if e.script == [] then [] else e.script[1..]), NextStep(e).events)
  }

  function Noted(e: Env, c: Call): Env {
    if c.SubmitMarketEntry? then e.(journal := e.journal + [EntrySubmitted(c.symbol)]) else e
  }

  function Exec(e: Env, c: Call): (r: Called)
    ensures r.result.Ok? ==> Fits(c, r.result.reply)
  {
    var here := Noted(Arrive(e), c);
    match NextStep(e).fate
    case LostBefore(transient) => Called(here, Err(transient))
    case LostAfter(transient) => Called(Effect(here, c, true).env, Err(transient))
    case Delivered => Effect(here, c, true)
    case DeliveredWithoutLegs => Effect(here, c, false)
  }

  /** Up to `attempts` tries; only a transient failure is tried again. */
  function Retry(e: Env, c: Call, attempts: nat): (r: Called)
    requires attempts >= 1
    ensures r.result.Ok? ==> Fits(c, r.result.reply)
    decreases attempts
  {
    var first := Exec(e, c);
    if first.result.Ok? || !first.result.transient || attempts == 1 then first
    else Retry(first.env, c, attempts - 1)
  }

  const ATTEMPTS: nat := 3

  // ----- what a call leaves alone -----

  lemma {:induction false} HappenAllKeepsJournal(e: Env, events: seq<Event>)
    ensures HappenAll(e, events).journal == e.journal && HappenAll(e, events).script == e.script
    decreases |events|
  {
    if events != [] {
      HappenAllKeepsJournal(Happen(e, events[0]), events[1..]);
    }
  }

  /** Only submitting an entry leaves a mark, and it leaves it whatever the
      call's fate. */
  lemma ExecJournal(e: Env, c: Call)
    ensures Exec(e, c).env.journal == Noted(e, c).journal
  {
    HappenAllKeepsJournal(e.(script := if e.script == [] then [] else e.script[1..]), NextStep(e).events);
  }

  lemma {:induction false} RetryJournal(e: Env, c: Call, attempts: nat)
    requires attempts >= 1 && !c.SubmitMarketEntry?
    ensures Retry(e, c, attempts).env.journal == e.journal
    decreases attempts
  {
    ExecJournal(e, c);
    if attempts > 1 {
      RetryJournal(Exec(e, c).env, c, attempts - 1);
    }
  }

  /** The broker as an object: its state changes in place, call by call. */
  class Broker {
    var env: Env

    constructor (env: Env)
      ensures this.env == env
    {
      this.env := env;
    }

    method Perform(c: Call) returns (r: Result)
      modifies this
      ensures Called(env, r) == Exec(old(env), c)
      ensures r.Ok? ==> Fits(c, r.reply)
    {
      var called := Exec(env, c);
      env, r := called.env, called.result;
    }

    /** Calls until it works, fails for good, or the attempts run out. */
    method RetryTransient(c: Call) returns (r: Result)
      modifies this
      ensures Called(env, r) == Retry(old(env), c, ATTEMPTS)
      ensures r.Ok? ==> Fits(c, r.reply)
    {
      var attempt := 0;
      r := Err(true);
      while attempt < ATTEMPTS && r.Err? && r.transient
        invariant 0 <= attempt <= ATTEMPTS
        invariant r.Ok? ==> Fits(c, r.reply)
        invariant attempt == 0 ==> r == Err(true) && env == old(env)
        invariant Retry(old(env), c, ATTEMPTS) ==
          if attempt < ATTEMPTS && r.Err? && r.transient then Retry(env, c, ATTEMPTS - attempt) else Called(env, r)
      {
        r := Perform(c);
        attempt := attempt + 1;
      }
    }
  }
}
