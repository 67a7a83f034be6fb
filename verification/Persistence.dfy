/** Saving positions to JSON and building them back: the file holds enough that a
    restart between any two operations changes nothing that follows. */
module Persistence {
  import opened Common
  import opened Ratchets
  import opened Brokers
  import opened OrderManagers
  import opened StopSandwich

  datatype Json = Null | Text(text: string) | Num(num: real) | Ref(id: nat) | Object(fields: map<string, Json>)

  // ----- leaves -----

  function OptNum(o: Option<real>): Json { if o.None? then Null else Num(o.value) }

  function OptRef(o: Option<nat>): Json { if o.None? then Null else Ref(o.value) }

  /** A missing key and an explicit null read the same. */
  function Field(fields: map<string, Json>, key: string): Json { if key in fields then fields[key] else Null }

  /** None when the key holds something that is neither null nor a number. */
  function ReadOptNum(j: Json): Option<Option<real>> {
    match j
    case Null => Some(None)
    case Num(n) => Some(Some(n))
    case _ => None
  }

  function ReadOptRef(j: Json): Option<Option<nat>> {
    match j
    case Null => Some(None)
    case Ref(n) => Some(Some(n))
    case _ => None
  }

  function SideText(s: Side): string { if s.Long? then "long" else "short" }

  function ReadSide(j: Json): Option<Side> {
    if j == Text("long") then Some(Long) else if j == Text("short") then Some(Short) else None
  }

  function StatusText(s: PositionStatus): string {
    match s
    case PendingEntry => "pending_entry"
    case Open => "open"
    case PendingExit => "pending_exit"
    case Closed => "closed"
  }

  function ReadStatus(j: Json): Option<PositionStatus> {
    if j == Text("pending_entry") then Some(PendingEntry)
    else if j == Text("open") then Some(PositionStatus.Open)
    else if j == Text("pending_exit") then Some(PendingExit)
    else if j == Text("closed") then Some(Closed)
    else None
  }

  function OrderStatusText(s: OrderStatus): string {
    match s
    case New => "new"
    case Accepted => "accepted"
    case Held => "held"
    case PartiallyFilled => "partially_filled"
    case Filled => "filled"
    case Replaced => "replaced"
    case Rejected => "rejected"
    case Canceled => "canceled"
    case Expired => "expired"
    case Suspended => "suspended"
    case Stopped => "stopped"
  }

  /** Null, or one of the broker's statuses. */
  function ReadOrderStatus(j: Json): Option<Option<OrderStatus>> {
    if j.Null? then Some(None)
    else if j == Text("new") then Some(Some(New))
    else if j == Text("accepted") then Some(Some(Accepted))
    else if j == Text("held") then Some(Some(Held))
    else if j == Text("partially_filled") then Some(Some(PartiallyFilled))
    else if j == Text("filled") then Some(Some(Filled))
    else if j == Text("replaced") then Some(Some(Replaced))
    else if j == Text("rejected") then Some(Some(Rejected))
    else if j == Text("canceled") then Some(Some(Canceled))
    else if j == Text("expired") then Some(Some(OrderStatus.Expired))
    else if j == Text("suspended") then Some(Some(Suspended))
    else if j == Text("stopped") then Some(Some(Stopped))
    else None
  }

  // ----- ladders -----

  function LadderFields(r: Ratchet): map<string, Json> {
    match r.rule
    case PercentRule(initial, lock, profit, step) =>
      map["kind" := Text("percent"), "entry" := Num(r.entry), "side" := Text(SideText(r.side)),
          "initial_stop_pct" := Num(initial), "lock_trigger_pct" := OptNum(lock), "profit_lock_pct" := OptNum(profit),
          "step_pct" := OptNum(step), "extreme" := Num(r.extreme), "stop" := Num(r.stop)]
    case AtrRule(initial, trail, atr) =>
      map["kind" := Text("atr"), "entry" := Num(r.entry), "side" := Text(SideText(r.side)),
          "atr_multiple_initial" := Num(initial), "atr_multiple_trail" := Num(trail), "atr" := Num(atr),
          "extreme" := Num(r.extreme), "stop" := Num(r.stop)]
  }

  function ReadRule(f: map<string, Json>): Option<Rule> {
    if Field(f, "kind") == Text("atr") then
      var initial, trail, atr := Field(f, "atr_multiple_initial"), Field(f, "atr_multiple_trail"), Field(f, "atr");
      if initial.Num? && trail.Num? && atr.Num? then Some(AtrRule(initial.num, trail.num, atr.num)) else None
    else
      var initial := Field(f, "initial_stop_pct");
      var lock, profit := ReadOptNum(Field(f, "lock_trigger_pct")), ReadOptNum(Field(f, "profit_lock_pct"));
      var step := ReadOptNum(Field(f, "step_pct"));
      if initial.Num? && lock.Some? && profit.Some? && step.Some?
      then Some(PercentRule(initial.num, lock.value, profit.value, step.value)) else None
  }

  /** A fresh ladder of the saved rule, then its saved high-water mark and stop. */
  function ReadLadder(j: Json): Option<Ratchet> {
    if !j.Object? then None else
    var entry, side, rule := Field(j.fields, "entry"), ReadSide(Field(j.fields, "side")), ReadRule(j.fields);
    var extreme, stop := Field(j.fields, "extreme"), Field(j.fields, "stop");
    if entry.Num? && side.Some? && rule.Some? && extreme.Num? && stop.Num?
    then Some(Ratchets.New(entry.num, side.value, rule.value).(extreme := extreme.num, stop := stop.num)) else None
  }

  lemma LadderSurvives(r: Ratchet)
    ensures ReadLadder(Object(LadderFields(r))) == Some(r)
  {
  }

  // ----- positions -----

  function ToRecord(p: Pos): map<string, Json> {
    map["symbol" := Text(p.symbol), "side" := Text(SideText(p.side)), "qty" := Num(p.qty), "strategy" := Text(p.strategy),
        "entry_order_id" := Ref(p.entryOrderId), "stop_order_id" := OptRef(p.stopOrderId),
        "current_stop" := Num(p.currentStop), "status" := Text(StatusText(p.status)), "filled_qty" := Num(p.filledQty),
        "tp_order_id" := OptRef(p.tpOrderId), "take_profit" := OptNum(p.takeProfit),
        "last_order_status" := if p.lastOrderStatus.None? then Null else Text(OrderStatusText(p.lastOrderStatus.value)),
        "open_tag" := Text(p.openTag), "ratchet" := Object(LadderFields(p.ratchet))]
  }

  /** Keys added later have defaults: a record without them reads as OPEN, with
      nothing filled and an empty tag. */
  function Defaulted(f: map<string, Json>, key: string, default: Json): Json { if key in f then f[key] else default }

  function FromRecord(f: map<string, Json>): Option<Pos> {
    var symbol, side, qty, strategy := Field(f, "symbol"), ReadSide(Field(f, "side")), Field(f, "qty"), Field(f, "strategy");
    var entryId, stopId, tpId := Field(f, "entry_order_id"), ReadOptRef(Field(f, "stop_order_id")), ReadOptRef(Field(f, "tp_order_id"));
    var currentStop, ladder := Field(f, "current_stop"), ReadLadder(Field(f, "ratchet"));
    var status, filled := ReadStatus(Defaulted(f, "status", Text("open"))), Defaulted(f, "filled_qty", Num(0.0));
    var target, last := ReadOptNum(Field(f, "take_profit")), ReadOrderStatus(Field(f, "last_order_status"));
    var tag := Defaulted(f, "open_tag", Text(""));
    if symbol.Text? && side.Some? && qty.Num? && strategy.Text? && entryId.Ref? && stopId.Some? && tpId.Some?
       && currentStop.Num? && ladder.Some? && status.Some? && filled.Num? && target.Some? && last.Some? && tag.Text?
    then Some(Pos(symbol.text, side.value, qty.num, strategy.text, entryId.id, stopId.value, currentStop.num, ladder.value,
                  status.value, filled.num, tpId.value, target.value, last.value, tag.text))
    else None
  }

  /** Every position, of either ladder kind and in every status, survives saving
      and loading unchanged. */
  lemma RecordSurvives(p: Pos)
    ensures FromRecord(ToRecord(p)) == Some(p)
  {
    hide ReadLadder, LadderFields, ReadOrderStatus, OrderStatusText, ReadStatus, StatusText, ReadSide, SideText;
    LadderSurvives(p.ratchet);
    OrderStatusSurvives(p.lastOrderStatus);
    StatusSurvives(p.status);
    SideSurvives(p.side);
  }

  lemma OrderStatusSurvives(o: Option<OrderStatus>)
    ensures ReadOrderStatus(if o.None? then Null else Text(OrderStatusText(o.value))) == Some(o)
  {
  }

  lemma StatusSurvives(s: PositionStatus)
    ensures ReadStatus(Text(StatusText(s))) == Some(s)
  {
  }

  lemma SideSurvives(s: Side)
    ensures ReadSide(Text(SideText(s))) == Some(s)
  {
  }

  /** A record from before the newer fields existed still loads. */
  lemma OldRecordLoads(p: Pos)
    ensures FromRecord(ToRecord(p) - {"status", "filled_qty", "tp_order_id", "take_profit", "last_order_status", "open_tag"})
         == Some(p.(status := PositionStatus.Open, filledQty := 0.0, tpOrderId := None, takeProfit := None,
                    lastOrderStatus := None, openTag := ""))
  {
    hide ReadLadder, LadderFields, ReadSide, SideText;
    LadderSurvives(p.ratchet);
    SideSurvives(p.side);
  }

  // ----- the file, and restarts -----

  function Save(book: seq<Pos>): seq<map<string, Json>> { seq(|book|, i requires 0 <= i < |book| => ToRecord(book[i])) }

  /** None if any record cannot be read. */
  function Load(records: seq<map<string, Json>>): Option<seq<Pos>> {
    if records == [] then Some([])
    else
      var n := |records| - 1;
      var earlier, last := Load(records[..n]), FromRecord(records[n]);
      if earlier.Some? && last.Some? then Some(earlier.value + [last.value]) else None
  }

  lemma SaveSnoc(book: seq<Pos>, p: Pos)
    ensures Save(book + [p]) == Save(book) + [ToRecord(p)]
  {
    hide ToRecord;
  }

  lemma {:induction false} BookSurvives(book: seq<Pos>)
    ensures Load(Save(book)) == Some(book)
  {
    hide FromRecord, ToRecord;
    if book != [] {
      var n := |book| - 1;
      BookSurvives(book[..n]);
      SaveSnoc(book[..n], book[n]);
      assert book == book[..n] + [book[n]];
      RecordSurvives(book[n]);
    }
  }

  /** The position after a restart; None if its record could not be read. */
  function Restarted(p: Pos): Option<Pos> { FromRecord(ToRecord(p)) }

  /** Everything the bot ever does to a position. */
  datatype Operation = Settling | Closing | Stopping(op: StopOp)

  function Perform(e: Env, p: Pos, o: Operation): Done {
    match o
    case Settling => Settle(e, p)
    case Closing => Close(e, p)
    case Stopping(op) => ApplyOp(e, p, op)
  }

  function PerformAll(e: Env, p: Pos, ops: seq<Operation>): Done
    decreases |ops|
  {
    if ops == [] then Done(e, p, Returned(true))
    else
      var d := Perform(e, p, ops[0]);
      PerformAll(d.env, d.pos, ops[1..])
  }

  /** The same operations, with a restart before each one that asks for it. */
  function PerformWithRestarts(e: Env, p: Pos, ops: seq<(Operation, bool)>): Option<Done>
    decreases |ops|
  {
    if ops == [] then Some(Done(e, p, Returned(true)))
    else
      var q := if ops[0].1 then Restarted(p) else Some(p);
      if q.None? then None else
      var d := Perform(e, q.value, ops[0].0);
      PerformWithRestarts(d.env, d.pos, ops[1..])
  }

  function OpsOf(ops: seq<(Operation, bool)>): seq<Operation> { seq(|ops|, i requires 0 <= i < |ops| => ops[i].0) }

  /** Restarts are invisible: wherever they fall, every later stop level, broker
      call and status is what it would have been without them. */
  lemma {:induction false} RestartsChangeNothing(e: Env, p: Pos, ops: seq<(Operation, bool)>)
    ensures PerformWithRestarts(e, p, ops) == Some(PerformAll(e, p, OpsOf(ops)))
    decreases |ops|
  {
    hide FromRecord, ToRecord, Perform;
    if ops != [] {
      RecordSurvives(p);
      var d := Perform(e, p, ops[0].0);
      RestartsChangeNothing(d.env, d.pos, ops[1..]);
      assert OpsOf(ops)[1..] == OpsOf(ops[1..]);
    }
  }

  // ----- the objects -----

  class StateStore {
    var file: seq<map<string, Json>>

    constructor ()
      ensures file == []
    {
      file := [];
    }

    method SaveAll(book: seq<Pos>)
      modifies this
      ensures file == Save(book)
    {
      file := [];
      for i := 0 to |book|
        invariant file == Save(book[..i])
      {
        file := file + [ToRecord(book[i])];
      }
      assert book[..|book|] == book;
    }

    /** A position object and its ladder, rebuilt from the i-th record. */
    method Rebuild(i: nat) returns (p: Option<ManagedPosition>)
      requires i < |file|
      ensures p.Some? <==> FromRecord(file[i]).Some?
      ensures p.Some? ==> fresh(p.value) && fresh(p.value.ratchet.Object()) && p.value.View() == FromRecord(file[i]).value
    {
      hide FromRecord;
      var saved := FromRecord(file[i]);
      if saved.None? {
        return None;
      }
      var ladder := FromValue(saved.value.ratchet);
      var position := new ManagedPosition.Restored(saved.value, ladder);
      p := Some(position);
    }
  }
}
