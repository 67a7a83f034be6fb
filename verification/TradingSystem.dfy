/** The whole live system: scheduled cycles, phone actions and the self-healer
    taking turns on one desk, in any order, against any script. */
module TradingSystem {
  import opened Common
  import opened Ratchets
  import opened Brokers
  import opened OrderManagers
  import opened Reconcilers
  import opened Cycles
  import opened CycleSafety
  import TradeServices
  import opened SelfHealing

  datatype World = World(desk: Desk, healer: Healer, counter: Counter, clock: int)

  datatype Action =
    | ScheduledCycle(c: CycleInput)
    | PhoneOrder(o: TradeServices.Order, lockBusy: bool)
    | PhoneClose(symbol: Symbol, lockBusy: bool)
    | PhoneFlatten(lockBusy: bool)
    | PhoneHalt(reason: string, lockBusy: bool)
    | PhoneReset(lockBusy: bool)
    | HealVerify(faultCleared: Option<bool>)
    | HealCommit(lockBusy: bool)
    | HealCount
    | TimePasses(seconds: nat)
    | HaltFileDamaged

  function Damaged(d: Desk): Desk {
    if d.halt.Absent? then d
    else d.(halt := Unreadable, env := d.env.(journal := d.env.journal + [HaltDamaged]))
  }

  function Act(policy: Policy, w: World, a: Action): World {
    match a
    case ScheduledCycle(c) => w.(desk := RunCycle(c.(now := w.clock), w.desk))
    case PhoneOrder(o, busy) => w.(desk := TradeServices.Place(o, busy, w.desk).desk)
    case PhoneClose(symbol, busy) => w.(desk := TradeServices.ClosePhone(symbol, busy, w.desk).desk)
    case PhoneFlatten(busy) => w.(desk := TradeServices.FlattenPhone(busy, w.desk).desk)
    case PhoneHalt(reason, busy) => w.(desk := TradeServices.HaltPhone(reason, busy, w.clock, w.desk).desk)
    case PhoneReset(busy) => w.(desk := TradeServices.ResetPhone(busy, w.desk).desk)
    case HealVerify(fault) =>
      if w.healer.Cleared? then w else w.(healer := Verify(policy, w.counter, w.desk.halt, w.clock, fault))
    case HealCommit(busy) =>
      var c := Commit(w.healer, busy, w.clock, w.desk);
      w.(desk := c.desk, healer := c.healer)
    case HealCount =>
      if w.healer.Cleared? then w.(healer := Idle, counter := Count(w.counter, w.clock)) else w
    case TimePasses(seconds) => w.(clock := w.clock + seconds)
    case HaltFileDamaged => w.(desk := Damaged(w.desk))
  }

  function Run(policy: Policy, w: World, actions: seq<Action>): World {
    if actions == [] then w
    else Act(policy, Run(policy, w, actions[..|actions| - 1]), actions[|actions| - 1])
  }

  // ----- the halt file is what the journal says -----

  function Applied(f: HaltFile, m: Mark): HaltFile {
    match m
    case EntrySubmitted(_) => f
    case HaltSet(record) => Stored(record)
    case HaltReset => Absent
    case HaltHealed(_, _) => Absent
    case HaltDamaged => Unreadable
  }

  function Replay(start: HaltFile, journal: seq<Mark>): HaltFile {
    if journal == [] then start
    else Applied(Replay(start, journal[..|journal| - 1]), journal[|journal| - 1])
  }

  /** No mark of an entry comes at a moment when the bot was halted. */
  ghost predicate NoEntryWhileHalted(start: HaltFile, journal: seq<Mark>) {
    forall i :: 0 <= i < |journal| && journal[i].EntrySubmitted? ==> !IsHalted(Replay(start, journal[..i]))
  }

  ghost predicate Sound(start: HaltFile, d: Desk) {
    && BookOk(d.book)
    && Replay(start, d.env.journal) == d.halt
    && NoEntryWhileHalted(start, d.env.journal)
  }

  lemma SnocSound(start: HaltFile, journal: seq<Mark>, m: Mark)
    requires NoEntryWhileHalted(start, journal)
    requires m.EntrySubmitted? ==> !IsHalted(Replay(start, journal))
    ensures NoEntryWhileHalted(start, journal + [m])
    ensures Replay(start, journal + [m]) == Applied(Replay(start, journal), m)
  {
    var longer := journal + [m];
    assert longer[..|journal|] == journal;
    forall i | 0 <= i < |longer| && longer[i].EntrySubmitted? ensures !IsHalted(Replay(start, longer[..i])) {
      assert i < |journal| ==> longer[..i] == journal[..i];
    }
  }

  lemma {:induction false} EntriesSound(start: HaltFile, before: seq<Mark>, after: seq<Mark>)
    requires OnlyEntriesAdded(before, after) && NoEntryWhileHalted(start, before)
    requires |after| > |before| ==> !IsHalted(Replay(start, before))
    ensures NoEntryWhileHalted(start, after) && Replay(start, after) == Replay(start, before)
    decreases |after|
  {
    if |after| == |before| {
      assert after == before;
    } else {
      var n := |after| - 1;
      assert after[..n][..|before|] == before;
      EntriesSound(start, before, after[..n]);
      assert after == after[..n] + [after[n]];
      SnocSound(start, after[..n], after[n]);
    }
  }

  // ----- each action keeps the desk sound -----

  lemma CycleSound(start: HaltFile, c: CycleInput, d: Desk)
    requires Sound(start, d)
    ensures Sound(start, RunCycle(c, d))
  {
    if !IsHalted(d.halt) {
      if LiveBlocked(c) {
        SnocSound(start, d.env.journal, HaltSet(HaltRecord(ReasonFor(Config), Config, Some(c.now))));
      } else if !c.lockBusy {
        BodyKeeps(c, d);
        var end := Body(c, d.env, d.book);
        EntriesSound(start, d.env.journal, end.env.journal);
        if end.halt.Some? {
          SnocSound(start, end.env.journal, HaltSet(HaltRecord(ReasonFor(end.halt.value), end.halt.value, Some(c.now))));
        }
      }
    }
  }

  lemma OrderJournal(o: TradeServices.Order, d: Desk)
    requires BookOk(d.book)
    ensures var after := TradeServices.GateAndOpen(o, d).desk;
      OnlyEntriesAdded(d.env.journal, after.env.journal) && BookOk(after.book) && after.halt == d.halt
  {
    RetryJournal(d.env, IsMarketOpen, ATTEMPTS);
    var m := Retry(d.env, IsMarketOpen, ATTEMPTS);
    RetryJournal(m.env, GetAccount, ATTEMPTS);
    var a := Retry(m.env, GetAccount, ATTEMPTS);
    if o.approvedQty.Some? {
      OpenEntryKeeps(a.env, d.book, TradeServices.PlanOf(o, MinInt(o.requestedQty, o.approvedQty.value)));
    }
  }

  lemma {:induction false} FlattenFromKeeps(e: Env, todo: seq<Pos>)
    requires BookOk(todo)
    ensures var f := TradeServices.FlattenFrom(e, todo);
      f.env.journal == e.journal && BookOk(f.book) && NoneAdded(todo, f.book)
    decreases |todo|
  {
    if todo != [] {
      CloseJournal(e, todo[0]);
      var next := if Live(todo[0]) then Close(e, todo[0]).env else e;
      FlattenFromKeeps(next, todo[1..]);
      var tail := TradeServices.FlattenFrom(next, todo[1..]).book;
      ConsKeeps(todo, [], tail);
      ConsKeeps(todo, [todo[0]], tail);
      assert [] + tail == tail;
    }
  }

  lemma ActSound(start: HaltFile, policy: Policy, w: World, a: Action)
    requires Sound(start, w.desk)
    ensures Sound(start, Act(policy, w, a).desk)
  {
    hide TradeServices.GateAndOpen, TradeServices.FlattenFrom, Close, RunCycle, Replay, NoEntryWhileHalted;
    var d := w.desk;
    match a
    case ScheduledCycle(c) => CycleSound(start, c.(now := w.clock), d);
    case PhoneOrder(o, busy) =>
      OrderJournal(o, d);
      if !busy && !IsHalted(d.halt) {
        EntriesSound(start, d.env.journal, TradeServices.GateAndOpen(o, d).desk.env.journal);
      }
    case PhoneClose(symbol, busy) =>
      if IndexOf(d.book, symbol).Some? { CloseJournal(d.env, d.book[IndexOf(d.book, symbol).value]); }
    case PhoneFlatten(busy) => FlattenFromKeeps(d.env, d.book);
    case PhoneHalt(reason, busy) => SnocSound(start, d.env.journal, HaltSet(HaltRecord(reason, Manual, Some(w.clock))));
    case PhoneReset(busy) => SnocSound(start, d.env.journal, HaltReset);
    case HealCommit(busy) =>
      if w.healer.Verified? { SnocSound(start, d.env.journal, HaltHealed(w.healer.record, Day(w.clock))); }
    case HaltFileDamaged => SnocSound(start, d.env.journal, HaltDamaged);
    case _ =>
  }

  lemma ActKeepsBook(policy: Policy, w: World, a: Action)
    requires BookOk(w.desk.book)
    ensures BookOk(Act(policy, w, a).desk.book)
  {
    hide TradeServices.GateAndOpen, TradeServices.FlattenFrom, Close, Body;
    var d := w.desk;
    match a
    case ScheduledCycle(c) => BodyKeeps(c.(now := w.clock), d);
    case PhoneOrder(o, busy) => OrderJournal(o, d);
    case PhoneFlatten(busy) => FlattenFromKeeps(d.env, d.book);
    case _ =>
  }

  // ----- main results over whole runs -----

  /** From an empty journal and any sound book, whatever the actions, their order
      and the broker's script: no entry is ever submitted while the bot is
      halted, and no position in the book is ever OPEN without a stop id. */
  lemma {:induction false} RunsAreSound(policy: Policy, w: World, actions: seq<Action>)
    requires BookOk(w.desk.book) && w.desk.env.journal == []
    ensures Sound(w.desk.halt, Run(policy, w, actions).desk)
  {
    if actions != [] {
      RunsAreSound(policy, w, actions[..|actions| - 1]);
      ActSound(w.desk.halt, policy, Run(policy, w, actions[..|actions| - 1]), actions[|actions| - 1]);
    }
  }

  /** A halt of a class the healer may not touch. */
  predicate HardHalt(f: HaltFile) {
    IsHalted(f) && !Resumable(HaltInfo(f).value.cls)
  }

  predicate NamesAReason(a: Action) { a.PhoneHalt? ==> a.reason != "" }

  /** Only a manual reset lifts a hard halt; every other action leaves one in
      place and submits nothing. */
  lemma HardHaltStays(policy: Policy, w: World, a: Action)
    requires BookOk(w.desk.book) && HardHalt(w.desk.halt) && !a.PhoneReset? && NamesAReason(a)
    requires w.healer.Verified? ==> Resumable(w.healer.record.cls)
    ensures var after := Act(policy, w, a);
      && HardHalt(after.desk.halt)
      && Entries(after.desk.env.journal) == Entries(w.desk.env.journal)
      && (after.healer.Verified? ==> Resumable(after.healer.record.cls))
      && BookOk(after.desk.book)
  {
    hide TradeServices.GateAndOpen, TradeServices.FlattenFrom, Close, Body, Entries;
    var d := w.desk;
    match a
    case PhoneClose(symbol, busy) =>
      if IndexOf(d.book, symbol).Some? { CloseJournal(d.env, d.book[IndexOf(d.book, symbol).value]); }
    case PhoneFlatten(busy) => FlattenFromKeeps(d.env, d.book);
    case PhoneHalt(reason, busy) => EntriesSnoc(d.env.journal, HaltSet(HaltRecord(reason, Manual, Some(w.clock))));
    case HaltFileDamaged => EntriesSnoc(d.env.journal, HaltDamaged);
    case _ =>
  }

  lemma {:induction false} HardHaltOutlastsRuns(policy: Policy, w: World, actions: seq<Action>)
    requires BookOk(w.desk.book) && HardHalt(w.desk.halt) && (w.healer.Verified? ==> Resumable(w.healer.record.cls))
    requires forall i :: 0 <= i < |actions| ==> !actions[i].PhoneReset? && NamesAReason(actions[i])
    ensures var after := Run(policy, w, actions);
      && HardHalt(after.desk.halt)
      && Entries(after.desk.env.journal) == Entries(w.desk.env.journal)
      && (after.healer.Verified? ==> Resumable(after.healer.record.cls))
      && BookOk(after.desk.book)
  {
    if actions != [] {
      var n := |actions| - 1;
      HardHaltOutlastsRuns(policy, w, actions[..n]);
      HardHaltStays(policy, Run(policy, w, actions[..n]), actions[n]);
    }
  }

  /** A phone order answered with a broker error may have filled anyway. If the
      next cycle reads a position in that symbol it halts there: no entry goes
      out and the book is untouched. */
  lemma FailedPhoneOrderHaltsNextCycle(o: TradeServices.Order, busy: bool, d: Desk, c: CycleInput, v: PositionView)
    requires BookOk(d.book) && TradeServices.Place(o, busy, d).answer.BrokerError?
    requires var k := CheckpointOf(c, TradeServices.Place(o, busy, d).desk);
      k.Some? && k.value.Read? && v in k.value.snap.positions && v.symbol == o.symbol
    ensures var placed := TradeServices.Place(o, busy, d).desk;
      && placed.book == d.book
      && Entries(RunCycle(c, placed).env.journal) == Entries(placed.env.journal)
      && IsHalted(RunCycle(c, placed).halt) && RunCycle(c, placed).book == d.book
  {
    hide RunCycle, CheckpointOf, Entries;
    ExposedPositionHalts(c, TradeServices.Place(o, busy, d).desk, v);
  }

  /** The exact gap in "a persisted halt stops entries": a record whose reason is
      empty stops neither a phone order nor a scheduled cycle; both do to broker and
      book what they would do with no record at all. Every caller that writes a halt
      today names a reason, so it takes a file edited by hand, or a future caller. */
  lemma EmptyReasonGatesNothing(o: TradeServices.Order, busy: bool, c: CycleInput, d: Desk, cls: HaltClass, ts: Option<int>)
    requires d.halt == Stored(HaltRecord("", cls, ts))
    ensures HaltInfo(d.halt).Some? && !IsHalted(d.halt)
    ensures var ordered, free := TradeServices.Place(o, busy, d), TradeServices.Place(o, busy, d.(halt := Absent));
      ordered.answer == free.answer && ordered.desk == free.desk.(halt := d.halt)
    ensures var cycled, free := RunCycle(c, d), RunCycle(c, d.(halt := Absent));
      cycled.env == free.env && cycled.book == free.book && cycled.halt == (if free.halt.Absent? then d.halt else free.halt)
  {
    hide Body, Retry, OpenPosition, Settle;
  }

  /** And the condition is exact: what stops every phone order, and every scheduled
      cycle, is a file that cannot be read or a record that names a reason. */
  lemma HaltGatesIffReason(d: Desk)
    ensures IsHalted(d.halt) <==> d.halt.Unreadable? || (d.halt.Stored? && d.halt.record.reason != "")
    ensures IsHalted(d.halt)
       <==> forall o: TradeServices.Order :: TradeServices.Place(o, false, d) == TradeServices.Acted(d, TradeServices.HaltedAnswer)
    ensures IsHalted(d.halt) <==> forall c: CycleInput :: RunCycle(c, d) == d
  {
    hide Body, TradeServices.GateAndOpen;
    if !IsHalted(d.halt) {
      assert TradeServices.Place(NOBODY, false, d).answer != TradeServices.HaltedAnswer;
      var blocked := CycleInput(true, true, false, false, 1.0, 1, 0, s => NoBars, s => NoBars, [], "", 0);
      assert |RunCycle(blocked, d).env.journal| == |d.env.journal| + 1;
      assert RunCycle(blocked, d) != d;
    }
  }

  /** An entry that goes out past such a record: the quiet cycle submits its one
      approved candidate with the halt still on disk. */
  lemma EmptyReasonLetsEntryOut(c: CycleInput, d: Desk, ladder: Ratchet, cls: HaltClass, ts: Option<int>)
    requires c.execute && !LiveBlocked(c) && !c.lockBusy && c.maxDailyLossPct > 0.0
    requires c.candidates == [("SPY", Approved(Long, 1.0, "manual", ladder, None))]
    requires d == Desk(Env([], [], Account(1000.0, 1000.0, 1000.0), true, [], []), [], Stored(HaltRecord("", cls, ts)))
    ensures Entries(RunCycle(c, d).env.journal) == 1
    ensures RunCycle(c, d).halt == d.halt && HaltInfo(d.halt).Some?
  {
    hide RunCycle, Entries, LiveBlocked;
    QuietCycleEnters(c, d.(halt := Absent), ladder);
    EmptyReasonGatesNothing(NOBODY, false, c, d, cls, ts);
  }

  const NOBODY: TradeServices.Order :=
    TradeServices.Order("", Long, 0, None, false, "", Ratchet(0.0, Long, AtrRule(0.0, 0.0, 0.0), 0.0, 0.0), None, "")

  /** A heal that clears the file found in it exactly the record it verified. */
  lemma HealClearsOnlyWhatItVerified(policy: Policy, w: World, busy: bool)
    requires Act(policy, w, HealCommit(busy)).desk.halt != w.desk.halt
    ensures w.healer.Verified? && HaltInfo(w.desk.halt) == Some(w.healer.record)
    ensures Act(policy, w, HealCommit(busy)).desk.halt.Absent?
  {
  }

  // ----- heals over whole runs -----

  /** Every heal in the journal erased a halt the healer may touch, and erased exactly
      the record that stood on disk at that moment. */
  ghost predicate HealsVerified(start: HaltFile, journal: seq<Mark>) {
    forall i :: 0 <= i < |journal| && journal[i].HaltHealed? ==>
      HaltInfo(Replay(start, journal[..i])) == Some(journal[i].record) && Resumable(journal[i].record.cls)
  }

  ghost predicate NoHealAdded(before: seq<Mark>, after: seq<Mark>) {
    && |before| <= |after| && after[..|before|] == before
    && forall i :: |before| <= i < |after| ==> !after[i].HaltHealed?
  }

  lemma StaysVerified(start: HaltFile, before: seq<Mark>, after: seq<Mark>)
    requires HealsVerified(start, before) && NoHealAdded(before, after)
    ensures HealsVerified(start, after)
  {
    hide Replay;
    forall i | 0 <= i < |after| && after[i].HaltHealed?
      ensures HaltInfo(Replay(start, after[..i])) == Some(after[i].record) && Resumable(after[i].record.cls)
    {
      assert i < |before|;
      assert after[..|before|][i] == before[i] && after[..i] == before[..i];
    }
  }

  lemma HealIsVerified(start: HaltFile, before: seq<Mark>, record: HaltRecord, day: int)
    requires HealsVerified(start, before) && HaltInfo(Replay(start, before)) == Some(record) && Resumable(record.cls)
    ensures HealsVerified(start, before + [HaltHealed(record, day)])
  {
    hide Replay;
    var after := before + [HaltHealed(record, day)];
    forall i | 0 <= i < |after| && after[i].HaltHealed?
      ensures HaltInfo(Replay(start, after[..i])) == Some(after[i].record) && Resumable(after[i].record.cls)
    {
      assert i < |before| ==> after[..i] == before[..i];
      assert after[..|before|] == before;
    }
  }

  lemma CycleAddsNoHeal(c: CycleInput, d: Desk)
    requires BookOk(d.book)
    ensures NoHealAdded(d.env.journal, RunCycle(c, d).env.journal)
  {
    hide Body, BookOk;
    BodyKeeps(c, d);
  }

  /** No action but a heal's commit leaves the mark of one. */
  lemma ActAddsNoHeal(policy: Policy, w: World, a: Action)
    requires BookOk(w.desk.book) && !a.HealCommit?
    ensures NoHealAdded(w.desk.env.journal, Act(policy, w, a).desk.env.journal)
  {
    hide TradeServices.GateAndOpen, TradeServices.FlattenFrom, Close, RunCycle, BookOk;
    var d := w.desk;
    match a
    case ScheduledCycle(c) => CycleAddsNoHeal(c.(now := w.clock), d);
    case PhoneOrder(o, busy) => OrderJournal(o, d);
    case PhoneClose(symbol, busy) =>
      if IndexOf(d.book, symbol).Some? { CloseJournal(d.env, d.book[IndexOf(d.book, symbol).value]); }
    case PhoneFlatten(busy) => FlattenFromKeeps(d.env, d.book);
    case _ =>
  }

  lemma HealerStaysResumable(policy: Policy, w: World, a: Action)
    requires w.healer.Verified? ==> Resumable(w.healer.record.cls)
    ensures Act(policy, w, a).healer.Verified? ==> Resumable(Act(policy, w, a).healer.record.cls)
  {
    hide TradeServices.GateAndOpen, TradeServices.FlattenFrom, Close, RunCycle;
  }

  lemma ActHealsVerified(start: HaltFile, policy: Policy, w: World, a: Action)
    requires Sound(start, w.desk) && HealsVerified(start, w.desk.env.journal)
    requires w.healer.Verified? ==> Resumable(w.healer.record.cls)
    ensures HealsVerified(start, Act(policy, w, a).desk.env.journal)
  {
    hide HealsVerified, Replay, NoHealAdded, BookOk, NoEntryWhileHalted;
    if a.HealCommit? {
      if w.healer.Verified? && HaltInfo(w.desk.halt) == Some(w.healer.record) {
        HealIsVerified(start, w.desk.env.journal, w.healer.record, Day(w.clock));
      }
    } else {
      hide Act;
      ActAddsNoHeal(policy, w, a);
      StaysVerified(start, w.desk.env.journal, Act(policy, w, a).desk.env.journal);
    }
  }

  /** Whatever the actions and their order: a heal clears only a halt whose class may
      be resumed, and only the record it finds there is the one it verified. */
  lemma {:induction false} RunsHealOnlyVerified(policy: Policy, w: World, actions: seq<Action>)
    requires BookOk(w.desk.book) && w.desk.env.journal == [] && (w.healer.Verified? ==> Resumable(w.healer.record.cls))
    ensures var after := Run(policy, w, actions);
      && HealsVerified(w.desk.halt, after.desk.env.journal)
      && (after.healer.Verified? ==> Resumable(after.healer.record.cls))
  {
    if actions != [] {
      hide HealsVerified, Sound, Act, BookOk;
      var n := |actions| - 1;
      RunsHealOnlyVerified(policy, w, actions[..n]);
      RunsAreSound(policy, w, actions[..n]);
      ActHealsVerified(w.desk.halt, policy, Run(policy, w, actions[..n]), actions[n]);
      HealerStaysResumable(policy, Run(policy, w, actions[..n]), actions[n]);
    }
  }

  /** A record in the healer's hands is of a class it may verify, and has stood for the
      cooldown. */
  predicate Waited(policy: Policy, w: World) {
    w.healer.Verified? ==>
      var record := w.healer.record;
      && Resumable(record.cls) && record.cls in policy.verifiers
      && (record.ts.Some? ==> w.clock >= record.ts.value + policy.cooldownSeconds)
  }

  lemma {:induction false} RunsWait(policy: Policy, w: World, actions: seq<Action>)
    requires Waited(policy, w)
    ensures Waited(policy, Run(policy, w, actions))
  {
    hide TradeServices.Place, TradeServices.ClosePhone, TradeServices.FlattenPhone, RunCycle;
    if actions != [] {
      RunsWait(policy, w, actions[..|actions| - 1]);
    }
  }

  /** Over every run: a heal that clears the file clears a stale-data or disconnect halt,
      of a class it has a verifier for, that has stood, by the clock of that moment, for the whole cooldown. */
  lemma HealsWaitOutCooldown(policy: Policy, w: World, actions: seq<Action>, busy: bool)
    requires !w.healer.Verified?
    requires var m := Run(policy, w, actions); Act(policy, m, HealCommit(busy)).desk.halt != m.desk.halt
    ensures var m := Run(policy, w, actions);
      && HaltInfo(m.desk.halt).Some?
      && var record := HaltInfo(m.desk.halt).value;
         && record.cls in {StaleData, Disconnect} && record.cls in policy.verifiers
         && (record.ts.Some? ==> m.clock >= record.ts.value + policy.cooldownSeconds)
  {
    hide Run, TradeServices.Place, TradeServices.ClosePhone, TradeServices.FlattenPhone, RunCycle;
    RunsWait(policy, w, actions);
  }

  // ----- the daily cap -----

  function Heals(journal: seq<Mark>, day: int): nat {
    if journal == [] then 0
    else
      var last := journal[|journal| - 1];
      Heals(journal[..|journal| - 1], day) + if last.HaltHealed? && last.day == day then 1 else 0
  }

  lemma HealsSnoc(journal: seq<Mark>, m: Mark, day: int)
    ensures Heals(journal + [m], day) == Heals(journal, day) + if m.HaltHealed? && m.day == day then 1 else 0
  {
    assert (journal + [m])[..|journal|] == journal;
  }

  lemma {:induction false} HealsUnchanged(before: seq<Mark>, after: seq<Mark>, day: int)
    requires |before| <= |after| && after[..|before|] == before
    requires forall i :: |before| <= i < |after| ==> !after[i].HaltHealed?
    ensures Heals(after, day) == Heals(before, day)
    decreases |after|
  {
    if |after| == |before| {
      assert after == before;
    } else {
      var n := |after| - 1;
      assert after[..n][..|before|] == before;
      HealsUnchanged(before, after[..n], day);
    }
  }

  /** Resumes by day, the counter, and a resume not yet counted, tied together. */
  ghost predicate Capped(policy: Policy, w: World) {
    var today := Day(w.clock);
    && (forall day :: Heals(w.desk.env.journal, day) <= policy.maxPerDay)
    && (forall day :: day > today ==> Heals(w.desk.env.journal, day) == 0)
    && Heals(w.desk.env.journal, today) <= CountOn(w.counter, today) + (if w.healer.Cleared? then 1 else 0)
    && w.counter.day <= today
    && (w.healer.Verified? ==> CountOn(w.counter, today) < policy.maxPerDay)
  }

  /** Everything but a heal's commit leaves the resumes as they were. */
  lemma ActHealsNothing(policy: Policy, w: World, a: Action, day: int)
    requires BookOk(w.desk.book) && !a.HealCommit?
    ensures Heals(Act(policy, w, a).desk.env.journal, day) == Heals(w.desk.env.journal, day)
  {
    hide Act;
    ActAddsNoHeal(policy, w, a);
    HealsUnchanged(w.desk.env.journal, Act(policy, w, a).desk.env.journal, day);
  }

  lemma ActKeepsCap(policy: Policy, w: World, a: Action)
    requires BookOk(w.desk.book) && Capped(policy, w)
    ensures Capped(policy, Act(policy, w, a))
  {
    hide RunCycle, TradeServices.Place, TradeServices.ClosePhone, TradeServices.FlattenPhone, Heals, BookOk;
    var after := Act(policy, w, a);
    forall day
      ensures Heals(after.desk.env.journal, day) == Heals(w.desk.env.journal, day)
        + if a.HealCommit? && after.desk != w.desk && day == Day(w.clock) then 1 else 0
    {
      if a.HealCommit? {
        if w.healer.Verified? { HealsSnoc(w.desk.env.journal, HaltHealed(w.healer.record, Day(w.clock)), day); }
      } else {
        ActHealsNothing(policy, w, a, day);
      }
    }
  }

  /** One healer that is never cut off between clearing and counting resumes the
      bot at most `maxPerDay` times in any UTC day, whatever happens around it
      and even when midnight falls between its steps. */
  lemma {:induction false} HealsPerDayCapped(policy: Policy, w: World, actions: seq<Action>, day: int)
    requires BookOk(w.desk.book) && w.desk.env.journal == []
    requires w.healer.Idle? && w.counter.day <= Day(w.clock)
    ensures Heals(Run(policy, w, actions).desk.env.journal, day) <= policy.maxPerDay
    ensures Capped(policy, Run(policy, w, actions))
  {
    if actions != [] {
      var n := |actions| - 1;
      HealsPerDayCapped(policy, w, actions[..n], day);
      RunsAreSound(policy, w, actions[..n]);
      ActKeepsCap(policy, Run(policy, w, actions[..n]), actions[n]);
    }
  }
}
