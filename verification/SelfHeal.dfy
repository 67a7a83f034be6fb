/** The self-healer: it verifies a halt without the lock, then compares and
    clears under it, then counts. Other actions may come between the three. */
module SelfHealing {
  import opened Common
  import opened Brokers
  import opened Cycles

  datatype Policy = Policy(verifiers: set<HaltClass>, cooldownSeconds: int, maxPerDay: nat)

  /** Where the one healer stands: idle, holding a verified record, or having
      cleared it and about to count. */
  datatype Healer = Idle | Verified(record: HaltRecord) | Cleared

  /** Persisted count of resumes, and the UTC day it belongs to. */
  datatype Counter = Counter(day: int, count: nat)

  const SECONDS_PER_DAY: int := 86400

  function Day(now: int): int { now / SECONDS_PER_DAY }

  predicate Resumable(cls: HaltClass) { cls.StaleData? || cls.Disconnect? }

  function CountOn(counter: Counter, day: int): nat { if counter.day == day then counter.count else 0 }

  predicate CooldownElapsed(policy: Policy, record: HaltRecord, now: int) {
    record.ts.None? || now - record.ts.value >= policy.cooldownSeconds
  }

  /** Every gate before the lock: class, verifier, cooldown, cap, verification
      (`fault` None when the verifier raised). */
  function Verify(policy: Policy, counter: Counter, halt: HaltFile, now: int, faultCleared: Option<bool>): Healer {
    var info := HaltInfo(halt);
    if info.None? then Idle
    else if !Resumable(info.value.cls) || info.value.cls !in policy.verifiers then Idle
    else if !CooldownElapsed(policy, info.value, now) then Idle
    else if CountOn(counter, Day(now)) >= policy.maxPerDay then Idle
    else if faultCleared != Some(true) then Idle
    else Verified(info.value)
  }

  datatype Committed = Committed(desk: Desk, healer: Healer)

  /** Under the lock: clear only the very record that was verified. */
  function Commit(h: Healer, lockBusy: bool, now: int, d: Desk): Committed {
    if !h.Verified? || lockBusy || HaltInfo(d.halt) != Some(h.record) then Committed(d, if h.Cleared? then h else Idle)
    else
      var mark := HaltHealed(h.record, Day(now));
      Committed(d.(halt := Absent, env := d.env.(journal := d.env.journal + [mark])), Cleared)
  }

  function Count(counter: Counter, now: int): Counter {
    Counter(Day(now), CountOn(counter, Day(now)) + 1)
  }

  // ----- the object -----

  class SelfHealer {
    const policy: Policy
    const shared: SharedState
    var phase: Healer
    var counter: Counter

    constructor (policy: Policy, shared: SharedState, counter: Counter)
      ensures this.policy == policy && this.shared == shared && phase == Idle && this.counter == counter
    {
      this.policy, this.shared, phase, this.counter := policy, shared, Idle, counter;
    }

    /** The gates before the lock; `faultCleared` is what the verifier would say. */
    method CheckGates(now: int, faultCleared: Option<bool>)
      modifies this`phase
      ensures phase == Verify(policy, counter, shared.halt, now, faultCleared)
    {
      phase := Idle;
      var info := HaltInfo(shared.halt);
      if info.None? {
        return;
      }
      var cls := info.value.cls;
      if !Resumable(cls) || cls !in policy.verifiers {
        return;
      }
      if info.value.ts.Some? && now - info.value.ts.value < policy.cooldownSeconds {
        return;
      }
      var today := if counter.day == Day(now) then counter.count else 0;
      if today >= policy.maxPerDay {
        return;
      }
      if faultCleared == Some(true) {
        phase := Verified(info.value);
      }
    }

    /** Under the lock: read again, compare, and only then clear. */
    method CompareAndClear(lockBusy: bool, now: int)
      requires !phase.Cleared?
      modifies this`phase, shared`halt, shared.broker
      ensures Committed(shared.View(), phase) == Commit(old(phase), lockBusy, now, old(shared.View()))
    {
      if phase.Idle? {
        return;
      }
      var current := HaltInfo(shared.halt);
      if lockBusy || current != Some(phase.record) {
        phase := Idle;
        return;
      }
      shared.ClearHalt(HaltHealed(phase.record, Day(now)));
      phase := Cleared;
    }

    method Tally(now: int)
      modifies this`phase, this`counter
      ensures phase.Idle? && counter == Count(old(counter), now)
    {
      counter := Counter(Day(now), if counter.day == Day(now) then counter.count + 1 else 1);
      phase := Idle;
    }

    /** One attempt with nothing coming in between. */
    method AttemptResume(lockBusy: bool, now: int, faultCleared: Option<bool>) returns (resumed: bool)
      requires phase.Idle?
      modifies this`phase, this`counter, shared`halt, shared.broker
      ensures phase.Idle?
      ensures resumed <==> Verify(policy, old(counter), old(shared.halt), now, faultCleared).Verified? && !lockBusy
      ensures resumed ==> shared.halt.Absent? && counter == Count(old(counter), now)
      ensures !resumed ==> shared.View() == old(shared.View()) && counter == old(counter)
    {
      CheckGates(now, faultCleared);
      CompareAndClear(lockBusy, now);
      resumed := phase.Cleared?;
      if resumed {
        Tally(now);
      }
    }
  }
}
