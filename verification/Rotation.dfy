/** Strategy rotation by proposal: a recommendation changes nothing until it is
    approved, and is checked again at that moment. Proposals live in an id-keyed
    record store; the applied state says which strategies may trade. */
module Rotation {
  import opened Common

  type Strategy = string
  type ProposalId = string

  datatype Change = Enable | Disable | Reweight | UnknownChange

  datatype Status = Pending | Approved | Denied | Expired

  datatype Proposal = Proposal(id: ProposalId, change: Change, strategy: Strategy, weight: Option<real>,
                               status: Status, expiry: Option<int>)

  datatype Entry = Entry(enabled: bool, weight: real)

  type Applied = map<Strategy, Entry>

  datatype Config = Config(known: set<Strategy>, defaults: map<Strategy, bool>, maxWeight: real)

  // ----- the applied state -----

  function DefaultOf(c: Config, s: Strategy): bool { if s in c.defaults then c.defaults[s] else true }

  predicate IsEnabled(state: Applied, s: Strategy, default: bool) {
    if s in state then state[s].enabled && state[s].weight > 0.0 else default
  }

  predicate Active(c: Config, state: Applied, s: Strategy) { s in c.known && IsEnabled(state, s, DefaultOf(c, s)) }

  ghost predicate SomeActive(c: Config, state: Applied) { exists s :: Active(c, state, s) }

  function Apply(state: Applied, change: Change, s: Strategy, weight: Option<real>): Applied {
    var cur := if s in state then state[s] else Entry(true, 1.0);
    match change
    case Disable => state[s := cur.(enabled := false)]
    case Enable => state[s := cur.(enabled := true)]
    case Reweight =>
      var w := OrElse(weight, 1.0);
      state[s := Entry(w > 0.0, w)]
    case UnknownChange => state[s := cur]
  }

  /** A change touches one strategy; disabling silences it, reweighting to zero
      does too, and enabling brings it back only at a positive weight. */
  lemma ApplyMeans(state: Applied, change: Change, s: Strategy, weight: Option<real>, default: bool)
    ensures var after := Apply(state, change, s, weight);
      && after.Keys == state.Keys + {s} && (forall t :: t in state && t != s ==> after[t] == state[t])
      && (change.Disable? ==> !IsEnabled(after, s, default))
      && (change.Enable? ==> (IsEnabled(after, s, default) <==> (s in state ==> state[s].weight > 0.0)))
      && (change.Reweight? && weight.Some? ==>
            after[s].weight == weight.value && (IsEnabled(after, s, default) <==> weight.value > 0.0))
  {
  }

  // ----- the guardrail -----

  function EnabledNow(c: Config, state: Applied): set<Strategy> {
    set s | s in c.known && IsEnabled(state, s, DefaultOf(c, s))
  }

  function ResultingEnabled(c: Config, change: Change, s: Strategy, weight: Option<real>, state: Applied): set<Strategy> {
    var enabled := EnabledNow(c, state);
    if change.Disable? || (change.Reweight? && OrElse(weight, 0.0) <= 0.0) then enabled - {s}
    else if change.Enable? then enabled + {s}
    else enabled
  }

  predicate Valid(c: Config, change: Change, s: Strategy, weight: Option<real>, state: Applied) {
    && !change.UnknownChange? && s in c.known
    && (change.Reweight? ==> weight.Some? && 0.0 <= weight.value <= c.maxWeight)
    && ResultingEnabled(c, change, s, weight, state) != {}
  }

  /** What the guardrail lets through leaves someone active, provided someone was
      or the change is not an enable. */
  lemma GuardKeepsActive(c: Config, change: Change, s: Strategy, weight: Option<real>, state: Applied)
    requires Valid(c, change, s, weight, state) && (SomeActive(c, state) || !change.Enable?)
    ensures SomeActive(c, Apply(state, change, s, weight))
  {
    var after := Apply(state, change, s, weight);
    if change.Enable? {
      var t :| Active(c, state, t);
      assert Active(c, after, t);
    } else {
      var t :| t in ResultingEnabled(c, change, s, weight, state);
      assert Active(c, after, t);
    }
  }

  /** The guardrail passes a change of a known kind to a known strategy, with a weight in
      bounds if it carries one, if and only if it enables, or someone else is active, or
      it reweights an active strategy to something. */
  lemma GuardPassesIff(c: Config, change: Change, s: Strategy, weight: Option<real>, state: Applied)
    ensures Valid(c, change, s, weight, state) <==>
      && (change.Enable? || change.Disable? || (change.Reweight? && weight.Some? && 0.0 <= weight.value <= c.maxWeight))
      && s in c.known
      && (change.Enable? || (exists t :: t != s && Active(c, state, t))
          || (change.Reweight? && weight.value > 0.0 && Active(c, state, s)))
  {
    var after := ResultingEnabled(c, change, s, weight, state);
    assert forall t :: t in EnabledNow(c, state) <==> Active(c, state, t);
    if change.Enable? {
      assert s in after;
    } else {
      assert forall t :: t != s ==> (t in after <==> Active(c, state, t));
      if after != {} {
        var t :| t in after;
        assert Active(c, state, t);
      }
    }
  }

  /** The exact gap: with nobody active the guardrail passes every enable, and it
      helps if and only if the strategy's stored weight is positive. */
  lemma EnableFromNothing(c: Config, s: Strategy, state: Applied)
    requires !SomeActive(c, state) && s in c.known
    ensures Valid(c, Enable, s, None, state)
    ensures SomeActive(c, Apply(state, Enable, s, None)) <==> (s in state ==> state[s].weight > 0.0)
  {
    assert s in ResultingEnabled(c, Enable, s, None, state);
    var after := Apply(state, Enable, s, None);
    if s in state ==> state[s].weight > 0.0 {
      assert Active(c, after, s);
    }
    forall t | Active(c, after, t) ensures t == s && after[s].weight > 0.0 {
      assert t != s ==> Active(c, state, t);
    }
  }

  // ----- the record store -----

  class RecordStore {
    var records: map<ProposalId, Proposal>

    constructor ()
      ensures records == map[]
    {
      records := map[];
    }

    method Add(p: Proposal)
      modifies this
      ensures records == old(records)[p.id := p]
    {
      records := records[p.id := p];
    }

    method Get(id: ProposalId) returns (p: Option<Proposal>)
      ensures p == if id in records then Some(records[id]) else None
    {
      p := if id in records then Some(records[id]) else None;
    }

    method ListPending(now: int) returns (pending: set<Proposal>)
      ensures forall p :: p in pending <==>
        exists id :: id in records && records[id] == p && p.status.Pending? && !ExpiredAt(p, now)
    {
      pending := set id | id in records && records[id].status.Pending? && !ExpiredAt(records[id], now) :: records[id];
    }

    method Mark(id: ProposalId, status: Status)
      modifies this
      ensures records == Marked(old(records), id, status)
    {
      if id in records {
        records := records[id := records[id].(status := status)];
      }
    }
  }

  predicate ExpiredAt(p: Proposal, now: int) { p.expiry.Some? && now >= p.expiry.value }

  function Marked(records: map<ProposalId, Proposal>, id: ProposalId, status: Status): map<ProposalId, Proposal> {
    if id in records then records[id := records[id].(status := status)] else records
  }

  // ----- the service -----

  /** State, proposals, and the ids applied so far, in order. */
  datatype Office = Office(state: Applied, proposals: map<ProposalId, Proposal>, log: seq<ProposalId>)

  datatype Deed =
    | Propose(id: ProposalId, change: Change, strategy: Strategy, weight: Option<real>, expiry: Option<int>)
    | Approve(id: ProposalId, now: int)
    | Deny(id: ProposalId)

  function Do(c: Config, o: Office, d: Deed): Office {
    match d
    case Propose(id, change, strategy, weight, expiry) =>
      if !Valid(c, change, strategy, weight, o.state) then o
      else o.(proposals := o.proposals[id := Proposal(id, change, strategy, weight, Pending, expiry)])
    case Approve(id, now) =>
      if id !in o.proposals || !o.proposals[id].status.Pending? then o else
      var p := o.proposals[id];
      if ExpiredAt(p, now) then o.(proposals := Marked(o.proposals, id, Expired))
      else if !Valid(c, p.change, p.strategy, p.weight, o.state) then o
      else Office(Apply(o.state, p.change, p.strategy, p.weight), Marked(o.proposals, id, Approved), o.log + [id])
    case Deny(id) =>
      if id !in o.proposals || !o.proposals[id].status.Pending? then o
      else o.(proposals := Marked(o.proposals, id, Denied))
  }

  class RotationService {
    const config: Config
    const store: RecordStore
    var state: Applied
    ghost var log: seq<ProposalId>

    constructor (config: Config, store: RecordStore, state: Applied)
      ensures this.config == config && this.store == store && this.state == state && log == []
    {
      this.config, this.store, this.state, log := config, store, state, [];
    }

    ghost function View(): Office
      reads this, store
    {
      Office(state, store.records, log)
    }

    method Submit(id: ProposalId, change: Change, strategy: Strategy, weight: Option<real>, expiry: Option<int>) returns (ok: bool)
      modifies store
      ensures View() == Do(config, old(View()), Propose(id, change, strategy, weight, expiry))
      ensures ok <==> Valid(config, change, strategy, weight, old(state))
    {
      ok := Valid(config, change, strategy, weight, state);
      if ok {
        store.Add(Proposal(id, change, strategy, weight, Pending, expiry));
      }
    }

    method Accept(id: ProposalId, now: int) returns (ok: bool)
      modifies this, store
      ensures View() == Do(config, old(View()), Approve(id, now))
      ensures ok <==> |log| > |old(log)|
    {
      var p := store.Get(id);
      if p.None? || !p.value.status.Pending? {
        return false;
      }
      if ExpiredAt(p.value, now) {
        store.Mark(id, Expired);
        return false;
      }
      if !Valid(config, p.value.change, p.value.strategy, p.value.weight, state) {
        return false;
      }
      state := Apply(state, p.value.change, p.value.strategy, p.value.weight);
      log := log + [id];
      store.Mark(id, Approved);
      ok := true;
    }

    method Refuse(id: ProposalId) returns (ok: bool)
      modifies store
      ensures View() == Do(config, old(View()), Deny(id))
    {
      var p := store.Get(id);
      ok := p.Some? && p.value.status.Pending?;
      if ok {
        store.Mark(id, Denied);
      }
    }
  }

  // ----- every interleaving -----

  function RunAll(c: Config, o: Office, deeds: seq<Deed>): Office {
    if deeds == [] then o else Do(c, RunAll(c, o, deeds[..|deeds| - 1]), deeds[|deeds| - 1])
  }

  /** Ids are never reused: each proposal's id is new when it is added. */
  predicate FreshIds(c: Config, o: Office, deeds: seq<Deed>) {
    deeds == [] ||
    var before, d := deeds[..|deeds| - 1], deeds[|deeds| - 1];
    FreshIds(c, o, before) && (d.Propose? ==> d.id !in RunAll(c, o, before).proposals)
  }

  function WeightCap(c: Config): real { Max(1.0, c.maxWeight) }

  predicate WeightsOk(c: Config, state: Applied) {
    forall s :: s in state ==> 0.0 <= state[s].weight <= WeightCap(c)
  }

  /** A logged id is an approved proposal, and logged once; an approved one that
      was not approved at the start is logged. */
  ghost predicate Books(start: Office, o: Office) {
    && (forall i :: 0 <= i < |o.log| ==> o.log[i] in o.proposals && o.proposals[o.log[i]].status.Approved?)
    && (forall i, j :: 0 <= i < j < |o.log| ==> o.log[i] != o.log[j])
    && (forall id :: id in o.proposals && o.proposals[id].status.Approved? ==>
          id in o.log || (id in start.proposals && start.proposals[id].status.Approved?))
  }

  lemma DoKeeps(c: Config, start: Office, o: Office, d: Deed)
    requires SomeActive(c, o.state) && WeightsOk(c, o.state) && Books(start, o)
    requires d.Propose? ==> d.id !in o.proposals
    ensures SomeActive(c, Do(c, o, d).state) && WeightsOk(c, Do(c, o, d).state) && Books(start, Do(c, o, d))
  {
    if d.Approve? && d.id in o.proposals {
      var p := o.proposals[d.id];
      if Valid(c, p.change, p.strategy, p.weight, o.state) {
        GuardKeepsActive(c, p.change, p.strategy, p.weight, o.state);
      }
    }
  }

  /** From any state with an active strategy, over every interleaving of proposals,
      approvals, denials and expiries: some strategy stays active, stored weights
      stay in bounds, and each proposal is applied at most once. */
  lemma {:induction false} RunsKeepSomeoneActive(c: Config, start: Office, deeds: seq<Deed>)
    requires SomeActive(c, start.state) && WeightsOk(c, start.state) && start.log == []
    requires FreshIds(c, start, deeds)
    ensures var o := RunAll(c, start, deeds);
      SomeActive(c, o.state) && WeightsOk(c, o.state) && Books(start, o)
  {
    if deeds != [] {
      RunsKeepSomeoneActive(c, start, deeds[..|deeds| - 1]);
      DoKeeps(c, start, RunAll(c, start, deeds[..|deeds| - 1]), deeds[|deeds| - 1]);
    }
  }

  /** A proposal once approved, denied or expired stays exactly as it is. */
  lemma {:induction false} SettledStaysSettled(c: Config, start: Office, deeds: seq<Deed>, id: ProposalId)
    requires FreshIds(c, start, deeds) && id in start.proposals && !start.proposals[id].status.Pending?
    ensures var o := RunAll(c, start, deeds);
      id in o.proposals && o.proposals[id] == start.proposals[id]
  {
    if deeds != [] {
      SettledStaysSettled(c, start, deeds[..|deeds| - 1], id);
    }
  }

  /** A change newly applied by approval is one the guardrail allows: a reweight's
      weight is within [0, maxWeight]. */
  lemma AppliedWeightInBounds(c: Config, o: Office, id: ProposalId, now: int)
    requires Do(c, o, Approve(id, now)).log != o.log
    ensures id in o.proposals
    ensures var p, after := o.proposals[id], Do(c, o, Approve(id, now)).state;
      && p.strategy in after && after == Apply(o.state, p.change, p.strategy, p.weight)
      && (p.change.Reweight? ==> 0.0 <= after[p.strategy].weight <= c.maxWeight)
  {
  }
}
