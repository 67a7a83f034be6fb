/** Discovery's gather and score: sources report in whatever order they finish,
    until all have or the deadline falls; each symbol's score is the weighted
    blend of its best contribution per source. */
module Scoring {
  import opened Common
  import opened Rounding

  datatype Contribution = Contribution(symbol: string, source: string, score: real)

  type Weights = map<string, real>

  // ----- the blend -----

  function WeightOf(weights: Weights, source: string): real { if source in weights then weights[source] else 0.0 }

  function TotalWeight(weights: Weights, active: seq<string>): real {
    if active == [] then 0.0
    else TotalWeight(weights, active[..|active| - 1]) + WeightOf(weights, active[|active| - 1])
  }

  /** A source's best contribution, never below zero. */
  function BestOf(cs: seq<Contribution>, source: string): real {
    if cs == [] then 0.0
    else
      var earlier, last := BestOf(cs[..|cs| - 1], source), cs[|cs| - 1];
      if last.source == source then Max(earlier, last.score) else earlier
  }

  function Blend(weights: Weights, active: seq<string>, cs: seq<Contribution>): real {
    if active == [] then 0.0
    else
      var source := active[|active| - 1];
      Blend(weights, active[..|active| - 1], cs) + Term(weights, source, cs)
  }

  function Term(weights: Weights, source: string, cs: seq<Contribution>): real {
    WeightOf(weights, source) * BestOf(cs, source)
  }

  function Percent(got: real, total: real): real {
    if total <= 0.0 then 0.0 else RoundTo(100.0 * got / total, 10.0)
  }

  function ScoreOf(weights: Weights, active: seq<string>, cs: seq<Contribution>): real {
    Percent(Blend(weights, active, cs), TotalWeight(weights, active))
  }

  // ----- the dictionary the scorer fills -----

  /** Entries in the order their keys were first stored. */
  datatype Best = Best(keys: seq<string>, values: map<string, real>)

  predicate Distinct(keys: seq<string>) {
    forall i, j :: 0 <= i < j < |keys| ==> keys[i] != keys[j]
  }

  ghost predicate BestOk(b: Best, active: seq<string>, cs: seq<Contribution>) {
    && Distinct(b.keys)
    && (forall k :: k in b.keys <==> k in b.values)
    && (forall k :: k in b.values ==> k in active && b.values[k] == BestOf(cs, k))
    && (forall k :: k in active && k !in b.values ==> BestOf(cs, k) == 0.0)
  }


  lemma {:induction false} BlendConcat(weights: Weights, a: seq<string>, b: seq<string>, cs: seq<Contribution>)
    ensures Blend(weights, a + b, cs) == Blend(weights, a, cs) + Blend(weights, b, cs)
    decreases |b|
  {
    if b == [] {
      assert a + b == a;
    } else {
      var n := |b| - 1;
      BlendConcat(weights, a, b[..n], cs);
      assert (a + b)[..|a + b| - 1] == a + b[..n];
    }
  }

  /** Without one key: the others stay distinct, and the sum drops its term. */
  lemma BlendWithout(weights: Weights, keys: seq<string>, k: string, cs: seq<Contribution>) returns (rest: seq<string>)
    requires Distinct(keys) && k in keys
    ensures Distinct(rest) && forall x :: x in rest <==> x in keys && x != k
    ensures Blend(weights, keys, cs) == Blend(weights, rest, cs) + Term(weights, k, cs)
  {
    hide Term, BestOf, Distinct;
    var i :| 0 <= i < |keys| && keys[i] == k;
    rest := keys[..i] + keys[i + 1..];
    WithoutKey(keys, i);
    BlendSplit(weights, keys, i, cs);
  }

  lemma WithoutKey(keys: seq<string>, i: nat)
    requires Distinct(keys) && i < |keys|
    ensures Distinct(keys[..i] + keys[i + 1..])
    ensures forall x :: x in keys[..i] + keys[i + 1..] <==> x in keys && x != keys[i]
  {
    var rest := keys[..i] + keys[i + 1..];
    forall j | 0 <= j < |rest| ensures rest[j] == keys[if j < i then j else j + 1] {
    }
    forall x ensures x in rest <==> x in keys && x != keys[i] {
      if j :| 0 <= j < |keys| && keys[j] == x && x != keys[i] {
        assert rest[if j < i then j else j - 1] == x;
      }
    }
  }

  lemma BlendSplit(weights: Weights, keys: seq<string>, i: nat, cs: seq<Contribution>)
    requires i < |keys|
    ensures Blend(weights, keys, cs) == Blend(weights, keys[..i] + keys[i + 1..], cs) + Term(weights, keys[i], cs)
  {
    hide Term;
    var left, k, right := keys[..i], keys[i], keys[i + 1..];
    assert keys == left + [k] + right;
    BlendConcat(weights, left + [k], right, cs);
    BlendConcat(weights, left, right, cs);
    assert (left + [k])[..|left|] == left;
  }

  lemma NoTerm(weights: Weights, k: string, cs: seq<Contribution>)
    requires BestOf(cs, k) == 0.0
    ensures Term(weights, k, cs) == 0.0
  {
  }

  /** Summing over the keys that have an entry, in any order, is summing over all
      active sources: the rest contribute nothing. */
  lemma {:induction false} BlendOverKeys(weights: Weights, keys: seq<string>, active: seq<string>, cs: seq<Contribution>)
    requires Distinct(keys) && Distinct(active)
    requires forall k :: k in keys ==> k in active
    requires forall k :: k in active && k !in keys ==> BestOf(cs, k) == 0.0
    ensures Blend(weights, keys, cs) == Blend(weights, active, cs)
    decreases |active|
  {
    hide Term, BestOf;
    NothingInNone(keys, active);
    if active != [] {
      var n := |active| - 1;
      var last := active[n];
      assert active == active[..n] + [last];
      assert last in active && last !in active[..n];
      if last in keys {
        var rest := BlendWithout(weights, keys, last, cs);
        BlendOverKeys(weights, rest, active[..n], cs);
      } else {
        BlendOverKeys(weights, keys, active[..n], cs);
        NoTerm(weights, last, cs);
      }
    }
  }

  lemma NothingInNone(keys: seq<string>, active: seq<string>)
    requires forall k :: k in keys ==> k in active
    ensures active == [] ==> keys == []
  {
    if |keys| > 0 {
      var k := keys[0];
      assert k in keys && k in active;
    }
  }

  class Scorer {
    const weights: Weights
    const active: seq<string>

    constructor (weights: Weights, active: seq<string>)
      ensures this.weights == weights && this.active == active
    {
      this.weights, this.active := weights, active;
    }

    method Score(cs: seq<Contribution>) returns (score: real)
      requires Distinct(active)
      ensures score == ScoreOf(weights, active, cs)
    {
      hide TotalWeight, Blend, BestOf;
      var total := TotalOf();
      if total <= 0.0 {
        return 0.0;
      }
      var best := FillBest(cs);
      var got := SumBest(best, cs);
      score := Percent(got, total);
    }

    method TotalOf() returns (total: real)
      ensures total == TotalWeight(weights, active)
    {
      total := 0.0;
      for i := 0 to |active|
        invariant total == TotalWeight(weights, active[..i])
      {
        assert active[..i + 1][..i] == active[..i];
        total := total + WeightOf(weights, active[i]);
      }
      assert active[..|active|] == active;
    }

    method SumBest(best: Best, cs: seq<Contribution>) returns (got: real)
      requires Distinct(active) && BestOk(best, active, cs)
      ensures got == Blend(weights, active, cs)
    {
      hide BestOf;
      got := 0.0;
      for i := 0 to |best.keys|
        invariant got == Blend(weights, best.keys[..i], cs)
      {
        assert best.keys[..i + 1][..i] == best.keys[..i];
        var k := best.keys[i];
        assert k in best.keys && k in best.values;
        got := got + WeightOf(weights, k) * best.values[k];
      }
      assert best.keys[..|best.keys|] == best.keys;
      BlendOverKeys(weights, best.keys, active, cs);
    }

    method FillBest(cs: seq<Contribution>) returns (best: Best)
      requires Distinct(active)
      ensures BestOk(best, active, cs)
    {
      best := Best([], map[]);
      for i := 0 to |cs|
        invariant BestOk(best, active, cs[..i])
      {
        assert cs[..i + 1][..i] == cs[..i];
        var c := cs[i];
        if c.source in active {
          var before := if c.source in best.values then best.values[c.source] else 0.0;
          best := Best(if c.source in best.values then best.keys else best.keys + [c.source],
                       best.values[c.source := Max(before, c.score)]);
        }
      }
      assert cs[..|cs|] == cs;
    }
  }

  // ----- gathering -----

  datatype Report = Failed | Gathered(contributions: seq<Contribution>)

  function ForSymbol(cs: seq<Contribution>, symbol: string): seq<Contribution> {
    if cs == [] then []
    else ForSymbol(cs[..|cs| - 1], symbol) + if cs[|cs| - 1].symbol == symbol then [cs[|cs| - 1]] else []
  }

  /** What has been gathered for a symbol from reports in their order of arrival. */
  function Arrived(reports: seq<Report>, symbol: string): seq<Contribution> {
    if reports == [] then []
    else
      var last := reports[|reports| - 1];
      Arrived(reports[..|reports| - 1], symbol) + if last.Failed? then [] else ForSymbol(last.contributions, symbol)
  }

  function Filed(reports: seq<Report>, partial: seq<Contribution>, symbol: string): seq<Contribution> {
    Arrived(reports, symbol) + ForSymbol(partial, symbol)
  }

  /** Exactly the symbols with contributions, each with its own in order. */
  ghost predicate Indexes(bySymbol: map<string, seq<Contribution>>, reports: seq<Report>, partial: seq<Contribution>) {
    forall s :: (s in bySymbol <==> Filed(reports, partial, s) != []) && (s in bySymbol ==> bySymbol[s] == Filed(reports, partial, s))
  }

  lemma FiledSnoc(reports: seq<Report>, partial: seq<Contribution>, c: Contribution, symbol: string)
    ensures Filed(reports, partial + [c], symbol) == Filed(reports, partial, symbol) + if c.symbol == symbol then [c] else []
  {
    assert (partial + [c])[..|partial|] == partial;
  }

  lemma FiledReport(reports: seq<Report>, last: Report, symbol: string)
    ensures Filed(reports + [last], [], symbol)
         == if last.Failed? then Filed(reports, [], symbol) else Filed(reports, last.contributions, symbol)
  {
    assert (reports + [last])[..|reports|] == reports;
  }

  /** The collecting loop: a failed report is skipped, everything else is filed
      under its symbol, appended in order. */
  method Collect(reports: seq<Report>) returns (bySymbol: map<string, seq<Contribution>>)
    ensures forall s :: s in bySymbol <==> Arrived(reports, s) != []
    ensures forall s :: s in bySymbol ==> bySymbol[s] == Arrived(reports, s)
  {
    bySymbol := map[];
    for i := 0 to |reports|
      invariant Indexes(bySymbol, reports[..i], [])
    {
      hide Filed;
      assert reports[..i + 1] == reports[..i] + [reports[i]];
      forall s ensures Filed(reports[..i + 1], [], s)
        == if reports[i].Failed? then Filed(reports[..i], [], s) else Filed(reports[..i], reports[i].contributions, s)
      {
        FiledReport(reports[..i], reports[i], s);
      }
      if reports[i].Failed? {
        continue;
      }
      bySymbol := FileAll(bySymbol, reports[..i], reports[i].contributions);
    }
    assert reports[..|reports|] == reports;
    assert forall s :: Filed(reports, [], s) == Arrived(reports, s);
  }

  method FileAll(before: map<string, seq<Contribution>>, reports: seq<Report>, cs: seq<Contribution>)
    returns (bySymbol: map<string, seq<Contribution>>)
    requires Indexes(before, reports, [])
    ensures Indexes(bySymbol, reports, cs)
  {
    hide Filed;
    bySymbol := before;
    for k := 0 to |cs|
      invariant Indexes(bySymbol, reports, cs[..k])
    {
      assert cs[..k + 1] == cs[..k] + [cs[k]];
      forall s ensures Filed(reports, cs[..k + 1], s) == Filed(reports, cs[..k], s) + if cs[k].symbol == s then [cs[k]] else [] {
        FiledSnoc(reports, cs[..k], cs[k], s);
      }
      var symbol := cs[k].symbol;
      var filed := if symbol in bySymbol then bySymbol[symbol] else [];
      assert filed == Filed(reports, cs[..k], symbol);
      bySymbol := bySymbol[symbol := filed + [cs[k]]];
    }
    assert cs[..|cs|] == cs;
  }

  // ----- order does not matter -----

  /** The best contribution is settled by what was contributed, not when. */
  lemma {:induction false} BestIs(cs: seq<Contribution>, source: string)
    ensures var best := BestOf(cs, source);
      && best >= 0.0
      && (forall c :: c in cs && c.source == source ==> c.score <= best)
      && (best == 0.0 || exists c :: c in cs && c.source == source && c.score == best)
  {
    if cs != [] {
      var n := |cs| - 1;
      BestIs(cs[..n], source);
      assert cs == cs[..n] + [cs[n]];
    }
  }

  lemma BestSame(a: seq<Contribution>, b: seq<Contribution>, source: string)
    requires forall c :: c in a <==> c in b
    ensures BestOf(a, source) == BestOf(b, source)
  {
    BestIs(a, source);
    BestIs(b, source);
  }

  lemma {:induction false} BlendSame(weights: Weights, active: seq<string>, a: seq<Contribution>, b: seq<Contribution>)
    requires forall c :: c in a <==> c in b
    ensures Blend(weights, active, a) == Blend(weights, active, b)
  {
    if active != [] {
      BlendSame(weights, active[..|active| - 1], a, b);
      BestSame(a, b, active[|active| - 1]);
    }
  }

  lemma {:induction false} ForSymbolHas(cs: seq<Contribution>, symbol: string, c: Contribution)
    ensures c in ForSymbol(cs, symbol) <==> c in cs && c.symbol == symbol
  {
    if cs != [] {
      var n := |cs| - 1;
      ForSymbolHas(cs[..n], symbol, c);
      assert cs == cs[..n] + [cs[n]];
    }
  }

  lemma {:induction false} ArrivedHas(reports: seq<Report>, symbol: string, c: Contribution)
    ensures c in Arrived(reports, symbol)
       <==> c.symbol == symbol && exists r :: r in reports && r.Gathered? && c in r.contributions
  {
    if reports != [] {
      var n := |reports| - 1;
      ArrivedHas(reports[..n], symbol, c);
      assert reports == reports[..n] + [reports[n]];
      if reports[n].Gathered? {
        ForSymbolHas(reports[n].contributions, symbol, c);
      }
    }
  }

  // ----- the sources, racing a deadline -----

  /** Sources finish in some order; the collector takes reports as they come and
      stops when it has them all or when its deadline falls, wherever that is. */
  datatype Event = Finishes(source: nat) | Receives

  datatype Race = Race(finished: seq<nat>, received: nat)

  predicate Possible(r: Race, n: nat, e: Event) {
    match e
    case Finishes(source) => source < n && source !in r.finished
    case Receives => r.received < |r.finished| && r.received < n
  }

  function Ran(n: nat, events: seq<Event>): Option<Race> {
    if events == [] then Some(Race([], 0))
    else
      match Ran(n, events[..|events| - 1])
      case None => None
      case Some(r) =>
        var e := events[|events| - 1];
        if !Possible(r, n, e) then None
        else if e.Finishes? then Some(r.(finished := r.finished + [e.source]))
        else Some(r.(received := r.received + 1))
  }

  /** No source is ever counted twice, and none that does not exist. */
  lemma {:induction false} RacesAreFair(n: nat, events: seq<Event>)
    requires Ran(n, events).Some?
    ensures var r := Ran(n, events).value;
      && r.received <= |r.finished|
      && (forall i, j :: 0 <= i < j < |r.finished| ==> r.finished[i] != r.finished[j])
      && forall i :: 0 <= i < |r.finished| ==> r.finished[i] < n
  {
    if events != [] {
      RacesAreFair(n, events[..|events| - 1]);
    }
  }

  function ReportOf(reports: seq<Report>, i: nat): Report { if i < |reports| then reports[i] else Failed }

  function Received(reports: seq<Report>, order: seq<nat>): seq<Report> {
    seq(|order|, k requires 0 <= k < |order| => ReportOf(reports, order[k]))
  }

  /** The same sources, in any order, bring the same reports. */
  lemma ReceivedWithin(reports: seq<Report>, a: seq<nat>, b: seq<nat>, r: Report)
    requires forall i: nat :: i in a ==> i in b
    requires r in Received(reports, a)
    ensures r in Received(reports, b)
  {
    var k :| 0 <= k < |a| && Received(reports, a)[k] == r;
    var i := a[k];
    assert i in a && i in b;
    var m :| 0 <= m < |b| && b[m] == i;
    assert Received(reports, b)[m] == r;
  }

  lemma ArrivedWithin(a: seq<Report>, b: seq<Report>, symbol: string, c: Contribution)
    requires forall r :: r in a ==> r in b
    requires c in Arrived(a, symbol)
    ensures c in Arrived(b, symbol)
  {
    ArrivedHas(a, symbol, c);
    ArrivedHas(b, symbol, c);
  }

  /** Two races in which the same sources get in before the deadline give every
      symbol the same score, whatever the order they came in. */
  lemma ScoresIgnoreArrivalOrder(reports: seq<Report>, one: seq<Event>, other: seq<Event>,
                                 weights: Weights, active: seq<string>, symbol: string)
    requires Ran(|reports|, one).Some? && Ran(|reports|, other).Some?
    requires var a, b := Ran(|reports|, one).value, Ran(|reports|, other).value;
      && a.received <= |a.finished| && b.received <= |b.finished|
      && forall i: nat :: i in a.finished[..a.received] <==> i in b.finished[..b.received]
    ensures var a, b := Ran(|reports|, one).value, Ran(|reports|, other).value;
      var ca := Arrived(Received(reports, a.finished[..a.received]), symbol);
      var cb := Arrived(Received(reports, b.finished[..b.received]), symbol);
      && ScoreOf(weights, active, ca) == ScoreOf(weights, active, cb)
      && (ca == [] <==> cb == [])
  {
    hide Ran, Arrived, Received;
    var a, b := Ran(|reports|, one).value, Ran(|reports|, other).value;
    var oa, ob := a.finished[..a.received], b.finished[..b.received];
    SameContributions(reports, oa, ob, symbol);
    var ca, cb := Arrived(Received(reports, oa), symbol), Arrived(Received(reports, ob), symbol);
    BlendSame(weights, active, ca, cb);
    SameEmptiness(ca, cb);
  }

  lemma SameContributions(reports: seq<Report>, oa: seq<nat>, ob: seq<nat>, symbol: string)
    requires forall i: nat :: i in oa <==> i in ob
    ensures forall c :: c in Arrived(Received(reports, oa), symbol) <==> c in Arrived(Received(reports, ob), symbol)
  {
    hide Arrived, Received;
    var ra, rb := Received(reports, oa), Received(reports, ob);
    forall r ensures r in ra <==> r in rb {
      if r in ra { ReceivedWithin(reports, oa, ob, r); }
      if r in rb { ReceivedWithin(reports, ob, oa, r); }
    }
    forall c ensures c in Arrived(ra, symbol) <==> c in Arrived(rb, symbol) {
      if c in Arrived(ra, symbol) { ArrivedWithin(ra, rb, symbol, c); }
      if c in Arrived(rb, symbol) { ArrivedWithin(rb, ra, symbol, c); }
    }
  }

  lemma SameEmptiness(a: seq<Contribution>, b: seq<Contribution>)
    requires forall c :: c in a <==> c in b
    ensures a == [] <==> b == []
  {
    if |a| > 0 {
      var c := a[0];
      assert c in a && c in b;
    }
    if |b| > 0 {
      var c := b[0];
      assert c in b && c in a;
    }
  }

  // ----- a clean 0 to 100 -----

  predicate SaneWeights(weights: Weights) { forall s :: s in weights ==> weights[s] >= 0.0 }

  predicate Clamped(cs: seq<Contribution>) { forall i :: 0 <= i < |cs| ==> 0.0 <= cs[i].score <= 1.0 }

  lemma {:induction false} BestWithin(cs: seq<Contribution>, source: string)
    requires Clamped(cs)
    ensures 0.0 <= BestOf(cs, source) <= 1.0
  {
    if cs != [] {
      BestWithin(cs[..|cs| - 1], source);
    }
  }

  lemma {:induction false} BlendWithin(weights: Weights, active: seq<string>, cs: seq<Contribution>)
    requires SaneWeights(weights) && Clamped(cs)
    ensures 0.0 <= Blend(weights, active, cs) <= TotalWeight(weights, active)
  {
    if active != [] {
      hide Term;
      var source := active[|active| - 1];
      BlendWithin(weights, active[..|active| - 1], cs);
      BestWithin(cs, source);
      TermWithin(weights, source, cs);
    }
  }

  lemma TermWithin(weights: Weights, source: string, cs: seq<Contribution>)
    requires SaneWeights(weights) && 0.0 <= BestOf(cs, source) <= 1.0
    ensures 0.0 <= Term(weights, source, cs) <= WeightOf(weights, source)
  {
    hide BestOf;
    var w: real, b: real := WeightOf(weights, source), BestOf(cs, source);
    assert w >= 0.0;
    hide WeightOf;
    WithinProduct(w, b);
  }

  lemma WithinProduct(w: real, b: real)
    requires w >= 0.0 && 0.0 <= b <= 1.0
    ensures 0.0 <= w * b <= w
  {
    MulLe(w, b, 1.0);
  }

  /** With non-negative weights every score lies between 0 and 100, however many
      sources are switched on. */
  lemma ScoreWithin(weights: Weights, active: seq<string>, cs: seq<Contribution>)
    requires SaneWeights(weights) && Clamped(cs)
    ensures 0.0 <= ScoreOf(weights, active, cs) <= 100.0
  {
    var total, got := TotalWeight(weights, active), Blend(weights, active, cs);
    if total > 0.0 {
      hide RoundTo;
      BlendWithin(weights, active, cs);
      var q := 100.0 * got / total;
      assert q * total == 100.0 * got;
      if q > 100.0 { MulLt(total, 100.0, q); }
      if q < 0.0 { MulLt(total, q, 0.0); }
      RoundToMono(0.0, q, 10.0);
      RoundToMono(q, 100.0, 10.0);
      RoundToGrid(0.0, 0, 10.0);
      RoundToGrid(100.0, 1000, 10.0);
    }
  }
}
