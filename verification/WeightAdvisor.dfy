/** Suggested reweighting of discovery sources: judged sources share their
    combined weight in proportion to their signal, each clamped to a relative
    move, then rescaled so that the clamp leaves the others' shares alone. */
module WeightAdvisor {
  import opened Common
  import opened Rounding

  datatype Stats = Stats(surfaced: nat, proposed: nat, avgScore: real)

  /** A source with enough history: its signal and its weight today. */
  datatype Judged = Judged(source: string, signal: real, cur: real)

  type Weights = map<string, real>

  function WeightIn(weights: Weights, source: string): real { if source in weights then weights[source] else 0.0 }

  /** `k` times `x`; named so that sums of it stay linear. */
  function Part(k: real, x: real): real { k * x }

  /** None while there is too little history to judge. */
  function Signal(s: Stats, minSamples: nat): Option<real>
    requires minSamples > 0
  {
    if s.surfaced < minSamples then None
    else Some(RoundTo(Part(s.proposed as real / s.surfaced as real, s.avgScore / 100.0), 10000.0))
  }

  function JudgedOf(stats: map<string, Stats>, current: Weights, active: seq<string>, minSamples: nat): seq<Judged>
    requires minSamples > 0
  {
    if active == [] then []
    else
      var source := active[|active| - 1];
      var signal := if source in stats then Signal(stats[source], minSamples) else None;
      JudgedOf(stats, current, active[..|active| - 1], minSamples)
        + if signal.None? then [] else [Judged(source, signal.value, WeightIn(current, source))]
  }

  // ----- the arithmetic -----

  function Mass(js: seq<Judged>): real {
    if js == [] then 0.0 else Mass(js[..|js| - 1]) + js[|js| - 1].cur
  }

  function SignalTotal(js: seq<Judged>): real {
    if js == [] then 0.0 else SignalTotal(js[..|js| - 1]) + js[|js| - 1].signal
  }

  /** What is shared out: the mass, the total signal, and the allowed shift. */
  datatype Pot = Pot(mass: real, total: real, shift: real)

  function Raw(p: Pot, signal: real): real
    requires p.total > 0.0
  {
    p.mass * (signal / p.total)
  }

  function Clamped(p: Pot, j: Judged): real
    requires p.total > 0.0
  {
    if j.cur > 0.0 then Max(Part(1.0 - p.shift, j.cur), Min(Part(1.0 + p.shift, j.cur), Raw(p, j.signal)))
    else Raw(p, j.signal)
  }

  function SumClamped(p: Pot, js: seq<Judged>): real
    requires p.total > 0.0
  {
    if js == [] then 0.0 else SumClamped(p, js[..|js| - 1]) + Clamped(p, js[|js| - 1])
  }

  function Scaled(p: Pot, scale: real, j: Judged): real
    requires p.total > 0.0
  {
    Part(scale, Clamped(p, j))
  }

  function Final(p: Pot, clampedMass: real, j: Judged): real
    requires p.total > 0.0
  {
    if clampedMass > 0.0 then RoundTo(Scaled(p, p.mass / clampedMass, j), 1000.0) else Clamped(p, j)
  }

  function SumFinal(p: Pot, clampedMass: real, js: seq<Judged>): real
    requires p.total > 0.0
  {
    if js == [] then 0.0 else SumFinal(p, clampedMass, js[..|js| - 1]) + Final(p, clampedMass, js[|js| - 1])
  }

  /** The largest move among the judged; zero is below every real move. */
  function Moved(p: Pot, clampedMass: real, js: seq<Judged>): real
    requires p.total > 0.0
  {
    if js == [] then 0.0
    else Max(Moved(p, clampedMass, js[..|js| - 1]), Abs(Final(p, clampedMass, js[|js| - 1]) - js[|js| - 1].cur))
  }

  function Reweighted(p: Pot, clampedMass: real, current: Weights, js: seq<Judged>): Weights
    requires p.total > 0.0
  {
    if js == [] then current
    else
      var last := js[|js| - 1];
      Reweighted(p, clampedMass, current, js[..|js| - 1])[last.source := Final(p, clampedMass, last)]
  }

  function Suggest(js: seq<Judged>, current: Weights, shift: real, minDelta: real): Option<Weights> {
    var p := Pot(Mass(js), SignalTotal(js), shift);
    if |js| < 2 || p.total <= 0.0 || p.mass <= 0.0 then None
    else
      var clampedMass := SumClamped(p, js);
      if Moved(p, clampedMass, js) < minDelta then None else Some(Reweighted(p, clampedMass, current, js))
  }

  // ----- the loops -----

  method SuggestWeights(stats: map<string, Stats>, current: Weights, active: seq<string>, minSamples: nat, shift: real, minDelta: real)
    returns (r: Option<Weights>)
    requires minSamples > 0
    ensures r == Suggest(JudgedOf(stats, current, active, minSamples), current, shift, minDelta)
  {
    hide Signal, Raw, Clamped, Final;
    var js := Judge(stats, current, active, minSamples);
    if |js| < 2 {
      return None;
    }
    var mass, total := Masses(js);
    if total <= 0.0 || mass <= 0.0 {
      return None;
    }
    var p := Pot(mass, total, shift);
    var clampedMass := ClampAll(p, js);
    var suggested, moved := RescaleAll(p, clampedMass, current, js);
    r := if moved < minDelta then None else Some(suggested);
  }

  method Judge(stats: map<string, Stats>, current: Weights, active: seq<string>, minSamples: nat) returns (js: seq<Judged>)
    requires minSamples > 0
    ensures js == JudgedOf(stats, current, active, minSamples)
  {
    js := [];
    for i := 0 to |active|
      invariant js == JudgedOf(stats, current, active[..i], minSamples)
    {
      assert active[..i + 1][..i] == active[..i];
      if active[i] in stats {
        var signal := Signal(stats[active[i]], minSamples);
        if signal.Some? {
          js := js + [Judged(active[i], signal.value, WeightIn(current, active[i]))];
        }
      }
    }
    assert active[..|active|] == active;
  }

  method Masses(js: seq<Judged>) returns (mass: real, total: real)
    ensures mass == Mass(js) && total == SignalTotal(js)
  {
    mass, total := 0.0, 0.0;
    for i := 0 to |js|
      invariant mass == Mass(js[..i]) && total == SignalTotal(js[..i])
    {
      assert js[..i + 1][..i] == js[..i];
      mass, total := mass + js[i].cur, total + js[i].signal;
    }
    assert js[..|js|] == js;
  }

  method ClampAll(p: Pot, js: seq<Judged>) returns (clampedMass: real)
    requires p.total > 0.0
    ensures clampedMass == SumClamped(p, js)
  {
    clampedMass := 0.0;
    for i := 0 to |js|
      invariant clampedMass == SumClamped(p, js[..i])
    {
      assert js[..i + 1][..i] == js[..i];
      clampedMass := clampedMass + Clamped(p, js[i]);
    }
    assert js[..|js|] == js;
  }

  method RescaleAll(p: Pot, clampedMass: real, current: Weights, js: seq<Judged>) returns (suggested: Weights, moved: real)
    requires p.total > 0.0
    ensures suggested == Reweighted(p, clampedMass, current, js) && moved == Moved(p, clampedMass, js)
  {
    suggested, moved := current, 0.0;
    for i := 0 to |js|
      invariant suggested == Reweighted(p, clampedMass, current, js[..i]) && moved == Moved(p, clampedMass, js[..i])
    {
      assert js[..i + 1][..i] == js[..i];
      var w := Final(p, clampedMass, js[i]);
      suggested, moved := suggested[js[i].source := w], Max(moved, Abs(w - js[i].cur));
    }
    assert js[..|js|] == js;
  }

  // ----- unjudged weights are left alone -----

  /** A suggestion changes no weight but the judged sources', and drops none. */
  lemma {:induction false} UnjudgedUntouched(p: Pot, clampedMass: real, current: Weights, js: seq<Judged>, source: string)
    requires p.total > 0.0 && forall i :: 0 <= i < |js| ==> js[i].source != source
    ensures var w := Reweighted(p, clampedMass, current, js);
      (source in w <==> source in current) && (source in current ==> w[source] == current[source])
  {
    if js != [] {
      UnjudgedUntouched(p, clampedMass, current, js[..|js| - 1], source);
    }
  }

  // ----- clamped, one by one and together -----

  predicate Sane(p: Pot, js: seq<Judged>) {
    && p.mass > 0.0 && p.total > 0.0 && 0.0 <= p.shift < 1.0
    && forall i :: 0 <= i < |js| ==> js[i].cur >= 0.0 && js[i].signal >= 0.0
  }

  predicate AllWeighted(js: seq<Judged>) { forall i :: 0 <= i < |js| ==> js[i].cur > 0.0 }

  lemma RawNonNegative(p: Pot, signal: real)
    requires p.mass >= 0.0 && p.total > 0.0 && signal >= 0.0
    ensures Raw(p, signal) >= 0.0
  {
    DivLe(0.0, signal, p.total);
    MulLe(p.mass, 0.0, signal / p.total);
  }

  lemma PartAdd(k: real, a: real, b: real)
    ensures Part(k, a + b) == Part(k, a) + Part(k, b)
  {
  }

  lemma PartMono(k: real, a: real, b: real)
    requires k >= 0.0 && a <= b
    ensures Part(k, a) <= Part(k, b)
  {
    MulLe(k, a, b);
  }

  lemma PartPositive(k: real, a: real)
    requires k > 0.0 && a > 0.0
    ensures Part(k, a) > 0.0
  {
    MulLt(k, 0.0, a);
  }

  lemma PartGrows(j: real, k: real, a: real)
    requires j <= k && a >= 0.0
    ensures Part(j, a) <= Part(k, a)
  {
    MulLe(a, j, k);
  }

  lemma PartOne(a: real)
    ensures Part(1.0, a) == a && Part(0.0, a) == 0.0
  {
  }

  lemma ClampedWithin(p: Pot, j: Judged)
    requires p.mass > 0.0 && p.total > 0.0 && 0.0 <= p.shift < 1.0 && j.cur >= 0.0 && j.signal >= 0.0
    ensures 0.0 <= Part(1.0 - p.shift, j.cur) <= Clamped(p, j)
    ensures j.cur > 0.0 ==> 0.0 < Part(1.0 - p.shift, j.cur) && Clamped(p, j) <= Part(1.0 + p.shift, j.cur)
    ensures Clamped(p, j) <= Raw(p, j.signal) + j.cur
  {
    hide Raw, Part;
    RawNonNegative(p, j.signal);
    PartGrows(0.0, 1.0 - p.shift, j.cur);
    PartGrows(1.0 - p.shift, 1.0, j.cur);
    PartGrows(1.0 - p.shift, 1.0 + p.shift, j.cur);
    PartOne(j.cur);
    if j.cur > 0.0 {
      PartPositive(1.0 - p.shift, j.cur);
    } else {
      PartZero(1.0 - p.shift);
    }
  }

  lemma PartZero(k: real)
    ensures Part(k, 0.0) == 0.0
  {
  }

  lemma {:induction false} SumClampedWithin(p: Pot, js: seq<Judged>)
    requires Sane(p, js)
    ensures SumClamped(p, js) >= Part(1.0 - p.shift, Mass(js)) >= 0.0
    ensures AllWeighted(js) ==> SumClamped(p, js) <= Part(1.0 + p.shift, Mass(js))
    ensures SumClamped(p, js) <= SumRaw(p, js) + Mass(js)
  {
    if js != [] {
      hide Raw, Clamped, Part;
      var n := |js| - 1;
      SumClampedWithin(p, js[..n]);
      ClampedWithin(p, js[n]);
      PartAdd(1.0 - p.shift, Mass(js[..n]), js[n].cur);
      PartAdd(1.0 + p.shift, Mass(js[..n]), js[n].cur);
    }
  }

  function SumRaw(p: Pot, js: seq<Judged>): real
    requires p.total > 0.0
  {
    if js == [] then 0.0 else SumRaw(p, js[..|js| - 1]) + Raw(p, js[|js| - 1].signal)
  }

  lemma {:induction false} SumRawIs(p: Pot, js: seq<Judged>)
    requires p.total > 0.0
    ensures SumRaw(p, js) == p.mass * (SignalTotal(js) / p.total)
  {
    if js != [] {
      var n := |js| - 1;
      SumRawIs(p, js[..n]);
      ShareSum(p.mass, SignalTotal(js[..n]), js[n].signal, p.total);
    }
  }

  lemma ShareSum(mass: real, a: real, b: real, total: real)
    requires total > 0.0
    ensures mass * ((a + b) / total) == mass * (a / total) + mass * (b / total)
  {
    assert (a + b) / total == a / total + b / total;
  }

  // ----- rescaled: the mass is kept -----

  function SumScaled(p: Pot, scale: real, js: seq<Judged>): real
    requires p.total > 0.0
  {
    if js == [] then 0.0 else SumScaled(p, scale, js[..|js| - 1]) + Scaled(p, scale, js[|js| - 1])
  }

  lemma {:induction false} SumScaledIs(p: Pot, scale: real, js: seq<Judged>)
    requires p.total > 0.0
    ensures SumScaled(p, scale, js) == Part(scale, SumClamped(p, js))
  {
    hide Part, Clamped;
    if js == [] {
      PartZero(scale);
    } else {
      var n := |js| - 1;
      SumScaledIs(p, scale, js[..n]);
      PartAdd(scale, SumClamped(p, js[..n]), Clamped(p, js[n]));
    }
  }

  lemma {:induction false} SumFinalNear(p: Pot, clampedMass: real, js: seq<Judged>)
    requires p.total > 0.0 && clampedMass > 0.0
    ensures Abs(SumFinal(p, clampedMass, js) - SumScaled(p, p.mass / clampedMass, js)) <= 0.0005 * |js| as real
  {
    if js != [] {
      hide Scaled, RoundTo;
      var n := |js| - 1;
      SumFinalNear(p, clampedMass, js[..n]);
      RoundToNear(Scaled(p, p.mass / clampedMass, js[n]), 1000.0);
    }
  }

  lemma ClampedMassPositive(p: Pot, js: seq<Judged>)
    requires Sane(p, js) && p.mass == Mass(js)
    ensures SumClamped(p, js) > 0.0
  {
    hide Part, SumClamped;
    SumClampedWithin(p, js);
    PartPositive(1.0 - p.shift, p.mass);
  }

  lemma ScaleRestores(mass: real, c: real)
    requires c > 0.0
    ensures Part(mass / c, c) == mass
  {
  }

  /** The judged sources together keep their mass, to within half a thousandth of
      rounding each. */
  lemma MassKept(p: Pot, js: seq<Judged>)
    requires Sane(p, js) && p.mass == Mass(js)
    ensures Abs(SumFinal(p, SumClamped(p, js), js) - p.mass) <= 0.0005 * |js| as real
  {
    hide Part, SumClamped, SumFinal, SumScaled, Mass;
    var c := SumClamped(p, js);
    ClampedMassPositive(p, js);
    SumScaledIs(p, p.mass / c, js);
    SumFinalNear(p, c, js);
    ScaleRestores(p.mass, c);
  }

  // ----- how far one weight can move -----

  function Lowest(cur: real, shift: real): real
    requires shift >= 0.0
  {
    cur * (1.0 - shift) / (1.0 + shift)
  }

  function Highest(cur: real, shift: real): real
    requires shift < 1.0
  {
    cur * (1.0 + shift) / (1.0 - shift)
  }

  /** Before rounding, each weight stays within its clamp widened by the worst
      rescale; the plain clamp is not promised. */
  lemma MoveIsBounded(p: Pot, js: seq<Judged>, k: nat)
    requires Sane(p, js) && AllWeighted(js) && p.mass == Mass(js) && k < |js|
    ensures var c := SumClamped(p, js);
      && c > 0.0
      && Lowest(js[k].cur, p.shift) <= Scaled(p, p.mass / c, js[k]) <= Highest(js[k].cur, p.shift)
  {
    hide Part, SumClamped, Clamped, Lowest, Highest;
    var c := SumClamped(p, js);
    ClampedMassPositive(p, js);
    SumClampedWithin(p, js);
    ClampedWithin(p, js[k]);
    ScaleBounds(p.mass, c, p.shift);
    BoundedMove(js[k].cur, Clamped(p, js[k]), p.shift, p.mass / c);
  }

  lemma ScaleBounds(mass: real, c: real, shift: real)
    requires mass > 0.0 && c > 0.0 && 0.0 <= shift < 1.0
    requires Part(1.0 - shift, mass) <= c <= Part(1.0 + shift, mass)
    ensures 1.0 / (1.0 + shift) <= mass / c <= 1.0 / (1.0 - shift)
  {
    QuotientAtMost(mass, c, 1.0 - shift);
    QuotientAtLeast(mass, c, 1.0 + shift);
  }

  lemma QuotientAtMost(mass: real, c: real, lo: real)
    requires mass > 0.0 && c > 0.0 && lo > 0.0 && Part(lo, mass) <= c
    ensures mass / c <= 1.0 / lo
  {
    DivLe(Part(lo, mass), c, lo);
    assert Part(lo, mass) / lo == mass;
    DivLe(mass, c / lo, c);
    assert (c / lo) / c == 1.0 / lo;
  }

  lemma QuotientAtLeast(mass: real, c: real, hi: real)
    requires mass > 0.0 && c > 0.0 && hi > 0.0 && c <= Part(hi, mass)
    ensures 1.0 / hi <= mass / c
  {
    DivLe(c, Part(hi, mass), hi);
    assert Part(hi, mass) / hi == mass;
    DivLe(c / hi, mass, c);
    assert (c / hi) / c == 1.0 / hi;
  }

  lemma BoundedMove(cur: real, clamped: real, shift: real, scale: real)
    requires cur > 0.0 && 0.0 <= shift < 1.0
    requires 0.0 < Part(1.0 - shift, cur) <= clamped <= Part(1.0 + shift, cur)
    requires 1.0 / (1.0 + shift) <= scale <= 1.0 / (1.0 - shift)
    ensures Lowest(cur, shift) <= Part(scale, clamped) <= Highest(cur, shift)
  {
    var lo, hi, down, up := Part(1.0 - shift, cur), Part(1.0 + shift, cur), 1.0 / (1.0 + shift), 1.0 / (1.0 - shift);
    OneOverIsPositive(1.0 + shift);
    OneOverIsPositive(1.0 - shift);
    OneOver(1.0 + shift, lo);
    OneOver(1.0 - shift, hi);
    PartIs(1.0 - shift, cur);
    PartIs(1.0 + shift, cur);
    hide Part;
    PartMono(down, lo, clamped);
    PartGrows(down, scale, clamped);
    PartGrows(scale, up, clamped);
    PartMono(up, clamped, hi);
  }

  lemma PartIs(k: real, x: real)
    ensures Part(k, x) == x * k
  {
  }

  lemma OneOverIsPositive(k: real)
    requires k > 0.0
    ensures 1.0 / k > 0.0
  {
  }

  lemma OneOver(k: real, x: real)
    requires k > 0.0
    ensures Part(1.0 / k, x) == x / k
  {
  }

  // ----- when the plain clamp is kept -----

  predicate WithinShift(p: Pot, scale: real, j: Judged)
    requires p.total > 0.0
  {
    Part(1.0 - p.shift, j.cur) <= Scaled(p, scale, j) <= Part(1.0 + p.shift, j.cur)
  }

  lemma {:induction false} SomeClampedDown(p: Pot, js: seq<Judged>) returns (k: nat)
    requires p.total > 0.0 && SumClamped(p, js) < SumRaw(p, js)
    ensures k < |js| && Clamped(p, js[k]) < Raw(p, js[k].signal)
  {
    hide Clamped, Raw;
    var n := |js| - 1;
    if Clamped(p, js[n]) < Raw(p, js[n].signal) {
      k := n;
    } else {
      k := SomeClampedDown(p, js[..n]);
    }
  }

  lemma {:induction false} SomeClampedUp(p: Pot, js: seq<Judged>) returns (k: nat)
    requires p.total > 0.0 && SumClamped(p, js) > SumRaw(p, js)
    ensures k < |js| && Clamped(p, js[k]) > Raw(p, js[k].signal)
  {
    hide Clamped, Raw;
    var n := |js| - 1;
    if Clamped(p, js[n]) > Raw(p, js[n].signal) {
      k := n;
    } else {
      k := SomeClampedUp(p, js[..n]);
    }
  }

  lemma RawIsMass(p: Pot, js: seq<Judged>)
    requires p.total > 0.0 && p.total == SignalTotal(js)
    ensures SumRaw(p, js) == p.mass
  {
    SumRawIs(p, js);
    assert p.total / p.total == 1.0;
  }

  lemma ScaleAboveOne(p: Pot, c: real, x: real)
    requires 0.0 < c && p.mass > 0.0 && x > 0.0
    ensures c < p.mass ==> Part(p.mass / c, x) > x
    ensures c > p.mass ==> Part(p.mass / c, x) < x
    ensures c == p.mass ==> Part(p.mass / c, x) == x
  {
    var scale := p.mass / c;
    assert scale * c == p.mass;
    if c < p.mass {
      if scale <= 1.0 { MulLe(c, scale, 1.0); }
      MulLt(x, 1.0, scale);
    } else if c > p.mass {
      if scale >= 1.0 { MulLe(c, 1.0, scale); }
      MulLt(x, scale, 1.0);
    }
  }

  /** Before rounding, every judged weight stays within the shift if and only if the
      clamp happened to leave the combined mass where it was. */
  lemma ShiftKeptIff(p: Pot, js: seq<Judged>)
    requires Sane(p, js) && AllWeighted(js) && p.mass == Mass(js) && p.total == SignalTotal(js)
    ensures var c := SumClamped(p, js);
      c > 0.0 && ((forall k :: 0 <= k < |js| ==> WithinShift(p, p.mass / c, js[k])) <==> c == p.mass)
  {
    hide Part, SumClamped, SumRaw, Mass, SignalTotal;
    var c := SumClamped(p, js);
    ClampedMassPositive(p, js);
    RawIsMass(p, js);
    if c == p.mass {
      forall k | 0 <= k < |js| ensures WithinShift(p, p.mass / c, js[k]) {
        ClampedWithin(p, js[k]);
        ScaleAboveOne(p, c, Clamped(p, js[k]));
      }
    } else if c < p.mass {
      var k := SomeClampedDown(p, js);
      ClampedWithin(p, js[k]);
      DownMeansTop(p, js[k]);
      ScaleAboveOne(p, c, Clamped(p, js[k]));
      assert !WithinShift(p, p.mass / c, js[k]);
    } else {
      var k := SomeClampedUp(p, js);
      ClampedWithin(p, js[k]);
      UpMeansBottom(p, js[k]);
      ScaleAboveOne(p, c, Clamped(p, js[k]));
      assert !WithinShift(p, p.mass / c, js[k]);
    }
  }

  lemma DownMeansTop(p: Pot, j: Judged)
    requires p.total > 0.0 && j.cur > 0.0 && 0.0 <= p.shift && Clamped(p, j) < Raw(p, j.signal)
    ensures Clamped(p, j) == Part(1.0 + p.shift, j.cur)
  {
    hide Part, Raw;
    PartGrows(1.0 - p.shift, 1.0 + p.shift, j.cur);
  }

  lemma UpMeansBottom(p: Pot, j: Judged)
    requires p.total > 0.0 && j.cur > 0.0 && 0.0 <= p.shift && Clamped(p, j) > Raw(p, j.signal)
    ensures Clamped(p, j) == Part(1.0 - p.shift, j.cur)
  {
    hide Part, Raw;
  }

  /** Two sources at 0.1 and 0.9 with signals 0.9 and 0.1: with a 30% cap the
      first still ends up more than 70% heavier. */
  lemma ShiftCanBeExceeded()
    ensures var js := [Judged("news", 0.9, 0.1), Judged("congress", 0.1, 0.9)];
      var w := Suggest(js, map["news" := 0.1, "congress" := 0.9], 0.3, 0.02);
      w.Some? && "news" in w.value && w.value["news"] > 0.1 * 1.7
  {
    var a, b := Judged("news", 0.9, 0.1), Judged("congress", 0.1, 0.9);
    var js := [a, b];
    assert js[..1] == [a] && [a][..0] == [];
    var p := Pot(1.0, 1.0, 0.3);
    assert Mass([a]) == 0.1 && Mass(js) == 1.0 && SignalTotal([a]) == 0.9 && SignalTotal(js) == 1.0;
    assert Clamped(p, a) == 0.13 && Clamped(p, b) == 0.63;
    assert SumClamped(p, [a]) == 0.13 && SumClamped(p, js) == 0.76;
    QuotientAt(0.171, 1.0, 0.76, 0.13);
    RoundToMono(0.171, Scaled(p, 1.0 / 0.76, a), 1000.0);
    RoundToGrid(0.171, 171, 1000.0);
  }

  lemma QuotientAt(low: real, mass: real, c: real, x: real)
    requires c > 0.0 && low * c <= mass * x
    ensures low <= Part(mass / c, x)
  {
    DivLe(low * c, mass * x, c);
    assert low * c / c == low;
    assert mass * x / c == Part(mass / c, x);
  }

  // ----- and after rounding, as emitted -----

  /** The weight a suggestion emits has moved by at most the shift. */
  predicate EmittedWithin(p: Pot, clampedMass: real, j: Judged)
    requires p.total > 0.0
  {
    Part(1.0 - p.shift, j.cur) <= Final(p, clampedMass, j) <= Part(1.0 + p.shift, j.cur)
  }

  /** In thousandths, the rescaled clamp lies less than half a step outside the whole
      steps that fit between the two bounds, or just half outside an even one. */
  predicate LandsInside(p: Pot, scale: real, j: Judged)
    requires p.total > 0.0
  {
    RoundsInto(Steps(Scaled(p, scale, j), 1000.0),
               Ceil(Steps(Part(1.0 - p.shift, j.cur), 1000.0)), Steps(Part(1.0 + p.shift, j.cur), 1000.0).Floor)
  }

  /** The documented promise, for the weight that is emitted: it is kept if and only
      if the rescaled clamp rounds inside the bounds. */
  lemma EmittedShiftKeptIff(p: Pot, clampedMass: real, j: Judged)
    requires p.total > 0.0 && clampedMass > 0.0
    ensures EmittedWithin(p, clampedMass, j) <==> LandsInside(p, p.mass / clampedMass, j)
  {
    hide Part, RoundTo, RoundsInto, Ceil, Steps, Scaled;
    RoundToBetweenIff(Scaled(p, p.mass / clampedMass, j), Part(1.0 - p.shift, j.cur), Part(1.0 + p.shift, j.cur), 1000.0);
  }

  /** With the mass kept, an emitted weight oversteps by half a thousandth at most. */
  lemma EmittedNearShift(p: Pot, j: Judged)
    requires p.mass > 0.0 && p.total > 0.0 && 0.0 <= p.shift < 1.0 && j.cur > 0.0 && j.signal >= 0.0
    ensures Part(1.0 - p.shift, j.cur) - 0.0005 <= Final(p, p.mass, j) <= Part(1.0 + p.shift, j.cur) + 0.0005
  {
    hide Part, Clamped, RoundTo;
    KeptMassScalesNothing(p, j);
    ClampedWithin(p, j);
    RoundToNear(Clamped(p, j), 1000.0);
  }

  lemma KeptMassScalesNothing(p: Pot, j: Judged)
    requires p.mass > 0.0 && p.total > 0.0
    ensures Scaled(p, p.mass / p.mass, j) == Clamped(p, j)
  {
    hide Clamped;
    assert p.mass / p.mass == 1.0;
    PartOne(Clamped(p, j));
  }

  predicate OnThousandths(x: real) { (x * 1000.0).Floor as real == x * 1000.0 }

  /** With the mass kept and both bounds whole thousandths, the promise is kept. */
  lemma EmittedWithinGridBounds(p: Pot, j: Judged)
    requires p.mass > 0.0 && p.total > 0.0 && 0.0 <= p.shift < 1.0 && j.cur > 0.0 && j.signal >= 0.0
    requires OnThousandths(Part(1.0 - p.shift, j.cur)) && OnThousandths(Part(1.0 + p.shift, j.cur))
    ensures EmittedWithin(p, p.mass, j)
  {
    hide Part, Clamped, RoundTo;
    KeptMassScalesNothing(p, j);
    ClampedWithin(p, j);
    var lo, hi := Part(1.0 - p.shift, j.cur), Part(1.0 + p.shift, j.cur);
    RoundToMono(lo, Clamped(p, j), 1000.0);
    RoundToMono(Clamped(p, j), hi, 1000.0);
    RoundToGrid(lo, (lo * 1000.0).Floor, 1000.0);
    RoundToGrid(hi, (hi * 1000.0).Floor, 1000.0);
  }

  /** Two sources at 0.113 each, the shipped shift and smallest move: the clamp keeps
      the mass, and still rounding takes the first one past its bound. */
  lemma RoundingCanOverstep()
    ensures var js := [Judged("news", 0.9, 0.113), Judged("congress", 0.1, 0.113)];
      var w := Suggest(js, map["news" := 0.113, "congress" := 0.113], 0.3, 0.02);
      && Mass(js) == 0.226 && SignalTotal(js) == 1.0 && SumClamped(Pot(0.226, 1.0, 0.3), js) == 0.226
      && w.Some? && "news" in w.value && w.value["news"] == 0.147 > 0.113 * 1.3
  {
    var a, b := Judged("news", 0.9, 0.113), Judged("congress", 0.1, 0.113);
    var js := [a, b];
    assert js[..1] == [a] && [a][..0] == [];
    var p := Pot(0.226, 1.0, 0.3);
    assert Mass([a]) == 0.113 && Mass(js) == 0.226 && SignalTotal([a]) == 0.9 && SignalTotal(js) == 1.0;
    assert Clamped(p, a) == 0.1469 && Clamped(p, b) == 0.0791;
    assert SumClamped(p, [a]) == 0.1469 && SumClamped(p, js) == 0.226;
    KeptMassScalesNothing(p, a);
    assert RoundHalfEven(146.9) == 147;
    assert Final(p, 0.226, a) == 0.147;
  }

  // ----- what the approval screen will take -----

  /** Not degenerate: some weights, none negative, not all zero. */
  ghost predicate Approvable(w: Weights) {
    (forall s :: s in w ==> w[s] >= 0.0) && exists s :: s in w && w[s] > 0.0
  }

  predicate DistinctSources(js: seq<Judged>) {
    forall i, j :: 0 <= i < j < |js| ==> js[i].source != js[j].source
  }

  lemma {:induction false} ReweightedIs(p: Pot, c: real, current: Weights, js: seq<Judged>, k: nat)
    requires p.total > 0.0 && k < |js| && DistinctSources(js)
    ensures var w := Reweighted(p, c, current, js);
      js[k].source in w && w[js[k].source] == Final(p, c, js[k])
  {
    hide Final;
    if k < |js| - 1 {
      ReweightedIs(p, c, current, js[..|js| - 1], k);
    }
  }

  lemma {:induction false} ReweightedNonNegative(p: Pot, c: real, current: Weights, js: seq<Judged>)
    requires Sane(p, js) && c > 0.0 && forall s :: s in current ==> current[s] >= 0.0
    ensures forall s :: s in Reweighted(p, c, current, js) ==> Reweighted(p, c, current, js)[s] >= 0.0
  {
    if js != [] {
      hide Final;
      ReweightedNonNegative(p, c, current, js[..|js| - 1]);
      FinalAtLeast(p, c, js[|js| - 1], 0);
    }
  }

  /** A grid point below the scaled weight is below the rounded one. */
  lemma FinalAtLeast(p: Pot, c: real, j: Judged, thousandths: nat)
    requires p.mass > 0.0 && p.total > 0.0 && 0.0 <= p.shift < 1.0 && j.cur >= 0.0 && j.signal >= 0.0 && c > 0.0
    requires thousandths == 0 || thousandths as real / 1000.0 <= Scaled(p, p.mass / c, j)
    ensures thousandths as real / 1000.0 <= Final(p, c, j)
  {
    hide RoundTo, Part;
    ClampedWithin(p, j);
    ScaledNonNegative(p, c, j);
    RoundToMono(thousandths as real / 1000.0, Scaled(p, p.mass / c, j), 1000.0);
    RoundToGrid(thousandths as real / 1000.0, thousandths, 1000.0);
  }

  lemma ScaledNonNegative(p: Pot, c: real, j: Judged)
    requires p.mass > 0.0 && p.total > 0.0 && c > 0.0 && Clamped(p, j) >= 0.0
    ensures Scaled(p, p.mass / c, j) >= 0.0
  {
    hide Clamped, Part;
    DivLe(0.0, p.mass, c);
    PartGrows(0.0, p.mass / c, Clamped(p, j));
    PartOne(Clamped(p, j));
  }

  lemma {:induction false} SomeMoved(p: Pot, c: real, js: seq<Judged>, minDelta: real) returns (k: nat)
    requires p.total > 0.0 && minDelta > 0.0 && Moved(p, c, js) >= minDelta
    ensures k < |js| && Abs(Final(p, c, js[k]) - js[k].cur) >= minDelta
  {
    hide Final;
    var n := |js| - 1;
    if Abs(Final(p, c, js[n]) - js[n].cur) >= minDelta {
      k := n;
    } else {
      k := SomeMoved(p, c, js[..n], minDelta);
    }
  }

  /** A weight of at least 0.02 survives the reweighting as at least 0.001. */
  lemma HeavyStaysPositive(p: Pot, js: seq<Judged>, k: nat)
    requires Sane(p, js) && p.mass == Mass(js) && p.total == SignalTotal(js) && p.shift <= 0.9
    requires k < |js| && js[k].cur >= 0.02
    ensures Final(p, SumClamped(p, js), js[k]) >= 0.001
  {
    hide Part, SumClamped, SumRaw, Clamped, Final;
    var c := SumClamped(p, js);
    ClampedMassPositive(p, js);
    SumClampedWithin(p, js);
    RawIsMass(p, js);
    ClampedWithin(p, js[k]);
    PartGrows(0.1, 1.0 - p.shift, js[k].cur);
    TenthOf(js[k].cur);
    HalfAtLeast(p.mass, c, Clamped(p, js[k]));
    FinalAtLeast(p, c, js[k], 1);
  }

  lemma TenthOf(cur: real)
    requires cur >= 0.02
    ensures Part(0.1, cur) >= 0.002
  {
  }

  lemma HalfAtLeast(mass: real, c: real, x: real)
    requires 0.0 < c <= 2.0 * mass && x >= 0.002
    ensures Part(mass / c, x) >= 0.001
  {
    DivLe(c, 2.0 * mass, c);
    assert c / c == 1.0 && 2.0 * mass / c == 2.0 * (mass / c);
    MulLe(x, 0.5, mass / c);
  }

  lemma {:induction false} CurWithinMass(js: seq<Judged>, k: nat)
    requires k < |js| && forall i :: 0 <= i < |js| ==> js[i].cur >= 0.0
    ensures js[k].cur <= Mass(js)
  {
    var n := |js| - 1;
    MassNonNegative(js[..n]);
    if k < n {
      CurWithinMass(js[..n], k);
    }
  }

  lemma {:induction false} MassNonNegative(js: seq<Judged>)
    requires forall i :: 0 <= i < |js| ==> js[i].cur >= 0.0
    ensures Mass(js) >= 0.0
  {
    if js != [] {
      MassNonNegative(js[..|js| - 1]);
    }
  }

  lemma {:induction false} SomePositive(p: Pot, c: real, js: seq<Judged>) returns (k: nat)
    requires p.total > 0.0 && SumFinal(p, c, js) > 0.0
    ensures k < |js| && Final(p, c, js[k]) > 0.0
  {
    hide Final;
    var n := |js| - 1;
    if Final(p, c, js[n]) > 0.0 {
      k := n;
    } else {
      k := SomePositive(p, c, js[..n]);
    }
  }

  /** With at most 39 sources, rounding takes away less than any mass that holds a
      weight of 0.02. */
  lemma FewStayPositive(p: Pot, js: seq<Judged>, k: nat) returns (m: nat)
    requires Sane(p, js) && p.mass == Mass(js) && |js| <= 39 && k < |js| && js[k].cur >= 0.02
    ensures m < |js| && Final(p, SumClamped(p, js), js[m]) > 0.0
  {
    hide SumClamped, SumFinal, Final, Mass;
    CurWithinMass(js, k);
    MassKept(p, js);
    m := SomePositive(p, SumClamped(p, js), js);
  }

  /** How many sources a suggestion may judge and still be safe from rounding: any
      number while the shift is moderate, 39 whatever the shift. */
  predicate RoundingSafe(shift: real, judged: nat) { shift <= 0.9 || judged <= 39 }

  /** Every suggestion worth making passes the degeneracy test of `approve`: rounding
      cannot wipe all of the weights out. */
  lemma SuggestionIsApprovable(js: seq<Judged>, current: Weights, shift: real, minDelta: real)
    requires DistinctSources(js) && 0.0 <= shift < 1.0 && RoundingSafe(shift, |js|) && minDelta >= 0.02
    requires forall s :: s in current ==> current[s] >= 0.0
    requires forall i :: 0 <= i < |js| ==> js[i].cur >= 0.0 && js[i].signal >= 0.0
    requires Suggest(js, current, shift, minDelta).Some?
    ensures Approvable(Suggest(js, current, shift, minDelta).value)
  {
    hide Final, SumClamped, Reweighted, Moved, Mass, SignalTotal;
    var p := Pot(Mass(js), SignalTotal(js), shift);
    var c := SumClamped(p, js);
    var w := Reweighted(p, c, current, js);
    ClampedMassPositive(p, js);
    ReweightedNonNegative(p, c, current, js);
    var k := SomeMoved(p, c, js, minDelta);
    FinalAtLeast(p, c, js[k], 0);
    if js[k].cur >= 0.02 {
      if shift <= 0.9 {
        HeavyStaysPositive(p, js, k);
      } else {
        k := FewStayPositive(p, js, k);
      }
    }
    ReweightedIs(p, c, current, js, k);
    assert w[js[k].source] > 0.0;
  }

  // ----- forty sources are one too many -----

  function Name(n: nat): string { seq(n, _ => 'x') }

  /** Sources without weight, all with the same signal. */
  function Newcomers(n: nat): seq<Judged> {
    if n == 0 then [] else Newcomers(n - 1) + [Judged(Name(n), 1.0, 0.0)]
  }

  const INCUMBENT: Judged := Judged("old", 0.0, 0.02)

  const SHIFT: real := 38.0 / 39.0

  const SPLIT: Pot := Pot(0.02, 39.0, SHIFT)

  lemma {:induction false} NewcomersAre(n: nat)
    ensures |Newcomers(n)| == n && forall i :: 0 <= i < n ==> Newcomers(n)[i] == Judged(Name(i + 1), 1.0, 0.0)
  {
    hide Name;
    if n > 0 {
      NewcomersAre(n - 1);
    }
  }

  lemma {:induction false} NewcomersAddUp(n: nat)
    ensures var js := [INCUMBENT] + Newcomers(n);
      && Mass(js) == 0.02 && SignalTotal(js) == n as real
      && SumClamped(SPLIT, js) == 0.02 / 39.0 + n as real * (0.02 / 39.0)
  {
    hide Clamped, Name;
    NewcomersAre(n);
    var js := [INCUMBENT] + Newcomers(n);
    EachClampsTo(INCUMBENT);
    assert [INCUMBENT][..0] == [];
    if n == 0 {
      assert js == [INCUMBENT];
    } else {
      NewcomersAddUp(n - 1);
      EachClampsTo(js[n]);
      assert js[..n] == [INCUMBENT] + Newcomers(n - 1);
    }
  }

  lemma EachClampsTo(j: Judged)
    requires j == INCUMBENT || (j.signal == 1.0 && j.cur == 0.0)
    ensures Clamped(SPLIT, j) == 0.02 / 39.0
  {
  }

  lemma NewcomersDiffer(n: nat)
    ensures DistinctSources([INCUMBENT] + Newcomers(n))
  {
    var js := [INCUMBENT] + Newcomers(n);
    NewcomersAre(n);
    forall i, j | 0 <= i < j < |js| ensures js[i].source != js[j].source {
      if i > 0 {
        assert js[i].source == Name(i) && js[j].source == Name(j) && |Name(i)| < |Name(j)|;
      } else {
        assert js[j].source == Name(j) && INCUMBENT.source[0] == 'o' && Name(j)[0] == 'x';
      }
    }
  }

  lemma AllRoundAway(j: Judged)
    requires j == INCUMBENT || (j.signal == 1.0 && j.cur == 0.0)
    ensures Final(SPLIT, 0.02 / 39.0 * 40.0, j) == 0.0
  {
    var c := 0.02 / 39.0 * 40.0;
    assert Clamped(SPLIT, j) == 0.02 / 39.0;
    assert 0.02 / c == 39.0 / 40.0;
    assert Scaled(SPLIT, 39.0 / 40.0, j) == 0.0005;
    assert RoundHalfEven(0.5) == 0;
    assert RoundTo(0.0005, 1000.0) == 0.0;
  }

  /** What a reweighting to nothing leaves: zeros, and weights of sources not judged. */
  lemma {:induction false} ReweightedKeepsRest(current: Weights, js: seq<Judged>)
    requires forall i :: 0 <= i < |js| ==> js[i] == INCUMBENT || (js[i].signal == 1.0 && js[i].cur == 0.0)
    ensures var w := Reweighted(SPLIT, 0.02 / 39.0 * 40.0, current, js);
      forall s :: s in w ==> w[s] == 0.0 || (s in current && w[s] == current[s] && forall i :: 0 <= i < |js| ==> js[i].source != s)
  {
    if js != [] {
      hide Final;
      var n := |js| - 1;
      AllRoundAway(js[n]);
      ReweightedKeepsRest(current, js[..n]);
    }
  }

  /** One source more than 39, and a shift of 38/39: every weight rounds to zero, and
      the suggestion that is emitted cannot be approved. */
  lemma FortySourcesCanFail()
    ensures var js := [INCUMBENT] + Newcomers(39);
      var w := Suggest(js, map["old" := 0.02], SHIFT, 0.02);
      |js| == 40 && DistinctSources(js) && w.Some? && !Approvable(w.value)
  {
    hide Final, SumClamped, Clamped, Reweighted, Moved, Mass, SignalTotal;
    var js := [INCUMBENT] + Newcomers(39);
    NewcomersAre(39);
    NewcomersDiffer(39);
    NewcomersAddUp(39);
    assert Pot(Mass(js), SignalTotal(js), SHIFT) == SPLIT;
    var c := SumClamped(SPLIT, js);
    assert c == 0.02 / 39.0 * 40.0;
    AllRoundAway(INCUMBENT);
    MovedAtLeast(SPLIT, c, js, 0);
    ReweightedKeepsRest(map["old" := 0.02], js);
    assert js[0].source == "old";
  }

  lemma {:induction false} MovedAtLeast(p: Pot, c: real, js: seq<Judged>, k: nat)
    requires p.total > 0.0 && k < |js|
    ensures Moved(p, c, js) >= Abs(Final(p, c, js[k]) - js[k].cur)
  {
    hide Final;
    if k < |js| - 1 {
      MovedAtLeast(p, c, js[..|js| - 1], k);
    }
  }

  /** The promise on a whole suggestion: each judged source's emitted weight is within
      the shift of its current one if and only if its rescaled clamp lands inside. */
  lemma SuggestedShiftKeptIff(js: seq<Judged>, current: Weights, shift: real, minDelta: real, k: nat)
    requires DistinctSources(js) && 0.0 <= shift < 1.0 && k < |js|
    requires forall i :: 0 <= i < |js| ==> js[i].cur >= 0.0 && js[i].signal >= 0.0
    requires Suggest(js, current, shift, minDelta).Some?
    ensures var p, w, source := Pot(Mass(js), SignalTotal(js), shift), Suggest(js, current, shift, minDelta).value, js[k].source;
      && p.total > 0.0 && SumClamped(p, js) > 0.0 && source in w
      && (Part(1.0 - shift, js[k].cur) <= w[source] <= Part(1.0 + shift, js[k].cur)
          <==> LandsInside(p, p.mass / SumClamped(p, js), js[k]))
  {
    hide Final, SumClamped, Reweighted, Moved, Mass, SignalTotal, LandsInside, Part;
    var p := Pot(Mass(js), SignalTotal(js), shift);
    ClampedMassPositive(p, js);
    ReweightedIs(p, SumClamped(p, js), current, js, k);
    EmittedShiftKeptIff(p, SumClamped(p, js), js[k]);
  }

  /** What the ledger can feed in: signals are never negative. */
  lemma SignalNonNegative(s: Stats, minSamples: nat)
    requires minSamples > 0 && s.avgScore >= 0.0 && Signal(s, minSamples).Some?
    ensures Signal(s, minSamples).value >= 0.0
  {
    hide RoundTo, Part;
    var rate, strength := s.proposed as real / s.surfaced as real, s.avgScore / 100.0;
    DivLe(0.0, s.proposed as real, s.surfaced as real);
    PartMono(rate, 0.0, strength);
    PartZero(rate);
    RoundToMono(0.0, Part(rate, strength), 10000.0);
    RoundToGrid(0.0, 0, 10000.0);
  }

  /** The share of a source's votes that were proposed, times their average score out
      of 100. */
  function Merit(s: Stats): real
    requires s.surfaced > 0
  {
    s.proposed as real * s.avgScore / (100.0 * s.surfaced as real)
  }

  /** A source is judged from `minSamples` votes on, by its merit to half a
      ten-thousandth. */
  lemma SignalIsMerit(s: Stats, minSamples: nat)
    requires minSamples > 0
    ensures Signal(s, minSamples).Some? <==> s.surfaced >= minSamples
    ensures Signal(s, minSamples).Some? ==> Abs(Signal(s, minSamples).value - Merit(s)) <= 0.00005
  {
    hide RoundTo, Part, Merit;
    if Signal(s, minSamples).Some? {
      RoundToNear(Part(s.proposed as real / s.surfaced as real, s.avgScore / 100.0), 10000.0);
      RateTimesScore(s);
    }
  }

  lemma RateTimesScore(s: Stats)
    requires s.surfaced > 0
    ensures Part(s.proposed as real / s.surfaced as real, s.avgScore / 100.0) == Merit(s)
  {
    var n, k, a := s.surfaced as real, s.proposed as real, s.avgScore;
    var rate := k / n;
    assert rate * n == k;
    assert Part(rate, a / 100.0) * (100.0 * n) == (rate * n) * a;
  }

  /** It grows with the share proposed and with the average score. */
  lemma SignalGrows(a: Stats, b: Stats, minSamples: nat)
    requires minSamples > 0 && Signal(a, minSamples).Some? && Signal(b, minSamples).Some?
    requires a.proposed * b.surfaced <= b.proposed * a.surfaced && 0.0 <= a.avgScore <= b.avgScore
    ensures Signal(a, minSamples).value <= Signal(b, minSamples).value
  {
    hide RoundTo;
    var low, high := a.proposed as real / a.surfaced as real, b.proposed as real / b.surfaced as real;
    RatesCompare(a, b);
    DivLe(0.0, a.proposed as real, a.surfaced as real);
    PartMono(low, a.avgScore / 100.0, b.avgScore / 100.0);
    PartGrows(low, high, b.avgScore / 100.0);
    RoundToMono(Part(low, a.avgScore / 100.0), Part(high, b.avgScore / 100.0), 10000.0);
  }

  lemma RatesCompare(a: Stats, b: Stats)
    requires a.surfaced > 0 && b.surfaced > 0 && a.proposed * b.surfaced <= b.proposed * a.surfaced
    ensures a.proposed as real / a.surfaced as real <= b.proposed as real / b.surfaced as real
  {
    var m, n := a.surfaced as real, b.surfaced as real;
    var low, high := a.proposed as real / m, b.proposed as real / n;
    assert low * m == a.proposed as real && high * n == b.proposed as real;
    assert (a.proposed * b.surfaced) as real == low * m * n && (b.proposed * a.surfaced) as real == high * n * m;
    if low > high {
      MulLt(m, high, low);
      MulLt(n, high * m, low * m);
    }
  }

  /** Where no clamp binds, an emitted weight is the source's share of the mass in
      proportion to its signal, to half a thousandth. */
  lemma UnclampedFollowsSignals(p: Pot, js: seq<Judged>, k: nat)
    requires p.mass > 0.0 && p.total > 0.0 && p.total == SignalTotal(js) && k < |js|
    requires forall i :: 0 <= i < |js| && js[i].cur > 0.0 ==>
      Part(1.0 - p.shift, js[i].cur) <= Raw(p, js[i].signal) <= Part(1.0 + p.shift, js[i].cur)
    ensures Abs(Final(p, SumClamped(p, js), js[k]) - ShareOf(p.mass, js[k].signal, p.total)) <= 0.0005
  {
    hide Part, RoundTo, SumClamped, SumRaw, SignalTotal, ShareOf;
    NoClampBinds(p, js);
    RawIsMass(p, js);
    PartOne(Clamped(p, js[k]));
    RoundToNear(Clamped(p, js[k]), 1000.0);
    assert p.mass / p.mass == 1.0;
    ShareIs(p.mass, js[k].signal, p.total);
  }

  function ShareOf(mass: real, signal: real, total: real): real
    requires total > 0.0
  {
    mass * signal / total
  }

  lemma ShareIs(mass: real, signal: real, total: real)
    requires total > 0.0
    ensures mass * (signal / total) == ShareOf(mass, signal, total)
  {
    assert (signal / total) * total == signal;
  }

  lemma {:induction false} NoClampBinds(p: Pot, js: seq<Judged>)
    requires p.total > 0.0
    requires forall i :: 0 <= i < |js| && js[i].cur > 0.0 ==>
      Part(1.0 - p.shift, js[i].cur) <= Raw(p, js[i].signal) <= Part(1.0 + p.shift, js[i].cur)
    ensures SumClamped(p, js) == SumRaw(p, js)
  {
    hide Part, Raw;
    if js != [] {
      NoClampBinds(p, js[..|js| - 1]);
    }
  }

  /** Of two judged sources of equal weight today, the better signal is never emitted
      with the smaller weight, clamped or not. */
  lemma BetterSignalNeverGetsLess(p: Pot, clampedMass: real, a: Judged, b: Judged)
    requires p.mass > 0.0 && p.total > 0.0 && a.cur == b.cur && a.signal <= b.signal
    ensures Final(p, clampedMass, a) <= Final(p, clampedMass, b)
  {
    hide RoundTo, Part, Clamped;
    ClampedMono(p, a, b);
    if clampedMass > 0.0 {
      DivLe(0.0, p.mass, clampedMass);
      PartMono(p.mass / clampedMass, Clamped(p, a), Clamped(p, b));
      RoundToMono(Scaled(p, p.mass / clampedMass, a), Scaled(p, p.mass / clampedMass, b), 1000.0);
    }
  }

  lemma ClampedMono(p: Pot, a: Judged, b: Judged)
    requires p.mass > 0.0 && p.total > 0.0 && a.cur == b.cur && a.signal <= b.signal
    ensures Clamped(p, a) <= Clamped(p, b)
  {
    hide Part;
    DivLe(a.signal, b.signal, p.total);
    MulLe(p.mass, a.signal / p.total, b.signal / p.total);
  }

  ghost predicate SaneLedger(stats: map<string, Stats>, current: Weights) {
    && (forall s :: s in stats ==> stats[s].avgScore >= 0.0)
    && forall s :: s in current ==> current[s] >= 0.0
  }

  predicate NoRepeats(active: seq<string>) {
    forall i, j :: 0 <= i < j < |active| ==> active[i] != active[j]
  }

  /** Judged sources come from the active ones, each once, with its own weight. */
  lemma {:induction false} JudgedAreSane(stats: map<string, Stats>, current: Weights, active: seq<string>, minSamples: nat)
    requires minSamples > 0 && SaneLedger(stats, current) && NoRepeats(active)
    ensures var js := JudgedOf(stats, current, active, minSamples);
      && DistinctSources(js) && |js| <= |active|
      && (forall i :: 0 <= i < |js| ==> js[i].cur >= 0.0 && js[i].signal >= 0.0)
      && (forall i :: 0 <= i < |js| ==> js[i].source in active && js[i].cur == WeightIn(current, js[i].source))
  {
    if active != [] {
      hide Signal;
      var n := |active| - 1;
      JudgedAreSane(stats, current, active[..n], minSamples);
      assert active[n] !in active[..n];
      if active[n] in stats && Signal(stats[active[n]], minSamples).Some? {
        SignalNonNegative(stats[active[n]], minSamples);
      }
    }
  }

  /** End to end: whatever the ledger says, a suggestion that is made can be
      approved. */
  lemma LedgerSuggestionIsApprovable(stats: map<string, Stats>, current: Weights, active: seq<string>,
                                     minSamples: nat, shift: real, minDelta: real)
    requires minSamples > 0 && SaneLedger(stats, current) && NoRepeats(active)
    requires 0.0 <= shift < 1.0 && RoundingSafe(shift, |active|) && minDelta >= 0.02
    requires Suggest(JudgedOf(stats, current, active, minSamples), current, shift, minDelta).Some?
    ensures Approvable(Suggest(JudgedOf(stats, current, active, minSamples), current, shift, minDelta).value)
  {
    hide Suggest, JudgedOf;
    JudgedAreSane(stats, current, active, minSamples);
    SuggestionIsApprovable(JudgedOf(stats, current, active, minSamples), current, shift, minDelta);
  }
}
