/** What a discovery score is worth, said without adding anything up: it is nothing
    when no source speaks, everything when all are certain, and in between each source
    moves it in proportion to its weight. */
module ScoreLaws {
  import opened Common
  import opened Rounding
  import opened Scoring

  /** The largest of a source's contributions that is not negative; zero without one. */
  ghost predicate IsBest(cs: seq<Contribution>, source: string, v: real) {
    && v >= 0.0 && (forall c :: c in cs && c.source == source ==> c.score <= v)
    && (v == 0.0 || exists c :: c in cs && c.source == source && c.score == v)
  }

  lemma BestIff(cs: seq<Contribution>, source: string, v: real)
    ensures IsBest(cs, source, v) <==> v == BestOf(cs, source)
  {
    BestIs(cs, source);
  }

  /** The score before it is rounded to a tenth. */
  function Unrounded(weights: Weights, active: seq<string>, cs: seq<Contribution>): real {
    var total := TotalWeight(weights, active);
    if total <= 0.0 then 0.0 else 100.0 * Blend(weights, active, cs) / total
  }

  lemma ScoreIsRounded(weights: Weights, active: seq<string>, cs: seq<Contribution>)
    ensures ScoreOf(weights, active, cs) == RoundTo(Unrounded(weights, active, cs), 10.0)
    ensures Abs(ScoreOf(weights, active, cs) - Unrounded(weights, active, cs)) <= 0.05
  {
    hide RoundTo;
    RoundToNear(Unrounded(weights, active, cs), 10.0);
    RoundToGrid(0.0, 0, 10.0);
  }

  /** A single active source of positive weight scores its best, in percent. */
  lemma OneSourceScoresItsBest(weights: Weights, source: string, cs: seq<Contribution>, v: real)
    requires WeightOf(weights, source) > 0.0 && IsBest(cs, source, v)
    ensures ScoreOf(weights, [source], cs) == RoundTo(100.0 * v, 10.0)
  {
    hide RoundTo, BestOf, IsBest, WeightOf;
    var w := WeightOf(weights, source);
    BestIff(cs, source, v);
    assert [source][..0] == [];
    assert TotalWeight(weights, [source]) == w && Blend(weights, [source], cs) == w * v;
    Cancels(w, v);
  }

  lemma Cancels(w: real, v: real)
    requires w > 0.0
    ensures 100.0 * (w * v) / w == 100.0 * v
  {
    assert 100.0 * (w * v) == (100.0 * v) * w;
  }

  /** Raising one source's best by `d`, all else alike, raises the score by that
      source's share of the weight. */
  lemma SourceMovesScoreByItsWeight(weights: Weights, active: seq<string>, source: string,
                                    before: seq<Contribution>, after: seq<Contribution>, v: real, d: real)
    requires Distinct(active) && source in active && TotalWeight(weights, active) > 0.0
    requires IsBest(before, source, v) && IsBest(after, source, v + d)
    requires forall s, x :: s in active && s != source ==> (IsBest(before, s, x) <==> IsBest(after, s, x))
    ensures Unrounded(weights, active, after)
         == Unrounded(weights, active, before) + 100.0 * WeightOf(weights, source) * d / TotalWeight(weights, active)
  {
    hide BestOf, Blend, TotalWeight, WeightOf, Distinct;
    var w, total := WeightOf(weights, source), TotalWeight(weights, active);
    BestIff(before, source, v);
    BestIff(after, source, v + d);
    forall s | s in active && s != source ensures BestOf(before, s) == BestOf(after, s) {
      BestIff(before, s, BestOf(before, s));
      BestIff(after, s, BestOf(before, s));
    }
    var rest := BlendWithout(weights, active, source, before);
    BlendSplitsOff(weights, active, rest, source, after);
    BlendAlike(weights, rest, before, after);
    assert w * (v + d) == w * v + w * d;
    SumOver(Blend(weights, active, before), w * d, total);
  }

  lemma SumOver(a: real, b: real, total: real)
    requires total > 0.0
    ensures 100.0 * (a + b) / total == 100.0 * a / total + 100.0 * b / total
  {
  }

  /** Any listing of the other keys will do. */
  lemma BlendSplitsOff(weights: Weights, active: seq<string>, rest: seq<string>, source: string, cs: seq<Contribution>)
    requires Distinct(active) && Distinct(rest) && source in active
    requires forall x :: x in rest <==> x in active && x != source
    ensures Blend(weights, active, cs) == Blend(weights, rest, cs) + Term(weights, source, cs)
  {
    hide Blend, Distinct, Term;
    var others := BlendWithout(weights, active, source, cs);
    BlendOverKeys(weights, others, rest, cs);
  }

  lemma {:induction false} BlendAlike(weights: Weights, active: seq<string>, a: seq<Contribution>, b: seq<Contribution>)
    requires forall s :: s in active ==> BestOf(a, s) == BestOf(b, s)
    ensures Blend(weights, active, a) == Blend(weights, active, b)
  {
    if active != [] {
      BlendAlike(weights, active[..|active| - 1], a, b);
    }
  }

  lemma {:induction false} BlendOfEqualBests(weights: Weights, active: seq<string>, cs: seq<Contribution>, v: real)
    requires forall s :: s in active ==> IsBest(cs, s, v)
    ensures Blend(weights, active, cs) == v * TotalWeight(weights, active)
  {
    if active != [] {
      hide BestOf, IsBest, WeightOf;
      var n := |active| - 1;
      BlendOfEqualBests(weights, active[..n], cs, v);
      BestIff(cs, active[n], v);
      Distribute(v, TotalWeight(weights, active[..n]), WeightOf(weights, active[n]));
    }
  }

  lemma Distribute(v: real, a: real, b: real)
    ensures v * (a + b) == v * a + b * v
  {
  }

  /** When every active source's best is the same, that is the score: nothing when none
      speaks up, 100 when all are certain. */
  lemma AgreementIsTheScore(weights: Weights, active: seq<string>, cs: seq<Contribution>, v: real)
    requires TotalWeight(weights, active) > 0.0 && forall s :: s in active ==> IsBest(cs, s, v)
    ensures Unrounded(weights, active, cs) == 100.0 * v
  {
    hide TotalWeight, Blend, IsBest;
    BlendOfEqualBests(weights, active, cs, v);
    Cancels(TotalWeight(weights, active), v);
  }
}
