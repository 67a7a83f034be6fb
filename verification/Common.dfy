/** Vocabulary shared by every layer: optional values, the side of a trade, and
    the handful of arithmetic helpers the risk code leans on. */
module Common {

  datatype Option<+T> = None | Some(value: T)

  datatype Side = Long | Short

  function Max(a: real, b: real): real { if a >= b then a else b }

  function Min(a: real, b: real): real { if a <= b then a else b }

  function MinInt(a: int, b: int): int { if a <= b then a else b }

  function Abs(a: real): real { if a >= 0.0 then a else -a }

  /** `pct` percent of `base`. */
  function PctOf(base: real, pct: real): real { base * (pct / 100.0) }

  function OrElse(o: Option<real>, default: real): real {
    if o.Some? then o.value else default
  }

  /** Truncation toward zero, the meaning of Python's int(x). */
  function Trunc(x: real): int {
    if x >= 0.0 then x.Floor else -((-x).Floor)
  }

  lemma MulLe(k: real, a: real, b: real)
    requires k >= 0.0 && a <= b
    ensures k * a <= k * b
  {
    assert k * (b - a) >= 0.0;
  }

  lemma DivLe(a: real, b: real, k: real)
    requires k > 0.0 && a <= b
    ensures a / k <= b / k
  {
    var p, q := a / k, b / k;
    if p > q {
      MulLt(k, q, p);
    }
  }

  lemma MulLt(k: real, a: real, b: real)
    requires k > 0.0 && a < b
    ensures k * a < k * b
  {
    assert k * (b - a) > 0.0;
  }

  lemma TruncMono(x: real, y: real)
    requires x <= y
    ensures Trunc(x) <= Trunc(y)
  {
  }

  lemma TruncAbove(x: real)
    ensures Trunc(x) as real > x - 1.0
  {
  }
}
