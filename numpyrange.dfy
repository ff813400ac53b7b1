/** `np.arange(start, stop, step)` over integers: `start, start + step, ...`,
    strictly below `stop`. */
module NumpyRange {

  function ArangeBy(start: int, stop: int, step: int): (r: seq<int>)
    requires step > 0
    ensures forall k :: 0 <= k < |r| ==> r[k] == start + k * step
    ensures forall k :: 0 <= k < |r| ==> r[k] < stop
    ensures start + |r| * step >= stop
    decreases stop - start
  {
    if stop <= start then []
    else
      var rest := ArangeBy(start + step, stop, step);
      assert forall k :: 1 <= k <= |rest| ==> (start + step) + (k - 1) * step == start + k * step;
      [start] + rest
  }

  /** `np.arange(a, b)`: every integer from `a` up to but excluding `b`. */
  function Arange(a: int, b: int): (r: seq<int>)
    ensures |r| == if b <= a then 0 else b - a
    ensures forall k :: 0 <= k < |r| ==> r[k] == a + k
  {
    var r := ArangeBy(a, b, 1);
    assert |r| > 0 ==> r[|r| - 1] == a + (|r| - 1) * 1 < b;
    r
  }

  /** A value is enumerated exactly when it lies in the half-open range. */
  lemma ArangeMembers(a: int, b: int, x: int)
    ensures x in Arange(a, b) <==> a <= x < b
  {
    var r := Arange(a, b);
    if a <= x < b {
      assert r[x - a] == x;
    }
  }

  lemma ArangeIncreasing(a: int, b: int, i: int, j: int)
    requires 0 <= i < j < |Arange(a, b)|
    ensures Arange(a, b)[i] < Arange(a, b)[j]
  {
  }

  /** With a positive step the values are the multiples of `step` past `start`
      that stay below `stop`. */
  lemma {:induction false} ArangeByMembers(start: int, stop: int, step: int, x: int)
    requires step > 0
    ensures x in ArangeBy(start, stop, step) <==> start <= x < stop && (x - start) % step == 0
  {
    var r := ArangeBy(start, stop, step);
    if x in r {
      var k :| 0 <= k < |r| && r[k] == x;
      MulMod(k, step);
    }
    if start <= x < stop && (x - start) % step == 0 {
      var k := (x - start) / step;
      assert k * step == x - start;
      if k >= |r| {
        MonotoneMul(|r|, k, step);
        assert false;
      }
      assert r[k] == x;
    }
  }

  /** Starting at the step itself, the values are the positive multiples of
      the step below `stop`. */
  lemma MultiplesBelow(step: int, stop: int, x: int)
    requires step > 0
    ensures x in ArangeBy(step, stop, step) <==> 0 < x < stop && x % step == 0
  {
    assert (x - step) % step == x % step by {
      var q := x / step;
      assert (q - 1) * step == q * step - step;
      ModUnique(x - step, step, q - 1, x % step);
    }
    ArangeByMembers(step, stop, step, x);
  }

  /** Euclidean division has one quotient and one remainder. */
  lemma ModUnique(a: int, d: int, q: int, m: int)
    requires d > 0 && a == q * d + m && 0 <= m < d
    ensures a / d == q && a % d == m
  {
    var q2 := a / d;
    if q2 > q {
      MonotoneMul(q + 1, q2, d);
    } else if q2 < q {
      MonotoneMul(q2 + 1, q, d);
    }
  }

  lemma MulMod(k: int, step: int)
    requires step > 0
    ensures (k * step) % step == 0
  {
    var q, m := (k * step) / step, (k * step) % step;
    assert k * step == q * step + m && 0 <= m < step;
    assert (k - q) * step == m by {
      assert (k - q) * step == k * step - q * step;
    }
    if k > q {
      MonotoneMul(1, k - q, step);
    } else if k < q {
      MonotoneMul(k - q, -1, step);
    }
  }

  lemma MonotoneMul(i: int, j: int, step: int)
    requires i <= j && step > 0
    ensures i * step <= j * step
  {
    assert j * step - i * step == (j - i) * step;
  }
}
