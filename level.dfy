/**
  Level-scaled parameters: a stat that grows linearly from its value at level 0
  to its value at level 99. The source divides with a 32-bit integer division
  that truncates toward zero, which differs from Dafny's Euclidean `/` when the
  dividend is negative (a stat that shrinks with level).
 */
module Level {

  /** Integer division rounding toward zero, as the source's `/` on `int` does. */
  function TruncDiv(a: int, b: int): (q: int)
    requires b > 0
    ensures a >= 0 ==> 0 <= q && q * b <= a < q * b + b
    ensures a < 0 ==> q <= 0 && a <= q * b < a + b
  {
    if a >= 0 then a / b else -((-a) / b)
  }

  /** The parameter at level `lv`, interpolated between `min` (level 0) and `max` (level 99). */
  function GetParameterFromLevel(min: int, max: int, lv: int): int
  {
    min + TruncDiv((max - min) * lv, 99)
  }

  /** The quotient is the unique integer with the truncating-division bounds. */
  lemma TruncDivExact(a: int, b: int, q: int)
    requires b > 0
    requires q * b == a
    ensures TruncDiv(a, b) == q
  {
    var r := TruncDiv(a, b);
    if a >= 0 {
      MulStrict(r, q + 1, b);
      MulStrict(q, r + 1, b);
    } else {
      MulStrict(q - 1, r, b);
      MulStrict(r - 1, q, b);
    }
  }

  lemma MulStrict(x: int, y: int, b: int)
    requires b > 0
    requires x * b < y * b
    ensures x < y
  {
  }

  lemma MulMonotone(x: int, y: int, d: int)
    requires d >= 0 && x <= y
    ensures d * x <= d * y
  {
    assert d * y - d * x == d * (y - x);
  }

  /** Truncating division is monotone in the dividend. */
  lemma TruncDivMonotone(a1: int, a2: int, b: int)
    requires b > 0 && a1 <= a2
    ensures TruncDiv(a1, b) <= TruncDiv(a2, b)
  {
    var q1, q2 := TruncDiv(a1, b), TruncDiv(a2, b);
    if a1 >= 0 || a2 < 0 {
      // q1 * b <= a1 <= a2 < q2 * b + b in both cases with the same sign
      if q1 > q2 {
        MulMonotone(q2 + 1, q1, b);
      }
    }
  }

  /** Level 0 gives the initial value and level 99 the maximum value. */
  lemma {:induction false} ParameterEndpoints(min: int, max: int)
    ensures GetParameterFromLevel(min, max, 0) == min
    ensures GetParameterFromLevel(min, max, 99) == max
  {
    TruncDivExact(0, 99, 0);
    TruncDivExact((max - min) * 99, 99, max - min);
  }

  /** For a growing stat the parameter never decreases as the level rises. */
  lemma ParameterMonotone(min: int, max: int, lv1: int, lv2: int)
    requires min <= max && lv1 <= lv2
    ensures GetParameterFromLevel(min, max, lv1) <= GetParameterFromLevel(min, max, lv2)
  {
    MulMonotone(lv1, lv2, max - min);
    TruncDivMonotone((max - min) * lv1, (max - min) * lv2, 99);
  }

  /** For a shrinking stat the parameter never increases as the level rises. */
  lemma ParameterAntitone(min: int, max: int, lv1: int, lv2: int)
    requires max <= min && lv1 <= lv2
    ensures GetParameterFromLevel(min, max, lv2) <= GetParameterFromLevel(min, max, lv1)
  {
    MulMonotone(lv1, lv2, min - max);
    assert (max - min) * lv1 == -((min - max) * lv1);
    assert (max - min) * lv2 == -((min - max) * lv2);
    TruncDivMonotone((max - min) * lv2, (max - min) * lv1, 99);
  }

  /** Within levels 0 to 99 the parameter lies between the two end values. */
  lemma ParameterBetween(min: int, max: int, lv: int)
    requires 0 <= lv <= 99
    ensures min <= max ==> min <= GetParameterFromLevel(min, max, lv) <= max
    ensures max <= min ==> max <= GetParameterFromLevel(min, max, lv) <= min
  {
    ParameterEndpoints(min, max);
    if min <= max {
      ParameterMonotone(min, max, 0, lv);
      ParameterMonotone(min, max, lv, 99);
    }
    if max <= min {
      ParameterAntitone(min, max, 0, lv);
      ParameterAntitone(min, max, lv, 99);
    }
  }

  /**
    The division truncates toward zero: a stat shrinking from 10 to 0 is still
    10 at level 1, where a floor division would give 9.
   */
  lemma ParameterTruncatesTowardZero()
    ensures GetParameterFromLevel(10, 0, 1) == 10
    ensures 10 + (0 - 10) * 1 / 99 == 9
  {
  }
}
