/** Non-linear facts, stated one product at a time. */
module Arith {

  lemma Distribute(a: int, b: int, c: int)
    ensures (b - a) * c == b * c - a * c
  {
  }

  lemma DistributeSum(a: int, b: int, c: int)
    ensures (a + b) * c == a * c + b * c
  {
  }

  lemma MulNonNegative(a: int, b: int)
    requires a >= 0 && b >= 0
    ensures a * b >= 0
  {
  }

  lemma MulMonotone(a: int, b: int, c: int)
    requires c >= 0 && a <= b
    ensures a * c <= b * c
  {
    MulNonNegative(b - a, c);
    Distribute(a, b, c);
  }

  lemma MulCompare(a: int, b: int, c: int)
    requires c > 0
    ensures a * c < b * c <==> a < b
    ensures a * c <= b * c <==> a <= b
  {
    if a < b {
      MulMonotone(a + 1, b, c);
      Distribute(a, a + 1, c);
    } else {
      MulMonotone(b, a, c);
      if b < a {
        MulMonotone(b + 1, a, c);
        Distribute(b, b + 1, c);
      }
    }
  }

  lemma DivFloor(a: int, b: int)
    requires b > 0
    ensures (a / b) * b <= a < (a / b + 1) * b
  {
  }

  function MaxOf(a: real, b: real): real { if a >= b then a else b }

  /** n intervals, counted one by one. */
  function Intervals(n: nat, interval: real): real {
    if n == 0 then 0.0 else Intervals(n - 1, interval) + interval
  }

  lemma {:induction false} IntervalsMultiply(n: nat, interval: real)
    ensures Intervals(n, interval) == n as real * interval
  {
    if n > 0 {
      IntervalsMultiply(n - 1, interval);
      assert n as real * interval == (n as real - 1.0) * interval + interval;
    }
  }

  lemma {:induction false} IntervalsNonNegative(n: nat, interval: real)
    requires interval > 0.0
    ensures Intervals(n, interval) >= 0.0
  {
    if n > 0 {
      IntervalsNonNegative(n - 1, interval);
    }
  }
}
