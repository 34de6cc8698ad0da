// lidar_frame_accumulator.cpp, pointOffsetNs: rounded interpolation of point times.
module PointOffset {
  import opened Words

  /** Offset of point `index` of `count` in a batch spanning interval * 100 ns. */
  function PointOffsetNs(index: nat, count: nat, interval: uint32): uint64 {
    if count <= 1 || interval == 0 then 0
    else
      var span := interval * 100;
      var intervals := count - 1;
      var rounded := Wrap64(Wrap64(index * span) + intervals / 2);
      QuotientBelow(rounded, intervals);
      rounded / intervals
  }

  lemma MulMonotone(a: int, b: int, n: nat)
    ensures a <= b ==> a * n <= b * n
  {
  }

  /** q is the quotient a / n exactly when q * n <= a < q * n + n. */
  lemma DivisionUnique(a: int, n: nat, q: int)
    requires 0 < n
    ensures q == a / n <==> q * n <= a < q * n + n
  {
    var d := a / n;
    assert a == d * n + a % n;
    MulMonotone(q + 1, d, n);
    MulMonotone(d + 1, q, n);
  }

  lemma QuotientBelow(a: nat, n: nat)
    requires 0 < n
    ensures 0 <= a / n <= a
  {
    DivisionUnique(a, n, a / n);
    MulMonotone(1, n, a / n);
  }

  /** Adding span moves the quotient by the floor or the ceiling of span / n. */
  lemma QuotientStep(a: int, span: nat, n: nat)
    requires 0 < n
    ensures var step := (a + span) / n - a / n;
            step == span / n || (step == span / n + 1 && span % n != 0)
  {
    var q, r := a / n, a % n;
    var d, s := span / n, span % n;
    assert a == q * n + r && span == d * n + s;
    assert (q + d) * n == q * n + d * n;
    assert (q + d + 1) * n == q * n + d * n + n;
    DivisionUnique(a + span, n, q + d);
    DivisionUnique(a + span, n, q + d + 1);
  }

  lemma QuotientDrops(a: int, b: int, n: nat)
    requires 0 < n && b + n <= a
    ensures b / n < a / n
  {
    var p, q := a / n, b / n;
    assert a == p * n + a % n && b == q * n + b % n;
    MulMonotone(p, q, n);
  }

  /** A vector holds no more points than memory has room for at 24 bytes each. */
  const MAX_POINTS: nat := U64_MAX / 24

  predicate Batch(index: nat, count: nat) {
    2 <= count <= MAX_POINTS && index < count
  }

  /** The exact value of what is divided by the number of intervals. */
  function Numerator(index: nat, count: nat, interval: uint32): int
    requires count > 0
  {
    index * (interval * 100) + (count - 1) / 2
  }

  lemma NumeratorPositive(index: nat, count: nat, interval: uint32)
    requires count > 0
    ensures Numerator(index, count, interval) >= (count - 1) / 2
  {
    MulMonotone(0, index, interval * 100);
  }

  const WORD: nat := U64_MAX + 1

  lemma WrapTwice(a: int, b: int)
    ensures Wrap64(Wrap64(a) + b) == Wrap64(a + b)
  {
    var q := a / WORD;
    assert Wrap64(a) + b == (a + b) + (-q) * WORD;
    WrapShift(a + b, -q);
  }

  lemma WrapShift(a: int, q: int)
    ensures Wrap64(a + q * WORD) == Wrap64(a)
  {
    var d := a / WORD;
    assert a + q * WORD == (d + q) * WORD + Wrap64(a);
    DivisionUnique(a + q * WORD, WORD, d + q);
  }

  /** The code divides the exact value cut to 64 bits. */
  lemma Computed(index: nat, count: nat, interval: uint32)
    requires Batch(index, count)
    ensures PointOffsetNs(index, count, interval) == Wrap64(Numerator(index, count, interval)) / (count - 1)
  {
    var n := count - 1;
    WrapTwice(index * (interval * 100), n / 2);
    if interval == 0 {
      assert index * (interval * 100) == 0;
      DivisionUnique(n / 2, n, 0);
    }
  }

  lemma CutTo64(a: nat)
    ensures a <= U64_MAX ==> Wrap64(a) == a
    ensures a > U64_MAX ==> Wrap64(a) + WORD <= a
  {
    var q := a / WORD;
    assert a == q * WORD + Wrap64(a);
    MulMonotone(1, q, WORD);
  }

  /** The offset is the rounded quotient exactly when that value fits 64 bits. */
  lemma RoundedExactly(index: nat, count: nat, interval: uint32)
    requires Batch(index, count)
    ensures PointOffsetNs(index, count, interval) == Numerator(index, count, interval) / (count - 1)
            <==> Numerator(index, count, interval) <= U64_MAX
  {
    var a := Numerator(index, count, interval);
    Computed(index, count, interval);
    NumeratorPositive(index, count, interval);
    CutTo64(a);
    if a > U64_MAX {
      QuotientDrops(a, Wrap64(a), count - 1);
    }
  }

  /** The first point is at 0; the last is at the end of the span exactly when that fits 64 bits. */
  lemma Endpoints(count: nat, interval: uint32)
    requires 2 <= count <= MAX_POINTS
    ensures PointOffsetNs(0, count, interval) == 0
    ensures PointOffsetNs(count - 1, count, interval) == interval * 100
            <==> Numerator(count - 1, count, interval) <= U64_MAX
  {
    var span, n := interval * 100, count - 1;
    RoundedExactly(0, count, interval);
    RoundedExactly(n, count, interval);
    assert 0 * span == 0;
    DivisionUnique(0 * span + n / 2, n, 0);
    LastQuotient(n, span);
  }

  /** Fifty million points over the longest span: the last one does not come out at its end. */
  lemma WrapExample()
    ensures PointOffsetNs(50_000_000, 50_000_001, 0xFFFF_FFFF) != 0xFFFF_FFFF * 100
  {
    Endpoints(50_000_001, 0xFFFF_FFFF);
  }

  lemma LastQuotient(n: nat, span: nat)
    requires 0 < n
    ensures (n * span + n / 2) / n == span
  {
    DivisionUnique(n * span + n / 2, n, span);
  }

  /** |offset - index * span / n| <= 1/2, scaled by 2 * n. */
  predicate HalfClose(offset: nat, ideal: int, n: int) {
    -n <= 2 * (offset * n) - 2 * ideal <= n
  }

  lemma CloseQuotient(a: int, q: int, n: int)
    requires 0 < n
    ensures q == (a + n / 2) / n ==> -n <= 2 * (q * n) - 2 * a <= n
  {
    DivisionUnique(a + n / 2, n, q);
  }

  lemma FarQuotient(a: int, b: nat, n: int)
    requires 0 < n <= U64_MAX && b + WORD <= a + n / 2
    ensures 2 * (b / n * n) - 2 * a < -n
  {
    DivisionUnique(b, n, b / n);
  }

  /** Half a nanosecond from the ideal exactly when the value fits 64 bits. */
  lemma WithinHalf(index: nat, count: nat, interval: uint32)
    requires Batch(index, count)
    ensures HalfClose(PointOffsetNs(index, count, interval), index * (interval * 100), count - 1)
            <==> Numerator(index, count, interval) <= U64_MAX
  {
    var n, ideal := count - 1, index * (interval * 100);
    var a := Numerator(index, count, interval);
    Computed(index, count, interval);
    NumeratorPositive(index, count, interval);
    CutTo64(a);
    CloseQuotient(ideal, PointOffsetNs(index, count, interval), n);
    if a > U64_MAX {
      FarQuotient(ideal, Wrap64(a), n);
    }
  }

  lemma NextNumerator(index: nat, count: nat, interval: uint32)
    requires count > 0
    ensures Numerator(index + 1, count, interval) == Numerator(index, count, interval) + interval * 100
  {
    OneMore(index, interval * 100);
  }

  lemma OneMore(index: nat, span: nat)
    ensures (index + 1) * span == index * span + span
  {
  }

  predicate EvenStep(step: int, span: nat, n: nat)
    requires 0 < n
  {
    step == span / n || (step == span / n + 1 && span % n != 0)
  }

  /** From a to a + span in 64 bits, divided: an even step exactly when the sum does not wrap. */
  lemma WrappedStep(a: nat, span: nat, n: nat)
    requires 0 < n && span + n <= U64_MAX
    ensures EvenStep(Wrap64(a + span) / n - Wrap64(a) / n, span, n) <==> a / WORD == (a + span) / WORD
  {
    var x, q := Wrap64(a), a / WORD;
    assert a == q * WORD + x;
    QuotientBelow(span, n);
    if x + span < WORD {
      DivisionUnique(a + span, WORD, q);
      QuotientStep(x, span, n);
    } else {
      assert a + span == (q + 1) * WORD + (x + span - WORD);
      DivisionUnique(a + span, WORD, q + 1);
      QuotientDrops(x, x + span - WORD, n);
    }
  }

  /**
   * Neighbouring offsets differ by the floor or the ceiling of span / n, and so never decrease, exactly
   * when the exact value does not pass a multiple of 2^64 between them.
   */
  lemma EvenSteps(index: nat, count: nat, interval: uint32)
    requires Batch(index + 1, count)
    ensures EvenStep(PointOffsetNs(index + 1, count, interval) - PointOffsetNs(index, count, interval),
                     interval * 100, count - 1)
            <==> Numerator(index, count, interval) / WORD == Numerator(index + 1, count, interval) / WORD
  {
    Computed(index, count, interval);
    Computed(index + 1, count, interval);
    NextNumerator(index, count, interval);
    NumeratorPositive(index, count, interval);
    WrappedStep(Numerator(index, count, interval), interval * 100, count - 1);
  }
}
