/**
 * The wheel's angle-to-segment mapping. The wheel is turned clockwise by a
 * cumulative whole number of degrees `r`; segment 0 is drawn from 12 o'clock
 * clockwise and the pointer is fixed at 12 o'clock. The segment under the
 * pointer is the one covering the angle that completes `r` to a full turn.
 */
module WheelAngle {

  const FullTurn: nat := 360

  /**
   * `(360 - r % 360) % 360`: the angle on the wheel that the rotation has
   * brought under the pointer, which is `-r` modulo a full turn. For `r >= 0`
   * JavaScript's `%` agrees with Dafny's.
   */
  function NormalizedAngle(r: nat): (a: nat)
    ensures a < FullTurn
    ensures (r + a) % FullTurn == 0
  {
    CompletesTurn(r);
    (FullTurn - r % FullTurn) % FullTurn
  }

  lemma CompletesTurn(r: nat)
    ensures (r + (FullTurn - r % FullTurn) % FullTurn) % FullTurn == 0
  {
    var q, m := r / FullTurn, r % FullTurn;
    assert r == q * FullTurn + m;
    if m != 0 {
      assert r + (FullTurn - m) == (q + 1) * FullTurn;
    }
  }

  /**
   * `Math.floor(NormalizedAngle(r) / (360 / n))` in integer arithmetic: the
   * segment of `n` equal wedges whose arc `[i * 360 / n, (i + 1) * 360 / n)`
   * holds the normalized angle. It is always a valid index when `n >= 1`.
   */
  function WinIndex(r: nat, n: nat): (i: nat)
    ensures i * FullTurn <= NormalizedAngle(r) * n < (i + 1) * FullTurn
    ensures n >= 1 ==> i < n
  {
    ScaledQuotient(NormalizedAngle(r), n);
    NormalizedAngle(r) * n / FullTurn
  }

  /** The arithmetic behind `WinIndex`, on plain numbers. */
  lemma ScaledQuotient(a: nat, n: nat)
    requires a < FullTurn
    ensures var i := a * n / FullTurn;
      i * FullTurn <= a * n < (i + 1) * FullTurn && (n >= 1 ==> i < n)
  {
    var x := a * n;
    var i := x / FullTurn;
    assert i * FullTurn <= x < (i + 1) * FullTurn;
    if n >= 1 {
      MulMonoStrict(a, FullTurn, n);
      assert i * FullTurn < FullTurn * n;
    }
  }

  /** The wedge containing an angle is unique: any index whose arc holds it is `WinIndex`. */
  lemma WinIndexUnique(r: nat, n: nat, j: nat)
    requires j * FullTurn <= NormalizedAngle(r) * n < (j + 1) * FullTurn
    ensures j == WinIndex(r, n)
  {
    QuotientOfTurns(NormalizedAngle(r) * n, j);
  }

  lemma QuotientOfTurns(x: nat, j: nat)
    requires j * FullTurn <= x < (j + 1) * FullTurn
    ensures x / FullTurn == j
  {
  }

  /** Only the rotation modulo a full turn matters: extra whole turns never move the winner. */
  lemma WinIndexPeriodic(r: nat, turns: nat, n: nat)
    ensures NormalizedAngle(r + turns * FullTurn) == NormalizedAngle(r)
    ensures WinIndex(r + turns * FullTurn, n) == WinIndex(r, n)
  {
    WholeTurns(r, turns);
  }

  /**
   * When the wedge width `360 / n` is a whole number (every `n` from 2 to 8
   * except 7), dividing by the width, as the source does, gives `WinIndex`.
   */
  lemma WinIndexByWidth(r: nat, n: nat)
    requires n >= 1 && FullTurn % n == 0
    ensures WinIndex(r, n) == NormalizedAngle(r) / (FullTurn / n)
  {
    DivideByWidth(NormalizedAngle(r), n);
  }

  /**
   * For seven segments the width is not whole, but no whole angle strictly
   * inside a turn lies on a wedge boundary, since `7 * a` is then never a
   * multiple of 360.
   */
  lemma SevenHasNoInnerBoundary(a: nat)
    requires 0 < a < FullTurn
    ensures (a * 7) % FullTurn != 0
  {
  }

  lemma DivideByWidth(a: nat, n: nat)
    requires n >= 1 && FullTurn % n == 0
    ensures a * n / FullTurn == a / (FullTurn / n)
  {
    var w := FullTurn / n;
    DivMod(FullTurn, n);
    assert w * n == FullTurn;
    var q := a / w;
    var m := a % w;
    DivMod(a, w);
    Distribute(q * w, m, n);
    Associate(q, w, n);
    assert a * n == q * FullTurn + m * n;
    MulMonoStrict(m, w, n);
    QuotientOfTurns(a * n, q);
  }

  /**
   * Every segment can win from every wheel position: for any current rotation,
   * any number of full turns and any of `n` segments, `k` is a stopping angle
   * in `[0, 360)` that puts that segment under the pointer.
   */
  lemma EverySegmentReachable(rotation: nat, turns: nat, n: nat, i: nat) returns (k: nat)
    requires 1 <= n <= FullTurn && i < n
    ensures k < FullTurn && WinIndex(rotation + turns * FullTurn + k, n) == i
  {
    var a := FirstAngleOfWedge(n, i);
    k := StopFor(rotation, a);
    var r := rotation + turns * FullTurn + k;
    WholeTurns(rotation + k, turns);
    NormalizedIsComplement(r, a);
    WinIndexUnique(r, n, i);
  }

  /** The angle that completes a rotation to whole turns is unique below a full turn. */
  lemma NormalizedIsComplement(r: nat, a: nat)
    requires a < FullTurn && (r + a) % FullTurn == 0
    ensures NormalizedAngle(r) == a
  {
  }

  /** A stopping angle that brings a rotation to `-a` modulo a full turn. */
  lemma StopFor(rotation: nat, a: nat) returns (k: nat)
    requires a < FullTurn
    ensures k < FullTurn && (rotation + k + a) % FullTurn == 0
  {
    k := (2 * FullTurn - rotation % FullTurn - a) % FullTurn;
  }

  lemma WholeTurns(x: nat, turns: nat)
    ensures (x + turns * FullTurn) % FullTurn == x % FullTurn
  {
  }

  /** The smallest whole angle in wedge `i` of `n`. */
  lemma FirstAngleOfWedge(n: nat, i: nat) returns (a: nat)
    requires 1 <= n <= FullTurn && i < n
    ensures a < FullTurn && i * FullTurn <= a * n < (i + 1) * FullTurn
  {
    var x := i * FullTurn + n - 1;
    a := x / n;
    DivMod(x, n);
    assert i * FullTurn <= a * n < (i + 1) * FullTurn;
    if a >= FullTurn {
      MulMono(FullTurn, a, n);
      assert false;
    }
  }

  lemma DivMod(x: nat, d: nat)
    requires d >= 1
    ensures x == (x / d) * d + x % d && x % d < d
  {
  }

  lemma Distribute(x: nat, y: nat, n: nat)
    ensures (x + y) * n == x * n + y * n
  {
  }

  lemma Associate(x: nat, y: nat, n: nat)
    ensures x * y * n == x * (y * n)
  {
  }

  lemma MulMono(x: nat, y: nat, n: nat)
    requires x <= y
    ensures x * n <= y * n
  {
  }

  lemma MulMonoStrict(x: nat, y: nat, n: nat)
    requires x < y && n >= 1
    ensures x * n < y * n
  {
  }

  /** Two segments and a rotation of 370 degrees: the pointer is at 350 degrees, in the second wedge. */
  lemma TwoSegmentsAt370()
    ensures NormalizedAngle(370) == 350
    ensures WinIndex(370, 2) == 1
  {
  }
}
