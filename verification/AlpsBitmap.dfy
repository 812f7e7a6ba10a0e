/** The row and column bitmaps of ALPS pads: runs of touched lines, and the corners of the box around all contacts. */
module AlpsBitmap {

  // ---- Bits of a map

  predicate Bit(map_: nat, k: nat)
    decreases k
  {
    if k == 0 then map_ % 2 == 1 else Bit(map_ / 2, k - 1)
  }

  function Shift(map_: nat, k: nat): nat
    decreases k
  {
    if k == 0 then map_ else Shift(map_ / 2, k - 1)
  }

  function Pow2(n: nat): (p: nat)
    ensures p > 0
  {
    if n == 0 then 1 else 2 * Pow2(n - 1)
  }

  lemma {:induction false} ShiftOnce(map_: nat, k: nat)
    ensures Shift(map_, k + 1) == Shift(map_, k) / 2
    decreases k
  {
    if k > 0 {
      ShiftOnce(map_ / 2, k - 1);
    }
  }

  lemma {:induction false} BitOfShift(map_: nat, k: nat)
    ensures Bit(map_, k) == (Shift(map_, k) % 2 == 1)
    decreases k
  {
    if k > 0 {
      BitOfShift(map_ / 2, k - 1);
    }
  }

  lemma {:induction false} NoBits(k: nat)
    ensures !Bit(0, k)
    decreases k
  {
    if k > 0 {
      NoBits(k - 1);
    }
  }

  /** Once everything is shifted out no bit is left. */
  lemma {:induction false} ShiftedOut(map_: nat, i: nat, k: nat)
    requires Shift(map_, i) == 0 && i <= k
    ensures !Bit(map_, k)
    decreases i
  {
    if i == 0 {
      NoBits(k);
    } else {
      ShiftedOut(map_ / 2, i - 1, k - 1);
    }
  }

  /** A map of the given width has its bits below. */
  lemma {:induction false} BitWithin(map_: nat, width: nat, k: nat)
    requires map_ < Pow2(width) && Bit(map_, k)
    ensures k < width
    decreases width
  {
    if width == 0 {
      NoBits(k);
    } else if k > 0 {
      BitWithin(map_ / 2, width - 1, k - 1);
    }
  }

  // ---- Runs of ones

  /** Lines start, ..., start + count - 1. */
  datatype Run = Run(start: nat, count: nat)

  function End(r: Run): nat {
    r.start + r.count
  }

  /** The first run and the last of several, the number of runs, and whether the first one is complete. */
  datatype Points = Points(low: Run, high: Run, fingers: nat, onHigh: bool)

  const NO_POINTS := Points(Run(0, 0), Run(0, 0), 0, false)

  function Extended(r: Run, i: nat, fresh_: bool): Run {
    if fresh_ then Run(i, 1) else Run(r.start, r.count + 1)
  }

  /** One line, after whether the one before it was touched. */
  function Line(s: Points, i: nat, bit: bool, prev: bool): Points {
    if bit then
      var counted := if prev then s else s.(fingers := s.fingers + 1);
      if s.onHigh then counted.(high := Extended(s.high, i, !prev)) else counted.(low := Extended(s.low, i, !prev))
    else if prev then s.(onHigh := true)
    else s
  }

  function Scan(map_: nat, i: nat, prev: bool, s: Points): Points
    decreases map_
  {
    if map_ == 0 then s else Scan(map_ / 2, i + 1, map_ % 2 == 1, Line(s, i, map_ % 2 == 1, prev))
  }

  function PointsOf(map_: nat): Points {
    Scan(map_, 0, false, NO_POINTS)
  }

  // ---- What runs mean

  /** Touched lines that begin at k. */
  predicate Begins(map_: nat, k: nat) {
    Bit(map_, k) && (k > 0 ==> !Bit(map_, k - 1))
  }

  /** The number of runs that begin below n. */
  function RunsBelow(map_: nat, n: nat): nat {
    if n == 0 then 0 else RunsBelow(map_, n - 1) + if Begins(map_, n - 1) then 1 else 0
  }

  ghost predicate AllOnes(map_: nat, from: nat, to: nat) {
    forall k :: from <= k < to ==> Bit(map_, k)
  }

  ghost predicate AllZeros(map_: nat, from: nat, to: nat) {
    forall k :: from <= k < to ==> !Bit(map_, k)
  }

  /** A run of ones that cannot be made longer. */
  ghost predicate Maximal(map_: nat, r: Run) {
    r.count > 0 && Begins(map_, r.start) && AllOnes(map_, r.start, End(r)) && !Bit(map_, End(r))
  }

  ghost predicate First(map_: nat, r: Run) {
    Maximal(map_, r) && AllZeros(map_, 0, r.start)
  }

  ghost predicate ZeroFrom(map_: nat, from: nat) {
    forall k: nat :: k >= from ==> !Bit(map_, k)
  }

  ghost predicate Last(map_: nat, r: Run) {
    Maximal(map_, r) && ZeroFrom(map_, End(r))
  }

  /** The run that is still growing, or a complete one followed by zeros, up to line i. */
  ghost predicate Growing(map_: nat, r: Run, i: nat) {
    r.count > 0 && End(r) == i && Begins(map_, r.start) && AllOnes(map_, r.start, i)
  }

  /** What the scan has found out about the lines below i. */
  ghost predicate Scanned(map_: nat, i: nat, prev: bool, s: Points) {
    && prev == (i > 0 && Bit(map_, i - 1))
    && s.fingers == RunsBelow(map_, i)
    && (s.fingers == 0 ==> s == NO_POINTS && !prev && AllZeros(map_, 0, i))
    && (s.fingers > 0 ==> AllZeros(map_, 0, s.low.start))
    && (s.fingers > 0 && !s.onHigh ==> s.fingers == 1 && prev && s.high == Run(0, 0) && Growing(map_, s.low, i))
    && (s.onHigh ==> s.fingers > 0 && End(s.low) < i && Maximal(map_, s.low))
    && (s.onHigh && s.fingers == 1 ==> !prev && s.high == Run(0, 0) && AllZeros(map_, End(s.low), i))
    && (s.onHigh && s.fingers > 1 ==>
          && End(s.low) < s.high.start
          && if prev then Growing(map_, s.high, i)
             else End(s.high) < i && Maximal(map_, s.high) && AllZeros(map_, End(s.high), i))
  }

  lemma TouchedScans(map_: nat, i: nat, prev: bool, s: Points)
    requires Scanned(map_, i, prev, s) && Bit(map_, i)
    ensures Scanned(map_, i + 1, true, Line(s, i, true, prev))
  {
    assert Begins(map_, i) == !prev;
  }

  lemma UntouchedScans(map_: nat, i: nat, prev: bool, s: Points)
    requires Scanned(map_, i, prev, s) && !Bit(map_, i)
    ensures Scanned(map_, i + 1, false, Line(s, i, false, prev))
  {
    assert !Begins(map_, i);
  }

  lemma {:induction false} ScanScans(map_: nat, i: nat, prev: bool, s: Points) returns (n: nat, last: bool)
    requires Scanned(map_, i, prev, s)
    ensures Shift(map_, n) == 0
    ensures Scanned(map_, n, last, Scan(Shift(map_, i), i, prev, s))
    decreases Shift(map_, i)
  {
    n, last := i, prev;
    var rest, bit := Shift(map_, i), Bit(map_, i);
    if rest != 0 {
      ShiftOnce(map_, i);
      BitOfShift(map_, i);
      if bit {
        TouchedScans(map_, i, prev, s);
      } else {
        UntouchedScans(map_, i, prev, s);
      }
      assert Scan(rest, i, prev, s) == Scan(rest / 2, i + 1, bit, Line(s, i, bit, prev));
      n, last := ScanScans(map_, i + 1, bit, Line(s, i, bit, prev));
    }
  }

  lemma {:induction false} RunsStable(map_: nat, a: nat, b: nat)
    requires a <= b && ZeroFrom(map_, a)
    ensures RunsBelow(map_, b) == RunsBelow(map_, a)
    decreases b
  {
    if a < b {
      RunsStable(map_, a, b - 1);
    }
  }

  lemma {:induction false} SomeBit(map_: nat) returns (k: nat)
    requires map_ != 0
    ensures Bit(map_, k)
    decreases map_
  {
    if map_ % 2 == 1 {
      k := 0;
    } else {
      k := SomeBit(map_ / 2);
      k := k + 1;
    }
  }

  lemma ZeroFromWidth(map_: nat, width: nat)
    requires map_ < Pow2(width)
    ensures ZeroFrom(map_, width)
  {
    forall k: nat | k >= width
      ensures !Bit(map_, k)
    {
      if Bit(map_, k) {
        BitWithin(map_, width, k);
      }
    }
  }

  lemma ZeroFromShift(map_: nat, n: nat)
    requires Shift(map_, n) == 0
    ensures ZeroFrom(map_, n)
  {
    forall k: nat | k >= n
      ensures !Bit(map_, k)
    {
      ShiftedOut(map_, n, k);
    }
  }

  /** What holds once only zeros are left. */
  lemma Concluded(map_: nat, n: nat, prev: bool, p: Points)
    requires Scanned(map_, n, prev, p) && ZeroFrom(map_, n) && p.fingers > 0
    ensures First(map_, p.low)
    ensures p.fingers == 1 ==> p.high == Run(0, 0) && ZeroFrom(map_, End(p.low))
    ensures p.fingers > 1 ==> End(p.low) < p.high.start && Last(map_, p.high)
  {
  }

  /** What the decoder of a map finds: the number of runs of ones, the first run, and the last one of several. */
  lemma PointsAreRuns(map_: nat, width: nat)
    requires 0 < map_ < Pow2(width)
    ensures var p := PointsOf(map_);
            && p.fingers == RunsBelow(map_, width) > 0
            && First(map_, p.low) && End(p.low) <= width
            && (p.fingers == 1 ==> p.high == Run(0, 0) && ZeroFrom(map_, End(p.low)))
            && (p.fingers > 1 ==> Last(map_, p.high) && End(p.low) < p.high.start && End(p.high) <= width)
  {
    var p := PointsOf(map_);
    var n, last := ScanScans(map_, 0, false, NO_POINTS);
    ZeroFromShift(map_, n);
    ZeroFromWidth(map_, width);
    var k := SomeBit(map_);
    assert k < n;
    Concluded(map_, n, last, p);
    if n <= width {
      RunsStable(map_, n, width);
    } else {
      RunsStable(map_, width, n);
    }
    assert Bit(map_, End(p.low) - 1);
    if p.fingers > 1 {
      assert Bit(map_, End(p.high) - 1);
    }
  }
}
