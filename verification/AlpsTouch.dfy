/** From the two bitmaps of an ALPS pad to the position of a second touch, and the packets the maps come in. */
module AlpsTouch {
  import opened AlpsBitmap
  import opened Numbers

  datatype Version = V3 | V3Rushmore | V4 | V5

  datatype Pad = Pad(version: Version, xMax: nat, yMax: nat, xBits: nat, yBits: nat)

  datatype Pos = Pos(x: int, y: int)

  const UNSELECTED := -1
  const FAR := 0x7fff_ffff

  // ---- Corners

  /** The first and the last line group of an axis. A single run is divided between the two. */
  datatype Axis = Axis(low: Run, high: Run)

  function AxisOf(p: Points): Axis {
    if p.fingers == 1 then
      var i := if p.low.count > 0 then (p.low.count - 1) / 2 else 0;
      Axis(Run(p.low.start, p.low.count - i), Run(p.low.start + i, if i > 1 then i else 1))
    else Axis(p.low, p.high)
  }

  /** The middle of a group, scaled from 0 .. bits - 1 lines to 0 .. max. */
  function Middle(r: Run, max: nat, bits: nat): int
    requires bits >= 2
  {
    (max * (2 * r.start + r.count - 1)) / (2 * (bits - 1))
  }

  function Flip(flipped: bool, max: nat, c: int): int {
    if flipped then max - c else c
  }

  function AtX(pad: Pad, r: Run): int
    requires pad.xBits >= 2
  {
    Flip(pad.version.V5?, pad.xMax, Middle(r, pad.xMax, pad.xBits))
  }

  function AtY(pad: Pad, r: Run): int
    requires pad.yBits >= 2
  {
    Flip(pad.version.V3? || pad.version.V4?, pad.yMax, Middle(r, pad.yMax, pad.yBits))
  }

  /** Clockwise from the corner of the two first groups. */
  function Corners(pad: Pad, x: Axis, y: Axis): (c: seq<Pos>)
    requires pad.xBits >= 2 && pad.yBits >= 2
    ensures |c| == 4
  {
    [Pos(AtX(pad, x.low), AtY(pad, y.low)), Pos(AtX(pad, x.high), AtY(pad, y.low)),
     Pos(AtX(pad, x.high), AtY(pad, y.high)), Pos(AtX(pad, x.low), AtY(pad, y.high))]
  }

  function Distance(a: Pos, b: Pos): int {
    (a.x - b.x) * (a.x - b.x) + (a.y - b.y) * (a.y - b.y)
  }

  /** The search for the closest corner, from corner i on. */
  function ClosestFrom(st: Pos, c: seq<Pos>, i: nat, best: int, closest: int): int
    requires i <= |c|
    decreases |c| - i
  {
    if i == |c| then best
    else if Distance(st, c[i]) < closest then ClosestFrom(st, c, i + 1, i, Distance(st, c[i]))
    else ClosestFrom(st, c, i + 1, best, closest)
  }

  function Max(a: nat, b: nat): nat {
    if a > b then a else b
  }

  /** The number of fingers, the corner selected from now on, and the second touch. */
  datatype Box = Box(fingers: nat, secondTouch: int, second: Pos)

  function ProcessBitmap(pad: Pad, secondTouch: int, xMap: nat, yMap: nat, st: Pos): (box: Box)
    requires pad.xBits >= 2 && pad.yBits >= 2 && UNSELECTED <= secondTouch < 4
    ensures UNSELECTED <= box.secondTouch < 4
  {
    if xMap == 0 || yMap == 0 then Box(0, secondTouch, Pos(0, 0))
    else
      var px, py := PointsOf(xMap), PointsOf(yMap);
      var c := Corners(pad, AxisOf(px), AxisOf(py));
      var selected := if secondTouch == UNSELECTED then (ClosestFrom(st, c, 0, UNSELECTED, FAR) + 2) % 4 else secondTouch;
      Box(Max(px.fingers, py.fingers), selected, c[selected])
  }

  // ---- Corners lie on the pad

  /** A group of lines of an axis. */
  predicate Inside(r: Run, bits: nat) {
    r.count > 0 && End(r) <= bits
  }

  lemma AxisInside(map_: nat, bits: nat)
    requires 0 < map_ < Pow2(bits)
    ensures var a := AxisOf(PointsOf(map_)); Inside(a.low, bits) && Inside(a.high, bits)
  {
    PointsAreRuns(map_, bits);
  }

  lemma MiddleInRange(r: Run, max: nat, bits: nat)
    requires bits >= 2 && Inside(r, bits)
    ensures 0 <= Middle(r, max, bits) <= max
    ensures max * (2 * r.start + r.count - 1) <= max * (2 * (bits - 1))
  {
    var a, b := 2 * r.start + r.count - 1, 2 * (bits - 1);
    assert 0 <= a <= b;
    MulMonotone(a, b, max);
    DivWithin(max * a, max, b);
  }

  lemma DivWithin(n: nat, max: nat, b: nat)
    requires b > 0 && n <= max * b
    ensures 0 <= n / b <= max
  {
    assert b * (n / b) <= n;
    if n / b > max {
      MulMonotone(max + 1, n / b, b);
      assert false;
    }
  }

  predicate OnPad(pad: Pad, p: Pos) {
    0 <= p.x <= pad.xMax && 0 <= p.y <= pad.yMax
  }

  /** For maps no wider than the pad's lines all four corners lie on the pad, single runs and flipped axes included. */
  lemma CornersOnPad(pad: Pad, xMap: nat, yMap: nat)
    requires pad.xBits >= 2 && pad.yBits >= 2
    requires 0 < xMap < Pow2(pad.xBits) && 0 < yMap < Pow2(pad.yBits)
    ensures var c := Corners(pad, AxisOf(PointsOf(xMap)), AxisOf(PointsOf(yMap)));
            forall i :: 0 <= i < 4 ==> OnPad(pad, c[i])
  {
    var x, y := AxisOf(PointsOf(xMap)), AxisOf(PointsOf(yMap));
    AxisInside(xMap, pad.xBits);
    AxisInside(yMap, pad.yBits);
    MiddleInRange(x.low, pad.xMax, pad.xBits);
    MiddleInRange(x.high, pad.xMax, pad.xBits);
    MiddleInRange(y.low, pad.yMax, pad.yBits);
    MiddleInRange(y.high, pad.yMax, pad.yBits);
  }

  // ---- Maps one line wider than the pad's lines

  /** Both line groups of an axis have their middles on the pad. */
  predicate OnAxis(a: Axis, max: nat, bits: nat)
    requires bits >= 2
  {
    0 <= Middle(a.low, max, bits) <= max && 0 <= Middle(a.high, max, bits) <= max
  }

  /** The line beyond the pad's lines is touched only together with the two before it. */
  predicate ReachesFar(map_: nat, bits: nat)
    requires bits >= 2
  {
    Bit(map_, bits) ==> Bit(map_, bits - 1) && Bit(map_, bits - 2)
  }

  /** A group's middle is on the pad exactly if it is no further than the last line of the pad. */
  lemma MiddleOnPadIff(r: Run, max: nat, bits: nat)
    requires bits >= 2 && r.count > 0 && max >= 2 * (bits - 1)
    ensures 0 <= Middle(r, max, bits)
    ensures Middle(r, max, bits) <= max <==> 2 * r.start + r.count - 1 <= 2 * (bits - 1)
  {
    var k, b := 2 * r.start + r.count - 1, 2 * (bits - 1);
    if k <= b {
      MulMonotone(k, b, max);
      DivWithin(max * k, max, b);
    } else {
      MulMonotone(b + 1, k, max);
      assert max * (b + 1) == max * b + max;
      DivBeyond(max * k, max, b);
    }
    DivNat(max * k, b);
  }

  lemma DivNat(n: nat, b: nat)
    requires b > 0
    ensures 0 <= n / b
  {
  }

  lemma DivBeyond(n: nat, max: nat, b: nat)
    requires b > 0 && n >= max * b + b
    ensures n / b > max
  {
    if n / b <= max {
      MulMonotone(n / b, max, b);
      assert false;
    }
  }

  /** How many lines the run that ends behind the last line has. */
  lemma LastRunReaches(map_: nat, r: Run, bits: nat)
    requires bits >= 2 && Maximal(map_, r) && End(r) == bits + 1
    ensures r.count >= 3 <==> ReachesFar(map_, bits)
  {
    assert Bit(map_, bits);
    if r.count >= 3 {
      assert Bit(map_, bits - 1) && Bit(map_, bits - 2);
    } else if r.count == 2 {
      assert r.start == bits - 1;
    } else {
      assert r.start == bits;
    }
  }

  /** The two halves of a single run. */
  lemma HalvesOnAxis(r: Run, max: nat, bits: nat)
    requires bits >= 2 && r.count > 0 && End(r) <= bits + 1 && max >= 2 * (bits - 1)
    ensures OnAxis(AxisOf(Points(r, Run(0, 0), 1, true)), max, bits) <==> End(r) <= bits || r.count >= 3
    ensures AxisOf(Points(r, Run(0, 0), 1, true)) == AxisOf(Points(r, Run(0, 0), 1, false))
  {
    var a := AxisOf(Points(r, Run(0, 0), 1, true));
    MiddleOnPadIff(a.low, max, bits);
    MiddleOnPadIff(a.high, max, bits);
  }

  /** The last run of a map of at most one line more ends behind that line exactly if it is touched. */
  lemma EndsAt(map_: nat, r: Run, bits: nat)
    requires Maximal(map_, r) && ZeroFrom(map_, End(r)) && End(r) <= bits + 1
    ensures End(r) == bits + 1 <==> Bit(map_, bits)
  {
    assert Bit(map_, End(r) - 1);
  }

  /** For a map at most one line wider than the pad's lines both groups lie on the pad exactly if the additional line is
      not touched or the run that reaches it has three lines at least. */
  lemma OnAxisIff(map_: nat, max: nat, bits: nat)
    requires bits >= 2 && 0 < map_ < Pow2(bits + 1) && max >= 2 * (bits - 1)
    ensures OnAxis(AxisOf(PointsOf(map_)), max, bits) <==> ReachesFar(map_, bits)
  {
    PointsAreRuns(map_, bits + 1);
    var p := PointsOf(map_);
    var last := if p.fingers == 1 then p.low else p.high;
    EndsAt(map_, last, bits);
    if End(last) == bits + 1 {
      LastRunReaches(map_, last, bits);
    }
    if p.fingers == 1 {
      HalvesOnAxis(p.low, max, bits);
    } else {
      MiddleOnPadIff(p.low, max, bits);
      MiddleOnPadIff(p.high, max, bits);
    }
  }

  /** So the corners of two such maps, as the Rushmore packets carry them, are on the pad exactly under this condition
      on both; flipped axes included. */
  lemma CornersOnPadIff(pad: Pad, xMap: nat, yMap: nat)
    requires pad.xBits >= 2 && pad.yBits >= 2 && pad.xMax >= 2 * (pad.xBits - 1) && pad.yMax >= 2 * (pad.yBits - 1)
    requires 0 < xMap < Pow2(pad.xBits + 1) && 0 < yMap < Pow2(pad.yBits + 1)
    ensures var c := Corners(pad, AxisOf(PointsOf(xMap)), AxisOf(PointsOf(yMap)));
            (forall i :: 0 <= i < 4 ==> OnPad(pad, c[i])) <==> ReachesFar(xMap, pad.xBits) && ReachesFar(yMap, pad.yBits)
  {
    var x, y := AxisOf(PointsOf(xMap)), AxisOf(PointsOf(yMap));
    OnAxisIff(xMap, pad.xMax, pad.xBits);
    OnAxisIff(yMap, pad.yMax, pad.yBits);
    CornersAreAxes(pad, x, y);
  }

  lemma CornersAreAxes(pad: Pad, x: Axis, y: Axis)
    requires pad.xBits >= 2 && pad.yBits >= 2
    ensures var c := Corners(pad, x, y);
            (forall i :: 0 <= i < 4 ==> OnPad(pad, c[i])) <==> OnAxis(x, pad.xMax, pad.xBits) && OnAxis(y, pad.yMax, pad.yBits)
  {
    var c := Corners(pad, x, y);
    if forall i :: 0 <= i < 4 ==> OnPad(pad, c[i]) {
      assert OnPad(pad, c[0]) && OnPad(pad, c[2]);
    }
  }

  /** The line beyond the pad's lines alone is such a map. */
  lemma WiderMapLeavesPad(pad: Pad, yMap: nat)
    requires pad.xBits >= 2 && pad.yBits >= 2 && pad.xMax >= 2 * (pad.xBits - 1) && pad.yMax >= 2 * (pad.yBits - 1)
    requires 0 < yMap < Pow2(pad.yBits + 1)
    ensures var c := Corners(pad, AxisOf(PointsOf(Pow2(pad.xBits))), AxisOf(PointsOf(yMap)));
            exists i :: 0 <= i < 4 && !OnPad(pad, c[i])
  {
    BitOfPower(pad.xBits, pad.xBits);
    BitOfPower(pad.xBits, pad.xBits - 1);
    CornersOnPadIff(pad, Pow2(pad.xBits), yMap);
  }

  lemma {:induction false} BitOfPower(n: nat, k: nat)
    ensures Bit(Pow2(n), k) <==> k == n
    decreases k
  {
    if n == 0 {
      if k > 0 {
        NoBits(k - 1);
      }
    } else {
      assert Pow2(n) % 2 == 0 && Pow2(n) / 2 == Pow2(n - 1);
      if k > 0 {
        BitOfPower(n - 1, k - 1);
      }
    }
  }

  // ---- The second touch

  predicate Near(p: Pos) {
    0 <= p.x <= 0x7fff && 0 <= p.y <= 0x7fff
  }

  lemma NearDistance(a: Pos, b: Pos)
    requires Near(a) && Near(b)
    ensures 0 <= Distance(a, b) < FAR
  {
    SquareBound(a.x - b.x);
    SquareBound(a.y - b.y);
  }

  lemma SquareBound(d: int)
    requires -0x7fff <= d <= 0x7fff
    ensures 0 <= d * d <= 0x7fff * 0x7fff
  {
    var e := if d < 0 then -d else d;
    assert d * d == e * e;
    MulMonotone(e, 0x7fff, e);
    MulMonotone(e, 0x7fff, 0x7fff);
  }

  /** No corner seen so far is closer than the best one. */
  lemma {:induction false} ClosestIsNearest(st: Pos, c: seq<Pos>, i: nat, best: int, closest: int)
    requires i <= |c| && |c| > 0
    requires forall j :: 0 <= j < |c| ==> 0 <= Distance(st, c[j]) < FAR
    requires if best == UNSELECTED then i == 0 && closest == FAR else 0 <= best < |c| && closest == Distance(st, c[best])
    requires forall j :: 0 <= j < i ==> closest <= Distance(st, c[j])
    ensures var b := ClosestFrom(st, c, i, best, closest);
            0 <= b < |c| && forall j :: 0 <= j < |c| ==> Distance(st, c[b]) <= Distance(st, c[j])
    decreases |c| - i
  {
    if i < |c| {
      if Distance(st, c[i]) < closest {
        ClosestIsNearest(st, c, i + 1, i, Distance(st, c[i]));
      } else {
        ClosestIsNearest(st, c, i + 1, best, closest);
      }
    }
  }

  /** The second touch is a corner of the box: the one opposite to the closest when it is selected, which it then stays. */
  lemma SecondTouch(pad: Pad, secondTouch: int, xMap: nat, yMap: nat, st: Pos)
    requires pad.xBits >= 2 && pad.yBits >= 2 && UNSELECTED <= secondTouch < 4
    requires 0 < xMap < Pow2(pad.xBits) && 0 < yMap < Pow2(pad.yBits)
    requires pad.xMax <= 0x7fff && pad.yMax <= 0x7fff && Near(st)
    ensures var box := ProcessBitmap(pad, secondTouch, xMap, yMap, st);
            var c := Corners(pad, AxisOf(PointsOf(xMap)), AxisOf(PointsOf(yMap)));
            && 0 <= box.secondTouch < 4 && box.second == c[box.secondTouch] && OnPad(pad, box.second)
            && box.fingers == Max(RunsBelow(xMap, pad.xBits), RunsBelow(yMap, pad.yBits)) > 0
            && (if secondTouch != UNSELECTED then box.secondTouch == secondTouch
                else forall j :: 0 <= j < 4 ==> Distance(st, c[(box.secondTouch + 2) % 4]) <= Distance(st, c[j]))
  {
    var c := Corners(pad, AxisOf(PointsOf(xMap)), AxisOf(PointsOf(yMap)));
    CornersOnPad(pad, xMap, yMap);
    PointsAreRuns(xMap, pad.xBits);
    PointsAreRuns(yMap, pad.yBits);
    forall j | 0 <= j < 4
      ensures 0 <= Distance(st, c[j]) < FAR
    {
      assert OnPad(pad, c[j]);
      NearDistance(st, c[j]);
    }
    ClosestIsNearest(st, c, 0, UNSELECTED, FAR);
  }
}
