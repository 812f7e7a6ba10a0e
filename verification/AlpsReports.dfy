/** ALPS packets and reports said of the bytes: fields as masks, and what a report carries of them. */
module AlpsReports {
  import opened Options
  import opened Numbers
  import opened ByteMasks
  import opened AlpsBitmap
  import opened AlpsTouch
  import opened AlpsPackets

  // ---- Fields

  /** What a position packet carries. */
  function StX(d: Decoder, p: Packet): nat {
    if d.Dolphin? then And(p[1], 0x7F) + 128 * And(p[4], 0x0F)
    else 16 * And(p[1], 0x7F) + And(p[4], 0x30) / 4 + And(p[0], 0x30) / 16
  }

  function StY(d: Decoder, p: Packet): nat {
    if d.Dolphin? then And(p[2], 0x7F) + 8 * And(p[4], 0xF0) else 16 * And(p[2], 0x7F) + And(p[4], 0x0F)
  }

  function Pressure(d: Decoder, p: Packet): nat {
    if d.Dolphin? && And(p[0], 0x04) != 0 then 0 else And(p[5], 0x7F)
  }

  lemma DolphinPosition(p: Packet)
    ensures PositionOf(Dolphin, p) == Position(Pos(StX(Dolphin, p), StY(Dolphin, p)), Pressure(Dolphin, p))
  {
    hide And;
    Mask7F(p[1]);
    Mask7F(p[2]);
    Mask7F(p[5]);
    Mask0F(p[4]);
    HighMasks(p[4]);
    BitMasks(p[0]);
  }

  lemma OtherPosition(d: Decoder, p: Packet)
    requires !d.Dolphin?
    ensures PositionOf(d, p) == Position(Pos(StX(d, p), StY(d, p)), Pressure(d, p))
  {
    hide And;
    Mask7F(p[1]);
    Mask7F(p[2]);
    Mask7F(p[5]);
    Mask0F(p[4]);
    Mask30(p[0]);
    Mask30(p[4]);
  }

  lemma PositionFields(d: Decoder, p: Packet)
    ensures PositionOf(d, p) == Position(Pos(StX(d, p), StY(d, p)), Pressure(d, p))
  {
    hide And, PositionOf, StX, StY, Pressure;
    if d.Dolphin? {
      DolphinPosition(p);
    } else {
      OtherPosition(d, p);
    }
  }

  /** What a bitmap packet carries. */
  function XMap(d: Decoder, pad: Pad, p: Packet): nat {
    match d
    case Pinnacle => 256 * And(p[4], 0x7E) + 4 * And(p[1], 0x7F) + And(p[0], 0x30) / 16
    case Rushmore => 2048 * And(p[5], 0x10) + 256 * And(p[4], 0x7E) + 4 * And(p[1], 0x7F) + And(p[0], 0x30) / 16
    case Dolphin => Palm(p) / Pow2(pad.yBits) % Pow2(pad.xBits)
  }

  function YMap(d: Decoder, pad: Pad, p: Packet): nat {
    match d
    case Pinnacle => 16 * And(p[3], 0x70) + 2 * And(p[2], 0x7F) + And(p[4], 0x01)
    case Rushmore => 64 * And(p[5], 0x20) + 16 * And(p[3], 0x70) + 2 * And(p[2], 0x7F) + And(p[4], 0x01)
    case Dolphin => Palm(p) % Pow2(pad.yBits)
  }

  function Fingers(d: Decoder, p: Packet): nat {
    match d
    case Pinnacle => And(p[5], 0x03) + 1
    case Rushmore => (if And(p[5], 0x03) > And(p[5], 0x0C) / 4 then And(p[5], 0x03) else And(p[5], 0x0C) / 4) + 1
    case Dolphin => And(p[0], 0x06) / 2 + And(p[0], 0x10) / 4
  }

  /** The 35 bits of a profile, seven, seven, seven, seven, three, three and one at a time. */
  function Palm(p: Packet): nat {
    And(p[1], 0x7F) + And(p[2], 0x7F) * 0x80 + And(p[4], 0x7F) * 0x4000 + And(p[5], 0x7F) * 0x20_0000
    + And(p[3], 0x07) * 0x1000_0000 + And(p[3], 0x70) * 0x800_0000 + And(p[0], 0x01) * 0x4_0000_0000
  }

  lemma PalmFields(p: Packet)
    ensures PalmData(p) == Palm(p)
  {
    hide And;
    Masks(p[0]);
    Masks(p[1]);
    Masks(p[2]);
    Masks(p[3]);
    Masks(p[4]);
    Masks(p[5]);
    HighMasks(p[3]);
  }

  lemma PinnacleFields(p: Packet)
    ensures PinnacleX(p) == 256 * And(p[4], 0x7E) + 4 * And(p[1], 0x7F) + And(p[0], 0x30) / 16
    ensures PinnacleY(p) == 16 * And(p[3], 0x70) + 2 * And(p[2], 0x7F) + And(p[4], 0x01)
  {
    hide And;
    Masks(p[1]);
    Masks(p[2]);
    Masks(p[4]);
    HighMasks(p[0]);
    HighMasks(p[3]);
    HighMasks(p[4]);
  }

  lemma PinnacleMaps(pad: Pad, p: Packet)
    ensures MapsOf(Pinnacle, pad, p) == Maps(Fingers(Pinnacle, p), XMap(Pinnacle, pad, p), YMap(Pinnacle, pad, p))
  {
    hide And, PinnacleX, PinnacleY;
    PinnacleFields(p);
    Masks(p[5]);
  }

  lemma RushmoreMaps(pad: Pad, p: Packet)
    ensures MapsOf(Rushmore, pad, p) == Maps(Fingers(Rushmore, p), XMap(Rushmore, pad, p), YMap(Rushmore, pad, p))
  {
    hide And, PinnacleX, PinnacleY;
    PinnacleFields(p);
    Masks(p[5]);
    HighMasks(p[5]);
    BitMasks(p[5]);
  }

  lemma DolphinFingers(p: Packet)
    ensures Fingers(Dolphin, p) == Field(p[0], 2, 4) + Field(p[0], 16, 2) * 4
  {
    hide And;
    HighMasks(p[0]);
    BitMasks(p[0]);
  }

  lemma DolphinMaps(pad: Pad, p: Packet)
    ensures MapsOf(Dolphin, pad, p) == Maps(Fingers(Dolphin, p), XMap(Dolphin, pad, p), YMap(Dolphin, pad, p))
  {
    hide And, PalmData, Palm, Pow2, Fingers, Field;
    PalmFields(p);
    DolphinFingers(p);
  }

  lemma MapFields(d: Decoder, pad: Pad, p: Packet)
    ensures MapsOf(d, pad, p) == Maps(Fingers(d, p), XMap(d, pad, p), YMap(d, pad, p))
  {
    hide MapsOf, Fingers, XMap, YMap;
    match d
    case Pinnacle => PinnacleMaps(pad, p);
    case Rushmore => RushmoreMaps(pad, p);
    case Dolphin => DolphinMaps(pad, p);
  }

  /** The bits that tell the packets apart. */
  function KindBits(d: Decoder, p: Packet): Kind {
    var multi := match d
      case Pinnacle => And(p[0], 0x40)
      case Rushmore => And(p[5], 0x40)
      case Dolphin => And(p[0], 0x20);
    var first := if d.Dolphin? then And(p[0], 0x02) else And(p[4], 0x40);
    if multi != 0 then Continuation else if first != 0 then First else Whole
  }

  lemma KindFields(d: Decoder, p: Packet)
    ensures KindOf(d, p) == KindBits(d, p)
  {
    hide And;
    BitMasks(p[0]);
    BitMasks(p[4]);
    BitMasks(p[5]);
  }

  /** Version 8 by its bits. */
  lemma KindFieldsV8(p: Packet)
    ensures KindOfV8(p) == if And(p[3], 0x10) != 0 && And(p[3], 0x20) != 0 then Continuation
                           else if And(p[3], 0x10) != 0 && And(p[2], 0x10) != 0 then First
                           else Whole
  {
    hide And;
    BitMasks(p[2]);
    BitMasks(p[3]);
  }

  // ---- Reports

  /** The report's first touch is the packet's position, with y counted from the bottom of the pad. */
  predicate CarriesFirst(d: Decoder, pad: Pad, p: Packet, report: Report) {
    report.first.x == StX(d, p) && report.first.y + StY(d, p) == pad.yMax
  }

  /** A packet by itself is reported at once: one finger iff there is pressure. */
  lemma WholeIsReported(d: Decoder, pad: Pad, s: PadState, p: Packet)
    requires ValidPad(pad) && UNSELECTED <= s.secondTouch < 4 && KindBits(d, p).Whole?
    ensures var t := Touchpad(d, pad, s, p);
            && t.report.Some? && t.state == PadState(None, UNSELECTED)
            && CarriesFirst(d, pad, p, t.report.value)
            && t.report.value.fingers == if Pressure(d, p) > 0 then 1 else 0
  {
    hide And;
    KindFields(d, p);
    PositionFields(d, p);
  }

  /** A first packet waits, and a second one without it is ignored. */
  lemma OthersAreNot(d: Decoder, pad: Pad, s: PadState, p: Packet)
    requires ValidPad(pad) && UNSELECTED <= s.secondTouch < 4
    ensures KindBits(d, p).First? ==> Touchpad(d, pad, s, p) == Turn(PadState(Some(p), s.secondTouch), None)
    ensures KindBits(d, p).Continuation? && s.saved.None? ==> Touchpad(d, pad, s, p) == Turn(PadState(None, s.secondTouch), None)
  {
    hide And;
    KindFields(d, p);
  }

  /** The corners of the box around two maps. */
  function BoxCorners(pad: Pad, x: nat, y: nat): (c: seq<Pos>)
    requires ValidPad(pad)
    ensures |c| == 4
  {
    Corners(pad, AxisOf(PointsOf(x)), AxisOf(PointsOf(y)))
  }

  /** Two packets joined: the first touch is the one of the first packet; with two fingers or more by the second packet, and
      both maps non-empty, the second touch is the selected corner, which stays selected. */
  predicate CarriesBoth(d: Decoder, pad: Pad, before: int, first: Packet, second: Packet, t: Turn)
    requires ValidPad(pad)
  {
    var x, y := XMap(d, pad, second), YMap(d, pad, second);
    && t.report.Some? && t.state.saved.None? && CarriesFirst(d, pad, first, t.report.value)
    && if x == 0 || y == 0 || Fingers(d, second) < 2 then
         t.state.secondTouch == UNSELECTED && t.report.value.fingers == if Pressure(d, first) > 0 then 1 else 0
       else
         var k, report, c := t.state.secondTouch, t.report.value, BoxCorners(pad, x, y);
         && 0 <= k < 4 && report.fingers == Fingers(d, second)
         && report.second.x == c[k].x && report.second.y + c[k].y == pad.yMax
         && (before != UNSELECTED ==> k == before)
  }

  lemma JoinedIsReported(d: Decoder, pad: Pad, s: PadState, p: Packet)
    requires ValidPad(pad) && UNSELECTED <= s.secondTouch < 4 && KindBits(d, p).Continuation? && s.saved.Some?
    ensures CarriesBoth(d, pad, s.secondTouch, s.saved.value, p, Touchpad(d, pad, s, p))
  {
    hide And;
    KindFields(d, p);
    PositionFields(d, s.saved.value);
    MapFields(d, pad, p);
    var x, y := XMap(d, pad, p), YMap(d, pad, p);
    if x != 0 && y != 0 {
      BoxIsCorner(pad, s.secondTouch, x, y, PositionOf(d, s.saved.value).st);
    }
  }

  lemma BoxIsCorner(pad: Pad, secondTouch: int, x: nat, y: nat, st: Pos)
    requires ValidPad(pad) && UNSELECTED <= secondTouch < 4 && x != 0 && y != 0
    ensures var box := ProcessBitmap(pad, secondTouch, x, y, st);
            && box.fingers > 0 && 0 <= box.secondTouch < 4 && box.second == BoxCorners(pad, x, y)[box.secondTouch]
            && (secondTouch != UNSELECTED ==> box.secondTouch == secondTouch)
  {
    var width := Wide(x);
    PointsAreRuns(x, width);
  }

  /** Some width holds every map. */
  lemma {:induction false} Wide(x: nat) returns (width: nat)
    ensures x < Pow2(width)
    decreases x
  {
    width := 0;
    if x > 0 {
      width := Wide(x / 2);
      width := width + 1;
    }
  }

  // ---- Where the corners are

  /** The coordinate of lines first to last, scaled from bits lines to 0 .. max and rounded down. */
  predicate ScaledMiddle(c: int, first: nat, last: nat, max: nat, bits: nat)
    requires bits >= 2
  {
    2 * (bits - 1) * c <= max * (first + last) < 2 * (bits - 1) * (c + 1)
  }

  lemma MiddleIsScaled(r: Run, max: nat, bits: nat)
    requires bits >= 2 && r.count > 0
    ensures ScaledMiddle(Middle(r, max, bits), r.start, End(r) - 1, max, bits)
  {
    var b := 2 * (bits - 1);
    assert r.start + (End(r) - 1) == 2 * r.start + r.count - 1;
    Quotient(max * (2 * r.start + r.count - 1), b);
  }

  lemma Quotient(n: nat, b: nat)
    requires b > 0
    ensures b * (n / b) <= n < b * (n / b + 1)
  {
  }

  /** The two line groups of a map: its first and its last run; or for a single run of count lines the first ones, all but
      (count - 1) / 2, and as many from there, one at least. */
  lemma AxisGroups(map_: nat, width: nat)
    requires 0 < map_ < Pow2(width)
    ensures var a := AxisOf(PointsOf(map_));
            if RunsBelow(map_, width) > 1 then AlpsBitmap.First(map_, a.low) && Last(map_, a.high) && End(a.low) < a.high.start
            else exists r :: && AlpsBitmap.First(map_, r) && Last(map_, r)
                             && a.low.start == r.start && a.low.count == r.count - (r.count - 1) / 2
                             && a.high.start == r.start + (r.count - 1) / 2
                             && a.high.count == if r.count < 5 then 1 else (r.count - 1) / 2
  {
    PointsAreRuns(map_, width);
    var p := PointsOf(map_);
    if p.fingers == 1 {
      assert AlpsBitmap.First(map_, p.low) && Last(map_, p.low);
    }
  }

  /** Corner 0 is where the two first groups meet, and the others follow clockwise. Version 5 counts x from the other side,
      versions 3 and 4 y. */
  lemma CornersAreMiddles(pad: Pad, x: Axis, y: Axis)
    requires ValidPad(pad) && x.low.count > 0 && x.high.count > 0 && y.low.count > 0 && y.high.count > 0
    ensures var c := Corners(pad, x, y);
            && (forall k :: 0 <= k < 4 ==> AtMiddle(pad, c[k], if k == 0 || k == 3 then x.low else x.high, if k < 2 then y.low else y.high))
  {
    MiddleIsScaled(x.low, pad.xMax, pad.xBits);
    MiddleIsScaled(x.high, pad.xMax, pad.xBits);
    MiddleIsScaled(y.low, pad.yMax, pad.yBits);
    MiddleIsScaled(y.high, pad.yMax, pad.yBits);
  }

  predicate AtMiddle(pad: Pad, c: Pos, x: Run, y: Run)
    requires ValidPad(pad) && x.count > 0 && y.count > 0
  {
    && ScaledMiddle(if pad.version == V5 then pad.xMax - c.x else c.x, x.start, x.start + x.count - 1, pad.xMax, pad.xBits)
    && ScaledMiddle(if pad.version == V3 || pad.version == V4 then pad.yMax - c.y else c.y, y.start, y.start + y.count - 1,
                    pad.yMax, pad.yBits)
  }

  // ---- Version 4

  function StX4(p: Packet4): nat {
    16 * And(p[1], 0x7F) + And(p[3], 0x30) / 4 + And(p[0], 0x30) / 16
  }

  function StY4(p: Packet4): nat {
    16 * And(p[2], 0x7F) + And(p[3], 0x0F)
  }

  function XMap4(d: seq<Byte>): nat
    requires |d| == 6
  {
    1024 * And(d[2], 0x1F) + 8 * And(d[3], 0x60) + 4 * And(d[0], 0x3F) + And(d[1], 0x60) / 32
  }

  function YMap4(d: seq<Byte>): nat
    requires |d| == 6
  {
    1024 * And(d[5], 0x01) + 32 * And(d[3], 0x1F) + And(d[1], 0x1F)
  }

  lemma PositionFields4(p: Packet4)
    ensures Position4(p) == Position(Pos(StX4(p), StY4(p)), And(p[5], 0x7F))
    ensures Syncs(p) <==> And(p[6], 0x40) != 0
  {
    hide And;
    Mask7F(p[1]);
    Mask7F(p[2]);
    Mask7F(p[5]);
    Mask0F(p[3]);
    Mask30(p[0]);
    Mask30(p[3]);
    BitMasks(p[6]);
  }

  lemma MapXFields4(d: seq<Byte>)
    requires |d| == 6
    ensures MapX4(d) == XMap4(d)
  {
    hide And;
    Masks(d[0]);
    Masks(d[2]);
    HighMasks(d[1]);
    HighMasks(d[3]);
  }

  lemma MapYFields4(d: seq<Byte>)
    requires |d| == 6
    ensures MapY4(d) == YMap4(d)
  {
    hide And;
    Masks(d[1]);
    Masks(d[3]);
    Masks(d[5]);
  }

  /** Every packet of version 4 reports its own position; with a complete bitmap of two runs or more on an axis also the
      number of runs and the selected corner. */
  lemma Reported4(pad: Pad, secondTouch: int, slots: Slots, p: Packet4)
    requires ValidPad(pad) && StandardLines(pad) && UNSELECTED <= secondTouch < 4 && |slots.data| == 6
    ensures var s, x, y := Show4(pad, secondTouch, slots, p), XMap4(slots.data), YMap4(slots.data);
            && s.report.first == Pos(StX4(p), StY4(p))
            && var runs := if slots.complete && x != 0 && y != 0 then Max(RunsBelow(x, 15), RunsBelow(y, 11)) else 0;
               if runs < 2 then s.secondTouch == UNSELECTED && s.report.fingers == if And(p[5], 0x7F) > 0 then 1 else 0
               else s.report.fingers == runs && 0 <= s.secondTouch < 4
                    && s.report.second == BoxCorners(pad, x, y)[s.secondTouch]
                    && (secondTouch != UNSELECTED ==> s.secondTouch == secondTouch)
  {
    hide And;
    PositionFields4(p);
    MapXFields4(slots.data);
    MapYFields4(slots.data);
    Powers();
    var x, y := XMap4(slots.data), YMap4(slots.data);
    if slots.complete && x != 0 && y != 0 {
      BoxIsCorner(pad, secondTouch, x, y, Position4(p).st);
      PointsAreRuns(x, 15);
      PointsAreRuns(y, 11);
    }
  }
}
