/** The ALPS driver object: maps scanned bit by bit, corners in place, and packets saved between interrupts. */
module AlpsPad {
  import opened Options
  import opened AlpsBitmap
  import opened AlpsTouch
  import opened AlpsPackets
  import opened Numbers

  class ApplePS2ALPSGlidePoint {
    const pad: Pad
    const decoder: Decoder
    var multiPacket: int
    const multiData: array<Byte>
    var secondTouch: int

    ghost predicate Valid()
      reads this
    {
      ValidPad(pad) && multiData.Length == 6 && UNSELECTED <= secondTouch < 4
    }

    constructor (pad: Pad, decoder: Decoder)
      requires ValidPad(pad)
      ensures Valid() && this.pad == pad && this.decoder == decoder && fresh(multiData)
      ensures multiPacket == 0 && secondTouch == UNSELECTED
    {
      this.pad, this.decoder := pad, decoder;
      multiPacket, secondTouch := 0, UNSELECTED;
      multiData := new Byte[6](i => 0);
    }

    /** alps_get_bitmap_points: one bit at a time. */
    method GetBitmapPoints(map_: nat) returns (points: Points)
      ensures points == PointsOf(map_)
    {
      points := NO_POINTS;
      var low, high, fingers, onHigh := Run(0, 0), Run(0, 0), 0, false;
      var rest, i, prevBit := map_, 0, false;
      while rest != 0
        invariant Scan(rest, i, prevBit, Points(low, high, fingers, onHigh)) == PointsOf(map_)
        decreases rest
      {
        var bit := rest % 2 == 1;
        if bit {
          if !prevBit {
            if onHigh {
              high := Run(i, 0);
            } else {
              low := Run(i, 0);
            }
            fingers := fingers + 1;
          }
          if onHigh {
            high := Run(high.start, high.count + 1);
          } else {
            low := Run(low.start, low.count + 1);
          }
        } else if prevBit {
          onHigh := true;
        }
        prevBit := bit;
        i, rest := i + 1, rest / 2;
      }
      points := Points(low, high, fingers, onHigh);
    }

    /** The corners of the box, flipped in place where the axis is reversed. */
    method FindCorners(x: Axis, y: Axis) returns (corner: array<Pos>)
      requires ValidPad(pad)
      ensures fresh(corner) && corner[..] == Corners(pad, x, y)
    {
      var xl, xh := Middle(x.low, pad.xMax, pad.xBits), Middle(x.high, pad.xMax, pad.xBits);
      var yl, yh := Middle(y.low, pad.yMax, pad.yBits), Middle(y.high, pad.yMax, pad.yBits);
      corner := new Pos[4][Pos(xl, yl), Pos(xh, yl), Pos(xh, yh), Pos(xl, yh)];
      ghost var raw := corner[..];
      if pad.version.V5? {
        var i := 0;
        while i < 4
          invariant i <= 4
          invariant forall k :: 0 <= k < 4 ==> corner[k] == if k < i then Pos(pad.xMax - raw[k].x, raw[k].y) else raw[k]
        {
          corner[i] := Pos(pad.xMax - corner[i].x, corner[i].y);
          i := i + 1;
        }
      }
      if pad.version.V3? || pad.version.V4? {
        var i := 0;
        while i < 4
          invariant i <= 4
          invariant forall k :: 0 <= k < 4 ==> corner[k] == if k < i then Pos(raw[k].x, pad.yMax - raw[k].y) else raw[k]
        {
          corner[i] := Pos(corner[i].x, pad.yMax - corner[i].y);
          i := i + 1;
        }
      }
      assert forall k :: 0 <= k < 4 ==> corner[k] == Corners(pad, x, y)[k];
    }

    /** The corner closest to the position, or none if all are too far away. */
    method Closest(st: Pos, corner: array<Pos>) returns (best: int)
      requires corner.Length == 4
      ensures best == ClosestFrom(st, corner[..], 0, UNSELECTED, FAR) && UNSELECTED <= best < 4
    {
      best := UNSELECTED;
      var closest, i := FAR, 0;
      while i < 4
        invariant i <= 4 && UNSELECTED <= best < 4
        invariant ClosestFrom(st, corner[..], i, best, closest) == ClosestFrom(st, corner[..], 0, UNSELECTED, FAR)
      {
        var distance := Distance(st, corner[i]);
        if distance < closest {
          best, closest := i, distance;
        }
        i := i + 1;
      }
    }

    /** alps_process_bitmap: the finger count, 0 if a map is empty, and the second touch. */
    method ProcessMaps(xMap: nat, yMap: nat, st: Pos) returns (fingers: nat, second: Pos)
      requires Valid()
      modifies this`secondTouch
      ensures Valid() && Box(fingers, secondTouch, second) == ProcessBitmap(pad, old(secondTouch), xMap, yMap, st)
    {
      if xMap == 0 || yMap == 0 {
        return 0, Pos(0, 0);
      }
      var x := GetBitmapPoints(xMap);
      var y := GetBitmapPoints(yMap);
      fingers := Max(x.fingers, y.fingers);
      var corner := FindCorners(AxisOf(x), AxisOf(y));
      if secondTouch == UNSELECTED {
        var closest := Closest(st, corner);
        secondTouch := (closest + 2) % 4;
      }
      second := corner[secondTouch];
    }

    /** The first packet that waits for a second one. */
    ghost function Saved(): Option<Packet>
      reads this, multiData
      requires multiData.Length == 6
    {
      if multiPacket != 0 then Some(multiData[..]) else None
    }

    ghost function State(): PadState
      reads this, multiData
      requires multiData.Length == 6
    {
      PadState(Saved(), secondTouch)
    }

    /** A saved packet announces a second one and is none itself. */
    ghost predicate SavedIsFirst()
      reads this, multiData
    {
      multiData.Length == 6 && (multiPacket != 0 ==> KindOf(decoder, multiData[..]) == First)
    }

    method Save(packet: Packet)
      requires Valid()
      modifies this`multiPacket, multiData
      ensures Valid() && Saved() == Some(packet)
    {
      multiPacket := 1;
      var i := 0;
      while i < 6
        invariant i <= 6 && multiData[..i] == packet[..i]
        modifies multiData
      {
        multiData[i] := packet[i];
        i := i + 1;
      }
      assert multiData[..] == packet;
    }

    /** alps_process_touchpad_packet_v3_v5. */
    method ProcessTouchpadPacket(packet: Packet) returns (report: Option<Report>)
      requires Valid() && SavedIsFirst()
      modifies this, multiData
      ensures Valid() && SavedIsFirst()
      ensures Turn(State(), report) == Touchpad(decoder, pad, old(State()), packet)
    {
      var isMp, firstMp := IsMulti(decoder, packet), IsFirst(decoder, packet);
      var position := PositionOf(decoder, packet);
      var fingers, second := 0, Pos(0, 0);
      if multiPacket != 0 {
        if isMp {
          var first := multiData[..];
          var maps := MapsOf(decoder, pad, packet);
          isMp, firstMp, position := IsMulti(decoder, first), IsFirst(decoder, first), PositionOf(decoder, first);
          var count;
          count, second := ProcessMaps(maps.x, maps.y, position.st);
          fingers := if count == 0 then 0 else maps.fingers;
        } else {
          multiPacket := 0;
        }
      }
      if isMp {
        return None;
      }
      if multiPacket == 0 && firstMp {
        Save(packet);
        return None;
      }
      multiPacket := 0;
      if fingers < 2 {
        fingers := if position.pressure > 0 then 1 else 0;
        secondTouch := UNSELECTED;
      }
      report := Some(Report(fingers, Pos(position.st.x, pad.yMax - position.st.y), Pos(second.x, pad.yMax - second.y)));
    }

    /** alps_process_packet_ss4_v2 up to the choice of what is reported. */
    method ProcessPacketSs4(packet: Packet) returns (source: Option<Source<Packet>>)
      requires Valid() && (multiPacket != 0 ==> KindOfV8(multiData[..]) == First)
      modifies this`multiPacket, multiData
      ensures Valid() && (multiPacket != 0 ==> KindOfV8(multiData[..]) == First)
      ensures Progress(Saved(), source) == Reassemble(KindOfV8(packet), old(Saved()), packet)
    {
      var kind := KindOfV8(packet);
      var isMp, firstMp, joined := kind.Continuation?, kind.First?, false;
      ghost var before := Saved();
      if multiPacket != 0 {
        if isMp {
          var first := KindOfV8(multiData[..]);
          isMp, firstMp, joined := first.Continuation?, first.First?, true;
        } else {
          multiPacket := 0;
        }
      }
      if isMp {
        return None;
      }
      if multiPacket == 0 && firstMp {
        Save(packet);
        return None;
      }
      var saved: Packet := multiData[..];
      source := Some(if joined then Joined(saved, packet) else Alone(packet));
      multiPacket := 0;
    }

    /** The slots of version 4, in the same two fields. */
    ghost function SlotState(): Slots
      reads this, multiData
      requires multiPacket >= 0
    {
      Slots(multiPacket, multiData[..], false)
    }

    /** alps_process_packet_v4; no report if the slot index is out of step. */
    method ProcessPacketV4(packet: Packet4) returns (report: Option<Report>)
      requires Valid() && 0 <= multiPacket
      modifies this, multiData
      ensures Valid() && 0 <= multiPacket
      ensures var filled := FillSlot(old(SlotState()), packet);
              && SlotState() == filled.(complete := false)
              && (if old(multiPacket) > 2 && !Syncs(packet) then report == None && secondTouch == old(secondTouch)
                  else
                    var shown := Show4(pad, old(secondTouch), filled, packet);
                    report == Some(shown.report) && secondTouch == shown.secondTouch)
    {
      if Has(packet[6], 64) {
        multiPacket := 0;
      }
      if multiPacket > 2 {
        return None;
      }
      var offset := 2 * multiPacket;
      multiData[offset] := packet[6];
      multiData[offset + 1] := packet[7];
      var position := Position4(packet);
      var fingers, second := 0, Pos(0, 0);
      multiPacket := multiPacket + 1;
      ghost var filled := FillSlot(old(SlotState()), packet);
      assert multiData[..] == filled.data;
      if multiPacket > 2 {
        multiPacket := 0;
        fingers, second := ProcessMaps(MapX4(multiData[..]), MapY4(multiData[..]), position.st);
      }
      if fingers < 2 {
        fingers := if position.pressure > 0 then 1 else 0;
        secondTouch := UNSELECTED;
      }
      report := Some(Report(fingers, position.st, second));
    }
  }
}
