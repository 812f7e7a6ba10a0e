/** ALPS reports that are spread over several packets, and the bitmaps packed into them. */
module AlpsPackets {
  import opened Options
  import opened AlpsBitmap
  import opened AlpsTouch
  import opened Numbers

  // ---- Two-packet reports of versions 3, 5 and 8

  /** A packet on its own, one that announces a second one, or a second one. */
  datatype Kind = Whole | First | Continuation

  /** What a report is made from. */
  datatype Source<P> = Alone(packet: P) | Joined(first: P, second: P)

  datatype Progress<P> = Progress(saved: Option<P>, source: Option<Source<P>>)

  /** One packet, given the first packet saved so far. */
  function Reassemble<P>(kind: Kind, saved: Option<P>, p: P): Progress<P> {
    match kind
    case Continuation => Progress(None, if saved.Some? then Some(Joined(saved.value, p)) else None)
    case First => Progress(Some(p), None)
    case Whole => Progress(None, Some(Alone(p)))
  }

  function Listed<S>(o: Option<S>): seq<S> {
    if o.Some? then [o.value] else []
  }

  /** The saved packet after a stream of packets, and what was reported. */
  datatype History<P> = History(saved: Option<P>, sources: seq<Source<P>>)

  function Receive<P>(kind: P -> Kind, ps: seq<P>): History<P> {
    if ps == [] then History(None, [])
    else
      var n := |ps| - 1;
      var before := Receive(kind, ps[..n]);
      var step := Reassemble(kind(ps[n]), before.saved, ps[n]);
      History(step.saved, before.sources + Listed(step.source))
  }

  /** What the packet at i leads to, judged by itself and the one before. */
  function SourceAt<P>(kind: P -> Kind, ps: seq<P>, i: nat): Option<Source<P>>
    requires i < |ps|
  {
    match kind(ps[i])
    case Whole => Some(Alone(ps[i]))
    case First => None
    case Continuation => if i > 0 && kind(ps[i - 1]).First? then Some(Joined(ps[i - 1], ps[i])) else None
  }

  function SourcesUpTo<P>(kind: P -> Kind, ps: seq<P>, n: nat): seq<Source<P>>
    requires n <= |ps|
  {
    if n == 0 then [] else SourcesUpTo(kind, ps, n - 1) + Listed(SourceAt(kind, ps, n - 1))
  }

  lemma {:induction false} SourcesOfPrefix<P>(kind: P -> Kind, ps: seq<P>, m: nat, n: nat)
    requires n <= m <= |ps|
    ensures SourcesUpTo(kind, ps[..m], n) == SourcesUpTo(kind, ps, n)
    decreases n
  {
    if n > 0 {
      SourcesOfPrefix(kind, ps, m, n - 1);
    }
  }

  /** Over any stream a continuation contributes iff the packet right before it was a first packet, which is then joined
      once; a first packet followed by anything else is never reported. */
  lemma {:induction false} ReassemblyIsLocal<P>(kind: P -> Kind, ps: seq<P>)
    ensures Receive(kind, ps).sources == SourcesUpTo(kind, ps, |ps|)
    ensures Receive(kind, ps).saved == if ps != [] && kind(ps[|ps| - 1]).First? then Some(ps[|ps| - 1]) else None
  {
    if ps != [] {
      var n := |ps| - 1;
      ReassemblyIsLocal(kind, ps[..n]);
      SourcesOfPrefix(kind, ps, n, n);
    }
  }

  // ---- The kinds

  /** Bit k of a byte. */
  predicate Has(b: Byte, bit: nat)
    requires bit == 1 || bit == 2 || bit == 4 || bit == 8 || bit == 16 || bit == 32 || bit == 64
  {
    (b / bit) % 2 == 1
  }

  type Packet = p: seq<Byte> | |p| == 6 witness [0, 0, 0, 0, 0, 0]

  datatype Decoder = Pinnacle | Rushmore | Dolphin

  predicate IsMulti(d: Decoder, p: Packet) {
    match d
    case Pinnacle => Has(p[0], 64)
    case Rushmore => Has(p[5], 64)
    case Dolphin => Has(p[0], 32)
  }

  predicate IsFirst(d: Decoder, p: Packet) {
    match d
    case Pinnacle => Has(p[4], 64)
    case Rushmore => Has(p[4], 64)
    case Dolphin => Has(p[0], 2)
  }

  function KindOf(d: Decoder, p: Packet): Kind {
    if IsMulti(d, p) then Continuation else if IsFirst(d, p) then First else Whole
  }

  /** Version 8: by the two packet bits, and for two fingers by the bit that more follows. */
  function KindOfV8(p: Packet): Kind {
    if Has(p[3], 16) && Has(p[3], 32) then Continuation
    else if Has(p[3], 16) && !Has(p[3], 32) && Has(p[2], 16) then First
    else Whole
  }

  // ---- The maps

  datatype Maps = Maps(fingers: nat, x: nat, y: nat)

  /** The bits of a byte from a position up, as a number below the modulus. */
  function Field(b: Byte, unit: nat, modulus: nat): (f: nat)
    requires unit > 0 && modulus > 0
    ensures f < modulus
  {
    b / unit % modulus
  }

  function PalmData(p: Packet): nat {
    Field(p[1], 1, 128) + Field(p[2], 1, 128) * 0x80 + Field(p[4], 1, 128) * 0x4000 + Field(p[5], 1, 128) * 0x20_0000
    + Field(p[3], 1, 8) * 0x1000_0000 + Field(p[3], 16, 8) * 0x8000_0000 + Field(p[0], 1, 2) * 0x4_0000_0000
  }

  function PinnacleX(p: Packet): (x: nat)
    ensures x < 0x8000
  {
    Field(p[4], 2, 64) * 512 + Field(p[1], 1, 128) * 4 + Field(p[0], 16, 4)
  }

  function PinnacleY(p: Packet): (y: nat)
    ensures y < 0x800
  {
    Field(p[3], 16, 8) * 256 + Field(p[2], 1, 128) * 2 + Field(p[4], 1, 2)
  }

  function MapsOf(d: Decoder, pad: Pad, p: Packet): Maps {
    match d
    case Pinnacle => Maps(Field(p[5], 1, 4) + 1, PinnacleX(p), PinnacleY(p))
    case Rushmore =>
      Maps(Max(Field(p[5], 1, 4), Field(p[5], 4, 4)) + 1,
           Field(p[5], 16, 2) * 0x8000 + PinnacleX(p), Field(p[5], 32, 2) * 0x800 + PinnacleY(p))
    case Dolphin =>
      Maps(Field(p[0], 2, 4) + Field(p[0], 16, 2) * 4,
           PalmData(p) / Pow2(pad.yBits) % Pow2(pad.xBits), PalmData(p) % Pow2(pad.yBits))
  }

  datatype Position = Position(st: Pos, pressure: nat)

  function PositionOf(d: Decoder, p: Packet): (pos: Position)
    ensures Near(pos.st)
  {
    if d.Dolphin? then
      Position(Pos(Field(p[1], 1, 128) + Field(p[4], 1, 16) * 128, Field(p[2], 1, 128) + Field(p[4], 16, 16) * 128),
               if Has(p[0], 4) then 0 else Field(p[5], 1, 128))
    else
      Position(Pos(Field(p[1], 1, 128) * 16 + Field(p[4], 16, 4) * 4 + Field(p[0], 16, 4),
                   Field(p[2], 1, 128) * 16 + Field(p[4], 1, 16)),
               Field(p[5], 1, 128))
  }

  lemma Powers()
    ensures Pow2(11) == 0x800 && Pow2(15) == 0x8000
  {
    assert Pow2(4) == 16;
    assert Pow2(8) == 16 * Pow2(4);
    assert Pow2(11) == 8 * Pow2(8);
    assert Pow2(15) == 16 * Pow2(11);
  }

  /** The lines of a pad with a Pinnacle or a version 4 decoder. */
  predicate StandardLines(pad: Pad) {
    pad.xBits == 15 && pad.yBits == 11
  }

  /** The maps of Pinnacle and Dolphin packets are no wider than the pad's lines. */
  lemma MapsFit(d: Decoder, pad: Pad, p: Packet)
    requires !d.Rushmore? && (d.Pinnacle? ==> StandardLines(pad))
    ensures MapsOf(d, pad, p).x < Pow2(pad.xBits) && MapsOf(d, pad, p).y < Pow2(pad.yBits)
  {
    Powers();
  }

  // ---- Reports of versions 3 and 5

  /** The touches handed on, the second one only meaningful with two fingers. */
  datatype Report = Report(fingers: nat, first: Pos, second: Pos)

  /** What is reported for a source, and the corner selected after that. */
  datatype Shown = Shown(report: Report, secondTouch: int)

  predicate ValidPad(pad: Pad) {
    2 <= pad.xBits && 2 <= pad.yBits && pad.xMax <= 0x7fff && pad.yMax <= 0x7fff
  }

  /** With fewer than two fingers the single position counts and the corner is forgotten; y grows from the bottom. */
  function Show(pad: Pad, fingers: nat, position: Position, box: Box): Shown {
    var n := if fingers < 2 then (if position.pressure > 0 then 1 else 0) else fingers;
    Shown(Report(n, Pos(position.st.x, pad.yMax - position.st.y), Pos(box.second.x, pad.yMax - box.second.y)),
          if fingers < 2 then UNSELECTED else box.secondTouch)
  }

  function ShowSource(d: Decoder, pad: Pad, secondTouch: int, source: Source<Packet>): (s: Shown)
    requires ValidPad(pad) && UNSELECTED <= secondTouch < 4
    ensures UNSELECTED <= s.secondTouch < 4
  {
    match source
    case Alone(p) => Show(pad, 0, PositionOf(d, p), Box(0, secondTouch, Pos(0, 0)))
    case Joined(first, second) =>
      var maps, position := MapsOf(d, pad, second), PositionOf(d, first);
      var box := ProcessBitmap(pad, secondTouch, maps.x, maps.y, position.st);
      Show(pad, if box.fingers == 0 then 0 else maps.fingers, position, box)
  }

  /** Two or more fingers are only reported from joined packets, and then both touches lie on the pad. */
  lemma ReportedOnPad(d: Decoder, pad: Pad, secondTouch: int, source: Source<Packet>)
    requires ValidPad(pad) && UNSELECTED <= secondTouch < 4
    requires !d.Rushmore? && (d.Pinnacle? ==> StandardLines(pad))
    ensures var s := ShowSource(d, pad, secondTouch, source);
            && UNSELECTED <= s.secondTouch < 4
            && (s.report.fingers >= 2 ==> source.Joined? && OnPad(pad, s.report.second) && 0 <= s.secondTouch)
            && (s.report.fingers < 2 ==> s.secondTouch == UNSELECTED)
            && (s.report.fingers >= 2 && secondTouch != UNSELECTED ==> s.secondTouch == secondTouch)
  {
    if source.Joined? {
      var maps := MapsOf(d, pad, source.second);
      MapsFit(d, pad, source.second);
      if maps.x != 0 && maps.y != 0 {
        SecondTouch(pad, secondTouch, maps.x, maps.y, PositionOf(d, source.first).st);
      }
    }
  }

  /** The pad's state between packets. */
  datatype PadState = PadState(saved: Option<Packet>, secondTouch: int)

  datatype Turn = Turn(state: PadState, report: Option<Report>)

  /** alps_process_touchpad_packet_v3_v5. */
  function Touchpad(d: Decoder, pad: Pad, s: PadState, p: Packet): (t: Turn)
    requires ValidPad(pad) && UNSELECTED <= s.secondTouch < 4
    ensures UNSELECTED <= t.state.secondTouch < 4
  {
    var step := Reassemble(KindOf(d, p), s.saved, p);
    match step.source
    case None => Turn(PadState(step.saved, s.secondTouch), None)
    case Some(source) =>
      var shown := ShowSource(d, pad, s.secondTouch, source);
      Turn(PadState(step.saved, shown.secondTouch), Some(shown.report))
  }

  /** A stream of packets from a pad at rest. */
  datatype Stream = Stream(state: PadState, reports: seq<Report>)

  function Played(d: Decoder, pad: Pad, ps: seq<Packet>): (s: Stream)
    requires ValidPad(pad)
    ensures UNSELECTED <= s.state.secondTouch < 4
  {
    if ps == [] then Stream(PadState(None, UNSELECTED), [])
    else
      var before := Played(d, pad, ps[..|ps| - 1]);
      var t := Touchpad(d, pad, before.state, ps[|ps| - 1]);
      Stream(t.state, before.reports + Listed(t.report))
  }

  /** The reports of a list of sources, and the corner selected after them. */
  datatype Showing = Showing(secondTouch: int, reports: seq<Report>)

  function ShowAll(d: Decoder, pad: Pad, sources: seq<Source<Packet>>): (s: Showing)
    requires ValidPad(pad)
    ensures UNSELECTED <= s.secondTouch < 4
  {
    if sources == [] then Showing(UNSELECTED, [])
    else
      var before := ShowAll(d, pad, sources[..|sources| - 1]);
      var shown := ShowSource(d, pad, before.secondTouch, sources[|sources| - 1]);
      Showing(shown.secondTouch, before.reports + [shown.report])
  }

  function KindsOf(d: Decoder): Packet -> Kind {
    (p: Packet) => KindOf(d, p)
  }

  lemma ShowOneMore(d: Decoder, pad: Pad, sources: seq<Source<Packet>>, next: Source<Packet>)
    requires ValidPad(pad)
    ensures var before := ShowAll(d, pad, sources);
            var shown := ShowSource(d, pad, before.secondTouch, next);
            ShowAll(d, pad, sources + [next]) == Showing(shown.secondTouch, before.reports + [shown.report])
  {
    assert (sources + [next])[..|sources|] == sources;
  }

  lemma {:induction false} PlayedIsReceived(d: Decoder, pad: Pad, ps: seq<Packet>)
    requires ValidPad(pad)
    ensures var played, received := Played(d, pad, ps), Receive(KindsOf(d), ps);
            && played.state.saved == received.saved
            && ShowAll(d, pad, received.sources) == Showing(played.state.secondTouch, played.reports)
  {
    if ps != [] {
      var n := |ps| - 1;
      PlayedIsReceived(d, pad, ps[..n]);
      var before := Receive(KindsOf(d), ps[..n]);
      var step := Reassemble(KindsOf(d)(ps[n]), before.saved, ps[n]);
      if step.source.Some? {
        ShowOneMore(d, pad, before.sources, step.source.value);
      } else {
        assert before.sources + [] == before.sources;
      }
    }
  }

  /** Over any stream the reports are those of whole packets and of adjacent first and second packets, in order. */
  lemma PlayedIsShown(d: Decoder, pad: Pad, ps: seq<Packet>)
    requires ValidPad(pad)
    ensures var played := Played(d, pad, ps);
            ShowAll(d, pad, SourcesUpTo(KindsOf(d), ps, |ps|)) == Showing(played.state.secondTouch, played.reports)
  {
    PlayedIsReceived(d, pad, ps);
    ReassemblyIsLocal(KindsOf(d), ps);
  }

  // ---- Version 4: a bitmap over three packets

  type Packet4 = p: seq<Byte> | |p| == 8 witness [0, 0, 0, 0, 0, 0, 0, 0]

  predicate Syncs(p: Packet4) {
    Has(p[6], 64)
  }

  /** The next slot of the bitmap, its six bytes, and whether they are complete. */
  datatype Slots = Slots(multi: nat, data: seq<Byte>, complete: bool)

  function FillSlot(s: Slots, p: Packet4): (r: Slots)
    requires |s.data| == 6
    ensures |r.data| == 6
  {
    var m := if Syncs(p) then 0 else s.multi;
    if m > 2 then Slots(m, s.data, false)
    else
      var data := s.data[2 * m := p[6]][2 * m + 1 := p[7]];
      if m + 1 > 2 then Slots(0, data, true) else Slots(m + 1, data, false)
  }

  function Filled(start: seq<Byte>, ps: seq<Packet4>): (s: Slots)
    requires |start| == 6
    ensures |s.data| == 6
  {
    if ps == [] then Slots(0, start, false) else FillSlot(Filled(start, ps[..|ps| - 1]), ps[|ps| - 1])
  }

  /** Packets since the last one that synchronizes, that one included. */
  function SinceSync(ps: seq<Packet4>): (n: nat)
    ensures n <= |ps|
  {
    if ps == [] then 0
    else if Syncs(ps[|ps| - 1]) then 1
    else SinceSync(ps[..|ps| - 1]) + 1
  }

  /** The bitmap bytes of the last k packets. */
  function LastBytes(ps: seq<Packet4>, k: nat): (b: seq<Byte>)
    requires k <= |ps|
    ensures |b| == 2 * k
    decreases k
  {
    if k == 0 then [] else LastBytes(ps[..|ps| - 1], k - 1) + ps[|ps| - 1][6..]
  }

  /** Over any stream the slot index stays in 0 .. 2, and a bitmap is complete exactly after every third packet since the
      last synchronization; it is then made of the last three packets. */
  lemma {:induction false} BitmapOfThree(start: seq<Byte>, ps: seq<Packet4>)
    requires |start| == 6
    ensures var s := Filled(start, ps);
            && s.multi == SinceSync(ps) % 3 <= 2
            && s.complete == (ps != [] && SinceSync(ps) % 3 == 0)
            && s.data[..2 * s.multi] == LastBytes(ps, s.multi)
            && (s.complete ==> |ps| >= 3 && s.data == LastBytes(ps, 3))
  {
    if ps != [] {
      hide FillSlot, Has, LastBytes;
      var n := |ps| - 1;
      BitmapOfThree(start, ps[..n]);
      var before := Filled(start, ps[..n]);
      NoBytes(ps[..n]);
      NoBytes(ps);
      SlotFills(before, ps, if Syncs(ps[n]) then 0 else before.multi);
    }
  }

  /** One packet more, in slot m. */
  lemma SlotFills(before: Slots, ps: seq<Packet4>, m: nat)
    requires |before.data| == 6 && m <= 2 && m < |ps| && m == if Syncs(ps[|ps| - 1]) then 0 else before.multi
    requires before.data[..2 * m] == LastBytes(ps[..|ps| - 1], m)
    ensures var s := FillSlot(before, ps[|ps| - 1]);
            if m == 2 then s.multi == 0 && s.complete && s.data == LastBytes(ps, 3)
            else s.multi == m + 1 && !s.complete && s.data[..2 * (m + 1)] == LastBytes(ps, m + 1)
  {
    hide Has, LastBytes, FillSlot, Syncs;
    OneMore(ps, m, before.data[..2 * m]);
    SlotWritten(before.data, ps[|ps| - 1], m);
    FillIs(before, ps[|ps| - 1], m);
  }

  lemma FillIs(before: Slots, p: Packet4, m: nat)
    requires |before.data| == 6 && m <= 2 && m == if Syncs(p) then 0 else before.multi
    ensures var data := before.data[2 * m := p[6]][2 * m + 1 := p[7]];
            FillSlot(before, p) == if m == 2 then Slots(0, data, true) else Slots(m + 1, data, false)
  {
    hide Has;
  }

  lemma NoBytes(ps: seq<Packet4>)
    ensures LastBytes(ps, 0) == []
  {
  }

  lemma OneMore(ps: seq<Packet4>, k: nat, filled: seq<Byte>)
    requires k < |ps| && LastBytes(ps[..|ps| - 1], k) == filled
    ensures LastBytes(ps, k + 1) == filled + ps[|ps| - 1][6..]
  {
  }

  lemma SlotWritten(data: seq<Byte>, p: Packet4, m: nat)
    requires |data| == 6 && m <= 2
    ensures var after := data[2 * m := p[6]][2 * m + 1 := p[7]];
            after[..2 * (m + 1)] == data[..2 * m] + p[6..] && after[..6] == after && after[..0] == []
  {
    assert p[6..] == [p[6], p[7]];
    if m == 0 {
    } else if m == 1 {
    } else {
    }
  }

  /** The three packets of a complete bitmap, of which only the first may synchronize. */
  lemma CompleteInRow(start: seq<Byte>, ps: seq<Packet4>)
    requires |start| == 6 && Filled(start, ps).complete
    ensures |ps| >= 3 && !Syncs(ps[|ps| - 1]) && !Syncs(ps[|ps| - 2])
  {
    BitmapOfThree(start, ps);
    var before := ps[..|ps| - 1];
    assert SinceSync(ps) == SinceSync(before) + 1;
    assert before[|before| - 1] == ps[|ps| - 2];
  }

  function MapX4(d: seq<Byte>): (x: nat)
    requires |d| == 6
    ensures x < 0x8000
  {
    Field(d[2], 1, 32) * 1024 + Field(d[3], 32, 4) * 256 + Field(d[0], 1, 64) * 4 + Field(d[1], 32, 4)
  }

  function MapY4(d: seq<Byte>): (y: nat)
    requires |d| == 6
    ensures y < 0x800
  {
    Field(d[5], 1, 2) * 1024 + Field(d[3], 1, 32) * 32 + Field(d[1], 1, 32)
  }

  function Position4(p: Packet4): (pos: Position)
    ensures Near(pos.st)
  {
    Position(Pos(Field(p[1], 1, 128) * 16 + Field(p[3], 16, 4) * 4 + Field(p[0], 16, 4),
                 Field(p[2], 1, 128) * 16 + Field(p[3], 1, 16)),
             Field(p[5], 1, 128))
  }

  /** The report for a packet, from the bitmap if it is complete. */
  function Show4(pad: Pad, secondTouch: int, slots: Slots, p: Packet4): (s: Shown)
    requires ValidPad(pad) && UNSELECTED <= secondTouch < 4 && |slots.data| == 6
    ensures UNSELECTED <= s.secondTouch < 4
  {
    var position := Position4(p);
    var box := if slots.complete then ProcessBitmap(pad, secondTouch, MapX4(slots.data), MapY4(slots.data), position.st)
               else Box(0, secondTouch, Pos(0, 0));
    if box.fingers < 2 then Shown(Report(if position.pressure > 0 then 1 else 0, position.st, box.second), UNSELECTED)
    else Shown(Report(box.fingers, position.st, box.second), box.secondTouch)
  }

  /** In version 4 too a second touch is reported from complete bitmaps only and lies on the pad. */
  lemma Reported4OnPad(pad: Pad, secondTouch: int, slots: Slots, p: Packet4)
    requires ValidPad(pad) && UNSELECTED <= secondTouch < 4 && |slots.data| == 6 && StandardLines(pad)
    ensures var s := Show4(pad, secondTouch, slots, p);
            s.report.fingers >= 2 ==> slots.complete && OnPad(pad, s.report.second) && 0 <= s.secondTouch
  {
    Powers();
    var x, y := MapX4(slots.data), MapY4(slots.data);
    if slots.complete && x != 0 && y != 0 {
      SecondTouch(pad, secondTouch, x, y, Position4(p).st);
    }
  }
}
