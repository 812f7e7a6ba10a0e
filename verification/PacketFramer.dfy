/** Framing of the Synaptics byte stream into six-byte packets, at interrupt time, in place in the ring buffer. */
module PacketFramer {
  import opened RingBuffers
  import opened Numbers

  const LENGTH := 6
  const SLOTS := 32
  const RESET := 0xAA

  /** A slot of the ring: a packet to be parsed, or a note why the stream was out of step. */
  datatype Slot = Normal(bytes: seq<Byte>) | Note(reason: Byte)

  /** Bits 7, 6 and 3 of the first byte are 1, 0, 0. */
  predicate StartsPacket(d: Byte) {
    (d / 64) % 4 == 2 && (d / 8) % 2 == 0
  }

  /** Bits 7, 6 and 3 of the fourth byte are 1, 1, 0. */
  predicate ContinuesPacket(d: Byte) {
    (d / 64) % 4 == 3 && (d / 8) % 2 == 0
  }

  // ---- The framer as a value

  datatype Framer = Framer(partial: seq<Byte>, last: Byte, queue: seq<Slot>)

  const START := Framer([], 0, [])

  /** What a byte completes, if anything. */
  datatype Event = Nothing | Complete(slot: Slot)

  function EventOf(partial: seq<Byte>, last: Byte, d: Byte): Event {
    if last == RESET && d == 0 then Complete(Note(RESET))
    else if |partial| == 0 && !StartsPacket(d) then Complete(Note(0))
    else if |partial| == 3 && !ContinuesPacket(d) then Complete(Note(3))
    else if |partial| == LENGTH - 1 then Complete(Normal(partial + [d]))
    else Nothing
  }

  /** A full ring drops the slot. */
  function Offer(queue: seq<Slot>, s: Slot): seq<Slot> {
    if |queue| < SLOTS - 1 then queue + [s] else queue
  }

  function OnByte(f: Framer, d: Byte): Framer {
    var last := if f.last == RESET && d == 0 then f.last else d;
    match EventOf(f.partial, f.last, d)
    case Nothing => Framer(f.partial + [d], last, f.queue)
    case Complete(s) => Framer([], last, Offer(f.queue, s))
  }

  function NormalsOf(q: seq<Slot>): seq<seq<Byte>> {
    if q == [] then []
    else NormalsOf(q[..|q| - 1]) + (if q[|q| - 1].Normal? then [q[|q| - 1].bytes] else [])
  }

  // ---- The framing function of the stream

  /** A slot with the number of bytes read when it was completed. */
  datatype Framed = Framed(slot: Slot, end: nat)

  /** Everything the stream frames, if no slot is ever dropped, with the bytes left over. */
  datatype Framing = Framing(partial: seq<Byte>, last: Byte, slots: seq<Framed>)

  /** The framing with one more byte. */
  function FrameOn(f: Framing, d: Byte, n: nat): Framing {
    var last := if f.last == RESET && d == 0 then f.last else d;
    match EventOf(f.partial, f.last, d)
    case Nothing => Framing(f.partial + [d], last, f.slots)
    case Complete(s) => Framing([], last, f.slots + [Framed(s, n + 1)])
  }

  function Frame(stream: seq<Byte>): (r: Framing) {
    if stream == [] then Framing([], 0, []) else
      FrameOn(Frame(stream[..|stream| - 1]), stream[|stream| - 1], |stream| - 1)
  }

  predicate WellFormed(p: seq<Byte>) {
    (|p| > 0 ==> StartsPacket(p[0])) && (|p| > 3 ==> ContinuesPacket(p[3]))
  }

  /** The end of the last completed slot. */
  function LastEnd(s: seq<Framed>): nat {
    if s == [] then 0 else s[|s| - 1].end
  }

  /** A slot completed after `from` bytes: a packet is the six bytes right before its end, none of them used before. */
  predicate Fits(stream: seq<Byte>, from: nat, x: Framed) {
    && from < x.end <= |stream|
    && (x.slot.Normal? ==>
          && from + LENGTH <= x.end
          && x.slot.bytes == stream[x.end - LENGTH..x.end]
          && WellFormed(x.slot.bytes))
  }

  /** Slots are completed one after the other, each from bytes that no earlier slot shares. */
  ghost predicate Consecutive(stream: seq<Byte>, s: seq<Framed>) {
    forall k :: 0 <= k < |s| ==> Fits(stream, LastEnd(s[..k]), s[k])
  }

  /** What holds of a framing: nothing is lost between the last slot and the bytes left over. */
  ghost predicate Sound(stream: seq<Byte>, f: Framing) {
    && Consecutive(stream, f.slots)
    && |f.partial| < LENGTH && WellFormed(f.partial)
    && |f.partial| + LastEnd(f.slots) <= |stream|
    && f.partial == stream[|stream| - |f.partial|..]
  }

  /** Every framed packet is six consecutive input bytes with the right marks, and packets do not overlap. */
  lemma {:induction false} FramesAreConsecutive(stream: seq<Byte>)
    ensures Sound(stream, Frame(stream))
  {
    if stream != [] {
      hide FrameOn, Sound;
      var n := |stream| - 1;
      FramesAreConsecutive(stream[..n]);
      assert stream[..n] + [stream[n]] == stream;
      FrameStep(stream[..n], Frame(stream[..n]), stream[n]);
    }
  }

  lemma FrameStep(stream: seq<Byte>, f: Framing, d: Byte)
    requires Sound(stream, f)
    ensures Sound(stream + [d], FrameOn(f, d, |stream|))
  {
    match EventOf(f.partial, f.last, d)
    case Nothing =>
      ConsecutiveExtends(stream, f.slots, d);
      assert f.partial + [d] == (stream + [d])[|stream| - |f.partial|..];
    case Complete(s) =>
      CompletedFits(stream, f, d);
      ConsecutiveExtends(stream, f.slots, d);
      AppendConsecutive(stream + [d], f.slots, Framed(s, |stream| + 1));
  }

  lemma CompletedFits(stream: seq<Byte>, f: Framing, d: Byte)
    requires Sound(stream, f) && EventOf(f.partial, f.last, d).Complete?
    ensures Fits(stream + [d], LastEnd(f.slots), Framed(EventOf(f.partial, f.last, d).slot, |stream| + 1))
  {
    assert f.partial + [d] == (stream + [d])[|stream| - |f.partial|..];
  }

  lemma FitsExtends(stream: seq<Byte>, from: nat, x: Framed, d: Byte)
    requires Fits(stream, from, x)
    ensures Fits(stream + [d], from, x)
  {
    if x.slot.Normal? {
      assert stream[x.end - LENGTH..x.end] == (stream + [d])[x.end - LENGTH..x.end];
    }
  }

  lemma ConsecutiveExtends(stream: seq<Byte>, s: seq<Framed>, d: Byte)
    requires Consecutive(stream, s)
    ensures Consecutive(stream + [d], s)
  {
    forall k | 0 <= k < |s|
      ensures Fits(stream + [d], LastEnd(s[..k]), s[k])
    {
      FitsExtends(stream, LastEnd(s[..k]), s[k], d);
    }
  }

  lemma AppendConsecutive(stream: seq<Byte>, s: seq<Framed>, x: Framed)
    requires Consecutive(stream, s) && Fits(stream, LastEnd(s), x)
    ensures Consecutive(stream, s + [x])
  {
    forall k | 0 <= k < |s + [x]|
      ensures Fits(stream, LastEnd((s + [x])[..k]), (s + [x])[k])
    {
      assert (s + [x])[..k] == s[..k];
      assert s[..|s|] == s;
    }
  }

  // ---- Interleavings of bytes and deliveries

  /** One byte at interrupt time, or one turn of the loop that empties the ring. */
  datatype Action = Receive(d: Byte) | Deliver

  datatype System = System(framer: Framer, delivered: seq<Slot>)

  function Act(s: System, a: Action): System {
    match a
    case Receive(d) => s.(framer := OnByte(s.framer, d))
    case Deliver =>
      if s.framer.queue == [] then s
      else System(s.framer.(queue := s.framer.queue[1..]), s.delivered + [s.framer.queue[0]])
  }

  function Run(actions: seq<Action>): System {
    if actions == [] then System(START, []) else Act(Run(actions[..|actions| - 1]), actions[|actions| - 1])
  }

  /** The bytes of a schedule. */
  function Bytes(actions: seq<Action>): seq<Byte> {
    if actions == [] then [] else
      Bytes(actions[..|actions| - 1]) + (match actions[|actions| - 1] case Receive(d) => [d] case Deliver => [])
  }

  function SlotsOf(s: seq<Framed>): seq<Slot> {
    if s == [] then [] else SlotsOf(s[..|s| - 1]) + [s[|s| - 1].slot]
  }

  /** The ring never was full when a slot was completed. */
  predicate NeverFull(actions: seq<Action>) {
    actions == [] ||
    (var before := Run(actions[..|actions| - 1]);
     && NeverFull(actions[..|actions| - 1])
     && (actions[|actions| - 1].Receive? ==> |before.framer.queue| < SLOTS - 1))
  }

  /** All the slots that went into the ring. */
  function Through(s: System): seq<Slot> {
    s.delivered + s.framer.queue
  }

  /** The framer of the system stands where the framing of the stream does. */
  predicate InStep(s: System, f: Framing) {
    s.framer.partial == f.partial && s.framer.last == f.last
  }

  lemma DeliverMovesOne(s: System)
    ensures var after := Act(s, Deliver);
            Through(after) == Through(s)
            && after.framer.partial == s.framer.partial && after.framer.last == s.framer.last
  {
    if s.framer.queue != [] {
      assert s.framer.queue == [s.framer.queue[0]] + s.framer.queue[1..];
    }
  }

  /** One more byte for the framing: what the ring takes is what the framing completes, or nothing if it is full. */
  lemma ReceiveFrames(s: System, stream: seq<Byte>, d: Byte)
    requires InStep(s, Frame(stream))
    ensures var f, after, further := Frame(stream), Act(s, Receive(d)), Frame(stream + [d]);
            && InStep(after, further)
            && (match EventOf(f.partial, f.last, d)
                case Nothing => SlotsOf(further.slots) == SlotsOf(f.slots) && Through(after) == Through(s)
                case Complete(x) =>
                  && SlotsOf(further.slots) == SlotsOf(f.slots) + [x]
                  && Through(after) == if |s.framer.queue| < SLOTS - 1 then Through(s) + [x] else Through(s))
  {
    var f := Frame(stream);
    assert (stream + [d])[..|stream|] == stream;
    match EventOf(f.partial, f.last, d)
    case Nothing =>
    case Complete(x) =>
      var framed := Framed(x, |stream| + 1);
      assert (f.slots + [framed])[..|f.slots|] == f.slots;
      assert Through(s) + [x] == s.delivered + (s.framer.queue + [x]);
  }

  lemma BytesOf(actions: seq<Action>)
    requires actions != []
    ensures var n := |actions| - 1;
            Bytes(actions) == match actions[n] case Receive(d) => Bytes(actions[..n]) + [d] case Deliver => Bytes(actions[..n])
  {
  }

  /** While fewer than 31 slots are queued, delivered and queued slots together are what the stream frames. */
  lemma {:induction false} DeliversTheFraming(actions: seq<Action>)
    requires NeverFull(actions)
    ensures Through(Run(actions)) == SlotsOf(Frame(Bytes(actions)).slots)
    ensures InStep(Run(actions), Frame(Bytes(actions)))
  {
    if actions != [] {
      var n := |actions| - 1;
      DeliversTheFraming(actions[..n]);
      BytesOf(actions);
      match actions[n]
      case Receive(d) => ReceiveFrames(Run(actions[..n]), Bytes(actions[..n]), d);
      case Deliver => DeliverMovesOne(Run(actions[..n]));
    }
  }

  /** b is a sub-sequence of a. */
  ghost predicate Within<T>(b: seq<T>, a: seq<T>) {
    if b == [] then true
    else if a == [] then false
    else (b[|b| - 1] == a[|a| - 1] && Within(b[..|b| - 1], a[..|a| - 1])) || Within(b, a[..|a| - 1])
  }

  /** On every schedule the slots taken are framed ones in order: a full ring loses whole slots only. */
  lemma {:induction false} DeliversFramedSlots(actions: seq<Action>)
    ensures Within(Through(Run(actions)), SlotsOf(Frame(Bytes(actions)).slots))
    ensures InStep(Run(actions), Frame(Bytes(actions)))
  {
    if actions != [] {
      var n := |actions| - 1;
      DeliversFramedSlots(actions[..n]);
      BytesOf(actions);
      var s, stream := Run(actions[..n]), Bytes(actions[..n]);
      match actions[n]
      case Receive(d) =>
        ReceiveFrames(s, stream, d);
        var e := EventOf(s.framer.partial, s.framer.last, d);
        if e.Complete? {
          WithinGrows(Through(s), SlotsOf(Frame(stream).slots), e.slot);
        }
      case Deliver => DeliverMovesOne(s);
    }
  }

  lemma WithinGrows<T>(b: seq<T>, a: seq<T>, x: T)
    requires Within(b, a)
    ensures Within(b, a + [x]) && Within(b + [x], a + [x])
  {
    assert (a + [x])[..|a|] == a && (b + [x])[..|b|] == b;
  }

  // ---- The framer in the driver

  /** What the driver reads back from six bytes of the ring. */
  function ToSlot(p: seq<Byte>): Slot
    requires |p| == LENGTH
  {
    if p[0] != 0 then Normal(p) else Note(p[1])
  }

  /** The six-byte slots of the ring's contents. */
  function Group(c: seq<Byte>): (q: seq<Slot>)
  {
    if |c| < LENGTH then [] else [ToSlot(c[..LENGTH])] + Group(c[LENGTH..])
  }

  lemma {:induction false} GroupAppends(c: seq<Byte>, p: seq<Byte>)
    requires |c| % LENGTH == 0 && |p| == LENGTH
    ensures Group(c + p) == Group(c) + [ToSlot(p)] && |Group(c)| == |c| / LENGTH
  {
    if c == [] {
      assert c + p == p && p[..LENGTH] == p && Group(p[LENGTH..]) == [];
    } else {
      GroupAppends(c[LENGTH..], p);
      assert (c + p)[..LENGTH] == c[..LENGTH] && (c + p)[LENGTH..] == c[LENGTH..] + p;
    }
  }

  lemma AroundStartsWith<T>(b: seq<T>, start: nat, len: nat, first: nat)
    requires start + first <= |b| && first <= len <= |b| && start < |b|
    ensures Around(b, start, len)[..first] == b[start..start + first]
  {
    var around, slice := Around(b, start, len), b[start..start + first];
    forall k | 0 <= k < first
      ensures around[k] == slice[k]
    {
      assert Wrap(|b|, start + k) == start + k;
    }
  }

  lemma SliceStartsWith<T>(b: seq<T>, start: nat, len: nat, k: nat)
    requires start + len <= |b| && k <= len
    ensures b[start..start + len][..k] == b[start..start + k]
  {
  }

  /** The arithmetic of slots that do not straddle the end of the ring. */
  lemma SlotArithmetic(head: nat, tail: nat)
    requires head < SLOTS * LENGTH && tail < SLOTS * LENGTH && head % LENGTH == 0 && tail % LENGTH == 0
    ensures head + LENGTH <= SLOTS * LENGTH
    ensures Wrap(SLOTS * LENGTH, head + LENGTH) % LENGTH == 0
    ensures CountOf(SLOTS * LENGTH, head, tail) % LENGTH == 0
  {
  }

  /** What is handed on to be parsed. */
  function Parsed(ignoreAll: bool, queue: seq<Slot>): seq<seq<Byte>> {
    if ignoreAll then [] else NormalsOf(queue)
  }

  lemma MoveOne(ignoreAll: bool, done: seq<Slot>, slot: Slot, rest: seq<Slot>)
    ensures (done + [slot]) + rest == done + ([slot] + rest)
    ensures Parsed(ignoreAll, done + [slot]) ==
            Parsed(ignoreAll, done) + if slot.Normal? && !ignoreAll then [slot.bytes] else []
  {
    assert (done + [slot])[..|done|] == done;
  }

  lemma ToSlotOfPacket(partial: seq<Byte>, last: Byte, d: Byte)
    requires |partial| < LENGTH && WellFormed(partial) && !(last == RESET && d == 0)
    requires (|partial| == 0 ==> StartsPacket(d)) && (|partial| == 3 ==> ContinuesPacket(d))
    ensures WellFormed(partial + [d])
    ensures EventOf(partial, last, d) == if |partial| == LENGTH - 1 then Complete(ToSlot(partial + [d])) else Nothing
  {
  }

  class SynapticsFramer {
    const ring: RingBuffer<Byte>
    var packetByteCount: nat
    var lastData: Byte

    ghost predicate Valid()
      reads this, ring
    {
      && ring.Valid() && ring.buffer.Length == SLOTS * LENGTH
      && ring.head % LENGTH == 0 && ring.tail % LENGTH == 0
      && ring.head + LENGTH <= SLOTS * LENGTH
      && packetByteCount < LENGTH
    }

    /** The bytes in place beyond the head. */
    ghost function Partial(): seq<Byte>
      reads this, ring, ring.buffer
      requires Valid()
    {
      ring.buffer[ring.head..ring.head + packetByteCount]
    }

    ghost function Queue(): seq<Slot>
      reads ring, ring.buffer
      requires ring.Valid()
    {
      Group(ring.Contents())
    }

    /** The state as a value. */
    ghost function Abs(): Framer
      reads this, ring, ring.buffer
      requires Valid()
    {
      Framer(Partial(), lastData, Queue())
    }

    constructor ()
      ensures Valid() && Abs() == START && fresh(ring) && fresh(ring.buffer)
    {
      ring := new RingBuffer<Byte>(SLOTS * LENGTH);
      packetByteCount := 0;
      lastData := 0;
    }

    /** Makes the six bytes at the head a slot, unless the ring is full. */
    method Accept(ghost slot: Slot)
      requires Valid() && slot == ToSlot(ring.buffer[ring.head..ring.head + LENGTH])
      modifies this`packetByteCount, ring`head
      ensures Valid() && Partial() == [] && Queue() == Offer(old(Queue()), slot)
    {
      ghost var c := ring.Contents();
      SlotArithmetic(ring.head, ring.tail);
      AroundStartsWith(ring.buffer[..], ring.head, LENGTH, LENGTH);
      assert ring.Ahead(LENGTH)[..LENGTH] == ring.Ahead(LENGTH);
      GroupAppends(c, ring.Ahead(LENGTH));
      ring.AdvanceHead(LENGTH);
      SlotArithmetic(ring.head, ring.tail);
      assert ring.Contents() == c || ring.Contents() == c + old(ring.Ahead(LENGTH));
      packetByteCount := 0;
    }

    /** Stores byte k of the packet being assembled. */
    method Store(k: nat, data: Byte)
      requires Valid() && k < LENGTH
      modifies ring.buffer
      ensures Valid() && Queue() == old(Queue())
      ensures ring.buffer[ring.head..ring.head + LENGTH] == old(ring.buffer[ring.head..ring.head + LENGTH])[k := data]
    {
      SlotArithmetic(ring.head, ring.tail);
      ring.Put(k, data);
    }

    /** Accepts a note instead of the packet. */
    method AcceptNote(reason: Byte)
      requires Valid()
      modifies this`packetByteCount, ring`head, ring.buffer
      ensures Valid() && Partial() == [] && Queue() == Offer(old(Queue()), Note(reason))
    {
      Store(0, 0);
      Store(1, reason);
      Accept(Note(reason));
    }

    /** Adds a byte to the packet being assembled, and accepts the packet once it is complete. */
    method Assemble(data: Byte) returns (ready: bool)
      requires Valid()
      modifies this`packetByteCount, ring`head, ring.buffer
      ensures Valid() && ready == (|old(Partial())| == LENGTH - 1)
      ensures !ready ==> Partial() == old(Partial()) + [data] && Queue() == old(Queue())
      ensures ready ==> Partial() == [] && Queue() == Offer(old(Queue()), ToSlot(old(Partial()) + [data]))
    {
      ghost var partial := Partial();
      Store(packetByteCount, data);
      ghost var assembled := ring.buffer[ring.head..ring.head + LENGTH];
      assert assembled[..packetByteCount] == partial;
      ready := packetByteCount + 1 == LENGTH;
      if ready {
        assert assembled == partial + [data];
        Accept(ToSlot(assembled));
      } else {
        packetByteCount := packetByteCount + 1;
        SliceStartsWith(ring.buffer[..], ring.head, LENGTH, packetByteCount);
        assert Partial() == assembled[..packetByteCount];
        assert assembled[..packetByteCount] == partial + [data];
      }
    }

    /** A byte at interrupt time; ready iff a slot is to be looked at. */
    method InterruptOccurred(data: Byte) returns (ready: bool)
      requires Valid() && WellFormed(Partial())
      modifies this, ring, ring.buffer
      ensures Valid() && WellFormed(Partial())
      ensures Abs() == OnByte(old(Abs()), data)
      ensures ready == EventOf(old(Partial()), old(lastData), data).Complete?
    {
      ghost var before := Abs();
      ghost var event := EventOf(before.partial, before.last, data);
      if lastData == RESET && data == 0 {
        assert event == Complete(Note(RESET));
        AcceptNote(RESET);
        return true;
      }
      lastData := data;
      assert before.partial == Partial() && before.queue == Queue();
      if packetByteCount == 0 && !StartsPacket(data) {
        assert event == Complete(Note(0));
        AcceptNote(0);
        return true;
      }
      if packetByteCount == 3 && !ContinuesPacket(data) {
        assert event == Complete(Note(3));
        AcceptNote(3);
        return true;
      }
      ToSlotOfPacket(before.partial, before.last, data);
      ready := Assemble(data);
    }

    /** The packet at the tail, which is then given back to the producer. */
    method TakeSlot() returns (packet: seq<Byte>)
      requires Valid() && LENGTH <= |ring.Contents()|
      modifies ring`tail
      ensures Valid() && |packet| == LENGTH && [ToSlot(packet)] + Queue() == old(Queue())
      ensures Partial() == old(Partial())
      ensures |ring.Contents()| == |old(ring.Contents())| - LENGTH
    {
      ghost var contents := ring.Contents();
      SlotArithmetic(ring.tail, ring.tail);
      AroundStartsWith(ring.buffer[..], ring.tail, |contents|, LENGTH);
      packet := ring.buffer[ring.tail..ring.tail + LENGTH];
      ring.AdvanceTail(LENGTH);
      assert ring.Contents() == contents[LENGTH..];
    }

    /** Empties the ring, handing each packet on to be parsed unless the pad is to be ignored. */
    method PacketReady(ignoreAll: bool) returns (parsed: seq<seq<Byte>>)
      requires Valid()
      modifies ring`tail
      ensures Valid() && Partial() == old(Partial()) && Queue() == []
      ensures parsed == Parsed(ignoreAll, old(Queue()))
    {
      parsed := [];
      ghost var partial, queue := Partial(), Queue();
      ghost var done, left := [], queue;
      var count := ring.Count();
      while count >= LENGTH
        invariant Valid() && count == |ring.Contents()|
        invariant Partial() == partial && Queue() == left
        invariant done + left == queue && parsed == Parsed(ignoreAll, done)
        decreases count
      {
        var packet := TakeSlot();
        if packet[0] != 0 && !ignoreAll {
          parsed := parsed + [packet];
        }
        MoveOne(ignoreAll, done, ToSlot(packet), Queue());
        done, left := done + [ToSlot(packet)], Queue();
        count := ring.Count();
      }
      assert left == [] && done + left == done;
    }
  }
}
