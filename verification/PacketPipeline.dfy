/** The framer as the producer of the shared ring: its single stores and reads, interleaved with those of the consumer. */
module PacketPipeline {
  import C = PacketChannel
  import F = PacketFramer
  import opened Numbers

  /** The packet or note at the head when the producer decided on it; how many bytes were queued when it read the tail for
      the new head and for the current count, and in which order; and the decision. */
  datatype Decision = Decision(slot: F.Slot, newFirst: bool, seenNew: nat, seenOld: nat, accepted: bool)

  /** A byte still to be stored at a place of the packet being assembled. */
  datatype Store = Store(place: nat, data: Byte)

  /** The ring; the bytes received; the framer's own two fields; what it has still to store for the last byte, whether it
      will offer a slot after that and in which order it will read the tail; and what it has seen and decided. */
  datatype Pipe = Pipe(channel: C.Channel<Byte>, stream: seq<Byte>, count: nat, last: Byte, todo: seq<Store>,
                       completing: bool, newFirst: bool, seenNew: nat, seenOld: nat, decisions: seq<Decision>)

  /** A byte arrives; the handler does its next single access; or the work loop does one of its own. */
  datatype Action = Receive(data: Byte, newFirst: bool) | Produce | Consume(step: C.Step<Byte>)

  predicate ByConsumer(s: C.Step<Byte>) {
    s.Look? || s.Take? || s.Advance? || s.WrapTail?
  }

  // ---- What the handler does for a byte

  function NoteTodo(reason: Byte): seq<Store> {
    [Store(0, 0), Store(1, reason)]
  }

  function Noted(p: Pipe, last: Byte, reason: Byte, newFirst: bool): Pipe {
    p.(count := 0, last := last, todo := NoteTodo(reason), completing := true, newFirst := newFirst)
  }

  function OnByte(p: Pipe, d: Byte, newFirst: bool): Pipe {
    if p.last == F.RESET && d == 0 then Noted(p, p.last, F.RESET, newFirst)
    else if p.count == 0 && !F.StartsPacket(d) then Noted(p, d, 0, newFirst)
    else if p.count == 3 && !F.ContinuesPacket(d) then Noted(p, d, 3, newFirst)
    else if p.count == F.LENGTH - 1 then
      p.(count := 0, last := d, todo := [Store(p.count, d)], completing := true, newFirst := newFirst)
    else p.(count := p.count + 1, last := d, todo := [Store(p.count, d)])
  }

  /** The next access of a handler that will offer a slot: the reads of the tail in its order, then the decision. */
  function NextStep(p: Pipe): C.Step<Byte> {
    match p.channel.producer
    case Assembling => if p.newFirst then C.ReadTailForNew else C.ReadTailForOld
    case ForNew(_) => C.ReadTailForOld
    case ForOld(_) => C.ReadTailForNew
    case ForBoth(_, _, _) => C.Commit
  }

  function QueuedBytes(c: C.Channel<Byte>): nat {
    if c.head < |c.buf| && c.tail <= |c.buf| then C.Queued(c) else 0
  }

  /** The six places at the head. */
  function AtHead(c: C.Channel<Byte>): (s: seq<Byte>)
    ensures |s| == F.LENGTH
  {
    if c.head + F.LENGTH <= |c.buf| then c.buf[c.head..c.head + F.LENGTH] else [0, 0, 0, 0, 0, 0]
  }

  function Decided(p: Pipe): Pipe {
    var after := C.Apply(p.channel, C.Commit);
    p.(channel := after, completing := false,
       decisions := p.decisions + [Decision(F.ToSlot(AtHead(p.channel)), p.newFirst, p.seenNew, p.seenOld,
                                            |after.accepted| > |p.channel.accepted|)])
  }

  function Handled(p: Pipe): Pipe {
    if p.todo != [] then p.(channel := C.Apply(p.channel, C.Write(p.todo[0].place, p.todo[0].data)), todo := p.todo[1..])
    else if !p.completing then p
    else
      match NextStep(p)
      case ReadTailForNew => p.(channel := C.Apply(p.channel, C.ReadTailForNew), seenNew := QueuedBytes(p.channel))
      case ReadTailForOld => p.(channel := C.Apply(p.channel, C.ReadTailForOld), seenOld := QueuedBytes(p.channel))
      case _ => Decided(p)
  }

  /** A byte arrives only when the one before is dealt with. */
  function Act(p: Pipe, a: Action): Pipe {
    match a
    case Receive(d, newFirst) =>
      if p.todo == [] && !p.completing then OnByte(p, d, newFirst).(stream := p.stream + [d]) else p
    case Produce => Handled(p)
    case Consume(s) => if ByConsumer(s) then p.(channel := C.Apply(p.channel, s)) else p
  }

  function Run(p: Pipe, actions: seq<Action>): Pipe {
    if actions == [] then p else Act(Run(p, actions[..|actions| - 1]), actions[|actions| - 1])
  }

  predicate Initial(p: Pipe) {
    && C.Initial(p.channel) && p.channel.len == F.LENGTH && |p.channel.buf| == F.SLOTS * F.LENGTH
    && p.stream == [] && p.count == 0 && p.last == 0 && p.todo == [] && !p.completing && p.decisions == []
  }

  // ---- What holds at every instant

  /** The packet once the stores still to be made are made. */
  function Filled(packet: seq<Byte>, todo: seq<Store>): (r: seq<Byte>)
    ensures |r| == |packet|
    decreases |todo|
  {
    if todo == [] then packet
    else if todo[0].place < |packet| then Filled(packet[todo[0].place := todo[0].data], todo[1..])
    else Filled(packet, todo[1..])
  }

  function Offered(ds: seq<Decision>): seq<F.Slot> {
    if ds == [] then [] else Offered(ds[..|ds| - 1]) + [ds[|ds| - 1].slot]
  }

  function Taken(ds: seq<Decision>): seq<F.Slot> {
    if ds == [] then []
    else Taken(ds[..|ds| - 1]) + if ds[|ds| - 1].accepted then [ds[|ds| - 1].slot] else []
  }

  function ToSlots(packets: seq<seq<Byte>>): seq<F.Slot> {
    if packets == [] then []
    else
      var p := packets[|packets| - 1];
      ToSlots(packets[..|packets| - 1]) + [if |p| == F.LENGTH then F.ToSlot(p) else F.Note(0)]
  }

  /** The decision is the one of the channel for what was seen. */
  predicate Rightly(d: Decision) {
    d.accepted <==> C.Decides(F.SLOTS * F.LENGTH, F.LENGTH, d.newFirst, d.seenNew, d.seenOld)
  }

  ghost predicate AllRightly(ds: seq<Decision>) {
    forall k :: 0 <= k < |ds| ==> Rightly(ds[k])
  }

  /** The framed slots that were decided on: all but the one the handler is about to offer. */
  function SlotsBefore(p: Pipe): seq<F.Slot> {
    var slots := F.Frame(p.stream).slots;
    F.SlotsOf(if p.completing && slots != [] then slots[..|slots| - 1] else slots)
  }

  ghost predicate ChannelRight(p: Pipe) {
    C.Inv(p.channel) && p.channel.len == F.LENGTH && |p.channel.buf| == F.SLOTS * F.LENGTH
  }

  /** The handler's place: it only reads the tail once everything is stored, and remembers what it saw. */
  ghost predicate HandlerRight(p: Pipe)
    requires ChannelRight(p)
  {
    && (forall k :: 0 <= k < |p.todo| ==> p.todo[k].place < F.LENGTH)
    && (p.todo != [] || !p.completing ==> p.channel.producer.Assembling?)
    && (p.channel.producer.ForNew? || p.channel.producer.ForBoth? ==>
          p.seenNew == C.CountSeen(p.channel, p.channel.producer.newTail))
    && (p.channel.producer.ForOld? || p.channel.producer.ForBoth? ==>
          p.seenOld == C.CountSeen(p.channel, p.channel.producer.oldTail))
    && (p.channel.producer.ForNew? ==> p.newFirst) && (p.channel.producer.ForOld? ==> !p.newFirst)
    && (p.channel.producer.ForBoth? ==> p.channel.producer.newFirst == p.newFirst)
  }

  /** What is at the head, or will be once it is stored, is what the stream has framed. */
  ghost predicate FramingRight(p: Pipe) {
    var f, target := F.Frame(p.stream), Filled(AtHead(p.channel), p.todo);
    && p.count == |f.partial| < F.LENGTH && p.last == f.last
    && if p.completing then p.count == 0 && f.slots != [] && F.ToSlot(target) == f.slots[|f.slots| - 1].slot
       else target[..p.count] == f.partial
  }

  ghost predicate DecisionsRight(p: Pipe) {
    && Offered(p.decisions) == SlotsBefore(p)
    && Taken(p.decisions) == ToSlots(p.channel.accepted)
    && AllRightly(p.decisions)
  }

  ghost predicate Inv(p: Pipe) {
    ChannelRight(p) && HandlerRight(p) && FramingRight(p) && DecisionsRight(p)
  }

  // ---- A byte arrives

  lemma StoreOne(packet: seq<Byte>, place: nat, d: Byte)
    requires place < |packet|
    ensures Filled(packet, [Store(place, d)]) == packet[place := d]
  {
    assert [Store(place, d)][1..] == [];
  }

  lemma StoreNote(packet: seq<Byte>, reason: Byte)
    requires |packet| == F.LENGTH
    ensures F.ToSlot(Filled(packet, NoteTodo(reason))) == F.Note(reason)
  {
    StoreOne(packet[0 := 0], 1, reason);
    assert NoteTodo(reason)[1..] == [Store(1, reason)];
  }

  lemma FrameNext(stream: seq<Byte>, d: Byte)
    ensures F.Frame(stream + [d]) == F.FrameOn(F.Frame(stream), d, |stream|)
  {
    assert (stream + [d])[..|stream|] == stream;
  }

  lemma SlotsBeforeLast(slots: seq<F.Framed>, x: F.Framed)
    ensures (slots + [x])[..|slots + [x]| - 1] == slots
  {
  }

  /** The framer does for the byte what the framing function says. */
  lemma ReceiveFrames(p: Pipe, d: Byte, newFirst: bool)
    requires FramingRight(p) && p.todo == [] && !p.completing && F.WellFormed(F.Frame(p.stream).partial)
    ensures var q := OnByte(p, d, newFirst).(stream := p.stream + [d]);
            FramingRight(q) && SlotsBefore(q) == SlotsBefore(p)
  {
    var f, packet := F.Frame(p.stream), AtHead(p.channel);
    FrameNext(p.stream, d);
    match F.EventOf(f.partial, f.last, d)
    case Nothing =>
      StoreOne(packet, p.count, d);
      assert packet[p.count := d][..p.count + 1] == packet[..p.count] + [d];
    case Complete(s) =>
      SlotsBeforeLast(f.slots, F.Framed(s, |p.stream| + 1));
      if s.Note? {
        StoreNote(packet, s.reason);
      } else {
        StoreOne(packet, p.count, d);
        assert packet[p.count := d] == packet[..p.count] + [d];
        F.ToSlotOfPacket(f.partial, f.last, d);
      }
  }

  lemma ReceiveHandled(p: Pipe, d: Byte, newFirst: bool)
    requires ChannelRight(p) && HandlerRight(p) && p.count < F.LENGTH && p.todo == [] && !p.completing
    ensures var q := OnByte(p, d, newFirst).(stream := p.stream + [d]);
            ChannelRight(q) && HandlerRight(q) && q.decisions == p.decisions && q.channel == p.channel
  {
    hide C.Inv;
  }

  lemma ReceiveKeeps(p: Pipe, d: Byte, newFirst: bool)
    requires Inv(p)
    ensures Inv(Act(p, Receive(d, newFirst)))
  {
    if p.todo == [] && !p.completing {
      hide C.Inv, F.Frame, OnByte, HandlerRight, F.EventOf;
      F.FramesAreConsecutive(p.stream);
      ReceiveFrames(p, d, newFirst);
      ReceiveHandled(p, d, newFirst);
    }
  }

  // ---- The handler goes on

  lemma HeadFits(c: C.Channel<Byte>)
    requires C.Inv(c) && c.len == F.LENGTH
    ensures c.head + F.LENGTH <= |c.buf|
  {
    C.QueuedStretch(c);
  }

  lemma WriteKeeps(p: Pipe)
    requires Inv(p) && p.todo != []
    ensures Inv(Handled(p))
  {
    var c, s := p.channel, p.todo[0];
    HeadFits(c);
    C.StepKeeps(c, C.Write(s.place, s.data));
    assert C.Enabled(c, C.Write(s.place, s.data));
    var after := C.Apply(c, C.Write(s.place, s.data));
    assert AtHead(after) == AtHead(c)[s.place := s.data];
  }

  /** A step that leaves alone what was stored, framed and decided. */
  lemma FramingStays(p: Pipe, q: Pipe)
    requires FramingRight(p) && DecisionsRight(p)
    requires q.stream == p.stream && q.count == p.count && q.last == p.last && q.todo == p.todo
    requires q.completing == p.completing && q.decisions == p.decisions
    requires AtHead(q.channel) == AtHead(p.channel) && q.channel.accepted == p.channel.accepted
    ensures FramingRight(q) && DecisionsRight(q)
  {
    hide F.Frame;
  }

  lemma ReadHandled(p: Pipe)
    requires ChannelRight(p) && HandlerRight(p) && p.todo == [] && p.completing && !p.channel.producer.ForBoth?
    ensures var q := Handled(p);
            && ChannelRight(q) && HandlerRight(q) && q == p.(channel := q.channel, seenNew := q.seenNew, seenOld := q.seenOld)
            && q.channel == p.channel.(producer := q.channel.producer)
  {
    hide C.Slots;
    var s := NextStep(p);
    C.StepKeeps(p.channel, s);
    assert C.Enabled(p.channel, s);
  }

  lemma ReadKeeps(p: Pipe)
    requires Inv(p) && p.todo == [] && p.completing && !p.channel.producer.ForBoth?
    ensures Inv(Handled(p))
  {
    ReadHandled(p);
    hide C.Inv, Handled;
    FramingStays(p, Handled(p));
  }

  /** What the decision does to the ring. */
  lemma CommitDecides(c: C.Channel<Byte>)
    requires C.Inv(c) && C.Enabled(c, C.Commit) && c.len == F.LENGTH
    ensures var after := C.Apply(c, C.Commit);
            && C.Inv(after) && after.producer.Assembling? && after.len == c.len && |after.buf| == |c.buf|
            && (|after.accepted| > |c.accepted| <==>
                  C.Decides(|c.buf|, c.len, c.producer.newFirst, C.CountSeen(c, c.producer.newTail),
                            C.CountSeen(c, c.producer.oldTail)))
            && after.accepted == if |after.accepted| > |c.accepted| then c.accepted + [AtHead(c)] else c.accepted
  {
    HeadFits(c);
    C.StepKeeps(c, C.Commit);
    C.DecidedByOrder(c);
  }

  lemma OneMoreSlot(packets: seq<seq<Byte>>, packet: seq<Byte>)
    requires |packet| == F.LENGTH
    ensures ToSlots(packets + [packet]) == ToSlots(packets) + [F.ToSlot(packet)]
  {
    assert (packets + [packet])[..|packets|] == packets;
  }

  lemma OneMoreDecision(ds: seq<Decision>, d: Decision)
    ensures Offered(ds + [d]) == Offered(ds) + [d.slot]
    ensures Taken(ds + [d]) == Taken(ds) + if d.accepted then [d.slot] else []
    ensures AllRightly(ds) && Rightly(d) ==> AllRightly(ds + [d])
  {
    assert (ds + [d])[..|ds|] == ds;
  }

  lemma DecideKeeps(p: Pipe)
    requires Inv(p) && p.todo == [] && p.completing && p.channel.producer.ForBoth?
    ensures Inv(Handled(p))
  {
    var c := p.channel;
    HeadFits(c);
    assert C.Enabled(c, C.Commit);
    CommitDecides(c);
    OfferedLast(p);
    DecisionRecorded(p);
  }

  /** The decision, once what it does to the ring is known. */
  lemma DecisionRecorded(p: Pipe)
    requires Inv(p) && p.todo == [] && p.completing && p.channel.producer.ForBoth?
    requires var c, after := p.channel, C.Apply(p.channel, C.Commit);
             && (|after.accepted| > |c.accepted| <==> C.Decides(|c.buf|, c.len, p.newFirst, p.seenNew, p.seenOld))
             && after.accepted == if |after.accepted| > |c.accepted| then c.accepted + [AtHead(c)] else c.accepted
    requires SlotsBefore(p) + [F.ToSlot(AtHead(p.channel))] == F.SlotsOf(F.Frame(p.stream).slots)
    ensures DecisionsRight(Decided(p)) && FramingRight(Decided(p))
  {
    hide C.Inv, C.Apply, F.Frame, HandlerRight, C.Decides;
    var q := Decided(p);
    OneMoreDecision(p.decisions, q.decisions[|p.decisions|]);
    OneMoreSlot(p.channel.accepted, AtHead(p.channel));
    assert F.Frame(p.stream).partial == [];
  }

  /** The slot decided on is the one framed last. */
  lemma OfferedLast(p: Pipe)
    requires FramingRight(p) && p.todo == [] && p.completing
    ensures SlotsBefore(p) + [F.ToSlot(AtHead(p.channel))] == F.SlotsOf(F.Frame(p.stream).slots)
  {
  }

  lemma ProduceKeeps(p: Pipe)
    requires Inv(p)
    ensures Inv(Act(p, Produce))
  {
    if p.todo != [] {
      WriteKeeps(p);
    } else if p.completing {
      if p.channel.producer.ForBoth? {
        DecideKeeps(p);
      } else {
        ReadKeeps(p);
      }
    }
  }

  // ---- The consumer goes on

  /** The consumer leaves alone what the producer works on. */
  lemma ConsumerApart(c: C.Channel<Byte>, s: C.Step<Byte>)
    requires ByConsumer(s)
    ensures var after := C.Apply(c, s);
            && after.head == c.head && after.buf == c.buf && after.producer == c.producer && after.len == c.len
            && after.accepted == c.accepted
  {
  }

  lemma ConsumeKeeps(p: Pipe, s: C.Step<Byte>)
    requires Inv(p) && ByConsumer(s)
    ensures Inv(Act(p, Consume(s)))
  {
    ConsumeHandled(p, s);
    hide C.Inv, C.Apply;
    FramingStays(p, Act(p, Consume(s)));
  }

  lemma ConsumeHandled(p: Pipe, s: C.Step<Byte>)
    requires ChannelRight(p) && HandlerRight(p) && ByConsumer(s)
    ensures var q := Act(p, Consume(s));
            && ChannelRight(q) && HandlerRight(q) && q == p.(channel := q.channel)
            && AtHead(q.channel) == AtHead(p.channel) && q.channel.accepted == p.channel.accepted
  {
    C.StepKeeps(p.channel, s);
    ConsumerApart(p.channel, s);
    hide C.Apply, C.Slots, C.ReadingFirst, C.TailsSeen;
  }

  lemma ActKeeps(p: Pipe, a: Action)
    requires Inv(p)
    ensures Inv(Act(p, a))
  {
    match a
    case Receive(d, newFirst) => ReceiveKeeps(p, d, newFirst);
    case Produce => ProduceKeeps(p);
    case Consume(s) =>
      if ByConsumer(s) {
        ConsumeKeeps(p, s);
      }
  }

  // ---- Over every interleaving

  lemma StartsRight(p: Pipe)
    requires Initial(p)
    ensures Inv(p)
  {
    C.Fifo(p.channel, []);
  }

  lemma {:induction false} RunKeeps(p: Pipe, actions: seq<Action>)
    requires Inv(p)
    ensures Inv(Run(p, actions))
  {
    if actions != [] {
      hide *;
      RunKeeps(p, actions[..|actions| - 1]);
      ActKeeps(Run(p, actions[..|actions| - 1]), actions[|actions| - 1]);
      RunUnfolds(p, actions);
    }
  }

  lemma RunUnfolds(p: Pipe, actions: seq<Action>)
    requires actions != []
    ensures Run(p, actions) == Act(Run(p, actions[..|actions| - 1]), actions[|actions| - 1])
  {
  }

  lemma ReachedRight(p: Pipe, actions: seq<Action>)
    requires Initial(p)
    ensures Inv(Run(p, actions))
  {
    StartsRight(p);
    RunKeeps(p, actions);
  }

  /** Over every interleaving of the handler's single accesses with those of the consumer: the slots decided on are those
      the stream frames, all of them but one that is about to be offered; the packets in the ring or taken from it are those
      accepted, in order; and each was accepted exactly if the channel decides so for what was seen of the tail. */
  lemma AcceptsTheFraming(p: Pipe, actions: seq<Action>)
    requires Initial(p)
    ensures var q := Run(p, actions);
            && Offered(q.decisions) == SlotsBefore(q)
            && (!q.completing ==> SlotsBefore(q) == F.SlotsOf(F.Frame(q.stream).slots))
            && ToSlots(q.channel.accepted) == Taken(q.decisions)
            && q.channel.delivered <= q.channel.accepted
            && AllRightly(q.decisions)
  {
    ReachedRight(p, actions);
  }

  /** Below the capacity, and with no more than one packet taken between the two reads if the current count was read
      first. */
  predicate SeesRoom(d: Decision) {
    d.seenNew + F.LENGTH < F.SLOTS * F.LENGTH && (d.newFirst || d.seenOld <= d.seenNew + F.LENGTH)
  }

  ghost predicate AllSeeRoom(ds: seq<Decision>) {
    forall k :: 0 <= k < |ds| ==> SeesRoom(ds[k])
  }

  lemma {:induction false} RoomTakesAll(ds: seq<Decision>)
    requires AllRightly(ds) && AllSeeRoom(ds)
    ensures Taken(ds) == Offered(ds)
  {
    if ds != [] {
      RoomTakesAll(ds[..|ds| - 1]);
      assert Rightly(ds[|ds| - 1]) && SeesRoom(ds[|ds| - 1]);
    }
  }

  lemma {:induction false} SlotsOfPrefix(packets: seq<seq<Byte>>, n: nat)
    requires n <= |packets|
    ensures ToSlots(packets[..n]) <= ToSlots(packets) && |ToSlots(packets[..n])| == n
    decreases |packets|
  {
    if n == |packets| {
      assert packets[..n] == packets;
      SlotsOfCount(packets);
    } else {
      SlotsOfPrefix(packets[..|packets| - 1], n);
      assert packets[..|packets| - 1][..n] == packets[..n];
    }
  }

  lemma {:induction false} SlotsOfCount(packets: seq<seq<Byte>>)
    ensures |ToSlots(packets)| == |packets|
  {
    if packets != [] {
      SlotsOfCount(packets[..|packets| - 1]);
    }
  }

  /** So nothing is lost as long as room is seen: what was accepted is the framing of the stream, and what was delivered its
      beginning. */
  lemma NothingLost(p: Pipe, actions: seq<Action>)
    requires Initial(p) && AllSeeRoom(Run(p, actions).decisions) && !Run(p, actions).completing
    ensures var q := Run(p, actions);
            && ToSlots(q.channel.accepted) == F.SlotsOf(F.Frame(q.stream).slots)
            && ToSlots(q.channel.delivered) <= F.SlotsOf(F.Frame(q.stream).slots)
  {
    AcceptsTheFraming(p, actions);
    var q := Run(p, actions);
    RoomTakesAll(q.decisions);
    SlotsOfPrefix(q.channel.accepted, |q.channel.delivered|);
    assert q.channel.accepted[..|q.channel.delivered|] == q.channel.delivered;
  }

  // ---- The handler gets done

  /** The accesses that the handler has still to make. */
  function Effort(p: Pipe): nat {
    |p.todo| + if !p.completing then 0 else match p.channel.producer
      case Assembling => 3
      case ForNew(_) => 2
      case ForOld(_) => 2
      case ForBoth(_, _, _) => 1
  }

  function Produces(n: nat): (a: seq<Action>)
    ensures |a| == n
  {
    if n == 0 then [] else Produces(n - 1) + [Produce]
  }

  /** Each access is one less; the last one of a byte that completes a slot is its decision. */
  lemma EffortShrinks(p: Pipe)
    requires Inv(p)
    ensures var q := Act(p, Produce);
            && Effort(q) == (if Effort(p) == 0 then 0 else Effort(p) - 1) && q.stream == p.stream
            && |q.decisions| == |p.decisions| + (if p.completing && Effort(p) == 1 then 1 else 0)
            && q.completing == (p.completing && Effort(p) > 1)
  {
    hide F.Frame, FramingRight, DecisionsRight;
    if p.todo == [] && p.completing {
      if p.channel.producer.ForBoth? {
        HeadFits(p.channel);
        CommitDecides(p.channel);
        hide C.Inv, C.Decides;
      } else {
        ReadShrinks(p);
        hide C.Inv, Handled, Effort, ChannelRight, HandlerRight;
      }
    } else {
      hide C.Inv, ChannelRight, HandlerRight;
    }
  }

  lemma ReadShrinks(p: Pipe)
    requires ChannelRight(p) && HandlerRight(p) && p.todo == [] && p.completing && !p.channel.producer.ForBoth?
    ensures var q := Handled(p);
            && Effort(q) == Effort(p) - 1 && Effort(p) > 1 && q.stream == p.stream && q.decisions == p.decisions && q.completing
  {
    hide C.Inv;
  }

  lemma {:induction false} HandlerFinishes(p: Pipe, n: nat)
    requires Inv(p)
    ensures var q := Run(p, Produces(n));
            && Inv(q) && q.stream == p.stream && Effort(q) == (if Effort(p) <= n then 0 else Effort(p) - n)
            && |q.decisions| == |p.decisions| + (if p.completing && Effort(p) <= n then 1 else 0)
            && q.completing == (p.completing && Effort(p) > n)
  {
    hide *;
    if n == 0 {
      NothingProduced(p);
    } else {
      HandlerFinishes(p, n - 1);
      OneProduced(p, n);
      EffortShrinks(Run(p, Produces(n - 1)));
      ActKeeps(Run(p, Produces(n - 1)), Produce);
    }
    SomeEffort(p);
  }

  lemma NothingProduced(p: Pipe)
    ensures Run(p, Produces(0)) == p
  {
  }

  lemma OneProduced(p: Pipe, n: nat)
    requires n > 0
    ensures Run(p, Produces(n)) == Act(Run(p, Produces(n - 1)), Produce)
  {
    assert Produces(n)[..n - 1] == Produces(n - 1);
  }

  lemma SomeEffort(p: Pipe)
    ensures p.completing ==> Effort(p) > 0
  {
  }

  /** A byte that arrives at a handler with nothing to do is dealt with after five accesses at most, whatever the byte; after
      that every slot the stream frames was decided on. */
  lemma ByteIsHandled(p: Pipe, actions: seq<Action>, d: Byte, newFirst: bool)
    requires Initial(p) && Effort(Run(p, actions)) == 0
    ensures var q := Run(Act(Run(p, actions), Receive(d, newFirst)), Produces(5));
            && q.stream == Run(p, actions).stream + [d] && Effort(q) == 0
            && Offered(q.decisions) == F.SlotsOf(F.Frame(q.stream).slots)
  {
    var before := Run(p, actions);
    ReachedRight(p, actions);
    ActKeeps(before, Receive(d, newFirst));
    var received := Act(before, Receive(d, newFirst));
    ReceiveEffort(before, d, newFirst);
    HandlerFinishes(received, 5);
    hide Act, Effort, C.Inv, F.Frame, Run, HandlerRight;
    assert DecisionsRight(Run(received, Produces(5)));
  }

  lemma ReceiveEffort(p: Pipe, d: Byte, newFirst: bool)
    requires Inv(p) && Effort(p) == 0
    ensures var q := Act(p, Receive(d, newFirst)); Effort(q) <= 5 && q.stream == p.stream + [d]
  {
    hide C.Inv, F.Frame, FramingRight, DecisionsRight;
  }
}
