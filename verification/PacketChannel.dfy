/** One interrupt-time producer and one work-loop consumer sharing a ring buffer without a lock: every interleaving of
    their single accesses, with advanceTail split into its two assignments and advanceHead into its two reads of the tail. */
module PacketChannel {
  import opened RingBuffers

  /** What the producer has read of the tail so far: for the count with the new head, and for the current count; and
      which of the two it read first, an order that C++ does not fix. */
  datatype Producer = Assembling | ForNew(newTail: nat) | ForOld(oldTail: nat)
                    | ForBoth(newTail: nat, oldTail: nat, newFirst: bool)

  datatype Consumer<T> = Idle | Reading(got: seq<T>) | Wrapping

  /** The shared buffer with slots of len elements, and the packets accepted and delivered so far. */
  datatype Channel<T> = Channel(buf: seq<T>, len: nat, head: nat, tail: nat, producer: Producer, consumer: Consumer<T>,
                                accepted: seq<seq<T>>, delivered: seq<seq<T>>)

  datatype Step<T> = Write(k: nat, x: T) | ReadTailForNew | ReadTailForOld | Commit
                   | Look | Take | Advance | WrapTail

  predicate Enabled<T>(c: Channel<T>, s: Step<T>) {
    match s
    case Write(k, _) => c.producer.Assembling? && k < c.len && c.head + k < |c.buf|
    case ReadTailForNew => c.producer.Assembling? || c.producer.ForOld?
    case ReadTailForOld => c.producer.Assembling? || c.producer.ForNew?
    case Commit => c.producer.ForBoth? && c.head + c.len <= |c.buf| && c.producer.newTail <= |c.buf| && c.producer.oldTail <= |c.buf|
    case Look => c.consumer.Idle? && c.tail <= |c.buf| && c.head <= |c.buf|
    case Take => c.consumer.Reading? && |c.consumer.got| < c.len && c.tail + |c.consumer.got| < |c.buf|
    case Advance => c.consumer.Reading? && |c.consumer.got| == c.len
    case WrapTail => c.consumer.Wrapping?
  }

  function NewHead<T>(c: Channel<T>): nat {
    Wrap(|c.buf|, c.head + c.len)
  }

  /** The decision of advanceHead. */
  predicate Accepts<T>(c: Channel<T>, newTail: nat, oldTail: nat)
    requires c.head + c.len <= |c.buf| && newTail <= |c.buf| && oldTail <= |c.buf|
  {
    CountOf(|c.buf|, NewHead(c), newTail) >= CountOf(|c.buf|, c.head, oldTail)
  }

  /** A step that is not enabled does nothing, so that every list of steps is a schedule. */
  function Apply<T>(c: Channel<T>, s: Step<T>): Channel<T> {
    if !Enabled(c, s) then c else
      match s
      case Write(k, x) => c.(buf := c.buf[c.head + k := x])
      case ReadTailForNew => c.(producer := if c.producer.Assembling? then ForNew(c.tail) else ForBoth(c.tail, c.producer.oldTail, false))
      case ReadTailForOld => c.(producer := if c.producer.Assembling? then ForOld(c.tail) else ForBoth(c.producer.newTail, c.tail, true))
      case Commit =>
        if Accepts(c, c.producer.newTail, c.producer.oldTail)
        then c.(producer := Assembling, head := NewHead(c), accepted := c.accepted + [c.buf[c.head..c.head + c.len]])
        else c.(producer := Assembling)
      case Look => if CountOf(|c.buf|, c.head, c.tail) >= c.len then c.(consumer := Reading([])) else c
      case Take => c.(consumer := Reading(c.consumer.got + [c.buf[c.tail + |c.consumer.got|]]))
      case Advance => c.(consumer := Wrapping, tail := c.tail + c.len, delivered := c.delivered + [c.consumer.got])
      case WrapTail => c.(consumer := Idle, tail := Wrap(|c.buf|, c.tail))
  }

  function Run<T>(c: Channel<T>, steps: seq<Step<T>>): Channel<T> {
    if steps == [] then c else Apply(Run(c, steps[..|steps| - 1]), steps[|steps| - 1])
  }

  // ---- Slots

  /** p is a multiple of len. */
  predicate Aligned(len: nat, p: nat)
    requires 0 < len
    decreases p
  {
    p == 0 || (len <= p && Aligned(len, p - len))
  }

  /** Different aligned positions are a whole number of slots apart. */
  lemma {:induction false} SlotApart(len: nat, p: nat, q: nat)
    requires 0 < len && Aligned(len, p) && Aligned(len, q) && p < q
    ensures p + len <= q && Aligned(len, q - p)
  {
    if p > 0 {
      SlotApart(len, p - len, q - len);
    }
  }

  /** The slots from an aligned position on that hold the next count elements. */
  function Slots<T>(buf: seq<T>, len: nat, p: nat, count: nat): (s: seq<seq<T>>)
    requires 0 < len
    decreases count
  {
    if count < len || p + len > |buf| then []
    else [buf[p..p + len]] + Slots(buf, len, Wrap(|buf|, p + len), count - len)
  }

  /** An aligned stretch of count elements that ends at the head. */
  predicate Stretch(n: nat, len: nat, p: nat, count: nat, head: nat) {
    && 0 < len && Aligned(len, n) && Aligned(len, p) && Aligned(len, count) && Aligned(len, head)
    && p < n && head < n && count + len <= n && Wrap(n, p + count) == head
  }

  lemma StretchShrinks(n: nat, len: nat, p: nat, count: nat, head: nat)
    requires Stretch(n, len, p, count, head) && count > 0
    ensures len <= count && p + len <= n && p != head
    ensures Stretch(n, len, Wrap(n, p + len), count - len, head)
    ensures p < head ==> p + len <= head
    ensures head < p ==> head + len <= p
  {
    SlotApart(len, 0, count);
    SlotApart(len, p, n);
    if count == len {
      assert Aligned(len, 0);
    } else {
      SlotApart(len, len, count);
    }
    if p + len < n {
      SlotApart(len, p + len, n);
    }
    if p < head {
      SlotApart(len, p, head);
    }
    if head < p {
      SlotApart(len, head, p);
    }
  }

  /** Assembling a packet at the head shows in none of the queued slots. */
  lemma {:induction false} SlotsKeep<T>(buf: seq<T>, len: nat, p: nat, count: nat, head: nat, k: nat, x: T)
    requires Stretch(|buf|, len, p, count, head) && k < len && head + k < |buf|
    ensures Slots(buf[head + k := x], len, p, count) == Slots(buf, len, p, count)
    decreases count
  {
    if count > 0 {
      StretchShrinks(|buf|, len, p, count, head);
      SlotsKeep(buf, len, Wrap(|buf|, p + len), count - len, head, k, x);
      assert buf[head + k := x][p..p + len] == buf[p..p + len];
    }
  }

  /** Accepting the packet at the head appends it. */
  lemma {:induction false} SlotsAppend<T>(buf: seq<T>, len: nat, p: nat, count: nat, head: nat)
    requires Stretch(|buf|, len, p, count, head) && head + len <= |buf|
    ensures Slots(buf, len, p, count + len) == Slots(buf, len, p, count) + [buf[head..head + len]]
    decreases count
  {
    if count > 0 {
      StretchShrinks(|buf|, len, p, count, head);
      SlotsAppend(buf, len, Wrap(|buf|, p + len), count - len, head);
    } else {
      assert Slots(buf, len, Wrap(|buf|, p + len), 0) == [];
    }
  }

  lemma OneMore(k: nat, len: nat)
    ensures (1 + k) * len == len + k * len
  {
  }

  /** No more than the whole buffer but one slot is ever queued. */
  lemma {:induction false} SlotsFew<T>(buf: seq<T>, len: nat, p: nat, count: nat, head: nat)
    requires Stretch(|buf|, len, p, count, head)
    ensures |Slots(buf, len, p, count)| * len == count
    decreases count
  {
    if count > 0 {
      StretchShrinks(|buf|, len, p, count, head);
      SlotsFew(buf, len, Wrap(|buf|, p + len), count - len, head);
      var rest := Slots(buf, len, Wrap(|buf|, p + len), count - len);
      OneMore(|rest|, len);
    }
  }

  // ---- The invariant

  /** The tail the consumer stands at, also in the middle of advanceTail. */
  function TailOf<T>(c: Channel<T>): nat {
    Wrap(|c.buf|, c.tail)
  }

  function Queued<T>(c: Channel<T>): nat
    requires c.head < |c.buf| && c.tail <= |c.buf|
  {
    CountOf(|c.buf|, c.head, TailOf(c))
  }

  predicate Positions<T>(c: Channel<T>) {
    && 0 < c.len && Aligned(c.len, |c.buf|) && 2 * c.len <= |c.buf|
    && c.head < |c.buf| && Aligned(c.len, c.head)
    && c.tail <= |c.buf| && Aligned(c.len, c.tail)
    && (!c.consumer.Wrapping? ==> c.tail < |c.buf|)
  }

  /** How much was queued when the tail stood at t. */
  function CountSeen<T>(c: Channel<T>, t: nat): nat
    requires Positions(c) && t <= |c.buf|
  {
    CountOf(|c.buf|, c.head, Wrap(|c.buf|, t))
  }

  /** A tail seen earlier is an aligned position from which at least as much was queued. */
  predicate Seen<T>(c: Channel<T>, t: nat)
    requires Positions(c)
  {
    t <= |c.buf| && Aligned(c.len, t) && CountSeen(c, t) >= Queued(c)
  }

  predicate TailsSeen<T>(c: Channel<T>)
    requires Positions(c)
  {
    && (c.producer.ForNew? || c.producer.ForBoth? ==> Seen(c, c.producer.newTail))
    && (c.producer.ForOld? || c.producer.ForBoth? ==> Seen(c, c.producer.oldTail))
    && (c.producer.ForBoth? ==>
          if c.producer.newFirst then CountSeen(c, c.producer.oldTail) <= CountSeen(c, c.producer.newTail)
          else CountSeen(c, c.producer.newTail) <= CountSeen(c, c.producer.oldTail))
  }

  ghost predicate ReadingFirst<T>(c: Channel<T>)
    requires Positions(c)
  {
    c.consumer.Reading? ==>
      var got := c.consumer.got;
      Queued(c) >= c.len && |got| <= c.len && c.tail + c.len <= |c.buf| && got == c.buf[c.tail..c.tail + |got|]
  }

  /** What holds at every instant: positions are aligned, and the accepted packets are the delivered ones followed by
      the queued slots, oldest first. */
  ghost predicate Inv<T>(c: Channel<T>) {
    && Positions(c)
    && TailsSeen(c)
    && ReadingFirst(c)
    && c.accepted == c.delivered + Slots(c.buf, c.len, TailOf(c), Queued(c))
  }

  lemma QueuedStretch<T>(c: Channel<T>)
    requires Positions(c)
    ensures Stretch(|c.buf|, c.len, TailOf(c), Queued(c), c.head)
    ensures c.head + c.len <= |c.buf|
  {
    CountAligned(|c.buf|, c.len, c.head, TailOf(c));
    SlotApart(c.len, c.head, |c.buf|);
  }

  lemma CountAligned(n: nat, len: nat, head: nat, tail: nat)
    requires 0 < len && Aligned(len, n) && Aligned(len, head) && Aligned(len, tail) && head < n && tail < n
    ensures Aligned(len, CountOf(n, head, tail)) && CountOf(n, head, tail) + len <= n
    ensures Wrap(n, tail + CountOf(n, head, tail)) == head
  {
    if head > tail {
      SlotApart(len, tail, head);
      SlotApart(len, head, n);
    } else if head < tail {
      SlotApart(len, head, tail);
      SlotApart(len, tail, n);
      SlotApart(len, tail - head, n);
    } else {
      SlotApart(len, 0, n);
    }
  }

  // ---- Every step keeps it

  lemma WriteKeeps<T>(c: Channel<T>, k: nat, x: T)
    requires Inv(c) && Enabled(c, Write(k, x))
    ensures Inv(Apply(c, Write(k, x)))
    ensures Slots(Apply(c, Write(k, x)).buf, c.len, TailOf(c), Queued(c)) == Slots(c.buf, c.len, TailOf(c), Queued(c))
  {
    QueuedStretch(c);
    SlotsKeep(c.buf, c.len, TailOf(c), Queued(c), c.head, k, x);
    if c.consumer.Reading? {
      WriteMissesReader(c, k, x);
    }
  }

  lemma WriteMissesReader<T>(c: Channel<T>, k: nat, x: T)
    requires Inv(c) && c.consumer.Reading? && k < c.len && c.head + k < |c.buf|
    ensures var got := c.consumer.got; c.buf[c.head + k := x][c.tail..c.tail + |got|] == got
  {
    QueuedStretch(c);
    StretchShrinks(|c.buf|, c.len, c.tail, Queued(c), c.head);
  }

  /** What advanceHead decides, when its two reads of the tail gave newTail and oldTail. */
  lemma AcceptsExactly<T>(c: Channel<T>, newTail: nat, oldTail: nat)
    requires Positions(c) && Seen(c, newTail) && Seen(c, oldTail)
    ensures c.head + c.len <= |c.buf|
    ensures var x, y := CountSeen(c, newTail), CountSeen(c, oldTail);
            Accepts(c, newTail, oldTail) <==> if x + c.len < |c.buf| then x + c.len >= y else y == 0
  {
    var n := |c.buf|;
    QueuedStretch(c);
    WrapAligned(c, newTail);
    CountAligned(n, c.len, c.head, Wrap(n, newTail));
    CountAfter(n, c.len, c.head, Wrap(n, newTail));
    WrapAligned(c, oldTail);
  }

  lemma WrapAligned<T>(c: Channel<T>, t: nat)
    requires Positions(c) && t <= |c.buf| && Aligned(c.len, t)
    ensures Wrap(|c.buf|, t) < |c.buf| && Aligned(c.len, Wrap(|c.buf|, t))
    ensures CountOf(|c.buf|, c.head, t) == CountOf(|c.buf|, c.head, Wrap(|c.buf|, t))
  {
    assert Aligned(c.len, 0);
  }

  /** The count seen from the new head, also when the tail stands at the capacity. */
  lemma CountAfter(n: nat, len: nat, head: nat, tail: nat)
    requires 0 < len && Aligned(len, n) && Aligned(len, head) && Aligned(len, tail) && head < n && tail < n
    requires head + len <= n && CountOf(n, head, tail) + len <= n
    ensures var x := CountOf(n, head, tail);
            && CountOf(n, Wrap(n, head + len), tail) == (if x + len < n then x + len else 0)
            && (tail == 0 ==> CountOf(n, Wrap(n, head + len), n) == (if x + len < n then x + len else 0))
  {
  }

  /** With one reading of the tail, even in the middle of advanceTail, the packet is accepted exactly if it fits. */
  lemma AcceptsIffRoom<T>(c: Channel<T>)
    requires Positions(c)
    ensures c.head + c.len <= |c.buf|
    ensures Accepts(c, c.tail, c.tail) <==> Queued(c) + c.len < |c.buf|
  {
    WrapAligned(c, c.tail);
    AcceptsExactly(c, c.tail, c.tail);
    QueuedStretch(c);
  }

  /** However the consumer moves between the two readings, nothing is accepted into a full buffer. */
  lemma AcceptsOnlyIntoRoom<T>(c: Channel<T>)
    requires Inv(c) && Enabled(c, Commit) && Accepts(c, c.producer.newTail, c.producer.oldTail)
    ensures Queued(c) + c.len < |c.buf|
  {
    AcceptsExactly(c, c.producer.newTail, c.producer.oldTail);
    QueuedStretch(c);
  }

  lemma CommitKeeps<T>(c: Channel<T>)
    requires Inv(c) && Enabled(c, Commit)
    ensures Inv(Apply(c, Commit))
  {
    if Accepts(c, c.producer.newTail, c.producer.oldTail) {
      AcceptsOnlyIntoRoom(c);
      AcceptedKeeps(c);
    }
  }

  lemma AcceptedKeeps<T>(c: Channel<T>)
    requires Inv(c) && Enabled(c, Commit) && Accepts(c, c.producer.newTail, c.producer.oldTail)
    requires Queued(c) + c.len < |c.buf|
    ensures Inv(Apply(c, Commit))
  {
    AcceptedPositions(c);
    QueuedStretch(c);
    SlotsAppend(c.buf, c.len, TailOf(c), Queued(c), c.head);
    var queue, added := Slots(c.buf, c.len, TailOf(c), Queued(c)), [c.buf[c.head..c.head + c.len]];
    assert c.delivered + queue + added == c.delivered + (queue + added);
  }

  lemma AcceptedQueued<T>(c: Channel<T>)
    requires Positions(c) && Enabled(c, Commit) && Accepts(c, c.producer.newTail, c.producer.oldTail)
    requires Queued(c) + c.len < |c.buf|
    ensures var d := Apply(c, Commit); Positions(d) && Queued(d) == Queued(c) + c.len
  {
    QueuedStretch(c);
    HeadMoves(|c.buf|, c.len, c.head);
    CountAfter(|c.buf|, c.len, c.head, TailOf(c));
  }

  lemma AcceptedPositions<T>(c: Channel<T>)
    requires Inv(c) && Enabled(c, Commit) && Accepts(c, c.producer.newTail, c.producer.oldTail)
    requires Queued(c) + c.len < |c.buf|
    ensures var d := Apply(c, Commit); Positions(d) && TailsSeen(d) && ReadingFirst(d) && Queued(d) == Queued(c) + c.len
  {
    AcceptedQueued(c);
  }

  lemma HeadMoves(n: nat, len: nat, head: nat)
    requires 0 < len && Aligned(len, n) && Aligned(len, head) && head + len <= n
    ensures Wrap(n, head + len) < n && Aligned(len, Wrap(n, head + len))
  {
    assert Aligned(len, head + len);
    assert Aligned(len, 0);
  }

  lemma LookKeeps<T>(c: Channel<T>)
    requires Inv(c) && Enabled(c, Look)
    ensures Inv(Apply(c, Look))
  {
    SlotApart(c.len, c.tail, |c.buf|);
  }

  lemma TakeKeeps<T>(c: Channel<T>)
    requires Inv(c) && Enabled(c, Take)
    ensures Inv(Apply(c, Take))
  {
    var got := c.consumer.got;
    assert c.buf[c.tail..c.tail + |got| + 1] == c.buf[c.tail..c.tail + |got|] + [c.buf[c.tail + |got|]];
  }

  lemma AdvanceKeeps<T>(c: Channel<T>)
    requires Inv(c) && Enabled(c, Advance)
    ensures Inv(Apply(c, Advance))
  {
    AdvancePositions(c);
    var d := Apply(c, Advance);
    AdvanceQueue(c.buf, c.len, c.tail, Queued(c));
    var rest := Slots(c.buf, c.len, TailOf(d), Queued(d));
    assert c.delivered + [c.consumer.got] + rest == c.delivered + ([c.consumer.got] + rest);
  }

  lemma AdvanceQueue<T>(buf: seq<T>, len: nat, p: nat, count: nat)
    requires 0 < len <= count && p + len <= |buf|
    ensures Slots(buf, len, p, count) == [buf[p..p + len]] + Slots(buf, len, Wrap(|buf|, p + len), count - len)
  {
  }

  lemma AdvancePositions<T>(c: Channel<T>)
    requires Inv(c) && Enabled(c, Advance)
    ensures var d := Apply(c, Advance); Positions(d) && TailsSeen(d) && ReadingFirst(d) && Queued(d) == Queued(c) - c.len
  {
    HeadMoves(|c.buf|, c.len, c.tail);
    CountDrops(|c.buf|, c.len, c.head, c.tail);
  }

  lemma CountDrops(n: nat, len: nat, head: nat, tail: nat)
    requires head < n && tail < n && tail + len <= n && CountOf(n, head, tail) >= len > 0
    ensures CountOf(n, head, Wrap(n, tail + len)) == CountOf(n, head, tail) - len
  {
  }

  lemma ReadTailKeeps<T>(c: Channel<T>, s: Step<T>)
    requires Inv(c) && (s.ReadTailForNew? || s.ReadTailForOld?) && Enabled(c, s)
    ensures Inv(Apply(c, s))
  {
  }

  lemma WrapTailKeeps<T>(c: Channel<T>)
    requires Inv(c) && Enabled(c, WrapTail)
    ensures Inv(Apply(c, WrapTail))
  {
    WrapAligned(c, c.tail);
  }

  lemma StepKeeps<T>(c: Channel<T>, s: Step<T>)
    requires Inv(c)
    ensures Inv(Apply(c, s))
  {
    if Enabled(c, s) {
      match s
      case Write(k, x) => WriteKeeps(c, k, x);
      case ReadTailForNew => ReadTailKeeps(c, s);
      case ReadTailForOld => ReadTailKeeps(c, s);
      case Commit => CommitKeeps(c);
      case Look => LookKeeps(c);
      case Take => TakeKeeps(c);
      case Advance => AdvanceKeeps(c);
      case WrapTail => WrapTailKeeps(c);
    }
  }

  // ---- Over every interleaving

  predicate Initial<T>(c: Channel<T>) {
    && 0 < c.len && Aligned(c.len, |c.buf|) && 2 * c.len <= |c.buf|
    && c.head == 0 && c.tail == 0 && c.producer.Assembling? && c.consumer.Idle?
    && |c.accepted| == 0 && |c.delivered| == 0
  }

  lemma {:induction false} RunKeeps<T>(c: Channel<T>, steps: seq<Step<T>>)
    requires Inv(c)
    ensures Inv(Run(c, steps))
  {
    if steps != [] {
      RunKeeps(c, steps[..|steps| - 1]);
      StepKeeps(Run(c, steps[..|steps| - 1]), steps[|steps| - 1]);
    }
  }

  /** The channel is a FIFO on every schedule: what is delivered is what was accepted first, unchanged and in order,
      and at most all slots but one are outstanding. */
  lemma Fifo<T>(c: Channel<T>, steps: seq<Step<T>>)
    requires Initial(c)
    ensures var d := Run(c, steps);
            && Inv(d)
            && d.delivered <= d.accepted
            && (|d.accepted| - |d.delivered|) * d.len == Queued(d) <= |d.buf| - d.len
  {
    assert Aligned(c.len, 0);
    assert Slots(c.buf, c.len, 0, 0) == [];
    RunKeeps(c, steps);
    var d := Run(c, steps);
    QueuedStretch(d);
    SlotsFew(d.buf, d.len, TailOf(d), Queued(d), d.head);
  }

  /** Whatever the producer writes while the consumer reads, the reader sees the accepted packet. */
  lemma ReaderUndisturbed<T>(c: Channel<T>)
    requires Inv(c) && c.consumer.Reading? && |c.consumer.got| == c.len
    ensures |c.delivered| < |c.accepted| && c.consumer.got == c.accepted[|c.delivered|]
    ensures c.head + c.len <= c.tail || c.tail + c.len <= c.head
  {
    QueuedStretch(c);
    StretchShrinks(|c.buf|, c.len, c.tail, Queued(c), c.head);
  }

  // ---- What the order of the two reads decides

  /** The decision by the order in which the producer read the tail: x bytes were queued when it was read for the new head,
      y when it was read for the current count. */
  predicate Decides(n: nat, len: nat, newFirst: bool, x: nat, y: nat) {
    if newFirst then x + len < n || y == 0 else x + len < n && y <= x + len
  }

  lemma DecidedByOrder<T>(d: Channel<T>)
    requires Inv(d) && Enabled(d, Commit)
    ensures Accepts(d, d.producer.newTail, d.producer.oldTail)
       <==> Decides(|d.buf|, d.len, d.producer.newFirst, CountSeen(d, d.producer.newTail), CountSeen(d, d.producer.oldTail))
  {
    AcceptsExactly(d, d.producer.newTail, d.producer.oldTail);
  }

  /** On every schedule. With the read for the new head first, a packet is dropped only if the buffer was full then and is
      not seen empty later. With the other one first, it is dropped as well if the consumer has taken more than one packet
      between the two reads, however much room there is. */
  lemma AcceptsByOrder<T>(c: Channel<T>, steps: seq<Step<T>>)
    requires Initial(c) && Enabled(Run(c, steps), Commit)
    ensures var d := Run(c, steps);
            && Positions(d) && d.producer.newTail <= |d.buf| && d.producer.oldTail <= |d.buf|
            && var x, y := CountSeen(d, d.producer.newTail), CountSeen(d, d.producer.oldTail);
               Accepts(d, d.producer.newTail, d.producer.oldTail)
               <==> if d.producer.newFirst then x + d.len < |d.buf| || y == 0 else x + d.len < |d.buf| && y <= x + d.len
  {
    Fifo(c, steps);
    DecidedByOrder(Run(c, steps));
  }

  lemma {:induction false} RunAppends<T>(c: Channel<T>, a: seq<Step<T>>, b: seq<Step<T>>)
    ensures Run(c, a + b) == Run(Run(c, a), b)
    decreases |b|
  {
    if b == [] {
      assert a + b == a;
    } else {
      RunAppends(c, a, b[..|b| - 1]);
      assert (a + b)[..|a + b| - 1] == a + b[..|b| - 1];
    }
  }

  lemma RunOneMore<T>(c: Channel<T>, a: seq<Step<T>>, s: Step<T>)
    ensures Run(c, a + [s]) == Apply(Run(c, a), s)
  {
    assert (a + [s])[..|a + [s]| - 1] == a;
  }

  /** Neither side is in the middle of anything. */
  ghost predicate Quiet<T>(c: Channel<T>) {
    Inv(c) && c.producer.Assembling? && c.consumer.Idle?
  }

  ghost predicate SameBuffer<T>(c: Channel<T>, d: Channel<T>) {
    |d.buf| == |c.buf| && d.len == c.len
  }

  lemma ReadBoth<T>(c: Channel<T>) returns (steps: seq<Step<T>>)
    requires c.producer.Assembling?
    ensures Run(c, steps) == c.(producer := ForBoth(c.tail, c.tail, true))
  {
    steps := [] + [ReadTailForNew];
    RunOneMore(c, [], ReadTailForNew);
    RunOneMore(c, steps, ReadTailForOld);
    steps := steps + [ReadTailForOld];
  }

  lemma CommitAccepts<T>(d: Channel<T>)
    requires Inv(d) && d.producer == ForBoth(d.tail, d.tail, true) && d.consumer.Idle? && Queued(d) + d.len < |d.buf|
    ensures var e := Apply(d, Commit); Quiet(e) && SameBuffer(d, e) && Queued(e) == Queued(d) + d.len
  {
    AcceptsIffRoom(d);
    CommitKeeps(d);
    AcceptedPositions(d);
  }

  /** A packet put into the buffer. */
  lemma PutOne<T>(c: Channel<T>) returns (steps: seq<Step<T>>)
    requires Quiet(c) && Queued(c) + c.len < |c.buf|
    ensures var d := Run(c, steps); Quiet(d) && SameBuffer(c, d) && Queued(d) == Queued(c) + c.len
  {
    steps := ReadBoth(c);
    RunKeeps(c, steps);
    CommitAccepts(Run(c, steps));
    RunOneMore(c, steps, Commit);
    steps := steps + [Commit];
  }

  /** The consumer takes the rest of the first packet. */
  lemma {:induction false} TakeRest<T>(c: Channel<T>) returns (steps: seq<Step<T>>)
    requires Inv(c) && c.consumer.Reading?
    ensures var d := Run(c, steps);
            Inv(d) && d.consumer.Reading? && |d.consumer.got| == c.len && d == c.(consumer := d.consumer)
    decreases c.len - |c.consumer.got|
  {
    if |c.consumer.got| == c.len {
      steps := [];
    } else {
      StepKeeps(c, Take);
      assert Enabled(c, Take);
      var later := TakeRest(Apply(c, Take));
      steps := ([] + [Take]) + later;
      RunOneMore(c, [], Take);
      RunAppends(c, [] + [Take], later);
    }
  }

  /** A packet taken out of the buffer. */
  lemma TakeOne<T>(c: Channel<T>) returns (steps: seq<Step<T>>)
    requires Inv(c) && c.consumer.Idle? && Queued(c) >= c.len
    ensures var d := Run(c, steps);
            Inv(d) && d.consumer.Idle? && SameBuffer(c, d) && Queued(d) == Queued(c) - c.len
            && d.producer == c.producer && d.head == c.head && d.accepted == c.accepted
  {
    StepKeeps(c, Look);
    var looking := Apply(c, Look);
    var later := TakeRest(looking);
    var read := Run(looking, later);
    steps := ([] + [Look]) + later;
    RunOneMore(c, [], Look);
    RunAppends(c, [] + [Look], later);
    AdvancePositions(read);
    RunOneMore(c, steps, Advance);
    RunOneMore(c, steps + [Advance], WrapTail);
    steps := (steps + [Advance]) + [WrapTail];
    RunKeeps(c, steps);
  }

  /** The consumer, left to itself, empties the buffer: everything accepted is delivered. */
  lemma {:induction false} DrainsAlone<T>(c: Channel<T>) returns (steps: seq<Step<T>>)
    requires Inv(c) && c.consumer.Idle?
    ensures var d := Run(c, steps); Inv(d) && Queued(d) == 0 && d.delivered == d.accepted == c.accepted
    decreases Queued(c)
  {
    if Queued(c) == 0 {
      steps := [];
    } else {
      QueuedStretch(c);
      SlotApart(c.len, 0, Queued(c));
      var first := TakeOne(c);
      var later := DrainsAlone(Run(c, first));
      RunAppends(c, first, later);
      steps := first + later;
    }
  }

  /** The drop does happen: in every buffer of three slots or more there is a schedule after which the producer, having
      read the tail for the current count first, drops a packet although the buffer is empty. */
  lemma DropsIntoEmpty<T>(c: Channel<T>) returns (steps: seq<Step<T>>)
    requires Initial(c) && 3 * c.len <= |c.buf|
    ensures var d := Run(c, steps);
            && Inv(d) && Enabled(d, Commit) && !d.producer.newFirst && Queued(d) == 0
            && !Accepts(d, d.producer.newTail, d.producer.oldTail)
  {
    Fifo(c, []);
    var first := PutOne(c);
    var c1 := Run(c, first);
    var second := PutOne(c1);
    RunAppends(c, first, second);
    steps := first + second;
    var c2 := Run(c, steps);
    RunOneMore(c, steps, ReadTailForOld);
    StepKeeps(c2, ReadTailForOld);
    steps := steps + [ReadTailForOld];
    var c3 := Run(c, steps);
    var taken := EmptiedOfTwo(c3);
    RunAppends(c, steps, taken);
    steps := steps + taken;
    var c4 := Run(c, steps);
    RunOneMore(c, steps, ReadTailForNew);
    StepKeeps(c4, ReadTailForNew);
    steps := steps + [ReadTailForNew];
    DropsAfterTwo(Run(c, steps), c2.tail);
  }

  /** The consumer takes two packets. */
  lemma EmptiedOfTwo<T>(c: Channel<T>) returns (steps: seq<Step<T>>)
    requires Inv(c) && c.consumer.Idle? && Queued(c) == 2 * c.len
    ensures var d := Run(c, steps);
            Inv(d) && d.consumer.Idle? && SameBuffer(c, d) && Queued(d) == 0 && d.producer == c.producer && d.head == c.head
  {
    var first := TakeOne(c);
    var second := TakeOne(Run(c, first));
    RunAppends(c, first, second);
    steps := first + second;
  }

  lemma DropsAfterTwo<T>(d: Channel<T>, oldTail: nat)
    requires Inv(d) && d.producer == ForBoth(d.tail, oldTail, false) && Queued(d) == 0
    requires CountSeen(d, oldTail) == 2 * d.len && 3 * d.len <= |d.buf|
    ensures Enabled(d, Commit) && !Accepts(d, d.producer.newTail, d.producer.oldTail)
  {
    AcceptsExactly(d, d.tail, oldTail);
  }
}
