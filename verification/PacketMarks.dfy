/** What the framer makes of a stream, said of the bytes themselves: which packets it frames, and when it gives up. */
module PacketMarks {
  import opened Numbers
  import opened ByteMasks
  import opened PacketFramer

  // ---- The marks as masks

  /** A six-byte packet with the marks of the protocol. */
  predicate Marked(p: seq<Byte>) {
    |p| == 6 && And(p[0], 0xC8) == 0x80 && And(p[3], 0xC8) == 0xC0
  }

  lemma StartMask(d: Byte)
    ensures StartsPacket(d) <==> And(d, 0xC8) == 0x80
  {
    hide And;
    MarkBits(d);
  }

  lemma ContinueMask(d: Byte)
    ensures ContinuesPacket(d) <==> And(d, 0xC8) == 0xC0
  {
    hide And;
    MarkBits(d);
  }

  // ---- One packet

  /** The byte 0 comes right after 0xAA, which the pad sends when it was reset. */
  ghost predicate Resets(before: Byte, bytes: seq<Byte>) {
    exists k :: 0 <= k < |bytes| && bytes[k] == 0 && (if k == 0 then before else bytes[k - 1]) == 0xAA
  }

  lemma FrameMore(stream: seq<Byte>, d: Byte)
    ensures Frame(stream + [d]) == FrameOn(Frame(stream), d, |stream|)
  {
    assert (stream + [d])[..|stream|] == stream;
  }

  lemma NextByte(f: Framing, d: Byte, n: nat)
    requires !(f.last == RESET && d == 0) && |f.partial| < 5
    requires (f.partial == [] ==> StartsPacket(d)) && (|f.partial| == 3 ==> ContinuesPacket(d))
    ensures FrameOn(f, d, n) == Framing(f.partial + [d], d, f.slots)
  {
  }

  /** The first k bytes of a packet, after a stream that has nothing left over. */
  lemma {:induction false} PacketGrows(stream: seq<Byte>, p: seq<Byte>, k: nat)
    requires Frame(stream).partial == [] && Marked(p) && !Resets(Frame(stream).last, p) && k < 6
    ensures Frame(stream + p[..k]) == Framing(p[..k], if k == 0 then Frame(stream).last else p[k - 1], Frame(stream).slots)
  {
    hide And, Frame, FrameOn, EventOf, StartsPacket, ContinuesPacket;
    if k == 0 {
      assert stream + p[..k] == stream;
    } else {
      PacketGrows(stream, p, k - 1);
      var before := stream + p[..k - 1];
      assert stream + p[..k] == before + [p[k - 1]];
      FrameMore(before, p[k - 1]);
      StartMask(p[0]);
      ContinueMask(p[3]);
      NextByte(Frame(before), p[k - 1], |before|);
      assert p[..k] == p[..k - 1] + [p[k - 1]];
    }
  }

  /** After a stream with nothing left over, a marked packet that holds no reset is the next slot, and nothing is left over
      again. */
  lemma PacketIsFramed(stream: seq<Byte>, p: seq<Byte>)
    requires Frame(stream).partial == [] && Marked(p) && !Resets(Frame(stream).last, p)
    ensures Frame(stream + p) == Framing([], p[5], Frame(stream).slots + [Framed(Normal(p), |stream| + 6)])
  {
    hide And;
    PacketGrows(stream, p, 5);
    var before := stream + p[..5];
    assert stream + p == before + [p[5]];
    FrameMore(before, p[5]);
    assert p[..5] + [p[5]] == p;
  }

  // ---- A stream of packets

  function Concat(ps: seq<seq<Byte>>): seq<Byte> {
    if ps == [] then [] else Concat(ps[..|ps| - 1]) + ps[|ps| - 1]
  }

  ghost predicate AllMarked(ps: seq<seq<Byte>>) {
    forall k :: 0 <= k < |ps| ==> Marked(ps[k])
  }

  /** No two bytes in a row are 0xAA and 0. */
  ghost predicate NoReset(stream: seq<Byte>) {
    forall i :: 0 < i < |stream| && stream[i - 1] == 0xAA ==> stream[i] != 0
  }

  lemma {:induction false} ConcatLength(ps: seq<seq<Byte>>)
    requires AllMarked(ps)
    ensures |Concat(ps)| == 6 * |ps|
  {
    hide And;
    if ps != [] {
      ConcatLength(ps[..|ps| - 1]);
      assert Marked(ps[|ps| - 1]);
    }
  }

  lemma NoResetInLast(before: seq<Byte>, p: seq<Byte>)
    requires NoReset(before + p)
    ensures NoReset(before) && (before != [] ==> !Resets(before[|before| - 1], p)) && (before == [] ==> !Resets(0, p))
  {
    var all := before + p;
    forall i | 0 < i < |before| && before[i - 1] == 0xAA
      ensures before[i] != 0
    {
      assert all[i] == before[i] && all[i - 1] == before[i - 1];
    }
    forall k | 0 <= k < |p| && p[k] == 0
      ensures k > 0 ==> p[k - 1] != 0xAA
      ensures k == 0 && before != [] ==> before[|before| - 1] != 0xAA
    {
      assert all[|before| + k] == p[k];
      if k > 0 {
        assert all[|before| + k - 1] == p[k - 1];
      } else if before != [] {
        assert all[|before| - 1] == before[|before| - 1];
      }
    }
  }

  /** Every list of marked packets without a reset is framed packet by packet: packet k is slot k and ends at 6(k + 1). */
  lemma {:induction false} PacketsAreFramed(ps: seq<seq<Byte>>)
    requires AllMarked(ps) && NoReset(Concat(ps))
    ensures var f := Frame(Concat(ps));
            && f.partial == [] && |f.slots| == |ps|
            && (forall k :: 0 <= k < |ps| ==> f.slots[k] == Framed(Normal(ps[k]), 6 * (k + 1)))
            && f.last == if ps == [] then 0 else ps[|ps| - 1][5]
  {
    hide And;
    if ps != [] {
      var before, p := ps[..|ps| - 1], ps[|ps| - 1];
      NoResetInLast(Concat(before), p);
      PacketsAreFramed(before);
      ConcatLength(before);
      assert Marked(p);
      if before != [] {
        LastOfConcat(before);
      }
      PacketIsFramed(Concat(before), p);
    }
  }

  lemma LastOfConcat(ps: seq<seq<Byte>>)
    requires ps != [] && AllMarked(ps)
    ensures Concat(ps) != [] && Concat(ps)[|Concat(ps)| - 1] == ps[|ps| - 1][5]
  {
    hide And;
    assert Marked(ps[|ps| - 1]);
  }

  // ---- Where it gives up

  /** 0xAA and 0 end in a note of the reset, whatever came before, and nothing is left over. */
  lemma ResetIsNoted(stream: seq<Byte>)
    ensures var f := Frame(stream + [0xAA] + [0]);
            && f.partial == [] && f.slots != []
            && f.slots[|f.slots| - 1] == Framed(Note(0xAA), |stream| + 2)
  {
    FrameMore(stream, 0xAA);
    FrameMore(stream + [0xAA], 0);
  }

  function Zeros(n: nat): seq<Byte> {
    if n == 0 then [] else Zeros(n - 1) + [0]
  }

  /** And so does every further 0 that follows directly. */
  lemma {:induction false} ZerosAreNoted(stream: seq<Byte>, n: nat)
    requires n > 0
    ensures var f := Frame(stream + [0xAA] + Zeros(n));
            && f.partial == [] && f.last == 0xAA && f.slots != []
            && f.slots[|f.slots| - 1] == Framed(Note(0xAA), |stream| + 1 + n)
            && |f.slots| == |Frame(stream + [0xAA]).slots| + n
  {
    hide Frame, FrameOn, EventOf;
    var before := stream + [0xAA] + Zeros(n - 1);
    ZerosLength(n - 1);
    assert stream + [0xAA] + Zeros(n) == before + [0];
    if n == 1 {
      assert before == stream + [0xAA];
      FrameMore(stream, 0xAA);
      AfterAA(Frame(stream), |stream|);
    } else {
      ZerosAreNoted(stream, n - 1);
    }
    FrameMore(before, 0);
    ResetAgain(Frame(before), |before|);
  }

  lemma AfterAA(f: Framing, n: nat)
    ensures FrameOn(f, 0xAA, n).last == 0xAA
  {
  }

  lemma ResetAgain(f: Framing, n: nat)
    requires f.last == 0xAA
    ensures FrameOn(f, 0, n) == Framing([], 0xAA, f.slots + [Framed(Note(0xAA), n + 1)])
  {
  }

  lemma {:induction false} ZerosLength(n: nat)
    ensures |Zeros(n)| == n
  {
    if n > 0 {
      ZerosLength(n - 1);
    }
  }

  /** A byte that starts no packet, with nothing left over, is noted by itself. */
  lemma StrayIsNoted(stream: seq<Byte>, d: Byte)
    requires Frame(stream).partial == [] && And(d, 0xC8) != 0x80 && !(Frame(stream).last == 0xAA && d == 0)
    ensures Frame(stream + [d]) == Framing([], d, Frame(stream).slots + [Framed(Note(0), |stream| + 1)])
  {
    hide And;
    FrameMore(stream, d);
    StartMask(d);
  }

  /** A fourth byte without its mark gives up the three before it. */
  lemma BrokenIsNoted(stream: seq<Byte>, d: Byte)
    requires |Frame(stream).partial| == 3 && And(d, 0xC8) != 0xC0 && !(Frame(stream).last == 0xAA && d == 0)
    ensures Frame(stream + [d]) == Framing([], d, Frame(stream).slots + [Framed(Note(3), |stream| + 1)])
  {
    hide And;
    FrameMore(stream, d);
    ContinueMask(d);
  }

  // ---- How much the ring holds

  function AllBytes(stream: seq<Byte>): seq<Action> {
    if stream == [] then [] else AllBytes(stream[..|stream| - 1]) + [Receive(stream[|stream| - 1])]
  }

  lemma {:induction false} BytesOfAll(stream: seq<Byte>)
    ensures Bytes(AllBytes(stream)) == stream
  {
    if stream != [] {
      BytesOfAll(stream[..|stream| - 1]);
      assert stream[..|stream| - 1] + [stream[|stream| - 1]] == stream;
    }
  }

  /** The first 31 of some slots. */
  function Held(slots: seq<Slot>): seq<Slot> {
    if |slots| <= 31 then slots else slots[..31]
  }

  lemma DeliversNothing(s: System, d: Byte)
    requires s.delivered == []
    ensures Act(s, Receive(d)).delivered == []
    ensures Through(s) == s.framer.queue && Through(Act(s, Receive(d))) == Act(s, Receive(d)).framer.queue
  {
  }

  lemma HoldsOneMore(slots: seq<Slot>, x: Slot)
    ensures Held(slots + [x]) == if |Held(slots)| < 31 then Held(slots) + [x] else Held(slots)
  {
  }

  lemma ReceiveHolds(s: System, stream: seq<Byte>, d: Byte)
    requires s.delivered == [] && InStep(s, Frame(stream)) && s.framer.queue == Held(SlotsOf(Frame(stream).slots))
    ensures var after, f := Act(s, Receive(d)), Frame(stream + [d]);
            after.delivered == [] && InStep(after, f) && after.framer.queue == Held(SlotsOf(f.slots))
  {
    hide Frame, SlotsOf, EventOf, OnByte, Held, Through, InStep, Act;
    ReceiveFrames(s, stream, d);
    DeliversNothing(s, d);
    var e := EventOf(Frame(stream).partial, Frame(stream).last, d);
    if e.Complete? {
      HoldsOneMore(SlotsOf(Frame(stream).slots), e.slot);
    }
  }

  lemma OneByteMore(before: seq<Byte>, d: Byte)
    ensures AllBytes(before + [d]) == AllBytes(before) + [Receive(d)]
  {
    assert (before + [d])[..|before|] == before;
  }

  lemma ReceivesLast(before: seq<Byte>, d: Byte)
    ensures Run(AllBytes(before + [d])) == Act(Run(AllBytes(before)), Receive(d))
  {
    hide *;
    OneByteMore(before, d);
    RunsOneMore(AllBytes(before), Receive(d));
  }

  lemma RunsOneMore(actions: seq<Action>, a: Action)
    ensures Run(actions + [a]) == Act(Run(actions), a)
  {
    hide Act;
    assert (actions + [a])[..|actions|] == actions;
  }

  lemma NothingReceived()
    ensures Run(AllBytes([])).delivered == [] && InStep(Run(AllBytes([])), Frame([]))
    ensures Run(AllBytes([])).framer.queue == Held(SlotsOf(Frame([]).slots))
  {
  }

  /** While nothing is delivered the ring keeps the first 31 slots that the stream frames, and drops the others. */
  lemma {:induction false} RingHolds31(stream: seq<Byte>)
    ensures var s := Run(AllBytes(stream));
            s.delivered == [] && InStep(s, Frame(stream)) && s.framer.queue == Held(SlotsOf(Frame(stream).slots))
  {
    hide *;
    if stream == [] {
      NothingReceived();
    } else {
      var before, d := stream[..|stream| - 1], stream[|stream| - 1];
      assert stream == before + [d];
      RingHolds31(before);
      ReceivesLast(before, d);
      ReceiveHolds(Run(AllBytes(before)), before, d);
    }
  }

  // ---- What reaches the parser

  lemma {:induction false} NormalsComeBack(slots: seq<Framed>, ps: seq<seq<Byte>>)
    requires |slots| == |ps| && forall k :: 0 <= k < |ps| ==> slots[k].slot == Normal(ps[k])
    ensures NormalsOf(SlotsOf(slots)) == ps && |SlotsOf(slots)| == |ps|
  {
    if ps != [] {
      var n := |ps| - 1;
      NormalsComeBack(slots[..n], ps[..n]);
      var before := SlotsOf(slots[..n]);
      assert (before + [slots[n].slot])[..n] == before;
      assert ps == ps[..n] + [ps[n]];
    }
  }

  /** Up to 31 packets with their marks, received while nothing is delivered, are what is then handed on to be parsed, each
      of them once and in order; or nothing, if the driver ignores its input. */
  lemma PacketsReachParser(ps: seq<seq<Byte>>)
    requires AllMarked(ps) && NoReset(Concat(ps)) && |ps| <= 31
    ensures var queue := Run(AllBytes(Concat(ps))).framer.queue;
            Parsed(false, queue) == ps && Parsed(true, queue) == []
  {
    hide And;
    PacketsAreFramed(ps);
    RingHolds31(Concat(ps));
    NormalsComeBack(Frame(Concat(ps)).slots, ps);
  }

  /** Notes are not handed on. */
  lemma NotesAreKeptBack(queue: seq<Slot>, reason: Byte)
    ensures Parsed(false, queue + [Note(reason)]) == Parsed(false, queue)
  {
    assert (queue + [Note(reason)])[..|queue|] == queue;
  }
}
