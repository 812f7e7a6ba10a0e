/** The command lists that drivers submit, and what the controller's interpreter makes of them. */
module Requests {
  import opened Options
  import opened PortReads

  const ACK: Byte := 0xFA
  const GET_COMMAND_BYTE: Byte := 0x20
  const SET_COMMAND_BYTE: Byte := 0x60
  const TRANSMIT_TO_MOUSE: Byte := 0xD4
  const TRANSMIT_TO_MUXED_MOUSE: Byte := 0x90
  const READ_TIMEOUT := 20000
  const EXPECT_TIMEOUT := 10000
  const UINT32 := 0x1_0000_0000

  datatype Command =
    | ReadDataPort(inOrOut: Byte)
    | ReadDataPortAndCompare(inOrOut: Byte)
    | WriteDataPort(inOrOut: Byte)
    | SendCommandAndCompareAck(inOrOut: Byte)
    | FlushDataPort(inOrOut32: nat)
    | SleepMS(inOrOut32: nat)
    | ModifyCommandByte(setBits: Byte, clearBits: Byte, oldBits: Byte)

  /** The answers still to come, the polls made so far, and what the controller did. */
  datatype Io = Io(pending: seq<Answer>, polls: nat, log: seq<Event>)

  function Log(io: Io, e: Event): Io {
    io.(log := io.log + [e])
  }

  /** A byte for the device at a port: the controller is told first if it is not the keyboard. */
  function Transmit(mux: bool, port: nat, io: Io, b: Byte): Io {
    var announced :=
      if port < AUX then io
      else Log(io, CommandOut(io.polls, if mux then TRANSMIT_TO_MUXED_MOUSE + ((port - AUX) % 256) as Byte else TRANSMIT_TO_MOUSE));
    Log(announced, DataOut(io.polls, b))
  }

  function After(io: Io, r: Reading): Io {
    Io(r.rest, r.polls, io.log + r.events)
  }

  function Any(m: Mode, port: nat, io: Io): Reading {
    ReadAny(m, port, io.pending, READ_TIMEOUT, io.polls)
  }

  function Expecting(m: Mode, port: nat, io: Io, expected: Byte): Reading {
    ReadExpecting(m, port, expected, None, io.pending, EXPECT_TIMEOUT, io.polls)
  }

  /** Bytes that are ready without waiting. */
  function Waiting(p: seq<Answer>): (n: nat)
    ensures n <= |p|
  {
    if p != [] && Ready(p[0]) then 1 + Waiting(p[1..]) else 0
  }

  /** The answers left once the bytes that wait were thrown away and one poll said "not ready". */
  function Flushed(io: Io): Io {
    var n := Waiting(io.pending);
    Io(io.pending[(if n < |io.pending| then n + 1 else n)..], io.polls + n + 1, io.log)
  }

  function Modified(old_: Byte, setBits: Byte, clearBits: Byte): Byte {
    (old_ | setBits) & !clearBits
  }

  datatype Outcome = Outcome(command: Command, io: Io, failed: bool)

  function Execute(m: Mode, port: nat, io: Io, c: Command): Outcome {
    match c
    case ReadDataPort(_) =>
      var r := Any(m, port, io);
      Outcome(ReadDataPort(r.byte), After(io, r), false)
    case ReadDataPortAndCompare(expected) =>
      var r := Expecting(m, port, io, expected);
      Outcome(ReadDataPortAndCompare(r.byte), After(io, r), r.byte != expected)
    case WriteDataPort(b) =>
      Outcome(c, Transmit(m.mux, port, io, b), false)
    case SendCommandAndCompareAck(b) =>
      var sent := Transmit(m.mux, port, io, b);
      var r := Expecting(m, port, sent, ACK);
      Outcome(c, After(sent, r), r.byte != ACK)
    case FlushDataPort(_) =>
      Outcome(FlushDataPort(Waiting(io.pending) % UINT32), Flushed(io), false)
    case SleepMS(ms) =>
      Outcome(c, Log(io, Pause(io.polls, ms)), false)
    case ModifyCommandByte(setBits, clearBits, _) =>
      var asked := Log(io, CommandOut(io.polls, GET_COMMAND_BYTE));
      var r := Any(m, KBD, asked);
      var told := Log(After(asked, r), CommandOut(r.polls, SET_COMMAND_BYTE));
      Outcome(ModifyCommandByte(setBits, clearBits, r.byte), Log(told, DataOut(r.polls, Modified(r.byte, setBits, clearBits))), false)
  }

  /** The commands with their results, and the index of the one that failed. */
  datatype Run = Run(commands: seq<Command>, io: Io, failed: Option<nat>)

  function Later(failed: Option<nat>): Option<nat> {
    if failed.Some? then Some(failed.value + 1) else None
  }

  function RunAll(m: Mode, port: nat, io: Io, cs: seq<Command>): (r: Run)
    ensures |r.commands| == |cs|
    ensures r.failed.Some? ==> r.failed.value < |cs|
    decreases |cs|
  {
    if cs == [] then Run([], io, None)
    else
      var first := Execute(m, port, io, cs[0]);
      if first.failed then Run([first.command] + cs[1..], first.io, Some(0))
      else
        var r := RunAll(m, port, first.io, cs[1..]);
        Run([first.command] + r.commands, r.io, Later(r.failed))
  }

  /** The commands are of the same kind, with the same input if it is not where the result goes. */
  predicate SameKind(a: Command, b: Command) {
    match a
    case ReadDataPort(_) => b.ReadDataPort?
    case ReadDataPortAndCompare(_) => b.ReadDataPortAndCompare?
    case WriteDataPort(x) => b == a
    case SendCommandAndCompareAck(_) => b.SendCommandAndCompareAck?
    case FlushDataPort(_) => b.FlushDataPort?
    case SleepMS(_) => b == a
    case ModifyCommandByte(set_, clear, _) => b.ModifyCommandByte? && b.setBits == set_ && b.clearBits == clear
  }

  lemma ExecuteKeepsKind(m: Mode, port: nat, io: Io, c: Command)
    ensures SameKind(c, Execute(m, port, io, c).command)
  {
  }

  /** Every command keeps its place and its kind. */
  lemma {:induction false} RunKeepsKinds(m: Mode, port: nat, io: Io, cs: seq<Command>)
    ensures var r := RunAll(m, port, io, cs); forall k :: 0 <= k < |cs| ==> SameKind(cs[k], r.commands[k])
    decreases |cs|
  {
    if cs != [] {
      ExecuteKeepsKind(m, port, io, cs[0]);
      var first := Execute(m, port, io, cs[0]);
      if !first.failed {
        RunKeepsKinds(m, port, first.io, cs[1..]);
      }
    }
  }

  // ---- A failing command stops the request

  /** The commandsCount left in a request. */
  function CountAfter(count: nat, r: Run): nat {
    if r.failed.Some? then r.failed.value else count
  }

  /** The command does not fail after those before it were run. */
  predicate SucceedsAt(m: Mode, port: nat, io: Io, cs: seq<Command>, k: nat)
    requires k < |cs|
  {
    !Execute(m, port, RunAll(m, port, io, cs[..k]).io, cs[k]).failed
  }

  lemma SucceedsLater(m: Mode, port: nat, io: Io, cs: seq<Command>, k: nat)
    requires 0 < k < |cs| && !Execute(m, port, io, cs[0]).failed
    ensures SucceedsAt(m, port, io, cs, k) == SucceedsAt(m, port, Execute(m, port, io, cs[0]).io, cs[1..], k - 1)
  {
    assert cs[..k][1..] == cs[1..][..k - 1];
  }

  /** The count left in a non-empty request is unchanged iff every command succeeded; otherwise it is the index of the
      first one that did not. */
  lemma {:induction false} CountNamesTheFailure(m: Mode, port: nat, io: Io, cs: seq<Command>)
    requires cs != []
    ensures var count := CountAfter(|cs|, RunAll(m, port, io, cs));
            && count <= |cs|
            && (forall k :: 0 <= k < count ==> SucceedsAt(m, port, io, cs, k))
            && (count < |cs| ==> !SucceedsAt(m, port, io, cs, count))
    decreases |cs|
  {
    var first, count := Execute(m, port, io, cs[0]), CountAfter(|cs|, RunAll(m, port, io, cs));
    if !first.failed && |cs| > 1 {
      CountNamesTheFailure(m, port, first.io, cs[1..]);
      forall k | 0 < k <= count && k < |cs|
        ensures SucceedsAt(m, port, io, cs, k) == (k < count)
      {
        SucceedsLater(m, port, io, cs, k);
      }
    }
  }

  /** Commands behind the failing one are neither run nor changed, and those before it all succeeded. */
  lemma {:induction false} LaterCommandsDoNothing(m: Mode, port: nat, io: Io, cs: seq<Command>)
    requires RunAll(m, port, io, cs).failed.Some?
    ensures var r := RunAll(m, port, io, cs); var i := r.failed.value;
            && RunAll(m, port, io, cs[..i]).failed.None?
            && Execute(m, port, RunAll(m, port, io, cs[..i]).io, cs[i]) == Outcome(r.commands[i], r.io, true)
            && r.commands == RunAll(m, port, io, cs[..i]).commands + [r.commands[i]] + cs[i + 1..]
    decreases |cs|
  {
    var first := Execute(m, port, io, cs[0]);
    var r := RunAll(m, port, io, cs);
    if !first.failed {
      LaterCommandsDoNothing(m, port, first.io, cs[1..]);
      var i := r.failed.value;
      assert cs[..i][1..] == cs[1..][..i - 1];
    }
  }

  /** On success every comparison found the byte it was given. */
  lemma {:induction false} SuccessMeansMatched(m: Mode, port: nat, io: Io, cs: seq<Command>, k: nat)
    requires RunAll(m, port, io, cs).failed.None? && k < |cs| && cs[k].ReadDataPortAndCompare?
    ensures RunAll(m, port, io, cs).commands[k] == cs[k]
    decreases |cs|
  {
    if k > 0 {
      SuccessMeansMatched(m, port, Execute(m, port, io, cs[0]).io, cs[1..], k - 1);
    }
  }

  // ---- The composite command

  /** The sequence that a composite command stands for. */
  function ExpandOne(c: Command): seq<Command> {
    if c.SendCommandAndCompareAck? then [WriteDataPort(c.inOrOut), ReadDataPortAndCompare(ACK)] else [c]
  }

  function Expand(cs: seq<Command>): seq<Command> {
    if cs == [] then [] else ExpandOne(cs[0]) + Expand(cs[1..])
  }

  /** Where command i of the list fails in the expanded list. */
  function ExpandedIndex(cs: seq<Command>, i: nat): nat
    requires i < |cs|
  {
    |Expand(cs[..i])| + if cs[i].SendCommandAndCompareAck? then 1 else 0
  }

  /** The results are the same, command by command. */
  predicate SameResults(cs: seq<Command>, done: seq<Command>, expanded: seq<Command>)
    requires |done| == |cs|
  {
    if cs == [] then expanded == []
    else if cs[0].SendCommandAndCompareAck? then
      && |expanded| >= 2 && done[0] == cs[0] && expanded[0] == WriteDataPort(cs[0].inOrOut)
      && expanded[1].ReadDataPortAndCompare? && SameResults(cs[1..], done[1..], expanded[2..])
    else |expanded| >= 1 && done[0] == expanded[0] && SameResults(cs[1..], done[1..], expanded[1..])
  }

  /** Running the two commands that a composite one stands for. */
  lemma RunPair(m: Mode, port: nat, io: Io, b: Byte, rest: seq<Command>)
    ensures var o := Execute(m, port, io, SendCommandAndCompareAck(b));
            var pair := [WriteDataPort(b), ReadDataPortAndCompare(ACK)] + rest;
            var byte := Expecting(m, port, Transmit(m.mux, port, io, b), ACK).byte;
            RunAll(m, port, io, pair) ==
            if o.failed then Run([WriteDataPort(b), ReadDataPortAndCompare(byte)] + rest, o.io, Some(1))
            else
              var r := RunAll(m, port, o.io, rest);
              Run([WriteDataPort(b), ReadDataPortAndCompare(byte)] + r.commands, r.io, Later(Later(r.failed)))
  {
    var pair := [WriteDataPort(b), ReadDataPortAndCompare(ACK)] + rest;
    assert pair[1..] == [ReadDataPortAndCompare(ACK)] + rest;
    assert pair[1..][1..] == rest;
  }

  lemma {:induction false} UnrunIsSame(cs: seq<Command>)
    ensures SameResults(cs, cs, Expand(cs))
  {
    if cs != [] {
      UnrunIsSame(cs[1..]);
      assert Expand(cs)[|ExpandOne(cs[0])|..] == Expand(cs[1..]);
    }
  }

  /** Expanding preserves everything the device and the drivers can see, against every device. */
  lemma {:induction false} ExpandingIsFaithful(m: Mode, port: nat, io: Io, cs: seq<Command>)
    ensures RunAll(m, port, io, Expand(cs)).io == RunAll(m, port, io, cs).io
    decreases |cs|
  {
    if cs != [] {
      var first := Execute(m, port, io, cs[0]);
      ExpandingIsFaithful(m, port, first.io, cs[1..]);
      if cs[0].SendCommandAndCompareAck? {
        RunPair(m, port, io, cs[0].inOrOut, Expand(cs[1..]));
      } else {
        assert Expand(cs)[1..] == Expand(cs[1..]);
      }
    }
  }

  /** Expanding preserves success, and the failing commands correspond. */
  lemma {:induction false} ExpandingFailsAlike(m: Mode, port: nat, io: Io, cs: seq<Command>)
    ensures var r, x := RunAll(m, port, io, cs), RunAll(m, port, io, Expand(cs));
            x.failed == if r.failed.Some? then Some(ExpandedIndex(cs, r.failed.value)) else None
    decreases |cs|
  {
    if cs != [] {
      var first := Execute(m, port, io, cs[0]);
      ExpandingFailsAlike(m, port, first.io, cs[1..]);
      if cs[0].SendCommandAndCompareAck? {
        RunPair(m, port, io, cs[0].inOrOut, Expand(cs[1..]));
      } else {
        assert Expand(cs)[1..] == Expand(cs[1..]);
      }
      var r := RunAll(m, port, io, cs);
      if r.failed.Some? && r.failed.value > 0 {
        assert cs[..r.failed.value][1..] == cs[1..][..r.failed.value - 1];
      }
    }
  }

  /** Expanding preserves every result that was read. */
  lemma {:induction false} ExpandingReadsAlike(m: Mode, port: nat, io: Io, cs: seq<Command>)
    ensures SameResults(cs, RunAll(m, port, io, cs).commands, RunAll(m, port, io, Expand(cs)).commands)
    decreases |cs|
  {
    if cs != [] {
      var first := Execute(m, port, io, cs[0]);
      var r, x := RunAll(m, port, io, cs), RunAll(m, port, io, Expand(cs));
      ExpandingReadsAlike(m, port, first.io, cs[1..]);
      UnrunIsSame(cs[1..]);
      if cs[0].SendCommandAndCompareAck? {
        RunPair(m, port, io, cs[0].inOrOut, Expand(cs[1..]));
      } else {
        assert Expand(cs)[1..] == Expand(cs[1..]);
      }
    }
  }

  // ---- Bytes of other ports over a whole request

  /** All that came from a port between two moments was handed to its driver, in order. */
  predicate PassedOn(m: Mode, q: nat, io: Io, after: Io) {
    && UsesPrefix(io.pending, after.pending)
    && HandedTo(q, after.log) == HandedTo(q, io.log) + SentTo(m, q, Used(io.pending, after.pending))
  }

  lemma {:induction false} HandedToAppends(q: nat, a: seq<Event>, b: seq<Event>)
    ensures HandedTo(q, a + b) == HandedTo(q, a) + HandedTo(q, b)
  {
    if a == [] {
      assert a + b == b;
    } else {
      HandedToAppends(q, a[1..], b);
      assert (a + b)[1..] == a[1..] + b && (a + b)[0] == a[0];
      if a[0].Dispatch? {
        Reassociate([a[0].byte], HandedTo(q, a[1..]), HandedTo(q, b));
      }
    }
  }

  lemma {:induction false} SentToAppends(m: Mode, q: nat, a: seq<Answer>, b: seq<Answer>)
    ensures SentTo(m, q, a + b) == SentTo(m, q, a) + SentTo(m, q, b)
  {
    if a == [] {
      assert a + b == b;
    } else {
      hide PortFromStatus;
      SentToAppends(m, q, a[1..], b);
      assert (a + b)[1..] == a[1..] + b && (a + b)[0] == a[0];
      Reassociate([a[0].data], SentTo(m, q, a[1..]), SentTo(m, q, b));
    }
  }

  lemma Reassociate(a: seq<Byte>, b: seq<Byte>, c: seq<Byte>)
    ensures a + (b + c) == (a + b) + c
  {
  }

  lemma UsedTwice(a: seq<Answer>, b: seq<Answer>, c: seq<Answer>)
    requires UsesPrefix(a, b) && UsesPrefix(b, c)
    ensures UsesPrefix(a, c) && Used(a, c) == Used(a, b) + Used(b, c)
  {
  }

  lemma PassedOnTwice(m: Mode, q: nat, a: Io, b: Io, c: Io)
    requires PassedOn(m, q, a, b) && PassedOn(m, q, b, c)
    ensures PassedOn(m, q, a, c)
  {
    UsedTwice(a.pending, b.pending, c.pending);
    SentToAppends(m, q, Used(a.pending, b.pending), Used(b.pending, c.pending));
    Reassociate(HandedTo(q, a.log), SentTo(m, q, Used(a.pending, b.pending)), SentTo(m, q, Used(b.pending, c.pending)));
    hide Used, SentTo, HandedTo, UsesPrefix;
  }

  /** An entry that is no hand-out. */
  lemma PassedOnLogged(m: Mode, q: nat, io: Io, e: Event)
    requires !e.Dispatch?
    ensures PassedOn(m, q, io, Log(io, e))
  {
    HandedToAppends(q, io.log, [e]);
    assert Used(io.pending, io.pending) == [];
  }

  lemma PassedOnRead(m: Mode, q: nat, io: Io, r: Reading)
    requires UsesPrefix(io.pending, r.rest) && HandedTo(q, r.events) == SentTo(m, q, Used(io.pending, r.rest))
    ensures PassedOn(m, q, io, After(io, r))
  {
    HandedToAppends(q, io.log, r.events);
  }

  lemma PassedOnTransmit(m: Mode, q: nat, port: nat, io: Io, b: Byte)
    ensures PassedOn(m, q, io, Transmit(m.mux, port, io, b))
  {
    if port < AUX {
      PassedOnLogged(m, q, io, DataOut(io.polls, b));
    } else {
      var prefix := if m.mux then TRANSMIT_TO_MUXED_MOUSE + ((port - AUX) % 256) as Byte else TRANSMIT_TO_MOUSE;
      var announced := Log(io, CommandOut(io.polls, prefix));
      PassedOnLogged(m, q, io, CommandOut(io.polls, prefix));
      PassedOnLogged(m, q, announced, DataOut(io.polls, b));
      PassedOnTwice(m, q, io, announced, Transmit(m.mux, port, io, b));
    }
  }

  lemma PassedOnAny(m: Mode, q: nat, port: nat, io: Io)
    requires !m.suppress && q != port
    ensures PassedOn(m, q, io, After(io, Any(m, port, io)))
  {
    ReadAnyUsesPrefix(m, port, io.pending, READ_TIMEOUT, io.polls);
    ReadAnyPassesOn(m, port, io.pending, READ_TIMEOUT, io.polls, q);
    PassedOnRead(m, q, io, Any(m, port, io));
  }

  lemma PassedOnExpecting(m: Mode, q: nat, port: nat, io: Io, expected: Byte)
    requires q != port
    ensures PassedOn(m, q, io, After(io, Expecting(m, port, io, expected)))
  {
    ReadExpectingUsesPrefix(m, port, expected, None, io.pending, EXPECT_TIMEOUT, io.polls);
    ReadExpectingPassesOn(m, port, expected, None, io.pending, EXPECT_TIMEOUT, io.polls, q);
    PassedOnRead(m, q, io, Expecting(m, port, io, expected));
  }

  /** The command does not read port q for itself. */
  predicate Spares(q: nat, port: nat, c: Command) {
    q != port && !c.FlushDataPort? && (c.ModifyCommandByte? ==> q != KBD)
  }

  lemma ModifyPassesOn(m: Mode, q: nat, io: Io, port: nat, c: Command)
    requires !m.suppress && q != KBD && c.ModifyCommandByte?
    ensures PassedOn(m, q, io, Execute(m, port, io, c).io)
  {
    var asked := Log(io, CommandOut(io.polls, GET_COMMAND_BYTE));
    var r := Any(m, KBD, asked);
    var read := After(asked, r);
    var told := Log(read, CommandOut(r.polls, SET_COMMAND_BYTE));
    var last := DataOut(r.polls, Modified(r.byte, c.setBits, c.clearBits));
    PassedOnLogged(m, q, io, CommandOut(io.polls, GET_COMMAND_BYTE));
    PassedOnAny(m, q, KBD, asked);
    PassedOnTwice(m, q, io, asked, read);
    PassedOnLogged(m, q, read, CommandOut(r.polls, SET_COMMAND_BYTE));
    PassedOnTwice(m, q, io, read, told);
    PassedOnLogged(m, q, told, last);
    PassedOnTwice(m, q, io, told, Log(told, last));
  }

  lemma ExecutePassesOn(m: Mode, q: nat, port: nat, io: Io, c: Command)
    requires !m.suppress && Spares(q, port, c)
    ensures PassedOn(m, q, io, Execute(m, port, io, c).io)
  {
    match c
    case ReadDataPort(_) => PassedOnAny(m, q, port, io);
    case ReadDataPortAndCompare(expected) => PassedOnExpecting(m, q, port, io, expected);
    case WriteDataPort(b) => PassedOnTransmit(m, q, port, io, b);
    case SendCommandAndCompareAck(b) =>
      var sent := Transmit(m.mux, port, io, b);
      PassedOnTransmit(m, q, port, io, b);
      PassedOnExpecting(m, q, port, sent, ACK);
      PassedOnTwice(m, q, io, sent, After(sent, Expecting(m, port, sent, ACK)));
    case SleepMS(ms) => PassedOnLogged(m, q, io, Pause(io.polls, ms));
    case ModifyCommandByte(_, _, _) => ModifyPassesOn(m, q, io, port, c);
  }

  /** Other devices lose nothing while a request is processed: their drivers get all of their bytes in order. */
  lemma {:induction false} RequestPassesOn(m: Mode, q: nat, port: nat, io: Io, cs: seq<Command>)
    requires !m.suppress && forall k :: 0 <= k < |cs| ==> Spares(q, port, cs[k])
    ensures PassedOn(m, q, io, RunAll(m, port, io, cs).io)
    decreases |cs|
  {
    if cs == [] {
      assert Used(io.pending, io.pending) == [];
    } else {
      var first := Execute(m, port, io, cs[0]);
      ExecutePassesOn(m, q, port, io, cs[0]);
      if !first.failed {
        RequestPassesOn(m, q, port, first.io, cs[1..]);
        PassedOnTwice(m, q, io, first.io, RunAll(m, port, io, cs).io);
      }
    }
  }
}
