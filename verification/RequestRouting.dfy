/** A request as the 8042 and the devices see it: which device each byte goes to, and what each command brings back. */
module RequestRouting {
  import opened Options
  import opened PortReads
  import opened Requests

  // ---- The controller chip

  /** Where a byte written to the data port goes. */
  datatype Target = ToPort(port: nat) | ToController

  /** The next data byte goes to the first mouse port after 0xD4, to mouse port 1 + k after 0x90 + k with a multiplexer, to
      the command byte after 0x60, and otherwise to the keyboard. */
  function TargetAfter(command: Byte): Target {
    if command == 0xD4 then ToPort(1)
    else if command == 0x90 then ToPort(1)
    else if command == 0x91 then ToPort(2)
    else if command == 0x92 then ToPort(3)
    else if command == 0x93 then ToPort(4)
    else if command == 0x60 then ToController
    else ToPort(0)
  }

  /** The chip's state after an event, and the bytes it passed on. */
  function NextTarget(t: Target, e: Event): Target {
    match e
    case CommandOut(_, c) => TargetAfter(c)
    case DataOut(_, _) => ToPort(0)
    case Dispatch(_, _, _) => t
    case Pause(_, _) => t
  }

  function TargetOf(t: Target, events: seq<Event>): Target
    decreases |events|
  {
    if events == [] then t else TargetOf(NextTarget(t, events[0]), events[1..])
  }

  /** The data bytes that reach one target. */
  function Reaching(t: Target, events: seq<Event>, q: Target): seq<Byte>
    decreases |events|
  {
    if events == [] then []
    else (if events[0].DataOut? && t == q then [events[0].byte] else []) + Reaching(NextTarget(t, events[0]), events[1..], q)
  }

  lemma {:induction false} ReachingAppends(t: Target, a: seq<Event>, b: seq<Event>, q: Target)
    ensures Reaching(t, a + b, q) == Reaching(t, a, q) + Reaching(TargetOf(t, a), b, q)
    ensures TargetOf(t, a + b) == TargetOf(TargetOf(t, a), b)
    decreases |a|
  {
    if a == [] {
      assert a + b == b;
    } else {
      assert (a + b)[0] == a[0] && (a + b)[1..] == a[1..] + b;
      ReachingAppends(NextTarget(t, a[0]), a[1..], b, q);
    }
  }

  /** Between two moments the target got these bytes, and at the end the chip is waiting for nothing. */
  ghost predicate Gets(io: Io, after: Io, q: Target, bytes: seq<Byte>) {
    && TargetOf(ToPort(0), io.log) == TargetOf(ToPort(0), after.log) == ToPort(0)
    && Reaching(ToPort(0), after.log, q) == Reaching(ToPort(0), io.log, q) + bytes
  }

  /** The chip waits for nothing: a data byte would go to the keyboard. */
  predicate Idle(io: Io) {
    TargetOf(ToPort(0), io.log) == ToPort(0)
  }

  lemma GetsTwice(a: Io, b: Io, c: Io, q: Target, x: seq<Byte>, y: seq<Byte>)
    requires Gets(a, b, q, x) && Gets(b, c, q, y)
    ensures Gets(a, c, q, x + y)
  {
  }

  lemma {:induction false} HandOutsReachNobody(t: Target, events: seq<Event>, q: Target)
    requires OnlyHandsOut(events)
    ensures Reaching(t, events, q) == [] && TargetOf(t, events) == t
    decreases |events|
  {
    if events != [] {
      assert events[0].Dispatch?;
      HandOutsReachNobody(t, events[1..], q);
    }
  }

  lemma ReadReachesNobody(io: Io, r: Reading, q: Target)
    requires Idle(io) && OnlyHandsOut(r.events)
    ensures Gets(io, After(io, r), q, [])
  {
    ReachingAppends(ToPort(0), io.log, r.events, q);
    HandOutsReachNobody(ToPort(0), r.events, q);
  }

  /** The ports there are. */
  predicate Served(mux: bool, port: nat) {
    port < PORTS && (!mux ==> port <= AUX)
  }

  /** A command byte and the data byte it announces. */
  lemma AnnouncedReaches(io: Io, command: Byte, at: nat, later: nat, b: Byte, q: Target)
    requires Idle(io)
    ensures Gets(io, Log(Log(io, CommandOut(at, command)), DataOut(later, b)), q, if TargetAfter(command) == q then [b] else [])
  {
    var pair := [CommandOut(at, command)] + [DataOut(later, b)];
    assert (io.log + [CommandOut(at, command)]) + [DataOut(later, b)] == io.log + pair;
    ReachingAppends(ToPort(0), io.log, pair, q);
    assert pair[1..] == [DataOut(later, b)] && pair[1..][1..] == [];
    assert Reaching(TargetAfter(command), pair[1..], q) == if TargetAfter(command) == q then [b] else [];
    assert TargetOf(TargetAfter(command), pair[1..]) == ToPort(0);
    assert TargetOf(ToPort(0), pair) == ToPort(0);
  }

  lemma PlainReaches(io: Io, at: nat, b: Byte, q: Target)
    requires Idle(io)
    ensures Gets(io, Log(io, DataOut(at, b)), q, if q == ToPort(0) then [b] else [])
  {
    var one := [DataOut(at, b)];
    ReachingAppends(ToPort(0), io.log, one, q);
    assert one[1..] == [];
    assert Reaching(ToPort(0), one, q) == if q == ToPort(0) then [b] else [];
    assert TargetOf(ToPort(0), one) == ToPort(0);
  }

  /** A command that announces no data and a pause reach nobody. */
  lemma SilentReaches(io: Io, e: Event, q: Target)
    requires Idle(io) && (e.Pause? || (e.CommandOut? && TargetAfter(e.byte) == ToPort(0)))
    ensures Gets(io, Log(io, e), q, [])
  {
    ReachingAppends(ToPort(0), io.log, [e], q);
    assert [e][1..] == [];
  }

  lemma MuxedCommand(k: nat)
    requires k < 4
    ensures TargetAfter(TRANSMIT_TO_MUXED_MOUSE + (k % 256) as Byte) == ToPort(AUX + k)
  {
    assert k == 0 || k == 1 || k == 2 || k == 3;
  }

  /** A byte for the device at a port reaches this device and no other. */
  lemma TransmitReaches(mux: bool, port: nat, io: Io, b: Byte, q: Target)
    requires Idle(io) && Served(mux, port)
    ensures Gets(io, Transmit(mux, port, io, b), q, if q == ToPort(port) then [b] else [])
  {
    if port < AUX {
      PlainReaches(io, io.polls, b, q);
    } else if mux {
      MuxedCommand(port - AUX);
      AnnouncedReaches(io, TRANSMIT_TO_MUXED_MOUSE + ((port - AUX) % 256) as Byte, io.polls, io.polls, b, q);
    } else {
      AnnouncedReaches(io, TRANSMIT_TO_MOUSE, io.polls, io.polls, b, q);
    }
  }

  // ---- Bytes of a request

  /** The byte that a command is to send to the request's device. */
  function SentFor(c: Command): seq<Byte> {
    match c
    case WriteDataPort(b) => [b]
    case SendCommandAndCompareAck(b) => [b]
    case _ => []
  }

  /** What a command leaves in the command byte, given what was read of it. */
  function Stored(c: Command): seq<Byte> {
    match c
    case ModifyCommandByte(setBits, clearBits, oldBits) => [(oldBits | setBits) & !clearBits]
    case _ => []
  }

  function Due(port: nat, q: Target, before: Command, after: Command): seq<Byte> {
    if q == ToPort(port) then SentFor(before) else if q == ToController then Stored(after) else []
  }

  lemma ModifyReaches(m: Mode, port: nat, io: Io, c: Command, q: Target)
    requires Idle(io) && c.ModifyCommandByte?
    ensures Gets(io, Execute(m, port, io, c).io, q, Due(port, q, c, Execute(m, port, io, c).command))
  {
    var asked := Log(io, CommandOut(io.polls, GET_COMMAND_BYTE));
    var r := Any(m, KBD, asked);
    SilentReaches(io, CommandOut(io.polls, GET_COMMAND_BYTE), q);
    ReadAnyHandsOut(m, KBD, asked.pending, READ_TIMEOUT, asked.polls);
    ReadReachesNobody(asked, r, q);
    GetsTwice(io, asked, After(asked, r), q, [], []);
    AnnouncedReaches(After(asked, r), SET_COMMAND_BYTE, r.polls, r.polls, Modified(r.byte, c.setBits, c.clearBits), q);
    var due := if q == ToController then [Modified(r.byte, c.setBits, c.clearBits)] else [];
    GetsTwice(io, After(asked, r), Execute(m, port, io, c).io, q, [] + [], due);
    assert [] + [] + due == due;
  }

  lemma FlushReaches(io: Io, q: Target)
    requires Idle(io)
    ensures Gets(io, Flushed(io), q, [])
  {
    assert Reaching(ToPort(0), io.log, q) == Reaching(ToPort(0), io.log, q) + [];
  }

  lemma SendReaches(m: Mode, port: nat, io: Io, b: Byte, q: Target)
    requires Idle(io) && Served(m.mux, port)
    ensures Gets(io, Execute(m, port, io, SendCommandAndCompareAck(b)).io, q, if q == ToPort(port) then [b] else [])
  {
    var sent, bytes := Transmit(m.mux, port, io, b), if q == ToPort(port) then [b] else [];
    TransmitReaches(m.mux, port, io, b, q);
    ReadExpectingHandsOut(m, port, ACK, None, sent.pending, EXPECT_TIMEOUT, sent.polls);
    ReadReachesNobody(sent, Expecting(m, port, sent, ACK), q);
    GetsTwice(io, sent, After(sent, Expecting(m, port, sent, ACK)), q, bytes, []);
    assert bytes + [] == bytes;
  }

  /** One command: its byte reaches the request's device, a changed command byte the controller, and nothing else anyone. */
  lemma CommandReaches(m: Mode, port: nat, io: Io, c: Command, q: Target)
    requires Idle(io) && Served(m.mux, port)
    ensures Gets(io, Execute(m, port, io, c).io, q, Due(port, q, c, Execute(m, port, io, c).command))
  {
    match c
    case ReadDataPort(_) =>
      ReadAnyHandsOut(m, port, io.pending, READ_TIMEOUT, io.polls);
      ReadReachesNobody(io, Any(m, port, io), q);
    case ReadDataPortAndCompare(expected) =>
      ReadExpectingHandsOut(m, port, expected, None, io.pending, EXPECT_TIMEOUT, io.polls);
      ReadReachesNobody(io, Expecting(m, port, io, expected), q);
    case WriteDataPort(b) => TransmitReaches(m.mux, port, io, b, q);
    case SendCommandAndCompareAck(b) => SendReaches(m, port, io, b, q);
    case FlushDataPort(_) => FlushReaches(io, q);
    case SleepMS(ms) => SilentReaches(io, Pause(io.polls, ms), q);
    case ModifyCommandByte(_, _, _) => ModifyReaches(m, port, io, c, q);
  }

  /** The bytes due to a target from the commands of a request that were carried out: up to the one that failed. */
  function DueFrom(port: nat, q: Target, cs: seq<Command>, done: seq<Command>, failed: Option<nat>): seq<Byte>
    requires |done| == |cs|
    decreases |cs|
  {
    if cs == [] then []
    else if failed == Some(0) then Due(port, q, cs[0], done[0])
    else Due(port, q, cs[0], done[0])
         + DueFrom(port, q, cs[1..], done[1..], if failed.Some? then Some(failed.value - 1) else None)
  }

  /** Over every request, against every device: the bytes that reach the request's device are exactly those of the write
      and send commands carried out, in order; the controller gets the changed command bytes; and no other device gets
      any. */
  lemma {:induction false} RequestReaches(m: Mode, port: nat, io: Io, cs: seq<Command>, q: Target)
    requires Idle(io) && Served(m.mux, port)
    ensures var r := RunAll(m, port, io, cs); Gets(io, r.io, q, DueFrom(port, q, cs, r.commands, r.failed))
    decreases |cs|
  {
    if cs == [] {
      assert Reaching(ToPort(0), io.log, q) == Reaching(ToPort(0), io.log, q) + [];
    } else {
      var first, r := Execute(m, port, io, cs[0]), RunAll(m, port, io, cs);
      CommandReaches(m, port, io, cs[0], q);
      if !first.failed {
        var rest := RunAll(m, port, first.io, cs[1..]);
        RequestReaches(m, port, first.io, cs[1..], q);
        assert r.commands[1..] == rest.commands;
        GetsTwice(io, first.io, r.io, q, Due(port, q, cs[0], first.command),
                  DueFrom(port, q, cs[1..], rest.commands, rest.failed));
      }
    }
  }

  lemma {:induction false} NothingDue(port: nat, q: nat, cs: seq<Command>, done: seq<Command>, failed: Option<nat>)
    requires |done| == |cs| && q != port
    ensures DueFrom(port, ToPort(q), cs, done, failed) == []
    decreases |cs|
  {
    if cs != [] && failed != Some(0) {
      NothingDue(port, q, cs[1..], done[1..], if failed.Some? then Some(failed.value - 1) else None);
    }
  }

  /** In particular no byte goes to another device. */
  lemma OthersGetNothing(m: Mode, port: nat, io: Io, cs: seq<Command>, q: nat)
    requires Idle(io) && Served(m.mux, port) && q != port
    ensures Gets(io, RunAll(m, port, io, cs).io, ToPort(q), [])
  {
    var r := RunAll(m, port, io, cs);
    RequestReaches(m, port, io, cs, ToPort(q));
    NothingDue(port, q, cs, r.commands, r.failed);
  }

  // ---- What commands bring back

  function FirstOf(bytes: seq<Byte>): Byte {
    if bytes == [] then 0 else bytes[0]
  }

  /** The first n bytes, which were all that waited, were thrown away and counted in 32 bits; one poll more saw that. */
  ghost predicate ThrewAway(io: Io, o: Outcome, n: nat) {
    && n <= |io.pending| && o.command == FlushDataPort(n % 0x1_0000_0000)
    && (forall k :: 0 <= k < n ==> Ready(io.pending[k])) && (n < |io.pending| ==> !Ready(io.pending[n]))
    && o.io == Io(if n < |io.pending| then io.pending[n + 1..] else [], io.polls + n + 1, io.log)
  }

  lemma FlushThrowsAway(m: Mode, port: nat, io: Io, c: Command)
    requires c.FlushDataPort?
    ensures ThrewAway(io, Execute(m, port, io, c), Waiting(io.pending))
  {
    WaitingAreReady(io.pending);
  }

  /** The results and the failures of the commands, said of the bytes that arrive in time. */
  ghost predicate BringsBack(m: Mode, port: nat, io: Io, c: Command, o: Outcome) {
    match c
    case ReadDataPort(_) => o.command == ReadDataPort(FirstOf(Arriving(m, port, io.pending, 20000))) && !o.failed
    case ReadDataPortAndCompare(expected) =>
      var byte := Chosen(expected, Arriving(m, port, io.pending, 10000));
      o.command == ReadDataPortAndCompare(byte) && o.failed == (byte != expected)
    case WriteDataPort(_) => o.command == c && !o.failed && o.io.pending == io.pending
    case SendCommandAndCompareAck(_) =>
      o.command == c && o.failed == (Chosen(0xFA, Arriving(m, port, io.pending, 10000)) != 0xFA)
    case FlushDataPort(_) =>
      && o.command.FlushDataPort? && !o.failed
      && exists n :: ThrewAway(io, o, n)
    case SleepMS(ms) => o.command == c && !o.failed && o.io.pending == io.pending && o.io.log == io.log + [Pause(io.polls, ms)]
    case ModifyCommandByte(setBits, clearBits, _) =>
      && o.command == ModifyCommandByte(setBits, clearBits, FirstOf(Arriving(m, KBD, io.pending, 20000))) && !o.failed
      && exists handedOut, at ::
           && OnlyHandsOut(handedOut)
           && o.io.log == io.log + [CommandOut(io.polls, 0x20)] + handedOut
                          + [CommandOut(at, 0x60), DataOut(at, (o.command.oldBits | setBits) & !clearBits)]
  }

  lemma ModifyAsksFirst(m: Mode, port: nat, io: Io, c: Command)
    requires c.ModifyCommandByte?
    ensures var r := Any(m, KBD, Log(io, CommandOut(io.polls, 0x20)));
            && OnlyHandsOut(r.events)
            && Execute(m, port, io, c).io.log
               == io.log + [CommandOut(io.polls, 0x20)] + r.events
                  + [CommandOut(r.polls, 0x60), DataOut(r.polls, (r.byte | c.setBits) & !c.clearBits)]
  {
    var asked := Log(io, CommandOut(io.polls, 0x20));
    ReadAnyHandsOut(m, KBD, asked.pending, READ_TIMEOUT, asked.polls);
  }

  lemma {:induction false} WaitingAreReady(p: seq<Answer>)
    ensures forall k :: 0 <= k < Waiting(p) ==> Ready(p[k])
    ensures Waiting(p) < |p| ==> !Ready(p[Waiting(p)])
  {
    if p != [] && Ready(p[0]) {
      WaitingAreReady(p[1..]);
    }
  }

  lemma TransmitReadsNothing(mux: bool, port: nat, io: Io, b: Byte)
    ensures Transmit(mux, port, io, b).pending == io.pending
  {
  }

  /** Every command brings back what the device sent in time. */
  lemma CommandBringsBack(m: Mode, port: nat, io: Io, c: Command)
    requires !m.suppress
    ensures BringsBack(m, port, io, c, Execute(m, port, io, c))
  {
    match c
    case ReadDataPort(_) => ReadAnyReturnsFirst(m, port, io.pending, READ_TIMEOUT, io.polls);
    case ReadDataPortAndCompare(expected) =>
      ReadExpectingDelivers(m, port, expected, io.pending, EXPECT_TIMEOUT, io.polls);
    case WriteDataPort(b) => TransmitReadsNothing(m.mux, port, io, b);
    case SendCommandAndCompareAck(b) =>
      var sent := Transmit(m.mux, port, io, b);
      TransmitReadsNothing(m.mux, port, io, b);
      ReadExpectingDelivers(m, port, ACK, sent.pending, EXPECT_TIMEOUT, sent.polls);
    case FlushDataPort(_) => FlushThrowsAway(m, port, io, c);
    case SleepMS(_) =>
    case ModifyCommandByte(_, _, _) =>
      ReadAnyReturnsFirst(m, KBD, io.pending, READ_TIMEOUT, io.polls);
      ModifyAsksFirst(m, port, io, c);
  }
}
