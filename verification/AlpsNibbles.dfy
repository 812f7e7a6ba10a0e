/** The code in which ALPS pads take register addresses and values: nibbles as harmless mouse commands. */
module AlpsNibbles {
  import opened Options
  import opened PortReads
  import opened Requests
  import opened RequestRouting

  type Nibble = n: int | 0 <= n < 16

  /** The two tables that have a command to send data with. */
  datatype Version = V3 | V4

  /** A command byte, the data byte that follows it, and whether a byte is to be received. */
  datatype Entry = Entry(command: Byte, data: Option<Byte>, receive: bool)

  function Table(v: Version, n: Nibble): Entry {
    match n
    case 0 => Entry(if v.V3? then 0xF0 else 0xF4, None, false)
    case 1 => Entry(0xF6, None, false)
    case 2 => Entry(0xE7, None, false)
    case 3 => Entry(0xF3, Some(0x0A), false)
    case 4 => Entry(0xF3, Some(0x14), false)
    case 5 => Entry(0xF3, Some(0x28), false)
    case 6 => Entry(0xF3, Some(0x3C), false)
    case 7 => Entry(0xF3, Some(0x50), false)
    case 8 => Entry(0xF3, Some(0x64), false)
    case 9 => Entry(0xF3, Some(0xC8), false)
    case 10 => Entry(0xF2, None, true)
    case 11 => Entry(0xE8, Some(0x00), false)
    case 12 => Entry(0xE8, Some(0x01), false)
    case 13 => Entry(0xE8, Some(0x02), false)
    case 14 => Entry(0xE8, Some(0x03), false)
    case _ => Entry(0xE6, None, false)
  }

  function AddrCommand(v: Version): Byte {
    if v.V3? then 0xEC else 0xF5
  }

  // ---- Bytes on the wire

  /** What the pad is told: an address follows, or a digit of an address or a value. */
  datatype Symbol = Address | Digit(n: Nibble)

  function WireOf(v: Version, s: Symbol): seq<Byte> {
    match s
    case Address => [AddrCommand(v)]
    case Digit(n) => [Table(v, n).command] + if Table(v, n).data.Some? then [Table(v, n).data.value] else []
  }

  function Wire(v: Version, symbols: seq<Symbol>): seq<Byte> {
    if symbols == [] then [] else WireOf(v, symbols[0]) + Wire(v, symbols[1..])
  }

  // ---- The pad's side

  /** A command byte that another one must follow. */
  predicate IsPrefix(b: Byte) {
    b == 0xF3 || b == 0xE8
  }

  /** The symbol that one byte, or a prefix and a byte, stands for. */
  function SingleSymbol(v: Version, b: Byte): Option<Symbol> {
    if b == (if v.V3? then 0xEC else 0xF5) then Some(Address)
    else if b == (if v.V3? then 0xF0 else 0xF4) then Some(Digit(0))
    else if b == 0xF6 then Some(Digit(1))
    else if b == 0xE7 then Some(Digit(2))
    else if b == 0xF2 then Some(Digit(10))
    else if b == 0xE6 then Some(Digit(15))
    else None
  }

  function PairSymbol(prefix: Byte, b: Byte): Option<Symbol> {
    if prefix == 0xF3 then
      if b == 0x0A then Some(Digit(3)) else if b == 0x14 then Some(Digit(4)) else if b == 0x28 then Some(Digit(5))
      else if b == 0x3C then Some(Digit(6)) else if b == 0x50 then Some(Digit(7)) else if b == 0x64 then Some(Digit(8))
      else if b == 0xC8 then Some(Digit(9)) else None
    else
      if b == 0x00 then Some(Digit(11)) else if b == 0x01 then Some(Digit(12)) else if b == 0x02 then Some(Digit(13))
      else if b == 0x03 then Some(Digit(14)) else None
  }

  /** The pad listens byte by byte, remembering a prefix, and ignores what it does not know. */
  function Listen(v: Version, prefix: Option<Byte>, bytes: seq<Byte>): seq<Symbol>
    decreases |bytes|
  {
    if bytes == [] then []
    else
      var b := bytes[0];
      match prefix
      case Some(p) => Known(PairSymbol(p, b)) + Listen(v, None, bytes[1..])
      case None =>
        if IsPrefix(b) then Listen(v, Some(b), bytes[1..]) else Known(SingleSymbol(v, b)) + Listen(v, None, bytes[1..])
  }

  function Known(s: Option<Symbol>): seq<Symbol> {
    if s.Some? then [s.value] else []
  }

  lemma ListenOne(v: Version, s: Symbol, rest: seq<Byte>)
    ensures Listen(v, None, WireOf(v, s) + rest) == [s] + Listen(v, None, rest)
  {
    var bytes := WireOf(v, s) + rest;
    if |WireOf(v, s)| == 1 {
      assert bytes[1..] == rest;
      assert SingleSymbol(v, bytes[0]) == Some(s) && !IsPrefix(bytes[0]);
    } else {
      assert bytes[1..][1..] == rest;
      assert IsPrefix(bytes[0]) && PairSymbol(bytes[0], bytes[1]) == Some(s);
    }
  }

  /** The code is uniquely decodable: the pad hears exactly what was said. */
  lemma {:induction false} ListenHears(v: Version, symbols: seq<Symbol>)
    ensures Listen(v, None, Wire(v, symbols)) == symbols
  {
    if symbols != [] {
      ListenOne(v, symbols[0], Wire(v, symbols[1..]));
      ListenHears(v, symbols[1..]);
    }
  }

  lemma WireIsInjective(v: Version, a: seq<Symbol>, b: seq<Symbol>)
    requires Wire(v, a) == Wire(v, b)
    ensures a == b
  {
    ListenHears(v, a);
    ListenHears(v, b);
  }

  // ---- Registers

  /** What the driver does: set the address, or write a value at the current one. */
  datatype Op = SetAddr(addr: nat) | WriteValue(value: Byte)

  function HighNibble(value: Byte): Nibble {
    (value >> 4) as int
  }

  function LowNibble(value: Byte): Nibble {
    (value & 0x0F) as int
  }

  function Digits(op: Op): seq<Symbol> {
    match op
    case SetAddr(a) => [Address, Digit(a / 4096 % 16), Digit(a / 256 % 16), Digit(a / 16 % 16), Digit(a % 16)]
    case WriteValue(value) => [Digit(HighNibble(value)), Digit(LowNibble(value))]
  }

  function Symbols(ops: seq<Op>): seq<Symbol> {
    if ops == [] then [] else Symbols(ops[..|ops| - 1]) + Digits(ops[|ops| - 1])
  }

  datatype Write = Write(addr: nat, value: nat)

  /** The pad's register access: digits of the address still to come, the address, half a value, and the writes made. */
  datatype Registers = Registers(missing: nat, addr: nat, high: Option<nat>, writes: seq<Write>)

  const RESET := Registers(0, 0, None, [])

  function Hear(r: Registers, s: Symbol): Registers {
    match s
    case Address => Registers(4, 0, None, r.writes)
    case Digit(n) =>
      if r.missing > 0 then r.(missing := r.missing - 1, addr := r.addr * 16 + n)
      else if r.high.None? then r.(high := Some(n))
      else r.(high := None, writes := r.writes + [Write(r.addr, r.high.value * 16 + n)])
  }

  function HearAll(r: Registers, symbols: seq<Symbol>): Registers {
    if symbols == [] then r else Hear(HearAll(r, symbols[..|symbols| - 1]), symbols[|symbols| - 1])
  }

  /** What is meant: each value goes to the address set last, of which 16 bits count. */
  function Meant(ops: seq<Op>): Registers {
    if ops == [] then RESET
    else
      var before := Meant(ops[..|ops| - 1]);
      match ops[|ops| - 1]
      case SetAddr(a) => before.(addr := a % 0x1_0000)
      case WriteValue(value) => before.(writes := before.writes + [Write(before.addr, value as int)])
  }

  lemma {:induction false} HearAppends(r: Registers, a: seq<Symbol>, b: seq<Symbol>)
    ensures HearAll(r, a + b) == HearAll(HearAll(r, a), b)
    decreases |b|
  {
    if b == [] {
      assert a + b == a;
    } else {
      HearAppends(r, a, b[..|b| - 1]);
      assert (a + b)[..|a + b| - 1] == a + b[..|b| - 1];
    }
  }

  lemma AddressDigits(a: nat)
    ensures ((a / 4096 % 16 * 16 + a / 256 % 16) * 16 + a / 16 % 16) * 16 + a % 16 == a % 0x1_0000
  {
    var b := a / 16;
    var c := b / 16;
    var d := c / 16;
    NextDigit(a, 16, b);
    NextDigit(a, 256, c);
    NextDigit(a, 4096, d);
    LowDigit(a, 4096);
    LowDigit(a, 256);
    LowDigit(a, 16);
  }

  lemma NextDigit(a: nat, unit: nat, q: nat)
    requires (unit == 16 && q == a / 16) || (unit == 256 && q == a / 16 / 16) || (unit == 4096 && q == a / 16 / 16 / 16)
    ensures q == a / unit
  {
  }

  /** The lowest digit above a unit. */
  lemma LowDigit(a: nat, unit: nat)
    requires unit == 16 || unit == 256 || unit == 4096
    ensures a % (16 * unit) == a / unit % 16 * unit + a % unit
  {
  }

  lemma ValueDigits(value: Byte)
    ensures HighNibble(value) * 16 + LowNibble(value) == value as int
  {
  }

  lemma HearNext(r: Registers, d: seq<Symbol>, k: nat)
    requires k < |d|
    ensures HearAll(r, d[..k + 1]) == Hear(HearAll(r, d[..k]), d[k])
    ensures d[..|d|] == d
  {
    assert d[..k + 1][..k] == d[..k];
  }

  lemma HearAddress(r: Registers, a: nat)
    requires r.missing == 0 && r.high.None?
    ensures HearAll(r, Digits(SetAddr(a))) == r.(addr := a % 0x1_0000)
  {
    var d := Digits(SetAddr(a));
    HearNext(r, d, 0);
    HearNext(r, d, 1);
    HearNext(r, d, 2);
    HearNext(r, d, 3);
    HearNext(r, d, 4);
    AddressDigits(a);
  }

  lemma HearValue(r: Registers, value: Byte)
    requires r.missing == 0 && r.high.None?
    ensures HearAll(r, Digits(WriteValue(value))) == r.(writes := r.writes + [Write(r.addr, value as int)])
  {
    var d := Digits(WriteValue(value));
    HearNext(r, d, 0);
    HearNext(r, d, 1);
    ValueDigits(value);
  }

  lemma {:induction false} HearSymbols(ops: seq<Op>)
    ensures HearAll(RESET, Symbols(ops)) == Meant(ops) && Meant(ops).missing == 0 && Meant(ops).high.None?
  {
    if ops != [] {
      var before := ops[..|ops| - 1];
      HearSymbols(before);
      HearAppends(RESET, Symbols(before), Digits(ops[|ops| - 1]));
      match ops[|ops| - 1]
      case SetAddr(a) => HearAddress(Meant(before), a);
      case WriteValue(value) => HearValue(Meant(before), value);
    }
  }

  // ---- The driver's side

  /** The request for a nibble. */
  function NibbleRequest(v: Version, n: Nibble): seq<Command> {
    var e := Table(v, n);
    [SendCommandAndCompareAck(e.command)]
    + (if e.data.Some? then [SendCommandAndCompareAck(e.data.value)] else [])
    + (if e.receive then [ReadDataPort(0)] else [])
  }

  function RequestFor(v: Version, s: Symbol): seq<Command> {
    match s
    case Address => [SendCommandAndCompareAck(AddrCommand(v))]
    case Digit(n) => NibbleRequest(v, n)
  }

  function RequestsFor(v: Version, symbols: seq<Symbol>): (r: seq<seq<Command>>)
    ensures |r| == |symbols|
  {
    seq(|symbols|, k requires 0 <= k < |symbols| => RequestFor(v, symbols[k]))
  }

  /** The requests of an operation. */
  function Plan(v: Version, op: Op): seq<seq<Command>> {
    RequestsFor(v, Digits(op))
  }

  /** The bytes that the commands send to the device. */
  function Sent(cs: seq<Command>): seq<Byte> {
    if cs == [] then [] else (if cs[0].SendCommandAndCompareAck? then [cs[0].inOrOut] else []) + Sent(cs[1..])
  }

  function SentBy(requests: seq<seq<Command>>): seq<Byte> {
    if requests == [] then [] else Sent(requests[0]) + SentBy(requests[1..])
  }

  lemma RequestSendsWire(v: Version, s: Symbol)
    ensures Sent(RequestFor(v, s)) == WireOf(v, s)
  {
    var cs := RequestFor(v, s);
    if |cs| > 1 {
      assert cs[1..][1..] == [];
    } else {
      assert cs[1..] == [];
    }
  }

  /** The requests send exactly the code. */
  lemma {:induction false} RequestsSendWire(v: Version, symbols: seq<Symbol>)
    ensures SentBy(RequestsFor(v, symbols)) == Wire(v, symbols)
  {
    if symbols != [] {
      RequestSendsWire(v, symbols[0]);
      RequestsSendWire(v, symbols[1..]);
      assert RequestsFor(v, symbols)[1..] == RequestsFor(v, symbols[1..]);
    }
  }

  /** From the bytes of the requests alone the pad recovers every 16-bit address and every value written. */
  lemma PadRecovers(v: Version, ops: seq<Op>)
    ensures HearAll(RESET, Listen(v, None, SentBy(RequestsFor(v, Symbols(ops))))) == Meant(ops)
  {
    RequestsSendWire(v, Symbols(ops));
    ListenHears(v, Symbols(ops));
    HearSymbols(ops);
  }

  /** The data bytes in a log. */
  function DataBytes(events: seq<Event>): seq<Byte> {
    if events == [] then []
    else DataBytes(events[..|events| - 1]) + if events[|events| - 1].DataOut? then [events[|events| - 1].byte] else []
  }

  lemma {:induction false} HandOutsSendNothing(log: seq<Event>, events: seq<Event>)
    requires OnlyHandsOut(events)
    ensures DataBytes(log + events) == DataBytes(log)
    decreases |events|
  {
    if events == [] {
      assert log + events == log;
    } else {
      var n := |events| - 1;
      HandOutsSendNothing(log, events[..n]);
      assert (log + events)[..|log + events| - 1] == log + events[..n];
    }
  }

  lemma LoggedByte(log: seq<Event>, e: Event)
    ensures DataBytes(log + [e]) == DataBytes(log) + if e.DataOut? then [e.byte] else []
  {
    assert (log + [e])[..|log|] == log;
  }

  lemma TransmitLogs(mux: bool, port: nat, io: Io, b: Byte)
    ensures DataBytes(Transmit(mux, port, io, b).log) == DataBytes(io.log) + [b]
  {
    hide DataBytes;
    if port < AUX {
      LoggedByte(io.log, DataOut(io.polls, b));
    } else {
      var command := CommandOut(io.polls, if mux then TRANSMIT_TO_MUXED_MOUSE + ((port - AUX) % 256) as Byte else TRANSMIT_TO_MOUSE);
      LoggedByte(io.log, command);
      LoggedByte(io.log + [command], DataOut(io.polls, b));
    }
  }

  lemma SendLogsByte(m: Mode, port: nat, io: Io, b: Byte)
    ensures DataBytes(Execute(m, port, io, SendCommandAndCompareAck(b)).io.log) == DataBytes(io.log) + [b]
  {
    hide DataBytes;
    var sent := Transmit(m.mux, port, io, b);
    TransmitLogs(m.mux, port, io, b);
    ReadExpectingHandsOut(m, port, ACK, None, sent.pending, EXPECT_TIMEOUT, sent.polls);
    HandOutsSendNothing(sent.log, Expecting(m, port, sent, ACK).events);
  }

  lemma ReadLogsNothing(m: Mode, port: nat, io: Io)
    ensures DataBytes(Execute(m, port, io, ReadDataPort(0)).io.log) == DataBytes(io.log)
  {
    ReadAnyHandsOut(m, port, io.pending, READ_TIMEOUT, io.polls);
    HandOutsSendNothing(io.log, Any(m, port, io).events);
  }

  predicate SendsOrReads(c: Command) {
    c.SendCommandAndCompareAck? || c == ReadDataPort(0)
  }

  lemma CommandSends(m: Mode, port: nat, io: Io, c: Command)
    requires SendsOrReads(c)
    ensures DataBytes(Execute(m, port, io, c).io.log) == DataBytes(io.log) + if c.SendCommandAndCompareAck? then [c.inOrOut] else []
  {
    if c.SendCommandAndCompareAck? {
      SendLogsByte(m, port, io, c.inOrOut);
    } else {
      ReadLogsNothing(m, port, io);
    }
  }

  /** A request that succeeds has put its bytes on the wire, against every device. */
  lemma {:induction false} SuccessSendsAll(m: Mode, port: nat, io: Io, cs: seq<Command>)
    requires forall k :: 0 <= k < |cs| ==> SendsOrReads(cs[k])
    requires RunAll(m, port, io, cs).failed.None?
    ensures DataBytes(RunAll(m, port, io, cs).io.log) == DataBytes(io.log) + Sent(cs)
    decreases |cs|
  {
    if cs != [] {
      hide Execute, DataBytes, SendsOrReads;
      var first := Execute(m, port, io, cs[0]);
      assert !first.failed && RunAll(m, port, io, cs).io == RunAll(m, port, first.io, cs[1..]).io;
      CommandSends(m, port, io, cs[0]);
      SuccessSendsAll(m, port, first.io, cs[1..]);
      Reassociate(DataBytes(io.log), if cs[0].SendCommandAndCompareAck? then [cs[0].inOrOut] else [], Sent(cs[1..]));
    }
  }

  /** Requests against a device, one after the other. */
  function RunRequests(m: Mode, port: nat, io: Io, requests: seq<seq<Command>>): Io
    decreases |requests|
  {
    if requests == [] then io else RunRequests(m, port, RunAll(m, port, io, requests[0]).io, requests[1..])
  }

  predicate AllSucceeded(m: Mode, port: nat, io: Io, requests: seq<seq<Command>>)
    decreases |requests|
  {
    requests == []
    || (RunAll(m, port, io, requests[0]).failed.None?
        && AllSucceeded(m, port, RunAll(m, port, io, requests[0]).io, requests[1..]))
  }

  ghost predicate AllSendOrRead(requests: seq<seq<Command>>) {
    forall r :: 0 <= r < |requests| ==> forall k :: 0 <= k < |requests[r]| ==> SendsOrReads(requests[r][k])
  }

  lemma {:induction false} RequestsSendAll(m: Mode, port: nat, io: Io, requests: seq<seq<Command>>)
    requires AllSendOrRead(requests) && AllSucceeded(m, port, io, requests)
    ensures DataBytes(RunRequests(m, port, io, requests).log) == DataBytes(io.log) + SentBy(requests)
    decreases |requests|
  {
    hide RunAll, DataBytes, Sent;
    if requests != [] {
      SuccessSendsAll(m, port, io, requests[0]);
      RequestsSendAll(m, port, RunAll(m, port, io, requests[0]).io, requests[1..]);
    }
  }

  lemma RequestSendsOrReads(v: Version, s: Symbol)
    ensures forall k :: 0 <= k < |RequestFor(v, s)| ==> SendsOrReads(RequestFor(v, s)[k])
  {
  }

  /** The whole way, against every device that lets the requests succeed: from the data bytes put on the wire for any list
      of operations the pad recovers every address and every value. */
  lemma WireIsHeard(m: Mode, port: nat, io: Io, v: Version, ops: seq<Op>)
    requires AllSucceeded(m, port, io, RequestsFor(v, Symbols(ops)))
    ensures var requests := RequestsFor(v, Symbols(ops));
            var sent := DataBytes(RunRequests(m, port, io, requests).log);
            && DataBytes(io.log) <= sent
            && HearAll(RESET, Listen(v, None, sent[|DataBytes(io.log)|..])) == Meant(ops)
  {
    var requests := RequestsFor(v, Symbols(ops));
    forall r | 0 <= r < |requests|
      ensures forall k :: 0 <= k < |requests[r]| ==> SendsOrReads(requests[r][k])
    {
      RequestSendsOrReads(v, Symbols(ops)[r]);
    }
    RequestsSendAll(m, port, io, requests);
    PadRecovers(v, ops);
  }

  lemma {:induction false} SentIsDue(port: nat, cs: seq<Command>, done: seq<Command>)
    requires |done| == |cs| && forall k :: 0 <= k < |cs| ==> SendsOrReads(cs[k])
    ensures DueFrom(port, ToPort(port), cs, done, None) == Sent(cs)
    decreases |cs|
  {
    if cs != [] {
      SentIsDue(port, cs[1..], done[1..]);
    }
  }

  /** Seen from the devices: a request that succeeds has brought its bytes to the pad's port. */
  lemma SuccessReachesPad(m: Mode, port: nat, io: Io, cs: seq<Command>)
    requires Idle(io) && Served(m.mux, port)
    requires forall k :: 0 <= k < |cs| ==> SendsOrReads(cs[k])
    requires RunAll(m, port, io, cs).failed.None?
    ensures Gets(io, RunAll(m, port, io, cs).io, ToPort(port), Sent(cs))
  {
    hide RunAll, Sent, DueFrom, Gets;
    RequestReaches(m, port, io, cs, ToPort(port));
    SentIsDue(port, cs, RunAll(m, port, io, cs).commands);
  }

  lemma {:induction false} RequestsReachPad(m: Mode, port: nat, io: Io, requests: seq<seq<Command>>)
    requires Idle(io) && Served(m.mux, port)
    requires AllSendOrRead(requests) && AllSucceeded(m, port, io, requests)
    ensures Gets(io, RunRequests(m, port, io, requests), ToPort(port), SentBy(requests))
    decreases |requests|
  {
    hide RunAll, Sent, Reaching, TargetOf;
    if requests == [] {
      assert Reaching(ToPort(0), io.log, ToPort(port)) + [] == Reaching(ToPort(0), io.log, ToPort(port));
    } else {
      var next := RunAll(m, port, io, requests[0]).io;
      SuccessReachesPad(m, port, io, requests[0]);
      RequestsReachPad(m, port, next, requests[1..]);
      GetsTwice(io, next, RunRequests(m, port, io, requests), ToPort(port), Sent(requests[0]), SentBy(requests[1..]));
    }
  }

  /** And from the bytes that reach the pad through the controller, which device they are for being announced by commands of
      its own, the pad recovers every address and every value. */
  lemma PadIsReached(m: Mode, port: nat, io: Io, v: Version, ops: seq<Op>)
    requires Idle(io) && Served(m.mux, port) && AllSucceeded(m, port, io, RequestsFor(v, Symbols(ops)))
    ensures var after := RunRequests(m, port, io, RequestsFor(v, Symbols(ops)));
            exists sent :: Gets(io, after, ToPort(port), sent) && HearAll(RESET, Listen(v, None, sent)) == Meant(ops)
  {
    var requests := RequestsFor(v, Symbols(ops));
    forall r | 0 <= r < |requests|
      ensures forall k :: 0 <= k < |requests[r]| ==> SendsOrReads(requests[r][k])
    {
      RequestSendsOrReads(v, Symbols(ops)[r]);
    }
    RequestsReachPad(m, port, io, requests);
    PadRecovers(v, ops);
  }

  function Reads(cs: seq<Command>): nat {
    if cs == [] then 0 else (if cs[0].ReadDataPort? then 1 else 0) + Reads(cs[1..])
  }

  /** The one command of the code that a pad answers with more than an acknowledgement is 0xF2, which asks for its identity;
      just after that the request reads a byte, so that none is left behind. */
  lemma IdentityIsRead(v: Version, s: Symbol)
    ensures Reads(RequestFor(v, s)) == if WireOf(v, s) == [0xF2] then 1 else 0
    ensures WireOf(v, s) == [0xF2] <==> RequestFor(v, s) == [SendCommandAndCompareAck(0xF2), ReadDataPort(0)]
  {
    var cs, wire := RequestFor(v, s), WireOf(v, s);
    assert wire[0] == cs[0].inOrOut && (|wire| == 1 ==> wire == [cs[0].inOrOut]);
    if |cs| > 1 {
      assert cs[1..][1..] == [];
      assert cs == [cs[0], cs[1]];
    } else {
      assert cs[1..] == [];
    }
  }

  /** Submitting requests one after the other until one does not succeed. */
  function Attempted(succeeds: nat -> bool, start: nat, n: nat): (k: nat)
    ensures k <= n
    decreases n
  {
    if n == 0 then 0 else if !succeeds(start) then 1 else 1 + Attempted(succeeds, start + 1, n - 1)
  }

  ghost predicate AllSucceed(succeeds: nat -> bool, start: nat, n: nat) {
    forall k :: start <= k < start + n ==> succeeds(k)
  }

  lemma {:induction false} AttemptedUpTo(succeeds: nat -> bool, start: nat, n: nat, k: nat)
    requires k < n && AllSucceed(succeeds, start, k) && !succeeds(start + k)
    ensures Attempted(succeeds, start, n) == k + 1
    decreases k
  {
    if k > 0 {
      AttemptedUpTo(succeeds, start + 1, n - 1, k - 1);
    }
  }

  lemma {:induction false} AttemptedAll(succeeds: nat -> bool, start: nat, n: nat)
    requires AllSucceed(succeeds, start, n)
    ensures Attempted(succeeds, start, n) == n
    decreases n
  {
    if n > 0 {
      AttemptedAll(succeeds, start + 1, n - 1);
    }
  }

  /** The first k requests of a plan were submitted and succeeded. */
  ghost predicate Underway(succeeds: nat -> bool, before: seq<seq<Command>>, plan: seq<seq<Command>>, k: nat,
                           submitted: seq<seq<Command>>) {
    k <= |plan| && submitted == before + plan[..k] && AllSucceed(succeeds, |before|, k)
  }

  /** The plan was carried out up to the first request that did not succeed. */
  ghost predicate Performed(succeeds: nat -> bool, before: seq<seq<Command>>, plan: seq<seq<Command>>, ok: bool,
                            submitted: seq<seq<Command>>) {
    && submitted == before + plan[..Attempted(succeeds, |before|, |plan|)]
    && ok == AllSucceed(succeeds, |before|, |plan|)
  }

  /** The next request of a plan, whether it succeeds or not. */
  lemma OneFurther(succeeds: nat -> bool, before: seq<seq<Command>>, plan: seq<seq<Command>>, k: nat,
                   submitted: seq<seq<Command>>)
    requires k < |plan| && Underway(succeeds, before, plan, k, submitted)
    ensures |submitted| == |before| + k
    ensures succeeds(|submitted|) ==> Underway(succeeds, before, plan, k + 1, submitted + [plan[k]])
    ensures !succeeds(|submitted|) ==> Performed(succeeds, before, plan, false, submitted + [plan[k]])
  {
    assert plan[..k + 1] == plan[..k] + [plan[k]];
    if !succeeds(|submitted|) {
      AttemptedUpTo(succeeds, |before|, |plan|, k);
    }
  }

  lemma AllDone(succeeds: nat -> bool, before: seq<seq<Command>>, plan: seq<seq<Command>>, submitted: seq<seq<Command>>)
    requires Underway(succeeds, before, plan, |plan|, submitted)
    ensures Performed(succeeds, before, plan, true, submitted)
  {
    AttemptedAll(succeeds, |before|, |plan|);
  }

  class CommandMode {
    const version: Version
    const succeeds: nat -> bool
    var submitted: seq<seq<Command>>

    constructor (version: Version, succeeds: nat -> bool)
      ensures this.version == version && this.succeeds == succeeds && submitted == []
    {
      this.version, this.succeeds, submitted := version, succeeds, [];
    }

    method Submit(request: seq<Command>) returns (ok: bool)
      modifies this
      ensures submitted == old(submitted) + [request] && ok == succeeds(|old(submitted)|)
    {
      ok := succeeds(|submitted|);
      submitted := submitted + [request];
    }

    /** alps_command_mode_send_nibble: the request is put together from the table's entry. */
    method SendNibble(nibble: Nibble) returns (ok: bool)
      modifies this
      ensures submitted == old(submitted) + [RequestFor(version, Digit(nibble))] && ok == succeeds(|old(submitted)|)
    {
      var entry := Table(version, nibble);
      var request := [SendCommandAndCompareAck(entry.command)];
      if entry.data.Some? {
        request := request + [SendCommandAndCompareAck(entry.data.value)];
      }
      if entry.receive {
        request := request + [ReadDataPort(0)];
      }
      assert request == NibbleRequest(version, nibble);
      ok := Submit(request);
    }

    /** alps_command_mode_set_addr: the command, then the nibbles from the highest down. */
    method SetAddress(addr: nat) returns (ok: bool)
      modifies this
      ensures Performed(succeeds, old(submitted), Plan(version, SetAddr(addr)), ok, submitted)
    {
      ghost var before, plan := submitted, Plan(version, SetAddr(addr));
      OneFurther(succeeds, before, plan, 0, submitted);
      ok := Submit([SendCommandAndCompareAck(AddrCommand(version))]);
      if !ok {
        return false;
      }
      var i, unit := 0, 4096;
      while i < 4
        invariant i <= 4 && unit == (if i == 0 then 4096 else if i == 1 then 256 else if i == 2 then 16 else if i == 3 then 1 else 0)
        invariant Underway(succeeds, before, plan, i + 1, submitted)
      {
        OneFurther(succeeds, before, plan, i + 1, submitted);
        var nibble := addr / unit % 16;
        assert Digits(SetAddr(addr))[i + 1] == Digit(nibble);
        ok := SendNibble(nibble);
        if !ok {
          return false;
        }
        unit := unit / 16;
        i := i + 1;
      }
      AllDone(succeeds, before, plan, submitted);
      return true;
    }

    /** alps_command_mode_write_reg: the value's two nibbles. */
    method WriteReg(value: Byte) returns (ok: bool)
      modifies this
      ensures Performed(succeeds, old(submitted), Plan(version, WriteValue(value)), ok, submitted)
    {
      ghost var before, plan := submitted, Plan(version, WriteValue(value));
      OneFurther(succeeds, before, plan, 0, submitted);
      ok := SendNibble(HighNibble(value));
      if !ok {
        return false;
      }
      OneFurther(succeeds, before, plan, 1, submitted);
      ok := SendNibble(LowNibble(value));
      if ok {
        AllDone(succeeds, before, plan, submitted);
      }
    }
  }
}
