/** The controller object: polling reads, writes and the request interpreter, step by step. */
module Controller {
  import opened Options
  import opened PortReads
  import opened Requests

  /** What is to happen to a request once it was processed. */
  datatype Completion = OnStack | NoTarget | Target(hasAction: bool)

  datatype Fate = Called | Freed | Kept

  class Request {
    const port: nat
    const commands: array<Command>
    var commandsCount: nat
    const completion: Completion

    constructor (port: nat, commands: array<Command>, completion: Completion)
      ensures this.port == port && this.commands == commands && this.completion == completion
      ensures commandsCount == commands.Length
    {
      this.port, this.commands, this.completion := port, commands, completion;
      commandsCount := commands.Length;
    }

    ghost predicate Valid()
      reads this
    {
      commandsCount <= commands.Length && port < PORTS
    }
  }

  /** The hand-outs of the first n answers. */
  function HandOuts(mux: bool, p: seq<Answer>, n: nat, polls: nat): (events: seq<Event>)
    requires n <= |p|
    ensures |events| == n
  {
    seq(n, k requires 0 <= k < n => Dispatch(polls + k + 1, PortFromStatus(mux, p[k].status), p[k].data))
  }

  /** Each of them is handed out right after the poll that saw it, to the port that its status names. */
  lemma HandOutsFollowPolls(m: Mode, p: seq<Answer>, n: nat, polls: nat)
    requires n <= |p| && forall k :: 0 <= k < n ==> Ready(p[k])
    ensures forall k :: 0 <= k < n ==>
              var e := HandOuts(m.mux, p, n, polls)[k]; e.Dispatch? && e.at == polls + k + 1 && HandedOutAt(m, p, polls, e)
  {
  }

  /** One of the first n bytes was for the port and completed a packet. */
  ghost predicate Completed(mux: bool, p: seq<Answer>, n: nat, completes: seq<bool>, port: nat) {
    exists k :: 0 <= k < n <= |p| && k < |completes| && completes[k] && PortFromStatus(mux, p[k].status) == port
  }

  lemma HandOutsGrow(mux: bool, p: seq<Answer>, n: nat, polls: nat)
    requires n < |p|
    ensures HandOuts(mux, p, n + 1, polls)
            == HandOuts(mux, p, n, polls) + [Dispatch(polls + n + 1, PortFromStatus(mux, p[n].status), p[n].data)]
  {
  }

  ghost predicate WakesCompleted(mux: bool, p: seq<Answer>, n: nat, completes: seq<bool>, wake: seq<bool>) {
    |wake| == PORTS && forall port :: 0 <= port < PORTS ==> wake[port] == Completed(mux, p, n, completes, port)
  }

  lemma WakesMore(mux: bool, p: seq<Answer>, n: nat, completes: seq<bool>, wake: seq<bool>)
    requires n < |p| && WakesCompleted(mux, p, n, completes, wake)
    ensures var port := PortFromStatus(mux, p[n].status);
            WakesCompleted(mux, p, n + 1, completes, if n < |completes| && completes[n] then wake[port := true] else wake)
  {
    var from := PortFromStatus(mux, p[n].status);
    forall port | 0 <= port < PORTS
      ensures Completed(mux, p, n + 1, completes, port) ==
              (Completed(mux, p, n, completes, port) || (n < |completes| && completes[n] && from == port))
    {
    }
  }

  /** With the entries of the log so far, the rest of a reading amounts to the whole reading. */
  predicate Completes(start: seq<Event>, whole: Reading, log: seq<Event>, r: Reading) {
    && r.byte == whole.byte && r.rest == whole.rest && r.polls == whole.polls
    && log + r.events == start + whole.events
  }

  lemma CompletesAfter(start: seq<Event>, whole: Reading, log: seq<Event>, r: Reading, e: Event)
    requires Completes(start, whole, log, r.(events := [e] + r.events))
    ensures Completes(start, whole, log + [e], r)
  {
    assert log + ([e] + r.events) == (log + [e]) + r.events;
  }

  /** What becomes of a request: a target with an action is called, a request on the stack is left alone. */
  function FateOf(c: Completion): Fate {
    match c
    case OnStack => Kept
    case NoTarget => Freed
    case Target(hasAction) => if hasAction then Called else Freed
  }

  /** Commands done, and the run of the others, make up the whole run. */
  predicate Continues(whole: Run, done: seq<Command>, r: Run) {
    && whole.commands == done + r.commands && whole.io == r.io
    && whole.failed == if r.failed.Some? then Some(r.failed.value + |done|) else None
  }

  /** Commands before index were run without failing, and the others are still to be run. */
  predicate Underway(m: Mode, port: nat, whole: Run, all: seq<Command>, count: nat, index: nat, io: Io, now: seq<Command>) {
    && index <= count <= |all| == |now|
    && now[index..] == all[index..]
    && Continues(whole, now[..index], RunAll(m, port, io, all[index..count]))
  }

  /** The command at index failed. */
  predicate Stopped(whole: Run, all: seq<Command>, count: nat, index: nat, io: Io, now: seq<Command>) {
    && index < count <= |all| && now == whole.commands + all[count..]
    && whole.io == io && whole.failed == Some(index)
  }

  lemma UnderwayStep(m: Mode, port: nat, whole: Run, all: seq<Command>, count: nat, index: nat, io: Io, now: seq<Command>)
    requires index < count && Underway(m, port, whole, all, count, index, io, now)
    ensures var o := Execute(m, port, io, now[index]);
            if o.failed then Stopped(whole, all, count, index, o.io, now[index := o.command])
            else Underway(m, port, whole, all, count, index + 1, o.io, now[index := o.command])
  {
    hide Execute;
    var o, cs := Execute(m, port, io, now[index]), all[index..count];
    Placed(all, count, index, now, o.command);
    assert cs[1..] == all[index + 1..count];
    if o.failed {
      assert now[..index] + ([o.command] + cs[1..]) + all[count..] == now[..index] + [o.command] + (cs[1..] + all[count..]);
    } else {
      var r := RunAll(m, port, o.io, cs[1..]);
      assert now[..index] + ([o.command] + r.commands) == now[..index] + [o.command] + r.commands;
    }
  }

  /** Writing the next element of what is still as it was. */
  lemma Placed(all: seq<Command>, count: nat, index: nat, now: seq<Command>, c: Command)
    requires index < count <= |all| == |now| && now[index..] == all[index..]
    ensures now[index] == all[index] && now[index := c][..index + 1] == now[..index] + [c]
    ensures now[index := c][index + 1..] == all[index + 1..] == all[index + 1..count] + all[count..]
    ensures now[index := c] == now[..index] + [c] + all[index + 1..]
  {
    assert now[index] == now[index..][0];
    assert now[index := c][index + 1..] == now[index..][1..];
    assert all[index..][1..] == all[index + 1..];
  }

  lemma UnderwayEnds(m: Mode, port: nat, whole: Run, all: seq<Command>, count: nat, io: Io, now: seq<Command>)
    requires Underway(m, port, whole, all, count, count, io, now)
    ensures whole.io == io && whole.failed.None? && now == whole.commands + all[count..]
  {
    assert now == now[..count] + now[count..];
  }

  /** A poll after some of the waiting bytes were taken: whether there is another one, and what is left if there is none. */
  lemma PollSees(io: Io, taken: nat, after: seq<Answer>, ready: bool)
    requires taken <= |io.pending| && taken + Waiting(io.pending[taken..]) == Waiting(io.pending)
    requires ready ==> after == io.pending[taken..] && after != [] && Ready(after[0])
    requires !ready ==> if io.pending[taken..] == [] then after == []
                        else !Ready(io.pending[taken..][0]) && after == io.pending[taken..][1..]
    ensures ready ==> taken < |io.pending| && after[1..] == io.pending[taken + 1..]
                      && taken + 1 + Waiting(after[1..]) == Waiting(io.pending)
    ensures !ready ==> taken == Waiting(io.pending) && Flushed(io) == Io(after, io.polls + taken + 1, io.log)
  {
  }

  lemma CountsOn(n: nat)
    ensures (n % UINT32 + 1) % UINT32 == (n + 1) % UINT32
  {
  }

  lemma NothingHandedOut(mux: bool, p: seq<Answer>, polls: nat, completes: seq<bool>)
    ensures HandOuts(mux, p, 0, polls) == []
    ensures WakesCompleted(mux, p, 0, completes, [false, false, false, false, false])
  {
  }

  /** The same when the byte is taken with the poll. */
  lemma ByteSees(io: Io, taken: nat, after: seq<Answer>, more: bool)
    requires taken <= |io.pending| && taken + Waiting(io.pending[taken..]) == Waiting(io.pending)
    requires more == (io.pending[taken..] != [] && Ready(io.pending[taken..][0]))
    requires after == if io.pending[taken..] == [] then [] else io.pending[taken..][1..]
    ensures more ==> taken < |io.pending| && after == io.pending[taken + 1..] && io.pending[taken..][0] == io.pending[taken]
                     && taken + 1 + Waiting(io.pending[taken + 1..]) == Waiting(io.pending)
    ensures !more ==> taken == Waiting(io.pending) && Flushed(io) == Io(after, io.polls + taken + 1, io.log)
  {
  }

  lemma NothingTaken(p: seq<Answer>)
    ensures p[0..] == p
  {
  }

  class ApplePS2Controller {
    var muxPresent: bool
    var suppressTimeout: bool
    var hardwareOffline: bool
    var ignoreInterrupts: int

    // The hardware: the answers still to come, the polls made, and what was written and handed out.
    var pending: seq<Answer>
    var polls: nat
    var log: seq<Event>

    function Settings(): Mode
      reads this`muxPresent, this`suppressTimeout
    {
      Mode(muxPresent, suppressTimeout)
    }

    ghost function State(): Io
      reads this`pending, this`polls, this`log
    {
      Io(pending, polls, log)
    }

    /** One read of the status register. */
    method Poll() returns (status: Byte)
      modifies this`pending, this`polls
      ensures polls == old(polls) + 1
      ensures status & 0x01 != 0 ==> pending == old(pending) && pending != [] && Ready(pending[0]) && status == pending[0].status
      ensures status & 0x01 == 0 ==>
                if old(pending) == [] then pending == [] else !Ready(old(pending)[0]) && pending == old(pending)[1..]
    {
      polls := polls + 1;
      if pending == [] {
        return 0;
      }
      status := pending[0].status;
      if status & 0x01 == 0 {
        pending := pending[1..];
      }
    }

    /** One read of the data port while a byte waits there. */
    method TakeData() returns (byte: Byte)
      requires pending != [] && Ready(pending[0])
      modifies this`pending
      ensures byte == old(pending)[0].data && pending == old(pending)[1..]
    {
      byte := pending[0].data;
      pending := pending[1..];
    }

    method WriteCommandPort(byte: Byte)
      modifies this`log
      ensures log == old(log) + [CommandOut(polls, byte)]
    {
      log := log + [CommandOut(polls, byte)];
    }

    method WriteDataPort(byte: Byte)
      modifies this`log
      ensures log == old(log) + [DataOut(polls, byte)]
    {
      log := log + [DataOut(polls, byte)];
    }

    method DispatchDriverInterrupt(port: nat, byte: Byte)
      modifies this`log
      ensures log == old(log) + [Dispatch(polls, port, byte)]
    {
      log := log + [Dispatch(polls, port, byte)];
    }

    /** The waiting loop of both readers: what is left of the time, and the status that showed a byte. */
    method WaitForOutput(timeout: nat) returns (timeoutCounter: nat, status: Byte)
      modifies this`pending, this`polls
      ensures var w := Wait(old(pending), timeout, old(polls));
              && timeoutCounter == w.left && pending == w.rest
              && (if timeoutCounter > 0 then polls == w.polls + 1 && status == pending[0].status else polls == w.polls)
    {
      timeoutCounter, status := timeout, 0;
      ghost var w := Wait(pending, timeout, polls);
      var ready := false;
      while timeoutCounter > 0 && !ready
        invariant !ready ==> w == Wait(pending, timeoutCounter, polls)
        invariant ready ==> polls > 0 && timeoutCounter > 0 && w == Wait(pending, timeoutCounter, polls - 1)
                            && pending != [] && Ready(pending[0]) && status == pending[0].status
        decreases timeoutCounter, !ready
      {
        status := Poll();
        ready := status & 0x01 != 0;
        if !ready {
          timeoutCounter := timeoutCounter - 1;
        }
      }
    }

    /** The next byte that comes in time, and the port it is from. */
    method NextByte(timeout: nat) returns (timeoutCounter: nat, port: nat, byte: Byte)
      modifies this`pending, this`polls
      ensures var w := Wait(old(pending), timeout, old(polls));
              && timeoutCounter == w.left
              && (timeoutCounter == 0 ==> pending == w.rest && polls == w.polls)
              && (timeoutCounter > 0 ==> pending == w.rest[1..] && polls == w.polls + 1 && |pending| < |old(pending)|
                                         && byte == w.rest[0].data && port == PortFromStatus(muxPresent, w.rest[0].status))
    {
      var status;
      timeoutCounter, status := WaitForOutput(timeout);
      if timeoutCounter == 0 {
        return 0, KBD, 0;
      }
      byte := TakeData();
      port := PortFromStatus(muxPresent, status);
    }

    /** Waits for the next byte of a port; bytes of other ports go to their drivers meanwhile. */
    method ReadDataPort(expectedPort: nat) returns (byte: Byte)
      modifies this`pending, this`polls, this`log
      ensures byte == Any(Settings(), expectedPort, old(State())).byte
      ensures State() == After(old(State()), Any(Settings(), expectedPort, old(State())))
    {
      ghost var m, whole := Settings(), Any(Settings(), expectedPort, State());
      var timeoutCounter: nat := READ_TIMEOUT;
      while true
        invariant Settings() == m
        invariant Completes(old(log), whole, log, ReadAny(m, expectedPort, pending, timeoutCounter, polls))
        decreases |pending|
      {
        ReadAnyWaits(m, expectedPort, pending, timeoutCounter, polls);
        var port;
        timeoutCounter, port, byte := NextByte(timeoutCounter);
        if timeoutCounter == 0 {
          return 0;
        }
        if suppressTimeout {
          return byte;
        }
        if expectedPort == port {
          return byte;
        }
        CompletesAfter(old(log), whole, log, ReadAny(m, expectedPort, pending, timeoutCounter, polls),
                       Dispatch(polls, port, byte));
        DispatchDriverInterrupt(port, byte);
      }
    }

    /** The end of a reading that expects a byte: of two bytes one is returned and the other one handed on. */
    method Settle(port: nat, expectedByte: Byte, readByte: Byte, firstByte: Option<Byte>) returns (byte: Byte)
      requires readByte == expectedByte || firstByte.Some?
      modifies this`log
      ensures byte == if readByte == expectedByte then readByte else firstByte.value
      ensures log == old(log) + if firstByte.Some?
                                then [Dispatch(polls, port, if readByte == expectedByte then firstByte.value else readByte)] else []
    {
      if readByte == expectedByte {
        if firstByte.Some? {
          DispatchDriverInterrupt(port, firstByte.value);
        }
        return readByte;
      }
      DispatchDriverInterrupt(port, readByte);
      return firstByte.value;
    }

    /** One turn of the loop that expects a byte; firstByte is the byte put aside, if any. */
    method ExpectTurn(expectedPort: nat, expectedByte: Byte, timeout: nat, firstByte: Option<Byte>)
      returns (done: bool, byte: Byte, timeoutCounter: nat, held: Option<Byte>)
      modifies this`pending, this`polls, this`log
      ensures Completes(old(log), ReadExpecting(Settings(), expectedPort, expectedByte, firstByte, old(pending), timeout, old(polls)),
                        log,
                        if done then Reading(byte, pending, polls, [])
                        else ReadExpecting(Settings(), expectedPort, expectedByte, held, pending, timeoutCounter, polls))
      ensures !done ==> |pending| < |old(pending)|
    {
      ghost var m := Settings();
      ReadExpectingTurn(m, expectedPort, expectedByte, firstByte, pending, timeout, polls);
      var port;
      held := firstByte;
      timeoutCounter, port, byte := NextByte(timeout);
      done := timeoutCounter == 0;
      if done {
        byte := if firstByte.Some? then firstByte.value else 0;
      } else if expectedPort == port {
        done := byte == expectedByte || firstByte.Some?;
        if done {
          byte := Settle(port, expectedByte, byte, firstByte);
        } else {
          held := Some(byte);
        }
      } else {
        CompletesAfter(log, ReadExpecting(m, expectedPort, expectedByte, firstByte, old(pending), timeout, old(polls)), log,
                       ReadExpecting(m, expectedPort, expectedByte, firstByte, pending, timeoutCounter, polls),
                       Dispatch(polls, port, byte));
        DispatchDriverInterrupt(port, byte);
      }
    }

    /** The same, preferring an expected byte: one unexpected byte is put aside until the next one of the port comes. */
    method ReadDataPortExpecting(expectedPort: nat, expectedByte: Byte) returns (byte: Byte)
      modifies this`pending, this`polls, this`log
      ensures byte == Expecting(Settings(), expectedPort, old(State()), expectedByte).byte
      ensures State() == After(old(State()), Expecting(Settings(), expectedPort, old(State()), expectedByte))
    {
      ghost var whole := Expecting(Settings(), expectedPort, State(), expectedByte);
      var firstByte: Option<Byte> := None;
      var timeoutCounter: nat := EXPECT_TIMEOUT;
      while true
        invariant Completes(old(log), whole, log,
                            ReadExpecting(Settings(), expectedPort, expectedByte, firstByte, pending, timeoutCounter, polls))
        decreases |pending|
      {
        var done;
        done, byte, timeoutCounter, firstByte := ExpectTurn(expectedPort, expectedByte, timeoutCounter, firstByte);
        if done {
          return byte;
        }
      }
    }

    /** Sends a byte to the device at a port. */
    method TransmitTo(port: nat, byte: Byte)
      requires port < PORTS
      modifies this`log
      ensures State() == Transmit(muxPresent, port, old(State()), byte)
    {
      if port >= AUX {
        if muxPresent {
          WriteCommandPort(TRANSMIT_TO_MUXED_MOUSE + (port - AUX) as Byte);
        } else {
          WriteCommandPort(TRANSMIT_TO_MOUSE);
        }
      }
      WriteDataPort(byte);
    }

    /** Throws away the bytes that wait; their number is kept in 32 bits. */
    method Flush() returns (count: nat)
      modifies this`pending, this`polls
      ensures count == Waiting(old(pending)) % UINT32
      ensures State() == Flushed(old(State()))
    {
      hide Waiting, Flushed, Ready;
      count := 0;
      ghost var io, taken := State(), 0;
      NothingTaken(pending);
      var status := Poll();
      PollSees(io, 0, pending, status & 0x01 != 0);
      while status & 0x01 != 0
        invariant taken <= |io.pending| && taken + Waiting(io.pending[taken..]) == Waiting(io.pending)
        invariant polls == io.polls + taken + 1 && count == taken % UINT32
        invariant status & 0x01 != 0 ==>
                    taken < |io.pending| && pending == io.pending[taken..] && pending != [] && Ready(pending[0])
                    && pending[1..] == io.pending[taken + 1..] && taken + 1 + Waiting(pending[1..]) == Waiting(io.pending)
        invariant status & 0x01 == 0 ==> taken == Waiting(io.pending) && State() == Flushed(io)
        decreases |pending|, status & 0x01 != 0
      {
        CountsOn(taken);
        count := (count + 1) % UINT32;
        var discarded := TakeData();
        taken := taken + 1;
        status := Poll();
        PollSees(io, taken, pending, status & 0x01 != 0);
      }
    }

    /** Reads the controller's command byte and writes it back changed. */
    method ChangeCommandByte(setBits: Byte, clearBits: Byte) returns (oldBits: Byte)
      modifies this`pending, this`polls, this`log
      ensures var o := Execute(Settings(), KBD, old(State()), ModifyCommandByte(setBits, clearBits, 0));
              State() == o.io && oldBits == o.command.oldBits
    {
      WriteCommandPort(GET_COMMAND_BYTE);
      oldBits := ReadDataPort(KBD);
      WriteCommandPort(SET_COMMAND_BYTE);
      WriteDataPort(Modified(oldBits, setBits, clearBits));
    }

    /** One command of a request. */
    method ExecuteCommand(port: nat, c: Command) returns (done: Command, failed: bool)
      requires port < PORTS
      modifies this`pending, this`polls, this`log
      ensures Outcome(done, State(), failed) == Execute(Settings(), port, old(State()), c)
    {
      done, failed := c, false;
      match c {
        case ReadDataPort(_) =>
          var byte := ReadDataPort(port);
          done := Command.ReadDataPort(byte);
        case ReadDataPortAndCompare(expected) =>
          var byte := ReadDataPortExpecting(port, expected);
          done, failed := Command.ReadDataPortAndCompare(byte), byte != expected;
        case WriteDataPort(b) =>
          TransmitTo(port, b);
        case SendCommandAndCompareAck(b) =>
          TransmitTo(port, b);
          var byte := ReadDataPortExpecting(port, ACK);
          failed := byte != ACK;
        case FlushDataPort(_) =>
          var count := Flush();
          done := Command.FlushDataPort(count);
        case SleepMS(ms) =>
          log := log + [Pause(polls, ms)];
        case ModifyCommandByte(setBits, clearBits, _) =>
          var oldBits := ChangeCommandByte(setBits, clearBits);
          done := Command.ModifyCommandByte(setBits, clearBits, oldBits);
      }
    }

    /** Runs the commands of a request until one fails; the count then tells which one. */
    method ProcessRequest(request: Request) returns (fate: Fate)
      requires request.Valid()
      modifies this, request`commandsCount, request.commands
      ensures request.Valid() && ignoreInterrupts == old(ignoreInterrupts)
      ensures Settings() == old(Settings()) && hardwareOffline == old(hardwareOffline)
      ensures hardwareOffline ==> State() == old(State()) && request.commandsCount == 0
                                  && request.commands[..] == old(request.commands[..])
      ensures !hardwareOffline ==>
                var r := RunAll(Settings(), request.port, old(State()), old(request.commands[..request.commandsCount]));
                && State() == r.io
                && request.commands[..] == r.commands + old(request.commands[request.commandsCount..])
                && request.commandsCount == CountAfter(old(request.commandsCount), r)
      ensures fate == FateOf(request.completion)
    {
      var failed, index := false, 0;
      if hardwareOffline {
        failed := true;
      } else {
        ignoreInterrupts := ignoreInterrupts + 1;
        index, failed := RunCommands(request);
        ignoreInterrupts := ignoreInterrupts - 1;
      }
      if failed {
        request.commandsCount := index;
      }
      fate := FateOf(request.completion);
    }

    /** Command number index of a request. */
    method RunCommand(request: Request, index: nat) returns (failed: bool)
      requires request.Valid() && index < request.commandsCount
      modifies this`pending, this`polls, this`log, request.commands
      ensures var o := Execute(Settings(), request.port, old(State()), old(request.commands[index]));
              && request.commands[..] == old(request.commands[..])[index := o.command]
              && State() == o.io && failed == o.failed
    {
      var command;
      command, failed := ExecuteCommand(request.port, request.commands[index]);
      request.commands[index] := command;
    }

    /** The loop over the commands. */
    method RunCommands(request: Request) returns (index: nat, failed: bool)
      requires request.Valid()
      modifies this`pending, this`polls, this`log, request.commands
      ensures var r := RunAll(Settings(), request.port, old(State()), old(request.commands[..request.commandsCount]));
              && State() == r.io
              && request.commands[..] == r.commands + old(request.commands[request.commandsCount..])
              && failed == r.failed.Some? && index == CountAfter(request.commandsCount, r)
    {
      ghost var all, count := request.commands[..], request.commandsCount;
      ghost var m, whole := Settings(), RunAll(Settings(), request.port, State(), all[..count]);
      index, failed := 0, false;
      while index < request.commandsCount && !failed
        invariant index <= count
        invariant if failed then Stopped(whole, all, count, index, State(), request.commands[..])
                  else Underway(m, request.port, whole, all, count, index, State(), request.commands[..])
        decreases request.commandsCount - index, !failed
      {
        UnderwayStep(m, request.port, whole, all, count, index, State(), request.commands[..]);
        failed := RunCommand(request, index);
        if !failed {
          index := index + 1;
        }
      }
      if !failed {
        UnderwayEnds(m, request.port, whole, all, count, State(), request.commands[..]);
      }
    }

    /** handleInterrupt: hands out all bytes that wait and then raises the events of the ports whose driver reported a
        complete packet; what the drivers report for the bytes is given. */
    method HandleInterrupt(nubsCount: nat, completes: seq<bool>) returns (raised: seq<nat>)
      requires nubsCount <= PORTS
      modifies this`pending, this`polls, this`log
      ensures var n := Waiting(old(pending));
              && State() == Flushed(old(State())).(log := old(log) + HandOuts(muxPresent, old(pending), n, old(polls)))
              && (forall port: nat :: port in raised <==> port < nubsCount && Completed(muxPresent, old(pending), n, completes, port))
      ensures forall i, j :: 0 <= i < j < |raised| ==> raised[i] < raised[j]
    {
      var wakePort := CollectBytes(completes);
      raised := [];
      var i := KBD;
      while i < nubsCount
        invariant i <= nubsCount
        invariant forall port: nat :: port in raised <==> port < i && wakePort[port]
        invariant forall k :: 0 <= k < |raised| ==> raised[k] < i
        invariant forall j, k :: 0 <= j < k < |raised| ==> raised[j] < raised[k]
        modifies {}
      {
        if wakePort[i] {
          raised := raised + [i];
        }
        i := i + 1;
      }
    }

    /** Hands out the next byte if one waits. */
    method HandleByte() returns (more: bool, port: nat)
      modifies this`pending, this`polls, this`log
      ensures polls == old(polls) + 1 && more == (old(pending) != [] && Ready(old(pending)[0]))
      ensures pending == if old(pending) == [] then [] else old(pending)[1..]
      ensures more ==> port == PortFromStatus(muxPresent, old(pending)[0].status)
                       && log == old(log) + [Dispatch(polls, port, old(pending)[0].data)]
      ensures !more ==> log == old(log)
    {
      var status := Poll();
      if status & 0x01 == 0 {
        return false, KBD;
      }
      more, port := true, PortFromStatus(muxPresent, status);
      var data := TakeData();
      DispatchDriverInterrupt(port, data);
    }

    /** The loop over the bytes that wait. */
    method CollectBytes(completes: seq<bool>) returns (wakePort: seq<bool>)
      modifies this`pending, this`polls, this`log
      ensures var n := Waiting(old(pending));
              && State() == Flushed(old(State())).(log := old(log) + HandOuts(muxPresent, old(pending), n, old(polls)))
              && WakesCompleted(muxPresent, old(pending), n, completes, wakePort)
    {
      hide Waiting, Flushed, Ready, HandOuts, WakesCompleted, PortFromStatus;
      wakePort := [false, false, false, false, false];
      ghost var io, p := State(), pending;
      NothingTaken(p);
      NothingHandedOut(muxPresent, p, polls, completes);
      var taken := 0;
      while true
        invariant taken <= |p| && pending == p[taken..] && polls == io.polls + taken
        invariant taken + Waiting(p[taken..]) == Waiting(p)
        invariant log == io.log + HandOuts(muxPresent, p, taken, io.polls) && |wakePort| == PORTS
        invariant WakesCompleted(muxPresent, p, taken, completes, wakePort)
        decreases |pending|
      {
        var more, port := HandleByte();
        ByteSees(io, taken, pending, more);
        if !more {
          break;
        }
        HandOutsGrow(muxPresent, p, taken, old(polls));
        WakesMore(muxPresent, p, taken, completes, wakePort);
        if taken < |completes| && completes[taken] {
          wakePort := wakePort[port := true];
        }
        taken := taken + 1;
      }
    }
  }
}
