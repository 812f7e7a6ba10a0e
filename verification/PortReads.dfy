/** Reading the i8042 data port for one device while every device of the controller may be talking. */
module PortReads {
  import opened Options

  type Byte = bv8

  /** One poll of the status register, with the byte that waits in the data port if the status says so. */
  datatype Answer = Answer(status: Byte, data: Byte)

  /** What the controller does, each entry stamped with the number of polls made before it. */
  datatype Event =
    | CommandOut(at: nat, byte: Byte)
    | DataOut(at: nat, byte: Byte)
    | Dispatch(at: nat, port: nat, byte: Byte)
    | Pause(at: nat, ms: nat)

  const KBD := 0
  const AUX := 1
  const PORTS := 5

  predicate Ready(a: Answer) {
    a.status & 0x01 != 0
  }

  function PortFromStatus(mux: bool, status: Byte): (port: nat)
    ensures port < PORTS
    ensures port == KBD <==> status & 0x20 == 0
    ensures !mux ==> port <= AUX
    ensures mux && status & 0x20 != 0 ==>
              port == if status & 0xC0 == 0 then 1 else if status & 0xC0 == 0x40 then 2 else if status & 0xC0 == 0x80 then 3 else 4
  {
    if status & 0x20 == 0 then KBD
    else if mux then AUX + ((status >> 6) & 0x03) as nat
    else AUX
  }

  // ---- The two readers

  /** The byte returned, the answers not used, the polls made so far, and the bytes handed to drivers. */
  datatype Reading = Reading(byte: Byte, rest: seq<Answer>, polls: nat, events: seq<Event>)

  /** Settings that the readers look at. */
  datatype Mode = Mode(mux: bool, suppress: bool)

  /** readDataPort(port) from the given answers, the last of which is followed by "not ready" for ever. */
  function ReadAny(m: Mode, port: nat, p: seq<Answer>, timeout: nat, polls: nat): Reading
    decreases |p|
  {
    if timeout == 0 then Reading(0, p, polls, [])
    else if p == [] then Reading(0, [], polls + timeout, [])
    else if !Ready(p[0]) then ReadAny(m, port, p[1..], timeout - 1, polls + 1)
    else
      var from := PortFromStatus(m.mux, p[0].status);
      if m.suppress || from == port then Reading(p[0].data, p[1..], polls + 1, [])
      else
        var r := ReadAny(m, port, p[1..], timeout, polls + 1);
        r.(events := [Dispatch(polls + 1, from, p[0].data)] + r.events)
  }

  /** readDataPort(port, expected) with the byte put aside so far. */
  function ReadExpecting(m: Mode, port: nat, expected: Byte, held: Option<Byte>,
                         p: seq<Answer>, timeout: nat, polls: nat): Reading
    decreases |p|
  {
    var fallback := if held.Some? then held.value else 0;
    if timeout == 0 then Reading(fallback, p, polls, [])
    else if p == [] then Reading(fallback, [], polls + timeout, [])
    else if !Ready(p[0]) then ReadExpecting(m, port, expected, held, p[1..], timeout - 1, polls + 1)
    else
      var from, byte := PortFromStatus(m.mux, p[0].status), p[0].data;
      if from != port then
        var r := ReadExpecting(m, port, expected, held, p[1..], timeout, polls + 1);
        r.(events := [Dispatch(polls + 1, from, byte)] + r.events)
      else if byte == expected then
        Reading(byte, p[1..], polls + 1, if held.Some? then [Dispatch(polls + 1, port, held.value)] else [])
      else if held.Some? then
        Reading(held.value, p[1..], polls + 1, [Dispatch(polls + 1, port, byte)])
      else ReadExpecting(m, port, expected, Some(byte), p[1..], timeout, polls + 1)
  }

  // ---- The inner waiting loop of both readers

  datatype Waited = Waited(rest: seq<Answer>, left: nat, polls: nat)

  /** Polls until a byte is ready or the time is up; the last poll, which saw the byte, is not counted. */
  function Wait(p: seq<Answer>, timeout: nat, polls: nat): (w: Waited)
    ensures w.left > 0 ==> w.rest != [] && Ready(w.rest[0])
    ensures |w.rest| <= |p|
    decreases |p|
  {
    if timeout == 0 then Waited(p, 0, polls)
    else if p == [] then Waited([], 0, polls + timeout)
    else if !Ready(p[0]) then Wait(p[1..], timeout - 1, polls + 1)
    else Waited(p, timeout, polls)
  }

  lemma {:induction false} ReadAnyWaits(m: Mode, port: nat, p: seq<Answer>, timeout: nat, polls: nat)
    ensures var w := Wait(p, timeout, polls);
            ReadAny(m, port, p, timeout, polls) == ReadAny(m, port, w.rest, w.left, w.polls)
    decreases |p|
  {
    if timeout > 0 && p != [] && !Ready(p[0]) {
      ReadAnyWaits(m, port, p[1..], timeout - 1, polls + 1);
    }
  }

  lemma {:induction false} ReadExpectingWaits(m: Mode, port: nat, expected: Byte, held: Option<Byte>,
                                              p: seq<Answer>, timeout: nat, polls: nat)
    ensures var w := Wait(p, timeout, polls);
            ReadExpecting(m, port, expected, held, p, timeout, polls)
            == ReadExpecting(m, port, expected, held, w.rest, w.left, w.polls)
    decreases |p|
  {
    if timeout > 0 && p != [] && !Ready(p[0]) {
      ReadExpectingWaits(m, port, expected, held, p[1..], timeout - 1, polls + 1);
    }
  }

  /** One turn of the loop that expects a byte, once it waited. */
  lemma ReadExpectingTurn(m: Mode, port: nat, expected: Byte, held: Option<Byte>, p: seq<Answer>, timeout: nat, polls: nat)
    ensures var w, whole := Wait(p, timeout, polls), ReadExpecting(m, port, expected, held, p, timeout, polls);
            if w.left == 0 then whole == Reading(if held.Some? then held.value else 0, w.rest, w.polls, [])
            else
              var from, byte := PortFromStatus(m.mux, w.rest[0].status), w.rest[0].data;
              if from != port then
                var r := ReadExpecting(m, port, expected, held, w.rest[1..], w.left, w.polls + 1);
                whole == r.(events := [Dispatch(w.polls + 1, from, byte)] + r.events)
              else if byte != expected && held.None? then
                whole == ReadExpecting(m, port, expected, Some(byte), w.rest[1..], w.left, w.polls + 1)
              else
                && whole.byte == (if byte == expected then byte else held.value)
                && whole.rest == w.rest[1..] && whole.polls == w.polls + 1
                && whole.events == if held.Some? then [Dispatch(w.polls + 1, port, if byte == expected then held.value else byte)]
                                   else []
  {
    ReadExpectingWaits(m, port, expected, held, p, timeout, polls);
  }

  // ---- What the device sent, and where each byte went

  /** The bytes for a port that arrive before the time is up, in order. */
  function Arriving(m: Mode, port: nat, p: seq<Answer>, timeout: nat): seq<Byte> {
    if p == [] || timeout == 0 then []
    else if p[0].status & 0x01 == 0 then Arriving(m, port, p[1..], timeout - 1)
    else if PortFromStatus(m.mux, p[0].status) == port then [p[0].data] + Arriving(m, port, p[1..], timeout)
    else Arriving(m, port, p[1..], timeout)
  }

  /** The bytes for a port among all of the answers. */
  function SentTo(m: Mode, port: nat, p: seq<Answer>): seq<Byte> {
    if p == [] then []
    else if p[0].status & 0x01 != 0 && PortFromStatus(m.mux, p[0].status) == port then [p[0].data] + SentTo(m, port, p[1..])
    else SentTo(m, port, p[1..])
  }

  /** The bytes handed to the driver of a port. */
  function HandedTo(port: nat, events: seq<Event>): seq<Byte> {
    if events == [] then []
    else if events[0].Dispatch? && events[0].port == port then [events[0].byte] + HandedTo(port, events[1..])
    else HandedTo(port, events[1..])
  }

  /** The answers a reading used up. */
  function Used(p: seq<Answer>, rest: seq<Answer>): seq<Answer> {
    if |rest| <= |p| then p[..|p| - |rest|] else []
  }

  /** The reading used a stretch of the answers. */
  predicate UsesPrefix(p: seq<Answer>, rest: seq<Answer>) {
    |rest| <= |p| && rest == p[|p| - |rest|..]
  }

  /** The reading did nothing but hand out bytes. */
  ghost predicate OnlyHandsOut(events: seq<Event>) {
    forall k :: 0 <= k < |events| ==> events[k].Dispatch?
  }

  // ---- readDataPort(port, expected)

  /** The answer by its meaning: the expected byte if it is the first or the second to come, the first one otherwise. */
  function Chosen(expected: Byte, own: seq<Byte>): Byte {
    if own == [] then 0
    else if |own| > 1 && own[1] == expected then expected
    else own[0]
  }

  function Before(held: Option<Byte>): seq<Byte> {
    if held.Some? then [held.value] else []
  }

  lemma {:induction false} ReadExpectingAdvances(m: Mode, port: nat, expected: Byte, held: Option<Byte>,
                                                  p: seq<Answer>, timeout: nat, polls: nat)
    requires p != [] && timeout > 0
    ensures |ReadExpecting(m, port, expected, held, p, timeout, polls).rest| < |p|
    decreases |p|
  {
    if !Ready(p[0]) {
      if p[1..] != [] && timeout > 1 {
        ReadExpectingAdvances(m, port, expected, held, p[1..], timeout - 1, polls + 1);
      }
    } else if p[1..] != [] {
      ReadExpectingAdvances(m, port, expected, held, p[1..], timeout, polls + 1);
      ReadExpectingAdvances(m, port, expected, Some(p[0].data), p[1..], timeout, polls + 1);
    }
  }

  lemma {:induction false} ReadExpectingUsesPrefix(m: Mode, port: nat, expected: Byte, held: Option<Byte>,
                                                 p: seq<Answer>, timeout: nat, polls: nat)
    ensures UsesPrefix(p, ReadExpecting(m, port, expected, held, p, timeout, polls).rest)
    decreases |p|
  {
    if timeout == 0 || p == [] {
    } else if !Ready(p[0]) {
      ReadExpectingUsesPrefix(m, port, expected, held, p[1..], timeout - 1, polls + 1);
    } else if PortFromStatus(m.mux, p[0].status) != port {
      ReadExpectingUsesPrefix(m, port, expected, held, p[1..], timeout, polls + 1);
    } else if p[0].data != expected && held.None? {
      ReadExpectingUsesPrefix(m, port, expected, Some(p[0].data), p[1..], timeout, polls + 1);
    }
  }

  lemma {:induction false} ReadExpectingHandsOut(m: Mode, port: nat, expected: Byte, held: Option<Byte>,
                                                 p: seq<Answer>, timeout: nat, polls: nat)
    ensures OnlyHandsOut(ReadExpecting(m, port, expected, held, p, timeout, polls).events)
    decreases |p|
  {
    if timeout == 0 || p == [] {
    } else if !Ready(p[0]) {
      ReadExpectingHandsOut(m, port, expected, held, p[1..], timeout - 1, polls + 1);
    } else if PortFromStatus(m.mux, p[0].status) != port {
      ReadExpectingHandsOut(m, port, expected, held, p[1..], timeout, polls + 1);
    } else if p[0].data != expected && held.None? {
      ReadExpectingHandsOut(m, port, expected, Some(p[0].data), p[1..], timeout, polls + 1);
    }
  }

  /** Which byte is returned, for every device. */
  lemma {:induction false} ReadExpectingChooses(m: Mode, port: nat, expected: Byte, held: Option<Byte>,
                                                p: seq<Answer>, timeout: nat, polls: nat)
    requires held.Some? ==> held.value != expected
    ensures ReadExpecting(m, port, expected, held, p, timeout, polls).byte
            == Chosen(expected, Before(held) + Arriving(m, port, p, timeout))
    decreases |p|
  {
    if timeout == 0 || p == [] {
    } else if !Ready(p[0]) {
      ReadExpectingChooses(m, port, expected, held, p[1..], timeout - 1, polls + 1);
    } else if PortFromStatus(m.mux, p[0].status) != port {
      ReadExpectingChooses(m, port, expected, held, p[1..], timeout, polls + 1);
    } else if p[0].data != expected && held.None? {
      ReadExpectingChooses(m, port, expected, Some(p[0].data), p[1..], timeout, polls + 1);
      assert Before(Some(p[0].data)) + Arriving(m, port, p[1..], timeout) == Arriving(m, port, p, timeout);
    }
  }

  /** How the bytes of the requested port are shared between the caller and the driver. */
  predicate SharedOut(own: seq<Byte>, expected: Byte, returned: Byte, handed: seq<Byte>) {
    || (own == [] && returned == 0 && handed == [])
    || (own == [returned] && handed == [])
    || (returned == expected && |handed| == 1 && handed[0] != expected && own == [handed[0], returned])
    || (returned != expected && |handed| == 1 && handed[0] != expected && own == [returned, handed[0]])
  }

  /** The same for what is read once a byte was put aside. */
  predicate SharedOutHeld(own: seq<Byte>, held: Byte, expected: Byte, returned: Byte, handed: seq<Byte>) {
    || (own == [] && returned == held && handed == [])
    || (own == [expected] && returned == expected && handed == [held])
    || (|own| == 1 && own[0] != expected && returned == held && handed == own)
  }

  /** With a byte put aside at most one more of the port is read. */
  lemma {:induction false} SharesOutHeld(m: Mode, port: nat, expected: Byte, held: Byte,
                                         p: seq<Answer>, timeout: nat, polls: nat)
    requires held != expected
    ensures var r := ReadExpecting(m, port, expected, Some(held), p, timeout, polls);
            SharedOutHeld(SentTo(m, port, Used(p, r.rest)), held, expected, r.byte, HandedTo(port, r.events))
    decreases |p|
  {
    var r := ReadExpecting(m, port, expected, Some(held), p, timeout, polls);
    if timeout == 0 || p == [] {
      assert SentTo(m, port, Used(p, r.rest)) == [];
    } else {
      ReadExpectingAdvances(m, port, expected, Some(held), p, timeout, polls);
      UsedStarts(m, port, p, r.rest);
      if !Ready(p[0]) {
        SharesOutHeld(m, port, expected, held, p[1..], timeout - 1, polls + 1);
        assert SentTo(m, port, Used(p, r.rest)) == SentTo(m, port, Used(p[1..], r.rest));
      } else if PortFromStatus(m.mux, p[0].status) != port {
        SharesOutHeld(m, port, expected, held, p[1..], timeout, polls + 1);
        assert SentTo(m, port, Used(p, r.rest)) == SentTo(m, port, Used(p[1..], r.rest));
        assert HandedTo(port, r.events) == HandedTo(port, r.events[1..]);
      } else {
        assert Used(p[1..], r.rest) == [];
        assert SentTo(m, port, Used(p, r.rest)) == [p[0].data];
        assert HandedTo(port, r.events) == [if p[0].data == expected then held else p[0].data];
      }
    }
  }

  lemma HeldIsFirst(own: seq<Byte>, held: Byte, expected: Byte, returned: Byte, handed: seq<Byte>)
    requires held != expected && SharedOutHeld(own, held, expected, returned, handed)
    ensures SharedOut([held] + own, expected, returned, handed)
  {
  }

  /** Every byte of the requested port that was read is returned or handed to its driver, and at most two are read. */
  lemma {:induction false} ReadExpectingSharesOut(m: Mode, port: nat, expected: Byte,
                                                  p: seq<Answer>, timeout: nat, polls: nat)
    ensures var r := ReadExpecting(m, port, expected, None, p, timeout, polls);
            SharedOut(SentTo(m, port, Used(p, r.rest)), expected, r.byte, HandedTo(port, r.events))
    decreases |p|
  {
    var r := ReadExpecting(m, port, expected, None, p, timeout, polls);
    if timeout == 0 || p == [] {
    } else {
      ReadExpectingAdvances(m, port, expected, None, p, timeout, polls);
      UsedStarts(m, port, p, r.rest);
      if !Ready(p[0]) {
        ReadExpectingSharesOut(m, port, expected, p[1..], timeout - 1, polls + 1);
        assert SentTo(m, port, Used(p, r.rest)) == SentTo(m, port, Used(p[1..], r.rest));
      } else if PortFromStatus(m.mux, p[0].status) != port {
        ReadExpectingSharesOut(m, port, expected, p[1..], timeout, polls + 1);
        assert SentTo(m, port, Used(p, r.rest)) == SentTo(m, port, Used(p[1..], r.rest));
        assert HandedTo(port, r.events) == HandedTo(port, r.events[1..]);
      } else if p[0].data != expected {
        SharesOutHeld(m, port, expected, p[0].data, p[1..], timeout, polls + 1);
        HeldIsFirst(SentTo(m, port, Used(p[1..], r.rest)), p[0].data, expected, r.byte, HandedTo(port, r.events));
      } else {
        assert Used(p[1..], r.rest) == [];
        assert SentTo(m, port, Used(p, r.rest)) == [p[0].data];
      }
    }
  }

  /** The bytes used, taken from the front. */
  lemma UsedStarts(m: Mode, port: nat, p: seq<Answer>, rest: seq<Answer>)
    requires p != [] && |rest| < |p|
    ensures SentTo(m, port, Used(p, rest)) ==
            (if Ready(p[0]) && PortFromStatus(m.mux, p[0].status) == port then [p[0].data] else [])
            + SentTo(m, port, Used(p[1..], rest))
  {
    assert Used(p, rest)[1..] == Used(p[1..], rest);
  }

  /** Every byte of another port that was read is handed to that port's driver, in order. */
  lemma {:induction false} ReadExpectingPassesOn(m: Mode, port: nat, expected: Byte, held: Option<Byte>,
                                                 p: seq<Answer>, timeout: nat, polls: nat, other: nat)
    requires other != port
    ensures var r := ReadExpecting(m, port, expected, held, p, timeout, polls);
            HandedTo(other, r.events) == SentTo(m, other, Used(p, r.rest))
    decreases |p|
  {
    var r := ReadExpecting(m, port, expected, held, p, timeout, polls);
    if timeout == 0 || p == [] {
    } else {
      ReadExpectingAdvances(m, port, expected, held, p, timeout, polls);
      UsedStarts(m, other, p, r.rest);
      if !Ready(p[0]) {
        ReadExpectingPassesOn(m, port, expected, held, p[1..], timeout - 1, polls + 1, other);
      } else if PortFromStatus(m.mux, p[0].status) != port {
        ReadExpectingPassesOn(m, port, expected, held, p[1..], timeout, polls + 1, other);
      } else if p[0].data != expected && held.None? {
        ReadExpectingPassesOn(m, port, expected, Some(p[0].data), p[1..], timeout, polls + 1, other);
      } else {
        assert Used(p[1..], r.rest) == [];
      }
    }
  }

  /** The whole promise of readDataPort(port, expected), against every device. */
  lemma ReadExpectingDelivers(m: Mode, port: nat, expected: Byte, p: seq<Answer>, timeout: nat, polls: nat)
    ensures var r := ReadExpecting(m, port, expected, None, p, timeout, polls);
            && r.byte == Chosen(expected, Arriving(m, port, p, timeout))
            && SharedOut(SentTo(m, port, Used(p, r.rest)), expected, r.byte, HandedTo(port, r.events))
            && forall other | other != port :: HandedTo(other, r.events) == SentTo(m, other, Used(p, r.rest))
  {
    var r := ReadExpecting(m, port, expected, None, p, timeout, polls);
    ReadExpectingChooses(m, port, expected, None, p, timeout, polls);
    ReadExpectingSharesOut(m, port, expected, p, timeout, polls);
    assert Before(None) + Arriving(m, port, p, timeout) == Arriving(m, port, p, timeout);
    forall other | other != port
      ensures HandedTo(other, r.events) == SentTo(m, other, Used(p, r.rest))
    {
      ReadExpectingPassesOn(m, port, expected, None, p, timeout, polls, other);
    }
  }

  // ---- readDataPort(port)

  lemma {:induction false} ReadAnyAdvances(m: Mode, port: nat, p: seq<Answer>, timeout: nat, polls: nat)
    requires p != [] && timeout > 0
    ensures |ReadAny(m, port, p, timeout, polls).rest| < |p|
    decreases |p|
  {
    if !Ready(p[0]) {
      if p[1..] != [] && timeout > 1 {
        ReadAnyAdvances(m, port, p[1..], timeout - 1, polls + 1);
      }
    } else if p[1..] != [] {
      ReadAnyAdvances(m, port, p[1..], timeout, polls + 1);
    }
  }

  lemma {:induction false} ReadAnyUsesPrefix(m: Mode, port: nat, p: seq<Answer>, timeout: nat, polls: nat)
    ensures UsesPrefix(p, ReadAny(m, port, p, timeout, polls).rest)
    decreases |p|
  {
    if timeout == 0 || p == [] {
    } else if !Ready(p[0]) {
      ReadAnyUsesPrefix(m, port, p[1..], timeout - 1, polls + 1);
    } else {
      ReadAnyUsesPrefix(m, port, p[1..], timeout, polls + 1);
    }
  }

  lemma {:induction false} ReadAnyHandsOut(m: Mode, port: nat, p: seq<Answer>, timeout: nat, polls: nat)
    ensures OnlyHandsOut(ReadAny(m, port, p, timeout, polls).events)
    decreases |p|
  {
    if timeout == 0 || p == [] {
    } else if !Ready(p[0]) {
      ReadAnyHandsOut(m, port, p[1..], timeout - 1, polls + 1);
    } else {
      ReadAnyHandsOut(m, port, p[1..], timeout, polls + 1);
    }
  }

  /** The first byte of the port is returned, if one comes in time, and it is the only one read. */
  lemma {:induction false} ReadAnyReturnsFirst(m: Mode, port: nat, p: seq<Answer>, timeout: nat, polls: nat)
    requires !m.suppress
    ensures var r, own := ReadAny(m, port, p, timeout, polls), Arriving(m, port, p, timeout);
            && r.byte == (if own == [] then 0 else own[0])
            && SentTo(m, port, Used(p, r.rest)) == (if own == [] then [] else [own[0]])
            && HandedTo(port, r.events) == []
    decreases |p|
  {
    var r := ReadAny(m, port, p, timeout, polls);
    if timeout == 0 || p == [] {
    } else {
      ReadAnyAdvances(m, port, p, timeout, polls);
      UsedStarts(m, port, p, r.rest);
      if !Ready(p[0]) {
        ReadAnyReturnsFirst(m, port, p[1..], timeout - 1, polls + 1);
      } else if PortFromStatus(m.mux, p[0].status) != port {
        ReadAnyReturnsFirst(m, port, p[1..], timeout, polls + 1);
      } else {
        assert Used(p[1..], r.rest) == [];
      }
    }
  }

  lemma {:induction false} ReadAnyPassesOn(m: Mode, port: nat, p: seq<Answer>, timeout: nat, polls: nat, other: nat)
    requires !m.suppress && other != port
    ensures var r := ReadAny(m, port, p, timeout, polls);
            HandedTo(other, r.events) == SentTo(m, other, Used(p, r.rest))
    decreases |p|
  {
    var r := ReadAny(m, port, p, timeout, polls);
    if timeout == 0 || p == [] {
    } else {
      ReadAnyAdvances(m, port, p, timeout, polls);
      UsedStarts(m, other, p, r.rest);
      if !Ready(p[0]) {
        ReadAnyPassesOn(m, port, p[1..], timeout - 1, polls + 1, other);
      } else if PortFromStatus(m.mux, p[0].status) != port {
        ReadAnyPassesOn(m, port, p[1..], timeout, polls + 1, other);
      } else {
        assert Used(p[1..], r.rest) == [];
      }
    }
  }

  /** During start-up the first byte of any port is returned and nothing is handed out. */
  lemma {:induction false} ReadAnyAtStartup(m: Mode, port: nat, p: seq<Answer>, timeout: nat, polls: nat)
    requires m.suppress
    ensures var r := ReadAny(m, port, p, timeout, polls);
            && r.events == [] && |r.rest| <= |p|
            && match FirstReady(p, timeout)
               case None => r.byte == 0
               case Some(k) => r.byte == p[k].data && r.rest == p[k + 1..]
    decreases |p|
  {
    if timeout > 0 && p != [] && !Ready(p[0]) {
      ReadAnyAtStartup(m, port, p[1..], timeout - 1, polls + 1);
    }
  }

  /** Where the first byte that comes in time is. */
  function FirstReady(p: seq<Answer>, timeout: nat): (k: Option<nat>)
    ensures k.Some? ==> k.value < |p| && k.value < timeout && Ready(p[k.value])
    ensures forall i :: 0 <= i < (if k.Some? then k.value else if |p| < timeout then |p| else timeout) ==> !Ready(p[i])
  {
    if p == [] || timeout == 0 then None
    else if Ready(p[0]) then Some(0)
    else match FirstReady(p[1..], timeout - 1) case None => None case Some(k) => Some(k + 1)
  }

  // ---- When polls are made

  /** A hand-out right after the poll that saw its byte. */
  predicate HandedOutAt(m: Mode, p: seq<Answer>, polls: nat, e: Event) {
    && e.Dispatch? && polls < e.at <= polls + |p|
    && var a := p[e.at - polls - 1];
       a.status & 0x01 != 0 && PortFromStatus(m.mux, a.status) == e.port && a.data == e.byte
  }

  /** Answers that say that no byte is ready. */
  function Unready(p: seq<Answer>): nat {
    if p == [] then 0 else (if p[0].status & 0x01 == 0 then 1 else 0) + Unready(p[1..])
  }

  /** The polls made are one for each answer used, and further ones once there are no more; those that found nothing ready
      are no more than the timeout allows, and as many if the reading gave up. */
  predicate CountsPolls(p: seq<Answer>, timeout: nat, polls: nat, r: Reading, gaveUp: bool) {
    var used := Used(p, r.rest);
    var further := r.polls - polls - |used|;
    && |r.rest| <= |p|
    && further >= 0 && (further > 0 ==> r.rest == [])
    && Unready(used) + further <= timeout && (gaveUp ==> Unready(used) + further == timeout)
  }

  lemma OneAnswerMore(p: seq<Answer>, timeout: nat, polls: nat, r: Reading, gaveUp: bool)
    requires p != [] && (timeout > 0 || Ready(p[0]))
    requires CountsPolls(p[1..], if Ready(p[0]) then timeout else timeout - 1, polls + 1, r, gaveUp)
    ensures CountsPolls(p, timeout, polls, r, gaveUp)
  {
    assert Used(p, r.rest)[1..] == Used(p[1..], r.rest);
  }

  lemma LastAnswer(p: seq<Answer>, timeout: nat, polls: nat, r: Reading)
    requires p != [] && Ready(p[0]) && r.rest == p[1..] && r.polls == polls + 1
    ensures CountsPolls(p, timeout, polls, r, false)
  {
    assert Used(p, r.rest)[1..] == [];
  }

  lemma NoAnswer(p: seq<Answer>, timeout: nat, polls: nat, r: Reading)
    requires (timeout == 0 || p == []) && r.rest == p && r.polls == polls + timeout
    ensures CountsPolls(p, timeout, polls, r, true)
  {
    assert Used(p, r.rest) == [];
  }

  /** Over every reading polls are counted, and each hand-out comes right after the poll that saw its byte. */
  lemma {:induction false} ReadAnyPolls(m: Mode, port: nat, p: seq<Answer>, timeout: nat, polls: nat)
    requires !m.suppress
    ensures var r := ReadAny(m, port, p, timeout, polls);
            && CountsPolls(p, timeout, polls, r, Arriving(m, port, p, timeout) == [])
            && forall k :: 0 <= k < |r.events| ==> HandedOutAt(m, p, polls, r.events[k])
    decreases |p|
  {
    hide CountsPolls;
    var r := ReadAny(m, port, p, timeout, polls);
    if timeout == 0 || p == [] {
      NoAnswer(p, timeout, polls, r);
    } else if !Ready(p[0]) {
      ReadAnyPolls(m, port, p[1..], timeout - 1, polls + 1);
      OneAnswerMore(p, timeout, polls, r, Arriving(m, port, p, timeout) == []);
    } else if PortFromStatus(m.mux, p[0].status) == port {
      LastAnswer(p, timeout, polls, r);
    } else {
      ReadAnyPolls(m, port, p[1..], timeout, polls + 1);
      var later := ReadAny(m, port, p[1..], timeout, polls + 1);
      OneAnswerMore(p, timeout, polls, later, Arriving(m, port, p, timeout) == []);
      PollsAlone(p, timeout, polls, later, r, Arriving(m, port, p, timeout) == []);
      assert forall k :: 0 < k < |r.events| ==> r.events[k] == later.events[k - 1];
    }
  }

  lemma PollsAlone(p: seq<Answer>, timeout: nat, polls: nat, a: Reading, b: Reading, gaveUp: bool)
    requires CountsPolls(p, timeout, polls, a, gaveUp) && a.rest == b.rest && a.polls == b.polls
    ensures CountsPolls(p, timeout, polls, b, gaveUp)
  {
  }

  /** The reading that expects a byte gives up if fewer than two bytes of the port come and the first is not the one. */
  predicate GivesUp(expected: Byte, held: Option<Byte>, arriving: seq<Byte>) {
    arriving == [] || (held.None? && |arriving| == 1 && arriving[0] != expected)
  }

  lemma {:induction false} ReadExpectingPolls(m: Mode, port: nat, expected: Byte, held: Option<Byte>,
                                              p: seq<Answer>, timeout: nat, polls: nat)
    ensures var r := ReadExpecting(m, port, expected, held, p, timeout, polls);
            && CountsPolls(p, timeout, polls, r, GivesUp(expected, held, Arriving(m, port, p, timeout)))
            && forall k :: 0 <= k < |r.events| && r.events[k].Dispatch? ==>
                 if r.events[k].port == port then r.events[k].at == r.polls else HandedOutAt(m, p, polls, r.events[k])
    decreases |p|
  {
    hide CountsPolls;
    var r, gaveUp := ReadExpecting(m, port, expected, held, p, timeout, polls), GivesUp(expected, held, Arriving(m, port, p, timeout));
    if timeout == 0 || p == [] {
      NoAnswer(p, timeout, polls, r);
    } else if !Ready(p[0]) {
      ReadExpectingPolls(m, port, expected, held, p[1..], timeout - 1, polls + 1);
      OneAnswerMore(p, timeout, polls, r, gaveUp);
    } else if PortFromStatus(m.mux, p[0].status) != port {
      ReadExpectingPolls(m, port, expected, held, p[1..], timeout, polls + 1);
      var later := ReadExpecting(m, port, expected, held, p[1..], timeout, polls + 1);
      OneAnswerMore(p, timeout, polls, later, gaveUp);
      PollsAlone(p, timeout, polls, later, r, gaveUp);
      assert forall k :: 0 < k < |r.events| ==> r.events[k] == later.events[k - 1];
    } else if p[0].data == expected || held.Some? {
      LastAnswer(p, timeout, polls, r);
    } else {
      ReadExpectingPolls(m, port, expected, Some(p[0].data), p[1..], timeout, polls + 1);
      OneAnswerMore(p, timeout, polls, r, gaveUp);
    }
  }
}
