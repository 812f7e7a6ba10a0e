/** Sleep and wake of the controller: the counters, the clients and the command byte of the 8042. */
module Power {
  import opened PortReads
  import opened Requests

  const SLEEP := 0
  const DOZE := 1
  const NORMAL := 2

  const KBD_IRQ: Byte := 0x01
  const MOUSE_IRQ: Byte := 0x02
  const SYSTEM: Byte := 0x04
  const KBD_CLOCK_OFF: Byte := 0x10
  const MOUSE_CLOCK_OFF: Byte := 0x20
  const IRQS: Byte := KBD_IRQ | MOUSE_IRQ
  const CLOCKS_OFF: Byte := KBD_CLOCK_OFF | MOUSE_CLOCK_OFF

  datatype Config = Config(kbdOnly: bool, nubs: nat, mouseWakeFirst: bool)

  /** What others do during a power change: the command byte that resetting and multiplexing leave behind, and the
      changes that clients make to it while they are being told. */
  datatype Env = Env(resetByte: Byte, changes: seq<Change>)

  datatype Change = Change(setBits: Byte, clearBits: Byte)

  /** A client is told to enable or disable its device. */
  datatype Call = Call(port: nat, enable: bool, offline: bool)

  /** The controller's state with an 8042 that keeps its command byte. */
  datatype Power = Power(state: nat, ignore: int, offline: bool, byte: Byte, calls: seq<Call>)

  const AWAKE := Power(NORMAL, 0, false, 0, [])

  // ---- The steps as values

  /** The mouse clients from a port on. */
  function AuxCalls(from: nat, nubs: nat, enable: bool, offline: bool): seq<Call>
    decreases nubs - from
  {
    if from >= nubs then [] else [Call(from, enable, offline)] + AuxCalls(from + 1, nubs, enable, offline)
  }

  function CallsTo(port: nat, nubs: nat, enable: bool, offline: bool): seq<Call> {
    if port == KBD then [Call(KBD, enable, offline)] else AuxCalls(AUX, nubs, enable, offline)
  }

  function Changed(byte: Byte, changes: seq<Change>): Byte
    decreases |changes|
  {
    if changes == [] then byte
    else Changed(Modified(byte, changes[0].setBits, changes[0].clearBits), changes[1..])
  }

  /** The clocks and interrupts of the ports in use. */
  function ClocksOff(kbdOnly: bool): Byte {
    if kbdOnly then KBD_CLOCK_OFF else CLOCKS_OFF
  }

  function Irqs(kbdOnly: bool): Byte {
    if kbdOnly then KBD_IRQ else IRQS
  }

  function Suspend(c: Config, s: Power, env: Env): Power {
    var quiet := Modified(s.byte, 0, IRQS);
    Power(SLEEP, s.ignore + 1, true, Modified(Changed(quiet, env.changes), CLOCKS_OFF, 0),
          s.calls + CallsTo(AUX, c.nubs, false, s.offline) + CallsTo(KBD, c.nubs, false, s.offline))
  }

  function WakeCalls(c: Config): seq<Call> {
    if c.mouseWakeFirst then CallsTo(AUX, c.nubs, true, false) + CallsTo(KBD, c.nubs, true, false)
    else CallsTo(KBD, c.nubs, true, false) + CallsTo(AUX, c.nubs, true, false)
  }

  function Resume(c: Config, s: Power, env: Env, target: nat): Power {
    var clocked := Modified(env.resetByte, 0, ClocksOff(c.kbdOnly) | IRQS);
    Power(target, s.ignore - 1, false,
          Modified(Changed(clocked, env.changes), Irqs(c.kbdOnly) | SYSTEM, 0),
          s.calls + WakeCalls(c))
  }

  /** setPowerStateGated. A target that is no power state is only remembered. */
  function SetPowerState(c: Config, s: Power, env: Env, target: nat): Power {
    if s.state == target then s
    else if target == SLEEP then Suspend(c, s, env)
    else if (target == DOZE || target == NORMAL) && s.state == SLEEP then Resume(c, s, env, target)
    else s.(state := target)
  }

  datatype Request = Request(target: nat, env: Env)

  function Run(c: Config, requests: seq<Request>): Power {
    if requests == [] then AWAKE
    else
      var r := requests[|requests| - 1];
      SetPowerState(c, Run(c, requests[..|requests| - 1]), r.env, r.target)
  }

  // ---- What is asked for and what is promised

  /** Only power states are asked for, and clients do not turn clocks off or interrupts on by themselves. */
  predicate Lawful(r: Request) {
    r.target <= NORMAL && forall k :: 0 <= k < |r.env.changes| ==> r.env.changes[k].setBits & (CLOCKS_OFF | IRQS) == 0
  }

  predicate AllLawful(requests: seq<Request>) {
    forall k :: 0 <= k < |requests| ==> Lawful(requests[k])
  }

  /** How often the requests change between sleeping and working. */
  function Edges(requests: seq<Request>): nat {
    if requests == [] then 0
    else Edges(requests[..|requests| - 1])
         + if (requests[|requests| - 1].target == SLEEP) == Asleep(requests[..|requests| - 1]) then 0 else 1
  }

  predicate Asleep(requests: seq<Request>) {
    requests != [] && requests[|requests| - 1].target == SLEEP
  }

  /** The calls that the client of a port got. */
  function CallsFor(port: nat, calls: seq<Call>): seq<bool> {
    if calls == [] then []
    else CallsFor(port, calls[..|calls| - 1]) + if calls[|calls| - 1].port == port then [calls[|calls| - 1].enable] else []
  }

  /** Disable, enable, disable, and so on. */
  function Alternating(n: nat): (s: seq<bool>)
    ensures |s| == n
  {
    seq(n, k requires 0 <= k < n => k % 2 == 1)
  }

  // ---- Counters

  /** No ordinal beyond the power states is asked for while asleep. */
  predicate WakesProperly(requests: seq<Request>) {
    requests == []
    || (WakesProperly(requests[..|requests| - 1])
        && (Asleep(requests[..|requests| - 1]) ==> requests[|requests| - 1].target <= NORMAL))
  }

  /** Interrupts are ignored once and the hardware is offline exactly in Sleep. */
  predicate Resting(s: Power) {
    s.ignore == (if s.state == SLEEP then 1 else 0) && s.offline == (s.state == SLEEP)
  }

  lemma {:induction false} StateIsLast(c: Config, requests: seq<Request>)
    ensures Run(c, requests).state == if requests == [] then NORMAL else requests[|requests| - 1].target
  {
    if requests != [] {
      StateIsLast(c, requests[..|requests| - 1]);
    }
  }

  lemma {:induction false} AtRest(c: Config, requests: seq<Request>)
    requires WakesProperly(requests)
    ensures Resting(Run(c, requests))
  {
    if requests != [] {
      AtRest(c, requests[..|requests| - 1]);
      StateIsLast(c, requests[..|requests| - 1]);
    }
  }

  /** And otherwise it is not, after some request: an ordinal that is no power state is remembered in place of Sleep. */
  lemma {:induction false} NotAtRest(c: Config, requests: seq<Request>) returns (n: nat)
    requires !WakesProperly(requests)
    ensures n <= |requests| && !Resting(Run(c, requests[..n]))
  {
    n := |requests|;
    var before := requests[..n - 1];
    assert requests[..n] == requests;
    if WakesProperly(before) {
      AtRest(c, before);
      StateIsLast(c, before);
    } else {
      n := NotAtRest(c, before);
      assert before[..n] == requests[..n];
    }
  }

  lemma {:induction false} LawfulWakesProperly(requests: seq<Request>)
    requires AllLawful(requests)
    ensures WakesProperly(requests)
  {
    if requests != [] {
      LawfulWakesProperly(requests[..|requests| - 1]);
      assert Lawful(requests[|requests| - 1]);
    }
  }

  // ---- Clients

  lemma {:induction false} CallsForAppend(port: nat, a: seq<Call>, b: seq<Call>)
    ensures CallsFor(port, a + b) == CallsFor(port, a) + CallsFor(port, b)
    decreases |b|
  {
    if b == [] {
      assert a + b == a;
    } else {
      var n := |b| - 1;
      CallsForAppend(port, a, b[..n]);
      assert (a + b)[..|a + b| - 1] == a + b[..n] && (a + b)[|a + b| - 1] == b[n];
    }
  }

  lemma CallsForOne(port: nat, c: Call)
    ensures CallsFor(port, [c]) == if c.port == port then [c.enable] else []
  {
    assert [c][..0] == [];
  }

  lemma {:induction false} AuxCallsReach(port: nat, from: nat, nubs: nat, enable: bool, offline: bool)
    ensures CallsFor(port, AuxCalls(from, nubs, enable, offline)) == if from <= port < nubs then [enable] else []
    decreases nubs - from
  {
    if from < nubs {
      var first, rest := Call(from, enable, offline), AuxCalls(from + 1, nubs, enable, offline);
      AuxCallsReach(port, from + 1, nubs, enable, offline);
      CallsForAppend(port, [first], rest);
      CallsForOne(port, first);
      assert CallsFor(port, [first] + rest) == if from == port then [enable] else CallsFor(port, rest);
    }
  }

  /** A round of calls, whichever of the two kinds goes first, reaches every client once. */
  lemma RoundReaches(port: nat, nubs: nat, enable: bool, offline: bool)
    requires port < nubs
    ensures var a, k := CallsTo(AUX, nubs, enable, offline), CallsTo(KBD, nubs, enable, offline);
            CallsFor(port, a + k) == [enable] == CallsFor(port, k + a)
  {
    var a, k := CallsTo(AUX, nubs, enable, offline), CallsTo(KBD, nubs, enable, offline);
    AuxCallsReach(port, AUX, nubs, enable, offline);
    CallsForOne(port, Call(KBD, enable, offline));
    CallsForAppend(port, a, k);
    CallsForAppend(port, k, a);
  }

  lemma AlternatingGrows(n: nat)
    ensures Alternating(n + 1) == Alternating(n) + [n % 2 == 1]
  {
  }

  lemma SuspendCalls(c: Config, s: Power, env: Env, port: nat)
    requires port < c.nubs
    ensures CallsFor(port, Suspend(c, s, env).calls) == CallsFor(port, s.calls) + [false]
  {
    var a, k := CallsTo(AUX, c.nubs, false, s.offline), CallsTo(KBD, c.nubs, false, s.offline);
    RoundReaches(port, c.nubs, false, s.offline);
    CallsForAppend(port, s.calls, a + k);
    assert s.calls + a + k == s.calls + (a + k);
  }

  lemma ResumeCalls(c: Config, s: Power, env: Env, target: nat, port: nat)
    requires port < c.nubs
    ensures CallsFor(port, Resume(c, s, env, target).calls) == CallsFor(port, s.calls) + [true]
  {
    RoundReaches(port, c.nubs, true, false);
    CallsForAppend(port, s.calls, WakeCalls(c));
  }

  lemma {:induction false} EdgesParity(requests: seq<Request>)
    ensures (Edges(requests) % 2 == 1) == Asleep(requests)
  {
    if requests != [] {
      EdgesParity(requests[..|requests| - 1]);
    }
  }

  /** Every client is told to disable and enable its device in turns, once for each change between sleep and work. */
  lemma {:induction false} ClientsAlternate(c: Config, requests: seq<Request>, port: nat)
    requires AllLawful(requests) && port < c.nubs
    ensures CallsFor(port, Run(c, requests).calls) == Alternating(Edges(requests))
  {
    if requests != [] {
      var before := requests[..|requests| - 1];
      var s, r := Run(c, before), requests[|requests| - 1];
      ClientsAlternate(c, before, port);
      LawfulWakesProperly(before);
      AtRest(c, before);
      StateIsLast(c, before);
      EdgesParity(before);
      assert Lawful(r);
      if r.target == SLEEP && s.state != SLEEP {
        SuspendCalls(c, s, r.env, port);
        AlternatingGrows(Edges(before));
      } else if r.target != SLEEP && s.state == SLEEP {
        ResumeCalls(c, s, r.env, r.target, port);
        AlternatingGrows(Edges(before));
      }
    }
  }

  ghost predicate NoneOffline(calls: seq<Call>) {
    forall k :: 0 <= k < |calls| ==> !calls[k].offline
  }

  lemma {:induction false} AuxCallsOnline(from: nat, nubs: nat, enable: bool)
    ensures NoneOffline(AuxCalls(from, nubs, enable, false))
    decreases nubs - from
  {
    if from < nubs {
      AuxCallsOnline(from + 1, nubs, enable);
    }
  }

  /** No client is called while the hardware is offline. */
  lemma {:induction false} CalledOnline(c: Config, requests: seq<Request>)
    requires AllLawful(requests)
    ensures NoneOffline(Run(c, requests).calls)
  {
    if requests != [] {
      CalledOnline(c, requests[..|requests| - 1]);
      LawfulWakesProperly(requests[..|requests| - 1]);
      AtRest(c, requests[..|requests| - 1]);
      AuxCallsOnline(AUX, c.nubs, false);
      AuxCallsOnline(AUX, c.nubs, true);
    }
  }

  // ---- The order of the calls

  function PortsOf(calls: seq<Call>): seq<nat> {
    if calls == [] then [] else PortsOf(calls[..|calls| - 1]) + [calls[|calls| - 1].port]
  }

  /** The mouse ports in their order. */
  function MousePorts(nubs: nat): seq<nat> {
    if nubs <= AUX then [] else MousePorts(nubs - 1) + [nubs - 1]
  }

  lemma {:induction false} PortsAppend(a: seq<Call>, b: seq<Call>)
    ensures PortsOf(a + b) == PortsOf(a) + PortsOf(b)
    decreases |b|
  {
    if b == [] {
      assert a + b == a;
    } else {
      PortsAppend(a, b[..|b| - 1]);
      assert (a + b)[..|a + b| - 1] == a + b[..|b| - 1];
    }
  }

  lemma PortOfOne(c: Call)
    ensures PortsOf([c]) == [c.port]
  {
    assert [c][..0] == [];
  }

  lemma {:induction false} AuxPorts(from: nat, nubs: nat, enable: bool, offline: bool)
    requires AUX <= from <= nubs
    ensures MousePorts(from) + PortsOf(AuxCalls(from, nubs, enable, offline)) == MousePorts(nubs)
    decreases nubs - from
  {
    if from < nubs {
      var first, rest := [Call(from, enable, offline)], AuxCalls(from + 1, nubs, enable, offline);
      AuxPorts(from + 1, nubs, enable, offline);
      PortsAppend(first, rest);
      PortOfOne(first[0]);
      Regroup(MousePorts(from), [from], PortsOf(rest));
    }
  }

  lemma Regroup(a: seq<nat>, b: seq<nat>, c: seq<nat>)
    ensures a + (b + c) == (a + b) + c
  {
  }

  lemma RoundPorts(nubs: nat, enable: bool, offline: bool)
    requires nubs >= AUX
    ensures PortsOf(CallsTo(AUX, nubs, enable, offline)) == MousePorts(nubs)
    ensures PortsOf(CallsTo(KBD, nubs, enable, offline)) == [KBD]
  {
    AuxPorts(AUX, nubs, enable, offline);
    PortOfOne(Call(KBD, enable, offline));
    var none: nat := AUX;
    assert MousePorts(none) == [];
  }

  /** On waking the keyboard's client comes first, unless the mouse is to wake first: then it comes last. */
  lemma WakesInOrder(c: Config, s: Power, env: Env, target: nat)
    requires c.nubs >= AUX
    ensures PortsOf(Resume(c, s, env, target).calls)
         == PortsOf(s.calls) + if c.mouseWakeFirst then MousePorts(c.nubs) + [KBD] else [KBD] + MousePorts(c.nubs)
  {
    RoundPorts(c.nubs, true, false);
    var aux, kbd := CallsTo(AUX, c.nubs, true, false), CallsTo(KBD, c.nubs, true, false);
    PortsAppend(aux, kbd);
    PortsAppend(kbd, aux);
    PortsAppend(s.calls, WakeCalls(c));
    hide CallsTo, PortsOf, MousePorts;
  }

  /** On going to sleep it always comes last. */
  lemma SleepsInOrder(c: Config, s: Power, env: Env)
    requires c.nubs >= AUX
    ensures PortsOf(Suspend(c, s, env).calls) == PortsOf(s.calls) + (MousePorts(c.nubs) + [KBD])
  {
    RoundPorts(c.nubs, false, s.offline);
    var aux, kbd := CallsTo(AUX, c.nubs, false, s.offline), CallsTo(KBD, c.nubs, false, s.offline);
    PortsAppend(s.calls, aux);
    PortsAppend(s.calls + aux, kbd);
    hide CallsTo, PortsOf, MousePorts;
  }

  // ---- The command byte

  lemma {:induction false} ChangesSpare(byte: Byte, changes: seq<Change>, mask: Byte)
    requires byte & mask == 0 && forall k :: 0 <= k < |changes| ==> changes[k].setBits & mask == 0
    ensures Changed(byte, changes) & mask == 0
    decreases |changes|
  {
    if changes != [] {
      var c := changes[0];
      assert c.setBits & mask == 0;
      ModifiedSpares(byte, c.setBits, c.clearBits, mask);
      ChangesSpare(Modified(byte, c.setBits, c.clearBits), changes[1..], mask);
    }
  }

  lemma ModifiedSpares(byte: Byte, setBits: Byte, clearBits: Byte, mask: Byte)
    requires byte & mask == 0 && setBits & mask == 0
    ensures Modified(byte, setBits, clearBits) & mask == 0
  {
  }

  lemma SubMask(bits: Byte, mask: Byte, sub: Byte)
    requires bits & mask == 0 && sub & mask == sub
    ensures bits & sub == 0
  {
  }

  lemma SpareMask(changes: seq<Change>, sub: Byte)
    requires forall k :: 0 <= k < |changes| ==> changes[k].setBits & (CLOCKS_OFF | IRQS) == 0
    requires sub & (CLOCKS_OFF | IRQS) == sub
    ensures forall k :: 0 <= k < |changes| ==> changes[k].setBits & sub == 0
  {
    forall k | 0 <= k < |changes|
      ensures changes[k].setBits & sub == 0
    {
      SubMask(changes[k].setBits, CLOCKS_OFF | IRQS, sub);
    }
  }

  /** The bits that a working controller has set or clear: bits 0 and 1 let the keyboard and the mouse interrupt, bits 4 and 5
      switch their clocks off. */
  predicate Working(c: Config, byte: Byte) {
    if c.kbdOnly then byte & 0x13 == 0x01 else byte & 0x33 == 0x03
  }

  predicate Quiet(byte: Byte) {
    byte & 0x33 == 0x30
  }

  lemma ClearedBits(byte: Byte, mask: Byte)
    ensures Modified(byte, 0, mask) & mask == 0
  {
  }

  lemma SuspendQuiets(c: Config, s: Power, r: Request)
    requires Lawful(r)
    ensures Quiet(Suspend(c, s, r.env).byte)
  {
    ClearedBits(s.byte, IRQS);
    SpareMask(r.env.changes, IRQS);
    ChangesSpare(Modified(s.byte, 0, IRQS), r.env.changes, IRQS);
    SetAmongCleared(Changed(Modified(s.byte, 0, IRQS), r.env.changes), IRQS, CLOCKS_OFF);
  }

  lemma SetAmongCleared(byte: Byte, cleared: Byte, toSet: Byte)
    requires byte & cleared == 0 && cleared & toSet == 0
    ensures Modified(byte, toSet, 0) & (cleared | toSet) == toSet
  {
  }

  lemma ResumeWorks(c: Config, s: Power, r: Request)
    requires Lawful(r)
    ensures Working(c, Resume(c, s, r.env, r.target).byte)
  {
    var cleared, irqs := ClocksOff(c.kbdOnly) | IRQS, Irqs(c.kbdOnly);
    var clocked := Modified(r.env.resetByte, 0, cleared);
    ClearedBits(r.env.resetByte, cleared);
    SpareMask(r.env.changes, cleared);
    ChangesSpare(clocked, r.env.changes, cleared);
    SetBack(Changed(clocked, r.env.changes), cleared, irqs);
  }

  lemma SetBack(byte: Byte, cleared: Byte, irqs: Byte)
    requires byte & cleared == 0 && irqs & cleared == irqs && SYSTEM & cleared == 0
    ensures Modified(byte, irqs | SYSTEM, 0) & cleared == irqs
  {
  }

  /** On an 8042 that keeps its command byte, a controller that woke has clocks and interrupts on, and one that sleeps
      has both off. */
  lemma {:induction false} CommandByteAtRest(c: Config, requests: seq<Request>)
    requires AllLawful(requests)
    ensures var s := Run(c, requests);
            Edges(requests) > 0 ==> if s.state == SLEEP then Quiet(s.byte) else Working(c, s.byte)
  {
    if requests != [] {
      var before := requests[..|requests| - 1];
      var s, r := Run(c, before), requests[|requests| - 1];
      CommandByteAtRest(c, before);
      LawfulWakesProperly(before);
      AtRest(c, before);
      StateIsLast(c, before);
      assert Lawful(r);
      SuspendQuiets(c, s, r);
      ResumeWorks(c, s, r);
    }
  }

  /** Clients that leave some bits of the command byte alone. */
  predicate Leave(changes: seq<Change>, mask: Byte) {
    forall k :: 0 <= k < |changes| ==> changes[k].setBits & mask == 0 && changes[k].clearBits & mask == 0
  }

  lemma ModifiedKeeps(byte: Byte, setBits: Byte, clearBits: Byte, mask: Byte)
    requires setBits & mask == 0 && clearBits & mask == 0
    ensures Modified(byte, setBits, clearBits) & mask == byte & mask
  {
  }

  lemma {:induction false} ChangesKeep(byte: Byte, changes: seq<Change>, mask: Byte)
    requires Leave(changes, mask)
    ensures Changed(byte, changes) & mask == byte & mask
    decreases |changes|
  {
    if changes != [] {
      var c := changes[0];
      ModifiedKeeps(byte, c.setBits, c.clearBits, mask);
      ChangesKeep(Modified(byte, c.setBits, c.clearBits), changes[1..], mask);
    }
  }

  lemma Apart(bits: Byte, all: Byte, mask: Byte)
    requires bits & all == bits && mask & all == 0
    ensures bits & mask == 0
  {
  }

  /** Going to sleep changes nothing but the interrupt and clock bits 0, 1, 4 and 5. */
  lemma SuspendKeepsOthers(c: Config, s: Power, env: Env, mask: Byte)
    requires mask & 0x33 == 0 && Leave(env.changes, mask)
    ensures Suspend(c, s, env).byte & mask == s.byte & mask
  {
    var quiet := Modified(s.byte, 0, IRQS);
    Apart(IRQS, 0x33, mask);
    Apart(CLOCKS_OFF, 0x33, mask);
    ModifiedKeeps(s.byte, 0, IRQS, mask);
    ChangesKeep(quiet, env.changes, mask);
    ModifiedKeeps(Changed(quiet, env.changes), CLOCKS_OFF, 0, mask);
  }

  /** Waking up changes nothing else either in the byte that resetting left, but for the system flag, bit 2, which it sets;
      with a keyboard alone the mouse's clock, bit 5, stays as it was too. */
  lemma ResumeKeepsOthers(c: Config, s: Power, env: Env, target: nat, mask: Byte)
    requires mask & (if c.kbdOnly then 0x17 else 0x37) == 0 && Leave(env.changes, mask)
    ensures Resume(c, s, env, target).byte & mask == env.resetByte & mask
    ensures Resume(c, s, env, target).byte & 0x04 == 0x04
  {
    var clocks, irqs := ClocksOff(c.kbdOnly), Irqs(c.kbdOnly);
    var all: Byte := if c.kbdOnly then 0x17 else 0x37;
    var clocked := Modified(env.resetByte, 0, clocks | IRQS);
    Apart(clocks | IRQS, all, mask);
    Apart(irqs | SYSTEM, all, mask);
    ModifiedKeeps(env.resetByte, 0, clocks | IRQS, mask);
    ChangesKeep(clocked, env.changes, mask);
    ModifiedKeeps(Changed(clocked, env.changes), irqs | SYSTEM, 0, mask);
    SystemIsSet(Changed(clocked, env.changes), irqs);
  }

  lemma SystemIsSet(byte: Byte, irqs: Byte)
    ensures Modified(byte, irqs | SYSTEM, 0) & 0x04 == 0x04
  {
  }

  // ---- The controller object

  class PowerController {
    const kbdOnly: bool
    const nubsCount: nat
    const mouseWakeFirst: bool
    var currentPowerState: nat
    var ignoreInterrupts: int
    var hardwareOffline: bool
    var commandByte: Byte
    var calls: seq<Call>
    /** The command bytes written to the controller so far. */
    var written: seq<Byte>

    constructor (kbdOnly: bool, nubsCount: nat, mouseWakeFirst: bool)
      ensures Settings() == Config(kbdOnly, nubsCount, mouseWakeFirst) && State() == AWAKE && written == []
    {
      this.kbdOnly, this.nubsCount, this.mouseWakeFirst := kbdOnly, nubsCount, mouseWakeFirst;
      currentPowerState, ignoreInterrupts, hardwareOffline, commandByte, calls, written := NORMAL, 0, false, 0, [], [];
    }

    function Settings(): Config {
      Config(kbdOnly, nubsCount, mouseWakeFirst)
    }

    ghost function State(): Power
      reads this
    {
      Power(currentPowerState, ignoreInterrupts, hardwareOffline, commandByte, calls)
    }

    /** Reads the command byte and writes it back only if it is to change. */
    method SetCommandByte(setBits: Byte, clearBits: Byte) returns (oldBits: Byte)
      modifies this`commandByte, this`ignoreInterrupts, this`written
      ensures commandByte == Modified(old(commandByte), setBits, clearBits) && ignoreInterrupts == old(ignoreInterrupts)
      ensures oldBits == old(commandByte)
      ensures written == old(written) + if commandByte != old(commandByte) then [commandByte] else []
    {
      ignoreInterrupts := ignoreInterrupts + 1;
      var oldCommandByte := commandByte;
      ignoreInterrupts := ignoreInterrupts - 1;
      var newCommandByte := Modified(oldCommandByte, setBits, clearBits);
      if oldCommandByte != newCommandByte {
        commandByte, written := newCommandByte, written + [newCommandByte];
      }
      oldBits := oldCommandByte;
    }

    /** Calls the keyboard's client, or those of all mouse ports in order. */
    method DispatchDriverPowerControl(enable: bool, port: nat)
      requires port <= AUX
      modifies this`calls
      ensures calls == old(calls) + CallsTo(port, nubsCount, enable, hardwareOffline)
    {
      if port == KBD {
        calls := calls + [Call(KBD, enable, hardwareOffline)];
        return;
      }
      var i := AUX;
      while i < nubsCount
        invariant AUX <= i
        invariant calls + AuxCalls(i, nubsCount, enable, hardwareOffline) == old(calls) + AuxCalls(AUX, nubsCount, enable, hardwareOffline)
      {
        calls := calls + [Call(i, enable, hardwareOffline)];
        i := i + 1;
      }
    }

    /** What the clients do to the command byte meanwhile. */
    method ClientsChange(changes: seq<Change>)
      modifies this`commandByte, this`ignoreInterrupts, this`written
      ensures commandByte == Changed(old(commandByte), changes) && ignoreInterrupts == old(ignoreInterrupts)
    {
      var i := 0;
      while i < |changes|
        invariant i <= |changes| && ignoreInterrupts == old(ignoreInterrupts)
        invariant Changed(commandByte, changes[i..]) == Changed(old(commandByte), changes)
      {
        assert changes[i..][1..] == changes[i + 1..];
        var _ := SetCommandByte(changes[i].setBits, changes[i].clearBits);
        i := i + 1;
      }
    }

    method GoToSleep(env: Env)
      modifies this
      ensures State() == Suspend(Settings(), old(State()), env).(state := old(currentPowerState))
    {
      ignoreInterrupts := ignoreInterrupts + 1;
      var _ := SetCommandByte(0, IRQS);
      DispatchDriverPowerControl(false, AUX);
      DispatchDriverPowerControl(false, KBD);
      ClientsChange(env.changes);
      hardwareOffline := true;
      var _ := SetCommandByte(CLOCKS_OFF, 0);
    }

    /** Keyboard first, unless the mouse is to wake first. */
    method NotifyAwake()
      requires !hardwareOffline
      modifies this`calls
      ensures calls == old(calls) + WakeCalls(Settings())
    {
      if !mouseWakeFirst {
        DispatchDriverPowerControl(true, KBD);
        DispatchDriverPowerControl(true, AUX);
      } else {
        DispatchDriverPowerControl(true, AUX);
        DispatchDriverPowerControl(true, KBD);
      }
    }

    method WakeUp(env: Env)
      modifies this
      ensures State() == Resume(Settings(), old(State()), env, old(currentPowerState))
    {
      commandByte := env.resetByte;
      var _ := SetCommandByte(0, ClocksOff(kbdOnly) | IRQS);
      hardwareOffline := false;
      NotifyAwake();
      ClientsChange(env.changes);
      var _ := SetCommandByte(Irqs(kbdOnly) | SYSTEM, 0);
      ignoreInterrupts := ignoreInterrupts - 1;
    }

    method SetPowerStateGated(powerState: nat, env: Env)
      modifies this
      ensures State() == SetPowerState(Settings(), old(State()), env, powerState)
    {
      if currentPowerState != powerState {
        if powerState == SLEEP {
          GoToSleep(env);
        } else if powerState == DOZE || powerState == NORMAL {
          if currentPowerState == SLEEP {
            WakeUp(env);
          }
        }
        currentPowerState := powerState;
      }
    }
  }
}
