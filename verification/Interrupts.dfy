/** Interrupt handlers, polled reads and packet actions sharing the rings of the ports: no completed packet is stranded. */
module Interrupts {
  import opened PortReads

  /** The ports in use, and which drivers installed an interrupt action. */
  datatype Config = Config(kbdOnly: bool, mux: bool, keyboardInstalled: bool, mouseInstalled: bool)

  function NubsCount(c: Config): nat {
    if c.kbdOnly then AUX else if c.mux then PORTS else AUX + 1
  }

  /** Without mouse ports there is no multiplexer and no driver to install a mouse action. */
  predicate Consistent(c: Config) {
    c.kbdOnly ==> !c.mux && !c.mouseInstalled
  }

  /** handleInterrupt: collecting bytes, then going through the ports whose driver completed a packet. */
  datatype Handler = Collecting(wake: set<nat>) | Waking(wake: set<nat>, next: nat)

  /** Completed packets and the event flag of each port, the packet actions that will still look at their ring, those
      that have seen it empty and are about to return, the handlers that are mid-step, and the ports for which a polled
      read still has to raise the event. */
  datatype System = System(rings: seq<nat>, events: seq<bool>, running: set<nat>, ending: set<nat>,
                           handlers: seq<Handler>, dispatching: seq<nat>)

  /** A byte from the data port: the status it came with, and whether it completes a packet for its driver. */
  datatype Step =
    | Interrupt
    | HandleByte(h: nat, status: Byte, complete: bool)
    | NoMoreData(h: nat)
    | WakeNext(h: nat)
    | DispatchByte(status: Byte, complete: bool)
    | RaiseEvent
    | StartAction(port: nat)
    | TakePacket(port: nat)
    | SeeEmpty(port: nat)
    | EndAction(port: nat)

  const START := System([0, 0, 0, 0, 0], [false, false, false, false, false], {}, {}, [], [])

  /** A driver completes a packet only if its interrupt action is installed. */
  predicate Completes(c: Config, port: nat, complete: bool) {
    complete && if port >= AUX then c.mouseInstalled else c.keyboardInstalled
  }

  function WakeStep(c: Config, s: System, h: nat): System
    requires h < |s.handlers| && s.handlers[h].Waking? && |s.events| == PORTS
  {
    var w := s.handlers[h];
    if w.next >= NubsCount(c) then s.(handlers := s.handlers[..h] + s.handlers[h + 1..])
    else
      s.(handlers := s.handlers[h := Waking(w.wake, w.next + 1)],
         events := if w.next in w.wake then s.events[w.next := true] else s.events)
  }

  function Apply(c: Config, s: System, step: Step): System
    requires |s.rings| == PORTS && |s.events| == PORTS
  {
    match step
    case Interrupt => s.(handlers := s.handlers + [Collecting({})])
    case HandleByte(h, status, complete) =>
      var port := PortFromStatus(c.mux, status);
      if h < |s.handlers| && s.handlers[h].Collecting? && Completes(c, port, complete)
      then s.(rings := s.rings[port := s.rings[port] + 1], handlers := s.handlers[h := Collecting(s.handlers[h].wake + {port})])
      else s
    case NoMoreData(h) =>
      if h < |s.handlers| && s.handlers[h].Collecting? then s.(handlers := s.handlers[h := Waking(s.handlers[h].wake, KBD)]) else s
    case WakeNext(h) =>
      if h < |s.handlers| && s.handlers[h].Waking? then WakeStep(c, s, h) else s
    case DispatchByte(status, complete) =>
      var port := PortFromStatus(c.mux, status);
      if Completes(c, port, complete)
      then s.(rings := s.rings[port := s.rings[port] + 1], dispatching := s.dispatching + [port])
      else s
    case RaiseEvent =>
      if s.dispatching != [] && s.dispatching[0] < PORTS
      then s.(events := s.events[s.dispatching[0] := true], dispatching := s.dispatching[1..])
      else s
    case StartAction(port) =>
      if port < PORTS && s.events[port] && port !in s.running + s.ending
      then s.(events := s.events[port := false], running := s.running + {port})
      else s
    case TakePacket(port) =>
      if port < PORTS && port in s.running && s.rings[port] > 0 then s.(rings := s.rings[port := s.rings[port] - 1]) else s
    case SeeEmpty(port) =>
      if port < PORTS && port in s.running && s.rings[port] == 0
      then s.(running := s.running - {port}, ending := s.ending + {port})
      else s
    case EndAction(port) => s.(ending := s.ending - {port})
  }

  // ---- Nothing is stranded

  /** The handler will still raise the event of the port. */
  predicate WillWake(c: Config, h: Handler, port: nat) {
    port in h.wake && port < NubsCount(c) && (h.Waking? ==> h.next <= port)
  }

  ghost predicate SomeWillWake(c: Config, handlers: seq<Handler>, port: nat) {
    exists h :: 0 <= h < |handlers| && WillWake(c, handlers[h], port)
  }

  /** Somebody is going to look at the ring of the port; a packet action that has seen it empty is not. */
  ghost predicate Attended(c: Config, s: System, port: nat)
    requires port < |s.events|
  {
    s.events[port] || port in s.running || SomeWillWake(c, s.handlers, port) || port in s.dispatching
  }

  ghost predicate Inv(c: Config, s: System) {
    && |s.rings| == PORTS && |s.events| == PORTS
    && (forall k :: 0 <= k < |s.dispatching| ==> s.dispatching[k] < PORTS)
    && forall port :: 0 <= port < PORTS && s.rings[port] > 0 ==> Attended(c, s, port)
  }

  /** Every port that a status byte can name and whose driver listens is one whose event gets raised. */
  lemma CompletesInRange(c: Config, status: Byte, complete: bool)
    requires Consistent(c) && Completes(c, PortFromStatus(c.mux, status), complete)
    ensures PortFromStatus(c.mux, status) < NubsCount(c)
  {
  }

  lemma HandlerChanges(c: Config, s: System, h: nat, next: Handler, port: nat)
    requires h < |s.handlers| && SomeWillWake(c, s.handlers, port)
    requires WillWake(c, s.handlers[h], port) ==> WillWake(c, next, port)
    ensures SomeWillWake(c, s.handlers[h := next], port)
  {
    var g :| 0 <= g < |s.handlers| && WillWake(c, s.handlers[g], port);
    assert WillWake(c, s.handlers[h := next][g], port);
  }

  lemma HandleByteKeeps(c: Config, s: System, h: nat, status: Byte, complete: bool)
    requires Consistent(c) && Inv(c, s)
    ensures Inv(c, Apply(c, s, HandleByte(h, status, complete)))
  {
    var port := PortFromStatus(c.mux, status);
    if h < |s.handlers| && s.handlers[h].Collecting? && Completes(c, port, complete) {
      CompletesInRange(c, status, complete);
      var next := Collecting(s.handlers[h].wake + {port});
      var after := Apply(c, s, HandleByte(h, status, complete));
      forall p | 0 <= p < PORTS && after.rings[p] > 0
        ensures Attended(c, after, p)
      {
        if p == port {
          assert WillWake(c, after.handlers[h], p);
        } else if SomeWillWake(c, s.handlers, p) {
          HandlerChanges(c, s, h, next, p);
        } else {
          assert Attended(c, s, p);
        }
      }
    }
  }

  lemma NoMoreDataKeeps(c: Config, s: System, h: nat)
    requires Inv(c, s)
    ensures Inv(c, Apply(c, s, NoMoreData(h)))
  {
    if h < |s.handlers| && s.handlers[h].Collecting? {
      var after := Apply(c, s, NoMoreData(h));
      forall p | 0 <= p < PORTS && after.rings[p] > 0
        ensures Attended(c, after, p)
      {
        assert Attended(c, s, p);
        if SomeWillWake(c, s.handlers, p) {
          HandlerChanges(c, s, h, Waking(s.handlers[h].wake, KBD), p);
        }
      }
    }
  }

  lemma WakeNextKeeps(c: Config, s: System, h: nat)
    requires Inv(c, s) && h < |s.handlers| && s.handlers[h].Waking? && s.handlers[h].next < NubsCount(c)
    ensures Inv(c, WakeStep(c, s, h))
  {
    var w, after := s.handlers[h], WakeStep(c, s, h);
    forall p | 0 <= p < PORTS && after.rings[p] > 0
      ensures Attended(c, after, p)
    {
      assert Attended(c, s, p);
      if !after.events[p] && SomeWillWake(c, s.handlers, p) {
        HandlerChanges(c, s, h, Waking(w.wake, w.next + 1), p);
      }
    }
  }

  lemma HandlerEnds(c: Config, s: System, h: nat)
    requires Inv(c, s) && h < |s.handlers| && s.handlers[h].Waking? && s.handlers[h].next >= NubsCount(c)
    ensures Inv(c, WakeStep(c, s, h))
  {
    var after := WakeStep(c, s, h);
    forall p | 0 <= p < PORTS && after.rings[p] > 0
      ensures Attended(c, after, p)
    {
      assert Attended(c, s, p);
      if SomeWillWake(c, s.handlers, p) {
        var g :| 0 <= g < |s.handlers| && WillWake(c, s.handlers[g], p);
        assert WillWake(c, after.handlers[if g < h then g else g - 1], p);
      }
    }
  }

  lemma InterruptKeeps(c: Config, s: System)
    requires Inv(c, s)
    ensures Inv(c, Apply(c, s, Interrupt))
  {
    var after := Apply(c, s, Interrupt);
    forall p | 0 <= p < PORTS && after.rings[p] > 0
      ensures Attended(c, after, p)
    {
      assert Attended(c, s, p);
      if SomeWillWake(c, s.handlers, p) {
        var g :| 0 <= g < |s.handlers| && WillWake(c, s.handlers[g], p);
        assert WillWake(c, after.handlers[g], p);
      }
    }
  }

  lemma RaiseEventKeeps(c: Config, s: System)
    requires Inv(c, s)
    ensures Inv(c, Apply(c, s, RaiseEvent))
  {
    var after := Apply(c, s, RaiseEvent);
    forall p | 0 <= p < PORTS && after.rings[p] > 0
      ensures Attended(c, after, p)
    {
      assert Attended(c, s, p);
    }
  }

  lemma WorkLoopKeeps(c: Config, s: System, step: Step)
    requires Inv(c, s) && (step.DispatchByte? || step.StartAction? || step.TakePacket? || step.SeeEmpty? || step.EndAction?)
    ensures Inv(c, Apply(c, s, step))
  {
    var after := Apply(c, s, step);
    forall p | 0 <= p < PORTS && after.rings[p] > 0
      ensures Attended(c, after, p)
    {
      if s.rings[p] > 0 {
        assert Attended(c, s, p);
      }
    }
  }

  lemma StepKeeps(c: Config, s: System, step: Step)
    requires Consistent(c) && Inv(c, s)
    ensures Inv(c, Apply(c, s, step))
  {
    match step
    case Interrupt => InterruptKeeps(c, s);
    case HandleByte(h, status, complete) => HandleByteKeeps(c, s, h, status, complete);
    case NoMoreData(h) => NoMoreDataKeeps(c, s, h);
    case WakeNext(h) =>
      if h < |s.handlers| && s.handlers[h].Waking? {
        if s.handlers[h].next < NubsCount(c) {
          WakeNextKeeps(c, s, h);
        } else {
          HandlerEnds(c, s, h);
        }
      }
    case RaiseEvent => RaiseEventKeeps(c, s);
    case _ => WorkLoopKeeps(c, s, step);
  }

  function Run(c: Config, steps: seq<Step>): (s: System)
    ensures |s.rings| == PORTS && |s.events| == PORTS
  {
    if steps == [] then START else Apply(c, Run(c, steps[..|steps| - 1]), steps[|steps| - 1])
  }

  lemma {:induction false} RunKeeps(c: Config, steps: seq<Step>)
    requires Consistent(c)
    ensures Inv(c, Run(c, steps))
  {
    if steps != [] {
      RunKeeps(c, steps[..|steps| - 1]);
      StepKeeps(c, Run(c, steps[..|steps| - 1]), steps[|steps| - 1]);
    }
  }

  /** On every interleaving, whenever no handler and no polled read is mid-step, a port with a completed packet has its
      event raised or a packet action that will look at its ring again. */
  lemma NothingStranded(c: Config, steps: seq<Step>, port: nat)
    requires Consistent(c) && port < PORTS
    requires Run(c, steps).handlers == [] && Run(c, steps).dispatching == [] && Run(c, steps).rings[port] > 0
    ensures Run(c, steps).events[port] || port in Run(c, steps).running
  {
    RunKeeps(c, steps);
    assert Attended(c, Run(c, steps), port);
  }

  /** A packet action on its own: the steps it takes until it has returned. */
  function ActionSteps(port: nat, packets: nat): seq<Step> {
    if packets == 0 then [SeeEmpty(port), EndAction(port)] else [TakePacket(port)] + ActionSteps(port, packets - 1)
  }

  function RunFrom(c: Config, s: System, steps: seq<Step>): System
    requires |s.rings| == PORTS && |s.events| == PORTS
    decreases |steps|
  {
    if steps == [] then s else RunFrom(c, Apply(c, s, steps[0]), steps[1..])
  }

  /** A packet action that runs undisturbed empties the ring, returns, and touches nothing else. */
  lemma {:induction false} ActionEmpties(c: Config, s: System, port: nat)
    requires port < PORTS && |s.rings| == PORTS && |s.events| == PORTS && port in s.running && port !in s.ending
    ensures RunFrom(c, s, ActionSteps(port, s.rings[port]))
         == s.(rings := s.rings[port := 0], running := s.running - {port})
    decreases s.rings[port]
  {
    var steps := ActionSteps(port, s.rings[port]);
    if s.rings[port] > 0 {
      var next := Apply(c, s, TakePacket(port));
      assert steps[1..] == ActionSteps(port, next.rings[port]);
      ActionEmpties(c, next, port);
      assert next.rings[port := 0] == s.rings[port := 0];
    } else {
      var seen := Apply(c, s, SeeEmpty(port));
      assert steps[1..] == [EndAction(port)] && steps[1..][1..] == [];
      assert RunFrom(c, Apply(c, seen, EndAction(port)), steps[1..][1..]) == Apply(c, seen, EndAction(port));
      assert s.ending + {port} - {port} == s.ending;
      assert s.rings[port := 0] == s.rings;
    }
  }

  // ---- A handler on its own

  function WakeSteps(h: nat, n: nat): seq<Step> {
    if n == 0 then [] else [WakeNext(h)] + WakeSteps(h, n - 1)
  }

  /** The handler goes through the ports in use and ends. */
  lemma {:induction false} WakesAll(c: Config, s: System, h: nat)
    requires |s.rings| == PORTS && |s.events| == PORTS && h < |s.handlers|
    requires s.handlers[h].Waking? && s.handlers[h].next <= NubsCount(c)
    ensures var w := s.handlers[h]; var r := RunFrom(c, s, WakeSteps(h, NubsCount(c) - w.next + 1));
            && r == s.(handlers := s.handlers[..h] + s.handlers[h + 1..], events := r.events) && |r.events| == PORTS
            && forall port :: 0 <= port < PORTS ==>
                 r.events[port] == (s.events[port] || (port in w.wake && w.next <= port < NubsCount(c)))
    decreases NubsCount(c) - s.handlers[h].next
  {
    var w := s.handlers[h];
    var steps := WakeSteps(h, NubsCount(c) - w.next + 1);
    var next := WakeStep(c, s, h);
    assert steps[0] == WakeNext(h) && steps[1..] == WakeSteps(h, NubsCount(c) - w.next);
    if w.next < NubsCount(c) {
      WakesAll(c, next, h);
      assert next.handlers[..h] == s.handlers[..h] && next.handlers[h + 1..] == s.handlers[h + 1..];
    } else {
      assert RunFrom(c, next, []) == next;
    }
  }

  // ---- Packets are counted

  /** The step completes a packet on the port: the byte is for it, says so, and the port's driver listens. */
  predicate CompletesOn(c: Config, s: System, step: Step, port: nat) {
    match step
    case HandleByte(h, status, complete) =>
      && complete && PortFromStatus(c.mux, status) == port && (if port == 0 then c.keyboardInstalled else c.mouseInstalled)
      && h < |s.handlers| && s.handlers[h].Collecting?
    case DispatchByte(status, complete) =>
      complete && PortFromStatus(c.mux, status) == port && (if port == 0 then c.keyboardInstalled else c.mouseInstalled)
    case _ => false
  }

  function Completions(c: Config, steps: seq<Step>, port: nat): nat {
    if steps == [] then 0
    else
      var before := steps[..|steps| - 1];
      Completions(c, before, port) + if CompletesOn(c, Run(c, before), steps[|steps| - 1], port) then 1 else 0
  }

  /** The step takes a packet from the port's ring. */
  predicate Takes(s: System, step: Step, port: nat)
    requires |s.rings| == PORTS && port < PORTS
  {
    step.TakePacket? && step.port == port && port in s.running && s.rings[port] > 0
  }

  function Taken(c: Config, steps: seq<Step>, port: nat): nat
    requires port < PORTS
  {
    if steps == [] then 0
    else
      var before := steps[..|steps| - 1];
      Taken(c, before, port) + if Takes(Run(c, before), steps[|steps| - 1], port) then 1 else 0
  }

  lemma RingMoves(c: Config, s: System, step: Step, port: nat)
    requires |s.rings| == PORTS && |s.events| == PORTS && port < PORTS
    ensures Apply(c, s, step).rings[port]
         == s.rings[port] + (if CompletesOn(c, s, step, port) then 1 else 0) - (if Takes(s, step, port) then 1 else 0)
  {
  }

  /** Over every interleaving every completed packet is taken once or still in its ring. */
  lemma {:induction false} PacketsAreCounted(c: Config, steps: seq<Step>, port: nat)
    requires port < PORTS
    ensures Completions(c, steps, port) == Taken(c, steps, port) + Run(c, steps).rings[port]
  {
    if steps != [] {
      hide Apply, CompletesOn, Takes;
      var before := steps[..|steps| - 1];
      PacketsAreCounted(c, before, port);
      RingMoves(c, Run(c, before), steps[|steps| - 1], port);
    }
  }

  // ---- Actions have a cause

  /** The ports there are: the keyboard's alone, or one or four mouse ports with it. */
  function PortsInUse(c: Config): nat {
    if c.kbdOnly then 1 else if c.mux then 5 else 2
  }

  /** Nothing is ever done about a port that is not in use. */
  ghost predicate OnlyInUse(c: Config, s: System) {
    && |s.rings| == PORTS && |s.events| == PORTS
    && (forall h, port :: 0 <= h < |s.handlers| && port in s.handlers[h].wake ==> port < PortsInUse(c))
    && (forall k :: 0 <= k < |s.dispatching| ==> s.dispatching[k] < PortsInUse(c))
    && forall port :: 0 <= port < PORTS && (s.events[port] || port in s.running || s.rings[port] > 0) ==> port < PortsInUse(c)
  }

  lemma ByteUse(c: Config, s: System, step: Step)
    requires Consistent(c) && OnlyInUse(c, s) && (step.HandleByte? || step.DispatchByte?)
    ensures OnlyInUse(c, Apply(c, s, step))
  {
    var port := PortFromStatus(c.mux, step.status);
    if Completes(c, port, step.complete) {
      CompletesInRange(c, step.status, step.complete);
    }
    hide PortFromStatus;
  }

  lemma HandlerUse(c: Config, s: System, step: Step)
    requires OnlyInUse(c, s) && (step.Interrupt? || step.NoMoreData? || step.WakeNext?)
    ensures OnlyInUse(c, Apply(c, s, step))
  {
    hide PortFromStatus;
  }

  lemma OtherUse(c: Config, s: System, step: Step)
    requires OnlyInUse(c, s) && !step.HandleByte? && !step.DispatchByte? && !step.Interrupt? && !step.NoMoreData? && !step.WakeNext?
    ensures OnlyInUse(c, Apply(c, s, step))
  {
    hide PortFromStatus;
  }

  lemma UseKept(c: Config, s: System, step: Step)
    requires Consistent(c) && OnlyInUse(c, s)
    ensures OnlyInUse(c, Apply(c, s, step))
  {
    hide *;
    if step.HandleByte? || step.DispatchByte? {
      ByteUse(c, s, step);
    } else if step.Interrupt? || step.NoMoreData? || step.WakeNext? {
      HandlerUse(c, s, step);
    } else {
      OtherUse(c, s, step);
    }
  }

  lemma {:induction false} RunInUse(c: Config, steps: seq<Step>)
    requires Consistent(c)
    ensures OnlyInUse(c, Run(c, steps))
  {
    if steps != [] {
      hide Apply;
      RunInUse(c, steps[..|steps| - 1]);
      UseKept(c, Run(c, steps[..|steps| - 1]), steps[|steps| - 1]);
    }
  }

  /** The handlers that have collected a packet of the port and not raised its event yet. */
  function Carrying(handlers: seq<Handler>, port: nat): nat {
    if handlers == [] then 0
    else Carrying(handlers[..|handlers| - 1], port) + if Carries(handlers[|handlers| - 1], port) then 1 else 0
  }

  predicate Carries(h: Handler, port: nat) {
    port in h.wake && (h.Waking? ==> h.next <= port)
  }

  function Dispatching(ports: seq<nat>, port: nat): nat {
    multiset(ports)[port]
  }

  /** The packet actions that were started for the port. */
  predicate Starts(s: System, step: Step, port: nat)
    requires |s.events| == PORTS && port < PORTS
  {
    step.StartAction? && step.port == port && s.events[port] && port !in s.running && port !in s.ending
  }

  function Started(c: Config, steps: seq<Step>, port: nat): nat
    requires port < PORTS
  {
    if steps == [] then 0
    else
      var before := steps[..|steps| - 1];
      Started(c, before, port) + if Starts(Run(c, before), steps[|steps| - 1], port) then 1 else 0
  }

  lemma {:induction false} CarryingAppends(a: seq<Handler>, b: seq<Handler>, port: nat)
    ensures Carrying(a + b, port) == Carrying(a, port) + Carrying(b, port)
    decreases |b|
  {
    if b == [] {
      assert a + b == a;
    } else {
      var n := |b| - 1;
      CarryingAppends(a, b[..n], port);
      assert (a + b)[..|a| + n] == a + b[..n];
    }
  }

  lemma CarryingOne(h: Handler, port: nat)
    ensures Carrying([h], port) == if Carries(h, port) then 1 else 0
  {
    assert [h][..0] == [];
  }

  lemma CarryingAround(a: seq<Handler>, h: Handler, b: seq<Handler>, port: nat)
    ensures Carrying(a + [h] + b, port) == Carrying(a, port) + (if Carries(h, port) then 1 else 0) + Carrying(b, port)
    ensures Carrying(a + b, port) == Carrying(a, port) + Carrying(b, port)
  {
    hide Carrying, Carries;
    CarryingAppends(a, b, port);
    CarryingAppends(a, [h], port);
    CarryingAppends(a + [h], b, port);
    CarryingOne(h, port);
  }

  lemma CarryingSplits(handlers: seq<Handler>, h: nat, next: Handler, port: nat)
    requires h < |handlers|
    ensures var rest := handlers[..h] + handlers[h + 1..];
            && Carrying(handlers, port) == Carrying(rest, port) + (if Carries(handlers[h], port) then 1 else 0)
            && Carrying(handlers[h := next], port) == Carrying(rest, port) + (if Carries(next, port) then 1 else 0)
  {
    CarryingAround(handlers[..h], handlers[h], handlers[h + 1..], port);
    CarryingAround(handlers[..h], next, handlers[h + 1..], port);
    assert handlers == handlers[..h] + [handlers[h]] + handlers[h + 1..];
    assert handlers[h := next] == handlers[..h] + [next] + handlers[h + 1..];
  }

  /** What may still start a packet action. */
  function Causes(s: System, port: nat): nat
    requires |s.events| == PORTS && port < PORTS
  {
    (if s.events[port] then 1 else 0) + Carrying(s.handlers, port) + Dispatching(s.dispatching, port)
  }

  lemma HandlerCauses(c: Config, s: System, step: Step, port: nat)
    requires |s.rings| == PORTS && |s.events| == PORTS && port < PORTS
    requires step.Interrupt? || step.HandleByte? || step.NoMoreData? || step.WakeNext?
    ensures Causes(Apply(c, s, step), port) <= Causes(s, port) + if CompletesOn(c, s, step, port) then 1 else 0
  {
    hide Carrying;
    match step
    case Interrupt => NewHandler(s.handlers, port);
    case HandleByte(h, status, complete) =>
      if h < |s.handlers| {
        CarryingSplits(s.handlers, h, Collecting(s.handlers[h].wake + {PortFromStatus(c.mux, status)}), port);
      }
    case NoMoreData(h) =>
      if h < |s.handlers| {
        CarryingSplits(s.handlers, h, Waking(s.handlers[h].wake, KBD), port);
      }
    case WakeNext(h) =>
      if h < |s.handlers| && s.handlers[h].Waking? {
        CarryingSplits(s.handlers, h, Waking(s.handlers[h].wake, s.handlers[h].next + 1), port);
      }
  }

  lemma NewHandler(handlers: seq<Handler>, port: nat)
    ensures Carrying(handlers + [Collecting({})], port) == Carrying(handlers, port)
  {
    assert (handlers + [Collecting({})])[..|handlers|] == handlers;
  }

  lemma DispatchCauses(c: Config, s: System, step: Step, port: nat)
    requires |s.rings| == PORTS && |s.events| == PORTS && port < PORTS && (step.DispatchByte? || step.RaiseEvent?)
    ensures Causes(Apply(c, s, step), port) <= Causes(s, port) + if CompletesOn(c, s, step, port) then 1 else 0
  {
    if step.RaiseEvent? && s.dispatching != [] {
      assert s.dispatching == [s.dispatching[0]] + s.dispatching[1..];
    }
  }

  lemma ActionCauses(c: Config, s: System, step: Step, port: nat)
    requires |s.rings| == PORTS && |s.events| == PORTS && port < PORTS
    requires step.StartAction? || step.TakePacket? || step.SeeEmpty? || step.EndAction?
    ensures Causes(Apply(c, s, step), port) + (if Starts(s, step, port) then 1 else 0) == Causes(s, port)
  {
  }

  /** Over every interleaving a port has had no more packet actions than packets, and a raised event or a handler or polled
      read that is going to raise it has a packet of its own. */
  lemma {:induction false} ActionsHaveCauses(c: Config, steps: seq<Step>, port: nat)
    requires port < PORTS
    ensures Started(c, steps, port) + Causes(Run(c, steps), port) <= Completions(c, steps, port)
  {
    if steps != [] {
      hide Apply, Causes, CompletesOn;
      var before, step := steps[..|steps| - 1], steps[|steps| - 1];
      ActionsHaveCauses(c, before, port);
      if step.Interrupt? || step.HandleByte? || step.NoMoreData? || step.WakeNext? {
        HandlerCauses(c, Run(c, before), step, port);
      } else if step.DispatchByte? || step.RaiseEvent? {
        DispatchCauses(c, Run(c, before), step, port);
      } else {
        ActionCauses(c, Run(c, before), step, port);
        assert !CompletesOn(c, Run(c, before), step, port) by {
          NotCompleting(c, Run(c, before), step, port);
        }
      }
    }
  }

  lemma NotCompleting(c: Config, s: System, step: Step, port: nat)
    requires !step.HandleByte? && !step.DispatchByte?
    ensures !CompletesOn(c, s, step, port)
  {
  }
}
