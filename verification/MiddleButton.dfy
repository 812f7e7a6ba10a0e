/** The mouse driver's middle button made of two: a state machine with a timer. */
module MiddleButton {
  import opened Options

  /** A packet carries at most five buttons. */
  type Buttons = bv8

  const LEFT: Buttons := 0x1
  const RIGHT: Buttons := 0x2
  const BOTH: Buttons := 0x3
  const MIDDLE: Buttons := 0x4
  const UINT64 := 0x1_0000_0000_0000_0000

  datatype State = NoButtons | Middle | WaitForTwo | WaitForNone | NoOp

  /** The state, the buttons that wait and since when, whether the timer is set, and what was reported last. */
  datatype Machine = Machine(state: State, pending: Buttons, since: nat, armed: bool, last: Buttons)

  const REST := Machine(NoButtons, 0, 0, false, 0)

  /** A packet with its buttons, or the timer. */
  datatype Input = Packet(buttons: Buttons, now: nat) | Timer(now: nat)

  /** The machine after an input and the events dispatched for it. */
  datatype Turn = Turn(machine: Machine, events: seq<Buttons>)

  /** Unsigned difference of two times. */
  function Elapsed(now: nat, since: nat): nat {
    (now - since) % UINT64
  }

  predicate Share(a: Buttons, b: Buttons) {
    a & b != 0
  }

  function Together(a: Buttons, b: Buttons): Buttons {
    a | b
  }

  /** The buttons besides the two that make a middle button. */
  function Further(b: Buttons): Buttons {
    b & !BOTH
  }

  function Waiting(m: Machine, state: State, buttons: Buttons, now: nat): Machine {
    m.(state := state, pending := buttons, since := now, armed := true)
  }

  function Settled(m: Machine, buttons: Buttons): Machine {
    m.(state := if buttons == 0 then NoButtons else NoOp, pending := 0, armed := false)
  }

  /** The transition of middleButton, with the event it dispatches by itself. */
  function Transition(m: Machine, buttons: Buttons, now: nat, fromTimer: bool, timeout: bool): Turn {
    match m.state
    case NoButtons =>
      if buttons & MIDDLE != 0 then Turn(m.(state := NoOp), [])
      else if buttons == BOTH then Turn(m.(state := Middle), [])
      else if buttons != 0 then Turn(Waiting(m, WaitForTwo, buttons, now), [])
      else Turn(m, [])
    case WaitForTwo =>
      if !timeout && buttons == BOTH then Turn(m.(state := Middle, pending := 0, armed := false), [])
      else if timeout || buttons != m.pending then
        Turn(Settled(m, buttons), if fromTimer || !Share(buttons, m.pending) then [Together(buttons, m.pending)] else [])
      else Turn(m, [])
    case Middle =>
      if buttons == 0 then Turn(m.(state := NoButtons), [])
      else if buttons & BOTH != BOTH then Turn(Waiting(m, WaitForNone, buttons, now), [])
      else Turn(m, [])
    case WaitForNone =>
      if !timeout && buttons == 0 then Turn(m.(state := NoButtons, pending := 0, armed := false), [])
      else if timeout || buttons != m.pending then
        Turn(Settled(m, buttons), if fromTimer then [Together(buttons, m.pending)] else [])
      else Turn(m, [])
    case NoOp =>
      if buttons == 0 then Turn(m.(state := NoButtons), []) else Turn(m, [])
  }

  /** The buttons to report in a state. */
  function Reported(state: State, buttons: Buttons): Buttons {
    match state
    case Middle => MIDDLE
    case WaitForNone => Further(buttons)
    case WaitForTwo => Further(buttons)
    case _ => buttons
  }

  /** A packet is always reported; the timer reports nothing but what the transition dispatches. A timer that is not set
      does not fire. */
  function Step(limit: nat, m: Machine, input: Input): Turn {
    match input
    case Packet(buttons, now) =>
      var t := Transition(m, buttons, now, false, Elapsed(now, m.since) > limit);
      var reported := Reported(t.machine.state, buttons);
      Turn(t.machine.(last := reported), t.events + [reported])
    case Timer(now) =>
      if m.armed then Transition(m.(armed := false), m.last, now, true, true) else Turn(m, [])
  }

  function Run(limit: nat, inputs: seq<Input>): Turn {
    if inputs == [] then Turn(REST, [])
    else
      var before := Run(limit, inputs[..|inputs| - 1]);
      var t := Step(limit, before.machine, inputs[|inputs| - 1]);
      Turn(t.machine, before.events + t.events)
  }

  // ---- Waiting always ends

  predicate IsWaiting(s: State) {
    s.WaitForTwo? || s.WaitForNone?
  }

  /** The timer is set and buttons are pending exactly while the machine waits; meanwhile neither of the two is reported. */
  predicate Inv(m: Machine) {
    m.armed == IsWaiting(m.state) && (m.pending != 0) == IsWaiting(m.state) && (IsWaiting(m.state) ==> m.last & BOTH == 0)
  }

  lemma PacketKeeps(limit: nat, m: Machine, b: Buttons, now: nat)
    requires Inv(m)
    ensures Inv(Step(limit, m, Packet(b, now)).machine)
  {
    Masked(b);
  }

  lemma TimerKeeps(limit: nat, m: Machine, now: nat)
    requires Inv(m)
    ensures Inv(Step(limit, m, Timer(now)).machine)
  {
  }

  lemma Masked(buttons: Buttons)
    ensures (buttons & !BOTH) & BOTH == 0
  {
  }

  lemma {:induction false} RunKeeps(limit: nat, inputs: seq<Input>)
    ensures Inv(Run(limit, inputs).machine)
  {
    if inputs != [] {
      RunKeeps(limit, inputs[..|inputs| - 1]);
      var m := Run(limit, inputs[..|inputs| - 1]).machine;
      match inputs[|inputs| - 1]
      case Packet(b, now) => PacketKeeps(limit, m, b, now);
      case Timer(now) => TimerKeeps(limit, m, now);
    }
  }

  // ---- No press is lost

  ghost predicate Shows(events: seq<Buttons>, wanted: Buttons) {
    exists k :: 0 <= k < |events| && events[k] & wanted == wanted
  }

  ghost predicate ShowsSome(events: seq<Buttons>, wanted: Buttons) {
    exists k :: 0 <= k < |events| && events[k] & wanted != 0
  }

  predicate ThreeButtons(input: Input) {
    input.Packet? ==> input.buttons & 0x7 == input.buttons
  }

  ghost predicate AllThreeButtons(inputs: seq<Input>) {
    forall k :: 0 <= k < |inputs| ==> ThreeButtons(inputs[k])
  }

  /** The machine gave up waiting for the second button. */
  predicate GaveUp(before: State, after: State) {
    before.WaitForTwo? && !after.WaitForTwo? && !after.Middle?
  }

  lemma TimerShows(limit: nat, m: Machine, now: nat)
    requires Inv(m) && m.state.WaitForTwo?
    ensures Shows(Step(limit, m, Timer(now)).events, m.pending) && ShowsSome(Step(limit, m, Timer(now)).events, m.pending)
  {
    var t := Step(limit, m, Timer(now));
    OrHas(m.last, m.pending);
    assert t.events[0] == Together(m.last, m.pending);
  }

  lemma GaveUpEvents(limit: nat, m: Machine, b: Buttons, now: nat)
    requires GaveUp(m.state, Step(limit, m, Packet(b, now)).machine.state)
    ensures Step(limit, m, Packet(b, now)).events == (if Share(b, m.pending) then [] else [Together(b, m.pending)]) + [b]
  {
  }

  lemma PacketShows(limit: nat, m: Machine, b: Buttons, now: nat)
    requires Inv(m) && GaveUp(m.state, Step(limit, m, Packet(b, now)).machine.state)
    ensures var t := Step(limit, m, Packet(b, now));
            && ShowsSome(t.events, m.pending)
            && (m.pending == LEFT || m.pending == RIGHT ==> Shows(t.events, m.pending))
  {
    var events := Step(limit, m, Packet(b, now)).events;
    GaveUpEvents(limit, m, b, now);
    if !Share(b, m.pending) {
      OrHas(b, m.pending);
      assert events[0] == Together(b, m.pending);
    } else {
      assert events[0] == b;
      if m.pending == LEFT || m.pending == RIGHT {
        SingleBit(b, m.pending);
      }
    }
  }

  lemma OrHas(a: Buttons, p: Buttons)
    ensures Together(a, p) & p == p
  {
  }

  lemma SingleBit(b: Buttons, p: Buttons)
    requires (p == LEFT || p == RIGHT) && b & p != 0
    ensures b & p == p
  {
  }

  /** With three buttons only one of the two waits for the other. */
  lemma {:induction false} OneWaits(limit: nat, inputs: seq<Input>)
    requires AllThreeButtons(inputs)
    ensures var m := Run(limit, inputs).machine;
            m.state.WaitForTwo? ==> m.pending == LEFT || m.pending == RIGHT
  {
    if inputs != [] {
      var before := Run(limit, inputs[..|inputs| - 1]).machine;
      var input := inputs[|inputs| - 1];
      OneWaits(limit, inputs[..|inputs| - 1]);
      RunKeeps(limit, inputs[..|inputs| - 1]);
      assert ThreeButtons(input);
      if input.Packet? {
        OfThree(input.buttons);
      }
    }
  }

  lemma OfThree(b: Buttons)
    requires b & 0x7 == b
    ensures b & MIDDLE != 0 || b == 0 || b == LEFT || b == RIGHT || b == BOTH
  {
  }

  /** Over every run: whenever the machine gives up waiting for the second button, the first one appears in an event. */
  lemma NoPressLost(limit: nat, inputs: seq<Input>, input: Input)
    requires GaveUp(Run(limit, inputs).machine.state, Step(limit, Run(limit, inputs).machine, input).machine.state)
    ensures var m := Run(limit, inputs).machine;
            && ShowsSome(Step(limit, m, input).events, m.pending)
            && (AllThreeButtons(inputs) ==> Shows(Step(limit, m, input).events, m.pending))
  {
    var m := Run(limit, inputs).machine;
    RunKeeps(limit, inputs);
    if AllThreeButtons(inputs) {
      OneWaits(limit, inputs);
    }
    match input
    case Packet(b, now) => PacketShows(limit, m, b, now);
    case Timer(now) => TimerShows(limit, m, now);
  }

  // ---- A middle click

  /** What the fingers do during a middle click. */
  datatype Phase = Up | OneDown(button: Buttons, since: nat) | BothDown | OneUp(button: Buttons, since: nat)

  /** The next packet of a middle click: the two buttons come down together or within the limit, and go up so. */
  function Follow(limit: nat, phase: Phase, b: Buttons, now: nat): (next: Phase)
    requires Clicks(limit, phase, b, now)
  {
    match phase
    case Up => if b == 0 then Up else if b == BOTH then BothDown else OneDown(b, now)
    case OneDown(_, _) => if b == BOTH then BothDown else phase
    case BothDown => if b == 0 then Up else if b == BOTH then BothDown else OneUp(b, now)
    case OneUp(_, _) => if b == 0 then Up else phase
  }

  predicate Clicks(limit: nat, phase: Phase, b: Buttons, now: nat) {
    match phase
    case Up => b == 0 || b == LEFT || b == RIGHT || b == BOTH
    case OneDown(button, since) => Elapsed(now, since) <= limit && (b == button || b == BOTH)
    case BothDown => b == 0 || b == LEFT || b == RIGHT || b == BOTH
    case OneUp(button, since) => Elapsed(now, since) <= limit && (b == button || b == 0)
  }

  /** Packets of middle clicks, each repeated any number of times, and the phase after them. */
  function ClickPhase(limit: nat, inputs: seq<Input>): Option<Phase> {
    if inputs == [] then Some(Up)
    else
      var input := inputs[|inputs| - 1];
      match ClickPhase(limit, inputs[..|inputs| - 1])
      case None => None
      case Some(phase) =>
        if input.Packet? && Clicks(limit, phase, input.buttons, input.now)
        then Some(Follow(limit, phase, input.buttons, input.now)) else None
  }

  /** The machine in a phase. */
  predicate Matches(phase: Phase, m: Machine) {
    match phase
    case Up => m.state.NoButtons?
    case OneDown(button, since) => m.state.WaitForTwo? && m.pending == button && m.since == since && (button == LEFT || button == RIGHT)
    case BothDown => m.state.Middle?
    case OneUp(button, since) => m.state.WaitForNone? && m.pending == button && m.since == since && (button == LEFT || button == RIGHT)
  }

  lemma ClickStep(limit: nat, phase: Phase, m: Machine, b: Buttons, now: nat)
    requires Matches(phase, m) && Clicks(limit, phase, b, now)
    ensures var t := Step(limit, m, Packet(b, now));
            && Matches(Follow(limit, phase, b, now), t.machine)
            && t.events == [if b == BOTH then MIDDLE else 0]
  {
  }

  /** The events that middle clicks should give: the middle button while both are down, and nothing else ever. */
  function MiddleEvents(inputs: seq<Input>): seq<Buttons> {
    if inputs == [] then []
    else
      var input := inputs[|inputs| - 1];
      MiddleEvents(inputs[..|inputs| - 1]) + [if input.Packet? && input.buttons == BOTH then MIDDLE else 0]
  }

  lemma RunNext(limit: nat, before: seq<Input>, inputs: seq<Input>)
    requires inputs != []
    ensures var n := |inputs| - 1;
            var m := Run(limit, before + inputs[..n]).machine;
            Run(limit, before + inputs) == Turn(Step(limit, m, inputs[n]).machine,
                                                Run(limit, before + inputs[..n]).events + Step(limit, m, inputs[n]).events)
  {
    var n := |inputs| - 1;
    assert (before + inputs)[..|before + inputs| - 1] == before + inputs[..n];
  }

  /** Two buttons pressed together and released one at a time within the limit are a middle button and nothing else, after
      every run that leaves the machine without buttons. */
  lemma {:induction false} MiddleClick(limit: nat, before: seq<Input>, inputs: seq<Input>)
    requires Run(limit, before).machine.state.NoButtons? && ClickPhase(limit, inputs).Some?
    ensures Run(limit, before + inputs).events == Run(limit, before).events + MiddleEvents(inputs)
    ensures Matches(ClickPhase(limit, inputs).value, Run(limit, before + inputs).machine)
    decreases |inputs|
  {
    if inputs == [] {
      assert before + inputs == before;
    } else {
      hide Step, Matches, Follow, Elapsed;
      var n := |inputs| - 1;
      MiddleClick(limit, before, inputs[..n]);
      RunNext(limit, before, inputs);
      ClickStep(limit, ClickPhase(limit, inputs[..n]).value, Run(limit, before + inputs[..n]).machine,
                inputs[n].buttons, inputs[n].now);
    }
  }

  /** Whatever happened before, a packet without buttons leaves the machine without buttons, waiting for nothing. */
  lemma ReleaseRests(limit: nat, before: seq<Input>, now: nat)
    ensures var m := Run(limit, before + [Packet(0, now)]).machine;
            m.state.NoButtons? && m.pending == 0 && !m.armed && m.last == 0
  {
    RunKeeps(limit, before);
    var released := [Packet(0, now)];
    RunNext(limit, before, released);
    assert released[..0] == [] && before + [] == before;
  }

  /** So a middle click works after every release. */
  lemma ClickAfterRelease(limit: nat, before: seq<Input>, now: nat, inputs: seq<Input>)
    requires ClickPhase(limit, inputs).Some?
    ensures var released := before + [Packet(0, now)];
            Run(limit, released + inputs).events == Run(limit, released).events + MiddleEvents(inputs)
  {
    ReleaseRests(limit, before, now);
    MiddleClick(limit, before + [Packet(0, now)], inputs);
  }

  // ---- Buttons that are reported as they are

  /** The buttons of the packets, which the timer does not add to. */
  function ButtonsOf(inputs: seq<Input>): seq<Buttons> {
    if inputs == [] then []
    else ButtonsOf(inputs[..|inputs| - 1]) + if inputs[|inputs| - 1].Packet? then [inputs[|inputs| - 1].buttons] else []
  }

  /** No packet is without buttons. */
  ghost predicate NeverReleased(inputs: seq<Input>) {
    forall k :: 0 <= k < |inputs| && inputs[k].Packet? ==> inputs[k].buttons != 0
  }

  /** Once it has settled the machine reports every packet as it is, until all buttons are released. */
  lemma {:induction false} SettledPasses(limit: nat, before: seq<Input>, inputs: seq<Input>)
    requires Run(limit, before).machine.state.NoOp? && NeverReleased(inputs)
    ensures Run(limit, before + inputs).machine.state.NoOp?
    ensures Run(limit, before + inputs).events == Run(limit, before).events + ButtonsOf(inputs)
    decreases |inputs|
  {
    if inputs == [] {
      assert before + inputs == before;
    } else {
      var n := |inputs| - 1;
      SettledPasses(limit, before, inputs[..n]);
      RunKeeps(limit, before + inputs[..n]);
      RunNext(limit, before, inputs);
    }
  }

  /** What settles the machine, from one without buttons: the third button at once. */
  lemma ThirdButtonSettles(limit: nat, before: seq<Input>, b: Buttons, now: nat)
    requires Run(limit, before).machine.state.NoButtons? && b & MIDDLE != 0
    ensures Run(limit, before + [Packet(b, now)]).machine.state.NoOp?
    ensures Run(limit, before + [Packet(b, now)]).events == Run(limit, before).events + [b]
  {
    var one := [Packet(b, now)];
    RunNext(limit, before, one);
    assert one[..0] == [] && before + [] == before;
  }

  predicate WaitsForSecond(m: Machine, first: Buttons, pressed: nat) {
    m.state.WaitForTwo? && m.pending == first && m.since == pressed
  }

  lemma FirstPress(limit: nat, before: seq<Input>, first: Buttons, pressed: nat)
    requires Run(limit, before).machine.state.NoButtons? && (first == LEFT || first == RIGHT)
    ensures var run := Run(limit, before + [Packet(first, pressed)]);
            WaitsForSecond(run.machine, first, pressed) && run.events == Run(limit, before).events + [0]
  {
    var one := [Packet(first, pressed)];
    RunNext(limit, before, one);
    assert one[..0] == [] && before + [] == before;
    FirstAlone(first);
  }

  lemma FirstAlone(first: Buttons)
    requires first == LEFT || first == RIGHT
    ensures first & MIDDLE == 0 && first != BOTH && first != 0 && Further(first) == 0
  {
  }

  lemma NothingShared(first: Buttons)
    ensures !Share(0, first) && Together(0, first) == first
  {
  }

  /** Times are unsigned and wrap around. */
  lemma ElapsedWraps(since: nat, passed: nat)
    requires since < 0x1_0000_0000_0000_0000 && passed < 0x1_0000_0000_0000_0000
    ensures Elapsed((since + passed) % 0x1_0000_0000_0000_0000, since) == passed
  {
    if since + passed >= UINT64 {
      assert (since + passed) % UINT64 == since + passed - UINT64;
    }
  }

  /** What a packet makes of a machine that waits for the second button since the first one was pressed. */
  function AfterFirst(first: Buttons, b: Buttons, inTime: bool): seq<Buttons> {
    if inTime && b == BOTH then [MIDDLE]
    else if inTime && b == first then [0]
    else if b & first == 0 then [b | first, b]
    else [b]
  }

  lemma AfterFirstStep(limit: nat, m: Machine, first: Buttons, pressed: nat, b: Buttons, later: nat)
    requires WaitsForSecond(m, first, pressed) && (first == LEFT || first == RIGHT)
    ensures Step(limit, m, Packet(b, later)).events == AfterFirst(first, b, Elapsed(later, pressed) <= limit)
  {
    FirstAlone(first);
  }

  /** Any packet after the first button. */
  lemma PacketAfterFirst(limit: nat, before: seq<Input>, first: Buttons, pressed: nat, b: Buttons, later: nat)
    requires Run(limit, before).machine.state.NoButtons? && (first == LEFT || first == RIGHT)
    ensures Run(limit, before + [Packet(first, pressed)] + [Packet(b, later)]).events
         == Run(limit, before).events + [0] + AfterFirst(first, b, Elapsed(later, pressed) <= limit)
  {
    hide Step, Elapsed, AfterFirst;
    FirstPress(limit, before, first, pressed);
    var waiting, two := before + [Packet(first, pressed)], [Packet(b, later)];
    RunNext(limit, waiting, two);
    assert two[..0] == [] && waiting + [] == waiting;
    AfterFirstStep(limit, Run(limit, waiting).machine, first, pressed, b, later);
  }

  /** The timer after the first button reports it, if the machine still waits. */
  lemma TimerAfterFirst(limit: nat, before: seq<Input>, first: Buttons, pressed: nat, later: nat)
    requires Run(limit, before).machine.state.NoButtons? && (first == LEFT || first == RIGHT)
    ensures Run(limit, before + [Packet(first, pressed)] + [Timer(later)]).events == Run(limit, before).events + [0] + [first]
  {
    hide Step;
    FirstPress(limit, before, first, pressed);
    var waiting, two := before + [Packet(first, pressed)], [Timer(later)];
    RunNext(limit, waiting, two);
    assert two[..0] == [] && waiting + [] == waiting;
    RunKeeps(limit, before + [Packet(first, pressed)]);
    RunMasks(limit, before + [Packet(first, pressed)]);
    TimerStep(limit, Run(limit, waiting).machine, first, later);
  }

  lemma TimerStep(limit: nat, m: Machine, first: Buttons, later: nat)
    requires (first == LEFT || first == RIGHT) && Inv(m) && Masks(m) && IsWaiting(m.state) && m.pending == first
    ensures Step(limit, m, Timer(later)).events == [first]
  {
    FirstAlone(first);
    NothingShared(first);
  }

  /** While both are down every packet is a middle button, whatever else is down. */
  lemma BothStay(limit: nat, before: seq<Input>, b: Buttons, now: nat)
    requires Run(limit, before).machine.state.Middle? && b & BOTH == BOTH
    ensures var run := Run(limit, before + [Packet(b, now)]);
            run.machine.state.Middle? && run.events == Run(limit, before).events + [MIDDLE]
  {
    var one := [Packet(b, now)];
    RunNext(limit, before, one);
    assert one[..0] == [] && before + [] == before;
  }

  predicate WaitsForLast(m: Machine, left: Buttons, since: nat) {
    m.state.WaitForNone? && m.pending == left && m.since == since
  }

  /** One of the two goes up: it is no longer a middle button, and the other one is not reported yet. */
  lemma OneIsLeft(limit: nat, before: seq<Input>, left: Buttons, since: nat)
    requires Run(limit, before).machine.state.Middle? && (left == LEFT || left == RIGHT)
    ensures var run := Run(limit, before + [Packet(left, since)]);
            WaitsForLast(run.machine, left, since) && run.events == Run(limit, before).events + [0]
  {
    var one := [Packet(left, since)];
    RunNext(limit, before, one);
    assert one[..0] == [] && before + [] == before;
    FirstAlone(left);
    assert left & BOTH != BOTH;
  }

  lemma AfterOneLeftStep(limit: nat, m: Machine, left: Buttons, since: nat, b: Buttons, later: nat)
    requires WaitsForLast(m, left, since) && (left == LEFT || left == RIGHT)
    ensures Step(limit, m, Packet(b, later)).events == [if b == left && Elapsed(later, since) <= limit then 0 else b]
  {
    FirstAlone(left);
  }

  /** Any packet after that: it stays unreported while nothing changes within the limit, and is otherwise one report of the
      buttons as they are. */
  lemma PacketAfterOneLeft(limit: nat, before: seq<Input>, left: Buttons, since: nat, b: Buttons, later: nat)
    requires Run(limit, before).machine.state.Middle? && (left == LEFT || left == RIGHT)
    ensures Run(limit, before + [Packet(left, since)] + [Packet(b, later)]).events
         == Run(limit, before).events + [0] + [if b == left && Elapsed(later, since) <= limit then 0 else b]
  {
    hide Step, Elapsed;
    OneIsLeft(limit, before, left, since);
    var waiting, two := before + [Packet(left, since)], [Packet(b, later)];
    RunNext(limit, waiting, two);
    assert two[..0] == [] && waiting + [] == waiting;
    AfterOneLeftStep(limit, Run(limit, waiting).machine, left, since, b, later);
  }

  /** And the timer reports the button that is left. */
  lemma TimerAfterOneLeft(limit: nat, before: seq<Input>, left: Buttons, since: nat, later: nat)
    requires Run(limit, before).machine.state.Middle? && (left == LEFT || left == RIGHT)
    ensures Run(limit, before + [Packet(left, since)] + [Timer(later)]).events == Run(limit, before).events + [0] + [left]
  {
    hide Step;
    OneIsLeft(limit, before, left, since);
    var waiting, two := before + [Packet(left, since)], [Timer(later)];
    RunNext(limit, waiting, two);
    assert two[..0] == [] && waiting + [] == waiting;
    RunKeeps(limit, before + [Packet(left, since)]);
    RunMasks(limit, before + [Packet(left, since)]);
    TimerStep(limit, Run(limit, waiting).machine, left, later);
  }

  // ---- A button held down

  /** The events of a list of inputs, from a machine on. */
  function EventsFrom(limit: nat, m: Machine, inputs: seq<Input>): seq<Buttons>
    decreases |inputs|
  {
    if inputs == [] then []
    else Step(limit, m, inputs[0]).events + EventsFrom(limit, Step(limit, m, inputs[0]).machine, inputs[1..])
  }

  lemma {:induction false} RunSplits(limit: nat, before: seq<Input>, later: seq<Input>)
    ensures Run(limit, before + later).events
         == Run(limit, before).events + EventsFrom(limit, Run(limit, before).machine, later)
    decreases |later|
  {
    if later == [] {
      assert before + later == before;
    } else {
      var one := before + [later[0]];
      assert one[..|one| - 1] == before;
      assert before + later == one + later[1..];
      RunSplits(limit, one, later[1..]);
    }
  }

  /** Every packet carries the button and not the other one of the two; the buttons beyond may come and go. */
  ghost predicate Holds(button: Buttons, inputs: seq<Input>) {
    forall k :: 0 <= k < |inputs| && inputs[k].Packet? ==> inputs[k].buttons & BOTH == button
  }

  /** A packet that leaves the machine waiting: the same buttons as at the press, within the limit. */
  predicate KeepsWaiting(limit: nat, button: Buttons, pressed: nat, input: Input) {
    input.Packet? && input.buttons == button && Elapsed(input.now, pressed) <= limit
  }

  /** The first packet of the list, if there is one, comes without the third button. */
  predicate PacketFollows(inputs: seq<Input>) {
    inputs != [] && if inputs[0].Timer? then PacketFollows(inputs[1..]) else inputs[0].buttons & MIDDLE == 0
  }

  /** The first input that ends the waiting is the timer, and a packet without the third button follows it. */
  predicate TimerComesFirst(limit: nat, button: Buttons, pressed: nat, inputs: seq<Input>) {
    inputs != [] &&
    if inputs[0].Timer? then PacketFollows(inputs[1..])
    else KeepsWaiting(limit, button, pressed, inputs[0]) && TimerComesFirst(limit, button, pressed, inputs[1..])
  }

  predicate Carries(event: Buttons, button: Buttons) {
    event & button != 0
  }

  ghost predicate AllCarry(events: seq<Buttons>, button: Buttons) {
    forall k :: 0 <= k < |events| ==> Carries(events[k], button)
  }

  /** The button is reported and later, still held, reported as released. */
  ghost predicate TakenBack(events: seq<Buttons>, button: Buttons) {
    exists i, k :: 0 <= i < k < |events| && Carries(events[i], button) && !Carries(events[k], button)
  }

  lemma HeldBits(b: Buttons, button: Buttons)
    requires (button == LEFT || button == RIGHT) && b & BOTH == button
    ensures b != 0 && b != BOTH && Carries(b, button) && Share(b, button) && !Carries(Further(b), button)
    ensures Carries(button, button) && !Carries(0, button) && Further(button) == 0 && button & MIDDLE == 0
    ensures Together(0, button) == button
  {
  }

  /** Once the machine has settled on a held button it reports it until it is released. */
  lemma {:induction false} SettledReports(limit: nat, m: Machine, button: Buttons, inputs: seq<Input>)
    requires (button == LEFT || button == RIGHT) && Holds(button, inputs) && m.state.NoOp? && !m.armed
    ensures AllCarry(EventsFrom(limit, m, inputs), button)
    decreases |inputs|
  {
    if inputs != [] {
      var t := Step(limit, m, inputs[0]);
      if inputs[0].Packet? {
        HeldBits(inputs[0].buttons, button);
        assert t.events == [inputs[0].buttons];
      }
      SettledReports(limit, t.machine, button, inputs[1..]);
    }
  }

  /** From rest a held button is masked by the next packet, unless that has the third button. */
  lemma {:induction false} RestMasks(limit: nat, m: Machine, button: Buttons, inputs: seq<Input>)
    requires (button == LEFT || button == RIGHT) && Holds(button, inputs) && m.state.NoButtons? && !m.armed
    ensures AllCarry(EventsFrom(limit, m, inputs), button) <==> !PacketFollows(inputs)
    decreases |inputs|
  {
    if inputs != [] {
      var t := Step(limit, m, inputs[0]);
      var rest := EventsFrom(limit, t.machine, inputs[1..]);
      if inputs[0].Timer? {
        RestMasks(limit, m, button, inputs[1..]);
        assert [] + rest == rest;
      } else {
        var b := inputs[0].buttons;
        HeldBits(b, button);
        if b & MIDDLE != 0 {
          SettledReports(limit, t.machine, button, inputs[1..]);
          assert t.events == [b];
        } else {
          assert t.events == [Further(b)];
          assert ([Further(b)] + rest)[0] == Further(b);
        }
      }
    }
  }

  lemma NothingYet(e: Buttons, es: seq<Buttons>, button: Buttons)
    requires !Carries(e, button)
    ensures TakenBack([e] + es, button) <==> TakenBack(es, button)
  {
    var all := [e] + es;
    if TakenBack(es, button) {
      var i, k :| 0 <= i < k < |es| && Carries(es[i], button) && !Carries(es[k], button);
      assert all[i + 1] == es[i] && all[k + 1] == es[k];
    }
    if TakenBack(all, button) {
      var i, k :| 0 <= i < k < |all| && Carries(all[i], button) && !Carries(all[k], button);
      assert all[i] == es[i - 1] && all[k] == es[k - 1];
    }
  }

  lemma AfterReport(e: Buttons, es: seq<Buttons>, button: Buttons)
    requires Carries(e, button)
    ensures TakenBack([e] + es, button) <==> !AllCarry(es, button)
  {
    var all := [e] + es;
    if !AllCarry(es, button) {
      var k :| 0 <= k < |es| && !Carries(es[k], button);
      assert all[0] == e && all[k + 1] == es[k];
    }
    if TakenBack(all, button) {
      var i, k :| 0 <= i < k < |all| && Carries(all[i], button) && !Carries(all[k], button);
      assert all[k] == es[k - 1];
    }
  }

  /** The machine waits for this button alone since it was pressed, or since it was left over of a middle click. */
  predicate WaitsFor(m: Machine, button: Buttons, since: nat) {
    IsWaiting(m.state) && m == Machine(m.state, button, since, true, 0)
  }

  lemma {:induction false} WaitingDecides(limit: nat, m: Machine, button: Buttons, inputs: seq<Input>)
    requires (button == LEFT || button == RIGHT) && Holds(button, inputs) && WaitsFor(m, button, m.since)
    ensures TakenBack(EventsFrom(limit, m, inputs), button) <==> TimerComesFirst(limit, button, m.since, inputs)
    decreases |inputs|
  {
    if inputs != [] {
      var t := Step(limit, m, inputs[0]);
      var rest := EventsFrom(limit, t.machine, inputs[1..]);
      if inputs[0].Timer? {
        HeldBits(button, button);
        RestMasks(limit, t.machine, button, inputs[1..]);
        AfterReport(button, rest, button);
      } else {
        var b := inputs[0].buttons;
        HeldBits(b, button);
        if KeepsWaiting(limit, button, m.since, inputs[0]) {
          assert t == Turn(m, [0]);
          WaitingDecides(limit, m, button, inputs[1..]);
          NothingYet(0, rest, button);
        } else {
          SettledReports(limit, t.machine, button, inputs[1..]);
          AfterReport(b, rest, button);
        }
      }
    }
  }

  lemma CarryingIsNotTakenBack(es: seq<Buttons>, button: Buttons)
    requires AllCarry(es, button)
    ensures !TakenBack(es, button)
  {
  }

  /** One event of any kind, and the button from then on. */
  lemma OneThenCarrying(e: Buttons, es: seq<Buttons>, button: Buttons)
    requires AllCarry(es, button)
    ensures !TakenBack([e] + es, button)
  {
    CarryingIsNotTakenBack(es, button);
    if Carries(e, button) {
      AfterReport(e, es, button);
    } else {
      NothingYet(e, es, button);
    }
  }

  /** A packet that ends the waiting is reported with the button, and so are all that follow. */
  lemma LeavingCarries(limit: nat, m: Machine, button: Buttons, inputs: seq<Input>)
    requires (button == LEFT || button == RIGHT) && Holds(button, inputs) && IsWaiting(m.state) && m.pending != 0
    requires inputs != [] && inputs[0].Packet? && !KeepsWaiting(limit, m.pending, m.since, inputs[0])
    ensures !TakenBack(EventsFrom(limit, m, inputs), button)
  {
    var b := inputs[0].buttons;
    var t := Step(limit, m, inputs[0]);
    var rest := EventsFrom(limit, t.machine, inputs[1..]);
    HeldBits(b, button);
    SettledReports(limit, t.machine, button, inputs[1..]);
    assert AllCarry([b] + rest, button);
    if |t.events| == 1 {
      assert t.events == [b];
      CarryingIsNotTakenBack([b] + rest, button);
    } else {
      assert t.events == [Together(b, m.pending)] + [b];
      assert t.events + rest == [Together(b, m.pending)] + ([b] + rest);
      OneThenCarrying(Together(b, m.pending), [b] + rest, button);
    }
  }

  /** With further buttons reported meanwhile the timer settles the machine, and nothing is taken back. */
  lemma {:induction false} FurtherButtonsKeep(limit: nat, m: Machine, button: Buttons, inputs: seq<Input>)
    requires (button == LEFT || button == RIGHT) && Holds(button, inputs)
    requires IsWaiting(m.state) && m.armed && m.pending != 0 && m.last != 0 && m.last == Further(m.pending)
    ensures !TakenBack(EventsFrom(limit, m, inputs), button)
    decreases |inputs|
  {
    if inputs != [] {
      var t := Step(limit, m, inputs[0]);
      var rest := EventsFrom(limit, t.machine, inputs[1..]);
      if inputs[0].Timer? {
        assert t.events == [Together(m.last, m.pending)];
        SettledReports(limit, t.machine, button, inputs[1..]);
        OneThenCarrying(Together(m.last, m.pending), rest, button);
      } else if KeepsWaiting(limit, m.pending, m.since, inputs[0]) {
        var b := inputs[0].buttons;
        HeldBits(b, button);
        assert t == Turn(m, [Further(b)]);
        FurtherButtonsKeep(limit, m, button, inputs[1..]);
        NothingYet(Further(b), rest, button);
      } else {
        LeavingCarries(limit, m, button, inputs);
      }
    }
  }

  /** The first packet carries the button alone, and the timer comes first after it. */
  predicate PressedAlone(limit: nat, button: Buttons, inputs: seq<Input>) {
    inputs != [] &&
    if inputs[0].Timer? then PressedAlone(limit, button, inputs[1..])
    else inputs[0].buttons == button && TimerComesFirst(limit, button, inputs[0].now, inputs[1..])
  }

  /** The inputs from a machine on, during which one of the two buttons is held, make it report and take back the button.
      While it waits, that needs the timer to come first and nothing but the button to be down; if it waits for the other
      button, the timer ends that first. */
  predicate Loses(limit: nat, m: Machine, button: Buttons, inputs: seq<Input>) {
    match m.state
    case NoOp => false
    case NoButtons => PressedAlone(limit, button, inputs)
    case Middle => PressedAlone(limit, button, inputs)
    case _ =>
      m.last == 0 &&
      if m.pending == button then TimerComesFirst(limit, button, m.since, inputs)
      else inputs != [] && inputs[0].Timer? && PressedAlone(limit, button, inputs[1..])
  }

  /** A button that goes down from rest, or is left over of a middle click. */
  lemma {:induction false} PressDecides(limit: nat, m: Machine, button: Buttons, inputs: seq<Input>)
    requires (button == LEFT || button == RIGHT) && Holds(button, inputs)
    requires (m.state.NoButtons? || m.state.Middle?) && !m.armed
    ensures TakenBack(EventsFrom(limit, m, inputs), button) <==> PressedAlone(limit, button, inputs)
    decreases |inputs|
  {
    if inputs != [] {
      var t := Step(limit, m, inputs[0]);
      var rest := EventsFrom(limit, t.machine, inputs[1..]);
      if inputs[0].Timer? {
        PressDecides(limit, m, button, inputs[1..]);
        assert [] + rest == rest;
      } else {
        PacketDecides(limit, m, button, inputs);
      }
    }
  }

  lemma PacketDecides(limit: nat, m: Machine, button: Buttons, inputs: seq<Input>)
    requires (button == LEFT || button == RIGHT) && Holds(button, inputs)
    requires (m.state.NoButtons? || m.state.Middle?) && !m.armed && inputs != [] && inputs[0].Packet?
    ensures TakenBack(EventsFrom(limit, m, inputs), button) <==> PressedAlone(limit, button, inputs)
  {
    var t := Step(limit, m, inputs[0]);
    var rest := EventsFrom(limit, t.machine, inputs[1..]);
    var b := inputs[0].buttons;
    HeldBits(b, button);
    FurtherBits(b, button);
    if m.state.NoButtons? && b & MIDDLE != 0 {
      SettledReports(limit, t.machine, button, inputs[1..]);
      assert t.events == [b];
      OneThenCarrying(b, rest, button);
    } else {
      assert t.events == [Further(b)];
      NothingYet(Further(b), rest, button);
      if b == button {
        WaitingDecides(limit, t.machine, button, inputs[1..]);
      } else {
        FurtherButtonsKeep(limit, t.machine, button, inputs[1..]);
      }
    }
  }

  lemma FurtherBits(b: Buttons, button: Buttons)
    requires (button == LEFT || button == RIGHT) && b & BOTH == button
    ensures Further(b) == 0 <==> b == button
    ensures b == button ==> b & MIDDLE == 0
  {
  }

  /** While the machine waits, what was reported last is what is pending, without the two buttons. */
  predicate Masks(m: Machine) {
    IsWaiting(m.state) ==> m.last == Further(m.pending) && m.pending != BOTH
  }

  lemma {:induction false} RunMasks(limit: nat, inputs: seq<Input>)
    ensures Masks(Run(limit, inputs).machine)
  {
    if inputs != [] {
      RunMasks(limit, inputs[..|inputs| - 1]);
      RunKeeps(limit, inputs[..|inputs| - 1]);
      StepMasks(limit, Run(limit, inputs[..|inputs| - 1]).machine, inputs[|inputs| - 1]);
    }
  }

  lemma StepMasks(limit: nat, m: Machine, input: Input)
    requires Masks(m) && Inv(m)
    ensures Masks(Step(limit, m, input).machine)
  {
    match input
    case Packet(b, now) => PacketMasks(limit, m, b, now);
    case Timer(now) =>
  }

  lemma NotBoth(b: Buttons)
    ensures b & BOTH != BOTH ==> b != BOTH
  {
  }

  /** A packet after which the machine waits is the one it waits with. */
  lemma PacketMasks(limit: nat, m: Machine, b: Buttons, now: nat)
    requires Masks(m)
    ensures Masks(Step(limit, m, Packet(b, now)).machine)
  {
    NotBoth(b);
    var after := Step(limit, m, Packet(b, now)).machine;
    if IsWaiting(after.state) {
      assert after.pending == b;
      assert after.last == Further(b);
    }
  }

  lemma SinglePending(pending: Buttons)
    requires pending != 0 && pending != BOTH && Further(pending) == 0
    ensures pending == LEFT || pending == RIGHT
  {
  }

  /** While the machine waits for the other button, alone. */
  lemma OtherDecides(limit: nat, m: Machine, button: Buttons, inputs: seq<Input>)
    requires (button == LEFT || button == RIGHT) && Holds(button, inputs)
    requires WaitsFor(m, m.pending, m.since) && (m.pending == LEFT || m.pending == RIGHT) && m.pending != button
    ensures TakenBack(EventsFrom(limit, m, inputs), button)
       <==> inputs != [] && inputs[0].Timer? && PressedAlone(limit, button, inputs[1..])
  {
    if inputs != [] {
      var t := Step(limit, m, inputs[0]);
      var rest := EventsFrom(limit, t.machine, inputs[1..]);
      if inputs[0].Timer? {
        HeldBits(m.pending, m.pending);
        assert t.events == [m.pending];
        PressDecides(limit, t.machine, button, inputs[1..]);
        NothingYet(m.pending, rest, button);
      } else {
        HeldBits(m.pending, m.pending);
        LeavingCarries(limit, m, button, inputs);
      }
    }
  }

  /** Exactly when a held button is reported and then taken back although it is still down: after every run, for every
      list of inputs during which the button is down and the other one of the two is not. */
  lemma HeldButtonTakenBackIff(limit: nat, before: seq<Input>, button: Buttons, held: seq<Input>)
    requires (button == LEFT || button == RIGHT) && Holds(button, held)
    ensures |Run(limit, before).events| <= |Run(limit, before + held).events|
    ensures TakenBack(Run(limit, before + held).events[|Run(limit, before).events|..], button)
       <==> Loses(limit, Run(limit, before).machine, button, held)
  {
    var m := Run(limit, before).machine;
    RunKeeps(limit, before);
    RunMasks(limit, before);
    RunSplits(limit, before, held);
    if m.state.NoOp? {
      SettledReports(limit, m, button, held);
      CarryingIsNotTakenBack(EventsFrom(limit, m, held), button);
    } else if !IsWaiting(m.state) {
      PressDecides(limit, m, button, held);
    } else if m.last != 0 {
      FurtherButtonsKeep(limit, m, button, held);
    } else {
      SinglePending(m.pending);
      if m.pending == button {
        WaitingDecides(limit, m, button, held);
      } else {
        OtherDecides(limit, m, button, held);
      }
    }
  }

  /** A single button held longer than the limit: the timer reports it, but the machine is then back where it was before
      the press, and the next packet takes the button back although it is still held. */
  lemma HeldButtonIsTakenBack(limit: nat, button: Buttons, pressed: nat, fired: nat, later: nat)
    requires button == LEFT || button == RIGHT
    ensures var run := Run(limit, [Packet(button, pressed), Timer(fired), Packet(button, later)]);
            run.events == [0, button, 0] && run.machine.state.WaitForTwo?
  {
    var inputs := [Packet(button, pressed), Timer(fired), Packet(button, later)];
    assert inputs[..2][..1] == [Packet(button, pressed)] && inputs[..1][..0] == [];
    assert Run(limit, inputs[..1]) == Turn(Machine(WaitForTwo, button, pressed, true, 0), [0]);
    assert Run(limit, inputs[..2]) == Turn(Machine(NoButtons, 0, pressed, false, 0), [0, button]);
  }

  /** The same after a middle click, for the button that stays down. */
  lemma LeftOverIsTakenBack(limit: nat, button: Buttons, pressed: nat, released: nat, fired: nat, later: nat)
    requires button == LEFT || button == RIGHT
    ensures Run(limit, [Packet(BOTH, pressed), Packet(button, released), Timer(fired), Packet(button, later)]).events
         == [MIDDLE, 0, button, 0]
  {
    var inputs := [Packet(BOTH, pressed), Packet(button, released), Timer(fired), Packet(button, later)];
    assert inputs[..3][..2] == inputs[..2] && inputs[..2][..1] == [Packet(BOTH, pressed)] && inputs[..1][..0] == [];
    assert Run(limit, inputs[..1]) == Turn(Machine(Middle, 0, 0, false, MIDDLE), [MIDDLE]);
    assert Run(limit, inputs[..2]) == Turn(Machine(WaitForNone, button, released, true, 0), [MIDDLE, 0]);
    assert Run(limit, inputs[..3]) == Turn(Machine(NoButtons, 0, released, false, 0), [MIDDLE, 0, button]);
  }

  // ---- The mouse object

  class Mouse {
    const fakeMiddleButton: bool
    const buttonCount: nat
    const maxMiddleClickTime: nat
    var state: State
    var pendingButtons: Buttons
    var buttonTime: nat
    var timerSet: bool
    var lastButtons: Buttons
    var dispatched: seq<Buttons>

    constructor (fakeMiddleButton: bool, buttonCount: nat, maxMiddleClickTime: nat)
      ensures Abs() == REST && dispatched == [] && this.maxMiddleClickTime == maxMiddleClickTime
      ensures this.fakeMiddleButton == fakeMiddleButton && this.buttonCount == buttonCount
    {
      this.fakeMiddleButton, this.buttonCount, this.maxMiddleClickTime := fakeMiddleButton, buttonCount, maxMiddleClickTime;
      state, pendingButtons, buttonTime, timerSet, lastButtons, dispatched := NoButtons, 0, 0, false, 0, [];
    }

    ghost function Abs(): Machine
      reads this
    {
      Machine(state, pendingButtons, buttonTime, timerSet, lastButtons)
    }

    /** The machine is in use: it is switched on and the mouse has more than two buttons. */
    predicate Simulates() {
      fakeMiddleButton && buttonCount > 2
    }

    method Wait(next: State, buttons: Buttons, now: nat)
      modifies this
      ensures Abs() == Waiting(old(Abs()), next, buttons, now) && dispatched == old(dispatched)
    {
      pendingButtons, buttonTime, timerSet, state := buttons, now, true, next;
    }

    method Settle(buttons: Buttons)
      modifies this
      ensures Abs() == Settled(old(Abs()), buttons) && dispatched == old(dispatched)
    {
      pendingButtons, timerSet := 0, false;
      if buttons == 0 {
        state := NoButtons;
      } else {
        state := NoOp;
      }
    }

    /** Waiting for the second button to come down, or the timeout. */
    method AwaitSecond(buttons: Buttons, now: nat, fromTimer: bool, timeout: bool)
      requires state.WaitForTwo?
      modifies this
      ensures var t := Transition(old(Abs()), buttons, now, fromTimer, timeout);
              Abs() == t.machine && dispatched == old(dispatched) + t.events
    {
      if !timeout && buttons == BOTH {
        pendingButtons, timerSet, state := 0, false, Middle;
      } else if timeout || buttons != pendingButtons {
        if fromTimer || !Share(buttons, pendingButtons) {
          dispatched := dispatched + [Together(buttons, pendingButtons)];
        }
        Settle(buttons);
      }
    }

    /** One button of a middle click is up; waiting for the other one. */
    method AwaitNone(buttons: Buttons, now: nat, fromTimer: bool, timeout: bool)
      requires state.WaitForNone?
      modifies this
      ensures var t := Transition(old(Abs()), buttons, now, fromTimer, timeout);
              Abs() == t.machine && dispatched == old(dispatched) + t.events
    {
      if !timeout && buttons == 0 {
        pendingButtons, timerSet, state := 0, false, NoButtons;
      } else if timeout || buttons != pendingButtons {
        if fromTimer {
          dispatched := dispatched + [Together(buttons, pendingButtons)];
        }
        Settle(buttons);
      }
    }

    /** middleButton: the buttons to report. */
    method MiddleButton(buttons: Buttons, now: nat, fromTimer: bool) returns (reported: Buttons)
      modifies this
      ensures !Simulates() ==> reported == buttons && Abs() == old(Abs()) && dispatched == old(dispatched)
      ensures Simulates() ==>
                var t := Transition(old(Abs()), buttons, now, fromTimer,
                                    fromTimer || Elapsed(now, old(buttonTime)) > maxMiddleClickTime);
                Abs() == t.machine && dispatched == old(dispatched) + t.events && reported == Reported(state, buttons)
    {
      if !fakeMiddleButton || buttonCount <= 2 {
        return buttons;
      }
      var timeout := fromTimer || (now - buttonTime) % UINT64 > maxMiddleClickTime;
      match state {
        case NoButtons =>
          if buttons & MIDDLE != 0 {
            state := NoOp;
          } else if buttons == BOTH {
            state := Middle;
          } else if buttons != 0 {
            Wait(WaitForTwo, buttons, now);
          }
        case Middle =>
          if buttons == 0 {
            state := NoButtons;
          } else if buttons & BOTH != BOTH {
            Wait(WaitForNone, buttons, now);
          }
        case NoOp =>
          if buttons == 0 {
            state := NoButtons;
          }
        case WaitForTwo => AwaitSecond(buttons, now, fromTimer, timeout);
        case WaitForNone => AwaitNone(buttons, now, fromTimer, timeout);
      }
      reported := Reported(state, buttons);
    }

    /** The button part of dispatchRelativePointerEventWithPacket. */
    method OnPacket(buttons: Buttons, now: nat)
      modifies this
      ensures Simulates() ==>
                var t := Step(maxMiddleClickTime, old(Abs()), Packet(buttons, now));
                Abs() == t.machine && dispatched == old(dispatched) + t.events
      ensures !Simulates() ==> Abs() == old(Abs()).(last := buttons) && dispatched == old(dispatched) + [buttons]
    {
      var reported := MiddleButton(buttons, now, false);
      lastButtons := reported;
      dispatched := dispatched + [reported];
    }

    /** onButtonTimer, once the timer that was set has fired. */
    method OnButtonTimer(now: nat)
      requires timerSet
      modifies this
      ensures Simulates() ==>
                var t := Step(maxMiddleClickTime, old(Abs()), Timer(now));
                Abs() == t.machine && dispatched == old(dispatched) + t.events
      ensures !Simulates() ==> Abs() == old(Abs()).(armed := false) && dispatched == old(dispatched)
    {
      timerSet := false;
      var ignored := MiddleButton(lastButtons, now, true);
    }
  }
}
