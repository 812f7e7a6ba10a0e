/** The queue of asynchronous requests between any threads that submit and the one work loop that processes. */
module RequestQueue {
  import opened Options
  import opened Controller

  /** A request, as far as the queue is concerned. */
  datatype Queued = Queued(id: nat, completion: Completion)

  /** A processed request: taken from the queue, or submitted by a caller that blocked. The latter carries the number of
      requests that had been submitted when the queue was emptied for it. */
  datatype Done = Async(request: Queued, fate: Fate) | Blocking(request: Queued, fate: Fate, due: nat)

  /** The holder of the work loop's gate: nobody, a wake-up or a blocking caller about to empty the queue, or one of them
      working through the requests it took, of which there were due when they were taken. */
  datatype Gate =
    | Open
    | Entered(caller: Option<Queued>)
    | Draining(local: seq<Queued>, caller: Option<Queued>, due: nat)

  datatype System = System(queue: seq<Queued>, gate: Gate, unsignalled: nat, signalled: bool,
                           submitted: seq<Queued>, done: seq<Done>)

  const START := System([], Open, 0, false, [], [])

  datatype Step = Enqueue(request: Queued) | Signal | Wake | Block(request: Queued) | Take | Next

  predicate Enabled(s: System, step: Step) {
    match step
    case Enqueue(_) => true
    case Signal => s.unsignalled > 0
    case Wake => s.gate.Open? && s.signalled
    case Block(_) => s.gate.Open?
    case Take => s.gate.Entered?
    case Next => s.gate.Draining?
  }

  /** The first request taken is processed; after the last one the caller's own request, if there is one. */
  function Proceed(s: System): System
    requires s.gate.Draining?
  {
    var g := s.gate;
    if g.local != [] then
      s.(gate := g.(local := g.local[1..]), done := s.done + [Async(g.local[0], FateOf(g.local[0].completion))])
    else if g.caller.Some? then
      s.(gate := Open, done := s.done + [Blocking(g.caller.value, FateOf(g.caller.value.completion), g.due)])
    else
      s.(gate := Open)
  }

  function Apply(s: System, step: Step): System {
    if !Enabled(s, step) then s else
      match step
      case Enqueue(r) => s.(queue := s.queue + [r], submitted := s.submitted + [r], unsignalled := s.unsignalled + 1)
      case Signal => s.(unsignalled := s.unsignalled - 1, signalled := true)
      case Wake => s.(gate := Entered(None), signalled := false)
      case Block(r) => s.(gate := Entered(Some(r)))
      case Take => s.(gate := Draining(s.queue, s.gate.caller, |s.submitted|), queue := [])
      case Next => Proceed(s)
  }

  function Run(steps: seq<Step>): System {
    if steps == [] then START else Apply(Run(steps[..|steps| - 1]), steps[|steps| - 1])
  }

  /** The asynchronous requests processed, in order. */
  function Processed(done: seq<Done>): seq<Queued> {
    if done == [] then []
    else Processed(done[..|done| - 1]) + (if done[|done| - 1].Async? then [done[|done| - 1].request] else [])
  }

  function Local(s: System): seq<Queued> {
    if s.gate.Draining? then s.gate.local else []
  }

  // ---- What every interleaving keeps

  /** Nothing is lost, doubled or overtaken. */
  predicate Conserved(s: System) {
    s.submitted == Processed(s.done) + Local(s) + s.queue
  }

  /** The gate's holder works through exactly what had been submitted when it took the queue. */
  predicate Bounded(s: System) {
    s.gate.Draining? ==> s.gate.due == |Processed(s.done)| + |s.gate.local| <= |s.submitted|
  }

  /** A request waits in the queue only while a wake-up is under way. */
  predicate Awaited(s: System) {
    s.queue != [] ==> s.unsignalled > 0 || s.signalled || s.gate.Entered?
  }

  /** A caller's request ran once all requests submitted before the queue was taken for it had, and no later one. */
  predicate InTurn(submitted: seq<Queued>, before: seq<Done>, d: Done) {
    d.Blocking? ==> d.due <= |submitted| && Processed(before) == submitted[..d.due]
  }

  ghost predicate AllInTurn(submitted: seq<Queued>, done: seq<Done>) {
    forall k :: 0 <= k < |done| ==> InTurn(submitted, done[..k], done[k])
  }

  /** Every request that was processed met the fate its completion asks for. */
  ghost predicate Settled(done: seq<Done>) {
    forall k :: 0 <= k < |done| ==> done[k].fate == FateOf(done[k].request.completion)
  }

  ghost predicate Inv(s: System) {
    Conserved(s) && Bounded(s) && Awaited(s) && AllInTurn(s.submitted, s.done) && Settled(s.done)
  }

  lemma ProcessedGrows(done: seq<Done>, d: Done)
    ensures Processed(done + [d]) == Processed(done) + if d.Async? then [d.request] else []
  {
    assert (done + [d])[..|done|] == done;
  }

  lemma AppendInTurn(submitted: seq<Queued>, done: seq<Done>, d: Done)
    requires AllInTurn(submitted, done) && InTurn(submitted, done, d)
    ensures AllInTurn(submitted, done + [d])
  {
    forall k | 0 <= k < |done + [d]|
      ensures InTurn(submitted, (done + [d])[..k], (done + [d])[k])
    {
      assert (done + [d])[..k] == done[..k];
      assert done[..|done|] == done;
    }
  }

  lemma SubmittedGrows(submitted: seq<Queued>, done: seq<Done>, r: Queued)
    requires AllInTurn(submitted, done)
    ensures AllInTurn(submitted + [r], done)
  {
    forall k | 0 <= k < |done|
      ensures InTurn(submitted + [r], done[..k], done[k])
    {
      if done[k].Blocking? {
        assert InTurn(submitted, done[..k], done[k]);
        assert (submitted + [r])[..done[k].due] == submitted[..done[k].due];
      }
    }
  }

  lemma MoveOne(done: seq<Queued>, local: seq<Queued>, queue: seq<Queued>)
    requires local != []
    ensures done + local + queue == done + [local[0]] + local[1..] + queue
  {
  }

  lemma LocalKeeps(s: System)
    requires Inv(s) && s.gate.Draining? && s.gate.local != []
    ensures Inv(Proceed(s))
  {
    var g := s.gate;
    var d := Async(g.local[0], FateOf(g.local[0].completion));
    ProcessedGrows(s.done, d);
    AppendInTurn(s.submitted, s.done, d);
    MoveOne(Processed(s.done), g.local, s.queue);
    hide Processed, InTurn;
  }

  lemma CallerKeeps(s: System)
    requires Inv(s) && s.gate.Draining? && s.gate.local == [] && s.gate.caller.Some?
    ensures Inv(Proceed(s))
  {
    var g := s.gate;
    var d := Blocking(g.caller.value, FateOf(g.caller.value.completion), g.due);
    ProcessedGrows(s.done, d);
    assert Processed(s.done) == s.submitted[..g.due];
    AppendInTurn(s.submitted, s.done, d);
  }

  lemma StepKeeps(s: System, step: Step)
    requires Inv(s)
    ensures Inv(Apply(s, step))
  {
    if Enabled(s, step) {
      hide Processed, AllInTurn, Settled;
      match step
      case Enqueue(r) => SubmittedGrows(s.submitted, s.done, r);
      case Next => NextKeeps(s);
      case Take => TakeKeeps(s);
      case _ =>
    }
  }

  lemma NextKeeps(s: System)
    requires Inv(s) && s.gate.Draining?
    ensures Inv(Proceed(s))
  {
    if s.gate.local != [] {
      LocalKeeps(s);
    } else if s.gate.caller.Some? {
      CallerKeeps(s);
    }
    hide Processed, AllInTurn, Settled;
  }

  lemma TakeKeeps(s: System)
    requires Inv(s) && s.gate.Entered?
    ensures Inv(Apply(s, Take))
  {
    hide Processed, AllInTurn, Settled;
    assert Processed(s.done) + [] + s.queue == Processed(s.done) + s.queue + [];
  }

  /** For every interleaving: submitted = processed ++ local batch ++ queue, in order, each completed once as it asks;
      a blocking request comes right after all that was queued before it; and nothing waits without a wake-up. */
  lemma {:induction false} RunKeeps(steps: seq<Step>)
    ensures Inv(Run(steps))
  {
    if steps != [] {
      RunKeeps(steps[..|steps| - 1]);
      StepKeeps(Run(steps[..|steps| - 1]), steps[|steps| - 1]);
    }
  }

  // ---- What was asked for

  /** The requests that were put into the queue. */
  function Enqueued(steps: seq<Step>): seq<Queued> {
    if steps == [] then []
    else Enqueued(steps[..|steps| - 1]) + if steps[|steps| - 1].Enqueue? then [steps[|steps| - 1].request] else []
  }

  /** The requests whose caller blocked and got the gate. */
  function Admitted(steps: seq<Step>): seq<Queued> {
    if steps == [] then []
    else
      var before, step := steps[..|steps| - 1], steps[|steps| - 1];
      Admitted(before) + if step.Block? && Run(before).gate.Open? then [step.request] else []
  }

  /** The blocking requests processed, in order. */
  function Unblocked(done: seq<Done>): seq<Queued> {
    if done == [] then []
    else Unblocked(done[..|done| - 1]) + (if done[|done| - 1].Blocking? then [done[|done| - 1].request] else [])
  }

  /** The request for which the gate is held. */
  function Held(s: System): seq<Queued> {
    if s.gate.Open? || s.gate.caller.None? then [] else [s.gate.caller.value]
  }

  lemma UnblockedGrows(done: seq<Done>, d: Done)
    ensures Unblocked(done + [d]) == Unblocked(done) + if d.Blocking? then [d.request] else []
  {
    assert (done + [d])[..|done|] == done;
  }

  lemma NextForgetsNothing(s: System)
    requires s.gate.Draining?
    ensures Proceed(s).submitted == s.submitted && Unblocked(Proceed(s).done) + Held(Proceed(s)) == Unblocked(s.done) + Held(s)
  {
    hide Processed, Unblocked;
    if s.gate.local != [] {
      UnblockedGrows(s.done, Async(s.gate.local[0], FateOf(s.gate.local[0].completion)));
      assert Unblocked(s.done) + [] == Unblocked(s.done);
    } else if s.gate.caller.Some? {
      UnblockedGrows(s.done, Blocking(s.gate.caller.value, FateOf(s.gate.caller.value.completion), s.gate.due));
    }
  }

  /** One step. */
  lemma NothingForgotten(s: System, step: Step)
    ensures Apply(s, step).submitted == s.submitted + if step.Enqueue? then [step.request] else []
    ensures Unblocked(Apply(s, step).done) + Held(Apply(s, step))
         == Unblocked(s.done) + Held(s) + if step.Block? && s.gate.Open? then [step.request] else []
  {
    hide Processed, Unblocked, Proceed;
    if step.Next? && s.gate.Draining? {
      NextForgetsNothing(s);
    }
  }

  /** Over every interleaving: the requests put into the queue are those processed, those taken and those still in it, in
      this order; and the blocking requests that got the gate are those processed and the one for which it is held. */
  lemma EveryRequestIsKept(steps: seq<Step>)
    ensures Enqueued(steps) == Processed(Run(steps).done) + Local(Run(steps)) + Run(steps).queue
    ensures Admitted(steps) == Unblocked(Run(steps).done) + Held(Run(steps))
  {
    SubmittedIsEnqueued(steps);
    RunKeeps(steps);
    hide Processed, AllInTurn, Settled;
  }

  lemma {:induction false} SubmittedIsEnqueued(steps: seq<Step>)
    ensures Enqueued(steps) == Run(steps).submitted
    ensures Admitted(steps) == Unblocked(Run(steps).done) + Held(Run(steps))
  {
    if steps != [] {
      hide Apply, Held, Unblocked;
      SubmittedIsEnqueued(steps[..|steps| - 1]);
      NothingForgotten(Run(steps[..|steps| - 1]), steps[|steps| - 1]);
    } else {
      assert START.gate.Open?;
    }
  }

  /** What happened to a processed request: nobody is called for one on its caller's stack and it is not freed, a target's
      action is called if it has one, and any other request is freed. */
  lemma EachMeetsItsFate(steps: seq<Step>, k: nat)
    requires k < |Run(steps).done|
    ensures var d := Run(steps).done[k];
            && (d.fate.Kept? <==> d.request.completion == OnStack)
            && (d.fate.Called? <==> d.request.completion == Target(true))
            && (d.fate.Freed? <==> d.request.completion == NoTarget || d.request.completion == Target(false))
  {
    RunKeeps(steps);
    assert Settled(Run(steps).done);
  }

  /** The wake-ups that took place. */
  function Woken(steps: seq<Step>): nat {
    if steps == [] then 0
    else
      var before, step := steps[..|steps| - 1], steps[|steps| - 1];
      Woken(before) + if step.Wake? && Enabled(Run(before), step) then 1 else 0
  }

  /** The work loop never wakes up more often than requests were put into the queue. */
  lemma {:induction false} WakesAreAsked(steps: seq<Step>)
    ensures var s := Run(steps);
            Woken(steps) + (if s.signalled then 1 else 0) + s.unsignalled <= |Enqueued(steps)|
  {
    if steps != [] {
      WakesAreAsked(steps[..|steps| - 1]);
    }
  }

  // ---- Draining ends

  /** The gate's holder left to itself. */
  function Drain(s: System): System
    requires s.gate.Draining?
    decreases |s.gate.local|
  {
    if s.gate.local == [] then Proceed(s) else Drain(Proceed(s))
  }

  /** It lets go of the gate, having processed what it took and nothing that came later. */
  lemma {:induction false} DrainingEnds(s: System)
    requires s.gate.Draining?
    ensures Drain(s).gate.Open? && Drain(s).queue == s.queue
    ensures Processed(Drain(s).done) == Processed(s.done) + s.gate.local
    ensures Unblocked(Drain(s).done) == Unblocked(s.done) + Held(s)
    decreases |s.gate.local|
  {
    NextForgetsNothing(s);
    hide Processed, Unblocked, Proceed;
    ProceedGoesOn(s);
    if s.gate.local != [] {
      ProceedTakes(s);
      DrainingEnds(Proceed(s));
    } else if s.gate.caller.Some? {
      ProcessedGrows(s.done, Blocking(s.gate.caller.value, FateOf(s.gate.caller.value.completion), s.gate.due));
    }
  }

  lemma ProceedGoesOn(s: System)
    requires s.gate.Draining?
    ensures Proceed(s).queue == s.queue
    ensures s.gate.local != [] ==>
              Proceed(s).gate == Draining(s.gate.local[1..], s.gate.caller, s.gate.due) && Held(Proceed(s)) == Held(s)
    ensures s.gate.local == [] ==> Proceed(s).gate.Open? && Held(Proceed(s)) == []
    ensures s.gate.local == [] ==>
              Proceed(s).done == s.done + if s.gate.caller.None? then []
                else [Blocking(s.gate.caller.value, FateOf(s.gate.caller.value.completion), s.gate.due)]
  {
  }

  lemma ProceedTakes(s: System)
    requires s.gate.Draining? && s.gate.local != []
    ensures Processed(Proceed(s).done) == Processed(s.done) + [s.gate.local[0]]
    ensures Processed(Proceed(s).done) + s.gate.local[1..] == Processed(s.done) + s.gate.local
  {
    ProcessedGrows(s.done, Async(s.gate.local[0], FateOf(s.gate.local[0].completion)));
    assert s.gate.local == [s.gate.local[0]] + s.gate.local[1..];
  }
}
