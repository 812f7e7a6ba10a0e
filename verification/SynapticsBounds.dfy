/** Exactly when the renumbering looks at an index before its arrays, and how a tracker gets there. */
module SynapticsBounds {
  import opened SynapticsPad
  import opened SynapticsMap
  import opened SynapticsRun
  import opened SynapticsTheorems
  import opened SynapticsReads
  import opened SynapticsContacts
  import opened SynapticsRecovery

  // ---- The indices

  /** The virtual fingers through which the imaginary contacts are moved; the driver checks that both are there. */
  function DragIndices(t: Pad): seq<int> {
    if !(t.clamped == t.last && t.clamped >= 3 && t.f[0].vf != -1 && t.f[1].vf != -1) then []
    else if t.clamped >= 4 then [t.f[UpperIndex(t)].vf]
    else [t.f[0].vf, t.f[1].vf]
  }

  /** The virtual finger of a single contact that may have jumped. */
  function JumpIndices(t: Pad): seq<int> {
    if t.clamped == t.last && t.clamped == 1 then [t.f[0].vf] else []
  }

  /** The virtual fingers that are swapped when contacts are added without a lift. */
  function FreshIndices(u: Pad): seq<int> {
    if u.last >= 2 && u.clamped - u.last <= 2 then [u.f[1].vf] else []
  }

  /** Those that are swapped after a lift, the second one as the first swap leaves it. */
  function LiftedIndices(u: Pad): seq<int> {
    var m, q := MatchKept(u, |u.v|), KeptAndReal(u);
    if u.clamped < 3 || !Far(m.far) then []
    else [q.f[m.far.index].vf]
         + if u.clamped >= 4 && u.last < 3 && Far(m.second)
           then [SwapFingers(MeanZw(MeanZw(q, 2), 3), 2, m.far.index).f[m.second.index].vf] else []
  }

  /** All virtual fingers that the renumbering looks up by the number in a contact's record. */
  function Indices(t: Pad, env: Env): seq<int> {
    var d, u := DragImaginary(t, env), Prepared(t, env);
    DragIndices(t) + JumpIndices(d)
    + if u.last == 0 || u.clamped <= u.last || MustSkip(u) then []
      else if u.hadLift then LiftedIndices(u)
      else FreshIndices(u)
  }

  ghost predicate NoneNegative(indices: seq<int>) {
    forall k :: 0 <= k < |indices| ==> 0 <= indices[k]
  }

  lemma NoneNegativeIn(a: seq<int>, b: seq<int>)
    ensures NoneNegative(a + b) <==> NoneNegative(a) && NoneNegative(b)
  {
    if NoneNegative(a + b) {
      forall k | 0 <= k < |a|
        ensures 0 <= a[k]
      {
        assert a[k] == (a + b)[k];
      }
      forall k | 0 <= k < |b|
        ensures 0 <= b[k]
      {
        assert b[k] == (a + b)[|a| + k];
      }
    }
  }

  lemma LiftedNotNegative(u: Pad)
    ensures NoneNegative(LiftedIndices(u))
  {
    JumpsMappedReal(u);
    var m, q := MatchKept(u, |u.v|), KeptAndReal(u);
    if Far(m.far) && Far(m.second) {
      SwapKeepsMapped(MeanZw(MeanZw(q, 2), 3), 2, m.far.index, m.second.index);
    }
  }

  /** The driver stays inside its arrays exactly if the tracker is in bounds. */
  lemma InBoundsIff(t: Pad, env: Env)
    ensures NoneNegative(Indices(t, env)) <==> InBounds(t)
  {
    DragKeepsMap(t, env);
    PreparedRest(t, env);
    var d, u := DragImaginary(t, env), Prepared(t, env);
    var branch := if u.last == 0 || u.clamped <= u.last || MustSkip(u) then []
                  else if u.hadLift then LiftedIndices(u) else FreshIndices(u);
    LiftedNotNegative(u);
    NoneNegativeIn(DragIndices(t) + JumpIndices(d), branch);
    NoneNegativeIn(DragIndices(t), JumpIndices(d));
    BranchInBounds(t, u, branch);
    assert NoneNegative(DragIndices(t));
    assert NoneNegative(JumpIndices(d)) <==> (t.clamped == t.last == 1 ==> 0 <= t.f[0].vf) by {
      if t.clamped == t.last == 1 {
        assert JumpIndices(d)[0] == t.f[0].vf;
      }
    }
  }

  lemma BranchInBounds(t: Pad, u: Pad, branch: seq<int>)
    requires u.last == t.last && u.hadLift == t.hadLift && u.skipped == t.skipped && u.clamped == Settled(t)
    requires u.f[1].vf == t.f[1].vf && NoneNegative(LiftedIndices(u))
    requires branch == if u.last == 0 || u.clamped <= u.last || MustSkip(u) then []
                       else if u.hadLift then LiftedIndices(u) else FreshIndices(u)
    ensures NoneNegative(branch)
       <==> (t.last >= 2 && !t.hadLift && t.skipped && 1 <= t.clamped - t.last <= 2 ==> 0 <= t.f[1].vf)
  {
    if t.last >= 2 && !t.hadLift && t.skipped && 1 <= t.clamped - t.last <= 2 {
      assert branch == [t.f[1].vf];
      assert branch[0] == t.f[1].vf;
    }
  }

  // ---- How a tracker gets out of bounds

  /** All contacts are gone but not recorded as gone: nothing is mapped, and the last count stays. */
  predicate Forgotten(p: Pad, last: int, skipped: bool) {
    p.last == last && !p.hadLift && p.skipped == skipped && forall i :: 0 <= i < MAX_FINGERS ==> p.f[i].vf == -1
  }

  lemma LiftAllForgets(u: Pad)
    requires u.clamped == 0 < u.last
    ensures Forgotten(Remap(u), u.last, u.skipped)
  {
    var q := u.(hadLift := false);
    assert Remap(u) == FreeAndMark(MatchLifted(q, 0).p);
  }

  lemma NothingFed(r: Pad)
    requires r.clamped == 0
    ensures FilterFingers(r, r.clamped) == r
  {
  }

  /** A packet without fingers in the quiet time. */
  lemma QuietLiftForgets(p: Pad, b: Packet, env: Env)
    requires p.last > 0 && IsNormal(b) && FingerCount(p, b, env) == 0 && env.quiet
    ensures Forgotten(Handle(p, b, env).p, p.last, p.skipped)
  {
    var t := TakeNormal(p, b, env);
    PreparedRest(t, env);
    var u := Prepared(t, env);
    LiftAllForgets(u);
    RemapRest(u);
    NothingFed(Remap(u));
  }

  /** Then one finger, if one was counted last: the driver takes the distance from the virtual finger -1. */
  lemma ForgottenJump(p: Pad, b: Packet, env: Env)
    requires Forgotten(p, 1, p.skipped) && FingerCount(p, b, env) == 1
    ensures !InBounds(TakeNormal(p, b, env))
  {
  }

  /** A packet of three or more that waits leaves everything forgotten. */
  lemma ForgottenWaits(p: Pad, b: Packet, env: Env)
    requires p.last >= 2 && Forgotten(p, p.last, false) && IsNormal(b) && FingerCount(p, b, env) > p.last
    ensures Forgotten(Handle(p, b, env).p, p.last, true)
  {
    var t := TakeNormal(p, b, env);
    DragKeepsMap(t, env);
    PreparedRest(t, env);
    assert Handle(p, b, env).p == Prepared(t, env).(skipped := true);
  }

  /** And the next one makes the driver swap contact 1, which has no virtual finger. */
  lemma ForgottenSwap(p: Pad, b: Packet, env: Env)
    requires p.last >= 2 && Forgotten(p, p.last, true) && 1 <= FingerCount(p, b, env) - p.last <= 2
    ensures !InBounds(TakeNormal(p, b, env))
  {
  }

  // ---- Runs

  /** Over every run without quiet time the driver stays inside its arrays, whatever was misplaced before. */
  lemma InBoundsWithoutQuiet(p: Pad, es: seq<Event>, b: Packet, env: Env)
    requires AtRest(p) && AllLimitsSmall(es) && NoneQuiet(es) && IsNormal(b)
    ensures NoneNegative(Indices(TakeNormal(Run(p, es), b, env), env))
  {
    FineRun(p, es);
    var s := Run(p, es);
    var t := TakeNormal(s, b, env);
    if AtRest(s) {
      TakeNormalKeeps(s, b, env);
      AtRestInBounds(t);
    }
    InBoundsIff(t, env);
  }

  /** One or two fingers put down. */
  lemma FirstFew(p: Pad, b: Packet, env: Env)
    requires AtRest(p) && LimitsSmall(env) && IsNormal(b) && p.last == 0 && !p.hadLift && !env.quiet
    requires 1 <= FingerCount(p, b, env) <= 2
    ensures var q := Handle(p, b, env).p;
            NeverLifted(q, FingerCount(p, b, env), p.skipped) && q.agm == TakeNormal(p, b, env).agm
  {
    PacketKeepsMapIff(p, b, env);
    var t := TakeNormal(p, b, env);
    PreparedRest(t, env);
    var u := Prepared(t, env);
    FewAdded(u);
    SentLower(FilterFingers(Remap(u), u.clamped), env);
  }

  lemma FewAdded(u: Pad)
    requires u.last == 0 && 1 <= u.clamped <= 2
    ensures var q := FilterFingers(Remap(u), u.clamped);
            q.last == 0 && q.clamped == u.clamped && q.skipped == u.skipped && q.hadLift == u.hadLift && q.agm == u.agm
    ensures Remap(u).clamped == u.clamped
  {
    assert Remap(u) == AddFirst(u, u.clamped);
  }

  const QUIET := Env(45, true, 1000, 5000, 1000, 5000)

  /** A packet of one finger, one of two, and one of none in the quiet time. */
  const ONE := Event([0x90, 0, 100, 0xC0, 0, 0], LIMITS)
  const TWO := Event([0x80, 0, 100, 0xC0, 0, 0], LIMITS)
  const NONE := Event([0x90, 0, 0, 0xC0, 0, 0], QUIET)

  lemma OneDown(p: Pad)
    requires NeverLifted(p, 0, false)
    ensures NeverLifted(Handle(p, ONE.b, ONE.env).p, 1, false)
  {
    assert FingerCount(p, ONE.b, ONE.env) == 1;
    FirstFew(p, ONE.b, ONE.env);
  }

  lemma TwoDown(p: Pad)
    requires NeverLifted(p, 0, false) && p.agm == 0
    ensures NeverLifted(Handle(p, TWO.b, TWO.env).p, 2, false)
  {
    assert FingerCount(p, TWO.b, TWO.env) == 2;
    FirstFew(p, TWO.b, TWO.env);
  }

  lemma NoneQuietly(p: Pad)
    requires p.last > 0
    ensures Forgotten(Handle(p, NONE.b, NONE.env).p, p.last, p.skipped) && Handle(p, NONE.b, NONE.env).p.agm == 0
  {
    assert FingerCount(p, NONE.b, NONE.env) == 0;
    QuietLiftForgets(p, NONE.b, NONE.env);
    AgmAfter(p, NONE.b, NONE.env);
  }

  lemma AgmAfter(p: Pad, b: Packet, env: Env)
    requires IsNormal(b)
    ensures Handle(p, b, env).p.agm == TakeNormal(p, b, env).agm
  {
    RenumberRest(TakeNormal(p, b, env), env);
  }

  lemma ThreeWaiting(p: Pad)
    requires Forgotten(p, 2, false) && p.agm == 0
    ensures Forgotten(Handle(p, MANY.b, MANY.env).p, 2, true) && Handle(p, MANY.b, MANY.env).p.agm == 0
  {
    assert FingerCount(p, MANY.b, MANY.env) == 3;
    ForgottenWaits(p, MANY.b, MANY.env);
    AgmAfter(p, MANY.b, MANY.env);
  }

  /** A finger lifted and put down again in a quiet time that ends meanwhile: the driver looks before its array. */
  lemma JumpOutOfBounds()
    ensures !NoneNegative(Indices(TakeNormal(Run(INITIAL_PAD, [ONE, NONE]), ONE.b, ONE.env), ONE.env))
  {
    StartsAtRest();
    OneDown(INITIAL_PAD);
    var p1 := Handle(INITIAL_PAD, ONE.b, ONE.env).p;
    NoneQuietly(p1);
    var p2 := Handle(p1, NONE.b, NONE.env).p;
    RunTwo(INITIAL_PAD, ONE, NONE);
    OneOutOfBounds(p2);
  }

  lemma OneOutOfBounds(p: Pad)
    requires Forgotten(p, 1, false)
    ensures !NoneNegative(Indices(TakeNormal(p, ONE.b, ONE.env), ONE.env))
  {
    assert FingerCount(p, ONE.b, ONE.env) == 1;
    ForgottenJump(p, ONE.b, ONE.env);
    InBoundsIff(TakeNormal(p, ONE.b, ONE.env), ONE.env);
  }

  lemma RunTwo(p: Pad, a: Event, b: Event)
    ensures Run(p, [a, b]) == Handle(Handle(p, a.b, a.env).p, b.b, b.env).p
  {
    assert [a, b] == [a] + ([b] + []);
    RunThen(p, a, [b] + []);
    RunThen(Handle(p, a.b, a.env).p, b, []);
  }

  /** Two fingers lifted in the quiet time, then three put down. */
  lemma SwapOutOfBounds()
    ensures !NoneNegative(Indices(TakeNormal(Run(INITIAL_PAD, [TWO, NONE, MANY]), MANY.b, MANY.env), MANY.env))
  {
    StartsAtRest();
    TwoDown(INITIAL_PAD);
    var p1 := Handle(INITIAL_PAD, TWO.b, TWO.env).p;
    NoneQuietly(p1);
    var p2 := Handle(p1, NONE.b, NONE.env).p;
    ThreeWaiting(p2);
    RunThree(INITIAL_PAD, TWO, NONE, MANY);
    ThreeOutOfBounds(Handle(p2, MANY.b, MANY.env).p);
  }

  lemma ThreeOutOfBounds(p: Pad)
    requires Forgotten(p, 2, true) && p.agm == 0
    ensures !NoneNegative(Indices(TakeNormal(p, MANY.b, MANY.env), MANY.env))
  {
    assert FingerCount(p, MANY.b, MANY.env) == 3;
    ForgottenSwap(p, MANY.b, MANY.env);
    InBoundsIff(TakeNormal(p, MANY.b, MANY.env), MANY.env);
  }

  lemma RunThree(p: Pad, a: Event, b: Event, c: Event)
    ensures Run(p, [a, b, c]) == Handle(Handle(Handle(p, a.b, a.env).p, b.b, b.env).p, c.b, c.env).p
  {
    assert [a, b, c] == [a] + [b, c];
    RunThen(p, a, [b, c]);
    RunTwo(Handle(p, a.b, a.env).p, b, c);
  }
}
