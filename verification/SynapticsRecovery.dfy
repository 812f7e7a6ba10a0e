/** When a tracker whose map went wrong is right again: exactly which lifts restore it. */
module SynapticsRecovery {
  import opened SynapticsPad
  import opened SynapticsMap
  import opened SynapticsSteps
  import opened SynapticsRun
  import opened SynapticsTheorems
  import opened SynapticsContacts
  import Sets

  // ---- A lift, whatever the map was

  lemma NearestTouched(m: Lifted, i: Index)
    requires |m.used| == MAX_FINGERS
    ensures var j := Nearest(LiftCost(m.p, i, m.used)).index; j >= 0 ==> m.p.v[j].touch
  {
  }

  /** Contacts only find virtual fingers that are touched. */
  lemma {:induction false} LiftedFindTouched(p: Pad, n: nat)
    requires n <= MAX_FINGERS
    ensures MatchLifted(p, n).p.v == p.v
    ensures forall i :: 0 <= i < MAX_FINGERS && 0 <= MatchLifted(p, n).p.f[i].vf ==> p.v[MatchLifted(p, n).p.f[i].vf].touch
  {
    if n > 0 {
      LiftedFindTouched(p, n - 1);
      NearestTouched(MatchLifted(p, n - 1), n - 1);
    }
  }

  lemma MarkedTouched(p: Pad, m: Pad)
    requires forall i :: 0 <= i < MAX_FINGERS && 0 <= m.f[i].vf ==> p.v[m.f[i].vf].touch
    ensures TouchesStay(FreeAndMark(m), p)
  {
    forall j | 0 <= j < MAX_FINGERS && FreeAndMark(m).v[j].touch
      ensures p.v[j].touch
    {
      var i :| 0 <= i < m.clamped && m.f[i].vf == j;
    }
  }

  lemma {:induction false} FewerTouches(v: seq<VirtualFinger>, w: seq<VirtualFinger>, n: nat)
    requires n <= |v| == |w| && forall j :: 0 <= j < n && v[j].touch ==> w[j].touch
    ensures TouchCount(v, n) <= TouchCount(w, n)
  {
    if n > 0 {
      FewerTouches(v, w, n - 1);
    }
  }

  lemma LiftTouchesFewer(p: Pad)
    ensures TouchCount(LiftFingers(p).v, |p.v|) <= TouchCount(p.v, |p.v|)
  {
    var q := p.(hadLift := p.clamped > 0);
    LiftedFindTouched(q, p.clamped);
    MarkedTouched(p, MatchLifted(q, p.clamped).p);
    FewerTouches(LiftFingers(p).v, p.v, |p.v|);
  }

  lemma EnoughCounted(p: Pad)
    requires Bounded(p) && TouchCount(p.v, |p.v|) >= p.clamped
    ensures Counted(LiftFingers(p), p.clamped)
  {
    var q := p.(hadLift := p.clamped > 0);
    CountIsSize(q.v, |q.v|);
    MatchLiftedFinds(q, p.clamped, TouchCount(q.v, |q.v|));
    MatchLiftedCounted(q);
  }

  /** After a lift the map is right exactly if there were touched virtual fingers for all contacts left. */
  lemma LiftRestoresIff(p: Pad)
    requires Bounded(p) && p.clamped < p.last
    ensures Counted(LiftFingers(p), p.clamped) <==> TouchCount(p.v, |p.v|) >= p.clamped
    ensures Onto(LiftFingers(p), Sets.Below(p.clamped)) <==> TouchCount(p.v, |p.v|) >= p.clamped
  {
    LiftTouchesFewer(p);
    if TouchCount(p.v, |p.v|) >= p.clamped {
      EnoughCounted(p);
      CountedIsOnto(LiftFingers(p), p.clamped);
    } else if Onto(LiftFingers(p), Sets.Below(p.clamped)) {
      OntoCount(LiftFingers(p), p.clamped);
    }
  }

  // ---- Packets

  lemma UnpressBounded(d: Pad)
    requires Bounded(d)
    ensures Bounded(UnpressJumped(d))
  {
  }

  lemma PreparedBounded(t: Pad, env: Env)
    requires Bounded(t) && LimitsSmall(env)
    ensures Bounded(Prepared(t, env))
  {
    DragBounded(t, env);
    UnpressBounded(DragImaginary(t, env));
  }

  lemma TakeNormalBounded(p: Pad, b: Packet, env: Env)
    requires Bounded(p)
    ensures Bounded(TakeNormal(p, b, env))
  {
    RealFingerSmall(b, p.f[0].vf);
  }

  lemma RealFingerSmall(b: Packet, vf: int)
    ensures Small(RealFinger(b, vf).x) && Small(RealFinger(b, vf).y)
  {
  }

  lemma AgmBounded(p: Pad, b: Packet)
    requires Bounded(p)
    ensures Bounded(TakeAgm(p, b))
  {
    SecondFingerSmall(b, p.f[1].vf);
  }

  lemma RenumberBounded(t: Pad, env: Env)
    requires Bounded(t) && LimitsSmall(env)
    ensures Bounded(Renumber(t, env).p)
  {
    PreparedBounded(t, env);
    var u := Prepared(t, env);
    RemapBounded(u);
    FilterBounded(Remap(u), Remap(u).clamped);
  }

  lemma SendBounded(p: Pad, env: Env)
    requires Bounded(p)
    ensures Bounded(SendTouchData(p, env).p)
  {
  }

  /** Coordinates stay small whatever becomes of the map. */
  lemma HandleBounded(p: Pad, b: Packet, env: Env)
    requires Bounded(p) && LimitsSmall(env)
    ensures Bounded(Handle(p, b, env).p)
  {
    if IsNormal(b) {
      TakeNormalBounded(p, b, env);
      var t := TakeNormal(p, b, env);
      RenumberBounded(t, env);
      SendBounded(Renumber(t, env).p, env);
    } else {
      AgmBounded(p, b);
    }
  }

  lemma {:induction false} RunBounded(p: Pad, es: seq<Event>)
    requires Bounded(p) && AllLimitsSmall(es)
    ensures Bounded(Run(p, es))
    decreases |es|
  {
    if es != [] {
      var e := es[0];
      HandleBounded(p, e.b, e.env);
      RunBounded(Handle(p, e.b, e.env).p, es[1..]);
    }
  }

  lemma PreparedCount(t: Pad, env: Env)
    ensures TouchCount(Prepared(t, env).v, |t.v|) == TouchCount(t.v, |t.v|)
  {
    PreparedTouches(t, env);
    CountSame(t.v, Prepared(t, env).v, |t.v|);
  }

  /** The renumbering of a packet that lowers the count. */
  lemma LoweredRenumber(t: Pad, env: Env)
    requires Settled(t) < t.last
    ensures var u := Prepared(t, env);
            Renumber(t, env) == Outcome(FilterFingers(LiftFingers(u), u.clamped), true)
            && u.clamped == Settled(t) && u.last == t.last && LiftFingers(u).clamped == u.clamped
  {
    PreparedRest(t, env);
    RemapRest(Prepared(t, env));
  }

  lemma SentLower(q: Pad, env: Env)
    requires !env.quiet && q.clamped != q.last
    ensures SendTouchData(q, env).p == q.(last := q.clamped)
  {
  }

  lemma FedRests(r: Pad, n: nat)
    requires n == r.clamped && Bounded(r) && Counted(r, n)
    ensures AtRest(FilterFingers(r, n).(last := n))
  {
    FilterBounded(r, n);
    FilterKeepsCounted(r, n, n);
    FilterSamples(r, n);
  }

  lemma FedCounted(r: Pad, q: Pad, n: nat)
    requires q.f == r.f && (forall j :: 0 <= j < MAX_FINGERS ==> q.v[j].touch == r.v[j].touch) && Counted(q, n)
    ensures Counted(r, n)
  {
    SameMapCounted(q, r, n);
  }

  lemma FedRight(r: Pad, n: nat)
    requires n == r.clamped && Bounded(r)
    ensures var q := FilterFingers(r, n).(last := n);
            (AtRest(q) <==> Counted(r, n)) && (MapRight(q) <==> Onto(r, Sets.Below(n)))
  {
    FilterKeeps(r, n);
    var q := FilterFingers(r, n).(last := n);
    if Counted(r, n) {
      FedRests(r, n);
    } else if Counted(q, n) {
      FedCounted(r, q, n);
    }
    SameImage(r, q, n);
  }

  lemma SameImage(r: Pad, q: Pad, n: nat)
    requires n <= MAX_FINGERS && q.f == r.f && forall j :: 0 <= j < MAX_FINGERS ==> q.v[j].touch == r.v[j].touch
    ensures Onto(q, Sets.Below(n)) <==> Onto(r, Sets.Below(n))
  {
  }

  /** From any tracker at all: a packet that lowers the count sets the map right exactly if as many virtual fingers are
      touched as contacts are left. */
  lemma LoweringRestoresIff(p: Pad, b: Packet, env: Env)
    requires Bounded(p) && LimitsSmall(env) && IsNormal(b) && !env.quiet && Settled(TakeNormal(p, b, env)) < p.last
    ensures var n, q := Settled(TakeNormal(p, b, env)), Handle(p, b, env).p;
            q.last == n && (AtRest(q) <==> TouchCount(p.v, |p.v|) >= n) && (MapRight(q) <==> TouchCount(p.v, |p.v|) >= n)
  {
    var t := TakeNormal(p, b, env);
    TakeNormalBounded(p, b, env);
    PreparedBounded(t, env);
    PreparedCount(t, env);
    LoweredRenumber(t, env);
    var u := Prepared(t, env);
    LiftBounded(u);
    LiftRestoresIff(u);
    FedRight(LiftFingers(u), u.clamped);
    RenumberRest(t, env);
    SentLower(Renumber(t, env).p, env);
  }

  /** With no contact counted and none to be counted, a packet changes neither map nor touches. */
  lemma NothingChanges(p: Pad, b: Packet, env: Env)
    requires p.last == 0 && IsNormal(b) && FingerCount(p, b, env) == 0 && !env.quiet
    ensures var q := Handle(p, b, env).p; q.last == 0 && q.v == p.v && forall i :: 0 <= i < MAX_FINGERS ==> q.f[i].vf == p.f[i].vf
  {
    var t := TakeNormal(p, b, env);
    DragKeepsMap(t, env);
    assert Prepared(t, env) == t && Remap(t) == t && FilterFingers(t, t.clamped) == t;
  }

  /** Over every run: a packet without fingers, outside the quiet time, leaves the tracker at rest exactly if contacts were
      counted before it, or the tracker was at rest already. */
  lemma NoFingerRestoresIff(p: Pad, es: seq<Event>, b: Packet, env: Env)
    requires Bounded(p) && AllLimitsSmall(es) && LimitsSmall(env)
    requires IsNormal(b) && FingerCount(Run(p, es), b, env) == 0 && !env.quiet
    ensures AtRest(Handle(Run(p, es), b, env).p) <==> Run(p, es).last > 0 || AtRest(Run(p, es))
  {
    RunBounded(p, es);
    var s := Run(p, es);
    if s.last > 0 {
      LoweringRestoresIff(s, b, env);
    } else {
      NothingChanges(s, b, env);
      HandleBounded(s, b, env);
      NothingRests(s, Handle(s, b, env).p);
    }
  }

  lemma NothingRests(s: Pad, q: Pad)
    requires s.last == q.last == 0 && Bounded(s) && Bounded(q) && q.v == s.v
    requires forall i :: 0 <= i < MAX_FINGERS ==> q.f[i].vf == s.f[i].vf
    ensures AtRest(q) <==> AtRest(s)
  {
  }

  // ---- Runs without quiet time

  /** What a misplacing addition leaves: five contacts counted, and four virtual fingers touched at least. */
  predicate Overfull(p: Pad) {
    Bounded(p) && p.last == MAX_FINGERS && TouchCount(p.v, |p.v|) >= 4
  }

  /** The tracker is at rest, or the next lift will set it right. */
  predicate Fine(p: Pad) {
    AtRest(p) || Overfull(p)
  }

  lemma SendCount(q: Pad, env: Env)
    ensures SendTouchData(q, env).p.v == q.v
  {
  }

  lemma MisplacingOverfills(p: Pad, b: Packet, env: Env)
    requires AtRest(p) && LimitsSmall(env) && BreaksOn(p, b, env) && !env.quiet
    ensures Overfull(Handle(p, b, env).p)
  {
    TakeNormalKeeps(p, b, env);
    var t := TakeNormal(p, b, env);
    RenumberMisplaces(t, env);
    HandleBounded(p, b, env);
    var q := Renumber(t, env).p;
    SentLower(q, env);
    assert q.last == t.last;
    assert t.hadLift ==> t.last == 4 && Counted(q, q.last);
  }

  /** Five contacts counted, and five come again. */
  lemma OverfullStays(t: Pad, env: Env)
    requires t.last == t.clamped == MAX_FINGERS
    ensures var o := Renumber(t, env);
            o.ready && o.p.last == o.p.clamped == MAX_FINGERS && TouchCount(o.p.v, |t.v|) == TouchCount(t.v, |t.v|)
  {
    PreparedRest(t, env);
    PreparedCount(t, env);
    var u := Prepared(t, env);
    FilterKeeps(u, u.clamped);
    CountSame(u.v, FilterFingers(u, u.clamped).v, |u.v|);
  }

  lemma OverfullPacket(p: Pad, b: Packet, env: Env)
    requires Overfull(p) && LimitsSmall(env) && IsNormal(b) && !env.quiet
    ensures Fine(Handle(p, b, env).p)
  {
    var t := TakeNormal(p, b, env);
    if Settled(t) < p.last {
      LoweringRestoresIff(p, b, env);
    } else {
      OverfullStays(t, env);
      HandleBounded(p, b, env);
      SendCount(Renumber(t, env).p, env);
    }
  }

  lemma OverfullAnnounced(p: Pad, b: Packet, env: Env)
    requires Overfull(p) && !IsNormal(b)
    ensures Overfull(Handle(p, b, env).p)
  {
    AgmBounded(p, b);
  }

  lemma FinePacket(p: Pad, e: Event)
    requires Fine(p) && LimitsSmall(e.env) && !e.env.quiet
    ensures Fine(Handle(p, e.b, e.env).p)
  {
    if AtRest(p) {
      if BreaksOn(p, e.b, e.env) {
        MisplacingOverfills(p, e.b, e.env);
      } else {
        UnbrokenKeeps(p, e);
      }
    } else if IsNormal(e.b) {
      OverfullPacket(p, e.b, e.env);
    } else {
      OverfullAnnounced(p, e.b, e.env);
    }
  }

  ghost predicate NoneQuiet(es: seq<Event>) {
    forall k :: 0 <= k < |es| ==> !es[k].env.quiet
  }

  lemma {:induction false} FineRun(p: Pad, es: seq<Event>)
    requires Fine(p) && AllLimitsSmall(es) && NoneQuiet(es)
    ensures Fine(Run(p, es))
    decreases |es|
  {
    if es != [] {
      var e := es[0];
      FinePacket(p, e);
      FineRun(Handle(p, e.b, e.env).p, es[1..]);
    }
  }

  /** Over every run without quiet time every packet that lowers the count leaves the tracker at rest, also after additions
      that misplaced a contact. */
  lemma LoweringHeals(p: Pad, es: seq<Event>, b: Packet, env: Env)
    requires AtRest(p) && AllLimitsSmall(es) && NoneQuiet(es) && LimitsSmall(env) && IsNormal(b) && !env.quiet
    requires Settled(TakeNormal(Run(p, es), b, env)) < Run(p, es).last
    ensures AtRest(Handle(Run(p, es), b, env).p)
  {
    FineRun(p, es);
    var s := Run(p, es);
    LoweringRestoresIff(s, b, env);
    assert AtRest(s) ==> TouchCount(s.v, |s.v|) == s.last;
  }

  // ---- A contact that stays

  /** One finger put down in the quiet time is touched but not counted. */
  lemma QuietFinger(p: Pad, b: Packet, env: Env)
    requires AtRest(p) && p.last == 0 && IsNormal(b) && FingerCount(p, b, env) == 1 && env.quiet
    ensures var q := Handle(p, b, env).p; q.last == 0 && q.v[0].touch && q.lastSent == p.lastSent
  {
    var t := TakeNormal(p, b, env);
    DragKeepsMap(t, env);
    PreparedRest(t, env);
    assert Prepared(t, env) == t;
    OneAdded(t);
  }

  lemma OneAdded(t: Pad)
    requires t.last == 0 && t.clamped == 1
    ensures var q := FilterFingers(Remap(t), t.clamped); q.last == 0 && q.v[0].touch && q.lastSent == t.lastSent
    ensures Remap(t).clamped == t.clamped
  {
    var none: nat := 0;
    assert AddFirst(t, none) == t;
    assert AddFirst(t, none + 1) == AddFirstStep(t, none);
    FilterKeeps(Remap(t), t.clamped);
  }

  /** Lifted in the quiet time too, it is not lifted for the driver, which reports a contact when the quiet time is over. */
  lemma ContactStays(p: Pad, b: Packet, env: Env)
    requires p.last == 0 && p.v[0].touch && IsNormal(b) && FingerCount(p, b, env) == 0
    ensures var s := Handle(p, b, env); s.p.last == 0 && s.p.v[0].touch
    ensures !env.quiet ==> Handle(p, b, env).report.Report? && Handle(p, b, env).report.contacts != []
  {
    var t := TakeNormal(p, b, env);
    DragKeepsMap(t, env);
    assert Prepared(t, env) == t && Remap(t) == t && FilterFingers(t, t.clamped) == t;
    if !env.quiet {
      TouchedIsListed(t, |t.v|);
    }
  }

  /** So a finger that comes and goes in the quiet time is reported after it, though no finger is down. */
  lemma QuietFingerReported(p: Pad, down: Event, up: Event, later: Event)
    requires AtRest(p) && p.last == 0 && IsNormal(down.b) && IsNormal(up.b) && IsNormal(later.b)
    requires down.env.quiet && up.env.quiet && !later.env.quiet
    requires var q := Handle(p, down.b, down.env).p;
             && FingerCount(p, down.b, down.env) == 1 && FingerCount(q, up.b, up.env) == 0
             && FingerCount(Handle(q, up.b, up.env).p, later.b, later.env) == 0
    ensures var q := Handle(Handle(p, down.b, down.env).p, up.b, up.env).p;
            Handle(q, later.b, later.env).report.Report? && Handle(q, later.b, later.env).report.contacts != []
  {
    hide *;
    QuietFinger(p, down.b, down.env);
    var q := Handle(p, down.b, down.env).p;
    ContactStays(q, up.b, up.env);
    ContactStays(Handle(q, up.b, up.env).p, later.b, later.env);
  }

  lemma {:induction false} TouchedIsListed(p: Pad, n: nat)
    requires 0 < n <= MAX_FINGERS && p.v[0].touch
    ensures ContactsUpTo(p, n) != []
    decreases n
  {
    if n > 1 {
      TouchedIsListed(p, n - 1);
    }
  }
}
