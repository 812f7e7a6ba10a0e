/** What a whole renumbering keeps of the finger map, which additions misplace a contact, and what feeding the windows does. */
module SynapticsRun {
  import opened Sets
  import opened SimpleAverages
  import opened SynapticsPad
  import opened SynapticsMap
  import opened SynapticsSteps

  // ---- Marking the kept virtual fingers

  lemma FreeAndMarkCounted(p: Pad, n: nat)
    requires n <= p.clamped && Distinct(p.f, n)
    ensures Counted(FreeAndMark(p), n)
  {
    forall i
      ensures i in MappedContacts(p) <==> i in Below(n)
    {
    }
    assert Injective(p.f, Below(n));
    FreeAndMarkOnto(p, n);
    var q := FreeAndMark(p);
    assert q.f == p.f;
    OntoCounted(q, n);
  }

  // ---- Fingers lifted

  lemma LiftFinds(p: Pad)
    requires Bounded(p) && Counted(p, p.last) && p.clamped <= p.last
    ensures Lifts(p, p.clamped)
  {
    CountIsSize(p.v, |p.v|);
    MatchLiftedFinds(p, p.clamped, p.last);
  }

  lemma MatchLiftedCounted(p: Pad)
    requires Lifts(p, p.clamped)
    ensures Counted(FreeAndMark(MatchLifted(p, p.clamped).p), p.clamped)
  {
    var m := MatchLifted(p, p.clamped);
    LiftedDistinct(p, m, p.clamped);
    FreeAndMarkCounted(m.p, p.clamped);
  }

  lemma LiftCounted(p: Pad)
    requires Bounded(p) && Counted(p, p.last) && p.clamped < p.last
    ensures Counted(LiftFingers(p), p.clamped)
  {
    var q := p.(hadLift := p.clamped > 0);
    LiftFinds(q);
    MatchLiftedCounted(q);
  }

  /** A lift never brings a new virtual finger into play. */
  lemma LiftOnlyReleases(p: Pad)
    requires Bounded(p) && Counted(p, p.last) && p.clamped < p.last
    ensures forall j :: 0 <= j < MAX_FINGERS && LiftFingers(p).v[j].touch ==> p.v[j].touch
  {
    var q := p.(hadLift := p.clamped > 0);
    LiftFinds(q);
    MarkedFromTouched(q);
  }

  lemma MarkedFromTouched(p: Pad)
    requires Lifts(p, p.clamped)
    ensures forall j :: 0 <= j < MAX_FINGERS && FreeAndMark(MatchLifted(p, p.clamped).p).v[j].touch ==> p.v[j].touch
  {
    var m := MatchLifted(p, p.clamped);
    forall j | 0 <= j < MAX_FINGERS && FreeAndMark(m.p).v[j].touch
      ensures p.v[j].touch
    {
      LiftedFromTouched(p, m, p.clamped, j);
    }
  }

  lemma LiftedFromTouched(p: Pad, m: Lifted, n: nat, j: Index)
    requires n <= MAX_FINGERS && |m.used| == MAX_FINGERS && PartlyLifted(p, m, n)
    requires Mapped(m.p.f, n, j)
    ensures p.v[j].touch
  {
    var i :| 0 <= i < n && m.p.f[i].vf == j;
    var D := MappedBelow(m.p.f, |m.p.f|);
    assert i in D;
    assert j in Image(m.p.f, D);
    assert j in Used(m.used, |m.used|);
    assert j in Touched(p.v, |p.v|);
  }

  lemma LiftedDistinct(p: Pad, m: Lifted, n: nat)
    requires n <= MAX_FINGERS && |m.used| == MAX_FINGERS && PartlyLifted(p, m, n)
    ensures Distinct(m.p.f, n)
  {
    OthersUnmapped(m.p, n);
    var D := MappedContacts(m.p);
    forall i | 0 <= i < n
      ensures i in D && 0 <= m.p.f[i].vf
    {
    }
    forall i, k | 0 <= i < k < n
      ensures m.p.f[i].vf != m.p.f[k].vf
    {
      assert i in D && k in D;
    }
  }

  // ---- Fingers added after a lift

  lemma KeptCounted(p: Pad)
    requires Bounded(p) && Counted(p, p.last)
    ensures Counted(MatchKept(p, |p.v|).p, p.last)
    ensures OnlyMapDiffers(p, MatchKept(p, |p.v|).p)
    ensures JumpedAmong(MatchKept(p, |p.v|).far, MatchKept(p, |p.v|).second, p.last)
  {
    hide MatchKept, Counted, Onto, MappedContacts, Bounded, MapsOnto, Below, Touched;
    CountedIsOnto(p, p.last);
    MatchKeptOnto(p);
    var m := MatchKept(p, |p.v|);
    OntoCounted(m.p, p.last);
    JumpsAmongThem(m, p.last);
  }

  lemma JumpsAmongThem(m: Kept, n: int)
    requires 0 <= n && IndexOrNone(m.far.index) && IndexOrNone(m.second.index) && JumpsKnown(m) && MappedContacts(m.p) == Below(n)
    ensures JumpedAmong(m.far, m.second, n)
  {
  }

  lemma KeptAndRealCounted(p: Pad)
    requires Bounded(p) && Counted(p, p.last) && 0 < p.last
    ensures Counted(KeptAndReal(p), Max(2, p.last))
    ensures ExtendsUpTo(MatchKept(p, |p.v|).p, KeptAndReal(p), 1)
  {
    KeptCounted(p);
    var m := MatchKept(p, |p.v|);
    if p.last == 1 {
      AssignNext(m.p, 1);
    }
  }

  /** The map before the virtual fingers are freed and marked again. */
  function AddedAfterLift(p: Pad): (q: Pad)
    ensures SameRest(p, q)
  {
    KeptRest(p, |p.v|);
    var m := MatchKept(p, |p.v|);
    AddNew(KeptAndReal(p), m.far, m.second)
  }

  lemma {:induction false} KeptRest(p: Pad, n: nat)
    requires n <= MAX_FINGERS
    ensures SameRest(p, MatchKept(p, n).p)
  {
    if n > 0 {
      KeptRest(p, n - 1);
    }
  }

  lemma AddNewCounted(q: Pad, far: Near, second: Near)
    requires 0 < q.last < q.clamped && !MisplacesAfterLift(q.last, q.clamped)
    requires Counted(q, Max(2, q.last)) && JumpedAmong(far, second, q.last)
    ensures Counted(AddNew(q, far, second), q.clamped) && TouchesStay(q, AddNew(q, far, second))
  {
    if q.clamped == 3 {
      AddThirdCounted(q, far);
    } else if q.clamped == 4 {
      AddFourthCounted(q, far, second);
    } else if q.clamped == 5 {
      AddFifthCounted(q, far, second);
    }
  }

  lemma AddFifthCounted(q: Pad, far: Near, second: Near)
    requires 1 <= q.last <= 3 && Counted(q, Max(2, q.last)) && JumpedAmong(far, second, q.last)
    ensures Counted(CloneAndAssign(AddFourth(q, far, second), 4), 5)
    ensures TouchesStay(q, CloneAndAssign(AddFourth(q, far, second), 4))
  {
    AddFourthCounted(q, far, second);
    CloneAndAssignNext(AddFourth(q, far, second), 4);
  }

  lemma AddedAfterLiftCounted(p: Pad)
    requires Bounded(p) && Counted(p, p.last) && 0 < p.last < p.clamped && !MisplacesAfterLift(p.last, p.clamped)
    ensures Counted(AddedAfterLift(p), p.clamped) && TouchesStay(p, AddedAfterLift(p))
  {
    KeptCounted(p);
    KeptAndRealCounted(p);
    KeptRest(p, |p.v|);
    var m := MatchKept(p, |p.v|);
    AddNewCounted(KeptAndReal(p), m.far, m.second);
  }

  lemma AddNewMisplaces(q: Pad, far: Near, second: Near)
    requires q.last == 4 && q.clamped == 5 && Counted(q, 4) && JumpedAmong(far, second, 4)
    ensures Distinct(AddNew(q, far, second).f, 4)
  {
    MeanZwCounted(q, 2, 4);
    MeanZwCounted(MeanZw(q, 2), 3, 4);
    FourthAgain(MeanZw(MeanZw(q, 2), 3), far);
    var r := AddFourth(q, far, second);
    AllTouched(r.v, |r.v|);
  }

  lemma AddedAfterLiftMisplaces(p: Pad)
    requires Bounded(p) && Counted(p, p.last) && 0 < p.last < p.clamped && MisplacesAfterLift(p.last, p.clamped)
    ensures Distinct(AddedAfterLift(p).f, 4)
  {
    KeptCounted(p);
    KeptAndRealCounted(p);
    KeptRest(p, |p.v|);
    var m := MatchKept(p, |p.v|);
    AddNewMisplaces(KeptAndReal(p), m.far, m.second);
  }

  lemma AddAfterLiftCounted(p: Pad)
    requires Bounded(p) && Counted(p, p.last) && 0 < p.last < p.clamped
    ensures Counted(AddAfterLift(p), if MisplacesAfterLift(p.last, p.clamped) then 4 else p.clamped)
  {
    var r := AddedAfterLift(p);
    assert AddAfterLift(p) == FreeAndMark(r);
    if MisplacesAfterLift(p.last, p.clamped) {
      AddedAfterLiftMisplaces(p);
      FreeAndMarkCounted(r, 4);
    } else {
      AddedAfterLiftCounted(p);
      FreeAndMarkCounted(r, p.clamped);
    }
  }

  // ---- The whole renumbering

  /** The additions that lose a contact: five fingers out of two or three, or out of four after a lift. */
  predicate Misplaces(p: Pad, n: int) {
    0 < p.last && if p.hadLift then MisplacesAfterLift(p.last, n) else MisplacesFresh(p.last, n)
  }

  lemma RemapCounted(p: Pad)
    requires Bounded(p) && Counted(p, p.last) && !Misplaces(p, p.clamped)
    ensures Counted(Remap(p), p.clamped)
  {
    if p.clamped != p.last {
      var q := if p.clamped > p.last && p.clamped >= 3 then p.(skipped := false) else p;
      if p.last == 0 {
        AddFirstIdentity(q, q.clamped);
        IdentityCounted(AddFirst(q, q.clamped), q.clamped);
      } else if p.clamped < p.last {
        LiftCounted(q);
      } else if p.hadLift {
        AddAfterLiftCounted(q);
      } else {
        AddFreshCounted(q);
      }
    }
  }

  /** A misplacing addition leaves contact 4 unmapped; without a lift before, all virtual fingers are touched. */
  lemma RemapMisplaces(p: Pad)
    requires Bounded(p) && Counted(p, p.last) && Misplaces(p, p.clamped)
    ensures Remap(p).f[4].vf == -1
    ensures p.hadLift ==> Counted(Remap(p), 4)
    ensures !p.hadLift ==> TouchCount(Remap(p).v, |p.v|) == MAX_FINGERS
  {
    var q := p.(skipped := false);
    if p.hadLift {
      AddAfterLiftCounted(q);
    } else {
      AddFreshMisplaces(q);
    }
  }

  lemma RemapRest(p: Pad)
    ensures Remap(p).last == p.last && Remap(p).clamped == p.clamped
    ensures Remap(p).agm == p.agm && Remap(p).lastSent == p.lastSent
  {
    if p.clamped != p.last {
      var q := if p.clamped > p.last && p.clamped >= 3 then p.(skipped := false) else p;
      if p.last > 0 && p.clamped < p.last {
        LiftedRest(q.(hadLift := p.clamped > 0), p.clamped);
      } else if p.last > 0 && p.hadLift {
        assert AddAfterLift(q) == FreeAndMark(AddedAfterLift(q));
      }
    }
  }

  lemma {:induction false} LiftedRest(p: Pad, n: nat)
    requires n <= MAX_FINGERS
    ensures SameRest(p, MatchLifted(p, n).p)
  {
    if n > 0 {
      LiftedRest(p, n - 1);
    }
  }

  // ---- Feeding the windows

  predicate HasSamples(v: VirtualFinger) {
    v.xs != [] && v.ys != []
  }

  /** Every touched virtual finger has a sample to be read. */
  predicate Sampled(p: Pad) {
    forall j :: 0 <= j < MAX_FINGERS && p.v[j].touch ==> HasSamples(p.v[j])
  }

  lemma {:induction false} FilterKeeps(p: Pad, n: nat)
    requires n <= MAX_FINGERS
    ensures FilterFingers(p, n).f == p.f
    ensures forall j :: 0 <= j < MAX_FINGERS ==> FilterFingers(p, n).v[j].touch == p.v[j].touch
    ensures forall j :: 0 <= j < MAX_FINGERS && HasSamples(p.v[j]) ==> HasSamples(FilterFingers(p, n).v[j])
  {
    if n > 0 {
      FilterKeeps(p, n - 1);
    }
  }

  /** A window with one sample more, of which the last five count. */
  function Newer(w: seq<int>, x: int): seq<int> {
    if |w| >= 5 then w[|w| - 4..] + [x] else w + [x]
  }

  /** The windows of the contact's virtual finger are those of before with its position behind them, and the finger has its
      pressure and width, in bytes. */
  predicate HasFed(p: Pad, q: Pad, f: Finger)
  {
    && 0 <= f.vf < MAX_FINGERS && HasSamples(q.v[f.vf])
    && Newest(q.v[f.vf].xs) == f.x && Newest(q.v[f.vf].ys) == f.y
    && q.v[f.vf].xs == Newer(p.v[f.vf].xs, f.x) && q.v[f.vf].ys == Newer(p.v[f.vf].ys, f.y)
    && q.v[f.vf].pressure == f.z % 256 && q.v[f.vf].width == f.w % 256
  }

  lemma FilterStepFeeds(q: Pad, n: Index)
    requires 0 <= q.f[n].vf
    ensures HasFed(q, FilterStep(q, n), q.f[n])
    ensures forall j :: 0 <= j < MAX_FINGERS && j != q.f[n].vf ==> FilterStep(q, n).v[j] == q.v[j]
  {
    var v := q.v[q.f[n].vf];
    PushIsNewer(v.xs, q.f[n].x);
    PushIsNewer(v.ys, q.f[n].y);
  }

  lemma PushIsNewer(w: seq<int>, x: int)
    requires |w| <= SAMPLES
    ensures Push(w, SAMPLES, x) == Newer(w, x)
  {
  }

  lemma {:induction false} FilterSpares(p: Pad, n: nat, j: Index)
    requires n <= MAX_FINGERS && forall i :: 0 <= i < n ==> p.f[i].vf != j
    ensures FilterFingers(p, n).v[j] == p.v[j] && FilterFingers(p, n).f == p.f
  {
    if n > 0 {
      FilterSpares(p, n - 1, j);
    }
  }

  lemma FedStays(p: Pad, q: Pad, r: Pad, f: Finger)
    requires HasFed(p, q, f) && r.v[f.vf] == q.v[f.vf]
    ensures HasFed(p, r, f)
  {
  }

  lemma FedFrom(p: Pad, q: Pad, r: Pad, f: Finger)
    requires HasFed(q, r, f) && p.v[f.vf] == q.v[f.vf]
    ensures HasFed(p, r, f)
  {
  }

  /** Each of the contacts, mapped to different virtual fingers, has just fed its own. */
  lemma {:induction false} FilterFeeds(p: Pad, n: nat)
    requires n <= MAX_FINGERS
    requires forall i :: 0 <= i < n ==> 0 <= p.f[i].vf
    requires forall i, k :: 0 <= i < k < n ==> p.f[i].vf != p.f[k].vf
    ensures forall i :: 0 <= i < n ==> HasFed(p, FilterFingers(p, n), p.f[i])
  {
    if n > 0 {
      hide FilterStep, HasFed;
      var q, j := FilterFingers(p, n - 1), p.f[n - 1].vf;
      FilterFeeds(p, n - 1);
      FilterSpares(p, n - 1, j);
      FilterStepFeeds(q, n - 1);
      var r := FilterStep(q, n - 1);
      FedFrom(p, q, r, p.f[n - 1]);
      forall i | 0 <= i < n - 1
        ensures HasFed(p, r, p.f[i])
      {
        assert p.f[i].vf != p.f[n - 1].vf;
        FedStays(p, q, r, p.f[i]);
      }
    }
  }
}
