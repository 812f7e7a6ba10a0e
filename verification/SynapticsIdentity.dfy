/** Which number a finger that stays down has afterwards: the numbers follow the positions. */
module SynapticsIdentity {
  import opened SynapticsPad
  import opened SynapticsMap
  import opened SynapticsSteps
  import opened SynapticsRun
  import opened SynapticsTheorems
  import opened SynapticsRecovery

  // ---- Fingers lifted

  /** Of all touched virtual fingers j is the one the contact is closest to. */
  predicate ClosestFinger(p: Pad, i: Index, j: Index) {
    p.v[j].touch && forall k :: 0 <= k < MAX_FINGERS && k != j && p.v[k].touch ==> Dist(p, i, j) < Dist(p, i, k)
  }

  /** The first |g| contacts have each stayed closest to their own virtual finger. */
  predicate StayClosest(p: Pad, g: seq<Index>) {
    && |g| <= MAX_FINGERS
    && (forall i :: 0 <= i < |g| ==> ClosestFinger(p, i, g[i]))
    && (forall i, k :: 0 <= i < k < |g| ==> g[i] != g[k])
  }

  /** A cost below all others is the nearest one. */
  lemma StrictlyLeast(cost: seq<int>, j: nat)
    requires j < |cost| && cost[j] < INT_MAX && forall k :: 0 <= k < |cost| && k != j ==> cost[j] < cost[k]
    ensures Nearest(cost) == Near(cost[j], j)
  {
  }

  lemma SameDist(p: Pad, q: Pad, i: Index, j: Index)
    requires OnlyMapDiffers(p, q)
    ensures Dist(q, i, j) == Dist(p, i, j)
  {
  }

  /** The search finds the closest finger, if it is not used yet. */
  lemma LiftStepFollows(p: Pad, m: Lifted, i: Index, j: Index)
    requires Bounded(p) && OnlyMapDiffers(p, m.p) && |m.used| == MAX_FINGERS && !m.used[j] && ClosestFinger(p, i, j)
    ensures LiftStep(m, i) == Lifted(SetVf(m.p, i, j), m.used[j := true])
  {
    var cost := LiftCost(m.p, i, m.used);
    DistFitsInt(p, i, j);
    forall k | 0 <= k < |cost|
      ensures cost[k] == if p.v[k].touch && !m.used[k] then Dist(p, i, k) else INT_MAX
    {
      SameDist(p, m.p, i, k);
    }
    StrictlyLeast(cost, j);
  }

  /** What the matching has done once the first n contacts are found. */
  ghost predicate Followed(p: Pad, m: Lifted, g: seq<Index>, n: nat)
    requires n <= |g| && |g| <= MAX_FINGERS && |m.used| == MAX_FINGERS
  {
    && OnlyMapDiffers(p, m.p)
    && (forall i :: 0 <= i < n ==> m.p.f[i].vf == g[i])
    && (forall i :: n <= i < |g| ==> !m.used[g[i]])
  }

  lemma LiftOneMore(p: Pad, m: Lifted, g: seq<Index>, n: nat)
    requires Bounded(p) && StayClosest(p, g) && 0 < n <= |g| && |m.used| == MAX_FINGERS && Followed(p, m, g, n - 1)
    ensures Followed(p, LiftStep(m, n - 1), g, n)
  {
    assert ClosestFinger(p, n - 1, g[n - 1]);
    LiftStepFollows(p, m, n - 1, g[n - 1]);
    SetVfOnlyMap(p, m.p, n - 1, g[n - 1]);
  }

  lemma {:induction false} LiftFollowsTo(p: Pad, g: seq<Index>, n: nat)
    requires Bounded(p) && StayClosest(p, g) && n <= |g|
    ensures Followed(p, MatchLifted(p, n), g, n)
  {
    if n > 0 {
      LiftFollowsTo(p, g, n - 1);
      LiftOneMore(p, MatchLifted(p, n - 1), g, n);
    }
  }

  /** A lift leaves every contact that is still closest to its own virtual finger with that number. */
  lemma LiftFollows(p: Pad, g: seq<Index>)
    requires Bounded(p) && p.clamped < p.last && |g| == p.clamped && StayClosest(p, g)
    ensures forall i :: 0 <= i < |g| ==> LiftFingers(p).f[i].vf == g[i]
  {
    var q := p.(hadLift := p.clamped > 0);
    assert StayClosest(q, g) by {
      forall i | 0 <= i < |g|
        ensures ClosestFinger(q, i, g[i])
      {
        assert ClosestFinger(p, i, g[i]);
      }
    }
    LiftFollowsTo(q, g, |g|);
  }

  // ---- Fingers added after a lift

  /** Of the contacts that were down i is the one closest to the virtual finger, and it did not jump. */
  predicate ClosestContact(p: Pad, j: Index, i: Index) {
    i < p.last && Dist(p, i, j) <= FINGER_DIST && forall k :: 0 <= k < p.last && k != i ==> Dist(p, i, j) < Dist(p, k, j)
  }

  /** Each touched virtual finger has a closest contact of its own. */
  predicate AllClosest(p: Pad, h: seq<Index>) {
    && |h| == MAX_FINGERS
    && (forall j :: 0 <= j < MAX_FINGERS && p.v[j].touch ==> ClosestContact(p, j, h[j]))
    && (forall j, k :: 0 <= j < k < MAX_FINGERS && p.v[j].touch && p.v[k].touch ==> h[j] != h[k])
  }

  lemma KeepStepFollows(p: Pad, m: Kept, j: Index, i: Index)
    requires Bounded(p) && OnlyMapDiffers(p, m.p) && p.v[j].touch && ClosestContact(p, j, i) && m.p.f[i].vf == -1
    requires m.far.dist <= FINGER_DIST
    ensures KeepStep(m, j).p == SetVf(m.p, i, j) && KeepStep(m, j).far.dist <= FINGER_DIST
  {
    var cost := KeepCost(m.p, j);
    DistFitsInt(p, i, j);
    forall k | 0 <= k < |cost|
      ensures cost[k] == if k < p.last && m.p.f[k].vf == -1 then Dist(p, k, j) else INT_MAX
    {
      SameDist(p, m.p, k, j);
    }
    StrictlyLeast(cost, i);
  }

  /** What the matching has done for the virtual fingers below n. */
  ghost predicate KeptSoFar(p: Pad, m: Kept, h: seq<Index>, n: nat)
    requires n <= |h| == MAX_FINGERS
  {
    && OnlyMapDiffers(p, m.p) && m.far.dist <= FINGER_DIST
    && (forall j :: 0 <= j < n && p.v[j].touch ==> m.p.f[h[j]].vf == j)
    && (forall j :: n <= j < MAX_FINGERS && p.v[j].touch ==> m.p.f[h[j]].vf == -1)
  }

  lemma KeptOneMore(p: Pad, m: Kept, h: seq<Index>, n: nat)
    requires Bounded(p) && AllClosest(p, h) && 0 < n <= MAX_FINGERS && KeptSoFar(p, m, h, n - 1) && p.v[n - 1].touch
    ensures KeptSoFar(p, KeepStep(m, n - 1), h, n)
  {
    assert ClosestContact(p, n - 1, h[n - 1]);
    KeepStepFollows(p, m, n - 1, h[n - 1]);
    SetVfOnlyMap(p, m.p, h[n - 1], n - 1);
  }

  lemma NoneKept(p: Pad, m: Kept, h: seq<Index>)
    requires |h| == MAX_FINGERS && m == Kept(ClearMap(p), Near(0, -1), Near(0, -1))
    ensures KeptSoFar(p, m, h, 0)
  {
  }

  lemma {:induction false} KeptFollowsTo(p: Pad, h: seq<Index>, n: nat)
    requires Bounded(p) && AllClosest(p, h) && n <= MAX_FINGERS
    ensures KeptSoFar(p, MatchKept(p, n), h, n)
  {
    if n == 0 {
      NoneKept(p, MatchKept(p, n), h);
    } else {
      var m := MatchKept(p, n - 1);
      KeptFollowsTo(p, h, n - 1);
      if p.v[n - 1].touch {
        KeptOneMore(p, m, h, n);
      }
    }
  }

  lemma AssignFrame(p: Pad, i: Index)
    ensures forall k :: 0 <= k < MAX_FINGERS && k != i ==> AssignVirtualFinger(p, i).f[k] == p.f[k]
  {
  }

  /** New contacts are placed above the ones that were there, if none of these jumped. */
  lemma AddNewFollows(q: Pad, far: Near, second: Near)
    requires 0 < q.last < q.clamped && far.index < MAX_FINGERS && second.index < MAX_FINGERS && !Far(far)
    requires !MisplacesAfterLift(q.last, q.clamped)
    ensures forall k :: 0 <= k < q.last ==> AddNew(q, far, second).f[k].vf == q.f[k].vf
  {
    if q.clamped == 3 {
      AddThirdFollows(q, far);
    } else if q.clamped >= 4 {
      AddFourthFollows(q, far, second);
      CloneAndAssignFrame(AddFourth(q, far, second), 4);
    }
  }

  lemma AddThirdFollows(q: Pad, far: Near)
    requires far.index < MAX_FINGERS && !Far(far)
    ensures forall k :: 0 <= k < 2 ==> AddThird(q, far).f[k].vf == q.f[k].vf
  {
    var m := MeanZw(q, 2);
    var u := m.f[UpperIndex(m)];
    AssignFrame(m.(f := m.f[2 := m.f[2].(x := u.x, y := u.y)]), 2);
  }

  lemma AddFourthFollows(q: Pad, far: Near, second: Near)
    requires 0 < q.last < 4 && far.index < MAX_FINGERS && second.index < MAX_FINGERS && !Far(far)
    ensures forall k :: 0 <= k < q.last ==> AddFourth(q, far, second).f[k].vf == q.f[k].vf
  {
    var m := MeanZw(MeanZw(q, 2), 3);
    if q.last < 3 {
      CloneAndAssignFrame(m, 2);
      CloneAndAssignFrame(CloneAndAssign(m, 2), 3);
    } else {
      CloneAndAssignFrame(CloneUpper(m, 2), 3);
    }
  }

  lemma RealFollows(p: Pad, h: seq<Index>)
    requires Bounded(p) && AllClosest(p, h)
    ensures forall j :: 0 <= j < MAX_FINGERS && p.v[j].touch ==> KeptAndReal(p).f[h[j]].vf == j
    ensures MatchKept(p, |p.v|).far.dist <= FINGER_DIST
  {
    KeptFollowsTo(p, h, |p.v|);
    var m := MatchKept(p, |p.v|).p;
    AssignFrame(m, 0);
    AssignFrame(AssignIfUnmapped(m, 0), 1);
    hide MatchKept, AssignVirtualFinger, ClosestContact, Bounded;
  }

  /** An addition after a lift leaves every finger that did not jump, and is still closest, with its number. */
  lemma AddAfterLiftFollows(p: Pad, h: seq<Index>)
    requires Bounded(p) && Counted(p, p.last) && 0 < p.last < p.clamped && !MisplacesAfterLift(p.last, p.clamped)
    requires AllClosest(p, h)
    ensures forall j :: 0 <= j < MAX_FINGERS && p.v[j].touch ==> AddAfterLift(p).f[h[j]].vf == j
  {
    var m := MatchKept(p, |p.v|);
    RealFollows(p, h);
    KeptRest(p, |p.v|);
    AddNewFollows(KeptAndReal(p), m.far, m.second);
    assert AddAfterLift(p).f == AddNew(KeptAndReal(p), m.far, m.second).f;
    forall j | 0 <= j < MAX_FINGERS && p.v[j].touch
      ensures AddAfterLift(p).f[h[j]].vf == j
    {
      assert ClosestContact(p, j, h[j]);
    }
  }

  // ---- Over a whole packet

  /** With another count only the packet's own contact has changed before the fingers are renumbered. */
  lemma CountChangedPrepares(t: Pad, env: Env)
    requires t.clamped != t.last
    ensures Prepared(t, env) == t
  {
  }

  /** The map after a packet that changes the count is the one of the renumbering. */
  lemma MapOfPacket(p: Pad, b: Packet, env: Env)
    requires var t := TakeNormal(p, b, env); IsNormal(b) && t.clamped != t.last && !MustSkip(t)
    ensures Handle(p, b, env).p.f == Remap(TakeNormal(p, b, env)).f
  {
    var t := TakeNormal(p, b, env);
    CountChangedPrepares(t, env);
    FilterKeeps(Remap(t), Remap(t).clamped);
  }

  /** A lift leaves each contact that is closest to a virtual finger of its own with that number. */
  lemma LiftedIdsFollow(p: Pad, b: Packet, env: Env, g: seq<Index>)
    requires Bounded(p) && IsNormal(b)
    requires var t := TakeNormal(p, b, env); t.clamped < t.last && |g| == t.clamped && StayClosest(t, g)
    ensures forall i :: 0 <= i < |g| ==> Handle(p, b, env).p.f[i].vf == g[i]
  {
    var t := TakeNormal(p, b, env);
    MapOfPacket(p, b, env);
    TakeNormalBounded(p, b, env);
    LiftFollows(t, g);
    LiftIsRemap(t);
  }

  lemma LiftIsRemap(t: Pad)
    requires t.clamped < t.last
    ensures Remap(t) == LiftFingers(t)
  {
  }

  lemma UnskippedClosest(t: Pad, h: seq<Index>)
    requires AllClosest(t, h)
    ensures AllClosest(t.(skipped := false), h)
  {
    var q := t.(skipped := false);
    forall j | 0 <= j < MAX_FINGERS && q.v[j].touch
      ensures ClosestContact(q, j, h[j])
    {
      assert ClosestContact(t, j, h[j]);
      forall k | 0 <= k < MAX_FINGERS
        ensures Dist(q, k, j) == Dist(t, k, j)
      {
      }
    }
  }

  /** An addition after a lift leaves every finger that did not jump, and is still closest, with its number. */
  lemma AddedIdsFollow(p: Pad, b: Packet, env: Env, h: seq<Index>)
    requires AtRest(p) && IsNormal(b)
    requires var t := TakeNormal(p, b, env);
             t.hadLift && 0 < t.last < t.clamped && !MustSkip(t) && !Misplaces(t, t.clamped) && AllClosest(t, h)
    ensures forall j :: 0 <= j < MAX_FINGERS && p.v[j].touch ==> Handle(p, b, env).p.f[h[j]].vf == j
  {
    TakeNormalKeeps(p, b, env);
    MapOfPacket(p, b, env);
    AddedRemapFollows(TakeNormal(p, b, env), h);
  }

  lemma AddedRemapFollows(t: Pad, h: seq<Index>)
    requires AtRest(t) && t.hadLift && 0 < t.last < t.clamped && !Misplaces(t, t.clamped) && AllClosest(t, h)
    ensures forall j :: 0 <= j < MAX_FINGERS && t.v[j].touch ==> Remap(t).f[h[j]].vf == j
  {
    var q := if t.clamped >= 3 then t.(skipped := false) else t;
    UnskippedClosest(t, h);
    AddAfterLiftFollows(q, h);
    assert Remap(t) == AddAfterLift(q);
  }

  /** Without a lift the newest finger shows up as contact 1, so contact 1 moves on to the first new place with its number,
      and all other contacts keep theirs. */
  predicate MovesOn(p: Pad, q: Pad) {
    && (forall i :: 0 <= i < p.last && (i != 1 || p.last == 1) ==> q.f[i].vf == p.f[i].vf)
    && (2 <= p.last < MAX_FINGERS ==> q.f[p.last].vf == p.f[1].vf)
  }

  lemma FreshMovesOn(p: Pad)
    requires Counted(p, p.last) && 0 < p.last < p.clamped && !MisplacesFresh(p.last, p.clamped)
    ensures MovesOn(p, AddFresh(p))
  {
    if p.last == 1 {
      AddFreshToOneIs(p);
      AssignFrame(p, 1);
      CloneMoreKeepsReal(AssignVirtualFinger(p, 1), p.clamped);
    } else {
      SwapMaps(p, p.last, 1);
      if p.clamped == p.last + 2 {
        CloneAndAssignFrame(SwapFingers(p, p.last, 1), 3);
      }
    }
  }

  lemma {:induction false} CloneMoreKeepsReal(p: Pad, n: nat)
    requires 2 <= n <= MAX_FINGERS
    ensures CloneMore(p, n).f[0] == p.f[0] && CloneMore(p, n).f[1] == p.f[1]
  {
    if n > 2 {
      CloneMoreKeepsReal(p, n - 1);
      CloneAndAssignFrame(CloneMore(p, n - 1), n - 1);
    }
  }

  lemma FreshIdsFollow(p: Pad, b: Packet, env: Env)
    requires AtRest(p) && IsNormal(b)
    requires var t := TakeNormal(p, b, env);
             !t.hadLift && 0 < t.last < t.clamped && !MustSkip(t) && !Misplaces(t, t.clamped)
    ensures MovesOn(p, Handle(p, b, env).p)
  {
    TakeNormalKeeps(p, b, env);
    MapOfPacket(p, b, env);
    FreshRemapMovesOn(TakeNormal(p, b, env));
  }

  lemma FreshRemapMovesOn(t: Pad)
    requires AtRest(t) && !t.hadLift && 0 < t.last < t.clamped && !Misplaces(t, t.clamped)
    ensures MovesOn(t, Remap(t))
  {
    var q := if t.clamped >= 3 then t.(skipped := false) else t;
    FreshMovesOn(q);
    assert Remap(t) == AddFresh(q);
  }

  /** With the same count every contact keeps its number. */
  lemma SameCountKeepsIds(p: Pad, b: Packet, env: Env)
    requires IsNormal(b) && Settled(TakeNormal(p, b, env)) == p.last
    ensures forall i :: 0 <= i < MAX_FINGERS ==> Handle(p, b, env).p.f[i].vf == p.f[i].vf
  {
    var t := TakeNormal(p, b, env);
    DragKeepsMap(t, env);
    PreparedRest(t, env);
    var u := Prepared(t, env);
    FilterKeeps(u, u.clamped);
    hide Prepared, FingerCount, RealFinger, ContactsUpTo, FilterFingers, Jumped, Dist;
  }
}
