/** Where the tracker puts contacts: how imaginary ones move, where added ones appear, and when a finger is let go. */
module SynapticsMotion {
  import opened SimpleAverages
  import opened SynapticsPad
  import opened SynapticsMap
  import opened SynapticsSteps
  import opened SynapticsRun
  import opened SynapticsTheorems

  // ---- Displacements

  /** How far a contact has come since the newest sample of its virtual finger. */
  function MoveX(t: Pad, i: Index): int
    requires 0 <= t.f[i].vf
  {
    var xs := t.v[t.f[i].vf].xs;
    t.f[i].x - if xs == [] then 0 else xs[|xs| - 1]
  }

  function MoveY(t: Pad, i: Index): int
    requires 0 <= t.f[i].vf
  {
    var ys := t.v[t.f[i].vf].ys;
    t.f[i].y - if ys == [] then 0 else ys[|ys| - 1]
  }

  /** m is the mean of a and b, rounded toward zero: it lies between them, and twice m is at most one off their sum. */
  predicate IsMean(m: int, a: int, b: int) {
    && (a <= m <= b || b <= m <= a)
    && (if a + b >= 0 then a + b - 1 <= 2 * m <= a + b else a + b <= 2 * m <= a + b + 1)
  }

  lemma TruncIsMean(a: int, b: int)
    ensures IsMean(TruncDiv(a + b, 2), a, b)
  {
  }

  /** The limits keep a coordinate that is inside; below the lower one it becomes the lower one and above the upper one the
      upper one, which also takes negative ones. */
  predicate Limited(c: int, raw: int, lo: nat, hi: nat) {
    if raw < 0 then c == hi else if raw < lo then c == lo else if raw > hi then c == hi else c == raw
  }

  lemma ClipLimits(raw: int, lo: nat, hi: nat)
    requires lo <= hi < 0x8000_0000 && -0x8000_0000 <= raw < 0x8000_0000
    ensures Limited(ClipNoUpdate(raw, lo, hi), raw, lo, hi)
  {
  }

  predicate ProperLimits(env: Env) {
    env.minX <= env.maxX <= COORD && env.minY <= env.maxY <= COORD
  }

  /** Contacts 0 and 1 are real and mapped, and as many fingers are counted as before. */
  predicate Dragging(t: Pad) {
    t.clamped == t.last && t.clamped >= 3 && 0 <= t.f[0].vf && 0 <= t.f[1].vf
  }

  lemma SameCountRenumbers(t: Pad, env: Env)
    requires t.clamped == t.last && t.clamped >= 3
    ensures Renumber(t, env).ready && Renumber(t, env).p.f == DragImaginary(t, env).f
  {
    DragKeepsMap(t, env);
    var u := Prepared(t, env);
    FilterKeeps(u, u.clamped);
  }

  /** With three fingers the third one moves by the mean of the two real moves, kept inside the limits; its pressure and
      width are the means of theirs; and the real ones stay where the hardware put them. */
  lemma ThirdMovesWithBoth(t: Pad, env: Env) returns (dx: int, dy: int)
    requires Dragging(t) && t.clamped == 3 && Bounded(t) && ProperLimits(env)
    ensures IsMean(dx, MoveX(t, 0), MoveX(t, 1)) && IsMean(dy, MoveY(t, 0), MoveY(t, 1))
    ensures var r := Renumber(t, env).p;
            && Limited(r.f[2].x, t.f[2].x + dx, env.minX, env.maxX) && Limited(r.f[2].y, t.f[2].y + dy, env.minY, env.maxY)
            && IsMean(r.f[2].z, t.f[0].z, t.f[1].z) && IsMean(r.f[2].w, t.f[0].w, t.f[1].w)
            && (forall i :: 0 <= i < MAX_FINGERS && i != 2 ==> r.f[i] == t.f[i])
  {
    hide Renumber, DragImaginary, ClipNoUpdate, TruncDiv, IsMean, Limited, Bounded, Newest, MoveX, MoveY;
    SameCountRenumbers(t, env);
    dx, dy := TruncDiv(MoveX(t, 0) + MoveX(t, 1), 2), TruncDiv(MoveY(t, 0) + MoveY(t, 1), 2);
    TruncIsMean(MoveX(t, 0), MoveX(t, 1));
    TruncIsMean(MoveY(t, 0), MoveY(t, 1));
    TruncIsMean(t.f[0].z, t.f[1].z);
    TruncIsMean(t.f[0].w, t.f[1].w);
    ThirdIs(t, env, dx, dy);
    MovesSmall(t, 0);
    MovesSmall(t, 1);
    PlaceSmall(t, 2);
    ClippedMean(t.f[2].x, MoveX(t, 0), MoveX(t, 1), dx, env.minX, env.maxX);
    ClippedMean(t.f[2].y, MoveY(t, 0), MoveY(t, 1), dy, env.minY, env.maxY);
  }

  lemma PlaceSmall(t: Pad, i: Index)
    requires Bounded(t)
    ensures Small(t.f[i].x) && Small(t.f[i].y)
  {
  }

  lemma MovesSmall(t: Pad, i: Index)
    requires Bounded(t) && 0 <= t.f[i].vf
    ensures -2 * COORD <= MoveX(t, i) <= 2 * COORD && -2 * COORD <= MoveY(t, i) <= 2 * COORD
  {
  }

  lemma ThirdIs(t: Pad, env: Env, dx: int, dy: int)
    requires Dragging(t) && t.clamped == 3
    requires dx == TruncDiv(MoveX(t, 0) + MoveX(t, 1), 2) && dy == TruncDiv(MoveY(t, 0) + MoveY(t, 1), 2)
    ensures var f := DragImaginary(t, env).f;
            && f[2] == Finger(ClipNoUpdate(t.f[2].x + dx, env.minX, env.maxX), ClipNoUpdate(t.f[2].y + dy, env.minY, env.maxY),
                              TruncDiv(t.f[0].z + t.f[1].z, 2), TruncDiv(t.f[0].w + t.f[1].w, 2), t.f[2].vf)
            && (forall i :: 0 <= i < MAX_FINGERS && i != 2 ==> f[i] == t.f[i])
  {
    hide ClipNoUpdate, TruncDiv;
  }

  lemma ClippedMean(c: int, a: int, b: int, m: int, lo: nat, hi: nat)
    requires Small(c) && -2 * COORD <= a <= 2 * COORD && -2 * COORD <= b <= 2 * COORD && IsMean(m, a, b) && lo <= hi <= COORD
    ensures Limited(ClipNoUpdate(c + m, lo, hi), c + m, lo, hi)
  {
    ClipLimits(c + m, lo, hi);
  }

  predicate MovesAs(t: Pad, env: Env, r: Pad, k: Index, u: Index)
    requires 0 <= t.f[u].vf
  {
    && Limited(r.f[k].x, t.f[k].x + MoveX(t, u), env.minX, env.maxX)
    && Limited(r.f[k].y, t.f[k].y + MoveY(t, u), env.minY, env.maxY)
    && r.f[k].z == t.f[u].z && r.f[k].w == t.f[u].w
  }

  /** With four or five fingers every imaginary one moves exactly as the real contact further down the pad, which the larger
      y is, and takes its pressure and width. */
  predicate MovesWith(t: Pad, env: Env, r: Pad, u: Index)
    requires 0 <= t.f[u].vf
  {
    && (forall k :: 2 <= k < t.clamped ==> MovesAs(t, env, r, k, u))
    && (forall i :: 0 <= i < MAX_FINGERS && (i < 2 || t.clamped <= i) ==> r.f[i] == t.f[i])
  }

  lemma OthersMoveWithUpper(t: Pad, env: Env)
    requires Dragging(t) && t.clamped >= 4 && Bounded(t) && ProperLimits(env)
    ensures MovesWith(t, env, Renumber(t, env).p, if t.f[1].y > t.f[0].y then 1 else 0)
  {
    SameCountRenumbers(t, env);
    var u: Index := if t.f[1].y > t.f[0].y then 1 else 0;
    var r := Renumber(t, env).p;
    assert UpperIndex(t) == u;
    DragIs(t, env);
    hide Renumber, DragImaginary, Dragged, Limited, Bounded, Newest;
    forall k | 2 <= k < t.clamped
      ensures MovesAs(t, env, r, k, u)
    {
      DraggedLimited(t, env, k, u);
    }
  }

  /** With four or five fingers. */
  lemma DragIs(t: Pad, env: Env)
    requires Dragging(t) && t.clamped >= 4
    ensures var d, u := DragImaginary(t, env), UpperIndex(t);
            && (forall k :: 2 <= k < t.clamped ==> d.f[k] == Dragged(t.f[k], t.f[u], t.v[t.f[u].vf], env))
            && (forall i :: 0 <= i < MAX_FINGERS && (i < 2 || t.clamped <= i) ==> d.f[i] == t.f[i])
  {
  }

  lemma DraggedLimited(t: Pad, env: Env, k: Index, u: Index)
    requires Bounded(t) && ProperLimits(env) && 0 <= t.f[u].vf
    ensures var f := Dragged(t.f[k], t.f[u], t.v[t.f[u].vf], env);
            && Limited(f.x, t.f[k].x + MoveX(t, u), env.minX, env.maxX)
            && Limited(f.y, t.f[k].y + MoveY(t, u), env.minY, env.maxY) && f.z == t.f[u].z && f.w == t.f[u].w
  {
    ClipLimits(t.f[k].x + MoveX(t, u), env.minX, env.maxX);
    ClipLimits(t.f[k].y + MoveY(t, u), env.minY, env.maxY);
  }

  // ---- Over a packet

  lemma HandledFingers(p: Pad, b: Packet, env: Env)
    requires IsNormal(b)
    ensures Handle(p, b, env).p.f == Renumber(TakeNormal(p, b, env), env).p.f
  {
  }

  /** The same for a whole packet of three fingers: contact 0 is the packet's own, and contact 2 follows. */
  lemma ThreeFingersMove(p: Pad, b: Packet, env: Env) returns (dx: int, dy: int)
    requires IsNormal(b) && Bounded(TakeNormal(p, b, env)) && ProperLimits(env)
    requires var t := TakeNormal(p, b, env); Dragging(t) && t.clamped == 3
    ensures var t, q := TakeNormal(p, b, env), Handle(p, b, env).p;
            && IsMean(dx, MoveX(t, 0), MoveX(t, 1)) && IsMean(dy, MoveY(t, 0), MoveY(t, 1))
            && Limited(q.f[2].x, p.f[2].x + dx, env.minX, env.maxX) && Limited(q.f[2].y, p.f[2].y + dy, env.minY, env.maxY)
  {
    HandledFingers(p, b, env);
    dx, dy := ThirdMovesWithBoth(TakeNormal(p, b, env), env);
  }

  // ---- A finger that jumps

  /** A single finger counted twice is let go if and only if it moved further than 1000 units in one packet. */
  lemma JumpLetsGo(t: Pad, env: Env)
    requires t.clamped == t.last == 1 && 0 <= t.f[0].vf
    ensures var dx, dy, r := MoveX(t, 0), MoveY(t, 0), Renumber(t, env).p;
            && Renumber(t, env).ready
            && (dx * dx + dy * dy > 1000000 ==> r.clamped == 0 && forall i :: 0 <= i < MAX_FINGERS ==>
                  r.f[i].vf == -1 && r.v[i] == VirtualFinger([], [], 0, 0, false))
            && (dx * dx + dy * dy <= 1000000 ==> r.clamped == 1 && r.f == t.f)
  {
    PreparedRest(t, env);
    JumpedFar(t);
    var u := Prepared(t, env);
    if Jumped(t) {
      assert Remap(u) == LiftFingers(u);
      assert LiftFingers(u) == FreeAndMark(MatchLifted(u.(hadLift := false), 0).p);
      assert FilterFingers(Remap(u), 0) == Remap(u);
    } else {
      FilterKeeps(u, u.clamped);
    }
  }

  lemma JumpedFar(t: Pad)
    requires t.clamped == t.last == 1 && 0 <= t.f[0].vf
    ensures Jumped(t) <==> MoveX(t, 0) * MoveX(t, 0) + MoveY(t, 0) * MoveY(t, 0) > 1000000
  {
  }

  // ---- Where added contacts appear

  /** At the place of another contact. */
  predicate SamePlace(a: Finger, b: Finger) {
    a.x == b.x && a.y == b.y && a.z == b.z && a.w == b.w
  }

  /** The real contact with the larger y. */
  function Upper(p: Pad): Finger {
    if p.f[1].y > p.f[0].y then p.f[1] else p.f[0]
  }

  /** At the average of the windows of the virtual finger that a contact had. */
  predicate AtAverage(a: Finger, p: Pad, j: int) {
    0 <= j < MAX_FINGERS && a.x == Average(p.v[j].xs) && a.y == Average(p.v[j].ys)
  }

  lemma ClonePlaces(p: Pad, i: Index)
    requires i >= 2
    ensures SamePlace(CloneAndAssign(p, i).f[i], Upper(p))
    ensures SamePlace(CloneUpper(p, i).f[i], Upper(p))
    ensures Upper(CloneAndAssign(p, i)) == Upper(p)
    ensures forall k :: 0 <= k < MAX_FINGERS && k != i ==> SamePlace(CloneAndAssign(p, i).f[k], p.f[k])
  {
  }

  /** From no finger: all contacts that are not real appear at the upper real one. */
  lemma {:induction false} FirstPlaces(p: Pad, n: nat)
    requires n <= MAX_FINGERS
    ensures var q := AddFirst(p, n);
            && SamePlace(q.f[0], p.f[0]) && SamePlace(q.f[1], p.f[1])
            && (forall i :: 2 <= i < n ==> SamePlace(q.f[i], Upper(p)))
            && (forall i :: n <= i < MAX_FINGERS ==> q.f[i] == p.f[i])
  {
    if n > 0 {
      FirstPlaces(p, n - 1);
    }
  }

  lemma {:induction false} MorePlaces(p: Pad, n: nat)
    requires 2 <= n <= MAX_FINGERS
    ensures var q := CloneMore(p, n);
            && (forall i :: 2 <= i < n ==> SamePlace(q.f[i], Upper(p))) && SamePlace(Upper(q), Upper(p))
            && SamePlace(q.f[0], p.f[0]) && SamePlace(q.f[1], p.f[1])
  {
    if n > 2 {
      MorePlaces(p, n - 1);
      ClonePlaces(CloneMore(p, n - 1), n - 1);
    }
  }

  lemma SwapPlaces(p: Pad, dst: Index, src: Index)
    requires 0 <= p.f[src].vf && dst != src
    ensures var q := SwapFingers(p, dst, src);
            && AtAverage(q.f[dst], p, p.f[src].vf) && q.f[dst].z == p.f[dst].z && q.f[dst].w == p.f[dst].w
            && (forall k :: 0 <= k < MAX_FINGERS && k != dst ==> SamePlace(q.f[k], p.f[k]))
  {
  }

  /** Without a lift: the first new place stands where contact 1 was on average, and a second one at the upper real contact;
      out of one finger all that are not real appear there. */
  predicate FreshPlaces(p: Pad, q: Pad)
    requires p.last < MAX_FINGERS
  {
    if p.last == 1 then forall i :: 2 <= i < p.clamped ==> SamePlace(q.f[i], Upper(p))
    else AtAverage(q.f[p.last], p, p.f[1].vf) && (p.last == 2 && p.clamped == 4 ==> SamePlace(q.f[3], Upper(p)))
  }

  lemma AddFreshPlaces(p: Pad)
    requires Counted(p, p.last) && 0 < p.last < p.clamped && !MisplacesFresh(p.last, p.clamped)
    ensures FreshPlaces(p, AddFresh(p))
  {
    if p.last == 1 {
      AddFreshToOneIs(p);
      MorePlaces(AssignVirtualFinger(p, 1), p.clamped);
    } else {
      SwapPlaces(p, p.last, 1);
      if p.clamped == p.last + 2 {
        ClonePlaces(SwapFingers(p, p.last, 1), 3);
      }
    }
  }

  /** After a lift, with the contact that jumped furthest: it stands for a new finger, and its old place, on average, is
      taken by the new contact; if none jumped, the new contacts appear at the upper real one. Pressure and width are the
      means of the real ones unless they are copied. */
  predicate ThirdPlaced(q: Pad, far: Near, r: Pad)
    requires far.index < MAX_FINGERS
  {
    && (if far.dist > 1000000 && far.index >= 0 then AtAverage(r.f[2], q, q.f[far.index].vf)
        else r.f[2].x == Upper(q).x && r.f[2].y == Upper(q).y)
    && IsMean(r.f[2].z, q.f[0].z, q.f[1].z) && IsMean(r.f[2].w, q.f[0].w, q.f[1].w)
  }

  lemma ThirdUpper(q: Pad, far: Near)
    requires far.index < 2 && !Far(far)
    ensures AddThird(q, far).f[2].x == Upper(q).x && AddThird(q, far).f[2].y == Upper(q).y
    ensures AddThird(q, far).f[2].z == MeanZw(q, 2).f[2].z && AddThird(q, far).f[2].w == MeanZw(q, 2).f[2].w
  {
  }

  lemma ThirdSwapped(q: Pad, far: Near)
    requires far.index < 2 && Far(far) && 0 <= q.f[far.index].vf
    ensures AtAverage(AddThird(q, far).f[2], q, q.f[far.index].vf)
    ensures AddThird(q, far).f[2].z == MeanZw(q, 2).f[2].z && AddThird(q, far).f[2].w == MeanZw(q, 2).f[2].w
  {
    SwapPlaces(MeanZw(q, 2), 2, far.index);
  }

  lemma MeansTaken(q: Pad, i: Index)
    ensures IsMean(MeanZw(q, i).f[i].z, q.f[0].z, q.f[1].z) && IsMean(MeanZw(q, i).f[i].w, q.f[0].w, q.f[1].w)
  {
    TruncIsMean(q.f[0].z, q.f[1].z);
    TruncIsMean(q.f[0].w, q.f[1].w);
  }

  lemma AddThirdPlaces(q: Pad, far: Near)
    requires far.index < 2 && (far.index >= 0 ==> 0 <= q.f[far.index].vf)
    ensures ThirdPlaced(q, far, AddThird(q, far))
  {
    hide IsMean, AtAverage;
    MeansTaken(q, 2);
    if Far(far) {
      ThirdSwapped(q, far);
    } else {
      ThirdUpper(q, far);
    }
    hide AddThird, MeanZw;
  }

  /** The third and fourth one together. */
  predicate BothPlaced(q: Pad, far: Near, second: Near, r: Pad)
    requires far.index < MAX_FINGERS && second.index < MAX_FINGERS
  {
    if far.dist > 1000000 && far.index >= 0 then
      && AtAverage(r.f[2], q, q.f[far.index].vf)
      && (if second.dist > 1000000 && second.index >= 0 then AtAverage(r.f[3], q, q.f[second.index].vf)
          else SamePlace(r.f[3], Upper(q)))
    else SamePlace(r.f[2], Upper(q)) && SamePlace(r.f[3], Upper(q))
  }

  lemma BothSwapped(q: Pad, far: Index, second: Index)
    requires Counted(q, 2) && far < 2 && second < 2 && far != second
    ensures var r := SwapFingers(SwapFingers(q, 2, far), 3, second);
            AtAverage(r.f[2], q, q.f[far].vf) && AtAverage(r.f[3], q, q.f[second].vf)
  {
    SwapPlaces(q, 2, far);
    SwapMaps(q, 2, far);
    SwapPlaces(SwapFingers(q, 2, far), 3, second);
  }

  lemma SwappedAndCloned(q: Pad, far: Index)
    requires Counted(q, 2) && far < 2
    ensures var r := CloneAndAssign(SwapFingers(q, 2, far), 3);
            AtAverage(r.f[2], q, q.f[far].vf) && SamePlace(r.f[3], Upper(q))
  {
    SwapPlaces(q, 2, far);
    ClonePlaces(SwapFingers(q, 2, far), 3);
  }

  lemma BothCloned(q: Pad)
    ensures var r := CloneAndAssign(CloneAndAssign(q, 2), 3); SamePlace(r.f[2], Upper(q)) && SamePlace(r.f[3], Upper(q))
  {
    ClonePlaces(q, 2);
    ClonePlaces(CloneAndAssign(q, 2), 3);
  }

  lemma AddBothPlaces(q: Pad, far: Near, second: Near)
    requires Counted(q, 2) && JumpedAmong(far, second, 2)
    ensures BothPlaced(q, far, second, AddThirdAndFourth(q, far, second))
  {
    hide SwapFingers, CloneAndAssign, AtAverage, SamePlace, Upper;
    if Far(far) {
      if Far(second) {
        BothSwapped(q, far.index, second.index);
      } else {
        SwappedAndCloned(q, far.index);
      }
    } else {
      BothCloned(q);
    }
  }

  /** The fourth one alone. */
  lemma AddFourthPlaces(q: Pad, far: Near)
    requires far.index < 3 && (far.index >= 0 ==> 0 <= q.f[far.index].vf)
    ensures var r := AddFourthOnly(q, far);
            if far.dist > 1000000 && far.index >= 0 then AtAverage(r.f[3], q, q.f[far.index].vf)
            else SamePlace(r.f[2], Upper(q)) && SamePlace(r.f[3], Upper(q))
  {
    if Far(far) {
      SwapPlaces(q, 3, far.index);
    } else {
      ClonePlaces(q, 2);
      ClonePlaces(CloneUpper(q, 2), 3);
    }
  }

  // ---- The whole addition after a lift

  /** Finding the fingers again moves no contact. */
  lemma {:induction false} KeptPlaces(p: Pad, n: nat)
    requires n <= MAX_FINGERS
    ensures forall i :: 0 <= i < MAX_FINGERS ==> SamePlace(MatchKept(p, n).p.f[i], p.f[i])
  {
    if n > 0 {
      hide KeepStep;
      KeptPlaces(p, n - 1);
      KeepStepPlaces(MatchKept(p, n - 1), n - 1);
    }
  }

  lemma KeepStepPlaces(m: Kept, j: Index)
    ensures forall i :: 0 <= i < MAX_FINGERS ==> SamePlace(KeepStep(m, j).p.f[i], m.p.f[i])
  {
    hide Nearest, KeepCost;
  }

  lemma AssignPlaces(p: Pad, i: int)
    ensures forall k :: 0 <= k < MAX_FINGERS ==> SamePlace(AssignVirtualFinger(p, i).f[k], p.f[k])
  {
  }

  lemma KeptAndRealPlaces(p: Pad)
    ensures forall i :: 0 <= i < MAX_FINGERS ==> SamePlace(KeptAndReal(p).f[i], p.f[i])
  {
    KeptPlaces(p, |p.v|);
    var m := MatchKept(p, |p.v|).p;
    AssignPlaces(m, 0);
    AssignPlaces(AssignIfUnmapped(m, 0), 1);
  }

  /** The fourth contact, with the third one if that is new too. */
  predicate FourthPlaced(q: Pad, far: Near, second: Near, r: Pad)
    requires far.index < MAX_FINGERS && second.index < MAX_FINGERS
  {
    if q.last < 3 then BothPlaced(q, far, second, r)
    else if far.dist > 1000000 && far.index >= 0 then AtAverage(r.f[3], q, q.f[far.index].vf)
    else SamePlace(r.f[2], Upper(q)) && SamePlace(r.f[3], Upper(q))
  }

  predicate RealStay(q: Pad, r: Pad) {
    SamePlace(r.f[0], q.f[0]) && SamePlace(r.f[1], q.f[1])
  }

  /** The contacts of an addition after a lift, given the map once the kept fingers are found and the two that jumped
      furthest. */
  predicate LiftPlaces(q: Pad, far: Near, second: Near, r: Pad)
    requires far.index < MAX_FINGERS && second.index < MAX_FINGERS
  {
    && RealStay(q, r)
    && (q.clamped == 3 ==> ThirdPlaced(q, far, r))
    && (q.clamped >= 4 ==> FourthPlaced(q, far, second, r))
    && (q.clamped == 5 ==> SamePlace(r.f[4], Upper(q)))
  }

  lemma ThirdsOnly(q: Pad)
    ensures var m := MeanZw(MeanZw(q, 2), 3);
            m.v == q.v && Upper(m) == Upper(q) && RealStay(q, m) && m.last == q.last
            && forall i :: 0 <= i < MAX_FINGERS ==> m.f[i].vf == q.f[i].vf
  {
  }

  lemma FourthPlacedAlike(m: Pad, q: Pad, far: Near, second: Near, r: Pad)
    requires far.index < MAX_FINGERS && second.index < MAX_FINGERS && FourthPlaced(m, far, second, r)
    requires m.v == q.v && Upper(m) == Upper(q) && m.last == q.last
    requires forall i :: 0 <= i < MAX_FINGERS ==> m.f[i].vf == q.f[i].vf
    ensures FourthPlaced(q, far, second, r)
  {
  }

  lemma BothReal(m: Pad, far: Near, second: Near)
    requires far.index < 2 && second.index < 2
    ensures RealStay(m, AddThirdAndFourth(m, far, second))
  {
    if Far(far) {
      SwapReal(m, 2, far.index);
      var third := SwapFingers(m, 2, far.index);
      SwapReal(third, 3, second.index);
      ClonePlaces(third, 3);
    } else {
      ClonePlaces(m, 2);
      ClonePlaces(CloneAndAssign(m, 2), 3);
    }
  }

  lemma SwapReal(p: Pad, dst: Index, src: int)
    requires dst >= 2 && src < MAX_FINGERS
    ensures src >= 0 ==> RealStay(p, SwapFingers(p, dst, src))
  {
  }

  lemma FourthReal(m: Pad, far: Near)
    requires far.index < 3
    ensures RealStay(m, AddFourthOnly(m, far))
  {
    SwapReal(m, 3, far.index);
    ClonePlaces(m, 2);
    ClonePlaces(CloneUpper(m, 2), 3);
  }

  lemma FourthPlaces(q: Pad, far: Near, second: Near)
    requires 1 <= q.last <= 3 && Counted(q, Max(2, q.last)) && JumpedAmong(far, second, q.last)
    ensures FourthPlaced(q, far, second, AddFourth(q, far, second)) && RealStay(q, AddFourth(q, far, second))
  {
    var m := MeanZw(MeanZw(q, 2), 3);
    ThirdsOnly(q);
    MeanZwCounted(q, 2, Max(2, q.last));
    MeanZwCounted(MeanZw(q, 2), 3, Max(2, q.last));
    if q.last < 3 {
      AddBothPlaces(m, far, second);
      BothReal(m, far, second);
    } else {
      AddFourthPlaces(m, far);
      FourthReal(m, far);
    }
    hide MeanZw, AddThirdAndFourth, AddFourthOnly, AtAverage, Counted;
    FourthPlacedAlike(m, q, far, second, AddFourth(q, far, second));
  }

  lemma FifthPlaces(q: Pad, far: Near, second: Near)
    requires 1 <= q.last <= 3 && Counted(q, Max(2, q.last)) && JumpedAmong(far, second, q.last) && q.clamped == 5
    ensures LiftPlaces(q, far, second, CloneAndAssign(AddFourth(q, far, second), 4))
  {
    hide AddFourth, CloneAndAssign, AtAverage, Counted;
    FourthPlaces(q, far, second);
    ClonePlaces(AddFourth(q, far, second), 4);
    CloneAndAssignFrame(AddFourth(q, far, second), 4);
  }

  lemma ThirdReal(q: Pad, far: Near)
    requires far.index < 2
    ensures RealStay(q, AddThird(q, far))
  {
    SwapReal(MeanZw(q, 2), 2, far.index);
  }

  lemma NewPlaces(q: Pad, far: Near, second: Near)
    requires 0 < q.last < q.clamped && !MisplacesAfterLift(q.last, q.clamped)
    requires Counted(q, Max(2, q.last)) && JumpedAmong(far, second, q.last)
    ensures LiftPlaces(q, far, second, AddNew(q, far, second))
  {
    hide AddFourth, AddThird, ThirdPlaced, FourthPlaced, Counted;
    if q.clamped == 3 {
      CountedMapped(q, far.index);
      AddThirdPlaces(q, far);
      ThirdReal(q, far);
    } else if q.clamped == 4 {
      FourthPlaces(q, far, second);
    } else if q.clamped == 5 {
      FifthPlaces(q, far, second);
    }
  }

  lemma CountedMapped(q: Pad, i: int)
    requires Counted(q, Max(2, q.last)) && i < q.last <= MAX_FINGERS
    ensures i >= 0 ==> 0 <= q.f[i].vf
  {
  }

  /** Over the whole addition after a lift: the contacts appear there, and real ones stay. */
  lemma AddAfterLiftPlaces(t: Pad)
    requires Bounded(t) && Counted(t, t.last) && 0 < t.last < t.clamped && !MisplacesAfterLift(t.last, t.clamped)
    ensures var m, q := MatchKept(t, |t.v|), KeptAndReal(t);
            && LiftPlaces(q, m.far, m.second, AddedAfterLift(t)) && AddAfterLift(t).f == AddedAfterLift(t).f
            && (forall i :: 0 <= i < MAX_FINGERS ==> SamePlace(q.f[i], t.f[i]))
  {
    var m, q := MatchKept(t, |t.v|), KeptAndReal(t);
    KeptRest(t, |t.v|);
    KeptCounted(t);
    KeptAndRealCounted(t);
    KeptAndRealPlaces(t);
    NewPlaces(q, m.far, m.second);
    assert AddAfterLift(t) == FreeAndMark(AddedAfterLift(t));
  }

  // ---- Which contact jumped furthest

  /** Of the contacts found again for the virtual fingers below n, the one remembered came furthest, and the other one came
      furthest before it. */
  ghost predicate Records(p: Pad, m: Kept, n: nat) {
    && 0 <= m.second.dist <= m.far.dist
    && (forall i :: 0 <= i < MAX_FINGERS && 0 <= m.p.f[i].vf ==> m.p.f[i].vf < n && Dist(p, i, m.p.f[i].vf) <= m.far.dist)
    && (m.far.index >= 0 ==> RecordOf(p, m, m.far))
    && (m.far.index < 0 ==> m.far.dist == 0 && m.second.index < 0)
    && (m.second.index >= 0 ==> RecordOf(p, m, m.second) && m.p.f[m.second.index].vf < m.p.f[m.far.index].vf)
    && (m.second.index < 0 ==> m.second.dist == 0)
    && (forall i :: 0 <= i < MAX_FINGERS && m.far.index >= 0 && 0 <= m.p.f[i].vf < m.p.f[m.far.index].vf ==>
          Dist(p, i, m.p.f[i].vf) <= m.second.dist)
  }

  predicate RecordOf(p: Pad, m: Kept, r: Near) {
    0 <= r.index < MAX_FINGERS && 0 <= m.p.f[r.index].vf && r.dist == Dist(p, r.index, m.p.f[r.index].vf)
  }

  lemma DistanceKept(p: Pad, q: Pad, i: Index, j: Index)
    requires OnlyMapDiffers(p, q)
    ensures Dist(q, i, j) == Dist(p, i, j)
  {
  }

  lemma {:induction false} KeptOnlyMap(p: Pad, n: nat)
    requires n <= MAX_FINGERS
    ensures OnlyMapDiffers(p, MatchKept(p, n).p)
  {
    if n > 0 {
      KeptOnlyMap(p, n - 1);
      KeepStepOnlyMap(p, MatchKept(p, n - 1), n - 1);
    }
  }

  lemma KeepStepOnlyMap(p: Pad, m: Kept, j: Index)
    requires OnlyMapDiffers(p, m.p)
    ensures OnlyMapDiffers(p, KeepStep(m, j).p)
  {
    var i := Nearest(KeepCost(m.p, j)).index;
    if i >= 0 {
      SetVfOnlyMap(p, m.p, i, j);
    }
  }

  lemma RecordsNext(p: Pad, m: Kept, j: Index)
    requires Bounded(p) && OnlyMapDiffers(p, m.p) && Records(p, m, j)
    ensures Records(p, KeepStep(m, j), j + 1)
  {
    var c := Nearest(KeepCost(m.p, j));
    if m.p.v[j].touch && c.index >= 0 {
      FoundFree(m, j);
      DistanceKept(p, m.p, c.index, j);
      DistFitsInt(p, c.index, j);
      var q := SetVf(m.p, c.index, j);
      assert forall i :: 0 <= i < MAX_FINGERS ==> q.f[i].vf == if i == c.index then j else m.p.f[i].vf;
      hide Dist, KeepCost, Nearest, Bounded, SetVf;
    }
  }

  lemma FoundFree(m: Kept, j: Index)
    requires Nearest(KeepCost(m.p, j)).index >= 0
    ensures var c := Nearest(KeepCost(m.p, j)); m.p.f[c.index].vf == -1 && c.dist == Dist(m.p, c.index, j)
  {
  }

  /** After the search for the fingers that were down. */
  lemma {:induction false} FurthestIsRemembered(p: Pad, n: nat)
    requires Bounded(p) && n <= MAX_FINGERS
    ensures Records(p, MatchKept(p, n), n)
  {
    if n > 0 {
      FurthestIsRemembered(p, n - 1);
      KeptOnlyMap(p, n - 1);
      RecordsNext(p, MatchKept(p, n - 1), n - 1);
    }
  }

  // ---- Windows of new fingers

  predicate Afresh(v: VirtualFinger) {
    v.xs == [] && v.ys == []
  }

  /** Every touched virtual finger was touched before and has its windows still, or starts with empty ones. */
  predicate KeptOrFresh(p: Pad, q: Pad) {
    forall j :: 0 <= j < MAX_FINGERS && q.v[j].touch ==>
      Afresh(q.v[j]) || (p.v[j].touch && q.v[j].xs == p.v[j].xs && q.v[j].ys == p.v[j].ys)
  }

  lemma AssignFresh(p: Pad, i: int)
    ensures KeptOrFresh(p, AssignVirtualFinger(p, i))
  {
  }

  lemma SwapFresh(p: Pad, dst: Index, src: Index)
    ensures KeptOrFresh(p, SwapFingers(p, dst, src))
  {
  }

  lemma {:induction false} CloneMoreFresh(p: Pad, n: nat)
    requires 2 <= n <= MAX_FINGERS
    ensures KeptOrFresh(p, CloneMore(p, n))
  {
    if n > 2 {
      CloneMoreFresh(p, n - 1);
      AssignFresh(CloneUpper(CloneMore(p, n - 1), n - 1), n - 1);
      hide AssignVirtualFinger;
    }
  }

  lemma {:induction false} AddFirstFresh(p: Pad, n: nat)
    requires n <= MAX_FINGERS
    ensures KeptOrFresh(p, AddFirst(p, n))
    ensures forall i :: 0 <= i < n ==> Afresh(AddFirst(p, n).v[i])
  {
    if n > 0 {
      AddFirstFresh(p, n - 1);
    }
  }

  lemma AddFreshFresh(p: Pad)
    requires 0 < p.last < p.clamped
    ensures KeptOrFresh(p, AddFresh(p))
  {
    hide AssignVirtualFinger, SwapFingers, CloneMore;
    var swapped, given := SwapFingers(p, p.last, 1), AssignVirtualFinger(p, 1);
    SwapFresh(p, p.last, 1);
    AssignFresh(CloneUpper(swapped, 3), 3);
    AssignFresh(p, 1);
    CloneMoreFresh(given, p.clamped - p.last + 1);
  }

  /** No virtual finger has samples, pressure or width. */
  predicate Forgotten(r: Pad) {
    forall j :: 0 <= j < MAX_FINGERS ==> r.v[j] == VirtualFinger([], [], 0, 0, r.v[j].touch)
  }

  /** Marking forgets everything but the touches. */
  lemma MarkingForgets(p: Pad, from: Pad)
    ensures Forgotten(FreeAndMark(p)) && KeptOrFresh(from, FreeAndMark(p))
  {
  }

  lemma SameVirtualsFresh(p: Pad, q: Pad, r: Pad)
    requires q.v == p.v && KeptOrFresh(q, r)
    ensures KeptOrFresh(p, r)
  {
  }

  lemma NothingNewFresh(p: Pad)
    ensures KeptOrFresh(p, p)
  {
  }

  /** No branch of the renumbering lets a new finger take over the samples of an earlier one; the branches that mark leave no
      samples at all. */
  lemma RemapFresh(p: Pad)
    ensures KeptOrFresh(p, Remap(p))
    ensures p.clamped < p.last || (0 < p.last < p.clamped && p.hadLift) ==> Forgotten(Remap(p))
  {
    hide AddFirst, AddFresh, MatchKept, MatchLifted, AddNew, KeptAndReal, FreeAndMark, KeptOrFresh, Forgotten;
    if p.clamped == p.last {
      NothingNewFresh(p);
    } else {
      var q := if p.clamped > p.last && p.clamped >= 3 then p.(skipped := false) else p;
      if p.last == 0 {
        AddFirstFresh(q, p.clamped);
        SameVirtualsFresh(p, q, Remap(p));
      } else if p.clamped < p.last {
        MarkingForgets(MatchLifted(q.(hadLift := q.clamped > 0), q.clamped).p, p);
      } else if p.hadLift {
        var m := MatchKept(q, |q.v|);
        MarkingForgets(AddNew(KeptAndReal(q), m.far, m.second), p);
      } else {
        AddFreshFresh(q);
        SameVirtualsFresh(p, q, Remap(p));
      }
    }
  }

  /** The only sample of contact i's virtual finger is its position. */
  predicate OneSample(r: Pad, i: Index)
  {
    && 0 <= r.f[i].vf && r.v[r.f[i].vf].xs == [r.f[i].x] && r.v[r.f[i].vf].ys == [r.f[i].y]
  }

  /** Over a renumbering that misplaces nothing a contact whose virtual finger was not touched before has one sample, its own
      position; and so has every contact after fingers were lifted or added after a lift. */
  lemma NewFingersStartAfresh(t: Pad, env: Env, i: Index)
    requires AtRest(t) && LimitsSmall(env) && Renumber(t, env).ready && !(Changes(t) && Misplaces(t, Settled(t)))
    requires i < Settled(t)
    ensures var r := Renumber(t, env).p;
            0 <= r.f[i].vf
            && (!t.v[r.f[i].vf].touch || Settled(t) < t.last || (0 < t.last < Settled(t) && t.hadLift) ==> OneSample(r, i))
  {
    PreparedKeeps(t, env);
    PreparedRest(t, env);
    var u := Prepared(t, env);
    RemapCounted(u);
    RemapRest(u);
    RemapFresh(u);
    SameTouches(t, env);
    RenumberIs(t, env);
    FedOnce(Remap(u), i);
    hide Remap, Renumber, FilterFingers, Prepared, Counted, Misplaces, Bounded, Jumped, OneSample;
  }

  lemma FedOnce(m: Pad, i: Index)
    requires Counted(m, m.clamped) && i < m.clamped
    ensures var r := FilterFingers(m, m.clamped);
            && r.f[i].vf == m.f[i].vf >= 0 && m.v[m.f[i].vf].touch
            && (Afresh(m.v[m.f[i].vf]) ==> OneSample(r, i))
  {
    hide FilterFingers, TouchCount, HasFed, OneSample, Afresh;
    FilterFeeds(m, m.clamped);
    FilterKeeps(m, m.clamped);
    var r := FilterFingers(m, m.clamped);
    assert HasFed(m, r, m.f[i]);
    FedFromEmpty(m, r, i);
  }

  lemma FedFromEmpty(m: Pad, r: Pad, i: Index)
    requires HasFed(m, r, m.f[i]) && r.f == m.f
    ensures Afresh(m.v[m.f[i].vf]) ==> OneSample(r, i)
  {
  }

  lemma SameTouches(t: Pad, env: Env)
    ensures forall j :: 0 <= j < MAX_FINGERS ==> Prepared(t, env).v[j].touch == t.v[j].touch
  {
  }

  lemma RenumberIs(t: Pad, env: Env)
    requires Renumber(t, env).ready
    ensures var m := Remap(Prepared(t, env)); Renumber(t, env).p == FilterFingers(m, m.clamped)
  {
  }
}
