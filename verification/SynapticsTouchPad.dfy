/** The finger tracker of the Synaptics driver as the object the source has: two arrays of five records, updated in
    place. Every method is proved to do what its counterpart in SynapticsPad says. */
module SynapticsTouchPad {
  import opened SimpleAverages
  import opened SynapticsPad
  import opened SynapticsMap
  import opened SynapticsSteps
  import opened SynapticsTheorems
  import opened SynapticsReads

  class TouchPad {
    const fingers: array<Finger>
    const virtuals: array<VirtualFinger>
    var lastFingerCount: int
    var clampedFingerCount: int
    var hadLiftFinger: bool
    var wasSkipped: bool
    var agmFingerCount: int
    var lastSentFingerCount: nat

    ghost function State(): PadState
      reads this, fingers, virtuals
    {
      PadState(fingers[..], virtuals[..], lastFingerCount, clampedFingerCount,
               hadLiftFinger, wasSkipped, agmFingerCount, lastSentFingerCount)
    }

    ghost predicate Valid()
      reads this, fingers, virtuals
    {
      Shape(State())
    }

    constructor ()
      ensures Valid() && fresh(fingers) && fresh(virtuals) && State() == INITIAL_PAD
      ensures AtRest(State())
    {
      fingers := new Finger[MAX_FINGERS](_ => NO_FINGER);
      virtuals := new VirtualFinger[MAX_FINGERS](_ => FREE_VIRTUAL);
      lastFingerCount, clampedFingerCount := 0, 0;
      hadLiftFinger, wasSkipped := false, false;
      agmFingerCount, lastSentFingerCount := 0, 0;
      new;
      assert fingers[..] == INITIAL_PAD.f && virtuals[..] == INITIAL_PAD.v;
      IdentityCounted(INITIAL_PAD, 0);
    }

    /** The squared distance of a contact from the last sample of a virtual finger. */
    method Distance(i: Index, j: Index) returns (d: int)
      requires Valid()
      ensures d == Dist(State(), i, j)
    {
      var phy, virt := fingers[i], virtuals[j];
      d := Sqr(phy.x - Newest(virt.xs)) + Sqr(phy.y - Newest(virt.ys));
    }

    method AssignVirtual(i: int)
      requires Valid()
      modifies fingers, virtuals
      ensures Valid() && State() == AssignVirtualFinger(old(State()), i)
    {
      if i < 0 || i >= MAX_FINGERS {
        return;
      }
      var j := 0;
      while j < MAX_FINGERS
        invariant 0 <= j <= MAX_FINGERS
        invariant State() == old(State())
        invariant FirstFree(virtuals[..], 0) == FirstFree(virtuals[..], j)
      {
        if !virtuals[j].touch {
          fingers[i] := fingers[i].(vf := j);
          virtuals[j] := virtuals[j].(touch := true, xs := [], ys := []);
          return;
        }
        j := j + 1;
      }
    }

    method CloneFromUpper(dst: Index)
      requires Valid()
      modifies fingers
      ensures Valid() && State() == CloneUpper(old(State()), dst)
    {
      var u := if fingers[0].y < fingers[1].y then 1 else 0;
      fingers[dst] := fingers[u].(vf := fingers[dst].vf);
    }

    /** src must have a virtual finger: the driver would look before the array. */
    method Swap(dst: Index, src: Index)
      requires Valid() && 0 <= fingers[src].vf
      modifies fingers, virtuals
      ensures Valid() && State() == SwapFingers(old(State()), dst, src)
    {
      var j := fingers[src].vf;
      fingers[dst] := fingers[dst].(x := Average(virtuals[j].xs), y := Average(virtuals[j].ys), vf := j);
      AssignVirtual(src);
    }

    method FreeAndMarkVirtuals()
      requires Valid()
      modifies virtuals
      ensures Valid() && State() == FreeAndMark(old(State()))
    {
      var i := 0;
      while i < MAX_FINGERS
        invariant 0 <= i <= MAX_FINGERS
        invariant forall j :: 0 <= j < i ==> virtuals[j] == FREE_VIRTUAL
      {
        virtuals[i] := VirtualFinger([], [], 0, 0, false);
        i := i + 1;
      }
      i := 0;
      while i < clampedFingerCount
        invariant 0 <= i <= clampedFingerCount
        invariant forall j :: 0 <= j < MAX_FINGERS ==> virtuals[j] == VirtualFinger([], [], 0, 0, Mapped(fingers[..], i, j))
      {
        var j := fingers[i].vf;
        if j != -1 {
          virtuals[j] := virtuals[j].(touch := true);
        }
        i := i + 1;
      }
      assert virtuals[..] == FreeAndMark(old(State())).v;
    }

    // ---- The branches of the renumbering

    /** With four or five fingers the imaginary ones follow the upper real one. */
    method FollowUpper(env: Env)
      requires Valid() && clampedFingerCount == lastFingerCount && clampedFingerCount >= 4
      requires fingers[0].vf != -1 && fingers[1].vf != -1
      modifies fingers
      ensures Valid() && State() == DragImaginary(old(State()), env)
    {
      ghost var s := State();
      var upper := if fingers[0].y < fingers[1].y then 1 else 0;
      var u := fingers[upper];
      var uv := virtuals[u.vf];
      var j := 2;
      while j < clampedFingerCount
        invariant 2 <= j <= clampedFingerCount
        invariant forall k :: 0 <= k < MAX_FINGERS ==> fingers[k] == if 2 <= k < j then Dragged(s.f[k], u, uv, env) else s.f[k]
      {
        fingers[j] := Dragged(fingers[j], u, uv, env);
        j := j + 1;
      }
      assert fingers[..] == DragImaginary(s, env).f;
    }

    /** With three fingers the imaginary one follows the mean of the two real ones. */
    method FollowMean(env: Env)
      requires Valid() && clampedFingerCount == lastFingerCount == 3 && fingers[0].vf != -1 && fingers[1].vf != -1
      modifies fingers
      ensures Valid() && State() == DragImaginary(old(State()), env)
    {
      var f0, f1, f2 := fingers[0], fingers[1], fingers[2];
      var v0, v1 := virtuals[f0.vf], virtuals[f1.vf];
      fingers[2] := Finger(
        ClipNoUpdate(f2.x + TruncDiv((f0.x - Newest(v0.xs)) + (f1.x - Newest(v1.xs)), 2), env.minX, env.maxX),
        ClipNoUpdate(f2.y + TruncDiv((f0.y - Newest(v0.ys)) + (f1.y - Newest(v1.ys)), 2), env.minY, env.maxY),
        TruncDiv(f0.z + f1.z, 2), TruncDiv(f0.w + f1.w, 2), f2.vf);
    }

    method UpdateImaginary(env: Env)
      requires Valid()
      modifies fingers
      ensures Valid() && State() == DragImaginary(old(State()), env)
    {
      if clampedFingerCount == lastFingerCount && clampedFingerCount >= 3 {
        if fingers[0].vf != -1 && fingers[1].vf != -1 {
          if clampedFingerCount >= 4 {
            FollowUpper(env);
          } else {
            FollowMean(env);
          }
        }
      }
    }

    method UnpressJump()
      requires Valid() && InBounds(State())
      modifies virtuals, this`clampedFingerCount
      ensures Valid() && State() == UnpressJumped(old(State()))
    {
      if clampedFingerCount == lastFingerCount && clampedFingerCount == 1 {
        var j := fingers[0].vf;
        var d := Distance(0, j);
        if d > FINGER_DIST {
          virtuals[j] := virtuals[j].(xs := [], ys := [], pressure := 0, width := 0);
          clampedFingerCount := 0;
        }
      }
    }

    method AddFromNone()
      requires Valid()
      modifies fingers, virtuals
      ensures Valid() && State() == AddFirst(old(State()), clampedFingerCount)
    {
      var i := 0;
      while i < clampedFingerCount
        invariant 0 <= i <= clampedFingerCount
        invariant Valid() && State() == AddFirst(old(State()), i)
      {
        ghost var before := State();
        fingers[i] := fingers[i].(vf := i);
        virtuals[i] := virtuals[i].(touch := true, xs := [], ys := []);
        assert State() == SetVf(before.(v := before.v[i := before.v[i].(touch := true, xs := [], ys := [])]), i, i);
        if i >= 2 {
          CloneFromUpper(i);
        }
        assert State() == AddFirstStep(before, i);
        i := i + 1;
      }
    }

    method CloneThenAssign(i: Index)
      requires Valid()
      modifies fingers, virtuals
      ensures Valid() && State() == CloneAndAssign(old(State()), i)
    {
      CloneFromUpper(i);
      AssignVirtual(i);
    }

    method AddWithoutLift()
      requires Valid() && 0 < lastFingerCount < clampedFingerCount
      requires lastFingerCount >= 2 && clampedFingerCount - lastFingerCount <= 2 ==> 0 <= fingers[1].vf
      modifies fingers, virtuals
      ensures Valid() && State() == AddFresh(old(State()))
    {
      var added := clampedFingerCount - lastFingerCount;
      if added == 1 && lastFingerCount >= 2 {
        Swap(lastFingerCount, 1);
      } else if added == 2 && lastFingerCount >= 2 {
        Swap(lastFingerCount, 1);
        CloneThenAssign(3);
      } else {
        AssignVirtual(1);
        CloneUpTo(added + 1);
      }
    }

    method CloneUpTo(n: nat)
      requires Valid() && 2 <= n <= MAX_FINGERS
      modifies fingers, virtuals
      ensures Valid() && State() == CloneMore(old(State()), n)
    {
      var i := 2;
      while i < n
        invariant 2 <= i <= n
        invariant Valid() && State() == CloneMore(old(State()), i)
      {
        CloneThenAssign(i);
        i := i + 1;
      }
    }

    method NearestContact(j: Index) returns (near: Near)
      requires Valid()
      ensures near == Nearest(KeepCost(State(), j))
    {
      ghost var cost := KeepCost(State(), j);
      var minDist, minIndex := INT_MAX, -1;
      var i := 0;
      while i < lastFingerCount
        invariant 0 <= i <= lastFingerCount
        invariant Near(minDist, minIndex) == NearestOf(cost, i)
      {
        if fingers[i].vf == -1 {
          var d := Distance(i, j);
          if d < minDist {
            minDist, minIndex := d, i;
          }
        }
        i := i + 1;
      }
      RestTooFar(cost, lastFingerCount, |cost|);
      near := Near(minDist, minIndex);
    }

    method NearestVirtual(i: Index, used: seq<bool>) returns (near: Near)
      requires Valid() && |used| == MAX_FINGERS
      ensures near == Nearest(LiftCost(State(), i, used))
    {
      ghost var cost := LiftCost(State(), i, used);
      var minDist, minIndex := INT_MAX, -1;
      var j := 0;
      while j < MAX_FINGERS
        invariant 0 <= j <= MAX_FINGERS
        invariant Near(minDist, minIndex) == NearestOf(cost, j)
      {
        if virtuals[j].touch && !used[j] {
          var d := Distance(i, j);
          if d < minDist {
            minDist, minIndex := d, j;
          }
        }
        j := j + 1;
      }
      near := Near(minDist, minIndex);
    }

    method ForgetMap()
      requires Valid()
      modifies fingers
      ensures Valid() && State() == ClearMap(old(State()))
    {
      var i := 0;
      while i < MAX_FINGERS
        invariant 0 <= i <= MAX_FINGERS
        invariant forall k :: 0 <= k < MAX_FINGERS ==>
                    fingers[k] == if k < i then old(fingers[k]).(vf := -1) else old(fingers[k])
      {
        fingers[i] := fingers[i].(vf := -1);
        i := i + 1;
      }
      assert fingers[..] == ClearMap(old(State())).f;
    }

    /** One contact looks for its virtual finger among those not yet used. */
    method LiftOne(i: Index, used: seq<bool>) returns (used': seq<bool>)
      requires Valid() && |used| == MAX_FINGERS
      modifies fingers
      ensures Valid() && |used'| == MAX_FINGERS
      ensures Lifted(State(), used') == LiftStep(Lifted(old(State()), used), i)
    {
      used' := used;
      var near := NearestVirtual(i, used);
      fingers[i] := fingers[i].(vf := near.index);
      if near.index != -1 {
        used' := used[near.index := true];
      }
    }

    /** Each contact in turn looks for its virtual finger. */
    method FindLifted()
      requires Valid()
      modifies fingers
      ensures Valid() && State() == MatchLifted(old(State()), clampedFingerCount).p
    {
      ForgetMap();
      var used := seq(MAX_FINGERS, _ => false);
      var i := 0;
      while i < clampedFingerCount
        invariant 0 <= i <= clampedFingerCount
        invariant Valid() && |used| == MAX_FINGERS && Lifted(State(), used) == MatchLifted(old(State()), i)
        invariant virtuals[..] == old(virtuals[..])
      {
        used := LiftOne(i, used);
        i := i + 1;
      }
    }

    method Lift()
      requires Valid()
      modifies fingers, virtuals, this`hadLiftFinger
      ensures Valid() && State() == LiftFingers(old(State()))
    {
      hadLiftFinger := clampedFingerCount > 0;
      FindLifted();
      FreeAndMarkVirtuals();
    }

    /** One virtual finger looks for its contact; the two worst fits are remembered. */
    method KeepOne(ghost s: Pad, j: Index, far: Near, second: Near) returns (far': Near, second': Near)
      requires Valid() && Kept(State(), far, second) == MatchKept(s, j)
      modifies fingers
      ensures Valid() && Kept(State(), far', second') == MatchKept(s, j + 1)
    {
      far', second' := far, second;
      if virtuals[j].touch {
        var near := NearestContact(j);
        if near.index != -1 {
          if near.dist > far.dist {
            far', second' := near, far;
          }
          fingers[near.index] := fingers[near.index].(vf := j);
        }
      }
    }

    /** Each touched virtual finger in turn looks for its contact. */
    method FindKept() returns (far: Near, second: Near)
      requires Valid()
      modifies fingers
      ensures Valid() && Kept(State(), far, second) == MatchKept(old(State()), |old(State()).v|)
    {
      ghost var s: Pad := State();
      ForgetMap();
      far, second := Near(0, -1), Near(0, -1);
      var j := 0;
      while j < MAX_FINGERS
        invariant 0 <= j <= |s.v|
        invariant Valid() && Kept(State(), far, second) == MatchKept(s, j)
      {
        far, second := KeepOne(s, j, far, second);
        j := j + 1;
      }
    }

    method MeanOfReal(i: Index)
      requires Valid()
      modifies fingers
      ensures Valid() && State() == MeanZw(old(State()), i)
    {
      fingers[i] := fingers[i].(z := TruncDiv(fingers[0].z + fingers[1].z, 2), w := TruncDiv(fingers[0].w + fingers[1].w, 2));
    }

    method PlaceThird(far: Near)
      requires Valid() && far.index < MAX_FINGERS && MappedIndex(State(), far.index)
      modifies fingers, virtuals
      ensures Valid() && State() == AddThird(old(State()), far)
    {
      MeanOfReal(2);
      if far.dist > FINGER_DIST && far.index >= 0 {
        Swap(2, far.index);
      } else {
        var upper := if fingers[0].y < fingers[1].y then 1 else 0;
        fingers[2] := fingers[2].(x := fingers[upper].x, y := fingers[upper].y);
        AssignVirtual(2);
      }
    }

    method PlaceThirdAndFourth(far: Near, second: Near)
      requires Valid() && far.index < MAX_FINGERS && second.index < MAX_FINGERS
      requires MappedIndex(State(), far.index) && MappedIndex(State(), second.index)
      modifies fingers, virtuals
      ensures Valid() && State() == AddThirdAndFourth(old(State()), far, second)
    {
      if far.dist > FINGER_DIST && far.index >= 0 {
        SwapKeepsMapped(State(), 2, far.index, second.index);
        Swap(2, far.index);
        if second.dist > FINGER_DIST && second.index >= 0 {
          Swap(3, second.index);
        } else {
          CloneThenAssign(3);
        }
      } else {
        CloneThenAssign(2);
        CloneThenAssign(3);
      }
    }

    method PlaceFourth(far: Near)
      requires Valid() && far.index < MAX_FINGERS && MappedIndex(State(), far.index)
      modifies fingers, virtuals
      ensures Valid() && State() == AddFourthOnly(old(State()), far)
    {
      if far.dist > FINGER_DIST && far.index >= 0 {
        Swap(3, far.index);
      } else {
        CloneFromUpper(2);
        CloneThenAssign(3);
      }
    }

    method PlaceThirdOrFourth(far: Near, second: Near)
      requires Valid() && far.index < MAX_FINGERS && second.index < MAX_FINGERS
      requires MappedIndex(State(), far.index) && MappedIndex(State(), second.index)
      modifies fingers, virtuals
      ensures Valid() && State() == AddFourth(old(State()), far, second)
    {
      MeanOfReal(2);
      MeanOfReal(3);
      if lastFingerCount < 3 {
        PlaceThirdAndFourth(far, second);
      } else {
        PlaceFourth(far);
      }
    }

    method AddWithLift()
      requires Valid() && 0 < lastFingerCount < clampedFingerCount
      modifies fingers, virtuals
      ensures Valid() && State() == AddAfterLift(old(State()))
    {
      ghost var s: Pad := State();
      JumpsMappedReal(s);
      var far, second := FindKeptAndReal();
      PlaceNew(far, second);
      FreeAndMarkVirtuals();
    }

    method PlaceNew(far: Near, second: Near)
      requires Valid() && far.index < MAX_FINGERS && second.index < MAX_FINGERS
      requires MappedIndex(State(), far.index) && MappedIndex(State(), second.index)
      modifies fingers, virtuals
      ensures Valid() && State() == AddNew(old(State()), far, second)
    {
      if clampedFingerCount == 3 {
        PlaceThird(far);
      } else if clampedFingerCount >= 4 {
        PlaceThirdOrFourth(far, second);
        if clampedFingerCount >= 5 {
          CloneThenAssign(4);
        }
      }
    }

    method FindKeptAndReal() returns (far: Near, second: Near)
      requires Valid()
      modifies fingers, virtuals
      ensures Valid() && State() == KeptAndReal(old(State()))
      ensures var m := MatchKept(old(State()), |old(State()).v|); far == m.far && second == m.second
    {
      far, second := FindKept();
      AssignUnmapped(0);
      AssignUnmapped(1);
    }

    method AssignUnmapped(i: Index)
      requires Valid()
      modifies fingers, virtuals
      ensures Valid() && State() == AssignIfUnmapped(old(State()), i)
    {
      if fingers[i].vf == -1 {
        AssignVirtual(i);
      }
    }

    method Feed()
      requires Valid()
      modifies virtuals
      ensures Valid() && State() == FilterFingers(old(State()), clampedFingerCount)
    {
      var i := 0;
      while i < clampedFingerCount
        invariant 0 <= i <= clampedFingerCount
        invariant Valid() && State() == FilterFingers(old(State()), i)
      {
        var fi := fingers[i];
        if 0 <= fi.vf < MAX_FINGERS {
          var v := virtuals[fi.vf];
          virtuals[fi.vf] := v.(xs := Push(v.xs, SAMPLES, fi.x), ys := Push(v.ys, SAMPLES, fi.y),
                                width := fi.w % 256, pressure := fi.z % 256);
        }
        i := i + 1;
      }
    }

    /** The branch that fits the new count. */
    method ChangeCount()
      requires Valid() && clampedFingerCount != lastFingerCount
      requires clampedFingerCount > lastFingerCount && clampedFingerCount >= 3 ==> !wasSkipped
      requires lastFingerCount >= 2 && !hadLiftFinger && 1 <= clampedFingerCount - lastFingerCount <= 2 ==> 0 <= fingers[1].vf
      modifies this`hadLiftFinger, fingers, virtuals
      ensures Valid() && State() == Remap(old(State()))
    {
      if lastFingerCount == 0 {
        AddFromNone();
      } else if clampedFingerCount > lastFingerCount && !hadLiftFinger {
        AddWithoutLift();
      } else if clampedFingerCount > lastFingerCount {
        AddWithLift();
      } else {
        Lift();
      }
    }

    method Prepare(env: Env)
      requires Valid() && InBounds(State())
      modifies fingers, virtuals, this`clampedFingerCount
      ensures Valid() && State() == Prepared(old(State()), env)
    {
      DragKeepsMap(State(), env);
      UpdateImaginary(env);
      UnpressJump();
    }

    /** The renumbering; false means that the packet must not be reported. */
    method RenumberFingers(env: Env) returns (ready: bool)
      requires Valid() && InBounds(State())
      modifies this, fingers, virtuals
      ensures Valid() && Outcome(State(), ready) == Renumber(old(State()), env)
    {
      PreparedInBounds(State(), env);
      Prepare(env);
      if clampedFingerCount != lastFingerCount {
        ready := SkipOrChange();
        if !ready {
          return;
        }
      }
      Feed();
      ready := true;
    }

    /** A count of three or more that grew waits for the next packet; every other change is carried out. */
    method SkipOrChange() returns (ready: bool)
      requires Valid() && InBounds(State()) && clampedFingerCount != lastFingerCount
      modifies this, fingers, virtuals
      ensures Valid() && ready == !MustSkip(old(State()))
      ensures State() == if ready then Remap(old(State())) else old(State()).(skipped := true)
    {
      ghost var s: Pad := State();
      if clampedFingerCount > lastFingerCount && clampedFingerCount >= 3 {
        if !wasSkipped {
          wasSkipped := true;
          return false;
        }
        wasSkipped := false;
      }
      ChangeCount();
      RemapUnskipped(s);
      ready := true;
    }

    method SendTouch(env: Env) returns (report: Report)
      requires Valid()
      modifies this`lastFingerCount, this`lastSentFingerCount
      ensures Valid() && Sent(State(), report) == SendTouchData(old(State()), env)
    {
      if env.quiet {
        return NoReport;
      }
      if lastFingerCount != clampedFingerCount {
        lastFingerCount := clampedFingerCount;
        return NoReport;
      }
      var contacts := [];
      var i := 0;
      while i < MAX_FINGERS
        invariant 0 <= i <= MAX_FINGERS
        invariant contacts == ContactsUpTo(old(State()), i)
      {
        var v := virtuals[i];
        if v.touch {
          contacts := contacts + [Contact(i, Average(v.xs), Average(v.ys), v.pressure / 2)];
        }
        i := i + 1;
      }
      report := if |contacts| != 0 || lastSentFingerCount != 0 then Report(contacts) else NoReport;
      lastFingerCount := clampedFingerCount;
      lastSentFingerCount := |contacts|;
    }

    /** One packet, whatever came before it, as long as the driver stays inside its arrays; from a tracker at rest it does,
        and the tracker is at rest again exactly if the packet is not a breaking one. */
    method ParseHwState(b: Packet, env: Env) returns (report: Report)
      requires Valid() && (IsNormal(b) ==> InBounds(TakeNormal(State(), b, env)))
      modifies this, fingers, virtuals
      ensures Valid() && Sent(State(), report) == Handle(old(State()), b, env)
      ensures old(AtRest(State())) && LimitsSmall(env) ==> (AtRest(State()) <==> !BreaksOn(old(State()), b, env))
    {
      PacketAtRest(State(), b, env);
      report := NoReport;
      var w := WidthOf(b);
      if w == W_EXTENDED {
        ParseAgm(b);
      } else if w != W_PASSTHRU {
        ParseNormal(b, env);
        var ready := RenumberFingers(env);
        if ready {
          report := SendTouch(env);
        }
      }
    }

    method ParseAgm(b: Packet)
      requires Valid()
      modifies fingers, this`agmFingerCount
      ensures Valid() && State() == TakeAgm(old(State()), b)
    {
      match (b[5] / 16) % 4 {
        case 1 => fingers[1] := SecondFinger(b, fingers[1].vf);
        case 2 => agmFingerCount := b[1] % 16;
        case _ =>
      }
    }

    method ParseNormal(b: Packet, env: Env)
      requires Valid()
      modifies fingers, this`clampedFingerCount, this`agmFingerCount
      ensures Valid() && State() == TakeNormal(old(State()), b, env)
    {
      var w := WidthOf(b);
      fingers[0] := RealFinger(b, fingers[0].vf);
      var count := 0;
      if fingers[0].z < env.zFinger {
        agmFingerCount := 0;
        fingers[0] := fingers[0].(w := 0);
      } else if w >= 4 {
        count := 1;
        agmFingerCount := 0;
      } else if w == 0 {
        count := Max(2, Min(agmFingerCount, MAX_FINGERS));
      } else if w == 1 {
        count := Max(3, Min(agmFingerCount, MAX_FINGERS));
      }
      clampedFingerCount := count;
    }
  }

  lemma PacketAtRest(p: Pad, b: Packet, env: Env)
    ensures AtRest(p) && LimitsSmall(env) ==> (AtRest(Handle(p, b, env).p) <==> !BreaksOn(p, b, env))
    ensures AtRest(p) && IsNormal(b) ==> InBounds(TakeNormal(p, b, env))
  {
    if AtRest(p) && IsNormal(b) {
      TakeNormalKeeps(p, b, env);
      AtRestInBounds(TakeNormal(p, b, env));
      if LimitsSmall(env) {
        PacketKeepsMapIff(p, b, env);
      }
    } else if AtRest(p) {
      AgmKeeps(p, b);
    }
  }

  lemma RemapUnskipped(p: Pad)
    requires p.clamped != p.last
    ensures p.clamped > p.last && p.clamped >= 3 ==> Remap(p) == Remap(p.(skipped := false))
  {
  }

  /** Costs of INT_MAX beyond the first k do not change the nearest index. */
  lemma {:induction false} RestTooFar(cost: seq<int>, k: nat, n: nat)
    requires k <= n <= |cost| && forall i :: k <= i < n ==> cost[i] == INT_MAX
    ensures NearestOf(cost, n) == NearestOf(cost, k)
  {
    if k < n {
      RestTooFar(cost, k, n - 1);
    }
  }
}
