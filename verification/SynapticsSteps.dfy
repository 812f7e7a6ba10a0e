/** What each branch of the renumbering does to the finger map. */
module SynapticsSteps {
  import opened Sets
  import opened SimpleAverages
  import opened SynapticsPad
  import opened SynapticsMap

  // ---- Consistency by counting

  function TouchCount(v: seq<VirtualFinger>, n: nat): (c: nat)
    requires n <= |v|
    ensures c <= n
  {
    if n == 0 then 0 else TouchCount(v, n - 1) + (if v[n - 1].touch then 1 else 0)
  }

  /** The first n contacts are mapped to different touched virtual fingers, of which there are n; the others nowhere. */
  predicate Counted(p: Pad, n: int) {
    && (forall i :: 0 <= i < MAX_FINGERS && i < n ==> 0 <= p.f[i].vf && p.v[p.f[i].vf].touch)
    && (forall i, k :: 0 <= i < k < MAX_FINGERS && k < n ==> p.f[i].vf != p.f[k].vf)
    && (forall i :: 0 <= i < MAX_FINGERS && n <= i ==> p.f[i].vf == -1)
    && TouchCount(p.v, |p.v|) == n
  }

  lemma {:induction false} CountFree(v: seq<VirtualFinger>, n: nat)
    requires n <= |v| && TouchCount(v, n) < n
    ensures exists j :: 0 <= j < n && !v[j].touch
  {
    if v[n - 1].touch {
      CountFree(v, n - 1);
    }
  }

  lemma {:induction false} CountSame(v: seq<VirtualFinger>, w: seq<VirtualFinger>, n: nat)
    requires n <= |v| == |w| && forall j :: 0 <= j < n ==> v[j].touch == w[j].touch
    ensures TouchCount(v, n) == TouchCount(w, n)
  {
    if n > 0 {
      CountSame(v, w, n - 1);
    }
  }

  lemma {:induction false} CountOneMore(v: seq<VirtualFinger>, j: nat, w: VirtualFinger, n: nat)
    requires j < n <= |v| && !v[j].touch && w.touch
    ensures TouchCount(v[j := w], n) == TouchCount(v, n) + 1
  {
    if j < n - 1 {
      CountOneMore(v, j, w, n - 1);
    } else {
      CountSame(v, v[j := w], n - 1);
    }
  }

  lemma {:induction false} CountIsSize(v: seq<VirtualFinger>, n: nat)
    requires n <= |v|
    ensures TouchCount(v, n) == |Touched(v, n)|
  {
    if n > 0 {
      CountIsSize(v, n - 1);
    }
  }

  /** Counting is the same as asking for a map onto exactly the touched virtual fingers. */
  lemma CountedIsOnto(p: Pad, n: nat)
    requires n <= MAX_FINGERS
    ensures Counted(p, n) <==> Onto(p, Below(n)) && MappedContacts(p) == Below(n)
  {
    if Counted(p, n) {
      CountedOnto(p, n);
    }
    if Onto(p, Below(n)) && MappedContacts(p) == Below(n) {
      OntoCounted(p, n);
    }
  }

  lemma OntoCount(p: Pad, n: nat)
    requires n <= MAX_FINGERS && Onto(p, Below(n))
    ensures TouchCount(p.v, |p.v|) == n
  {
    CountIsSize(p.v, |p.v|);
    TouchedCount(p, Below(n));
  }

  lemma InjectiveBelow(f: seq<Finger>, n: nat)
    requires n <= |f| && Injective(f, Below(n))
    ensures forall i, k :: 0 <= i < k < n ==> f[i].vf != f[k].vf
  {
    forall i, k | 0 <= i < k < n
      ensures f[i].vf != f[k].vf
    {
      assert i in Below(n) && k in Below(n);
    }
  }

  lemma OntoCounted(p: Pad, n: nat)
    requires n <= MAX_FINGERS && Onto(p, Below(n)) && MappedContacts(p) == Below(n)
    ensures Counted(p, n)
  {
    OntoCount(p, n);
    InjectiveBelow(p.f, n);
    MappedTouched(p, n);
    OthersUnmapped(p, n);
  }

  lemma OthersUnmapped(p: Pad, n: nat)
    requires n <= MAX_FINGERS && MappedContacts(p) == Below(n)
    ensures forall i :: n <= i < MAX_FINGERS ==> p.f[i].vf == -1
  {
    forall i | n <= i < MAX_FINGERS
      ensures p.f[i].vf == -1
    {
      assert i !in MappedContacts(p);
    }
  }

  lemma MappedTouched(p: Pad, n: nat)
    requires n <= MAX_FINGERS && Onto(p, Below(n))
    ensures forall i :: 0 <= i < n ==> p.v[p.f[i].vf].touch
  {
    forall i | 0 <= i < n
      ensures p.v[p.f[i].vf].touch
    {
      assert p.f[i].vf in Image(p.f, Below(n));
    }
  }

  lemma CountedMapsBelow(p: Pad, n: nat)
    requires n <= MAX_FINGERS && Counted(p, n)
    ensures MappedContacts(p) == Below(n)
  {
    forall i
      ensures i in MappedContacts(p) <==> i in Below(n)
    {
    }
  }

  /** Different touched virtual fingers, as many as there are, are all of them. */
  lemma CountedImage(f: seq<Finger>, v: seq<VirtualFinger>, n: nat)
    requires n <= |f| && Injective(f, Below(n)) && TouchCount(v, |v|) == n
    requires forall i :: 0 <= i < n ==> 0 <= f[i].vf < |v| && v[f[i].vf].touch
    ensures Image(f, Below(n)) == Touched(v, |v|)
  {
    CountIsSize(v, |v|);
    ImageSize(f, Below(n));
    forall j | j in Image(f, Below(n))
      ensures j in Touched(v, |v|)
    {
      var i :| i in Below(n) && f[i].vf == j;
    }
    SubsetSize(Image(f, Below(n)), Touched(v, |v|));
  }

  lemma CountedOnto(p: Pad, n: nat)
    requires n <= MAX_FINGERS && Counted(p, n)
    ensures Onto(p, Below(n)) && MappedContacts(p) == Below(n)
  {
    CountedMapsBelow(p, n);
    CountedImage(p.f, p.v, n);
  }

  // ---- Adding one finger

  predicate TouchesStay(p: Pad, q: Pad) {
    forall j :: 0 <= j < MAX_FINGERS && p.v[j].touch ==> q.v[j].touch
  }

  /** Contacts above k keep their records, touched virtual fingers stay touched, and nothing else changes. */
  predicate ExtendsUpTo(p: Pad, q: Pad, k: int) {
    && q == p.(f := q.f, v := q.v)
    && (forall i :: 0 <= i < MAX_FINGERS && k < i ==> q.f[i] == p.f[i])
    && TouchesStay(p, q)
  }

  lemma AssignNew(p: Pad, i: Index)
    requires TouchCount(p.v, |p.v|) < MAX_FINGERS
    ensures var q, j := AssignVirtualFinger(p, i), FirstFree(p.v, 0);
            j < MAX_FINGERS && q == SetVf(p.(v := q.v), i, j) && !p.v[j].touch && q.v[j].touch
            && (forall k :: 0 <= k < MAX_FINGERS && k != j ==> q.v[k] == p.v[k])
            && TouchCount(q.v, |q.v|) == TouchCount(p.v, |p.v|) + 1
  {
    CountFree(p.v, |p.v|);
    var j := FirstFree(p.v, 0);
    CountOneMore(p.v, j, p.v[j].(touch := true, xs := [], ys := []), |p.v|);
  }

  lemma AssignNext(p: Pad, n: Index)
    requires Counted(p, n)
    ensures Counted(AssignVirtualFinger(p, n), n + 1)
    ensures ExtendsUpTo(p, AssignVirtualFinger(p, n), n)
  {
    AssignNew(p, n);
  }

  lemma CloneAndAssignNext(p: Pad, n: Index)
    requires Counted(p, n)
    ensures Counted(CloneAndAssign(p, n), n + 1)
    ensures ExtendsUpTo(p, CloneAndAssign(p, n), n)
  {
    AssignNext(CloneUpper(p, n), n);
  }

  /** What a swap does: dst takes over src's virtual finger, and src gets a free one. */
  lemma SwapMaps(p: Pad, dst: Index, src: Index)
    requires TouchCount(p.v, |p.v|) < MAX_FINGERS && 0 <= p.f[src].vf && dst != src
    ensures var q, j := SwapFingers(p, dst, src), FirstFree(p.v, 0);
            && j < MAX_FINGERS && !p.v[j].touch && q.v[j].touch
            && (forall k :: 0 <= k < MAX_FINGERS && k != j ==> q.v[k] == p.v[k])
            && q.f[dst].vf == p.f[src].vf && q.f[src].vf == j
            && (forall i :: 0 <= i < MAX_FINGERS && i != dst && i != src ==> q.f[i] == p.f[i])
            && q == p.(f := q.f, v := q.v)
            && TouchCount(q.v, |q.v|) == TouchCount(p.v, |p.v|) + 1
  {
    var j := p.f[src].vf;
    var moved := p.f[dst].(x := Average(p.v[j].xs), y := Average(p.v[j].ys), vf := j);
    AssignNew(p.(f := p.f[dst := moved]), src);
  }

  lemma SwapNext(p: Pad, n: Index, src: Index)
    requires Counted(p, n) && src < n
    ensures Counted(SwapFingers(p, n, src), n + 1)
    ensures ExtendsUpTo(p, SwapFingers(p, n, src), n)
  {
    SwapMaps(p, n, src);
  }

  lemma SameMapCounted(p: Pad, q: Pad, n: int)
    requires Counted(p, n)
    requires forall i :: 0 <= i < MAX_FINGERS ==> q.f[i].vf == p.f[i].vf
    requires forall j :: 0 <= j < MAX_FINGERS ==> q.v[j].touch == p.v[j].touch
    ensures Counted(q, n)
  {
    CountSame(p.v, q.v, |p.v|);
  }

  // ---- Fingers added from none

  /** The contacts below n have their own numbers, and only those virtual fingers are touched. */
  predicate Identity(p: Pad, n: int) {
    && (forall i :: 0 <= i < MAX_FINGERS ==> p.f[i].vf == if i < n then i else -1)
    && (forall j :: 0 <= j < MAX_FINGERS ==> (p.v[j].touch <==> j < n))
  }

  lemma {:induction false} AddFirstIdentity(p: Pad, n: nat)
    requires n <= MAX_FINGERS && Counted(p, 0)
    ensures Identity(AddFirst(p, n), n)
    ensures AddFirst(p, n) == p.(f := AddFirst(p, n).f, v := AddFirst(p, n).v)
  {
    if n > 0 {
      AddFirstIdentity(p, n - 1);
    } else {
      NoneTouched(p.v, |p.v|);
    }
  }

  lemma IdentityCounted(p: Pad, n: nat)
    requires n <= MAX_FINGERS && Identity(p, n)
    ensures Counted(p, n)
  {
    IdentityCount(p.v, n, |p.v|);
  }

  lemma {:induction false} IdentityCount(v: seq<VirtualFinger>, n: nat, k: nat)
    requires k <= |v| && forall j :: 0 <= j < k ==> (v[j].touch <==> j < n)
    ensures TouchCount(v, k) == if k < n then k else n
  {
    if k > 0 {
      IdentityCount(v, n, k - 1);
    }
  }

  lemma {:induction false} NoneTouched(v: seq<VirtualFinger>, n: nat)
    requires n <= |v| && TouchCount(v, n) == 0
    ensures forall j :: 0 <= j < n ==> !v[j].touch
  {
    if n > 0 {
      NoneTouched(v, n - 1);
    }
  }

  // ---- Fingers added while none was lifted

  /** Five fingers out of two or three: an addition the code does not provide for. */
  predicate MisplacesFresh(last: int, n: int) {
    n == 5 && (last == 2 || last == 3)
  }

  lemma AddFreshToOneIs(p: Pad)
    requires p.last == 1 && p.last < p.clamped
    ensures AddFresh(p) == CloneMore(AssignVirtualFinger(p, 1), p.clamped)
  {
  }

  lemma AddFreshToOne(p: Pad)
    requires Counted(p, 1) && p.last == 1 && p.last < p.clamped
    ensures Counted(AddFresh(p), p.clamped) && ExtendsUpTo(p, AddFresh(p), 4)
  {
    var a := AssignVirtualFinger(p, 1);
    AddFreshToOneIs(p);
    AssignNext(p, 1);
    CloneMoreCounted(a, p.clamped);
    ExtendsFurther(p, a, CloneMore(a, p.clamped), 1, 4);
  }

  lemma AddFreshTwo(p: Pad)
    requires Counted(p, p.last) && p.last == 2 && p.clamped == 4
    ensures Counted(AddFresh(p), p.clamped) && ExtendsUpTo(p, AddFresh(p), 4)
  {
    var a := SwapFingers(p, p.last, 1);
    SwapNext(p, p.last, 1);
    CloneAndAssignNext(a, 3);
    ExtendsFurther(p, a, CloneAndAssign(a, 3), p.last, 4);
  }

  lemma AddFreshCounted(p: Pad)
    requires Counted(p, p.last) && 0 < p.last < p.clamped && !MisplacesFresh(p.last, p.clamped)
    ensures Counted(AddFresh(p), p.clamped)
    ensures ExtendsUpTo(p, AddFresh(p), 4)
  {
    if p.last == 1 {
      AddFreshToOne(p);
    } else if p.clamped == p.last + 2 {
      AddFreshTwo(p);
    } else {
      SwapNext(p, p.last, 1);
    }
  }

  lemma ExtendsFurther(p: Pad, q: Pad, r: Pad, k: int, n: int)
    requires ExtendsUpTo(p, q, k) && ExtendsUpTo(q, r, n) && k <= n
    ensures ExtendsUpTo(p, r, n)
  {
  }

  lemma {:induction false} CloneMoreCounted(p: Pad, n: nat)
    requires 2 <= n <= MAX_FINGERS && Counted(p, 2)
    ensures Counted(CloneMore(p, n), n)
    ensures ExtendsUpTo(p, CloneMore(p, n), 4)
  {
    if n > 2 {
      CloneMoreCounted(p, n - 1);
      CloneAndAssignNext(CloneMore(p, n - 1), n - 1);
    }
  }

  /** The fifth contact is left without a virtual finger, but all virtual fingers are touched. */
  lemma AddFreshMisplaces(p: Pad)
    requires Counted(p, p.last) && MisplacesFresh(p.last, p.clamped)
    ensures AddFresh(p).f[4].vf == -1 && TouchCount(AddFresh(p).v, |p.v|) == MAX_FINGERS
    ensures AddFresh(p).last == p.last && AddFresh(p).clamped == p.clamped
  {
    if p.last == 2 {
      AddFreshMisplacesTwo(p);
    } else {
      SwapNext(p, 3, 1);
      var q := SwapFingers(p, 3, 1);
      CloneAndAssignFrame(q, 3);
      AssignNew(CloneUpper(q, 3), 3);
    }
  }

  lemma AddFreshMisplacesTwo(p: Pad)
    requires Counted(p, 2) && p.last == 2 && p.clamped == 5
    ensures AddFresh(p).f[4].vf == -1 && TouchCount(AddFresh(p).v, |p.v|) == MAX_FINGERS
    ensures AddFresh(p).last == p.last && AddFresh(p).clamped == p.clamped
  {
    AssignNew(p, 1);
    CloneMoreMaps(AssignVirtualFinger(p, 1), p.clamped - p.last + 1);
  }

  lemma {:induction false} CloneMoreMaps(p: Pad, n: nat)
    requires TouchCount(p.v, |p.v|) + n - 2 <= MAX_FINGERS && 2 <= n <= MAX_FINGERS
    ensures TouchCount(CloneMore(p, n).v, |p.v|) == TouchCount(p.v, |p.v|) + n - 2
    ensures CloneMore(p, n) == p.(f := CloneMore(p, n).f, v := CloneMore(p, n).v)
    ensures forall k :: n <= k < MAX_FINGERS ==> CloneMore(p, n).f[k] == p.f[k]
  {
    if n > 2 {
      CloneMoreMaps(p, n - 1);
      var q := CloneMore(p, n - 1);
      CloneAndAssignFrame(q, n - 1);
      AssignNew(CloneUpper(q, n - 1), n - 1);
    }
  }

  lemma CloneAndAssignFrame(p: Pad, i: Index)
    ensures CloneAndAssign(p, i) == p.(f := CloneAndAssign(p, i).f, v := CloneAndAssign(p, i).v)
    ensures forall k :: 0 <= k < MAX_FINGERS && k != i ==> CloneAndAssign(p, i).f[k] == p.f[k]
  {
  }

  // ---- Fingers added after a lift

  lemma MeanZwCounted(p: Pad, i: Index, n: int)
    requires Counted(p, n)
    ensures Counted(MeanZw(p, i), n)
  {
  }

  /** Which of the matched contacts jumped. */
  ghost predicate JumpedAmong(far: Near, second: Near, n: int) {
    && -1 <= far.index < n && -1 <= second.index < n
    && (second.index >= 0 ==> far.index != second.index)
  }

  lemma AddThirdCounted(p: Pad, far: Near)
    requires Counted(p, 2) && -1 <= far.index < 2
    ensures Counted(AddThird(p, far), 3) && TouchesStay(p, AddThird(p, far))
  {
    var q := MeanZw(p, 2);
    if Far(far) {
      SwapNext(q, 2, far.index);
    } else {
      var u := q.f[UpperIndex(q)];
      AssignNext(q.(f := q.f[2 := q.f[2].(x := u.x, y := u.y)]), 2);
    }
  }

  lemma AddFourthCounted(p: Pad, far: Near, second: Near)
    requires 1 <= p.last <= 3 && Counted(p, Max(2, p.last)) && JumpedAmong(far, second, p.last)
    ensures Counted(AddFourth(p, far, second), 4) && TouchesStay(p, AddFourth(p, far, second))
  {
    MeanZwCounted(p, 2, Max(2, p.last));
    MeanZwCounted(MeanZw(p, 2), 3, Max(2, p.last));
    var q := MeanZw(MeanZw(p, 2), 3);
    if p.last < 3 {
      AddThirdAndFourthCounted(q, far, second);
    } else {
      AddFourthOnlyCounted(q, far);
    }
  }

  lemma AddFourthOnlyCounted(q: Pad, far: Near)
    requires Counted(q, 3) && -1 <= far.index < 3
    ensures Counted(AddFourthOnly(q, far), 4) && TouchesStay(q, AddFourthOnly(q, far))
  {
    if Far(far) {
      SwapNext(q, 3, far.index);
    } else {
      CloneAndAssignNext(CloneUpper(q, 2), 3);
    }
  }

  lemma AddThirdAndFourthCounted(q: Pad, far: Near, second: Near)
    requires Counted(q, 2) && JumpedAmong(far, second, 2)
    ensures Counted(AddThirdAndFourth(q, far, second), 4) && TouchesStay(q, AddThirdAndFourth(q, far, second))
  {
    if Far(far) {
      SwapNext(q, 2, far.index);
      var r := SwapFingers(q, 2, far.index);
      if Far(second) {
        SwapNext(r, 3, second.index);
        ExtendsFurther(q, r, SwapFingers(r, 3, second.index), 2, 3);
      } else {
        CloneAndAssignNext(r, 3);
        ExtendsFurther(q, r, CloneAndAssign(r, 3), 2, 3);
      }
    } else {
      CloneAndAssignNext(q, 2);
      var r := CloneAndAssign(q, 2);
      CloneAndAssignNext(r, 3);
      ExtendsFurther(q, r, CloneAndAssign(r, 3), 2, 3);
    }
  }

  /** With four fingers down a fifth one after a lift: the fourth contact is assigned again. */
  predicate MisplacesAfterLift(last: int, n: int) {
    n == 5 && last == 4
  }

  /** The first n contacts are mapped to different virtual fingers, the others nowhere. */
  predicate Distinct(f: seq<Finger>, n: int) {
    && (forall i :: 0 <= i < |f| && i < n ==> 0 <= f[i].vf)
    && (forall i, k :: 0 <= i < k < |f| && k < n ==> f[i].vf != f[k].vf)
    && (forall i :: 0 <= i < |f| && n <= i ==> f[i].vf == -1)
  }

  lemma CloneAgain(q: Pad)
    requires Counted(q, 4)
    ensures Distinct(CloneAndAssign(CloneUpper(q, 2), 3).f, 4)
    ensures TouchCount(CloneAndAssign(CloneUpper(q, 2), 3).v, |q.v|) == MAX_FINGERS
  {
    AssignNew(CloneUpper(CloneUpper(q, 2), 3), 3);
  }

  lemma FourthAgain(q: Pad, far: Near)
    requires Counted(q, 4) && -1 <= far.index < 4
    ensures Distinct(AddFourthOnly(q, far).f, 4)
    ensures TouchCount(AddFourthOnly(q, far).v, |q.v|) == MAX_FINGERS
  {
    if Far(far) {
      SwapAgain(q, far.index);
    } else {
      CloneAgain(q);
    }
  }

  lemma SwapAgain(q: Pad, src: Index)
    requires Counted(q, 4) && src < 4
    ensures Distinct(SwapFingers(q, 3, src).f, 4)
    ensures TouchCount(SwapFingers(q, 3, src).v, |q.v|) == MAX_FINGERS
  {
    if src != 3 {
      SwapMaps(q, 3, src);
    } else {
      var j := q.f[src].vf;
      AssignNew(q.(f := q.f[3 := q.f[3].(x := Average(q.v[j].xs), y := Average(q.v[j].ys), vf := j)]), src);
    }
  }

  lemma {:induction false} AllTouched(v: seq<VirtualFinger>, n: nat)
    requires n <= |v| && TouchCount(v, n) == n
    ensures forall j :: 0 <= j < n ==> v[j].touch
  {
    if n > 0 {
      AllTouched(v, n - 1);
    }
  }
}
