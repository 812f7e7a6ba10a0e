/** Maps of physical to virtual fingers that are one-to-one, the range of coordinates, and the two searches for the nearest
    finger. */
module SynapticsMap {
  import opened Sets
  import opened SimpleAverages
  import opened SynapticsPad
  import opened Numbers

  // ---- Consistent maps

  ghost function Image(f: seq<Finger>, D: set<int>): set<int>
    requires forall i :: i in D ==> 0 <= i < |f|
  {
    set i | i in D :: f[i].vf
  }

  ghost predicate Injective(f: seq<Finger>, D: set<int>)
    requires forall i :: i in D ==> 0 <= i < |f|
  {
    forall i, k :: i in D && k in D && i != k ==> f[i].vf != f[k].vf
  }

  /** The contacts in D are mapped one-to-one onto exactly the touched virtual fingers. */
  ghost predicate Onto(p: Pad, D: set<int>) {
    && (forall i :: i in D ==> 0 <= i < MAX_FINGERS && 0 <= p.f[i].vf)
    && Injective(p.f, D)
    && (forall j :: 0 <= j < MAX_FINGERS ==> (p.v[j].touch <==> j in Image(p.f, D)))
  }

  lemma {:induction false} ImageSize(f: seq<Finger>, D: set<int>)
    requires forall i :: i in D ==> 0 <= i < |f|
    requires Injective(f, D)
    ensures |Image(f, D)| == |D|
  {
    if D != {} {
      var i := Pick(D);
      ImageSize(f, D - {i});
      assert Image(f, D) == Image(f, D - {i}) + {f[i].vf};
    }
  }

  /** Mapping one more contact to an unused virtual finger. */
  lemma ImageExtends(f: seq<Finger>, D: set<int>, i: int, j: int)
    requires (forall k :: k in D ==> 0 <= k < |f|) && 0 <= i < |f|
    requires i !in D && Injective(f, D) && j !in Image(f, D)
    ensures Injective(f[i := f[i].(vf := j)], D + {i})
    ensures Image(f[i := f[i].(vf := j)], D + {i}) == Image(f, D) + {j}
  {
    var g := f[i := f[i].(vf := j)];
    assert g[i].vf == j;
    forall k | k in D
      ensures g[k].vf == f[k].vf && g[k].vf in Image(f, D)
    {
    }
    forall x | x in Image(f, D) + {j}
      ensures x in Image(g, D + {i})
    {
      if x != j {
        var k :| k in D && f[k].vf == x;
        assert g[k].vf == x;
      } else {
        assert g[i].vf == x;
      }
    }
  }

  lemma NearestFinds(cost: seq<int>, i: Index)
    requires |cost| == MAX_FINGERS && cost[i] < INT_MAX
    ensures 0 <= Nearest(cost).index
    ensures cost[Nearest(cost).index] < INT_MAX
  {
  }

  // ---- Coordinates stay small enough for C++ int

  const COORD := 16383

  predicate Small(x: int) {
    -COORD <= x <= COORD
  }

  predicate SmallAll(w: seq<int>) {
    forall k :: 0 <= k < |w| ==> Small(w[k])
  }

  predicate Bounded(p: Pad) {
    && (forall i :: 0 <= i < MAX_FINGERS ==> Small(p.f[i].x) && Small(p.f[i].y))
    && (forall j :: 0 <= j < MAX_FINGERS ==> SmallAll(p.v[j].xs) && SmallAll(p.v[j].ys))
  }

  predicate LimitsSmall(env: Env) {
    env.minX <= COORD && env.maxX <= COORD && env.minY <= COORD && env.maxY <= COORD
  }

  lemma SqrBound(a: int)
    requires -2 * COORD <= a <= 2 * COORD
    ensures 0 <= Sqr(a) <= Sqr(2 * COORD)
  {
    var b := if a < 0 then -a else a;
    assert Sqr(b) == Sqr(a);
    MulMonotone(b, 2 * COORD, b);
    MulMonotone(b, 2 * COORD, 2 * COORD);
  }

  /** The squared distance never overflows an int, so a touched virtual finger is always a candidate. */
  lemma DistFitsInt(p: Pad, i: Index, j: Index)
    requires Bounded(p)
    ensures 0 <= Dist(p, i, j) < INT_MAX
  {
    var vx, vy := p.v[j].xs, p.v[j].ys;
    assert Small(Newest(vx)) && Small(Newest(vy));
    SqrBound(p.f[i].x - Newest(vx));
    SqrBound(p.f[i].y - Newest(vy));
  }

  lemma AverageSmall(w: seq<int>)
    requires SmallAll(w)
    ensures Small(Average(w))
  {
    if w != [] {
      AverageBounds(w, -COORD, COORD);
    }
  }

  lemma SwapBounded(p: Pad, dst: Index, src: Index)
    requires Bounded(p)
    ensures Bounded(SwapFingers(p, dst, src))
  {
    var j := p.f[src].vf;
    if j >= 0 {
      AverageSmall(p.v[j].xs);
      AverageSmall(p.v[j].ys);
    }
  }

  lemma MatchLiftedBounded(p: Pad, n: nat)
    requires n <= MAX_FINGERS && Bounded(p)
    ensures Bounded(MatchLifted(p, n).p)
  {
    if n > 0 {
      MatchLiftedBounded(p, n - 1);
    }
  }

  lemma MatchKeptBounded(p: Pad, n: nat)
    requires n <= MAX_FINGERS && Bounded(p)
    ensures Bounded(MatchKept(p, n).p)
  {
    if n > 0 {
      hide KeepStep, Bounded;
      MatchKeptBounded(p, n - 1);
      KeepStepBounded(MatchKept(p, n - 1), n - 1);
    } else {
      ClearMapBounded(p);
    }
  }

  lemma ClearMapBounded(p: Pad)
    requires Bounded(p)
    ensures Bounded(ClearMap(p))
  {
  }

  lemma KeepStepBounded(m: Kept, j: Index)
    requires Bounded(m.p)
    ensures Bounded(KeepStep(m, j).p)
  {
    hide Nearest, KeepCost;
  }

  lemma AddFirstBounded(p: Pad, n: nat)
    requires n <= MAX_FINGERS && Bounded(p)
    ensures Bounded(AddFirst(p, n))
  {
    if n > 0 {
      AddFirstBounded(p, n - 1);
    }
  }

  lemma FilterBounded(p: Pad, n: nat)
    requires n <= MAX_FINGERS && Bounded(p)
    ensures Bounded(FilterFingers(p, n))
  {
    if n > 0 {
      FilterBounded(p, n - 1);
    }
  }

  lemma AssignBounded(p: Pad, i: int)
    requires Bounded(p)
    ensures Bounded(AssignVirtualFinger(p, i))
  {
  }

  lemma CloneBounded(p: Pad, i: Index)
    requires Bounded(p)
    ensures Bounded(CloneUpper(p, i))
    ensures Bounded(CloneAndAssign(p, i))
  {
    AssignBounded(CloneUpper(p, i), i);
  }

  lemma AddThirdBounded(p: Pad, far: Near)
    requires far.index < MAX_FINGERS && Bounded(p)
    ensures Bounded(AddThird(p, far))
  {
    var q := MeanZw(p, 2);
    if Far(far) {
      SwapBounded(q, 2, far.index);
    } else {
      var u := q.f[UpperIndex(q)];
      AssignBounded(q.(f := q.f[2 := q.f[2].(x := u.x, y := u.y)]), 2);
    }
  }

  lemma AddThirdAndFourthBounded(q: Pad, far: Near, second: Near)
    requires far.index < MAX_FINGERS && second.index < MAX_FINGERS && Bounded(q)
    ensures Bounded(AddThirdAndFourth(q, far, second))
  {
    if Far(far) {
      SwapBounded(q, 2, far.index);
      var r := SwapFingers(q, 2, far.index);
      if Far(second) {
        SwapBounded(r, 3, second.index);
      } else {
        CloneBounded(r, 3);
      }
    } else {
      CloneBounded(q, 2);
      CloneBounded(CloneAndAssign(q, 2), 3);
    }
  }

  lemma AddFourthBounded(p: Pad, far: Near, second: Near)
    requires far.index < MAX_FINGERS && second.index < MAX_FINGERS && Bounded(p)
    ensures Bounded(AddFourth(p, far, second))
  {
    var q := MeanZw(MeanZw(p, 2), 3);
    if p.last < 3 {
      AddThirdAndFourthBounded(q, far, second);
    } else if Far(far) {
      SwapBounded(q, 3, far.index);
    } else {
      CloneBounded(q, 2);
      CloneBounded(CloneUpper(q, 2), 3);
    }
  }

  lemma AssignIfUnmappedBounded(p: Pad, i: Index)
    requires Bounded(p)
    ensures Bounded(AssignIfUnmapped(p, i))
  {
    AssignBounded(p, i);
  }

  lemma KeptAndRealBounded(p: Pad)
    requires Bounded(p)
    ensures Bounded(KeptAndReal(p))
  {
    var kept := MatchKept(p, |p.v|).p;
    MatchKeptBounded(p, |p.v|);
    AssignIfUnmappedBounded(kept, 0);
    AssignIfUnmappedBounded(AssignIfUnmapped(kept, 0), 1);
  }

  lemma AddNewBounded(q: Pad, far: Near, second: Near)
    requires far.index < MAX_FINGERS && second.index < MAX_FINGERS && Bounded(q)
    ensures Bounded(AddNew(q, far, second))
  {
    if q.clamped == 3 {
      AddThirdBounded(q, far);
    } else if q.clamped > 3 {
      AddFourthBounded(q, far, second);
      CloneBounded(AddFourth(q, far, second), 4);
    }
  }

  lemma MarkBounded(p: Pad)
    requires Bounded(p)
    ensures Bounded(FreeAndMark(p))
  {
    var q := FreeAndMark(p);
    assert q.f == p.f;
    forall j | 0 <= j < MAX_FINGERS
      ensures q.v[j].xs == [] && q.v[j].ys == []
    {
    }
  }

  lemma AddAfterLiftBounded(p: Pad)
    requires 0 < p.last < p.clamped && Bounded(p)
    ensures Bounded(AddAfterLift(p))
  {
    var m := MatchKept(p, |p.v|);
    KeptAndRealBounded(p);
    AddNewBounded(KeptAndReal(p), m.far, m.second);
    MarkBounded(AddNew(KeptAndReal(p), m.far, m.second));
  }

  lemma LiftBounded(p: Pad)
    requires Bounded(p)
    ensures Bounded(LiftFingers(p))
  {
    var q := p.(hadLift := p.clamped > 0);
    MatchLiftedBounded(q, p.clamped);
    MarkBounded(MatchLifted(q, p.clamped).p);
  }

  lemma {:induction false} CloneMoreBounded(p: Pad, n: nat)
    requires 2 <= n <= MAX_FINGERS && Bounded(p)
    ensures Bounded(CloneMore(p, n))
  {
    if n > 2 {
      CloneMoreBounded(p, n - 1);
      CloneBounded(CloneMore(p, n - 1), n - 1);
    }
  }

  lemma AddFreshBounded(p: Pad)
    requires 0 < p.last < p.clamped && Bounded(p)
    ensures Bounded(AddFresh(p))
  {
    var added := p.clamped - p.last;
    if p.last >= 2 && added <= 2 {
      SwapBounded(p, p.last, 1);
      CloneBounded(SwapFingers(p, p.last, 1), 3);
    } else {
      AssignBounded(p, 1);
      CloneMoreBounded(AssignVirtualFinger(p, 1), added + 1);
    }
  }

  lemma RemapBounded(p: Pad)
    requires Bounded(p)
    ensures Bounded(Remap(p))
  {
    if p.clamped != p.last {
      var q := if p.clamped > p.last && p.clamped >= 3 then p.(skipped := false) else p;
      if p.last == 0 {
        AddFirstBounded(q, p.clamped);
      } else if p.clamped > p.last {
        if p.hadLift {
          AddAfterLiftBounded(q);
        } else {
          AddFreshBounded(q);
        }
      } else {
        LiftBounded(q);
      }
    }
  }

  lemma InitialConsistent()
    ensures Onto(INITIAL_PAD, Below(INITIAL_PAD.last)) && Bounded(INITIAL_PAD)
  {
  }

  /** A tracker whose contacts that were down are mapped one-to-one onto the touched virtual fingers. */
  type Consistent = p: Pad | Bounded(p) && Onto(p, Below(p.last)) ghost witness (InitialConsistent(); INITIAL_PAD)

  // ---- Finding the fingers again

  ghost function Touched(v: seq<VirtualFinger>, n: nat): (t: set<int>)
    requires n <= |v|
    ensures forall j :: j in t <==> 0 <= j < n && v[j].touch
  {
    if n == 0 then {} else Touched(v, n - 1) + (if v[n - 1].touch then {n - 1} else {})
  }

  ghost function MappedBelow(f: seq<Finger>, n: nat): (m: set<int>)
    requires n <= |f|
    ensures forall i :: i in m <==> 0 <= i < n && f[i].vf >= 0
  {
    if n == 0 then {} else MappedBelow(f, n - 1) + (if f[n - 1].vf >= 0 then {n - 1} else {})
  }

  ghost function MappedContacts(p: Pad): (m: set<int>)
    ensures forall i :: i in m <==> 0 <= i < MAX_FINGERS && p.f[i].vf >= 0
  {
    MappedBelow(p.f, |p.f|)
  }

  lemma TouchedCount(p: Pad, D: set<int>)
    requires Onto(p, D)
    ensures Touched(p.v, |p.v|) == Image(p.f, D)
    ensures |Touched(p.v, |p.v|)| == |D|
  {
    ImageSize(p.f, D);
    forall j
      ensures j in Touched(p.v, |p.v|) <==> j in Image(p.f, D)
    {
      if j in Image(p.f, D) {
        var i :| i in D && p.f[i].vf == j;
      }
    }
  }

  /** Everything but the map is as in p. */
  ghost predicate OnlyMapDiffers(p: Pad, q: Pad) {
    && q == p.(f := q.f)
    && (forall i :: 0 <= i < MAX_FINGERS ==> q.f[i] == p.f[i].(vf := q.f[i].vf))
  }

  /** The contacts that are mapped at all are among the first `last`, one-to-one onto the targets. */
  ghost predicate MapsOnto(f: seq<Finger>, last: int, targets: set<int>) {
    var D := MappedBelow(f, |f|);
    D <= Below(last) && Injective(f, D) && Image(f, D) == targets
  }

  lemma MapsOntoOneMore(f: seq<Finger>, last: int, targets: set<int>, i: int, j: int)
    requires MapsOnto(f, last, targets)
    requires 0 <= i < last && i < |f| && f[i].vf < 0 <= j && j !in targets
    ensures MapsOnto(f[i := f[i].(vf := j)], last, targets + {j})
    ensures MappedBelow(f[i := f[i].(vf := j)], |f|) == MappedBelow(f, |f|) + {i}
  {
    var g := f[i := f[i].(vf := j)];
    ImageExtends(f, MappedBelow(f, |f|), i, j);
    forall k
      ensures k in MappedBelow(g, |f|) <==> k in MappedBelow(f, |f|) + {i}
    {
    }
    assert MappedBelow(g, |f|) == MappedBelow(f, |f|) + {i};
  }

  /** The contacts remembered as having jumped are mapped ones, and different. */
  ghost predicate JumpsKnown(m: Kept) {
    var D := MappedContacts(m.p);
    && (m.far.index >= 0 ==> m.far.index in D)
    && (m.second.index >= 0 ==> m.second.index in D && m.far.index >= 0 && m.second.index != m.far.index)
  }

  /** The matching has mapped some contacts one-to-one onto the touched virtual fingers below n. */
  ghost predicate PartlyKept(p: Pad, m: Kept, n: nat)
    requires n <= MAX_FINGERS
  {
    OnlyMapDiffers(p, m.p) && MapsOnto(m.p.f, p.last, Touched(p.v, n)) && JumpsKnown(m)
  }

  lemma NothingKept(p: Pad)
    ensures PartlyKept(p, MatchKept(p, 0), 0)
  {
    NothingMapped(ClearMap(p));
  }

  lemma {:induction false} MatchKeptFinds(p: Consistent, n: nat)
    requires n <= MAX_FINGERS
    ensures PartlyKept(p, MatchKept(p, n), n)
  {
    hide KeepStep, Nearest, KeepCost, PartlyKept, Bounded, Onto, Below;
    if n == 0 {
      NothingKept(p);
    } else {
      MatchKeptFinds(p, n - 1);
      var m := MatchKept(p, n - 1);
      if p.v[n - 1].touch {
        FreeContact(p, m, n);
      }
      KeepStepFinds(p, m, n);
    }
  }

  lemma KeepStepFinds(p: Pad, m: Kept, n: nat)
    requires 0 < n <= MAX_FINGERS && PartlyKept(p, m, n - 1)
    requires var i := Nearest(KeepCost(m.p, n - 1)).index; p.v[n - 1].touch ==> 0 <= i < p.last && m.p.f[i].vf == -1
    ensures PartlyKept(p, KeepStep(m, n - 1), n)
  {
    if p.v[n - 1].touch {
      var c := Nearest(KeepCost(m.p, n - 1));
      KeepStepMaps(p, m.p, n, c.index);
      SetVfOnlyMap(p, m.p, c.index, n - 1);
      MappedOneMore(m.p, c.index, n - 1);
      JumpsAfter(m, c, n - 1);
    }
  }

  lemma SetVfOnlyMap(p: Pad, q: Pad, i: Index, j: Index)
    requires OnlyMapDiffers(p, q)
    ensures OnlyMapDiffers(p, SetVf(q, i, j))
  {
  }

  lemma MappedOneMore(q: Pad, i: Index, j: Index)
    ensures MappedContacts(SetVf(q, i, j)) == MappedContacts(q) + {i}
  {
    var r := SetVf(q, i, j);
    forall k
      ensures k in MappedContacts(r) <==> k in MappedContacts(q) + {i}
    {
    }
  }

  lemma JumpsAfter(m: Kept, c: Near, j: Index)
    requires JumpsKnown(m) && 0 <= c.index < MAX_FINGERS && c.index !in MappedContacts(m.p)
    requires MappedContacts(SetVf(m.p, c.index, j)) == MappedContacts(m.p) + {c.index}
    ensures JumpsKnown(Kept(SetVf(m.p, c.index, j), c, m.far)) && JumpsKnown(Kept(SetVf(m.p, c.index, j), m.far, m.second))
  {
  }

  lemma TouchedNext(v: seq<VirtualFinger>, n: nat)
    requires 0 < n <= |v| && v[n - 1].touch
    ensures Touched(v, n) == Touched(v, n - 1) + {n - 1} && n - 1 !in Touched(v, n - 1)
    ensures |Touched(v, n - 1)| < |Touched(v, |v|)|
  {
    var below, all := Touched(v, n - 1) + {n - 1}, Touched(v, |v|);
    forall j | j in below
      ensures j in all
    {
    }
    SubsetSize(below, all);
  }

  lemma KeepStepMaps(p: Pad, q: Pad, n: nat, i: Index)
    requires 0 < n <= MAX_FINGERS && MapsOnto(q.f, p.last, Touched(p.v, n - 1))
    requires p.v[n - 1].touch && i < p.last && q.f[i].vf == -1
    ensures MapsOnto(SetVf(q, i, n - 1).f, p.last, Touched(p.v, n))
  {
    TouchedNext(p.v, n);
    MapsOntoOneMore(q.f, p.last, Touched(p.v, n - 1), i, n - 1);
  }

  /** While touched virtual fingers remain, so do unmapped contacts: the search never comes back empty. */
  lemma FreeContact(p: Consistent, m: Kept, n: nat)
    requires 0 < n <= MAX_FINGERS
    requires PartlyKept(p, m, n - 1) && p.v[n - 1].touch
    ensures var i := Nearest(KeepCost(m.p, n - 1)).index; 0 <= i < p.last && m.p.f[i].vf == -1
  {
    var D := MappedContacts(m.p);
    FewerMapped(p, m, n);
    var i := PickOutside(Below(p.last), D);
    DistFitsInt(m.p, i, n - 1);
    NearestFinds(KeepCost(m.p, n - 1), i);
  }

  lemma FewerMapped(p: Consistent, m: Kept, n: nat)
    requires 0 < n <= MAX_FINGERS
    requires PartlyKept(p, m, n - 1) && p.v[n - 1].touch
    ensures |MappedContacts(m.p)| < p.last
  {
    TouchedCount(p, Below(p.last));
    MappedSize(m.p.f, p.last, Touched(p.v, n - 1));
    TouchedNext(p.v, n);
  }

  lemma MappedSize(f: seq<Finger>, last: int, targets: set<int>)
    requires MapsOnto(f, last, targets)
    ensures |MappedBelow(f, |f|)| == |targets|
  {
    ImageSize(f, MappedBelow(f, |f|));
  }

  /** Every contact that was down is found again. */
  lemma MatchKeptOnto(p: Consistent)
    ensures Onto(MatchKept(p, |p.v|).p, Below(p.last))
    ensures MappedContacts(MatchKept(p, |p.v|).p) == Below(p.last)
    ensures PartlyKept(p, MatchKept(p, |p.v|), |p.v|)
  {
    MatchKeptFinds(p, |p.v|);
    var m := MatchKept(p, |p.v|);
    var D := MappedContacts(m.p);
    TouchedCount(p, Below(p.last));
    ImageSize(m.p.f, D);
    SubsetSize(D, Below(p.last));
  }

  /** The first n contacts are mapped one-to-one to the used virtual fingers, the others nowhere. */
  ghost predicate PartlyLifted(p: Pad, m: Lifted, n: nat)
    requires n <= MAX_FINGERS && |m.used| == MAX_FINGERS
  {
    && OnlyMapDiffers(p, m.p)
    && MappedContacts(m.p) == Below(n)
    && MapsOnto(m.p.f, n, Used(m.used, |m.used|))
    && Used(m.used, |m.used|) <= Touched(p.v, |p.v|)
  }

  ghost function Used(used: seq<bool>, n: nat): (s: set<int>)
    requires n <= |used|
    ensures forall j :: j in s <==> 0 <= j < n && used[j]
  {
    if n == 0 then {} else Used(used, n - 1) + (if used[n - 1] then {n - 1} else {})
  }

  lemma NothingMapped(q: Pad)
    requires forall i :: 0 <= i < MAX_FINGERS ==> q.f[i].vf == -1
    ensures MappedContacts(q) == {}
  {
    forall i
      ensures i !in MappedContacts(q)
    {
    }
  }

  lemma NothingUsed(used: seq<bool>)
    requires forall j :: 0 <= j < |used| ==> !used[j]
    ensures Used(used, |used|) == {}
  {
    forall j
      ensures j !in Used(used, |used|)
    {
    }
  }

  /** The matching after a lift has found the first n contacts. */
  ghost predicate Lifts(p: Pad, n: nat)
    requires n <= MAX_FINGERS
  {
    var found := PartlyLifted(p, MatchLifted(p, n), n);
    found
  }

  lemma NoneLifted(p: Pad, n: nat)
    requires n == 0
    ensures Lifts(p, n)
  {
    var m := MatchLifted(p, n);
    NothingMapped(m.p);
    NothingUsed(m.used);
  }

  /** Coordinates are small, and there are k touched virtual fingers; nothing is said of the map. */
  ghost predicate TouchesMany(p: Pad, k: nat) {
    var many := Bounded(p) && k == |Touched(p.v, |p.v|)|;
    many
  }

  lemma NextLifted(p: Pad, n: nat, k: nat)
    requires 0 < n <= MAX_FINGERS && n <= k && TouchesMany(p, k) && Lifts(p, n - 1)
    ensures Lifts(p, n)
  {
    var m := MatchLifted(p, n - 1);
    FreeVirtual(p, m, n, k);
    LiftStepFinds(p, m, n);
  }

  lemma {:induction false} OneMoreLifted(p: Pad, n: nat, k: nat)
    requires 0 < n <= MAX_FINGERS && n <= k && TouchesMany(p, k)
    ensures Lifts(p, n)
    decreases n, 0
  {
    hide *;
    MatchLiftedFinds(p, n - 1, k);
    NextLifted(p, n, k);
  }

  /** As long as there are touched virtual fingers for them, the contacts find different ones, whatever the map was. */
  lemma {:induction false} MatchLiftedFinds(p: Pad, n: nat, k: nat)
    requires n <= MAX_FINGERS && n <= k && TouchesMany(p, k)
    ensures Lifts(p, n)
    decreases n, 1
  {
    if n == 0 {
      NoneLifted(p, n);
    } else {
      OneMoreLifted(p, n, k);
    }
  }

  lemma UsedExtends(used: seq<bool>, j: nat)
    requires j < |used|
    ensures Used(used[j := true], |used|) == Used(used, |used|) + {j}
  {
    var marked := used[j := true];
    forall k
      ensures k in Used(marked, |used|) <==> k in Used(used, |used|) + {j}
    {
    }
  }

  lemma LiftStepFinds(p: Pad, m: Lifted, n: nat)
    requires 0 < n <= MAX_FINGERS && |m.used| == MAX_FINGERS && PartlyLifted(p, m, n - 1)
    requires var j := Nearest(LiftCost(m.p, n - 1, m.used)).index; 0 <= j && p.v[j].touch && !m.used[j]
    ensures PartlyLifted(p, LiftStep(m, n - 1), n)
  {
    var j := Nearest(LiftCost(m.p, n - 1, m.used)).index;
    UsedExtends(m.used, j);
    LiftStepMaps(p, m.p, n, j, Used(m.used, |m.used|));
  }

  lemma LiftStepMaps(p: Pad, q: Pad, n: nat, j: Index, used: set<int>)
    requires 0 < n <= MAX_FINGERS && OnlyMapDiffers(p, q) && MappedContacts(q) == Below(n - 1)
    requires MapsOnto(q.f, n - 1, used) && j !in used
    ensures OnlyMapDiffers(p, SetVf(q, n - 1, j))
    ensures MapsOnto(SetVf(q, n - 1, j).f, n, used + {j})
    ensures MappedContacts(SetVf(q, n - 1, j)) == Below(n)
  {
    assert n - 1 !in MappedContacts(q);
    MapsOntoOneMore(q.f, n, used, n - 1, j);
    SetVfOnlyMap(p, q, n - 1, j);
    MappedOneMore(q, n - 1, j);
  }

  lemma UnusedVirtual(p: Pad, m: Lifted, n: nat, k: nat) returns (j: Index)
    requires 0 < n <= MAX_FINGERS && n <= k && TouchesMany(p, k) && |m.used| == MAX_FINGERS && PartlyLifted(p, m, n - 1)
    ensures p.v[j].touch && !m.used[j]
  {
    ImageSize(m.p.f, Below(n - 1));
    j := PickOutside(Touched(p.v, |p.v|), Used(m.used, |m.used|));
  }

  /** Fewer contacts than touched virtual fingers leave one unused: the search never comes back empty. */
  lemma FreeVirtual(p: Pad, m: Lifted, n: nat, k: nat)
    requires 0 < n <= MAX_FINGERS && n <= k && TouchesMany(p, k)
    requires |m.used| == MAX_FINGERS && PartlyLifted(p, m, n - 1)
    ensures var j := Nearest(LiftCost(m.p, n - 1, m.used)).index; 0 <= j && p.v[j].touch && !m.used[j]
  {
    hide LiftCost, Nearest, Dist, PartlyLifted, Bounded;
    var j := UnusedVirtual(p, m, n, k);
    LiftedVirtuals(p, m, n - 1);
    DistFitsInt(m.p, n - 1, j);
    LiftCostIs(p, m.p, n - 1, m.used, j);
    NearestFinds(LiftCost(m.p, n - 1, m.used), j);
    LiftCostIs(p, m.p, n - 1, m.used, Nearest(LiftCost(m.p, n - 1, m.used)).index);
  }

  lemma LiftedVirtuals(p: Pad, m: Lifted, n: nat)
    requires n <= MAX_FINGERS && |m.used| == MAX_FINGERS && PartlyLifted(p, m, n) && Bounded(p)
    ensures m.p.v == p.v && Bounded(m.p)
  {
  }

  lemma LiftCostIs(p: Pad, q: Pad, i: Index, used: seq<bool>, j: Index)
    requires |used| == MAX_FINGERS && q.v == p.v
    ensures |LiftCost(q, i, used)| == MAX_FINGERS
    ensures LiftCost(q, i, used)[j] == if p.v[j].touch && !used[j] then Dist(q, i, j) else INT_MAX
  {
    hide Dist;
  }

  lemma MarkedIffImage(f: seq<Finger>, clamped: int, n: nat, j: int)
    requires n <= clamped <= |f| && MappedBelow(f, |f|) == Below(n) && 0 <= j
    ensures Mapped(f, clamped, j) <==> j in Image(f, Below(n))
  {
    if Mapped(f, clamped, j) {
      var i :| 0 <= i < clamped && f[i].vf == j;
      assert i in MappedBelow(f, |f|);
    }
    if j in Image(f, Below(n)) {
      var i :| i in Below(n) && f[i].vf == j;
      assert f[i].vf == j;
    }
  }

  lemma FreeAndMarkOnto(p: Pad, n: nat)
    requires n <= p.clamped && MappedContacts(p) == Below(n) && Injective(p.f, Below(n))
    ensures Onto(FreeAndMark(p), Below(n))
  {
    var q := FreeAndMark(p);
    assert q.f == p.f;
    forall i | i in Below(n)
      ensures 0 <= i < MAX_FINGERS && 0 <= p.f[i].vf
    {
      assert i in MappedContacts(p);
    }
    forall j | 0 <= j < MAX_FINGERS
      ensures q.v[j].touch <==> j in Image(q.f, Below(n))
    {
      MarkedIffImage(p.f, p.clamped, n, j);
    }
  }
}
