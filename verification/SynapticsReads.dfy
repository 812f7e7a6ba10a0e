/** What the renumbering reads: every window it takes a sample or an average from holds one, and no index is negative. */
module SynapticsReads {
  import opened SimpleAverages
  import opened SynapticsPad
  import opened SynapticsMap
  import opened SynapticsSteps
  import opened SynapticsRun
  import opened SynapticsTheorems

  /** The contact is mapped to a virtual finger whose windows can be read. */
  predicate Readable(p: Pad, i: Index) {
    0 <= p.f[i].vf && HasSamples(p.v[p.f[i].vf])
  }

  // ---- Inside the arrays

  /** The two places where the driver takes it for granted that a contact is mapped: a single finger that may have
      jumped, and the second contact when one or two fingers are added without a lift. */
  predicate InBounds(t: Pad) {
    && (t.clamped == t.last == 1 ==> 0 <= t.f[0].vf)
    && (t.last >= 2 && !t.hadLift && t.skipped && 1 <= t.clamped - t.last <= 2 ==> 0 <= t.f[1].vf)
  }

  lemma AtRestInBounds(t: Pad)
    requires AtRest(t)
    ensures InBounds(t)
  {
  }

  lemma PreparedInBounds(t: Pad, env: Env)
    requires InBounds(t)
    ensures InBounds(Prepared(t, env))
  {
    DragKeepsMap(t, env);
  }

  predicate MappedIndex(p: Pad, i: int) {
    i >= 0 ==> i < MAX_FINGERS && 0 <= p.f[i].vf
  }

  /** Whatever the map, the contacts remembered as having jumped are mapped ones. */
  lemma {:induction false} JumpsMapped(p: Pad, n: nat)
    requires n <= MAX_FINGERS
    ensures MappedIndex(MatchKept(p, n).p, MatchKept(p, n).far.index)
    ensures MappedIndex(MatchKept(p, n).p, MatchKept(p, n).second.index)
  {
    if n > 0 {
      JumpsMapped(p, n - 1);
      KeepStepMapped(MatchKept(p, n - 1), n - 1);
    }
  }

  lemma KeepStepMapped(m: Kept, j: Index)
    requires MappedIndex(m.p, m.far.index) && MappedIndex(m.p, m.second.index)
    ensures MappedIndex(KeepStep(m, j).p, KeepStep(m, j).far.index)
    ensures MappedIndex(KeepStep(m, j).p, KeepStep(m, j).second.index)
  {
  }

  lemma AssignKeepsMapped(p: Pad, i: int, k: int)
    requires MappedIndex(p, k)
    ensures MappedIndex(AssignVirtualFinger(p, i), k)
  {
  }

  lemma SwapKeepsMapped(p: Pad, dst: Index, src: Index, k: int)
    requires MappedIndex(p, k) && 0 <= p.f[src].vf
    ensures MappedIndex(SwapFingers(p, dst, src), k)
  {
    var j := p.f[src].vf;
    AssignKeepsMapped(p.(f := p.f[dst := p.f[dst].(x := Average(p.v[j].xs), y := Average(p.v[j].ys), vf := j)]), src, k);
  }

  /** So they can be swapped once the real contacts have their virtual fingers. */
  lemma JumpsMappedReal(p: Pad)
    ensures MappedIndex(KeptAndReal(p), MatchKept(p, |p.v|).far.index)
    ensures MappedIndex(KeptAndReal(p), MatchKept(p, |p.v|).second.index)
  {
    JumpsMapped(p, |p.v|);
    var m := MatchKept(p, |p.v|);
    AssignKeepsMapped(m.p, 0, m.far.index);
    AssignKeepsMapped(m.p, 0, m.second.index);
    AssignKeepsMapped(AssignIfUnmapped(m.p, 0), 1, m.far.index);
    AssignKeepsMapped(AssignIfUnmapped(m.p, 0), 1, m.second.index);
  }

  // ---- Samples to read

  /** The contacts that jumped are read when they are swapped, the second one after the first is. */
  predicate JumpsReadable(u: Pad) {
    var m, q := MatchKept(u, |u.v|), KeptAndReal(u);
    u.clamped >= 3 && Far(m.far) ==>
      && Readable(q, m.far.index)
      && (u.last < 3 && u.clamped >= 4 && Far(m.second) ==>
            Readable(SwapFingers(MeanZw(MeanZw(q, 2), 3), 2, m.far.index), m.second.index))
  }

  /** Branch by branch, the windows that the renumbering reads. */
  predicate ReadsSampled(t: Pad, env: Env) {
    && (t.clamped == t.last >= 3 ==> Readable(t, 0) && Readable(t, 1))
    && (t.clamped == t.last == 1 ==> Readable(t, 0))
    && var u := Prepared(t, env);
       u.last > 0 && u.clamped != u.last && !MustSkip(u) ==>
         if u.clamped < u.last then u.clamped > 0 ==> Sampled(u)
         else if u.hadLift then Sampled(u) && JumpsReadable(u)
         else u.last >= 2 && u.clamped - u.last <= 2 ==> Readable(u, 1)
  }

  /** A contact found again is readable, also once the real contacts have their virtual fingers. */
  lemma RealLeavesReadable(p: Pad, i: Index)
    requires Counted(p, p.last) && Bounded(p) && Sampled(p) && 0 < p.last && i < p.last
    ensures Readable(KeptAndReal(p), i)
  {
    KeptCounted(p);
    var m := MatchKept(p, |p.v|);
    assert Readable(m.p, i);
    if p.last == 1 {
      AssignNew(m.p, 1);
    }
  }

  lemma SwapLeavesReadable(p: Pad, dst: Index, src: Index, i: Index)
    requires Counted(p, 2) && src < 2 && i < 2 && i != src && dst >= 2 && Readable(p, i)
    ensures Readable(SwapFingers(p, dst, src), i)
  {
  }

  lemma SecondReadable(q: Pad, far: Index, second: Index)
    requires Counted(q, 2) && far < 2 && second < 2 && far != second && Readable(q, second)
    ensures Readable(SwapFingers(MeanZw(MeanZw(q, 2), 3), 2, far), second)
  {
    MeanZwCounted(q, 2, 2);
    MeanZwCounted(MeanZw(q, 2), 3, 2);
    SwapLeavesReadable(MeanZw(MeanZw(q, 2), 3), 2, far, second);
  }

  /** Once the kept fingers are found again, those that jumped can be read. */
  lemma JumpsCanBeRead(p: Pad)
    requires Bounded(p) && Counted(p, p.last) && Sampled(p) && 0 < p.last < p.clamped
    ensures JumpsReadable(p)
  {
    var m, q := MatchKept(p, |p.v|), KeptAndReal(p);
    KeptCounted(p);
    KeptAndRealCounted(p);
    if m.far.index >= 0 {
      RealLeavesReadable(p, m.far.index);
    }
    if m.far.index >= 0 && m.second.index >= 0 && p.last < 3 {
      RealLeavesReadable(p, m.second.index);
      SecondReadable(q, m.far.index, m.second.index);
    }
  }

  lemma MappedReadable(p: Pad, n: int, i: Index)
    requires Counted(p, n) && Sampled(p) && i < n
    ensures Readable(p, i)
  {
  }

  /** From a tracker at rest no branch reads an empty window. */
  lemma ReadsAreSampled(t: Pad, env: Env)
    requires AtRest(t) && LimitsSmall(env)
    ensures ReadsSampled(t, env)
  {
    PreparedKeeps(t, env);
    PreparedRest(t, env);
    if t.last >= 1 {
      MappedReadable(t, t.last, 0);
    }
    if t.last >= 2 {
      MappedReadable(t, t.last, 1);
    }
    var u := Prepared(t, env);
    if u.last > 0 && u.clamped != u.last && u.clamped > 0 {
      BranchReads(u);
    }
  }

  lemma BranchReads(u: Pad)
    requires AtRest(u) && u.last > 0 && u.clamped != u.last && u.clamped > 0
    ensures u.clamped > u.last ==> JumpsReadable(u)
    ensures u.last >= 2 ==> Readable(u, 1)
  {
    if u.clamped > u.last {
      JumpsCanBeRead(u);
    }
    if u.last >= 2 {
      MappedReadable(u, u.last, 1);
    }
  }
}
