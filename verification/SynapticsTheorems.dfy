/** The tracker's promises over packets and runs of packets. */
module SynapticsTheorems {
  import opened Sets
  import opened SimpleAverages
  import opened SynapticsPad
  import opened SynapticsMap
  import opened SynapticsSteps
  import opened SynapticsRun

  /** Between packets: the last reported contacts are mapped one-to-one onto exactly the touched virtual fingers,
      every touched virtual finger has a sample, and no distance can overflow. */
  predicate AtRest(p: Pad) {
    Counted(p, p.last) && Sampled(p) && Bounded(p)
  }

  // ---- Before the map changes

  lemma ClipBounded(value: int, lo: nat, hi: nat)
    requires lo <= COORD && hi <= COORD && -0x8000_0000 <= value < 0x8000_0000
    ensures Small(ClipNoUpdate(value, lo, hi))
  {
  }

  lemma TruncHalf(a: int)
    requires -4 * COORD <= a <= 4 * COORD
    ensures -2 * COORD <= TruncDiv(a, 2) <= 2 * COORD
  {
  }

  lemma NewestSmall(w: seq<int>)
    requires SmallAll(w)
    ensures Small(Newest(w))
  {
  }

  lemma DraggedSmall(f: Finger, u: Finger, uv: VirtualFinger, env: Env)
    requires LimitsSmall(env) && Small(f.x) && Small(f.y) && Small(u.x) && Small(u.y) && SmallAll(uv.xs) && SmallAll(uv.ys)
    ensures Small(Dragged(f, u, uv, env).x) && Small(Dragged(f, u, uv, env).y)
  {
    ClipBounded(f.x + (u.x - Newest(uv.xs)), env.minX, env.maxX);
    ClipBounded(f.y + (u.y - Newest(uv.ys)), env.minY, env.maxY);
  }

  lemma UpperDragBounded(p: Pad, env: Env)
    requires Bounded(p) && LimitsSmall(env) && p.clamped == p.last >= 4 && p.f[0].vf != -1 && p.f[1].vf != -1
    ensures Bounded(DragImaginary(p, env))
  {
    var u := p.f[UpperIndex(p)];
    forall k | 0 <= k < MAX_FINGERS
      ensures Small(Dragged(p.f[k], u, p.v[u.vf], env).x) && Small(Dragged(p.f[k], u, p.v[u.vf], env).y)
    {
      DraggedSmall(p.f[k], u, p.v[u.vf], env);
    }
  }

  lemma DragBounded(p: Pad, env: Env)
    requires Bounded(p) && LimitsSmall(env)
    ensures Bounded(DragImaginary(p, env))
  {
    if p.clamped == p.last && p.clamped >= 3 && p.f[0].vf != -1 && p.f[1].vf != -1 {
      if p.clamped >= 4 {
        UpperDragBounded(p, env);
      } else {
        var f := DragImaginary(p, env).f[2];
        MeanDragSmall(p.f[2].x, p.f[0].x, p.v[p.f[0].vf].xs, p.f[1].x, p.v[p.f[1].vf].xs, env.minX, env.maxX);
        MeanDragSmall(p.f[2].y, p.f[0].y, p.v[p.f[0].vf].ys, p.f[1].y, p.v[p.f[1].vf].ys, env.minY, env.maxY);
        assert Small(f.x) && Small(f.y);
      }
    }
  }

  lemma MeanDragSmall(c: int, a0: int, w0: seq<int>, a1: int, w1: seq<int>, lo: nat, hi: nat)
    requires Small(c) && Small(a0) && Small(a1) && SmallAll(w0) && SmallAll(w1) && lo <= COORD && hi <= COORD
    ensures Small(ClipNoUpdate(c + TruncDiv((a0 - Newest(w0)) + (a1 - Newest(w1)), 2), lo, hi))
  {
    NewestSmall(w0);
    NewestSmall(w1);
    var d := (a0 - Newest(w0)) + (a1 - Newest(w1));
    TruncHalf(d);
    ClipBounded(c + TruncDiv(d, 2), lo, hi);
  }

  lemma DragKeepsMap(p: Pad, env: Env)
    ensures DragImaginary(p, env) == p.(f := DragImaginary(p, env).f)
    ensures forall i :: 0 <= i < MAX_FINGERS ==> DragImaginary(p, env).f[i].vf == p.f[i].vf
    ensures p.clamped < 3 ==> DragImaginary(p, env) == p
  {
  }

  /** The tracker once the packet's own contact is in and a single jumping finger is let go. */
  function Prepared(p: Pad, env: Env): Pad {
    UnpressJumped(DragImaginary(p, env))
  }

  lemma UnpressKeeps(d: Pad, n: int)
    requires Counted(d, n) && Bounded(d)
    ensures Counted(UnpressJumped(d), n) && Bounded(UnpressJumped(d))
  {
    if Jumped(d) {
      SameMapCounted(d, UnpressJumped(d), n);
    }
  }

  lemma PreparedKeeps(p: Pad, env: Env)
    requires Counted(p, p.last) && Bounded(p) && LimitsSmall(env)
    ensures Counted(Prepared(p, env), p.last) && Bounded(Prepared(p, env))
  {
    var d := DragImaginary(p, env);
    DragBounded(p, env);
    DragKeepsMap(p, env);
    SameMapCounted(p, d, p.last);
    UnpressKeeps(d, p.last);
  }

  /** How many fingers the renumbering settles on. */
  function Settled(p: Pad): int {
    if Jumped(p) then 0 else p.clamped
  }

  lemma PreparedRest(p: Pad, env: Env)
    ensures var q := Prepared(p, env);
            q.clamped == Settled(p) && q.last == p.last && q.hadLift == p.hadLift && q.skipped == p.skipped
    ensures !Jumped(p) ==> Prepared(p, env).v == p.v
    ensures Prepared(p, env).agm == p.agm && Prepared(p, env).lastSent == p.lastSent
  {
    DragKeepsMap(p, env);
  }

  lemma RenumberRest(t: Pad, env: Env)
    ensures var q := Renumber(t, env).p; q.last == t.last && q.agm == t.agm && q.lastSent == t.lastSent
  {
    PreparedRest(t, env);
    RemapRest(Prepared(t, env));
  }

  // ---- One packet

  /** The renumbering goes through and the count changes. */
  predicate Changes(t: Pad) {
    Settled(t) != t.last && !(Settled(t) > t.last && Settled(t) >= 3 && !t.skipped)
  }

  /** Exactly what breaks the map: a misplacing addition, or a change whose new count the quiet time keeps from being
      recorded. A fifth finger after a lift that is also not recorded cancels out. */
  predicate Breaks(t: Pad, env: Env) {
    Changes(t) && if Misplaces(t, Settled(t)) && t.hadLift then !env.quiet else env.quiet || Misplaces(t, Settled(t))
  }

  /** The packet is one that breaks the map. */
  predicate BreaksOn(p: Pad, b: Packet, env: Env) {
    IsNormal(b) && Breaks(TakeNormal(p, b, env), env)
  }

  lemma TakeNormalKeeps(p: Pad, b: Packet, env: Env)
    requires AtRest(p)
    ensures AtRest(TakeNormal(p, b, env))
    ensures TakeNormal(p, b, env).last == p.last
  {
    SameMapCounted(p, TakeNormal(p, b, env), p.last);
  }

  lemma AgmKeeps(p: Pad, b: Packet)
    requires AtRest(p)
    ensures AtRest(TakeAgm(p, b))
  {
    SecondFingerSmall(b, p.f[1].vf);
    SameMapCounted(p, TakeAgm(p, b), p.last);
  }

  lemma SecondFingerSmall(b: Packet, vf: int)
    ensures Small(SecondFinger(b, vf).x) && Small(SecondFinger(b, vf).y)
  {
  }

  lemma FilterKeepsCounted(p: Pad, n: int, k: nat)
    requires Counted(p, n) && k <= MAX_FINGERS
    ensures Counted(FilterFingers(p, k), n)
  {
    FilterKeeps(p, k);
    SameMapCounted(p, FilterFingers(p, k), n);
  }

  /** After feeding, every touched virtual finger has a sample: it is mapped by a contact that just fed it. */
  lemma FilterSamples(p: Pad, n: nat)
    requires n <= p.clamped && Counted(p, n)
    ensures Sampled(FilterFingers(p, p.clamped))
  {
    CountedIsOnto(p, n);
    FilterKeeps(p, p.clamped);
    FedByPrefix(p, n, p.clamped);
    var q := FilterFingers(p, p.clamped);
    forall j | 0 <= j < MAX_FINGERS && q.v[j].touch
      ensures HasSamples(q.v[j])
    {
      assert j in Image(p.f, Below(n));
      var i :| i in Below(n) && p.f[i].vf == j;
    }
  }

  lemma {:induction false} FedByPrefix(p: Pad, n: nat, k: nat)
    requires n <= k <= MAX_FINGERS && Counted(p, n)
    ensures forall i :: 0 <= i < n ==> HasSamples(FilterFingers(p, k).v[p.f[i].vf])
    decreases k
  {
    if k == n {
      FilterFeeds(p, n);
    } else {
      FedByPrefix(p, n, k - 1);
      FilterKeeps(p, k - 1);
    }
  }

  /** The renumbering by itself: the map is consistent for the new count unless the addition misplaces a contact. */
  lemma RenumberKeeps(t: Pad, env: Env)
    requires AtRest(t) && LimitsSmall(env) && Renumber(t, env).ready
    requires !(Changes(t) && Misplaces(t, Settled(t)))
    ensures var q := Renumber(t, env).p; Counted(q, q.clamped) && Sampled(q) && Bounded(q)
    ensures Renumber(t, env).p.clamped == Settled(t) && Renumber(t, env).p.last == t.last
  {
    PreparedKeeps(t, env);
    PreparedRest(t, env);
    var u := Prepared(t, env);
    RemapBounded(u);
    RemapRest(u);
    RemapCounted(u);
    var r := Remap(u);
    FilterBounded(r, r.clamped);
    FilterKeepsCounted(r, r.clamped, r.clamped);
    FilterSamples(r, r.clamped);
  }

  lemma RenumberMisplaces(t: Pad, env: Env)
    requires AtRest(t) && LimitsSmall(env) && Changes(t) && Misplaces(t, Settled(t))
    ensures var o := Renumber(t, env); o.ready && o.p.f[4].vf == -1 && o.p.clamped == 5 && o.p.last == t.last
    ensures t.hadLift ==> AtRest(Renumber(t, env).p)
    ensures !t.hadLift ==> TouchCount(Renumber(t, env).p.v, |t.v|) == MAX_FINGERS
  {
    PreparedKeeps(t, env);
    PreparedRest(t, env);
    var u := Prepared(t, env);
    RemapBounded(u);
    RemapRest(u);
    RemapMisplaces(u);
    var r := Remap(u);
    FilterBounded(r, r.clamped);
    FilterKeeps(r, r.clamped);
    if t.hadLift {
      FilterKeepsCounted(r, 4, r.clamped);
      FilterSamples(r, 4);
    } else {
      CountSame(r.v, FilterFingers(r, r.clamped).v, |r.v|);
    }
  }

  lemma SkipKeeps(t: Pad, env: Env)
    requires AtRest(t) && LimitsSmall(env) && !Renumber(t, env).ready
    ensures AtRest(Renumber(t, env).p) && !Changes(t)
  {
    PreparedKeeps(t, env);
    PreparedRest(t, env);
    var u := Prepared(t, env);
    SameMapCounted(u, u.(skipped := true), u.last);
  }

  /** The contacts last counted are mapped one-to-one onto exactly the touched virtual fingers. */
  ghost predicate MapRight(p: Pad) {
    Onto(p, Below(p.last))
  }

  lemma AtRestMapsRight(p: Pad)
    requires AtRest(p)
    ensures MapRight(p)
  {
    CountedIsOnto(p, p.last);
  }

  /** The map survives a packet if and only if the packet is not one of the breaking ones: then all that holds at rest
      holds again, and otherwise the map itself is wrong. */
  lemma PacketKeepsMapIff(p: Pad, b: Packet, env: Env)
    requires AtRest(p) && LimitsSmall(env) && IsNormal(b)
    ensures AtRest(Handle(p, b, env).p) <==> !Breaks(TakeNormal(p, b, env), env)
    ensures MapRight(Handle(p, b, env).p) <==> !Breaks(TakeNormal(p, b, env), env)
  {
    TakeNormalKeeps(p, b, env);
    var t := TakeNormal(p, b, env);
    var o := Renumber(t, env);
    PreparedRest(t, env);
    if !o.ready {
      SkipKeeps(t, env);
    } else if Changes(t) && Misplaces(t, Settled(t)) {
      RenumberMisplaces(t, env);
      SentAfterMisplacing(o.p, env);
    } else {
      RenumberKeeps(t, env);
      SentAfterRenumber(o.p, env);
    }
    if AtRest(Handle(p, b, env).p) {
      AtRestMapsRight(Handle(p, b, env).p);
    }
  }

  /** Without a misplacement, sending keeps the map exactly if the count did not change or is recorded now. */
  lemma SentAfterRenumber(q: Pad, env: Env)
    requires Counted(q, q.clamped) && Sampled(q) && Bounded(q)
    ensures AtRest(SendTouchData(q, env).p) <==> q.last == q.clamped || !env.quiet
    ensures q.last != q.clamped && env.quiet ==> !MapRight(SendTouchData(q, env).p)
  {
    if q.last != q.clamped && env.quiet {
      assert TouchCount(q.v, |q.v|) == q.clamped;
      WrongCount(q);
    }
  }

  /** If more or fewer virtual fingers are touched than were counted last, the map cannot be right. */
  lemma WrongCount(q: Pad)
    requires TouchCount(q.v, |q.v|) != q.last
    ensures !MapRight(q) && !AtRest(q)
  {
    if MapRight(q) {
      OntoCount(q, q.last);
    }
  }

  lemma SentAfterMisplacing(q: Pad, env: Env)
    requires q.f[4].vf == -1 && q.clamped == 5 && q.last < 5
    ensures !env.quiet ==> !AtRest(SendTouchData(q, env).p) && !MapRight(SendTouchData(q, env).p)
    ensures env.quiet ==> SendTouchData(q, env).p == q
    ensures env.quiet && TouchCount(q.v, |q.v|) == 5 ==> !AtRest(q) && !MapRight(q)
  {
    if !env.quiet {
      assert 4 in Below(SendTouchData(q, env).p.last);
    } else if TouchCount(q.v, |q.v|) == 5 {
      WrongCount(q);
    }
  }
}
