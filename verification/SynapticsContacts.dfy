/** What the host sees of the tracker: its reports, over packets and over runs. */
module SynapticsContacts {
  import opened SimpleAverages
  import opened SynapticsPad
  import opened SynapticsMap
  import opened SynapticsSteps
  import opened SynapticsRun
  import opened SynapticsTheorems

  // ---- One report

  /** One contact for each touched virtual finger below n, in the order of their numbers, at its average position. */
  predicate ListsTouched(p: Pad, cs: seq<Contact>, n: nat)
    requires n <= MAX_FINGERS
  {
    && |cs| == TouchCount(p.v, n)
    && (forall k :: 0 <= k < |cs| ==> cs[k].id < n && p.v[cs[k].id].touch
                                      && cs[k].x == Average(p.v[cs[k].id].xs) && cs[k].y == Average(p.v[cs[k].id].ys)
                                      && cs[k].width == p.v[cs[k].id].pressure / 2)
    && (forall k, l :: 0 <= k < l < |cs| ==> cs[k].id < cs[l].id)
  }

  lemma {:induction false} ContactsListTouched(p: Pad, n: nat)
    requires n <= MAX_FINGERS
    ensures ListsTouched(p, ContactsUpTo(p, n), n)
  {
    if n > 0 {
      ContactsListTouched(p, n - 1);
    }
  }

  /** The contact's virtual finger ends with its position and has its pressure. */
  predicate Shows(q: Pad, i: nat) {
    && i < MAX_FINGERS && 0 <= q.f[i].vf
    && Newest(q.v[q.f[i].vf].xs) == q.f[i].x && Newest(q.v[q.f[i].vf].ys) == q.f[i].y
    && q.v[q.f[i].vf].pressure == q.f[i].z % 256
  }

  lemma SentReport(r: Pad, env: Env)
    requires SendTouchData(r, env).report.Report?
    ensures var s := SendTouchData(r, env);
            && s.report.contacts == ContactsUpTo(r, |r.v|) && r.last == r.clamped
            && s.p == r.(lastSent := |s.report.contacts|)
  {
  }

  /** Nothing of this depends on what was sent last. */
  lemma SentShows(r: Pad, n: nat, cs: seq<Contact>)
    requires Counted(r, r.last) && Sampled(r) && Bounded(r) && ListsTouched(r, cs, |r.v|)
    ensures var q := r.(lastSent := n);
            AtRest(q) && ListsTouched(q, cs, |q.v|) && forall i :: 0 <= i < |cs| ==> Shows(q, i) == Shows(r, i)
  {
  }

  /** A report carries exactly as many contacts as the hardware counts, with distinct ids, each standing for
      a virtual finger that holds the current position and pressure of one hardware contact. */
  lemma ReportIsFaithful(p: Pad, b: Packet, env: Env)
    requires AtRest(p) && LimitsSmall(env) && IsNormal(b) && Handle(p, b, env).report.Report?
    ensures var cs, q := Handle(p, b, env).report.contacts, Handle(p, b, env).p;
            && |cs| == FingerCount(p, b, env)
            && AtRest(q) && q.last == |cs| && ListsTouched(q, cs, |q.v|)
            && (forall i :: 0 <= i < |cs| ==> Shows(q, i))
  {
    TakeNormalKeeps(p, b, env);
    var t := TakeNormal(p, b, env);
    var o := Renumber(t, env);
    SettledRenumbers(t, env);
    assert Handle(p, b, env) == SendTouchData(o.p, env) && o.ready;
    SentReport(o.p, env);
    ContactsListTouched(o.p, |o.p.v|);
    SentShows(o.p, |Handle(p, b, env).report.contacts|, Handle(p, b, env).report.contacts);
    TakenCount(p, b, env);
    hide Renumber, SendTouchData, TakeNormal, Shows, Counted, Bounded, Sampled, ContactsUpTo, FingerCount, TouchCount;
  }

  /** The packet's count. */
  lemma TakenCount(p: Pad, b: Packet, env: Env)
    ensures TakeNormal(p, b, env).last == p.last && TakeNormal(p, b, env).clamped == FingerCount(p, b, env)
  {
  }

  /** A renumbering after which the count is recorded. */
  lemma SettledRenumbers(t: Pad, env: Env)
    requires AtRest(t) && LimitsSmall(env)
    requires Renumber(t, env).ready && Renumber(t, env).p.last == Renumber(t, env).p.clamped
    ensures var r := Renumber(t, env).p;
            && r.last == t.last == t.clamped && Counted(r, r.last) && Sampled(r) && Bounded(r) && TouchCount(r.v, |r.v|) == r.last
            && forall i :: 0 <= i < r.last ==> Shows(r, i)
  {
    PreparedRest(t, env);
    if Changes(t) && Misplaces(t, Settled(t)) {
      RenumberMisplaces(t, env);
    } else {
      RenumberKeeps(t, env);
      Feeds(t, env);
    }
  }

  /** Without a change of count the renumbering only feeds the contacts' positions. */
  lemma Feeds(t: Pad, env: Env)
    requires AtRest(t) && LimitsSmall(env) && Renumber(t, env).ready && Settled(t) == t.last
    ensures var q := Renumber(t, env).p;
            forall i :: 0 <= i < t.last ==> Shows(q, i)
  {
    PreparedKeeps(t, env);
    PreparedRest(t, env);
    var u := Prepared(t, env);
    FilterFeeds(u, u.clamped);
    FilterKeeps(u, u.clamped);
  }

  // ---- Identity of contacts

  lemma MarkingKeepsTouches(p: Pad)
    requires Counted(p, p.clamped)
    ensures forall j :: 0 <= j < MAX_FINGERS ==> FreeAndMark(p).v[j].touch == p.v[j].touch
  {
    CountedIsOnto(p, p.clamped);
    FreeAndMarkCounted(p, p.clamped);
    var q := FreeAndMark(p);
    CountedIsOnto(q, p.clamped);
    assert q.f == p.f;
  }

  /** Added fingers never take a number away from a finger that was there, and lifted ones never add a number. */
  lemma RemapKeepsIds(p: Pad)
    requires Bounded(p) && Counted(p, p.last) && !Misplaces(p, p.clamped)
    ensures p.clamped >= p.last ==> TouchesStay(p, Remap(p))
    ensures p.clamped <= p.last ==> TouchesStay(Remap(p), p)
  {
    if p.clamped != p.last {
      var q := if p.clamped > p.last && p.clamped >= 3 then p.(skipped := false) else p;
      if p.last == 0 {
        NoneTouched(p.v, |p.v|);
      } else if p.clamped < p.last {
        LiftOnlyReleases(q);
      } else if p.hadLift {
        AddedAfterLiftCounted(q);
        assert AddAfterLift(q) == FreeAndMark(AddedAfterLift(q));
        MarkingKeepsTouches(AddedAfterLift(q));
      } else {
        AddFreshCounted(q);
      }
    }
  }

  lemma RenumberKeepsIds(t: Pad, env: Env)
    requires AtRest(t) && LimitsSmall(env) && !(Changes(t) && Misplaces(t, Settled(t)))
    ensures Settled(t) >= t.last ==> TouchesStay(t, Renumber(t, env).p)
    ensures Settled(t) <= t.last ==> TouchesStay(Renumber(t, env).p, t)
  {
    PreparedRest(t, env);
    PreparedKeeps(t, env);
    PreparedTouches(t, env);
    var u := Prepared(t, env);
    if Renumber(t, env).ready {
      RemapKeepsIds(u);
      FilterKeeps(Remap(u), Remap(u).clamped);
    }
  }

  lemma PreparedTouches(t: Pad, env: Env)
    ensures forall j :: 0 <= j < MAX_FINGERS ==> Prepared(t, env).v[j].touch == t.v[j].touch
  {
    DragKeepsMap(t, env);
  }

  /** Over a packet that misplaces no contact, the touched numbers only grow, only shrink or stay with the count. */
  lemma PacketKeepsIds(p: Pad, b: Packet, env: Env)
    requires AtRest(p) && LimitsSmall(env) && IsNormal(b)
    requires var t := TakeNormal(p, b, env); !(Changes(t) && Misplaces(t, Settled(t)))
    ensures Settled(TakeNormal(p, b, env)) >= p.last ==> TouchesStay(p, Handle(p, b, env).p)
    ensures Settled(TakeNormal(p, b, env)) <= p.last ==> TouchesStay(Handle(p, b, env).p, p)
  {
    hide *;
    TakeNormalKeeps(p, b, env);
    RenumberKeepsIds(TakeNormal(p, b, env), env);
    HandledVirtuals(p, b, env);
    SameVirtuals(p, TakeNormal(p, b, env), Renumber(TakeNormal(p, b, env), env).p, Handle(p, b, env).p);
  }

  lemma HandledVirtuals(p: Pad, b: Packet, env: Env)
    requires IsNormal(b)
    ensures var t := TakeNormal(p, b, env);
            t.v == p.v && t.last == p.last && Handle(p, b, env).p.v == Renumber(t, env).p.v
  {
    hide Renumber, FingerCount, RealFinger, ContactsUpTo;
  }

  lemma SameVirtuals(p: Pad, t: Pad, r: Pad, q: Pad)
    requires t.v == p.v && q.v == r.v
    ensures TouchesStay(t, r) ==> TouchesStay(p, q)
    ensures TouchesStay(r, t) ==> TouchesStay(q, p)
  {
  }

  // ---- Runs

  datatype Event = Event(b: Packet, env: Env)

  ghost function Run(p: Pad, es: seq<Event>): Pad
    decreases |es|
  {
    if es == [] then p else Run(Handle(p, es[0].b, es[0].env).p, es[1..])
  }

  ghost function Reports(p: Pad, es: seq<Event>): seq<seq<Contact>>
    decreases |es|
  {
    if es == [] then [] else
      var s := Handle(p, es[0].b, es[0].env);
      (if s.report.Report? then [s.report.contacts] else []) + Reports(s.p, es[1..])
  }

  /** No packet of the run is a breaking one when it arrives. */
  ghost predicate NeverBreaks(p: Pad, es: seq<Event>)
    decreases |es|
  {
    es == [] ||
    (var e := es[0];
     && !BreaksOn(p, e.b, e.env)
     && NeverBreaks(Handle(p, e.b, e.env).p, es[1..]))
  }

  ghost predicate AllLimitsSmall(es: seq<Event>) {
    forall k :: 0 <= k < |es| ==> LimitsSmall(es[k].env)
  }

  lemma OtherPacketKeeps(p: Pad, b: Packet, env: Env)
    requires AtRest(p) && !IsNormal(b)
    ensures AtRest(Handle(p, b, env).p) && Handle(p, b, env).report.NoReport?
  {
    AgmKeeps(p, b);
  }

  lemma RunPrefix(p: Pad, es: seq<Event>, n: nat)
    requires 0 < n <= |es|
    ensures Run(p, es[..n]) == Run(Handle(p, es[0].b, es[0].env).p, es[1..][..n - 1])
  {
    assert es[..n][1..] == es[1..][..n - 1];
  }

  lemma RunOne(p: Pad, es: seq<Event>, n: nat)
    requires n == 1 <= |es|
    ensures Run(p, es[..n]) == Handle(p, es[0].b, es[0].env).p
  {
    RunPrefix(p, es, n);
    assert es[1..][..n - 1] == [];
  }

  /** A packet that is not a breaking one. */
  lemma UnbrokenKeeps(p: Pad, e: Event)
    requires AtRest(p) && LimitsSmall(e.env) && !BreaksOn(p, e.b, e.env)
    ensures AtRest(Handle(p, e.b, e.env).p)
  {
    if IsNormal(e.b) {
      PacketKeepsMapIff(p, e.b, e.env);
    } else {
      OtherPacketKeeps(p, e.b, e.env);
    }
  }

  /** Over every run without a breaking packet the map is right after each packet. */
  lemma {:induction false} RunKeepsMap(p: Pad, es: seq<Event>, n: nat)
    requires AtRest(p) && AllLimitsSmall(es) && NeverBreaks(p, es) && n <= |es|
    ensures AtRest(Run(p, es[..n]))
    decreases n
  {
    if n > 0 {
      var e := es[0];
      UnbrokenKeeps(p, e);
      RunPrefix(p, es, n);
      RunKeepsMap(Handle(p, e.b, e.env).p, es[1..], n - 1);
    }
  }

  lemma BrokenAtOnce(p: Pad, es: seq<Event>, n: nat)
    requires es != [] && AtRest(p) && LimitsSmall(es[0].env) && n == 1
    requires BreaksOn(p, es[0].b, es[0].env)
    ensures !MapRight(Run(p, es[..n]))
  {
    PacketKeepsMapIff(p, es[0].b, es[0].env);
    RunOne(p, es, n);
  }

  /** And in every other run it is wrong after some packet. */
  lemma {:induction false} BreakingRunShows(p: Pad, es: seq<Event>) returns (n: nat)
    requires AtRest(p) && AllLimitsSmall(es) && !NeverBreaks(p, es)
    ensures n <= |es| && !MapRight(Run(p, es[..n]))
    decreases |es|
  {
    var e := es[0];
    n := 1;
    if BreaksOn(p, e.b, e.env) {
      BrokenAtOnce(p, es, n);
    } else {
      UnbrokenKeeps(p, e);
      var k := BreakingRunShows(Handle(p, e.b, e.env).p, es[1..]);
      n := k + 1;
      RunPrefix(p, es, n);
    }
  }

  /** The tracker starts at rest, so the promise covers every run from power-on. */
  lemma StartsAtRest()
    ensures AtRest(INITIAL_PAD)
  {
    IdentityCounted(INITIAL_PAD, 0);
  }

  /** No empty report follows an empty one, nor comes first if nothing was reported before. */
  predicate EmptyOnce(lastSent: nat, rs: seq<seq<Contact>>) {
    && (|rs| > 0 && rs[0] == [] ==> lastSent != 0)
    && (forall k :: 0 < k < |rs| && rs[k] == [] ==> rs[k - 1] != [])
  }

  lemma EmptyOnceGrows(lastSent: nat, cs: seq<Contact>, rs: seq<seq<Contact>>)
    requires EmptyOnce(|cs|, rs) && (cs == [] ==> lastSent != 0)
    ensures EmptyOnce(lastSent, [cs] + rs)
  {
    var all := [cs] + rs;
    forall k | 0 < k < |all| && all[k] == []
      ensures all[k - 1] != []
    {
      assert all[k] == rs[k - 1];
    }
  }

  /** The empty report is sent once: never first after an empty one, never before any contact was reported. */
  lemma {:induction false} EmptyReportOnce(p: Pad, es: seq<Event>)
    ensures EmptyOnce(p.lastSent, Reports(p, es))
    decreases |es|
  {
    if es != [] {
      var e := es[0];
      var s := Handle(p, e.b, e.env);
      EmptyReportOnce(s.p, es[1..]);
      LastSentTracks(p, e.b, e.env);
      if s.report.Report? {
        EmptyOnceGrows(p.lastSent, s.report.contacts, Reports(s.p, es[1..]));
      } else {
        assert [] + Reports(s.p, es[1..]) == Reports(s.p, es[1..]);
      }
    }
  }

  /** The number of contacts sent last is remembered. */
  predicate Remembers(before: nat, s: Sent) {
    match s.report
    case Report(cs) => s.p.lastSent == |cs| && (cs == [] ==> before != 0)
    case NoReport => s.p.lastSent == before
  }

  lemma SendRemembers(p: Pad, env: Env)
    ensures Remembers(p.lastSent, SendTouchData(p, env))
  {
  }

  lemma LastSentTracks(p: Pad, b: Packet, env: Env)
    ensures Remembers(p.lastSent, Handle(p, b, env))
  {
    if IsNormal(b) {
      var t := TakeNormal(p, b, env);
      RenumberRest(t, env);
      SendRemembers(Renumber(t, env).p, env);
    }
  }

  predicate CountsAtMostFour(b: Packet) {
    WidthOf(b) == W_EXTENDED && (b[5] / 16) % 4 == 2 ==> b[1] % 16 <= 4
  }

  lemma FourFingersDontBreak(p: Pad, b: Packet, env: Env)
    requires AtRest(p) && p.agm <= 4 && IsNormal(b) && !env.quiet
    ensures !Breaks(TakeNormal(p, b, env), env)
  {
    assert FingerCount(p, b, env) <= 4;
  }

  lemma FourFingersKeep(p: Pad, e: Event)
    requires AtRest(p) && 0 <= p.agm <= 4 && LimitsSmall(e.env) && !e.env.quiet && CountsAtMostFour(e.b)
    ensures !BreaksOn(p, e.b, e.env)
    ensures AtRest(Handle(p, e.b, e.env).p) && 0 <= Handle(p, e.b, e.env).p.agm <= 4
  {
    if IsNormal(e.b) {
      FourFingersDontBreak(p, e.b, e.env);
      PacketKeepsMapIff(p, e.b, e.env);
      AgmNeverGrows(p, e.b, e.env);
    } else {
      OtherPacketKeeps(p, e.b, e.env);
    }
  }

  /** With four fingers at most and no quiet time nothing ever breaks. */
  lemma {:induction false} FourFingersNeverBreak(p: Pad, es: seq<Event>)
    requires AtRest(p) && AllLimitsSmall(es) && 0 <= p.agm <= 4
    requires forall k :: 0 <= k < |es| ==> !es[k].env.quiet && CountsAtMostFour(es[k].b)
    ensures NeverBreaks(p, es)
    decreases |es|
  {
    if es != [] {
      var e := es[0];
      FourFingersKeep(p, e);
      FourFingersNeverBreak(Handle(p, e.b, e.env).p, es[1..]);
    }
  }

  lemma AgmNeverGrows(p: Pad, b: Packet, env: Env)
    requires IsNormal(b) && p.agm >= 0
    ensures 0 <= Handle(p, b, env).p.agm <= p.agm
  {
    RenumberRest(TakeNormal(p, b, env), env);
  }

  // ---- A run that does break

  /** Three or more fingers are reported, more than before, and the packet waits for the next one. */
  lemma WaitingPacket(p: Pad, b: Packet, env: Env)
    requires AtRest(p) && LimitsSmall(env) && IsNormal(b) && !p.skipped
    requires FingerCount(p, b, env) > p.last && FingerCount(p, b, env) >= 3
    ensures var q := Handle(p, b, env).p;
            AtRest(q) && q.skipped && q.last == p.last && q.hadLift == p.hadLift && q.agm == TakeNormal(p, b, env).agm
  {
    PacketKeepsMapIff(p, b, env);
    PreparedRest(TakeNormal(p, b, env), env);
  }

  /** A change from no finger that is not skipped is the first addition, and then feeding. */
  lemma FirstAddition(u: Pad)
    requires u.last == 0 && u.clamped >= 3 && u.skipped
    ensures var q := FilterFingers(Remap(u), u.clamped);
            q.last == 0 && q.clamped == u.clamped && !q.skipped && q.hadLift == u.hadLift && q.agm == u.agm
  {
    RemapRest(u);
    assert Remap(u) == AddFirst(u.(skipped := false), u.clamped);
  }

  lemma SendRecords(q: Pad, env: Env)
    requires !env.quiet && q.last != q.clamped
    ensures SendTouchData(q, env).p == q.(last := q.clamped)
  {
  }

  /** The packet after it puts the fingers down. */
  lemma FirstFingers(p: Pad, b: Packet, env: Env)
    requires AtRest(p) && LimitsSmall(env) && IsNormal(b) && p.skipped && p.last == 0 && !env.quiet
    requires FingerCount(p, b, env) >= 3
    ensures var q := Handle(p, b, env).p;
            AtRest(q) && !q.skipped && q.last == FingerCount(p, b, env) && q.hadLift == p.hadLift
  {
    PacketKeepsMapIff(p, b, env);
    var t := TakeNormal(p, b, env);
    PreparedRest(t, env);
    var u := Prepared(t, env);
    FirstAddition(u);
    RemapRest(u);
    SendRecords(FilterFingers(Remap(u), u.clamped), env);
  }

  const LIMITS := Env(45, false, 1000, 5000, 1000, 5000)

  /** A packet of at least three fingers, and one that announces five. */
  const MANY := Event([0x80, 0, 100, 0xC4, 0, 0], LIMITS)
  const FIVE := Event([0x84, 5, 0, 0xC0, 0, 0x20], LIMITS)

  lemma RunThen(p: Pad, e: Event, rest: seq<Event>)
    ensures Run(p, [e] + rest) == Run(Handle(p, e.b, e.env).p, rest)
  {
    assert ([e] + rest)[1..] == rest;
  }

  /** Three fingers that were never lifted, or none yet. */
  predicate NeverLifted(p: Pad, last: int, skipped: bool) {
    AtRest(p) && p.last == last && !p.hadLift && p.skipped == skipped
  }

  /** Five fingers counted after three that were never lifted. */
  lemma FifthMisplaced(t: Pad, env: Env)
    requires t.last == 3 && !t.hadLift && t.skipped && t.clamped == 5 && !env.quiet
    ensures Breaks(t, env)
  {
    assert Settled(t) == 5;
  }

  lemma FifthIsLost(p: Pad, b: Packet, env: Env)
    requires NeverLifted(p, 3, true) && LimitsSmall(env) && IsNormal(b) && FingerCount(p, b, env) == 5 && !env.quiet
    ensures !MapRight(Handle(p, b, env).p)
  {
    FifthMisplaced(TakeNormal(p, b, env), env);
    PacketKeepsMapIff(p, b, env);
  }

  lemma FiveWait(p: Pad)
    requires NeverLifted(p, 3, false) && p.agm == 5
    ensures NeverLifted(Handle(p, MANY.b, MANY.env).p, 3, true) && Handle(p, MANY.b, MANY.env).p.agm == 5
  {
    assert FingerCount(p, MANY.b, MANY.env) == 5;
    WaitingPacket(p, MANY.b, MANY.env);
  }

  lemma CountAnnounced(p: Pad, b: Packet, env: Env)
    requires WidthOf(b) == W_EXTENDED && (b[5] / 16) % 4 == 2
    ensures Handle(p, b, env).p == p.(agm := b[1] % 16)
  {
  }

  lemma FiveAnnounced(p: Pad)
    requires NeverLifted(p, 3, false)
    ensures NeverLifted(Handle(p, FIVE.b, FIVE.env).p, 3, false) && Handle(p, FIVE.b, FIVE.env).p.agm == 5
  {
    CountAnnounced(p, FIVE.b, FIVE.env);
    OtherPacketKeeps(p, FIVE.b, FIVE.env);
  }

  lemma ThreeWait(p: Pad)
    requires NeverLifted(p, 0, false) && p.agm == 0
    ensures NeverLifted(Handle(p, MANY.b, MANY.env).p, 0, true) && Handle(p, MANY.b, MANY.env).p.agm == 0
  {
    assert FingerCount(p, MANY.b, MANY.env) == 3;
    WaitingPacket(p, MANY.b, MANY.env);
  }

  lemma ThreeDown(p: Pad)
    requires NeverLifted(p, 0, true) && p.agm == 0
    ensures NeverLifted(Handle(p, MANY.b, MANY.env).p, 3, false)
  {
    assert FingerCount(p, MANY.b, MANY.env) == 3;
    FirstFingers(p, MANY.b, MANY.env);
  }

  lemma FromFiveWaiting(p: Pad)
    requires NeverLifted(p, 3, true) && p.agm == 5
    ensures !MapRight(Run(p, [MANY] + []))
  {
    assert FingerCount(p, MANY.b, MANY.env) == 5;
    FifthIsLost(p, MANY.b, MANY.env);
    RunThen(p, MANY, []);
  }

  lemma FromFiveAnnounced(p: Pad)
    requires NeverLifted(p, 3, false) && p.agm == 5
    ensures AtRest(Run(p, [MANY] + [])) && !MapRight(Run(p, [MANY] + ([MANY] + [])))
  {
    FiveWait(p);
    FromFiveWaiting(Handle(p, MANY.b, MANY.env).p);
    RunThen(p, MANY, []);
    RunThen(p, MANY, [MANY] + []);
  }

  lemma FromThreeDown(p: Pad)
    requires NeverLifted(p, 3, false)
    ensures AtRest(Run(p, [FIVE] + ([MANY] + []))) && !MapRight(Run(p, [FIVE] + ([MANY] + ([MANY] + []))))
  {
    FiveAnnounced(p);
    FromFiveAnnounced(Handle(p, FIVE.b, FIVE.env).p);
    RunThen(p, FIVE, [MANY] + []);
    RunThen(p, FIVE, [MANY] + ([MANY] + []));
  }

  /** Two fingers added to three that were never lifted lose the fifth: the way there from power-on. */
  lemma FiveOutOfThreeBreaks()
    ensures AtRest(Run(INITIAL_PAD, [MANY, MANY, FIVE, MANY]))
    ensures !MapRight(Run(INITIAL_PAD, [MANY, MANY, FIVE, MANY, MANY]))
  {
    StartsAtRest();
    ThreeWait(INITIAL_PAD);
    var p1 := Handle(INITIAL_PAD, MANY.b, MANY.env).p;
    ThreeDown(p1);
    var p2 := Handle(p1, MANY.b, MANY.env).p;
    FromThreeDown(p2);
    FirstTwo(INITIAL_PAD, [FIVE] + ([MANY] + []));
    FirstTwo(INITIAL_PAD, [FIVE] + ([MANY] + ([MANY] + [])));
    assert [MANY, MANY, FIVE, MANY] == [MANY] + ([MANY] + ([FIVE] + ([MANY] + [])));
    assert [MANY, MANY, FIVE, MANY, MANY] == [MANY] + ([MANY] + ([FIVE] + ([MANY] + ([MANY] + []))));
  }

  lemma FirstTwo(p: Pad, rest: seq<Event>)
    ensures var p1 := Handle(p, MANY.b, MANY.env).p;
            Run(p, [MANY] + ([MANY] + rest)) == Run(Handle(p1, MANY.b, MANY.env).p, rest)
  {
    RunThen(p, MANY, [MANY] + rest);
    RunThen(Handle(p, MANY.b, MANY.env).p, MANY, rest);
  }
}
