/** The Synaptics finger tracker as a value: what one packet does to the physical and the virtual fingers. */
module SynapticsPad {
  import opened SimpleAverages
  import opened Numbers

  const MAX_FINGERS := 5
  const SAMPLES := 5
  const FINGER_DIST := 1000000
  const INT_MAX := 0x7fff_ffff
  const W_EXTENDED := 2
  const W_PASSTHRU := 3

  /** A contact as the hardware reports it, with the virtual finger it is mapped to (-1 for none). */
  datatype Finger = Finger(x: int, y: int, z: int, w: int, vf: int)

  /** A contact as the host sees it. */
  datatype VirtualFinger = VirtualFinger(xs: seq<int>, ys: seq<int>, pressure: int, width: int, touch: bool)

  /** What a packet meets besides the tracker: the pressure threshold, the keyboard quiet time and the logical limits. */
  datatype Env = Env(zFinger: int, quiet: bool, minX: nat, maxX: nat, minY: nat, maxY: nat)

  datatype Contact = Contact(id: nat, x: int, y: int, width: int)

  datatype Report = NoReport | Report(contacts: seq<Contact>)

  datatype PadState = PadState(f: seq<Finger>, v: seq<VirtualFinger>, last: int, clamped: int,
                               hadLift: bool, skipped: bool, agm: int, lastSent: nat)

  predicate Shape(p: PadState) {
    && |p.f| == MAX_FINGERS
    && |p.v| == MAX_FINGERS
    && (forall i :: 0 <= i < MAX_FINGERS ==> -1 <= p.f[i].vf < MAX_FINGERS)
    && (forall j :: 0 <= j < MAX_FINGERS ==> |p.v[j].xs| <= SAMPLES && |p.v[j].ys| <= SAMPLES)
    && 0 <= p.last <= MAX_FINGERS
    && 0 <= p.clamped <= MAX_FINGERS
  }

  const NO_FINGER := Finger(0, 0, 0, 0, -1)
  const FREE_VIRTUAL := VirtualFinger([], [], 0, 0, false)
  const INITIAL_PAD := PadState([NO_FINGER, NO_FINGER, NO_FINGER, NO_FINGER, NO_FINGER],
                                [FREE_VIRTUAL, FREE_VIRTUAL, FREE_VIRTUAL, FREE_VIRTUAL, FREE_VIRTUAL],
                                0, 0, false, false, 0, 0)

  type Pad = p: PadState | Shape(p) witness INITIAL_PAD

  type Index = i: int | 0 <= i < 5

  /** Only the fingers differ. */
  predicate SameRest(p: PadState, q: PadState) {
    q == p.(f := q.f, v := q.v)
  }

  // ---- Small steps

  function SetVf(p: Pad, i: Index, j: int): Pad
    requires -1 <= j < MAX_FINGERS
  {
    p.(f := p.f[i := p.f[i].(vf := j)])
  }

  function ClearMap(p: Pad): Pad
  {
    p.(f := seq(MAX_FINGERS, i requires 0 <= i < MAX_FINGERS => p.f[i].(vf := -1)))
  }

  function Sqr(a: int): int { a * a }

  function Dist(p: Pad, i: Index, j: Index): int {
    Sqr(p.f[i].x - Newest(p.v[j].xs)) + Sqr(p.f[i].y - Newest(p.v[j].ys))
  }

  /** The first virtual finger from k on that is not touched, or MAX_FINGERS. */
  function FirstFree(v: seq<VirtualFinger>, k: nat): (j: nat)
    requires k <= |v|
    ensures k <= j <= |v|
    ensures j < |v| ==> !v[j].touch
    ensures forall i :: k <= i < j ==> v[i].touch
    decreases |v| - k
  {
    if k == |v| || !v[k].touch then k else FirstFree(v, k + 1)
  }

  function AssignVirtualFinger(p: Pad, i: int): Pad
  {
    if !(0 <= i < MAX_FINGERS) then p else
      var j := FirstFree(p.v, 0);
      if j == MAX_FINGERS then p
      else SetVf(p.(v := p.v[j := p.v[j].(touch := true, xs := [], ys := [])]), i, j)
  }

  function UpperIndex(p: Pad): Index {
    if p.f[0].y < p.f[1].y then 1 else 0
  }

  function CloneUpper(p: Pad, dst: Index): Pad
  {
    var u := p.f[UpperIndex(p)];
    p.(f := p.f[dst := u.(vf := p.f[dst].vf)])
  }

  /** dst takes over src's virtual finger and its averaged position, src gets a new virtual finger.
      An unmapped src would index before the array; no consistent map leads there. */
  function SwapFingers(p: Pad, dst: Index, src: Index): Pad
  {
    var j := p.f[src].vf;
    if j < 0 then p else
      var moved := p.f[dst].(x := Average(p.v[j].xs), y := Average(p.v[j].ys), vf := j);
      AssignVirtualFinger(p.(f := p.f[dst := moved]), src)
  }

  ghost predicate Mapped(f: seq<Finger>, n: int, j: int)
    requires n <= |f|
  {
    exists i :: 0 <= i < n && f[i].vf == j
  }

  /** Every virtual finger is reset; exactly those the first clamped contacts map to stay touched. */
  ghost function FreeAndMark(p: Pad): Pad {
    p.(v := seq(MAX_FINGERS, j requires 0 <= j < MAX_FINGERS =>
      VirtualFinger([], [], 0, 0, Mapped(p.f, p.clamped, j))))
  }

  /** The comparisons are unsigned, so a negative value counts as a huge one. */
  function ClipNoUpdate(value: int, lo: nat, hi: nat): int {
    var low := if value % 0x1_0000_0000 < lo then lo else value;
    if low % 0x1_0000_0000 > hi then hi else low
  }

  // ---- Nearest neighbour

  datatype Near = Near(dist: int, index: int)

  /** The first index whose cost is least and below INT_MAX, or -1. */
  function Nearest(cost: seq<int>): (r: Near)
    ensures -1 <= r.index < |cost|
    ensures r.index == -1 ==> r.dist == INT_MAX && forall i :: 0 <= i < |cost| ==> cost[i] >= INT_MAX
    ensures r.index >= 0 ==> r.dist == cost[r.index] < INT_MAX
    ensures forall i :: 0 <= i < |cost| ==> r.dist <= cost[i]
    ensures forall i :: 0 <= i < r.index ==> r.dist < cost[i]
  {
    NearestOf(cost, |cost|)
  }

  function NearestOf(cost: seq<int>, k: nat): (r: Near)
    requires k <= |cost|
    ensures -1 <= r.index < k
    ensures r.index == -1 ==> r.dist == INT_MAX && forall i :: 0 <= i < k ==> cost[i] >= INT_MAX
    ensures r.index >= 0 ==> r.dist == cost[r.index] < INT_MAX
    ensures forall i :: 0 <= i < k ==> r.dist <= cost[i]
    ensures forall i :: 0 <= i < r.index ==> r.dist < cost[i]
  {
    if k == 0 then Near(INT_MAX, -1) else
      var best := NearestOf(cost, k - 1);
      if cost[k - 1] < best.dist then Near(cost[k - 1], k - 1) else best
  }

  function LiftCost(p: Pad, i: Index, used: seq<bool>): seq<int>
    requires |used| == MAX_FINGERS
  {
    seq(MAX_FINGERS, j requires 0 <= j < MAX_FINGERS =>
      if p.v[j].touch && !used[j] then Dist(p, i, j) else INT_MAX)
  }

  datatype Lifted = Lifted(p: Pad, used: seq<bool>)

  function LiftStep(m: Lifted, i: Index): (r: Lifted)
    requires |m.used| == MAX_FINGERS
    ensures |r.used| == MAX_FINGERS
  {
    var j := Nearest(LiftCost(m.p, i, m.used)).index;
    Lifted(SetVf(m.p, i, j), if j == -1 then m.used else m.used[j := true])
  }

  /** After a lift, each of the first n contacts in turn takes the nearest touched virtual finger not yet used. */
  function MatchLifted(p: Pad, n: nat): (r: Lifted)
    requires n <= MAX_FINGERS
    ensures |r.used| == MAX_FINGERS
  {
    if n == 0 then Lifted(ClearMap(p), seq(MAX_FINGERS, _ => false))
    else LiftStep(MatchLifted(p, n - 1), n - 1)
  }

  function KeepCost(p: Pad, j: Index): seq<int> {
    seq(MAX_FINGERS, i requires 0 <= i < MAX_FINGERS =>
      if i < p.last && p.f[i].vf == -1 then Dist(p, i, j) else INT_MAX)
  }

  /** A matching in progress, with the two contacts that jumped furthest. */
  datatype Kept = Kept(p: Pad, far: Near, second: Near)

  predicate IndexOrNone(i: int) {
    -1 <= i < MAX_FINGERS
  }

  function KeepStep(m: Kept, j: Index): (r: Kept)
    ensures IndexOrNone(m.far.index) && IndexOrNone(m.second.index) ==> IndexOrNone(r.far.index) && IndexOrNone(r.second.index)
  {
    var c := Nearest(KeepCost(m.p, j));
    if !m.p.v[j].touch || c.index == -1 then m else
      var q := SetVf(m.p, c.index, j);
      if c.dist > m.far.dist then Kept(q, c, m.far) else Kept(q, m.far, m.second)
  }

  /** Before fingers are added after a lift, each touched virtual finger below n in turn takes the nearest free contact. */
  function MatchKept(p: Pad, n: nat): (r: Kept)
    requires n <= MAX_FINGERS
    ensures IndexOrNone(r.far.index) && IndexOrNone(r.second.index)
  {
    if n == 0 then Kept(ClearMap(p), Near(0, -1), Near(0, -1))
    else KeepStep(MatchKept(p, n - 1), n - 1)
  }

  // ---- The branches of the renumbering

  /** Contacts the hardware does not report follow the upper real one, or with three fingers the mean of the two. */
  function DragImaginary(p: Pad, env: Env): Pad {
    if !(p.clamped == p.last && p.clamped >= 3 && p.f[0].vf != -1 && p.f[1].vf != -1) then p
    else if p.clamped >= 4 then
      var u := p.f[UpperIndex(p)];
      var uv := p.v[u.vf];
      p.(f := seq(MAX_FINGERS, k requires 0 <= k < MAX_FINGERS =>
        if 2 <= k < p.clamped then Dragged(p.f[k], u, uv, env) else p.f[k]))
    else
      var f0, f1, f2 := p.f[0], p.f[1], p.f[2];
      var v0, v1 := p.v[f0.vf], p.v[f1.vf];
      p.(f := p.f[2 := Finger(
        ClipNoUpdate(f2.x + TruncDiv((f0.x - Newest(v0.xs)) + (f1.x - Newest(v1.xs)), 2), env.minX, env.maxX),
        ClipNoUpdate(f2.y + TruncDiv((f0.y - Newest(v0.ys)) + (f1.y - Newest(v1.ys)), 2), env.minY, env.maxY),
        TruncDiv(f0.z + f1.z, 2), TruncDiv(f0.w + f1.w, 2), f2.vf)])
  }

  function Dragged(f: Finger, u: Finger, uv: VirtualFinger, env: Env): Finger {
    Finger(ClipNoUpdate(f.x + (u.x - Newest(uv.xs)), env.minX, env.maxX),
           ClipNoUpdate(f.y + (u.y - Newest(uv.ys)), env.minY, env.maxY), u.z, u.w, f.vf)
  }

  /** The only finger moved too far in one packet. */
  predicate Jumped(p: Pad) {
    p.clamped == p.last && p.clamped == 1 && p.f[0].vf >= 0 && Dist(p, 0, p.f[0].vf) > FINGER_DIST
  }

  function UnpressJumped(p: Pad): Pad {
    if !Jumped(p) then p else
      var j := p.f[0].vf;
      p.(v := p.v[j := p.v[j].(xs := [], ys := [], pressure := 0, width := 0)], clamped := 0)
  }

  /** From no fingers at all: the identity map. */
  function AddFirst(p: Pad, n: nat): (q: Pad)
    requires n <= MAX_FINGERS
    ensures SameRest(p, q)
  {
    if n == 0 then p else AddFirstStep(AddFirst(p, n - 1), n - 1)
  }

  function AddFirstStep(p: Pad, i: Index): Pad
  {
    var own := SetVf(p.(v := p.v[i := p.v[i].(touch := true, xs := [], ys := [])]), i, i);
    if i >= 2 then CloneUpper(own, i) else own
  }

  function CloneAndAssign(p: Pad, i: Index): (q: Pad)
    ensures SameRest(p, q)
  {
    AssignVirtualFinger(CloneUpper(p, i), i)
  }

  /** Contacts 2 to n - 1 are placed on the upper real one, each with a new virtual finger. */
  function CloneMore(p: Pad, n: nat): (q: Pad)
    requires 2 <= n <= MAX_FINGERS
    ensures SameRest(p, q)
  {
    if n == 2 then p else CloneAndAssign(CloneMore(p, n - 1), n - 1)
  }

  /** Fingers added while none was lifted: the newest one shows up as contact 1. */
  function AddFresh(p: Pad): (q: Pad)
    requires 0 < p.last < p.clamped
    ensures SameRest(p, q)
  {
    var added := p.clamped - p.last;
    if p.last >= 2 && added == 1 then SwapFingers(p, p.last, 1)
    else if p.last >= 2 && added == 2 then CloneAndAssign(SwapFingers(p, p.last, 1), 3)
    else CloneMore(AssignVirtualFinger(p, 1), added + 1)
  }

  function AssignIfUnmapped(p: Pad, i: Index): Pad
  {
    if p.f[i].vf == -1 then AssignVirtualFinger(p, i) else p
  }

  function MeanZw(p: Pad, i: Index): Pad
  {
    p.(f := p.f[i := p.f[i].(z := TruncDiv(p.f[0].z + p.f[1].z, 2), w := TruncDiv(p.f[0].w + p.f[1].w, 2))])
  }

  predicate Far(n: Near) {
    n.dist > FINGER_DIST && n.index >= 0
  }

  function AddThird(p: Pad, far: Near): (q: Pad)
    requires far.index < MAX_FINGERS
    ensures SameRest(p, q)
  {
    var m := MeanZw(p, 2);
    if Far(far) then SwapFingers(m, 2, far.index) else
      var u := m.f[UpperIndex(m)];
      AssignVirtualFinger(m.(f := m.f[2 := m.f[2].(x := u.x, y := u.y)]), 2)
  }

  /** Contacts 2 and 3 are both new. */
  function AddThirdAndFourth(q: Pad, far: Near, second: Near): (r: Pad)
    requires far.index < MAX_FINGERS && second.index < MAX_FINGERS
    ensures SameRest(q, r)
  {
    if Far(far) then
      var third := SwapFingers(q, 2, far.index);
      if Far(second) then SwapFingers(third, 3, second.index) else CloneAndAssign(third, 3)
    else CloneAndAssign(CloneAndAssign(q, 2), 3)
  }

  /** Contact 2 was there before. */
  function AddFourthOnly(q: Pad, far: Near): (r: Pad)
    requires far.index < MAX_FINGERS
    ensures SameRest(q, r)
  {
    if Far(far) then SwapFingers(q, 3, far.index) else CloneAndAssign(CloneUpper(q, 2), 3)
  }

  function AddFourth(p: Pad, far: Near, second: Near): (q: Pad)
    requires far.index < MAX_FINGERS && second.index < MAX_FINGERS
    ensures SameRest(p, q)
  {
    var m := MeanZw(MeanZw(p, 2), 3);
    if p.last < 3 then AddThirdAndFourth(m, far, second) else AddFourthOnly(m, far)
  }

  /** The contacts 0 and 1 are real: each has a virtual finger once the kept ones are found again. */
  function KeptAndReal(p: Pad): Pad {
    AssignIfUnmapped(AssignIfUnmapped(MatchKept(p, |p.v|).p, 0), 1)
  }

  /** The contacts from 2 on are placed. */
  function AddNew(q: Pad, far: Near, second: Near): (r: Pad)
    requires far.index < MAX_FINGERS && second.index < MAX_FINGERS
    ensures SameRest(q, r)
  {
    if q.clamped <= 2 then q
    else if q.clamped == 3 then AddThird(q, far)
    else if q.clamped == 4 then AddFourth(q, far, second)
    else CloneAndAssign(AddFourth(q, far, second), 4)
  }

  /** Fingers added after a lift: first find the kept fingers again, then place the new ones, then mark them all. */
  ghost function AddAfterLift(p: Pad): Pad {
    var m := MatchKept(p, |p.v|);
    FreeAndMark(AddNew(KeptAndReal(p), m.far, m.second))
  }

  ghost function LiftFingers(p: Pad): Pad {
    FreeAndMark(MatchLifted(p.(hadLift := p.clamped > 0), p.clamped).p)
  }

  /** Each of the first n contacts feeds the windows of its virtual finger. */
  function FilterFingers(p: Pad, n: nat): (q: Pad)
    requires n <= MAX_FINGERS
    ensures SameRest(p, q)
  {
    if n == 0 then p else FilterStep(FilterFingers(p, n - 1), n - 1)
  }

  function FilterStep(p: Pad, i: Index): Pad
  {
    var fi := p.f[i];
    if fi.vf == -1 then p else p.(v := p.v[fi.vf := Fed(p.v[fi.vf], fi)])
  }

  function Fed(v: VirtualFinger, f: Finger): VirtualFinger
    requires |v.xs| <= SAMPLES && |v.ys| <= SAMPLES
  {
    v.(xs := Push(v.xs, SAMPLES, f.x), ys := Push(v.ys, SAMPLES, f.y), width := f.w % 256, pressure := f.z % 256)
  }

  /** A count of three or more that grew waits once for the next extended packet. */
  predicate MustSkip(p: Pad) {
    p.clamped > p.last && p.clamped >= 3 && !p.skipped
  }

  ghost function Remap(p: Pad): Pad {
    if p.clamped == p.last then p else
      var q := if p.clamped > p.last && p.clamped >= 3 then p.(skipped := false) else p;
      if p.last == 0 then AddFirst(q, p.clamped)
      else if p.clamped > p.last then (if p.hadLift then AddAfterLift(q) else AddFresh(q))
      else LiftFingers(q)
  }

  datatype Outcome = Outcome(p: Pad, ready: bool)

  ghost function Renumber(p: Pad, env: Env): Outcome {
    var q := UnpressJumped(DragImaginary(p, env));
    if MustSkip(q) then Outcome(q.(skipped := true), false)
    else
      var r := Remap(q);
      Outcome(FilterFingers(r, r.clamped), true)
  }

  // ---- Reports

  function ContactsUpTo(p: Pad, n: nat): seq<Contact>
    requires n <= MAX_FINGERS
  {
    if n == 0 then [] else
      var v := p.v[n - 1];
      ContactsUpTo(p, n - 1) +
      if v.touch then [Contact(n - 1, Average(v.xs), Average(v.ys), v.pressure / 2)] else []
  }

  datatype Sent = Sent(p: Pad, report: Report)

  function SendTouchData(p: Pad, env: Env): Sent {
    if env.quiet then Sent(p, NoReport)
    else if p.last != p.clamped then Sent(p.(last := p.clamped), NoReport)
    else
      var contacts := ContactsUpTo(p, |p.v|);
      Sent(p.(lastSent := |contacts|),
           if |contacts| != 0 || p.lastSent != 0 then Report(contacts) else NoReport)
  }

  // ---- Packets

  type Packet = b: seq<Byte> | |b| == 6 witness [0, 0, 0, 0, 0, 0]

  function Bit(b: Byte, k: int): int
    requires k in {1, 2, 4, 8, 16, 32, 64, 128}
  {
    (b / k) % 2
  }

  function WidthOf(b: Packet): (w: int)
    ensures 0 <= w < 16
  {
    4 * ((b[0] / 16) % 4) + 2 * Bit(b[0], 4) + Bit(b[3], 4)
  }

  /** Thirteen-bit coordinates: large values are negative, the largest positive one means the edge. */
  function Signed13(x: int): int {
    if x > 8176 then x - 8192 else if x == 8176 then 6143 else x
  }

  function RealFinger(b: Packet, vf: int): Finger {
    var w := WidthOf(b);
    Finger(Signed13(b[4] + 256 * (b[1] % 16) + 4096 * Bit(b[3], 16)),
           Signed13(b[5] + 256 * (b[1] / 16) + 4096 * Bit(b[3], 32)),
           if w >= 4 then b[2] else b[2] - b[2] % 2,
           if w >= 4 then w else 8 + 4 * (b[2] % 2) + 2 * Bit(b[5], 2) + b[4] % 2, vf)
  }

  function SecondFinger(b: Packet, vf: int): Finger {
    var high: int := b[4];
    Finger(Signed13(2 * (256 * (high % 16) + b[1])), Signed13(2 * (256 * (high / 16) + b[2])),
           2 * (16 * ((b[3] / 16) % 4) + b[5] % 16), 8 + 4 * (b[5] % 2) + 2 * (b[2] % 2) + b[1] % 2, vf)
  }

  function Max(a: int, b: int): int { if a > b then a else b }

  function Min(a: int, b: int): int { if a < b then a else b }

  function FingerCount(p: Pad, b: Packet, env: Env): (n: int)
    ensures 0 <= n <= MAX_FINGERS
  {
    var w := WidthOf(b);
    if RealFinger(b, -1).z < env.zFinger then 0
    else if w >= 4 then 1
    else if w == 0 then Max(2, Min(p.agm, MAX_FINGERS))
    else if w == 1 then Max(3, Min(p.agm, MAX_FINGERS))
    else 0
  }

  /** The contact and the count a normal packet carries, before any renumbering. */
  function TakeNormal(p: Pad, b: Packet, env: Env): Pad {
    var f0 := RealFinger(b, p.f[0].vf);
    var low := f0.z < env.zFinger;
    p.(f := p.f[0 := if low then f0.(w := 0) else f0],
       clamped := FingerCount(p, b, env),
       agm := if low || WidthOf(b) >= 4 then 0 else p.agm)
  }

  function TakeAgm(p: Pad, b: Packet): Pad {
    match (b[5] / 16) % 4
    case 1 => p.(f := p.f[1 := SecondFinger(b, p.f[1].vf)])
    case 2 => p.(agm := b[1] % 16)
    case _ => p
  }

  predicate IsNormal(b: Packet) {
    WidthOf(b) != W_EXTENDED && WidthOf(b) != W_PASSTHRU
  }

  ghost function Renumbered(p: Pad, b: Packet, env: Env): Outcome {
    Renumber(TakeNormal(p, b, env), env)
  }

  /** One packet. */
  ghost function Handle(p: Pad, b: Packet, env: Env): Sent {
    if WidthOf(b) == W_EXTENDED then Sent(TakeAgm(p, b), NoReport)
    else if WidthOf(b) == W_PASSTHRU then Sent(p, NoReport)
    else
      var o := Renumbered(p, b, env);
      if o.ready then SendTouchData(o.p, env) else Sent(o.p, NoReport)
  }
}
