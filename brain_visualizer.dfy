/**
 * The activation-field synthesiser and scene builder of the 3D brain view.
 *
 * Each sensor of a snapshot is mapped, through a fixed table, to anchor points on the
 * two cortical hemispheres; around each anchor the sensor's normalised attention or
 * meditation value fades linearly to zero at a radius that grows with signal strength,
 * and contributions of all sensors are added up vertex by vertex.
 *
 * Vertex-to-anchor distances are square roots of coordinate sums; the model takes them,
 * and the hemisphere's diagonal `span`, as numbers delivered with the mesh (`Measured`
 * states which numbers they are).
 */
module BrainVisualizer {
  import opened Wrappers
  import opened Dicts
  import opened JsonValues
  import opened Text

  /** Bounds of the diverging colour scale of both surfaces. */
  const ScaleMin: real := -6.0
  const ScaleMax: real := 6.0

  /** Value assumed for a missing attention, meditation or signal-strength reading. */
  const Neutral: real := 50.0

  /** Maps a 0..100 metric to the colour scale: below 50 is negative, above 50 positive. */
  function Normalize(v: real): real {
    (v - 50.0) * 6.0 / 50.0
  }

  lemma NormalizeLandmarks()
    ensures Normalize(0.0) == ScaleMin && Normalize(Neutral) == 0.0 && Normalize(100.0) == ScaleMax
  {
  }

  lemma NormalizeIncreasing(a: real, b: real)
    requires a < b
    ensures Normalize(a) < Normalize(b)
  {
  }

  /** Signal strength 0..100 scales the affected area between 10% and 100%. */
  function Coverage(s: real): real {
    (s / 100.0) * 0.9 + 0.1
  }

  lemma CoverageLandmarks()
    ensures Coverage(0.0) == 0.1 && Coverage(100.0) == 1.0
  {
  }

  lemma CoverageMonotone(s: real, t: real)
    requires s <= t
    ensures Coverage(s) <= Coverage(t)
  {
  }

  datatype Side = Right | Left
  datatype Anchor = P3 | F3 | FPzRight | FPzLeft | F4 | P2
  datatype Metric = Attention | Meditation

  /** One entry of the sensor-to-region table. */
  datatype Region = Region(side: Side, anchor: Anchor, metric: Metric, factor: real)

  function AnchorSide(a: Anchor): Side {
    match a
    case P3 | F3 | FPzLeft => Left
    case FPzRight | F4 | P2 => Right
  }

  /** The fixed sensor-to-region table; every other name (including "uid") has no region. */
  function Regions(sensor: string): (rs: seq<Region>)
    ensures forall i :: 0 <= i < |rs| ==> AnchorSide(rs[i].anchor) == rs[i].side && rs[i].factor > 0.0
  {
    if sensor == "sensor_a" then [Region(Left, P3, Attention, 0.25)]
    else if sensor == "sensor_b" then [Region(Left, F3, Attention, 0.25)]
    else if sensor == "sensor_c" then [Region(Right, FPzRight, Attention, 0.2), Region(Left, FPzLeft, Meditation, 0.2)]
    else if sensor == "sensor_d" then [Region(Right, F4, Meditation, 0.25)]
    else if sensor == "sensor_e" then [Region(Right, P2, Meditation, 0.25)]
    else []
  }

  datatype Vec3 = Vec3(x: real, y: real, z: real)

  /** Axis-aligned bounding box of a hemisphere's vertices. */
  datatype Box = Box(lo: Vec3, hi: Vec3)

  /** The anchor of a region as fixed fractions of the bounding box. */
  function AnchorPoint(a: Anchor, b: Box): Vec3 {
    var lo := b.lo;
    var hi := b.hi;
    match a
    case P3 => Vec3(lo.x + (hi.x - lo.x) * 0.3, lo.y + (hi.y - lo.y) * 0.2, lo.z + (hi.z - lo.z) * 0.7)
    case F3 => Vec3(lo.x + (hi.x - lo.x) * 0.3, hi.y - (hi.y - lo.y) * 0.2, lo.z + (hi.z - lo.z) * 0.6)
    case FPzRight => Vec3(((lo.x + hi.x) / 2.0) * 0.4, (hi.y - (hi.y - lo.y)) * (-0.62), hi.z * 0.21)
    case FPzLeft => Vec3(((lo.x + hi.x) / 2.0) * 0.4, (hi.y - (hi.y - lo.y)) * (-0.62), hi.z * 0.21)
    case F4 => Vec3(hi.x - (hi.x - lo.x) * 0.3, hi.y - (hi.y - lo.y) * 0.2, lo.z + (hi.z - lo.z) * 0.6)
    case P2 => Vec3(hi.x - (hi.x - lo.x) * 0.3, lo.y + (hi.y - lo.y) * 0.2, lo.z + (hi.z - lo.z) * 0.7)
  }

  function MinOf(s: seq<real>): (m: real)
    requires |s| > 0
    ensures m in s && forall i :: 0 <= i < |s| ==> m <= s[i]
  {
    if |s| == 1 then s[0] else var r := MinOf(s[1..]); if s[0] <= r then s[0] else r
  }

  function MaxOf(s: seq<real>): (m: real)
    requires |s| > 0
    ensures m in s && forall i :: 0 <= i < |s| ==> s[i] <= m
  {
    if |s| == 1 then s[0] else var r := MaxOf(s[1..]); if s[0] >= r then s[0] else r
  }

  function Bounds(cs: seq<Vec3>): Box
    requires |cs| > 0
  {
    var xs := seq(|cs|, i requires 0 <= i < |cs| => cs[i].x);
    var ys := seq(|cs|, i requires 0 <= i < |cs| => cs[i].y);
    var zs := seq(|cs|, i requires 0 <= i < |cs| => cs[i].z);
    Box(Vec3(MinOf(xs), MinOf(ys), MinOf(zs)), Vec3(MaxOf(xs), MaxOf(ys), MaxOf(zs)))
  }

  function SqDist(p: Vec3, q: Vec3): real {
    (p.x - q.x) * (p.x - q.x) + (p.y - q.y) * (p.y - q.y) + (p.z - q.z) * (p.z - q.z)
  }

  /**
   * A hemisphere mesh: vertex coordinates, the diagonal of its bounding box (`brain_size`),
   * and for each anchor of the hemisphere the distance of every vertex to that anchor.
   */
  datatype Mesh = Mesh(coords: seq<Vec3>, span: real, dist: map<Anchor, seq<real>>)

  /** The shape the synthesiser needs: one non-negative distance per vertex for each anchor. */
  predicate Shaped(m: Mesh, side: Side) {
    && |m.coords| > 0
    && m.span >= 0.0
    && forall a :: AnchorSide(a) == side ==>
         a in m.dist && |m.dist[a]| == |m.coords| &&
         forall v :: 0 <= v < |m.coords| ==> m.dist[a][v] >= 0.0
  }

  /** The numbers delivered with a mesh are the square roots numpy would compute. */
  ghost predicate Measured(m: Mesh, side: Side) {
    && Shaped(m, side)
    && var b := Bounds(m.coords);
       && m.span * m.span == SqDist(b.lo, b.hi)
       && forall a, v :: AnchorSide(a) == side && 0 <= v < |m.coords| ==>
            m.dist[a][v] * m.dist[a][v] == SqDist(m.coords[v], AnchorPoint(a, b))
  }

  /** What the one-time asset load yields: two meshes and their reference activation maps. */
  datatype Assets = Assets(right: Mesh, left: Mesh, refRight: seq<real>, refLeft: seq<real>)

  predicate AssetsShaped(a: Assets) {
    Shaped(a.right, Right) && Shaped(a.left, Left) &&
    |a.refRight| == |a.right.coords| && |a.refLeft| == |a.left.coords|
  }

  ghost predicate AssetsMeasured(a: Assets) {
    AssetsShaped(a) && Measured(a.right, Right) && Measured(a.left, Left)
  }

  function MeshOf(a: Assets, side: Side): Mesh {
    if side == Right then a.right else a.left
  }

  // ---------------------------------------------------------------------------
  // Per-sensor readings and their fields

  /** The three readings of one sensor record. */
  datatype Reading = Reading(attention: real, meditation: real, signal: real)

  /** `record.get(name, default)` used in arithmetic; `None` where Python raises `TypeError`. */
  function MetricOr(fields: Dict<Json>, name: string, default: real): Option<real> {
    if name in Keys(fields) then AsNumber(Get(fields, name)) else Some(default)
  }

  /**
   * The readings of a sensor record, each defaulting to 50; `None` when the record is not a
   * dictionary (`.get` raises `AttributeError`) or a present reading is not a number.
   */
  function ReadSensor(e: Json): (r: Option<Reading>)
    ensures e.JObj? && Keys(e.fields) == [] ==> r == Some(Reading(Neutral, Neutral, Neutral))
    ensures !e.JObj? ==> r.None?
  {
    match e
    case JObj(f) =>
      var a := MetricOr(f, "attention", Neutral);
      var m := MetricOr(f, "meditation", Neutral);
      var s := MetricOr(f, "signal_strength", Neutral);
      if a.Some? && m.Some? && s.Some? then Some(Reading(a.value, m.value, s.value)) else None
    case _ => None
  }

  function MetricValue(rd: Reading, metric: Metric): real {
    Normalize(if metric == Attention then rd.attention else rd.meditation)
  }

  /** Decay radius of a region: span times base factor times coverage. */
  function Radius(span: real, factor: real, signal: real): real {
    span * factor * Coverage(signal)
  }

  /** A stronger signal never shrinks a region's radius. */
  lemma RadiusMonotone(span: real, factor: real, s: real, t: real)
    requires span >= 0.0 && factor >= 0.0 && s <= t
    ensures Radius(span, factor, s) <= Radius(span, factor, t)
  {
    CoverageMonotone(s, t);
    var k := span * factor;
    assert k >= 0.0;
    assert Radius(span, factor, s) == k * Coverage(s);
    assert Radius(span, factor, t) == k * Coverage(t);
  }

  /** Contribution of one anchor to a vertex at distance `d`: linear fade inside the radius. */
  function Fade(d: real, r: real, v: real): real {
    if 0.0 < r && d <= r then (1.0 - d / r) * v else 0.0
  }

  lemma FadeShape(d: real, r: real, v: real)
    requires d >= 0.0 && r > 0.0
    ensures d == 0.0 ==> Fade(d, r, v) == v
    ensures d >= r ==> Fade(d, r, v) == 0.0
    ensures v >= 0.0 ==> 0.0 <= Fade(d, r, v) <= v
    ensures v > 0.0 && d > 0.0 ==> Fade(d, r, v) < v
  {
    if d <= r {
      assert 0.0 <= d / r <= 1.0;
      if v > 0.0 && d > 0.0 {
        assert d / r > 0.0;
        assert (1.0 - d / r) * v == v - (d / r) * v;
        assert (d / r) * v > 0.0;
      }
    }
  }

  function Zeros(n: nat): (z: seq<real>)
    ensures |z| == n && forall i :: 0 <= i < n ==> z[i] == 0.0
  {
    seq(n, i => 0.0)
  }

  /** numpy's element-wise `a + b`. */
  function VecAdd(a: seq<real>, b: seq<real>): (c: seq<real>)
    requires |a| == |b|
    ensures |c| == |a| && forall i :: 0 <= i < |a| ==> c[i] == a[i] + b[i]
  {
    seq(|a|, i requires 0 <= i < |a| => a[i] + b[i])
  }

  function FadeVec(ds: seq<real>, r: real, v: real): (f: seq<real>)
    ensures |f| == |ds| && forall i :: 0 <= i < |ds| ==> f[i] == Fade(ds[i], r, v)
  {
    seq(|ds|, i requires 0 <= i < |ds| => Fade(ds[i], r, v))
  }

  /** The fade field around one region's anchor. */
  function RegionField(m: Mesh, rg: Region, rd: Reading): (f: seq<real>)
    requires Shaped(m, rg.side) && AnchorSide(rg.anchor) == rg.side
    ensures |f| == |m.coords|
  {
    FadeVec(m.dist[rg.anchor], Radius(m.span, rg.factor, rd.signal), MetricValue(rd, rg.metric))
  }

  /** `acc` after `intensity += fade` for each of `regions` that lies on `side`, in order. */
  function AddRegions(m: Mesh, side: Side, acc: seq<real>, regions: seq<Region>, rd: Reading): (f: seq<real>)
    requires Shaped(m, side) && |acc| == |m.coords|
    requires forall i :: 0 <= i < |regions| ==> AnchorSide(regions[i].anchor) == regions[i].side
    ensures |f| == |m.coords|
  {
    if regions == [] then acc
    else
      var rest := AddRegions(m, side, acc, regions[..|regions| - 1], rd);
      var rg := regions[|regions| - 1];
      if rg.side == side then VecAdd(rest, RegionField(m, rg, rd)) else rest
  }

  /** The field one snapshot entry adds on `side`; "uid" and unreadable records add nothing here. */
  function Contribution(m: Mesh, side: Side, e: (string, Json)): (f: seq<real>)
    requires Shaped(m, side)
    ensures |f| == |m.coords|
  {
    if e.0 == "uid" then Zeros(|m.coords|)
    else match ReadSensor(e.1)
      case None => Zeros(|m.coords|)
      case Some(rd) => AddRegions(m, side, Zeros(|m.coords|), Regions(e.0), rd)
  }

  /** The intensity of `side` after processing the entries `es` in order. */
  function Field(m: Mesh, side: Side, es: seq<(string, Json)>): (f: seq<real>)
    requires Shaped(m, side)
    ensures |f| == |m.coords|
  {
    if es == [] then Zeros(|m.coords|)
    else VecAdd(Field(m, side, es[..|es| - 1]), Contribution(m, side, es[|es| - 1]))
  }

  /** Every sensor entry (all but "uid") can be read without an exception. */
  predicate Readable(es: seq<(string, Json)>) {
    forall i :: 0 <= i < |es| && es[i].0 != "uid" ==> ReadSensor(es[i].1).Some?
  }

  datatype Intensities =
    | NotReady                                  // `(None, None)` before initialisation
    | Unreadable                                // a sensor record makes the arithmetic raise
    | Fields(right: seq<real>, left: seq<real>) // `(intensity_right, intensity_left)`

  /** What `update_brain_intensity` yields once the assets are loaded. */
  function IntensitySpec(a: Assets, sensors: seq<(string, Json)>): Intensities
    requires AssetsShaped(a)
  {
    if Readable(sensors) then Fields(Field(a.right, Right, sensors), Field(a.left, Left, sensors))
    else Unreadable
  }

  // ---------------------------------------------------------------------------
  // Lemmas about the synthesised fields

  lemma VecAddZero(a: seq<real>)
    ensures VecAdd(a, Zeros(|a|)) == a
  {
  }

  lemma VecAddSwapLast(a: seq<real>, b: seq<real>, c: seq<real>)
    requires |a| == |b| == |c|
    ensures VecAdd(VecAdd(a, b), c) == VecAdd(VecAdd(a, c), b)
  {
  }

  /** Adding regions onto an accumulator is adding their own field to it. */
  lemma {:induction false} AddRegionsOnto(m: Mesh, side: Side, acc: seq<real>, regions: seq<Region>, rd: Reading)
    requires Shaped(m, side) && |acc| == |m.coords|
    requires forall i :: 0 <= i < |regions| ==> AnchorSide(regions[i].anchor) == regions[i].side
    ensures AddRegions(m, side, acc, regions, rd) == VecAdd(acc, AddRegions(m, side, Zeros(|m.coords|), regions, rd))
  {
    if regions == [] {
      VecAddZero(acc);
    } else {
      var init := regions[..|regions| - 1];
      AddRegionsOnto(m, side, acc, init, rd);
      var rg := regions[|regions| - 1];
      if rg.side == side {
        var z := AddRegions(m, side, Zeros(|m.coords|), init, rd);
        var f := RegionField(m, rg, rd);
        assert VecAdd(VecAdd(acc, z), f) == VecAdd(acc, VecAdd(z, f));
      }
    }
  }

  /** Removing one entry from anywhere takes exactly its contribution away. */
  lemma {:induction false} FieldRemove(m: Mesh, side: Side, p: seq<(string, Json)>, x: (string, Json), q: seq<(string, Json)>)
    requires Shaped(m, side)
    ensures Field(m, side, p + [x] + q) == VecAdd(Field(m, side, p + q), Contribution(m, side, x))
    decreases |q|
  {
    if q == [] {
      assert p + [x] + q == p + [x];
      assert (p + [x])[..|p|] == p;
      assert p + q == p;
    } else {
      var q' := q[..|q| - 1];
      var y := q[|q| - 1];
      assert (p + [x] + q)[..|p + [x] + q| - 1] == p + [x] + q';
      assert (p + q)[..|p + q| - 1] == p + q';
      FieldRemove(m, side, p, x, q');
      VecAddSwapLast(Field(m, side, p + q'), Contribution(m, side, x), Contribution(m, side, y));
    }
  }

  /** Taking the same element out of two equal multisets leaves equal multisets. */
  lemma MultisetTakeOut<T>(init: seq<T>, x: T, p: seq<T>, q: seq<T>)
    requires multiset(init + [x]) == multiset(p + [x] + q)
    ensures multiset(init) == multiset(p + q)
  {
    assert multiset(init + [x]) == multiset(init) + multiset{x};
    assert multiset(p + [x] + q) == multiset(p) + multiset{x} + multiset(q);
    assert multiset(p + q) == multiset(p) + multiset(q);
    forall y ensures multiset(init)[y] == multiset(p + q)[y] {
      assert (multiset(init) + multiset{x})[y] == (multiset(p) + multiset{x} + multiset(q))[y];
    }
  }

  /** The field does not depend on the order of the snapshot's entries. */
  lemma {:induction false} FieldOrderIndependent(m: Mesh, side: Side, es: seq<(string, Json)>, fs: seq<(string, Json)>)
    requires Shaped(m, side)
    requires multiset(es) == multiset(fs)
    ensures Field(m, side, es) == Field(m, side, fs)
    decreases |es|
  {
    if es == [] {
      assert |fs| == |multiset(fs)| == 0;
    } else {
      var x := es[|es| - 1];
      var init := es[..|es| - 1];
      assert es == init + [x];
      assert x in multiset(fs) by {
        assert x in multiset(es);
      }
      var j :| 0 <= j < |fs| && fs[j] == x;
      var p, q := fs[..j], fs[j + 1..];
      assert fs == p + [x] + q;
      MultisetTakeOut(init, x, p, q);
      FieldOrderIndependent(m, side, init, p + q);
      FieldRemove(m, side, p, x, q);
    }
  }

  /** Reordering a snapshot changes neither the intensities nor whether they can be computed. */
  lemma IntensityOrderIndependent(a: Assets, es: seq<(string, Json)>, fs: seq<(string, Json)>)
    requires AssetsShaped(a)
    requires multiset(es) == multiset(fs)
    ensures IntensitySpec(a, es) == IntensitySpec(a, fs)
  {
    FieldOrderIndependent(a.right, Right, es, fs);
    FieldOrderIndependent(a.left, Left, es, fs);
    forall i | 0 <= i < |es| ensures es[i] in multiset(fs) {
      assert es[i] in multiset(es);
    }
    forall i | 0 <= i < |fs| ensures fs[i] in multiset(es) {
      assert fs[i] in multiset(fs);
    }
    assert Readable(es) <==> Readable(fs) by {
      if Readable(es) {
        forall i | 0 <= i < |fs| && fs[i].0 != "uid" ensures ReadSensor(fs[i].1).Some? {
          var j :| 0 <= j < |es| && es[j] == fs[i];
        }
      }
      if Readable(fs) {
        forall i | 0 <= i < |es| && es[i].0 != "uid" ensures ReadSensor(es[i].1).Some? {
          var j :| 0 <= j < |fs| && fs[j] == es[i];
        }
      }
    }
  }

  /** An entry without regions ("uid", or a sensor missing from the table) leaves the field as it is. */
  lemma NoRegionNoContribution(m: Mesh, side: Side, es: seq<(string, Json)>, e: (string, Json))
    requires Shaped(m, side)
    requires Regions(e.0) == []
    ensures Field(m, side, es + [e]) == Field(m, side, es)
  {
    assert (es + [e])[..|es|] == es;
    VecAddZero(Field(m, side, es));
  }

  /** Processing one more entry adds its contribution. */
  lemma FieldStep(m: Mesh, side: Side, es: seq<(string, Json)>, i: nat)
    requires Shaped(m, side) && i < |es|
    ensures Field(m, side, es[..i + 1]) == VecAdd(Field(m, side, es[..i]), Contribution(m, side, es[i]))
  {
    assert es[..i + 1][..i] == es[..i];
  }

  lemma FieldOfOne(m: Mesh, side: Side, e: (string, Json))
    requires Shaped(m, side)
    ensures Field(m, side, [e]) == Contribution(m, side, e)
  {
    assert [e][..0] == [];
    assert VecAdd(Zeros(|m.coords|), Contribution(m, side, e)) == Contribution(m, side, e);
  }

  /**
   * A lone sensor_a record leaves the right hemisphere at zero and paints the left one with a
   * single fade around P3: the normalised attention at the anchor, zero at and past the radius.
   */
  lemma SingleSensorAField(a: Assets, rec: Json, uid: Json)
    requires AssetsShaped(a)
    requires ReadSensor(rec).Some?
    ensures var rd := ReadSensor(rec).value;
            var es := [("sensor_a", rec), ("uid", uid)];
            && Field(a.right, Right, es) == Zeros(|a.right.coords|)
            && Field(a.left, Left, es) ==
                 FadeVec(a.left.dist[P3], Radius(a.left.span, 0.25, rd.signal), Normalize(rd.attention))
  {
    var rd := ReadSensor(rec).value;
    var A, U := ("sensor_a", rec), ("uid", uid);
    var es := [A, U];
    var rg := Region(Left, P3, Attention, 0.25);
    assert Regions("sensor_a") == [rg];
    assert [rg][..0] == [];
    assert es == [A] + [U];
    NoRegionNoContribution(a.right, Right, [A], U);
    NoRegionNoContribution(a.left, Left, [A], U);
    FieldOfOne(a.right, Right, A);
    FieldOfOne(a.left, Left, A);
    var n := |a.left.coords|;
    var f := RegionField(a.left, rg, rd);
    assert AddRegions(a.left, Left, Zeros(n), [rg], rd) == VecAdd(Zeros(n), f);
    assert VecAdd(Zeros(n), f) == f;
    var nr := |a.right.coords|;
    assert AddRegions(a.right, Right, Zeros(nr), [rg], rd) == Zeros(nr);
  }

  lemma ReadableStep(es: seq<(string, Json)>, i: nat)
    requires i < |es| && Readable(es[..i]) && (es[i].0 == "uid" || ReadSensor(es[i].1).Some?)
    ensures Readable(es[..i + 1])
  {
    var ext := es[..i + 1];
    forall j | 0 <= j < |ext| && ext[j].0 != "uid" ensures ReadSensor(ext[j].1).Some? {
      if j < i {
        assert ext[j] == es[..i][j];
      }
    }
  }

  lemma UnreadableAt(es: seq<(string, Json)>, i: nat)
    requires i < |es| && es[i].0 != "uid" && ReadSensor(es[i].1).None?
    ensures !Readable(es)
  {
  }

  /** One snapshot entry of `update_brain_intensity`: "uid" is skipped, a sensor adds its regions. */
  method AddSensor(a: Assets, right: seq<real>, left: seq<real>, e: (string, Json))
    returns (ok: bool, right': seq<real>, left': seq<real>)
    requires AssetsShaped(a) && |right| == |a.right.coords| && |left| == |a.left.coords|
    ensures ok <==> e.0 == "uid" || ReadSensor(e.1).Some?
    ensures ok ==> right' == VecAdd(right, Contribution(a.right, Right, e))
    ensures ok ==> left' == VecAdd(left, Contribution(a.left, Left, e))
  {
    if e.0 == "uid" {
      VecAddZero(right);
      VecAddZero(left);
      return true, right, left;
    }
    var rd := ReadSensor(e.1);
    if rd.None? {
      return false, right, left;
    }
    right', left' := AddSensorRegions(a, right, left, Regions(e.0), rd.value);
    AddRegionsOnto(a.right, Right, right, Regions(e.0), rd.value);
    AddRegionsOnto(a.left, Left, left, Regions(e.0), rd.value);
    ok := true;
  }

  /** The per-sensor inner loop: `+=` the fade of each region into its hemisphere's field. */
  method AddSensorRegions(a: Assets, right: seq<real>, left: seq<real>, regions: seq<Region>, rd: Reading)
    returns (right': seq<real>, left': seq<real>)
    requires AssetsShaped(a) && |right| == |a.right.coords| && |left| == |a.left.coords|
    requires forall i :: 0 <= i < |regions| ==> AnchorSide(regions[i].anchor) == regions[i].side
    ensures right' == AddRegions(a.right, Right, right, regions, rd)
    ensures left' == AddRegions(a.left, Left, left, regions, rd)
  {
    right', left' := right, left;
    for j := 0 to |regions|
      invariant right' == AddRegions(a.right, Right, right, regions[..j], rd)
      invariant left' == AddRegions(a.left, Left, left, regions[..j], rd)
    {
      assert regions[..j + 1][..j] == regions[..j];
      var rg := regions[j];
      if rg.side == Right {
        right' := VecAdd(right', RegionField(a.right, rg, rd));
      } else {
        left' := VecAdd(left', RegionField(a.left, rg, rd));
      }
    }
    assert regions[..|regions|] == regions;
  }

  // ---------------------------------------------------------------------------
  // Figures

  const BaseTitle: string := "Cerebro 3D - Visualización EEG en Tiempo Real"
  const FallbackTitle: string := "Cerebro 3D - Modo Fallback"

  /** The scene a builder call yields (geometry and fixed styling are not carried). */
  datatype Figure =
    | Fallback                                            // message-only figure, `FallbackTitle`
    | Brain(right: seq<real>, left: seq<real>, title: string)

  /** `create_live_brain_figure`'s outcome: a figure, or the exception an unreadable record raises. */
  datatype LiveFigure = Produced(figure: Figure) | Raised

  /** The sensor names of a snapshot, in order, without "uid". */
  function SensorKeys(d: seq<(string, Json)>): (ks: seq<string>)
    ensures |ks| <= |d|
    ensures forall i :: 0 <= i < |ks| ==> ks[i] != "uid" && ks[i] in Keys(d)
    ensures forall k :: k in Keys(d) && k != "uid" ==> k in ks
  {
    if d == [] then []
    else if d[0].0 == "uid" then SensorKeys(d[1..])
    else [d[0].0] + SensorKeys(d[1..])
  }

  /** Title suffix: one sensor names it upper-cased, otherwise the number of sensors. */
  function TitleSuffix(d: seq<(string, Json)>): string {
    var ks := SensorKeys(d);
    if |ks| == 1 then " - " + Upper(ks[0])
    else " - Todos los Sensores (" + NatToString(|ks|) + ")"
  }

  lemma TitleOfOneSensor(name: string, rec: Json, uid: Json)
    requires name != "uid"
    ensures TitleSuffix([(name, rec), ("uid", uid)]) == " - " + Upper(name)
    ensures TitleSuffix([("uid", uid), (name, rec)]) == " - " + Upper(name)
  {
    assert [(name, rec), ("uid", uid)][1..] == [("uid", uid)];
    assert [("uid", uid)][1..] == [];
    assert SensorKeys([(name, rec), ("uid", uid)]) == [name];
    assert [("uid", uid), (name, rec)][1..] == [(name, rec)];
    assert [(name, rec)][1..] == [];
    assert SensorKeys([("uid", uid), (name, rec)]) == [name];
  }

  lemma TitleOfSeveralSensors(d: seq<(string, Json)>)
    requires |SensorKeys(d)| != 1
    ensures TitleSuffix(d) == " - Todos los Sensores (" + NatToString(|SensorKeys(d)|) + ")"
  {
  }

  /** The visualiser's state after `_lazy_init` ran with loader outcome `load`. */
  function InitAfter(initialized: bool, assets: Option<Assets>, load: Option<Assets>): (r: (bool, Option<Assets>))
    ensures r.0 == (initialized || load.Some?)
    ensures initialized ==> r.1 == assets
    ensures !initialized && load.Some? ==> r.1 == load
  {
    if initialized then (true, assets)
    else if load.Some? then (true, load)
    else (false, assets)
  }

  /** `create_brain_figure(right, left, suffix)` on a visualiser whose init outcome is `s`. */
  function BrainFigureSpec(s: (bool, Option<Assets>), right: Option<seq<real>>, left: Option<seq<real>>, suffix: string): Figure
    requires s.0 ==> s.1.Some?
  {
    if !s.0 then Fallback
    else Brain(right.GetOr(s.1.value.refRight), left.GetOr(s.1.value.refLeft), BaseTitle + suffix)
  }

  /** `create_live_brain_figure(sensors)` on a visualiser in state (`initialized`, `assets`). */
  function LiveFigureSpec(initialized: bool, assets: Option<Assets>, load: Option<Assets>, sensors: Dict<Json>): LiveFigure
    requires initialized ==> assets.Some? && AssetsShaped(assets.value)
    requires load.Some? ==> AssetsShaped(load.value)
  {
    var s := InitAfter(initialized, assets, load);
    if !s.0 then Produced(Fallback)
    else match IntensitySpec(s.1.value, sensors)
      case Fields(r, l) => Produced(Brain(r, l, BaseTitle + TitleSuffix(sensors)))
      case _ => Raised
  }

  /**
   * Once loaded, a figure is never the fallback, and a readable snapshot yields a brain whose
   * intensities are the synthesised fields.
   */
  lemma LiveFigureOnceLoaded(assets: Assets, load: Option<Assets>, sensors: Dict<Json>)
    requires AssetsShaped(assets)
    requires load.Some? ==> AssetsShaped(load.value)
    ensures Readable(sensors) <==> LiveFigureSpec(true, Some(assets), load, sensors).Produced?
    ensures Readable(sensors) ==>
      LiveFigureSpec(true, Some(assets), load, sensors) ==
        Produced(Brain(Field(assets.right, Right, sensors), Field(assets.left, Left, sensors), BaseTitle + TitleSuffix(sensors)))
  {
  }

  /** The figure builder behind the 3D view, with its lazily loaded assets. */
  class Visualizer {
    var initialized: bool
    var assets: Option<Assets>  // mesh_right, mesh_left and the two reference maps
    var fig: Option<Figure>     // the last figure built

    ghost predicate Valid()
      reads this
    {
      initialized ==> assets.Some? && AssetsMeasured(assets.value)
    }

    constructor ()
      ensures Valid() && !initialized && assets == None && fig == None
    {
      initialized := false;
      assets := None;
      fig := None;
    }

    /**
     * `_lazy_init`: `load` is what loading the assets would produce now (`None`: it raises).
     * A failure is not remembered, so the next call tries again.
     */
    method LazyInit(load: Option<Assets>) returns (ok: bool)
      requires Valid()
      requires load.Some? ==> AssetsMeasured(load.value)
      modifies this
      ensures Valid()
      ensures (initialized, assets) == InitAfter(old(initialized), old(assets), load)
      ensures ok == initialized
      ensures fig == old(fig)
    {
      if initialized {
        return true;
      }
      if load.Some? {
        assets := load;
        initialized := true;
        return true;
      }
      return false;
    }

    /** `update_brain_intensity`: zero fields, then `+=` each region of each sensor. */
    method UpdateBrainIntensity(sensors: Dict<Json>) returns (r: Intensities)
      requires Valid()
      ensures !initialized ==> r == NotReady
      ensures initialized ==> r == IntensitySpec(assets.value, sensors)
    {
      if !initialized {
        return NotReady;
      }
      var a := assets.value;
      var right := Zeros(|a.refRight|);
      var left := Zeros(|a.refLeft|);
      for i := 0 to |sensors|
        invariant Readable(sensors[..i])
        invariant right == Field(a.right, Right, sensors[..i])
        invariant left == Field(a.left, Left, sensors[..i])
      {
        FieldStep(a.right, Right, sensors, i);
        FieldStep(a.left, Left, sensors, i);
        var ok;
        ok, right, left := AddSensor(a, right, left, sensors[i]);
        if !ok {
          UnreadableAt(sensors, i);
          return Unreadable;
        }
        ReadableStep(sensors, i);
      }
      assert sensors[..|sensors|] == sensors;
      return Fields(right, left);
    }

    /** `create_brain_figure`: a missing intensity falls back to the reference map. */
    method CreateBrainFigure(right: Option<seq<real>>, left: Option<seq<real>>, suffix: string, load: Option<Assets>)
      returns (f: Figure)
      requires Valid()
      requires load.Some? ==> AssetsMeasured(load.value)
      modifies this
      ensures Valid()
      ensures (initialized, assets) == InitAfter(old(initialized), old(assets), load)
      ensures f == BrainFigureSpec((initialized, assets), right, left, suffix)
      ensures fig == if initialized then Some(f) else old(fig)
    {
      var ok := LazyInit(load);
      if !ok {
        return Fallback;
      }
      var a := assets.value;
      f := Brain(right.GetOr(a.refRight), left.GetOr(a.refLeft), BaseTitle + suffix);
      fig := Some(f);
    }

    /** `create_live_brain_figure`: initialise, synthesise the fields, title by sensor count. */
    method CreateLiveBrainFigure(sensors: Dict<Json>, load: Option<Assets>) returns (r: LiveFigure)
      requires Valid()
      requires load.Some? ==> AssetsMeasured(load.value)
      modifies this
      ensures Valid()
      ensures (initialized, assets) == InitAfter(old(initialized), old(assets), load)
      ensures r == LiveFigureSpec(old(initialized), old(assets), load, sensors)
      ensures fig == if initialized && r.Produced? then Some(r.figure) else old(fig)
    {
      ghost var spec := LiveFigureSpec(initialized, assets, load, sensors);
      var ok := LazyInit(load);
      if !ok {
        return Produced(Fallback);
      }
      var fields := UpdateBrainIntensity(sensors);
      assert spec == match fields case Fields(r, l) => Produced(Brain(r, l, BaseTitle + TitleSuffix(sensors))) case _ => Raised;
      if !fields.Fields? {
        return Raised;
      }
      var suffix := TitleSuffix(sensors);
      var f := CreateBrainFigure(Some(fields.right), Some(fields.left), suffix, load);
      assert f == Brain(fields.right, fields.left, BaseTitle + suffix);
      return Produced(f);
    }
  }
}
