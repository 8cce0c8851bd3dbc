/** Scene assembly (CameraVisualizer.update_figure), as functions of the cameras
    to draw: for every camera in order an optional image surface, eight
    wireframe lines and one text label, followed by one layout record. Traces
    are plain values; the plotting library that draws them is not modelled. */
module Scene {
  import opened Wrappers
  import opened Geometry
  import opened Encoding

  /** A colour as the caller gives it (a name or a colour string). */
  type Color = string

  datatype TextPosition = BottomCenter | TopCenter

  datatype Trace =
    | Surface(grid: seq<seq<Vec3>>, surfaceColor: IndexedImage, colorscale: seq<ColorStop>, cmin: real, cmax: real)
    | Line(p: Vec3, q: Vec3, color: seq<Color>, width: real)
    | Text(pos: Vec3, text: string, position: TextPosition)

  datatype Axis = Axis(title: string, lo: real, hi: real, showTickLabels: bool, showGrid: bool, showBackground: bool)

  datatype Layout = Layout(height: int, xaxis: Axis, yaxis: Axis, zaxis: Axis)

  datatype Figure = Figure(traces: seq<Trace>, layout: Layout)

  /** fov_deg: one float for all cameras, or a sequence of them. */
  datatype Fov = Scalar(deg: real) | PerCamera(degs: seq<real>)

  /** The arguments of update_figure that reach the figure. */
  datatype RenderOptions = RenderOptions(
    height: int, lineWidth: real, baseRadius: real, fov: Fov,
    showBackground: bool, showGrid: bool, showTickLabels: bool, yUp: bool)

  /** An encoded image of one camera: the raw raster, its palette indices and
      colorscale. */
  datatype ImageEntry = ImageEntry(raw: Raster, bits: IndexedImage, colorscale: seq<ColorStop>)

  /** What update_figure reads about camera i. */
  datatype CameraEntry = CameraEntry(pose: Pose, legend: string, color: Color, image: Option<ImageEntry>)

  // ---------------------------------------------------------------- fov

  /** Camera i has a fov: a float, a one-element sequence, or a sequence long
      enough to index. */
  predicate FovDefinedAt(fov: Fov, i: nat)
  {
    fov.Scalar? || |fov.degs| == 1 || i < |fov.degs|
  }

  /** The fov camera i is drawn with: always one of the given values. */
  function ResolveFov(fov: Fov, i: nat): (r: real)
    requires FovDefinedAt(fov, i)
    ensures fov.Scalar? ==> r == fov.deg
    ensures fov.PerCamera? ==> r in fov.degs
  {
    match fov
    case Scalar(d) => d
    case PerCamera(ds) => if |ds| == 1 then ds[0] else ds[i]
  }

  /** The fov of camera i is the float, the only element of a one-element
      sequence, or element i; in the first two cases every camera gets the same. */
  lemma FovResolution(fov: Fov, i: nat, j: nat)
    requires FovDefinedAt(fov, i) && FovDefinedAt(fov, j)
    ensures fov.Scalar? ==> ResolveFov(fov, i) == fov.deg
    ensures fov.PerCamera? && |fov.degs| == 1 ==> ResolveFov(fov, i) == fov.degs[0]
    ensures fov.PerCamera? && |fov.degs| != 1 ==> i < |fov.degs| && ResolveFov(fov, i) == fov.degs[i]
    ensures (fov.Scalar? || |fov.degs| == 1) ==> ResolveFov(fov, i) == ResolveFov(fov, j)
  {
  }

  // ---------------------------------------------------------------- wireframe

  /** The frustum edges: apex to each corner, then around the far plane. */
  const Edges: seq<(nat, nat)> := [(0, 1), (0, 2), (0, 3), (0, 4), (1, 2), (2, 3), (3, 4), (4, 1)]

  /** The edges close a pyramid: the apex is joined to every corner, each corner
      to the next one round the far plane, and there is no other edge. */
  lemma EdgesFormPyramid()
    ensures |Edges| == 8
    ensures forall k :: 1 <= k <= 4 ==> (0, k) in Edges && (k, k % 4 + 1) in Edges
    ensures forall e :: e in Edges ==> (e.0 == 0 && 1 <= e.1 <= 4) || (1 <= e.0 <= 4 && e.1 == e.0 % 4 + 1)
  {
    assert Edges[0] == (0, 1) && Edges[1] == (0, 2) && Edges[2] == (0, 3) && Edges[3] == (0, 4);
    assert Edges[4] == (1, 2) && Edges[5] == (2, 3) && Edges[6] == (3, 4) && Edges[7] == (4, 1);
  }

  function EdgeLines(cone: seq<Vec3>, clr: seq<Color>, width: real): (lines: seq<Trace>)
    requires |cone| == 5
    ensures |lines| == |Edges|
  {
    seq(|Edges|, j requires 0 <= j < |Edges| => Line(cone[Edges[j].0], cone[Edges[j].1], clr, width))
  }

  // ---------------------------------------------------------------- label

  /** The camera's text label: the legend at the apex x and y, just above or
      below the apex, placed bottom-centre exactly when the apex z is negative. */
  function Label(apex: Vec3, legend: string): (t: Trace)
    ensures t.Text? && t.text == legend
    ensures t.pos.x == apex.x && t.pos.y == apex.y
    ensures t.position == BottomCenter <==> apex.z < 0.0
  {
    if apex.z < 0.0 then Text(Vec3(apex.x, apex.y, apex.z - 0.05), legend, BottomCenter)
    else Text(Vec3(apex.x, apex.y, apex.z + 0.05), legend, TopCenter)
  }

  /** The label is moved 0.05 along z away from the plane z = 0: below the apex
      exactly when the apex is below that plane. */
  lemma LabelPlacement(apex: Vec3, legend: string)
    ensures Abs(Label(apex, legend).pos.z) == Abs(apex.z) + 0.05
    ensures (Label(apex, legend).pos.z < apex.z) <==> apex.z < 0.0
  {
  }

  // ---------------------------------------------------------------- image plane

  /** np.linspace(a, b, n): n evenly spaced values from a to b. */
  function Linspace(a: real, b: real, n: nat): (r: seq<real>)
    ensures |r| == n
  {
    if n == 1 then [a]
    else seq(n, k requires 0 <= k < n => (k as real) * ((b - a) / ((n - 1) as real)) + a)
  }

  /** np.linspace starts at a and, with two or more values, ends at b. */
  lemma LinspaceEnds(a: real, b: real, n: nat)
    ensures n > 0 ==> Linspace(a, b, n)[0] == a
    ensures n > 1 ==> Linspace(a, b, n)[n - 1] == b
  {
  }

  /** The H x W image grid in camera-local coordinates before rotation
      (np.meshgrid of np.linspace(-s, s, W) and np.linspace(s, -s, H) * H / W,
      with z the constant baseRadius). */
  function LocalGrid(s: real, h: nat, w: nat, baseRadius: real): (g: seq<seq<Vec3>>)
    requires w > 0
    ensures |g| == h && forall r :: 0 <= r < h ==> |g[r]| == w
  {
    var xs := Linspace(-s, s, w);
    var ys := Linspace(s, -s, h);
    seq(h, r requires 0 <= r < h => GridRow(xs, RowHeight(ys, r, w), baseRadius))
  }

  /** Row r's y value: np.linspace(scale, -scale, H) * H / W at r. */
  function RowHeight(ys: seq<real>, r: nat, w: nat): real
    requires r < |ys| && w > 0
  {
    ys[r] * (|ys| as real) / (w as real)
  }

  /** One row of the local grid: the x values across, at height y and depth z. */
  function GridRow(xs: seq<real>, y: real, z: real): (row: seq<Vec3>)
    ensures |row| == |xs|
  {
    seq(|xs|, c requires 0 <= c < |xs| => Vec3(xs[c], y, z))
  }

  /** The local grid is a product grid at a constant depth: the points of a
      column share their x, the points of a row their y, and every point has
      z = baseRadius. */
  lemma LocalGridIsProduct(s: real, h: nat, w: nat, baseRadius: real)
    requires w > 0
    ensures var g := LocalGrid(s, h, w, baseRadius);
      forall r, c :: 0 <= r < h && 0 <= c < w ==>
        g[r][c].x == g[0][c].x && g[r][c].y == g[r][0].y && g[r][c].z == baseRadius
  {
    var g := LocalGrid(s, h, w, baseRadius);
    var xs := Linspace(-s, s, w);
    var ys := Linspace(s, -s, h);
    forall r, c | 0 <= r < h && 0 <= c < w
      ensures g[r][c] == Vec3(xs[c], RowHeight(ys, r, w), baseRadius)
    {
      assert g[r] == GridRow(xs, RowHeight(ys, r, w), baseRadius);
    }
  }

  /** Point (0, 0) of the local grid is its top-left corner (-s, s * H / W):
      image row 0 is drawn at the top. */
  lemma LocalGridTopLeft(s: real, h: nat, w: nat, baseRadius: real)
    requires w > 0 && h > 0
    ensures LocalGrid(s, h, w, baseRadius)[0][0] == Vec3(-s, s * (h as real) / (w as real), baseRadius)
  {
    var g := LocalGrid(s, h, w, baseRadius);
    var xs := Linspace(-s, s, w);
    var ys := Linspace(s, -s, h);
    assert g[0] == GridRow(xs, RowHeight(ys, 0, w), baseRadius);
    assert g[0][0] == Vec3(xs[0], RowHeight(ys, 0, w), baseRadius);
    LinspaceEnds(-s, s, w);
    LinspaceEnds(s, -s, h);
    ScaledEndpoint(ys[0], s, h, w);
  }

  lemma ScaledEndpoint(y: real, e: real, h: nat, w: nat)
    requires y == e && w > 0
    ensures y * (h as real) / (w as real) == e * (h as real) / (w as real)
  {
  }

  /** Every grid point rotated by the pose and moved to the camera position
      (np.matmul(xyz, pose[:3, :3].T) + pose[:3, -1]). */
  function PlacedGrid(pose: Pose, g: seq<seq<Vec3>>): (p: seq<seq<Vec3>>)
    ensures |p| == |g| && forall r :: 0 <= r < |g| ==> |p[r]| == |g[r]|
  {
    seq(|g|, r requires 0 <= r < |g| =>
      seq(|g[r]|, c requires 0 <= c < |g[r]| => Add(Rotate(pose, g[r][c]), Translation(pose))))
  }

  /** Every grid point moved by the same offset (rot_xyz += offset). */
  function Shifted(g: seq<seq<Vec3>>, offset: Vec3): (q: seq<seq<Vec3>>)
    ensures |q| == |g| && forall r :: 0 <= r < |g| ==> |q[r]| == |g[r]|
  {
    seq(|g|, r requires 0 <= r < |g| =>
      seq(|g[r]|, c requires 0 <= c < |g[r]| => Add(g[r][c], offset)))
  }

  /** The half-width of the image plane: half the distance from corner 1 to 2. */
  function QuadHalfWidth(cone: seq<Vec3>, num: Numerics): (r: real)
    requires |cone| == 5
    ensures IsEuclidean(num) ==> r >= 0.0 && 4.0 * r * r == Dot(Sub(cone[1], cone[2]), Sub(cone[1], cone[2]))
  {
    num.norm(Sub(cone[1], cone[2])) / 2.0
  }

  /** The image grid placed in world space, before the correcting shift. */
  function PlacedQuad(pose: Pose, cone: seq<Vec3>, raw: Raster, baseRadius: real, num: Numerics): (p: seq<seq<Vec3>>)
    requires |cone| == 5
    requires Width(raw) > 0
    ensures |p| == |raw| && forall r :: 0 <= r < |p| ==> |p[r]| == Width(raw)
  {
    PlacedGrid(pose, LocalGrid(QuadHalfWidth(cone, num), |raw|, Width(raw), baseRadius))
  }

  /** The image plane of a camera: the placed grid moved so that its point
      (0, 0) lands on frustum corner 2. */
  function ImageQuad(pose: Pose, cone: seq<Vec3>, raw: Raster, baseRadius: real, num: Numerics): (q: seq<seq<Vec3>>)
    requires |cone| == 5
    requires |raw| > 0 && Width(raw) > 0
    ensures |q| == |raw| && forall r :: 0 <= r < |q| ==> |q[r]| == Width(raw)
  {
    var placed := PlacedQuad(pose, cone, raw, baseRadius, num);
    Shifted(placed, Sub(cone[2], placed[0][0]))
  }

  /** The image plane is anchored at frustum corner 2, and the correcting shift
      moves every point alike: relative positions within the placed grid are
      kept, and each placed point is the pose applied to its local point. */
  lemma ImageQuadAnchored(pose: Pose, cone: seq<Vec3>, raw: Raster, baseRadius: real, num: Numerics)
    requires |cone| == 5
    requires |raw| > 0 && Width(raw) > 0
    ensures ImageQuad(pose, cone, raw, baseRadius, num)[0][0] == cone[2]
    ensures var q := ImageQuad(pose, cone, raw, baseRadius, num);
      var p := PlacedQuad(pose, cone, raw, baseRadius, num);
      forall r, c :: 0 <= r < |q| && 0 <= c < |q[r]| ==> Sub(q[r][c], q[0][0]) == Sub(p[r][c], p[0][0])
    ensures var p := PlacedQuad(pose, cone, raw, baseRadius, num);
      var g := LocalGrid(QuadHalfWidth(cone, num), |raw|, Width(raw), baseRadius);
      forall r, c :: 0 <= r < |p| && 0 <= c < |p[r]| ==> p[r][c] == Add(Rotate(pose, g[r][c]), Translation(pose))
  {
    var q := ImageQuad(pose, cone, raw, baseRadius, num);
    var p := PlacedQuad(pose, cone, raw, baseRadius, num);
    var off := Sub(cone[2], p[0][0]);
    forall r, c | 0 <= r < |q| && 0 <= c < |q[r]|
      ensures q[r][c] == Add(p[r][c], off)
    {
      assert q[r] == seq(|p[r]|, c requires 0 <= c < |p[r]| => Add(p[r][c], off));
    }
  }

  // ---------------------------------------------------------------- one camera

  /** update_figure can draw camera i: its fov resolves, its corner directions
      can be normalised, and an image it carries is at least one pixel. */
  predicate CameraRenderable(e: CameraEntry, i: nat, opts: RenderOptions, num: Numerics)
  {
    FovDefinedAt(opts.fov, i) &&
    ConeDefined(e.pose, ResolveFov(opts.fov, i), num) &&
    (e.image.Some? ==> |e.image.value.raw| > 0 && Width(e.image.value.raw) > 0)
  }

  function CameraCone(e: CameraEntry, i: nat, opts: RenderOptions, num: Numerics): (cone: seq<Vec3>)
    requires CameraRenderable(e, i, opts, num)
    ensures |cone| == 5
  {
    ConePoints(e.pose, ResolveFov(opts.fov, i), 1.0, num)
  }

  /** The image surface of a camera, if it has an encoded image. */
  function ImageTraces(e: CameraEntry, i: nat, opts: RenderOptions, num: Numerics): (ts: seq<Trace>)
    requires CameraRenderable(e, i, opts, num)
    ensures |ts| == (if e.image.Some? then 1 else 0)
    ensures e.image.Some? ==>
      ts[0].Surface? && ts[0].surfaceColor == e.image.value.bits && ts[0].colorscale == e.image.value.colorscale &&
      ts[0].cmin == 0.0 && ts[0].cmax == 255.0
  {
    match e.image
    case None => []
    case Some(img) =>
      [Surface(ImageQuad(e.pose, CameraCone(e, i, opts, num), img.raw, opts.baseRadius, num),
               img.bits, img.colorscale, 0.0, 255.0)]
  }

  /** Everything update_figure adds for camera i, in order. */
  function CameraTraces(e: CameraEntry, i: nat, opts: RenderOptions, num: Numerics): (ts: seq<Trace>)
    requires CameraRenderable(e, i, opts, num)
    ensures |ts| == (if e.image.Some? then 10 else 9)
    ensures ts[|ts| - 1] == Label(CameraCone(e, i, opts, num)[0], e.legend)
  {
    var cone := CameraCone(e, i, opts, num);
    ImageTraces(e, i, opts, num) + EdgeLines(cone, [e.color, e.color], opts.lineWidth) + [Label(cone[0], e.legend)]
  }

  /** The three parts of a camera's block. */
  lemma CameraTracesParts(e: CameraEntry, i: nat, opts: RenderOptions, num: Numerics)
    requires CameraRenderable(e, i, opts, num)
    ensures var cone := CameraCone(e, i, opts, num);
      CameraTraces(e, i, opts, num) ==
        ImageTraces(e, i, opts, num) + EdgeLines(cone, [e.color, e.color], opts.lineWidth) + [Label(cone[0], e.legend)]
  {
  }

  /** The block of traces of one camera: a surface first exactly when the camera
      has an image, then the eight edges in order, each joining the two cone
      points it names in the camera's colour and the line width, then the label
      at the apex. */
  lemma CameraTracesShape(e: CameraEntry, i: nat, opts: RenderOptions, num: Numerics)
    requires CameraRenderable(e, i, opts, num)
    ensures var ts := CameraTraces(e, i, opts, num);
      var s := if e.image.Some? then 1 else 0;
      var cone := CameraCone(e, i, opts, num);
      |ts| == s + 9 &&
      (ts[0].Surface? <==> e.image.Some?) &&
      (e.image.Some? ==> ts[0].surfaceColor == e.image.value.bits && ts[0].colorscale == e.image.value.colorscale &&
                         ts[0].grid[0][0] == cone[2]) &&
      (forall j :: 0 <= j < 8 ==> ts[s + j] == Line(cone[Edges[j].0], cone[Edges[j].1], [e.color, e.color], opts.lineWidth)) &&
      ts[s + 8] == Label(cone[0], e.legend) &&
      cone[0] == Translation(e.pose)
  {
    var ts := CameraTraces(e, i, opts, num);
    var s := if e.image.Some? then 1 else 0;
    var cone := CameraCone(e, i, opts, num);
    var lines := EdgeLines(cone, [e.color, e.color], opts.lineWidth);
    assert ts == ImageTraces(e, i, opts, num) + lines + [Label(cone[0], e.legend)];
    assert |ImageTraces(e, i, opts, num)| == s;
    forall j | 0 <= j < 8
      ensures ts[s + j] == Line(cone[Edges[j].0], cone[Edges[j].1], [e.color, e.color], opts.lineWidth)
    {
      assert ts[s + j] == lines[j];
    }
  }

  // ---------------------------------------------------------------- the scene

  predicate Renderable(es: seq<CameraEntry>, opts: RenderOptions, num: Numerics)
  {
    forall i :: 0 <= i < |es| ==> CameraRenderable(es[i], i, opts, num)
  }

  /** The block of traces of every camera, in camera order. */
  function Blocks(es: seq<CameraEntry>, opts: RenderOptions, num: Numerics): (bs: seq<seq<Trace>>)
    requires Renderable(es, opts, num)
    ensures |bs| == |es|
  {
    seq(|es|, i requires 0 <= i < |es| => CameraTraces(es[i], i, opts, num))
  }

  /** The blocks one after the other. */
  function Flatten(bs: seq<seq<Trace>>): seq<Trace>
    decreases |bs|
  {
    if |bs| == 0 then [] else Flatten(bs[..|bs| - 1]) + bs[|bs| - 1]
  }

  /** All traces update_figure adds to the figure: nine per camera and one
      more per camera with an image. */
  function SceneTraces(es: seq<CameraEntry>, opts: RenderOptions, num: Numerics): (ts: seq<Trace>)
    requires Renderable(es, opts, num)
    ensures |ts| == 9 * |es| + NumImages(es)
  {
    var bs := Blocks(es, opts, num);
    BlocksCounted(es, opts, num);
    FlattenCounts(bs, es);
    Flatten(bs)
  }

  /** The layout record: the three axes share the range [-bounds, bounds]; y_up
      swaps the titles of the y and z axes. */
  function SceneLayout(bounds: real, opts: RenderOptions): (l: Layout)
    ensures l.xaxis.lo == -bounds && l.xaxis.hi == bounds
    ensures l.yaxis.lo == -bounds && l.yaxis.hi == bounds
    ensures l.zaxis.lo == -bounds && l.zaxis.hi == bounds
    ensures l.xaxis.title == "X"
    ensures l.yaxis.title == (if opts.yUp then "Z" else "Y") && l.zaxis.title == (if opts.yUp then "Y" else "Z")
    ensures l.height == opts.height
    ensures forall a :: a in [l.xaxis, l.yaxis, l.zaxis] ==>
      a.showTickLabels == opts.showTickLabels && a.showGrid == opts.showGrid && a.showBackground == opts.showBackground
  {
    Layout(opts.height,
           Axis("X", -bounds, bounds, opts.showTickLabels, opts.showGrid, opts.showBackground),
           Axis(if opts.yUp then "Z" else "Y", -bounds, bounds, opts.showTickLabels, opts.showGrid, opts.showBackground),
           Axis(if opts.yUp then "Y" else "Z", -bounds, bounds, opts.showTickLabels, opts.showGrid, opts.showBackground))
  }

  // ---------------------------------------------------------------- counting

  datatype TraceKind = SurfaceKind | LineKind | TextKind

  function KindOf(t: Trace): TraceKind
  {
    match t
    case Surface(_, _, _, _, _) => SurfaceKind
    case Line(_, _, _, _) => LineKind
    case Text(_, _, _) => TextKind
  }

  /** How many traces of kind k there are in ts. */
  function Count(ts: seq<Trace>, k: TraceKind): nat
    decreases |ts|
  {
    if |ts| == 0 then 0 else Count(ts[..|ts| - 1], k) + (if KindOf(ts[|ts| - 1]) == k then 1 else 0)
  }

  /** How many cameras have an image. */
  function NumImages(es: seq<CameraEntry>): nat
    decreases |es|
  {
    if |es| == 0 then 0 else NumImages(es[..|es| - 1]) + (if es[|es| - 1].image.Some? then 1 else 0)
  }

  lemma {:induction false} CountAppend(a: seq<Trace>, b: seq<Trace>, k: TraceKind)
    ensures Count(a + b, k) == Count(a, k) + Count(b, k)
    decreases |b|
  {
    if |b| == 0 {
      assert a + b == a;
    } else {
      assert (a + b)[..|a + b| - 1] == a + b[..|b| - 1];
      CountAppend(a, b[..|b| - 1], k);
    }
  }

  lemma {:induction false} CountAllOfKind(ts: seq<Trace>, k: TraceKind, other: TraceKind)
    requires forall j :: 0 <= j < |ts| ==> KindOf(ts[j]) == k
    requires other != k
    ensures Count(ts, k) == |ts| && Count(ts, other) == 0
    decreases |ts|
  {
    if |ts| > 0 {
      CountAllOfKind(ts[..|ts| - 1], k, other);
    }
  }

  /** One camera contributes eight lines, one label and a surface exactly when
      it has an image. */
  lemma CameraTraceCounts(e: CameraEntry, i: nat, opts: RenderOptions, num: Numerics)
    requires CameraRenderable(e, i, opts, num)
    ensures var ts := CameraTraces(e, i, opts, num);
      var s := if e.image.Some? then 1 else 0;
      |ts| == 9 + s && Count(ts, LineKind) == 8 && Count(ts, TextKind) == 1 && Count(ts, SurfaceKind) == s
  {
    var cone := CameraCone(e, i, opts, num);
    var img := ImageTraces(e, i, opts, num);
    var lines := EdgeLines(cone, [e.color, e.color], opts.lineWidth);
    var tag := [Label(cone[0], e.legend)];
    CountAppend(img + lines, tag, LineKind);
    CountAppend(img + lines, tag, TextKind);
    CountAppend(img + lines, tag, SurfaceKind);
    CountAppend(img, lines, LineKind);
    CountAppend(img, lines, TextKind);
    CountAppend(img, lines, SurfaceKind);
    CountAllOfKind(lines, LineKind, TextKind);
    CountAllOfKind(lines, LineKind, SurfaceKind);
    assert Count(tag, TextKind) == 1 && Count(tag, LineKind) == 0 && Count(tag, SurfaceKind) == 0 by {
      assert tag[..0] == [];
    }
    if e.image.Some? {
      assert img[..0] == [];
    }
  }

  /** Block i has 9 traces plus one for an image: 8 lines, one label, and a
      surface exactly when camera i has an image. */
  predicate BlockCounts(bs: seq<seq<Trace>>, es: seq<CameraEntry>)
  {
    |bs| == |es| &&
    forall i :: 0 <= i < |bs| ==>
      var s := if es[i].image.Some? then 1 else 0;
      |bs[i]| == 9 + s && Count(bs[i], LineKind) == 8 && Count(bs[i], TextKind) == 1 && Count(bs[i], SurfaceKind) == s
  }

  lemma {:induction false} FlattenCounts(bs: seq<seq<Trace>>, es: seq<CameraEntry>)
    requires BlockCounts(bs, es)
    ensures |Flatten(bs)| == 9 * |bs| + NumImages(es)
    ensures Count(Flatten(bs), LineKind) == 8 * |bs|
    ensures Count(Flatten(bs), TextKind) == |bs|
    ensures Count(Flatten(bs), SurfaceKind) == NumImages(es)
    decreases |bs|
  {
    if |bs| > 0 {
      var n := |bs| - 1;
      assert BlockCounts(bs[..n], es[..n]);
      FlattenCounts(bs[..n], es[..n]);
      CountAppend(Flatten(bs[..n]), bs[n], LineKind);
      CountAppend(Flatten(bs[..n]), bs[n], TextKind);
      CountAppend(Flatten(bs[..n]), bs[n], SurfaceKind);
    }
  }

  /** The whole scene: 9 traces per camera plus one per image; 8 lines and one
      label per camera, one surface per image, and nothing else. */
  lemma SceneTraceCounts(es: seq<CameraEntry>, opts: RenderOptions, num: Numerics)
    requires Renderable(es, opts, num)
    ensures var ts := SceneTraces(es, opts, num);
      |ts| == 9 * |es| + NumImages(es) &&
      Count(ts, LineKind) == 8 * |es| &&
      Count(ts, TextKind) == |es| &&
      Count(ts, SurfaceKind) == NumImages(es)
  {
    BlocksCounted(es, opts, num);
    FlattenCounts(Blocks(es, opts, num), es);
  }

  lemma BlocksCounted(es: seq<CameraEntry>, opts: RenderOptions, num: Numerics)
    requires Renderable(es, opts, num)
    ensures BlockCounts(Blocks(es, opts, num), es)
  {
    var bs := Blocks(es, opts, num);
    forall i | 0 <= i < |es|
      ensures var s := if es[i].image.Some? then 1 else 0;
        |bs[i]| == 9 + s && Count(bs[i], LineKind) == 8 && Count(bs[i], TextKind) == 1 && Count(bs[i], SurfaceKind) == s
    {
      CameraTraceCounts(es[i], i, opts, num);
    }
  }

  lemma {:induction false} FlattenInOrder(bs: seq<seq<Trace>>, i: nat)
    requires i < |bs|
    ensures Flatten(bs[..i]) + bs[i] <= Flatten(bs)
    decreases |bs|
  {
    if i + 1 < |bs| {
      var n := |bs| - 1;
      assert bs[..n][..i] == bs[..i];
      FlattenInOrder(bs[..n], i);
    } else {
      assert bs[..i] == bs[..|bs| - 1];
    }
  }

  /** Cameras are drawn in order: the traces of cameras 0..i-1 followed by those
      of camera i start the traces of the whole scene. */
  lemma SceneInCameraOrder(es: seq<CameraEntry>, i: nat, opts: RenderOptions, num: Numerics)
    requires Renderable(es, opts, num) && i < |es|
    ensures Flatten(Blocks(es, opts, num)[..i]) + CameraTraces(es[i], i, opts, num) <= SceneTraces(es, opts, num)
  {
    FlattenInOrder(Blocks(es, opts, num), i);
  }

  /** The traces of a camera depend on the fov, the line width and the base
      radius only: height, the axis styling flags and y_up do not reach them. */
  lemma CameraTracesOptions(e: CameraEntry, i: nat, o1: RenderOptions, o2: RenderOptions, num: Numerics)
    requires CameraRenderable(e, i, o1, num)
    requires o1.fov == o2.fov && o1.lineWidth == o2.lineWidth && o1.baseRadius == o2.baseRadius
    ensures CameraRenderable(e, i, o2, num)
    ensures CameraTraces(e, i, o1, num) == CameraTraces(e, i, o2, num)
  {
    assert CameraCone(e, i, o1, num) == CameraCone(e, i, o2, num);
    assert ImageTraces(e, i, o1, num) == ImageTraces(e, i, o2, num);
  }

  /** y_up touches neither the traces nor the x axis; on the y and z axes it
      changes the title only, and swaps the two titles, which differ. */
  lemma YUpOnlyRetitles(es: seq<CameraEntry>, bounds: real, opts: RenderOptions, num: Numerics)
    requires Renderable(es, opts, num)
    ensures Renderable(es, opts.(yUp := true), num) && Renderable(es, opts.(yUp := false), num)
    ensures SceneTraces(es, opts.(yUp := true), num) == SceneTraces(es, opts.(yUp := false), num)
    ensures var up := SceneLayout(bounds, opts.(yUp := true));
      var flat := SceneLayout(bounds, opts.(yUp := false));
      up.height == flat.height && up.xaxis == flat.xaxis &&
      up.yaxis == flat.yaxis.(title := up.yaxis.title) && up.zaxis == flat.zaxis.(title := up.zaxis.title) &&
      up.yaxis.title == flat.zaxis.title && up.zaxis.title == flat.yaxis.title &&
      up.yaxis.title != flat.yaxis.title && up.zaxis.title != flat.zaxis.title
  {
    YUpKeepsTraces(es, opts, num);
  }

  lemma YUpKeepsTraces(es: seq<CameraEntry>, opts: RenderOptions, num: Numerics)
    requires Renderable(es, opts, num)
    ensures Renderable(es, opts.(yUp := true), num) && Renderable(es, opts.(yUp := false), num)
    ensures Blocks(es, opts.(yUp := true), num) == Blocks(es, opts.(yUp := false), num)
  {
    var u, f := opts.(yUp := true), opts.(yUp := false);
    forall i | 0 <= i < |es|
      ensures CameraRenderable(es[i], i, u, num) && CameraRenderable(es[i], i, f, num)
      ensures CameraTraces(es[i], i, u, num) == CameraTraces(es[i], i, f, num)
    {
      CameraTracesOptions(es[i], i, opts, u, num);
      CameraTracesOptions(es[i], i, opts, f, num);
    }
    assert Blocks(es, u, num) == Blocks(es, f, num);
  }
}
