/** The CameraVisualizer object: the camera lists it is built with, the images
    it encodes once at construction, and update_figure, which walks the cameras
    in order and stores the figure it builds. */
module Visualizer {
  import opened Wrappers
  import opened Geometry
  import opened Encoding
  import opened Scene

  // ---------------------------------------------------------------- image lists

  /** The three image lists are all absent or all present; when present they
      have one entry per image, and an entry is missing in one exactly when it
      is missing in the others. */
  predicate ImagesAligned(raw: Option<seq<Option<Raster>>>, bits: Option<seq<Option<IndexedImage>>>,
                          scales: Option<seq<Option<seq<ColorStop>>>>)
  {
    raw.Some? == bits.Some? && bits.Some? == scales.Some? &&
    (raw.Some? ==>
      |raw.value| == |bits.value| && |bits.value| == |scales.value| &&
      forall i :: 0 <= i < |raw.value| ==>
        raw.value[i].Some? == bits.value[i].Some? && bits.value[i].Some? == scales.value[i].Some?)
  }

  /** The palette indices of every image, a missing image staying missing. */
  function EncodedBits(images: seq<Option<Raster>>, quantize: Raster -> IndexedImage, webPalette: seq<nat>): (bits: seq<Option<IndexedImage>>)
    requires |webPalette| % 3 == 0
    ensures |bits| == |images|
  {
    seq(|images|, i requires 0 <= i < |images| =>
      match images[i]
      case None => None
      case Some(raw) => Some(EncodeImage(raw, quantize, webPalette).0))
  }

  /** The colorscale of every image, a missing image staying missing. */
  function EncodedColorscales(images: seq<Option<Raster>>, quantize: Raster -> IndexedImage, webPalette: seq<nat>): (scales: seq<Option<seq<ColorStop>>>)
    requires |webPalette| % 3 == 0
    ensures |scales| == |images|
  {
    seq(|images|, i requires 0 <= i < |images| =>
      match images[i]
      case None => None
      case Some(raw) => Some(EncodeImage(raw, quantize, webPalette).1))
  }

  /** Encoding keeps the lists aligned: every image gets palette indices and a
      colorscale, and every missing image gets neither. */
  lemma EncodingAligns(images: seq<Option<Raster>>, quantize: Raster -> IndexedImage, webPalette: seq<nat>)
    requires |webPalette| % 3 == 0
    ensures ImagesAligned(Some(images), Some(EncodedBits(images, quantize, webPalette)),
                          Some(EncodedColorscales(images, quantize, webPalette)))
  {
  }

  /** The lists update_figure indexes with the camera number reach every camera:
      legends and colours always, the encoded images unless there are none. */
  predicate Indexable(n: nat, legends: seq<string>, colors: seq<Color>, bits: Option<seq<Option<IndexedImage>>>)
  {
    |legends| >= n && |colors| >= n && (bits.None? || |bits.value| == 0 || |bits.value| >= n)
  }

  /** The image camera i is drawn with: there is one when the encoded image list
      is present and non-empty and holds an image at i. */
  function ImageAt(raw: Option<seq<Option<Raster>>>, bits: Option<seq<Option<IndexedImage>>>,
                   scales: Option<seq<Option<seq<ColorStop>>>>, i: nat): (img: Option<ImageEntry>)
    requires ImagesAligned(raw, bits, scales)
    requires bits.None? || |bits.value| == 0 || i < |bits.value|
    ensures img.Some? <==> bits.Some? && |bits.value| > 0 && bits.value[i].Some?
    ensures img.Some? ==> img.value.raw == raw.value[i].value && img.value.bits == bits.value[i].value &&
                          img.value.colorscale == scales.value[i].value
  {
    if bits.Some? && |bits.value| > 0 && bits.value[i].Some? then
      Some(ImageEntry(raw.value[i].value, bits.value[i].value, scales.value[i].value))
    else None
  }

  /** What update_figure reads about each of the n cameras. */
  function EntriesOf(poses: seq<Pose>, legends: seq<string>, colors: seq<Color>, raw: Option<seq<Option<Raster>>>,
                     bits: Option<seq<Option<IndexedImage>>>, scales: Option<seq<Option<seq<ColorStop>>>>): (es: seq<CameraEntry>)
    requires ImagesAligned(raw, bits, scales)
    requires Indexable(|poses|, legends, colors, bits)
    ensures |es| == |poses|
    ensures forall i :: 0 <= i < |es| ==> es[i].pose == poses[i] && es[i].legend == legends[i] && es[i].color == colors[i]
  {
    seq(|poses|, i requires 0 <= i < |poses| =>
      CameraEntry(poses[i], legends[i], colors[i], ImageAt(raw, bits, scales, i)))
  }

  /** A camera built with images is drawn with image i exactly when image i is
      given and the image list is not empty; it is then drawn with the raster,
      its quantised indices and the colorscale of the web palette. */
  lemma EncodedImagesReachCameras(poses: seq<Pose>, legends: seq<string>, colors: seq<Color>, images: seq<Option<Raster>>,
                                  quantize: Raster -> IndexedImage, webPalette: seq<nat>, i: nat)
    requires |webPalette| % 3 == 0
    requires |legends| >= |poses| && |colors| >= |poses| && (|images| == 0 || |images| >= |poses|)
    requires i < |poses|
    ensures ImagesAligned(Some(images), Some(EncodedBits(images, quantize, webPalette)),
                          Some(EncodedColorscales(images, quantize, webPalette)))
    ensures Indexable(|poses|, legends, colors, Some(EncodedBits(images, quantize, webPalette)))
    ensures var es := EntriesOf(poses, legends, colors, Some(images), Some(EncodedBits(images, quantize, webPalette)),
                                Some(EncodedColorscales(images, quantize, webPalette)));
      es[i].image == (if |images| == 0 || images[i].None? then None
                      else Some(ImageEntry(images[i].value, quantize(images[i].value), Colorscale(PaletteRows(webPalette)))))
  {
    EncodingAligns(images, quantize, webPalette);
  }

  /** Without images no camera has one, so the figure holds no surface. */
  lemma NoImagesNoSurfaces(poses: seq<Pose>, legends: seq<string>, colors: seq<Color>, opts: RenderOptions, num: Numerics)
    requires Indexable(|poses|, legends, colors, None)
    requires Renderable(EntriesOf(poses, legends, colors, None, None, None), opts, num)
    ensures Count(SceneTraces(EntriesOf(poses, legends, colors, None, None, None), opts, num), SurfaceKind) == 0
  {
    var es := EntriesOf(poses, legends, colors, None, None, None);
    NoImagesCounted(es);
    SceneTraceCounts(es, opts, num);
  }

  lemma {:induction false} NoImagesCounted(es: seq<CameraEntry>)
    requires forall i :: 0 <= i < |es| ==> es[i].image.None?
    ensures NumImages(es) == 0
    decreases |es|
  {
    if |es| > 0 {
      NoImagesCounted(es[..|es| - 1]);
    }
  }

  /** The edge loop of update_figure: one line per frustum edge, in the order of
      the edge list, joining the two cone points the edge names. */
  method EdgeTraces(cone: seq<Vec3>, clr: seq<Color>, width: real) returns (ts: seq<Trace>)
    requires |cone| == 5
    ensures ts == EdgeLines(cone, clr, width)
  {
    ghost var lines := EdgeLines(cone, clr, width);
    ts := [];
    for j := 0 to |Edges|
      invariant ts == lines[..j]
    {
      var (a, b) := Edges[j];
      ts := ts + [Line(cone[a], cone[b], clr, width)];
      assert lines[..j + 1] == lines[..j] + [lines[j]];
    }
    assert lines[..|Edges|] == lines;
  }

  // ---------------------------------------------------------------- the object

  class CameraVisualizer {
    var fig: Option<Figure>
    var cameraX: real
    var poses: seq<Pose>
    var legends: seq<string>
    var colors: seq<Color>
    var rawImages: Option<seq<Option<Raster>>>
    var bitImages: Option<seq<Option<IndexedImage>>>
    var imageColorscale: Option<seq<Option<seq<ColorStop>>>>

    /** The image lists are aligned (see ImagesAligned). */
    ghost predicate Valid()
      reads this`rawImages, this`bitImages, this`imageColorscale
    {
      ImagesAligned(rawImages, bitImages, imageColorscale)
    }

    /** __init__: stores the camera lists and, when images are given, encodes
        each of them once, keeping a missing image missing in every list. */
    constructor (poses: seq<Pose>, legends: seq<string>, colors: seq<Color>, images: Option<seq<Option<Raster>>>,
                 cameraX: real, quantize: Raster -> IndexedImage, webPalette: seq<nat>)
      requires |webPalette| % 3 == 0
      ensures Valid()
      ensures fig == None && this.cameraX == cameraX
      ensures this.poses == poses && this.legends == legends && this.colors == colors
      ensures rawImages == images
      ensures images.None? ==> bitImages == None && imageColorscale == None
      ensures images.Some? ==> bitImages == Some(EncodedBits(images.value, quantize, webPalette)) &&
                               imageColorscale == Some(EncodedColorscales(images.value, quantize, webPalette))
    {
      fig := None;
      this.cameraX := cameraX;
      this.poses := poses;
      this.legends := legends;
      this.colors := colors;
      rawImages := None;
      bitImages := None;
      imageColorscale := None;
      new;
      if images.Some? {
        var imgs := images.value;
        rawImages := images;
        bitImages := Some([]);
        imageColorscale := Some([]);
        for k := 0 to |imgs|
          invariant fig == None && this.cameraX == cameraX
          invariant this.poses == poses && this.legends == legends && this.colors == colors
          invariant rawImages == images
          invariant bitImages == Some(EncodedBits(imgs[..k], quantize, webPalette))
          invariant imageColorscale == Some(EncodedColorscales(imgs[..k], quantize, webPalette))
        {
          assert imgs[..k + 1] == imgs[..k] + [imgs[k]];
          if imgs[k].None? {
            bitImages := Some(bitImages.value + [None]);
            imageColorscale := Some(imageColorscale.value + [None]);
            assert bitImages.value == EncodedBits(imgs[..k + 1], quantize, webPalette);
            assert imageColorscale.value == EncodedColorscales(imgs[..k + 1], quantize, webPalette);
            continue;
          }
          var (bitImg, colorscale) := EncodeImage(imgs[k].value, quantize, webPalette);
          bitImages := Some(bitImages.value + [Some(bitImg)]);
          imageColorscale := Some(imageColorscale.value + [Some(colorscale)]);
          assert bitImages.value == EncodedBits(imgs[..k + 1], quantize, webPalette);
          assert imageColorscale.value == EncodedColorscales(imgs[..k + 1], quantize, webPalette);
        }
        assert imgs[..|imgs|] == imgs;
        EncodingAligns(imgs, quantize, webPalette);
      }
    }

    /** The cameras as update_figure reads them. */
    function Entries(): (es: seq<CameraEntry>)
      reads this`poses, this`legends, this`colors, this`rawImages, this`bitImages, this`imageColorscale
      requires Valid()
      requires Indexable(|poses|, legends, colors, bitImages)
      ensures |es| == |poses|
    {
      EntriesOf(poses, legends, colors, rawImages, bitImages, imageColorscale)
    }

    /** The image part of update_figure's loop for camera i: no trace without an
        encoded image, else one surface on the image grid placed by the pose and
        shifted onto cone corner 2. */
    method ImageSurface(i: nat, cone: seq<Vec3>, opts: RenderOptions, num: Numerics) returns (ts: seq<Trace>)
      requires Valid()
      requires Indexable(|poses|, legends, colors, bitImages)
      requires i < |poses| && CameraRenderable(Entries()[i], i, opts, num)
      requires cone == CameraCone(Entries()[i], i, opts, num)
      ensures ts == ImageTraces(Entries()[i], i, opts, num)
    {
      ts := [];
      if bitImages.Some? && |bitImages.value| > 0 && bitImages.value[i].Some? {
        var raw := rawImages.value[i].value;
        var bitImage := bitImages.value[i].value;
        var colorscale := imageColorscale.value[i].value;
        var placed := PlacedQuad(poses[i], cone, raw, opts.baseRadius, num);
        var offset := Sub(cone[2], placed[0][0]);
        var quad := Shifted(placed, offset);
        ts := [Surface(quad, bitImage, colorscale, 0.0, 255.0)];
      }
    }

    /** The body of update_figure's loop for camera i: the traces it adds, in
        the order it adds them. */
    method CameraBlock(i: nat, opts: RenderOptions, num: Numerics) returns (block: seq<Trace>)
      requires Valid()
      requires Indexable(|poses|, legends, colors, bitImages)
      requires i < |poses| && CameraRenderable(Entries()[i], i, opts, num)
      ensures block == CameraTraces(Entries()[i], i, opts, num)
    {
      ghost var e := Entries()[i];
      var pose := poses[i];
      var clr := [colors[i], colors[i]];
      var legend := legends[i];

      var fov: real;
      match opts.fov {
        case Scalar(d) => fov := d;
        case PerCamera(ds) =>
          if |ds| == 1 {
            fov := ds[0];
          } else {
            fov := ds[i];
          }
      }
      var cone := ConePoints(pose, fov, 1.0, num);
      assert cone == CameraCone(e, i, opts, num);

      var surface := ImageSurface(i, cone, opts, num);
      var edgeTraces := EdgeTraces(cone, clr, opts.lineWidth);

      var tag: Trace;
      if cone[0].z < 0.0 {
        tag := Text(Vec3(cone[0].x, cone[0].y, cone[0].z - 0.05), legend, BottomCenter);
      } else {
        tag := Text(Vec3(cone[0].x, cone[0].y, cone[0].z + 0.05), legend, TopCenter);
      }
      block := surface + edgeTraces + [tag];
      CameraTracesParts(e, i, opts, num);
    }

    /** update_figure: for each camera in order its image surface (if any), its
        eight edges and its label, then the layout; the figure is stored and
        returned, and nothing else changes. */
    method UpdateFigure(sceneBounds: real, opts: RenderOptions, num: Numerics) returns (f: Figure)
      requires Valid()
      requires Indexable(|poses|, legends, colors, bitImages)
      requires Renderable(Entries(), opts, num)
      modifies this`fig
      ensures f == Figure(SceneTraces(Entries(), opts, num), SceneLayout(sceneBounds, opts))
      ensures fig == Some(f)
    {
      ghost var es := Entries();
      ghost var bs := Blocks(es, opts, num);
      var traces: seq<Trace> := [];
      for i := 0 to |poses|
        invariant traces == Flatten(bs[..i])
      {
        var block := CameraBlock(i, opts, num);
        traces := traces + block;
        assert bs[..i + 1][..i] == bs[..i];
      }
      assert bs[..|poses|] == bs;

      var yTitle, zTitle := "Y", "Z";
      if opts.yUp {
        yTitle, zTitle := "Z", "Y";
      }
      var layout := Layout(opts.height,
                           Axis("X", -sceneBounds, sceneBounds, opts.showTickLabels, opts.showGrid, opts.showBackground),
                           Axis(yTitle, -sceneBounds, sceneBounds, opts.showTickLabels, opts.showGrid, opts.showBackground),
                           Axis(zTitle, -sceneBounds, sceneBounds, opts.showTickLabels, opts.showGrid, opts.showBackground));
      f := Figure(traces, layout);
      fig := Some(f);
    }
  }
}
