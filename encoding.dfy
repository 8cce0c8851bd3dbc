/** Image encoding for textured image planes (CameraVisualizer.encode_image).
    The quantisation of an RGB raster to palette indices and the palette itself
    come from the imaging library and are inputs here; what is modelled is how
    the palette is cut into colours and turned into a colorscale: one
    (i / 255, "rgb(r, g, b)") stop per palette colour. */
module Encoding {
  import opened Wrappers

  datatype Rgb = Rgb(r: nat, g: nat, b: nat)

  /** An H x W x 3 byte image, row by row; every row has the same width. */
  type Raster = p: seq<seq<Rgb>> | IsRectangular(p) witness []

  predicate IsRectangular(p: seq<seq<Rgb>>)
  {
    forall i, j :: 0 <= i < |p| && 0 <= j < |p| ==> |p[i]| == |p[j]|
  }

  function Width(img: Raster): nat
  {
    if |img| == 0 then 0 else |img[0]|
  }

  /** A palette-indexed image, as the imaging library's quantiser returns it. */
  type IndexedImage = seq<seq<nat>>

  /** One entry of a colorscale: a key in [0, 1] and a colour string. */
  datatype ColorStop = ColorStop(key: real, color: string)

  /** The flat palette list cut into rows of three (reshape((-1, 3))). */
  function PaletteRows(flat: seq<nat>): (rows: seq<Rgb>)
    requires |flat| % 3 == 0
    ensures 3 * |rows| == |flat|
    ensures forall i :: 0 <= i < |rows| ==> rows[i] == Rgb(flat[3 * i], flat[3 * i + 1], flat[3 * i + 2])
    decreases |flat|
  {
    if |flat| == 0 then [] else [Rgb(flat[0], flat[1], flat[2])] + PaletteRows(flat[3..])
  }

  predicate IsDigit(c: char) { '0' <= c <= '9' }

  predicate AllDigits(s: string) { forall i :: 0 <= i < |s| ==> IsDigit(s[i]) }

  function DigitChar(d: nat): char
    requires d < 10
  {
    ('0' as int + d) as char
  }

  function DigitValue(c: char): nat
    requires IsDigit(c)
  {
    c as int - '0' as int
  }

  /** str(n): the decimal digits of n, without leading zeros. */
  function Decimal(n: nat): (s: string)
    ensures |s| > 0 && AllDigits(s)
    decreases n
  {
    if n < 10 then [DigitChar(n)] else Decimal(n / 10) + [DigitChar(n % 10)]
  }

  /** The number a string of decimal digits denotes. */
  function DecimalValue(s: string): nat
    requires AllDigits(s)
    decreases |s|
  {
    if |s| == 0 then 0 else 10 * DecimalValue(s[..|s| - 1]) + DigitValue(s[|s| - 1])
  }

  /** 'rgb({}, {}, {})'.format(*rgb); ParseRgb reads it back (RgbTextRoundTrip). */
  function RgbText(c: Rgb): (s: string)
    ensures "rgb(" <= s && |s| >= 10
  {
    "rgb(" + Decimal(c.r) + ", " + Decimal(c.g) + ", " + Decimal(c.b) + ")"
  }

  /** The colorscale of encode_image: one stop per palette colour, stop i keyed
      i / 255 and coloured by palette row i. */
  function Colorscale(palette: seq<Rgb>): (cs: seq<ColorStop>)
    ensures |cs| == |palette|
  {
    seq(|palette|, i requires 0 <= i < |palette| => ColorStop(i as real / 255.0, RgbText(palette[i])))
  }

  /** encode_image: the quantised image and the colorscale of the palette the
      quantiser uses. The colorscale depends on the palette only. */
  function EncodeImage(raw: Raster, quantize: Raster -> IndexedImage, webPalette: seq<nat>): (e: (IndexedImage, seq<ColorStop>))
    requires |webPalette| % 3 == 0
    ensures e.0 == quantize(raw)
    ensures 3 * |e.1| == |webPalette|
  {
    (quantize(raw), Colorscale(PaletteRows(webPalette)))
  }

  // A reader of colour strings: the inverse of RgbText, so that the colours of a
  // colorscale can be checked against the palette they came from.

  /** Length of the run of digits that starts s. */
  function DigitRun(s: string): (n: nat)
    ensures n <= |s|
    ensures AllDigits(s[..n])
    ensures n < |s| ==> !IsDigit(s[n])
    decreases |s|
  {
    if |s| == 0 || !IsDigit(s[0]) then 0
    else
      var n := 1 + DigitRun(s[1..]);
      assert s[..n] == [s[0]] + s[1..][..n - 1];
      n
  }

  /** A non-empty decimal followed by sep: the value and what follows sep. */
  function ParseField(s: string, sep: string): Option<(nat, string)>
  {
    var n := DigitRun(s);
    if n > 0 && sep <= s[n..] then Some((DecimalValue(s[..n]), s[n + |sep|..])) else None
  }

  /** Reads "rgb(r, g, b)" back into a colour. */
  function ParseRgb(s: string): Option<Rgb>
  {
    if !("rgb(" <= s) then None
    else
      match ParseField(s[4..], ", ")
      case None => None
      case Some((r, s1)) =>
        match ParseField(s1, ", ")
        case None => None
        case Some((g, s2)) =>
          match ParseField(s2, ")")
          case None => None
          case Some((b, s3)) => if s3 == "" then Some(Rgb(r, g, b)) else None
  }

  lemma {:induction false} DecimalRoundTrip(n: nat)
    ensures DecimalValue(Decimal(n)) == n
    decreases n
  {
    if n >= 10 {
      var s := Decimal(n);
      assert s == Decimal(n / 10) + [DigitChar(n % 10)];
      assert s[..|s| - 1] == Decimal(n / 10);
      DecimalRoundTrip(n / 10);
    }
  }

  lemma {:induction false} DigitRunOfDecimal(d: string, tail: string)
    requires AllDigits(d)
    requires tail == [] || !IsDigit(tail[0])
    ensures DigitRun(d + tail) == |d|
    decreases |d|
  {
    if |d| > 0 {
      assert (d + tail)[1..] == d[1..] + tail;
      DigitRunOfDecimal(d[1..], tail);
    } else {
      assert d + tail == tail;
    }
  }

  lemma ParseFieldRoundTrip(v: nat, sep: string, rest: string)
    requires |sep| > 0 && !IsDigit(sep[0])
    ensures ParseField(Decimal(v) + sep + rest, sep) == Some((v, rest))
  {
    var d := Decimal(v);
    var s := d + sep + rest;
    assert s == d + (sep + rest);
    DigitRunOfDecimal(d, sep + rest);
    assert s[..|d|] == d;
    assert s[|d|..] == sep + rest;
    assert s[|d| + |sep|..] == rest;
    DecimalRoundTrip(v);
  }

  /** Reading a colour string back gives the colour it was made from. */
  lemma RgbTextRoundTrip(c: Rgb)
    ensures ParseRgb(RgbText(c)) == Some(c)
  {
    var dr, dg, db := Decimal(c.r), Decimal(c.g), Decimal(c.b);
    var s := RgbText(c);
    var s1 := dg + ", " + (db + ")");
    var s2 := db + ")" + "";
    assert s == "rgb(" + (dr + ", " + s1);
    assert "rgb(" <= s;
    assert s[4..] == dr + ", " + s1;
    ParseFieldRoundTrip(c.r, ", ", s1);
    ParseFieldRoundTrip(c.g, ", ", db + ")");
    assert db + ")" == s2;
    ParseFieldRoundTrip(c.b, ")", "");
  }

  /** The keys of a colorscale start at 0 and strictly increase; with at most 256
      palette colours they stay within [0, 1], and 256 colours end exactly at 1. */
  lemma ColorscaleKeys(palette: seq<Rgb>)
    ensures |palette| > 0 ==> Colorscale(palette)[0].key == 0.0
    ensures forall i, j :: 0 <= i < j < |palette| ==> Colorscale(palette)[i].key < Colorscale(palette)[j].key
    ensures |palette| <= 256 ==> forall i :: 0 <= i < |palette| ==> 0.0 <= Colorscale(palette)[i].key <= 1.0
    ensures |palette| == 256 ==> Colorscale(palette)[255].key == 1.0
  {
  }

  /** Stop i of a colorscale carries palette row i: reading its colour string
      gives back exactly that colour. */
  lemma ColorscaleColors(palette: seq<Rgb>)
    ensures forall i :: 0 <= i < |palette| ==> ParseRgb(Colorscale(palette)[i].color) == Some(palette[i])
  {
    forall i | 0 <= i < |palette|
      ensures ParseRgb(Colorscale(palette)[i].color) == Some(palette[i])
    {
      RgbTextRoundTrip(palette[i]);
    }
  }

  /** The colorscale of encode_image, read against the flat palette list: stop i
      is keyed i / 255 and its colour reads back as the three palette values at
      positions 3i, 3i + 1 and 3i + 2. */
  lemma EncodedColorscale(raw: Raster, quantize: Raster -> IndexedImage, webPalette: seq<nat>)
    requires |webPalette| % 3 == 0
    ensures var cs := EncodeImage(raw, quantize, webPalette).1;
      forall i :: 0 <= i < |cs| ==>
        cs[i].key == i as real / 255.0 &&
        ParseRgb(cs[i].color) == Some(Rgb(webPalette[3 * i], webPalette[3 * i + 1], webPalette[3 * i + 2]))
  {
    ColorscaleColors(PaletteRows(webPalette));
  }
}
