/**
 * The arithmetic of QrCodeAnalyzer: the cover-fit scale from frame space
 * to preview space, the centring margins, the mapping of a barcode's
 * bounding box into preview space, and which decoded values are reported.
 */
module ScanRegion {
  import opened Options
  import opened Geometry

  /** `kotlin.math.max` on two finite floats. */
  function Max(a: real, b: real): real
  {
    if a >= b then a else b
  }

  /**
   * The scale factor for a frame: the larger of the height ratio and the
   * width ratio between preview and frame.
   */
  function ScaleFactor(previewWidth: real, previewHeight: real, frameWidth: int, frameHeight: int): (scale: real)
    requires frameWidth > 0 && frameHeight > 0
    ensures scale >= previewHeight / frameHeight as real
    ensures scale >= previewWidth / frameWidth as real
    ensures scale == previewHeight / frameHeight as real || scale == previewWidth / frameWidth as real
  {
    Max(previewHeight / frameHeight as real, previewWidth / frameWidth as real)
  }

  /** Half the amount by which the scaled frame overhangs the preview along one axis. */
  function Margin(frameExtent: int, previewExtent: real, scale: real): real
  {
    (frameExtent as real * scale - previewExtent) / 2.0
  }

  /** How frame coordinates are carried into preview coordinates. */
  datatype Projection = Projection(scale: real, marginX: real, marginY: real)

  /** The projection `analyze` computes for a frame of the given size. */
  function FrameProjection(previewWidth: real, previewHeight: real, frameWidth: int, frameHeight: int): Projection
    requires frameWidth > 0 && frameHeight > 0
  {
    var scale := ScaleFactor(previewWidth, previewHeight, frameWidth, frameHeight);
    Projection(scale, Margin(frameWidth, previewWidth, scale), Margin(frameHeight, previewHeight, scale))
  }

  /** Each edge multiplied by the scale (`transformX`, `transformY`). */
  function Scaled(b: Box, scale: real): Box
  {
    Box(b.left * scale, b.top * scale, b.right * scale, b.bottom * scale)
  }

  /** A frame-space bounding box in preview space: scaled, then offset by the negative margins. */
  function MapBox(box: Rect, p: Projection): Box
  {
    Shifted(Scaled(ToBox(box), p.scale), -p.marginX, -p.marginY)
  }

  /** Preview-space edges carried back to frame space. */
  function UnmapBox(b: Box, p: Projection): Box
    requires p.scale != 0.0
  {
    Box((b.left + p.marginX) / p.scale, (b.top + p.marginY) / p.scale,
        (b.right + p.marginX) / p.scale, (b.bottom + p.marginY) / p.scale)
  }

  /**
   * Cover-fit: with a frame of positive size and a preview of non-negative
   * size, the scaled frame covers the preview on both axes, so neither
   * margin is negative, and the scale itself is not negative.
   */
  lemma CoverFit(previewWidth: real, previewHeight: real, frameWidth: int, frameHeight: int)
    requires frameWidth > 0 && frameHeight > 0
    requires previewWidth >= 0.0 && previewHeight >= 0.0
    ensures var p := FrameProjection(previewWidth, previewHeight, frameWidth, frameHeight);
      && p.scale >= 0.0
      && frameWidth as real * p.scale >= previewWidth
      && frameHeight as real * p.scale >= previewHeight
      && p.marginX >= 0.0
      && p.marginY >= 0.0
  {
    assert previewWidth / frameWidth as real >= 0.0;
  }

  /** The scale is one of the two ratios, so the scaled frame fits the preview exactly along that axis. */
  lemma OneMarginVanishes(previewWidth: real, previewHeight: real, frameWidth: int, frameHeight: int)
    requires frameWidth > 0 && frameHeight > 0
    ensures var p := FrameProjection(previewWidth, previewHeight, frameWidth, frameHeight);
      p.marginX == 0.0 || p.marginY == 0.0
  {
    var fw, fh := frameWidth as real, frameHeight as real;
    var s := ScaleFactor(previewWidth, previewHeight, frameWidth, frameHeight);
    if s == previewHeight / fh {
      assert fh * s == previewHeight;
    } else {
      assert fw * s == previewWidth;
    }
  }

  /** Mapping with a non-negative scale keeps left <= right and top <= bottom. */
  lemma MapBoxKeepsEdgeOrder(box: Rect, p: Projection)
    requires p.scale >= 0.0
    requires box.left <= box.right && box.top <= box.bottom
    ensures MapBox(box, p).left <= MapBox(box, p).right
    ensures MapBox(box, p).top <= MapBox(box, p).bottom
  {
  }

  /** With a positive scale, mapping into preview space loses nothing: it can be undone edge by edge. */
  lemma MapBoxInverse(box: Rect, p: Projection)
    requires p.scale > 0.0
    ensures UnmapBox(MapBox(box, p), p) == ToBox(box)
  {
    var s := p.scale;
    assert (box.left as real * s - p.marginX + p.marginX) / s == box.left as real;
    assert (box.top as real * s - p.marginY + p.marginY) / s == box.top as real;
    assert (box.right as real * s - p.marginX + p.marginX) / s == box.right as real;
    assert (box.bottom as real * s - p.marginY + p.marginY) / s == box.bottom as real;
  }

  /**
   * A 480x640 frame under a 1080x1920 preview: scale 3, margins 180 and 0,
   * and the box (100, 100, 200, 200) lands on (120, 300, 420, 600).
   */
  lemma PortraitFrameExample()
    ensures FrameProjection(1080.0, 1920.0, 480, 640) == Projection(3.0, 180.0, 0.0)
    ensures MapBox(Rect(100, 100, 200, 200), Projection(3.0, 180.0, 0.0)) == Box(120.0, 300.0, 420.0, 600.0)
  {
  }

  /** One barcode from the decoder: an optional bounding box (frame space) and an optional raw value. */
  datatype Barcode = Barcode(boundingBox: Option<Rect>, rawValue: Option<string>)

  /** A barcode is reported when it has a box, its mapped box lies in the target, and it has a raw value. */
  predicate Qualifies(b: Barcode, target: Box, p: Projection)
  {
    && b.boundingBox.Some?
    && Contains(target, MapBox(b.boundingBox.value, p))
    && b.rawValue.Some?
  }

  /** The raw values handed to the callback for a decoded frame, in the order the barcodes come. */
  function ScannedValues(barcodes: seq<Barcode>, target: Box, p: Projection): seq<string>
  {
    if barcodes == [] then []
    else
      var last := barcodes[|barcodes| - 1];
      ScannedValues(barcodes[..|barcodes| - 1], target, p)
        + (if Qualifies(last, target, p) then [last.rawValue.value] else [])
  }

  /** How many barcodes of the list qualify. */
  function CountQualifying(barcodes: seq<Barcode>, target: Box, p: Projection): nat
  {
    if barcodes == [] then 0
    else
      CountQualifying(barcodes[..|barcodes| - 1], target, p)
        + (if Qualifies(barcodes[|barcodes| - 1], target, p) then 1 else 0)
  }

  /** Scanning a concatenation reports the first part's values, then the second's. */
  lemma {:induction false} ScannedValuesAppend(a: seq<Barcode>, b: seq<Barcode>, target: Box, p: Projection)
    ensures ScannedValues(a + b, target, p) == ScannedValues(a, target, p) + ScannedValues(b, target, p)
  {
    if b == [] {
      assert a + b == a;
    } else {
      var b' := b[..|b| - 1];
      assert (a + b)[..|a + b| - 1] == a + b';
      assert (a + b)[|a + b| - 1] == b[|b| - 1];
      ScannedValuesAppend(a, b', target, p);
    }
  }

  /** Exactly one value is reported per qualifying barcode. */
  lemma {:induction false} ScannedValuesLength(barcodes: seq<Barcode>, target: Box, p: Projection)
    ensures |ScannedValues(barcodes, target, p)| == CountQualifying(barcodes, target, p) <= |barcodes|
  {
    if barcodes != [] {
      ScannedValuesLength(barcodes[..|barcodes| - 1], target, p);
    }
  }

  /** Every reported value is the raw value of a qualifying barcode of the frame. */
  lemma {:induction false} ScannedValuesSound(barcodes: seq<Barcode>, target: Box, p: Projection, x: string)
    requires x in ScannedValues(barcodes, target, p)
    ensures exists i :: 0 <= i < |barcodes| && Qualifies(barcodes[i], target, p) && barcodes[i].rawValue == Some(x)
  {
    var n := |barcodes| - 1;
    var front := barcodes[..n];
    if x in ScannedValues(front, target, p) {
      ScannedValuesSound(front, target, p, x);
      var i :| 0 <= i < |front| && Qualifies(front[i], target, p) && front[i].rawValue == Some(x);
      assert barcodes[i] == front[i];
    } else {
      assert Qualifies(barcodes[n], target, p) && barcodes[n].rawValue == Some(x);
    }
  }

  /**
   * The i-th barcode, when it qualifies, is reported right after the values
   * of the qualifying barcodes before it: in list order, once.
   */
  lemma {:induction false} ScannedValuesComplete(barcodes: seq<Barcode>, target: Box, p: Projection, i: nat)
    requires i < |barcodes| && Qualifies(barcodes[i], target, p)
    ensures var k := CountQualifying(barcodes[..i], target, p);
      k < |ScannedValues(barcodes, target, p)| && ScannedValues(barcodes, target, p)[k] == barcodes[i].rawValue.value
  {
    var front, rest := barcodes[..i], barcodes[i + 1..];
    assert barcodes == front + [barcodes[i]] + rest;
    ScannedValuesAppend(front + [barcodes[i]], rest, target, p);
    ScannedValuesAppend(front, [barcodes[i]], target, p);
    ScannedValuesLength(front, target, p);
    assert [barcodes[i]][..0] == [];
    assert ScannedValues([barcodes[i]], target, p) == [barcodes[i].rawValue.value];
  }

  /** A target with no area, such as `Rect.Zero`, never lets a value through. */
  lemma {:induction false} EmptyTargetReportsNothing(barcodes: seq<Barcode>, target: Box, p: Projection)
    requires IsEmpty(target)
    ensures ScannedValues(barcodes, target, p) == []
  {
    if barcodes != [] {
      EmptyTargetReportsNothing(barcodes[..|barcodes| - 1], target, p);
    }
  }
}
