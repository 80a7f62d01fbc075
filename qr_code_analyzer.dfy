/**
 * QrCodeAnalyzer: per camera frame, recompute the scale factor, run the
 * decoder's result through the scan-window filter, report the raw values
 * that pass, and close the frame.
 *
 * The decoder is not modelled: its result for the frame is a parameter.
 * The values handed to the `onQrCodeScanned` callback are returned, in
 * the order of the calls.
 */
module Analyzer {
  import opened Options
  import opened Geometry
  import opened ScanRegion

  /** What the barcode decoder delivers to the completion listener. */
  datatype DecodeOutcome =
    | Decoded(barcodes: seq<Barcode>)
    | DecodeFailed(message: Option<string>)

  /** A view's size is never negative. */
  type NonNegativeReal = r: real | r >= 0.0

  /** ImageProxy: a camera frame, which the analyzer must close once it is done with it. */
  class Frame {
    /** Whether `image.image` is non-null. */
    const hasImage: bool
    const width: int
    const height: int
    /** How many times `close()` has been called. */
    var closeCount: nat

    constructor (hasImage: bool, width: int, height: int)
      ensures this.hasImage == hasImage && this.width == width && this.height == height
      ensures closeCount == 0
    {
      this.hasImage := hasImage;
      this.width := width;
      this.height := height;
      closeCount := 0;
    }

    method Close()
      modifies this
      ensures closeCount == old(closeCount) + 1
    {
      closeCount := closeCount + 1;
    }
  }

  class QrCodeAnalyzer {
    /** The scan window, in preview pixels, fixed when the analyzer is built. */
    const targetRect: Rect
    /** The preview view's size, read once at construction. */
    const previewWidth: NonNegativeReal
    const previewHeight: NonNegativeReal
    /** Overwritten on every frame that carries an image. */
    var scaleFactor: real

    constructor (targetRect: Rect, previewViewWidth: nat, previewViewHeight: nat)
      ensures this.targetRect == targetRect
      ensures previewWidth == previewViewWidth as real && previewHeight == previewViewHeight as real
      ensures scaleFactor == 0.0
    {
      this.targetRect := targetRect;
      previewWidth := previewViewWidth as real;
      previewHeight := previewViewHeight as real;
      scaleFactor := 0.0;
    }

    /** `transformX`: a horizontal frame coordinate in preview units, undone by dividing by a non-zero scale. */
    function TransformX(x: real): (r: real)
      reads this
      ensures scaleFactor != 0.0 ==> r / scaleFactor == x
      ensures x >= 0.0 && scaleFactor >= 0.0 ==> r >= 0.0
    {
      x * scaleFactor
    }

    /** `transformY`: a vertical frame coordinate in preview units, undone by dividing by a non-zero scale. */
    function TransformY(y: real): (r: real)
      reads this
      ensures scaleFactor != 0.0 ==> r / scaleFactor == y
      ensures y >= 0.0 && scaleFactor >= 0.0 ==> r >= 0.0
    {
      y * scaleFactor
    }

    /** `Rect.transform`: a new RectF whose edges are the box's edges times the current scale. */
    method Transform(box: Rect) returns (scaled: RectF)
      ensures fresh(scaled)
      ensures scaled.Edges() == Scaled(ToBox(box), scaleFactor)
    {
      scaled := new RectF.FromRect(box);
      scaled.left := TransformX(box.left as real);
      scaled.top := TransformY(box.top as real);
      scaled.right := TransformX(box.right as real);
      scaled.bottom := TransformY(box.bottom as real);
    }

    /**
     * The success branch of the completion listener: visit the barcodes in
     * order and report the raw value of each one whose mapped box lies
     * inside the target.
     */
    method ScanBarcodes(barcodes: seq<Barcode>, marginX: real, marginY: real) returns (reported: seq<string>)
      ensures reported == ScannedValues(barcodes, ToBox(targetRect), Projection(scaleFactor, marginX, marginY))
    {
      var target := ToBox(targetRect);
      var p := Projection(scaleFactor, marginX, marginY);
      reported := [];
      var i := 0;
      while i < |barcodes|
        invariant 0 <= i <= |barcodes|
        invariant reported == ScannedValues(barcodes[..i], target, p)
      {
        var barcode := barcodes[i];
        assert barcodes[..i + 1][..i] == barcodes[..i];
        if barcode.boundingBox.Some? {
          var scaleBound := Transform(barcode.boundingBox.value);
          scaleBound.Offset(-marginX, -marginY);
          if Contains(target, scaleBound.Edges()) {
            if barcode.rawValue.Some? {
              reported := reported + [barcode.rawValue.value];
            }
          }
        }
        i := i + 1;
      }
      assert barcodes[..i] == barcodes;
    }

    /**
     * `analyze(image)`. A frame without an image is closed at once. Otherwise
     * the scale factor is recomputed from the frame size, the decoder's
     * result is filtered (a failed decode reports nothing), and the frame is
     * closed; either way it is closed exactly once.
     */
    method Analyze(image: Frame, decode: DecodeOutcome) returns (reported: seq<string>)
      requires image.hasImage ==> image.width > 0 && image.height > 0
      modifies this, image
      ensures image.closeCount == old(image.closeCount) + 1
      ensures !image.hasImage ==> reported == [] && scaleFactor == old(scaleFactor)
      ensures image.hasImage ==>
        scaleFactor == ScaleFactor(previewWidth, previewHeight, image.width, image.height)
      ensures image.hasImage ==>
        image.width as real * scaleFactor >= previewWidth && image.height as real * scaleFactor >= previewHeight
      ensures image.hasImage ==>
        reported == if decode.Decoded? then
          ScannedValues(decode.barcodes, ToBox(targetRect),
                        FrameProjection(previewWidth, previewHeight, image.width, image.height))
        else []
    {
      reported := [];
      if image.hasImage {
        var frameHeight := image.height;
        var frameWidth := image.width;
        scaleFactor := Max(previewHeight / frameHeight as real, previewWidth / frameWidth as real);
        var scaledFrameHeight := frameHeight as real * scaleFactor;
        var scaledFrameWidth := frameWidth as real * scaleFactor;
        var marginY := (scaledFrameHeight - previewHeight) / 2.0;
        var marginX := (scaledFrameWidth - previewWidth) / 2.0;
        assert FrameProjection(previewWidth, previewHeight, frameWidth, frameHeight)
          == Projection(scaleFactor, marginX, marginY);
        CoverFit(previewWidth, previewHeight, frameWidth, frameHeight);
        if decode.Decoded? {
          reported := ScanBarcodes(decode.barcodes, marginX, marginY);
        }
        image.Close();
      } else {
        image.Close();
      }
    }
  }
}
