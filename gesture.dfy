/**
 * The gesture screen's per-frame logic: classify the detected hands by their
 * handedness tag, move the overlay object to the right index fingertip, scale
 * it by the left thumb-to-pinky span, and draw it centred on its position.
 * Landmark coordinates are normalised to [0, 1]; the canvas size turns them
 * into pixels. `Math.sqrt` is a parameter characterised by `IsSqrt`.
 */
module Gesture {
  import opened Wrappers
  import opened Geometry

  const InitialX: real := 320.0
  const InitialY: real := 240.0
  const InitialScale: real := 1.0
  const MinGestureScale: real := 0.3
  const MaxGestureScale: real := 3.0
  /** The thumb-to-pinky span, in pixels, that gives scale 1. */
  const SpanCalibration: real := 150.0
  /** The longest side of the overlay image after loading. */
  const MaxOverlaySize: real := 200.0

  const NumLandmarks: nat := 21
  const ThumbTip: nat := 4
  const IndexTip: nat := 8
  const PinkyTip: nat := 20

  /** One hand's 21 landmarks, normalised to the camera image. */
  type Landmarks = seq<Point>

  /**
   * What the detector delivers per frame: the landmark lists (absent when
   * no hand was found) and, index-aligned with them, the handedness labels.
   */
  datatype Frame = Frame(multiHandLandmarks: Option<seq<Landmarks>>, multiHandedness: seq<string>)

  /** Every detected hand has the detector's 21 landmarks. */
  predicate WellFormed(f: Frame) {
    f.multiHandLandmarks.Some? ==> forall h :: h in f.multiHandLandmarks.value ==> |h| == NumLandmarks
  }

  /** The host's square root. */
  ghost predicate IsSqrt(sqrt: real -> real) {
    forall x :: 0.0 <= x ==> 0.0 <= sqrt(x) && sqrt(x) * sqrt(x) == x
  }

  /** `HAND_CONNECTIONS`: the skeleton's edges, four per finger from the wrist. */
  function HandConnections(): (edges: seq<(nat, nat)>)
    ensures |edges| == 20
    ensures forall e :: e in edges ==> e.0 < NumLandmarks && e.1 < NumLandmarks
  {
    [(0, 1), (1, 2), (2, 3), (3, 4),
     (0, 5), (5, 6), (6, 7), (7, 8),
     (0, 9), (9, 10), (10, 11), (11, 12),
     (0, 13), (13, 14), (14, 15), (15, 16),
     (0, 17), (17, 18), (18, 19), (19, 20)]
  }

  /** A normalised point in canvas pixels. */
  function Pixel(p: Point, width: real, height: real): Point {
    Point(p.x * width, p.y * height)
  }

  /** The landmark dots `drawLandmarks` draws for one hand. */
  function Dots(hand: Landmarks, width: real, height: real): (dots: seq<Point>)
    ensures |dots| == |hand|
  {
    seq(|hand|, i requires 0 <= i < |hand| => Pixel(hand[i], width, height))
  }

  /** The skeleton lines `drawLandmarks` draws: one per connection, each joining two of the hand's dots. */
  function SkeletonSegments(hand: Landmarks, width: real, height: real): (segments: seq<(Point, Point)>)
    requires |hand| == NumLandmarks
    ensures |segments| == |HandConnections()|
    ensures forall k :: 0 <= k < |segments| ==>
              segments[k].0 in Dots(hand, width, height) && segments[k].1 in Dots(hand, width, height)
  {
    var edges := HandConnections();
    var dots := Dots(hand, width, height);
    seq(|edges|, k requires 0 <= k < |edges| =>
      assert edges[k] in edges;
      (dots[edges[k].0], dots[edges[k].1]))
  }

  /** The index of the last label equal to `tag`, if any. */
  function LastIndexOf(tags: seq<string>, tag: string): (r: Option<nat>)
    ensures r.Some? ==> r.value < |tags| && tags[r.value] == tag
    ensures r.Some? ==> forall j :: r.value < j < |tags| ==> tags[j] != tag
    ensures r.None? ==> forall j :: 0 <= j < |tags| ==> tags[j] != tag
  {
    if tags == [] then None
    else if tags[|tags| - 1] == tag then Some(|tags| - 1)
    else LastIndexOf(tags[..|tags| - 1], tag)
  }

  /** `multiHandLandmarks[i]`: the landmarks at i, or `undefined` past the end. */
  function HandAt(hands: seq<Landmarks>, i: nat): (h: Option<Landmarks>)
    ensures h.Some? <==> i < |hands|
    ensures h.Some? ==> h.value == hands[i]
  {
    if i < |hands| then Some(hands[i]) else None
  }

  /** The hand the classification loop leaves for `tag`: that of the last entry carrying the tag. */
  function TaggedHand(hands: seq<Landmarks>, tags: seq<string>, tag: string): (h: Option<Landmarks>)
    ensures h.Some? ==> h.value in hands
    ensures (forall j :: 0 <= j < |tags| ==> tags[j] != tag) ==> h.None?
    ensures forall i :: 0 <= i < |tags| && tags[i] == tag && (forall j :: i < j < |tags| ==> tags[j] != tag) ==>
              h == HandAt(hands, i)
  {
    match LastIndexOf(tags, tag)
    case None => None
    case Some(i) => HandAt(hands, i)
  }

  /**
   * The `forEach` over `multiHandedness`: each "Right" entry overwrites the
   * right hand and each "Left" entry the left hand, so the last one wins.
   */
  method ClassifyHands(hands: seq<Landmarks>, tags: seq<string>) returns (right: Option<Landmarks>, left: Option<Landmarks>)
    ensures right == TaggedHand(hands, tags, "Right")
    ensures left == TaggedHand(hands, tags, "Left")
  {
    right, left := None, None;
    var i := 0;
    while i < |tags|
      invariant 0 <= i <= |tags|
      invariant right == TaggedHand(hands, tags[..i], "Right")
      invariant left == TaggedHand(hands, tags[..i], "Left")
    {
      assert tags[..i + 1][..i] == tags[..i];
      if tags[i] == "Right" {
        right := HandAt(hands, i);
      }
      if tags[i] == "Left" {
        left := HandAt(hands, i);
      }
      i := i + 1;
    }
    assert tags[..i] == tags;
  }

  /** The right index fingertip in canvas pixels. */
  function Fingertip(hand: Landmarks, width: real, height: real): (tip: Point)
    requires |hand| == NumLandmarks
    ensures tip in Dots(hand, width, height)
  {
    assert Dots(hand, width, height)[IndexTip] == Pixel(hand[IndexTip], width, height);
    Pixel(hand[IndexTip], width, height)
  }

  /** The squared pixel distance between the left thumb tip and pinky tip. */
  function SquaredSpan(hand: Landmarks, width: real, height: real): (d2: real)
    requires |hand| == NumLandmarks
    ensures d2 >= 0.0
  {
    var dx := (hand[ThumbTip].x - hand[PinkyTip].x) * width;
    var dy := (hand[ThumbTip].y - hand[PinkyTip].y) * height;
    dx * dx + dy * dy
  }

  /** `Math.min(Math.max(dist / 150, 0.3), 3.0)` */
  function SpanScale(dist: real): (r: real)
    ensures MinGestureScale <= r <= MaxGestureScale
  {
    Clamp(dist / SpanCalibration, MinGestureScale, MaxGestureScale)
  }

  /**
   * The scale rule without square roots: for a span of squared length d2,
   * the scale is 0.3 exactly when the span is at most 45 px, 3.0 exactly when
   * it is at least 450 px, and in between (150 * scale)^2 is d2.
   */
  lemma SpanScaleBySquares(dist: real, d2: real)
    requires dist >= 0.0 && dist * dist == d2
    ensures SpanScale(dist) == MinGestureScale <==> d2 <= 2025.0
    ensures SpanScale(dist) == MaxGestureScale <==> d2 >= 202500.0
    ensures 2025.0 < d2 < 202500.0 ==> (SpanCalibration * SpanScale(dist)) * (SpanCalibration * SpanScale(dist)) == d2
  {
    SquareMonotone(dist, 45.0);
    SquareMonotone(dist, 450.0);
  }

  /** For non-negative a and b, a <= b exactly when a * a <= b * b. */
  lemma SquareMonotone(a: real, b: real)
    requires a >= 0.0 && b >= 0.0
    ensures a <= b <==> a * a <= b * b
  {
    if a > b {
      assert a * a - b * a == a * (a - b) > 0.0;
      assert b * a - b * b == b * (a - b) >= 0.0;
    } else {
      assert b * a - a * a == a * (b - a) >= 0.0;
      assert b * b - b * a == b * (b - a) >= 0.0;
    }
  }

  /** The thumb and pinky 150 px apart on a 640 x 480 canvas give scale 1. */
  lemma CalibrationSpanGivesUnitScale(dist: real)
    requires dist >= 0.0
    requires dist * dist == SquaredSpan(CalibrationHand(), 640.0, 480.0)
    ensures SpanScale(dist) == 1.0
  {
    assert SquaredSpan(CalibrationHand(), 640.0, 480.0) == 22500.0;
    SquareMonotone(dist, 150.0);
    SquareMonotone(150.0, dist);
    assert dist / SpanCalibration == 1.0;
  }

  /** A hand whose landmarks are all at (0.5, 0.5) except the pinky tip, 150/640 further right. */
  function CalibrationHand(): (hand: Landmarks)
    ensures |hand| == NumLandmarks
  {
    seq(NumLandmarks, i => if i == PinkyTip then Point(0.5 + 150.0 / 640.0, 0.5) else Point(0.5, 0.5))
  }

  /** The overlay's drawing rectangle: the image scaled by `scale`, centred on the object. */
  function OverlayRect(center: Point, scale: real, imageWidth: nat, imageHeight: nat): (r: Rect)
    ensures r.Center() == center
    ensures r.width == imageWidth as real * scale && r.height == imageHeight as real * scale
  {
    var w := imageWidth as real * scale;
    var h := imageHeight as real * scale;
    Rect(center.x - w / 2.0, center.y - h / 2.0, w, h)
  }

  /**
   * `Math.min(200 / width, 200 / height, 1)`. A zero side gives 200 / 0 =
   * Infinity in JavaScript, which never wins the minimum against 1.
   */
  function ResizeFactor(width: nat, height: nat): (f: real)
    ensures 0.0 < f <= 1.0
    ensures width as real * f <= MaxOverlaySize && height as real * f <= MaxOverlaySize
    ensures f == 1.0 || width as real * f == MaxOverlaySize || height as real * f == MaxOverlaySize
  {
    var fw := if width == 0 then 1.0 else MaxOverlaySize / width as real;
    var fh := if height == 0 then 1.0 else MaxOverlaySize / height as real;
    Min(Min(fw, fh), 1.0)
  }

  /** One side of the resized canvas: the side times the factor, cut to an integer. */
  function ResizedLength(length: nat, f: real): (n: nat)
    requires 0.0 < f <= 1.0
    ensures n <= length
    ensures length as real * f - 1.0 < n as real <= length as real * f
  {
    ShrinkFactor(length as real, f);
    var n := CanvasLength(length as real * f);
    assert n as real <= length as real;
    n
  }

  /**
   * The resized canvas: both sides scaled by the one common factor (so the
   * aspect ratio is kept up to the cut to integers), each at most 200 and at
   * most the original.
   */
  function ResizedSize(width: nat, height: nat): (size: (nat, nat))
    ensures size.0 as real <= MaxOverlaySize && size.1 as real <= MaxOverlaySize
    ensures size.0 <= width && size.1 <= height
    ensures var f := ResizeFactor(width, height);
            width as real * f - 1.0 < size.0 as real <= width as real * f
            && height as real * f - 1.0 < size.1 as real <= height as real * f
  {
    var f := ResizeFactor(width, height);
    (ResizedLength(width, f), ResizedLength(height, f))
  }

  lemma ShrinkFactor(n: real, f: real)
    requires n >= 0.0 && 0.0 < f <= 1.0
    ensures 0.0 <= n * f <= n
  {
    assert n - n * f == n * (1.0 - f);
  }

  /** A non-negative length assigned to a canvas `width` or `height`: cut to an integer. */
  function CanvasLength(x: real): (n: nat)
    requires x >= 0.0
    ensures x - 1.0 < n as real <= x
  {
    x.Floor
  }

  class GestureControl {
    /** The refs `objX`, `objY` and `scale`. */
    var objX: real
    var objY: real
    var scale: real

    ghost predicate Valid()
      reads this
    {
      MinGestureScale <= scale <= MaxGestureScale
    }

    constructor ()
      ensures Valid()
      ensures objX == InitialX && objY == InitialY && scale == InitialScale
    {
      objX := InitialX;
      objY := InitialY;
      scale := InitialScale;
    }

    /**
     * `onResults` for a canvas of the given size. `overlay` is the loaded
     * overlay image's size, if it has loaded; the result is the rectangle it
     * is drawn in. Drawing the camera image and the skeletons is not modelled.
     */
    method OnResults(frame: Frame, width: real, height: real, overlay: Option<(nat, nat)>, sqrt: real -> real)
      returns (drawn: Option<Rect>)
      requires Valid() && WellFormed(frame) && IsSqrt(sqrt)
      modifies this
      ensures Valid()
      ensures frame.multiHandLandmarks.None? ==>
                objX == old(objX) && objY == old(objY) && scale == old(scale)
      ensures frame.multiHandLandmarks.Some? ==>
                var right := TaggedHand(frame.multiHandLandmarks.value, frame.multiHandedness, "Right");
                if right.Some? then Point(objX, objY) == Fingertip(right.value, width, height)
                else objX == old(objX) && objY == old(objY)
      ensures frame.multiHandLandmarks.Some? ==>
                var left := TaggedHand(frame.multiHandLandmarks.value, frame.multiHandedness, "Left");
                if left.Some? then scale == SpanScale(sqrt(SquaredSpan(left.value, width, height)))
                else scale == old(scale)
      ensures drawn == if overlay.Some? then Some(OverlayRect(Point(objX, objY), scale, overlay.value.0, overlay.value.1))
                       else None
    {
      if frame.multiHandLandmarks.Some? {
        var rightHand, leftHand := ClassifyHands(frame.multiHandLandmarks.value, frame.multiHandedness);
        if rightHand.Some? {
          FollowIndexTip(rightHand.value, width, height);
        }
        if leftHand.Some? {
          ScaleToSpan(leftHand.value, width, height, sqrt);
        }
      }
      if overlay.Some? {
        drawn := Some(OverlayRect(Point(objX, objY), scale, overlay.value.0, overlay.value.1));
      } else {
        drawn := None;
      }
    }

    /** The right hand's branch: the object follows the index fingertip. */
    method FollowIndexTip(hand: Landmarks, width: real, height: real)
      requires |hand| == NumLandmarks
      modifies this`objX, this`objY
      ensures Point(objX, objY) == Fingertip(hand, width, height)
    {
      objX := hand[IndexTip].x * width;
      objY := hand[IndexTip].y * height;
    }

    /** The left hand's branch: the scale follows the thumb-to-pinky span. */
    method ScaleToSpan(hand: Landmarks, width: real, height: real, sqrt: real -> real)
      requires |hand| == NumLandmarks
      modifies this`scale
      ensures scale == SpanScale(sqrt(SquaredSpan(hand, width, height)))
    {
      var thumb := hand[ThumbTip];
      var pinky := hand[PinkyTip];
      var dx := (thumb.x - pinky.x) * width;
      var dy := (thumb.y - pinky.y) * height;
      assert dx * dx + dy * dy == SquaredSpan(hand, width, height);
      var dist := sqrt(dx * dx + dy * dy);
      scale := Min(Max(dist / SpanCalibration, MinGestureScale), MaxGestureScale);
    }
  }

  /**
   * Stickiness: a right index fingertip at (0.25, 0.75) on a 640 x 480 canvas
   * moves the object to (160, 360); a following frame without hands leaves it there.
   */
  method StickyPositionExample(sqrt: real -> real) returns (x: real, y: real)
    requires IsSqrt(sqrt)
    ensures x == 160.0 && y == 360.0
  {
    var control := new GestureControl();
    var hand := seq(NumLandmarks, i => Point(0.25, 0.75));
    var withRight := Frame(Some([hand]), ["Right"]);
    assert LastIndexOf(["Right"], "Right") == Some(0);
    var _ := control.OnResults(withRight, 640.0, 480.0, None, sqrt);
    var noHands := Frame(None, []);
    var _ := control.OnResults(noHands, 640.0, 480.0, None, sqrt);
    x, y := control.objX, control.objY;
  }
}
