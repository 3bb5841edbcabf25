/**
 * The zoomable image screen: a view transform (scale and pan offset) driven
 * by wheel, drag, double-click and button events, the mapping between screen
 * points and normalised label positions, and the small state machine of the
 * label context menu. Each handler is a method of `ZoomableImageScreen`; the
 * arithmetic inside the handlers is stated as functions on `Transform`.
 *
 * The container's bounding rectangle (`getBoundingClientRect`) and the answers
 * of the `prompt`/`confirm` dialogs are parameters. The label callbacks
 * (`onAddLabel`, `onEditLabel`, `onDeleteLabel`) become returned requests.
 */
module ImageView {
  import opened Wrappers
  import opened Geometry
  import opened Text
  import opened LabelStore

  const MinScale: real := 0.1
  const MaxScale: real := 10.0
  /** Scale change per unit of wheel `deltaY`. */
  const WheelSensitivity: real := 0.0015
  /** Scale change of the Zoom In and Zoom Out buttons. */
  const ButtonStep: real := 0.5

  predicate ScaleInBounds(s: real) {
    MinScale <= s <= MaxScale
  }

  /**
   * The image wrapper's CSS transform `translate(offset) scale(scale)` with
   * origin `0 0`: an image point p is shown at `rect.left + offset + scale * p`.
   */
  datatype Transform = Transform(scale: real, offset: Point)

  const Identity: Transform := Transform(1.0, Point(0.0, 0.0))

  /** The open context menu: where it was opened and for which label index. */
  datatype Menu = Menu(at: Point, index: int)

  /** What the screen asks its owner to do with the label list. */
  datatype LabelRequest =
    | AddLabel(text: string, position: Point)
    | EditLabel(index: int, text: string)
    | RemoveLabel(index: int)

  /** Where the image point p (container pixels before scaling) appears on screen. */
  function ToScreen(t: Transform, rect: Rect, p: Point): (c: Point)
    ensures p == Point(0.0, 0.0) ==> c == Point(rect.left, rect.top).Plus(t.offset)
    ensures t.scale == 1.0 ==> c == Point(rect.left, rect.top).Plus(t.offset).Plus(p)
  {
    Point(rect.left + t.offset.x + t.scale * p.x, rect.top + t.offset.y + t.scale * p.y)
  }

  /** The image point under the screen point c. */
  function ToImage(t: Transform, rect: Rect, c: Point): (p: Point)
    requires t.scale > 0.0
    ensures t.scale == 1.0 ==> p == c.Minus(Point(rect.left, rect.top)).Minus(t.offset)
  {
    Point((c.x - rect.left - t.offset.x) / t.scale, (c.y - rect.top - t.offset.y) / t.scale)
  }

  /** ToImage and ToScreen are inverse to each other. */
  lemma ScreenImageRoundTrip(t: Transform, rect: Rect, c: Point, p: Point)
    requires t.scale > 0.0
    ensures ToScreen(t, rect, ToImage(t, rect, c)) == c
    ensures ToImage(t, rect, ToScreen(t, rect, p)) == p
  {
  }

  /** The wheel handler's new scale: `min(max(0.1, scale * (1 - deltaY * 0.0015)), 10)`. */
  function WheelScale(scale: real, deltaY: real): (r: real)
    ensures ScaleInBounds(r)
    ensures var v := scale * (1.0 - deltaY * WheelSensitivity);
            (ScaleInBounds(v) ==> r == v) && (v < MinScale ==> r == MinScale) && (v > MaxScale ==> r == MaxScale)
    ensures ScaleInBounds(scale) && deltaY == 0.0 ==> r == scale
    ensures ScaleInBounds(scale) && deltaY > 0.0 ==> r <= scale
    ensures ScaleInBounds(scale) && deltaY < 0.0 ==> r >= scale
  {
    var delta := -deltaY * WheelSensitivity;
    assert scale * (1.0 + delta) == scale + scale * delta;
    assert scale > 0.0 && delta < 0.0 ==> scale * delta < 0.0;
    assert scale > 0.0 && delta > 0.0 ==> scale * delta > 0.0;
    Clamp(scale * (1.0 + delta), MinScale, MaxScale)
  }

  /**
   * Rescale to `newScale` about the cursor: the offset moves by the cursor's
   * offset times `ratio - 1`, where `ratio` is the new scale over the old one.
   */
  function ZoomTo(t: Transform, rect: Rect, cursor: Point, newScale: real): (r: Transform)
    requires t.scale > 0.0
    ensures r.scale == newScale
    ensures newScale == t.scale ==> r == t
  {
    var offsetX := cursor.x - rect.left - t.offset.x;
    var offsetY := cursor.y - rect.top - t.offset.y;
    var ratio := newScale / t.scale;
    Transform(newScale, Point(t.offset.x - offsetX * (ratio - 1.0), t.offset.y - offsetY * (ratio - 1.0)))
  }

  /** `handleWheel`: rescale about the cursor to the clamped wheel scale. */
  function ZoomAt(t: Transform, rect: Rect, cursor: Point, deltaY: real): (r: Transform)
    requires t.scale > 0.0
    ensures ScaleInBounds(r.scale)
    ensures r.scale == WheelScale(t.scale, deltaY)
  {
    ZoomTo(t, rect, cursor, WheelScale(t.scale, deltaY))
  }

  /** Rescaling about the cursor to any positive scale keeps the image point under the cursor. */
  lemma ZoomToKeepsCursorAnchor(t: Transform, rect: Rect, cursor: Point, newScale: real)
    requires t.scale > 0.0 && newScale > 0.0
    ensures ToImage(ZoomTo(t, rect, cursor, newScale), rect, cursor) == ToImage(t, rect, cursor)
  {
    var z := ZoomTo(t, rect, cursor, newScale);
    var ratio := newScale / t.scale;
    var offsetX := cursor.x - rect.left - t.offset.x;
    var offsetY := cursor.y - rect.top - t.offset.y;
    assert cursor.x - rect.left - z.offset.x == offsetX * ratio;
    assert cursor.y - rect.top - z.offset.y == offsetY * ratio;
    assert newScale == ratio * t.scale;
    CancelRatio(offsetX, ratio, t.scale);
    CancelRatio(offsetY, ratio, t.scale);
  }

  /** Wheel zoom keeps the image point under the cursor where it is, also when the scale is clamped. */
  lemma ZoomKeepsCursorAnchor(t: Transform, rect: Rect, cursor: Point, deltaY: real)
    requires t.scale > 0.0
    ensures ToImage(ZoomAt(t, rect, cursor, deltaY), rect, cursor) == ToImage(t, rect, cursor)
  {
    ZoomToKeepsCursorAnchor(t, rect, cursor, WheelScale(t.scale, deltaY));
  }

  lemma CancelRatio(a: real, ratio: real, s: real)
    requires ratio > 0.0 && s > 0.0
    ensures (a * ratio) / (ratio * s) == a / s
  {
  }

  /** A wheel event with no vertical movement leaves the view as it is. */
  lemma ZoomWithoutDeltaIsIdentity(t: Transform, rect: Rect, cursor: Point)
    requires ScaleInBounds(t.scale)
    ensures ZoomAt(t, rect, cursor, 0.0) == t
  {
  }

  /** The Zoom In button: `min(s + 0.5, 10)`. */
  function ZoomedIn(s: real): (r: real)
    ensures ScaleInBounds(s) ==> ScaleInBounds(r) && r >= s
    ensures s + ButtonStep <= MaxScale ==> r == s + ButtonStep
    ensures s + ButtonStep > MaxScale ==> r == MaxScale
  {
    Min(s + ButtonStep, MaxScale)
  }

  /** The Zoom Out button: `max(s - 0.5, 0.1)`. */
  function ZoomedOut(s: real): (r: real)
    ensures ScaleInBounds(s) ==> ScaleInBounds(r) && r <= s
    ensures s - ButtonStep >= MinScale ==> r == s - ButtonStep
    ensures s - ButtonStep < MinScale ==> r == MinScale
  {
    Max(s - ButtonStep, MinScale)
  }

  /** Away from the bounds, Zoom Out undoes Zoom In and the other way round. */
  lemma ZoomButtonsAreInverse(s: real)
    requires ScaleInBounds(s)
    ensures s + ButtonStep <= MaxScale ==> ZoomedOut(ZoomedIn(s)) == s
    ensures s - ButtonStep >= MinScale ==> ZoomedIn(ZoomedOut(s)) == s
  {
  }

  /** The pan anchor captured on a primary press: the cursor relative to the offset. */
  function PanAnchor(cursor: Point, offset: Point): (anchor: Point)
    ensures anchor.Plus(offset) == cursor
  {
    cursor.Minus(offset)
  }

  /** A drag moves the offset by exactly the cursor's displacement; returning the cursor restores it. */
  lemma PanFollowsCursor(offset: Point, pressAt: Point, moveTo: Point)
    ensures moveTo.Minus(PanAnchor(pressAt, offset)) == offset.Plus(moveTo.Minus(pressAt))
    ensures pressAt.Minus(PanAnchor(pressAt, offset)) == offset
  {
  }

  /**
   * `handleDoubleClick` without Shift: the clicked image point divided by the
   * container's unscaled size, accepted only inside [0, 1] x [0, 1]. With a
   * zero width or height JavaScript's division yields an infinity or NaN,
   * which the range test rejects.
   */
  function Placement(t: Transform, rect: Rect, cursor: Point): (rel: Option<Point>)
    requires t.scale > 0.0
    ensures rel.Some? ==> 0.0 <= rel.value.x <= 1.0 && 0.0 <= rel.value.y <= 1.0
    ensures rect.width == 0.0 || rect.height == 0.0 ==> rel.None?
  {
    if rect.width == 0.0 || rect.height == 0.0 then None
    else
      var p := ToImage(t, rect, cursor);
      var r := Point(p.x / rect.width, p.y / rect.height);
      if 0.0 <= r.x <= 1.0 && 0.0 <= r.y <= 1.0 then Some(r) else None
  }

  /** The container's box as it appears on screen under the transform. */
  function ViewBox(t: Transform, rect: Rect): Rect {
    Rect(rect.left + t.offset.x, rect.top + t.offset.y, t.scale * rect.width, t.scale * rect.height)
  }

  /** A double-click places a label exactly when it falls inside the transformed container. */
  lemma PlacementIffInsideView(t: Transform, rect: Rect, cursor: Point)
    requires t.scale > 0.0 && rect.width > 0.0 && rect.height > 0.0
    ensures Placement(t, rect, cursor).Some? <==> ViewBox(t, rect).Contains(cursor)
  {
    var p := ToImage(t, rect, cursor);
    UnitRange(cursor.x - rect.left - t.offset.x, t.scale, rect.width);
    UnitRange(cursor.y - rect.top - t.offset.y, t.scale, rect.height);
  }

  /** For s, w > 0: 0 <= (a / s) / w <= 1 exactly when 0 <= a <= s * w. */
  lemma UnitRange(a: real, s: real, w: real)
    requires s > 0.0 && w > 0.0
    ensures (0.0 <= (a / s) / w <= 1.0) <==> (0.0 <= a <= s * w)
  {
    var q := (a / s) / w;
    assert q * w == a / s;
    assert (a / s) * s == a;
    assert a == q * (s * w);
    assert a - s * w == (q - 1.0) * (s * w);
    SignOfProduct(q, s * w);
    SignOfProduct(q - 1.0, s * w);
  }

  /** Multiplying by a positive number keeps the sign. */
  lemma SignOfProduct(x: real, p: real)
    requires p > 0.0
    ensures x >= 0.0 <==> x * p >= 0.0
    ensures x <= 0.0 <==> x * p <= 0.0
  {
    if x > 0.0 {
      assert x * p > 0.0;
    } else if x < 0.0 {
      assert x * p < 0.0;
    }
  }

  /** Where a label at normalised position rel is anchored on screen (`left: x*100%`, `top: y*100%`). */
  function LabelAnchor(t: Transform, rect: Rect, rel: Point): (c: Point)
    ensures rel == Point(0.0, 0.0) ==> c == Point(ViewBox(t, rect).left, ViewBox(t, rect).top)
    ensures rel == Point(1.0, 1.0) ==>
              c == Point(ViewBox(t, rect).left + ViewBox(t, rect).width, ViewBox(t, rect).top + ViewBox(t, rect).height)
  {
    var p := Point(rel.x * rect.width, rel.y * rect.height);
    assert rel == Point(1.0, 1.0) ==> p == Point(rect.width, rect.height);
    ToScreen(t, rect, p)
  }

  /** A label placed by a double-click is drawn where the user clicked, under the same view. */
  lemma PlacementRendersAtCursor(t: Transform, rect: Rect, cursor: Point)
    requires t.scale > 0.0
    requires Placement(t, rect, cursor).Some?
    ensures LabelAnchor(t, rect, Placement(t, rect, cursor).value) == cursor
  {
    var p := ToImage(t, rect, cursor);
    var rel := Placement(t, rect, cursor).value;
    PlacedValue(t, rect, cursor);
    DivTimes(p.x, rect.width);
    DivTimes(p.y, rect.height);
    AnchorOfScaled(t, rect, rel, p);
    ScreenImageRoundTrip(t, rect, cursor, p);
  }

  /** A placement, when there is one, is the clicked image point over a non-zero container size. */
  lemma PlacedValue(t: Transform, rect: Rect, cursor: Point)
    requires t.scale > 0.0
    requires Placement(t, rect, cursor).Some?
    ensures rect.width != 0.0 && rect.height != 0.0
    ensures Placement(t, rect, cursor).value
            == Point(ToImage(t, rect, cursor).x / rect.width, ToImage(t, rect, cursor).y / rect.height)
  {
  }

  lemma DivTimes(a: real, w: real)
    requires w != 0.0
    ensures (a / w) * w == a
  {
  }

  /** The anchor of a normalised position is where its unnormalised image point appears. */
  lemma AnchorOfScaled(t: Transform, rect: Rect, rel: Point, p: Point)
    requires rel.x * rect.width == p.x && rel.y * rect.height == p.y
    ensures LabelAnchor(t, rect, rel) == ToScreen(t, rect, p)
  {
  }

  /** Worked example: unit scale, no offset, a 400 x 200 container at the origin. */
  lemma PlacementExample()
    ensures Placement(Identity, Rect(0.0, 0.0, 400.0, 200.0), Point(100.0, 150.0)) == Some(Point(0.25, 0.75))
    ensures Placement(Identity, Rect(0.0, 0.0, 400.0, 200.0), Point(-40.0, 100.0)) == None
  {
    var rect := Rect(0.0, 0.0, 400.0, 200.0);
    PlacementAtUnitScale(rect, Point(100.0, 150.0));
    assert 100.0 / 400.0 == 0.25 && 150.0 / 200.0 == 0.75;
    PlacementAtUnitScale(rect, Point(-40.0, 100.0));
    assert -40.0 / 400.0 < 0.0;
  }

  /** Under the identity view, a click in a container at the origin is the image point itself. */
  lemma PlacementAtUnitScale(rect: Rect, cursor: Point)
    requires rect.left == 0.0 && rect.top == 0.0 && rect.width > 0.0 && rect.height > 0.0
    ensures var r := Point(cursor.x / rect.width, cursor.y / rect.height);
            Placement(Identity, rect, cursor) == if 0.0 <= r.x <= 1.0 && 0.0 <= r.y <= 1.0 then Some(r) else None
  {
    assert ToImage(Identity, rect, cursor) == cursor;
  }

  /** The label's counter-scale `1/scale`, which cancels the view's scale. */
  function CounterScale(scale: real): (r: real)
    requires scale > 0.0
    ensures r > 0.0 && scale * r == 1.0
  {
    1.0 / scale
  }

  /**
   * `showAddLabelDialog`: the prompt's answer (None when cancelled) becomes an
   * add request with the trimmed text, unless it is blank.
   */
  function AddDialog(at: Point, answer: Option<string>): (request: Option<LabelRequest>)
    ensures request.Some? <==> answer.Some? && !AllWhiteSpace(answer.value)
    ensures request.Some? ==> request.value.AddLabel? && request.value.position == at
                              && request.value.text == Trim(answer.value) && request.value.text != []
  {
    if answer.Some? && Trim(answer.value) != [] then Some(AddLabel(Trim(answer.value), at)) else None
  }

  /** The edit prompt's answer becomes an edit request with the trimmed text, unless it is blank. */
  function EditDialog(index: int, answer: Option<string>): (request: Option<LabelRequest>)
    ensures request.Some? <==> answer.Some? && !AllWhiteSpace(answer.value)
    ensures request.Some? ==> request.value.EditLabel? && request.value.index == index
                              && request.value.text == Trim(answer.value) && request.value.text != []
  {
    if answer.Some? && Trim(answer.value) != [] then Some(EditLabel(index, Trim(answer.value))) else None
  }

  class ZoomableImageScreen {
    var scale: real
    var position: Point
    var selectedLabel: Option<Label>
    var labelMenu: Option<Menu>
    /** The refs `lastPan` and `isPanning`. */
    var lastPan: Point
    var isPanning: bool

    ghost predicate Valid()
      reads this
    {
      ScaleInBounds(scale)
    }

    function View(): Transform
      reads this
    {
      Transform(scale, position)
    }

    constructor ()
      ensures Valid() && View() == Identity
      ensures selectedLabel.None? && labelMenu.None?
      ensures !isPanning && lastPan == Point(0.0, 0.0)
    {
      scale := 1.0;
      position := Point(0.0, 0.0);
      selectedLabel := None;
      labelMenu := None;
      lastPan := Point(0.0, 0.0);
      isPanning := false;
    }

    /** `handleWheel` */
    method HandleWheel(rect: Rect, cursor: Point, deltaY: real)
      requires Valid()
      modifies this`scale, this`position
      ensures Valid()
      ensures View() == ZoomAt(old(View()), rect, cursor, deltaY)
      ensures ToImage(View(), rect, cursor) == ToImage(old(View()), rect, cursor)
    {
      var offsetX := cursor.x - rect.left - position.x;
      var offsetY := cursor.y - rect.top - position.y;
      var delta := -deltaY * WheelSensitivity;
      var newScale := Clamp(scale * (1.0 + delta), MinScale, MaxScale);
      var ratio := newScale / scale;
      var newX := position.x - offsetX * (ratio - 1.0);
      var newY := position.y - offsetY * (ratio - 1.0);
      ghost var before := View();
      assert newScale == WheelScale(scale, deltaY);
      assert Transform(newScale, Point(newX, newY)) == ZoomTo(before, rect, cursor, newScale);
      scale := newScale;
      position := Point(newX, newY);
      ZoomKeepsCursorAnchor(before, rect, cursor, deltaY);
    }

    /** `handleMouseDown`: only the primary button starts a pan. */
    method HandleMouseDown(button: int, cursor: Point)
      modifies this`isPanning, this`lastPan
      ensures button == 0 ==> isPanning && lastPan == PanAnchor(cursor, position)
      ensures button != 0 ==> isPanning == old(isPanning) && lastPan == old(lastPan)
    {
      if button != 0 {
        return;
      }
      isPanning := true;
      lastPan := PanAnchor(cursor, position);
    }

    /** The `mousemove` listener: while panning, the offset follows the cursor. */
    method HandleMouseMove(cursor: Point)
      modifies this`position
      ensures isPanning ==> position == cursor.Minus(lastPan)
      ensures !isPanning ==> position == old(position)
    {
      if !isPanning {
        return;
      }
      position := cursor.Minus(lastPan);
    }

    /** The `mouseup` listener: the pan ends. */
    method HandleMouseUp()
      modifies this`isPanning
      ensures !isPanning
    {
      isPanning := false;
    }

    /** `handleDoubleClick`, with the add-label prompt's answer as a parameter. */
    method HandleDoubleClick(rect: Rect, cursor: Point, shiftKey: bool, answer: Option<string>)
      returns (request: Option<LabelRequest>)
      requires Valid()
      modifies this`scale, this`position, this`selectedLabel, this`labelMenu
      ensures Valid()
      ensures shiftKey ==> View() == Identity && selectedLabel.None? && labelMenu.None? && request.None?
      ensures !shiftKey ==> View() == old(View()) && selectedLabel == old(selectedLabel)
                            && labelMenu == old(labelMenu)
      ensures !shiftKey ==> request == match Placement(View(), rect, cursor)
                                       case None => None
                                       case Some(rel) => AddDialog(rel, answer)
    {
      if shiftKey {
        ResetView();
        return None;
      }
      var rel := Placement(View(), rect, cursor);
      request := if rel.Some? then AddDialog(rel.value, answer) else None;
    }

    /** `handleLabelClick`: select the label and open the menu at the click. */
    method HandleLabelClick(clicked: Label, index: int, cursor: Point)
      modifies this`selectedLabel, this`labelMenu
      ensures selectedLabel == Some(clicked) && labelMenu == Some(Menu(cursor, index))
    {
      selectedLabel := Some(clicked);
      labelMenu := Some(Menu(cursor, index));
    }

    /** `handleEditLabel`: forward a non-blank answer, and close the menu in any case. */
    method HandleEditLabel(index: int, answer: Option<string>) returns (request: Option<LabelRequest>)
      modifies this`labelMenu
      ensures labelMenu.None?
      ensures request == EditDialog(index, answer)
    {
      request := EditDialog(index, answer);
      labelMenu := None;
    }

    /** `handleRemoveLabel`: forward the removal if confirmed, and close the menu in any case. */
    method HandleRemoveLabel(index: int, confirmed: bool) returns (request: Option<LabelRequest>)
      modifies this`labelMenu
      ensures labelMenu.None?
      ensures request == if confirmed then Some(RemoveLabel(index)) else None
    {
      request := if confirmed then Some(RemoveLabel(index)) else None;
      labelMenu := None;
    }

    /** The document `click` listener and the menu overlay: close the menu. */
    method HandleClickOutside()
      modifies this`labelMenu
      ensures labelMenu.None?
    {
      labelMenu := None;
    }

    /** The Zoom In button; the offset stays. */
    method ZoomIn()
      requires Valid()
      modifies this`scale
      ensures Valid() && scale == ZoomedIn(old(scale)) && scale >= old(scale)
    {
      scale := Min(scale + ButtonStep, MaxScale);
    }

    /** The Zoom Out button; the offset stays. */
    method ZoomOut()
      requires Valid()
      modifies this`scale
      ensures Valid() && scale == ZoomedOut(old(scale)) && scale <= old(scale)
    {
      scale := Max(scale - ButtonStep, MinScale);
    }

    /** `resetView`: identity transform, no selection, no menu. */
    method ResetView()
      modifies this`scale, this`position, this`selectedLabel, this`labelMenu
      ensures Valid() && View() == Identity
      ensures selectedLabel.None? && labelMenu.None?
    {
      scale := 1.0;
      position := Point(0.0, 0.0);
      selectedLabel := None;
      labelMenu := None;
    }
  }
}
