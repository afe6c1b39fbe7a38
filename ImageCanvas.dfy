/** The canvas placeholder of the editor: an "image loaded" flag, a zoom
    percentage moved by two buttons in 25% steps within [25, 400], and a
    preview box sized from the zoom. */
module ImageCanvas {

  import opened Common

  const InitialZoom: int := 100
  const ZoomStep: int := 25
  const MinZoom: int := 25
  const MaxZoom: int := 400

  /** The preview box at 100% zoom, in CSS pixels. */
  const BaseWidth: int := 600
  const BaseHeight: int := 400

  function Min(a: int, b: int): int { if a <= b then a else b }
  function Max(a: int, b: int): int { if a >= b then a else b }

  /** A zoom the buttons can produce: within the bounds and on the 25% grid. */
  predicate ValidZoom(z: int) {
    MinZoom <= z <= MaxZoom && z % ZoomStep == 0
  }

  /** The zoom-out button: one step down, floored at the minimum. */
  function ZoomedOut(z: int): (r: int)
    ensures r >= MinZoom
    ensures r < z <==> z > MinZoom
    ensures z >= MinZoom + ZoomStep ==> r == z - ZoomStep
    ensures ValidZoom(z) ==> ValidZoom(r)
  {
    Max(MinZoom, z - ZoomStep)
  }

  /** The zoom-in button: one step up, capped at the maximum. */
  function ZoomedIn(z: int): (r: int)
    ensures r <= MaxZoom
    ensures r > z <==> z < MaxZoom
    ensures z <= MaxZoom - ZoomStep ==> r == z + ZoomStep
    ensures ValidZoom(z) ==> ValidZoom(r)
  {
    Min(MaxZoom, z + ZoomStep)
  }

  /** Zooming in then out gives the zoom back exactly when the step up was not capped. */
  lemma InThenOutRestores(z: int)
    requires ValidZoom(z)
    ensures ZoomedOut(ZoomedIn(z)) == z <==> z <= MaxZoom - ZoomStep
  {
  }

  /** Zooming out then in gives the zoom back exactly when the step down was not floored. */
  lemma OutThenInRestores(z: int)
    requires ValidZoom(z)
    ensures ZoomedIn(ZoomedOut(z)) == z <==> z >= MinZoom + ZoomStep
  {
  }

  datatype ZoomClick = ZoomInClick | ZoomOutClick

  function Click(z: int, c: ZoomClick): int {
    match c
    case ZoomInClick => ZoomedIn(z)
    case ZoomOutClick => ZoomedOut(z)
  }

  /** The zoom after a sequence of button clicks, first click first. */
  function Run(z: int, clicks: seq<ZoomClick>): int
    decreases |clicks|
  {
    if clicks == [] then z else Run(Click(z, clicks[0]), clicks[1..])
  }

  /** No sequence of clicks leaves the valid zooms. */
  lemma {:induction false} RunKeepsValid(z: int, clicks: seq<ZoomClick>)
    requires ValidZoom(z)
    ensures ValidZoom(Run(z, clicks))
    decreases |clicks|
  {
    if clicks != [] {
      RunKeepsValid(Click(z, clicks[0]), clicks[1..]);
    }
  }

  function Repeat(c: ZoomClick, n: nat): (cs: seq<ZoomClick>)
    ensures |cs| == n
  {
    if n == 0 then [] else [c] + Repeat(c, n - 1)
  }

  /** n uncapped zoom-in clicks raise the zoom by n steps. */
  lemma {:induction false} RunZoomIns(z: int, n: nat)
    requires MinZoom <= z && z + n * ZoomStep <= MaxZoom
    ensures Run(z, Repeat(ZoomInClick, n)) == z + n * ZoomStep
    decreases n
  {
    if n > 0 {
      var cs := Repeat(ZoomInClick, n);
      assert cs[0] == ZoomInClick && cs[1..] == Repeat(ZoomInClick, n - 1);
      RunZoomIns(z + ZoomStep, n - 1);
    }
  }

  /** n unfloored zoom-out clicks lower the zoom by n steps. */
  lemma {:induction false} RunZoomOuts(z: int, n: nat)
    requires z <= MaxZoom && z - n * ZoomStep >= MinZoom
    ensures Run(z, Repeat(ZoomOutClick, n)) == z - n * ZoomStep
    decreases n
  {
    if n > 0 {
      var cs := Repeat(ZoomOutClick, n);
      assert cs[0] == ZoomOutClick && cs[1..] == Repeat(ZoomOutClick, n - 1);
      RunZoomOuts(z - ZoomStep, n - 1);
    }
  }

  /** A zoom some sequence of clicks reaches from the initial zoom. */
  ghost predicate Reachable(z: int) {
    exists clicks :: Run(InitialZoom, clicks) == z
  }

  /** The zooms reachable from 100% are exactly the multiples of 25 in [25, 400]. */
  lemma ReachableIffValid(z: int)
    ensures Reachable(z) <==> ValidZoom(z)
  {
    if Reachable(z) {
      var clicks :| Run(InitialZoom, clicks) == z;
      RunKeepsValid(InitialZoom, clicks);
    }
    if ValidZoom(z) {
      if z >= InitialZoom {
        var n: nat := (z - InitialZoom) / ZoomStep;
        RunZoomIns(InitialZoom, n);
        assert Run(InitialZoom, Repeat(ZoomInClick, n)) == z;
      } else {
        var n: nat := (InitialZoom - z) / ZoomStep;
        RunZoomOuts(InitialZoom, n);
        assert Run(InitialZoom, Repeat(ZoomOutClick, n)) == z;
      }
    }
  }

  /** The preview box's width, `min(600, 600 * zoom / 100)`: exact in
      integers, never above 600, and at its full size from 100% on. */
  function PreviewWidth(zoom: int): (w: int)
    ensures w == Min(BaseWidth, 6 * zoom)
    ensures w <= BaseWidth
    ensures w == BaseWidth <==> zoom >= 100
    ensures ValidZoom(zoom) ==> w >= 6 * MinZoom
  {
    Min(BaseWidth, BaseWidth * zoom / 100)
  }

  /** The preview box's height, `min(400, 400 * zoom / 100)`: exact in
      integers, never above 400, and at its full size from 100% on. */
  function PreviewHeight(zoom: int): (h: int)
    ensures h == Min(BaseHeight, 4 * zoom)
    ensures h <= BaseHeight
    ensures h == BaseHeight <==> zoom >= 100
    ensures ValidZoom(zoom) ==> h >= 4 * MinZoom
  {
    Min(BaseHeight, BaseHeight * zoom / 100)
  }

  /** At every zoom the box keeps the 3:2 shape of its 600 x 400 base. */
  lemma PreviewKeepsShape(zoom: int)
    ensures 2 * PreviewWidth(zoom) == 3 * PreviewHeight(zoom)
  {
  }

  /** The canvas area: the upload prompt, or the sized preview box. */
  datatype CanvasBody = UploadPrompt | PreviewBox(width: int, height: int)

  /** What the component renders: the "1920 x 1080px - zoom%" label, whether
      the zoom buttons are there, and the canvas area. */
  datatype CanvasView = CanvasView(zoomLabel: Option<int>, controlsShown: bool, body: CanvasBody)

  /** The render: label, controls and preview exactly when an image is loaded. */
  function Render(hasImage: bool, zoom: int): (v: CanvasView)
    ensures v.zoomLabel.Some? <==> hasImage
    ensures v.controlsShown <==> hasImage
    ensures v.body.PreviewBox? <==> hasImage
    ensures hasImage ==> v.zoomLabel.value == zoom
    ensures hasImage ==> v.body == PreviewBox(PreviewWidth(zoom), PreviewHeight(zoom))
  {
    if hasImage then CanvasView(Some(zoom), true, PreviewBox(PreviewWidth(zoom), PreviewHeight(zoom)))
    else CanvasView(None, false, UploadPrompt)
  }

  /** The component's state: whether an image is loaded, and the zoom. */
  class Canvas {
    var hasImage: bool
    var zoom: int

    ghost predicate Valid()
      reads this
    {
      ValidZoom(zoom)
    }

    constructor ()
      ensures Valid()
      ensures !hasImage && zoom == InitialZoom
    {
      hasImage := false;
      zoom := InitialZoom;
    }

    /** The "Choose Image" button: marks an image as loaded, leaves the zoom. */
    method UploadImage()
      requires Valid()
      modifies this
      ensures Valid()
      ensures hasImage
      ensures zoom == old(zoom)
    {
      hasImage := true;
    }

    /** The zoom-out button, shown only once an image is loaded. */
    method ZoomOut()
      requires Valid() && hasImage
      modifies this
      ensures Valid()
      ensures zoom == ZoomedOut(old(zoom))
      ensures hasImage == old(hasImage)
    {
      zoom := ZoomedOut(zoom);
    }

    /** The zoom-in button, shown only once an image is loaded. */
    method ZoomIn()
      requires Valid() && hasImage
      modifies this
      ensures Valid()
      ensures zoom == ZoomedIn(old(zoom))
      ensures hasImage == old(hasImage)
    {
      zoom := ZoomedIn(zoom);
    }
  }
}
