/** The preview compositor: it flattens a canvas screenshot whose preview
    shapes were exported as blank placeholders, snapshots of the live preview
    iframes, and a transparent overlay of the remaining shapes into one JPEG.
    The browser (images, iframes, the DOM snapshot library, the editor's
    exporter) is represented by the outcomes it produces, given as inputs. */
module CapturePreview {
  import opened Wrappers

  /** A tldraw shape as the compositor reads it: id, type, page position and the size in its props. */
  datatype Shape = Shape(id: string, kind: string, x: real, y: real, w: real, h: real)

  /** A page-space box, such as the editor's selection bounds. */
  datatype Box = Box(x: real, y: real, width: real, height: real)

  /** An opaque bitmap (a decoded image or a canvas), known by a handle and its pixel size. */
  datatype Bitmap = Bitmap(handle: nat, width: nat, height: nat)

  /** What the document holds under a preview's iframe element id: whether the
      iframe's document has a body, and what the DOM snapshot of it yields
      (`None` when the snapshot call throws). */
  datatype Frame = Frame(hasBody: bool, snapshot: Option<Bitmap>)

  /** The outcome of rendering the non-preview shapes as a transparent PNG and decoding it. */
  datatype Overlay =
    | RenderThrew          // the editor's export threw
    | NoBlob               // the export returned no blob
    | LoadFailed           // decoding the exported image failed
    | Loaded(image: Bitmap)

  /** A pixel-space rectangle on the output canvas. */
  datatype Rect = Rect(x: real, y: real, w: real, h: real)

  /** One successful capture: where it goes and what was captured. */
  datatype CaptureEntry = CaptureEntry(rect: Rect, snap: Bitmap)

  /** The three forms of `drawImage` that the compositor uses. */
  datatype DrawCommand =
    | DrawAt(image: Bitmap, dx: real, dy: real)
    | DrawStretched(image: Bitmap, dx: real, dy: real, dw: real, dh: real)
    | DrawRegion(image: Bitmap, sx: real, sy: real, sw: real, sh: real,
                 dx: real, dy: real, dw: real, dh: real)

  /** An image as a data URL: either a URL passed through untouched, or the
      encoding of a canvas of the given size holding the given draws. */
  datatype ImageData =
    | Url(url: string)
    | Encoded(mime: string, quality: real, width: nat, height: nat, draws: seq<DrawCommand>)

  datatype CompositeError =
    | BaseImageLoadFailed  // loading the base image rejected
    | EmptySnapshotCanvas  // a capture's snapshot canvas has no pixels, so drawing it threw

  /** A canvas source that `drawImage` accepts: one with at least one pixel. */
  predicate Drawable(b: Bitmap)
  {
    b.width > 0 && b.height > 0
  }

  const PreviewType := "preview"
  const JpegMime := "image/jpeg"
  const JpegQuality := 0.85
  /** What `toDataURL` returns for a canvas with no pixels. */
  const EmptyDataUrl := "data:,"

  /** A 2D canvas whose content is the ordered log of draw commands made on it. */
  class Canvas {
    var width: nat
    var height: nat
    var log: seq<DrawCommand>

    /** `document.createElement('canvas')`: a blank 300 by 150 canvas. */
    constructor ()
      ensures width == 300 && height == 150 && log == []
    {
      width, height, log := 300, 150, [];
    }

    /** Setting `canvas.width` resizes the canvas and clears it. */
    method SetWidth(w: nat)
      modifies this
      ensures width == w && height == old(height) && log == []
    {
      width, log := w, [];
    }

    /** Setting `canvas.height` resizes the canvas and clears it. */
    method SetHeight(h: nat)
      modifies this
      ensures height == h && width == old(width) && log == []
    {
      height, log := h, [];
    }

    /** `ctx.drawImage(...)`: appends one draw and leaves the size alone. */
    method DrawImage(cmd: DrawCommand)
      modifies this`log
      ensures log == old(log) + [cmd]
    {
      log := log + [cmd];
    }

    /** `ctx.drawImage(...)` with another canvas as its source. A source
        canvas with no pixels makes the browser throw an InvalidStateError
        (`ok` is false) and nothing is drawn. */
    method DrawFromCanvas(cmd: DrawCommand) returns (ok: bool)
      modifies this`log
      ensures ok <==> Drawable(cmd.image)
      ensures log == if ok then old(log) + [cmd] else old(log)
    {
      if !Drawable(cmd.image) {
        return false;
      }
      log := log + [cmd];
      return true;
    }

    /** `canvas.toDataURL(mime, quality)`. */
    method ToDataUrl(mime: string, quality: real) returns (d: ImageData)
      ensures d == Encode(mime, quality, width, height, log)
    {
      d := Encode(mime, quality, width, height, log);
    }
  }

  /** The data URL of a canvas: a canvas without pixels encodes as "data:,". */
  function Encode(mime: string, quality: real, width: nat, height: nat, draws: seq<DrawCommand>): ImageData
  {
    if width == 0 || height == 0 then Url(EmptyDataUrl) else Encoded(mime, quality, width, height, draws)
  }

  predicate IsPreview(s: Shape)
  {
    s.kind == PreviewType
  }

  /** `selectedShapes.filter((s) => s.type === 'preview')`. */
  function Previews(shapes: seq<Shape>): (ps: seq<Shape>)
    ensures |ps| <= |shapes|
    ensures forall x :: x in ps <==> x in shapes && IsPreview(x)
  {
    if shapes == [] then []
    else (if IsPreview(shapes[0]) then [shapes[0]] else []) + Previews(shapes[1..])
  }

  /** `selectedShapes.filter((s) => s.type !== 'preview')`. */
  function NonPreviews(shapes: seq<Shape>): (ns: seq<Shape>)
    ensures |ns| <= |shapes|
    ensures forall x :: x in ns <==> x in shapes && !IsPreview(x)
  {
    if shapes == [] then []
    else (if IsPreview(shapes[0]) then [] else [shapes[0]]) + NonPreviews(shapes[1..])
  }

  /** The two filters split the selection: every shape lands in exactly one of them, as often as it occurs. */
  lemma {:induction false} PreviewsPartitionSelection(shapes: seq<Shape>)
    ensures |Previews(shapes)| + |NonPreviews(shapes)| == |shapes|
    ensures multiset(Previews(shapes)) + multiset(NonPreviews(shapes)) == multiset(shapes)
  {
    if shapes != [] {
      PreviewsPartitionSelection(shapes[1..]);
      assert shapes == [shapes[0]] + shapes[1..];
    }
  }

  /** The pixels per page unit of the base image, derived from its width and
      the padded selection width. */
  function Scale(imageWidth: nat, bounds: Box, padding: real): real
    requires bounds.width + 2.0 * padding != 0.0
  {
    imageWidth as real / (bounds.width + 2.0 * padding)
  }

  /** The scale times the padded selection width gives back the image width,
      and the scale is positive for a non-empty image and selection. */
  lemma ScaleRecoversImageWidth(imageWidth: nat, bounds: Box, padding: real)
    requires bounds.width + 2.0 * padding != 0.0
    ensures Scale(imageWidth, bounds, padding) * (bounds.width + 2.0 * padding) == imageWidth as real
    ensures imageWidth > 0 && bounds.width > 0.0 && padding >= 0.0 ==> Scale(imageWidth, bounds, padding) > 0.0
  {
  }

  /** A shape's page rectangle in the base image's pixel space. */
  function MapRect(p: Shape, bounds: Box, padding: real, scale: real): Rect
  {
    Rect((p.x - bounds.x + padding) * scale, (p.y - bounds.y + padding) * scale,
         p.w * scale, p.h * scale)
  }

  /** The padded selection itself maps onto the base image: its corner to the
      origin and its width to the image width. */
  lemma PaddedSelectionCoversImage(imageWidth: nat, bounds: Box, padding: real)
    requires bounds.width + 2.0 * padding != 0.0
    ensures var whole := Shape("", PreviewType, bounds.x - padding, bounds.y - padding,
                               bounds.width + 2.0 * padding, bounds.height + 2.0 * padding);
            var r := MapRect(whole, bounds, padding, Scale(imageWidth, bounds, padding));
            r.x == 0.0 && r.y == 0.0 && r.w == imageWidth as real
  {
  }

  /** Mapping keeps relative placement: offsets between two shapes scale by the same factor. */
  lemma MapRectPreservesOffsets(p: Shape, q: Shape, bounds: Box, padding: real, scale: real)
    ensures MapRect(p, bounds, padding, scale).x - MapRect(q, bounds, padding, scale).x == (p.x - q.x) * scale
    ensures MapRect(p, bounds, padding, scale).y - MapRect(q, bounds, padding, scale).y == (p.y - q.y) * scale
  {
  }

  /** Selection (0,0,200,100) with padding 10 and a 220-pixel-wide image:
      scale 1, and the region (50,20,30,30) lands at (60,30,30,30). */
  lemma MapRectAtScaleOne()
    ensures var bounds := Box(0.0, 0.0, 200.0, 100.0);
            var s := Scale(220, bounds, 10.0);
            s == 1.0 && MapRect(Shape("a", PreviewType, 50.0, 20.0, 30.0, 30.0), bounds, 10.0, s)
                        == Rect(60.0, 30.0, 30.0, 30.0)
  {
  }

  /** The same selection with a 440-pixel-wide image: scale 2, and the region
      lands at (120,60,60,60). */
  lemma MapRectAtScaleTwo()
    ensures var bounds := Box(0.0, 0.0, 200.0, 100.0);
            var s := Scale(440, bounds, 10.0);
            s == 2.0 && MapRect(Shape("a", PreviewType, 50.0, 20.0, 30.0, 30.0), bounds, 10.0, s)
                        == Rect(120.0, 60.0, 60.0, 60.0)
  {
  }

  /** The element id under which a preview's iframe is rendered. */
  function FrameElementId(id: string): string
  {
    "iframe-1-" + id
  }

  /** The snapshot of one preview, or `None` when its iframe or body is
      missing or the snapshot call throws. */
  function Attempt(p: Shape, frames: map<string, Frame>): Option<Bitmap>
  {
    var key := FrameElementId(p.id);
    if key in frames && frames[key].hasBody then frames[key].snapshot else None
  }

  /** The capture list built by the loop over the previews, one push per success. */
  function Captures(ps: seq<Shape>, frames: map<string, Frame>, bounds: Box, padding: real, scale: real): seq<CaptureEntry>
    decreases |ps|
  {
    if ps == [] then []
    else
      var last := ps[|ps| - 1];
      Captures(ps[..|ps| - 1], frames, bounds, padding, scale)
      + match Attempt(last, frames)
        case Some(snap) => [CaptureEntry(MapRect(last, bounds, padding, scale), snap)]
        case None => []
  }

  /** The positions, in order, of the previews whose capture succeeds. */
  function SucceededIndices(ps: seq<Shape>, frames: map<string, Frame>): (idx: seq<nat>)
    ensures forall k :: 0 <= k < |idx| ==> idx[k] < |ps| && Attempt(ps[idx[k]], frames).Some?
    ensures forall k, l :: 0 <= k < l < |idx| ==> idx[k] < idx[l]
    ensures forall i :: 0 <= i < |ps| && Attempt(ps[i], frames).Some? ==> i in idx
    decreases |ps|
  {
    if ps == [] then []
    else
      var n := |ps| - 1;
      var front := SucceededIndices(ps[..n], frames);
      assert forall i :: 0 <= i < n ==> ps[..n][i] == ps[i];
      front + (if Attempt(ps[n], frames).Some? then [n] else [])
  }

  /** The capture list holds exactly the successful previews, in preview
      order, each once, with its mapped rectangle and its snapshot. */
  lemma {:induction false} CapturesFollowSucceededPreviews(ps: seq<Shape>, frames: map<string, Frame>, bounds: Box, padding: real, scale: real)
    ensures var c := Captures(ps, frames, bounds, padding, scale);
            var idx := SucceededIndices(ps, frames);
            |c| == |idx| &&
            forall k :: 0 <= k < |idx| ==>
              c[k] == CaptureEntry(MapRect(ps[idx[k]], bounds, padding, scale), Attempt(ps[idx[k]], frames).value)
    decreases |ps|
  {
    if ps != [] {
      var n := |ps| - 1;
      CapturesFollowSucceededPreviews(ps[..n], frames, bounds, padding, scale);
      var idx0 := SucceededIndices(ps[..n], frames);
      forall k | 0 <= k < |idx0|
        ensures ps[..n][idx0[k]] == ps[idx0[k]]
      {
      }
    }
  }

  /** When every capture fails, nothing is pushed and no loop iteration aborts the rest. */
  lemma {:induction false} AllFailedCapturesAreEmpty(ps: seq<Shape>, frames: map<string, Frame>, bounds: Box, padding: real, scale: real)
    requires forall i :: 0 <= i < |ps| ==> Attempt(ps[i], frames).None?
    ensures Captures(ps, frames, bounds, padding, scale) == []
    decreases |ps|
  {
    if ps != [] {
      var n := |ps| - 1;
      assert forall i :: 0 <= i < n ==> ps[..n][i] == ps[i];
      AllFailedCapturesAreEmpty(ps[..n], frames, bounds, padding, scale);
    }
  }

  /** Drawing one capture: its whole snapshot scaled into its mapped rectangle. */
  function CaptureDraw(e: CaptureEntry): DrawCommand
  {
    DrawRegion(e.snap, 0.0, 0.0, e.snap.width as real, e.snap.height as real,
               e.rect.x, e.rect.y, e.rect.w, e.rect.h)
  }

  /** The draws made by the loop over the capture list. */
  function CaptureDraws(entries: seq<CaptureEntry>): seq<DrawCommand>
    decreases |entries|
  {
    if entries == [] then []
    else CaptureDraws(entries[..|entries| - 1]) + [CaptureDraw(entries[|entries| - 1])]
  }

  /** One draw per capture entry, in list order. */
  lemma {:induction false} CaptureDrawsInOrder(entries: seq<CaptureEntry>)
    ensures |CaptureDraws(entries)| == |entries|
    ensures forall k :: 0 <= k < |entries| ==> CaptureDraws(entries)[k] == CaptureDraw(entries[k])
    decreases |entries|
  {
    if entries != [] {
      var n := |entries| - 1;
      CaptureDrawsInOrder(entries[..n]);
      assert forall k :: 0 <= k < n ==> entries[..n][k] == entries[k];
    }
  }

  /** The overlay layer: drawn, stretched over the canvas, only when there are
      non-preview shapes and their render and decoding succeeded. */
  function OverlayDraws(nonPreviews: seq<Shape>, overlay: Overlay, width: nat, height: nat): seq<DrawCommand>
  {
    if |nonPreviews| > 0 && overlay.Loaded?
    then [DrawStretched(overlay.image, 0.0, 0.0, width as real, height as real)]
    else []
  }

  /** The full draw log of the output canvas: base, captures, overlay. */
  function CompositeLog(base: Bitmap, entries: seq<CaptureEntry>, nonPreviews: seq<Shape>, overlay: Overlay): seq<DrawCommand>
  {
    [DrawAt(base, 0.0, 0.0)] + CaptureDraws(entries) + OverlayDraws(nonPreviews, overlay, base.width, base.height)
  }

  /** The layer order of the output: first the base unscaled at the origin,
      then one draw per capture in list order, then at most one overlay draw
      over the whole canvas, present exactly when it was rendered. */
  lemma CompositeLayerOrder(base: Bitmap, entries: seq<CaptureEntry>, nonPreviews: seq<Shape>, overlay: Overlay)
    ensures var log := CompositeLog(base, entries, nonPreviews, overlay);
            var drawn := |nonPreviews| > 0 && overlay.Loaded?;
            && log[0] == DrawAt(base, 0.0, 0.0)
            && |log| == 1 + |entries| + (if drawn then 1 else 0)
            && (forall k :: 0 <= k < |entries| ==> log[1 + k] == CaptureDraw(entries[k]))
            && (drawn ==> log[|log| - 1] == DrawStretched(overlay.image, 0.0, 0.0, base.width as real, base.height as real))
  {
    CaptureDrawsInOrder(entries);
  }

  /** The capture loop: each preview's iframe is looked up by element id and
      snapshotted; a missing iframe or body, or a snapshot that throws, skips
      that preview and the loop goes on. */
  method CapturePreviewRects(previews: seq<Shape>, frames: map<string, Frame>,
                             selectionBounds: Box, padding: real, actualScale: real)
    returns (previewRects: seq<CaptureEntry>)
    ensures previewRects == Captures(previews, frames, selectionBounds, padding, actualScale)
  {
    previewRects := [];
    var i := 0;
    while i < |previews|
      invariant 0 <= i <= |previews|
      invariant previewRects == Captures(previews[..i], frames, selectionBounds, padding, actualScale)
    {
      var preview := previews[i];
      var key := FrameElementId(preview.id);
      if key in frames && frames[key].hasBody {
        var snapCanvas := frames[key].snapshot;
        if snapCanvas.Some? {
          previewRects := previewRects + [CaptureEntry(
            MapRect(preview, selectionBounds, padding, actualScale), snapCanvas.value)];
        }
      }
      assert previews[..i + 1][..i] == previews[..i];
      i := i + 1;
    }
    assert previews[..i] == previews;
  }

  /** Every capture's snapshot canvas can be drawn. */
  predicate AllDrawable(entries: seq<CaptureEntry>)
  {
    forall k :: 0 <= k < |entries| ==> Drawable(entries[k].snap)
  }

  /** The captures can all be drawn exactly when every preview whose capture
      succeeded yielded a snapshot with pixels: one empty snapshot is enough
      to make the second layer throw, whatever the other previews yield. */
  lemma CapturesDrawableIffSnapshotsHavePixels(ps: seq<Shape>, frames: map<string, Frame>, bounds: Box, padding: real, scale: real)
    ensures AllDrawable(Captures(ps, frames, bounds, padding, scale)) <==>
            forall i :: 0 <= i < |ps| && Attempt(ps[i], frames).Some? ==> Drawable(Attempt(ps[i], frames).value)
  {
    var c := Captures(ps, frames, bounds, padding, scale);
    var idx := SucceededIndices(ps, frames);
    CapturesFollowSucceededPreviews(ps, frames, bounds, padding, scale);
    if AllDrawable(c) {
      forall i | 0 <= i < |ps| && Attempt(ps[i], frames).Some?
        ensures Drawable(Attempt(ps[i], frames).value)
      {
        var k :| 0 <= k < |idx| && idx[k] == i;
        assert c[k].snap == Attempt(ps[i], frames).value;
      }
    }
  }

  /** The second layer: one scaled draw per capture, in list order. The
      first capture whose snapshot canvas has no pixels throws (`ok` is
      false), which abandons the rest. */
  method DrawCaptures(canvas: Canvas, previewRects: seq<CaptureEntry>) returns (ok: bool)
    modifies canvas`log
    ensures ok <==> AllDrawable(previewRects)
    ensures ok ==> canvas.log == old(canvas.log) + CaptureDraws(previewRects)
  {
    var j := 0;
    while j < |previewRects|
      invariant 0 <= j <= |previewRects|
      invariant AllDrawable(previewRects[..j])
      invariant canvas.log == old(canvas.log) + CaptureDraws(previewRects[..j])
    {
      var rect := previewRects[j];
      var srcW := rect.snap.width;
      var srcH := rect.snap.height;
      var drawn := canvas.DrawFromCanvas(DrawRegion(rect.snap, 0.0, 0.0, srcW as real, srcH as real,
                                                    rect.rect.x, rect.rect.y, rect.rect.w, rect.rect.h));
      if !drawn {
        assert !Drawable(previewRects[j].snap);
        return false;
      }
      assert previewRects[..j + 1][..j] == previewRects[..j];
      j := j + 1;
    }
    assert previewRects[..j] == previewRects;
    return true;
  }

  /** `compositePreviewScreenshots`. `baseImage` is what loading `baseImageUrl`
      yields (`None`: the load rejects); `selectionBounds` is the editor's
      selection bounds; `frames` is the document's iframes by element id;
      `overlay` is the outcome of rendering the non-preview shapes. */
  method CompositePreviewScreenshots(baseImageUrl: string, selectedShapes: seq<Shape>, padding: real,
                                     baseImage: Option<Bitmap>, selectionBounds: Box,
                                     frames: map<string, Frame>, overlay: Overlay)
    returns (r: Result<ImageData, CompositeError>)
    requires Previews(selectedShapes) != [] && baseImage.Some? ==> selectionBounds.width + 2.0 * padding != 0.0
    ensures Previews(selectedShapes) == [] ==> r == Success(Url(baseImageUrl))
    ensures Previews(selectedShapes) != [] && baseImage.None? ==> r == Failure(BaseImageLoadFailed)
    ensures Previews(selectedShapes) != [] && baseImage.Some? ==>
              var base := baseImage.value;
              var scale := Scale(base.width, selectionBounds, padding);
              var entries := Captures(Previews(selectedShapes), frames, selectionBounds, padding, scale);
              r == if AllDrawable(entries)
                   then Success(Encode(JpegMime, JpegQuality, base.width, base.height,
                                       CompositeLog(base, entries, NonPreviews(selectedShapes), overlay)))
                   else Failure(EmptySnapshotCanvas)
  {
    var previews := Previews(selectedShapes);
    if |previews| == 0 {
      return Success(Url(baseImageUrl));
    }

    if baseImage.None? {
      return Failure(BaseImageLoadFailed);
    }
    var baseImg := baseImage.value;
    var canvas := new Canvas();
    canvas.SetWidth(baseImg.width);
    canvas.SetHeight(baseImg.height);

    var actualScale := Scale(baseImg.width, selectionBounds, padding);
    var previewRects := CapturePreviewRects(previews, frames, selectionBounds, padding, actualScale);

    canvas.DrawImage(DrawAt(baseImg, 0.0, 0.0));
    var drawn := DrawCaptures(canvas, previewRects);
    if !drawn {
      return Failure(EmptySnapshotCanvas);
    }
    assert canvas.width == baseImg.width && canvas.height == baseImg.height;

    var nonPreviewShapes := NonPreviews(selectedShapes);
    if |nonPreviewShapes| > 0 {
      if overlay.Loaded? {
        var annotationImg := overlay.image;
        canvas.DrawImage(DrawStretched(annotationImg, 0.0, 0.0, canvas.width as real, canvas.height as real));
      }
    }
    assert canvas.log == CompositeLog(baseImg, previewRects, nonPreviewShapes, overlay);

    var url := canvas.ToDataUrl(JpegMime, JpegQuality);
    return Success(url);
  }
}
