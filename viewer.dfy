/**
 * The viewer's module-level state (viewer.js lines 2-8 and the Niivue
 * handle `nv`) as one object, with one method per canvas event handler,
 * `resetView` and the state change `handleFiles` makes. Each method is
 * proved against the matching transition function of module `View`.
 */
module Viewer {
  import opened Wrappers
  import opened Geometry
  import opened View
  import Dispatch

  class Viewer {
    /** The canvas size; window resizing is not modelled. */
    const canvas: Canvas
    /**
     * Whether `nv` is non-null. The canvas handlers are installed, and the
     * 2D context created, only when Niivue failed to initialise, so with
     * `hasNiivue` this object stands for a Niivue whose constructor
     * succeeded and whose `attachTo` threw.
     */
    const hasNiivue: bool

    var currentImage: Option<Image>
    var hasVolumes: bool
    var imageScale: real
    var imageX: real
    var imageY: real
    var isDragging: bool
    var lastMouseX: real
    var lastMouseY: real
    var coordinates: Option<Pixel>

    /** The abstract view state held by the fields. */
    function State(): ViewState
      reads this
    {
      ViewState(currentImage, hasVolumes, imageScale, imageX, imageY, isDragging, lastMouseX, lastMouseY, coordinates)
    }

    ghost predicate Valid()
      reads this
    {
      ValidCanvas(canvas) && WellFormed(State()) && (hasVolumes ==> hasNiivue)
    }

    constructor (canvas: Canvas, hasNiivue: bool)
      requires ValidCanvas(canvas)
      ensures Valid() && State() == Initial()
      ensures this.canvas == canvas && this.hasNiivue == hasNiivue
    {
      this.canvas := canvas;
      this.hasNiivue := hasNiivue;
      currentImage := None;
      hasVolumes := false;
      imageScale := 1.0;
      imageX, imageY := 0.0, 0.0;
      isDragging := false;
      lastMouseX, lastMouseY := 0.0, 0.0;
      coordinates := None;
    }

    method Wheel(deltaY: real)
      requires Valid()
      modifies this
      ensures Valid() && State() == View.Wheel(old(State()), deltaY)
      ensures imageX == old(imageX) && imageY == old(imageY)
      ensures InZoomRange(old(imageScale)) ==> InZoomRange(imageScale)
    {
      var zoomFactor := if deltaY > 0.0 then ZoomOutFactor else ZoomInFactor;
      var newScale := imageScale * zoomFactor;
      if newScale >= MinScale && newScale <= MaxScale {
        imageScale := newScale;
      }
    }

    method MouseDown(x: real, y: real)
      requires Valid()
      modifies this
      ensures Valid() && State() == View.MouseDown(old(State()), x, y)
      ensures isDragging && lastMouseX == x && lastMouseY == y
    {
      isDragging := true;
      lastMouseX := x;
      lastMouseY := y;
    }

    /** `updateCoordinates`, then the drag step. */
    method MouseMove(x: real, y: real)
      requires Valid()
      modifies this
      ensures Valid() && State() == View.MouseMove(old(State()), canvas, x, y)
      ensures old(isDragging) ==> imageX == old(imageX) + (x - old(lastMouseX)) && imageY == old(imageY) + (y - old(lastMouseY))
      ensures !old(isDragging) ==> imageX == old(imageX) && imageY == old(imageY)
      ensures imageScale == old(imageScale)
    {
      UpdateCoordinates(x, y);
      if isDragging {
        var deltaX := x - lastMouseX;
        var deltaY := y - lastMouseY;
        imageX := imageX + deltaX;
        imageY := imageY + deltaY;
        lastMouseX := x;
        lastMouseY := y;
      }
    }

    /** The readout refresh: nothing happens without an image. */
    method UpdateCoordinates(x: real, y: real)
      requires Valid()
      modifies this`coordinates
      ensures Valid()
      ensures currentImage.None? ==> coordinates == old(coordinates)
      ensures currentImage.Some? ==>
        coordinates == Readout(currentImage.value, canvas, imageScale, imageX, imageY, x, y)
    {
      if currentImage.None? {
        return;
      }
      var img := currentImage.value;
      var scaledWidth := img.width as real * imageScale;
      var scaledHeight := img.height as real * imageScale;
      var imageLeft := imageX + (canvas.width as real - scaledWidth) / 2.0;
      var imageTop := imageY + (canvas.height as real - scaledHeight) / 2.0;
      assert Place(img, canvas, imageScale, imageX, imageY) == Rect(imageLeft, imageTop, scaledWidth, scaledHeight);
      if x >= imageLeft && x <= imageLeft + scaledWidth && y >= imageTop && y <= imageTop + scaledHeight {
        coordinates := Some(Pixel(Round((x - imageLeft) / imageScale), Round((y - imageTop) / imageScale)));
      } else {
        coordinates := None;
      }
    }

    method MouseUp()
      requires Valid()
      modifies this
      ensures Valid() && State() == View.MouseUp(old(State()))
      ensures !isDragging
    {
      isDragging := false;
    }

    method MouseLeave()
      requires Valid()
      modifies this
      ensures Valid() && State() == View.MouseLeave(old(State()))
      ensures !isDragging && coordinates == None
    {
      isDragging := false;
      coordinates := None;
    }

    method ResetView()
      requires Valid()
      modifies this
      ensures Valid() && State() == View.ResetView(old(State()), canvas)
      ensures !hasVolumes && currentImage.Some? ==> imageScale <= 1.0 && imageX == 0.0 && imageY == 0.0
    {
      if hasVolumes {
        // The Niivue camera is reset; that is outside the model.
      } else if currentImage.Some? {
        var img := currentImage.value;
        var scaleX := canvas.width as real * 0.8 / img.width as real;
        var scaleY := canvas.height as real * 0.8 / img.height as real;
        imageScale := Min(Min(scaleX, scaleY), 1.0);
        imageX := 0.0;
        imageY := 0.0;
      }
    }

    /**
     * `handleFiles`: `volumeLoads` is what Niivue's loadVolumes would do with
     * the first file, `decoded` what the browser's reader and decoder would
     * produce for it (None on failure).
     */
    method HandleFiles(files: seq<Dispatch.File>, volumeLoads: bool, decoded: Option<Image>) returns (o: Dispatch.Outcome)
      requires Valid()
      requires decoded.Some? ==> ValidImage(decoded.value)
      modifies this
      ensures Valid()
      ensures o == Dispatch.Decide(files, true, hasNiivue, volumeLoads, decoded.Some?)
      ensures o == Dispatch.VolumeLoaded ==> State() == old(State()).(volumes := true)
      ensures o == Dispatch.RasterLoaded ==> State() == View.ResetView(old(State()).(image := decoded), canvas)
      ensures o != Dispatch.VolumeLoaded && o != Dispatch.RasterLoaded ==> State() == old(State())
    {
      if files == [] {
        return Dispatch.NoFile;
      }
      var file := files[0];
      if hasNiivue {
        if volumeLoads {
          hasVolumes := true;
          return Dispatch.VolumeLoaded;
        }
        // The catch block throws a ReferenceError on `fileUrl`.
        return Dispatch.Aborted;
      }
      if Dispatch.IsRasterType(file.mimeType) {
        if decoded.Some? {
          currentImage := decoded;
          ResetView();
          o := Dispatch.RasterLoaded;
        } else {
          o := Dispatch.RasterFailed;
        }
      } else {
        o := Dispatch.Unsupported;
      }
    }
  }
}
