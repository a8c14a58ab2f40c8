/**
 * The page's mutable state and its event handlers. The module-level variables of the
 * script (`images`, `imageSize`, `useBackgroundImage`, `backgroundColor`, the
 * background image, the canvas size, `dragging`) are the fields of one object; each
 * handler is a method that updates them in place and, where the script calls
 * `drawImages()`, records the calls of the new frame in `frame`.
 */
module Editor {
  import opened Wrappers
  import opened Canvas
  import opened Scene
  import opened Renderer
  import opened Exporter
  import opened FileName

  /**
   * What `dragging` refers to: nothing, the photo at an index of `images`, or a photo
   * that a later upload removed from `images` (the reference survives `images = []`).
   */
  datatype Drag = Idle | Dragging(index: nat) | Detached

  /** What one click on the download button yields: the offscreen canvas, its calls, the encoder quality, and the file name (None when no blob was produced). */
  datatype Export = Export(width: nat, height: nat, commands: seq<DrawCmd>, quality: real, name: Option<string>)

  const MaxCanvasSide: nat := 600
  const InitialBackgroundPath: string := "./img/bg.png"

  /** `canvas.width = Math.min(window.innerWidth * 0.9, 600)`: 90% of the viewport, at most 600, truncated to whole pixels. */
  function CanvasSide(viewportWidth: nat): (side: nat)
    ensures side <= MaxCanvasSide
    ensures viewportWidth as real * 0.9 >= 600.0 ==> side == MaxCanvasSide
    ensures viewportWidth as real * 0.9 < 600.0 ==>
      side as real <= viewportWidth as real * 0.9 < side as real + 1.0
  {
    var scaled := viewportWidth * 9 / 10;
    assert scaled as real <= viewportWidth as real * 0.9 < scaled as real + 1.0 by {
      assert viewportWidth * 9 == 10 * scaled + (viewportWidth * 9) % 10;
    }
    if scaled < MaxCanvasSide then scaled else MaxCanvasSide
  }

  /** The `src` a background option sets: both branches of the script's extension choice give "png". */
  function BackgroundPath(option: string): (path: string)
    ensures path == "./img/" + option + ".png"
    ensures |path| == |option| + 10 && path[|path| - 4..] == ".png"
  {
    var ext := if option == "green" then "png" else "png";
    "./img/" + option + "." + ext
  }

  class Compositor {
    var images: seq<Placed>
    var imageSize: int
    var useBackgroundImage: bool
    var backgroundColor: string
    var backgroundPath: string
    var backgroundComplete: bool
    var width: nat
    var height: nat
    var dragging: Drag
    /** The calls of the last frame drawn on the visible canvas. */
    var frame: seq<DrawCmd>

    /** The canvas stays square, and a dragged photo is one of `images`. */
    ghost predicate Valid()
      reads this
    {
      height == width && (dragging.Dragging? ==> dragging.index < |images|)
    }

    /** The state the renderer and the exporter read. */
    function Snapshot(): Scene
      reads this
    {
      Scene(images, imageSize, useBackgroundImage, backgroundColor, backgroundPath, backgroundComplete, width, height)
    }

    /** Page load: state from the controls' initial values, then `resizeCanvas()`, which sizes the canvas and draws. */
    constructor (sizeValue: int, bgChecked: bool, colorValue: string, backgroundLoaded: bool, viewportWidth: nat)
      ensures Valid()
      ensures images == [] && dragging == Idle
      ensures imageSize == sizeValue && useBackgroundImage == bgChecked && backgroundColor == colorValue
      ensures backgroundPath == InitialBackgroundPath && backgroundComplete == backgroundLoaded
      ensures width == height == CanvasSide(viewportWidth)
      ensures frame == LiveFrame(Snapshot())
    {
      images := [];
      imageSize := sizeValue;
      useBackgroundImage := bgChecked;
      backgroundColor := colorValue;
      backgroundPath := InitialBackgroundPath;
      backgroundComplete := backgroundLoaded;
      width := CanvasSide(viewportWidth);
      height := width;
      dragging := Idle;
      frame := [];
      new;
      frame := DrawImages();
    }

    /**
     * `drawImages()`: the calls it issues on the visible canvas, in order, up to the
     * IndexSizeError that `arc` throws on a negative radius.
     */
    method DrawImages() returns (cmds: seq<DrawCmd>)
      ensures cmds == LiveFrame(Snapshot())
    {
      var w, h := width as real, height as real;
      var prefix := [ClearRect(0.0, 0.0, w, h), SetFillStyle(backgroundColor), FillRect(0.0, 0.0, w, h)];
      cmds := prefix;
      var i := 0;
      while i < |images|
        invariant 0 <= i <= |images|
        invariant cmds == prefix + Groups(images[..i], imageSize, LiveAlpha)
        invariant 0 < i ==> 0.0 <= Radius(imageSize)
      {
        var group := ImageGroup(images[i], imageSize, LiveAlpha);
        cmds := cmds + group[..ArcOffset];
        if Radius(imageSize) < 0.0 {
          return;
        }
        assert group[..ArcOffset] + group[ArcOffset..] == group;
        cmds := cmds + group[ArcOffset..];
        assert images[..i + 1][..i] == images[..i];
        i := i + 1;
      }
      assert images[..i] == images;
      if useBackgroundImage && backgroundComplete {
        cmds := cmds + [DrawImage(Background(backgroundPath), 0.0, 0.0, w, h)];
      }
    }

    /** A click on a background option: load that preset, switch the background image on, redraw. */
    method SelectBackground(option: string, loaded: bool)
      requires Valid()
      modifies this`backgroundPath, this`backgroundComplete, this`useBackgroundImage, this`frame
      ensures Valid()
      ensures backgroundPath == BackgroundPath(option) && backgroundComplete == loaded && useBackgroundImage
      ensures frame == LiveFrame(Snapshot())
    {
      backgroundPath := BackgroundPath(option);
      backgroundComplete := loaded;
      useBackgroundImage := true;
      frame := DrawImages();
    }

    /** The browser finishing (or restarting) the load of the background preset; the script does not redraw on it. */
    method SetBackgroundComplete(loaded: bool)
      requires Valid()
      modifies this`backgroundComplete
      ensures Valid() && backgroundComplete == loaded
    {
      backgroundComplete := loaded;
    }

    /** The background checkbox changed. */
    method SetUseBackground(checked: bool)
      requires Valid()
      modifies this`useBackgroundImage, this`frame
      ensures Valid() && useBackgroundImage == checked
      ensures frame == LiveFrame(Snapshot())
    {
      useBackgroundImage := checked;
      frame := DrawImages();
    }

    /** The colour picker changed. */
    method SetBackgroundColor(value: string)
      requires Valid()
      modifies this`backgroundColor, this`frame
      ensures Valid() && backgroundColor == value
      ensures frame == LiveFrame(Snapshot())
    {
      backgroundColor := value;
      frame := DrawImages();
    }

    /** The size slider changed; the value is taken as already parsed. */
    method SetImageSize(value: int)
      requires Valid()
      modifies this`imageSize, this`frame
      ensures Valid() && imageSize == value
      ensures frame == LiveFrame(Snapshot())
    {
      imageSize := value;
      frame := DrawImages();
    }

    /** `resizeCanvas()`: a new square canvas size; the photos keep their coordinates. */
    method Resize(viewportWidth: nat)
      requires Valid()
      modifies this`width, this`height, this`frame
      ensures Valid() && width == CanvasSide(viewportWidth)
      ensures frame == LiveFrame(Snapshot())
    {
      width := CanvasSide(viewportWidth);
      height := width;
      frame := DrawImages();
    }

    /**
     * A new file selection: `images = []`. A photo being dragged is no longer in the
     * list; the script neither resets `dragging` nor redraws here.
     */
    method BeginUpload()
      requires Valid()
      modifies this`images, this`dragging
      ensures Valid() && images == []
      ensures dragging == if old(dragging).Dragging? then Detached else old(dragging)
    {
      images := [];
      if dragging.Dragging? {
        dragging := Detached;
      }
    }

    /** A selected file finished loading: it is appended at the centre of the canvas and the canvas redrawn. */
    method ImageLoaded(img: nat)
      requires Valid()
      modifies this`images, this`frame
      ensures Valid()
      ensures images == old(images) + [Placed(img, width as real / 2.0, height as real / 2.0)]
      ensures frame == LiveFrame(Snapshot())
    {
      images := images + [Placed(img, width as real / 2.0, height as real / 2.0)];
      frame := DrawImages();
    }

    /** Pointer or touch down at (px, py): pick the earliest photo under the pointer, or none. */
    method StartDrag(px: real, py: real)
      requires Valid()
      modifies this`dragging
      ensures Valid()
      ensures dragging == match FindHit(images, imageSize, px, py)
                          case Some(i) => Dragging(i)
                          case None => Idle
    {
      var hit := FindHit(images, imageSize, px, py);
      match hit {
        case Some(i) => dragging := Dragging(i);
        case None => dragging := Idle;
      }
    }

    /**
     * Pointer or touch move to (px, py): the dragged photo, and only it, takes the
     * pointer as its centre; then the canvas is redrawn. Without a drag nothing happens.
     */
    method MoveDrag(px: real, py: real)
      requires Valid()
      modifies this`images, this`frame
      ensures Valid()
      ensures |images| == |old(images)|
      ensures dragging.Dragging? ==>
        images[dragging.index] == Placed(old(images)[dragging.index].img, px, py)
      ensures forall j :: 0 <= j < |images| && dragging != Dragging(j) ==> images[j] == old(images)[j]
      ensures dragging.Idle? ==> frame == old(frame)
      ensures !dragging.Idle? ==> frame == LiveFrame(Snapshot())
    {
      match dragging {
        case Idle =>
        case Dragging(i) =>
          images := images[i := Placed(images[i].img, px, py)];
          frame := DrawImages();
        case Detached =>
          frame := DrawImages();
      }
    }

    /** Pointer up, pointer leaving the canvas, or touch end. */
    method StopDrag()
      requires Valid()
      modifies this`dragging
      ensures Valid() && dragging == Idle
    {
      dragging := Idle;
    }

    /**
     * A click on the download button: the scale factor from the resolution control, the
     * offscreen canvas and the calls issued on it, the encoder quality, and the name of
     * the downloaded file. `blobCreated` is whether `toBlob` produced a blob; without
     * one nothing is downloaded. `timestamp` is the value of `toISOString()`.
     */
    method Download(resolutionValue: string, format: string, timestamp: string, blobCreated: bool) returns (e: Export)
      ensures e.width == ExportWidth(Snapshot(), Resolution(resolutionValue))
      ensures e.height == ExportHeight(Snapshot(), Resolution(resolutionValue))
      ensures e.commands == ExportFrame(Snapshot(), Resolution(resolutionValue))
      ensures e.quality == Quality(format)
      ensures e.name == if blobCreated && !ExportAborts(Snapshot(), Resolution(resolutionValue))
                        then Some(DownloadName(format, timestamp)) else None
    {
      var quality := Quality(format);
      var resolution := Resolution(resolutionValue);
      var w := CanvasDimension(width * resolution, DefaultCanvasWidth);
      var h := CanvasDimension(height * resolution, DefaultCanvasHeight);
      var cmds, completed := DrawOffscreen(resolution, w, h);
      var name := if blobCreated && completed then Some(DownloadName(format, timestamp)) else None;
      e := Export(w, h, cmds, quality, name);
    }

    /**
     * Steps 2 to 4 of the download handler: the calls issued on a `w` by `h` offscreen
     * canvas. `completed` is false when `arc` threw, which ends the handler before `toBlob`.
     */
    method DrawOffscreen(resolution: int, w: nat, h: nat) returns (cmds: seq<DrawCmd>, completed: bool)
      requires w == ExportWidth(Snapshot(), resolution) && h == ExportHeight(Snapshot(), resolution)
      ensures cmds == ExportFrame(Snapshot(), resolution)
      ensures completed <==> !ExportAborts(Snapshot(), resolution)
    {
      var prefix := if !useBackgroundImage then [SetFillStyle(backgroundColor), FillRect(0.0, 0.0, w as real, h as real)] else [];
      var photos;
      photos, completed := DrawPhotosOffscreen(resolution);
      cmds := prefix + photos;
      if completed && useBackgroundImage && backgroundComplete {
        cmds := cmds + [DrawImage(Background(backgroundPath), 0.0, 0.0, w as real, h as real)];
      }
    }

    /** Step 3 of the download handler: the photo groups on the offscreen canvas, up to the first `arc` when that throws. */
    method DrawPhotosOffscreen(resolution: int) returns (cmds: seq<DrawCmd>, completed: bool)
      ensures completed <==> !ExportAborts(Snapshot(), resolution)
      ensures completed ==> cmds == ExportGroups(images, imageSize, resolution)
      ensures !completed ==> cmds == ExportGroup(images[0], imageSize, resolution)[..ArcOffset]
    {
      cmds := [];
      var i := 0;
      while i < |images|
        invariant 0 <= i <= |images|
        invariant cmds == ExportGroups(images[..i], imageSize, resolution)
        invariant 0 < i ==> 0.0 <= ExportRadius(imageSize, resolution)
      {
        var group := ExportGroup(images[i], imageSize, resolution);
        if ExportRadius(imageSize, resolution) < 0.0 {
          assert i == 0;
          return group[..ArcOffset], false;
        }
        cmds := cmds + group;
        assert images[..i + 1][..i] == images[..i];
        i := i + 1;
      }
      assert images[..i] == images;
      completed := true;
    }
  }
}
