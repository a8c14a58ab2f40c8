/**
 * The high-resolution export of the `download` click handler: the scale factor read
 * from the resolution control, the size of the offscreen canvas, and the calls issued
 * on it. The layering follows the live renderer except that the colour fill is left
 * out when the background preset is on, photos are fully opaque, and every
 * coordinate is multiplied by the scale factor.
 */
module Exporter {
  import opened Wrappers
  import opened Canvas
  import opened Scene
  import opened Numbers
  import Renderer

  /** Scale factor used when the control's value is NaN or 0. */
  const DefaultResolution: int := 3

  /** `parseInt(value) || 3`: the parsed value unless it is NaN or zero (both falsy). */
  function Resolution(value: string): (r: int)
    ensures r != 0
    ensures r == DefaultResolution <==>
      ParseInt(value) == None || ParseInt(value) == Some(0) || ParseInt(value) == Some(DefaultResolution)
    ensures r != DefaultResolution ==> ParseInt(value) == Some(r)
  {
    match ParseInt(value)
    case Some(n) => if n != 0 then n else DefaultResolution
    case None => DefaultResolution
  }

  /** A control value spelling a positive integer gives that integer. */
  lemma ResolutionOfDecimal(n: nat)
    requires n >= 1
    ensures Resolution(DecimalString(n)) == n
  {
    ParseIntDecimal(n);
  }

  /** The default canvas size the HTML standard gives a canvas whose size is out of range. */
  const DefaultCanvasWidth: nat := 300
  const DefaultCanvasHeight: nat := 150

  /** Width of the offscreen canvas: `canvas.width * resolution` assigned to a fresh canvas. */
  function ExportWidth(sc: Scene, resolution: int): (w: nat)
    ensures 0 <= sc.width * resolution <= MaxReflectedUnsigned ==> w == sc.width * resolution
    ensures w <= MaxReflectedUnsigned || w == DefaultCanvasWidth
  {
    CanvasDimension(sc.width * resolution, DefaultCanvasWidth)
  }

  /** Height of the offscreen canvas: `canvas.height * resolution` assigned to a fresh canvas. */
  function ExportHeight(sc: Scene, resolution: int): (h: nat)
    ensures 0 <= sc.height * resolution <= MaxReflectedUnsigned ==> h == sc.height * resolution
    ensures h <= MaxReflectedUnsigned || h == DefaultCanvasHeight
  {
    CanvasDimension(sc.height * resolution, DefaultCanvasHeight)
  }

  /** For every scale factor of at least 1 that keeps the canvas in range, the offscreen canvas is the live one scaled. */
  lemma ExportSize(sc: Scene, resolution: int)
    requires 1 <= resolution
    requires sc.width * resolution <= MaxReflectedUnsigned && sc.height * resolution <= MaxReflectedUnsigned
    ensures ExportWidth(sc, resolution) == sc.width * resolution
    ensures ExportHeight(sc, resolution) == sc.height * resolution
  {}

  /** Opacity of the photos on the exported image. */
  const ExportAlpha: real := 1.0

  /** The clip radius on the offscreen canvas, `(imageSize / 2) * resolution`: negative iff the two have opposite signs. */
  function ExportRadius(imageSize: int, resolution: int): (r: real)
    ensures r < 0.0 <==> (imageSize < 0 < resolution || resolution < 0 < imageSize)
  {
    var s, k := imageSize as real / 2.0, resolution as real;
    if s < 0.0 && k > 0.0 then assert s * k < 0.0; s * k
    else if s > 0.0 && k < 0.0 then assert s * k < 0.0; s * k
    else if s >= 0.0 && k >= 0.0 then assert s * k >= 0.0; s * k
    else assert s * k >= 0.0; s * k
  }

  /** The calls for one photo on the offscreen canvas, with the scaled centre, radius and square. */
  function ExportGroup(p: Placed, imageSize: int, resolution: int): (g: seq<DrawCmd>)
    ensures |g| == Renderer.GroupSize
    ensures g[0] == Save && g[Renderer.GroupSize - 1] == Restore
    ensures g[Renderer.ArcOffset] == Arc(p.x * (resolution as real), p.y * (resolution as real), ExportRadius(imageSize, resolution))
  {
    var k, s := resolution as real, imageSize as real;
    var centerX, centerY, radius := p.x * (resolution as real), p.y * (resolution as real), ExportRadius(imageSize, resolution);
    [ Save,
      SetGlobalAlpha(ExportAlpha),
      BeginPath,
      Arc(centerX, centerY, radius),
      ClosePath,
      Clip,
      DrawImage(Upload(p.img), (p.x - s / 2.0) * k, (p.y - s / 2.0) * k, s * k, s * k),
      Restore ]
  }

  /** The exported photo fills the bounding square of its clip circle: corner at centre minus radius, side twice the radius. */
  lemma ExportGroupFillsClipSquare(p: Placed, imageSize: int, resolution: int)
    ensures var g := ExportGroup(p, imageSize, resolution);
      var c, d := g[Renderer.ArcOffset], g[6];
      d.DrawImage? && d.src == Upload(p.img) &&
      d.dx == c.cx - c.radius && d.dy == c.cy - c.radius && d.dw == d.dh == 2.0 * c.radius
  {
  }

  /** The groups of all photos on the offscreen canvas, first photo first. */
  function ExportGroups(images: seq<Placed>, imageSize: int, resolution: int): seq<DrawCmd>
  {
    if images == [] then []
    else ExportGroups(images[..|images| - 1], imageSize, resolution) + ExportGroup(images[|images| - 1], imageSize, resolution)
  }

  lemma {:induction false} ExportGroupsLength(images: seq<Placed>, imageSize: int, resolution: int)
    ensures |ExportGroups(images, imageSize, resolution)| == Renderer.GroupSize * |images|
  {
    if images != [] {
      ExportGroupsLength(images[..|images| - 1], imageSize, resolution);
    }
  }

  /** The exported group of photo `k` occupies calls 8k .. 8k + 7 of the exported groups. */
  lemma {:induction false} ExportGroupsSlice(images: seq<Placed>, imageSize: int, resolution: int, k: nat)
    requires k < |images|
    ensures |ExportGroups(images, imageSize, resolution)| == Renderer.GroupSize * |images|
    ensures ExportGroups(images, imageSize, resolution)[Renderer.GroupSize * k .. Renderer.GroupSize * k + Renderer.GroupSize]
         == ExportGroup(images[k], imageSize, resolution)
  {
    var n := |images|;
    var front := images[..n - 1];
    ExportGroupsLength(images, imageSize, resolution);
    ExportGroupsLength(front, imageSize, resolution);
    var g, gf := ExportGroups(images, imageSize, resolution), ExportGroups(front, imageSize, resolution);
    var m := Renderer.GroupSize * k;
    assert g == gf + ExportGroup(images[n - 1], imageSize, resolution);
    if k < n - 1 {
      ExportGroupsSlice(front, imageSize, resolution, k);
      assert front[k] == images[k];
      assert g[m .. m + Renderer.GroupSize] == gf[m .. m + Renderer.GroupSize];
    } else {
      assert m == |gf|;
    }
  }

  /**
   * `arc` throws an IndexSizeError on a negative radius: with at least one photo and a
   * size and scale factor of opposite signs, the handler stops inside the first
   * photo's group, before `toBlob`, so no file is produced.
   */
  predicate ExportAborts(sc: Scene, resolution: int) {
    |sc.images| > 0 && ExportRadius(sc.imageSize, resolution) < 0.0
  }

  /** The calls the `download` handler issues on the offscreen canvas, up to the exception when it throws. */
  function ExportFrame(sc: Scene, resolution: int): (e: seq<DrawCmd>)
    ensures var fill := if sc.useBackgroundImage then 0 else 2;
      ExportAborts(sc, resolution) ==>
        |e| == fill + Renderer.ArcOffset && e[fill..] == [Save, SetGlobalAlpha(ExportAlpha), BeginPath] &&
        forall i :: 0 <= i < |e| ==> !e[i].DrawImage? && !e[i].Arc?
  {
    if ExportAborts(sc, resolution) then
      ExportFill(sc, resolution) + ExportGroup(sc.images[0], sc.imageSize, resolution)[..Renderer.ArcOffset]
    else
      ExportFill(sc, resolution) + ExportGroups(sc.images, sc.imageSize, resolution) + ExportBackground(sc, resolution)
  }

  /** Step 2 of the handler: the colour fill over the offscreen canvas, only when the background preset is off. */
  function ExportFill(sc: Scene, resolution: int): (f: seq<DrawCmd>)
    ensures |f| == if sc.useBackgroundImage then 0 else 2
  {
    var w, h := ExportWidth(sc, resolution) as real, ExportHeight(sc, resolution) as real;
    if !sc.useBackgroundImage then [SetFillStyle(sc.backgroundColor), FillRect(0.0, 0.0, w, h)] else []
  }

  /** Step 4 of the handler: the background preset over the offscreen canvas, when it is on and loaded. */
  function ExportBackground(sc: Scene, resolution: int): (b: seq<DrawCmd>)
    ensures |b| <= 1 && (b != [] <==> sc.useBackgroundImage && sc.backgroundComplete)
    ensures b != [] ==>
      b[0] == DrawImage(Background(sc.backgroundPath), 0.0, 0.0, ExportWidth(sc, resolution) as real, ExportHeight(sc, resolution) as real)
  {
    Renderer.BackgroundLayer(sc, ExportWidth(sc, resolution) as real, ExportHeight(sc, resolution) as real)
  }

  /** An exported photo group is the live group at full opacity with every length scaled. */
  lemma ExportGroupIsScaledLiveGroup(p: Placed, imageSize: int, resolution: int)
    ensures ExportGroup(p, imageSize, resolution)
         == ScaleAll(Renderer.ImageGroup(p, imageSize, ExportAlpha), resolution as real)
  {
    var k := resolution as real;
    var g := Renderer.ImageGroup(p, imageSize, ExportAlpha);
    var e, l := ExportGroup(p, imageSize, resolution), ScaleAll(g, k);
    assert l[0] == Scale(g[0], k) == e[0];
    assert l[1] == Scale(g[1], k) == e[1];
    assert l[2] == Scale(g[2], k) == e[2];
    assert l[3] == Scale(g[3], k) == e[3];
    assert l[4] == Scale(g[4], k) == e[4];
    assert l[5] == Scale(g[5], k) == e[5];
    assert l[6] == Scale(g[6], k) == e[6];
    assert l[7] == Scale(g[7], k) == e[7];
  }

  /** The export's photo layers are the live ones at full opacity, scaled, in the same order. */
  lemma {:induction false} ExportGroupsAreScaledLive(images: seq<Placed>, imageSize: int, resolution: int)
    ensures ExportGroups(images, imageSize, resolution)
         == ScaleAll(Renderer.Groups(images, imageSize, ExportAlpha), resolution as real)
  {
    if images != [] {
      var front, last := images[..|images| - 1], images[|images| - 1];
      ExportGroupsAreScaledLive(front, imageSize, resolution);
      ExportGroupIsScaledLiveGroup(last, imageSize, resolution);
      ScaleAllAppend(Renderer.Groups(front, imageSize, ExportAlpha), Renderer.ImageGroup(last, imageSize, ExportAlpha), resolution as real);
    }
  }

  /** Live and exported groups differ only in the opacity call, at offset 1 of each group. */
  lemma GroupsDifferOnlyInAlpha(images: seq<Placed>, imageSize: int, a: real, b: real, i: nat)
    requires i < Renderer.GroupSize * |images|
    ensures |Renderer.Groups(images, imageSize, a)| == |Renderer.Groups(images, imageSize, b)| == Renderer.GroupSize * |images|
    ensures i % Renderer.GroupSize != 1 ==> Renderer.Groups(images, imageSize, a)[i] == Renderer.Groups(images, imageSize, b)[i]
    ensures i % Renderer.GroupSize == 1 ==> Renderer.Groups(images, imageSize, a)[i] == SetGlobalAlpha(a)
  {
    Renderer.GroupsAt(images, imageSize, a, i);
    Renderer.GroupsAt(images, imageSize, b, i);
  }

  /**
   * Layering of the exported image: the colour fill comes first exactly when the
   * background preset is off, the photo groups follow in list order, and the
   * background preset, when drawn, is the very last call.
   */
  lemma ExportFrameLayout(sc: Scene, resolution: int)
    requires !ExportAborts(sc, resolution)
    ensures var e, n := ExportFrame(sc, resolution), |sc.images|;
      var fill := if sc.useBackgroundImage then 0 else 2;
      |e| == fill + Renderer.GroupSize * n + (if sc.useBackgroundImage && sc.backgroundComplete then 1 else 0)
    ensures var e, w, h := ExportFrame(sc, resolution), ExportWidth(sc, resolution) as real, ExportHeight(sc, resolution) as real;
      !sc.useBackgroundImage <==> (|e| >= 2 && e[0] == SetFillStyle(sc.backgroundColor) && e[1] == FillRect(0.0, 0.0, w, h))
    ensures var e, w, h := ExportFrame(sc, resolution), ExportWidth(sc, resolution) as real, ExportHeight(sc, resolution) as real;
      sc.useBackgroundImage && sc.backgroundComplete <==> (|e| > 0 && e[|e| - 1] == DrawImage(Background(sc.backgroundPath), 0.0, 0.0, w, h))
  {
    var n := |sc.images|;
    ExportGroupsLength(sc.images, sc.imageSize, resolution);
    var e := ExportFrame(sc, resolution);
    var fill := if sc.useBackgroundImage then 0 else 2;
    if sc.useBackgroundImage && n > 0 {
      ExportGroupInFrame(sc, resolution, 0);
      assert e[0] == ExportGroup(sc.images[0], sc.imageSize, resolution)[0] == Save;
    }
    if !(sc.useBackgroundImage && sc.backgroundComplete) && n > 0 {
      ExportGroupInFrame(sc, resolution, n - 1);
      var last := fill + Renderer.GroupSize * (n - 1) + 7;
      assert last == |e| - 1;
      assert e[last] == ExportGroup(sc.images[n - 1], sc.imageSize, resolution)[7] == Restore;
    }
  }

  /** Photo `k`'s group sits after the fill (if any) and the groups of the photos before it. */
  lemma ExportGroupInFrame(sc: Scene, resolution: int, k: nat)
    requires k < |sc.images| && !ExportAborts(sc, resolution)
    ensures var e := ExportFrame(sc, resolution);
      var base := (if sc.useBackgroundImage then 0 else 2) + Renderer.GroupSize * k;
      base + Renderer.GroupSize <= |e| &&
      forall j :: 0 <= j < Renderer.GroupSize ==> e[base + j] == ExportGroup(sc.images[k], sc.imageSize, resolution)[j]
  {
    var e, g := ExportFrame(sc, resolution), ExportGroups(sc.images, sc.imageSize, resolution);
    ExportGroupsSlice(sc.images, sc.imageSize, resolution, k);
    var fill := if sc.useBackgroundImage then 0 else 2;
    var m := Renderer.GroupSize * k;
    var grp := ExportGroup(sc.images[k], sc.imageSize, resolution);
    assert e == ExportFill(sc, resolution) + g + ExportBackground(sc, resolution);
    forall j | 0 <= j < Renderer.GroupSize ensures e[fill + m + j] == grp[j] {
      assert e[fill + m + j] == g[m + j];
      assert g[m .. m + Renderer.GroupSize][j] == g[m + j];
    }
  }

  /**
   * Photo `k` on the exported image: fully opaque, clipped to the circle centred at
   * the scaled centre with the scaled radius, drawn into the scaled square.
   */
  lemma ExportPhotoLayer(sc: Scene, resolution: int, k: nat)
    requires k < |sc.images| && !ExportAborts(sc, resolution)
    ensures var e, p, r, s, m := ExportFrame(sc, resolution), sc.images[k], Radius(sc.imageSize), sc.imageSize as real, resolution as real;
      var base := (if sc.useBackgroundImage then 0 else 2) + Renderer.GroupSize * k;
      base + Renderer.GroupSize <= |e| &&
      e[base + 1] == SetGlobalAlpha(1.0) &&
      e[base + 3] == Arc(p.x * m, p.y * m, r * m) &&
      e[base + 6] == DrawImage(Upload(p.img), (p.x - r) * m, (p.y - r) * m, s * m, s * m)
  {
    ExportGroupInFrame(sc, resolution, k);
    var grp := ExportGroup(sc.images[k], sc.imageSize, resolution);
    var base := (if sc.useBackgroundImage then 0 else 2) + Renderer.GroupSize * k;
    assert ExportFrame(sc, resolution)[base + 1] == grp[1];
    assert ExportFrame(sc, resolution)[base + 3] == grp[3];
    assert ExportFrame(sc, resolution)[base + 6] == grp[6];
  }

  /** A background preset that is on but still loading leaves the export with neither fill nor background. */
  lemma ExportPendingBackgroundIsBare(sc: Scene, resolution: int)
    requires sc.useBackgroundImage && !sc.backgroundComplete && !ExportAborts(sc, resolution)
    ensures ExportFrame(sc, resolution) == ExportGroups(sc.images, sc.imageSize, resolution)
    ensures Renderer.LiveFrame(sc)[1] == SetFillStyle(sc.backgroundColor)
  {
  }

  /** One photo at (50, 50), diameter 40, exported at 3x: its clip circle is centred at (150, 150) with radius 60. */
  lemma ExportScenario(sc: Scene)
    requires |sc.images| == 1 && sc.images[0].x == 50.0 && sc.images[0].y == 50.0 && sc.imageSize == 40
    ensures ExportFrame(sc, 3)[(if sc.useBackgroundImage then 0 else 2) + 3] == Arc(150.0, 150.0, 60.0)
  {
    ExportPhotoLayer(sc, 3, 0);
  }
}
