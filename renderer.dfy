/**
 * The live renderer `drawImages`: the calls it issues on the visible canvas for a
 * given scene. Layer order: clear, colour fill, one clipped group per photo in list
 * order, then the background preset on top when it is enabled and loaded.
 */
module Renderer {
  import opened Canvas
  import opened Scene

  /** Opacity of the photos on the visible canvas. */
  const LiveAlpha: real := 0.9

  /** Calls per photo: save, alpha, path, arc, close, clip, draw, restore. */
  const GroupSize: nat := 8

  /** Offset of the `arc` call within a group. */
  const ArcOffset: nat := 3

  /**
   * The calls for one photo: clip to the circle of diameter `imageSize` centred on
   * the photo and draw the photo into that circle's bounding square.
   */
  function ImageGroup(p: Placed, imageSize: int, alpha: real): (g: seq<DrawCmd>)
    ensures |g| == GroupSize
    ensures g[0] == Save && g[GroupSize - 1] == Restore
    ensures forall i :: 0 <= i < GroupSize ==> (g[i].DrawImage? <==> i == 6)
    ensures g[ArcOffset].Arc? && g[ArcOffset].cx == p.x && g[ArcOffset].cy == p.y && g[6].src == Upload(p.img)
    ensures var c, d := g[ArcOffset], g[6];
      d.dx == c.cx - c.radius && d.dy == c.cy - c.radius && d.dw == d.dh == 2.0 * c.radius
  {
    var r, s := Radius(imageSize), imageSize as real;
    [ Save,
      SetGlobalAlpha(alpha),
      BeginPath,
      Arc(p.x, p.y, r),
      ClosePath,
      Clip,
      DrawImage(Upload(p.img), p.x - r, p.y - r, s, s),
      Restore ]
  }

  /** The groups of all photos, first photo first. */
  function Groups(images: seq<Placed>, imageSize: int, alpha: real): seq<DrawCmd>
  {
    if images == [] then []
    else Groups(images[..|images| - 1], imageSize, alpha) + ImageGroup(images[|images| - 1], imageSize, alpha)
  }

  /** Call `i` of the groups is call `i % 8` of the group of photo `i / 8`. */
  lemma {:induction false} GroupsAt(images: seq<Placed>, imageSize: int, alpha: real, i: nat)
    requires i < GroupSize * |images|
    ensures |Groups(images, imageSize, alpha)| == GroupSize * |images|
    ensures Groups(images, imageSize, alpha)[i] == ImageGroup(images[i / GroupSize], imageSize, alpha)[i % GroupSize]
  {
    var n := |images|;
    var front := images[..n - 1];
    GroupsLength(images, imageSize, alpha);
    GroupsLength(front, imageSize, alpha);
    if i < GroupSize * (n - 1) {
      GroupsAt(front, imageSize, alpha, i);
      assert front[i / GroupSize] == images[i / GroupSize];
    } else {
      assert i / GroupSize == n - 1;
    }
  }

  /** The group of photo `k` occupies calls 8k .. 8k + 7 of the groups. */
  lemma {:induction false} GroupsSlice(images: seq<Placed>, imageSize: int, alpha: real, k: nat)
    requires k < |images|
    ensures |Groups(images, imageSize, alpha)| == GroupSize * |images|
    ensures Groups(images, imageSize, alpha)[GroupSize * k .. GroupSize * k + GroupSize] == ImageGroup(images[k], imageSize, alpha)
  {
    var n := |images|;
    var front := images[..n - 1];
    GroupsLength(images, imageSize, alpha);
    GroupsLength(front, imageSize, alpha);
    var g, gf := Groups(images, imageSize, alpha), Groups(front, imageSize, alpha);
    assert g == gf + ImageGroup(images[n - 1], imageSize, alpha);
    if k < n - 1 {
      GroupsSlice(front, imageSize, alpha, k);
      assert front[k] == images[k];
      assert g[GroupSize * k .. GroupSize * k + GroupSize] == gf[GroupSize * k .. GroupSize * k + GroupSize];
    } else {
      assert GroupSize * k == |gf|;
    }
  }

  lemma {:induction false} GroupsLength(images: seq<Placed>, imageSize: int, alpha: real)
    ensures |Groups(images, imageSize, alpha)| == GroupSize * |images|
  {
    if images != [] {
      GroupsLength(images[..|images| - 1], imageSize, alpha);
    }
  }

  /** The background preset stretched over a `w` by `h` surface, when enabled and loaded. */
  function BackgroundLayer(sc: Scene, w: real, h: real): (b: seq<DrawCmd>)
    ensures |b| <= 1
    ensures b != [] <==> sc.useBackgroundImage && sc.backgroundComplete
  {
    if sc.useBackgroundImage && sc.backgroundComplete then [DrawImage(Background(sc.backgroundPath), 0.0, 0.0, w, h)] else []
  }

  /** Number of calls before the first photo group of a live frame. */
  const LivePrefix: nat := 3

  /**
   * `arc` throws an IndexSizeError on a negative radius. Every photo has the radius
   * `imageSize / 2`, so with a negative size and at least one photo, `drawImages`
   * stops inside the first photo's group, right before its `arc`.
   */
  predicate LiveAborts(sc: Scene) {
    |sc.images| > 0 && Radius(sc.imageSize) < 0.0
  }

  /**
   * The calls `drawImages` issues for scene `sc`, up to the exception when it throws.
   * The opening clear and fill are always issued; an aborted frame draws nothing
   * and leaves the context saved, at the photos' opacity.
   */
  function LiveFrame(sc: Scene): (f: seq<DrawCmd>)
    ensures var w, h := sc.width as real, sc.height as real;
      LivePrefix <= |f| && f[0] == ClearRect(0.0, 0.0, w, h) && f[1] == SetFillStyle(sc.backgroundColor) && f[2] == FillRect(0.0, 0.0, w, h)
    ensures LiveAborts(sc) ==>
      f[LivePrefix..] == [Save, SetGlobalAlpha(LiveAlpha), BeginPath] &&
      forall i :: 0 <= i < |f| ==> !f[i].DrawImage? && !f[i].Arc?
  {
    var w, h := sc.width as real, sc.height as real;
    var opening := [ClearRect(0.0, 0.0, w, h), SetFillStyle(sc.backgroundColor), FillRect(0.0, 0.0, w, h)];
    if LiveAborts(sc) then
      opening + ImageGroup(sc.images[0], sc.imageSize, LiveAlpha)[..ArcOffset]
    else
      opening + Groups(sc.images, sc.imageSize, LiveAlpha) + BackgroundLayer(sc, w, h)
  }

  /**
   * Layering of the live frame: the canvas is cleared and filled with the colour
   * (also when the background preset is on), every photo follows in list order as one
   * group, and the background preset, when drawn, is the very last call.
   */
  lemma LiveFrameLayout(sc: Scene)
    requires !LiveAborts(sc)
    ensures var f, n := LiveFrame(sc), |sc.images|;
      |f| == LivePrefix + GroupSize * n + (if sc.useBackgroundImage && sc.backgroundComplete then 1 else 0)
    ensures var f, w, h := LiveFrame(sc), sc.width as real, sc.height as real;
      f[0] == ClearRect(0.0, 0.0, w, h) && f[1] == SetFillStyle(sc.backgroundColor) && f[2] == FillRect(0.0, 0.0, w, h)
    ensures var f, n := LiveFrame(sc), |sc.images|;
      forall i :: LivePrefix <= i < LivePrefix + GroupSize * n ==>
        f[i] == ImageGroup(sc.images[(i - LivePrefix) / GroupSize], sc.imageSize, LiveAlpha)[(i - LivePrefix) % GroupSize]
    ensures var f, w, h := LiveFrame(sc), sc.width as real, sc.height as real;
      sc.useBackgroundImage && sc.backgroundComplete <==> f[|f| - 1] == DrawImage(Background(sc.backgroundPath), 0.0, 0.0, w, h)
  {
    var f, n := LiveFrame(sc), |sc.images|;
    var g := Groups(sc.images, sc.imageSize, LiveAlpha);
    GroupsLength(sc.images, sc.imageSize, LiveAlpha);
    forall i | LivePrefix <= i < LivePrefix + GroupSize * n
      ensures f[i] == ImageGroup(sc.images[(i - LivePrefix) / GroupSize], sc.imageSize, LiveAlpha)[(i - LivePrefix) % GroupSize]
    {
      GroupsAt(sc.images, sc.imageSize, LiveAlpha, i - LivePrefix);
      assert f[i] == g[i - LivePrefix];
    }
    if !(sc.useBackgroundImage && sc.backgroundComplete) {
      if n == 0 {
        assert f[|f| - 1] == FillRect(0.0, 0.0, sc.width as real, sc.height as real);
      } else {
        GroupsAt(sc.images, sc.imageSize, LiveAlpha, GroupSize * n - 1);
        assert f[|f| - 1] == g[GroupSize * n - 1];
      }
    }
  }

  /**
   * Photo `k` of the list is drawn by the group at calls 3 + 8k .. 3 + 8k + 7: at
   * opacity 0.9, clipped to the circle of radius `imageSize / 2` centred on its
   * stored centre, into the square of side `imageSize` around that centre.
   */
  lemma LivePhotoLayer(sc: Scene, k: nat)
    requires k < |sc.images| && !LiveAborts(sc)
    ensures var f, p, r, s := LiveFrame(sc), sc.images[k], Radius(sc.imageSize), sc.imageSize as real;
      var base := LivePrefix + GroupSize * k;
      base + GroupSize <= |f| &&
      f[base] == Save && f[base + 1] == SetGlobalAlpha(0.9) &&
      f[base + 3] == Arc(p.x, p.y, r) && f[base + 5] == Clip &&
      f[base + 6] == DrawImage(Upload(p.img), p.x - r, p.y - r, s, s) &&
      f[base + 7] == Restore
  {
    LiveGroupInFrame(sc, k);
    var grp := ImageGroup(sc.images[k], sc.imageSize, LiveAlpha);
    var base := LivePrefix + GroupSize * k;
    assert LiveFrame(sc)[base] == grp[0];
    assert LiveFrame(sc)[base + 1] == grp[1];
    assert LiveFrame(sc)[base + 3] == grp[3];
    assert LiveFrame(sc)[base + 5] == grp[5];
    assert LiveFrame(sc)[base + 6] == grp[6];
    assert LiveFrame(sc)[base + 7] == grp[7];
  }

  /** The group of photo `k` sits right after the three opening calls and the groups of the photos before it. */
  lemma LiveGroupInFrame(sc: Scene, k: nat)
    requires k < |sc.images| && !LiveAborts(sc)
    ensures var f, base := LiveFrame(sc), LivePrefix + GroupSize * k;
      base + GroupSize <= |f| &&
      forall j :: 0 <= j < GroupSize ==> f[base + j] == ImageGroup(sc.images[k], sc.imageSize, LiveAlpha)[j]
  {
    var f, g := LiveFrame(sc), Groups(sc.images, sc.imageSize, LiveAlpha);
    GroupsSlice(sc.images, sc.imageSize, LiveAlpha, k);
    var m := GroupSize * k;
    var grp := ImageGroup(sc.images[k], sc.imageSize, LiveAlpha);
    var w, h := sc.width as real, sc.height as real;
    var head := [ClearRect(0.0, 0.0, w, h), SetFillStyle(sc.backgroundColor), FillRect(0.0, 0.0, w, h)];
    assert f == head + g + BackgroundLayer(sc, w, h);
    forall j | 0 <= j < GroupSize ensures f[LivePrefix + m + j] == grp[j] {
      assert f[LivePrefix + m + j] == g[m + j];
      assert g[m .. m + GroupSize][j] == g[m + j];
    }
  }

  /**
   * Each photo is drawn exactly once: within the photo groups, the calls that draw
   * are exactly those at offset 6 of a group, and the one in group `k` draws photo `k`.
   */
  lemma LiveFrameDrawsEachPhotoOnce(sc: Scene)
    requires !LiveAborts(sc)
    ensures var f, n := LiveFrame(sc), |sc.images|;
      LivePrefix + GroupSize * n <= |f| &&
      forall i :: LivePrefix <= i < LivePrefix + GroupSize * n ==>
        (f[i].DrawImage? <==> (i - LivePrefix) % GroupSize == 6) &&
        (f[i].DrawImage? ==> f[i].src == Upload(sc.images[(i - LivePrefix) / GroupSize].img))
  {
    LiveFrameLayout(sc);
  }
}
