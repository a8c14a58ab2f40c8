/**
 * The composition: the uploaded photos placed on the canvas and the settings the
 * renderer reads, plus the circular hit test used to pick a photo for dragging.
 */
module Scene {
  import opened Wrappers

  /** An uploaded photo, by its load handle, and the centre of its circular crop. */
  datatype Placed = Placed(img: nat, x: real, y: real)

  /** Everything `drawImages` and the export read, as one value. */
  datatype Scene = Scene(
    images: seq<Placed>,        // in append order: later entries are drawn on top
    imageSize: int,             // diameter of every crop circle, in canvas pixels
    useBackgroundImage: bool,
    backgroundColor: string,
    backgroundPath: string,     // the `src` of the background preset
    backgroundComplete: bool,   // whether the browser has finished loading that preset
    width: nat,                 // canvas.width
    height: nat)                // canvas.height

  /** The crop radius `imageSize / 2`. */
  function Radius(imageSize: int): real {
    imageSize as real / 2.0
  }

  /**
   * `Math.hypot(px - x, py - y) <= imageSize / 2`, stated without a square root:
   * a distance is never negative, so a negative radius never hits.
   */
  predicate Hits(p: Placed, imageSize: int, px: real, py: real)
    ensures Hits(p, imageSize, px, py) ==> 0 <= imageSize
    ensures px == p.x && py == p.y ==> (Hits(p, imageSize, px, py) <==> 0 <= imageSize)
  {
    var r := Radius(imageSize);
    0.0 <= r && (px - p.x) * (px - p.x) + (py - p.y) * (py - p.y) <= r * r
  }

  /** Squaring is monotone on non-negative reals, in both directions. */
  lemma SquareMonotone(a: real, b: real)
    requires 0.0 <= a && 0.0 <= b
    ensures a <= b <==> a * a <= b * b
  {
    var aa, ab, bb := a * a, a * b, b * b;
    if a <= b {
      assert aa <= ab;
      assert ab <= bb;
    } else {
      assert bb <= ab;
      assert ab < aa;
    }
  }

  /** `Hits` agrees with comparing the Euclidean distance `d` against the radius. */
  lemma HitsIffWithinDistance(p: Placed, imageSize: int, px: real, py: real, d: real)
    requires 0.0 <= d && d * d == (px - p.x) * (px - p.x) + (py - p.y) * (py - p.y)
    ensures Hits(p, imageSize, px, py) <==> d <= Radius(imageSize)
  {
    var r := Radius(imageSize);
    if 0.0 <= r {
      SquareMonotone(d, r);
    }
  }

  /** First index at or after `from` whose photo `Hits` the pointer, scanning in list order. */
  function FindFrom(images: seq<Placed>, from: nat, imageSize: int, px: real, py: real): (r: Option<nat>)
    requires from <= |images|
    decreases |images| - from
    ensures r.Some? ==> from <= r.value < |images| && Hits(images[r.value], imageSize, px, py)
    ensures r.Some? ==> forall j :: from <= j < r.value ==> !Hits(images[j], imageSize, px, py)
    ensures r.None? ==> forall j :: from <= j < |images| ==> !Hits(images[j], imageSize, px, py)
  {
    if from == |images| then None
    else if Hits(images[from], imageSize, px, py) then Some(from)
    else FindFrom(images, from + 1, imageSize, px, py)
  }

  /**
   * `images.find(...)` in `startDrag`: the earliest-appended photo whose centre lies
   * within `imageSize / 2` of the pointer, or nothing when none does.
   */
  function FindHit(images: seq<Placed>, imageSize: int, px: real, py: real): (r: Option<nat>)
    ensures r.Some? ==> r.value < |images| && Hits(images[r.value], imageSize, px, py)
    ensures r.Some? ==> forall j :: 0 <= j < r.value ==> !Hits(images[j], imageSize, px, py)
    ensures r.None? <==> forall j :: 0 <= j < |images| ==> !Hits(images[j], imageSize, px, py)
  {
    FindFrom(images, 0, imageSize, px, py)
  }

  /** Any photo under the pointer is found, and what is found is never later than it. */
  lemma FindHitEarliest(images: seq<Placed>, imageSize: int, px: real, py: real, k: nat)
    requires k < |images| && Hits(images[k], imageSize, px, py)
    ensures FindHit(images, imageSize, px, py).Some?
    ensures FindHit(images, imageSize, px, py).value <= k
  {}

  /**
   * Two photos at (100, 100) and (200, 200) with diameter 80: a press at (105, 105)
   * picks the first, a press at (250, 250) picks none.
   */
  lemma HitScenario()
    ensures FindHit([Placed(1, 100.0, 100.0), Placed(2, 200.0, 200.0)], 80, 105.0, 105.0) == Some(0)
    ensures FindHit([Placed(1, 100.0, 100.0), Placed(2, 200.0, 200.0)], 80, 250.0, 250.0) == None
  {
    var images := [Placed(1, 100.0, 100.0), Placed(2, 200.0, 200.0)];
    assert Hits(images[0], 80, 105.0, 105.0);
    assert !Hits(images[0], 80, 250.0, 250.0) && !Hits(images[1], 80, 250.0, 250.0);
  }
}
