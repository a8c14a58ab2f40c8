/**
 * The 2D drawing context as a list of recorded calls. Nothing here rasterises:
 * a frame is the sequence of calls a script issues, in order.
 */
module Canvas {

  /** What a drawImage call paints: an uploaded photo (named by its load handle) or the background preset at a path. */
  datatype Source = Upload(id: nat) | Background(path: string)

  /** One call on a CanvasRenderingContext2D. `Arc` always spans the full circle, angle 0 to 2π. */
  datatype DrawCmd =
    | ClearRect(x: real, y: real, w: real, h: real)
    | SetFillStyle(color: string)
    | FillRect(x: real, y: real, w: real, h: real)
    | Save
    | SetGlobalAlpha(alpha: real)
    | BeginPath
    | Arc(cx: real, cy: real, radius: real)
    | ClosePath
    | Clip
    | DrawImage(src: Source, dx: real, dy: real, dw: real, dh: real)
    | Restore

  /** The same call with every coordinate and length multiplied by `k`. */
  function Scale(c: DrawCmd, k: real): DrawCmd {
    match c
    case ClearRect(x, y, w, h) => ClearRect(x * k, y * k, w * k, h * k)
    case FillRect(x, y, w, h) => FillRect(x * k, y * k, w * k, h * k)
    case Arc(cx, cy, r) => Arc(cx * k, cy * k, r * k)
    case DrawImage(src, dx, dy, dw, dh) => DrawImage(src, dx * k, dy * k, dw * k, dh * k)
    case _ => c
  }

  /** `Scale` applied to every call of a list. */
  function ScaleAll(cs: seq<DrawCmd>, k: real): (r: seq<DrawCmd>)
    ensures |r| == |cs|
    ensures forall i :: 0 <= i < |cs| ==> r[i] == Scale(cs[i], k)
  {
    if cs == [] then [] else [Scale(cs[0], k)] + ScaleAll(cs[1..], k)
  }

  lemma {:induction false} ScaleAllAppend(a: seq<DrawCmd>, b: seq<DrawCmd>, k: real)
    ensures ScaleAll(a + b, k) == ScaleAll(a, k) + ScaleAll(b, k)
  {
    var l, r := ScaleAll(a + b, k), ScaleAll(a, k) + ScaleAll(b, k);
    assert |l| == |r|;
    forall i | 0 <= i < |l| ensures l[i] == r[i] {
      if i < |a| { assert (a + b)[i] == a[i]; } else { assert (a + b)[i] == b[i - |a|]; }
    }
  }

  const UnsignedLongModulus: int := 0x1_0000_0000
  const MaxReflectedUnsigned: int := 0x7FFF_FFFF

  /**
   * The value a canvas `width` or `height` attribute takes after a script assigns
   * the integer `v`: Web IDL converts to unsigned long (modulo 2^32), and the HTML
   * rules for reflecting an unsigned long keep values up to 2^31 - 1 and fall back to
   * the attribute's default (300 for width, 150 for height) otherwise.
   */
  function CanvasDimension(v: int, default: nat): (d: nat)
    ensures d <= MaxReflectedUnsigned || d == default
    ensures 0 <= v <= MaxReflectedUnsigned ==> d == v
    ensures v < 0 && -v < UnsignedLongModulus - MaxReflectedUnsigned ==> d == default
  {
    var u := v % UnsignedLongModulus;
    if u <= MaxReflectedUnsigned then u else default
  }
}
