# Avatar compositor: a Dafny model

The page composes uploaded photos, each cropped to a circle, on a square canvas. The
user drags the photos around. A colour fill or a background preset image sits behind
or on top of them. A download button exports the composition at a higher resolution.
This project models the compositing core of `js/avatar-js/index.js` and proves what
that script guarantees:

- **Composition state and dragging** (`editor.dfy`, `scene.dfy`). The script's
  module-level variables are the fields of the class `Editor.Compositor`. Each event
  handler is a method that updates them in place. `dragging` is a three-state value:
  - `Idle` (`null`);
  - `Dragging(i)`, a photo of the list;
  - `Detached`, a photo that a later upload removed from the list.

  The hit test is the pure function `Scene.FindHit`. It returns the earliest photo
  whose centre is within `imageSize / 2` of the pointer.
- **Live renderer** (`renderer.dfy`). `drawImages` is modelled as the list of calls it
  issues on the 2D context (`Canvas.DrawCmd`). The order of these calls gives the
  layering: clear, colour fill, one save/alpha/clip/draw/restore group per photo, and
  the background preset last.
- **Exporter** (`exporter.dfy`, `numbers.dfy`). This covers:
  - the resolution control read with JavaScript `parseInt` and defaulting to 3;
  - the size of the offscreen canvas, including the HTML rules for canvas sizes that
    are out of range;
  - the calls issued on the offscreen canvas.

  The export's photo groups are proved to be the live ones at full opacity, with
  every length scaled.
- **File name** (`filename.dfy`). The `toISOString` timestamp has every `:` and `.`
  replaced by `-`. It is wrapped as `high-quality-image-<ts>.<ext>`.

Pixels, clipping and blending are not computed. A frame is the sequence of calls, and
the layering, opacity and geometry facts are proved about that sequence.

The export skips the colour fill whenever the background preset is switched on
(index.js:143), but draws the preset only once it has loaded (index.js:175). So
while the preset is still loading, the export has neither the fill nor the
background, whereas the live frame still shows the colour fill
(`Exporter.ExportPendingBackgroundIsBare`).

`arc` throws an IndexSizeError when its radius is negative. The live radius is
`imageSize / 2` and the export radius is `(imageSize / 2) * resolution`, so a negative
size, or a negative scale factor from the resolution control, stops the drawing at the
first photo's `arc`. The model keeps these error paths:
- the frame ends after the first group's `beginPath` (`Renderer.LiveAborts`,
  `Exporter.ExportAborts`);
- the handler's earlier state changes stay in place;
- an aborted export never reaches `toBlob`, so no file is named.

## Model

| member | source | states |
|---|---|---|
| `Scene.Hits` | js/avatar-js/index.js:105 | a hit needs a size of at least 0, and the photo's own centre is hit iff the size is at least 0 |
| `Scene.HitsIffWithinDistance` | js/avatar-js/index.js:105 | the squared-distance hit test agrees with `hypot(dx, dy) <= imageSize / 2` for the true distance `d`, including a negative size never hitting |
| `Scene.FindFrom` | js/avatar-js/index.js:105 | the index found from `from` on hits the pointer, and no earlier index from `from` does; when none is found, no photo from `from` on hits |
| `Scene.FindHit` | js/avatar-js/index.js:105 | `images.find`: the result hits the pointer and every earlier photo misses it; nothing is found iff no photo hits |
| `Scene.FindHitEarliest` | js/avatar-js/index.js:105 | any photo under the pointer guarantees a hit at or before its index: a later photo never wins over an earlier one |
| `Scene.HitScenario` | js/avatar-js/index.js:105 | with photos at (100,100) and (200,200) of diameter 80, a press at (105,105) picks the first and one at (250,250) picks none |
| `Renderer.ImageGroup` | js/avatar-js/index.js:85-92 | one photo's 8 calls open with `save` and close with `restore`; the only draw is at offset 6 and draws that photo; the arc is centred on the photo, and the drawn square is the arc's bounding square (corner at centre minus radius, side twice the radius) |
| `Renderer.LiveFrame` | js/avatar-js/index.js:76-98 | every frame opens with the full-canvas clear, the colour and the fill; when `arc` throws (a negative size with at least one photo), the frame ends with `save`, the 0.9 opacity and `beginPath`, and nothing is drawn |
| `Renderer.GroupsSlice` | js/avatar-js/index.js:84-93 | the `forEach` emits 8 calls per photo; calls 8k..8k+7 are exactly the group of photo k |
| `Renderer.BackgroundLayer` | js/avatar-js/index.js:96-98 | the background preset is drawn (once) iff it is switched on and its load is complete |
| `Renderer.LiveFrameLayout` | js/avatar-js/index.js:76-98 | for a frame in which `arc` does not throw: frame length is 3 + 8n (+1 with the background); the frame starts with clear and a full-canvas colour fill, also when the background preset is on; the photo groups follow in list order; the last call is the background draw iff it is on and loaded |
| `Renderer.LivePhotoLayer` | js/avatar-js/index.js:84-93 | photo k is drawn at opacity 0.9, clipped to the circle at its (x, y) of radius `imageSize / 2`, into the square `(x - s/2, y - s/2, s, s)`, inside a save/restore pair |
| `Renderer.LiveGroupInFrame` | js/avatar-js/index.js:84-93 | for a frame in which `arc` does not throw, photo k's group sits right after the three opening calls and the groups of the photos before it |
| `Renderer.LiveFrameDrawsEachPhotoOnce` | js/avatar-js/index.js:84-93 | within the photo groups, a draw call occurs exactly at offset 6 of each group, and group k draws photo k |
| `Canvas.CanvasDimension` | js/avatar-js/index.js:139-140 | an assigned canvas size in 0..2^31-1 is kept as is; a negative one down to -2^31 (taken modulo 2^32) falls back to the default size; any result is in 0..2^31-1 or is the default |
| `Numbers.TrimStart` | js/avatar-js/index.js:133 | `parseInt` skips leading white space: the result is a suffix of the input, does not start with white space, and everything removed before it is white space |
| `Numbers.DigitPrefix` | js/avatar-js/index.js:133 | `parseInt` reads the longest run of digits: the result is a prefix of the input, all digits, and the next character is not one |
| `Numbers.ParseInt` | js/avatar-js/index.js:133 | after the leading white space, a digit 1-9 gives a number that is not negative, and a character that is neither a sign nor a decimal digit (or no character) gives NaN |
| `Numbers.ParseIntDecimal` | js/avatar-js/index.js:133 | `parseInt` reads back the decimal spelling of every n >= 0 |
| `Numbers.ParseIntSignedDecimal` | js/avatar-js/index.js:133 | after a `-` the spelling of n reads back as -n, and after a `+` as n |
| `Numbers.ParseIntSkipsWhiteSpace` | js/avatar-js/index.js:133 | a leading white-space character does not change what `parseInt` returns |
| `Numbers.ParseIntStopsAtNonDigit` | js/avatar-js/index.js:133 | characters after the digits of n, from the first non-digit on, are ignored (`parseInt("5x")` is 5); the one exception is an `x` or `X` after a lone "0", which makes a hex prefix |
| `Exporter.Resolution` | js/avatar-js/index.js:133 | the scale factor (the parsed value, or 3 when that is falsy) is never 0; it is 3 iff the value parses to NaN, 0 or 3; otherwise it is the parsed number |
| `Exporter.ResolutionOfDecimal` | js/avatar-js/index.js:133 | a control value spelling a positive integer n gives the scale factor n |
| `Exporter.ExportWidth` | js/avatar-js/index.js:139 | the offscreen width is `canvas.width * resolution` whenever that is in 0..2^31-1, and otherwise in that range or the default 300 |
| `Exporter.ExportHeight` | js/avatar-js/index.js:140 | the offscreen height is `canvas.height * resolution` whenever that is in 0..2^31-1, and otherwise in that range or the default 150 |
| `Exporter.ExportSize` | js/avatar-js/index.js:139-140 | for every scale factor >= 1 that keeps the size in range, the offscreen canvas is `width*resolution` by `height*resolution` |
| `Exporter.ExportRadius` | js/avatar-js/index.js:157 | the export radius `(imageSize / 2) * resolution` is negative iff the size and the scale factor have opposite signs |
| `Exporter.ExportGroup` | js/avatar-js/index.js:149-172 | one exported photo group has 8 calls, opens with `save` and closes with `restore`; its arc is centred on the photo's centre times the scale factor, with the export radius |
| `Exporter.ExportGroupFillsClipSquare` | js/avatar-js/index.js:155-168 | the exported photo is drawn into the bounding square of its clip circle: corner at centre minus radius, side twice the radius |
| `Exporter.ExportFill` | js/avatar-js/index.js:143-146 | the fill takes two calls when the background preset is off and none when it is on |
| `Exporter.ExportBackground` | js/avatar-js/index.js:174-177 | the background preset is drawn once over the whole offscreen canvas iff it is on and loaded |
| `Exporter.ExportFrame` | js/avatar-js/index.js:142-177 | when `arc` throws (at least one photo and a negative export radius), the export ends after the fill (if any) with `save`, opacity 1.0 and `beginPath`, and nothing is drawn |
| `Exporter.ExportGroupIsScaledLiveGroup` | js/avatar-js/index.js:149-172 | one exported photo group equals the live group at opacity 1.0 with every coordinate and length multiplied by the scale factor |
| `Exporter.ExportGroupsAreScaledLive` | js/avatar-js/index.js:149-172 | all exported photo groups, in list order, equal the live groups at opacity 1.0, scaled |
| `Exporter.GroupsDifferOnlyInAlpha` | js/avatar-js/index.js:149-172 | groups rendered at two opacities differ only in the opacity call, at offset 1 of each group |
| `Exporter.ExportFrameLayout` | js/avatar-js/index.js:142-177 | for an export in which `arc` does not throw: the colour fill opens the export iff the background preset is off; its length is the fill, 8 calls per photo and the background draw if any; the last call is the background draw over the whole offscreen canvas iff the preset is on and loaded |
| `Exporter.ExportGroupInFrame` | js/avatar-js/index.js:149-172 | for an export in which `arc` does not throw, photo k's exported group sits right after the fill (if any) and the groups of the photos before it |
| `Exporter.ExportPhotoLayer` | js/avatar-js/index.js:155-169 | for an export in which `arc` does not throw, photo k is exported at opacity 1.0, clipped to the circle at `(x*res, y*res)` of radius `(imageSize/2)*res`, drawn into the square scaled by `res` |
| `Exporter.ExportPendingBackgroundIsBare` | js/avatar-js/index.js:142-177 | with the preset on but not loaded, the export holds only the photo groups, while the live frame still fills with the colour |
| `Exporter.ExportScenario` | js/avatar-js/index.js:155-159 | one photo at (50,50) with diameter 40, exported at 3x, is clipped to the circle centred at (150,150) with radius 60 |
| `FileName.Sanitize` | js/avatar-js/index.js:191 | `replace(/[:.]/g, '-')` keeps the length and changes exactly the `:` and `.` characters, to `-` |
| `FileName.SanitizeRemovesSeparators` | js/avatar-js/index.js:191 | the sanitised timestamp contains no `:` or `.`; it differs from the input only where those were |
| `FileName.SanitizeIdempotent` | js/avatar-js/index.js:191 | sanitising an already sanitised timestamp changes nothing |
| `FileName.Extension` | js/avatar-js/index.js:190 | the extension has 3 letters; it is `png` iff the format is `image/png`, and `jpg` for every other format |
| `FileName.Quality` | js/avatar-js/index.js:132 | the encoder quality lies in (0, 1]; it is below 1 iff the format is `image/jpeg`, and then it is 0.9 |
| `FileName.DownloadName` | js/avatar-js/index.js:193 | the name is 4 characters longer than prefix and timestamp together, starts with `high-quality-image-` and ends in `.` and the extension |
| `FileName.DownloadNameShape` | js/avatar-js/index.js:193 | between prefix and extension the name carries the sanitised timestamp; it has no `:`, and its only `.` is the one before the extension |
| `FileName.SanitizeInjectiveOnIso` | js/avatar-js/index.js:191 | on `toISOString` timestamps (years 0-9999) the replacement loses nothing: equal sanitised forms mean equal timestamps |
| `FileName.DownloadNameInjectiveOnIso` | js/avatar-js/index.js:191-193 | two exports whose `toISOString` timestamps differ (24 characters, years 0-9999) get different file names; exports within the same millisecond share a timestamp and so a name |
| `Editor.CanvasSide` | js/avatar-js/index.js:48-50 | the canvas side is at most 600 and is 90% of the viewport width, truncated, whenever that is below 600 |
| `Editor.BackgroundPath` | js/avatar-js/index.js:27 | a background option's path is `./img/<option>.png`; both branches of the extension choice give `png` |
| `Editor.Compositor.constructor` | js/avatar-js/index.js:12-17 | startup state: no photos, no drag, the controls' initial values, background `./img/bg.png`, square canvas from the viewport, first frame drawn |
| `Editor.Compositor.DrawImages` | js/avatar-js/index.js:76-99 | the `forEach` loop issues exactly the live frame of the current state, stopping at the first `arc` when that throws |
| `Editor.Compositor.SelectBackground` | js/avatar-js/index.js:20-35 | choosing a preset sets its path, switches the background image on and redraws; nothing else changes |
| `Editor.Compositor.SetBackgroundComplete` | js/avatar-js/index.js:96 | the loader's `complete` flag changes without a redraw |
| `Editor.Compositor.SetUseBackground` | js/avatar-js/index.js:37-41 | the checkbox sets `useBackgroundImage` and redraws |
| `Editor.Compositor.SetBackgroundColor` | js/avatar-js/index.js:43-46 | the picker sets `backgroundColor` and redraws |
| `Editor.Compositor.SetImageSize` | js/avatar-js/index.js:56-61 | the slider sets `imageSize` and redraws |
| `Editor.Compositor.Resize` | js/avatar-js/index.js:48-54 | the canvas becomes a `CanvasSide` square and is redrawn; the photos keep their coordinates |
| `Editor.Compositor.BeginUpload` | js/avatar-js/index.js:63-65 | a new selection empties `images` without redrawing; an ongoing drag becomes `Detached` |
| `Editor.Compositor.ImageLoaded` | js/avatar-js/index.js:66-72 | a finished load appends the photo at `(width/2, height/2)`; earlier entries are untouched; the canvas is redrawn |
| `Editor.Compositor.StartDrag` | js/avatar-js/index.js:102-106 | the drag state becomes `Dragging(i)` for the `FindHit` result, or `Idle` when nothing is hit |
| `Editor.Compositor.MoveDrag` | js/avatar-js/index.js:107-116 | in `Dragging(i)` only photo i moves, to the pointer, keeping its handle; length and the other photos are unchanged. `Idle` changes nothing and does not redraw; `Detached` only redraws |
| `Editor.Compositor.StopDrag` | js/avatar-js/index.js:117 | the drag state becomes `Idle` and the photos are unchanged, so stopping twice is stopping once |
| `Editor.Compositor.Download` | js/avatar-js/index.js:130-203 | the export loop issues exactly the export frame at `Resolution(value)`, on a canvas of `ExportWidth` by `ExportHeight`, with the format's quality; a file name exists iff `arc` did not throw and a blob was produced |
| `Editor.Compositor.DrawOffscreen` | js/avatar-js/index.js:142-177 | the offscreen loop issues exactly the export frame, stopping at the first `arc` when that throws; it reports completion iff the export does not abort |
| `Editor.Compositor.DrawPhotosOffscreen` | js/avatar-js/index.js:149-172 | the offscreen `forEach` issues all exported photo groups, or, when `arc` throws, only the first group's calls before the arc |

## Left out

- DOM lookups, listener registration, `preventDefault`, passive flags, the checkbox's
  and colour picker's `disabled`/`checked` UI state, the size label text and
  `console.log`/`console.error`. They are page plumbing with no effect on the
  composition.
- Pointer coordinates (`offsetX`, touches, `getBoundingClientRect`) are method
  parameters.
- Asynchronous decoding. Each completed load is the explicit call `ImageLoaded`, so
  the append order is the order in which loads complete. A load from an earlier
  selection that completes after a new selection is appended to the new list, as in
  the script.
- `backgroundImage.complete` is browser state. It is a field set by
  `SetBackgroundComplete` and by `SelectBackground`'s `loaded` argument.
- `toBlob`, object URLs, the link click and `Date().toISOString()`. The timestamp and
  whether a blob was produced are inputs to `Download`.
- The export format is a parameter. The script fixes it to `image/png`.
- Editor.Compositor.SetImageSize: takes the slider value as an integer. The `NaN` that
  `parseInt` gives for a malformed value is not modelled.
- Floating point. Coordinates are exact reals, and `Math.hypot` becomes a squared
  distance. `innerWidth * 0.9` is exact. `Math.PI * 2` is implicit in `Arc` (always a
  full circle). `parseInt` results beyond 2^53 are not rounded.
- Numbers.TrimStart: white space is the ECMAScript set, listed explicitly. Only the
  radix-less form of `parseInt` is modelled, because the script calls no other.
- FileName.SanitizeInjectiveOnIso: covers only 24-character timestamps (years 0 to
  9999). The six-digit signed years of `toISOString` are not modelled.
- Editor.Compositor.DrawImages: a background preset whose load failed is treated like a
  loaded one and drawn. The InvalidStateError that `drawImage` throws for a broken
  image is not modelled, because the presets are files served with the page.
- Editor.Compositor.Download: the same holds for a broken preset on the export.
- Context state that an aborted frame leaves behind is not modelled. `save` is never
  matched by `restore`, so the 0.9 opacity carries into later frames. A frame is its
  list of calls, so later frames list the same calls.
- Rasterisation, alpha blending and clipping are not modelled. A frame is its list of
  calls, and `drawImage` of a photo that is still decoding is not distinguished.
