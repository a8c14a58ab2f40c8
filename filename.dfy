/**
 * The name of the downloaded file: `high-quality-image-<timestamp>.<ext>`, where the
 * timestamp is `Date.prototype.toISOString()` with every ':' and '.' turned into '-',
 * and the extension follows the requested image format.
 */
module FileName {

  const Prefix: string := "high-quality-image-"
  const PngFormat: string := "image/png"
  const JpegFormat: string := "image/jpeg"

  /** The characters `/[:.]/g` matches. */
  predicate IsReplaced(c: char) {
    c == ':' || c == '.'
  }

  /** `timestamp.replace(/[:.]/g, '-')`. */
  function Sanitize(timestamp: string): (r: string)
    ensures |r| == |timestamp|
    ensures forall i :: 0 <= i < |r| ==> r[i] == (if IsReplaced(timestamp[i]) then '-' else timestamp[i])
  {
    if timestamp == [] then []
    else [if IsReplaced(timestamp[0]) then '-' else timestamp[0]] + Sanitize(timestamp[1..])
  }

  /** The sanitised timestamp has no ':' or '.', and changes nothing else. */
  lemma SanitizeRemovesSeparators(timestamp: string)
    ensures forall i :: 0 <= i < |Sanitize(timestamp)| ==> !IsReplaced(Sanitize(timestamp)[i])
    ensures forall i :: 0 <= i < |timestamp| && !IsReplaced(timestamp[i]) ==> Sanitize(timestamp)[i] == timestamp[i]
    ensures forall i :: 0 <= i < |timestamp| && Sanitize(timestamp)[i] != timestamp[i] ==> IsReplaced(timestamp[i])
  {}

  /** Sanitising twice is sanitising once. */
  lemma SanitizeIdempotent(timestamp: string)
    ensures Sanitize(Sanitize(timestamp)) == Sanitize(timestamp)
  {
    var once := Sanitize(timestamp);
    assert |Sanitize(once)| == |once|;
    forall i | 0 <= i < |once| ensures Sanitize(once)[i] == once[i] {}
  }

  /** `format === 'image/png' ? 'png' : 'jpg'`. */
  function Extension(format: string): (ext: string)
    ensures |ext| == 3
    ensures ext == "png" <==> format == PngFormat
    ensures format != PngFormat ==> ext == "jpg"
  {
    if format == PngFormat then "png" else "jpg"
  }

  /** `format === 'image/jpeg' ? 0.9 : 1.0`, the encoder quality handed to `toBlob`. */
  function Quality(format: string): (q: real)
    ensures 0.0 < q <= 1.0
    ensures q < 1.0 <==> format == JpegFormat
    ensures format == JpegFormat ==> q == 0.9
  {
    if format == JpegFormat then 0.9 else 1.0
  }

  /** The `download` attribute of the link. */
  function DownloadName(format: string, timestamp: string): (name: string)
    ensures |name| == |Prefix| + |timestamp| + 4
    ensures name[..|Prefix|] == Prefix && name[|name| - 4..] == "." + Extension(format)
  {
    Prefix + Sanitize(timestamp) + "." + Extension(format)
  }

  /**
   * Between the prefix and the extension the name carries the sanitised timestamp;
   * the '.' before the extension is the only one in the name and no ':' appears.
   */
  lemma DownloadNameShape(format: string, timestamp: string)
    ensures var name := DownloadName(format, timestamp);
      name[|Prefix|..|Prefix| + |timestamp|] == Sanitize(timestamp)
    ensures var name := DownloadName(format, timestamp);
      forall i :: 0 <= i < |name| ==> name[i] != ':' && (name[i] == '.' <==> i == |name| - 4)
  {
    var name := DownloadName(format, timestamp);
    var st := Sanitize(timestamp);
    var tail := "." + Extension(format);
    assert name == Prefix + st + tail;
    forall i | 0 <= i < |name| ensures name[i] != ':' && (name[i] == '.' <==> i == |name| - 4) {
      if i < |Prefix| {
        assert name[i] == Prefix[i];
      } else if i < |Prefix| + |st| {
        assert name[i] == st[i - |Prefix|];
      } else {
        assert name[i] == tail[i - |Prefix| - |st|];
      }
    }
  }

  /** A character of the form `toISOString` writes at position `i` of "YYYY-MM-DDTHH:mm:ss.sssZ". */
  predicate IsoCharAt(c: char, i: nat) {
    if i == 4 || i == 7 then c == '-'
    else if i == 10 then c == 'T'
    else if i == 13 || i == 16 then c == ':'
    else if i == 19 then c == '.'
    else if i == 23 then c == 'Z'
    else '0' <= c <= '9'
  }

  /** A timestamp as `toISOString` writes it for a year between 0 and 9999. */
  predicate IsIsoTimestamp(t: string) {
    |t| == 24 && forall i :: 0 <= i < 24 ==> IsoCharAt(t[i], i)
  }

  /**
   * On ISO timestamps sanitising loses nothing: the separators sit at fixed places, so
   * two different instants never share a file name.
   */
  lemma SanitizeInjectiveOnIso(t1: string, t2: string)
    requires IsIsoTimestamp(t1) && IsIsoTimestamp(t2)
    requires Sanitize(t1) == Sanitize(t2)
    ensures t1 == t2
  {
    forall i | 0 <= i < 24 ensures t1[i] == t2[i] {
      assert Sanitize(t1)[i] == Sanitize(t2)[i];
      assert IsoCharAt(t1[i], i) && IsoCharAt(t2[i], i);
    }
  }

  /** Distinct ISO timestamps give distinct download names. */
  lemma DownloadNameInjectiveOnIso(format: string, t1: string, t2: string)
    requires IsIsoTimestamp(t1) && IsIsoTimestamp(t2)
    requires DownloadName(format, t1) == DownloadName(format, t2)
    ensures t1 == t2
  {
    DownloadNameShape(format, t1);
    DownloadNameShape(format, t2);
    SanitizeInjectiveOnIso(t1, t2);
  }
}
